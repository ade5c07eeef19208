/**
 * From supervision to a status: the event loop of apps/sandbox/src/supervise.c, `conclude` of facts.c, the
 * facts the judge reads back (executor.go) and `classify` (result.go).
 *
 * Every answer of the kernel is an input: what poll reports, what each read returns, what the accounting
 * says.  Texts are kept as lists of causes, a text being empty exactly when its list is.
 */
module Supervision {
  import opened Common

  datatype Reason = NoReason | Cpu | Wall | Output | Cancelled | Platform

  datatype Cause =
    | PollFailed | ReadFailed | NoBaseline | ExecFailed | ExecTruncated | ShortReport | InitFailed
    | StartupTimeout | SampleFailed
    | PrepareFailed | CloneFailed | WatchFailed
    | ForeignOom | ReportLost | NotReclaimed | WriteFailed | CollectFailed

  const STARTUP_TIMEOUT_NS := 3_000_000_000
  const SIGKILL := 9

  // ----- inputs of one turn of the loop

  /** What draining a stream found: bytes, and how it ended. */
  datatype Drained = Drained(bytes: nat, ending: Ending)
  datatype Ending = Again | AtEof | Broken

  /** Reading the exec_error pipe; at EOF execve has succeeded, and the clock and the CPU baseline are taken. */
  datatype ExecRead = ExecAgain | ExecEof(now: int, baseline: Option<int>) | ExecRecord | ExecShort

  datatype ReportRead = ReportAgain | ReportEof | ReportShort | ReportInitFailed | ReportExit(code: int, signal: int)

  datatype Tick = TimerBroken | Tick(now: int, cpu: Option<int>)

  /** What poll reports; None where it reports nothing for a descriptor. */
  datatype Round =
    | Interrupted
    | PollError
    | Round(cancel: bool, out: Option<Drained>, err: Option<Drained>, exec: Option<ExecRead>,
            report: Option<ReportRead>, execAtReport: ExecRead, init: bool, timer: Option<Tick>)

  // ----- state

  /** struct supervision. */
  datatype Sup = Sup(reason: Reason, failure: seq<Cause>, exited: bool, exitCode: int, signal: int,
                     reportLost: bool, started: bool)

  /** A stream as far as its accounting goes; `drain` keeps min(total, limit) bytes (module Streams). */
  datatype Tap = Tap(open: bool, total: nat, limit: nat)

  predicate Exceeded(t: Tap) { t.total > t.limit }

  datatype Limits = Limits(cpuNs: int, clockNs: int)

  /** struct monitor. */
  datatype Mon = Mon(sup: Sup, out: Tap, err: Tap, execOpen: bool, reportOpen: bool, hasCancel: bool,
                     cancelled: bool, clonedAt: int, startedAt: int, cpuBase: int)

  function Start(outLimit: nat, errLimit: nat, hasCancel: bool, clonedAt: int): Mon {
    Mon(Sup(NoReason, [], false, 0, 0, false, false), Tap(true, 0, outLimit), Tap(true, 0, errLimit),
        true, true, hasCancel, false, clonedAt, 0, 0)
  }

  datatype Turn = Go(m: Mon) | Stop(m: Mon)

  /** `fail`: the first message stays, the reason is platform. */
  function Fail(m: Mon, c: Cause): Mon {
    m.(sup := m.sup.(failure := if m.sup.failure == [] then [c] else m.sup.failure, reason := Platform))
  }

  function OnExecError(m: Mon, r: ExecRead): Mon {
    match r
    case ExecAgain => m
    case ExecEof(now, baseline) =>
      var s := m.(execOpen := false, startedAt := now, sup := m.sup.(started := true));
      (match baseline
       case None => Fail(s, NoBaseline)
       case Some(cpu) => s.(cpuBase := cpu))
    case ExecRecord => Fail(m.(execOpen := false), ExecFailed)
    case ExecShort => Fail(m.(execOpen := false), ExecTruncated)
  }

  function OnReport(m: Mon, r: ReportRead, exec: ExecRead): Turn {
    match r
    case ReportAgain => Go(m)
    case ReportEof => Go(m.(reportOpen := false))
    case ReportShort => Stop(Fail(m.(reportOpen := false), ShortReport))
    case ReportInitFailed => Stop(Fail(m.(reportOpen := false), InitFailed))
    case ReportExit(code, signal) =>
      var closed := m.(reportOpen := false);
      var s := if m.execOpen then OnExecError(closed, exec) else closed;
      Stop(s.(sup := s.sup.(exited := true, exitCode := code, signal := signal)))
  }

  function OnTick(l: Limits, m: Mon, t: Tick): Turn {
    match t
    case TimerBroken => Go(m)
    case Tick(now, cpu) =>
      if !m.sup.started then
        if now - m.clonedAt > STARTUP_TIMEOUT_NS then Stop(Fail(m, StartupTimeout)) else Go(m)
      else if now - m.startedAt >= l.clockNs then Stop(m.(sup := m.sup.(reason := Wall)))
      else
        match cpu
        case None => Stop(Fail(m, SampleFailed))
        case Some(ns) =>
          if ns - m.cpuBase >= l.cpuNs then Stop(m.(sup := m.sup.(reason := Cpu))) else Go(m)
  }

  function Pour(t: Tap, d: Drained): Tap { t.(total := t.total + d.bytes, open := d.ending != AtEof) }

  /** Draining one stream: a broken read is a platform failure, too much output ends the execution. */
  function OnStream(m: Mon, t: Tap, d: Drained, poured: Mon): Turn {
    if d.ending == Broken then Stop(Fail(poured, ReadFailed))
    else if Exceeded(Pour(t, d)) then Stop(poured.(sup := poured.sup.(reason := Output)))
    else Go(poured)
  }

  function OnOut(m: Mon, r: Option<Drained>): Turn {
    if r.None? || !m.out.open then Go(m) else OnStream(m, m.out, r.value, m.(out := Pour(m.out, r.value)))
  }

  function OnErr(m: Mon, r: Option<Drained>): Turn {
    if r.None? || !m.err.open then Go(m) else OnStream(m, m.err, r.value, m.(err := Pour(m.err, r.value)))
  }

  function OnExec(m: Mon, r: Option<ExecRead>): Turn {
    if r.None? || !m.execOpen then Go(m)
    else
      var s := OnExecError(m, r.value);
      if s.sup.reason == Platform then Stop(s) else Go(s)
  }

  function OnReported(m: Mon, r: Option<ReportRead>, exec: ExecRead): Turn {
    if r.None? || !m.reportOpen then Go(m) else OnReport(m, r.value, exec)
  }

  function OnInit(m: Mon, gone: bool): Turn {
    if gone && !m.sup.exited then Stop(m.(sup := m.sup.(reportLost := true))) else Go(m)
  }

  function OnTimer(l: Limits, m: Mon, t: Option<Tick>): Turn {
    if t.None? then Go(m) else OnTick(l, m, t.value)
  }

  /** One turn of the loop: the order of the handlers is the order of priority. */
  function Handle(l: Limits, m: Mon, r: Round): Turn {
    match r
    case Interrupted => Go(m)
    case PollError => Stop(Fail(m, PollFailed))
    case Round(cancel, out, err, exec, report, execAtReport, init, timer) =>
      if m.hasCancel && cancel then Stop(m.(cancelled := true, sup := m.sup.(reason := Cancelled)))
      else
        var a := OnOut(m, out);
        if a.Stop? then a else
        var b := OnErr(a.m, err);
        if b.Stop? then b else
        var c := OnExec(b.m, exec);
        if c.Stop? then c else
        var d := OnReported(c.m, report, execAtReport);
        if d.Stop? then d else
        var e := OnInit(d.m, init);
        if e.Stop? then e else
        OnTimer(l, e.m, timer)
  }

  /** The whole loop, up to the first turn that stops it. */
  function Supervise(l: Limits, m: Mon, rounds: seq<Round>): Turn
    decreases |rounds|
  {
    if rounds == [] then Go(m)
    else
      var t := Handle(l, m, rounds[0]);
      if t.Stop? then t else Supervise(l, t.m, rounds[1..])
  }

  // ----- the loop over struct monitor

  class Monitor {
    const limits: Limits
    var sup: Sup
    var out: Tap
    var err: Tap
    var execOpen: bool
    var reportOpen: bool
    const hasCancel: bool
    var cancelled: bool
    const clonedAt: int
    var startedAt: int
    var cpuBase: int

    function View(): Mon
      reads this
    {
      Mon(sup, out, err, execOpen, reportOpen, hasCancel, cancelled, clonedAt, startedAt, cpuBase)
    }

    constructor (limits: Limits, outLimit: nat, errLimit: nat, hasCancel: bool, clonedAt: int)
      ensures View() == Start(outLimit, errLimit, hasCancel, clonedAt) && this.limits == limits
    {
      this.limits, this.hasCancel, this.clonedAt := limits, hasCancel, clonedAt;
      sup := Sup(NoReason, [], false, 0, 0, false, false);
      out, err := Tap(true, 0, outLimit), Tap(true, 0, errLimit);
      execOpen, reportOpen, cancelled, startedAt, cpuBase := true, true, false, 0, 0;
    }

    method FailWith(c: Cause)
      modifies this
      ensures View() == Fail(old(View()), c)
    {
      if sup.failure == [] {
        sup := sup.(failure := [c]);
      }
      sup := sup.(reason := Platform);
    }

    method ReadExecError(r: ExecRead)
      modifies this
      ensures View() == OnExecError(old(View()), r)
    {
      if r.ExecAgain? {
        return;
      }
      execOpen := false;
      if r.ExecEof? {
        sup := sup.(started := true);
        startedAt := r.now;
        if r.baseline.None? {
          FailWith(NoBaseline);
        } else {
          cpuBase := r.baseline.value;
        }
        return;
      }
      FailWith(if r.ExecRecord? then ExecFailed else ExecTruncated);
    }

    method ReadReport(r: ReportRead, exec: ExecRead) returns (stop: bool)
      modifies this
      ensures (if stop then Stop(View()) else Go(View())) == OnReport(old(View()), r, exec)
    {
      if r.ReportAgain? {
        return false;
      }
      reportOpen := false;
      if r.ReportEof? {
        return false;
      }
      if r.ReportShort? {
        FailWith(ShortReport);
        return true;
      }
      if r.ReportInitFailed? {
        FailWith(InitFailed);
        return true;
      }
      if execOpen {
        ReadExecError(exec);
      }
      sup := sup.(exited := true, exitCode := r.code, signal := r.signal);
      stop := true;
    }

    method ReadTimer(t: Tick) returns (stop: bool)
      modifies this
      ensures (if stop then Stop(View()) else Go(View())) == OnTick(limits, old(View()), t)
    {
      if t.TimerBroken? {
        return false;
      }
      if !sup.started {
        if t.now - clonedAt > STARTUP_TIMEOUT_NS {
          FailWith(StartupTimeout);
          return true;
        }
        return false;
      }
      if t.now - startedAt >= limits.clockNs {
        sup := sup.(reason := Wall);
        return true;
      }
      if t.cpu.None? {
        FailWith(SampleFailed);
        return true;
      }
      if t.cpu.value - cpuBase >= limits.cpuNs {
        sup := sup.(reason := Cpu);
        return true;
      }
      stop := false;
    }

    /** The two streams of one turn. */
    method ReadStreams(outRead: Option<Drained>, errRead: Option<Drained>) returns (stop: bool)
      modifies this
      ensures var a := OnOut(old(View()), outRead);
              (if stop then Stop(View()) else Go(View())) == if a.Stop? then a else OnErr(a.m, errRead)
    {
      if outRead.Some? && out.open {
        out := Pour(out, outRead.value);
        if outRead.value.ending == Broken {
          FailWith(ReadFailed);
          return true;
        }
        if Exceeded(out) {
          sup := sup.(reason := Output);
          return true;
        }
      }
      if errRead.Some? && err.open {
        err := Pour(err, errRead.value);
        if errRead.value.ending == Broken {
          FailWith(ReadFailed);
          return true;
        }
        if Exceeded(err) {
          sup := sup.(reason := Output);
          return true;
        }
      }
      stop := false;
    }

    /** One turn. */
    method Poll(r: Round) returns (stop: bool)
      modifies this
      ensures (if stop then Stop(View()) else Go(View())) == Handle(limits, old(View()), r)
    {
      if r.Interrupted? {
        return false;
      }
      if r.PollError? {
        FailWith(PollFailed);
        return true;
      }
      if hasCancel && r.cancel {
        cancelled := true;
        sup := sup.(reason := Cancelled);
        return true;
      }
      stop := ReadStreams(r.out, r.err);
      if stop {
        return;
      }
      if r.exec.Some? && execOpen {
        ReadExecError(r.exec.value);
        if sup.reason == Platform {
          return true;
        }
      }
      if r.report.Some? && reportOpen {
        stop := ReadReport(r.report.value, r.execAtReport);
        if stop {
          return;
        }
      }
      if r.init && !sup.exited {
        sup := sup.(reportLost := true);
        return true;
      }
      if r.timer.Some? {
        stop := ReadTimer(r.timer.value);
      }
    }

    /** `supervise` over the rounds that poll delivers. */
    method Run(rounds: seq<Round>) returns (stop: bool)
      modifies this
      ensures (if stop then Stop(View()) else Go(View())) == Supervise(limits, old(View()), rounds)
    {
      hide Handle;
      ghost var start := View();
      stop := false;
      var i := 0;
      while i < |rounds| && !stop
        invariant 0 <= i <= |rounds|
        invariant if stop then Stop(View()) == Supervise(limits, start, rounds)
                  else Supervise(limits, start, rounds) == Supervise(limits, View(), rounds[i..])
        decreases |rounds| - i, !stop
      {
        assert rounds[i..][1..] == rounds[i + 1..];
        stop := Poll(rounds[i]);
        i := i + 1;
      }
    }
  }

  // ----- what every event sequence keeps

  /** As long as the loop goes on, nothing has gone wrong and nothing has ended. */
  ghost predicate Undecided(m: Mon) {
    && m.sup.reason == NoReason && m.sup.failure == [] && !m.sup.exited && !m.sup.reportLost && !m.cancelled
    && m.sup.signal == 0 && !Exceeded(m.out) && !Exceeded(m.err)
    && (m.execOpen <==> !m.sup.started)
  }

  /** How the loop can end. */
  ghost predicate Decided(m: Mon) {
    && (m.sup.failure != [] <==> m.sup.reason == Platform)
    && (m.cancelled <==> m.sup.reason == Cancelled)
    && (m.sup.reason == NoReason ==> m.sup.exited || m.sup.reportLost)
    && (m.sup.reportLost ==> m.sup.reason == NoReason && !m.sup.exited)
    && (m.sup.exited ==> m.sup.reason == NoReason || m.sup.reason == Platform)
    && (m.sup.reason == Output ==> Exceeded(m.out) || Exceeded(m.err))
    && (Exceeded(m.out) || Exceeded(m.err) ==> m.sup.reason == Output || m.sup.reason == Platform)
    && (m.sup.reason == Wall || m.sup.reason == Cpu ==> m.sup.started)
    && (!m.sup.exited ==> m.sup.signal == 0)
  }

  /** Once the payload has exited, the exec_error pipe has data or is at its end. */
  ghost predicate Settled(r: Round) {
    r.Round? && r.report.Some? && r.report.value.ReportExit? ==> !r.execAtReport.ExecAgain?
  }

  ghost predicate Kept(t: Turn) { if t.Stop? then Decided(t.m) else Undecided(t.m) }

  /** The handlers before the report: they stop for a reason of their own, or leave the report to be read. */
  ghost predicate Early(m: Mon, t: Turn) {
    && (t.Go? ==> t.m.reportOpen == m.reportOpen && t.m.hasCancel == m.hasCancel)
    && (t.Stop? ==> !t.m.sup.exited && !t.m.sup.reportLost && t.m.sup.reason in {Cancelled, Output, Platform})
  }

  lemma StreamKept(m: Mon, out: Option<Drained>, err: Option<Drained>)
    requires Undecided(m)
    ensures Kept(OnOut(m, out)) && Early(m, OnOut(m, out))
    ensures Kept(OnErr(m, err)) && Early(m, OnErr(m, err))
  {
    OutKept(m, out);
    ErrKept(m, err);
  }

  lemma OutKept(m: Mon, out: Option<Drained>)
    requires Undecided(m)
    ensures Kept(OnOut(m, out)) && Early(m, OnOut(m, out))
  {
  }

  lemma ErrKept(m: Mon, err: Option<Drained>)
    requires Undecided(m)
    ensures Kept(OnErr(m, err)) && Early(m, OnErr(m, err))
  {
  }

  lemma ExecKept(m: Mon, exec: Option<ExecRead>)
    requires Undecided(m)
    ensures Kept(OnExec(m, exec)) && Early(m, OnExec(m, exec))
  {
  }

  lemma ReportedKept(m: Mon, report: Option<ReportRead>, exec: ExecRead)
    requires Undecided(m)
    ensures var t := OnReported(m, report, exec);
            && Kept(t)
            && (t.Stop? ==> !t.m.sup.reportLost)
            && (m.reportOpen && report.Some? && report.value.ReportExit? ==>
                  t.Stop? && t.m.sup.exited && t.m.sup.exitCode == report.value.code && t.m.sup.signal == report.value.signal)
            && (t.Stop? && t.m.sup.exited && t.m.sup.reason == NoReason ==> report.Some? && report.value.ReportExit?)
            && (t.Stop? && t.m.sup.exited && t.m.sup.reason == NoReason && !exec.ExecAgain? ==> t.m.sup.started)
  {
  }

  lemma InitKept(m: Mon, gone: bool)
    requires Undecided(m)
    ensures var t := OnInit(m, gone); Kept(t) && (t.Stop? ==> !t.m.sup.exited && gone)
  {
  }

  lemma TimerKept(l: Limits, m: Mon, timer: Option<Tick>)
    requires Undecided(m)
    ensures var t := OnTimer(l, m, timer); Kept(t) && (t.Stop? ==> !t.m.sup.exited && !t.m.sup.reportLost)
  {
  }

  /** The first handlers of a round, up to the report. */
  function BeforeReport(m: Mon, r: Round): Turn
    requires r.Round?
  {
    var a := OnOut(m, r.out);
    if a.Stop? then a else
    var b := OnErr(a.m, r.err);
    if b.Stop? then b else OnExec(b.m, r.exec)
  }

  lemma HandleSplit(l: Limits, m: Mon, r: Round)
    requires r.Round? && !(m.hasCancel && r.cancel)
    ensures Handle(l, m, r) ==
              var c := BeforeReport(m, r);
              if c.Stop? then c else
              var d := OnReported(c.m, r.report, r.execAtReport);
              if d.Stop? then d else
              var e := OnInit(d.m, r.init);
              if e.Stop? then e else OnTimer(l, e.m, r.timer)
  {
    hide OnOut, OnErr, OnExec, OnReported, OnInit, OnTimer;
  }

  lemma BeforeReportKept(m: Mon, r: Round)
    requires Undecided(m) && r.Round?
    ensures Kept(BeforeReport(m, r)) && Early(m, BeforeReport(m, r))
  {
    hide OnOut, OnErr, OnExec, Undecided, Decided;
    StreamKept(m, r.out, r.err);
    var a := OnOut(m, r.out);
    if a.Go? {
      StreamKept(a.m, r.out, r.err);
      var b := OnErr(a.m, r.err);
      if b.Go? {
        ExecKept(b.m, r.exec);
      }
    }
  }

  /** Everything one turn guarantees, handler by handler. */
  lemma HandleKept(l: Limits, m: Mon, r: Round)
    requires Undecided(m)
    ensures var t := Handle(l, m, r);
            && Kept(t)
            && (t.Stop? && t.m.sup.reportLost ==> r.Round? && r.init && !(m.reportOpen && r.report.Some? && r.report.value.ReportExit?))
            && (r.Round? && m.reportOpen && r.report.Some? && r.report.value.ReportExit? ==>
                  t.Stop? && !t.m.sup.reportLost &&
                  (t.m.sup.exited ==> t.m.sup.exitCode == r.report.value.code && t.m.sup.signal == r.report.value.signal) &&
                  (!t.m.sup.exited ==> t.m.sup.reason in {Cancelled, Output, Platform}))
            && (t.Stop? && t.m.sup.exited && t.m.sup.reason == NoReason && Settled(r) ==> t.m.sup.started)
  {
    if r.Round? && !(m.hasCancel && r.cancel) {
      HandleSplit(l, m, r);
      BeforeReportKept(m, r);
      hide Handle, BeforeReport, OnReported, OnInit, OnTimer, Undecided, Decided;
      var c := BeforeReport(m, r);
      if c.Go? {
        ReportedKept(c.m, r.report, r.execAtReport);
        var d := OnReported(c.m, r.report, r.execAtReport);
        if d.Go? {
          InitKept(d.m, r.init);
          var e := OnInit(d.m, r.init);
          if e.Go? {
            TimerKept(l, e.m, r.timer);
          }
        }
      }
    }
  }

  lemma HandleDecides(l: Limits, m: Mon, r: Round)
    requires Undecided(m)
    ensures var t := Handle(l, m, r); if t.Stop? then Decided(t.m) else Undecided(t.m)
  {
    hide Handle, Undecided, Decided;
    HandleKept(l, m, r);
  }

  lemma HandleStarts(l: Limits, m: Mon, r: Round)
    requires Undecided(m) && Settled(r) && Handle(l, m, r).Stop?
    ensures var s := Handle(l, m, r).m.sup; s.exited && s.reason == NoReason ==> s.started
  {
    hide Handle, Undecided, Settled;
    HandleKept(l, m, r);
  }

  /** Whatever happens in whatever order, the loop ends in one of the ways of Decided. */
  lemma {:induction false} SuperviseDecides(l: Limits, m: Mon, rounds: seq<Round>)
    requires Undecided(m)
    ensures var t := Supervise(l, m, rounds); if t.Stop? then Decided(t.m) else Undecided(t.m)
    decreases |rounds|
  {
    hide Handle, Undecided, Decided;
    if rounds != [] {
      HandleDecides(l, m, rounds[0]);
      var t := Handle(l, m, rounds[0]);
      if t.Go? {
        SuperviseDecides(l, t.m, rounds[1..]);
      }
    }
  }

  ghost predicate AllSettled(rounds: seq<Round>) { forall i :: 0 <= i < |rounds| ==> Settled(rounds[i]) }

  lemma {:induction false} SuperviseStarts(l: Limits, m: Mon, rounds: seq<Round>)
    requires Undecided(m) && AllSettled(rounds) && Supervise(l, m, rounds).Stop?
    ensures var s := Supervise(l, m, rounds).m.sup; s.exited && s.reason == NoReason ==> s.started
    decreases |rounds|
  {
    hide Handle, Undecided, Settled;
    if rounds != [] {
      assert Settled(rounds[0]) && AllSettled(rounds[1..]);
      HandleDecides(l, m, rounds[0]);
      var t := Handle(l, m, rounds[0]);
      if t.Go? {
        SuperviseStarts(l, t.m, rounds[1..]);
      } else {
        HandleStarts(l, m, rounds[0]);
      }
    }
  }

  /** A turn in which the exit report can be read ends with that report, or with a decision of higher priority. */
  lemma ReadableReportWins(l: Limits, m: Mon, r: Round)
    requires Undecided(m) && r.Round? && m.reportOpen && r.report.Some? && r.report.value.ReportExit?
    ensures var t := Handle(l, m, r);
            && t.Stop? && !t.m.sup.reportLost
            && (t.m.sup.exited ==> t.m.sup.exitCode == r.report.value.code && t.m.sup.signal == r.report.value.signal)
            && (!t.m.sup.exited ==> t.m.sup.reason in {Cancelled, Output, Platform})
  {
    hide Handle, Undecided;
    HandleKept(l, m, r);
  }

  /** The pidfd can only win over a report that was not there to be read. */
  lemma {:induction false} LostMeansUnreadable(l: Limits, m: Mon, rounds: seq<Round>)
    requires Undecided(m)
    requires Supervise(l, m, rounds).Stop? && Supervise(l, m, rounds).m.sup.reportLost
    ensures exists k, before :: 0 <= k < |rounds| && Supervise(l, m, rounds[..k]) == Go(before) && rounds[k].Round? &&
              rounds[k].init && !(before.reportOpen && rounds[k].report.Some? && rounds[k].report.value.ReportExit?)
    decreases |rounds|
  {
    hide Handle, Undecided;
    HandleDecides(l, m, rounds[0]);
    var t := Handle(l, m, rounds[0]);
    if t.Go? {
      LostMeansUnreadable(l, t.m, rounds[1..]);
      var k, before :| 0 <= k < |rounds[1..]| && Supervise(l, t.m, rounds[1..][..k]) == Go(before) && rounds[1..][k].Round? &&
        rounds[1..][k].init && !(before.reportOpen && rounds[1..][k].report.Some? && rounds[1..][k].report.value.ReportExit?);
      assert rounds[..k + 1][1..] == rounds[1..][..k];
      assert Supervise(l, m, rounds[..k + 1]) == Go(before);
      assert rounds[k + 1] == rounds[1..][k];
    } else {
      LostNow(l, m, rounds[0]);
      assert Supervise(l, m, rounds[..0]) == Go(m);
    }
  }

  lemma LostNow(l: Limits, m: Mon, r: Round)
    requires Undecided(m) && Handle(l, m, r).Stop? && Handle(l, m, r).m.sup.reportLost
    ensures r.Round? && r.init && !(m.reportOpen && r.report.Some? && r.report.value.ReportExit?)
  {
    hide Handle, Undecided;
    HandleKept(l, m, r);
  }

  // ----- conclude

  datatype Usage = Usage(cpuNs: int, memoryBytes: int, oom: nat, oomKill: nat)

  /** struct facts; usage is None when the group was not confirmed empty. */
  datatype Facts = Facts(sup: Sup, cancelled: bool, outputExceeded: bool, usage: Option<Usage>, cpuNs: int, cpuBudget: int)

  datatype Conclusion = Conclusion(reason: Reason, signal: int, failure: seq<Cause>)

  predicate OomEvidence(u: Usage) { u.oom > 0 && u.oomKill > 0 }

  /** Every cause of a platform failure, in the order in which conclude appends them. */
  function Causes(f: Facts): seq<Cause> {
    f.sup.failure +
    match f.usage
    case None => [NotReclaimed]
    case Some(u) =>
      (if u.oomKill > 0 && u.oom == 0 then [ForeignOom] else []) +
      (if f.sup.reportLost && !OomEvidence(u) then [ReportLost] else [])
  }

  /** The conclusion as a ranking: platform failure, supervision, cancellation, CPU, output. */
  function Conclude(f: Facts): Conclusion {
    var causes := Causes(f);
    var given := if f.sup.reason == NoReason && f.cancelled then Cancelled else f.sup.reason;
    var reason :=
      if causes != [] then Platform
      else if given != NoReason then given
      else if f.cpuNs >= f.cpuBudget then Cpu
      else if f.outputExceeded then Output
      else NoReason;
    var killed := f.usage.Some? && OomEvidence(f.usage.value) && f.sup.reportLost && given == NoReason;
    Conclusion(reason, if killed then SIGKILL else f.sup.signal, causes)
  }

  function Add(c: Conclusion, cause: Cause): Conclusion { c.(failure := c.failure + [cause], reason := Platform) }

  /** `conclude`, assignment by assignment. */
  method ConcludeInOrder(f: Facts) returns (c: Conclusion)
    requires f.sup.failure != [] <==> f.sup.reason == Platform
    ensures c == Conclude(f)
    ensures c.failure != [] <==> c.reason == Platform
  {
    c := Conclusion(f.sup.reason, f.sup.signal, f.sup.failure);
    if f.cancelled && c.reason == NoReason {
      c := c.(reason := Cancelled);
    }
    if f.usage.Some? {
      var u := f.usage.value;
      if u.oomKill > 0 && u.oom == 0 {
        c := Add(c, ForeignOom);
      }
      if f.sup.reportLost && u.oom > 0 && u.oomKill > 0 {
        if c.reason == NoReason {
          c := c.(signal := SIGKILL);
        }
      } else if f.sup.reportLost {
        c := Add(c, ReportLost);
      }
      if c.reason == NoReason && f.cpuNs >= f.cpuBudget {
        c := c.(reason := Cpu);
      }
    } else {
      c := Add(c, NotReclaimed);
    }
    if f.outputExceeded && c.reason == NoReason {
      c := c.(reason := Output);
    }
  }

  // ----- the line of JSON and what the judge makes of it

  datatype Json = Json(exitCode: int, signal: int, cpuNs: int, memoryBytes: int, reason: Reason, oom: nat, oomKill: nat,
                       cancelled: bool, outputExceeded: bool, error: seq<Cause>)

  /** The rest of main: streams are written back, artifacts collected, facts printed. */
  function Printed(f: Facts, u: Usage, writeFails: bool, collectFails: bool): Json {
    var c := Conclude(f);
    var w := if writeFails then c.(reason := Platform, failure := [WriteFailed]) else c;
    var d := if w.reason != Platform && collectFails then w.(reason := Platform, failure := [CollectFailed]) else w;
    Json(if d.signal != 0 then -1 else f.sup.exitCode, d.signal, f.cpuNs, u.memoryBytes, d.reason, u.oom, u.oomKill,
         f.cancelled, f.outputExceeded, d.failure)
  }

  datatype JudgeFacts = JudgeFacts(exitCode: int, signal: int, cpuNs: int, memoryBytes: int, reason: Reason,
                                   oomKilled: bool, groupAccounting: bool)

  /** `executorResult.facts`. */
  function FactsOf(j: Json): JudgeFacts {
    var reason := if j.cancelled then Cancelled else j.reason;
    JudgeFacts(j.exitCode, j.signal, j.cpuNs, j.memoryBytes,
               if j.outputExceeded && reason == NoReason then Output else reason, j.oom > 0 && j.oomKill > 0, true)
  }

  datatype Status = OK | WorkspaceError | InternalError | MemoryLimit | TimeLimit | OutputLimit | Signalled | NonzeroExit

  /** `classify`. */
  function Classify(cpuLimit: int, memoryLimit: int, f: JudgeFacts, overflow: bool, ctxErr: bool): Status {
    if ctxErr || f.reason == Platform then InternalError
    else if f.oomKilled then MemoryLimit
    else if f.reason == Cpu || f.reason == Wall then TimeLimit
    else if overflow || f.reason == Output then OutputLimit
    else if f.reason != NoReason then InternalError
    else if f.cpuNs > cpuLimit then TimeLimit
    else if !f.groupAccounting && f.memoryBytes > memoryLimit then MemoryLimit
    else if f.signal != 0 then Signalled
    else if f.exitCode == 0 then OK
    else NonzeroExit
  }

  /** What is left to happen after the loop has stopped. */
  datatype Aftermath = Aftermath(usage: Option<Usage>, outMore: nat, errMore: nat, writeFails: bool, collectFails: bool,
                                 removeFails: bool, deliverFails: bool, overflow: bool, ctxErr: bool)

  /** The tail of `execute`: final accounting, the rest of the streams, the facts. */
  function FactsAfter(l: Limits, m: Mon, e: Aftermath): Facts {
    Facts(m.sup, m.cancelled,
          m.out.total + e.outMore > m.out.limit || m.err.total + e.errMore > m.err.limit,
          e.usage, if e.usage.Some? then e.usage.value.cpuNs - m.cpuBase else 0, l.cpuNs)
  }

  /** From printed facts to the status; an error text, and a group that cannot be removed, are internal errors. */
  function StatusOf(l: Limits, memoryLimit: int, j: Json, e: Aftermath): Status {
    if e.removeFails || j.error != [] || e.deliverFails then InternalError
    else Classify(l.cpuNs, memoryLimit, FactsOf(j), e.overflow, e.ctxErr)
  }

  /** From the end of supervision to the status; an unconfirmed reclaim ends without facts. */
  function StatusAfter(l: Limits, memoryLimit: int, m: Mon, e: Aftermath): Status {
    if e.usage.None? then InternalError
    else StatusOf(l, memoryLimit, Printed(FactsAfter(l, m, e), e.usage.value, e.writeFails, e.collectFails), e)
  }

  /** How far an execution gets: not even to `execute`, to one of its preparations, or to the loop. */
  datatype Course = NotAdmitted | NotPrepared | NotCloned | NotWatched | Watched(rounds: seq<Round>)

  /** Where supervision stands when there is nothing more to watch. */
  function EndOf(l: Limits, m0: Mon, c: Course): Mon {
    match c
    case NotAdmitted => m0
    case NotPrepared => Fail(m0, PrepareFailed)
    case NotCloned => Fail(m0, CloneFailed)
    case NotWatched => Fail(m0, WatchFailed)
    case Watched(rounds) => Supervise(l, m0, rounds).m
  }

  const NOTHING_USED := Usage(0, 0, 0, 0)

  /** The status of a whole run of the executor.  Where nothing was started there is nothing to account for. */
  function FinalStatus(l: Limits, memoryLimit: int, m0: Mon, c: Course, e: Aftermath): Status {
    match c
    case NotAdmitted => InternalError
    case NotPrepared | NotCloned =>
      var nothing := e.(usage := None, outMore := 0, errMore := 0);
      StatusOf(l, memoryLimit, Printed(FactsAfter(l, EndOf(l, m0, c), nothing), NOTHING_USED, e.writeFails, e.collectFails), e)
    case _ => StatusAfter(l, memoryLimit, EndOf(l, m0, c), e)
  }

  /** The loop runs until it stops, and reads of the exec_error pipe are settled once the payload has exited. */
  ghost predicate Possible(l: Limits, m0: Mon, c: Course) {
    c.Watched? ==> AllSettled(c.rounds) && Supervise(l, m0, c.rounds).Stop?
  }

  lemma StartUndecided(outLimit: nat, errLimit: nat, hasCancel: bool, clonedAt: int)
    ensures Undecided(Start(outLimit, errLimit, hasCancel, clonedAt))
  {
  }

  lemma EndDecided(l: Limits, m0: Mon, c: Course)
    requires Undecided(m0) && Possible(l, m0, c) && !c.NotAdmitted?
    ensures Decided(EndOf(l, m0, c))
  {
    if c.Watched? {
      SuperviseDecides(l, m0, c.rounds);
    }
  }

  /** Everything a success stands for. */
  ghost predicate Clean(l: Limits, m: Mon, e: Aftermath) {
    && m.sup.exited && m.sup.exitCode == 0 && m.sup.signal == 0 && m.sup.started
    && m.sup.failure == [] && !m.cancelled
    && e.usage.Some? && e.usage.value.oomKill == 0 && e.usage.value.cpuNs - m.cpuBase < l.cpuNs
    && m.out.total + e.outMore <= m.out.limit && m.err.total + e.errMore <= m.err.limit
    && !e.writeFails && !e.collectFails && !e.removeFails && !e.deliverFails && !e.overflow && !e.ctxErr
  }

  lemma AfterIff(l: Limits, memoryLimit: int, m: Mon, e: Aftermath)
    requires Decided(m) && (m.sup.exited && m.sup.reason == NoReason ==> m.sup.started)
    ensures StatusAfter(l, memoryLimit, m, e) == OK <==> Clean(l, m, e)
  {
  }

  /** Something that is nobody's fault but the platform's. */
  predicate OutOfOrder(m: Mon, e: Aftermath) {
    || m.sup.failure != [] || e.usage.None? || (e.usage.value.oomKill > 0 && e.usage.value.oom == 0)
    || (m.sup.reportLost && !OomEvidence(e.usage.value))
    || e.writeFails || e.collectFails || e.removeFails || e.deliverFails || e.ctxErr
  }

  predicate TooSlow(l: Limits, m: Mon, e: Aftermath)
    requires e.usage.Some?
  {
    m.sup.reason in {Cpu, Wall} || (m.sup.reason == NoReason && e.usage.value.cpuNs - m.cpuBase >= l.cpuNs)
  }

  predicate TooMuch(m: Mon, e: Aftermath) {
    || e.overflow || m.sup.reason == Output
    || (m.sup.reason == NoReason && (m.out.total + e.outMore > m.out.limit || m.err.total + e.errMore > m.err.limit))
  }

  /**
   * The status in one table: from where supervision ended, through the conclusion, the printed line and the facts
   * read back, to the classification.  A cancelled execution is an internal error, unless an OOM kill or an overflow
   * reported later comes first.
   */
  lemma StatusTable(l: Limits, memoryLimit: int, m: Mon, e: Aftermath)
    requires Decided(m)
    ensures StatusAfter(l, memoryLimit, m, e) ==
              if OutOfOrder(m, e) then InternalError
              else if OomEvidence(e.usage.value) then MemoryLimit
              else if TooSlow(l, m, e) then TimeLimit
              else if TooMuch(m, e) then OutputLimit
              else if m.cancelled then InternalError
              else if m.sup.signal != 0 then Signalled
              else if m.sup.exitCode == 0 then OK
              else NonzeroExit
  {
    if e.usage.Some? {
      PrintedIs(l, m, e);
      hide Conclude, Printed, FactsAfter, Causes, Decided;
      DecidedReasons(m);
    }
  }

  lemma DecidedReasons(m: Mon)
    requires Decided(m)
    ensures m.sup.failure != [] <==> m.sup.reason == Platform
    ensures m.cancelled <==> m.sup.reason == Cancelled
    ensures m.sup.reason == NoReason ==> m.sup.exited || m.sup.reportLost
    ensures m.sup.reportLost ==> m.sup.reason == NoReason
  {
  }

  /** What is printed. */
  lemma PrintedIs(l: Limits, m: Mon, e: Aftermath)
    requires Decided(m) && e.usage.Some?
    ensures var j := Printed(FactsAfter(l, m, e), e.usage.value, e.writeFails, e.collectFails);
            var fine := m.sup.failure == [] && !(e.usage.value.oomKill > 0 && e.usage.value.oom == 0) &&
                        !(m.sup.reportLost && !OomEvidence(e.usage.value)) && !e.writeFails && !e.collectFails;
            && (j.error == [] <==> fine) && (j.reason == Platform <==> !fine)
            && j.oom == e.usage.value.oom && j.oomKill == e.usage.value.oomKill && j.cancelled == m.cancelled
            && j.cpuNs == e.usage.value.cpuNs - m.cpuBase
            && j.outputExceeded == (m.out.total + e.outMore > m.out.limit || m.err.total + e.errMore > m.err.limit)
            && (fine ==> j.reason == if m.sup.reason != NoReason then m.sup.reason
                                     else if j.cpuNs >= l.cpuNs then Cpu
                                     else if j.outputExceeded then Output else NoReason)
            && (fine && !OomEvidence(e.usage.value) ==> j.signal == m.sup.signal &&
                                                        j.exitCode == if m.sup.signal != 0 then -1 else m.sup.exitCode)
  {
  }

  /**
   * For every course of an execution, every event sequence and every ending, the status is OK exactly when the
   * payload was started and watched, reported exit code 0 and no signal, its group was confirmed empty without an
   * OOM kill and removed, CPU and both streams stayed within their limits, nothing was cancelled and nothing failed.
   */
  lemma OkIff(l: Limits, memoryLimit: int, outLimit: nat, errLimit: nat, hasCancel: bool, clonedAt: int, c: Course, e: Aftermath)
    requires Possible(l, Start(outLimit, errLimit, hasCancel, clonedAt), c)
    ensures var m0 := Start(outLimit, errLimit, hasCancel, clonedAt);
            FinalStatus(l, memoryLimit, m0, c, e) == OK <==> c.Watched? && Clean(l, EndOf(l, m0, c), e)
  {
    var m0 := Start(outLimit, errLimit, hasCancel, clonedAt);
    StartUndecided(outLimit, errLimit, hasCancel, clonedAt);
    hide Undecided, Decided, Supervise, AllSettled, StatusAfter, Clean, Start;
    if !c.NotAdmitted? {
      EndDecided(l, m0, c);
    }
    if c.Watched? {
      SuperviseStarts(l, m0, c.rounds);
      AfterIff(l, memoryLimit, EndOf(l, m0, c), e);
    } else if c.NotWatched? {
      AfterIff(l, memoryLimit, EndOf(l, m0, c), e);
      FailedIsNotClean(l, EndOf(l, m0, c), e);
    }
  }

  lemma FailedIsNotClean(l: Limits, m: Mon, e: Aftermath)
    requires m.sup.failure != []
    ensures !Clean(l, m, e)
  {
  }

  lemma AfterPlatform(l: Limits, memoryLimit: int, m: Mon, e: Aftermath)
    requires Decided(m)
    ensures var c := Conclude(FactsAfter(l, m, e)); c.failure != [] <==> c.reason == Platform
    ensures e.usage.Some? ==>
              var j := Printed(FactsAfter(l, m, e), e.usage.value, e.writeFails, e.collectFails);
              j.error != [] <==> j.reason == Platform
    ensures m.cancelled ==> StatusAfter(l, memoryLimit, m, e) in {InternalError, MemoryLimit, OutputLimit}
    ensures m.cancelled && StatusAfter(l, memoryLimit, m, e) == OutputLimit ==> e.overflow
    ensures Conclude(FactsAfter(l, m, e)).failure != [] ==> StatusAfter(l, memoryLimit, m, e) == InternalError
  {
  }

  /** A non-empty failure text and reason platform are the same thing, and never blamed on the payload. */
  lemma FailureIffPlatform(l: Limits, memoryLimit: int, m0: Mon, c: Course, e: Aftermath)
    requires Undecided(m0) && Possible(l, m0, c) && !c.NotAdmitted?
    ensures var k := Conclude(FactsAfter(l, EndOf(l, m0, c), e)); k.failure != [] <==> k.reason == Platform
    ensures e.usage.Some? ==>
              var j := Printed(FactsAfter(l, EndOf(l, m0, c), e), e.usage.value, e.writeFails, e.collectFails);
              j.error != [] <==> j.reason == Platform
    ensures EndOf(l, m0, c).cancelled ==> FinalStatus(l, memoryLimit, m0, c, e) in {InternalError, MemoryLimit, OutputLimit}
    ensures EndOf(l, m0, c).cancelled && FinalStatus(l, memoryLimit, m0, c, e) == OutputLimit ==> e.overflow
    ensures Conclude(FactsAfter(l, EndOf(l, m0, c), e)).failure != [] ==> FinalStatus(l, memoryLimit, m0, c, e) == InternalError
  {
    EndDecided(l, m0, c);
    AfterPlatform(l, memoryLimit, EndOf(l, m0, c), e);
    hide Undecided, Decided, Possible, Supervise, StatusAfter;
  }
}
