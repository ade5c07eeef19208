/**
 * What the readings mean: the event loop of apps/sandbox/src/supervise.c described by what poll and the reads
 * returned, without its handlers.  A round calls for the end of supervision by one or more of its readings; the
 * loop ends in the first such round, by the call that ranks first there.
 */
module Readings {
  import opened Common
  import opened Supervision

  /** What is settled before the first round. */
  datatype Setup = Setup(limits: Limits, outLimit: nat, errLimit: nat, hasCancel: bool, clonedAt: int)

  function Begin(s: Setup): Mon { Start(s.outLimit, s.errLimit, s.hasCancel, s.clonedAt) }

  // ----- the readings of each descriptor, round by round

  function OutOf(r: Round): Option<Drained> { if r.Round? then r.out else None }
  function ErrOf(r: Round): Option<Drained> { if r.Round? then r.err else None }
  function ExecOf(r: Round): Option<ExecRead> { if r.Round? then r.exec else None }
  function ReportOf(r: Round): Option<ReportRead> { if r.Round? then r.report else None }

  function OutReads(h: seq<Round>): seq<Option<Drained>> { seq(|h|, i requires 0 <= i < |h| => OutOf(h[i])) }
  function ErrReads(h: seq<Round>): seq<Option<Drained>> { seq(|h|, i requires 0 <= i < |h| => ErrOf(h[i])) }
  function ExecReads(h: seq<Round>): seq<Option<ExecRead>> { seq(|h|, i requires 0 <= i < |h| => ExecOf(h[i])) }
  function ReportReads(h: seq<Round>): seq<Option<ReportRead>> { seq(|h|, i requires 0 <= i < |h| => ReportOf(h[i])) }

  predicate Ended(got: seq<Option<Drained>>) {
    exists i :: 0 <= i < |got| && got[i].Some? && got[i].value.ending == AtEof
  }

  /** The bytes of a stream up to its end. */
  function Bytes(got: seq<Option<Drained>>): nat {
    if got == [] then 0
    else
      var before, last := got[..|got| - 1], got[|got| - 1];
      Bytes(before) + if last.Some? && !Ended(before) then last.value.bytes else 0
  }

  /** The first conclusive reading of the exec_error pipe. */
  function FirstExec(got: seq<Option<ExecRead>>): Option<ExecRead> {
    if got == [] then None
    else
      var before, last := FirstExec(got[..|got| - 1]), got[|got| - 1];
      if before.Some? then before else if last == Some(ExecAgain) then None else last
  }

  /** Nothing conclusive has been read from the report pipe. */
  predicate Unreported(got: seq<Option<ReportRead>>) {
    forall i :: 0 <= i < |got| && got[i].Some? ==> got[i].value.ReportAgain?
  }

  // ----- what a round calls for

  datatype Call =
    | PollFails | CancelComes | OutBreaks | OutOverflows | ErrBreaks | ErrOverflows | ExecFails | ReportFails
    | PayloadExits | InitGone | StartupLate | WallUp | SampleFails | CpuUp

  /** Smaller means more important. */
  function Rank(c: Call): nat {
    match c
    case PollFails => 0 case CancelComes => 1 case OutBreaks => 2 case OutOverflows => 3 case ErrBreaks => 4
    case ErrOverflows => 5 case ExecFails => 6 case ReportFails => 7 case PayloadExits => 8 case InitGone => 9
    case StartupLate => 10 case WallUp => 11 case SampleFails => 12 case CpuUp => 13
  }

  predicate Breaks(got: seq<Option<Drained>>, now: Option<Drained>) {
    now.Some? && now.value.ending == Broken && !Ended(got)
  }

  /** Why a reading of the exec_error pipe is a failure. */
  function ExecCause(x: ExecRead): Option<Cause> {
    match x
    case ExecAgain => None
    case ExecEof(_, baseline) => if baseline.None? then Some(NoBaseline) else None
    case ExecRecord => Some(ExecFailed)
    case ExecShort => Some(ExecTruncated)
  }

  /** execve was seen to have succeeded. */
  predicate Running(x: Option<ExecRead>) { x.Some? && x.value.ExecEof? }

  /** The CPU baseline that was taken then. */
  function Baseline(x: Option<ExecRead>): int { if Running(x) && x.value.baseline.Some? then x.value.baseline.value else 0 }

  /** The payload, started as x says, has run for as long as it may by this tick. */
  predicate OutOfTime(s: Setup, x: Option<ExecRead>, t: Tick) {
    Running(x) && t.Tick? && t.now - x.value.now >= s.limits.clockNs
  }

  /** The group has used as much CPU time since then as it may. */
  predicate OutOfCpu(s: Setup, x: Option<ExecRead>, t: Tick) {
    Running(x) && t.Tick? && t.cpu.Some? && x.value.baseline.Some? && t.cpu.value - x.value.baseline.value >= s.limits.cpuNs
  }

  predicate LateStart(s: Setup, x: Option<ExecRead>, t: Tick) {
    !Running(x) && t.Tick? && t.now - s.clonedAt > STARTUP_TIMEOUT_NS
  }

  predicate Ticks(r: Round) { r.Round? && r.timer.Some? && r.timer.value.Tick? }

  /** Round r, after the rounds h, calls for an end by this reading; the readings of more important calls are ignored. */
  predicate Calls(s: Setup, h: seq<Round>, r: Round, c: Call) {
    match c
    case PollFails => r.PollError?
    case CancelComes => s.hasCancel && r.Round? && r.cancel
    case OutBreaks => Breaks(OutReads(h), OutOf(r))
    case OutOverflows => Bytes(OutReads(h + [r])) > s.outLimit
    case ErrBreaks => Breaks(ErrReads(h), ErrOf(r))
    case ErrOverflows => Bytes(ErrReads(h + [r])) > s.errLimit
    case ExecFails => FirstExec(ExecReads(h)).None? && ExecOf(r).Some? && ExecCause(ExecOf(r).value).Some?
    case ReportFails => Unreported(ReportReads(h)) && ReportOf(r) in {Some(ReportShort), Some(ReportInitFailed)}
    case PayloadExits => Unreported(ReportReads(h)) && ReportOf(r).Some? && ReportOf(r).value.ReportExit?
    case InitGone => r.Round? && r.init
    case StartupLate => Ticks(r) && LateStart(s, FirstExec(ExecReads(h + [r])), r.timer.value)
    case WallUp => Ticks(r) && OutOfTime(s, FirstExec(ExecReads(h + [r])), r.timer.value)
    case SampleFails => Ticks(r) && Running(FirstExec(ExecReads(h + [r]))) && r.timer.value.cpu.None?
    case CpuUp => Ticks(r) && OutOfCpu(s, FirstExec(ExecReads(h + [r])), r.timer.value)
  }

  ghost predicate Foremost(s: Setup, h: seq<Round>, r: Round, c: Call) {
    Calls(s, h, r, c) && forall d :: Rank(d) < Rank(c) ==> !Calls(s, h, r, d)
  }

  /** No round calls for an end. */
  ghost predicate Quiet(s: Setup, rounds: seq<Round>) {
    forall k, c :: 0 <= k < |rounds| ==> !Calls(s, rounds[..k], rounds[k], c)
  }

  // ----- what each call leads to

  ghost predicate Failed(m: Mon, cause: Cause) { m.sup.reason == Platform && m.sup.failure == [cause] }

  ghost predicate Stopped(m: Mon, reason: Reason) { m.sup.reason == reason && m.sup.failure == [] }

  /** All readings of the exec_error pipe that count, by the time the call is answered. */
  function ExecUpTo(h: seq<Round>, r: Round, c: Call): Option<ExecRead> {
    if c == PayloadExits && r.Round? then FirstExec(ExecReads(h + [r]) + [Some(r.execAtReport)])
    else if Rank(c) < Rank(ExecFails) then FirstExec(ExecReads(h))
    else FirstExec(ExecReads(h + [r]))
  }

  /** The verdict. */
  ghost predicate Verdict(h: seq<Round>, r: Round, c: Call, m: Mon) {
    match c
    case PollFails => Failed(m, PollFailed)
    case CancelComes => Stopped(m, Cancelled)
    case OutBreaks | ErrBreaks => Failed(m, ReadFailed)
    case OutOverflows | ErrOverflows => Stopped(m, Output)
    case ExecFails => ExecOf(r).Some? && ExecCause(ExecOf(r).value).Some? && Failed(m, ExecCause(ExecOf(r).value).value)
    case ReportFails => Failed(m, if ReportOf(r) == Some(ReportShort) then ShortReport else InitFailed)
    case PayloadExits =>
      && ReportOf(r).Some? && ReportOf(r).value == ReportExit(m.sup.exitCode, m.sup.signal)
      && var x := ExecUpTo(h, r, c);
         if x.Some? && ExecCause(x.value).Some? then Failed(m, ExecCause(x.value).value) else Stopped(m, NoReason)
    case InitGone => Stopped(m, NoReason)
    case StartupLate => Failed(m, StartupTimeout)
    case WallUp => Stopped(m, Wall)
    case SampleFails => Failed(m, SampleFailed)
    case CpuUp => Stopped(m, Cpu)
  }

  /** Everything supervision leaves behind. */
  ghost predicate Ends(s: Setup, h: seq<Round>, r: Round, c: Call, m: Mon) {
    && Verdict(h, r, c, m)
    && (m.cancelled <==> c == CancelComes) && (m.sup.exited <==> c == PayloadExits) && (m.sup.reportLost <==> c == InitGone)
    && (c != PayloadExits ==> m.sup.exitCode == 0 && m.sup.signal == 0)
    && (m.sup.started <==> Running(ExecUpTo(h, r, c)))
    && (m.sup.started ==> m.startedAt == ExecUpTo(h, r, c).value.now)
    && m.cpuBase == Baseline(ExecUpTo(h, r, c))
    && m.out.limit == s.outLimit && m.err.limit == s.errLimit
    && m.out.total == Bytes(OutReads(if c == CancelComes then h else h + [r]))
    && m.err.total == Bytes(ErrReads(if c in {CancelComes, OutBreaks, OutOverflows} then h else h + [r]))
  }

  // ----- the state of the loop is the history of the readings

  /** What the monitor holds after these readings. */
  ghost predicate Seen(s: Setup, out: seq<Option<Drained>>, err: seq<Option<Drained>>, exec: seq<Option<ExecRead>>,
                       report: seq<Option<ReportRead>>, m: Mon) {
    && m.hasCancel == s.hasCancel && m.clonedAt == s.clonedAt && !m.cancelled
    && m.sup == Sup(NoReason, [], false, 0, 0, false, Running(FirstExec(exec)))
    && m.out == Tap(!Ended(out), Bytes(out), s.outLimit) && Bytes(out) <= s.outLimit
    && m.err == Tap(!Ended(err), Bytes(err), s.errLimit) && Bytes(err) <= s.errLimit
    && m.execOpen == FirstExec(exec).None?
    && (FirstExec(exec).Some? ==> Running(FirstExec(exec)) && FirstExec(exec).value.baseline.Some? && m.startedAt == FirstExec(exec).value.now)
    && m.cpuBase == Baseline(FirstExec(exec))
    && m.reportOpen == Unreported(report)
  }

  ghost predicate Tracks(s: Setup, h: seq<Round>, m: Mon) {
    Seen(s, OutReads(h), ErrReads(h), ExecReads(h), ReportReads(h), m)
  }

  lemma BeginTracks(s: Setup)
    ensures Tracks(s, [], Begin(s))
  {
  }

  lemma ReadsMore(h: seq<Round>, r: Round)
    ensures OutReads(h + [r]) == OutReads(h) + [OutOf(r)] && ErrReads(h + [r]) == ErrReads(h) + [ErrOf(r)]
    ensures ExecReads(h + [r]) == ExecReads(h) + [ExecOf(r)] && ReportReads(h + [r]) == ReportReads(h) + [ReportOf(r)]
  {
  }

  lemma BytesMore(got: seq<Option<Drained>>, now: Option<Drained>)
    ensures Bytes(got + [now]) == Bytes(got) + if now.Some? && !Ended(got) then now.value.bytes else 0
    ensures Ended(got + [now]) <==> Ended(got) || (now.Some? && now.value.ending == AtEof)
  {
    assert (got + [now])[..|got|] == got && (got + [now])[|got|] == now;
    assert forall i :: 0 <= i < |got| ==> (got + [now])[i] == got[i];
  }

  lemma FirstExecMore(got: seq<Option<ExecRead>>, now: Option<ExecRead>)
    ensures FirstExec(got + [now]) == if FirstExec(got).Some? then FirstExec(got) else if now == Some(ExecAgain) then None else now
  {
    assert (got + [now])[..|got|] == got;
  }

  lemma UnreportedMore(got: seq<Option<ReportRead>>, now: Option<ReportRead>)
    ensures Unreported(got + [now]) <==> Unreported(got) && (now.None? || now.value.ReportAgain?)
  {
    assert forall i :: 0 <= i < |got| ==> (got + [now])[i] == got[i];
    assert (got + [now])[|got|] == now;
  }

  lemma OutTracked(s: Setup, out: seq<Option<Drained>>, err: seq<Option<Drained>>, exec: seq<Option<ExecRead>>,
                   report: seq<Option<ReportRead>>, m: Mon, now: Option<Drained>)
    requires Seen(s, out, err, exec, report, m)
    ensures var t := OnOut(m, now);
            && (t.Stop? <==> Breaks(out, now) || Bytes(out + [now]) > s.outLimit)
            && (t.Go? ==> Seen(s, out + [now], err, exec, report, t.m))
            && t.m.out.total == Bytes(out + [now])
            && (t.Stop? ==> t.m == (if Breaks(out, now) then Fail(m, ReadFailed) else m.(sup := m.sup.(reason := Output))).(out := t.m.out))
  {
    BytesMore(out, now);
    hide Bytes, Ended, FirstExec, Unreported;
  }

  lemma ErrTracked(s: Setup, out: seq<Option<Drained>>, err: seq<Option<Drained>>, exec: seq<Option<ExecRead>>,
                   report: seq<Option<ReportRead>>, m: Mon, now: Option<Drained>)
    requires Seen(s, out, err, exec, report, m)
    ensures var t := OnErr(m, now);
            && (t.Stop? <==> Breaks(err, now) || Bytes(err + [now]) > s.errLimit)
            && (t.Go? ==> Seen(s, out, err + [now], exec, report, t.m))
            && t.m.err.total == Bytes(err + [now])
            && (t.Stop? ==> t.m == (if Breaks(err, now) then Fail(m, ReadFailed) else m.(sup := m.sup.(reason := Output))).(err := t.m.err))
  {
    BytesMore(err, now);
    hide Bytes, Ended, FirstExec, Unreported;
  }

  lemma ExecTracked(s: Setup, out: seq<Option<Drained>>, err: seq<Option<Drained>>, exec: seq<Option<ExecRead>>,
                    report: seq<Option<ReportRead>>, m: Mon, now: Option<ExecRead>)
    requires Seen(s, out, err, exec, report, m)
    ensures var t := OnExec(m, now);
            && (t.Stop? <==> FirstExec(exec).None? && now.Some? && ExecCause(now.value).Some?)
            && (t.Go? ==> Seen(s, out, err, exec + [now], report, t.m))
            && (t.Stop? ==> Failed(t.m, ExecCause(now.value).value) && !t.m.sup.exited && !t.m.sup.reportLost && !t.m.cancelled
                            && t.m.sup.exitCode == 0 && t.m.sup.signal == 0 && t.m.out == m.out && t.m.err == m.err)
            && (t.Stop? ==> ExecKnown(exec + [now], t.m))
  {
    FirstExecMore(exec, now);
    hide Bytes, Ended, FirstExec, Unreported;
  }

  /** What is known about the start of the payload is what these readings say. */
  ghost predicate ExecKnown(exec: seq<Option<ExecRead>>, m: Mon) {
    && (m.sup.started <==> Running(FirstExec(exec)))
    && (m.sup.started ==> m.startedAt == FirstExec(exec).value.now)
    && m.cpuBase == Baseline(FirstExec(exec))
  }

  lemma ReportTracked(s: Setup, out: seq<Option<Drained>>, err: seq<Option<Drained>>, exec: seq<Option<ExecRead>>,
                      report: seq<Option<ReportRead>>, m: Mon, now: Option<ReportRead>, late: ExecRead)
    requires Seen(s, out, err, exec, report, m)
    ensures var t := OnReported(m, now, late);
            && (t.Stop? <==> Unreported(report) && now.Some? && !now.value.ReportAgain? && !now.value.ReportEof?)
            && (t.Go? ==> Seen(s, out, err, exec, report + [now], t.m))
            && (t.Stop? ==> t.m.out == m.out && t.m.err == m.err && !t.m.cancelled && !t.m.sup.reportLost)
            && (t.Stop? && !now.value.ReportExit? ==>
                  Failed(t.m, if now == Some(ReportShort) then ShortReport else InitFailed) && !t.m.sup.exited
                  && t.m.sup.exitCode == 0 && t.m.sup.signal == 0 && ExecKnown(exec, t.m))
            && (t.Stop? && now.value.ReportExit? ==>
                  var x := FirstExec(exec + [Some(late)]);
                  && t.m.sup.exited && now.value == ReportExit(t.m.sup.exitCode, t.m.sup.signal)
                  && (if x.Some? && ExecCause(x.value).Some? then Failed(t.m, ExecCause(x.value).value) else Stopped(t.m, NoReason))
                  && ExecKnown(exec + [Some(late)], t.m))
  {
    FirstExecMore(exec, Some(late));
    UnreportedMore(report, now);
    hide Bytes, Ended, FirstExec, Unreported;
  }

  // ----- one round

  /** Nothing ranking before n is called for. */
  ghost predicate NoneBefore(s: Setup, h: seq<Round>, r: Round, n: nat) {
    forall d :: Rank(d) < n ==> !Calls(s, h, r, d)
  }

  /** The round has ended the loop, for the most important of the calls. */
  ghost predicate EndsForemost(s: Setup, h: seq<Round>, r: Round, m: Mon) {
    exists c :: Foremost(s, h, r, c) && Ends(s, h, r, c, m)
  }

  lemma OutStops(s: Setup, h: seq<Round>, r: Round, m: Mon)
    requires r.Round? && NoneBefore(s, h, r, 2) && Seen(s, OutReads(h), ErrReads(h), ExecReads(h), ReportReads(h), m)
    requires OnOut(m, r.out).Stop?
    ensures EndsForemost(s, h, r, OnOut(m, r.out).m)
  {
    ReadsMore(h, r);
    OutTracked(s, OutReads(h), ErrReads(h), ExecReads(h), ReportReads(h), m, r.out);
    var t := OnOut(m, r.out);
    hide OutReads, ErrReads, ExecReads, ReportReads, Bytes, FirstExec, Unreported, Ended, OnOut;
    var c := if Breaks(OutReads(h), r.out) then OutBreaks else OutOverflows;
    assert Foremost(s, h, r, c) by { hide Ends, Seen; }
    hide Foremost, NoneBefore, Calls;
    assert Ends(s, h, r, c, t.m);
  }

  lemma OutPasses(s: Setup, h: seq<Round>, r: Round)
    requires r.Round? && NoneBefore(s, h, r, 2)
    requires !Breaks(OutReads(h), r.out) && Bytes(OutReads(h + [r])) <= s.outLimit
    ensures NoneBefore(s, h, r, 4)
  {
    hide OutReads, ErrReads, ExecReads, ReportReads, Bytes, FirstExec, Unreported, Ended;
  }

  lemma OutStage(s: Setup, h: seq<Round>, r: Round, m: Mon)
    requires r.Round? && NoneBefore(s, h, r, 2) && Seen(s, OutReads(h), ErrReads(h), ExecReads(h), ReportReads(h), m)
    ensures var t := OnOut(m, r.out);
            && (t.Go? ==> NoneBefore(s, h, r, 4) && Seen(s, OutReads(h + [r]), ErrReads(h), ExecReads(h), ReportReads(h), t.m))
            && (t.Stop? ==> EndsForemost(s, h, r, t.m))
  {
    hide OutReads, ErrReads, ExecReads, ReportReads, Bytes, FirstExec, Unreported, Ended, OnOut, NoneBefore, Calls, Seen, EndsForemost, Breaks;
    var t := OnOut(m, r.out);
    if t.Stop? {
      OutStops(s, h, r, m);
    } else {
      ReadsMore(h, r);
      OutTracked(s, OutReads(h), ErrReads(h), ExecReads(h), ReportReads(h), m, r.out);
      OutPasses(s, h, r);
    }
  }

  lemma ErrStops(s: Setup, h: seq<Round>, r: Round, m: Mon)
    requires r.Round? && NoneBefore(s, h, r, 4) && Seen(s, OutReads(h + [r]), ErrReads(h), ExecReads(h), ReportReads(h), m)
    requires OnErr(m, r.err).Stop?
    ensures EndsForemost(s, h, r, OnErr(m, r.err).m)
  {
    ReadsMore(h, r);
    ErrTracked(s, OutReads(h + [r]), ErrReads(h), ExecReads(h), ReportReads(h), m, r.err);
    var t := OnErr(m, r.err);
    hide OutReads, ErrReads, ExecReads, ReportReads, Bytes, FirstExec, Unreported, Ended, OnErr;
    var c := if Breaks(ErrReads(h), r.err) then ErrBreaks else ErrOverflows;
    assert Foremost(s, h, r, c) by { hide Ends, Seen; }
    hide Foremost, NoneBefore, Calls;
    assert Ends(s, h, r, c, t.m);
  }

  lemma ErrPasses(s: Setup, h: seq<Round>, r: Round)
    requires r.Round? && NoneBefore(s, h, r, 4)
    requires !Breaks(ErrReads(h), r.err) && Bytes(ErrReads(h + [r])) <= s.errLimit
    ensures NoneBefore(s, h, r, 6)
  {
    hide OutReads, ErrReads, ExecReads, ReportReads, Bytes, FirstExec, Unreported, Ended;
  }

  lemma ErrStage(s: Setup, h: seq<Round>, r: Round, m: Mon)
    requires r.Round? && NoneBefore(s, h, r, 4) && Seen(s, OutReads(h + [r]), ErrReads(h), ExecReads(h), ReportReads(h), m)
    ensures var t := OnErr(m, r.err);
            && (t.Go? ==> NoneBefore(s, h, r, 6) && Seen(s, OutReads(h + [r]), ErrReads(h + [r]), ExecReads(h), ReportReads(h), t.m))
            && (t.Stop? ==> EndsForemost(s, h, r, t.m))
  {
    hide OutReads, ErrReads, ExecReads, ReportReads, Bytes, FirstExec, Unreported, Ended, OnErr, NoneBefore, Calls, Seen, EndsForemost, Breaks;
    var t := OnErr(m, r.err);
    if t.Stop? {
      ErrStops(s, h, r, m);
    } else {
      ReadsMore(h, r);
      ErrTracked(s, OutReads(h + [r]), ErrReads(h), ExecReads(h), ReportReads(h), m, r.err);
      ErrPasses(s, h, r);
    }
  }

  lemma ExecStage(s: Setup, h: seq<Round>, r: Round, m: Mon)
    requires r.Round? && NoneBefore(s, h, r, 6)
    requires Seen(s, OutReads(h + [r]), ErrReads(h + [r]), ExecReads(h), ReportReads(h), m)
    ensures var t := OnExec(m, r.exec); var g := h + [r];
            && (t.Go? ==> NoneBefore(s, h, r, 7) && Seen(s, OutReads(g), ErrReads(g), ExecReads(g), ReportReads(h), t.m))
            && (t.Stop? ==> EndsForemost(s, h, r, t.m))
  {
    ReadsMore(h, r);
    ExecTracked(s, OutReads(h + [r]), ErrReads(h + [r]), ExecReads(h), ReportReads(h), m, r.exec);
    var t := OnExec(m, r.exec);
    hide OnExec, OutReads, ErrReads, ExecReads, ReportReads, Bytes, FirstExec, Unreported, Ended;
    if t.Stop? {
      assert Foremost(s, h, r, ExecFails) by { hide Ends, Seen; }
      assert Ends(s, h, r, ExecFails, t.m) by { hide Foremost, NoneBefore, Calls; }
      hide Foremost, Ends, NoneBefore, Calls, Seen;
    }
  }

  lemma ReportStops(s: Setup, h: seq<Round>, r: Round, m: Mon)
    requires r.Round? && NoneBefore(s, h, r, 7) && Seen(s, OutReads(h + [r]), ErrReads(h + [r]), ExecReads(h + [r]), ReportReads(h), m)
    requires OnReported(m, r.report, r.execAtReport).Stop?
    ensures EndsForemost(s, h, r, OnReported(m, r.report, r.execAtReport).m)
  {
    ReadsMore(h, r);
    ReportTracked(s, OutReads(h + [r]), ErrReads(h + [r]), ExecReads(h + [r]), ReportReads(h), m, r.report, r.execAtReport);
    var t := OnReported(m, r.report, r.execAtReport);
    hide OutReads, ErrReads, ExecReads, ReportReads, Bytes, FirstExec, Unreported, Ended, OnReported;
    var c := if r.report.value.ReportExit? then PayloadExits else ReportFails;
    assert Foremost(s, h, r, c) by { hide Ends, Seen; }
    hide Foremost, NoneBefore, Calls;
    assert Ends(s, h, r, c, t.m);
  }

  lemma ReportPasses(s: Setup, h: seq<Round>, r: Round)
    requires r.Round? && NoneBefore(s, h, r, 7)
    requires !Unreported(ReportReads(h)) || r.report.None? || r.report.value.ReportAgain? || r.report.value.ReportEof?
    ensures NoneBefore(s, h, r, 9)
  {
    hide OutReads, ErrReads, ExecReads, ReportReads, Bytes, FirstExec, Unreported, Ended;
  }

  lemma ReportStage(s: Setup, h: seq<Round>, r: Round, m: Mon)
    requires r.Round? && NoneBefore(s, h, r, 7) && Seen(s, OutReads(h + [r]), ErrReads(h + [r]), ExecReads(h + [r]), ReportReads(h), m)
    ensures var t := OnReported(m, r.report, r.execAtReport);
            && (t.Go? ==> NoneBefore(s, h, r, 9) && Tracks(s, h + [r], t.m))
            && (t.Stop? ==> EndsForemost(s, h, r, t.m))
  {
    hide OutReads, ErrReads, ExecReads, ReportReads, Bytes, FirstExec, Unreported, Ended, OnReported, NoneBefore, Calls, Seen, EndsForemost, Breaks;
    var t := OnReported(m, r.report, r.execAtReport);
    if t.Stop? {
      ReportStops(s, h, r, m);
    } else {
      ReadsMore(h, r);
      ReportTracked(s, OutReads(h + [r]), ErrReads(h + [r]), ExecReads(h + [r]), ReportReads(h), m, r.report, r.execAtReport);
      ReportPasses(s, h, r);
    }
  }

  lemma InitStage(s: Setup, h: seq<Round>, r: Round, m: Mon)
    requires r.Round? && NoneBefore(s, h, r, 9) && Tracks(s, h + [r], m)
    ensures var t := OnInit(m, r.init);
            && (t.Go? ==> NoneBefore(s, h, r, 10) && Tracks(s, h + [r], t.m))
            && (t.Stop? ==> EndsForemost(s, h, r, t.m))
  {
    hide OutReads, ErrReads, ExecReads, ReportReads, Bytes, FirstExec, Unreported, Ended;
    if r.init {
      assert Foremost(s, h, r, InitGone) by { hide Ends, Seen; }
      assert Ends(s, h, r, InitGone, OnInit(m, r.init).m) by { hide Foremost, NoneBefore, Calls; }
      hide Foremost, Ends, NoneBefore, Calls, Seen;
    }
  }

  lemma TimerStage(s: Setup, h: seq<Round>, r: Round, m: Mon)
    requires r.Round? && NoneBefore(s, h, r, 10) && Tracks(s, h + [r], m)
    ensures var t := OnTimer(s.limits, m, r.timer);
            && (t.Go? ==> NoneBefore(s, h, r, 14) && Tracks(s, h + [r], t.m))
            && (t.Stop? ==> EndsForemost(s, h, r, t.m))
  {
    hide OutReads, ErrReads, ExecReads, ReportReads, Bytes, FirstExec, Unreported, Ended;
    var t := OnTimer(s.limits, m, r.timer);
    if t.Stop? {
      var c := TimerCall(s, h, r);
      assert Foremost(s, h, r, c) by { hide Ends, Seen; }
      assert Ends(s, h, r, c, t.m) by { hide Foremost, NoneBefore, Calls; }
      hide Foremost, Ends, NoneBefore, Calls, Seen;
    }
  }

  function TimerCall(s: Setup, h: seq<Round>, r: Round): Call {
    if Calls(s, h, r, StartupLate) then StartupLate
    else if Calls(s, h, r, WallUp) then WallUp
    else if Calls(s, h, r, SampleFails) then SampleFails
    else CpuUp
  }

  /** A round that reads nothing. */
  lemma NothingRead(s: Setup, h: seq<Round>, r: Round, m: Mon)
    requires Tracks(s, h, m) && !r.Round?
    ensures Tracks(s, h + [r], m) && OutReads(h + [r]) == OutReads(h) + [None] && ErrReads(h + [r]) == ErrReads(h) + [None]
    ensures ExecReads(h + [r]) == ExecReads(h) + [None] && Bytes(OutReads(h + [r])) == m.out.total
    ensures Bytes(ErrReads(h + [r])) == m.err.total
    ensures Bytes(OutReads(h + [r])) <= s.outLimit && Bytes(ErrReads(h + [r])) <= s.errLimit
  {
    ReadsMore(h, r);
    BytesMore(OutReads(h), None);
    BytesMore(ErrReads(h), None);
    FirstExecMore(ExecReads(h), None);
    UnreportedMore(ReportReads(h), None);
    hide OutReads, ErrReads, ExecReads, ReportReads, Bytes, FirstExec, Unreported, Ended;
  }

  lemma InterruptedIsQuiet(s: Setup, h: seq<Round>, r: Round, m: Mon)
    requires Tracks(s, h, m) && r.Interrupted?
    ensures NoneBefore(s, h, r, 14) && Tracks(s, h + [r], m)
  {
    NothingRead(s, h, r, m);
    hide OutReads, ErrReads, ExecReads, ReportReads, Bytes, FirstExec, Unreported, Ended, Seen, Tracks;
  }

  lemma PollEnds(s: Setup, h: seq<Round>, r: Round, m: Mon)
    requires Tracks(s, h, m) && r.PollError?
    ensures EndsForemost(s, h, r, Fail(m, PollFailed))
  {
    NothingRead(s, h, r, m);
    hide OutReads, ErrReads, ExecReads, ReportReads, Bytes, FirstExec, Unreported, Ended;
    assert Foremost(s, h, r, PollFails) by { hide Ends, Seen; }
    assert Ends(s, h, r, PollFails, Fail(m, PollFailed)) by { hide Foremost, NoneBefore, Calls; }
    hide Foremost, Ends, NoneBefore, Calls, Seen;
  }

  lemma CancelEnds(s: Setup, h: seq<Round>, r: Round, m: Mon)
    requires Tracks(s, h, m) && r.Round? && s.hasCancel && r.cancel
    ensures EndsForemost(s, h, r, m.(cancelled := true, sup := m.sup.(reason := Cancelled)))
  {
    hide OutReads, ErrReads, ExecReads, ReportReads, Bytes, FirstExec, Unreported, Ended;
    assert Foremost(s, h, r, CancelComes) by { hide Ends, Seen; }
    assert Ends(s, h, r, CancelComes, m.(cancelled := true, sup := m.sup.(reason := Cancelled))) by { hide Foremost, NoneBefore, Calls; }
    hide Foremost, Ends, NoneBefore, Calls, Seen;
  }

  /** One turn over the readings: the loop goes on exactly when they call for no end, and otherwise obeys the foremost call. */
  lemma TurnIs(s: Setup, h: seq<Round>, r: Round, m: Mon)
    requires Tracks(s, h, m)
    ensures var t := Handle(s.limits, m, r);
            && (t.Go? ==> NoneBefore(s, h, r, 14) && Tracks(s, h + [r], t.m))
            && (t.Stop? ==> EndsForemost(s, h, r, t.m))
  {
    if r.Interrupted? {
      InterruptedIsQuiet(s, h, r, m);
    } else if r.PollError? {
      PollEnds(s, h, r, m);
    } else if m.hasCancel && r.cancel {
      CancelEnds(s, h, r, m);
    } else {
      HandleSplit(s.limits, m, r);
      assert NoneBefore(s, h, r, 2);
      OutStage(s, h, r, m);
      hide Handle, OnOut, OnErr, OnExec, OnReported, OnInit, OnTimer, Tracks, Seen, NoneBefore, EndsForemost;
      var a := OnOut(m, r.out);
      if a.Go? {
        ErrStage(s, h, r, a.m);
        var b := OnErr(a.m, r.err);
        if b.Go? {
          ExecStage(s, h, r, b.m);
          var c := OnExec(b.m, r.exec);
          if c.Go? {
            ReportStage(s, h, r, c.m);
            var d := OnReported(c.m, r.report, r.execAtReport);
            if d.Go? {
              InitStage(s, h, r, d.m);
              var e := OnInit(d.m, r.init);
              if e.Go? {
                TimerStage(s, h, r, e.m);
              }
            }
          }
        }
      }
    }
  }

  // ----- whole runs

  lemma {:induction false} SuperviseMore(l: Limits, m: Mon, h: seq<Round>, r: Round)
    ensures Supervise(l, m, h + [r]) == var t := Supervise(l, m, h); if t.Stop? then t else Handle(l, t.m, r)
    decreases |h|
  {
    hide Handle;
    if h == [] {
      assert h + [r] == [r];
      assert Supervise(l, m, [r]) == var t := Handle(l, m, r); if t.Stop? then t else Supervise(l, t.m, []);
    } else {
      assert (h + [r])[0] == h[0] && (h + [r])[1..] == h[1..] + [r];
      var t := Handle(l, m, h[0]);
      if t.Go? {
        SuperviseMore(l, t.m, h[1..], r);
      }
    }
  }

  lemma NoRounds(s: Setup)
    ensures Supervise(s.limits, Begin(s), []) == Go(Begin(s)) && Quiet(s, [])
  {
  }

  lemma QuietMore(s: Setup, h: seq<Round>, r: Round)
    ensures Quiet(s, h + [r]) <==> Quiet(s, h) && NoneBefore(s, h, r, 14)
  {
    hide Calls;
    var g := h + [r];
    assert g[..|h|] == h && g[|h|] == r;
    assert forall k :: 0 <= k < |h| ==> g[..k] == h[..k] && g[k] == h[k];
  }

  lemma EndsLoudly(s: Setup, h: seq<Round>, r: Round)
    ensures NoneBefore(s, h, r, 14) ==> forall c :: !Foremost(s, h, r, c)
  {
    hide Calls;
  }

  /** The loop has ended in round k, for the most important call of the first round with a call. */
  ghost predicate EndedAt(s: Setup, rounds: seq<Round>, k: nat, c: Call, m: Mon) {
    && k < |rounds| && Quiet(s, rounds[..k])
    && Foremost(s, rounds[..k], rounds[k], c) && Ends(s, rounds[..k], rounds[k], c, m)
  }

  /** The loop goes on exactly through quiet rounds, and ends as the first call says. */
  lemma {:induction false} RunIs(s: Setup, rounds: seq<Round>)
    ensures var t := Supervise(s.limits, Begin(s), rounds);
            && (t.Go? <==> Quiet(s, rounds))
            && (t.Go? ==> Tracks(s, rounds, t.m))
            && (t.Stop? ==> exists k: nat, c :: EndedAt(s, rounds, k, c, t.m))
    decreases |rounds|
  {
    BeginTracks(s);
    hide Supervise, Handle, Foremost, Ends, Tracks, Calls, Begin;
    if rounds == [] {
      NoRounds(s);
    } else {
      var h, r := rounds[..|rounds| - 1], rounds[|rounds| - 1];
      assert rounds == h + [r];
      RunIs(s, h);
      QuietMore(s, h, r);
      var t := Supervise(s.limits, Begin(s), h);
      SuperviseMore(s.limits, Begin(s), h, r);
      hide Quiet;
      if t.Stop? {
        var k: nat, c :| EndedAt(s, h, k, c, t.m);
        assert rounds[..k] == h[..k] && rounds[k] == h[k];
        assert EndedAt(s, rounds, k, c, t.m);
      } else {
        TurnIs(s, h, r, t.m);
        EndsLoudly(s, h, r);
        var u := Handle(s.limits, t.m, r);
        if u.Stop? {
          var c :| Foremost(s, h, r, c) && Ends(s, h, r, c, u.m);
          assert rounds[..|h|] == h && rounds[|h|] == r;
          assert EndedAt(s, rounds, |h|, c, u.m);
        }
      }
    }
  }

  /** Supervision ends if and only if some round calls for it. */
  lemma StopsIff(s: Setup, rounds: seq<Round>)
    ensures Supervise(s.limits, Begin(s), rounds).Stop? <==>
              exists k, c :: 0 <= k < |rounds| && Calls(s, rounds[..k], rounds[k], c)
  {
    hide Supervise, Calls, Begin;
    RunIs(s, rounds);
  }

  /** The first round with a call ends supervision, whatever comes later, and its foremost call says how. */
  lemma FirstCallDecides(s: Setup, rounds: seq<Round>, k: nat, c: Call)
    requires k < |rounds| && Quiet(s, rounds[..k]) && Foremost(s, rounds[..k], rounds[k], c)
    ensures var t := Supervise(s.limits, Begin(s), rounds); t.Stop? && Ends(s, rounds[..k], rounds[k], c, t.m)
  {
    RunIs(s, rounds);
    var t := Supervise(s.limits, Begin(s), rounds);
    hide Supervise, Calls, Begin, Ends;
    assert t.Stop?;
    var k': nat, c' :| EndedAt(s, rounds, k', c', t.m);
    SameRound(s, rounds, k, c, k', c');
    SameCall(s, rounds[..k], rounds[k], c, c');
  }

  lemma SameRound(s: Setup, rounds: seq<Round>, k: nat, c: Call, k': nat, c': Call)
    requires k < |rounds| && Quiet(s, rounds[..k]) && Foremost(s, rounds[..k], rounds[k], c)
    requires k' < |rounds| && Quiet(s, rounds[..k']) && Foremost(s, rounds[..k'], rounds[k'], c')
    ensures k == k'
  {
    QuietAt(s, rounds, k', k);
    QuietAt(s, rounds, k, k');
    EndsLoudly(s, rounds[..k], rounds[k]);
    EndsLoudly(s, rounds[..k'], rounds[k']);
    hide Foremost, NoneBefore, Quiet;
  }

  lemma QuietAt(s: Setup, rounds: seq<Round>, k: nat, j: nat)
    requires k <= |rounds| && Quiet(s, rounds[..k])
    ensures j < k ==> NoneBefore(s, rounds[..j], rounds[j], 14) && Quiet(s, rounds[..j])
  {
    hide Calls;
    if j < k {
      assert rounds[..k][..j] == rounds[..j] && rounds[..k][j] == rounds[j];
      assert forall i :: 0 <= i < j ==> rounds[..j][..i] == rounds[..k][..i] && rounds[..j][i] == rounds[..k][i];
    }
  }

  lemma SameCall(s: Setup, h: seq<Round>, r: Round, c: Call, d: Call)
    requires Foremost(s, h, r, c) && Foremost(s, h, r, d)
    ensures c == d
  {
    hide Calls;
    assert !(Rank(c) < Rank(d)) && !(Rank(d) < Rank(c));
  }

  /** A cancellation that can be seen while the loop is still going ends it there, whatever else there is to read. */
  lemma CancelStops(s: Setup, rounds: seq<Round>, k: nat)
    requires s.hasCancel && k < |rounds| && Quiet(s, rounds[..k]) && rounds[k].Round? && rounds[k].cancel
    ensures var t := Supervise(s.limits, Begin(s), rounds);
            t.Stop? && t.m.sup.reason == Cancelled && t.m.cancelled && !t.m.sup.exited
  {
    assert Foremost(s, rounds[..k], rounds[k], CancelComes);
    FirstCallDecides(s, rounds, k, CancelComes);
    hide Supervise, Calls, Begin;
  }

  /** What is read of the group's clock and CPU time, once nothing more important is to be read, ends the loop at the limit. */
  lemma TicksStop(s: Setup, rounds: seq<Round>, k: nat)
    requires k < |rounds| && Quiet(s, rounds[..k]) && NoneBefore(s, rounds[..k], rounds[k], 10) && Ticks(rounds[k])
    ensures var x := FirstExec(ExecReads(rounds[..k + 1])); var tick := rounds[k].timer.value;
            var t := Supervise(s.limits, Begin(s), rounds);
            && (OutOfTime(s, x, tick) ==> t.Stop? && Stopped(t.m, Wall))
            && (!OutOfTime(s, x, tick) && OutOfCpu(s, x, tick) ==> t.Stop? && Stopped(t.m, Cpu))
            && (LateStart(s, x, tick) ==> t.Stop? && Failed(t.m, StartupTimeout))
  {
    hide *;
    assert rounds[..k + 1] == rounds[..k] + [rounds[k]];
    TimerForemost(s, rounds[..k], rounds[k]);
    TimerObeyed(s, rounds, k, TimerCall(s, rounds[..k], rounds[k]));
  }

  lemma TimerObeyed(s: Setup, rounds: seq<Round>, k: nat, c: Call)
    requires k < |rounds| && Quiet(s, rounds[..k])
    ensures var t := Supervise(s.limits, Begin(s), rounds);
            Foremost(s, rounds[..k], rounds[k], c) ==>
              && t.Stop?
              && (c == WallUp ==> Stopped(t.m, Wall)) && (c == CpuUp ==> Stopped(t.m, Cpu))
              && (c == StartupLate ==> Failed(t.m, StartupTimeout))
  {
    hide Foremost, Quiet, Supervise, Begin, Ends;
    if Foremost(s, rounds[..k], rounds[k], c) {
      FirstCallDecides(s, rounds, k, c);
      VerdictOf(s, rounds[..k], rounds[k], c, Supervise(s.limits, Begin(s), rounds).m);
    }
  }

  lemma VerdictOf(s: Setup, h: seq<Round>, r: Round, c: Call, m: Mon)
    requires Ends(s, h, r, c, m)
    ensures c == WallUp ==> Stopped(m, Wall)
    ensures c == CpuUp ==> Stopped(m, Cpu)
    ensures c == StartupLate ==> Failed(m, StartupTimeout)
  {
  }

  lemma TimerForemost(s: Setup, h: seq<Round>, r: Round)
    requires NoneBefore(s, h, r, 10) && Ticks(r)
    ensures var x := FirstExec(ExecReads(h + [r])); var tick := r.timer.value; var c := TimerCall(s, h, r);
            && (OutOfTime(s, x, tick) ==> c == WallUp && Foremost(s, h, r, c))
            && (!OutOfTime(s, x, tick) && OutOfCpu(s, x, tick) ==> c == CpuUp && Foremost(s, h, r, c))
            && (LateStart(s, x, tick) ==> c == StartupLate && Foremost(s, h, r, c))
  {
    hide ExecReads, OutReads, ErrReads, ReportReads, FirstExec, Bytes;
  }

  // ----- from the readings to the status

  /** The payload was started, and all of its CPU time since then is within the budget. */
  predicate Affordable(s: Setup, x: Option<ExecRead>, u: Usage) {
    Running(x) && x.value.baseline.Some? && u.cpuNs - x.value.baseline.value < s.limits.cpuNs
  }

  /** What a success looks like in the round in which the payload's exit is read. */
  ghost predicate Success(s: Setup, h: seq<Round>, r: Round, e: Aftermath) {
    && Foremost(s, h, r, PayloadExits) && r.Round? && r.report == Some(ReportExit(0, 0))
    && e.usage.Some? && e.usage.value.oomKill == 0
    && Affordable(s, FirstExec(ExecReads(h + [r]) + [Some(r.execAtReport)]), e.usage.value)
    && Bytes(OutReads(h + [r])) + e.outMore <= s.outLimit && Bytes(ErrReads(h + [r])) + e.errMore <= s.errLimit
    && !e.writeFails && !e.collectFails && !e.removeFails && !e.deliverFails && !e.overflow && !e.ctxErr
  }

  ghost predicate SucceedsAt(s: Setup, rounds: seq<Round>, k: nat, e: Aftermath) {
    k < |rounds| && Quiet(s, rounds[..k]) && Success(s, rounds[..k], rounds[k], e)
  }

  /**
   * OK over the readings: the loop came undisturbed to a round whose foremost reading is the report of exit code 0
   * without a signal, the payload is known to have started, and what was read and accounted stayed within the limits.
   */
  lemma OkOnReadings(s: Setup, memoryLimit: int, c: Course, e: Aftermath)
    requires c.Watched? ==> AllSettled(c.rounds) && !Quiet(s, c.rounds)
    ensures FinalStatus(s.limits, memoryLimit, Begin(s), c, e) == OK <==>
              c.Watched? && exists k: nat :: SucceedsAt(s, c.rounds, k, e)
  {
    hide FinalStatus, Quiet, Success, Supervise, Clean, Foremost, Ends;
    if c.Watched? {
      RunIs(s, c.rounds);
      var m := Supervise(s.limits, Begin(s), c.rounds).m;
      var k: nat, d :| EndedAt(s, c.rounds, k, d, m);
      OkIff(s.limits, memoryLimit, s.outLimit, s.errLimit, s.hasCancel, s.clonedAt, c, e);
      CleanIff(s, c.rounds[..k], c.rounds[k], d, m, e);
      if Success(s, c.rounds[..k], c.rounds[k], e) {
        assert SucceedsAt(s, c.rounds, k, e);
      }
      forall l: nat | SucceedsAt(s, c.rounds, l, e) ensures l == k {
        SuccessForemost(s, c.rounds[..l], c.rounds[l], e);
        SameRound(s, c.rounds, k, d, l, PayloadExits);
      }
    } else {
      OkIff(s.limits, memoryLimit, s.outLimit, s.errLimit, s.hasCancel, s.clonedAt, c, e);
    }
  }

  lemma SuccessForemost(s: Setup, h: seq<Round>, r: Round, e: Aftermath)
    requires Success(s, h, r, e)
    ensures Foremost(s, h, r, PayloadExits)
  {
  }

  lemma CleanIff(s: Setup, h: seq<Round>, r: Round, d: Call, m: Mon, e: Aftermath)
    requires Foremost(s, h, r, d) && Ends(s, h, r, d, m)
    ensures Clean(s.limits, m, e) <==> Success(s, h, r, e)
  {
    hide Bytes, OutReads, ErrReads, FirstExec, ExecReads, ReportReads, Unreported, Calls;
    if d != PayloadExits && Foremost(s, h, r, PayloadExits) {
      SameCall(s, h, r, d, PayloadExits);
    }
  }

  /** A success has seen no cancellation, and no other call, in any round up to the report. */
  lemma OkMeansUndisturbed(s: Setup, memoryLimit: int, c: Course, e: Aftermath, k: nat)
    requires c.Watched? ==> AllSettled(c.rounds) && !Quiet(s, c.rounds)
    requires FinalStatus(s.limits, memoryLimit, Begin(s), c, e) == OK
    requires c.Watched? && k < |c.rounds| && Quiet(s, c.rounds[..k])
    ensures !(s.hasCancel && c.rounds[k].Round? && c.rounds[k].cancel)
    ensures !NoneBefore(s, c.rounds[..k], c.rounds[k], 14) ==> Foremost(s, c.rounds[..k], c.rounds[k], PayloadExits)
  {
    hide FinalStatus, AllSettled, Success, Calls;
    OkOnReadings(s, memoryLimit, c, e);
    var l: nat :| SucceedsAt(s, c.rounds, l, e);
    SuccessForemost(s, c.rounds[..l], c.rounds[l], e);
    QuietAt(s, c.rounds, k, l);
    QuietAt(s, c.rounds, l, k);
    EndsLoudly(s, c.rounds[..l], c.rounds[l]);
    CancelIsCall(s, c.rounds[..k], c.rounds[k]);
    hide Quiet;
  }

  lemma CancelIsCall(s: Setup, h: seq<Round>, r: Round)
    ensures s.hasCancel && r.Round? && r.cancel <==> Calls(s, h, r, CancelComes)
  {
  }

  /** After the loop nothing more goes wrong: the group is gone without an OOM kill, and within its CPU budget. */
  predicate Uneventful(s: Setup, x: Option<ExecRead>, e: Aftermath) {
    && e.usage.Some? && e.usage.value.oom == 0 && e.usage.value.oomKill == 0
    && e.usage.value.cpuNs - Baseline(x) < s.limits.cpuNs && e.outMore == 0 && e.errMore == 0
    && !e.writeFails && !e.collectFails && !e.removeFails && !e.deliverFails && !e.overflow && !e.ctxErr
  }

  /** The status that belongs to a call if nothing more goes wrong. */
  function StatusFor(h: seq<Round>, r: Round, c: Call): Status
    requires c == PayloadExits ==> ReportOf(r).Some? && ReportOf(r).value.ReportExit?
  {
    match c
    case PollFails | CancelComes | OutBreaks | ErrBreaks | ExecFails | ReportFails | InitGone | StartupLate | SampleFails => InternalError
    case OutOverflows | ErrOverflows => OutputLimit
    case WallUp | CpuUp => TimeLimit
    case PayloadExits =>
      var x, exit := ExecUpTo(h, r, c), ReportOf(r).value;
      if x.Some? && ExecCause(x.value).Some? then InternalError
      else if exit.signal != 0 then Signalled
      else if exit.code == 0 then OK
      else NonzeroExit
  }

  /** Every way of ending, down to the status. */
  lemma StatusOnReadings(s: Setup, memoryLimit: int, rounds: seq<Round>, k: nat, c: Call, e: Aftermath)
    requires k < |rounds| && Quiet(s, rounds[..k]) && Foremost(s, rounds[..k], rounds[k], c)
    requires Uneventful(s, ExecUpTo(rounds[..k], rounds[k], c), e)
    ensures FinalStatus(s.limits, memoryLimit, Begin(s), Watched(rounds), e) == StatusFor(rounds[..k], rounds[k], c)
  {
    hide *;
    hide Calls;
    FirstCallDecides(s, rounds, k, c);
    StatusOfEnd(s, memoryLimit, rounds[..k], rounds[k], c, Supervise(s.limits, Begin(s), rounds).m, e);
    FinalOfWatched(s, memoryLimit, rounds, e);
  }

  lemma FinalOfWatched(s: Setup, memoryLimit: int, rounds: seq<Round>, e: Aftermath)
    ensures FinalStatus(s.limits, memoryLimit, Begin(s), Watched(rounds), e) ==
            StatusAfter(s.limits, memoryLimit, Supervise(s.limits, Begin(s), rounds).m, e)
  {
    hide StatusAfter, Supervise;
  }

  lemma StatusOfEnd(s: Setup, memoryLimit: int, h: seq<Round>, r: Round, c: Call, m: Mon, e: Aftermath)
    requires Foremost(s, h, r, c) && Ends(s, h, r, c, m) && Uneventful(s, ExecUpTo(h, r, c), e)
    ensures c == PayloadExits ==> ReportOf(r).Some? && ReportOf(r).value.ReportExit?
    ensures StatusAfter(s.limits, memoryLimit, m, e) == StatusFor(h, r, c)
  {
    hide Bytes, OutReads, ErrReads, FirstExec, ExecReads, ReportReads, Unreported, ExecUpTo, Ended;
    assert Calls(s, h, r, c);
    ExitsWithin(s, h, r, c, m);
    hide Foremost;
  }

  lemma ExitsWithin(s: Setup, h: seq<Round>, r: Round, c: Call, m: Mon)
    requires Foremost(s, h, r, c) && Ends(s, h, r, c, m)
    ensures c == PayloadExits ==> m.out.total <= s.outLimit && m.err.total <= s.errLimit
  {
    hide Bytes, OutReads, ErrReads, FirstExec, ExecReads, ReportReads, Unreported, ExecUpTo, Ended, Verdict;
    assert c == PayloadExits ==> !Calls(s, h, r, OutOverflows) && !Calls(s, h, r, ErrOverflows);
  }
}
