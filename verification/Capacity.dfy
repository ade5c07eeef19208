/**
 * Slots and boxes: apps/judge-engine/execution/pool/pool.go in front of the box channel of
 * apps/judge-engine/execution/backend/executor.go, seen as interleaved atomic steps of any number of
 * requests and any number of callers of Close.
 *
 * The mutex of the pool is left out on purpose: poison and Close set `closed` and cancel the context in
 * two steps between which everything else may happen, so every interleaving of the program is covered.
 */
module Capacity {

  /** P slots, Q places in the queue, N boxes. */
  datatype Config = Config(slots: nat, queue: nat, boxes: nat)

  /** Where a call of Pool.Run stands. */
  datatype Phase =
    | Queued                    // admitted, waiting for a slot
    | Slotted                   // holds a slot, has not looked at the stop flag
    | Started                   // passed the stop check, no box yet
    | Boxed(box: nat)           // executing
    | Unconfirmed(box: nat)     // the box is lost, the pool does not know yet
    | Recorded(box: nat)        // poison has closed the pool and kept the error, not yet cancelled
    | Finished                  // about to release the slot
    | Unslotted                 // about to return the admission token
    | Unadmitted                // about to call Done

  /** The fields of Pool: the two channels as counters, the wait group, and what the mutex guards. */
  datatype PoolState = PoolState(sem: nat, admitted: nat, pending: nat,
                                 closed: bool, stopped: bool, closeErr: set<nat>)

  datatype Machine = Machine(
    pool: PoolState,
    requests: map<nat, Phase>,
    free: seq<nat>,                 // the channel of boxes
    retired: set<nat>,              // boxes that were not given back
    seen: set<nat>,                 // every request ever admitted
    lost: set<nat>,                 // every request that lost its box
    closing: set<nat>,              // callers of Close between the flag and the cancellation
    waiting: set<nat>,              // callers of Close in Wait
    returned: map<nat, set<nat>>)   // what Close returned

  datatype Step =
    | Admit(r: nat) | AcquireSlot(r: nat) | GiveUp(r: nat)
    | PassCheck(r: nat) | FailCheck(r: nat)
    | TakeBox(r: nat) | SkipBox(r: nat) | ReturnBox(r: nat) | LoseBox(r: nat)
    | RecordFailure(r: nat) | CancelAll(r: nat)
    | ReleaseSlot(r: nat) | Leave(r: nat) | Done(r: nat)
    | CloseMark(k: nat) | CloseCancel(k: nat) | CloseReturn(k: nat)

  // ----- the critical sections of the pool

  predicate CanAdmit(c: Config, p: PoolState) { !p.closed && p.admitted < c.slots + c.queue }

  function Admitted(p: PoolState): PoolState { p.(admitted := p.admitted + 1, pending := p.pending + 1) }

  function Marked(p: PoolState, r: nat): PoolState { p.(closed := true, closeErr := p.closeErr + {r}) }

  function Cancelled(p: PoolState): PoolState { p.(stopped := true) }

  datatype Admission = Accepted | Busy | Closed

  class Pool {
    const config: Config
    var sem: nat
    var admitted: nat
    var pending: nat
    var closed: bool
    var stopped: bool
    var closeErr: set<nat>

    constructor (config: Config)
      ensures this.config == config && View() == IDLE
    {
      this.config := config;
      sem, admitted, pending := 0, 0, 0;
      closed, stopped, closeErr := false, false, {};
    }

    function View(): PoolState
      reads this
    {
      PoolState(sem, admitted, pending, closed, stopped, closeErr)
    }

    /** `admit`: the flag first, then a non-blocking send, then the wait group. */
    method Enter() returns (a: Admission)
      modifies this
      ensures a == if old(closed) then Closed
                   else if old(admitted) < config.slots + config.queue then Accepted
                   else Busy
      ensures admitted == old(admitted) + (if a == Accepted then 1 else 0)
      ensures pending == old(pending) + (if a == Accepted then 1 else 0)
      ensures unchanged(`sem) && unchanged(`closed) && unchanged(`stopped) && unchanged(`closeErr)
      ensures a == Accepted <==> CanAdmit(config, old(View()))
      ensures View() == if a == Accepted then Admitted(old(View())) else old(View())
    {
      if closed {
        return Closed;
      }
      if admitted >= config.slots + config.queue {
        return Busy;
      }
      admitted := admitted + 1;
      pending := pending + 1;
      a := Accepted;
    }

    /** `poison`. */
    method Poison(r: nat)
      modifies this
      ensures closed && stopped && closeErr == old(closeErr) + {r}
      ensures unchanged(`sem) && unchanged(`admitted) && unchanged(`pending)
      ensures View() == Cancelled(Marked(old(View()), r))
    {
      closed := true;
      closeErr := closeErr + {r};
      stopped := true;
    }

    /** The first half of `Close`. */
    method Shut()
      modifies this
      ensures closed && (old(closed) ==> stopped == old(stopped)) && (!old(closed) ==> stopped)
      ensures unchanged(`sem) && unchanged(`admitted) && unchanged(`pending) && unchanged(`closeErr)
      ensures View() == if old(closed) then old(View()) else Cancelled(old(View()).(closed := true))
    {
      if !closed {
        closed := true;
        stopped := true;
      }
    }
  }

  const IDLE := PoolState(0, 0, 0, false, false, {})

  // ----- steps

  predicate In(m: Machine, r: nat, p: Phase) { r in m.requests && m.requests[r] == p }

  predicate Enabled(c: Config, m: Machine, s: Step) {
    match s
    case Admit(r) => r !in m.seen && CanAdmit(c, m.pool)
    case AcquireSlot(r) => In(m, r, Queued) && m.pool.sem < c.slots
    case GiveUp(r) => In(m, r, Queued)
    case PassCheck(r) => In(m, r, Slotted) && !m.pool.stopped
    case FailCheck(r) => In(m, r, Slotted)
    case TakeBox(r) => In(m, r, Started) && m.free != []
    case SkipBox(r) => In(m, r, Started)
    case ReturnBox(r) => r in m.requests && m.requests[r].Boxed? && |m.free| < c.boxes
    case LoseBox(r) => r in m.requests && m.requests[r].Boxed?
    case RecordFailure(r) => r in m.requests && m.requests[r].Unconfirmed?
    case CancelAll(r) => r in m.requests && m.requests[r].Recorded?
    case ReleaseSlot(r) => In(m, r, Finished) && m.pool.sem > 0
    case Leave(r) => In(m, r, Unslotted) && m.pool.admitted > 0
    case Done(r) => In(m, r, Unadmitted) && m.pool.pending > 0
    case CloseMark(k) => k !in m.closing && k !in m.waiting && k !in m.returned
    case CloseCancel(k) => k in m.closing
    case CloseReturn(k) => k in m.waiting && m.pool.pending == 0
  }

  function Move(m: Machine, r: nat, p: Phase): Machine { m.(requests := m.requests[r := p]) }

  function Apply(c: Config, m: Machine, s: Step): Machine
    requires Enabled(c, m, s)
  {
    match s
    case Admit(r) => Move(m, r, Queued).(pool := Admitted(m.pool), seen := m.seen + {r})
    case AcquireSlot(r) => Move(m, r, Slotted).(pool := m.pool.(sem := m.pool.sem + 1))
    case GiveUp(r) => Move(m, r, Unslotted)
    case PassCheck(r) => Move(m, r, Started)
    case FailCheck(r) => Move(m, r, Finished)
    case TakeBox(r) => Move(m, r, Boxed(m.free[0])).(free := m.free[1..])
    case SkipBox(r) => Move(m, r, Finished)
    case ReturnBox(r) => Move(m, r, Finished).(free := m.free + [m.requests[r].box])
    case LoseBox(r) =>
      Move(m, r, Unconfirmed(m.requests[r].box)).(retired := m.retired + {m.requests[r].box}, lost := m.lost + {r})
    case RecordFailure(r) => Move(m, r, Recorded(m.requests[r].box)).(pool := Marked(m.pool, r))
    case CancelAll(r) => Move(m, r, Finished).(pool := Cancelled(m.pool))
    case ReleaseSlot(r) => Move(m, r, Unslotted).(pool := m.pool.(sem := m.pool.sem - 1))
    case Leave(r) => Move(m, r, Unadmitted).(pool := m.pool.(admitted := m.pool.admitted - 1))
    case Done(r) => m.(requests := m.requests - {r}, pool := m.pool.(pending := m.pool.pending - 1))
    case CloseMark(k) =>
      if m.pool.closed then m.(waiting := m.waiting + {k})
      else m.(pool := m.pool.(closed := true), closing := m.closing + {k})
    case CloseCancel(k) => m.(pool := Cancelled(m.pool), closing := m.closing - {k}, waiting := m.waiting + {k})
    case CloseReturn(k) => m.(waiting := m.waiting - {k}, returned := m.returned[k := m.pool.closeErr])
  }

  /** The channel of boxes is filled with 0 .. N-1. */
  function Init(c: Config): Machine {
    Machine(IDLE, map[], seq(c.boxes, i => i), {}, {}, {}, {}, {}, map[])
  }

  /** The states after a list of steps, if each of them is possible. */
  ghost predicate Leads(c: Config, m: Machine, steps: seq<Step>, m': Machine)
    decreases |steps|
  {
    if steps == [] then m' == m
    else Enabled(c, m, steps[0]) && Leads(c, Apply(c, m, steps[0]), steps[1..], m')
  }

  ghost predicate Reachable(c: Config, m: Machine) {
    exists steps :: Leads(c, Init(c), steps, m)
  }

  // ----- counting requests

  predicate IsStarted(p: Phase) { p.Started? }
  predicate IsBoxed(p: Phase) { p.Boxed? }
  predicate IsLosing(p: Phase) { p.Unconfirmed? || p.Recorded? }
  predicate IsIdleSlot(p: Phase) { p.Slotted? || p.Finished? }
  predicate HoldsSlot(p: Phase) { IsStarted(p) || IsBoxed(p) || IsLosing(p) || IsIdleSlot(p) }
  predicate HoldsToken(p: Phase) { !p.Unadmitted? }

  ghost function Members(requests: map<nat, Phase>, f: Phase -> bool): set<nat> {
    set r | r in requests && f(requests[r])
  }

  ghost function Count(requests: map<nat, Phase>, f: Phase -> bool): nat { |Members(requests, f)| }

  function Bit(b: bool): nat { if b then 1 else 0 }

  lemma CountMove(requests: map<nat, Phase>, r: nat, p: Phase, f: Phase -> bool)
    requires r in requests
    ensures Count(requests[r := p], f) + Bit(f(requests[r])) == Count(requests, f) + Bit(f(p))
  {
    var rest := Members(requests, f) - {r};
    assert Members(requests, f) == if f(requests[r]) then rest + {r} else rest;
    assert Members(requests[r := p], f) == if f(p) then rest + {r} else rest;
  }

  lemma CountAdd(requests: map<nat, Phase>, r: nat, p: Phase, f: Phase -> bool)
    requires r !in requests
    ensures Count(requests[r := p], f) == Count(requests, f) + Bit(f(p))
  {
    assert Members(requests[r := p], f) == if f(p) then Members(requests, f) + {r} else Members(requests, f);
  }

  lemma CountRemove(requests: map<nat, Phase>, r: nat, f: Phase -> bool)
    requires r in requests
    ensures Count(requests - {r}, f) + Bit(f(requests[r])) == Count(requests, f)
  {
    assert Members(requests - {r}, f) == Members(requests, f) - {r};
  }

  /** The holders of slots, sorted by what they do with them. */
  lemma SlotSplit(requests: map<nat, Phase>)
    ensures Count(requests, HoldsSlot) ==
              Count(requests, IsStarted) + Count(requests, IsBoxed) + Count(requests, IsLosing) + Count(requests, IsIdleSlot)
  {
    var a, b, c, d := Members(requests, IsStarted), Members(requests, IsBoxed), Members(requests, IsLosing), Members(requests, IsIdleSlot);
    assert Members(requests, HoldsSlot) == a + b + c + d;
    assert a !! b && a + b !! c && a + b + c !! d;
  }

  lemma CountPositive(requests: map<nat, Phase>, r: nat, f: Phase -> bool)
    requires r in requests && f(requests[r])
    ensures Count(requests, f) > 0
  {
    assert r in Members(requests, f);
  }

  // ----- the invariant

  /** The counters of the pool count what they are meant to count. */
  ghost predicate Counted(c: Config, m: Machine) {
    SlotsCounted(c, m) && TokensCounted(c, m) && PendingCounted(m)
  }

  ghost predicate SlotsCounted(c: Config, m: Machine) { m.pool.sem == Count(m.requests, HoldsSlot) <= c.slots }

  ghost predicate TokensCounted(c: Config, m: Machine) {
    m.pool.admitted == Count(m.requests, HoldsToken) <= c.slots + c.queue
  }

  ghost predicate PendingCounted(m: Machine) {
    m.pool.pending == |m.requests| && forall r :: r in m.requests ==> r in m.seen
  }

  /** Free, held and retired boxes are apart, and nobody shares a box. */
  ghost predicate Apart(c: Config, m: Machine) {
    && (forall i, j :: 0 <= i < j < |m.free| ==> m.free[i] != m.free[j])
    && (forall b :: b in m.free ==> b < c.boxes && b !in m.retired)
    && (forall b :: b in m.retired ==> b < c.boxes)
    && (forall r :: r in m.requests && m.requests[r].Boxed? ==>
          m.requests[r].box < c.boxes && m.requests[r].box !in m.free && m.requests[r].box !in m.retired)
    && (forall r, s :: r in m.requests && s in m.requests && m.requests[r].Boxed? && m.requests[s].Boxed? && r != s ==>
          m.requests[r].box != m.requests[s].box)
    && (forall r :: r in m.requests && IsLosing(m.requests[r]) ==> m.requests[r].box in m.retired)
  }

  /** Together with Apart: they are all the boxes there are. */
  ghost predicate Partitioned(c: Config, m: Machine) {
    && Apart(c, m)
    && |m.free| + Count(m.requests, IsBoxed) + |m.retired| == c.boxes
  }

  /** As long as nobody stopped the pool, every retired box still occupies a slot. */
  ghost predicate LosingPaid(m: Machine) { !m.pool.stopped ==> |m.retired| == Count(m.requests, IsLosing) }

  /** Whoever passed the stop check can count on a free box. */
  ghost predicate StartedCovered(m: Machine) { Count(m.requests, IsStarted) <= |m.free| }

  ghost predicate Accounted(m: Machine) { Blamed(m) && Shut(m) && Answered(m) }

  /** Who lost a box is recorded, and recorded before letting go of the slot. */
  ghost predicate Blamed(m: Machine) {
    && m.lost <= m.seen && m.pool.closeErr <= m.lost
    && (forall r :: r in m.lost && r !in m.pool.closeErr ==> r in m.requests && m.requests[r].Unconfirmed?)
    && (forall r :: r in m.requests && IsLosing(m.requests[r]) ==> r in m.lost)
    && (forall r :: r in m.lost && !m.pool.stopped ==> r in m.requests && IsLosing(m.requests[r]))
  }

  ghost predicate Shut(m: Machine) {
    m.pool.closeErr != {} || m.pool.stopped || m.closing != {} || m.waiting != {} || m.returned != map[] ==> m.pool.closed
  }

  /** What Close returned is all there ever was, and there is nothing left. */
  ghost predicate Answered(m: Machine) {
    forall k :: k in m.returned ==> m.requests == map[] && m.returned[k] == m.lost
  }

  /** What holds for every configuration. */
  ghost predicate Inv(c: Config, m: Machine) {
    Counted(c, m) && Partitioned(c, m) && LosingPaid(m) && Accounted(m)
  }

  lemma InitInv(c: Config)
    ensures Inv(c, Init(c)) && StartedCovered(Init(c))
  {
    var m := Init(c);
    assert Members(m.requests, HoldsSlot) == {} && Members(m.requests, HoldsToken) == {};
    assert Members(m.requests, IsBoxed) == {} && Members(m.requests, IsLosing) == {} && Members(m.requests, IsStarted) == {};
  }

  predicate IsClose(s: Step) { s.CloseMark? || s.CloseCancel? || s.CloseReturn? }

  /** How one step changes a count. */
  lemma CountStep(c: Config, m: Machine, s: Step, f: Phase -> bool)
    requires Enabled(c, m, s)
    ensures var reqs := Apply(c, m, s).requests;
            if IsClose(s) then reqs == m.requests
            else if s.Admit? then s.r !in m.requests ==> Count(reqs, f) == Count(m.requests, f) + Bit(f(Queued))
            else if s.Done? then Count(reqs, f) + Bit(f(Unadmitted)) == Count(m.requests, f)
            else s.r in m.requests && s.r in reqs &&
                 Count(reqs, f) + Bit(f(m.requests[s.r])) == Count(m.requests, f) + Bit(f(reqs[s.r]))
  {
    if !IsClose(s) {
      var reqs := Apply(c, m, s).requests;
      if s.Admit? {
        if s.r !in m.requests {
          CountAdd(m.requests, s.r, Queued, f);
        }
      } else if s.Done? {
        CountRemove(m.requests, s.r, f);
      } else {
        CountMove(m.requests, s.r, reqs[s.r], f);
      }
    }
  }

  lemma KeepsSlotsCounted(c: Config, m: Machine, s: Step)
    requires SlotsCounted(c, m) && PendingCounted(m) && Enabled(c, m, s)
    ensures SlotsCounted(c, Apply(c, m, s))
  {
    SlotEffect(c, m, s);
    hide Count, Apply, Enabled, HoldsSlot;
    CountStep(c, m, s, HoldsSlot);
  }

  /** The semaphore follows the one request that takes or returns a slot. */
  lemma SlotEffect(c: Config, m: Machine, s: Step)
    requires PendingCounted(m) && Enabled(c, m, s)
    ensures !HoldsSlot(Queued) && !HoldsSlot(Unadmitted)
    ensures s.Admit? ==> s.r !in m.requests
    ensures var m' := Apply(c, m, s);
            && (IsClose(s) || s.Admit? || s.Done? ==> m'.pool.sem == m.pool.sem)
            && (s.AcquireSlot? ==> m.pool.sem < c.slots) && (!s.AcquireSlot? ==> m'.pool.sem <= m.pool.sem)
            && (s.AcquireSlot? ==> m'.pool.sem == m.pool.sem + 1)
            && (!IsClose(s) && !s.Admit? && !s.Done? ==>
                  s.r in m.requests && s.r in m'.requests &&
                  m'.pool.sem + Bit(HoldsSlot(m.requests[s.r])) == m.pool.sem + Bit(HoldsSlot(m'.requests[s.r])))
  {
  }

  lemma KeepsTokensCounted(c: Config, m: Machine, s: Step)
    requires TokensCounted(c, m) && PendingCounted(m) && Enabled(c, m, s)
    ensures TokensCounted(c, Apply(c, m, s))
  {
    hide Count;
    CountStep(c, m, s, HoldsToken);
  }

  lemma KeepsPendingCounted(c: Config, m: Machine, s: Step)
    requires PendingCounted(m) && Enabled(c, m, s)
    ensures PendingCounted(Apply(c, m, s))
  {
    if s.Done? {
      assert (m.requests - {s.r}).Keys == m.requests.Keys - {s.r};
    }
  }

  lemma KeepsCounted(c: Config, m: Machine, s: Step)
    requires Counted(c, m) && Enabled(c, m, s)
    ensures Counted(c, Apply(c, m, s))
  {
    hide Apply, Enabled, SlotsCounted, TokensCounted, PendingCounted;
    KeepsSlotsCounted(c, m, s);
    KeepsTokensCounted(c, m, s);
    KeepsPendingCounted(c, m, s);
  }

  lemma KeepsApart(c: Config, m: Machine, s: Step)
    requires Apart(c, m) && Enabled(c, m, s)
    ensures Apart(c, Apply(c, m, s))
  {
    if s.TakeBox? {
      TakeKeepsApart(c, m, s.r);
    } else if s.ReturnBox? {
      ReturnKeepsApart(c, m, s.r);
    } else if s.LoseBox? {
      LoseKeepsApart(c, m, s.r);
    } else {
      if s.RecordFailure? {
        LosingIsRetired(c, m, s.r);
      }
      MovesNoBox(c, m, s);
      hide Apart, Apply, Enabled;
      OthersKeepApart(c, m, Apply(c, m, s));
    }
  }

  lemma MovesNoBox(c: Config, m: Machine, s: Step)
    requires Enabled(c, m, s) && !s.TakeBox? && !s.ReturnBox? && !s.LoseBox?
    requires s.RecordFailure? ==> m.requests[s.r].box in m.retired
    ensures var m' := Apply(c, m, s);
            && m'.free == m.free && m'.retired == m.retired
            && (forall r :: r in m'.requests && m'.requests[r].Boxed? ==> r in m.requests && m.requests[r] == m'.requests[r])
            && (forall r :: r in m'.requests && IsLosing(m'.requests[r]) ==>
                  m'.requests[r].box in m.retired || (r in m.requests && m.requests[r] == m'.requests[r]))
  {
    OneRequest(c, m, s);
  }

  lemma LosingIsRetired(c: Config, m: Machine, r: nat)
    requires r in m.requests && IsLosing(m.requests[r])
    ensures Apart(c, m) ==> m.requests[r].box in m.retired
  {
  }

  /** A step that moves no box. */
  lemma OthersKeepApart(c: Config, m: Machine, m': Machine)
    requires Apart(c, m) && m'.free == m.free && m'.retired == m.retired
    requires forall r :: r in m'.requests && m'.requests[r].Boxed? ==> r in m.requests && m.requests[r] == m'.requests[r]
    requires forall r :: r in m'.requests && IsLosing(m'.requests[r]) ==>
               m'.requests[r].box in m.retired || (r in m.requests && m.requests[r] == m'.requests[r])
    ensures Apart(c, m')
  {
  }

  lemma FreeTail(free: seq<nat>)
    requires free != [] && forall i, j :: 0 <= i < j < |free| ==> free[i] != free[j]
    ensures free[0] in free && free[0] !in free[1..] && forall b :: b in free[1..] ==> b in free
    ensures forall i, j :: 0 <= i < j < |free[1..]| ==> free[1..][i] != free[1..][j]
  {
  }

  lemma TakeKeepsApart(c: Config, m: Machine, r: nat)
    requires Apart(c, m) && Enabled(c, m, TakeBox(r))
    ensures Apart(c, Apply(c, m, TakeBox(r)))
  {
    var m' := Apply(c, m, TakeBox(r));
    FreeTail(m.free);
    forall x | x in m'.requests && m'.requests[x].Boxed?
      ensures m'.requests[x].box < c.boxes && m'.requests[x].box !in m'.free && m'.requests[x].box !in m'.retired
    {
      if x != r {
        assert m.requests[x].box !in m.free;
      }
    }
  }

  lemma FreeMore(free: seq<nat>, b: nat)
    requires b !in free && forall i, j :: 0 <= i < j < |free| ==> free[i] != free[j]
    ensures forall i, j :: 0 <= i < j < |free + [b]| ==> (free + [b])[i] != (free + [b])[j]
    ensures forall x :: x in free + [b] <==> x in free || x == b
  {
  }

  lemma ReturnKeepsApart(c: Config, m: Machine, r: nat)
    requires Apart(c, m) && Enabled(c, m, ReturnBox(r))
    ensures Apart(c, Apply(c, m, ReturnBox(r)))
  {
    FreeMore(m.free, m.requests[r].box);
  }

  lemma LoseKeepsApart(c: Config, m: Machine, r: nat)
    requires Apart(c, m) && Enabled(c, m, LoseBox(r))
    ensures Apart(c, Apply(c, m, LoseBox(r)))
  {
  }

  lemma KeepsPartitioned(c: Config, m: Machine, s: Step)
    requires Counted(c, m) && Partitioned(c, m) && Enabled(c, m, s)
    ensures Partitioned(c, Apply(c, m, s))
  {
    hide Enabled, Apply, Counted, Apart, Count;
    KeepsApart(c, m, s);
    if s.Admit? { FreshRequest(c, m, s); }
    if s.LoseBox? { HeldIsNotRetired(c, m, s.r); }
    KeepsTotal(c, m, s);
  }

  lemma HeldIsNotRetired(c: Config, m: Machine, r: nat)
    requires Apart(c, m) && Enabled(c, m, LoseBox(r))
    ensures r in m.requests && m.requests[r].Boxed? && m.requests[r].box !in m.retired
  {
  }

  /** No step makes a box or unmakes one. */
  lemma KeepsTotal(c: Config, m: Machine, s: Step)
    requires Enabled(c, m, s) && (s.Admit? ==> s.r !in m.requests)
    requires s.LoseBox? ==> m.requests[s.r].box !in m.retired
    ensures var m' := Apply(c, m, s);
            |m'.free| + Count(m'.requests, IsBoxed) + |m'.retired| == |m.free| + Count(m.requests, IsBoxed) + |m.retired|
  {
    hide Count;
    CountStep(c, m, s, IsBoxed);
  }

  lemma FreshRequest(c: Config, m: Machine, s: Step)
    requires Counted(c, m) && Enabled(c, m, s) && s.Admit?
    ensures s.r !in m.requests
  {
  }

  lemma KeepsLosingPaid(c: Config, m: Machine, s: Step)
    requires PendingCounted(m) && Apart(c, m) && LosingPaid(m) && Enabled(c, m, s)
    ensures LosingPaid(Apply(c, m, s))
  {
    if s.LoseBox? { HeldIsNotRetired(c, m, s.r); }
    LosingEffect(c, m, s);
    hide Count, Apart, Apply, Enabled, IsLosing;
    CountStep(c, m, s, IsLosing);
    assert !IsLosing(Queued) && !IsLosing(Unadmitted) by { NotLosingOutside(); }
  }

  lemma NotLosingOutside()
    ensures !IsLosing(Queued) && !IsLosing(Unadmitted)
  {
  }

  /** A request starts to lose exactly when a box is retired, and stops losing only in a stopped pool. */
  lemma LosingEffect(c: Config, m: Machine, s: Step)
    requires Enabled(c, m, s) && (s.LoseBox? ==> m.requests[s.r].box !in m.retired)
    requires PendingCounted(m)
    ensures s.Admit? ==> s.r !in m.requests
    ensures var m' := Apply(c, m, s);
            && (m.pool.stopped ==> m'.pool.stopped)
            && (!m'.pool.stopped ==> |m'.retired| == |m.retired| + Bit(s.LoseBox?))
            && (!m'.pool.stopped && !IsClose(s) && !s.Admit? && !s.Done? ==>
                  s.r in m.requests && s.r in m'.requests &&
                  Bit(IsLosing(m'.requests[s.r])) == Bit(IsLosing(m.requests[s.r])) + Bit(s.LoseBox?))
  {
  }

  /** Started requests never outnumber the free boxes, because they pay for theirs with a slot. */
  lemma KeepsStartedCovered(c: Config, m: Machine, s: Step)
    requires c.boxes >= c.slots
    requires Counted(c, m) && Partitioned(c, m) && LosingPaid(m) && StartedCovered(m) && Enabled(c, m, s)
    ensures StartedCovered(Apply(c, m, s))
  {
    hide Count, Apart;
    CountStep(c, m, s, IsStarted);
    if s.PassCheck? {
      SlotSplit(m.requests);
      CountPositive(m.requests, s.r, IsIdleSlot);
    }
  }

  lemma KeepsBlamed(c: Config, m: Machine, s: Step)
    requires PendingCounted(m) && Blamed(m) && Enabled(c, m, s)
    ensures Blamed(Apply(c, m, s))
  {
    hide Blamed;
    if s.LoseBox? {
      LoseKeepsBlamed(c, m, s.r);
    } else if s.RecordFailure? {
      RecordKeepsBlamed(c, m, s.r);
    } else if s.CancelAll? {
      CancelKeepsBlamed(c, m, s.r);
    } else {
      LosesNothing(c, m, s);
      hide Apply, Enabled, PendingCounted;
      OthersKeepBlamed(m, Apply(c, m, s));
    }
  }

  lemma LosesNothing(c: Config, m: Machine, s: Step)
    requires PendingCounted(m) && Enabled(c, m, s) && !s.LoseBox? && !s.RecordFailure? && !s.CancelAll?
    ensures var m' := Apply(c, m, s);
            && m'.lost == m.lost && m'.pool.closeErr == m.pool.closeErr && m.seen <= m'.seen
            && (m.pool.stopped ==> m'.pool.stopped)
            && (forall r :: r in m.requests && IsLosing(m.requests[r]) ==> r in m'.requests && m'.requests[r] == m.requests[r])
            && (forall r :: r in m'.requests && IsLosing(m'.requests[r]) ==> r in m.requests && m'.requests[r] == m.requests[r])
  {
    LosesNobody(c, m, s);
    hide IsLosing;
  }

  lemma LosesNobody(c: Config, m: Machine, s: Step)
    requires PendingCounted(m) && Enabled(c, m, s) && !s.LoseBox? && !s.RecordFailure? && !s.CancelAll?
    ensures var m' := Apply(c, m, s);
            && (forall r :: r in m.requests && IsLosing(m.requests[r]) ==> r in m'.requests && m'.requests[r] == m.requests[r])
            && (forall r :: r in m'.requests && IsLosing(m'.requests[r]) ==> r in m.requests && m'.requests[r] == m.requests[r])
  {
    OneRequest(c, m, s);
    if !IsClose(s) {
      NotLosing(c, m, s);
    }
    hide Apply, Enabled, IsLosing, PendingCounted;
  }

  /** A step of a request changes that request only. */
  lemma OneRequest(c: Config, m: Machine, s: Step)
    requires Enabled(c, m, s)
    ensures var requests := Apply(c, m, s).requests;
            if IsClose(s) then requests == m.requests
            else if s.Done? then requests == m.requests - {s.r}
            else s.r in requests && requests == m.requests[s.r := requests[s.r]]
  {
  }

  lemma NotLosing(c: Config, m: Machine, s: Step)
    requires PendingCounted(m) && Enabled(c, m, s) && !IsClose(s) && !s.LoseBox? && !s.RecordFailure? && !s.CancelAll?
    ensures s.r in m.requests ==> !IsLosing(m.requests[s.r])
    ensures s.r in Apply(c, m, s).requests ==> !IsLosing(Apply(c, m, s).requests[s.r])
  {
  }

  /** A step that neither loses a box nor deals with one that was lost. */
  lemma OthersKeepBlamed(m: Machine, m': Machine)
    requires Blamed(m) && m'.lost == m.lost && m'.pool.closeErr == m.pool.closeErr && m.seen <= m'.seen
    requires m.pool.stopped ==> m'.pool.stopped
    requires forall r :: r in m.requests && IsLosing(m.requests[r]) ==> r in m'.requests && m'.requests[r] == m.requests[r]
    requires forall r :: r in m'.requests && IsLosing(m'.requests[r]) ==> r in m.requests && m'.requests[r] == m.requests[r]
    ensures Blamed(m')
  {
  }

  lemma LoseKeepsBlamed(c: Config, m: Machine, r: nat)
    requires PendingCounted(m) && Blamed(m) && Enabled(c, m, LoseBox(r))
    ensures Blamed(Apply(c, m, LoseBox(r)))
  {
  }

  lemma RecordKeepsBlamed(c: Config, m: Machine, r: nat)
    requires Blamed(m) && Enabled(c, m, RecordFailure(r))
    ensures Blamed(Apply(c, m, RecordFailure(r)))
  {
  }

  lemma CancelKeepsBlamed(c: Config, m: Machine, r: nat)
    requires Blamed(m) && Enabled(c, m, CancelAll(r))
    ensures Blamed(Apply(c, m, CancelAll(r)))
  {
  }

  lemma KeepsShut(c: Config, m: Machine, s: Step)
    requires Blamed(m) && Shut(m) && Enabled(c, m, s)
    ensures Shut(Apply(c, m, s))
  {
  }

  lemma KeepsAnswered(c: Config, m: Machine, s: Step)
    requires PendingCounted(m) && Blamed(m) && Shut(m) && Answered(m) && Enabled(c, m, s)
    ensures Answered(Apply(c, m, s))
  {
    if s.CloseReturn? {
      assert m.requests == map[];
      assert m.lost <= m.pool.closeErr;
    }
  }

  lemma StepInv(c: Config, m: Machine, s: Step)
    requires Inv(c, m) && Enabled(c, m, s)
    ensures Inv(c, Apply(c, m, s))
    ensures c.boxes >= c.slots && StartedCovered(m) ==> StartedCovered(Apply(c, m, s))
  {
    hide Enabled, Apply, SlotsCounted, TokensCounted, PendingCounted, Partitioned, LosingPaid, StartedCovered, Blamed, Shut, Answered;
    KeepsCounted(c, m, s);
    KeepsPartitioned(c, m, s);
    KeepsLosingPaid(c, m, s) by { assert Apart(c, m) by { ApartOf(c, m); } }
    if c.boxes >= c.slots && StartedCovered(m) {
      KeepsStartedCovered(c, m, s);
    }
    KeepsBlamed(c, m, s);
    KeepsShut(c, m, s);
    KeepsAnswered(c, m, s);
  }

  lemma ApartOf(c: Config, m: Machine)
    requires Partitioned(c, m)
    ensures Apart(c, m)
  {
  }

  lemma {:induction false} RunInv(c: Config, m: Machine, steps: seq<Step>, m': Machine)
    requires Inv(c, m) && Leads(c, m, steps, m')
    ensures Inv(c, m')
    ensures c.boxes >= c.slots && StartedCovered(m) ==> StartedCovered(m')
    decreases |steps|
  {
    hide Inv, Enabled, Apply, StartedCovered;
    if steps != [] {
      StepInv(c, m, steps[0]);
      RunInv(c, Apply(c, m, steps[0]), steps[1..], m');
    }
  }

  // ----- what holds in every reachable state

  /** The invariant holds in every interleaving, and with a box for every slot the started requests are covered. */
  lemma ReachableInv(c: Config, m: Machine)
    requires Reachable(c, m)
    ensures Inv(c, m)
    ensures c.boxes >= c.slots ==> StartedCovered(m)
  {
    hide Inv, Leads, StartedCovered;
    var steps :| Leads(c, Init(c), steps, m);
    InitInv(c);
    RunInv(c, Init(c), steps, m);
  }

  /** Every box is free, held by exactly one request, or retired, and in only one of these ways. */
  lemma BoxesPartition(c: Config, m: Machine, b: nat)
    requires Reachable(c, m) && b < c.boxes
    ensures b in m.free || b in m.retired || exists r :: In(m, r, Boxed(b))
    ensures !(b in m.free && b in m.retired)
    ensures forall r :: In(m, r, Boxed(b)) ==> b !in m.free && b !in m.retired
    ensures forall r, s :: In(m, r, Boxed(b)) && In(m, s, Boxed(b)) ==> r == s
  {
    hide Reachable;
    ReachableInv(c, m);
    BoxAccountedFor(c, m, b);
  }

  lemma BoxAccountedFor(c: Config, m: Machine, b: nat)
    requires Partitioned(c, m) && b < c.boxes
    ensures b in m.free || b in m.retired || exists r :: In(m, r, Boxed(b))
  {
    var holders := Members(m.requests, IsBoxed);
    var held := BoxesOf(m.requests, holders);
    HeldApart(c, m);
    assert |SetOf(m.free)| == |m.free| && |held| == Count(m.requests, IsBoxed) by {
      DistinctSize(m.free);
      ImageSize(m.requests, holders);
    }
    hide Partitioned, Apart, Count;
    FullUnion(SetOf(m.free), held, m.retired, c.boxes);
    if b in held {
      var r :| r in holders && m.requests[r].box == b;
      assert In(m, r, Boxed(b));
    }
  }

  lemma HeldApart(c: Config, m: Machine)
    requires Partitioned(c, m)
    ensures var held := BoxesOf(m.requests, Members(m.requests, IsBoxed));
            && SetOf(m.free) !! held && SetOf(m.free) + held !! m.retired
            && forall b :: b in SetOf(m.free) + held + m.retired ==> b < c.boxes
    ensures |m.free| + Count(m.requests, IsBoxed) + |m.retired| == c.boxes
  {
    hide Count;
    var held := BoxesOf(m.requests, Members(m.requests, IsBoxed));
    forall b | b in held ensures b < c.boxes && b !in m.free && b !in m.retired {
      var r :| r in m.requests && m.requests[r].Boxed? && m.requests[r].box == b;
    }
    hide Partitioned, Apart, BoxesOf, Members;
  }

  lemma FullUnion(x: set<nat>, y: set<nat>, z: set<nat>, n: nat)
    requires x !! y && x + y !! z && |x| + |y| + |z| == n
    requires forall b :: b in x + y + z ==> b < n
    ensures forall b: nat :: b < n ==> b in x || b in y || b in z
  {
    assert |x + y| == |x| + |y| && |x + y + z| == |x + y| + |z|;
    FullRange(x + y + z, n);
    forall b: nat | b < n ensures b in x || b in y || b in z {
      assert b in Range(n);
    }
  }

  ghost function BoxesOf(requests: map<nat, Phase>, holders: set<nat>): set<nat>
    requires forall r :: r in holders ==> r in requests && requests[r].Boxed?
  {
    set r | r in holders :: requests[r].box
  }

  function SetOf(xs: seq<nat>): set<nat> { set x | x in xs }

  lemma {:induction false} ImageSize(requests: map<nat, Phase>, holders: set<nat>)
    requires forall r :: r in holders ==> r in requests && requests[r].Boxed?
    requires forall r, s :: r in holders && s in holders && r != s ==> requests[r].box != requests[s].box
    ensures |BoxesOf(requests, holders)| == |holders|
  {
    if holders != {} {
      var r :| r in holders;
      var rest := holders - {r};
      ImageSize(requests, rest);
      var image := BoxesOf(requests, rest);
      assert BoxesOf(requests, holders) == image + {requests[r].box};
      assert requests[r].box !in image;
    }
  }

  lemma {:induction false} DistinctSize(xs: seq<nat>)
    requires forall i, j :: 0 <= i < j < |xs| ==> xs[i] != xs[j]
    ensures |SetOf(xs)| == |xs|
  {
    if xs != [] {
      var last := xs[|xs| - 1];
      var front := xs[..|xs| - 1];
      DistinctSize(front);
      assert xs == front + [last];
      assert SetOf(xs) == SetOf(front) + {last};
      assert last !in front;
    }
  }

  function Range(n: nat): (s: set<nat>)
    ensures |s| == n
    ensures forall x: nat :: x in s <==> x < n
  {
    if n == 0 then {}
    else
      var s := Range(n - 1);
      assert n - 1 !in s;
      s + {n - 1}
  }

  /** A set of n numbers below n contains all of them. */
  lemma FullRange(s: set<nat>, n: nat)
    requires (forall x :: x in s ==> x < n) && |s| == n
    ensures s == Range(n)
  {
    assert s <= Range(n);
    assert Range(n) == s + (Range(n) - s);
    assert |Range(n) - s| == 0;
  }

  /** Nobody waits for a box, and giving one back never blocks. */
  lemma NobodyWaits(c: Config, m: Machine, r: nat)
    requires Reachable(c, m) && r in m.requests
    ensures m.requests[r].Started? && c.boxes >= c.slots ==> Enabled(c, m, TakeBox(r))
    ensures m.requests[r].Boxed? ==> Enabled(c, m, ReturnBox(r))
    ensures m.requests[r].Finished? ==> Enabled(c, m, ReleaseSlot(r))
    ensures m.requests[r].Unslotted? ==> Enabled(c, m, Leave(r))
    ensures m.requests[r].Unadmitted? ==> Enabled(c, m, Done(r))
  {
    hide Count, Reachable, Apart, Accounted, LosingPaid;
    ReachableInv(c, m);
    if m.requests[r].Started? { CountPositive(m.requests, r, IsStarted); }
    if m.requests[r].Boxed? { CountPositive(m.requests, r, IsBoxed); }
    if m.requests[r].Finished? { CountPositive(m.requests, r, HoldsSlot); }
    if m.requests[r].Unslotted? { CountPositive(m.requests, r, HoldsToken); }
    if m.requests[r].Unadmitted? { assert m.requests.Keys != {}; }
  }

  /** At most P executions, at most P + Q admitted requests. */
  lemma Bounded(c: Config, m: Machine)
    requires Reachable(c, m)
    ensures Count(m.requests, HoldsSlot) <= c.slots
    ensures Count(m.requests, HoldsToken) <= c.slots + c.queue
  {
    hide Reachable, Partitioned, Accounted, LosingPaid, Count;
    ReachableInv(c, m);
  }

  /** The queue takes everybody it has room for: a request is admitted exactly while fewer than P + Q are in. */
  lemma AdmissionIff(c: Config, m: Machine, r: nat)
    requires Reachable(c, m)
    ensures Enabled(c, m, Admit(r)) <==>
            r !in m.seen && !m.pool.closed && Count(m.requests, HoldsToken) < c.slots + c.queue
  {
    hide Reachable, Partitioned, Accounted, LosingPaid, Count;
    ReachableInv(c, m);
  }

  /** And a waiting request gets a slot exactly while fewer than P are held. */
  lemma SlotIff(c: Config, m: Machine, r: nat)
    requires Reachable(c, m) && In(m, r, Queued)
    ensures Enabled(c, m, AcquireSlot(r)) <==> Count(m.requests, HoldsSlot) < c.slots
  {
    hide Reachable, Partitioned, Accounted, LosingPaid, Count;
    ReachableInv(c, m);
  }

  /** The k-th of P + Q requests comes in while nobody has left: both limits are reached. */
  lemma {:induction false} FullHouse(c: Config, k: nat) returns (m: Machine)
    requires k <= c.slots + c.queue
    ensures Reachable(c, m) && !m.pool.closed && !m.pool.stopped
    ensures m.seen == m.requests.Keys && forall q: nat :: q in m.requests <==> q < k
    ensures forall q: nat :: q < k ==> m.requests[q] == if q < c.slots then Slotted else Queued
    ensures m.pool.admitted == k && m.pool.sem == if k < c.slots then k else c.slots
  {
    if k == 0 {
      m := Init(c);
      assert Leads(c, Init(c), [], m);
    } else {
      var before := FullHouse(c, k - 1);
      ReachableStep(c, before, Admit(k - 1));
      m := Apply(c, before, Admit(k - 1));
      if k - 1 < c.slots {
        ReachableStep(c, m, AcquireSlot(k - 1));
        m := Apply(c, m, AcquireSlot(k - 1));
      }
    }
  }

  /** Close returns only when nothing admitted is left, and it returns every cleanup failure there ever was. */
  lemma CloseIsComplete(c: Config, m: Machine, steps: seq<Step>, m': Machine, k: nat)
    requires Reachable(c, m) && k in m.returned && Leads(c, m, steps, m')
    ensures m.requests == map[] && m.returned[k] == m.lost
    ensures m'.requests == map[] && m'.lost == m.lost && k in m'.returned
    decreases |steps|
  {
    hide Count, Reachable, Partitioned, Counted, LosingPaid, Leads;
    ReachableInv(c, m);
    AfterClose(c, m, steps, m', k);
  }

  lemma {:induction false} AfterClose(c: Config, m: Machine, steps: seq<Step>, m': Machine, k: nat)
    requires m.pool.closed && m.requests == map[] && k in m.returned && Leads(c, m, steps, m')
    ensures m'.requests == map[] && m'.lost == m.lost && k in m'.returned
    decreases |steps|
  {
    if steps != [] {
      AfterClose(c, Apply(c, m, steps[0]), steps[1..], m', k);
    }
  }

  // ----- one unconfirmed reclaim stops the pool

  predicate Running(m: Machine, r: nat) {
    r in m.requests && (m.requests[r].Started? || m.requests[r].Boxed?)
  }

  /** Once the context is cancelled, nothing starts that was not already past the check. */
  lemma {:induction false} StoppedStaysStopped(c: Config, m: Machine, steps: seq<Step>, m': Machine, r: nat)
    requires m.pool.stopped && Leads(c, m, steps, m') && Running(m', r)
    requires forall q :: q in m.requests ==> q in m.seen
    ensures Running(m, r)
    decreases |steps|
  {
    hide Enabled, Apply, Running;
    if steps != [] {
      StoppedStep(c, m, steps[0], r);
      StoppedStaysStopped(c, Apply(c, m, steps[0]), steps[1..], m', r);
    }
  }

  lemma StoppedStep(c: Config, m: Machine, s: Step, r: nat)
    requires m.pool.stopped && Enabled(c, m, s) && forall q :: q in m.requests ==> q in m.seen
    ensures var next := Apply(c, m, s);
            && next.pool.stopped && (forall q :: q in next.requests ==> q in next.seen)
            && (Running(next, r) ==> Running(m, r))
  {
  }

  /**
   * A request that lost its box and let go of its slot leaves a stopped pool behind: in every continuation
   * only requests that were already past the stop check run, and whoever acquires a slot later never starts.
   */
  lemma FailureStopsThePool(c: Config, m: Machine, lost: nat, steps: seq<Step>, m': Machine, r: nat)
    requires Reachable(c, m)
    requires lost in m.lost && (lost in m.requests ==> !HoldsSlot(m.requests[lost]))
    requires Leads(c, m, steps, m') && Running(m', r)
    ensures lost in m.pool.closeErr && m.pool.stopped
    ensures Running(m, r)
  {
    hide Count, Reachable, Partitioned, LosingPaid, Leads, Running;
    ReachableInv(c, m);
    StoppedStaysStopped(c, m, steps, m', r);
  }

  /** A retired box stays retired, so by BoxesPartition nobody ever holds it again. */
  lemma {:induction false} RetiredForGood(c: Config, m: Machine, steps: seq<Step>, m': Machine)
    requires Leads(c, m, steps, m')
    ensures m.retired <= m'.retired && m.lost <= m'.lost
    decreases |steps|
  {
    hide Enabled, Apply;
    if steps != [] {
      RetiredStep(c, m, steps[0]);
      RetiredForGood(c, Apply(c, m, steps[0]), steps[1..], m');
    }
  }

  lemma RetiredStep(c: Config, m: Machine, s: Step)
    requires Enabled(c, m, s)
    ensures m.retired <= Apply(c, m, s).retired && m.lost <= Apply(c, m, s).lost
  {
  }

  // ----- why slots and boxes must come from the same number

  lemma {:induction false} LeadsAppend(c: Config, m: Machine, xs: seq<Step>, mid: Machine, ys: seq<Step>, m': Machine)
    requires Leads(c, m, xs, mid) && Leads(c, mid, ys, m')
    ensures Leads(c, m, xs + ys, m')
    decreases |xs|
  {
    hide Enabled, Apply;
    if xs == [] {
      assert xs + ys == ys;
    } else {
      assert (xs + ys)[1..] == xs[1..] + ys;
      LeadsAppend(c, Apply(c, m, xs[0]), xs[1..], mid, ys, m');
    }
  }

  lemma ReachableStep(c: Config, m: Machine, s: Step)
    requires Reachable(c, m) && Enabled(c, m, s)
    ensures Reachable(c, Apply(c, m, s))
  {
    hide Enabled, Apply;
    var steps :| Leads(c, Init(c), steps, m);
    var next := Apply(c, m, s);
    assert [s][1..] == [];
    assert Leads(c, next, [], next);
    assert Leads(c, m, [s], next);
    LeadsAppend(c, Init(c), steps, m, [s], next);
  }

  /** k requests have come in, each in its own slot. */
  ghost predicate Filled(m: Machine, k: nat) {
    && m.pool == PoolState(k, k, k, false, false, {})
    && forall r :: r in m.seen || r in m.requests ==> r < k
  }

  /** One more request gets past the stop check. */
  lemma StartOne(c: Config, m: Machine, k: nat) returns (m': Machine)
    requires Reachable(c, m) && Filled(m, k) && k < c.slots
    ensures Reachable(c, m') && Filled(m', k + 1) && In(m', k, Started) && m'.free == m.free
  {
    ReachableStep(c, m, Admit(k));
    var a := Apply(c, m, Admit(k));
    ReachableStep(c, a, AcquireSlot(k));
    var b := Apply(c, a, AcquireSlot(k));
    ReachableStep(c, b, PassCheck(k));
    m' := Apply(c, b, PassCheck(k));
  }

  lemma {:induction false} FillBoxes(c: Config, k: nat) returns (m: Machine)
    requires k <= c.boxes && k <= c.slots
    ensures Reachable(c, m) && Filled(m, k) && |m.free| == c.boxes - k
  {
    if k == 0 {
      m := Init(c);
      assert Leads(c, Init(c), [], m);
    } else {
      var before := FillBoxes(c, k - 1);
      var started := StartOne(c, before, k - 1);
      ReachableStep(c, started, TakeBox(k - 1));
      m := Apply(c, started, TakeBox(k - 1));
    }
  }

  /** With fewer boxes than slots some execution that passed the stop check has to wait for a box. */
  lemma TooFewBoxes(c: Config) returns (m: Machine, r: nat)
    requires c.boxes < c.slots
    ensures Reachable(c, m) && In(m, r, Started) && m.free == []
  {
    var full := FillBoxes(c, c.boxes);
    m := StartOne(c, full, c.boxes);
    r := c.boxes;
  }

  /** No execution ever waits for a box, in any interleaving, exactly when there is a box for every slot. */
  lemma NoWaitIff(c: Config)
    ensures (forall m, r :: Reachable(c, m) && In(m, r, Started) ==> m.free != []) <==> c.boxes >= c.slots
  {
    if c.boxes >= c.slots {
      forall m, r | Reachable(c, m) && In(m, r, Started) ensures m.free != [] {
        NobodyWaits(c, m, r);
      }
    } else {
      var m, r := TooFewBoxes(c);
    }
  }
}
