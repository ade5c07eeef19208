/**
 * The blob store, apps/judge-engine/execution/store/disk.go.
 *
 * Upload, read, delete, expiry and close interleave at the granularity of the critical sections (and finer:
 * every single unlink of a sweep is a step of its own).  Failures of the file system are inputs.
 */
module BlobStore {

  type Ref = nat

  type Bytes = seq<bv8>

  datatype Options = Options(maxBlob: nat, maxTotal: nat, maxEntries: nat)

  predicate ValidOptions(o: Options) { 0 < o.maxBlob <= 64 * 1048576 && o.maxBlob <= o.maxTotal && 0 < o.maxEntries }

  datatype Entry = Entry(size: nat, expires: int, readers: nat, deleted: bool)

  /** Fields of diskStore, and behind them the directory, the uploads and the open readers. */
  datatype State = State(
    entries: map<Ref, Entry>,
    used: int,
    closed: bool,
    pending: map<Ref, Bytes>,     // .pending files and what was written to them
    content: map<Ref, Bytes>,     // published files, as long as a name or a reader keeps them
    uploads: set<Ref>,            // calls of Put between their two critical sections
    leaked: set<Ref>,             // failed uploads whose .pending file could not be removed
    handles: map<nat, Ref>)       // readers handed out and not closed

  const EMPTY := State(map[], 0, false, map[], map[], {}, {}, map[])

  datatype Step =
    | Reserve(ref: Ref)                   // first half of Put
    | Write(ref: Ref, chunk: Bytes)       // the copy in between
    | Publish(ref: Ref, expires: int)     // second half of Put, successful
    | Abort(ref: Ref)                     // second half of Put, failed, file removed
    | Leak(ref: Ref)                      // second half of Put, failed, file still there
    | Open(handle: nat, ref: Ref)         // Get
    | Release(handle: nat)                // reader.Close
    | Erase(ref: Ref)                     // Delete
    | Expire(ref: Ref, now: int)          // expiry in Sweep, Put and Get, with the clock reading that found it
    | Shut                                // Close

  // ----- the critical sections as functions

  predicate Live(s: State, ref: Ref) { ref in s.entries && !s.entries[ref].deleted }

  predicate Expired(s: State, ref: Ref, now: int) { Live(s, ref) && now > s.entries[ref].expires }

  predicate HasRoom(o: Options, s: State) {
    |s.entries| < o.maxEntries && o.maxBlob <= o.maxTotal - s.used
  }

  predicate Idle(s: State) { forall r :: r in s.entries ==> s.entries[r].readers == 0 }

  /** The entry goes and its capacity comes back. */
  function Drop(s: State, ref: Ref): State
    requires ref in s.entries
  {
    s.(entries := s.entries - {ref}, used := s.used - s.entries[ref].size)
  }

  function ReserveOp(o: Options, s: State, ref: Ref): State {
    s.(entries := s.entries[ref := Entry(o.maxBlob, 0, 1, true)], used := s.used + o.maxBlob,
       pending := s.pending[ref := []], uploads := s.uploads + {ref})
  }

  function PublishOp(o: Options, s: State, ref: Ref, expires: int): State
    requires ref in s.pending
  {
    var data := s.pending[ref];
    s.(entries := s.entries[ref := Entry(|data|, expires, 0, false)], used := s.used - (o.maxBlob - |data|),
       pending := s.pending - {ref}, content := s.content[ref := data], uploads := s.uploads - {ref})
  }

  function AbortOp(s: State, ref: Ref): State
    requires ref in s.entries
  {
    Drop(s, ref).(pending := s.pending - {ref}, uploads := s.uploads - {ref})
  }

  function LeakOp(s: State, ref: Ref): State { s.(uploads := s.uploads - {ref}, leaked := s.leaked + {ref}) }

  function OpenOp(s: State, handle: nat, ref: Ref): State
    requires ref in s.entries
  {
    var x := s.entries[ref];
    s.(entries := s.entries[ref := x.(readers := x.readers + 1)], handles := s.handles[handle := ref])
  }

  /** The release callback of a reader: capacity comes back when a deleted file loses its last reader. */
  function ReleaseOp(s: State, handle: nat): State
    requires CanRelease(s, handle)
  {
    var ref := s.handles[handle];
    var x := s.entries[ref].(readers := s.entries[ref].readers - 1);
    var t := s.(entries := s.entries[ref := x], handles := s.handles - {handle});
    if x.deleted && x.readers == 0 then Drop(t, ref).(content := t.content - {ref}) else t
  }

  /** `remove`, after the unlink. */
  function RemoveOp(s: State, ref: Ref): State
    requires ref in s.entries
  {
    var x := s.entries[ref].(deleted := true);
    var t := s.(entries := s.entries[ref := x]);
    if x.readers == 0 then Drop(t, ref).(content := t.content - {ref}) else t
  }

  predicate CanRelease(s: State, handle: nat) {
    handle in s.handles && s.handles[handle] in s.entries && s.entries[s.handles[handle]].readers > 0
  }

  predicate Enabled(o: Options, s: State, step: Step) {
    match step
    case Reserve(ref) => !s.closed && ref !in s.entries && HasRoom(o, s)
    case Write(ref, chunk) => ref in s.uploads && ref in s.pending && |s.pending[ref]| + |chunk| <= o.maxBlob + 1
    case Publish(ref, _) => !s.closed && ref in s.uploads && ref in s.pending && |s.pending[ref]| <= o.maxBlob
    case Abort(ref) => ref in s.uploads && ref in s.entries
    case Leak(ref) => ref in s.uploads
    case Open(handle, ref) => !s.closed && handle !in s.handles && Live(s, ref)
    case Release(handle) => CanRelease(s, handle)
    case Erase(ref) => !s.closed && Live(s, ref)
    case Expire(ref, now) => !s.closed && Expired(s, ref, now)
    case Shut => Idle(s)
  }

  function Apply(o: Options, s: State, step: Step): State
    requires Enabled(o, s, step)
  {
    match step
    case Reserve(ref) => ReserveOp(o, s, ref)
    case Write(ref, chunk) => s.(pending := s.pending[ref := s.pending[ref] + chunk])
    case Publish(ref, expires) => PublishOp(o, s, ref, expires)
    case Abort(ref) => AbortOp(s, ref)
    case Leak(ref) => LeakOp(s, ref)
    case Open(handle, ref) => OpenOp(s, handle, ref)
    case Release(handle) => ReleaseOp(s, handle)
    case Erase(ref) => RemoveOp(s, ref)
    case Expire(ref, _) => RemoveOp(s, ref)
    case Shut => s.(closed := true)
  }

  ghost predicate Leads(o: Options, s: State, steps: seq<Step>, s': State)
    decreases |steps|
  {
    if steps == [] then s' == s
    else Enabled(o, s, steps[0]) && Leads(o, Apply(o, s, steps[0]), steps[1..], s')
  }

  /** A store nobody has used yet: published files only, each with its entry, within the quotas. */
  ghost predicate Fresh(o: Options, s: State) {
    && !s.closed && s.pending == map[] && s.uploads == {} && s.leaked == {} && s.handles == map[]
    && s.content.Keys == s.entries.Keys
    && (forall r :: r in s.entries ==> !s.entries[r].deleted && s.entries[r].readers == 0)
    && (forall r :: r in s.entries ==> s.entries[r].size == |s.content[r]| <= o.maxBlob)
    && Accounted(o, s)
  }

  /** What any interleaving can make of whatever directory the store was opened on. */
  ghost predicate Reachable(o: Options, s: State) {
    ValidOptions(o) && exists start, steps :: Fresh(o, start) && Leads(o, start, steps, s)
  }

  // ----- sums over maps

  ghost function Sum(m: map<Ref, nat>): nat
    decreases |m|
  {
    if m == map[] then 0
    else
      var k :| k in m;
      assert |m - {k}| < |m|;
      m[k] + Sum(m - {k})
  }

  lemma {:induction false} SumSplit(m: map<Ref, nat>, k: Ref)
    requires k in m
    ensures Sum(m) == m[k] + Sum(m - {k})
    decreases |m|
  {
    var j :| j in m && Sum(m) == m[j] + Sum(m - {j});
    if j != k {
      SumSplit(m - {j}, k);
      SumSplit(m - {k}, j);
      assert m - {j} - {k} == m - {k} - {j};
    }
  }

  lemma SumUpdate(m: map<Ref, nat>, k: Ref, v: nat)
    ensures Sum(m[k := v]) == (if k in m then Sum(m) - m[k] else Sum(m)) + v
  {
    SumSplit(m[k := v], k);
    assert m[k := v] - {k} == m - {k};
    if k in m {
      SumSplit(m, k);
    } else {
      assert m - {k} == m;
    }
  }

  /** If every weight is at most one more than the weight of the same key, so is the sum, per key. */
  lemma {:induction false} SumBound(m: map<Ref, nat>, n: map<Ref, nat>, slack: set<Ref>)
    requires m.Keys == n.Keys && slack <= m.Keys
    requires forall k :: k in m ==> m[k] <= n[k] + (if k in slack then 1 else 0)
    ensures Sum(m) <= Sum(n) + |slack|
    decreases |m|
  {
    if m != map[] {
      var k :| k in m;
      SumSplit(m, k);
      SumSplit(n, k);
      assert |m - {k}| < |m|;
      SumBound(m - {k}, n - {k}, slack - {k});
    }
  }

  // ----- the invariant

  function Sizes(entries: map<Ref, Entry>): map<Ref, nat> { map r | r in entries :: entries[r].size }

  ghost function ReadersOf(s: State, ref: Ref): set<nat> { set h | h in s.handles && s.handles[h] == ref }

  function Busy(s: State): set<Ref> { s.uploads + s.leaked }

  /** What is accounted for is the sum of the entries, within both quotas. */
  ghost predicate Accounted(o: Options, s: State) {
    s.used == Sum(Sizes(s.entries)) && s.used <= o.maxTotal && |s.entries| <= o.maxEntries
  }

  /** readers counts the open handles, or the one upload. */
  ghost predicate ReadersCounted(s: State) {
    && (forall r :: r in s.entries ==>
          s.entries[r].readers == (if r in Busy(s) then 1 else |ReadersOf(s, r)|))
    && (forall h :: h in s.handles ==> s.handles[h] in s.entries && s.handles[h] !in Busy(s))
  }

  /** Uploads hold a full reservation that nobody can see; everything else is a file of its size. */
  ghost predicate Shaped(o: Options, s: State) {
    && s.uploads !! s.leaked && Busy(s) <= s.entries.Keys && s.pending.Keys == Busy(s)
    && s.content.Keys == s.entries.Keys - Busy(s)
    && (forall r :: r in Busy(s) ==>
          s.entries[r].size == o.maxBlob && s.entries[r].deleted && |s.pending[r]| <= o.maxBlob + 1)
    && (forall r :: r in s.content ==> s.entries[r].size == |s.content[r]| <= o.maxBlob)
    && (forall r :: r in s.content && s.entries[r].deleted ==> s.entries[r].readers > 0)
  }

  /** Nothing is going on in a closed store. */
  ghost predicate Quiet(s: State) {
    s.closed ==> s.handles == map[] && s.uploads == {} && s.leaked == {}
  }

  ghost predicate Inv(o: Options, s: State) {
    ValidOptions(o) && Accounted(o, s) && ReadersCounted(s) && Shaped(o, s) && Quiet(s)
  }

  lemma FreshInv(o: Options, s: State)
    requires ValidOptions(o) && Fresh(o, s)
    ensures Inv(o, s)
  {
    hide Accounted;
    forall r | r in s.entries ensures ReadersOf(s, r) == {} {}
  }

  lemma EmptyFresh(o: Options)
    requires ValidOptions(o)
    ensures Fresh(o, EMPTY) && Inv(o, EMPTY)
  {
    assert Sizes(map[]) == map[];
    FreshInv(o, EMPTY);
  }

  lemma SizesUpdate(entries: map<Ref, Entry>, ref: Ref, x: Entry)
    ensures Sizes(entries[ref := x]) == Sizes(entries)[ref := x.size]
    ensures Sizes(entries - {ref}) == Sizes(entries) - {ref}
    ensures Sum(Sizes(entries[ref := x])) == (if ref in entries then Sum(Sizes(entries)) - entries[ref].size else Sum(Sizes(entries))) + x.size
    ensures ref in entries ==> Sum(Sizes(entries - {ref})) == Sum(Sizes(entries)) - entries[ref].size
  {
    SumUpdate(Sizes(entries), ref, x.size);
    if ref in entries {
      SumSplit(Sizes(entries), ref);
    }
  }

  /** Dropping an entry returns exactly its size. */
  lemma DropAccounted(o: Options, s: State, ref: Ref)
    requires Accounted(o, s) && ref in s.entries
    ensures Accounted(o, Drop(s, ref))
  {
    hide Sum, Sizes;
    SizesUpdate(s.entries, ref, s.entries[ref]);
    assert (s.entries - {ref}).Keys == s.entries.Keys - {ref};
  }

  /** Replacing an entry by one of a size that still fits. */
  lemma ReplaceAccounted(o: Options, s: State, ref: Ref, x: Entry, used: int)
    requires Accounted(o, s)
    requires used == s.used - (if ref in s.entries then s.entries[ref].size else 0) + x.size && used <= o.maxTotal
    requires ref in s.entries || |s.entries| < o.maxEntries
    ensures Accounted(o, s.(entries := s.entries[ref := x], used := used))
  {
    hide Sum, Sizes;
    SizesUpdate(s.entries, ref, x);
    assert s.entries[ref := x].Keys == s.entries.Keys + {ref};
  }

  lemma AccountedOnly(o: Options, s: State, t: State)
    requires Accounted(o, s) && t.entries == s.entries && t.used == s.used
    ensures Accounted(o, t)
  {
  }

  /** An entry replaced by one of the same size, and dropped if nothing refers to it any more. */
  lemma RetireAccounted(o: Options, s: State, ref: Ref, x: Entry)
    requires Accounted(o, s) && ref in s.entries && x.size == s.entries[ref].size
    ensures Accounted(o, s.(entries := s.entries[ref := x]))
    ensures Accounted(o, Drop(s.(entries := s.entries[ref := x]), ref))
  {
    hide Sum, Sizes;
    assert s.used <= o.maxTotal && |s.entries| <= o.maxEntries;
    ReplaceAccounted(o, s, ref, x, s.used);
    DropAccounted(o, s.(entries := s.entries[ref := x]), ref);
  }

  lemma UsedFits(o: Options, s: State)
    requires Accounted(o, s)
    ensures s.used <= o.maxTotal && |s.entries| <= o.maxEntries
  {
  }

  lemma KeepsAccounted(o: Options, s: State, step: Step)
    requires Accounted(o, s) && Shaped(o, s) && Enabled(o, s, step)
    ensures Accounted(o, Apply(o, s, step))
  {
    hide Accounted, Sum, Sizes, ReleaseOp, RemoveOp;
    UsedFits(o, s);
    if step.Release? {
      ReleaseAccounted(o, s, step.handle);
    } else if step.Erase? || step.Expire? {
      RemoveAccounted(o, s, step.ref);
    } else if step.Abort? {
      DropAccounted(o, s, step.ref);
      AccountedOnly(o, Drop(s, step.ref), Apply(o, s, step));
    } else if step.Reserve? || step.Publish? || step.Open? {
      var t := Apply(o, s, step);
      ReplaceAccounted(o, s, step.ref, t.entries[step.ref], t.used);
      AccountedOnly(o, s.(entries := t.entries, used := t.used), t);
    } else {
      AccountedOnly(o, s, Apply(o, s, step));
    }
  }

  lemma ReleaseAccounted(o: Options, s: State, handle: nat)
    requires Accounted(o, s) && handle in s.handles && s.handles[handle] in s.entries
    requires s.entries[s.handles[handle]].readers > 0
    ensures Accounted(o, ReleaseOp(s, handle))
  {
    hide Accounted;
    var ref := s.handles[handle];
    var x := s.entries[ref].(readers := s.entries[ref].readers - 1);
    var u := s.(entries := s.entries[ref := x]);
    RetireAccounted(o, s, ref, x);
    AccountedOnly(o, if x.deleted && x.readers == 0 then Drop(u, ref) else u, ReleaseOp(s, handle));
  }

  lemma RemoveAccounted(o: Options, s: State, ref: Ref)
    requires Accounted(o, s) && ref in s.entries
    ensures Accounted(o, RemoveOp(s, ref))
  {
    hide Accounted;
    var x := s.entries[ref].(deleted := true);
    var u := s.(entries := s.entries[ref := x]);
    RetireAccounted(o, s, ref, x);
    AccountedOnly(o, if x.readers == 0 then Drop(u, ref) else u, RemoveOp(s, ref));
  }

  // readers

  /** A step that opens and closes nothing, seen entry by entry. */
  lemma OtherReaders(s: State, t: State)
    requires ReadersCounted(s) && t.handles == s.handles
    requires forall r :: r in t.entries && r !in Busy(t) ==>
               if r in s.entries && r !in Busy(s) then t.entries[r].readers == s.entries[r].readers
               else t.entries[r].readers == 0
    requires forall r :: r in t.entries && r in Busy(t) ==> t.entries[r].readers == 1
    requires forall h :: h in s.handles ==> s.handles[h] in t.entries && s.handles[h] !in Busy(t)
    ensures ReadersCounted(t)
  {
    forall r | r in t.entries && r !in Busy(t) ensures t.entries[r].readers == |ReadersOf(t, r)| {
      assert ReadersOf(t, r) == ReadersOf(s, r);
      if r !in s.entries || r in Busy(s) {
        assert ReadersOf(t, r) == {};
      }
    }
  }

  lemma ReserveReaders(o: Options, s: State, ref: Ref)
    requires ReadersCounted(s) && Shaped(o, s) && ref !in s.entries
    ensures ReadersCounted(ReserveOp(o, s, ref))
  {
    hide ReadersOf;
    OtherReaders(s, ReserveOp(o, s, ref));
  }

  lemma PublishReaders(o: Options, s: State, ref: Ref, expires: int)
    requires ReadersCounted(s) && Shaped(o, s) && ref in s.uploads && ref in s.pending
    ensures ReadersCounted(PublishOp(o, s, ref, expires))
  {
    hide ReadersOf;
    OtherReaders(s, PublishOp(o, s, ref, expires));
  }

  lemma AbortReaders(o: Options, s: State, ref: Ref)
    requires ReadersCounted(s) && Shaped(o, s) && ref in s.uploads && ref in s.entries
    ensures ReadersCounted(AbortOp(s, ref))
  {
    hide ReadersOf;
    OtherReaders(s, AbortOp(s, ref));
  }

  /** Steps that leave entries, handles and the set of busy names alone. */
  lemma SameReaders(s: State, t: State)
    requires ReadersCounted(s) && t.entries == s.entries && t.handles == s.handles && Busy(t) == Busy(s)
    ensures ReadersCounted(t)
  {
    assert forall r :: ReadersOf(t, r) == ReadersOf(s, r);
  }

  lemma RemoveFields(o: Options, s: State, ref: Ref)
    requires ref in s.entries
    ensures var t := RemoveOp(s, ref);
            t.handles == s.handles && (ref in t.entries ==> t.entries[ref].readers == s.entries[ref].readers) &&
            (s.entries[ref].readers > 0 ==> ref in t.entries) && t.uploads == s.uploads && t.leaked == s.leaked
  {
  }

  lemma RemoveReaders(o: Options, s: State, ref: Ref)
    requires ReadersCounted(s) && Shaped(o, s) && Live(s, ref)
    ensures ReadersCounted(RemoveOp(s, ref))
  {
    var t := RemoveOp(s, ref);
    assert ref !in Busy(s);
    RemoveFields(o, s, ref);
    RemoveEffect(o, s, ref);
    hide Shaped, ReadersOf, RemoveOp;
    assert Busy(t) == Busy(s);
    forall h | h in s.handles ensures s.handles[h] in t.entries && s.handles[h] !in Busy(s) {
      if s.handles[h] == ref {
        HandleIsCounted(s, h);
      }
    }
    assert forall q :: q in Busy(s) && q in s.entries ==> s.entries[q].readers == 1;
    hide ReadersCounted, Busy;
    OtherReaders(s, t);
  }

  lemma OpenReaders(o: Options, s: State, handle: nat, ref: Ref)
    requires ReadersCounted(s) && Shaped(o, s) && Live(s, ref) && handle !in s.handles
    ensures ReadersCounted(OpenOp(s, handle, ref))
  {
    var t := OpenOp(s, handle, ref);
    assert ref !in Busy(s) && Busy(t) == Busy(s);
    forall r ensures |ReadersOf(t, r)| == |ReadersOf(s, r)| + (if r == ref then 1 else 0) {
      OneMoreReader(s, t, handle, ref, r);
    }
    hide ReadersOf, Shaped;
  }

  lemma OneMoreReader(s: State, t: State, handle: nat, ref: Ref, r: Ref)
    requires handle !in s.handles && t.handles == s.handles[handle := ref]
    ensures |ReadersOf(t, r)| == |ReadersOf(s, r)| + (if r == ref then 1 else 0)
  {
    if r == ref {
      assert ReadersOf(t, r) == ReadersOf(s, r) + {handle};
    } else {
      assert ReadersOf(t, r) == ReadersOf(s, r);
    }
  }

  lemma ReleaseReaders(s: State, handle: nat)
    requires ReadersCounted(s) && handle in s.handles && s.entries[s.handles[handle]].readers > 0
    ensures ReadersCounted(ReleaseOp(s, handle))
  {
    var t, ref := ReleaseOp(s, handle), s.handles[handle];
    assert Busy(t) == Busy(s);
    forall r ensures |ReadersOf(t, r)| == |ReadersOf(s, r)| - (if r == ref then 1 else 0) {
      LessOneReader(s, t, handle, r);
    }
    forall h | h in t.handles ensures t.handles[h] in t.entries && t.handles[h] !in Busy(t) {
      if t.handles[h] == ref {
        assert h in ReadersOf(t, ref);
        assert |ReadersOf(t, ref)| > 0;
      }
    }
  }

  lemma LessOneReader(s: State, t: State, handle: nat, r: Ref)
    requires handle in s.handles && t.handles == s.handles - {handle}
    ensures |ReadersOf(t, r)| == |ReadersOf(s, r)| - (if r == s.handles[handle] then 1 else 0)
  {
    if r == s.handles[handle] {
      assert handle in ReadersOf(s, r);
      assert ReadersOf(t, r) == ReadersOf(s, r) - {handle};
    } else {
      assert ReadersOf(t, r) == ReadersOf(s, r);
    }
  }

  lemma KeepsReaders(o: Options, s: State, step: Step)
    requires ReadersCounted(s) && Shaped(o, s) && Enabled(o, s, step)
    ensures ReadersCounted(Apply(o, s, step))
  {
    hide ReadersCounted, Shaped, ReleaseOp, RemoveOp, OpenOp, ReserveOp, PublishOp, AbortOp;
    match step
    case Open(handle, ref) => OpenReaders(o, s, handle, ref);
    case Release(handle) => ReleaseReaders(s, handle);
    case Erase(ref) => RemoveReaders(o, s, ref);
    case Expire(ref, _) => RemoveReaders(o, s, ref);
    case Reserve(ref) => ReserveReaders(o, s, ref);
    case Publish(ref, expires) => PublishReaders(o, s, ref, expires);
    case Abort(ref) => AbortReaders(o, s, ref);
    case Leak(ref) => SameReaders(s, LeakOp(s, ref));
    case Write(ref, chunk) => SameReaders(s, Apply(o, s, step));
    case Shut => SameReaders(s, Apply(o, s, step));
  }

  // shape

  lemma ReserveShaped(o: Options, s: State, ref: Ref)
    requires Shaped(o, s) && ref !in s.entries
    ensures Shaped(o, ReserveOp(o, s, ref))
  {
  }

  lemma WriteShaped(o: Options, s: State, ref: Ref, chunk: Bytes)
    requires Shaped(o, s) && ref in s.uploads && ref in s.pending && |s.pending[ref]| + |chunk| <= o.maxBlob + 1
    ensures Shaped(o, s.(pending := s.pending[ref := s.pending[ref] + chunk]))
  {
  }

  lemma LeakShaped(o: Options, s: State, ref: Ref)
    requires Shaped(o, s) && ref in s.uploads
    ensures Shaped(o, LeakOp(s, ref))
  {
    assert Busy(LeakOp(s, ref)) == Busy(s);
  }

  lemma ShutShaped(o: Options, s: State)
    requires Shaped(o, s)
    ensures Shaped(o, s.(closed := true))
  {
  }

  lemma PublishShaped(o: Options, s: State, ref: Ref, expires: int)
    requires Shaped(o, s) && ref in s.uploads && ref in s.pending && |s.pending[ref]| <= o.maxBlob
    ensures Shaped(o, PublishOp(o, s, ref, expires))
  {
  }

  lemma AbortShaped(o: Options, s: State, ref: Ref)
    requires Shaped(o, s) && ref in s.uploads && ref in s.entries
    ensures Shaped(o, AbortOp(s, ref))
  {
  }

  lemma OpenShaped(o: Options, s: State, handle: nat, ref: Ref)
    requires Shaped(o, s) && Live(s, ref)
    ensures Shaped(o, OpenOp(s, handle, ref))
  {
  }

  lemma ReleaseShaped(o: Options, s: State, handle: nat)
    requires ReadersCounted(s) && Shaped(o, s) && handle in s.handles
    requires s.handles[handle] in s.entries && s.entries[s.handles[handle]].readers > 0
    ensures Shaped(o, ReleaseOp(s, handle))
  {
    var ref := s.handles[handle];
    assert ref !in Busy(s) && ref in s.content;
    hide ReadersCounted;
    var x := s.entries[ref].(readers := s.entries[ref].readers - 1);
    if x.deleted && x.readers == 0 {
      assert s.entries[ref := x] - {ref} == s.entries - {ref};
      DropShaped(o, s, ReleaseOp(s, handle), ref);
    } else {
      RetireShaped(o, s, ReleaseOp(s, handle), ref);
    }
  }

  /** A published file disappears together with its entry. */
  lemma DropShaped(o: Options, s: State, t: State, ref: Ref)
    requires Shaped(o, s) && ref !in Busy(s)
    requires t.entries == s.entries - {ref} && t.content == s.content - {ref} && t.pending == s.pending
    requires t.uploads == s.uploads && t.leaked == s.leaked
    ensures Shaped(o, t)
  {
    assert Busy(t) == Busy(s);
  }

  /** A published file changes hands but keeps its size. */
  lemma RetireShaped(o: Options, s: State, t: State, ref: Ref)
    requires Shaped(o, s) && ref !in Busy(s) && ref in s.entries && ref in t.entries
    requires t.entries == s.entries[ref := t.entries[ref]] && t.entries[ref].size == s.entries[ref].size
    requires t.entries[ref].deleted ==> t.entries[ref].readers > 0
    requires t.content == s.content && t.pending == s.pending && t.uploads == s.uploads && t.leaked == s.leaked
    ensures Shaped(o, t)
  {
    assert Busy(t) == Busy(s);
  }

  lemma RemoveShaped(o: Options, s: State, ref: Ref)
    requires Shaped(o, s) && Live(s, ref)
    ensures Shaped(o, RemoveOp(s, ref))
  {
    assert ref !in Busy(s);
    hide Shaped;
    if s.entries[ref].readers == 0 {
      assert s.entries[ref := s.entries[ref].(deleted := true)] - {ref} == s.entries - {ref};
      DropShaped(o, s, RemoveOp(s, ref), ref);
    } else {
      RetireShaped(o, s, RemoveOp(s, ref), ref);
    }
  }

  lemma KeepsShaped(o: Options, s: State, step: Step)
    requires ReadersCounted(s) && Shaped(o, s) && Enabled(o, s, step)
    ensures Shaped(o, Apply(o, s, step))
  {
    hide ReadersCounted, Shaped, ReleaseOp, RemoveOp, OpenOp, PublishOp, AbortOp, ReserveOp, LeakOp;
    match step
    case Reserve(ref) => ReserveShaped(o, s, ref);
    case Write(ref, chunk) => WriteShaped(o, s, ref, chunk);
    case Leak(ref) => LeakShaped(o, s, ref);
    case Publish(ref, expires) => PublishShaped(o, s, ref, expires);
    case Abort(ref) => AbortShaped(o, s, ref);
    case Open(handle, ref) => OpenShaped(o, s, handle, ref);
    case Release(handle) => ReleaseShaped(o, s, handle);
    case Erase(ref) => RemoveShaped(o, s, ref);
    case Expire(ref, _) => RemoveShaped(o, s, ref);
    case Shut => ShutShaped(o, s);
  }

  lemma KeepsQuiet(o: Options, s: State, step: Step)
    requires ReadersCounted(s) && Shaped(o, s) && Quiet(s) && Enabled(o, s, step)
    ensures Quiet(Apply(o, s, step))
  {
    if step.Shut? {
      IdleMeans(o, s);
    } else {
      hide ReadersCounted, Shaped, ReleaseOp, RemoveOp, AbortOp;
      assert step.Release? ==> ReleaseOp(s, step.handle).closed == s.closed && s.handles != map[] by {
        if step.Release? { ReleaseKeepsClosed(s, step.handle); }
      }
      assert step.Abort? ==> AbortOp(s, step.ref).closed == s.closed && s.uploads != {} by {
        if step.Abort? { AbortKeepsClosed(s, step.ref); }
      }
      assert step.Erase? || step.Expire? ==> RemoveOp(s, step.ref).closed == s.closed by {
        if step.Erase? || step.Expire? { RemoveKeepsClosed(s, step.ref); }
      }
    }
  }

  lemma ReleaseKeepsClosed(s: State, handle: nat)
    requires CanRelease(s, handle)
    ensures ReleaseOp(s, handle).closed == s.closed
  {
  }

  lemma AbortKeepsClosed(s: State, ref: Ref)
    requires ref in s.entries
    ensures AbortOp(s, ref).closed == s.closed
  {
  }

  lemma RemoveKeepsClosed(s: State, ref: Ref)
    requires ref in s.entries
    ensures RemoveOp(s, ref).closed == s.closed
  {
  }

  lemma HandleIsCounted(s: State, h: nat)
    requires ReadersCounted(s) && h in s.handles
    ensures s.handles[h] in s.entries && s.entries[s.handles[h]].readers > 0
  {
    assert h in ReadersOf(s, s.handles[h]);
  }

  /** The loop of Close finds no reader exactly when no handle is open and no upload is unfinished or leaked. */
  lemma IdleMeans(o: Options, s: State)
    requires ReadersCounted(s) && Shaped(o, s)
    ensures Idle(s) <==> s.handles == map[] && s.uploads == {} && s.leaked == {}
  {
    if s.handles != map[] {
      var h :| h in s.handles;
      HandleIsCounted(s, h);
    } else if Busy(s) != {} {
      hide ReadersOf;
      var r :| r in Busy(s);
      assert s.entries[r].readers == 1;
    } else {
      hide Shaped;
      forall r | r in s.entries ensures s.entries[r].readers == 0 {
        assert ReadersOf(s, r) == {};
      }
    }
  }

  lemma StepInv(o: Options, s: State, step: Step)
    requires Inv(o, s) && Enabled(o, s, step)
    ensures Inv(o, Apply(o, s, step))
  {
    hide Accounted, ReadersCounted, Shaped, Quiet, Enabled, Apply;
    KeepsAccounted(o, s, step);
    KeepsReaders(o, s, step);
    KeepsShaped(o, s, step);
    KeepsQuiet(o, s, step);
  }

  lemma {:induction false} RunInv(o: Options, s: State, steps: seq<Step>, s': State)
    requires Inv(o, s) && Leads(o, s, steps, s')
    ensures Inv(o, s')
    decreases |steps|
  {
    hide Inv, Enabled, Apply;
    if steps != [] {
      StepInv(o, s, steps[0]);
      RunInv(o, Apply(o, s, steps[0]), steps[1..], s');
    }
  }

  // ----- what holds in every reachable state

  lemma ReachableInv(o: Options, s: State)
    requires Reachable(o, s)
    ensures Inv(o, s)
  {
    hide Inv, Fresh, Leads;
    var start, steps :| Fresh(o, start) && Leads(o, start, steps, s);
    FreshInv(o, start);
    RunInv(o, start, steps, s);
  }

  /** Quotas and reference counts, in every interleaving. */
  lemma Quotas(o: Options, s: State, ref: Ref)
    requires Reachable(o, s)
    ensures s.used == Sum(Sizes(s.entries)) <= o.maxTotal && |s.entries| <= o.maxEntries
    ensures ref in s.entries ==>
              s.entries[ref].readers == |ReadersOf(s, ref)| + (if ref in s.uploads || ref in s.leaked then 1 else 0)
  {
    ReachableInv(o, s);
    if ref in Busy(s) {
      assert forall h :: h in s.handles ==> s.handles[h] != ref;
      assert ReadersOf(s, ref) == {};
    }
  }

  /** Bytes on disk: the files that a name or a reader keeps, and the pending ones. */
  ghost function DiskSizes(s: State): map<Ref, nat> {
    map r | r in s.content.Keys + s.pending.Keys :: if r in s.pending then |s.pending[r]| else |s.content[r]|
  }

  /** The disk holds at most one probe byte per upload more than what is accounted for. */
  lemma DiskIsAccounted(o: Options, s: State)
    requires Reachable(o, s)
    ensures Sum(DiskSizes(s)) <= s.used + |s.uploads| + |s.leaked|
  {
    assert Shaped(o, s) && Accounted(o, s) by { ReachableInv(o, s); }
    hide Reachable;
    DiskWithinSizes(o, s);
    assert s.used == Sum(Sizes(s.entries));
    hide Shaped, Accounted, Sizes, DiskSizes;
    SumBound(DiskSizes(s), Sizes(s.entries), Busy(s));
  }

  /** Bytes published and not yet given back: of deleted blobs too, while somebody reads them. */
  ghost function ContentSizes(s: State): map<Ref, nat> { map r | r in s.content :: |s.content[r]| }

  /** Uploads that have not ended, and those whose file could not be removed. */
  function Unfinished(s: State): nat { |s.uploads| + |s.leaked| }

  /**
   * What can be done, by what is there.  An upload can begin exactly if there is room for one more file of full
   * size beside the published files and the unfinished uploads; it can be published exactly if it kept to the limit.
   */
  lemma PossibleIff(o: Options, s: State, ref: Ref, handle: nat, now: int)
    requires Reachable(o, s)
    ensures Enabled(o, s, Reserve(ref)) <==>
              && !s.closed && ref !in s.content && ref !in s.uploads && ref !in s.leaked
              && |s.content| + Unfinished(s) < o.maxEntries
              && Sum(ContentSizes(s)) + (Unfinished(s) + 1) * o.maxBlob <= o.maxTotal
    ensures Enabled(o, s, Publish(ref, now)) <==> ref in s.uploads && ref in s.pending && |s.pending[ref]| <= o.maxBlob
    ensures Enabled(o, s, Open(handle, ref)) <==> !s.closed && handle !in s.handles && ref in View(s)
    ensures Enabled(o, s, Erase(ref)) <==> !s.closed && ref in View(s)
    ensures Enabled(o, s, Expire(ref, now)) <==> !s.closed && ref in View(s) && ref in s.entries && now > s.entries[ref].expires
    ensures Enabled(o, s, Release(handle)) <==> handle in s.handles
  {
    hide *;
    ReachableInv(o, s);
    RoomIff(o, s, ref);
    ReadIff(o, s, ref, handle, now);
  }

  lemma RoomIff(o: Options, s: State, ref: Ref)
    requires Inv(o, s)
    ensures Enabled(o, s, Reserve(ref)) <==>
              && !s.closed && ref !in s.content && ref !in s.uploads && ref !in s.leaked
              && |s.content| + Unfinished(s) < o.maxEntries
              && Sum(ContentSizes(s)) + (Unfinished(s) + 1) * o.maxBlob <= o.maxTotal
  {
    hide *;
    EntriesAre(o, s);
    RoomOf(o, s);
    OneMore(Unfinished(s), o.maxBlob);
    Reserving(o, s, ref);
  }

  lemma OneMore(n: nat, v: nat)
    ensures (n + 1) * v == n * v + v
  {
  }

  lemma Reserving(o: Options, s: State, ref: Ref)
    ensures Enabled(o, s, Reserve(ref)) <==> !s.closed && ref !in s.entries && |s.entries| < o.maxEntries && o.maxBlob <= o.maxTotal - s.used
  {
  }

  lemma ReadIff(o: Options, s: State, ref: Ref, handle: nat, now: int)
    requires Inv(o, s)
    ensures Enabled(o, s, Publish(ref, now)) <==> ref in s.uploads && ref in s.pending && |s.pending[ref]| <= o.maxBlob
    ensures Enabled(o, s, Open(handle, ref)) <==> !s.closed && handle !in s.handles && ref in View(s)
    ensures Enabled(o, s, Erase(ref)) <==> !s.closed && ref in View(s)
    ensures Enabled(o, s, Expire(ref, now)) <==> !s.closed && ref in View(s) && ref in s.entries && now > s.entries[ref].expires
    ensures Enabled(o, s, Release(handle)) <==> handle in s.handles
  {
    if handle in s.handles {
      HandleReady(o, s, handle);
    }
    LiveHasContent(o, s, ref);
    if ref in s.uploads {
      UploadEntry(o, s, ref);
    }
    hide *;
    Enabling(o, s, ref, handle, now);
  }

  /** The conditions of these steps, field by field. */
  lemma Enabling(o: Options, s: State, ref: Ref, handle: nat, now: int)
    ensures Enabled(o, s, Publish(ref, now)) <==> !s.closed && ref in s.uploads && ref in s.pending && |s.pending[ref]| <= o.maxBlob
    ensures Enabled(o, s, Open(handle, ref)) <==> !s.closed && handle !in s.handles && Live(s, ref)
    ensures Enabled(o, s, Erase(ref)) <==> !s.closed && Live(s, ref)
    ensures Enabled(o, s, Expire(ref, now)) <==> !s.closed && Live(s, ref) && now > s.entries[ref].expires
    ensures Enabled(o, s, Release(handle)) <==>
              handle in s.handles && s.handles[handle] in s.entries && s.entries[s.handles[handle]].readers > 0
  {
  }

  lemma EntriesAre(o: Options, s: State)
    requires Inv(o, s)
    ensures s.entries.Keys == s.content.Keys + s.uploads + s.leaked
    ensures s.uploads !! s.leaked && s.content.Keys !! s.uploads + s.leaked
    ensures forall r :: r in Busy(s) ==> r in s.entries && s.entries[r].size == o.maxBlob
    ensures forall r :: r in s.content ==> r in s.entries && s.entries[r].size == |s.content[r]|
    ensures s.used == Sum(Sizes(s.entries))
  {
    hide Sum;
  }

  lemma RoomOf(o: Options, s: State)
    requires Inv(o, s)
    ensures |s.entries| == |s.content| + Unfinished(s)
    ensures s.used == Sum(ContentSizes(s)) + Unfinished(s) * o.maxBlob
  {
    hide *;
    EntriesAre(o, s);
    UnfinishedIs(s);
    CountJoined(s.entries, s.content, s.uploads, s.leaked);
    RoomTaken(s, o.maxBlob);
    SumSame(Sizes(s.entries), Busy(s), o.maxBlob);
  }

  lemma UnfinishedIs(s: State)
    requires s.uploads !! s.leaked
    ensures Busy(s) == s.uploads + s.leaked && Unfinished(s) == |s.uploads| + |s.leaked| == |Busy(s)|
  {
  }

  lemma RoomTaken(s: State, v: nat)
    requires s.uploads !! s.leaked
    requires s.entries.Keys == s.content.Keys + s.uploads + s.leaked && s.content.Keys !! s.uploads + s.leaked
    requires forall r :: r in s.content ==> s.entries[r].size == |s.content[r]|
    requires forall r :: r in Busy(s) ==> r in s.entries && s.entries[r].size == v
    ensures Sizes(s.entries) - Busy(s) == ContentSizes(s) && Busy(s) <= Sizes(s.entries).Keys
    ensures forall r :: r in Busy(s) ==> Sizes(s.entries)[r] == v
  {
    hide Sum;
    SizesJoined(s);
    SizesOfBusy(s);
    hide ContentSizes, Sizes;
  }

  lemma CountJoined(entries: map<Ref, Entry>, content: map<Ref, Bytes>, a: set<Ref>, b: set<Ref>)
    requires entries.Keys == content.Keys + a + b && a !! b && content.Keys !! a + b
    ensures |entries| == |content| + |a| + |b|
  {
    assert |entries| == |entries.Keys| && |content| == |content.Keys|;
    assert |content.Keys + a| == |content.Keys| + |a|;
    assert |content.Keys + a + b| == |content.Keys + a| + |b|;
  }

  lemma SizesJoined(s: State)
    requires s.entries.Keys == s.content.Keys + s.uploads + s.leaked && s.content.Keys !! s.uploads + s.leaked
    requires forall r :: r in s.content ==> r in s.entries && s.entries[r].size == |s.content[r]|
    ensures Sizes(s.entries) - Busy(s) == ContentSizes(s)
  {
  }

  lemma SizesOfBusy(s: State)
    ensures Sizes(s.entries).Keys == s.entries.Keys
    ensures forall r :: r in s.entries ==> Sizes(s.entries)[r] == s.entries[r].size
  {
  }

  lemma {:induction false} SumSame(m: map<Ref, nat>, some: set<Ref>, v: nat)
    requires some <= m.Keys && forall k :: k in some ==> m[k] == v
    ensures Sum(m) == Sum(m - some) + |some| * v
    decreases |some|
  {
    hide Sum;
    if some == {} {
      assert m - some == m;
    } else {
      var k :| k in some;
      SumSplit(m, k);
      SumSame(m - {k}, some - {k}, v);
      assert m - {k} - (some - {k}) == m - some;
      OneMore(|some - {k}|, v);
    }
  }

  lemma DiskWithinSizes(o: Options, s: State)
    requires Shaped(o, s)
    ensures DiskSizes(s).Keys == Sizes(s.entries).Keys && Busy(s) <= DiskSizes(s).Keys
    ensures |Busy(s)| == |s.uploads| + |s.leaked|
    ensures forall r :: r in DiskSizes(s) ==> DiskSizes(s)[r] <= Sizes(s.entries)[r] + (if r in Busy(s) then 1 else 0)
  {
  }

  // ----- the store is an immutable map

  /** What callers can see: the published, not yet deleted blobs. */
  function View(s: State): map<Ref, Bytes> {
    map r | r in s.content && Live(s, r) :: s.content[r]
  }

  /** Publish adds one binding, Erase and Expire take one away, every other step leaves the map alone. */
  lemma StepRefinesMap(o: Options, s: State, step: Step)
    requires Inv(o, s) && Enabled(o, s, step)
    ensures var v, v' := View(s), View(Apply(o, s, step));
            match step
            case Publish(ref, _) => ref in s.pending && ref !in v && v' == v[ref := s.pending[ref]]
            case Erase(ref) => ref in v && v' == v - {ref}
            case Expire(ref, _) => ref in v && v' == v - {ref}
            case _ => v' == v
  {
    hide Accounted, Quiet, Shaped, ReadersCounted, View, PublishOp, RemoveOp, ReleaseOp, ReserveOp, AbortOp, OpenOp, LeakOp;
    match step
    case Publish(ref, expires) => PublishView(o, s, ref, expires);
    case Erase(ref) => RemoveView(o, s, ref);
    case Expire(ref, _) => RemoveView(o, s, ref);
    case Release(handle) => ReleaseView(o, s, handle);
    case Reserve(ref) => ReserveView(o, s, ref);
    case Abort(ref) => AbortView(o, s, ref);
    case Open(handle, ref) => OpenView(s, handle, ref);
    case Leak(ref) => SameView(s, LeakOp(s, ref)) by { assert LeakOp(s, ref).content == s.content by { LeakFields(s, ref); } LeakFields(s, ref); }
    case _ => SameView(s, Apply(o, s, step));
  }

  lemma LeakFields(s: State, ref: Ref)
    ensures LeakOp(s, ref).content == s.content && LeakOp(s, ref).entries == s.entries
  {
  }

  lemma SameView(s: State, t: State)
    requires t.content == s.content && t.entries == s.entries
    ensures View(t) == View(s)
  {
  }

  lemma PublishView(o: Options, s: State, ref: Ref, expires: int)
    requires Shaped(o, s) && ref in s.uploads && ref in s.pending
    ensures ref !in View(s) && View(PublishOp(o, s, ref, expires)) == View(s)[ref := s.pending[ref]]
  {
  }

  lemma RemoveView(o: Options, s: State, ref: Ref)
    requires Shaped(o, s) && Live(s, ref)
    ensures ref in View(s) && View(RemoveOp(s, ref)) == View(s) - {ref}
  {
    var t := RemoveOp(s, ref);
    assert ref in View(s);
    hide Shaped;
    assert forall r :: r in View(t) <==> r in View(s) && r != ref;
  }

  lemma OpenView(s: State, handle: nat, ref: Ref)
    requires Live(s, ref)
    ensures View(OpenOp(s, handle, ref)) == View(s)
  {
    var t := OpenOp(s, handle, ref);
    assert forall r :: r in View(t) <==> r in View(s);
  }

  lemma ReleaseView(o: Options, s: State, handle: nat)
    requires Shaped(o, s) && handle in s.handles && s.handles[handle] in s.entries
    requires s.entries[s.handles[handle]].readers > 0
    ensures View(ReleaseOp(s, handle)) == View(s)
  {
    hide Shaped;
    var t, ref := ReleaseOp(s, handle), s.handles[handle];
    if s.entries[ref].deleted && s.entries[ref].readers == 1 {
      assert t.content == s.content - {ref} && t.entries.Keys == s.entries.Keys - {ref};
      assert forall r :: r in t.entries ==> t.entries[r] == s.entries[r];
    } else {
      assert t.content == s.content && t.entries.Keys == s.entries.Keys;
    }
    assert forall r :: Live(t, r) <==> Live(s, r);
    hide ReleaseOp;
  }

  lemma ReserveView(o: Options, s: State, ref: Ref)
    requires Shaped(o, s) && ref !in s.entries
    ensures View(ReserveOp(o, s, ref)) == View(s)
  {
  }

  lemma AbortView(o: Options, s: State, ref: Ref)
    requires Shaped(o, s) && ref in s.uploads
    ensures ref in s.entries && View(AbortOp(s, ref)) == View(s)
  {
  }

  ghost predicate Avoids(steps: seq<Step>, step: Step) { forall i :: 0 <= i < |steps| ==> steps[i] != step }

  lemma CanOpen(o: Options, s: State, ref: Ref)
    requires ref in View(s)
    ensures forall h :: h !in s.handles && !s.closed ==> Enabled(o, s, Open(h, ref))
  {
  }

  /** No Delete of ref, and no clock reading that finds it past `expires`. */
  ghost predicate Spares(steps: seq<Step>, ref: Ref, expires: int) {
    forall i :: 0 <= i < |steps| ==>
      steps[i] != Erase(ref) && (steps[i].Expire? && steps[i].ref == ref ==> steps[i].now <= expires)
  }

  /** Until Delete or expiry, a published blob can be read, reads as it was published, and keeps its expiry. */
  lemma {:induction false} BlobIsImmutable(o: Options, s: State, steps: seq<Step>, s': State, ref: Ref)
    requires Inv(o, s) && Leads(o, s, steps, s') && ref in View(s) && Spares(steps, ref, s.entries[ref].expires)
    ensures ref in View(s') && View(s')[ref] == View(s)[ref]
    ensures s'.entries[ref].expires == s.entries[ref].expires
    ensures forall h :: h !in s'.handles && !s'.closed ==> Enabled(o, s', Open(h, ref))
    decreases |steps|
  {
    hide Inv, Enabled, Apply, View;
    if steps != [] {
      StepRefinesMap(o, s, steps[0]);
      StepInv(o, s, steps[0]);
      ExpiryStays(o, s, steps[0], ref);
      BlobIsImmutable(o, Apply(o, s, steps[0]), steps[1..], s', ref);
    } else {
      CanOpen(o, s, ref);
    }
  }

  /** A published blob keeps its entry's expiry, and only Delete or a later clock reading takes it away. */
  lemma ExpiryStays(o: Options, s: State, step: Step, ref: Ref)
    requires Inv(o, s) && Enabled(o, s, step) && ref in View(s)
    ensures var t := Apply(o, s, step);
            if step == Erase(ref) || (step.Expire? && step.ref == ref) then step.Expire? ==> step.now > s.entries[ref].expires
            else ref in View(t) && t.entries[ref].expires == s.entries[ref].expires
  {
    LiveHasContent(o, s, ref);
    StepRefinesMap(o, s, step);
    UploadHidden(o, s, step, ref);
    hide Inv, View, Apply;
    SameExpiry(o, s, step, ref);
    assert ref in View(Apply(o, s, step)) ==> ref in Apply(o, s, step).entries by {
      ViewHasEntry(Apply(o, s, step), ref);
    }
  }

  lemma ViewHasEntry(s: State, ref: Ref)
    ensures ref in View(s) ==> ref in s.entries
  {
  }

  lemma UploadHidden(o: Options, s: State, step: Step, ref: Ref)
    requires Inv(o, s) && Enabled(o, s, step) && Live(s, ref)
    ensures step.Reserve? || step.Publish? ==> step.ref != ref
  {
    hide Accounted, ReadersCounted, Quiet;
  }

  /** Only an upload gives an entry its expiry. */
  lemma SameExpiry(o: Options, s: State, step: Step, ref: Ref)
    requires Enabled(o, s, step) && ref in s.entries && (step.Reserve? || step.Publish? ==> step.ref != ref)
    ensures var t := Apply(o, s, step); ref in t.entries ==> t.entries[ref].expires == s.entries[ref].expires
  {
  }

  /** A blob that is gone was deleted, or found expired by a clock reading past its expiry. */
  lemma GoneMeansRemoved(o: Options, s: State, steps: seq<Step>, s': State, ref: Ref)
    requires Inv(o, s) && Leads(o, s, steps, s') && ref in View(s) && ref !in View(s')
    ensures exists i :: 0 <= i < |steps| &&
              (steps[i] == Erase(ref) || (steps[i].Expire? && steps[i].ref == ref && steps[i].now > s.entries[ref].expires))
  {
    LiveHasContent(o, s, ref);
    hide Inv, Leads, View;
    if Spares(steps, ref, s.entries[ref].expires) {
      BlobIsImmutable(o, s, steps, s', ref);
    }
  }

  /** An open reader keeps its bytes through Delete, expiry and everything else. */
  lemma {:induction false} ReaderKeepsBytes(o: Options, s: State, steps: seq<Step>, s': State, handle: nat)
    requires Inv(o, s) && Leads(o, s, steps, s') && handle in s.handles && Avoids(steps, Release(handle))
    ensures s.handles[handle] in s.content
    ensures handle in s'.handles && s'.handles[handle] == s.handles[handle]
    ensures s.handles[handle] in s'.content && s'.content[s.handles[handle]] == s.content[s.handles[handle]]
    decreases |steps|
  {
    HandleHasContent(o, s, handle);
    if steps != [] {
      hide Inv, Enabled, Apply;
      assert steps[0] != Release(handle);
      ReaderStep(o, s, steps[0], handle);
      StepInv(o, s, steps[0]);
      ReaderKeepsBytes(o, Apply(o, s, steps[0]), steps[1..], s', handle);
    }
  }

  lemma HandleHasContent(o: Options, s: State, handle: nat)
    requires Inv(o, s) && handle in s.handles
    ensures s.handles[handle] in s.content
  {
    HandleIsCounted(s, handle);
  }

  lemma ReaderStep(o: Options, s: State, step: Step, handle: nat)
    requires Inv(o, s) && Enabled(o, s, step) && handle in s.handles && step != Release(handle)
    ensures var t, ref := Apply(o, s, step), s.handles[handle];
            handle in t.handles && t.handles[handle] == ref && ref in s.content && ref in t.content && t.content[ref] == s.content[ref]
  {
    var ref := s.handles[handle];
    HandleIsCounted(s, handle);
    HandleHasContent(o, s, handle);
    if step.Release? && step.handle in s.handles && s.handles[step.handle] == ref {
      TwoReaders(s, handle, step.handle);
    }
    assert step.Publish? ==> step.ref != ref by { if step.Publish? { UploadUnread(o, s, step.ref, handle); } }
    hide Inv, Apply;
    HandleStep(o, s, step, handle);
  }

  /** Handles and files, seen from a handle that is open on a file somebody reads. */
  lemma HandleStep(o: Options, s: State, step: Step, handle: nat)
    requires Enabled(o, s, step) && handle in s.handles && step != Release(handle)
    requires s.handles[handle] in s.content && s.handles[handle] in s.entries && s.entries[s.handles[handle]].readers > 0
    requires step.Publish? ==> step.ref != s.handles[handle]
    requires step.Release? && step.handle in s.handles && s.handles[step.handle] == s.handles[handle] ==>
               s.entries[s.handles[handle]].readers >= 2
    ensures var t, ref := Apply(o, s, step), s.handles[handle];
            handle in t.handles && t.handles[handle] == ref && ref in t.content && t.content[ref] == s.content[ref]
  {
  }

  lemma UploadUnread(o: Options, s: State, ref: Ref, handle: nat)
    requires Inv(o, s) && ref in s.uploads && handle in s.handles
    ensures s.handles[handle] != ref
  {
  }

  lemma TwoReaders(s: State, h: nat, i: nat)
    requires ReadersCounted(s) && h in s.handles && i in s.handles && h != i && s.handles[h] == s.handles[i]
    ensures s.handles[h] in s.entries && s.entries[s.handles[h]].readers >= 2
  {
    var readers := ReadersOf(s, s.handles[h]);
    assert {h, i} <= readers;
    assert readers == {h, i} + (readers - {h, i});
  }

  // ----- what an upload publishes

  /** Everything written to a pending file, in order. */
  function Written(steps: seq<Step>, ref: Ref): Bytes {
    if steps == [] then []
    else (if steps[0].Write? && steps[0].ref == ref then steps[0].chunk else []) + Written(steps[1..], ref)
  }

  predicate Ends(step: Step, ref: Ref) { (step.Publish? || step.Abort? || step.Leak?) && step.ref == ref }

  /** The upload of ref is not finished by any of these steps. */
  ghost predicate Unended(steps: seq<Step>, ref: Ref) { forall i :: 0 <= i < |steps| ==> !Ends(steps[i], ref) }

  lemma {:induction false} PendingGrows(o: Options, s: State, steps: seq<Step>, s': State, ref: Ref)
    requires Inv(o, s) && Leads(o, s, steps, s') && ref in s.uploads && Unended(steps, ref)
    ensures ref in s.pending
    ensures ref in s'.uploads && ref in s'.pending && s'.pending[ref] == s.pending[ref] + Written(steps, ref)
    decreases |steps|
  {
    hide Inv, Enabled, Apply, Ends;
    UploadEntry(o, s, ref);
    if steps != [] {
      var t := Apply(o, s, steps[0]);
      assert !Ends(steps[0], ref) && Unended(steps[1..], ref);
      StepInv(o, s, steps[0]);
      PendingStep(o, s, steps[0], ref);
      PendingGrows(o, t, steps[1..], s', ref);
      JoinWritten(s.pending[ref], steps, ref);
    } else {
      assert s.pending[ref] + [] == s.pending[ref];
    }
  }

  lemma JoinWritten(p: Bytes, steps: seq<Step>, ref: Ref)
    requires steps != []
    ensures p + (if steps[0].Write? && steps[0].ref == ref then steps[0].chunk else []) + Written(steps[1..], ref) ==
            p + Written(steps, ref)
  {
  }

  lemma PendingStep(o: Options, s: State, step: Step, ref: Ref)
    requires Inv(o, s) && Enabled(o, s, step) && ref in s.uploads && !Ends(step, ref)
    ensures var t := Apply(o, s, step);
            && ref in s.pending && ref in t.uploads && ref in t.pending
            && t.pending[ref] == s.pending[ref] + (if step.Write? && step.ref == ref then step.chunk else [])
  {
    hide Accounted, Quiet, ReadersCounted;
    assert s.pending[ref] + [] == s.pending[ref];
  }

  /** While it is under way an upload is invisible; when it is published, the blob is every byte it was given. */
  lemma UploadIsAtomic(o: Options, s: State, ref: Ref, steps: seq<Step>, s': State, expires: int)
    requires Inv(o, s) && Enabled(o, s, Reserve(ref))
    requires Leads(o, ReserveOp(o, s, ref), steps, s')
    requires Unended(steps, ref)
    ensures ref !in View(s') && forall h :: !Enabled(o, s', Open(h, ref))
    ensures !s'.closed
    ensures Enabled(o, s', Publish(ref, expires)) <==> |Written(steps, ref)| <= o.maxBlob
    ensures Enabled(o, s', Publish(ref, expires)) ==>
              View(Apply(o, s', Publish(ref, expires))) == View(s')[ref := Written(steps, ref)]
  {
    var t := ReserveOp(o, s, ref);
    StepInv(o, s, Reserve(ref));
    assert Inv(o, t) && ref in t.uploads && t.pending[ref] == [];
    hide Inv, Leads, Ends, Enabled, View, Apply, ReserveOp;
    RunInv(o, t, steps, s');
    PendingGrows(o, t, steps, s', ref);
    assert [] + Written(steps, ref) == Written(steps, ref);
    UploadInvisible(o, s', ref, expires);
    if Enabled(o, s', Publish(ref, expires)) {
      StepRefinesMap(o, s', Publish(ref, expires));
    }
  }

  lemma UploadInvisible(o: Options, s: State, ref: Ref, expires: int)
    requires Inv(o, s) && ref in s.uploads
    ensures ref !in View(s) && forall h :: !Enabled(o, s, Open(h, ref))
    ensures !s.closed && ref in s.pending
    ensures Enabled(o, s, Publish(ref, expires)) <==> |s.pending[ref]| <= o.maxBlob
  {
  }

  // ----- capacity and close

  /** Closing a reader returns the capacity of its file exactly when the file is deleted and it was the last. */
  lemma CapacityAtLastClose(o: Options, s: State, handle: nat)
    requires Inv(o, s) && handle in s.handles
    ensures Enabled(o, s, Release(handle))
    ensures var ref := s.handles[handle];
            ReleaseOp(s, handle).used ==
              s.used - (if s.entries[ref].deleted && ReadersOf(s, ref) == {handle} then s.entries[ref].size else 0)
  {
    var ref := s.handles[handle];
    HandleIsCounted(s, handle);
    var readers := ReadersOf(s, ref);
    assert handle in readers;
    assert readers == {handle} + (readers - {handle});
  }

  /** Close succeeds exactly when no reader is open, no upload is under way and none was leaked. */
  lemma CloseIff(o: Options, s: State)
    requires Reachable(o, s)
    ensures Enabled(o, s, Shut) <==> s.handles == map[] && s.uploads == {} && s.leaked == {}
    ensures s.closed ==> s.handles == map[] && s.uploads == {}
  {
    hide Reachable, Accounted, ReadersCounted, Shaped, Idle;
    ReachableInv(o, s);
    IdleMeans(o, s);
  }

  /** The second half of Put never finds the store closed. */
  lemma ClosedBranchUnreachable(o: Options, s: State, ref: Ref)
    requires Reachable(o, s) && ref in s.uploads
    ensures !s.closed
  {
    hide Reachable, Accounted, ReadersCounted, Shaped;
    ReachableInv(o, s);
  }

  /** After a failed upload whose file could not be removed, the store can never be closed again. */
  lemma {:induction false} LeakBlocksClose(o: Options, s: State, steps: seq<Step>, s': State, ref: Ref)
    requires Inv(o, s) && Leads(o, s, steps, s') && ref in s.leaked
    ensures ref in s'.leaked && !s'.closed && !Enabled(o, s', Shut)
    decreases |steps|
  {
    if steps == [] {
      IdleMeans(o, s);
    } else {
      hide Enabled, Apply, Inv;
      LeakStays(o, s, steps[0], ref);
      StepInv(o, s, steps[0]);
      LeakBlocksClose(o, Apply(o, s, steps[0]), steps[1..], s', ref);
    }
  }

  /** Such a store exists: one upload into a new store, failing where its file cannot be removed either. */
  lemma LeakHappens(o: Options, ref: Ref) returns (s: State)
    requires ValidOptions(o)
    ensures Reachable(o, s) && ref in s.leaked
  {
    EmptyFresh(o);
    var started := ReserveOp(o, EMPTY, ref);
    s := LeakOp(started, ref);
    assert Enabled(o, EMPTY, Reserve(ref)) && Enabled(o, started, Leak(ref));
    hide Fresh, Enabled, ReserveOp, LeakOp;
    assert [Reserve(ref), Leak(ref)][1..] == [Leak(ref)];
    assert Leads(o, started, [Leak(ref)], s);
    assert Leads(o, EMPTY, [Reserve(ref), Leak(ref)], s);
  }

  lemma LeakStays(o: Options, s: State, step: Step, ref: Ref)
    requires Enabled(o, s, step) && ref in s.leaked
    ensures ref in Apply(o, s, step).leaked
  {
  }

  // ----- the methods of diskStore

  datatype PutStart = Started | StoreClosed | NoCapacity | Failed

  datatype GetResult = Opened | GetClosed | NotFound | GetFailed

  function Expirations(refs: seq<Ref>, now: int): (steps: seq<Step>)
    ensures |steps| == |refs|
  {
    seq(|refs|, i requires 0 <= i < |refs| => Expire(refs[i], now))
  }

  /** Some expired blob cannot be unlinked. */
  predicate Stuck(s: State, now: int, failing: set<Ref>) { exists r :: r in failing && Expired(s, r, now) }

  lemma {:induction false} LeadsAppend(o: Options, s: State, xs: seq<Step>, mid: State, step: Step)
    requires Leads(o, s, xs, mid) && Enabled(o, mid, step)
    ensures Leads(o, s, xs + [step], Apply(o, mid, step))
    decreases |xs|
  {
    hide Enabled, Apply;
    if xs == [] {
      assert xs + [step] == [step];
      assert [step][1..] == [];
    } else {
      assert (xs + [step])[1..] == xs[1..] + [step];
      LeadsAppend(o, Apply(o, s, xs[0]), xs[1..], mid, step);
    }
  }

  // ----- opening a store on a directory

  /**
   * One name in the directory.  `usable` files are regular ones of ours that can be examined, `removable` ones can
   * be unlinked if need be.
   */
  datatype Found =
    | Lock
    | Unknown
    | Unfinished(usable: bool, removable: bool)
    | Blob(ref: Ref, data: Bytes, expires: int, usable: bool, removable: bool)

  predicate Kept(f: Found, now: int) { f.Blob? && now <= f.expires }

  /** Neither foreign nor in the way; leftovers and expired blobs have to go. */
  predicate Acceptable(o: Options, f: Found, now: int) {
    match f
    case Lock => true
    case Unknown => false
    case Unfinished(usable, removable) => usable && removable
    case Blob(_, data, expires, usable, removable) => usable && if now > expires then removable else |data| <= o.maxBlob
  }

  function Count(files: seq<Found>, now: int): nat {
    if files == [] then 0
    else Count(files[..|files| - 1], now) + if Kept(files[|files| - 1], now) then 1 else 0
  }

  function Total(files: seq<Found>, now: int): nat {
    if files == [] then 0
    else Total(files[..|files| - 1], now) + if Kept(files[|files| - 1], now) then |files[|files| - 1].data| else 0
  }

  lemma CountNothing(now: int)
    ensures Count([], now) == 0 && Total([], now) == 0
  {
  }

  /** One name more, and what that means for all of them. */
  lemma CountNext(files: seq<Found>, i: nat, now: int)
    requires i < |files|
    ensures Count(files[..i + 1], now) == Count(files[..i], now) + if Kept(files[i], now) then 1 else 0
    ensures Total(files[..i + 1], now) == Total(files[..i], now) + if Kept(files[i], now) then |files[i].data| else 0
    ensures Count(files[..i + 1], now) <= Count(files, now) && Total(files[..i + 1], now) <= Total(files, now)
  {
    assert files[..i + 1][..i] == files[..i];
    CountMore(files, i + 1, now);
  }

  lemma {:induction false} CountMore(files: seq<Found>, n: nat, now: int)
    requires n <= |files|
    ensures Count(files[..n], now) <= Count(files, now) && Total(files[..n], now) <= Total(files, now)
  {
    if n < |files| {
      assert files[..|files| - 1][..n] == files[..n];
      CountMore(files[..|files| - 1], n, now);
    } else {
      assert files[..n] == files;
    }
  }

  ghost predicate IsKept(files: seq<Found>, now: int, ref: Ref) {
    exists i :: 0 <= i < |files| && Kept(files[i], now) && files[i].ref == ref
  }

  /** Exactly the unexpired blobs, each as it is on disk. */
  ghost predicate TookOver(s: State, files: seq<Found>, now: int) {
    && (forall i :: 0 <= i < |files| && Kept(files[i], now) ==>
          && files[i].ref in s.entries && s.entries[files[i].ref].expires == files[i].expires
          && files[i].ref in s.content && s.content[files[i].ref] == files[i].data)
    && (forall q :: q in s.entries ==> IsKept(files, now, q))
  }

  ghost predicate DistinctNames(files: seq<Found>) {
    forall i, j :: 0 <= i < j < |files| && files[i].Blob? && files[j].Blob? ==> files[i].ref != files[j].ref
  }

  function TakeOp(s: State, ref: Ref, data: Bytes, expires: int): State {
    s.(entries := s.entries[ref := Entry(|data|, expires, 0, false)], used := s.used + |data|,
       content := s.content[ref := data])
  }

  lemma TakeFresh(o: Options, s: State, ref: Ref, data: Bytes, expires: int)
    requires Fresh(o, s) && ref !in s.entries
    requires |data| <= o.maxBlob && |s.entries| < o.maxEntries && |data| <= o.maxTotal - s.used
    ensures Fresh(o, TakeOp(s, ref, data, expires))
  {
    hide Accounted;
    var t := TakeOp(s, ref, data, expires);
    ReplaceAccounted(o, s, ref, Entry(|data|, expires, 0, false), s.used + |data|);
    AccountedOnly(o, s.(entries := t.entries, used := t.used), t);
  }

  /** A name that is not kept changes nothing, a name that is kept has not been taken before. */
  lemma TakeNext(s: State, files: seq<Found>, i: nat, now: int)
    requires DistinctNames(files) && i < |files| && TookOver(s, files[..i], now)
    ensures !Kept(files[i], now) ==> TookOver(s, files[..i + 1], now)
    ensures Kept(files[i], now) ==> files[i].ref !in s.entries
  {
    var before, after := files[..i], files[..i + 1];
    if Kept(files[i], now) {
      forall q | IsKept(before, now, q) ensures q != files[i].ref {
        var j :| 0 <= j < i && Kept(before[j], now) && before[j].ref == q;
        assert files[j] == before[j];
      }
    }
    forall q | IsKept(before, now, q) ensures IsKept(after, now, q) {
      StillKept(files, i, now, q);
    }
    hide IsKept;
  }

  lemma StillKept(files: seq<Found>, i: nat, now: int, q: Ref)
    requires i < |files| && IsKept(files[..i], now, q)
    ensures IsKept(files[..i + 1], now, q)
  {
    var j :| 0 <= j < i && Kept(files[..i][j], now) && files[..i][j].ref == q;
    assert files[..i + 1][j] == files[j];
  }

  lemma TakeKept(s: State, files: seq<Found>, i: nat, now: int)
    requires DistinctNames(files) && i < |files| && TookOver(s, files[..i], now) && Kept(files[i], now)
    ensures TookOver(TakeOp(s, files[i].ref, files[i].data, files[i].expires), files[..i + 1], now)
  {
    var f := files[i];
    forall q | q == f.ref || IsKept(files[..i], now, q) ensures IsKept(files[..i + 1], now, q) {
      if q == f.ref {
        assert files[..i + 1][i] == f;
      } else {
        StillKept(files, i, now, q);
      }
    }
    hide IsKept;
    assert forall k :: 0 <= k < i ==> files[..i + 1][k] == files[..i][k];
  }

  class DiskStore {
    const opts: Options
    var entries: map<Ref, Entry>
    var used: int
    var closed: bool
    var pending: map<Ref, Bytes>
    var content: map<Ref, Bytes>
    var uploads: set<Ref>
    var leaked: set<Ref>
    var handles: map<nat, Ref>

    function Model(): State
      reads this
    {
      State(entries, used, closed, pending, content, uploads, leaked, handles)
    }

    ghost predicate Valid()
      reads this
    {
      Inv(opts, Model())
    }

    constructor (opts: Options)
      requires ValidOptions(opts)
      ensures Valid() && this.opts == opts && Model() == EMPTY
    {
      this.opts := opts;
      entries, used, closed := map[], 0, false;
      pending, content, uploads, leaked, handles := map[], map[], {}, {}, map[];
      new;
      EmptyFresh(opts);
    }

    /** `load`, on a new store: succeeds exactly when every name is acceptable and the unexpired blobs fit. */
    method Load(files: seq<Found>, now: int) returns (ok: bool)
      requires ValidOptions(opts) && Model() == EMPTY && DistinctNames(files)
      modifies this
      ensures Valid() && Fresh(opts, Model())
      ensures ok <==> (forall i :: 0 <= i < |files| ==> Acceptable(opts, files[i], now)) &&
                      Count(files, now) <= opts.maxEntries && Total(files, now) <= opts.maxTotal
      ensures ok ==> TookOver(Model(), files, now)
    {
      hide Inv, Fresh, TookOver, DistinctNames, Count, Total;
      CountNothing(now);
      EmptyFresh(opts);
      assert TookOver(Model(), files[..0], now) by { TookNothing(now); }
      for i := 0 to |files|
        invariant Fresh(opts, Model()) && TookOver(Model(), files[..i], now)
        invariant forall k :: 0 <= k < i ==> Acceptable(opts, files[k], now)
        invariant |entries| == Count(files[..i], now) <= opts.maxEntries && used == Total(files[..i], now) <= opts.maxTotal
      {
        var f := files[i];
        CountNext(files, i, now);
        FreshInv(opts, Model());
        TakeNext(Model(), files, i, now);
        match f
        case Lock =>
        case Unknown =>
          return false;
        case Unfinished(usable, removable) =>
          if !usable || !removable {
            return false;
          }
        case Blob(ref, data, expires, usable, removable) =>
          if !usable {
            return false;
          }
          if now > expires {
            if !removable {
              return false;
            }
          } else {
            if |entries| >= opts.maxEntries || |data| > opts.maxBlob || |data| > opts.maxTotal - used {
              return false;
            }
            TakeKept(Model(), files, i, now);
            TakeFresh(opts, Model(), ref, data, expires);
            entries := entries[ref := Entry(|data|, expires, 0, false)];
            used := used + |data|;
            content := content[ref := data];
          }
      }
      assert files[..|files|] == files;
      FreshInv(opts, Model());
      ok := true;
    }

    /** `remove`: the unlink comes first, the capacity waits for the last reader. */
    method RemoveEntry(ref: Ref, unlinkFails: bool) returns (ok: bool)
      requires Valid() && !closed && Live(Model(), ref)
      modifies this
      ensures Valid()
      ensures ok == !unlinkFails
      ensures Model() == if ok then RemoveOp(old(Model()), ref) else old(Model())
    {
      hide Inv, RemoveOp;
      ghost var before := Model();
      RemoveIs(opts, before, ref);
      if unlinkFails {
        return false;
      }
      var x := entries[ref].(deleted := true);
      entries := entries[ref := x];
      if x.readers == 0 {
        used := used - x.size;
        entries := entries - {ref};
        content := content - {ref};
      }
      ok := true;
    }

    /** `sweep`: `failing` are the names that cannot be unlinked now.  It stops at the first of them it meets. */
    method SweepExpired(now: int, failing: set<Ref>) returns (ok: bool, ghost removed: seq<Ref>)
      requires Valid() && !closed
      modifies this
      ensures Valid() && !closed
      ensures Leads(opts, old(Model()), Expirations(removed, now), Model())
      ensures forall r :: r in removed ==> Expired(old(Model()), r, now) && r !in failing
      ensures ok <==> !Stuck(old(Model()), now, failing)
      ensures ok ==> forall r :: (Expired(old(Model()), r, now) <==> r in removed) && !Expired(Model(), r, now)
      ensures forall r :: r in entries ==> r in old(entries)
    {
      hide Inv, RemoveOp, Leads;
      removed := [];
      ghost var start := Model();
      NoSteps(opts, start, now);
      var left := entries.Keys;
      while left != {}
        invariant Valid() && !closed && left <= entries.Keys <= start.entries.Keys
        invariant Leads(opts, start, Expirations(removed, now), Model())
        invariant forall r :: r in left ==> entries[r] == start.entries[r]
        invariant forall r :: r in removed ==> Expired(start, r, now) && r !in failing
        invariant forall r :: Expired(Model(), r, now) ==> r in left
        invariant forall r :: Expired(start, r, now) ==> r in left || r in removed
        decreases |left|
      {
        var ref :| ref in left;
        left := left - {ref};
        if Expired(Model(), ref, now) {
          ghost var before := Model();
          assert Expired(start, ref, now);
          RemoveEffect(opts, before, ref);
          ok := RemoveEntry(ref, ref in failing);
          if !ok {
            return;
          }
          LeadsExpire(opts, start, removed, before, ref, now);
          removed := removed + [ref];
        }
      }
      ok := true;
    }

    /** `Sweep`. */
    method Sweep(now: int, failing: set<Ref>) returns (ok: bool, ghost removed: seq<Ref>)
      requires Valid()
      modifies this
      ensures Valid() && closed == old(closed)
      ensures ok <==> !old(closed) && !Stuck(old(Model()), now, failing)
      ensures old(closed) ==> Model() == old(Model())
      ensures !old(closed) ==> Leads(opts, old(Model()), Expirations(removed, now), Model())
      ensures ok ==> forall r :: Expired(old(Model()), r, now) <==> r in removed
    {
      removed := [];
      if closed {
        return false, removed;
      }
      ok, removed := SweepExpired(now, failing);
    }

    /**
     * First half of `Put`; `ref` is the fresh name, `createFails` stands for every failure between the capacity
     * check and the reservation.  `swept` is the state behind the sweep.
     */
    method PutStartHalf(ref: Ref, now: int, failing: set<Ref>, createFails: bool)
      returns (r: PutStart, ghost removed: seq<Ref>, ghost swept: State)
      requires Valid() && ref !in entries
      modifies this
      ensures Valid()
      ensures r == if old(closed) then StoreClosed
                   else if Stuck(old(Model()), now, failing) then Failed
                   else if |swept.entries| >= opts.maxEntries || swept.used + opts.maxBlob > opts.maxTotal then NoCapacity
                   else if createFails then Failed
                   else Started
      ensures Leads(opts, old(Model()), Expirations(removed, now), swept)
      ensures forall q :: q in removed ==> Expired(old(Model()), q, now) && q !in failing
      ensures r == Started || r == NoCapacity ==> forall q :: Expired(old(Model()), q, now) <==> q in removed
      ensures Model() == if r == Started then ReserveOp(opts, swept, ref) else swept
    {
      hide Inv, Leads, RemoveOp, Stuck;
      removed, swept := [], Model();
      NoSteps(opts, swept, now);
      if closed {
        return StoreClosed, removed, swept;
      }
      var ok;
      ok, removed := SweepExpired(now, failing);
      swept := Model();
      if !ok {
        return Failed, removed, swept;
      }
      if |entries| >= opts.maxEntries || opts.maxBlob > opts.maxTotal - used {
        return NoCapacity, removed, swept;
      }
      if createFails {
        return Failed, removed, swept;
      }
      StepInv(opts, swept, Reserve(ref));
      entries := entries[ref := Entry(opts.maxBlob, 0, 1, true)];
      used := used + opts.maxBlob;
      pending := pending[ref := []];
      uploads := uploads + {ref};
      assert Model() == ReserveOp(opts, swept, ref);
      r := Started;
    }

    /** One read of the copy loop: the limited reader hands out at most one byte more than fits. */
    method Copy(ref: Ref, chunk: Bytes)
      requires Valid() && ref in uploads && ref in pending && |pending[ref]| + |chunk| <= opts.maxBlob + 1
      modifies this
      ensures Valid() && Model() == Apply(opts, old(Model()), Write(ref, chunk))
    {
      hide Inv;
      StepInv(opts, Model(), Write(ref, chunk));
      pending := pending[ref := pending[ref] + chunk];
    }

    /** Second half of `Put`. */
    method PutEndHalf(ref: Ref, expires: int, copyFails: bool, renameFails: bool, removeFails: bool) returns (ok: bool)
      requires Valid() && ref in uploads
      modifies this
      ensures Valid() && ref in old(pending)
      ensures ok <==> !copyFails && |old(pending)[ref]| <= opts.maxBlob && !renameFails
      ensures ok ==> Model() == PublishOp(opts, old(Model()), ref, expires)
      ensures !ok ==> Model() == if removeFails then LeakOp(old(Model()), ref) else AbortOp(old(Model()), ref)
    {
      hide Inv, PublishOp, AbortOp, LeakOp;
      ghost var before := Model();
      UploadEntry(opts, before, ref);
      var n := |pending[ref]|;
      var failed := copyFails || n > opts.maxBlob;
      if closed {
        failed := true;
      }
      if !failed {
        failed := renameFails;
      }
      if failed {
        if removeFails {
          LeakIs(opts, before, ref);
          uploads, leaked := uploads - {ref}, leaked + {ref};
          return false;
        }
        AbortIs(opts, before, ref);
        used := used - entries[ref].size;
        entries := entries - {ref};
        pending, uploads := pending - {ref}, uploads - {ref};
        return false;
      }
      PublishIs(opts, before, ref, expires);
      used := used - (opts.maxBlob - n);
      entries := entries[ref := Entry(n, expires, 0, false)];
      content := content[ref := pending[ref]];
      pending, uploads := pending - {ref}, uploads - {ref};
      ok := true;
    }

    /** `Get`: what it opens is the published blob, whole. */
    method Get(ref: Ref, handle: nat, now: int, unlinkFails: bool, openFails: bool) returns (r: GetResult)
      requires Valid() && handle !in handles
      modifies this
      ensures Valid()
      ensures r == if old(closed) then GetClosed
                   else if !Live(old(Model()), ref) || Expired(old(Model()), ref, now) then NotFound
                   else if openFails then GetFailed
                   else Opened
      ensures r == Opened ==> Model() == OpenOp(old(Model()), handle, ref)
      ensures r == Opened ==> handle in handles && handles[handle] == ref && ref in View(old(Model())) && ref in content
      ensures r == Opened ==> content[ref] == View(old(Model()))[ref]
      ensures r != Opened && (old(closed) || !Expired(old(Model()), ref, now) || unlinkFails) ==> Model() == old(Model())
      ensures r != Opened && !old(closed) && Expired(old(Model()), ref, now) && !unlinkFails ==> Model() == RemoveOp(old(Model()), ref)
    {
      hide Inv, RemoveOp, View, OpenOp, Enabled, Apply;
      if closed {
        return GetClosed;
      }
      if ref !in entries || entries[ref].deleted {
        return NotFound;
      }
      if now > entries[ref].expires {
        var _ := RemoveEntry(ref, unlinkFails);
        return NotFound;
      }
      LiveHasContent(opts, Model(), ref);
      if openFails || |content[ref]| != entries[ref].size {
        return GetFailed;
      }
      OpenIs(opts, Model(), handle, ref);
      entries := entries[ref := entries[ref].(readers := entries[ref].readers + 1)];
      handles := handles[handle := ref];
      r := Opened;
    }

    /** `reader.Close`, which runs its release callback once. */
    method CloseReader(handle: nat)
      requires Valid() && handle in handles
      modifies this
      ensures Valid() && CanRelease(old(Model()), handle) && Model() == ReleaseOp(old(Model()), handle)
    {
      hide Inv, ReleaseOp, Enabled, Apply;
      HandleReady(opts, Model(), handle);
      ReleaseIs(opts, Model(), handle);
      var ref := handles[handle];
      var x := entries[ref].(readers := entries[ref].readers - 1);
      entries := entries[ref := x];
      handles := handles - {handle};
      if x.deleted && x.readers == 0 {
        used := used - x.size;
        entries := entries - {ref};
        content := content - {ref};
      }
    }

    /** `Delete`: deleting what is not there is not an error. */
    method Delete(ref: Ref, unlinkFails: bool) returns (ok: bool)
      requires Valid()
      modifies this
      ensures Valid()
      ensures ok <==> !old(closed) && (Live(old(Model()), ref) ==> !unlinkFails)
      ensures Model() == if ok && Live(old(Model()), ref) then RemoveOp(old(Model()), ref) else old(Model())
    {
      if closed {
        return false;
      }
      if ref in entries && !entries[ref].deleted {
        ok := RemoveEntry(ref, unlinkFails);
      } else {
        ok := true;
      }
    }

    /** `Close`. */
    method Close() returns (ok: bool)
      requires Valid()
      modifies this
      ensures Valid()
      ensures ok <==> old(closed) || Idle(old(Model()))
      ensures Model() == if ok then old(Model()).(closed := true) else old(Model())
    {
      hide Inv;
      if closed {
        return true;
      }
      var left := entries.Keys;
      while left != {}
        invariant left <= entries.Keys
        invariant forall r :: r in entries && r !in left ==> entries[r].readers == 0
        decreases |left|
      {
        var ref :| ref in left;
        if entries[ref].readers > 0 {
          return false;
        }
        left := left - {ref};
      }
      StepInv(opts, Model(), Shut);
      closed := true;
      ok := true;
    }
  }

  lemma TookNothing(now: int)
    ensures TookOver(EMPTY, [], now)
  {
  }

  lemma NoSteps(o: Options, s: State, now: int)
    ensures Leads(o, s, Expirations([], now), s)
  {
    assert Expirations([], now) == [];
  }

  lemma LeadsExpire(o: Options, start: State, removed: seq<Ref>, s: State, ref: Ref, now: int)
    requires Leads(o, start, Expirations(removed, now), s) && !s.closed && Expired(s, ref, now)
    ensures Leads(o, start, Expirations(removed + [ref], now), RemoveOp(s, ref))
  {
    hide Leads, RemoveOp;
    LeadsAppend(o, start, Expirations(removed, now), s, Expire(ref, now));
    assert Expirations(removed + [ref], now) == Expirations(removed, now) + [Expire(ref, now)];
  }

  /** Removing one entry does not touch another. */
  lemma RemoveEffect(o: Options, s: State, ref: Ref)
    requires ref in s.entries
    ensures var t := RemoveOp(s, ref);
            && !Live(t, ref) && t.entries.Keys <= s.entries.Keys && t.closed == s.closed
            && forall r :: r in s.entries && r != ref ==> r in t.entries && t.entries[r] == s.entries[r]
  {
  }

  lemma UploadEntry(o: Options, s: State, ref: Ref)
    requires Inv(o, s) && ref in s.uploads
    ensures ref in s.entries && ref in s.pending && !s.closed
  {
  }

  lemma LiveHasContent(o: Options, s: State, ref: Ref)
    requires Inv(o, s)
    ensures Live(s, ref) <==> ref in View(s)
    ensures Live(s, ref) ==> ref in s.content && |s.content[ref]| == s.entries[ref].size && View(s)[ref] == s.content[ref]
  {
  }

  // the operations field by field, and that they keep the invariant

  lemma RemoveIs(o: Options, s: State, ref: Ref)
    requires Inv(o, s) && !s.closed && Live(s, ref)
    ensures Inv(o, RemoveOp(s, ref))
    ensures var x := s.entries[ref].(deleted := true);
            RemoveOp(s, ref) ==
              if x.readers == 0
              then s.(entries := s.entries[ref := x] - {ref}, used := s.used - x.size, content := s.content - {ref})
              else s.(entries := s.entries[ref := x])
  {
    hide Inv;
    StepInv(o, s, Erase(ref));
  }

  lemma HandleReady(o: Options, s: State, handle: nat)
    requires Inv(o, s) && handle in s.handles
    ensures s.handles[handle] in s.entries && s.entries[s.handles[handle]].readers > 0
  {
    HandleIsCounted(s, handle);
  }

  lemma ReleaseIs(o: Options, s: State, handle: nat)
    requires Inv(o, s) && handle in s.handles
    ensures CanRelease(s, handle) && Inv(o, ReleaseOp(s, handle))
    ensures var ref := s.handles[handle];
            var x := s.entries[ref].(readers := s.entries[ref].readers - 1);
            ReleaseOp(s, handle) ==
              if x.deleted && x.readers == 0
              then s.(entries := s.entries[ref := x] - {ref}, used := s.used - x.size, content := s.content - {ref},
                      handles := s.handles - {handle})
              else s.(entries := s.entries[ref := x], handles := s.handles - {handle})
  {
    hide Inv;
    HandleReady(o, s, handle);
    StepInv(o, s, Release(handle));
  }

  lemma OpenIs(o: Options, s: State, handle: nat, ref: Ref)
    requires Inv(o, s) && !s.closed && handle !in s.handles && Live(s, ref)
    ensures Inv(o, OpenOp(s, handle, ref))
    ensures OpenOp(s, handle, ref) ==
              s.(entries := s.entries[ref := s.entries[ref].(readers := s.entries[ref].readers + 1)],
                 handles := s.handles[handle := ref])
  {
    hide Inv;
    StepInv(o, s, Open(handle, ref));
  }

  lemma LeakIs(o: Options, s: State, ref: Ref)
    requires Inv(o, s) && ref in s.uploads
    ensures Inv(o, LeakOp(s, ref))
    ensures LeakOp(s, ref) == s.(uploads := s.uploads - {ref}, leaked := s.leaked + {ref})
  {
    hide Inv;
    StepInv(o, s, Leak(ref));
  }

  lemma AbortIs(o: Options, s: State, ref: Ref)
    requires Inv(o, s) && ref in s.uploads && ref in s.entries
    ensures Inv(o, AbortOp(s, ref))
    ensures AbortOp(s, ref) == s.(entries := s.entries - {ref}, used := s.used - s.entries[ref].size,
                                  pending := s.pending - {ref}, uploads := s.uploads - {ref})
  {
    hide Inv;
    StepInv(o, s, Abort(ref));
  }

  lemma PublishIs(o: Options, s: State, ref: Ref, expires: int)
    requires Inv(o, s) && ref in s.uploads && ref in s.pending && |s.pending[ref]| <= o.maxBlob
    ensures Inv(o, PublishOp(o, s, ref, expires))
    ensures var data := s.pending[ref];
            PublishOp(o, s, ref, expires) ==
              s.(entries := s.entries[ref := Entry(|data|, expires, 0, false)], used := s.used - (o.maxBlob - |data|),
                 pending := s.pending - {ref}, content := s.content[ref := data], uploads := s.uploads - {ref})
  {
    hide Inv;
    UploadEntry(o, s, ref);
    StepInv(o, s, Publish(ref, expires));
  }
}
