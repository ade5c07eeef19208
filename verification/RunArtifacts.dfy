/**
 * One execution and the blobs it may leave behind: what the runner accepts from the backend, publishes, or takes
 * back out of the store (apps/judge-engine/execution/runner).
 */
module RunArtifacts {
  import opened Common
  import opened Supervision

  type Bytes = seq<bv8>
  type Ref = string
  type Name = string

  const MAX_INLINE := 0x10_0000
  const MAX_ARTIFACTS := 0x400_0000
  const MAX_FILES := 128

  /** contract.FileSource: a stored blob or a text, never both. */
  datatype FileSource = FileSource(ref: Ref, text: Bytes)

  datatype Budget = Budget(cpuNs: int, clockNs: int, memoryBytes: int, maxProcesses: int, stdoutMax: int, stderrMax: int)

  /** contract.RunSpec; limits is None when they cannot be completed from the defaults. */
  datatype Spec = Spec(command: seq<string>, inputs: map<Name, FileSource>, stdin: Option<FileSource>,
                       outputs: seq<Name>, artifacts: seq<Name>, limits: Option<Budget>)

  /** What the backend was handed: the bytes behind every input and behind stdin. */
  datatype Seen = Seen(inputs: map<Name, Bytes>, stdin: Bytes)

  datatype RunResult = RunResult(status: Status, outputs: map<Name, Bytes>, artifacts: map<Name, Ref>, seen: Option<Seen>)

  /**
   * One artifact reported by the executor: the slot and name it claims, its bytes, whether its file opens as
   * described and reads to the end, what had happened to the streams and the request by then, and the identifier
   * the store draws for it (None: the store refuses).
   */
  datatype Delivery = Delivery(index: int, name: Name, data: Bytes, opens: bool, readable: bool,
                               overflow: bool, ctxErr: bool, draw: Option<Ref>)

  /**
   * Everything outside the runner that decides how an execution goes: a request cancelled early, inputs that open,
   * the facts, an error before delivery, the deliveries, an unconfirmed reclaim, the streams and the request at the
   * end, inputs that close.
   */
  datatype Exec = Exec(early: bool, opens: bool, facts: JudgeFacts, stops: bool, items: seq<Delivery>, cleanup: bool,
                       overflow: bool, ctxErr: bool, closes: bool)

  // ----- the store, as far as references go

  /** `Put` succeeds exactly when it draws an identifier that is not taken. */
  function Drawn(files: map<Ref, Bytes>, draw: Option<Ref>): Option<Ref> {
    if draw.Some? && draw.value != "" && draw.value !in files then draw else None
  }

  /** The stored blobs, those whose deletion was asked for and failed, and those no one can name any more. */
  datatype Books = Books(files: map<Ref, Bytes>, undeleted: set<Ref>, overwritten: set<Ref>)

  /** The books after one more deletion of a list that was owned at the start. */
  lemma OneDeletion(start: Books, before: Books, after: Books, refs: set<Ref>, done: set<Ref>, failed: set<Ref>, ref: Ref, deleted: bool)
    requires refs <= start.files.Keys && refs !! start.undeleted + start.overwritten && ref in refs && failed <= done <= refs
    requires before == Books(start.files - (done - failed), start.undeleted + failed, start.overwritten)
    requires after == if deleted then Books(before.files - {ref}, before.undeleted - {ref}, before.overwritten - {ref})
                      else before.(undeleted := before.undeleted + {ref} * before.files.Keys)
    ensures var failed' := if deleted then failed - {ref} else failed + {ref} * before.files.Keys;
            failed' <= done + {ref} &&
            after == Books(start.files - (done + {ref} - failed'), start.undeleted + failed', start.overwritten)
  {
  }

  class Store {
    var files: map<Ref, Bytes>
    /** Blobs whose deletion was asked for and failed. */
    ghost var undeleted: set<Ref>
    /** Blobs no one can name any more, because their artifact was delivered a second time. */
    ghost var overwritten: set<Ref>

    constructor ()
      ensures files == map[] && undeleted == {} && overwritten == {}
    {
      files, undeleted, overwritten := map[], {}, {};
    }

    method Put(data: Bytes, draw: Option<Ref>) returns (r: Option<Ref>)
      modifies this`files
      ensures r == Drawn(old(files), draw)
      ensures files == if r.Some? then old(files)[r.value := data] else old(files)
    {
      if draw.None? || draw.value == "" || draw.value in files {
        return None;
      }
      files := files[draw.value := data];
      return draw;
    }

    ghost predicate Valid()
      reads this
    {
      undeleted <= files.Keys && overwritten <= files.Keys && "" !in files
    }

    ghost function Now(): Books
      reads this
    {
      Books(files, undeleted, overwritten)
    }

    method Delete(ref: Ref) returns (ok: bool)
      modifies this
      ensures ok ==> files == old(files) - {ref} && undeleted == old(undeleted) - {ref} && overwritten == old(overwritten) - {ref}
      ensures !ok ==> files == old(files) && undeleted == old(undeleted) + {ref} * files.Keys && overwritten == old(overwritten)
    {
      ok := *;
      if ok {
        files, undeleted, overwritten := files - {ref}, undeleted - {ref}, overwritten - {ref};
      } else {
        undeleted := undeleted + {ref} * files.Keys;
      }
    }

    /** The blobs of refs are stored, and none of them has been given up. */
    ghost predicate Owns(refs: set<Ref>)
      reads this
    {
      Valid() && refs <= files.Keys && refs !! undeleted + overwritten
    }

    /** The deletion loop shared by `discard` and `rejectArtifacts`; failed is what it could not remove. */
    method DeleteAll(refs: map<Name, Ref>) returns (ok: bool, ghost failed: set<Ref>)
      requires Owns(refs.Values)
      modifies this
      ensures Valid() && failed <= refs.Values && (ok ==> failed == {})
      ensures refs == map[] ==> unchanged(this) && ok
      ensures files == old(files) - (refs.Values - failed)
      ensures undeleted == old(undeleted) + failed && overwritten == old(overwritten)
    {
      ok, failed := true, {};
      ghost var done: set<Ref> := {};
      var left := refs.Keys;
      while left != {}
        invariant left <= refs.Keys && Valid()
        invariant refs == map[] ==> unchanged(this) && ok
        invariant done <= refs.Values && forall n :: n in refs && n !in left ==> refs[n] in done
        invariant failed <= done && (ok ==> failed == {})
        invariant files == old(files) - (done - failed)
        invariant undeleted == old(undeleted) + failed && overwritten == old(overwritten)
        decreases left
      {
        var n :| n in left;
        ghost var before := Now();
        var deleted := Delete(refs[n]);
        OneDeletion(old(Now()), before, Now(), refs.Values, done, failed, refs[n], deleted);
        done := done + {refs[n]};
        if deleted {
          failed := failed - {refs[n]};
        } else {
          ok, failed := false, failed + {refs[n]} * before.files.Keys;
        }
        left := left - {n};
      }
      assert done == refs.Values;
    }
  }

  // ----- the collector, as a function of what is delivered

  /** The collector's fields and the store behind it. */
  datatype Tally = Tally(files: map<Ref, Bytes>, outputs: map<Name, Bytes>, artifacts: map<Name, Ref>, remaining: int,
                         overwritten: set<Ref>)

  predicate Wanted(cpuNs: int, memoryBytes: int, facts: JudgeFacts, d: Delivery) {
    Classify(cpuNs, memoryBytes, facts, d.overflow, d.ctxErr) == OK
  }

  function Register(t: Tally, name: Name, ref: Ref, data: Bytes): Tally {
    t.(files := t.files[ref := data], artifacts := t.artifacts[name := ref],
       overwritten := t.overwritten + if name in t.artifacts then {t.artifacts[name]} else {})
  }

  function Inlined(s: Spec, t: Tally, d: Delivery): Tally {
    if d.name in s.outputs then t.(outputs := t.outputs[d.name := d.data], remaining := t.remaining - |d.data|) else t
  }

  /** `accept` of an artifact that is to be kept, and whether it went well; what was done before an error stays. */
  function Keep(s: Spec, t: Tally, d: Delivery): (Tally, bool) {
    if d.name in s.outputs && (!d.readable || |d.data| > t.remaining) then (t, false)
    else
      var u := Inlined(s, t, d);
      if d.name !in s.artifacts then (u, true)
      else if !d.readable || Drawn(u.files, d.draw).None? then (u, false)
      else (Register(u, d.name, d.draw.value, d.data), true)
  }

  predicate Deliverable(names: seq<Name>, total: nat, d: Delivery) {
    0 <= d.index < |names| && names[d.index] == d.name && |d.data| <= MAX_ARTIFACTS - total && d.opens
  }

  /** `deliverOutputs`: in order, up to the first error. */
  function Delivered(s: Spec, b: Budget, names: seq<Name>, facts: JudgeFacts, t: Tally, total: nat, items: seq<Delivery>): (Tally, bool)
    decreases |items|
  {
    if items == [] then (t, true)
    else if !Deliverable(names, total, items[0]) then (t, false)
    else
      var (u, ok) := if Wanted(b.cpuNs, b.memoryBytes, facts, items[0]) then Keep(s, t, items[0]) else (t, true);
      if ok then Delivered(s, b, names, facts, u, total + |items[0].data|, items[1..]) else (u, false)
  }

  // ----- what every delivery keeps

  ghost predicate NoRepeats(names: seq<Name>) {
    forall i, j :: 0 <= i < j < |names| ==> names[i] != names[j]
  }

  /** Bytes kept inline, over a list of distinct names. */
  function InlineSize(names: seq<Name>, outputs: map<Name, Bytes>): nat {
    if names == [] then 0
    else (if names[0] in outputs then |outputs[names[0]]| else 0) + InlineSize(names[1..], outputs)
  }

  /** `outputNames`: every declared name once, in order of first mention. */
  function OutputNames(list: seq<Name>): (names: seq<Name>)
    ensures NoRepeats(names) && forall n :: n in names <==> n in list
  {
    if list == [] then []
    else
      var last := list[|list| - 1];
      var before := OutputNames(list[..|list| - 1]);
      assert list == list[..|list| - 1] + [last];
      if last in before then before else before + [last]
  }

  method CollectNames(s: Spec) returns (names: seq<Name>)
    ensures names == OutputNames(s.outputs + s.artifacts)
  {
    names := [];
    var list := s.outputs + s.artifacts;
    for i := 0 to |list|
      invariant names == OutputNames(list[..i])
    {
      assert list[..i + 1][..i] == list[..i];
      if list[i] !in names {
        names := names + [list[i]];
      }
    }
    assert list[..|list|] == list;
  }

  /** Every blob beyond those of `before` is either registered under one name or was overwritten. */
  ghost predicate Sound(s: Spec, before: map<Ref, Bytes>, t: Tally) {
    && (forall r :: r in before ==> r in t.files && t.files[r] == before[r])
    && (forall n :: n in t.artifacts ==> n in s.artifacts && t.artifacts[n] in t.files && t.artifacts[n] !in before)
    && (forall n, m :: n in t.artifacts && m in t.artifacts && t.artifacts[n] == t.artifacts[m] ==> n == m)
    && (forall r :: r in t.overwritten ==> r in t.files && r !in before && r !in t.artifacts.Values)
    && (forall r :: r in t.files ==> r in before || r in t.overwritten || r in t.artifacts.Values)
    && (forall n :: n in t.outputs ==> n in s.outputs)
    && t.remaining >= 0 && "" !in t.files
  }

  lemma RegisterSound(s: Spec, before: map<Ref, Bytes>, t: Tally, name: Name, ref: Ref, data: Bytes)
    requires Sound(s, before, t) && name in s.artifacts && ref !in t.files && ref != ""
    ensures Sound(s, before, Register(t, name, ref, data))
  {
    var u := Register(t, name, ref, data);
    ValuesAfter(t.artifacts, name, ref);
    forall r | r in u.overwritten ensures r in u.files && r !in before && r !in u.artifacts.Values {
      if r in t.overwritten {
        assert r !in t.artifacts.Values;
      }
    }
  }

  /** The values of an injective map after one more assignment. */
  lemma ValuesAfter(m: map<Name, Ref>, name: Name, ref: Ref)
    requires forall n, k :: n in m && k in m && m[n] == m[k] ==> n == k
    ensures m[name := ref].Values == (m.Values - (if name in m then {m[name]} else {})) + {ref}
  {
    var w := m[name := ref];
    assert w[name] == ref;
    forall r | r in m.Values && (name in m ==> r != m[name]) ensures r in w.Values {
      var n :| n in m && m[n] == r;
      assert w[n] == r;
    }
    forall r | r in w.Values ensures r in (m.Values - (if name in m then {m[name]} else {})) + {ref} {
      var n :| n in w && w[n] == r;
    }
  }

  lemma InlinedSound(s: Spec, before: map<Ref, Bytes>, t: Tally, d: Delivery)
    requires Sound(s, before, t) && (d.name in s.outputs ==> |d.data| <= t.remaining)
    ensures Sound(s, before, Inlined(s, t, d))
  {
  }

  lemma KeepSound(s: Spec, before: map<Ref, Bytes>, t: Tally, d: Delivery)
    requires Sound(s, before, t)
    ensures Sound(s, before, Keep(s, t, d).0)
  {
    hide Sound, Inlined, Register;
    if !(d.name in s.outputs && (!d.readable || |d.data| > t.remaining)) {
      InlinedSound(s, before, t, d);
      var u := Inlined(s, t, d);
      if d.name in s.artifacts && d.readable && Drawn(u.files, d.draw).Some? {
        RegisterSound(s, before, u, d.name, d.draw.value, d.data);
      }
    }
  }

  /** However a delivery ends, no blob of the store is lost sight of except those overwritten. */
  lemma {:induction false} DeliveredSound(s: Spec, b: Budget, names: seq<Name>, facts: JudgeFacts, before: map<Ref, Bytes>,
                                          t: Tally, total: nat, items: seq<Delivery>)
    requires Sound(s, before, t)
    ensures Sound(s, before, Delivered(s, b, names, facts, t, total, items).0)
    decreases |items|
  {
    hide Sound, Keep, Wanted;
    if items != [] && Deliverable(names, total, items[0]) {
      var step := if Wanted(b.cpuNs, b.memoryBytes, facts, items[0]) then Keep(s, t, items[0]) else (t, true);
      KeepSound(s, before, t, items[0]);
      if step.1 {
        DeliveredSound(s, b, names, facts, before, step.0, total + |items[0].data|, items[1..]);
      }
    }
  }

  lemma {:induction false} InlineUpdate(names: seq<Name>, outputs: map<Name, Bytes>, n: Name, data: Bytes)
    requires NoRepeats(names)
    ensures InlineSize(names, outputs[n := data]) <= InlineSize(names, outputs) + |data|
    ensures n !in names ==> InlineSize(names, outputs[n := data]) == InlineSize(names, outputs)
  {
    if names != [] {
      assert NoRepeats(names[1..]);
      InlineUpdate(names[1..], outputs, n, data);
      assert names[0] !in names[1..];
    }
  }

  /** The artifacts returned inline never exceed what has been taken from the shared allowance. */
  lemma {:induction false} InlineBounded(s: Spec, b: Budget, names: seq<Name>, facts: JudgeFacts, t: Tally, total: nat,
                                         items: seq<Delivery>)
    requires NoRepeats(names) && InlineSize(names, t.outputs) + t.remaining <= MAX_INLINE
    ensures var u := Delivered(s, b, names, facts, t, total, items).0;
            InlineSize(names, u.outputs) + u.remaining <= MAX_INLINE
    decreases |items|
  {
    if items != [] && Deliverable(names, total, items[0]) {
      InlineUpdate(names, t.outputs, items[0].name, items[0].data);
      var step := if Wanted(b.cpuNs, b.memoryBytes, facts, items[0]) then Keep(s, t, items[0]) else (t, true);
      if step.1 {
        InlineBounded(s, b, names, facts, step.0, total + |items[0].data|, items[1..]);
      }
    }
  }

  // ----- what a complete delivery holds

  /** The last wanted delivery of `name`, if there is one. */
  function Latest(b: Budget, facts: JudgeFacts, items: seq<Delivery>, name: Name): Option<Bytes> {
    if items == [] then None
    else
      var last := items[|items| - 1];
      if last.name == name && Wanted(b.cpuNs, b.memoryBytes, facts, last) then Some(last.data)
      else Latest(b, facts, items[..|items| - 1], name)
  }

  lemma {:induction false} LatestFirst(b: Budget, facts: JudgeFacts, items: seq<Delivery>, name: Name)
    requires items != []
    ensures Latest(b, facts, items, name) ==
            var rest := Latest(b, facts, items[1..], name);
            if rest.Some? then rest
            else if items[0].name == name && Wanted(b.cpuNs, b.memoryBytes, facts, items[0]) then Some(items[0].data)
            else None
  {
    hide Wanted;
    if |items| > 1 {
      var front := items[..|items| - 1];
      assert items[1..][..|items| - 2] == front[1..];
      LatestFirst(b, facts, front, name);
    }
  }

  /** What a name stands for after an undisturbed delivery: its last wanted bytes, else what it was. */
  ghost predicate Holds(s: Spec, t: Tally, u: Tally, latest: Option<Bytes>, name: Name) {
    && (name in s.outputs ==>
          if latest.Some? then name in u.outputs && u.outputs[name] == latest.value
          else (name in u.outputs <==> name in t.outputs) && (name in t.outputs ==> u.outputs[name] == t.outputs[name]))
    && (name in s.artifacts ==>
          if latest.Some? then name in u.artifacts && u.artifacts[name] in u.files && u.files[u.artifacts[name]] == latest.value
          else (name in u.artifacts <==> name in t.artifacts) &&
               (name in t.artifacts ==> u.artifacts[name] == t.artifacts[name]))
    && (forall r :: r in t.files ==> r in u.files && u.files[r] == t.files[r])
  }

  lemma KeepHolds(s: Spec, b: Budget, facts: JudgeFacts, t: Tally, d: Delivery, name: Name)
    ensures var step := if Wanted(b.cpuNs, b.memoryBytes, facts, d) then Keep(s, t, d) else (t, true);
            step.1 ==> Holds(s, t, step.0, if d.name == name && Wanted(b.cpuNs, b.memoryBytes, facts, d) then Some(d.data) else None, name)
  {
    var wanted := Wanted(b.cpuNs, b.memoryBytes, facts, d);
    hide Wanted;
    if wanted && Keep(s, t, d).1 {
      var u := Inlined(s, t, d);
      assert forall r :: r in t.files ==> r in u.files && u.files[r] == t.files[r];
      if d.name in s.artifacts {
        var v := Register(u, d.name, d.draw.value, d.data);
        assert Keep(s, t, d).0 == v && d.draw.value !in u.files;
        assert v.outputs == u.outputs;
        hide Keep, Inlined, Drawn;
        assert forall r :: r in t.files ==> r in v.files && v.files[r] == t.files[r];
      }
    }
  }

  /** An undisturbed delivery leaves, under every declared name, exactly the bytes last delivered for it. */
  lemma {:induction false} DeliveredHolds(s: Spec, b: Budget, names: seq<Name>, facts: JudgeFacts, t: Tally, total: nat,
                                          items: seq<Delivery>, name: Name)
    requires Delivered(s, b, names, facts, t, total, items).1
    ensures Holds(s, t, Delivered(s, b, names, facts, t, total, items).0, Latest(b, facts, items, name), name)
    decreases |items|
  {
    if items != [] {
      var step := if Wanted(b.cpuNs, b.memoryBytes, facts, items[0]) then Keep(s, t, items[0]) else (t, true);
      assert step.1;
      DeliveredHolds(s, b, names, facts, step.0, total + |items[0].data|, items[1..], name);
      LatestFirst(b, facts, items, name);
      KeepHolds(s, b, facts, t, items[0], name);
    }
  }

  // ----- when an artifact is lost sight of

  /** A delivery that is to be stored. */
  predicate Stores(s: Spec, b: Budget, facts: JudgeFacts, d: Delivery) {
    d.name in s.artifacts && Wanted(b.cpuNs, b.memoryBytes, facts, d)
  }

  /** Some artifact is to be stored twice. */
  ghost predicate Twice(s: Spec, b: Budget, facts: JudgeFacts, items: seq<Delivery>) {
    exists i, j :: 0 <= i < j < |items| && Stores(s, b, facts, items[i]) && Stores(s, b, facts, items[j]) &&
                   items[i].name == items[j].name
  }

  /** The names of the deliveries that are to be stored, in order. */
  function StoredNames(s: Spec, b: Budget, facts: JudgeFacts, items: seq<Delivery>): seq<Name> {
    if items == [] then []
    else (if Stores(s, b, facts, items[0]) then [items[0].name] else []) + StoredNames(s, b, facts, items[1..])
  }

  lemma {:induction false} StoredNamesMean(s: Spec, b: Budget, facts: JudgeFacts, items: seq<Delivery>)
    ensures forall n :: n in StoredNames(s, b, facts, items) <==>
              exists i :: 0 <= i < |items| && Stores(s, b, facts, items[i]) && items[i].name == n
    ensures NoRepeats(StoredNames(s, b, facts, items)) <==> !Twice(s, b, facts, items)
  {
    hide Stores;
    if items == [] {
      NoRepeatsEmpty();
    } else {
      var first, rest, names := items[0], items[1..], StoredNames(s, b, facts, items[1..]);
      StoredNamesMean(s, b, facts, rest);
      assert forall i :: 0 <= i < |rest| ==> rest[i] == items[i + 1];
      assert forall i :: 1 <= i < |items| ==> items[i] == rest[i - 1];
      RepeatsCons(first.name, names);
      hide NoRepeats;
      forall n ensures n in StoredNames(s, b, facts, items) <==>
                exists i :: 0 <= i < |items| && Stores(s, b, facts, items[i]) && items[i].name == n
      {
        OneMoreName(s, b, facts, items, n);
      }
      TwiceCons(s, b, facts, items);
      assert !Stores(s, b, facts, first) ==> [] + names == names;
    }
  }

  lemma OneMoreName(s: Spec, b: Budget, facts: JudgeFacts, items: seq<Delivery>, n: Name)
    requires items != []
    requires n in StoredNames(s, b, facts, items[1..]) <==>
               exists i :: 0 <= i < |items[1..]| && Stores(s, b, facts, items[1..][i]) && items[1..][i].name == n
    ensures n in StoredNames(s, b, facts, items) <==>
              exists i :: 0 <= i < |items| && Stores(s, b, facts, items[i]) && items[i].name == n
  {
    hide Stores;
    assert n in StoredNames(s, b, facts, items) <==>
        (Stores(s, b, facts, items[0]) && items[0].name == n) || n in StoredNames(s, b, facts, items[1..]);
    if i :| 0 <= i < |items[1..]| && Stores(s, b, facts, items[1..][i]) && items[1..][i].name == n {
      assert items[i + 1] == items[1..][i];
    }
    if i :| 0 <= i < |items| && Stores(s, b, facts, items[i]) && items[i].name == n {
      assert i > 0 ==> items[1..][i - 1] == items[i];
    }
  }

  lemma TwiceCons(s: Spec, b: Budget, facts: JudgeFacts, items: seq<Delivery>)
    requires items != []
    ensures Twice(s, b, facts, items) <==>
            || Twice(s, b, facts, items[1..])
            || (Stores(s, b, facts, items[0]) &&
                exists j :: 0 <= j < |items[1..]| && Stores(s, b, facts, items[1..][j]) && items[1..][j].name == items[0].name)
  {
    hide Stores;
    var rest := items[1..];
    if i, j :| 0 <= i < j < |rest| && Stores(s, b, facts, rest[i]) && Stores(s, b, facts, rest[j]) && rest[i].name == rest[j].name {
      assert items[i + 1] == rest[i] && items[j + 1] == rest[j];
    }
    if j :| 0 <= j < |rest| && Stores(s, b, facts, items[0]) && Stores(s, b, facts, rest[j]) && rest[j].name == items[0].name {
      assert items[j + 1] == rest[j];
    }
    if i, j :| 0 <= i < j < |items| && Stores(s, b, facts, items[i]) && Stores(s, b, facts, items[j]) && items[i].name == items[j].name {
      assert rest[j - 1] == items[j];
      assert i > 0 ==> rest[i - 1] == items[i];
    }
  }

  // ----- when a delivery is refused

  function TotalSize(items: seq<Delivery>): nat {
    if items == [] then 0 else TotalSize(items[..|items| - 1]) + |items[|items| - 1].data|
  }

  /** A delivery that is to be kept inline. */
  predicate Inlines(s: Spec, b: Budget, facts: JudgeFacts, d: Delivery) {
    d.name in s.outputs && Wanted(b.cpuNs, b.memoryBytes, facts, d)
  }

  function InlinedSize(s: Spec, b: Budget, facts: JudgeFacts, items: seq<Delivery>): nat {
    if items == [] then 0
    else
      var before, last := items[..|items| - 1], items[|items| - 1];
      InlinedSize(s, b, facts, before) + if Inlines(s, b, facts, last) then |last.data| else 0
  }

  /** The identifier is one that neither the store had nor an earlier delivery was given. */
  ghost predicate Unused(s: Spec, b: Budget, facts: JudgeFacts, files: map<Ref, Bytes>, done: seq<Delivery>, ref: Ref) {
    ref !in files && forall j :: 0 <= j < |done| && Stores(s, b, facts, done[j]) ==> done[j].draw != Some(ref)
  }

  /**
   * What one delivery takes to go through: it is the file declared for its slot and opens; all artifacts together
   * stay within the limit; and if it is wanted, inline or in the store, it can be read and kept there.
   */
  ghost predicate GoesThrough(s: Spec, b: Budget, names: seq<Name>, facts: JudgeFacts, files: map<Ref, Bytes>,
                              done: seq<Delivery>, d: Delivery) {
    && 0 <= d.index < |names| && d.name == names[d.index] && d.opens
    && TotalSize(done) + |d.data| <= MAX_ARTIFACTS
    && (Inlines(s, b, facts, d) ==> d.readable && InlinedSize(s, b, facts, done) + |d.data| <= MAX_INLINE)
    && (Stores(s, b, facts, d) ==> d.readable && d.draw.Some? && d.draw.value != "" && Unused(s, b, facts, files, done, d.draw.value))
  }

  /** The collector after these deliveries, as far as its allowance and the identifiers go. */
  ghost predicate After(s: Spec, b: Budget, facts: JudgeFacts, files: map<Ref, Bytes>, done: seq<Delivery>, t: Tally) {
    && t.remaining == MAX_INLINE - InlinedSize(s, b, facts, done)
    && forall r :: r !in t.files <==> Unused(s, b, facts, files, done, r)
  }

  lemma SizesMore(s: Spec, b: Budget, facts: JudgeFacts, done: seq<Delivery>, d: Delivery)
    ensures TotalSize(done + [d]) == TotalSize(done) + |d.data|
    ensures InlinedSize(s, b, facts, done + [d]) == InlinedSize(s, b, facts, done) + if Inlines(s, b, facts, d) then |d.data| else 0
  {
    assert (done + [d])[..|done|] == done;
  }

  lemma UnusedMore(s: Spec, b: Budget, facts: JudgeFacts, files: map<Ref, Bytes>, done: seq<Delivery>, d: Delivery, ref: Ref)
    ensures Unused(s, b, facts, files, done + [d], ref) <==>
              Unused(s, b, facts, files, done, ref) && (Stores(s, b, facts, d) ==> d.draw != Some(ref))
  {
    hide Stores;
    var all := done + [d];
    assert all[|done|] == d;
    assert forall j :: 0 <= j < |done| ==> all[j] == done[j];
  }

  /** One delivery: refused or not, and what it leaves. */
  lemma OneDelivery(s: Spec, b: Budget, names: seq<Name>, facts: JudgeFacts, files: map<Ref, Bytes>, done: seq<Delivery>,
                    t: Tally, d: Delivery)
    requires After(s, b, facts, files, done, t)
    ensures var (u, ok) := if Wanted(b.cpuNs, b.memoryBytes, facts, d) then Keep(s, t, d) else (t, true);
            && (Deliverable(names, TotalSize(done), d) && ok <==> GoesThrough(s, b, names, facts, files, done, d))
            && (ok ==> After(s, b, facts, files, done + [d], u))
  {
    SizesMore(s, b, facts, done, d);
    hide Wanted, TotalSize, InlinedSize, Unused;
    var (u, ok) := if Wanted(b.cpuNs, b.memoryBytes, facts, d) then Keep(s, t, d) else (t, true);
    if ok {
      forall r ensures r !in u.files <==> Unused(s, b, facts, files, done + [d], r) {
        UnusedMore(s, b, facts, files, done, d, r);
      }
    }
  }

  ghost predicate AllGoThrough(s: Spec, b: Budget, names: seq<Name>, facts: JudgeFacts, files: map<Ref, Bytes>,
                               done: seq<Delivery>, items: seq<Delivery>) {
    forall i :: 0 <= i < |items| ==> GoesThrough(s, b, names, facts, files, done + items[..i], items[i])
  }

  lemma AllCons(s: Spec, b: Budget, names: seq<Name>, facts: JudgeFacts, files: map<Ref, Bytes>, done: seq<Delivery>, items: seq<Delivery>)
    requires items != []
    ensures AllGoThrough(s, b, names, facts, files, done, items) <==>
              GoesThrough(s, b, names, facts, files, done, items[0]) &&
              AllGoThrough(s, b, names, facts, files, done + [items[0]], items[1..])
  {
    hide GoesThrough;
    var d, rest := items[0], items[1..];
    assert done + items[..0] == done;
    assert forall i :: 0 <= i < |rest| ==> done + [d] + rest[..i] == done + items[..i + 1] && rest[i] == items[i + 1];
    forall i | 1 <= i < |items|
      ensures items[i] == rest[i - 1] && done + items[..i] == done + [d] + rest[..i - 1]
    {
    }
  }

  lemma {:induction false} DeliveredFrom(s: Spec, b: Budget, names: seq<Name>, facts: JudgeFacts, files: map<Ref, Bytes>,
                                         done: seq<Delivery>, t: Tally, items: seq<Delivery>)
    requires After(s, b, facts, files, done, t)
    ensures Delivered(s, b, names, facts, t, TotalSize(done), items).1 <==> AllGoThrough(s, b, names, facts, files, done, items)
    decreases |items|
  {
    hide GoesThrough, After, Wanted, Keep, Deliverable, TotalSize;
    if items != [] {
      var d := items[0];
      OneDelivery(s, b, names, facts, files, done, t, d);
      SizesMore(s, b, facts, done, d);
      AllCons(s, b, names, facts, files, done, items);
      hide AllGoThrough;
      var (u, ok) := if Wanted(b.cpuNs, b.memoryBytes, facts, d) then Keep(s, t, d) else (t, true);
      if Deliverable(names, TotalSize(done), d) && ok {
        DeliveredFrom(s, b, names, facts, files, done + [d], u, items[1..]);
      }
    }
  }

  /** The deliveries succeed exactly when each of them, after those in front of it, can go through. */
  lemma DeliveredIff(files: map<Ref, Bytes>, s: Spec, x: Exec)
    requires s.limits.Some?
    ensures Collected(files, s, x).1 <==>
              && !x.stops && !x.cleanup
              && forall i :: 0 <= i < |x.items| ==>
                   GoesThrough(s, s.limits.value, OutputNames(s.outputs + s.artifacts), x.facts, files, x.items[..i], x.items[i])
  {
    hide GoesThrough, Delivered, OutputNames;
    DeliveredFrom(s, s.limits.value, OutputNames(s.outputs + s.artifacts), x.facts, files, [], Empty(files), x.items);
    assert forall i :: 0 <= i < |x.items| ==> [] + x.items[..i] == x.items[..i];
  }

  /** How many deliveries go through before the first error. */
  function Passed(s: Spec, b: Budget, names: seq<Name>, facts: JudgeFacts, t: Tally, total: nat, items: seq<Delivery>): (n: nat)
    ensures n <= |items|
    ensures Delivered(s, b, names, facts, t, total, items).1 <==> n == |items|
    decreases |items|
  {
    if items == [] || !Deliverable(names, total, items[0]) then 0
    else
      var (u, ok) := if Wanted(b.cpuNs, b.memoryBytes, facts, items[0]) then Keep(s, t, items[0]) else (t, true);
      if ok then 1 + Passed(s, b, names, facts, u, total + |items[0].data|, items[1..]) else 0
  }

  lemma KeepRegisters(s: Spec, before: map<Ref, Bytes>, t: Tally, d: Delivery)
    requires Sound(s, before, t)
    ensures var (u, ok) := Keep(s, t, d);
            var registered := ok && d.name in s.artifacts;
            && u.artifacts.Keys == t.artifacts.Keys + (if registered then {d.name} else {})
            && t.overwritten <= u.overwritten
            && (u.overwritten == t.overwritten <==> !(registered && d.name in t.artifacts))
  {
    if d.name in t.artifacts {
      assert t.artifacts[d.name] in t.artifacts.Values;
    }
  }

  /** One delivery more, in terms of names and overwritten blobs only. */
  lemma OneMore(lost0: set<Ref>, lost1: set<Ref>, lost2: set<Ref>, held0: set<Name>, held1: set<Name>, name: Name,
                registered: bool, rest: seq<Name>)
    requires lost0 <= lost1 <= lost2 && (lost1 == lost0 <==> !(registered && name in held0))
    requires held1 == held0 + (if registered then {name} else {})
    requires lost2 == lost1 <==> NoRepeats(rest) && forall n :: n in rest ==> n !in held1
    ensures var kept := (if registered then [name] else []) + rest;
            lost2 == lost0 <==> NoRepeats(kept) && forall n :: n in kept ==> n !in held0
  {
    RepeatsCons(name, rest);
    hide NoRepeats;
    assert lost2 == lost0 ==> lost1 == lost0;
    if registered {
      assert forall n :: n in [name] + rest <==> n == name || n in rest;
    } else {
      assert [] + rest == rest;
    }
  }

  /** A blob is lost sight of exactly when one of the deliveries that went through stored an artifact again. */
  lemma {:induction false} OverwrittenIff(s: Spec, b: Budget, names: seq<Name>, facts: JudgeFacts, before: map<Ref, Bytes>,
                                          t: Tally, total: nat, items: seq<Delivery>)
    requires Sound(s, before, t)
    ensures var u := Delivered(s, b, names, facts, t, total, items).0;
            var kept := StoredNames(s, b, facts, items[..Passed(s, b, names, facts, t, total, items)]);
            && t.overwritten <= u.overwritten
            && (u.overwritten == t.overwritten <==> NoRepeats(kept) && forall n :: n in kept ==> n !in t.artifacts)
    decreases |items|
  {
    hide Sound, Keep, Wanted, NoRepeats, Deliverable, Delivered, Passed, StoredNames;
    NoRepeatsEmpty();
    Unfolded(s, b, names, facts, t, total, items);
    if items != [] && Deliverable(names, total, items[0]) {
      var d := items[0];
      var wanted := Wanted(b.cpuNs, b.memoryBytes, facts, d);
      var step := if wanted then Keep(s, t, d) else (t, true);
      KeepSound(s, before, t, d);
      KeepRegisters(s, before, t, d);
      if step.1 {
        OverwrittenIff(s, b, names, facts, before, step.0, total + |d.data|, items[1..]);
        var n := Passed(s, b, names, facts, step.0, total + |d.data|, items[1..]);
        OneMore(t.overwritten, step.0.overwritten, Delivered(s, b, names, facts, t, total, items).0.overwritten,
                t.artifacts.Keys, step.0.artifacts.Keys, d.name, wanted && d.name in s.artifacts,
                StoredNames(s, b, facts, items[1..][..n]));
      }
    }
  }

  /** The first delivery, and what the three functions make of it. */
  lemma Unfolded(s: Spec, b: Budget, names: seq<Name>, facts: JudgeFacts, t: Tally, total: nat, items: seq<Delivery>)
    ensures var all, n := Delivered(s, b, names, facts, t, total, items), Passed(s, b, names, facts, t, total, items);
            if items == [] || !Deliverable(names, total, items[0]) then
              all.0 == t && n == 0 && StoredNames(s, b, facts, items[..n]) == []
            else
              var d := items[0];
              var wanted := Wanted(b.cpuNs, b.memoryBytes, facts, d);
              var (u, ok) := if wanted then Keep(s, t, d) else (t, true);
              if !ok then all.0 == u && n == 0 && StoredNames(s, b, facts, items[..n]) == []
              else
                var k := Passed(s, b, names, facts, u, total + |d.data|, items[1..]);
                && all == Delivered(s, b, names, facts, u, total + |d.data|, items[1..])
                && n == k + 1
                && StoredNames(s, b, facts, items[..n]) ==
                   (if wanted && d.name in s.artifacts then [d.name] else []) + StoredNames(s, b, facts, items[1..][..k])
  {
    hide Keep, Wanted, Deliverable;
    var n := Passed(s, b, names, facts, t, total, items);
    if n > 0 {
      assert items[..n][0] == items[0] && items[..n][1..] == items[1..][..n - 1];
    }
  }

  lemma NoRepeatsEmpty()
    ensures NoRepeats([])
  {
  }

  lemma RepeatsCons(n: Name, rest: seq<Name>)
    ensures NoRepeats([n] + rest) <==> n !in rest && NoRepeats(rest)
  {
    var all := [n] + rest;
    if NoRepeats(all) {
      forall i, j | 0 <= i < j < |rest| ensures rest[i] != rest[j] {
        assert all[i + 1] != all[j + 1];
      }
      forall j | 0 <= j < |rest| ensures rest[j] != n {
        assert all[0] != all[j + 1];
      }
    }
  }

  // ----- one execution

  /** `validateRequest`: None lets the request through. */
  function Rejection(s: Spec, ctxErr: bool): Option<Status> {
    if s.limits.None? then Some(InternalError)
    else
      var b := s.limits.value;
      if s.command == [] || |s.inputs| > MAX_FILES || |s.outputs| + |s.artifacts| > MAX_FILES then
        Some(if ctxErr then InternalError else WorkspaceError)
      else if ctxErr then Some(InternalError)
      else if b.cpuNs == 0 || b.clockNs == 0 then Some(TimeLimit)
      else if b.memoryBytes == 0 then Some(MemoryLimit)
      else if b.maxProcesses == 0 then Some(InternalError)
      else if b.stdoutMax > 0x400_0000 || b.stderrMax > 0x100_0000 then Some(InternalError)
      else None
  }

  /** `resolve`. */
  function Resolve(files: map<Ref, Bytes>, src: FileSource): Option<Bytes> {
    if src.ref != "" && src.text != [] then None
    else if src.ref != "" then if src.ref in files then Some(files[src.ref]) else None
    else Some(src.text)
  }

  /** What `openSources` hands on, if every source resolves. */
  function Opened(files: map<Ref, Bytes>, s: Spec): Option<Seen> {
    var stdin := if s.stdin.Some? then Resolve(files, s.stdin.value) else Some([]);
    if stdin.None? || exists n :: n in s.inputs && Resolve(files, s.inputs[n]).None? then None
    else Some(Seen(map n | n in s.inputs :: Resolve(files, s.inputs[n]).value, stdin.value))
  }

  function Begins(files: map<Ref, Bytes>, s: Spec, x: Exec): Option<Seen> {
    if Rejection(s, x.early).Some? || !x.opens then None else Opened(files, s)
  }

  function Empty(files: map<Ref, Bytes>): Tally { Tally(files, map[], map[], MAX_INLINE, {}) }

  /** The collector once the backend has returned, and whether the backend reported no error. */
  function Collected(files: map<Ref, Bytes>, s: Spec, x: Exec): (Tally, bool)
    requires s.limits.Some?
  {
    if x.stops then (Empty(files), false)
    else
      var (t, ok) := Delivered(s, s.limits.value, OutputNames(s.outputs + s.artifacts), x.facts, Empty(files), 0, x.items);
      (t, ok && !x.cleanup)
  }

  /** The deliveries that went through; all of them, if the backend reported no error. */
  function PassedIn(files: map<Ref, Bytes>, s: Spec, x: Exec): (items: seq<Delivery>)
    requires s.limits.Some?
    ensures Collected(files, s, x).1 ==> items == x.items
  {
    if x.stops then []
    else x.items[..Passed(s, s.limits.value, OutputNames(s.outputs + s.artifacts), x.facts, Empty(files), 0, x.items)]
  }

  /** One of them stored an artifact that had been stored before. */
  ghost predicate Repeats(files: map<Ref, Bytes>, s: Spec, x: Exec)
    requires s.limits.Some?
  {
    Twice(s, s.limits.value, x.facts, PassedIn(files, s, x))
  }

  /** What a success takes: nothing failed, the facts are clean, and every declared file was delivered. */
  ghost predicate Succeeds(files: map<Ref, Bytes>, s: Spec, x: Exec) {
    && Begins(files, s, x).Some?
    && Collected(files, s, x).1
    && Classify(s.limits.value.cpuNs, s.limits.value.memoryBytes, x.facts, x.overflow, x.ctxErr) == OK
    && (forall n :: n in s.outputs + s.artifacts ==> Latest(s.limits.value, x.facts, x.items, n).Some?)
    && x.closes
  }

  class Collector {
    const store: Store
    const spec: Spec
    const limits: Budget
    var outputs: map<Name, Bytes>
    var artifacts: map<Name, Ref>
    var remaining: int
    ghost var overwritten: set<Ref>

    constructor (store: Store, spec: Spec, limits: Budget)
      ensures this.store == store && this.spec == spec && this.limits == limits
      ensures View() == Empty(store.files)
    {
      this.store, this.spec, this.limits := store, spec, limits;
      outputs, artifacts, remaining, overwritten := map[], map[], MAX_INLINE, {};
    }

    ghost function View(): Tally
      reads this, store
    {
      Tally(store.files, outputs, artifacts, remaining, overwritten)
    }

    method ReadInline(d: Delivery) returns (ok: bool)
      modifies this`outputs, this`remaining
      ensures ok <==> d.readable && |d.data| <= old(remaining)
      ensures ok ==> outputs == old(outputs)[d.name := d.data] && remaining == old(remaining) - |d.data|
      ensures !ok ==> outputs == old(outputs) && remaining == old(remaining)
    {
      if !d.readable || |d.data| > remaining {
        return false;
      }
      remaining := remaining - |d.data|;
      outputs := outputs[d.name := d.data];
      return true;
    }

    method PutArtifact(d: Delivery) returns (ok: bool)
      modifies this`artifacts, this`overwritten, store`files
      ensures ok <==> d.readable && Drawn(old(store.files), d.draw).Some?
      ensures View() == if ok then Register(old(View()), d.name, d.draw.value, d.data) else old(View())
    {
      if !d.readable {
        return false;
      }
      var ref := store.Put(d.data, d.draw);
      if ref.None? {
        return false;
      }
      overwritten := overwritten + if d.name in artifacts then {artifacts[d.name]} else {};
      artifacts := artifacts[d.name := ref.value];
      return true;
    }

    method Accept(facts: JudgeFacts, d: Delivery) returns (ok: bool)
      modifies this, store`files
      ensures (View(), ok) == if Wanted(limits.cpuNs, limits.memoryBytes, facts, d) then Keep(spec, old(View()), d)
                              else (old(View()), true)
    {
      hide Classify;
      if Classify(limits.cpuNs, limits.memoryBytes, facts, d.overflow, d.ctxErr) != OK {
        return true;
      }
      if d.name in spec.outputs && d.name in spec.artifacts {
        ok := ReadInline(d);
        if ok {
          ok := PutArtifact(d);
        }
      } else if d.name in spec.outputs {
        ok := ReadInline(d);
      } else if d.name in spec.artifacts {
        ok := PutArtifact(d);
      } else {
        ok := true;
      }
    }

    /** `deliverOutputs`, with this collector as the sink. */
    method Deliver(names: seq<Name>, facts: JudgeFacts, items: seq<Delivery>) returns (ok: bool)
      modifies this, store`files
      ensures (View(), ok) == Delivered(spec, limits, names, facts, old(View()), 0, items)
    {
      hide Wanted, Keep;
      var total: nat := 0;
      for i := 0 to |items|
        invariant Delivered(spec, limits, names, facts, View(), total, items[i..])
               == Delivered(spec, limits, names, facts, old(View()), 0, items)
      {
        assert items[i..][0] == items[i] && items[i..][1..] == items[i + 1..];
        if !Deliverable(names, total, items[i]) {
          return false;
        }
        total := total + |items[i].data|;
        ok := Accept(facts, items[i]);
        if !ok {
          return false;
        }
      }
      return true;
    }

    /** Whether a declared file is missing. */
    method Missing() returns (missing: bool)
      ensures missing <==> !((forall n :: n in spec.outputs ==> n in outputs) && (forall n :: n in spec.artifacts ==> n in artifacts))
    {
      missing := false;
      for i := 0 to |spec.outputs|
        invariant missing <==> exists k :: 0 <= k < i && spec.outputs[k] !in outputs
      {
        missing := missing || spec.outputs[i] !in outputs;
      }
      var before := missing;
      for i := 0 to |spec.artifacts|
        invariant missing <==> before || exists k :: 0 <= k < i && spec.artifacts[k] !in artifacts
      {
        missing := missing || spec.artifacts[i] !in artifacts;
      }
    }
  }

  method RejectArtifacts(store: Store, result: RunResult) returns (r: RunResult, ghost failed: set<Ref>)
    requires store.Owns(result.artifacts.Values)
    modifies store
    ensures store.Valid() && failed <= result.artifacts.Values
    ensures r == RunResult(InternalError, map[], map[], result.seen)
    ensures result.artifacts == map[] ==> unchanged(store)
    ensures store.files == old(store.files) - (result.artifacts.Values - failed)
    ensures store.undeleted == old(store.undeleted) + failed && store.overwritten == old(store.overwritten)
  {
    var ok: bool;
    ok, failed := store.DeleteAll(result.artifacts);
    r := RunResult(InternalError, map[], map[], result.seen);
  }

  /**
   * The books between two states of the store: nothing that was there has changed, and every new blob is one that
   * the caller holds, one that could not be deleted, or one that was overwritten.
   */
  ghost predicate Balanced(before: Books, after: Books, held: set<Ref>) {
    && (forall r :: r in before.files ==> r in after.files && after.files[r] == before.files[r])
    && before.undeleted <= after.undeleted && before.overwritten <= after.overwritten
    && after.files.Keys - before.files.Keys
       == held + (after.undeleted - before.undeleted) + (after.overwritten - before.overwritten)
    && held !! after.undeleted + after.overwritten
    && after.undeleted <= after.files.Keys && after.overwritten <= after.files.Keys
  }

  /** From the collector to a result that either holds every artifact or none. */
  method Settle(collect: Collector, x: Exec, executed: bool, seen: Option<Seen>) returns (res: RunResult, ghost failed: set<Ref>)
    requires collect.store.Owns(collect.artifacts.Values) && (x.cleanup ==> !executed)
    modifies collect.store
    ensures collect.store.Valid() && res.seen == seen
    ensures res.status == OK <==>
            && executed && Classify(collect.limits.cpuNs, collect.limits.memoryBytes, x.facts, x.overflow, x.ctxErr) == OK
            && (forall n :: n in collect.spec.outputs ==> n in collect.outputs)
            && (forall n :: n in collect.spec.artifacts ==> n in collect.artifacts)
            && x.closes
    ensures failed <= collect.artifacts.Values
    ensures if res.status == OK then failed == {} && res.outputs == collect.outputs && res.artifacts == collect.artifacts
            else res.outputs == map[] && res.artifacts == map[]
    ensures collect.store.files == old(collect.store.files) -
              if res.status == OK then {} else collect.artifacts.Values - failed
    ensures collect.store.undeleted == old(collect.store.undeleted) + failed
    ensures collect.store.overwritten == old(collect.store.overwritten)
  {
    hide Classify;
    var store := collect.store;
    failed := {};
    ghost var more: set<Ref> := {};
    res := RunResult(Classify(collect.limits.cpuNs, collect.limits.memoryBytes, x.facts, x.overflow, x.ctxErr), map[], map[], seen);
    if !executed {
      res := res.(status := InternalError);
    }
    if res.status == OK {
      res := res.(outputs := collect.outputs, artifacts := collect.artifacts);
      var missing := collect.Missing();
      if missing {
        res, failed := RejectArtifacts(store, res);
      }
    } else {
      var ok: bool;
      ok, failed := store.DeleteAll(collect.artifacts);
      if !ok {
        res, more := RejectArtifacts(store, res);
      }
    }
    if !x.closes {
      var kept := res.artifacts != map[];
      res, more := RejectArtifacts(store, res);
      if kept {
        failed := more;
      }
    }
    if x.cleanup {
      res, more := RejectArtifacts(store, res);
    }
  }

  /** What a delivery into an empty collector comes to. */
  lemma CollectedMeans(files: map<Ref, Bytes>, s: Spec, x: Exec)
    requires s.limits.Some? && "" !in files
    ensures var (t, ok) := Collected(files, s, x);
            && Sound(s, files, t)
            && InlineSize(OutputNames(s.outputs + s.artifacts), t.outputs) + t.remaining <= MAX_INLINE
            && (t.overwritten == {} <==> !Repeats(files, s, x))
            && (ok ==> forall n :: Holds(s, Empty(files), t, Latest(s.limits.value, x.facts, x.items, n), n))
  {
    var names := OutputNames(s.outputs + s.artifacts);
    NothingInline(names);
    if !x.stops {
      var b := s.limits.value;
      DeliveredSound(s, b, names, x.facts, files, Empty(files), 0, x.items);
      InlineBounded(s, b, names, x.facts, Empty(files), 0, x.items);
      OverwrittenIff(s, b, names, x.facts, files, Empty(files), 0, x.items);
      StoredNamesMean(s, b, x.facts, PassedIn(files, s, x));
      if Collected(files, s, x).1 {
        forall n ensures Holds(s, Empty(files), Collected(files, s, x).0, Latest(b, x.facts, x.items, n), n) {
          DeliveredHolds(s, b, names, x.facts, Empty(files), 0, x.items, n);
        }
      }
    }
  }

  lemma {:induction false} NothingInline(names: seq<Name>)
    ensures InlineSize(names, map[]) == 0
  {
    if names != [] {
      NothingInline(names[1..]);
    }
  }

  /** Exactly the declared names, each with the bytes last delivered for it. */
  ghost predicate Complete(s: Spec, x: Exec, files: map<Ref, Bytes>, outputs: map<Name, Bytes>, artifacts: map<Name, Ref>) {
    && s.limits.Some?
    && (forall n :: n in outputs <==> n in s.outputs)
    && (forall n :: n in artifacts <==> n in s.artifacts)
    && (forall n :: n in s.outputs ==> Some(outputs[n]) == Latest(s.limits.value, x.facts, x.items, n))
    && (forall n :: n in s.artifacts ==>
          && artifacts[n] in files
          && Some(files[artifacts[n]]) == Latest(s.limits.value, x.facts, x.items, n))
  }

  /** Nothing is missing from the collector exactly when everything declared was delivered and wanted. */
  lemma CompleteIff(files: map<Ref, Bytes>, s: Spec, x: Exec)
    requires s.limits.Some? && "" !in files && Collected(files, s, x).1
    ensures var t := Collected(files, s, x).0;
            && ((forall n :: n in s.outputs ==> n in t.outputs) && (forall n :: n in s.artifacts ==> n in t.artifacts)
                <==> (forall n :: n in s.outputs + s.artifacts ==> Latest(s.limits.value, x.facts, x.items, n).Some?))
            && ((forall n :: n in s.outputs + s.artifacts ==> Latest(s.limits.value, x.facts, x.items, n).Some?)
                ==> Complete(s, x, t.files, t.outputs, t.artifacts))
  {
    hide Collected, Latest, InlineSize, OutputNames, Repeats, Sound;
    CollectedMeans(files, s, x);
    var t := Collected(files, s, x).0;
    assert forall n :: Holds(s, Empty(files), t, Latest(s.limits.value, x.facts, x.items, n), n);
    forall n | n in s.outputs
      ensures n in t.outputs <==> Latest(s.limits.value, x.facts, x.items, n).Some?
      ensures n in t.outputs ==> Some(t.outputs[n]) == Latest(s.limits.value, x.facts, x.items, n)
    {
      assert Holds(s, Empty(files), t, Latest(s.limits.value, x.facts, x.items, n), n);
    }
    forall n | n in s.artifacts
      ensures n in t.artifacts <==> Latest(s.limits.value, x.facts, x.items, n).Some?
      ensures n in t.artifacts ==> t.artifacts[n] in t.files
      ensures n in t.artifacts ==> Some(t.files[t.artifacts[n]]) == Latest(s.limits.value, x.facts, x.items, n)
    {
      assert Holds(s, Empty(files), t, Latest(s.limits.value, x.facts, x.items, n), n);
    }
    DeclaredOnly(files, s, t);
    hide Holds, Empty;
    assert forall n :: n in s.outputs + s.artifacts <==> n in s.outputs || n in s.artifacts;
  }

  lemma DeclaredOnly(files: map<Ref, Bytes>, s: Spec, t: Tally)
    requires Sound(s, files, t)
    ensures (forall n :: n in t.outputs ==> n in s.outputs) && forall n :: n in t.artifacts ==> n in s.artifacts
  {
  }

  /** The books of the store, from what the collector kept and what could not be removed. */
  lemma BooksClose(s: Spec, before: map<Ref, Bytes>, t: Tally, undeleted: set<Ref>, overwritten: set<Ref>, kept: bool, failed: set<Ref>)
    requires Sound(s, before, t) && undeleted <= before.Keys && overwritten <= before.Keys
    requires failed <= t.artifacts.Values && (kept ==> failed == {})
    ensures Balanced(Books(before, undeleted, overwritten),
                     Books(t.files - if kept then {} else t.artifacts.Values - failed, undeleted + failed, overwritten + t.overwritten),
                     if kept then t.artifacts.Values else {})
  {
    var values := t.artifacts.Values;
    assert values <= t.files.Keys && values !! before.Keys && values !! t.overwritten && t.overwritten !! before.Keys;
    assert t.files.Keys == before.Keys + values + t.overwritten;
    assert (undeleted + failed) - undeleted == failed && (overwritten + t.overwritten) - overwritten == t.overwritten;
  }

  lemma BooksOpen(s: Spec, before: map<Ref, Bytes>, t: Tally, undeleted: set<Ref>, overwritten: set<Ref>)
    requires Sound(s, before, t) && undeleted <= before.Keys && overwritten <= before.Keys
    ensures t.artifacts.Values <= t.files.Keys && t.artifacts.Values !! undeleted + (overwritten + t.overwritten)
    ensures undeleted <= t.files.Keys && overwritten + t.overwritten <= t.files.Keys
    ensures overwritten + t.overwritten == overwritten <==> t.overwritten == {}
    ensures "" !in t.files
  {
    if r :| r in t.overwritten {
      assert r !in overwritten;
    }
  }

  /** Run the backend with a new collector. */
  method Gather(store: Store, s: Spec, x: Exec) returns (collect: Collector, executed: bool)
    requires s.limits.Some?
    modifies store
    ensures fresh(collect) && collect.store == store && collect.spec == s && collect.limits == s.limits.value
    ensures (collect.View(), executed) == Collected(old(store.files), s, x) && (x.cleanup ==> !executed)
    ensures store.undeleted == old(store.undeleted) && store.overwritten == old(store.overwritten) + collect.overwritten
  {
    hide OutputNames, Delivered;
    collect := new Collector(store, s, s.limits.value);
    var names := CollectNames(s);
    executed := !x.stops;
    if executed {
      executed := collect.Deliver(names, x.facts, x.items);
    }
    executed := executed && !x.cleanup;
    store.overwritten := store.overwritten + collect.overwritten;
  }

  /** The part of `Run` between opening the inputs and returning. */
  method Execute(store: Store, s: Spec, x: Exec, seen: Option<Seen>) returns (res: RunResult)
    requires store.Valid() && s.limits.Some?
    modifies store
    ensures store.Valid() && Balanced(old(store.Now()), store.Now(), res.artifacts.Values)
    ensures res.status != OK ==> res.outputs == map[] && res.artifacts == map[]
    ensures res.status == OK <==>
            && Collected(old(store.files), s, x).1
            && Classify(s.limits.value.cpuNs, s.limits.value.memoryBytes, x.facts, x.overflow, x.ctxErr) == OK
            && (forall n :: n in s.outputs + s.artifacts ==> Latest(s.limits.value, x.facts, x.items, n).Some?)
            && x.closes
    ensures res.status == OK ==> Complete(s, x, store.files, res.outputs, res.artifacts)
    ensures InlineSize(OutputNames(s.outputs + s.artifacts), res.outputs) <= MAX_INLINE
    ensures res.seen == seen
    ensures store.overwritten == old(store.overwritten) <==> !Repeats(old(store.files), s, x)
  {
    hide Classify, OutputNames, InlineSize, Latest, Collected, Repeats, Holds, Sound, NoRepeats, Complete, Empty, Balanced;
    ghost var before, undeleted, overwritten := store.files, store.undeleted, store.overwritten;
    NothingInline(OutputNames(s.outputs + s.artifacts));
    var collect, executed := Gather(store, s, x);
    ghost var t := collect.View();
    CollectedMeans(before, s, x);
    if executed {
      CompleteIff(before, s, x);
    }
    BooksOpen(s, before, t, undeleted, overwritten);
    ghost var failed;
    res, failed := Settle(collect, x, executed, seen);
    ghost var kept := res.status == OK;
    BooksClose(s, before, t, undeleted, overwritten, kept, failed);
    assert store.files == t.files - if kept then {} else t.artifacts.Values - failed;
    assert res.artifacts.Values == if kept then t.artifacts.Values else {};
    assert kept ==> store.files == t.files;
  }

  /**
   * One execution, whatever happens in it: it succeeds exactly when nothing failed and everything declared was
   * delivered; a success returns each file's bytes; anything else returns no reference; and no blob is left in
   * the store that is not returned, undeletable or overwritten.
   */
  method Run(store: Store, s: Spec, x: Exec) returns (res: RunResult, cleanup: bool)
    requires store.Valid()
    modifies store
    ensures store.Valid() && Balanced(old(store.Now()), store.Now(), res.artifacts.Values)
    ensures res.status != OK ==> res.outputs == map[] && res.artifacts == map[]
    ensures res.status == OK <==> Succeeds(old(store.files), s, x)
    ensures res.status == OK ==> Complete(s, x, store.files, res.outputs, res.artifacts)
    ensures InlineSize(OutputNames(s.outputs + s.artifacts), res.outputs) <= MAX_INLINE
    ensures res.seen == Begins(old(store.files), s, x)
    ensures cleanup <==> res.seen.Some? && x.cleanup
    ensures store.overwritten == old(store.overwritten) <==>
            (res.seen.Some? ==> !Repeats(old(store.files), s, x))
    ensures res.status == OK ==>
              (store.overwritten == old(store.overwritten) <==> !Twice(s, s.limits.value, x.facts, x.items))
  {
    hide Classify, OutputNames, InlineSize, Latest, Opened, Rejection, PassedIn, Twice, Collected, Complete, NoRepeats;
    NothingInline(OutputNames(s.outputs + s.artifacts));
    var rejection := Rejection(s, x.early);
    if rejection.Some? {
      RejectedNeverOk(s, x.early);
      return RunResult(rejection.value, map[], map[], None), false;
    }
    RejectedNeverOk(s, x.early);
    var seen := Opened(store.files, s);
    if !x.opens || seen.None? {
      return RunResult(if x.ctxErr then InternalError else WorkspaceError, map[], map[], None), false;
    }
    res := Execute(store, s, x, seen);
    cleanup := x.cleanup;
  }

  lemma RejectedNeverOk(s: Spec, ctxErr: bool)
    ensures Rejection(s, ctxErr) != Some(OK) && (Rejection(s, ctxErr).None? ==> s.limits.Some?)
  {
  }

  // ----- when the books balance without strays

  /**
   * No blob becomes stray exactly when none of the deliveries that went through stored an artifact again; if the
   * backend reported no error that is a question about what the executor reported, and nothing else.
   */
  lemma StrayIff(files: map<Ref, Bytes>, s: Spec, x: Exec)
    requires s.limits.Some? && "" !in files
    ensures Collected(files, s, x).0.overwritten == {} <==> !Repeats(files, s, x)
    ensures Collected(files, s, x).1 ==>
              (Collected(files, s, x).0.overwritten == {} <==> !Twice(s, s.limits.value, x.facts, x.items))
  {
    hide Twice, Collected, Sound, Holds, InlineSize;
    CollectedMeans(files, s, x);
  }

  /** An executor that reports every artifact at most once makes no blob stray. */
  lemma OncePerName(files: map<Ref, Bytes>, s: Spec, x: Exec)
    requires s.limits.Some?
    requires forall i, j :: 0 <= i < j < |x.items| ==> x.items[i].name != x.items[j].name
    ensures !Repeats(files, s, x)
  {
    hide Stores, Collected;
    var items := PassedIn(files, s, x);
    assert forall i :: 0 <= i < |items| ==> items[i] == x.items[i];
  }

  /** Reporting one artifact twice does: the run still succeeds and the first blob stays behind, unnamed. */
  lemma DeliveredTwice() returns (s: Spec, x: Exec)
    ensures Succeeds(map[], s, x) && s.artifacts == ["Main"] && |x.items| == 2
    ensures Twice(s, s.limits.value, x.facts, x.items)
    ensures "a" in Collected(map[], s, x).0.files && "a" !in Collected(map[], s, x).0.artifacts.Values
  {
    var b := Budget(1, 1, 1, 1, 1, 1);
    var facts := JudgeFacts(0, 0, 0, 0, NoReason, false, true);
    s := Spec(["cc"], map[], None, [], ["Main"], Some(b));
    var d := Delivery(0, "Main", [], true, true, false, false, Some("a"));
    var e := d.(draw := Some("b"));
    x := Exec(false, true, facts, false, [d, e], false, false, false, true);
    assert OutputNames(s.outputs + s.artifacts) == ["Main"] by {
      assert s.outputs + s.artifacts == ["Main"] && ["Main"][..0] == [];
    }
    assert Wanted(1, 1, facts, d) && Wanted(1, 1, facts, e) && Classify(1, 1, facts, false, false) == OK;
    assert Begins(map[], s, x).Some?;
    TwiceDelivered(s, b, facts, d, e);
    assert Latest(b, facts, [d, e], "Main") == Some([]);
    assert Stores(s, b, facts, x.items[0]) && Stores(s, b, facts, x.items[1]);
    hide Wanted, Classify, OutputNames, Delivered, Begins, Latest, Stores;
  }

  lemma TwiceDelivered(s: Spec, b: Budget, facts: JudgeFacts, d: Delivery, e: Delivery)
    requires s.outputs == [] && s.artifacts == ["Main"] && Wanted(b.cpuNs, b.memoryBytes, facts, d) && Wanted(b.cpuNs, b.memoryBytes, facts, e)
    requires d == Delivery(0, "Main", [], true, true, false, false, Some("a")) && e == d.(draw := Some("b"))
    ensures var (t, ok) := Delivered(s, b, ["Main"], facts, Empty(map[]), 0, [d, e]);
            ok && "a" in t.files && "a" !in t.artifacts.Values
  {
    hide Wanted;
    var t1 := Register(Empty(map[]), "Main", "a", []);
    var t2 := Register(t1, "Main", "b", []);
    assert Keep(s, Empty(map[]), d) == (t1, true);
    assert Keep(s, t1, e) == (t2, true);
    assert t2.artifacts == map["Main" := "b"];
    hide Keep;
    assert [d, e][1..] == [e] && [e][1..] == [];
    assert Delivered(s, b, ["Main"], facts, t1, 0, [e]) == (t2, true);
  }
}
