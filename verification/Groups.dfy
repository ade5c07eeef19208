/**
 * Grouping of run specifications that have to run at the same time: the checks at the end of
 * `parse_run_specs` and `groups`, benchmark/tools/specs.py.  A specification is named by its position.
 */
module Groups {
  import opened Common

  datatype RunSpec = RunSpec(id: Option<string>, concurrent: seq<string>)

  type Specs = seq<RunSpec>

  predicate HasId(specs: Specs, name: string, i: int) { 0 <= i < |specs| && specs[i].id == Some(name) }

  // ----- what parse_run_specs accepts

  ghost predicate UniqueIds(specs: Specs) {
    forall i, j, name :: HasId(specs, name, i) && HasId(specs, name, j) ==> i == j
  }

  /** Every reference names another specification that refers back. */
  ghost predicate Mutual(specs: Specs, i: int, name: string)
    requires 0 <= i < |specs|
  {
    && specs[i].id.Some? && name != specs[i].id.value
    && exists j :: HasId(specs, name, j) && specs[i].id.value in specs[j].concurrent
  }

  ghost predicate Accepted(specs: Specs) {
    && UniqueIds(specs)
    && forall i, name :: 0 <= i < |specs| && name in specs[i].concurrent ==> Mutual(specs, i, name)
  }

  /** `by_id`: the map from names to positions, None if a name is given twice. */
  method ById(specs: Specs) returns (r: Option<map<string, int>>)
    ensures r.Some? <==> UniqueIds(specs)
    ensures r.Some? ==> forall name, i :: HasId(specs, name, i) <==> name in r.value && r.value[name] == i
  {
    var byId: map<string, int> := map[];
    for i := 0 to |specs|
      invariant forall name, j :: 0 <= j < i && HasId(specs, name, j) ==> name in byId && byId[name] == j
      invariant forall name :: name in byId ==> 0 <= byId[name] < i && HasId(specs, name, byId[name])
    {
      if specs[i].id.Some? {
        if specs[i].id.value in byId {
          assert HasId(specs, specs[i].id.value, i) && HasId(specs, specs[i].id.value, byId[specs[i].id.value]);
          return None;
        }
        byId := byId[specs[i].id.value := i];
      }
    }
    r := Some(byId);
  }

  /** The two loops at the end of `parse_run_specs`. */
  method Check(specs: Specs) returns (ok: bool)
    ensures ok <==> Accepted(specs)
  {
    var byId := ById(specs);
    if byId.None? {
      return false;
    }
    for i := 0 to |specs|
      invariant forall k, name :: 0 <= k < i && name in specs[k].concurrent ==> Mutual(specs, k, name)
    {
      var spec := specs[i];
      for n := 0 to |spec.concurrent|
        invariant forall m :: 0 <= m < n ==> Mutual(specs, i, spec.concurrent[m])
      {
        var other := spec.concurrent[n];
        assert other in specs[i].concurrent;
        if spec.id.None? || other == spec.id.value || other !in byId.value {
          return false;
        }
        assert HasId(specs, other, byId.value[other]);
        if spec.id.value !in specs[byId.value[other]].concurrent {
          return false;
        }
      }
    }
    ok := true;
  }

  // ----- the relation

  /** i refers to j. */
  ghost predicate Refers(specs: Specs, i: int, j: int) {
    0 <= i < |specs| && 0 <= j < |specs| && specs[j].id.Some? && specs[j].id.value in specs[i].concurrent
  }

  lemma Symmetric(specs: Specs, i: int, j: int)
    requires Accepted(specs) && Refers(specs, i, j)
    ensures Refers(specs, j, i)
  {
    var name := specs[j].id.value;
    assert Mutual(specs, i, name);
    var k :| HasId(specs, name, k) && specs[i].id.value in specs[k].concurrent;
    assert HasId(specs, name, j);
  }

  ghost predicate Within(specs: Specs, i: int, j: int, steps: nat)
    decreases steps
  {
    if steps == 0 then i == j && 0 <= i < |specs|
    else exists k :: Within(specs, i, k, steps - 1) && Refers(specs, k, j)
  }

  /** j can be reached from i. */
  ghost predicate Connected(specs: Specs, i: int, j: int) {
    exists steps: nat :: Within(specs, i, j, steps)
  }

  lemma ConnectedSelf(specs: Specs, i: int)
    requires 0 <= i < |specs|
    ensures Connected(specs, i, i)
  {
    assert Within(specs, i, i, 0);
  }

  lemma ConnectedStep(specs: Specs, i: int, j: int, k: int)
    requires Connected(specs, i, j) && Refers(specs, j, k)
    ensures Connected(specs, i, k)
  {
    var steps: nat :| Within(specs, i, j, steps);
    assert Within(specs, i, k, steps + 1);
  }

  lemma {:induction false} Extend(specs: Specs, i: int, j: int, k: int, steps: nat)
    requires Connected(specs, i, j) && Within(specs, j, k, steps)
    ensures Connected(specs, i, k)
    decreases steps
  {
    if steps > 0 {
      var x :| Within(specs, j, x, steps - 1) && Refers(specs, x, k);
      Extend(specs, i, j, x, steps - 1);
      ConnectedStep(specs, i, x, k);
    }
  }

  lemma ConnectedTransitive(specs: Specs, i: int, j: int, k: int)
    requires Connected(specs, i, j) && Connected(specs, j, k)
    ensures Connected(specs, i, k)
  {
    var steps: nat :| Within(specs, j, k, steps);
    Extend(specs, i, j, k, steps);
  }

  lemma {:induction false} Backwards(specs: Specs, i: int, j: int, steps: nat)
    requires Accepted(specs) && Within(specs, i, j, steps)
    ensures Connected(specs, j, i)
    decreases steps
  {
    if steps == 0 {
      ConnectedSelf(specs, i);
    } else {
      var k :| Within(specs, i, k, steps - 1) && Refers(specs, k, j);
      Symmetric(specs, k, j);
      ConnectedSelf(specs, j);
      ConnectedStep(specs, j, j, k);
      Backwards(specs, i, k, steps - 1);
      ConnectedTransitive(specs, j, k, i);
    }
  }

  lemma ConnectedSymmetric(specs: Specs, i: int, j: int)
    requires Accepted(specs) && Connected(specs, i, j)
    ensures Connected(specs, j, i)
  {
    var steps: nat :| Within(specs, i, j, steps);
    Backwards(specs, i, j, steps);
  }

  /** Nothing leads out of the set. */
  ghost predicate ClosedSet(specs: Specs, s: set<int>) {
    forall i, j :: i in s && Refers(specs, i, j) ==> j in s
  }

  lemma {:induction false} StaysInside(specs: Specs, s: set<int>, i: int, j: int, steps: nat)
    requires ClosedSet(specs, s) && i in s && Within(specs, i, j, steps)
    ensures j in s
    decreases steps
  {
    if steps > 0 {
      var k :| Within(specs, i, k, steps - 1) && Refers(specs, k, j);
      StaysInside(specs, s, i, k, steps - 1);
    }
  }

  // ----- groups

  /** The members in the order of the input. */
  function InOrder(members: set<int>, n: nat): (r: seq<int>)
    ensures forall i :: i in r <==> i in members && 0 <= i < n
    ensures forall a, b :: 0 <= a < b < |r| ==> r[a] < r[b]
  {
    if n == 0 then []
    else if n - 1 in members then
      var front := InOrder(members, n - 1);
      assert forall i :: 0 <= i < |front| ==> front[i] in front;
      front + [n - 1]
    else InOrder(members, n - 1)
  }

  /** One group is one connected component, in input order. */
  ghost predicate IsComponent(specs: Specs, group: seq<int>) {
    && group != []
    && (forall a, b :: 0 <= a < b < |group| ==> group[a] < group[b])
    && (forall i :: i in group ==> 0 <= i < |specs|)
    && (forall i, j :: i in group ==> (j in group <==> Connected(specs, i, j)))
  }

  /** The positions that refer to `current`'s names. */
  function Neighbours(byId: map<string, int>, names: seq<string>): (r: seq<int>)
    requires forall n :: n in names ==> n in byId
    ensures |r| == |names| && forall i :: 0 <= i < |r| ==> r[i] == byId[names[i]]
  {
    seq(|names|, i requires 0 <= i < |names| => byId[names[i]])
  }

  lemma NeighboursAreReferred(specs: Specs, byId: map<string, int>, i: int)
    requires Accepted(specs) && 0 <= i < |specs|
    requires forall name, k :: HasId(specs, name, k) <==> name in byId && byId[name] == k
    ensures forall n :: n in specs[i].concurrent ==> n in byId
    ensures forall j :: j in Neighbours(byId, specs[i].concurrent) <==> Refers(specs, i, j)
  {
    var names := specs[i].concurrent;
    forall n | n in names ensures n in byId {
      assert Mutual(specs, i, n);
    }
    var r := Neighbours(byId, names);
    forall j | Refers(specs, i, j) ensures j in r {
      var name := specs[j].id.value;
      assert HasId(specs, name, j);
      var k :| 0 <= k < |names| && names[k] == name;
      assert r[k] == j;
    }
    forall j | j in r ensures Refers(specs, i, j) {
      var k :| 0 <= k < |r| && r[k] == j;
      assert names[k] in byId && HasId(specs, names[k], j);
    }
  }

  function Positions(n: nat): (s: set<int>)
    ensures forall i :: i in s <==> 0 <= i < n
  {
    if n == 0 then {} else Positions(n - 1) + {n - 1}
  }

  /** The search from `start`: what was found is connected, and what it refers to is found or pending. */
  ghost predicate Searching(specs: Specs, start: int, seen0: set<int>, members: set<int>, pending: seq<int>) {
    && members !! seen0 && members <= Positions(|specs|)
    && (forall i :: i in members ==> Connected(specs, start, i))
    && (forall i :: i in pending ==> 0 <= i < |specs| && Connected(specs, start, i) && i !in seen0)
    && (forall i, j :: i in members && Refers(specs, i, j) ==> j in members || j in pending)
    && (start in members || start in pending)
  }

  lemma SearchStart(specs: Specs, start: int, seen0: set<int>)
    requires 0 <= start < |specs| && start !in seen0
    ensures Searching(specs, start, seen0, {}, [start])
  {
    ConnectedSelf(specs, start);
  }

  /** A position that is taken from the stack and was found before. */
  lemma SearchSkip(specs: Specs, start: int, seen0: set<int>, members: set<int>, pending: seq<int>)
    requires Searching(specs, start, seen0, members, pending) && pending != []
    requires pending[|pending| - 1] in members
    ensures Searching(specs, start, seen0, members, pending[..|pending| - 1])
  {
    hide Refers, Connected;
    AllButLast(pending);
  }

  /** What is on a stack is its top or below it. */
  lemma AllButLast(pending: seq<int>)
    requires pending != []
    ensures var last := |pending| - 1;
            pending[last] in pending && forall i :: i in pending <==> i in pending[..last] || i == pending[last]
  {
    var last := |pending| - 1;
    assert pending == pending[..last] + [pending[last]];
  }

  lemma OnStack(specs: Specs, start: int, seen0: set<int>, members: set<int>, pending: seq<int>)
    requires Searching(specs, start, seen0, members, pending) && pending != []
    ensures var current := pending[|pending| - 1];
            0 <= current < |specs| && current !in seen0 && current in Positions(|specs|) && members <= Positions(|specs|)
  {
    hide Refers, Connected;
    assert pending[|pending| - 1] in pending;
  }

  /** A new position: its neighbours go onto the stack. */
  lemma SearchStep(specs: Specs, start: int, seen0: set<int>, members: set<int>, pending: seq<int>, next: seq<int>)
    requires Accepted(specs) && ClosedSet(specs, seen0)
    requires Searching(specs, start, seen0, members, pending) && pending != []
    requires forall j :: j in next <==> Refers(specs, pending[|pending| - 1], j)
    ensures var last := |pending| - 1;
            Searching(specs, start, seen0, members + {pending[last]}, pending[..last] + next)
  {
    hide Accepted, Refers, Connected, ClosedSet;
    var last := |pending| - 1;
    var current := pending[last];
    AllButLast(pending);
    assert 0 <= current < |specs| && Connected(specs, start, current) && current !in seen0;
    forall j | j in next ensures 0 <= j < |specs| && Connected(specs, start, j) && j !in seen0 {
      ReferredOutside(specs, start, seen0, current, j);
    }
    var found, left := members + {current}, pending[..last] + next;
    forall i, j | i in found && Refers(specs, i, j) ensures j in found || j in left {
      if i in members {
        assert j in members || j in pending;
      }
    }
    assert current in Positions(|specs|);
    assert start in found || start in left;
  }

  lemma ReferredOutside(specs: Specs, start: int, seen0: set<int>, current: int, j: int)
    requires Accepted(specs) && ClosedSet(specs, seen0) && Refers(specs, current, j)
    requires 0 <= current < |specs| && Connected(specs, start, current) && current !in seen0
    ensures 0 <= j < |specs| && Connected(specs, start, j) && j !in seen0
  {
    hide Accepted;
    ConnectedStep(specs, start, current, j);
    Symmetric(specs, current, j);
  }

  lemma SearchDone(specs: Specs, start: int, seen0: set<int>, members: set<int>)
    requires ClosedSet(specs, seen0) && Searching(specs, start, seen0, members, [])
    ensures start in members && members !! seen0 && members <= Positions(|specs|) && ClosedSet(specs, seen0 + members)
    ensures forall j :: j in members <==> Connected(specs, start, j)
  {
    forall j | Connected(specs, start, j) ensures j in members {
      var steps: nat :| Within(specs, start, j, steps);
      StaysInside(specs, members, start, j, steps);
    }
  }

  /** The inner loop: everything reachable from `start`, with a stack. */
  method Collect(specs: Specs, byId: map<string, int>, start: int, seen0: set<int>) returns (members: set<int>)
    requires Accepted(specs) && 0 <= start < |specs| && start !in seen0
    requires forall name, k :: HasId(specs, name, k) <==> name in byId && byId[name] == k
    requires ClosedSet(specs, seen0)
    ensures start in members && members !! seen0 && members <= Positions(|specs|) && ClosedSet(specs, seen0 + members)
    ensures forall j :: j in members <==> Connected(specs, start, j)
  {
    hide Accepted, ClosedSet, Connected, Searching, Refers;
    var seen := seen0;
    members := {};
    var pending := [start];
    SearchStart(specs, start, seen0);
    while pending != []
      invariant seen == seen0 + members
      invariant Searching(specs, start, seen0, members, pending)
      decreases |Positions(|specs|) - members|, |pending|
    {
      var last := |pending| - 1;
      var current := pending[last];
      OnStack(specs, start, seen0, members, pending);
      if current in seen {
        SearchSkip(specs, start, seen0, members, pending);
        pending := pending[..last];
      } else {
        NeighboursAreReferred(specs, byId, current);
        var next := Neighbours(byId, specs[current].concurrent);
        SearchStep(specs, start, seen0, members, pending, next);
        Shrinks(Positions(|specs|), members, current);
        seen := seen + {current};
        members := members + {current};
        pending := pending[..last] + next;
      }
    }
    SearchDone(specs, start, seen0, members);
  }

  lemma Shrinks(all: set<int>, members: set<int>, x: int)
    requires x in all && x !in members
    ensures |all - (members + {x})| < |all - members|
  {
    assert all - members == all - (members + {x}) + {x};
  }

  ghost predicate InSome(groups: seq<seq<int>>, i: int) { exists a :: 0 <= a < |groups| && i in groups[a] }

  /** Groups found so far: components, apart, by their first members, and covering everything below i. */
  ghost predicate Listed(specs: Specs, groups: seq<seq<int>>, seen: set<int>, i: nat) {
    && ClosedSet(specs, seen) && (forall k :: k in seen ==> 0 <= k < |specs|)
    && (forall k :: 0 <= k < i ==> k in seen)
    && (forall k :: k in seen <==> InSome(groups, k))
    && (forall a :: 0 <= a < |groups| ==> IsComponent(specs, groups[a]) && groups[a][0] < i)
    && (forall a, b, k :: 0 <= a < b < |groups| && k in groups[a] ==> k !in groups[b])
    && (forall a, b :: 0 <= a < b < |groups| ==> groups[a][0] < groups[b][0])
  }

  lemma ListedNothing(specs: Specs)
    ensures Listed(specs, [], {}, 0)
  {
  }

  lemma ListedOne(specs: Specs, groups: seq<seq<int>>, seen: set<int>, i: nat, members: set<int>, group: seq<int>)
    requires Listed(specs, groups, seen, i) && i in members && members !! seen
    requires IsComponent(specs, group) && group[0] == i && forall k :: k in group <==> k in members
    requires ClosedSet(specs, seen + members)
    ensures Listed(specs, groups + [group], seen + members, i + 1)
  {
    hide ClosedSet, IsComponent;
    assert forall k :: k in group ==> 0 <= k < |specs| by { MembersInRange(specs, group); }
    InSomeMore(groups, group);
    var all := groups + [group];
    assert forall a :: 0 <= a < |groups| ==> all[a] == groups[a];
    forall a, k | 0 <= a < |groups| && k in groups[a] ensures k !in group {
      assert InSome(groups, k);
    }
    hide InSome;
  }

  lemma MembersInRange(specs: Specs, group: seq<int>)
    requires IsComponent(specs, group)
    ensures forall k :: k in group ==> 0 <= k < |specs|
  {
  }

  /** `groups`: a partition into the connected components, each in input order. */
  method Groups(specs: Specs) returns (groups: seq<seq<int>>)
    requires Accepted(specs)
    ensures forall a :: 0 <= a < |groups| ==> IsComponent(specs, groups[a])
    ensures forall i :: 0 <= i < |specs| ==> InSome(groups, i)
    ensures forall a, b, i :: 0 <= a < b < |groups| && i in groups[a] ==> i !in groups[b]
    ensures forall a, b :: 0 <= a < b < |groups| && groups[a] != [] && groups[b] != [] ==> groups[a][0] < groups[b][0]
  {
    hide Accepted, UniqueIds, Connected, Refers, IsComponent, InSome, ClosedSet;
    var ids := ById(specs);
    assert ids.Some? by { NamesUnique(specs); }
    var byId := ids.value;
    var seen: set<int> := {};
    groups := [];
    ListedNothing(specs);
    for i := 0 to |specs|
      invariant Listed(specs, groups, seen, i)
    {
      if i !in seen {
        var members := Collect(specs, byId, i, seen);
        assert forall k :: k in members ==> k in Positions(|specs|);
        var group := InOrder(members, |specs|);
        GroupIsComponent(specs, i, members, group);
        FirstOfGroup(group, members, i, seen);
        ListedOne(specs, groups, seen, i, members, group);
        groups := groups + [group];
        seen := seen + members;
      }
    }
  }

  lemma NamesUnique(specs: Specs)
    requires Accepted(specs)
    ensures UniqueIds(specs)
  {
  }

  lemma InSomeMore(groups: seq<seq<int>>, group: seq<int>)
    ensures forall i :: InSome(groups + [group], i) <==> InSome(groups, i) || i in group
  {
    var all := groups + [group];
    forall i ensures InSome(all, i) <==> InSome(groups, i) || i in group {
      if InSome(groups, i) {
        var a :| 0 <= a < |groups| && i in groups[a];
        assert i in all[a];
      }
      if i in group {
        assert i in all[|groups|];
      }
    }
  }

  lemma GroupIsComponent(specs: Specs, start: int, members: set<int>, group: seq<int>)
    requires Accepted(specs) && start in members && group == InOrder(members, |specs|)
    requires forall i :: i in members ==> 0 <= i < |specs|
    requires forall j :: j in members <==> Connected(specs, start, j)
    ensures IsComponent(specs, group)
  {
    assert start in group;
    forall i, j | i in group ensures j in group <==> Connected(specs, i, j) {
      ConnectedSymmetric(specs, start, i);
      if j in group {
        ConnectedTransitive(specs, i, start, j);
      }
      if Connected(specs, i, j) {
        ConnectedTransitive(specs, start, i, j);
      }
    }
  }

  /** The first unseen position is the smallest of its group. */
  lemma FirstOfGroup(group: seq<int>, members: set<int>, i: int, seen: set<int>)
    requires i in members && members !! seen && (forall k :: k in members ==> k >= 0) && forall k :: 0 <= k < i ==> k in seen
    requires forall k :: k in group <==> k in members
    requires forall a, b :: 0 <= a < b < |group| ==> group[a] < group[b]
    ensures group != [] && group[0] == i
  {
    assert i in group;
    assert group[0] in group;
    assert group[0] !in seen;
    var a :| 0 <= a < |group| && group[a] == i;
  }

  /** In a partition into components, two specifications share a group exactly when they are connected. */
  lemma SameGroupIff(specs: Specs, groups: seq<seq<int>>, a: nat, b: nat, i: int, j: int)
    requires forall a :: 0 <= a < |groups| ==> IsComponent(specs, groups[a])
    requires forall a, b, k :: 0 <= a < b < |groups| && k in groups[a] ==> k !in groups[b]
    requires a < |groups| && b < |groups| && i in groups[a] && j in groups[b]
    ensures a == b <==> Connected(specs, i, j)
  {
    assert IsComponent(specs, groups[a]);
  }
}
