/**
 * The package index and the dependency closure of deploy/sandbox-linux/rootfs/lock.py.
 * Relation fields are already split into groups of alternatives; a ValueError is a Failure.
 */
module PackageIndex {
  import opened Common
  import opened DebVersion

  datatype Alternative = Alternative(name: string, op: Relation, version: string)

  type Group = seq<Alternative>

  datatype Stanza = Stanza(package: string, architecture: string, hasDigest: bool, hasFilename: bool,
                           version: string, preDepends: seq<Group>, depends: seq<Group>, offers: seq<Group>)

  datatype Error = BadVersion | RootMissing(root: string) | Unsatisfiable(dependent: string, group: Group)

  datatype Result<+T> = Success(value: T) | Failure(error: Error)

  /** Only amd64 and architecture-independent stanzas that can be downloaded and checked are used. */
  predicate Usable(s: Stanza) {
    s.package != "" && (s.architecture == "amd64" || s.architecture == "all") && s.hasDigest && s.hasFilename
  }

  // ----- the highest version of every name

  /** v is at least as high as w; a text equal to itself needs no comparison. */
  ghost predicate AtLeast(v: string, w: string) {
    v == w || (CompareVersions(v, w).Some? && CompareVersions(v, w).value >= 0)
  }

  /** For every name with a usable stanza, one that is at least as high as all of them; no other name. */
  ghost predicate Highest(stanzas: seq<Stanza>, packages: map<string, Stanza>) {
    && (forall s :: s in stanzas && Usable(s) ==>
          s.package in packages && AtLeast(packages[s.package].version, s.version))
    && (forall n :: n in packages ==> packages[n] in stanzas && Usable(packages[n]) && packages[n].package == n)
  }

  lemma AtLeastTransitive(u: string, v: string, w: string)
    requires AtLeast(u, v) && AtLeast(v, w)
    ensures AtLeast(u, w)
  {
    if u != v && v != w {
      CompareAntisymmetric(u, v);
      CompareAntisymmetric(v, w);
      CompareAntisymmetric(u, w);
      CompareTransitive(w, v, u);
    }
  }

  /** Whatever the order in which the same stanzas are read, the chosen versions are the same version. */
  lemma HighestIsOrderIndependent(xs: seq<Stanza>, ys: seq<Stanza>, p: map<string, Stanza>, q: map<string, Stanza>)
    requires Highest(xs, p) && Highest(ys, q)
    requires forall s :: s in xs <==> s in ys
    ensures p.Keys == q.Keys
    ensures forall n :: n in p ==>
              p[n].version == q[n].version || CompareVersions(p[n].version, q[n].version) == Some(0)
  {
    forall n | n in p ensures n in q { assert p[n] in ys; }
    forall n | n in q ensures n in p { assert q[n] in xs; }
    forall n | n in p
      ensures p[n].version == q[n].version || CompareVersions(p[n].version, q[n].version) == Some(0)
    {
      assert p[n] in ys && q[n] in xs;
      assert AtLeast(p[n].version, q[n].version) && AtLeast(q[n].version, p[n].version);
      CompareAntisymmetric(p[n].version, q[n].version);
    }
  }

  ghost predicate Higher(v: string, w: string) { CompareVersions(v, w).Some? && CompareVersions(v, w).value > 0 }

  /** s is the k-th stanza, and every usable one of its name in front of it is of a lower version. */
  ghost predicate Leads(stanzas: seq<Stanza>, k: nat, s: Stanza) {
    && k < |stanzas| && stanzas[k] == s
    && forall j :: 0 <= j < k && Usable(stanzas[j]) && stanzas[j].package == s.package ==>
         Higher(s.version, stanzas[j].version)
  }

  /** Of several stanzas of the same version, the one that was read first is kept. */
  ghost predicate Earliest(stanzas: seq<Stanza>, packages: map<string, Stanza>) {
    forall n :: n in packages ==> exists k: nat :: Leads(stanzas, k, packages[n])
  }

  lemma EarliestMore(seen: seq<Stanza>, packages: map<string, Stanza>, s: Stanza)
    requires Earliest(seen, packages)
    ensures Earliest(seen + [s], packages)
  {
    hide CompareVersions, Usable;
    forall n | n in packages ensures exists k: nat :: Leads(seen + [s], k, packages[n]) {
      var k: nat :| Leads(seen, k, packages[n]);
      assert Leads(seen + [s], k, packages[n]);
    }
  }

  /** A stanza that is put in place is higher than everything of its name in front of it. */
  lemma EarliestNext(seen: seq<Stanza>, packages: map<string, Stanza>, s: Stanza)
    requires Highest(seen, packages) && Earliest(seen, packages)
    requires s.package in packages ==> Higher(s.version, packages[s.package].version)
    ensures Earliest(seen + [s], packages[s.package := s])
  {
    hide CompareVersions, Usable;
    EarliestMore(seen, packages, s);
    forall j | 0 <= j < |seen| && Usable(seen[j]) && seen[j].package == s.package
      ensures Higher(s.version, seen[j].version)
    {
      assert seen[j] in seen;
      HigherStill(s.version, packages[s.package].version, seen[j].version);
    }
    assert Leads(seen + [s], |seen|, s);
  }

  lemma HigherStill(u: string, v: string, w: string)
    requires Higher(u, v) && AtLeast(v, w)
    ensures Higher(u, w)
  {
    hide KeyOf, CompareKeys;
    if v != w {
      CompareAntisymmetric(u, v);
      CompareAntisymmetric(v, w);
      CompareAntisymmetric(u, w);
      CompareTransitive(w, v, u);
    }
  }

  /** The first loop of `Index.__init__`. */
  method CollectPackages(stanzas: seq<Stanza>) returns (r: Result<map<string, Stanza>>)
    ensures r.Success? ==> Highest(stanzas, r.value) && Earliest(stanzas, r.value)
    ensures r.Failure? ==> r.error == BadVersion
    ensures r.Failure? ==> exists s, t :: s in stanzas && t in stanzas && s.package == t.package &&
                                          !(WellFormed(s.version) && WellFormed(t.version))
  {
    hide CompareVersions, WellFormed, Usable, Highest, Earliest;
    var packages: map<string, Stanza> := map[];
    HighestOfNone();
    for i := 0 to |stanzas|
      invariant Highest(stanzas[..i], packages) && Earliest(stanzas[..i], packages)
    {
      var s := stanzas[i];
      assert stanzas[..i + 1] == stanzas[..i] + [s];
      HighestMore(stanzas[..i], packages, s);
      EarliestMore(stanzas[..i], packages, s);
      if Usable(s) {
        if s.package !in packages {
          EarliestNext(stanzas[..i], packages, s);
          packages := packages[s.package := s];
        } else {
          var current := packages[s.package];
          assert current in stanzas[..i];
          var c := CompareVersionsOf(s.version, current.version);
          if c.None? {
            NoneMeans(s.version, current.version);
            assert s in stanzas && current in stanzas;
            return Failure(BadVersion);
          }
          CompareAntisymmetric(s.version, current.version);
          if c.value > 0 {
            HigherReplaces(stanzas[..i], packages, s);
            EarliestNext(stanzas[..i], packages, s);
            packages := packages[s.package := s];
          }
        }
      }
    }
    assert stanzas[..|stanzas|] == stanzas;
    r := Success(packages);
  }

  lemma HighestOfNone()
    ensures Highest([], map[]) && Earliest([], map[])
  {
  }

  /** The cases in which reading one more stanza needs no replacement. */
  lemma HighestMore(seen: seq<Stanza>, packages: map<string, Stanza>, s: Stanza)
    requires Highest(seen, packages)
    ensures !Usable(s) ==> Highest(seen + [s], packages)
    ensures Usable(s) && s.package !in packages ==> Highest(seen + [s], packages[s.package := s])
    ensures Usable(s) && s.package in packages && AtLeast(packages[s.package].version, s.version) ==> Highest(seen + [s], packages)
    ensures s.package in packages ==> packages[s.package] in seen && packages[s.package].package == s.package
  {
    hide AtLeast;
    assert AtLeast(s.version, s.version) by {
      AtLeastItself(s.version);
    }
  }

  lemma NoneMeans(v: string, w: string)
    requires CompareVersions(v, w).None?
    ensures !(WellFormed(v) && WellFormed(w))
  {
  }

  lemma AtLeastItself(v: string)
    ensures AtLeast(v, v)
  {
  }

  /** Putting a higher stanza in place keeps it above everything that was below the one it replaces. */
  lemma HigherReplaces(seen: seq<Stanza>, packages: map<string, Stanza>, s: Stanza)
    requires Highest(seen, packages) && Usable(s) && s.package in packages
    requires CompareVersions(packages[s.package].version, s.version).Some?
    requires CompareVersions(packages[s.package].version, s.version).value < 0
    ensures Highest(seen + [s], packages[s.package := s])
  {
    hide CompareVersions, Usable;
    var current := packages[s.package].version;
    CompareAntisymmetric(current, s.version);
    assert AtLeast(s.version, current);
    assert AtLeast(s.version, s.version) by { AtLeastItself(s.version); }
    hide AtLeast;
    forall t | t in seen + [s] && Usable(t) && t.package == s.package
      ensures AtLeast(s.version, t.version)
    {
      if t in seen {
        AtLeastTransitive(s.version, current, t.version);
      }
    }
  }

  // ----- virtual packages

  ghost predicate Sorted(names: seq<string>) {
    forall i, j :: 0 <= i < j < |names| ==> TextLe(names[i], names[j])
  }

  /** Appending a name and sorting again. */
  function Insert(names: seq<string>, name: string): seq<string> {
    if names == [] then [name]
    else if TextLe(name, names[0]) then [name] + names
    else [names[0]] + Insert(names[1..], name)
  }

  lemma {:induction false} InsertMeaning(names: seq<string>, name: string)
    requires Sorted(names)
    ensures Sorted(Insert(names, name))
    ensures forall n :: n in Insert(names, name) <==> n in names || n == name
  {
    if names == [] {
    } else if TextLe(name, names[0]) {
      forall j | 0 <= j < |names| ensures TextLe(name, names[j]) {
        TextOrder(name, names[0], names[j]);
      }
    } else {
      var tail := Insert(names[1..], name);
      InsertMeaning(names[1..], name);
      assert names == [names[0]] + names[1..];
      TextOrder(names[0], name, name);
      forall j | 0 <= j < |tail| ensures TextLe(names[0], tail[j]) {
        assert tail[j] in names[1..] || tail[j] == name;
      }
    }
  }

  ghost predicate Provides(s: Stanza, virtual: string) {
    exists g, a :: g in s.offers && a in g && a.name == virtual
  }

  datatype Index = Index(packages: map<string, Stanza>, providers: map<string, seq<string>>) {

    /** The provider lists are sorted and name exactly the packages that provide the virtual name. */
    ghost predicate Valid() {
      && SortedLists(providers)
      && forall v, n :: Listed(providers, v, n) <==> n in packages && Provides(packages[n], v)
    }

    function ProvidersOf(name: string): seq<string> {
      if name in providers then providers[name] else []
    }
  }

  ghost predicate Listed(providers: map<string, seq<string>>, virtual: string, name: string) {
    virtual in providers && name in providers[virtual]
  }

  ghost predicate SortedLists(providers: map<string, seq<string>>) {
    forall v :: v in providers ==> Sorted(providers[v])
  }

  /** The names of a Provides field, group after group. */
  function Virtuals(groups: seq<Group>): (r: seq<string>)
    ensures forall v :: v in r <==> exists g, a :: g in groups && a in g && a.name == v
  {
    if groups == [] then []
    else
      var head := NamesOf(groups[0]);
      var tail := Virtuals(groups[1..]);
      assert forall g :: g in groups <==> g == groups[0] || g in groups[1..];
      head + tail
  }

  function NamesOf(group: Group): (r: seq<string>)
    ensures forall v :: v in r <==> exists a :: a in group && a.name == v
  {
    if group == [] then []
    else
      assert forall a :: a in group <==> a == group[0] || a in group[1..];
      [group[0].name] + NamesOf(group[1..])
  }

  /** `Index.__init__`. */
  method BuildIndex(stanzas: seq<Stanza>) returns (r: Result<Index>)
    ensures r.Success? ==> Highest(stanzas, r.value.packages) && Earliest(stanzas, r.value.packages) && r.value.Valid()
    ensures r.Failure? ==> r.error == BadVersion
  {
    var collected := CollectPackages(stanzas);
    if collected.Failure? {
      return Failure(BadVersion);
    }
    var providers := CollectProviders(collected.value);
    r := Success(Index(collected.value, providers));
  }

  method CollectProviders(packages: map<string, Stanza>) returns (providers: map<string, seq<string>>)
    ensures Index(packages, providers).Valid()
  {
    providers := map[];
    var left := packages.Keys;
    while left != {}
      invariant left <= packages.Keys
      invariant SortedLists(providers)
      invariant forall v, n :: Listed(providers, v, n) <==> n in packages && n !in left && Provides(packages[n], v)
      decreases |left|
    {
      var name :| name in left;
      providers := AddProvider(packages[name], providers, name);
      left := left - {name};
    }
  }

  method AddProvider(stanza: Stanza, before: map<string, seq<string>>, name: string)
    returns (providers: map<string, seq<string>>)
    requires SortedLists(before)
    ensures SortedLists(providers)
    ensures forall v, n :: Listed(providers, v, n) <==> Listed(before, v, n) || (n == name && Provides(stanza, v))
  {
    providers := before;
    var virtuals := Virtuals(stanza.offers);
    for i := 0 to |virtuals|
      invariant SortedLists(providers)
      invariant forall v, n :: Listed(providers, v, n) <==> Listed(before, v, n) || (n == name && v in virtuals[..i])
    {
      providers := ListUnder(providers, virtuals[i], name);
      assert virtuals[..i + 1] == virtuals[..i] + [virtuals[i]];
    }
    assert virtuals[..|virtuals|] == virtuals;
    assert forall v :: v in virtuals <==> Provides(stanza, v);
  }

  /** `setdefault(virtual, []).append(name)`, with the list kept sorted. */
  function ListUnder(providers: map<string, seq<string>>, virtual: string, name: string): (r: map<string, seq<string>>)
    requires SortedLists(providers)
    ensures SortedLists(r)
    ensures forall v, n :: Listed(r, v, n) <==> Listed(providers, v, n) || (v == virtual && n == name)
  {
    var names := if virtual in providers then providers[virtual] else [];
    InsertMeaning(names, name);
    providers[virtual := Insert(names, name)]
  }

  // ----- the dependency closure

  function GroupsOf(s: Stanza): seq<Group> { s.preDepends + s.depends }

  /** An alternative holds: the named package is chosen in a fitting version, or a provider is chosen. */
  ghost predicate Holds(index: Index, chosen: map<string, Stanza>, a: Alternative) {
    || (a.name in chosen && Satisfies(chosen[a.name].version, a.op, a.version) == Some(true))
    || (a.op == Any && exists p :: p in index.ProvidersOf(a.name) && p in chosen)
  }

  ghost predicate GroupHolds(index: Index, chosen: map<string, Stanza>, group: Group) {
    exists a :: a in group && Holds(index, chosen, a)
  }

  ghost predicate Closed(index: Index, chosen: map<string, Stanza>, name: string)
    requires name in chosen
  {
    forall g :: g in GroupsOf(chosen[name]) ==> GroupHolds(index, chosen, g)
  }

  /** `provided`; None where the version comparison raises. */
  function Provided(index: Index, chosen: map<string, Stanza>, a: Alternative): (r: Option<bool>)
    ensures r.Some? ==> (r.value <==> Holds(index, chosen, a))
    ensures r.None? ==> a.name in chosen && Satisfies(chosen[a.name].version, a.op, a.version).None?
  {
    var named := if a.name in chosen then Satisfies(chosen[a.name].version, a.op, a.version) else Some(false);
    if named != Some(false) then named
    else
      var providers := index.ProvidersOf(a.name);
      Some(a.op == Any && exists i :: 0 <= i < |providers| && providers[i] in chosen)
  }

  /** `any(provided(...) for ... in group)`, stopping at the first that holds. */
  function AnyProvided(index: Index, chosen: map<string, Stanza>, group: Group): (r: Option<bool>)
    ensures r.Some? ==> (r.value <==> GroupHolds(index, chosen, group))
    ensures r.None? ==> exists a :: a in group && a.name in chosen &&
                                    Satisfies(chosen[a.name].version, a.op, a.version).None?
  {
    if group == [] then Some(false)
    else
      assert forall a :: a in group <==> a == group[0] || a in group[1..];
      match Provided(index, chosen, group[0])
      case None => None
      case Some(true) => Some(true)
      case Some(false) => AnyProvided(index, chosen, group[1..])
  }

  /** `candidate`: Some(None) when the alternative cannot be met, None when the comparison raises. */
  function Candidate(index: Index, a: Alternative): Option<Option<string>> {
    if a.name in index.packages then
      match Satisfies(index.packages[a.name].version, a.op, a.version)
      case None => None
      case Some(fits) => Some(if fits then Some(a.name) else None)
    else if a.op == Any && index.ProvidersOf(a.name) != [] then Some(Some(index.ProvidersOf(a.name)[0]))
    else Some(None)
  }

  /** A candidate comes from the index and, once chosen, meets its alternative. */
  lemma CandidateHolds(index: Index, a: Alternative, p: string, chosen: map<string, Stanza>)
    requires index.Valid() && Candidate(index, a) == Some(Some(p))
    ensures p in index.packages
    ensures p in chosen && chosen[p] == index.packages[p] ==> Holds(index, chosen, a)
  {
    if a.name !in index.packages {
      assert index.ProvidersOf(a.name)[0] == p;
      assert Listed(index.providers, a.name, p);
    }
  }

  /** No candidate means that not even the whole index meets the alternative. */
  lemma NoCandidate(index: Index, a: Alternative)
    requires Candidate(index, a) == Some(None)
    ensures !Holds(index, index.packages, a)
  {
  }

  /** The loop over the alternatives of one group. */
  function Pick(index: Index, group: Group): Option<Option<string>> {
    if group == [] then Some(None)
    else
      match Candidate(index, group[0])
      case None => None
      case Some(Some(p)) => Some(Some(p))
      case Some(None) => Pick(index, group[1..])
  }

  lemma {:induction false} PickMeaning(index: Index, group: Group)
    ensures Pick(index, group).Some? && Pick(index, group).value.Some? ==>
              exists a :: a in group && Candidate(index, a) == Pick(index, group)
    ensures Pick(index, group) == Some(None) ==> !GroupHolds(index, index.packages, group)
    ensures Pick(index, group).None? ==> exists a :: a in group && Raises(index, a)
  {
    if group != [] {
      var head, tail := group[0], group[1..];
      assert forall a :: a in group <==> a == head || a in tail;
      match Candidate(index, head) {
        case None => assert Raises(index, head);
        case Some(Some(p)) =>
        case Some(None) =>
          NoCandidate(index, head);
          PickMeaning(index, tail);
          assert Pick(index, group) == Pick(index, tail);
      }
    }
  }

  ghost predicate Raises(index: Index, a: Alternative) {
    a.name in index.packages && Satisfies(index.packages[a.name].version, a.op, a.version).None?
  }

  /** n is what some dependency group of m resolves to. */
  ghost predicate DependsOn(index: Index, m: string, n: string) {
    m in index.packages && exists g, a :: g in GroupsOf(index.packages[m]) && a in g && Candidate(index, a) == Some(Some(n))
  }

  ghost predicate ReachableIn(index: Index, roots: seq<string>, n: string, steps: nat)
    decreases steps
  {
    if steps == 0 then n in roots
    else exists m :: ReachableIn(index, roots, m, steps - 1) && DependsOn(index, m, n)
  }

  ghost predicate Reachable(index: Index, roots: seq<string>, n: string) {
    exists steps: nat :: ReachableIn(index, roots, n, steps)
  }

  lemma ReachableStep(index: Index, roots: seq<string>, m: string, n: string)
    requires Reachable(index, roots, m) && DependsOn(index, m, n)
    ensures Reachable(index, roots, n)
  {
    var steps: nat :| ReachableIn(index, roots, m, steps);
    assert ReachableIn(index, roots, n, steps + 1);
  }

  ghost predicate Grows(small: map<string, Stanza>, large: map<string, Stanza>) {
    forall n :: n in small ==> n in large && large[n] == small[n]
  }

  lemma HoldsMonotone(index: Index, small: map<string, Stanza>, large: map<string, Stanza>, group: Group)
    requires Grows(small, large) && GroupHolds(index, small, group)
    ensures GroupHolds(index, large, group)
  {
    var a :| a in group && Holds(index, small, a);
    assert Holds(index, large, a);
  }

  lemma ClosedMonotone(index: Index, small: map<string, Stanza>, large: map<string, Stanza>, name: string)
    requires Grows(small, large) && name in small && Closed(index, small, name)
    ensures Closed(index, large, name)
  {
    forall g | g in GroupsOf(large[name]) ensures GroupHolds(index, large, g) {
      HoldsMonotone(index, small, large, g);
    }
  }

  /** What the worklist keeps: chosen packages come from the index, are reachable, and are closed once processed. */
  ghost predicate Worklist(index: Index, roots: seq<string>, chosen: map<string, Stanza>, open: set<string>) {
    && (forall n :: n in chosen ==> n in index.packages && chosen[n] == index.packages[n] && Reachable(index, roots, n))
    && (forall n :: n in chosen && n !in open ==> Closed(index, chosen, n))
  }

  ghost predicate AllHold(index: Index, chosen: map<string, Stanza>, groups: seq<Group>) {
    forall g :: g in groups ==> GroupHolds(index, chosen, g)
  }

  /** `add(picked, name)`: the group that asked for it holds, and nothing that held is lost. */
  lemma AddPicked(index: Index, roots: seq<string>, chosen: map<string, Stanza>, open: set<string>,
                  name: string, groups: seq<Group>, i: nat, p: string)
    requires index.Valid() && Worklist(index, roots, chosen, open)
    requires name in chosen && groups == GroupsOf(chosen[name]) && i < |groups| && AllHold(index, chosen, groups[..i])
    requires Pick(index, groups[i]) == Some(Some(p))
    ensures p in index.packages
    ensures var chosen' := chosen[p := index.packages[p]];
            && Grows(chosen, chosen')
            && Worklist(index, roots, chosen', if p in chosen then open else open + {p})
            && AllHold(index, chosen', groups[..i + 1])
  {
    hide Candidate, Pick, Satisfies, KeyOf, Reachable, Closed, Holds;
    PickMeaning(index, groups[i]);
    var a :| a in groups[i] && Candidate(index, a) == Some(Some(p));
    CandidateHolds(index, a, p, chosen);
    assert groups[i] in groups;
    assert DependsOn(index, name, p);
    ReachableStep(index, roots, name, p);
    var chosen' := chosen[p := index.packages[p]];
    CandidateHolds(index, a, p, chosen');
    AllHoldMore(index, chosen, chosen', groups, i);
    hide GroupHolds, AllHold, DependsOn;
    forall n | n in chosen && Closed(index, chosen, n) ensures Closed(index, chosen', n) {
      ClosedMonotone(index, chosen, chosen', n);
    }
  }

  lemma AllHoldMore(index: Index, small: map<string, Stanza>, large: map<string, Stanza>, groups: seq<Group>, i: nat)
    requires Grows(small, large) && i < |groups| && AllHold(index, small, groups[..i]) && GroupHolds(index, large, groups[i])
    ensures AllHold(index, large, groups[..i + 1])
  {
    hide GroupHolds;
    assert groups[..i + 1] == groups[..i] + [groups[i]];
    forall g | g in groups[..i] ensures GroupHolds(index, large, g) {
      HoldsMonotone(index, small, large, g);
    }
  }

  // ----- the order in which packages are chosen

  /** The packages chosen up to the n-th. */
  function First(index: Index, order: seq<string>, n: nat): map<string, Stanza>
    requires n <= |order|
  {
    map p | p in order[..n] && p in index.packages :: index.packages[p]
  }

  /** p is what the alternative stands for: the named package if it fits, else the first of its providers. */
  ghost predicate StandsFor(index: Index, a: Alternative, p: string) {
    if a.name in index.packages then p == a.name && Satisfies(index.packages[a.name].version, a.op, a.version) == Some(true)
    else
      var providers := index.ProvidersOf(a.name);
      a.op == Any && p in providers && forall q :: q in providers ==> TextLe(p, q)
  }

  /** Nothing in the index is what the alternative stands for. */
  ghost predicate StandsForNothing(index: Index, a: Alternative) {
    if a.name in index.packages then Satisfies(index.packages[a.name].version, a.op, a.version) == Some(false)
    else a.op != Any || index.ProvidersOf(a.name) == []
  }

  /** p is what the first workable alternative of the group stands for. */
  ghost predicate Picks(index: Index, group: Group, p: string) {
    exists k :: 0 <= k < |group| && StandsFor(index, group[k], p) && forall l :: 0 <= l < k ==> StandsForNothing(index, group[l])
  }

  lemma CandidateMeans(index: Index, a: Alternative)
    requires index.Valid()
    ensures Candidate(index, a).Some? && Candidate(index, a).value.Some? ==> StandsFor(index, a, Candidate(index, a).value.value)
    ensures Candidate(index, a) == Some(None) ==> StandsForNothing(index, a)
  {
    hide Satisfies;
    if a.name in index.providers && index.ProvidersOf(a.name) != [] {
      var providers := index.ProvidersOf(a.name);
      assert Sorted(providers);
      TextOrder(providers[0], providers[0], providers[0]);
    }
  }

  lemma {:induction false} PickPicks(index: Index, group: Group)
    requires index.Valid() && Pick(index, group).Some? && Pick(index, group).value.Some?
    ensures Picks(index, group, Pick(index, group).value.value)
  {
    hide Candidate, StandsFor, StandsForNothing;
    CandidateMeans(index, group[0]);
    var p := Pick(index, group).value.value;
    if Candidate(index, group[0]) == Some(None) {
      PickPicks(index, group[1..]);
      var k :| 0 <= k < |group[1..]| && StandsFor(index, group[1..][k], p) &&
        forall l :: 0 <= l < k ==> StandsForNothing(index, group[1..][l]);
      assert group[k + 1] == group[1..][k];
      assert forall l :: 1 <= l < k + 1 ==> group[l] == group[1..][l - 1];
    }
  }

  /**
   * What was added, in order: first the roots, then for every addition the position in `order` of the package that
   * needed it and the number of its group.
   */
  datatype Trail = Trail(roots: nat, order: seq<string>, why: seq<(nat, nat)>)

  predicate Before(x: (nat, nat), y: (nat, nat)) { x.0 < y.0 || (x.0 == y.0 && x.1 < y.1) }

  function GroupAt(index: Index, t: Trail, at: (nat, nat)): Group
    requires at.0 < |t.order| && t.order[at.0] in index.packages
    requires at.1 < |GroupsOf(index.packages[t.order[at.0]])|
  {
    GroupsOf(index.packages[t.order[at.0]])[at.1]
  }

  ghost predicate IsGroup(index: Index, t: Trail, at: (nat, nat), n: nat) {
    at.0 < n <= |t.order| && t.order[at.0] in index.packages && at.1 < |GroupsOf(index.packages[t.order[at.0]])|
  }

  /** Every group in front of `at` holds in the first n packages. */
  ghost predicate HoldsUpTo(index: Index, t: Trail, n: nat, at: (nat, nat))
    requires n <= |t.order|
  {
    forall w :: IsGroup(index, t, w, n) && Before(w, at) ==> GroupHolds(index, First(index, t.order, n), GroupAt(index, t, w))
  }

  /** The k-th addition: its group came next, did not hold in what had been chosen, and picks exactly this package. */
  ghost predicate Needed(index: Index, t: Trail, k: nat)
    requires k < |t.order| == |t.why|
  {
    && IsGroup(index, t, t.why[k], k) && HoldsUpTo(index, t, k, t.why[k])
    && !GroupHolds(index, First(index, t.order, k), GroupAt(index, t, t.why[k]))
    && Picks(index, GroupAt(index, t, t.why[k]), t.order[k])
  }

  /** The additions up to the group `at`: nothing is chosen twice, nothing without need, and groups are met in turn. */
  ghost predicate Followed(index: Index, t: Trail, at: (nat, nat)) {
    && t.roots <= |t.order| == |t.why|
    && (forall k, l :: 0 <= k < l < |t.order| ==> t.order[k] != t.order[l])
    && (forall k :: 0 <= k < |t.order| ==> t.order[k] in index.packages)
    && (forall k :: t.roots <= k < |t.order| ==> Needed(index, t, k) && Before(t.why[k], at))
    && (forall k, l :: t.roots <= k < l < |t.order| ==> Before(t.why[k], t.why[l]))
    && HoldsUpTo(index, t, |t.order|, at)
  }

  /** The group at hand holds: on to the next one. */
  lemma FollowNext(index: Index, t: Trail, at: (nat, nat))
    requires Followed(index, t, at) && IsGroup(index, t, at, |t.order|)
    requires GroupHolds(index, First(index, t.order, |t.order|), GroupAt(index, t, at))
    ensures Followed(index, t, (at.0, at.1 + 1))
  {
    hide GroupHolds, First, Needed;
  }

  /** After the last group of a package comes the first of the next package. */
  lemma FollowPackage(index: Index, t: Trail, at: nat)
    requires at < |t.order| && t.order[at] in index.packages
    requires Followed(index, t, (at, |GroupsOf(index.packages[t.order[at]])|))
    ensures Followed(index, t, (at + 1, 0))
  {
    hide GroupHolds, First, Needed, GroupsOf;
  }

  function Added(t: Trail, p: string, at: (nat, nat)): Trail { t.(order := t.order + [p], why := t.why + [at]) }

  /** What was said of earlier additions does not depend on later ones. */
  lemma NeededStays(index: Index, t: Trail, p: string, at: (nat, nat), k: nat)
    requires k < |t.order| == |t.why| && Needed(index, t, k)
    ensures Needed(index, Added(t, p, at), k)
  {
    hide GroupHolds, Picks, GroupsOf;
    var u := Added(t, p, at);
    assert u.why[k] == t.why[k] && u.order[k] == t.order[k];
    FirstStays(index, t.order, p, k);
    hide First;
    forall w: (nat, nat) | IsGroup(index, u, w, k) ensures IsGroup(index, t, w, k) && GroupAt(index, u, w) == GroupAt(index, t, w) {
      assert u.order[w.0] == t.order[w.0];
    }
    assert u.order[t.why[k].0] == t.order[t.why[k].0];
  }

  lemma FirstStays(index: Index, order: seq<string>, p: string, n: nat)
    requires n <= |order|
    ensures First(index, order + [p], n) == First(index, order, n)
  {
    assert (order + [p])[..n] == order[..n];
  }

  lemma FirstMore(index: Index, order: seq<string>, p: string)
    requires p in index.packages
    ensures var n := |order|; First(index, order + [p], n + 1) == First(index, order, n)[p := index.packages[p]]
    ensures First(index, order, |order|).Keys == (set q | q in order && q in index.packages)
    ensures Grows(First(index, order, |order|), First(index, order + [p], |order| + 1)) || p in order
  {
    assert (order + [p])[..|order| + 1] == order + [p] && order[..|order|] == order;
  }

  /** The group at hand does not hold and picks p: p is added, and the group holds. */
  lemma FollowAdd(index: Index, t: Trail, at: (nat, nat), p: string)
    requires Followed(index, t, at) && IsGroup(index, t, at, |t.order|)
    requires p in index.packages && p !in t.order
    requires !GroupHolds(index, First(index, t.order, |t.order|), GroupAt(index, t, at)) && Picks(index, GroupAt(index, t, at), p)
    requires GroupHolds(index, First(index, t.order, |t.order|)[p := index.packages[p]], GroupAt(index, t, at))
    ensures Followed(index, Added(t, p, at), (at.0, at.1 + 1))
  {
    var u, n := Added(t, p, at), |t.order|;
    hide GroupHolds, Picks, GroupsOf, First, Needed, HoldsUpTo, IsGroup;
    AddedIsNeeded(index, t, at, p);
    AddedHolds(index, t, at, p);
    forall k | t.roots <= k < n ensures Needed(index, u, k) && Before(u.why[k], at) && u.why[k] == t.why[k] {
      NeededStays(index, t, p, at, k);
    }
    assert forall k :: 0 <= k < n ==> u.order[k] == t.order[k] && u.order[k] in t.order;
    assert u.why[n] == at && u.order[n] == p;
  }

  lemma SameGroups(index: Index, t: Trail, p: string, at: (nat, nat), w: (nat, nat), n: nat)
    requires n <= |t.order|
    ensures IsGroup(index, Added(t, p, at), w, n) <==> IsGroup(index, t, w, n)
    ensures IsGroup(index, t, w, n) ==> GroupAt(index, Added(t, p, at), w) == GroupAt(index, t, w)
  {
    hide GroupsOf;
    assert w.0 < n ==> Added(t, p, at).order[w.0] == t.order[w.0];
  }

  lemma AddedIsNeeded(index: Index, t: Trail, at: (nat, nat), p: string)
    requires IsGroup(index, t, at, |t.order|) && |t.order| == |t.why| && HoldsUpTo(index, t, |t.order|, at)
    requires !GroupHolds(index, First(index, t.order, |t.order|), GroupAt(index, t, at)) && Picks(index, GroupAt(index, t, at), p)
    ensures Needed(index, Added(t, p, at), |t.order|)
  {
    var u, n := Added(t, p, at), |t.order|;
    FirstStays(index, t.order, p, n);
    hide GroupHolds, Picks, GroupsOf, First, GroupAt, IsGroup;
    assert u.order[n] == p && u.why[n] == at;
    SameGroups(index, t, p, at, at, n);
    forall w: (nat, nat) | IsGroup(index, u, w, n) && Before(w, at)
      ensures GroupHolds(index, First(index, u.order, n), GroupAt(index, u, w))
    {
      SameGroups(index, t, p, at, w, n);
    }
  }

  lemma AddedHolds(index: Index, t: Trail, at: (nat, nat), p: string)
    requires IsGroup(index, t, at, |t.order|) && HoldsUpTo(index, t, |t.order|, at)
    requires p in index.packages && p !in t.order
    requires GroupHolds(index, First(index, t.order, |t.order|)[p := index.packages[p]], GroupAt(index, t, at))
    ensures HoldsUpTo(index, Added(t, p, at), |t.order| + 1, (at.0, at.1 + 1))
  {
    var u, n := Added(t, p, at), |t.order|;
    FirstMore(index, t.order, p);
    hide GroupHolds, GroupsOf, First, GroupAt;
    forall w: (nat, nat) | IsGroup(index, u, w, n + 1) && Before(w, (at.0, at.1 + 1))
      ensures GroupHolds(index, First(index, u.order, n + 1), GroupAt(index, u, w))
    {
      SameGroups(index, t, p, at, w, n);
      assert IsGroup(index, u, w, n);
      if w != at {
        HoldsMonotone(index, First(index, t.order, n), First(index, u.order, n + 1), GroupAt(index, t, w));
      }
    }
  }

  /** What is done about one group: nothing if it holds, and otherwise its first workable alternative is added. */
  ghost predicate Met(index: Index, group: Group, chosen0: map<string, Stanza>, queue0: seq<string>,
                      chosen: map<string, Stanza>, queue: seq<string>) {
    && (GroupHolds(index, chosen0, group) ==> chosen == chosen0 && queue == queue0)
    && (!GroupHolds(index, chosen0, group) ==>
          exists p :: Picks(index, group, p) && p in index.packages && p !in chosen0 &&
                      chosen == chosen0[p := index.packages[p]] && queue == queue0 + [p])
    && GroupHolds(index, chosen, group)
  }

  lemma MetGrows(index: Index, group: Group, chosen0: map<string, Stanza>, queue0: seq<string>,
                 chosen: map<string, Stanza>, queue: seq<string>)
    requires Met(index, group, chosen0, queue0, chosen, queue)
    ensures Grows(chosen0, chosen) && ((chosen == chosen0 && queue == queue0) || chosen0.Keys < chosen.Keys)
  {
    hide GroupHolds, Picks;
  }

  /** One group of a chosen package: nothing to do, or a package to add, or a reason to give up. */
  method MeetGroup(index: Index, roots: seq<string>, name: string, groups: seq<Group>, i: nat,
                   chosen0: map<string, Stanza>, queue0: seq<string>)
    returns (failure: Option<Error>, chosen: map<string, Stanza>, queue: seq<string>)
    requires index.Valid() && name in chosen0 && groups == GroupsOf(chosen0[name]) && i < |groups|
    requires Worklist(index, roots, chosen0, Elements(queue0) + {name}) && Elements(queue0) <= chosen0.Keys
    requires AllHold(index, chosen0, groups[..i])
    ensures failure.None? ==> Met(index, groups[i], chosen0, queue0, chosen, queue) && Elements(queue) <= chosen.Keys
    ensures failure.None? ==> Worklist(index, roots, chosen, Elements(queue) + {name}) && AllHold(index, chosen, groups[..i + 1])
    ensures failure.Some? ==> chosen == chosen0 && queue == queue0 && Stuck(index, chosen0, name, groups[i], failure.value)
  {
    hide AnyProvided, Provided, Pick, Candidate, Satisfies, GroupHolds, Holds, Reachable, Raises, Closed, Picks;
    failure, chosen, queue := None, chosen0, queue0;
    assert groups[i] in groups;
    var met := AnyProvided(index, chosen, groups[i]);
    if met.None? {
      RaisesInChosen(index, chosen, groups[i]);
      return Some(BadVersion), chosen, queue;
    }
    if met.value {
      assert groups[..i + 1] == groups[..i] + [groups[i]];
      return;
    }
    PickMeaning(index, groups[i]);
    var picked := Pick(index, groups[i]);
    if picked.None? {
      return Some(BadVersion), chosen, queue;
    }
    if picked.value.None? {
      return Some(Unsatisfiable(name, groups[i])), chosen, queue;
    }
    var p := picked.value.value;
    PickPicks(index, groups[i]);
    AddPicked(index, roots, chosen, Elements(queue) + {name}, name, groups, i, p);
    assert p in chosen ==> chosen[p := index.packages[p]] == chosen;
    LastHolds(index, chosen[p := index.packages[p]], groups, i);
    hide AllHold, Worklist;
    chosen := chosen[p := index.packages[p]];
    queue := queue + [p];
    assert Elements(queue) == Elements(queue0) + {p};
    assert Elements(queue) + {name} == Elements(queue0) + {name} + {p};
  }

  lemma LastHolds(index: Index, chosen: map<string, Stanza>, groups: seq<Group>, i: nat)
    requires i < |groups| && AllHold(index, chosen, groups[..i + 1])
    ensures GroupHolds(index, chosen, groups[i])
  {
    assert groups[..i + 1][i] == groups[i];
  }

  /** Why there is no going on at a group: not even the whole index meets it, or a comparison of versions raises. */
  ghost predicate Stuck(index: Index, chosen: map<string, Stanza>, name: string, group: Group, e: Error) {
    match e
    case RootMissing(_) => false
    case Unsatisfiable(n, g) => n == name && g == group && !GroupHolds(index, chosen, group) && !GroupHolds(index, index.packages, group)
    case BadVersion => exists a :: a in group && Raises(index, a)
  }

  lemma StuckExplained(index: Index, roots: seq<string>, chosen: map<string, Stanza>, name: string, group: Group, e: Error)
    requires Stuck(index, chosen, name, group, e)
    requires name in index.packages && Reachable(index, roots, name) && group in GroupsOf(index.packages[name])
    ensures FailureExplained(index, roots, e)
  {
    hide Raises, GroupHolds;
  }

  /** Where the trail stands, what has been chosen and what is queued, while package number `at` is processed. */
  ghost predicate OnTrail(index: Index, t: Trail, at: nat, i: nat, name: string, chosen: map<string, Stanza>, queue: seq<string>) {
    && Followed(index, t, (at, i)) && at < |t.order| && t.order[at] == name
    && chosen == First(index, t.order, |t.order|) && queue == t.order[at + 1..]
  }

  /** How the trail goes on over one group that could be met. */
  lemma TrailOverGroup(index: Index, t: Trail, at: nat, i: nat, name: string, groups: seq<Group>, chosen0: map<string, Stanza>, queue0: seq<string>,
                       chosen: map<string, Stanza>, queue: seq<string>) returns (t': Trail)
    requires OnTrail(index, t, at, i, name, chosen0, queue0)
    requires name in index.packages && groups == GroupsOf(index.packages[name]) && i < |groups|
    requires Met(index, groups[i], chosen0, queue0, chosen, queue)
    ensures OnTrail(index, t', at, i + 1, name, chosen, queue) && Extends(t, t')
  {
    hide GroupHolds, Picks, Followed;
    t' := t;
    assert IsGroup(index, t, (at, i), |t.order|) && GroupAt(index, t, (at, i)) == groups[i];
    if GroupHolds(index, chosen0, groups[i]) {
      FollowNext(index, t, (at, i));
    } else {
      var p :| Picks(index, groups[i], p) && p in index.packages && p !in chosen0 &&
        chosen == chosen0[p := index.packages[p]] && queue == queue0 + [p];
      FirstMore(index, t.order, p);
      assert p !in t.order;
      FollowAdd(index, t, (at, i), p);
      t' := Added(t, p, (at, i));
      assert t'.order[at + 1..] == queue0 + [p];
    }
  }

  /** The worklist, while the groups of the package `name` in front of the i-th have been met. */
  ghost predicate Underway(index: Index, roots: seq<string>, name: string, groups: seq<Group>, i: nat,
                           chosen: map<string, Stanza>, queue: seq<string>) {
    && name in chosen && groups == GroupsOf(chosen[name]) && i <= |groups|
    && Worklist(index, roots, chosen, Elements(queue) + {name}) && Elements(queue) <= chosen.Keys
    && AllHold(index, chosen, groups[..i])
  }

  /** What has become of the chosen packages since `chosen0`, `queue0` and `t`. */
  ghost predicate Later(chosen0: map<string, Stanza>, queue0: seq<string>, t: Trail,
                        chosen: map<string, Stanza>, queue: seq<string>, t': Trail) {
    Grows(chosen0, chosen) && Extends(t, t') && ((chosen == chosen0 && queue == queue0) || chosen0.Keys < chosen.Keys)
  }

  lemma LaterStill(chosen0: map<string, Stanza>, queue0: seq<string>, t: Trail, chosen: map<string, Stanza>, queue: seq<string>, t': Trail,
                   chosen'': map<string, Stanza>, queue'': seq<string>, t'': Trail)
    requires Later(chosen0, queue0, t, chosen, queue, t') && Later(chosen, queue, t', chosen'', queue'', t'')
    ensures Later(chosen0, queue0, t, chosen'', queue'', t'')
  {
  }

  lemma UnderwayStart(index: Index, roots: seq<string>, name: string, chosen: map<string, Stanza>, queue: seq<string>)
    requires name in chosen && Worklist(index, roots, chosen, Elements(queue) + {name}) && Elements(queue) <= chosen.Keys
    ensures Underway(index, roots, name, GroupsOf(chosen[name]), 0, chosen, queue)
  {
    hide GroupHolds, GroupsOf, Worklist, Elements;
  }

  lemma UnderwayAt(index: Index, roots: seq<string>, name: string, groups: seq<Group>, i: nat,
                   chosen: map<string, Stanza>, queue: seq<string>)
    requires Underway(index, roots, name, groups, i, chosen, queue)
    ensures name in chosen && groups == GroupsOf(chosen[name]) && i <= |groups|
    ensures name in index.packages && chosen[name] == index.packages[name] && Reachable(index, roots, name)
    ensures Worklist(index, roots, chosen, Elements(queue) + {name}) && Elements(queue) <= chosen.Keys
    ensures AllHold(index, chosen, groups[..i])
  {
    WorklistChosen(index, roots, chosen, Elements(queue) + {name});
    hide AllHold, GroupsOf, Worklist, Elements, Reachable;
  }

  lemma UnderwayNext(index: Index, roots: seq<string>, name: string, groups: seq<Group>, i: nat,
                     chosen0: map<string, Stanza>, queue0: seq<string>, chosen: map<string, Stanza>, queue: seq<string>, t: Trail, at: nat)
    returns (t': Trail)
    requires Underway(index, roots, name, groups, i, chosen0, queue0) && i < |groups|
    requires Met(index, groups[i], chosen0, queue0, chosen, queue) && Elements(queue) <= chosen.Keys
    requires Worklist(index, roots, chosen, Elements(queue) + {name}) && AllHold(index, chosen, groups[..i + 1])
    requires OnTrail(index, t, at, i, name, chosen0, queue0)
    ensures Underway(index, roots, name, groups, i + 1, chosen, queue)
    ensures OnTrail(index, t', at, i + 1, name, chosen, queue) && Later(chosen0, queue0, t, chosen, queue, t')
  {
    UnderwayAt(index, roots, name, groups, i, chosen0, queue0);
    MetGrows(index, groups[i], chosen0, queue0, chosen, queue);
    assert chosen[name] == chosen0[name];
    hide AllHold, GroupsOf, Worklist, Elements, Reachable, OnTrail, Met, Extends, Grows;
    t' := TrailOverGroup(index, t, at, i, name, groups, chosen0, queue0, chosen, queue);
  }

  lemma UnderwayDone(index: Index, roots: seq<string>, name: string, groups: seq<Group>,
                     chosen: map<string, Stanza>, queue: seq<string>, t: Trail, at: nat)
    requires Underway(index, roots, name, groups, |groups|, chosen, queue) && OnTrail(index, t, at, |groups|, name, chosen, queue)
    ensures Worklist(index, roots, chosen, Elements(queue)) && Elements(queue) <= chosen.Keys
    ensures Between(index, t, at + 1, chosen, queue)
  {
    hide GroupHolds, GroupsOf, Elements, Worklist, AllHold, OnTrail, Between, Closed, Reachable;
    UnderwayAt(index, roots, name, groups, |groups|, chosen, queue);
    assert groups[..|groups|] == groups;
    AllHoldMeansClosed(index, chosen, name);
    WorklistLess(index, roots, chosen, Elements(queue), name);
    PackageDone(index, t, at, name, chosen, queue);
  }

  /** One package taken from the queue: its groups, one after the other. */
  method ProcessPackage(index: Index, roots: seq<string>, name: string, chosen0: map<string, Stanza>, queue0: seq<string>,
                        ghost t: Trail, ghost at: nat)
    returns (failure: Option<Error>, chosen: map<string, Stanza>, queue: seq<string>, ghost t': Trail, ghost i': nat)
    requires index.Valid() && name in chosen0
    requires Worklist(index, roots, chosen0, Elements(queue0) + {name})
    requires Elements(queue0) <= chosen0.Keys
    requires OnTrail(index, t, at, 0, name, chosen0, queue0)
    ensures Later(chosen0, queue0, t, chosen, queue, t')
    ensures failure.None? ==> Worklist(index, roots, chosen, Elements(queue)) && Elements(queue) <= chosen.Keys
    ensures failure.None? ==> Between(index, t', at + 1, chosen, queue)
    ensures failure.Some? ==> FailureExplained(index, roots, failure.value) && Halted(index, t', (at, i'), failure.value)
  {
    LaterNot(chosen0, queue0, t);
    hide *;
    failure, chosen, queue, t', i' := None, chosen0, queue0, t, 0;
    var groups := GroupsOf(chosen[name]);
    UnderwayStart(index, roots, name, chosen, queue);
    for i := 0 to |groups|
      invariant Underway(index, roots, name, groups, i, chosen, queue)
      invariant OnTrail(index, t', at, i, name, chosen, queue)
      invariant Later(chosen0, queue0, t, chosen, queue, t')
    {
      UnderwayAt(index, roots, name, groups, i, chosen, queue);
      ghost var chosen1, queue1 := chosen, queue;
      i' := i;
      failure, chosen, queue := MeetGroup(index, roots, name, groups, i, chosen, queue);
      if failure.Some? {
        HaltsHere(index, t', at, i, name, failure.value, chosen1, queue1);
        StuckExplained(index, roots, chosen1, name, groups[i], failure.value);
        return;
      }
      ghost var t1 := UnderwayNext(index, roots, name, groups, i, chosen1, queue1, chosen, queue, t', at);
      LaterStill(chosen0, queue0, t, chosen1, queue1, t', chosen, queue, t1);
      t' := t1;
    }
    failure := None;
    UnderwayDone(index, roots, name, groups, chosen, queue, t', at);
  }

  lemma LaterNot(chosen: map<string, Stanza>, queue: seq<string>, t: Trail)
    ensures Later(chosen, queue, t, chosen, queue, t)
  {
  }

  lemma WorklistChosen(index: Index, roots: seq<string>, chosen: map<string, Stanza>, open: set<string>)
    requires Worklist(index, roots, chosen, open)
    ensures forall n :: n in chosen ==> n in index.packages && chosen[n] == index.packages[n] && Reachable(index, roots, n)
  {
  }

  lemma WorklistLess(index: Index, roots: seq<string>, chosen: map<string, Stanza>, open: set<string>, name: string)
    requires Worklist(index, roots, chosen, open + {name}) && name in chosen && Closed(index, chosen, name)
    ensures Worklist(index, roots, chosen, open)
  {
    hide Closed, Reachable;
  }

  ghost predicate Extends(t: Trail, t': Trail) { t'.roots == t.roots && t.order <= t'.order }

  /** Where the trail stands between two packages, `done` of which have been processed. */
  ghost predicate Between(index: Index, t: Trail, done: nat, chosen: map<string, Stanza>, queue: seq<string>) {
    && Followed(index, t, (done, 0)) && done <= |t.order|
    && chosen == First(index, t.order, |t.order|) && queue == t.order[done..]
  }

  lemma PackageDone(index: Index, t: Trail, at: nat, name: string, chosen: map<string, Stanza>, queue: seq<string>)
    requires name in chosen && name in index.packages && chosen[name] == index.packages[name]
    requires OnTrail(index, t, at, |GroupsOf(chosen[name])|, name, chosen, queue)
    ensures Between(index, t, at + 1, chosen, queue)
  {
    hide Followed, First, GroupsOf;
    FollowPackage(index, t, at);
  }

  /** The trail led to the group `at`, and there was no going on. */
  ghost predicate Halted(index: Index, t: Trail, at: (nat, nat), e: Error) {
    && Followed(index, t, at) && IsGroup(index, t, at, |t.order|)
    && Stuck(index, First(index, t.order, |t.order|), t.order[at.0], GroupAt(index, t, at), e)
  }

  lemma HaltsHere(index: Index, t: Trail, at: nat, i: nat, name: string, e: Error, chosen: map<string, Stanza>, queue: seq<string>)
    requires OnTrail(index, t, at, i, name, chosen, queue)
    requires name in index.packages && i < |GroupsOf(index.packages[name])|
    requires Stuck(index, chosen, name, GroupsOf(index.packages[name])[i], e)
    ensures Halted(index, t, (at, i), e)
  {
    hide Followed, Stuck, First;
  }

  lemma RaisesInChosen(index: Index, chosen: map<string, Stanza>, group: Group)
    requires forall n :: n in chosen ==> n in index.packages && chosen[n] == index.packages[n]
    requires AnyProvided(index, chosen, group).None?
    ensures exists a :: a in group && Raises(index, a)
  {
    var a :| a in group && a.name in chosen && Satisfies(chosen[a.name].version, a.op, a.version).None?;
    assert Raises(index, a);
  }

  lemma AllHoldMeansClosed(index: Index, chosen: map<string, Stanza>, name: string)
    requires name in chosen && AllHold(index, chosen, GroupsOf(chosen[name]))
    ensures Closed(index, chosen, name)
  {
  }

  function Elements(queue: seq<string>): set<string> { set n | n in queue }

  /** A failure is never premature. */
  ghost predicate FailureExplained(index: Index, roots: seq<string>, e: Error) {
    match e
    case RootMissing(root) => root in roots && root !in index.packages
    case Unsatisfiable(name, group) =>
      && name in index.packages && Reachable(index, roots, name) && group in GroupsOf(index.packages[name])
      && !GroupHolds(index, index.packages, group)
    case BadVersion =>
      exists n, g, a :: n in index.packages && Reachable(index, roots, n) && g in GroupsOf(index.packages[n]) &&
                        a in g && Raises(index, a)
  }

  lemma RootReachable(index: Index, roots: seq<string>, i: nat)
    requires i < |roots|
    ensures Reachable(index, roots, roots[i])
  {
    assert ReachableIn(index, roots, roots[i], 0);
  }

  lemma RootUnknown(index: Index, roots: seq<string>, i: nat)
    requires i < |roots| && roots[i] !in index.packages
    ensures FailureExplained(index, roots, RootMissing(roots[i]))
  {
  }

  /** Every root once, in order of first mention. */
  function Mentioned(roots: seq<string>): (r: seq<string>)
    ensures forall n :: n in r <==> n in roots
    ensures forall k, l :: 0 <= k < l < |r| ==> r[k] != r[l]
  {
    if roots == [] then []
    else
      var last, before := roots[|roots| - 1], Mentioned(roots[..|roots| - 1]);
      assert roots == roots[..|roots| - 1] + [last];
      if last in before then before else before + [last]
  }

  lemma MentionedNext(roots: seq<string>, i: nat)
    requires i < |roots|
    ensures Mentioned(roots[..i + 1]) ==
            if roots[i] in Mentioned(roots[..i]) then Mentioned(roots[..i]) else Mentioned(roots[..i]) + [roots[i]]
  {
    assert roots[..i + 1][..i] == roots[..i];
  }

  /** The roots enter first, whatever they depend on. */
  method AddRoots(index: Index, roots: seq<string>)
    returns (failure: Option<Error>, chosen: map<string, Stanza>, queue: seq<string>)
    ensures failure.None? ==> (set root | root in roots) <= chosen.Keys && Elements(queue) == chosen.Keys
    ensures failure.None? ==> Worklist(index, roots, chosen, Elements(queue))
    ensures failure.None? ==> queue == Mentioned(roots) && (forall n :: n in roots ==> n in index.packages)
    ensures failure.None? ==> chosen == First(index, queue, |queue|)
    ensures failure.Some? ==> FailureExplained(index, roots, failure.value) && failure.value.RootMissing?
    ensures failure.Some? ==> exists i :: 0 <= i < |roots| && failure.value == RootMissing(roots[i]) &&
                                roots[i] !in index.packages && forall j :: 0 <= j < i ==> roots[j] in index.packages
  {
    hide Closed, Reachable, FailureExplained, GroupsOf, Mentioned, First, Worklist;
    assert Worklist(index, roots, map[], {}) && Elements([]) == {} by { NothingChosen(index, roots); }
    chosen, queue := map[], [];
    assert Mentioned(roots[..0]) == [] by { NothingMentioned(); }
    for i := 0 to |roots|
      invariant forall j :: 0 <= j < i ==> roots[j] in chosen && roots[j] in index.packages
      invariant Elements(queue) == chosen.Keys
      invariant Worklist(index, roots, chosen, Elements(queue))
      invariant queue == Mentioned(roots[..i])
    {
      if roots[i] !in index.packages {
        RootUnknown(index, roots, i);
        return Some(RootMissing(roots[i])), chosen, queue;
      }
      MentionedNext(roots, i);
      if roots[i] !in chosen {
        RootReachable(index, roots, i);
        RootChosen(index, roots, chosen, queue, roots[i]);
        chosen := chosen[roots[i] := index.packages[roots[i]]];
        queue := queue + [roots[i]];
      }
    }
    assert roots[..|roots|] == roots;
    ChosenIsFirst(index, roots, chosen, queue);
    failure := None;
  }

  lemma NothingChosen(index: Index, roots: seq<string>)
    ensures Worklist(index, roots, map[], {}) && Elements([]) == {}
  {
  }

  lemma RootChosen(index: Index, roots: seq<string>, chosen: map<string, Stanza>, queue: seq<string>, root: string)
    requires Worklist(index, roots, chosen, Elements(queue)) && Elements(queue) == chosen.Keys
    requires root in index.packages && Reachable(index, roots, root)
    ensures var chosen' := chosen[root := index.packages[root]];
            Elements(queue + [root]) == chosen'.Keys && Worklist(index, roots, chosen', Elements(queue + [root]))
  {
    hide Closed, Reachable;
    assert Elements(queue + [root]) == Elements(queue) + {root};
  }

  lemma ChosenIsFirst(index: Index, roots: seq<string>, chosen: map<string, Stanza>, queue: seq<string>)
    requires Worklist(index, roots, chosen, Elements(queue)) && Elements(queue) == chosen.Keys
    ensures chosen == First(index, queue, |queue|)
  {
    hide Closed, Reachable;
    assert queue[..|queue|] == queue;
    assert forall n :: n in queue <==> n in Elements(queue);
  }

  lemma NothingMentioned()
    ensures Mentioned([]) == []
  {
  }

  /** The trail that consists of the roots. */
  lemma RootsFollowed(index: Index, order: seq<string>) returns (t: Trail)
    requires forall k, l :: 0 <= k < l < |order| ==> order[k] != order[l]
    requires forall k :: 0 <= k < |order| ==> order[k] in index.packages
    ensures Followed(index, t, (0, 0)) && t.order == order && t.roots == |order|
  {
    t := Trail(|order|, order, seq(|order|, k => (0, 0)));
  }

  /**
   * `resolve`.  The trail says in which order packages were chosen and for which group of which chosen package; at a
   * success it has passed all groups, at a failure it has come to the group that cannot be met.
   */
  method Resolve(index: Index, roots: seq<string>) returns (r: Result<map<string, Stanza>>, ghost t: Trail, ghost at: (nat, nat))
    requires index.Valid()
    ensures r.Success? ==> (set root | root in roots) <= r.value.Keys
    ensures r.Success? ==> forall n :: n in r.value ==>
                n in index.packages && r.value[n] == index.packages[n] && Reachable(index, roots, n)
    ensures r.Success? ==> forall n :: n in r.value ==> Closed(index, r.value, n)
    ensures r.Success? ==> at == (|t.order|, 0) && r.value == First(index, t.order, |t.order|)
    ensures !(r.Failure? && r.error.RootMissing?) ==>
              && (forall n :: n in roots ==> n in index.packages)
              && Followed(index, t, at) && Mentioned(roots) <= t.order && t.roots == |Mentioned(roots)|
    ensures r.Failure? ==> FailureExplained(index, roots, r.error)
    ensures r.Failure? && r.error.RootMissing? ==>
              exists i :: 0 <= i < |roots| && r.error == RootMissing(roots[i]) && roots[i] !in index.packages &&
                          forall j :: 0 <= j < i ==> roots[j] in index.packages
    ensures r.Failure? && !r.error.RootMissing? ==> Halted(index, t, at, r.error)
  {
    hide *;
    t, at := Trail(0, [], []), (0, 0);
    var failure, chosen, queue := AddRoots(index, roots);
    if failure.Some? {
      return Failure(failure.value), t, at;
    }
    t := RootsFollowed(index, queue);
    WayStart(index, roots, t, chosen, queue);
    ghost var done: nat := 0;
    while queue != []
      invariant Way(index, roots, t, done, chosen, queue)
      decreases Left(index, chosen), |queue|
    {
      var name := queue[0];
      WayAt(index, roots, t, done, chosen, queue);
      var failure, chosen', queue', t', i := ProcessPackage(index, roots, name, chosen, queue[1..], t, done);
      if failure.Some? {
        WayStops(index, roots, t, done, chosen, queue, queue[1..], chosen', queue', t', i, failure.value);
        return Failure(failure.value), t', (done, i);
      }
      WayNext(index, roots, t, done, chosen, queue, t', chosen', queue');
      chosen, queue, t, done := chosen', queue', t', done + 1;
    }
    WayDone(index, roots, t, done, chosen);
    r, at := Success(chosen), (done, 0);
  }

  /** The number of packages that are not chosen yet. */
  ghost function Left(index: Index, chosen: map<string, Stanza>): nat { |index.packages.Keys - chosen.Keys| }

  /** What holds whenever the next package is taken from the queue. */
  ghost predicate Way(index: Index, roots: seq<string>, t: Trail, done: nat, chosen: map<string, Stanza>, queue: seq<string>) {
    && (set root | root in roots) <= chosen.Keys && Elements(queue) <= chosen.Keys
    && Worklist(index, roots, chosen, Elements(queue)) && (forall n :: n in roots ==> n in index.packages)
    && Between(index, t, done, chosen, queue) && Mentioned(roots) <= t.order && t.roots == |Mentioned(roots)|
  }

  lemma WayStart(index: Index, roots: seq<string>, t: Trail, chosen: map<string, Stanza>, queue: seq<string>)
    requires (set root | root in roots) <= chosen.Keys && Elements(queue) == chosen.Keys
    requires Worklist(index, roots, chosen, Elements(queue)) && (forall n :: n in roots ==> n in index.packages)
    requires queue == Mentioned(roots) && chosen == First(index, queue, |queue|)
    requires Followed(index, t, (0, 0)) && t.order == queue && t.roots == |queue|
    ensures Way(index, roots, t, 0, chosen, queue)
  {
    hide Worklist, Followed, First, Elements, Mentioned;
  }

  lemma WayAt(index: Index, roots: seq<string>, t: Trail, done: nat, chosen: map<string, Stanza>, queue: seq<string>)
    requires Way(index, roots, t, done, chosen, queue) && queue != []
    ensures queue[0] in chosen && OnTrail(index, t, done, 0, queue[0], chosen, queue[1..])
    ensures Elements(queue[1..]) <= chosen.Keys && Worklist(index, roots, chosen, Elements(queue[1..]) + {queue[0]})
  {
    TakeFirst(queue);
    assert queue[0] in Elements(queue);
    hide Worklist, Followed, First, Elements, Mentioned;
  }

  lemma WayNext(index: Index, roots: seq<string>, t: Trail, done: nat, chosen: map<string, Stanza>, queue: seq<string>,
                t': Trail, chosen': map<string, Stanza>, queue': seq<string>)
    requires Way(index, roots, t, done, chosen, queue) && queue != [] && Later(chosen, queue[1..], t, chosen', queue', t')
    requires Worklist(index, roots, chosen', Elements(queue')) && Elements(queue') <= chosen'.Keys
    requires Between(index, t', done + 1, chosen', queue')
    ensures Way(index, roots, t', done + 1, chosen', queue')
    ensures Left(index, chosen') < Left(index, chosen) || (Left(index, chosen') == Left(index, chosen) && |queue'| < |queue|)
  {
    hide Worklist, Followed, First, Elements, Mentioned, Between, Left;
    GrowsKeys(index, roots, chosen, chosen', Elements(queue'));
    LeftLess(index, chosen, chosen');
  }

  lemma LeftLess(index: Index, chosen: map<string, Stanza>, chosen': map<string, Stanza>)
    requires chosen' == chosen || chosen.Keys < chosen'.Keys
    requires chosen'.Keys <= index.packages.Keys
    ensures Left(index, chosen') <= Left(index, chosen)
    ensures chosen' != chosen ==> Left(index, chosen') < Left(index, chosen)
  {
    if chosen' != chosen {
      Shrinks(index.packages.Keys, chosen.Keys, chosen'.Keys);
    }
  }

  lemma WayStops(index: Index, roots: seq<string>, t: Trail, done: nat, chosen: map<string, Stanza>, queue: seq<string>,
                 queue': seq<string>, chosen': map<string, Stanza>, queue'': seq<string>, t': Trail, i: nat, e: Error)
    requires Way(index, roots, t, done, chosen, queue) && Later(chosen, queue', t, chosen', queue'', t')
    requires Halted(index, t', (done, i), e)
    ensures Followed(index, t', (done, i)) && !e.RootMissing? && (forall n :: n in roots ==> n in index.packages)
    ensures Mentioned(roots) <= t'.order && t'.roots == |Mentioned(roots)|
  {
    HaltedMeans(index, t', (done, i), e);
    hide Worklist, Followed, First, Elements, Mentioned, Between, Halted;
  }

  lemma WayDone(index: Index, roots: seq<string>, t: Trail, done: nat, chosen: map<string, Stanza>)
    requires Way(index, roots, t, done, chosen, [])
    ensures (set root | root in roots) <= chosen.Keys && (forall n :: n in roots ==> n in index.packages)
    ensures forall n :: n in chosen ==>
              n in index.packages && chosen[n] == index.packages[n] && Reachable(index, roots, n)
    ensures forall n :: n in chosen ==> Closed(index, chosen, n)
    ensures done == |t.order| && Followed(index, t, (done, 0)) && chosen == First(index, t.order, |t.order|)
    ensures Mentioned(roots) <= t.order && t.roots == |Mentioned(roots)|
  {
    WorklistDone(index, roots, chosen);
    hide Worklist, Followed, First, Elements, Mentioned;
  }

  lemma HaltedMeans(index: Index, t: Trail, at: (nat, nat), e: Error)
    requires Halted(index, t, at, e)
    ensures Followed(index, t, at) && !e.RootMissing?
  {
  }

  lemma TakeFirst(queue: seq<string>)
    requires queue != []
    ensures Elements(queue) == Elements(queue[1..]) + {queue[0]}
  {
    assert queue == [queue[0]] + queue[1..];
  }

  lemma GrowsKeys(index: Index, roots: seq<string>, small: map<string, Stanza>, large: map<string, Stanza>, open: set<string>)
    requires Grows(small, large) && Worklist(index, roots, large, open)
    ensures small.Keys <= large.Keys && large.Keys <= index.packages.Keys
  {
  }

  lemma WorklistDone(index: Index, roots: seq<string>, chosen: map<string, Stanza>)
    requires Worklist(index, roots, chosen, Elements([]))
    ensures forall n :: n in chosen ==>
              n in index.packages && chosen[n] == index.packages[n] && Reachable(index, roots, n)
    ensures forall n :: n in chosen ==> Closed(index, chosen, n)
  {
  }

  lemma Shrinks<T>(all: set<T>, small: set<T>, large: set<T>)
    requires small < large && large <= all
    ensures |all - large| < |all - small|
  {
    assert large - small != {};
    var x :| x in large - small;
    assert all - large <= all - small - {x};
    Subset(all - large, all - small - {x});
  }

  lemma Subset<T>(a: set<T>, b: set<T>)
    requires a <= b
    ensures |a| <= |b|
  {
    assert b == a + (b - a);
  }
}
