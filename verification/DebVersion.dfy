/**
 * dpkg version comparison as deploy/sandbox-linux/rootfs/lock.py writes it, and the order it induces.
 *
 * The loop of `_compare_part` walks two strings at once, alternating between non-digit runs and
 * numbers.  The specification never walks two strings: each part is mapped, on its own, to a sequence
 * of integers (`Encode`), and two parts are ordered by the first position at which their encodings,
 * padded with zeros, differ (Debian Policy Manual, section 5.6.12).
 */
module DebVersion {
  import opened Ascii
  import opened Common

  // ----- characters and runs

  /** `_order`: tilde first, then end of run and digits, then letters, then every other character. */
  function Order(c: char): int {
    if c == '~' then -1
    else if IsDigit(c) then 0
    else if IsAlpha(c) then c as int
    else c as int + 256
  }

  /** Length of the longest prefix without digits. */
  function RunLength(s: string): (n: nat)
    ensures n <= |s|
    ensures forall i :: 0 <= i < n ==> !IsDigit(s[i])
    ensures n < |s| ==> IsDigit(s[n])
  {
    if s == "" || IsDigit(s[0]) then 0 else 1 + RunLength(s[1..])
  }

  /** Length of the longest prefix of digits. */
  function DigitsLength(s: string): (n: nat)
    ensures n <= |s|
    ensures forall i :: 0 <= i < n ==> IsDigit(s[i])
    ensures n < |s| ==> !IsDigit(s[n])
  {
    if s == "" || !IsDigit(s[0]) then 0 else 1 + DigitsLength(s[1..])
  }

  // ----- the reference order

  function Orders(run: string): (r: seq<int>)
    ensures |r| == |run|
  {
    seq(|run|, i requires 0 <= i < |run| => Order(run[i]))
  }

  /** What one round of the loop consumes: a run, its end marker 0, and the number behind it. */
  function Chunk(s: string): seq<int> {
    var n := RunLength(s);
    Orders(s[..n]) + [0, Number(s[n..][..DigitsLength(s[n..])])]
  }

  function Rest(s: string): (r: string)
    ensures s != "" ==> |r| < |s|
    ensures s == "" ==> r == ""
  {
    var n := RunLength(s);
    s[n..][DigitsLength(s[n..])..]
  }

  function Encode(s: string): seq<int>
    decreases |s|
  {
    if s == "" then [] else Chunk(s) + Encode(Rest(s))
  }

  /** A sequence read as if it continued with zeros forever. */
  function At(x: seq<int>, i: nat): int { if i < |x| then x[i] else 0 }

  ghost predicate AgreeUpTo(x: seq<int>, y: seq<int>, n: nat) {
    forall i :: 0 <= i < n ==> At(x, i) == At(y, i)
  }

  /** x is smaller at the first position at which the padded sequences differ. */
  ghost predicate Below(x: seq<int>, y: seq<int>) {
    exists n: nat :: AgreeUpTo(x, y, n) && At(x, n) < At(y, n)
  }

  ghost predicate Same(x: seq<int>, y: seq<int>) {
    forall i: nat :: At(x, i) == At(y, i)
  }

  /** The sign c of a comparison of two padded sequences. */
  ghost predicate IsSign(x: seq<int>, y: seq<int>, c: int) {
    match c
    case -1 => Below(x, y)
    case 0 => Same(x, y)
    case 1 => Below(y, x)
    case _ => false
  }

  lemma BelowTransitive(x: seq<int>, y: seq<int>, z: seq<int>)
    requires Below(x, y) && Below(y, z)
    ensures Below(x, z)
  {
    var m: nat :| AgreeUpTo(x, y, m) && At(x, m) < At(y, m);
    var n: nat :| AgreeUpTo(y, z, n) && At(y, n) < At(z, n);
    var k := if m < n then m else n;
    assert AgreeUpTo(x, z, k);
    assert At(x, k) < At(z, k);
  }

  lemma SameThenBelow(x: seq<int>, y: seq<int>, z: seq<int>)
    requires Same(x, y)
    ensures Below(y, z) ==> Below(x, z)
    ensures Below(z, y) ==> Below(z, x)
  {
    if Below(y, z) {
      var n: nat :| AgreeUpTo(y, z, n) && At(y, n) < At(z, n);
      assert AgreeUpTo(x, z, n);
    }
    if Below(z, y) {
      var n: nat :| AgreeUpTo(z, y, n) && At(z, n) < At(y, n);
      assert AgreeUpTo(z, x, n);
    }
  }

  lemma SignUnique(x: seq<int>, y: seq<int>, c: int, d: int)
    requires IsSign(x, y, c) && IsSign(x, y, d)
    ensures c == d
  {
    if Below(x, y) && Below(y, x) {
      BelowTransitive(x, y, x);
    }
  }

  /** A comparison that agrees up to position n and differs there has its sign decided. */
  lemma Decided(x: seq<int>, y: seq<int>, n: nat)
    requires AgreeUpTo(x, y, n) && At(x, n) != At(y, n)
    ensures IsSign(x, y, if At(x, n) < At(y, n) then -1 else 1)
  {
    if At(y, n) < At(x, n) {
      assert AgreeUpTo(y, x, n);
    }
  }

  /** The comparison written as a function, so that other functions can use it. */
  function Compare(x: seq<int>, y: seq<int>): (c: int)
    ensures IsSign(x, y, c)
    decreases |x| + |y|
  {
    if |x| == 0 && |y| == 0 then 0
    else if At(x, 0) != At(y, 0) then
      assert AgreeUpTo(x, y, 0);
      Decided(x, y, 0);
      if At(x, 0) < At(y, 0) then -1 else 1
    else
      var x', y' := Tail(x), Tail(y);
      var c := Compare(x', y');
      SignOfTails(x, y, c);
      c
  }

  function Tail(x: seq<int>): seq<int> { if x == [] then [] else x[1..] }

  lemma SignOfTails(x: seq<int>, y: seq<int>, c: int)
    requires At(x, 0) == At(y, 0) && IsSign(Tail(x), Tail(y), c)
    ensures IsSign(x, y, c)
  {
    SignOfSuffixes([At(x, 0)], Tail(x), Tail(y), c);
    ghost var p := [At(x, 0)];
    assert forall i: nat :: At(p + Tail(x), i) == At(x, i);
    assert forall i: nat :: At(p + Tail(y), i) == At(y, i);
    SignOfPadded(p + Tail(x), x, p + Tail(y), y, c);
  }

  /** Equal prefixes do not influence the sign. */
  lemma SignOfSuffixes(p: seq<int>, x: seq<int>, y: seq<int>, c: int)
    requires IsSign(x, y, c)
    ensures IsSign(p + x, p + y, c)
  {
    if c == 0 {
      assert forall i: nat :: i >= |p| ==> At(p + x, i) == At(x, i - |p|) && At(p + y, i) == At(y, i - |p|);
    } else {
      var lo, hi := if c == -1 then x else y, if c == -1 then y else x;
      var n: nat :| AgreeUpTo(lo, hi, n) && At(lo, n) < At(hi, n);
      forall i | 0 <= i < |p| + n ensures At(p + lo, i) == At(p + hi, i) {
        if i >= |p| { assert At(lo, i - |p|) == At(hi, i - |p|); }
      }
      assert AgreeUpTo(p + lo, p + hi, |p| + n);
      assert At(p + lo, |p| + n) < At(p + hi, |p| + n);
    }
  }

  /** Padding does not influence the sign. */
  lemma SignOfPadded(x: seq<int>, x': seq<int>, y: seq<int>, y': seq<int>, c: int)
    requires Same(x, x') && Same(y, y') && IsSign(x, y, c)
    ensures IsSign(x', y', c)
  {
    if c == 0 {
      assert Same(x', y');
    } else {
      var lo, hi := if c == -1 then x else y, if c == -1 then y else x;
      var lo', hi' := if c == -1 then x' else y', if c == -1 then y' else x';
      var n: nat :| AgreeUpTo(lo, hi, n) && At(lo, n) < At(hi, n);
      forall i | 0 <= i < n ensures At(lo', i) == At(hi', i) {
        assert At(lo, i) == At(hi, i);
      }
      assert AgreeUpTo(lo', hi', n);
    }
  }

  // ----- the loop of _compare_part

  /** Reading one more round: "" behaves like a round made of an empty run and the number 0. */
  lemma EncodeUnfold(s: string)
    ensures Same(Encode(s), Chunk(s) + Encode(Rest(s)))
  {
    hide Chunk, Rest, Same;
    ChunkEmpty();
    if s == "" {
      assert Encode(s) == [] && [0, 0] + [] == [0, 0];
    } else {
      assert Encode(s) == Chunk(s) + Encode(Rest(s));
      SameItself(Encode(s));
    }
  }

  lemma ChunkEmpty()
    ensures Chunk("") == [0, 0] && Rest("") == "" && Same([], [0, 0])
  {
  }

  lemma SameItself(x: seq<int>)
    ensures Same(x, x)
  {
  }

  /** The number that ends the first round. */
  function FirstNumber(s: string): nat {
    var n := RunLength(s);
    Number(s[n..][..DigitsLength(s[n..])])
  }

  lemma EncodeStart(s: string, i: nat)
    requires i < RunLength(s) + 2
    ensures |Chunk(s)| == RunLength(s) + 2
    ensures At(Encode(s), i) == Chunk(s)[i]
  {
    if s != "" {
      assert Encode(s) == Chunk(s) + Encode(Rest(s));
    }
  }

  /** Where the end marker of a run stands, no run character of the other part can be equal to it. */
  lemma RunOrders(s: string, i: nat)
    requires i <= RunLength(s)
    ensures At(Encode(s), i) == if i < RunLength(s) then Order(s[i]) else 0
    ensures i < RunLength(s) ==> Order(s[i]) != 0
  {
    var n := RunLength(s);
    EncodeStart(s, i);
    var orders := Orders(s[..n]);
    if i < n {
      assert !IsDigit(s[i]);
      assert Chunk(s)[i] == orders[i] == Order(s[..n][i]);
    } else {
      assert Chunk(s)[n] == 0;
    }
  }

  lemma NumberBehindRun(s: string)
    ensures At(Encode(s), RunLength(s) + 1) == FirstNumber(s)
  {
    hide *;
    EncodeStart(s, RunLength(s) + 1);
    ChunkNumber(s);
  }

  lemma ChunkNumber(s: string)
    ensures |Chunk(s)| == RunLength(s) + 2 && Chunk(s)[RunLength(s) + 1] == FirstNumber(s)
  {
    hide RunLength, DigitsLength, Number, Orders, IsDigit;
    SecondOfPair(Orders(s[..RunLength(s)]), FirstNumber(s));
  }

  lemma SecondOfPair(x: seq<int>, n: int)
    ensures |x + [0, n]| == |x| + 2 && (x + [0, n])[|x| + 1] == n
  {
  }

  /** `_compare_part`: the two-string loop decides the order of the encodings. */
  method ComparePart(a0: string, b0: string) returns (c: int)
    ensures c == Compare(Encode(a0), Encode(b0))
  {
    hide *;
    var a, b := a0, b0;
    ghost var done: seq<int> := [];
    SameItself(Encode(a0));
    SameItself(Encode(b0));
    assert [] + Encode(a0) == Encode(a0) && [] + Encode(b0) == Encode(b0);
    while a != "" || b != ""
      // what is left to compare, behind what was found equal
      invariant Same(Encode(a0), done + Encode(a)) && Same(Encode(b0), done + Encode(b))
      decreases |a| + |b|
    {
      c := CompareRound(a, b);
      if c != 0 {
        TailsDecide(Encode(a0), Encode(b0), done, Encode(a), Encode(b), c);
        return;
      }
      EncodeUnfold(a);
      EncodeUnfold(b);
      SameSplit(Encode(a0), done, Encode(a), Chunk(a), Encode(Rest(a)));
      SameSplit(Encode(b0), done, Encode(b), Chunk(b), Encode(Rest(b)));
      done := done + Chunk(a);
      a, b := Rest(a), Rest(b);
    }
    NothingLeft(Encode(a0), Encode(b0), done, Encode(""));
    c := 0;
  }

  /** One round of the loop: a run against a run, then a number against a number. */
  method CompareRound(a: string, b: string) returns (c: int)
    ensures c in {-1, 0, 1}
    ensures c == 0 ==> Chunk(a) == Chunk(b)
    ensures c != 0 ==> IsSign(Encode(a), Encode(b), c)
  {
    hide IsDigit, Order, Orders, Encode, Chunk, FirstNumber, RunLength, IsSign, At;
    var na, nb := RunLength(a), RunLength(b);
    var i := 0;
    while i < na || i < nb
      invariant 0 <= i <= na && i <= nb
      invariant forall j :: 0 <= j < i ==> Order(a[j]) == Order(b[j])
      decreases na + nb - i
    {
      var ca := if i < na then Order(a[i]) else 0;
      var cb := if i < nb then Order(b[i]) else 0;
      if ca != cb {
        RunsAgree(a, b, i);
        RunOrders(a, i);
        RunOrders(b, i);
        Decided(Encode(a), Encode(b), i);
        return if ca < cb then -1 else 1;
      }
      if i == na || i == nb {
        RunOrders(a, i);
        RunOrders(b, i);
      }
      i := i + 1;
    }
    var va, vb := FirstNumber(a), FirstNumber(b);
    if va != vb {
      RunsAgree(a, b, na);
      RunOrders(a, na);
      RunOrders(b, nb);
      NumberBehindRun(a);
      NumberBehindRun(b);
      assert AgreeUpTo(Encode(a), Encode(b), na + 1);
      Decided(Encode(a), Encode(b), na + 1);
      return if va < vb then -1 else 1;
    }
    ChunksAgree(a, b);
    c := 0;
  }

  lemma ChunksAgree(a: string, b: string)
    requires RunLength(a) == RunLength(b) && FirstNumber(a) == FirstNumber(b)
    requires forall j :: 0 <= j < RunLength(a) ==> Order(a[j]) == Order(b[j])
    ensures Chunk(a) == Chunk(b)
  {
    hide IsDigit, Order, RunLength, Number, DigitsLength;
    var n := RunLength(a);
    assert Orders(a[..n]) == Orders(b[..n]);
  }

  lemma RunsAgree(a: string, b: string, i: nat)
    requires i <= RunLength(a) && i <= RunLength(b)
    requires forall j :: 0 <= j < i ==> Order(a[j]) == Order(b[j])
    ensures AgreeUpTo(Encode(a), Encode(b), i)
  {
    forall j | 0 <= j < i ensures At(Encode(a), j) == At(Encode(b), j) {
      RunOrders(a, j);
      RunOrders(b, j);
    }
  }

  lemma SameSplit(whole: seq<int>, done: seq<int>, x: seq<int>, head: seq<int>, tail: seq<int>)
    requires Same(whole, done + x) && Same(x, head + tail)
    ensures Same(whole, done + head + tail)
  {
    SignOfSuffixes(done, x, head + tail, 0);
    assert done + head + tail == done + (head + tail);
  }

  lemma NothingLeft(x: seq<int>, y: seq<int>, done: seq<int>, tail: seq<int>)
    requires Same(x, done + tail) && Same(y, done + tail)
    ensures Compare(x, y) == 0
  {
    hide Compare;
    assert Same(x, y);
    SignUnique(x, y, 0, Compare(x, y));
  }

  lemma TailsDecide(x: seq<int>, y: seq<int>, done: seq<int>, xs: seq<int>, ys: seq<int>, c: int)
    requires Same(x, done + xs) && Same(y, done + ys) && IsSign(xs, ys, c)
    ensures c == Compare(x, y)
  {
    hide Compare;
    SignOfSuffixes(done, xs, ys, c);
    SignOfPadded(done + xs, x, done + ys, y, c);
    SignUnique(x, y, c, Compare(x, y));
  }

  /** A tilde sorts before everything, even before the end of the part. */
  lemma {:induction false} TildeBeforeEnd(u: string, t: string)
    ensures Compare(Encode(u + "~" + t), Encode(u)) == -1
    decreases |u|
  {
    var v := u + "~" + t;
    var n := RunLength(u);
    RunOfExtended(u, t);
    if n < |u| {
      // the first number of u is also the first number of v: recurse on what follows it
      ExtendedRest(u, t);
      TildeBeforeEnd(Rest(u), t);
      SignOfSuffixes(Chunk(u), Encode(Rest(u) + "~" + t), Encode(Rest(u)), -1);
      SignUnique(Encode(v), Encode(u), -1, Compare(Encode(v), Encode(u)));
    } else {
      RunsAgree(v, u, n);
      RunOrders(v, n);
      RunOrders(u, n);
      assert v[n] == '~';
      Decided(Encode(v), Encode(u), n);
      SignUnique(Encode(v), Encode(u), -1, Compare(Encode(v), Encode(u)));
    }
  }

  lemma RunOfExtended(u: string, t: string)
    ensures if RunLength(u) < |u| then RunLength(u + "~" + t) == RunLength(u) else RunLength(u + "~" + t) > |u|
    ensures forall i :: 0 <= i < |u| ==> (u + "~" + t)[i] == u[i]
  {
    var v := u + "~" + t;
    var n := RunLength(u);
    if n < |u| {
      RunAtLeast(v, n, IsDigit(v[n]));
    } else {
      RunAtLeast(v, |u| + 1, false);
    }
  }

  /** A run is as long as its characters say. */
  lemma RunAtLeast(s: string, n: nat, ends: bool)
    requires n <= |s| && forall i :: 0 <= i < n ==> !IsDigit(s[i])
    requires ends ==> n < |s| && IsDigit(s[n])
    ensures if ends then RunLength(s) == n else RunLength(s) >= n
  {
    if n > 0 {
      assert forall i :: 0 <= i < n - 1 ==> s[1..][i] == s[i + 1];
      RunAtLeast(s[1..], n - 1, ends);
    }
  }

  lemma DigitsExactly(s: string, n: nat)
    requires n <= |s| && forall i :: 0 <= i < n ==> IsDigit(s[i])
    requires n < |s| ==> !IsDigit(s[n])
    ensures DigitsLength(s) == n
  {
    if n > 0 {
      assert forall i :: 0 <= i < n - 1 ==> s[1..][i] == s[i + 1];
      DigitsExactly(s[1..], n - 1);
    }
  }

  lemma ExtendedRest(u: string, t: string)
    requires RunLength(u) < |u|
    ensures Encode(u + "~" + t) == Chunk(u) + Encode(Rest(u) + "~" + t)
    ensures Encode(u) == Chunk(u) + Encode(Rest(u)) && |Rest(u)| < |u|
  {
    ExtendedRound(u, t);
    hide Chunk, Rest, RunLength;
    assert u != "" && u + "~" + t != "";
  }

  lemma ExtendedRound(u: string, t: string)
    requires RunLength(u) < |u|
    ensures Chunk(u + "~" + t) == Chunk(u) && Rest(u + "~" + t) == Rest(u) + "~" + t
  {
    hide RunLength, DigitsLength, Chunk, Rest, Number, Orders;
    var v := u + "~" + t;
    RunOfExtended(u, t);
    var n := RunLength(u);
    ExtendedSlice(u, t, n);
    var x, d := u[n..], DigitsLength(u[n..]);
    ExtendedDigits(x, t);
    ExtendedSlice(x, t, d);
    SameRound(u, v, n, d);
  }

  lemma ExtendedSlice(u: string, t: string, n: nat)
    requires n <= |u|
    ensures (u + "~" + t)[..n] == u[..n] && (u + "~" + t)[n..] == u[n..] + "~" + t
  {
  }

  lemma ExtendedDigits(x: string, t: string)
    ensures DigitsLength(x + "~" + t) == DigitsLength(x)
  {
    var y, d := x + "~" + t, DigitsLength(x);
    hide DigitsLength;
    assert forall i :: 0 <= i < |x| ==> y[i] == x[i];
    assert d == |x| ==> y[d] == '~';
    DigitsExactly(y, d);
  }

  lemma SameRound(u: string, v: string, n: nat, d: nat)
    requires n <= |u| && n <= |v| && RunLength(u) == n == RunLength(v) && u[..n] == v[..n]
    requires d <= |u| - n && d <= |v| - n && DigitsLength(u[n..]) == d == DigitsLength(v[n..]) && u[n..][..d] == v[n..][..d]
    ensures Chunk(u) == Chunk(v) && Rest(u) == u[n..][d..] && Rest(v) == v[n..][d..]
  {
  }

  // ----- whole versions

  /** Position of the last c in s, or -1. */
  function LastIndex(s: string, c: char): (i: int)
    ensures -1 <= i < |s|
    ensures i >= 0 ==> s[i] == c
    ensures forall j :: i < j < |s| ==> s[j] != c
  {
    if s == "" then -1
    else if s[|s| - 1] == c then |s| - 1
    else LastIndex(s[..|s| - 1], c)
  }

  /** `int(epoch or 0)`; None stands for the ValueError of a text that is not a number. */
  function Epoch(text: string): Option<nat> {
    if AllDigits(text) then Some(Number(text)) else None
  }

  datatype Parts = Parts(epoch: string, upstream: string, revision: string)

  /** `split`: the epoch ends at the last colon, the revision starts behind the last hyphen. */
  function Split(version: string): Parts {
    var colon := LastIndex(version, ':');
    var rest := version[colon + 1..];
    var hyphen := LastIndex(rest, '-');
    var epoch := if colon >= 0 then version[..colon] else "0";
    if hyphen >= 0 then Parts(epoch, rest[..hyphen], rest[hyphen + 1..]) else Parts(epoch, rest, "0")
  }

  datatype Key = Key(epoch: nat, upstream: seq<int>, revision: seq<int>)

  function KeyOf(version: string): Option<Key> {
    var p := Split(version);
    match Epoch(p.epoch)
    case None => None
    case Some(e) => Some(Key(e, Encode(p.upstream), Encode(p.revision)))
  }

  predicate WellFormed(version: string) { KeyOf(version).Some? }

  ghost predicate KeyBelow(x: Key, y: Key) {
    || x.epoch < y.epoch
    || (x.epoch == y.epoch && Below(x.upstream, y.upstream))
    || (x.epoch == y.epoch && Same(x.upstream, y.upstream) && Below(x.revision, y.revision))
  }

  ghost predicate KeySame(x: Key, y: Key) {
    x.epoch == y.epoch && Same(x.upstream, y.upstream) && Same(x.revision, y.revision)
  }

  function CompareKeys(x: Key, y: Key): (c: int)
    ensures c == -1 ==> KeyBelow(x, y)
    ensures c == 0 ==> KeySame(x, y)
    ensures c == 1 ==> KeyBelow(y, x)
    ensures c in {-1, 0, 1}
  {
    if x.epoch != y.epoch then (if x.epoch < y.epoch then -1 else 1)
    else
      var c := Compare(x.upstream, y.upstream);
      if c == 1 || c == -1 then c
      else
        SameSymmetric(x.upstream, y.upstream);
        Compare(x.revision, y.revision)
  }

  lemma SameSymmetric(x: seq<int>, y: seq<int>)
    ensures Same(x, y) ==> Same(y, x)
  {
  }

  function CompareVersions(a: string, b: string): Option<int> {
    if WellFormed(a) && WellFormed(b) then Some(CompareKeys(KeyOf(a).value, KeyOf(b).value)) else None
  }

  /** `compare_versions`: None where Python raises. */
  method CompareVersionsOf(a: string, b: string) returns (c: Option<int>)
    ensures c == CompareVersions(a, b)
  {
    var pa, pb := Split(a), Split(b);
    var ea, eb := Epoch(pa.epoch), Epoch(pb.epoch);
    if ea.None? || eb.None? {
      return None;
    }
    if ea.value != eb.value {
      return Some(if ea.value < eb.value then -1 else 1);
    }
    var part := ComparePart(pa.upstream, pb.upstream);
    if part == 0 {
      part := ComparePart(pa.revision, pb.revision);
    }
    c := Some(part);
  }

  // ----- what a version is made of

  lemma {:induction false} LastIndexIs(s: string, c: char, n: int)
    requires -1 <= n < |s| && (n >= 0 ==> s[n] == c)
    requires forall j :: n < j < |s| ==> s[j] != c
    ensures LastIndex(s, c) == n
  {
    if s != "" && n < |s| - 1 {
      LastIndexIs(s[..|s| - 1], c, n);
    }
  }

  /** A version put together from its parts; None stands for a part that is left out. */
  function Assembled(epoch: Option<string>, upstream: string, revision: Option<string>): string {
    (if epoch.Some? then epoch.value + ":" else "") + upstream + (if revision.Some? then "-" + revision.value else "")
  }

  /** Parts that can be told apart again: no colon behind the epoch, no hyphen behind the upstream version. */
  ghost predicate Separable(upstream: string, revision: Option<string>) {
    && ':' !in upstream && (revision.None? ==> '-' !in upstream)
    && (revision.Some? ==> ':' !in revision.value && '-' !in revision.value)
  }

  lemma SplitTail(upstream: string, revision: Option<string>)
    requires Separable(upstream, revision)
    ensures var rest := Assembled(None, upstream, revision);
            && ':' !in rest
            && LastIndex(rest, '-') == (if revision.Some? then |upstream| else -1)
            && (revision.Some? ==> rest[..|upstream|] == upstream && rest[|upstream| + 1..] == revision.value)
            && (revision.None? ==> rest == upstream)
  {
    var rest := Assembled(None, upstream, revision);
    if revision.Some? {
      assert rest == upstream + ("-" + revision.value);
      assert forall j :: |upstream| < j < |rest| ==> rest[j] == revision.value[j - |upstream| - 1];
      LastIndexIs(rest, '-', |upstream|);
    } else {
      assert rest == upstream;
      LastIndexIs(rest, '-', -1);
    }
  }

  /** Taking apart what was put together gives the parts, epoch "0" and revision "0" where they were left out. */
  lemma SplitAssembled(epoch: Option<string>, upstream: string, revision: Option<string>)
    requires Separable(upstream, revision)
    ensures Split(Assembled(epoch, upstream, revision)) ==
            Parts(if epoch.Some? then epoch.value else "0", upstream, if revision.Some? then revision.value else "0")
  {
    hide LastIndex, Separable, Assembled;
    var rest := Assembled(None, upstream, revision);
    SplitTail(upstream, revision);
    if epoch.Some? {
      AssembledWith(epoch.value, upstream, revision);
      EpochTail(epoch.value, rest);
    } else {
      NoEpoch(rest);
    }
  }

  lemma AssembledWith(epoch: string, upstream: string, revision: Option<string>)
    ensures Assembled(Some(epoch), upstream, revision) == epoch + ":" + Assembled(None, upstream, revision)
  {
  }

  lemma EpochTail(epoch: string, rest: string)
    requires ':' !in rest
    ensures var version := epoch + ":" + rest;
            LastIndex(version, ':') == |epoch| && version[|epoch| + 1..] == rest && version[..|epoch|] == epoch
  {
    var version, n := epoch + ":" + rest, |epoch|;
    assert forall j :: n < j < |version| ==> version[j] == rest[j - n - 1];
    LastIndexIs(version, ':', n);
  }

  lemma NoEpoch(rest: string)
    requires ':' !in rest
    ensures LastIndex(rest, ':') == -1 && rest[0..] == rest
  {
    LastIndexIs(rest, ':', -1);
  }

  /** The key of an assembled version: the value of the epoch, then upstream, then revision. */
  lemma KeyOfAssembled(epoch: Option<string>, upstream: string, revision: Option<string>)
    requires Separable(upstream, revision) && (epoch.Some? ==> AllDigits(epoch.value))
    ensures KeyOf(Assembled(epoch, upstream, revision)) ==
            Some(Key(if epoch.Some? then Number(epoch.value) else 0, Encode(upstream),
                     Encode(if revision.Some? then revision.value else "0")))
  {
    SplitAssembled(epoch, upstream, revision);
    hide Split, Encode, Assembled, Separable;
    ZeroText();
    hide Number, AllDigits;
  }

  lemma ZeroText()
    ensures AllDigits("0") && Number("0") == 0
  {
    assert "0"[..0] == "";
  }

  /** The epoch of a version, 0 if it is left out. */
  function EpochValue(epoch: Option<string>): nat
    requires epoch.Some? ==> AllDigits(epoch.value)
  {
    if epoch.Some? then Number(epoch.value) else 0
  }

  /**
   * Epochs decide first, whatever follows; then the upstream versions, whatever the revisions; then the revisions,
   * one that is left out counting as "0".
   */
  lemma PartsDecideInOrder(e: Option<string>, u: string, r: Option<string>, e': Option<string>, u': string, r': Option<string>)
    requires Separable(u, r) && (e.Some? ==> AllDigits(e.value)) && Separable(u', r') && (e'.Some? ==> AllDigits(e'.value))
    ensures CompareVersions(Assembled(e, u, r), Assembled(e', u', r')) ==
            Some(if EpochValue(e) != EpochValue(e') then (if EpochValue(e) < EpochValue(e') then -1 else 1)
                 else if Compare(Encode(u), Encode(u')) != 0 then Compare(Encode(u), Encode(u'))
                 else Compare(Encode(if r.Some? then r.value else "0"), Encode(if r'.Some? then r'.value else "0")))
  {
    hide KeyOf, Encode, Assembled, Separable, Compare, Below, Same, KeyBelow, KeySame, Number, AllDigits;
    KeyOfAssembled(e, u, r);
    KeyOfAssembled(e', u', r');
  }

  // ----- what decides within a part

  lemma RunOf(u: string, rest: string)
    requires (forall i :: 0 <= i < |u| ==> !IsDigit(u[i])) && (rest != "" ==> IsDigit(rest[0]))
    ensures RunLength(u + rest) == |u|
  {
    var s := u + rest;
    RunAtLeast(s, |u|, rest != "");
  }

  /** Behind equal runs the numbers decide by value, whatever follows them. */
  lemma NumbersDecide(u: string, digits: string, rest: string, digits': string, rest': string)
    requires forall i :: 0 <= i < |u| ==> !IsDigit(u[i])
    requires digits != "" && AllDigits(digits) && (rest != "" ==> !IsDigit(rest[0]))
    requires digits' != "" && AllDigits(digits') && (rest' != "" ==> !IsDigit(rest'[0]))
    requires Number(digits) < Number(digits')
    ensures Compare(Encode(u + digits + rest), Encode(u + digits' + rest')) == -1
  {
    var a, b, n := u + digits + rest, u + digits' + rest', |u|;
    NumberStart(u, digits, rest);
    NumberStart(u, digits', rest');
    NumberBehindRun(a);
    NumberBehindRun(b);
    hide Encode, Compare, FirstNumber, RunLength, Number;
    forall i | 0 <= i < n + 1 ensures At(Encode(a), i) == At(Encode(b), i) {
      RunOrders(a, i);
      RunOrders(b, i);
    }
    Decided(Encode(a), Encode(b), n + 1);
    SignUnique(Encode(a), Encode(b), -1, Compare(Encode(a), Encode(b)));
  }

  lemma NumberStart(u: string, digits: string, rest: string)
    requires forall i :: 0 <= i < |u| ==> !IsDigit(u[i])
    requires digits != "" && AllDigits(digits) && (rest != "" ==> !IsDigit(rest[0]))
    ensures var s := u + digits + rest;
            RunLength(s) == |u| && FirstNumber(s) == Number(digits) && |s| > |u| && forall i :: 0 <= i < |u| ==> s[i] == u[i]
  {
    var s := u + digits + rest;
    hide Number, RunLength, DigitsLength;
    assert s == u + (digits + rest);
    RunOf(u, digits + rest);
    var t := s[|u|..];
    assert t == digits + rest;
    DigitsExactly(t, |digits|);
    assert t[..|digits|] == digits;
  }

  /**
   * The first character in which two runs differ decides, whatever follows: letters before every other character,
   * letters among themselves and the others among themselves by code, the end of a run before all of these.
   */
  lemma CharactersDecide(u: string, c: char, rest: string, d: char, rest': string)
    requires forall i :: 0 <= i < |u| ==> !IsDigit(u[i])
    requires !IsDigit(c) && !IsDigit(d) && c != '~' && d != '~'
    requires if IsAlpha(c) == IsAlpha(d) then c < d else IsAlpha(c)
    ensures Compare(Encode(u + [c] + rest), Encode(u + [d] + rest')) == -1
    ensures Compare(Encode(u), Encode(u + [c] + rest)) == -1
  {
    var a, b, n := u + [c] + rest, u + [d] + rest', |u|;
    assert Order(c) < Order(d) && 0 < Order(c);
    RunBeyond(u, c, rest);
    RunBeyond(u, d, rest');
    RunOf(u, "");
    assert u + "" == u;
    hide Encode, Compare, RunLength;
    forall i | 0 <= i <= n ensures i < n ==> At(Encode(a), i) == At(Encode(b), i) == At(Encode(u), i) {
      RunOrders(a, i);
      RunOrders(b, i);
      RunOrders(u, i);
    }
    RunOrders(a, n);
    RunOrders(b, n);
    RunOrders(u, n);
    Decided(Encode(a), Encode(b), n);
    SignUnique(Encode(a), Encode(b), -1, Compare(Encode(a), Encode(b)));
    Decided(Encode(u), Encode(a), n);
    SignUnique(Encode(u), Encode(a), -1, Compare(Encode(u), Encode(a)));
  }

  lemma RunBeyond(u: string, c: char, rest: string)
    requires (forall i :: 0 <= i < |u| ==> !IsDigit(u[i])) && !IsDigit(c)
    ensures var s := u + [c] + rest; RunLength(s) > |u| && s[|u|] == c && forall i :: 0 <= i < |u| ==> s[i] == u[i]
  {
    var s := u + [c] + rest;
    RunAtLeast(s, |u| + 1, false);
  }

  // ----- compare_versions is a total preorder

  lemma KeysExclusive(x: Key, y: Key)
    ensures !(KeyBelow(x, y) && KeyBelow(y, x))
    ensures !(KeyBelow(x, y) && KeySame(x, y))
    ensures KeySame(x, y) ==> KeySame(y, x)
  {
    if KeyBelow(x, y) && KeyBelow(y, x) {
      if Below(x.upstream, y.upstream) && Below(y.upstream, x.upstream) {
        BelowTransitive(x.upstream, y.upstream, x.upstream);
      }
      if Below(x.revision, y.revision) && Below(y.revision, x.revision) {
        BelowTransitive(x.revision, y.revision, x.revision);
      }
    }
  }

  lemma KeyTransitive(x: Key, y: Key, z: Key)
    ensures KeyBelow(x, y) && KeyBelow(y, z) ==> KeyBelow(x, z)
    ensures KeySame(x, y) && KeyBelow(y, z) ==> KeyBelow(x, z)
    ensures KeyBelow(x, y) && KeySame(y, z) ==> KeyBelow(x, z)
    ensures KeySame(x, y) && KeySame(y, z) ==> KeySame(x, z)
  {
    PartTransitive(x.upstream, y.upstream, z.upstream);
    PartTransitive(x.revision, y.revision, z.revision);
  }

  lemma PartTransitive(x: seq<int>, y: seq<int>, z: seq<int>)
    ensures Below(x, y) && Below(y, z) ==> Below(x, z)
    ensures Same(x, y) && Below(y, z) ==> Below(x, z)
    ensures Below(x, y) && Same(y, z) ==> Below(x, z)
    ensures Same(x, y) && Same(y, z) ==> Same(x, z)
  {
    if Below(x, y) && Below(y, z) { BelowTransitive(x, y, z); }
    if Same(x, y) { SameThenBelow(x, y, z); }
    if Same(y, z) { SameThenBelow(z, y, x); }
  }

  /** Any two well-formed versions compare, and swapping the arguments swaps the sign. */
  lemma CompareAntisymmetric(a: string, b: string)
    ensures CompareVersions(a, b).Some? <==> WellFormed(a) && WellFormed(b)
    ensures WellFormed(a) && WellFormed(b) ==>
              CompareVersions(b, a) == Some(-CompareVersions(a, b).value)
    ensures WellFormed(a) ==> CompareVersions(a, a) == Some(0)
  {
    if WellFormed(a) && WellFormed(b) {
      KeysExclusive(KeyOf(a).value, KeyOf(b).value);
      KeysExclusive(KeyOf(b).value, KeyOf(a).value);
    }
    if WellFormed(a) {
      KeysExclusive(KeyOf(a).value, KeyOf(a).value);
    }
  }

  /** Not-later is transitive, and one strict step makes the whole chain strict. */
  lemma CompareTransitive(a: string, b: string, c: string)
    requires WellFormed(a) && WellFormed(b) && WellFormed(c)
    requires CompareVersions(a, b).value <= 0 && CompareVersions(b, c).value <= 0
    ensures CompareVersions(a, c).value <= 0
    ensures CompareVersions(a, c).value == 0 <==>
              CompareVersions(a, b).value == 0 && CompareVersions(b, c).value == 0
  {
    var x, y, z := KeyOf(a).value, KeyOf(b).value, KeyOf(c).value;
    KeyTransitive(x, y, z);
    KeysExclusive(x, z);
    KeysExclusive(z, x);
  }

  /** The sign is exactly the order of the keys, so equal means equal up to padding and nothing else. */
  lemma CompareMeaning(a: string, b: string)
    requires WellFormed(a) && WellFormed(b)
    ensures CompareVersions(a, b).value < 0 <==> KeyBelow(KeyOf(a).value, KeyOf(b).value)
    ensures CompareVersions(a, b).value == 0 <==> KeySame(KeyOf(a).value, KeyOf(b).value)
    ensures CompareVersions(a, b).value > 0 <==> KeyBelow(KeyOf(b).value, KeyOf(a).value)
  {
    KeysExclusive(KeyOf(a).value, KeyOf(b).value);
    KeysExclusive(KeyOf(b).value, KeyOf(a).value);
  }

  // ----- version constraints

  datatype Relation = Any | Less | LessEqual | Equal | GreaterEqual | Greater

  /** `satisfies`: None where a malformed version makes Python raise. */
  function Satisfies(version: string, op: Relation, wanted: string): Option<bool> {
    if op == Any then Some(true)
    else
      match CompareVersions(version, wanted)
      case None => None
      case Some(c) => Some(match op
                           case Any => true
                           case Less => c < 0
                           case LessEqual => c <= 0
                           case Equal => c == 0
                           case GreaterEqual => c >= 0
                           case Greater => c > 0)
  }

  /** The relations in terms of three facts: before, the same, after. */
  lemma RelationsMean(v: string, w: string)
    requires WellFormed(v) && WellFormed(w)
    ensures var before, same, after := CompareVersions(v, w) == Some(-1), CompareVersions(v, w) == Some(0), CompareVersions(w, v) == Some(-1);
            && (before || same || after) && !(before && same) && !(before && after) && !(same && after)
            && Satisfies(v, Less, w) == Some(before) && Satisfies(v, LessEqual, w) == Some(before || same)
            && Satisfies(v, Equal, w) == Some(same)
            && Satisfies(v, GreaterEqual, w) == Some(after || same) && Satisfies(v, Greater, w) == Some(after)
  {
    CompareAntisymmetric(v, w);
    hide KeyOf, CompareKeys;
  }
}
