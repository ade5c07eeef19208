/**
 * Bounded streams: `drain` of apps/sandbox/src/supervise.c, `capWriter` of
 * apps/judge-engine/execution/runner/capwriter.go, and the byte budget that all inputs of one run share,
 * apps/judge-engine/execution/runner/sources.go.
 */
module Streams {
  import opened Common

  type Bytes = seq<bv8>

  /** The bytes of a list of chunks. */
  function Joined(chunks: seq<Bytes>): Bytes {
    if chunks == [] then [] else Joined(chunks[..|chunks| - 1]) + chunks[|chunks| - 1]
  }

  lemma TakeMore(seen: Bytes, chunk: Bytes, n: nat)
    ensures Take(seen + chunk, n) == Take(seen, n) + Take(chunk, n - |Take(seen, n)|)
  {
  }

  lemma JoinedNothing()
    ensures Joined([]) == []
  {
  }

  lemma JoinedNext(chunks: seq<Bytes>, i: nat, before: Bytes)
    requires i < |chunks|
    ensures before + Joined(chunks[..i]) + chunks[i] == before + Joined(chunks[..i + 1])
  {
    assert chunks[..i + 1][..i] == chunks[..i];
  }

  /** The bytes of a read, put behind those that are there. */
  method Fill(data: array<bv8>, from: nat, bytes: Bytes)
    requires from + |bytes| <= data.Length
    modifies data
    ensures data[..from + |bytes|] == old(data[..from]) + bytes
  {
    forall i | 0 <= i < |bytes| {
      data[from + i] := bytes[i];
    }
    assert data[..from] == old(data[..from]);
    assert data[from..from + |bytes|] == bytes;
  }

  /** `struct stream`: a buffer of `limit` bytes, and whether anything had to be thrown away. */
  class Stream {
    const data: array<bv8>
    const limit: nat
    var len: nat
    var exceeded: bool
    ghost var seen: Bytes   // everything read from the descriptor so far

    ghost predicate Valid()
      reads this, data
    {
      && data.Length == limit + 1
      && len <= limit && data[..len] == Take(seen, limit)
      && (exceeded <==> |seen| > limit)
    }

    constructor (limit: nat)
      ensures Valid() && fresh(data) && seen == [] && this.limit == limit
    {
      this.limit := limit;
      data := new bv8[limit + 1];
      len, exceeded, seen := 0, false, [];
    }

    /** One successful read. */
    method Absorb(chunk: Bytes)
      requires Valid()
      modifies this, data
      ensures Valid() && seen == old(seen) + chunk
    {
      var take := |chunk|;
      if len + take > limit {
        take := limit - len;
        exceeded := true;
      }
      TakeMore(seen, chunk, limit);
      assert chunk[..take] == Take(chunk, limit - len);
      hide Take;
      Fill(data, len, chunk[..take]);
      len := len + take;
      seen := seen + chunk;
    }

    /** `drain`: what is kept and what is flagged depends on the bytes, not on how reads cut them. */
    method Drain(chunks: seq<Bytes>)
      requires Valid()
      modifies this, data
      ensures Valid()
      ensures seen == old(seen) + Joined(chunks)
      ensures data[..len] == Take(old(seen) + Joined(chunks), limit)
      ensures exceeded <==> |old(seen) + Joined(chunks)| > limit
    {
      hide Joined, Take;
      JoinedNothing();
      for i := 0 to |chunks|
        invariant Valid() && seen == old(seen) + Joined(chunks[..i])
      {
        JoinedNext(chunks, i, old(seen));
        Absorb(chunks[i]);
      }
      assert chunks[..|chunks|] == chunks;
    }
  }

  /** The writer that accepts everything, keeps `max` bytes and calls back once. */
  class CapWriter {
    const max: nat
    var buf: Bytes
    var current: nat
    var overflow: bool
    var calls: nat          // times onOverflow ran
    ghost var seen: Bytes

    ghost predicate Valid()
      reads this
    {
      && current == |buf| <= max && buf == Take(seen, max)
      && (overflow <==> |seen| > max)
      && calls == (if overflow then 1 else 0)
    }

    constructor (max: nat)
      ensures Valid() && seen == [] && this.max == max
    {
      this.max := max;
      buf, current, overflow, calls, seen := [], 0, false, 0, [];
    }

    method Write(p: Bytes) returns (n: nat)
      requires Valid()
      modifies this
      ensures Valid() && seen == old(seen) + p && n == |p|
    {
      var remain := max - current;
      if |p| > remain && !overflow {
        overflow := true;
        calls := calls + 1;
      }
      TakeMore(seen, p, max);
      if remain > 0 {
        var k := if |p| < remain then |p| else remain;
        buf := buf + p[..k];
        current := current + k;
      }
      seen := seen + p;
      n := |p|;
    }

    /** Any cutting of the same bytes leaves the same buffer, the same flag, and at most one callback. */
    method WriteAll(chunks: seq<Bytes>)
      requires Valid() && seen == []
      modifies this
      ensures Valid()
      ensures buf == Take(Joined(chunks), max)
      ensures overflow <==> |Joined(chunks)| > max
      ensures calls == if |Joined(chunks)| > max then 1 else 0
    {
      for i := 0 to |chunks|
        invariant Valid() && seen == Joined(chunks[..i])
      {
        assert chunks[..i + 1][..i] == chunks[..i];
        var _ := Write(chunks[i]);
      }
      assert chunks[..|chunks|] == chunks;
    }
  }

  // ----- the shared budget

  function Sum(ns: seq<nat>): nat { if ns == [] then 0 else Sum(ns[..|ns| - 1]) + ns[|ns| - 1] }

  lemma {:induction false} SumUpdate(ns: seq<nat>, i: nat, n: nat)
    requires i < |ns|
    ensures Sum(ns[i := n]) == Sum(ns) - ns[i] + n
  {
    var last := |ns| - 1;
    if i < last {
      SumUpdate(ns[..last], i, n);
      assert ns[i := n][..last] == ns[..last][i := n];
    } else {
      assert ns[i := n][..last] == ns[..last];
    }
  }

  lemma {:induction false} SumMonotone(xs: seq<nat>, ys: seq<nat>)
    requires |xs| == |ys| && forall i :: 0 <= i < |xs| ==> xs[i] <= ys[i]
    ensures Sum(xs) <= Sum(ys)
    ensures Sum(xs) == Sum(ys) ==> xs == ys
  {
    if xs != [] {
      SumMonotone(xs[..|xs| - 1], ys[..|ys| - 1]);
      assert xs == xs[..|xs| - 1] + [xs[|xs| - 1]];
      assert ys == ys[..|ys| - 1] + [ys[|ys| - 1]];
    }
  }

  function Lengths(data: seq<Bytes>): (r: seq<nat>)
    ensures |r| == |data| && forall i :: 0 <= i < |r| ==> r[i] == |data[i]|
  {
    seq(|data|, i requires 0 <= i < |data| => |data[i]|)
  }

  datatype ReadResult = More | Eof | TooLarge

  /** All readers of one run: their sources, how far each has been read, and the one budget. */
  class Inputs {
    const data: seq<Bytes>
    const max: nat
    var remaining: nat
    var delivered: seq<Bytes>
    var ended: seq<bool>

    ghost predicate Valid()
      reads this
    {
      && |delivered| == |ended| == |data|
      && (forall i :: 0 <= i < |data| ==> delivered[i] <= data[i])
      && (forall i :: 0 <= i < |data| && ended[i] ==> delivered[i] == data[i])
      && remaining + Sum(Lengths(delivered)) == max
    }

    constructor (data: seq<Bytes>, max: nat)
      ensures Valid() && this.data == data && this.max == max
      ensures forall i :: 0 <= i < |data| ==> !ended[i]
    {
      this.data, this.max, remaining := data, max, max;
      delivered := seq(|data|, i => []);
      ended := seq(|data|, i => false);
      new;
      NothingRead(|data|);
      assert Lengths(delivered) == seq(|data|, i => 0);
    }

    /**
     * `budgetReader.Read` on source i with a buffer of `room` bytes, where the source would hand out up to
     * `want` of them.  TooLarge is only reported when the sources really exceed the budget, and Eof only
     * when everything of this source has been delivered.
     */
    method Read(i: nat, room: nat, want: nat) returns (r: ReadResult)
      requires Valid() && i < |data|
      modifies this
      ensures Valid()
      ensures r == TooLarge <==> room > 0 && old(remaining) == 0 && |old(delivered)[i]| < |data[i]|
      ensures r == TooLarge ==> Sum(Lengths(data)) > max
      ensures r == Eof <==> room > 0 && |old(delivered)[i]| == |data[i]|
      ensures r == Eof ==> delivered[i] == data[i]
      ensures ended == if r == Eof then old(ended)[i := true] else old(ended)
      ensures r != More ==> delivered == old(delivered) && remaining == old(remaining)
      ensures r == More ==>
                var n := |delivered[i]| - |old(delivered)[i]|;
                && n == Least(want, Least(room, Least(old(remaining), |data[i]| - |old(delivered)[i]|)))
                && delivered == old(delivered)[i := data[i][..|delivered[i]|]] && remaining == old(remaining) - n
      ensures r == More && room > 0 && want > 0 ==> |delivered[i]| > |old(delivered)[i]|
    {
      hide Sum, Lengths;
      var pos := |delivered[i]|;
      assert data[i][..pos] == delivered[i];
      if room == 0 {
        assert delivered[i := data[i][..pos]] == delivered;
        return More;
      }
      if remaining == 0 {
        if pos < |data[i]| {
          Overfull(i);
          return TooLarge;
        }
        ended := ended[i := true];
        return Eof;
      }
      var p := if room > remaining then remaining else room;
      var left := |data[i]| - pos;
      if left == 0 {
        ended := ended[i := true];
        return Eof;
      }
      var n := if want < p then want else p;
      n := if n < left then n else left;
      Charge(delivered, i, data[i][..pos + n]);
      delivered := delivered[i := data[i][..pos + n]];
      remaining := remaining - n;
      r := More;
    }

    /** The sources that have not reached EOF. */
    ghost function Unfinished(): set<nat>
      reads this
    {
      set i: nat | i < |ended| && !ended[i]
    }

    /**
     * Read every source to its end, in whatever order and in whatever portions, as long as each read offers room
     * and each source hands out something: that works exactly when the total fits, and then delivers everything.
     */
    method ReadAll() returns (ok: bool)
      requires Valid()
      modifies this
      ensures Valid()
      ensures ok <==> Sum(Lengths(data)) <= max
      ensures ok ==> delivered == data && forall i :: 0 <= i < |data| ==> ended[i]
    {
      hide Sum, Lengths;
      while exists i :: 0 <= i < |data| && !ended[i]
        invariant Valid()
        decreases remaining, |Unfinished()|
      {
        var i: nat :| i < |data| && !ended[i];
        var room: nat, want: nat := *, *;
        ghost var before := Unfinished();
        var r := Read(i, room + 1, want + 1);
        if r == TooLarge {
          return false;
        }
        if r == Eof {
          assert Unfinished() == before - {i};
        }
      }
      AllDelivered();
      ok := true;
    }

    /** A spent budget with bytes left over means that the total does not fit. */
    lemma Overfull(i: nat)
      requires Valid() && remaining == 0 && i < |data| && |delivered[i]| < |data[i]|
      ensures Sum(Lengths(data)) > max
    {
      SumMonotone(Lengths(delivered), Lengths(data));
      assert Lengths(delivered)[i] != Lengths(data)[i];
    }

    /** All sources at EOF: every byte was delivered and the total fits. */
    lemma AllDelivered()
      requires Valid() && forall i :: 0 <= i < |data| ==> ended[i]
      ensures delivered == data && Sum(Lengths(data)) <= max
    {
      assert delivered == data;
    }

    /** If the total fits, no read of any source can fail, and if it does not, they cannot all reach EOF. */
    lemma BudgetIff()
      requires Valid()
      ensures Sum(Lengths(data)) <= max ==> forall i :: 0 <= i < |data| ==> !(remaining == 0 && |delivered[i]| < |data[i]|)
      ensures Sum(Lengths(data)) > max ==> exists i :: 0 <= i < |data| && !ended[i]
    {
      if Sum(Lengths(data)) <= max {
        forall i | 0 <= i < |data| ensures !(remaining == 0 && |delivered[i]| < |data[i]|) {
          if remaining == 0 && |delivered[i]| < |data[i]| {
            Overfull(i);
          }
        }
      } else if forall i :: 0 <= i < |data| ==> ended[i] {
        AllDelivered();
      }
    }
  }

  function Least(a: int, b: int): int { if a < b then a else b }

  lemma Charge(delivered: seq<Bytes>, i: nat, bytes: Bytes)
    requires i < |delivered|
    ensures Sum(Lengths(delivered[i := bytes])) == Sum(Lengths(delivered)) - |delivered[i]| + |bytes|
  {
    assert Lengths(delivered[i := bytes]) == Lengths(delivered)[i := |bytes|];
    SumUpdate(Lengths(delivered), i, |bytes|);
  }

  lemma {:induction false} NothingRead(n: nat)
    ensures Sum(seq(n, i => 0)) == 0
  {
    if n > 0 {
      NothingRead(n - 1);
      assert seq(n, i => 0)[..n - 1] == seq(n - 1, i => 0);
    }
  }
}
