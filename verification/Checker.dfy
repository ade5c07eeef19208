/**
 * The answer checker, apps/judge-engine/judge/checker/checker.go.
 *
 * The code walks two byte streams once, side by side.  The specification never looks at both at the
 * same time: it splits each stream into tokens, and compares whole token lists and whole streams.
 */
module Checker {
  import opened Common

  type Byte = b: int | 0 <= b < 256

  type Bytes = seq<Byte>

  const NEWLINE: Byte := 10
  const RETURN: Byte := 13
  const EXCERPT_BYTES := 200
  const EOF := -1
  const BROKEN := -2

  predicate IsSpace(c: int) { c == 32 || 9 <= c <= 13 }

  datatype Verdict = AC | PE | WA | SE

  datatype Diff = Diff(line: nat, got: Bytes, want: Bytes)

  const NO_DIFF := Diff(0, [], [])

  // ----- tokens

  /** Number of leading spaces. */
  function Spaces(s: Bytes): (n: nat)
    ensures n <= |s| && (n < |s| ==> !IsSpace(s[n]))
    ensures forall i :: 0 <= i < n ==> IsSpace(s[i])
  {
    if s == [] || !IsSpace(s[0]) then 0 else 1 + Spaces(s[1..])
  }

  /** Number of leading non-spaces. */
  function Letters(s: Bytes): (n: nat)
    ensures n <= |s| && (n < |s| ==> IsSpace(s[n]))
    ensures forall i :: 0 <= i < n ==> !IsSpace(s[i])
  {
    if s == [] || IsSpace(s[0]) then 0 else 1 + Letters(s[1..])
  }

  /** The token that starts at pos. */
  function TokenAt(data: Bytes, pos: nat): (token: Bytes)
    requires pos <= |data|
    ensures |token| <= |data| - pos && (pos < |data| && !IsSpace(data[pos]) ==> |token| > 0)
  {
    data[pos..][..Letters(data[pos..])]
  }

  /** The maximal runs of non-spaces, in order. */
  function Tokens(s: Bytes): seq<Bytes>
    decreases |s|
  {
    var q := Spaces(s);
    if q == |s| then [] else [TokenAt(s, q)] + Tokens(s[q + |TokenAt(s, q)|..])
  }

  /** Where token number k starts; the end of the stream if there is no such token. */
  function TokenStart(s: Bytes, k: nat): (n: nat)
    ensures n <= |s|
    decreases |s|
  {
    var q := Spaces(s);
    if k == 0 || q == |s| then q
    else q + |TokenAt(s, q)| + TokenStart(s[q + |TokenAt(s, q)|..], k - 1)
  }

  function Newlines(s: Bytes): nat {
    if s == [] then 0 else Newlines(s[..|s| - 1]) + (if s[|s| - 1] == NEWLINE then 1 else 0)
  }

  lemma {:induction false} NewlinesAppend(s: Bytes, t: Bytes)
    requires forall i :: 0 <= i < |t| ==> t[i] != NEWLINE
    ensures Newlines(s + t) == Newlines(s)
  {
    if t == [] {
      assert s + t == s;
    } else {
      assert (s + t)[..|s + t| - 1] == s + t[..|t| - 1];
      NewlinesAppend(s, t[..|t| - 1]);
    }
  }

  /** Length of the longest common prefix. */
  function CommonPrefix<T(==)>(x: seq<T>, y: seq<T>): (n: nat)
    ensures n <= |x| && n <= |y| && x[..n] == y[..n]
    ensures n < |x| && n < |y| ==> x[n] != y[n]
  {
    if x == [] || y == [] || x[0] != y[0] then 0
    else
      var n := CommonPrefix(x[1..], y[1..]);
      assert x[..n + 1] == [x[0]] + x[1..][..n] && y[..n + 1] == [y[0]] + y[1..][..n];
      n + 1
  }

  lemma {:induction false} CommonPrefixUnique<T>(x: seq<T>, y: seq<T>, n: nat)
    requires n <= |x| && n <= |y| && x[..n] == y[..n]
    requires n < |x| && n < |y| ==> x[n] != y[n]
    ensures CommonPrefix(x, y) == n
  {
    if n > 0 {
      assert x[..n][0] == x[0] && y[..n][0] == y[0];
      assert x[1..][..n - 1] == x[..n][1..] && y[1..][..n - 1] == y[..n][1..];
      CommonPrefixUnique(x[1..], y[1..], n - 1);
    }
  }

  // ----- what a verdict means

  function LineAt(s: Bytes, pos: nat): nat
    requires pos <= |s|
  {
    1 + Newlines(s[..pos])
  }

  /** The verdict as a property of the two whole streams. */
  function Meaning(strict: bool, got: Bytes, want: Bytes): Verdict {
    if Tokens(got) != Tokens(want) then WA
    else if strict && got != want then PE
    else AC
  }

  /** WA: the line of the first token that differs.  PE: the line of the first byte that differs. */
  function MeaningLine(strict: bool, got: Bytes, want: Bytes): nat {
    match Meaning(strict, got, want)
    case WA => LineAt(got, TokenStart(got, CommonPrefix(Tokens(got), Tokens(want))))
    case PE => LineAt(got, CommonPrefix(got, want))
    case _ => 0
  }

  /** Whitespace is policy, tokens are not: the option turns PE into AC and touches nothing else. */
  lemma StrictOnlyTurnsPE(got: Bytes, want: Bytes)
    ensures Meaning(true, got, want) == WA <==> Meaning(false, got, want) == WA
    ensures Meaning(true, got, want) == AC <==> got == want
    ensures Meaning(false, got, want) != PE
    ensures Meaning(true, got, want) != Meaning(false, got, want) <==>
              Tokens(got) == Tokens(want) && got != want
  {
  }

  // ----- scanner

  /** The current line as far as it was read, cut to EXCERPT_BYTES. */
  function LineSoFar(data: Bytes, pos: nat): (r: Bytes)
    requires pos <= |data|
    ensures |r| <= EXCERPT_BYTES
  {
    if pos == 0 || data[pos - 1] == NEWLINE then []
    else
      var r := LineSoFar(data, pos - 1);
      if |r| < EXCERPT_BYTES then r + [data[pos - 1]] else r
  }

  /** A stream that ends with a read error instead of EOF is broken. */
  class Scanner {
    const data: Bytes
    const broken: bool
    var pos: nat
    var line: nat
    var cur: Bytes

    ghost predicate Valid()
      reads this
    {
      pos <= |data| && line == LineAt(data, pos) && cur == LineSoFar(data, pos)
    }

    constructor (data: Bytes, broken: bool)
      ensures Valid() && pos == 0 && this.data == data && this.broken == broken
    {
      this.data, this.broken := data, broken;
      pos, line, cur := 0, 1, [];
    }

    function Rest(): Bytes
      reads this
      requires pos <= |data|
    {
      data[pos..]
    }

    function Peek(): (c: int)
      reads this
      ensures pos < |data| ==> c == data[pos]
      ensures c == EOF <==> pos >= |data| && !broken
      ensures c == BROKEN <==> pos >= |data| && broken
    {
      if pos < |data| then data[pos] else if broken then BROKEN else EOF
    }

    method Next()
      requires Valid() && pos < |data|
      modifies this
      ensures Valid() && pos == old(pos) + 1
    {
      var c := data[pos];
      assert data[..pos + 1][..pos] == data[..pos];
      if c == NEWLINE {
        line := line + 1;
        cur := [];
      } else if |cur| < EXCERPT_BYTES {
        cur := cur + [c];
      }
      pos := pos + 1;
    }

    /** `lineExcerpt`: what was read of the line, then the rest of it without carriage returns. */
    method LineExcerpt() returns (r: Bytes)
      requires Valid()
      modifies this`pos
      ensures r == TrimPartialRune(Excerpt(data, old(pos)))
    {
      var out := cur;
      ghost var start := pos;
      assert out + Remainder(data[pos..], EXCERPT_BYTES - |out|) == Excerpt(data, start);
      while |out| < EXCERPT_BYTES && pos < |data| && data[pos] != NEWLINE
        invariant start <= pos <= |data| && |out| <= EXCERPT_BYTES
        invariant out + Remainder(data[pos..], EXCERPT_BYTES - |out|) == Excerpt(data, start)
        decreases |data| - pos
      {
        var c := data[pos];
        assert data[pos..][1..] == data[pos + 1..];
        if c != RETURN {
          out := out + [c];
        }
        pos := pos + 1;
      }
      assert out == Excerpt(data, start);
      r := TrimLoop(out);
    }
  }

  // ----- excerpts

  /** At most `room` bytes of the current line, without carriage returns. */
  function Remainder(rest: Bytes, room: nat): (r: Bytes)
    ensures |r| <= room
  {
    if room == 0 || rest == [] || rest[0] == NEWLINE then []
    else if rest[0] == RETURN then Remainder(rest[1..], room)
    else [rest[0]] + Remainder(rest[1..], room - 1)
  }

  function Excerpt(data: Bytes, pos: nat): (r: Bytes)
    requires pos <= |data|
    ensures |r| <= EXCERPT_BYTES
  {
    var so := LineSoFar(data, pos);
    so + Remainder(data[pos..], EXCERPT_BYTES - |so|)
  }

  predicate Continuation(b: int) { 0x80 <= b <= 0xBF }

  /** Length of the UTF-8 encoded character at the front, 0 if there is none (RFC 3629, section 4). */
  function RuneLength(s: Bytes): (n: nat)
    ensures n <= 4 && n <= |s|
  {
    if s == [] then 0
    else if s[0] < 0x80 then 1
    else if 0xC2 <= s[0] <= 0xDF then
      if |s| >= 2 && Continuation(s[1]) then 2 else 0
    else if 0xE0 <= s[0] <= 0xEF then
      var lo := if s[0] == 0xE0 then 0xA0 else 0x80;
      var hi := if s[0] == 0xED then 0x9F else 0xBF;
      if |s| >= 3 && lo <= s[1] <= hi && Continuation(s[2]) then 3 else 0
    else if 0xF0 <= s[0] <= 0xF4 then
      var lo := if s[0] == 0xF0 then 0x90 else 0x80;
      var hi := if s[0] == 0xF4 then 0x8F else 0xBF;
      if |s| >= 4 && lo <= s[1] <= hi && Continuation(s[2]) && Continuation(s[3]) then 4 else 0
    else 0
  }

  predicate ValidUtf8(s: Bytes)
    decreases |s|
  {
    s == [] || (RuneLength(s) > 0 && ValidUtf8(s[RuneLength(s)..]))
  }

  /** The longest prefix that is valid UTF-8. */
  function TrimPartialRune(s: Bytes): (r: Bytes)
    ensures r <= s && ValidUtf8(r)
    ensures forall n :: |r| < n <= |s| ==> !ValidUtf8(s[..n])
    decreases |s|
  {
    if ValidUtf8(s) then
      s
    else
      var r := TrimPartialRune(s[..|s| - 1]);
      assert forall n :: 0 <= n < |s| ==> s[..|s| - 1][..n] == s[..n];
      assert s[..|s|] == s;
      r
  }

  /** `trimPartialRune`. */
  method TrimLoop(s: Bytes) returns (r: Bytes)
    ensures r == TrimPartialRune(s)
  {
    r := s;
    while |r| > 0 && !ValidUtf8(r)
      invariant TrimPartialRune(s) == TrimPartialRune(r)
    {
      r := r[..|r| - 1];
    }
  }

  /** Cutting a valid text anywhere costs at most three more bytes: only the split character goes. */
  lemma {:induction false} TrimLosesOneRune(text: Bytes, n: nat)
    requires ValidUtf8(text) && n <= |text|
    ensures |TrimPartialRune(text[..n])| >= n - 3
  {
    var m := CutPoint(text, n);
    assert text[..n][..m] == text[..m];
  }

  lemma CutPoint(text: Bytes, n: nat) returns (m: nat)
    requires ValidUtf8(text) && n <= |text|
    ensures m <= n <= m + 3 && ValidUtf8(text[..m])
    decreases |text|
  {
    var k := RuneLength(text);
    if text == [] || n < k {
      m := 0;
    } else {
      m := CutPoint(text[k..], n - k);
      assert text[..k + m][k..] == text[k..][..m];
      assert RuneLength(text[..k + m]) == k;
      m := k + m;
    }
  }

  /** The line that contains position pos, without its newline. */
  function LineFrom(data: Bytes): (r: Bytes) {
    if data == [] || data[0] == NEWLINE then [] else [data[0]] + LineFrom(data[1..])
  }

  function LineStart(data: Bytes, pos: nat): (n: nat)
    requires pos <= |data|
    ensures n <= pos
  {
    if pos == 0 || data[pos - 1] == NEWLINE then pos else LineStart(data, pos - 1)
  }

  /** On a line without carriage returns the excerpt is simply the first 200 bytes of that line. */
  lemma ExcerptOfPlainLine(data: Bytes, pos: nat)
    requires pos <= |data|
    requires RETURN !in LineFrom(data[LineStart(data, pos)..])
    ensures Excerpt(data, pos) == Take(LineFrom(data[LineStart(data, pos)..]), EXCERPT_BYTES)
  {
    var start := LineStart(data, pos);
    SoFarIsPrefix(data, pos);
    LineSplit(data, start, pos);
    RemainderOfPlain(data[pos..], EXCERPT_BYTES - |LineSoFar(data, pos)|);
  }

  lemma {:induction false} SoFarIsPrefix(data: Bytes, pos: nat)
    requires pos <= |data|
    ensures LineSoFar(data, pos) == Take(data[LineStart(data, pos)..pos], EXCERPT_BYTES)
    ensures forall i :: LineStart(data, pos) <= i < pos ==> data[i] != NEWLINE
  {
    if pos > 0 && data[pos - 1] != NEWLINE {
      SoFarIsPrefix(data, pos - 1);
      var start := LineStart(data, pos);
      assert data[start..pos] == data[start..pos - 1] + [data[pos - 1]];
    }
  }

  lemma {:induction false} LineSplit(data: Bytes, start: nat, pos: nat)
    requires start <= pos <= |data|
    requires forall i :: start <= i < pos ==> data[i] != NEWLINE
    ensures LineFrom(data[start..]) == data[start..pos] + LineFrom(data[pos..])
    decreases pos - start
  {
    if start < pos {
      assert data[start..][1..] == data[start + 1..];
      LineSplit(data, start + 1, pos);
      assert data[start..pos] == [data[start]] + data[start + 1..pos];
    }
  }

  lemma {:induction false} RemainderOfPlain(rest: Bytes, room: nat)
    requires RETURN !in LineFrom(rest)
    ensures Remainder(rest, room) == Take(LineFrom(rest), room)
    decreases |rest|
  {
    if room > 0 && rest != [] && rest[0] != NEWLINE {
      var tail := LineFrom(rest[1..]);
      assert LineFrom(rest) == [rest[0]] + tail;
      assert forall c :: c in tail ==> c in LineFrom(rest);
      RemainderOfPlain(rest[1..], room - 1);
    }
  }

  // ----- skipSpaces

  /** A space at the front, and what is left behind it. */
  lemma SpacesStep(data: Bytes, pos: nat)
    requires pos <= |data|
    ensures pos < |data| && IsSpace(data[pos]) ==> Spaces(data[pos..]) == 1 + Spaces(data[pos + 1..])
    ensures pos == |data| || !IsSpace(data[pos]) ==> Spaces(data[pos..]) == 0
  {
    if pos < |data| {
      assert data[pos..][0] == data[pos];
      assert data[pos..][1..] == data[pos + 1..];
    }
  }

  /** The two cursors have moved from a0, b0 to i, j, over spaces only. */
  ghost predicate Skipping(a: Bytes, b: Bytes, a0: nat, b0: nat, i: nat, j: nat, same: bool, line: nat)
    requires a0 <= |a| && b0 <= |b|
  {
    && a0 <= i <= |a| && b0 <= j <= |b|
    && a0 + Spaces(a[a0..]) == i + Spaces(a[i..])
    && b0 + Spaces(b[b0..]) == j + Spaces(b[j..])
    && (same ==> i - a0 == j - b0 && a[a0..i] == b[b0..j])
    && (!same ==> Marked(a, b, a0, b0, i, j, line))
  }

  /** The first difference lies behind the cursors, and `line` is its line. */
  ghost predicate Marked(a: Bytes, b: Bytes, a0: nat, b0: nat, i: nat, j: nat, line: nat)
    requires a0 <= |a| && b0 <= |b|
  {
    var k := CommonPrefix(a[a0..], b[b0..]);
    (k < i - a0 || k < j - b0) && line == LineAt(a, a0 + k)
  }

  /** Both cursors agree so far and the next bytes do not: here is the first difference. */
  lemma FirstDifference(a: Bytes, b: Bytes, a0: nat, b0: nat, i: nat, j: nat)
    requires a0 <= i <= |a| && b0 <= j <= |b| && i - a0 == j - b0 && a[a0..i] == b[b0..j]
    requires i < |a| && j < |b| ==> a[i] != b[j]
    ensures CommonPrefix(a[a0..], b[b0..]) == i - a0
  {
    var x, y, n := a[a0..], b[b0..], i - a0;
    assert x[..n] == a[a0..i] && y[..n] == b[b0..j];
    if n < |x| && n < |y| {
      assert x[n] == a[i] && y[n] == b[j];
    }
    CommonPrefixUnique(x, y, n);
  }

  /** One turn of the loop: whichever side stands on a space moves, and a difference is marked at once. */
  lemma SkipStep(a: Bytes, b: Bytes, a0: nat, b0: nat, i: nat, j: nat, same: bool, line: nat)
    requires a0 <= |a| && b0 <= |b| && Skipping(a, b, a0, b0, i, j, same, line)
    ensures var spaceA, spaceB := i < |a| && IsSpace(a[i]), j < |b| && IsSpace(b[j]);
            var equal := spaceA && spaceB && a[i] == b[j];
            spaceA || spaceB ==>
              Skipping(a, b, a0, b0, if spaceA then i + 1 else i, if spaceB then j + 1 else j,
                       same && equal, if same && !equal then LineAt(a, i) else line)
  {
    hide Spaces, CommonPrefix, Newlines;
    SpacesStep(a, i);
    SpacesStep(b, j);
    var spaceA, spaceB := i < |a| && IsSpace(a[i]), j < |b| && IsSpace(b[j]);
    if same && spaceA && spaceB && a[i] == b[j] {
      assert a[a0..i + 1] == a[a0..i] + [a[i]];
      assert b[b0..j + 1] == b[b0..j] + [b[j]];
    } else if same && (spaceA || spaceB) {
      FirstDifference(a, b, a0, b0, i, j);
    }
  }

  lemma SkipStart(a: Bytes, b: Bytes, a0: nat, b0: nat)
    requires a0 <= |a| && b0 <= |b|
    ensures Skipping(a, b, a0, b0, a0, b0, true, 0)
  {
  }

  /** Where the spaces end, seen from a cursor that is on no space, or at the end of its stream. */
  lemma SkippedTo(a: Bytes, b: Bytes, a0: nat, b0: nat, i: nat, j: nat, same: bool, line: nat)
    requires a0 <= |a| && b0 <= |b| && Skipping(a, b, a0, b0, i, j, same, line)
    ensures i == |a| || !IsSpace(a[i]) ==> i == a0 + Spaces(a[a0..])
    ensures j == |b| || !IsSpace(b[j]) ==> j == b0 + Spaces(b[b0..])
    ensures i <= a0 + Spaces(a[a0..]) <= |a| && j <= b0 + Spaces(b[b0..]) <= |b|
  {
    SpacesStep(a, i);
    SpacesStep(b, j);
  }

  /** Reading at pos fails. */
  predicate CutAt(s: Scanner, pos: nat) { s.broken && pos == |s.data| }

  method SkipSpaces(a: Scanner, b: Scanner) returns (ok: bool, same: bool, diffLine: nat)
    requires a != b && a.Valid() && b.Valid()
    modifies a, b
    ensures a.Valid() && b.Valid()
    ensures ok <==> !CutAt(a, old(a.pos) + Spaces(a.data[old(a.pos)..])) && !CutAt(b, old(b.pos) + Spaces(b.data[old(b.pos)..]))
    ensures ok ==> Skipping(a.data, b.data, old(a.pos), old(b.pos), a.pos, b.pos, same, diffLine)
    ensures ok ==> (a.pos < |a.data| ==> !IsSpace(a.data[a.pos])) && (b.pos < |b.data| ==> !IsSpace(b.data[b.pos]))
  {
    hide Skipping, LineAt, LineSoFar, Spaces;
    ghost var a0, b0 := a.pos, b.pos;
    same, diffLine := true, 0;
    SkipStart(a.data, b.data, a0, b0);
    while true
      invariant a.Valid() && b.Valid()
      invariant Skipping(a.data, b.data, a0, b0, a.pos, b.pos, same, diffLine)
      decreases |a.data| - a.pos + |b.data| - b.pos
    {
      var ca, cb := a.Peek(), b.Peek();
      if ca == BROKEN || cb == BROKEN {
        SkippedTo(a.data, b.data, a0, b0, a.pos, b.pos, same, diffLine);
        return false, false, 0;
      }
      var spaceA, spaceB := ca != EOF && IsSpace(ca), cb != EOF && IsSpace(cb);
      if !spaceA && !spaceB {
        SkippedTo(a.data, b.data, a0, b0, a.pos, b.pos, same, diffLine);
        return true, same, diffLine;
      }
      SkipStep(a.data, b.data, a0, b0, a.pos, b.pos, same, diffLine);
      if same && ca != cb {
        same, diffLine := false, a.line;
      }
      if spaceA {
        a.Next();
      }
      if spaceB {
        b.Next();
      }
    }
  }

  // ----- compareOneToken

  lemma LettersStep(data: Bytes, pos: nat)
    requires pos <= |data|
    ensures pos < |data| && !IsSpace(data[pos]) ==> Letters(data[pos..]) == 1 + Letters(data[pos + 1..])
    ensures pos == |data| || IsSpace(data[pos]) ==> Letters(data[pos..]) == 0
  {
    if pos < |data| {
      assert data[pos..][0] == data[pos];
      assert data[pos..][1..] == data[pos + 1..];
    }
  }

  /** The cursors have moved over equal letters. */
  ghost predicate Matching(a: Bytes, b: Bytes, a0: nat, b0: nat, i: nat, j: nat) {
    && a0 <= i <= |a| && b0 <= j <= |b| && i - a0 == j - b0 && a[a0..i] == b[b0..j]
    && a0 + Letters(a[a0..]) == i + Letters(a[i..])
    && b0 + Letters(b[b0..]) == j + Letters(b[j..])
  }

  lemma TokensMatch(a: Bytes, b: Bytes, a0: nat, b0: nat, i: nat, j: nat)
    requires Matching(a, b, a0, b0, i, j)
    ensures Letters(a[i..]) == 0 && Letters(b[j..]) == 0 ==> TokenAt(a, a0) == TokenAt(b, b0)
    ensures Letters(a[i..]) == 0 && Letters(b[j..]) > 0 ==> TokenAt(a, a0) != TokenAt(b, b0)
    ensures Letters(a[i..]) > 0 && Letters(b[j..]) == 0 ==> TokenAt(a, a0) != TokenAt(b, b0)
    ensures Letters(a[i..]) > 0 && Letters(b[j..]) > 0 && a[i] != b[j] ==> TokenAt(a, a0) != TokenAt(b, b0)
  {
    hide Letters;
    assert |TokenAt(a, a0)| == Letters(a[a0..]) && |TokenAt(b, b0)| == Letters(b[b0..]);
    if Letters(a[i..]) == 0 && Letters(b[j..]) == 0 {
      assert TokenAt(a, a0) == a[a0..i] && TokenAt(b, b0) == b[b0..j];
    }
    if Letters(a[i..]) > 0 && Letters(b[j..]) > 0 {
      assert TokenAt(a, a0)[i - a0] == a[i] && TokenAt(b, b0)[j - b0] == b[j];
    }
  }

  /** Where equal letters stop, the common prefix of the two tokens ends. */
  lemma TokensAgree(a: Bytes, b: Bytes, a0: nat, b0: nat, i: nat, j: nat)
    requires Matching(a, b, a0, b0, i, j)
    requires Letters(a[i..]) == 0 || Letters(b[j..]) == 0 || a[i] != b[j]
    ensures CommonPrefix(TokenAt(a, a0), TokenAt(b, b0)) == i - a0
  {
    var x, y, n := TokenAt(a, a0), TokenAt(b, b0), i - a0;
    assert |x| == n + Letters(a[i..]) && |y| == n + Letters(b[j..]);
    hide Letters;
    assert x[..n] == a[a0..i] && y[..n] == b[b0..j];
    if n < |x| && n < |y| {
      assert x[n] == a[i] && y[n] == b[j];
    }
    hide TokenAt, Matching;
    CommonPrefixUnique(x, y, n);
  }

  lemma MatchStart(a: Bytes, b: Bytes, a0: nat, b0: nat)
    requires a0 <= |a| && b0 <= |b|
    ensures Matching(a, b, a0, b0, a0, b0)
  {
    hide Letters;
  }

  lemma MatchNext(a: Bytes, b: Bytes, a0: nat, b0: nat, i: nat, j: nat)
    requires Matching(a, b, a0, b0, i, j) && i < |a| && j < |b| && a[i] == b[j] && !IsSpace(a[i])
    ensures Matching(a, b, a0, b0, i + 1, j + 1)
  {
    LettersStep(a, i);
    LettersStep(b, j);
    hide Letters;
    assert a[a0..i + 1] == a[a0..i] + [a[i]];
    assert b[b0..j + 1] == b[b0..j] + [b[j]];
  }

  lemma MatchBound(a: Bytes, b: Bytes, a0: nat, b0: nat, i: nat, j: nat)
    requires Matching(a, b, a0, b0, i, j)
    ensures a0 <= i <= |a| && b0 <= j <= |b| && i - a0 == j - b0
  {
  }

  method CompareOneToken(a: Scanner, b: Scanner) returns (ok: bool, equal: bool)
    requires a != b && a.Valid() && b.Valid()
    modifies a, b
    ensures a.Valid() && b.Valid()
    ensures var n := CommonPrefix(TokenAt(a.data, old(a.pos)), TokenAt(b.data, old(b.pos)));
            a.pos == old(a.pos) + n && b.pos == old(b.pos) + n
    ensures ok <==> !CutAt(a, a.pos) && !CutAt(b, b.pos)
    ensures ok ==> (equal <==> TokenAt(a.data, old(a.pos)) == TokenAt(b.data, old(b.pos)))
  {
    hide Letters, LineAt, LineSoFar, Matching, TokenAt, CommonPrefix;
    ghost var a0, b0 := a.pos, b.pos;
    MatchStart(a.data, b.data, a0, b0);
    while true
      invariant a.Valid() && b.Valid()
      invariant Matching(a.data, b.data, a0, b0, a.pos, b.pos)
      decreases |a.data| - a.pos
    {
      var ca, cb := a.Peek(), b.Peek();
      MatchBound(a.data, b.data, a0, b0, a.pos, b.pos);
      LettersStep(a.data, a.pos);
      LettersStep(b.data, b.pos);
      TokensMatch(a.data, b.data, a0, b0, a.pos, b.pos);
      if a.pos == |a.data| || b.pos == |b.data| || IsSpace(ca) || IsSpace(cb) || ca != cb {
        TokensAgree(a.data, b.data, a0, b0, a.pos, b.pos);
      }
      if ca == BROKEN || cb == BROKEN {
        return false, false;
      }
      var endA, endB := ca == EOF || IsSpace(ca), cb == EOF || IsSpace(cb);
      if endA && endB {
        return true, true;
      }
      if endA != endB || ca != cb {
        return true, false;
      }
      MatchNext(a.data, b.data, a0, b0, a.pos, b.pos);
      a.Next();
      b.Next();
    }
  }

  // ----- Compare

  /** The stream is read up to a token boundary, and the tokens before it are `done`. */
  ghost predicate Progress(s: Bytes, pos: nat, done: seq<Bytes>) {
    && pos <= |s|
    && Tokens(s) == done + Tokens(s[pos..])
    && forall k: nat :: StartShifted(s, pos, |done|, k)
  }

  ghost predicate StartShifted(s: Bytes, pos: nat, count: nat, k: nat)
    requires pos <= |s|
  {
    TokenStart(s, count + k) == pos + TokenStart(s[pos..], k)
  }

  lemma ProgressStart(s: Bytes)
    ensures Progress(s, 0, [])
  {
    hide Tokens, TokenStart;
    assert s[0..] == s;
    assert [] + Tokens(s) == Tokens(s);
  }

  /** A stream cut into its first spaces, its first token and the rest. */
  lemma TokenSplit(t: Bytes, k: nat)
    ensures var q := Spaces(t);
            if q == |t| then Tokens(t) == []
            else Tokens(t) == [TokenAt(t, q)] + Tokens(t[q + |TokenAt(t, q)|..])
    ensures TokenStart(t, 0) == Spaces(t)
    ensures var q := Spaces(t);
            q < |t| ==> TokenStart(t, k + 1) == q + |TokenAt(t, q)| + TokenStart(t[q + |TokenAt(t, q)|..], k)
  {
    hide Spaces, TokenAt;
  }

  lemma TokenAtSuffix(s: Bytes, pos: nat, q: nat)
    requires pos <= q <= |s|
    ensures TokenAt(s[pos..], q - pos) == TokenAt(s, q)
  {
    assert s[pos..][q - pos..] == s[q..];
  }

  /** What the spaces in front of the next token leave: the end, or that token and the rest. */
  lemma NextToken(s: Bytes, pos: nat, done: seq<Bytes>)
    requires Progress(s, pos, done)
    ensures var q := pos + Spaces(s[pos..]);
            && q <= |s| && TokenStart(s, |done|) == q
            && (q == |s| ==> Tokens(s) == done)
            && (q < |s| ==> Tokens(s) == done + [TokenAt(s, q)] + Tokens(s[q + |TokenAt(s, q)|..]))
  {
    hide Spaces, Tokens, TokenStart, TokenAt;
    var t := s[pos..];
    var q := pos + Spaces(t);
    TokenSplit(t, 0);
    TokenAtSuffix(s, pos, q);
    assert StartShifted(s, pos, |done|, 0);
    if q < |s| {
      var n := |TokenAt(s, q)|;
      TokenFits(s, q);
      assert t[q - pos + n..] == s[q + n..];
    }
  }

  lemma TokenFits(s: Bytes, q: nat)
    requires q <= |s|
    ensures q + |TokenAt(s, q)| <= |s|
  {
  }

  lemma ProgressToken(s: Bytes, pos: nat, done: seq<Bytes>)
    requires Progress(s, pos, done) && pos + Spaces(s[pos..]) < |s|
    ensures var q := pos + Spaces(s[pos..]);
            Progress(s, q + |TokenAt(s, q)|, done + [TokenAt(s, q)])
  {
    hide Spaces, Tokens, TokenStart, TokenAt;
    var t := s[pos..];
    var q := pos + Spaces(t);
    var n := |TokenAt(s, q)|;
    NextToken(s, pos, done);
    TokenSplit(t, 0);
    TokenAtSuffix(s, pos, q);
    TokenFits(s, q);
    var pos', count := q + n, |done + [TokenAt(s, q)]|;
    assert t[q - pos + n..] == s[pos'..];
    forall k: nat ensures StartShifted(s, pos', count, k) {
      TokenSplit(t, k);
      assert StartShifted(s, pos, |done|, k + 1);
    }
  }

  /** The tokens seen so far are all that the two streams have in common. */
  lemma TokensDiffer(x: seq<Bytes>, y: seq<Bytes>, done: seq<Bytes>)
    requires done <= x && done <= y && x != y
    requires |done| < |x| && |done| < |y| ==> x[|done|] != y[|done|]
    requires |done| == |x| || |done| == |y| || x[|done|] != y[|done|]
    ensures CommonPrefix(x, y) == |done|
  {
    CommonPrefixUnique(x, y, |done|);
  }

  /** Before i and j the streams are equal, or `line` is the line of their first difference. */
  ghost predicate Layout(a: Bytes, b: Bytes, i: nat, j: nat, equal: bool, line: nat) {
    && i <= |a| && j <= |b|
    && (equal ==> i == j && a[..i] == b[..j])
    && (!equal ==> a != b && line == LineAt(a, CommonPrefix(a, b)))
  }

  lemma LayoutSkip(a: Bytes, b: Bytes, a0: nat, b0: nat, i: nat, j: nat, equal: bool, line: nat, same: bool, diffLine: nat)
    requires Layout(a, b, a0, b0, equal, line)
    requires Skipping(a, b, a0, b0, i, j, same, diffLine)
    ensures Layout(a, b, i, j, equal && same, if equal && !same then diffLine else line)
  {
    hide Spaces, Newlines, CommonPrefix;
    if equal && same {
      assert a[..i] == a[..a0] + a[a0..i];
      assert b[..j] == b[..b0] + b[b0..j];
    } else if equal {
      var k := CommonPrefix(a[a0..], b[b0..]);
      var n := a0 + k;
      assert a[..n] == a[..a0] + a[a0..][..k];
      assert b[..n] == b[..b0] + b[b0..][..k];
      if n < |a| && n < |b| {
        assert a[n] == a[a0..][k] && b[n] == b[b0..][k];
      }
      CommonPrefixUnique(a, b, n);
    }
  }

  lemma LayoutToken(a: Bytes, b: Bytes, i: nat, j: nat, equal: bool, line: nat)
    requires Layout(a, b, i, j, equal, line) && TokenAt(a, i) == TokenAt(b, j)
    ensures Layout(a, b, i + |TokenAt(a, i)|, j + |TokenAt(b, j)|, equal, line)
  {
    if equal {
      var n := |TokenAt(a, i)|;
      assert a[..i + n] == a[..i] + TokenAt(a, i);
      assert b[..j + n] == b[..j] + TokenAt(b, j);
    }
  }

  /** Inside a token the line does not change. */
  lemma LineInToken(s: Bytes, start: nat, pos: nat)
    requires start <= pos <= |s| && pos <= start + |TokenAt(s, start)|
    ensures LineAt(s, pos) == LineAt(s, start)
  {
    assert s[..pos] == s[..start] + s[start..pos];
    forall i | 0 <= i < pos - start ensures s[start..pos][i] != NEWLINE {
      assert s[start..pos][i] == s[start..][i];
    }
    NewlinesAppend(s[..start], s[start..pos]);
  }

  /** How far both streams have to be read: into the first pair of tokens that differ, or to the ends. */
  function Reach(got: Bytes, want: Bytes): (r: (nat, nat))
    ensures r.0 <= |got| && r.1 <= |want|
  {
    var k := CommonPrefix(Tokens(got), Tokens(want));
    var p, q := TokenStart(got, k), TokenStart(want, k);
    var n := CommonPrefix(TokenAt(got, p), TokenAt(want, q));
    (p + n, q + n)
  }

  /** A stream ends in an error where the comparison still has to read. */
  predicate Unreadable(got: Bytes, gotBroken: bool, want: Bytes, wantBroken: bool) {
    var (i, j) := Reach(got, want);
    (gotBroken && i == |got|) || (wantBroken && j == |want|)
  }

  /** The verdict of a comparison that reached a decision, as the caller sees it. */
  ghost predicate Decision(strict: bool, got: Bytes, want: Bytes, verdict: Verdict, diff: Diff) {
    && verdict == Meaning(strict, got, want)
    && diff.line == MeaningLine(strict, got, want)
    && (verdict != WA ==> diff.got == [] && diff.want == [])
    && (verdict == WA ==>
          && diff.got == TrimPartialRune(Excerpt(got, Reach(got, want).0))
          && diff.want == TrimPartialRune(Excerpt(want, Reach(got, want).1)))
  }

  /** A mismatch found with the cursors at i and j decides for WA at the line of i. */
  lemma DecideWrong(strict: bool, a: Bytes, b: Bytes, a0: nat, b0: nat, done: seq<Bytes>, i: nat, j: nat)
    requires Progress(a, a0, done) && Progress(b, b0, done)
    requires var p, q := a0 + Spaces(a[a0..]), b0 + Spaces(b[b0..]);
             && i == p + CommonPrefix(TokenAt(a, p), TokenAt(b, q)) && j == q + CommonPrefix(TokenAt(a, p), TokenAt(b, q))
             && (p < |a| || q < |b|) && (p < |a| && q < |b| ==> TokenAt(a, p) != TokenAt(b, q))
    ensures i <= |a| && j <= |b| && Reach(a, b) == (i, j)
    ensures Decision(strict, a, b, WA, Diff(LineAt(a, i), TrimPartialRune(Excerpt(a, i)), TrimPartialRune(Excerpt(b, j))))
  {
    hide Spaces, Tokens, TokenStart, TokenAt, Excerpt, Newlines, TrimPartialRune, CommonPrefix;
    var p, q := a0 + Spaces(a[a0..]), b0 + Spaces(b[b0..]);
    NextToken(a, a0, done);
    NextToken(b, b0, done);
    TokenFits(a, p);
    TokenFits(b, q);
    LineInToken(a, p, i);
    var x, y, n := Tokens(a), Tokens(b), |done|;
    assert x[..n] == done && y[..n] == done;
    if p < |a| && q < |b| {
      assert x[n] == TokenAt(a, p) && y[n] == TokenAt(b, q);
    }
    TokensDiffer(x, y, done);
  }

  /** A stream that breaks off before its next token leaves nothing to read behind the equal tokens. */
  lemma CutBeforeToken(a: Bytes, b: Bytes, a0: nat, b0: nat, done: seq<Bytes>)
    requires Progress(a, a0, done) && Progress(b, b0, done)
    ensures a0 + Spaces(a[a0..]) == |a| ==> Reach(a, b).0 == |a|
    ensures b0 + Spaces(b[b0..]) == |b| ==> Reach(a, b).1 == |b|
  {
    hide Spaces, Tokens, TokenStart;
    NextToken(a, a0, done);
    NextToken(b, b0, done);
    var x, y := Tokens(a), Tokens(b);
    assert x[..|done|] == done && y[..|done|] == done;
    if x == done || y == done {
      CommonPrefixUnique(x, y, |done|);
    }
  }

  /** A stream that breaks off inside the tokens being compared, or right behind them. */
  lemma CutInToken(a: Bytes, b: Bytes, a0: nat, b0: nat, done: seq<Bytes>)
    requires Progress(a, a0, done) && Progress(b, b0, done)
    requires a0 + Spaces(a[a0..]) < |a| && b0 + Spaces(b[b0..]) < |b|
    ensures var p, q := a0 + Spaces(a[a0..]), b0 + Spaces(b[b0..]);
            var n := CommonPrefix(TokenAt(a, p), TokenAt(b, q));
            (p + n == |a| ==> Reach(a, b).0 == |a|) && (q + n == |b| ==> Reach(a, b).1 == |b|)
  {
    hide Tokens, TokenStart, Excerpt, TrimPartialRune, Meaning, MeaningLine, Progress, Spaces, Reach, Decision, TokenAt, LineAt;
    var p, q := a0 + Spaces(a[a0..]), b0 + Spaces(b[b0..]);
    var x, y := TokenAt(a, p), TokenAt(b, q);
    var n := CommonPrefix(x, y);
    if x == y {
      CommonPrefixUnique(x, y, |x|);
      ProgressToken(a, a0, done);
      ProgressToken(b, b0, done);
      ProgressBound(a, p + n, done + [x]);
      ProgressBound(b, q + n, done + [y]);
      CutBeforeToken(a, b, p + n, q + n, done + [x]);
      NoSpacesLeft(a);
      NoSpacesLeft(b);
    } else {
      DecideWrong(false, a, b, a0, b0, done, p + n, q + n);
    }
  }

  lemma NoSpacesLeft(s: Bytes)
    ensures Spaces(s[|s|..]) == 0
  {
  }

  /** Both streams exhausted with equal tokens: the layout decides. */
  lemma DecideEqual(strict: bool, a: Bytes, b: Bytes, a0: nat, b0: nat, done: seq<Bytes>, equal: bool, line: nat)
    requires Progress(a, a0, done) && Progress(b, b0, done)
    requires a0 + Spaces(a[a0..]) == |a| && b0 + Spaces(b[b0..]) == |b|
    requires Layout(a, b, |a|, |b|, equal, line)
    ensures Reach(a, b) == (|a|, |b|)
    ensures Decision(strict, a, b, if !equal && strict then PE else AC, if !equal && strict then Diff(line, [], []) else NO_DIFF)
  {
    hide Spaces, Tokens, CommonPrefix, Newlines, Reach;
    NextToken(a, a0, done);
    NextToken(b, b0, done);
    CutBeforeToken(a, b, a0, b0, done);
    if equal {
      assert a == a[..|a|] && b == b[..|b|];
    }
  }

  /** One stream has a token left and the other has not. */
  lemma OneEnded(strict: bool, a: Bytes, b: Bytes, a0: nat, b0: nat, done: seq<Bytes>, p: nat, q: nat)
    requires Progress(a, a0, done) && Progress(b, b0, done)
    requires p == a0 + Spaces(a[a0..]) && q == b0 + Spaces(b[b0..])
    requires p <= |a| && q <= |b| && (p == |a| <==> q < |b|)
    ensures Reach(a, b) == (p, q)
    ensures Decision(strict, a, b, WA, Diff(LineAt(a, p), TrimPartialRune(Excerpt(a, p)), TrimPartialRune(Excerpt(b, q))))
  {
    hide *;
    ProgressBound(a, a0, done);
    ProgressBound(b, b0, done);
    NothingToAgreeOn(a, p, b, q);
    DecideWrong(strict, a, b, a0, b0, done, p, q);
  }

  /** Two equal tokens are passed over. */
  lemma EqualTokens(a: Bytes, b: Bytes, a0: nat, b0: nat, done: seq<Bytes>, p: nat, q: nat, equal: bool, line: nat)
    requires Progress(a, a0, done) && Progress(b, b0, done) && Layout(a, b, p, q, equal, line)
    requires p == a0 + Spaces(a[a0..]) < |a| && q == b0 + Spaces(b[b0..]) < |b| && TokenAt(a, p) == TokenAt(b, q)
    ensures var token := TokenAt(a, p);
            && |token| > 0 && CommonPrefix(token, TokenAt(b, q)) == |token|
            && Progress(a, p + |token|, done + [token]) && Progress(b, q + |token|, done + [token])
            && Layout(a, b, p + |token|, q + |token|, equal, line)
  {
    hide *;
    ProgressBound(a, a0, done);
    SpacesEnd(a, a0);
    ProgressToken(a, a0, done);
    ProgressToken(b, b0, done);
    LayoutToken(a, b, p, q, equal, line);
    TokenNotEmpty(a, p);
    CommonPrefixUnique(TokenAt(a, p), TokenAt(b, q), |TokenAt(a, p)|);
  }

  lemma SpacesEnd(s: Bytes, pos: nat)
    requires pos <= |s| && pos + Spaces(s[pos..]) < |s|
    ensures !IsSpace(s[pos + Spaces(s[pos..])])
  {
    assert s[pos..][Spaces(s[pos..])] == s[pos + Spaces(s[pos..])];
  }

  /** `Compare`.  It is a system error if, and only if, a stream breaks off where it still has to be read. */
  method Compare(strict: bool, got: Bytes, gotBroken: bool, want: Bytes, wantBroken: bool)
    returns (verdict: Verdict, diff: Diff)
    ensures verdict == SE <==> Unreadable(got, gotBroken, want, wantBroken)
    ensures verdict != SE ==> Decision(strict, got, want, verdict, diff)
  {
    hide *;
    var a := new Scanner(got, gotBroken);
    var b := new Scanner(want, wantBroken);
    var wsEqual, wsLine := true, 0;
    ghost var done: seq<Bytes> := [];
    ProgressStart(got);
    ProgressStart(want);
    LayoutStart(got, want);
    while true
      invariant a.Valid() && b.Valid()
      invariant Progress(got, a.pos, done) && Progress(want, b.pos, done)
      invariant Layout(got, want, a.pos, b.pos, wsEqual, wsLine)
      decreases |got| - a.pos
    {
      ghost var a0, b0 := a.pos, b.pos;
      ProgressBound(got, a0, done);
      ProgressBound(want, b0, done);
      var ok, same, at := SkipSpaces(a, b);
      CutMeans(a, a0 + Spaces(got[a0..]));
      CutMeans(b, b0 + Spaces(want[b0..]));
      if !ok {
        CutBeforeToken(got, want, a0, b0, done);
        ReadTo(got, gotBroken, want, wantBroken);
        return SE, NO_DIFF;
      }
      SkippedTo(got, want, a0, b0, a.pos, b.pos, same, at);
      LayoutSkip(got, want, a0, b0, a.pos, b.pos, wsEqual, wsLine, same, at);
      if !same && wsEqual {
        wsEqual, wsLine := false, at;
      }
      var ca, cb := a.Peek() == EOF, b.Peek() == EOF;
      if ca && cb {
        DecideEqual(strict, got, want, a0, b0, done, wsEqual, wsLine);
        ReadTo(got, gotBroken, want, wantBroken);
        if wsEqual || !strict {
          return AC, NO_DIFF;
        }
        return PE, Diff(wsLine, [], []);
      }
      if ca || cb {
        OneEnded(strict, got, want, a0, b0, done, a.pos, b.pos);
        ReadTo(got, gotBroken, want, wantBroken);
        diff := MakeDiff(a, b);
        return WA, diff;
      }
      ghost var p, q := a.pos, b.pos;
      var equal;
      ok, equal := CompareOneToken(a, b);
      CutMeans(a, a.pos);
      CutMeans(b, b.pos);
      ReadTo(got, gotBroken, want, wantBroken);
      if !ok {
        CutInToken(got, want, a0, b0, done);
        return SE, NO_DIFF;
      }
      if !equal {
        DecideWrong(strict, got, want, a0, b0, done, a.pos, b.pos);
        diff := MakeDiff(a, b);
        return WA, diff;
      }
      EqualTokens(got, want, a0, b0, done, p, q, wsEqual, wsLine);
      done := done + [TokenAt(got, p)];
    }
  }

  lemma CutMeans(s: Scanner, pos: nat)
    ensures CutAt(s, pos) <==> s.broken && pos == |s.data|
  {
  }

  lemma ReadTo(got: Bytes, gotBroken: bool, want: Bytes, wantBroken: bool)
    ensures Unreadable(got, gotBroken, want, wantBroken) <==>
            (gotBroken && Reach(got, want).0 == |got|) || (wantBroken && Reach(got, want).1 == |want|)
  {
  }

  lemma NothingToAgreeOn(a: Bytes, p: nat, b: Bytes, q: nat)
    requires p <= |a| && q <= |b| && (p == |a| || q == |b|)
    ensures CommonPrefix(TokenAt(a, p), TokenAt(b, q)) == 0
  {
  }

  lemma LayoutStart(a: Bytes, b: Bytes)
    ensures Layout(a, b, 0, 0, true, 0)
  {
  }

  lemma ProgressBound(s: Bytes, pos: nat, done: seq<Bytes>)
    requires Progress(s, pos, done)
    ensures pos <= |s|
  {
  }

  lemma TokenNotEmpty(s: Bytes, pos: nat)
    requires pos < |s| && !IsSpace(s[pos])
    ensures |TokenAt(s, pos)| > 0
  {
    assert s[pos..][0] == s[pos];
  }

  /** `makeDiff`. */
  method MakeDiff(a: Scanner, b: Scanner) returns (d: Diff)
    requires a != b && a.Valid() && b.Valid()
    modifies a`pos, b`pos
    ensures d.line == LineAt(a.data, old(a.pos))
    ensures d.got == TrimPartialRune(Excerpt(a.data, old(a.pos)))
    ensures d.want == TrimPartialRune(Excerpt(b.data, old(b.pos)))
  {
    var line := a.line;
    var got := a.LineExcerpt();
    var want := b.LineExcerpt();
    d := Diff(line, got, want);
  }
}
