/**
 * Test-data metadata: the writer scripts/testdata_pack.py, the reader's `validate` and `computeDigest` in
 * apps/judge-engine/judge/testcase/metadata.go, and the size limits of `copyData` in load.go.
 *
 * SHA-256 is a parameter.  Sizes are the reader's int64: sums wrap.
 */
module Testdata {
  import opened Ascii
  import opened Common

  const MAX_TESTCASES := 1000
  const TWO63 := 0x8000_0000_0000_0000
  const TWO64 := 0x1_0000_0000_0000_0000

  datatype FileMeta = FileMeta(sizeBytes: int, sha256: string)

  datatype Testcase = Testcase(name: string, input: FileMeta, output: FileMeta)

  datatype Metadata = Metadata(schemaVersion: int, testcaseCount: int, totalBytes: int, digest: string,
                               testcases: seq<Testcase>)

  predicate NameChar(c: char) { IsAlpha(c) || IsDigit(c) || c == '.' || c == '_' || c == '-' }

  predicate ValidName(name: string) {
    && 1 <= |name| <= 124 && (IsAlpha(name[0]) || IsDigit(name[0]))
    && forall i :: 0 <= i < |name| ==> NameChar(name[i])
  }

  predicate ValidSha(s: string) {
    |s| == 64 && forall i :: 0 <= i < 64 ==> 'a' <= s[i] <= 'f' || IsDigit(s[i])
  }

  predicate ValidFile(f: FileMeta) { f.sizeBytes >= 0 && ValidSha(f.sha256) }

  predicate ValidTestcase(c: Testcase) { ValidName(c.name) && ValidFile(c.input) && ValidFile(c.output) }

  // ----- totals

  /** What adding int64 values gives. */
  function Wrap(n: int): (r: int)
    ensures -TWO63 <= r < TWO63
    ensures -TWO63 <= n < TWO63 ==> r == n
  {
    (n + TWO63) % TWO64 - TWO63
  }

  lemma WrapAdd(a: int, b: int)
    ensures Wrap(Wrap(a) + b) == Wrap(a + b)
  {
    var k := (a + TWO63) / TWO64;
    assert Wrap(a) == a - k * TWO64;
    ModShift(a + b + TWO63, k);
  }

  lemma ModShift(x: int, k: int)
    ensures (x - k * TWO64) % TWO64 == x % TWO64
  {
    var q, r := x / TWO64, x % TWO64;
    assert x - k * TWO64 == (q - k) * TWO64 + r;
  }

  function CaseBytes(c: Testcase): int { c.input.sizeBytes + c.output.sizeBytes }

  /** The true number of bytes, without wrap-around. */
  function TrueTotal(cases: seq<Testcase>): int {
    if cases == [] then 0 else TrueTotal(cases[..|cases| - 1]) + CaseBytes(cases[|cases| - 1])
  }

  // ----- the digest

  /** The two lines of one test case. */
  function Lines(c: Testcase): string {
    c.input.sha256 + "  " + c.name + ".in\n" + (c.output.sha256 + "  " + c.name + ".out\n")
  }

  function PreImage(cases: seq<Testcase>): string {
    if cases == [] then "" else Lines(cases[0]) + PreImage(cases[1..])
  }

  lemma {:induction false} PreImageAppend(cases: seq<Testcase>, c: Testcase)
    ensures PreImage(cases + [c]) == PreImage(cases) + Lines(c)
  {
    if cases == [] {
      assert [c][1..] == [];
      assert cases + [c] == [c];
    } else {
      assert (cases + [c])[1..] == cases[1..] + [c];
      PreImageAppend(cases[1..], c);
    }
  }

  /** The same fields, apart from the sizes, which the digest does not cover. */
  predicate SameContent(x: Testcase, y: Testcase) {
    x.name == y.name && x.input.sha256 == y.input.sha256 && x.output.sha256 == y.output.sha256
  }

  /** A line of hash, two blanks and name can be taken apart again, whatever follows it. */
  lemma LineSplits(sha: string, name: string, sha': string, name': string, suffix: string, rest: string, rest': string)
    requires ValidSha(sha) && ValidSha(sha') && ValidName(name) && ValidName(name')
    requires '\n' !in suffix
    requires sha + "  " + name + suffix + "\n" + rest == sha' + "  " + name' + suffix + "\n" + rest'
    ensures sha == sha' && name == name' && rest == rest'
  {
    hide ValidName, IndexOf;
    LineCut(sha, name, suffix, rest);
    LineCut(sha', name', suffix, rest');
    assert |name| == |name'|;
    assert (name + suffix)[..|name|] == name && (name' + suffix)[..|name'|] == name';
  }

  /** Where the parts of a line stand. */
  lemma LineCut(sha: string, name: string, suffix: string, rest: string)
    requires ValidSha(sha) && ValidName(name) && '\n' !in suffix
    ensures var x := sha + "  " + name + suffix + "\n" + rest;
            && |x| > 66 && x[..64] == sha && IndexOf(x[66..], '\n') == |name + suffix|
            && x[66..][..|name + suffix|] == name + suffix && x[66..][|name + suffix| + 1..] == rest
  {
    var x, t := sha + "  " + name + suffix + "\n" + rest, name + suffix;
    assert x[66..] == t + "\n" + rest;
    NoNewline(name, suffix);
    hide ValidName, ValidSha;
    IndexOfUnique(x[66..], '\n', |t|);
  }

  lemma NoNewline(name: string, suffix: string)
    requires ValidName(name) && '\n' !in suffix
    ensures forall i :: 0 <= i < |name + suffix| ==> (name + suffix)[i] != '\n'
  {
    forall i | 0 <= i < |name + suffix| ensures (name + suffix)[i] != '\n' {
      if i < |name| {
        assert NameChar(name[i]);
      } else {
        assert suffix[i - |name|] in suffix;
      }
    }
  }

  lemma LinesSplit(x: Testcase, y: Testcase, rest: string, rest': string)
    requires ValidTestcase(x) && ValidTestcase(y)
    requires Lines(x) + rest == Lines(y) + rest'
    ensures SameContent(x, y) && rest == rest'
  {
    var out := x.output.sha256 + "  " + x.name + ".out" + "\n" + rest;
    var out' := y.output.sha256 + "  " + y.name + ".out" + "\n" + rest';
    assert ".in\n" == ".in" + "\n" && ".out\n" == ".out" + "\n";
    assert Lines(x) + rest == x.input.sha256 + "  " + x.name + ".in" + "\n" + out;
    assert Lines(y) + rest' == y.input.sha256 + "  " + y.name + ".in" + "\n" + out';
    LineSplits(x.input.sha256, x.name, y.input.sha256, y.name, ".in", out, out');
    LineSplits(x.output.sha256, x.name, y.output.sha256, y.name, ".out", rest, rest');
  }

  /** The digest's pre-image determines names, hashes and their order. */
  lemma {:induction false} PreImageDecodes(xs: seq<Testcase>, ys: seq<Testcase>)
    requires forall i :: 0 <= i < |xs| ==> ValidTestcase(xs[i])
    requires forall i :: 0 <= i < |ys| ==> ValidTestcase(ys[i])
    requires PreImage(xs) == PreImage(ys)
    ensures |xs| == |ys| && forall i :: 0 <= i < |xs| ==> SameContent(xs[i], ys[i])
  {
    PreImageNotEmpty(xs);
    PreImageNotEmpty(ys);
    if xs != [] {
      LinesSplit(xs[0], ys[0], PreImage(xs[1..]), PreImage(ys[1..]));
      PreImageDecodes(xs[1..], ys[1..]);
      assert forall i :: 1 <= i < |xs| ==> xs[i] == xs[1..][i - 1] && ys[i] == ys[1..][i - 1];
    }
  }

  lemma PreImageNotEmpty(cases: seq<Testcase>)
    ensures cases == [] <==> PreImage(cases) == ""
  {
    if cases != [] {
      assert |Lines(cases[0])| > 0;
    }
  }

  // ----- validate

  ghost predicate DistinctNames(cases: seq<Testcase>) {
    forall i, j :: 0 <= i < j < |cases| ==> cases[i].name != cases[j].name
  }

  /** What `validate` accepts. */
  ghost predicate Valid(m: Metadata, hash: string -> string) {
    && m.schemaVersion == 1
    && 1 <= m.testcaseCount <= MAX_TESTCASES && |m.testcases| == m.testcaseCount
    && (forall i :: 0 <= i < |m.testcases| ==> ValidTestcase(m.testcases[i]))
    && DistinctNames(m.testcases)
    && m.totalBytes == Wrap(TrueTotal(m.testcases))
    && m.digest == hash(PreImage(m.testcases))
  }

  /** The loop of `validate`, with its int64 accumulator. */
  method ValidateCases(cases: seq<Testcase>) returns (ok: bool, total: int)
    ensures ok <==> (forall i :: 0 <= i < |cases| ==> ValidTestcase(cases[i])) && DistinctNames(cases)
    ensures ok ==> total == Wrap(TrueTotal(cases))
  {
    hide Wrap, ValidTestcase, TrueTotal;
    var seen: set<string> := {};
    total := 0;
    TotalStart();
    for i := 0 to |cases|
      invariant forall k :: 0 <= k < i ==> ValidTestcase(cases[k])
      invariant forall n :: n in seen <==> n in NamesOf(cases[..i])
      invariant DistinctNames(cases[..i])
      invariant total == Wrap(TrueTotal(cases[..i]))
    {
      var c := cases[i];
      if !ValidTestcase(c) {
        return false, total;
      }
      if c.name in seen {
        var k :| 0 <= k < i && NamesOf(cases[..i])[k] == c.name;
        assert cases[k].name == cases[i].name;
        return false, total;
      }
      seen := seen + {c.name};
      TotalStep(cases, i);
      total := Wrap(total + c.input.sizeBytes);
      total := Wrap(total + c.output.sizeBytes);
      assert NamesOf(cases[..i + 1]) == NamesOf(cases[..i]) + [c.name];
      assert forall k :: 0 <= k < i ==> cases[k].name == NamesOf(cases[..i])[k];
    }
    assert cases[..|cases|] == cases;
    ok := true;
  }

  lemma TotalStart()
    ensures TrueTotal([]) == 0 && Wrap(0) == 0
  {
  }

  lemma TotalStep(cases: seq<Testcase>, i: nat)
    requires i < |cases|
    ensures Wrap(Wrap(Wrap(TrueTotal(cases[..i])) + cases[i].input.sizeBytes) + cases[i].output.sizeBytes) ==
              Wrap(TrueTotal(cases[..i + 1]))
  {
    hide Wrap;
    var before := TrueTotal(cases[..i]);
    WrapAdd(before, cases[i].input.sizeBytes);
    WrapAdd(before + cases[i].input.sizeBytes, cases[i].output.sizeBytes);
    assert cases[..i + 1][..i] == cases[..i];
  }

  /** `validate`. */
  method Validate(m: Metadata, hash: string -> string) returns (ok: bool)
    ensures ok <==> Valid(m, hash)
  {
    hide Wrap, ValidTestcase, PreImage, TrueTotal, DistinctNames;
    if m.schemaVersion != 1 {
      return false;
    }
    if m.testcaseCount < 1 || m.testcaseCount > MAX_TESTCASES || |m.testcases| != m.testcaseCount {
      return false;
    }
    var total;
    ok, total := ValidateCases(m.testcases);
    if !ok || total != m.totalBytes {
      return false;
    }
    var digest := ComputeDigest(m.testcases, hash);
    ok := m.digest == digest;
  }

  /** `computeDigest`. */
  method ComputeDigest(cases: seq<Testcase>, hash: string -> string) returns (digest: string)
    ensures digest == hash(PreImage(cases))
  {
    hide Lines;
    var text := "";
    for i := 0 to |cases|
      invariant text == PreImage(cases[..i])
    {
      PreImageAppend(cases[..i], cases[i]);
      assert cases[..i + 1] == cases[..i] + [cases[i]];
      text := text + Lines(cases[i]);
    }
    assert cases[..|cases|] == cases;
    digest := hash(text);
  }

  // ----- size limits

  /** The checks at the start of `copyData`. */
  ghost predicate WithinLimits(m: Metadata, maxFileBytes: int, maxTotalBytes: int) {
    && m.totalBytes <= maxTotalBytes
    && forall i :: 0 <= i < |m.testcases| ==>
         m.testcases[i].input.sizeBytes <= maxFileBytes && m.testcases[i].output.sizeBytes <= maxFileBytes
  }

  lemma {:induction false} TotalBound(cases: seq<Testcase>, maxFileBytes: int)
    requires forall i :: 0 <= i < |cases| ==>
               0 <= cases[i].input.sizeBytes <= maxFileBytes && 0 <= cases[i].output.sizeBytes <= maxFileBytes
    ensures 0 <= TrueTotal(cases) <= 2 * |cases| * maxFileBytes
  {
    if cases != [] {
      TotalBound(cases[..|cases| - 1], maxFileBytes);
      var c := cases[|cases| - 1];
      OneMoreFile(|cases|, maxFileBytes);
      hide TrueTotal;
      assert TrueTotal(cases) == TrueTotal(cases[..|cases| - 1]) + CaseBytes(c) by { TotalLast(cases); }
    }
  }

  lemma OneMoreFile(n: int, size: int)
    ensures 2 * n * size == 2 * (n - 1) * size + 2 * size
  {
  }

  lemma TotalLast(cases: seq<Testcase>)
    requires cases != []
    ensures TrueTotal(cases) == TrueTotal(cases[..|cases| - 1]) + CaseBytes(cases[|cases| - 1])
  {
  }

  /** With small enough files the declared total is the true one, wrap-around or not. */
  lemma TotalIsTrue(m: Metadata, hash: string -> string, maxFileBytes: int, maxTotalBytes: int)
    requires 0 <= maxFileBytes && 2 * MAX_TESTCASES * maxFileBytes < TWO63
    requires Valid(m, hash) && WithinLimits(m, maxFileBytes, maxTotalBytes)
    ensures TrueTotal(m.testcases) == m.totalBytes <= maxTotalBytes
  {
    assert forall i :: 0 <= i < |m.testcases| ==> ValidTestcase(m.testcases[i]);
    TotalBound(m.testcases, maxFileBytes);
    assert 2 * |m.testcases| * maxFileBytes <= 2 * MAX_TESTCASES * maxFileBytes by {
      MulMonotone(|m.testcases|, MAX_TESTCASES, maxFileBytes);
    }
  }

  lemma MulMonotone(a: int, b: int, c: int)
    requires a <= b && 0 <= c
    ensures 2 * a * c <= 2 * b * c
  {
    assert (b - a) * c >= 0;
  }

  function ZeroSha(): (s: string)
    ensures ValidSha(s)
  {
    seq(64, i => '0')
  }

  /** A three-digit name. */
  function Numbered(i: nat): string
    requires i < 1000
  {
    [('0' as int + i / 100) as char, ('0' as int + i / 10 % 10) as char, ('0' as int + i % 10) as char]
  }

  lemma NumberedDistinct(i: nat, j: nat)
    requires i < 1000 && j < 1000 && Numbered(i) == Numbered(j)
    ensures i == j
  {
    var x, y := Numbered(i), Numbered(j);
    assert x[0] == y[0] && x[1] == y[1] && x[2] == y[2];
    ThreeDigits(i);
    ThreeDigits(j);
  }

  lemma ThreeDigits(i: nat)
    ensures i == i / 100 * 100 + i / 10 % 10 * 10 + i % 10
  {
    var tens := i / 10;
    assert i == tens * 10 + i % 10;
    assert tens == tens / 10 * 10 + tens % 10;
    assert tens / 10 == i / 100;
  }

  /** 2000 files of this size add up to just above the largest int64. */
  const HUGE := 4_611_686_018_427_388

  function HugeCase(i: nat): Testcase
    requires i < 1000
  {
    Testcase(Numbered(i), FileMeta(HUGE, ZeroSha()), FileMeta(HUGE, ZeroSha()))
  }

  function HugeCases(n: nat): (r: seq<Testcase>)
    requires n <= 1000
    ensures |r| == n && forall i :: 0 <= i < n ==> r[i] == HugeCase(i)
  {
    seq(n, i requires 0 <= i < n => HugeCase(i))
  }

  lemma {:induction false} HugeTotal(n: nat)
    requires n <= 1000
    ensures TrueTotal(HugeCases(n)) == 2 * n * HUGE
  {
    if n > 0 {
      HugeTotal(n - 1);
      assert HugeCases(n)[..n - 1] == HugeCases(n - 1);
    }
  }

  /** Otherwise there is metadata that passes every check with a wrong total, and the total limit is no limit. */
  lemma TotalWraps(hash: string -> string, maxFileBytes: int, maxTotalBytes: int) returns (m: Metadata)
    requires 2 * MAX_TESTCASES * maxFileBytes >= TWO63 && 0 <= maxTotalBytes
    ensures Valid(m, hash) && WithinLimits(m, maxFileBytes, maxTotalBytes)
    ensures TrueTotal(m.testcases) != m.totalBytes && m.totalBytes < 0
  {
    hide PreImage, ValidTestcase, TrueTotal, HugeCase;
    var cases := HugeCases(1000);
    HugeTotal(1000);
    assert TrueTotal(cases) == 9_223_372_036_854_776_000;
    assert Wrap(9_223_372_036_854_776_000) == 9_223_372_036_854_776_000 - TWO64;
    hide Wrap;
    m := Metadata(1, 1000, Wrap(TrueTotal(cases)), hash(PreImage(cases)), cases);
    forall i | 0 <= i < 1000
      ensures ValidTestcase(cases[i]) && cases[i].input.sizeBytes == HUGE && cases[i].output.sizeBytes == HUGE
    {
      HugeIsValid(i);
    }
    forall i, j | 0 <= i < j < 1000 ensures cases[i].name != cases[j].name {
      HugeNames(i, j);
    }
  }

  lemma HugeNames(i: nat, j: nat)
    requires i < j < 1000
    ensures HugeCase(i).name != HugeCase(j).name
  {
    if Numbered(i) == Numbered(j) {
      NumberedDistinct(i, j);
    }
  }

  lemma HugeIsValid(i: nat)
    requires i < 1000
    ensures ValidTestcase(HugeCase(i))
    ensures HugeCase(i).input.sizeBytes == HUGE && HugeCase(i).output.sizeBytes == HUGE
  {
    assert ValidName(Numbered(i));
  }

  /** The declared total can be trusted exactly when 2000 files of the largest size fit into an int64. */
  lemma TotalTrustedIff(hash: string -> string, maxFileBytes: int, maxTotalBytes: int)
    requires 0 <= maxFileBytes && 0 <= maxTotalBytes
    ensures (forall m :: Valid(m, hash) && WithinLimits(m, maxFileBytes, maxTotalBytes) ==> TrueTotal(m.testcases) == m.totalBytes)
              <==> 2 * MAX_TESTCASES * maxFileBytes < TWO63
  {
    hide Valid, WithinLimits;
    if 2 * MAX_TESTCASES * maxFileBytes < TWO63 {
      forall m | Valid(m, hash) && WithinLimits(m, maxFileBytes, maxTotalBytes) ensures TrueTotal(m.testcases) == m.totalBytes {
        TotalIsTrue(m, hash, maxFileBytes, maxTotalBytes);
      }
    } else {
      var m := TotalWraps(hash, maxFileBytes, maxTotalBytes);
    }
  }

  // ----- what the writer produces

  type Content = seq<bv8>

  datatype Built = Refused | Written(metadata: Metadata)

  /** `sort_key`: numbers first and by value, then everything else; ties by the text itself. */
  predicate KeyLe(a: string, b: string) {
    if AllDigits(a) then !AllDigits(b) || Number(a) < Number(b) || (Number(a) == Number(b) && TextLe(a, b))
    else !AllDigits(b) && TextLe(a, b)
  }

  lemma KeyOrder(a: string, b: string, c: string)
    ensures KeyLe(a, b) || KeyLe(b, a)
    ensures KeyLe(a, b) && KeyLe(b, c) ==> KeyLe(a, c)
  {
    TextOrder(a, b, c);
  }

  ghost predicate InKeyOrder(names: seq<string>) {
    forall i, j :: 0 <= i < j < |names| ==> KeyLe(names[i], names[j]) && names[i] != names[j]
  }

  /** `sorted(names, key=sort_key)` by repeated insertion of the remaining names. */
  method SortNames(names: set<string>) returns (r: seq<string>)
    ensures InKeyOrder(r) && forall n :: n in r <==> n in names
  {
    hide KeyLe;
    var left := names;
    r := [];
    while left != {}
      invariant left <= names && InKeyOrder(r)
      invariant forall n :: n in r <==> n in names && n !in left
      decreases |left|
    {
      var name :| name in left;
      left := left - {name};
      r := Insert(r, name);
    }
  }

  method Insert(names: seq<string>, name: string) returns (r: seq<string>)
    requires InKeyOrder(names) && name !in names
    ensures InKeyOrder(r) && forall n :: n in r <==> n in names || n == name
  {
    hide KeyLe;
    var i := 0;
    while i < |names| && KeyLe(names[i], name)
      invariant 0 <= i <= |names|
      invariant forall k :: 0 <= k < i ==> KeyLe(names[k], name)
    {
      i := i + 1;
    }
    forall k | i <= k < |names| ensures KeyLe(name, names[k]) {
      KeyOrder(name, names[i], names[k]);
    }
    r := names[..i] + [name] + names[i..];
  }

  method AllNamesValid(names: seq<string>) returns (valid: bool)
    ensures valid <==> forall n :: n in names ==> ValidName(n)
  {
    hide ValidName;
    for i := 0 to |names|
      invariant forall k :: 0 <= k < i ==> ValidName(names[k])
    {
      if !ValidName(names[i]) {
        assert names[i] in names;
        return false;
      }
    }
    valid := true;
  }

  /** `build` on a directory with the given .in and .out files. */
  method Build(inputs: map<string, Content>, outputs: map<string, Content>, fileHash: Content -> string, hash: string -> string)
    returns (r: Built)
    ensures r.Refused? <==>
              inputs.Keys != outputs.Keys || inputs == map[] || |inputs| > MAX_TESTCASES ||
              exists n :: n in inputs && !ValidName(n)
    ensures r.Written? ==> Describes(r.metadata, inputs, outputs, fileHash, hash)
  {
    if inputs.Keys != outputs.Keys || inputs == map[] || |inputs| > MAX_TESTCASES {
      return Refused;
    }
    hide InKeyOrder, ValidName, Describes;
    var names := SortNames(inputs.Keys);
    DistinctCount(names, inputs.Keys);
    var valid := AllNamesValid(names);
    if !valid {
      return Refused;
    }
    var m := Describe(names, inputs, outputs, fileHash, hash);
    r := Written(m);
  }

  lemma TotalPush(cases: seq<Testcase>, c: Testcase)
    ensures TrueTotal(cases + [c]) == TrueTotal(cases) + CaseBytes(c)
  {
    assert (cases + [c])[..|cases|] == cases;
  }

  /** The loop of `build`. */
  method Describe(names: seq<string>, inputs: map<string, Content>, outputs: map<string, Content>,
                  fileHash: Content -> string, hash: string -> string) returns (m: Metadata)
    requires InKeyOrder(names) && inputs.Keys == outputs.Keys && |names| == |inputs|
    requires forall n :: n in names <==> n in inputs
    ensures Describes(m, inputs, outputs, fileHash, hash)
  {
    hide InKeyOrder, Lines, PreImage, TrueTotal, CaseOf, Describes;
    assert PreImage([]) == "" by { PreImageNotEmpty([]); }
    assert TrueTotal([]) == 0 by { TotalStart(); }
    var cases: seq<Testcase> := [];
    var text := "";
    var total := 0;
    for i := 0 to |names|
      invariant |cases| == i && text == PreImage(cases) && total == TrueTotal(cases)
      invariant forall k :: 0 <= k < i ==> names[k] in inputs && cases[k] == CaseOf(names[k], inputs, outputs, fileHash)
    {
      assert names[i] in names;
      var c := CaseOf(names[i], inputs, outputs, fileHash);
      PreImageAppend(cases, c);
      TotalPush(cases, c);
      CaseOfName(names[i], inputs, outputs, fileHash);
      text := text + Lines(c);
      total := total + c.input.sizeBytes + c.output.sizeBytes;
      cases := cases + [c];
    }
    m := Metadata(1, |cases|, total, hash(text), cases);
    AllDescribed(m, names, inputs, outputs, fileHash, hash);
  }

  lemma CaseOfName(name: string, inputs: map<string, Content>, outputs: map<string, Content>, fileHash: Content -> string)
    requires name in inputs && name in outputs
    ensures CaseOf(name, inputs, outputs, fileHash).name == name
    ensures var c := CaseOf(name, inputs, outputs, fileHash);
            c.input.sizeBytes == |inputs[name]| && c.output.sizeBytes == |outputs[name]|
  {
  }

  lemma AllDescribed(m: Metadata, names: seq<string>, inputs: map<string, Content>, outputs: map<string, Content>,
                     fileHash: Content -> string, hash: string -> string)
    requires InKeyOrder(names) && inputs.Keys == outputs.Keys && |names| == |inputs| == |m.testcases|
    requires forall n :: n in names <==> n in inputs
    requires forall k :: 0 <= k < |names| ==>
               names[k] in inputs && m.testcases[k] == CaseOf(names[k], inputs, outputs, fileHash)
    requires m.schemaVersion == 1 && m.testcaseCount == |m.testcases| && m.totalBytes == TrueTotal(m.testcases)
    requires m.digest == hash(PreImage(m.testcases))
    ensures Describes(m, inputs, outputs, fileHash, hash)
  {
    hide InKeyOrder, PreImage, TrueTotal;
    assert NamesOf(m.testcases) == names;
  }

  function CaseOf(name: string, inputs: map<string, Content>, outputs: map<string, Content>, fileHash: Content -> string): Testcase
    requires name in inputs && name in outputs
  {
    Testcase(name, FileMeta(|inputs[name]|, fileHash(inputs[name])), FileMeta(|outputs[name]|, fileHash(outputs[name])))
  }

  function NamesOf(cases: seq<Testcase>): (r: seq<string>)
    ensures |r| == |cases| && forall i :: 0 <= i < |r| ==> r[i] == cases[i].name
  {
    seq(|cases|, i requires 0 <= i < |cases| => cases[i].name)
  }

  /** The metadata says what is in the directory, in key order. */
  ghost predicate Describes(m: Metadata, inputs: map<string, Content>, outputs: map<string, Content>,
                            fileHash: Content -> string, hash: string -> string) {
    && m.schemaVersion == 1 && m.testcaseCount == |m.testcases| == |inputs|
    && InKeyOrder(NamesOf(m.testcases))
    && (forall n :: n in NamesOf(m.testcases) <==> n in inputs)
    && (forall i :: 0 <= i < |m.testcases| ==>
          m.testcases[i].name in inputs && m.testcases[i].name in outputs &&
          m.testcases[i] == CaseOf(m.testcases[i].name, inputs, outputs, fileHash))
    && m.totalBytes == TrueTotal(m.testcases)
    && m.digest == hash(PreImage(m.testcases))
  }

  lemma {:induction false} DistinctCount(names: seq<string>, keys: set<string>)
    requires InKeyOrder(names) && forall n :: n in names <==> n in keys
    ensures |names| == |keys|
  {
    if names == [] {
      assert keys == {};
    } else {
      var last, front := names[|names| - 1], names[..|names| - 1];
      assert names == front + [last];
      assert last !in front;
      DistinctCount(front, keys - {last});
    }
  }

  /** Whatever the writer writes, the reader accepts, exactly as long as the total is an int64 at all. */
  lemma WrittenIsAccepted(m: Metadata, inputs: map<string, Content>, outputs: map<string, Content>,
                          fileHash: Content -> string, hash: string -> string)
    requires Describes(m, inputs, outputs, fileHash, hash)
    requires forall c :: ValidSha(fileHash(c))
    requires inputs != map[] && |inputs| <= MAX_TESTCASES && forall n :: n in inputs ==> ValidName(n)
    ensures Valid(m, hash) <==> m.totalBytes < TWO63
  {
    hide ValidSha, ValidName, PreImage, KeyLe, Wrap;
    assert |inputs| > 0;
    forall i | 0 <= i < |m.testcases| ensures ValidTestcase(m.testcases[i]) {
    }
    assert DistinctNames(m.testcases) by {
      var names := NamesOf(m.testcases);
      forall i, j | 0 <= i < j < |m.testcases| ensures m.testcases[i].name != m.testcases[j].name {
        assert names[i] != names[j];
      }
    }
    NotNegative(m.testcases);
    WrapMeans(TrueTotal(m.testcases));
  }

  lemma {:induction false} NotNegative(cases: seq<Testcase>)
    requires forall i :: 0 <= i < |cases| ==> ValidTestcase(cases[i])
    ensures TrueTotal(cases) >= 0
  {
    if cases != [] {
      NotNegative(cases[..|cases| - 1]);
      assert ValidTestcase(cases[|cases| - 1]);
    }
  }

  lemma WrapMeans(n: int)
    requires n >= 0
    ensures Wrap(n) == n <==> n < TWO63
  {
  }
}
