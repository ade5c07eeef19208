/**
 * The request format between the judge and the setuid executor.
 *
 * `writeRequest` (apps/judge-engine/execution/backend/executor.go) prints a job as NUL-terminated
 * key=value records, `spec_parse` (apps/sandbox/src/spec.c) reads them back in place.  Bytes are chars,
 * a C string is the text up to the next NUL.
 */
module SpecWire {
  import opened Ascii
  import opened Common

  datatype Error =
    | NotTerminated | NoEquals | TooMany | BadEnv | BadInput | DuplicateInput | BadToolchain
    | BadOutput | DuplicateOutput | BadKey | MissingToolchain | MissingLimit | NotNormalized
    | BadCommand | TooLarge

  datatype Result<+T> = Ok(value: T) | Err(error: Error)

  const MAX_ARGS := 256
  const MAX_ENV := 128
  const MAX_INPUTS := 128
  const MAX_OUTPUTS := 128
  const MAX_STRING_BYTES := 32768
  const MAX_PATH_SEGMENTS := 8
  const PATH_CAPACITY := 1024
  const MAX_TOOLCHAIN := 32
  const MAX_INPUT_BYTES := 67108864

  // ----- the two validations of paths and names

  predicate Alnum(c: char) { IsAlpha(c) || IsDigit(c) }

  /** `valid_name`: at most 128 bytes, the first alphanumeric. */
  predicate ValidName(s: string, extra: string) {
    && 1 <= |s| <= 128 && Alnum(s[0])
    && forall i :: 1 <= i < |s| ==> Alnum(s[i]) || s[i] in extra
  }

  predicate ValidCommand(s: string) { ValidName(s, "_.+-") }

  /** `strings.Split`. */
  function Split(s: string, c: char): (parts: seq<string>)
    ensures parts != []
    decreases |s|
  {
    var n := IndexOf(s, c);
    if n == |s| then [s] else [s[..n]] + Split(s[n + 1..], c)
  }

  /** `ValidPath`: split first, then look at every segment. */
  predicate ValidPath(name: string) {
    var parts := Split(name, '/');
    |parts| <= MAX_PATH_SEGMENTS && forall i :: 0 <= i < |parts| ==> ValidName(parts[i], "_.-")
  }

  /** `valid_path`: one segment at a time, stopping at the ninth. */
  predicate ValidPathC(p: string, seen: nat)
    decreases |p|
  {
    var n := IndexOf(p, '/');
    if seen + 1 > MAX_PATH_SEGMENTS || !ValidName(p[..n], "_.-") then false
    else n == |p| || ValidPathC(p[n + 1..], seen + 1)
  }

  /** Both sides accept the same paths. */
  lemma {:induction false} PathsAgree(p: string, seen: nat)
    ensures ValidPathC(p, seen) <==>
              seen + |Split(p, '/')| <= MAX_PATH_SEGMENTS &&
              forall i :: 0 <= i < |Split(p, '/')| ==> ValidName(Split(p, '/')[i], "_.-")
    decreases |p|
  {
    hide ValidName, IndexOf;
    var n := IndexOf(p, '/');
    SplitFirst(p);
    if n == |p| {
      hide Split;
      assert p[..n] == p && Split(p, '/')[0] == p;
      assert |Split(p, '/')| == 1;
    } else {
      PathsAgree(p[n + 1..], seen + 1);
      hide Split;
      FirstAndRest(Split(p, '/'), p[..n], Split(p[n + 1..], '/'));
    }
  }

  lemma SplitFirst(p: string)
    ensures var n := IndexOf(p, '/');
            Split(p, '/') == if n == |p| then [p] else [p[..n]] + Split(p[n + 1..], '/')
  {
    hide IndexOf;
    if IndexOf(p, '/') == |p| {
      assert Split(p, '/') == [p];
    } else {
      assert Split(p, '/') == [p[..IndexOf(p, '/')]] + Split(p[IndexOf(p, '/') + 1..], '/');
    }
  }

  lemma FirstAndRest(parts: seq<string>, first: string, tail: seq<string>)
    requires parts == [first] + tail
    ensures |parts| == 1 + |tail|
    ensures (forall i :: 0 <= i < |parts| ==> ValidName(parts[i], "_.-")) <==>
            ValidName(first, "_.-") && forall i :: 0 <= i < |tail| ==> ValidName(tail[i], "_.-")
  {
    hide ValidName;
    assert parts[0] == first;
    assert forall i :: 0 <= i < |tail| ==> parts[i + 1] == tail[i];
    assert forall i :: 1 <= i < |parts| ==> parts[i] == tail[i - 1];
  }

  /** A valid path has no NUL, so it is the same string for both sides. */
  lemma {:induction false} ValidPathHasNoNul(p: string, seen: nat)
    requires ValidPathC(p, seen)
    ensures NUL !in p
    decreases |p|
  {
    var n := IndexOf(p, '/');
    assert NUL !in p[..n];
    if n == |p| {
      assert p == p[..n];
    } else {
      ValidPathHasNoNul(p[n + 1..], seen + 1);
      assert p == p[..n] + ['/'] + p[n + 1..];
    }
  }

  /** No valid path is longer than eight full segments. */
  lemma {:induction false} PathLength(p: string, seen: nat)
    requires ValidPathC(p, seen)
    ensures |p| < 129 * (MAX_PATH_SEGMENTS - seen)
    decreases |p|
  {
    var n := IndexOf(p, '/');
    if n < |p| {
      PathLength(p[n + 1..], seen + 1);
    }
  }

  function FullSegment(): string { seq(128, i => 'a') }

  function FullPath(segments: nat): string {
    if segments <= 1 then FullSegment() else FullSegment() + "/" + FullPath(segments - 1)
  }

  lemma {:induction false} FullPathValid(segments: nat)
    requires 1 <= segments <= MAX_PATH_SEGMENTS
    ensures ValidPathC(FullPath(segments), MAX_PATH_SEGMENTS - segments) && |FullPath(segments)| == 129 * segments - 1
  {
    var p := FullPath(segments);
    SegmentValid();
    hide ValidName, FullSegment, IndexOf;
    if segments == 1 {
      IndexOfUnique(p, '/', 128);
      assert p[..128] == p;
    } else {
      var tail := FullPath(segments - 1);
      FullPathValid(segments - 1);
      assert p == FullSegment() + "/" + tail;
      hide FullPath;
      SegmentThen(FullSegment(), tail);
    }
  }

  /** One more valid segment in front of a valid path. */
  lemma SegmentThen(first: string, tail: string)
    requires forall i :: 0 <= i < |first| ==> first[i] != '/'
    ensures var p := first + "/" + tail;
            && IndexOf(p, '/') == |first| < |p| && p[..|first|] == first && p[|first| + 1..] == tail
  {
    IndexOfUnique(first + "/" + tail, '/', |first|);
  }

  lemma SegmentValid()
    ensures ValidName(FullSegment(), "_.-") && |FullSegment()| == 128
    ensures forall i :: 0 <= i < 128 ==> FullSegment()[i] != '/'
  {
  }

  /** Both validations admit a path of 1031 bytes, which the executor's input records cannot carry. */
  lemma PathTooLong()
    ensures ValidPath(FullPath(8)) && |FullPath(8)| == 1031 >= PATH_CAPACITY
  {
    FullPathValid(8);
    PathsAgree(FullPath(8), 0);
  }

  predicate ToolchainChar(c: char) { 'a' <= c <= 'z' || IsDigit(c) || c == '-' }

  /** `toolchainPattern` and `valid_toolchain`. */
  predicate ValidToolchain(v: string) {
    && 1 <= |v| <= MAX_TOOLCHAIN && 'a' <= v[0] <= 'z'
    && forall i :: 1 <= i < |v| ==> ToolchainChar(v[i])
  }

  // ----- numbers

  const INT64_MAX := 0x7FFF_FFFF_FFFF_FFFF

  type Int64 = n: int | -0x8000_0000_0000_0000 <= n <= 0x7FFF_FFFF_FFFF_FFFF

  /** `strconv.FormatInt` in base 10. */
  function FormatInt(n: int): string { if n < 0 then "-" + Decimal(-n) else Decimal(n) }

  predicate IsBlank(c: char) { c == ' ' || '\t' <= c <= '\r' }

  function SkipBlank(v: string): string {
    if v == "" || !IsBlank(v[0]) then v else SkipBlank(v[1..])
  }

  /** `parse_limit`: strtoll on the whole value, then the range check. */
  function ParseLimit(v: string, max: int): Option<int> {
    var s := SkipBlank(v);
    var signed := s != "" && (s[0] == '-' || s[0] == '+');
    var digits := if signed then s[1..] else s;
    if digits == "" || !AllDigits(digits) then None
    else
      var n: int := Number(digits);
      var value := if signed && s[0] == '-' then -n else n;
      if value > INT64_MAX || value < -INT64_MAX - 1 || value < 0 || value > max then None else Some(value)
  }

  lemma ParseFormatted(n: int, max: int)
    requires max <= INT64_MAX
    ensures ParseLimit(FormatInt(n), max) == if 0 <= n <= max then Some(n) else None
  {
    var v := FormatInt(n);
    var d := Decimal(if n < 0 then -n else n);
    assert IsDigit(d[0]);
    if n < 0 {
      assert v[1..] == d;
    }
  }

  lemma FormattedHasNoNul(n: int)
    ensures NUL !in FormatInt(n)
  {
    var d := Decimal(if n < 0 then -n else n);
    forall c | c in d ensures c != NUL {
      var i :| 0 <= i < |d| && d[i] == c;
      assert IsDigit(d[i]);
    }
  }

  // ----- the job and its records

  datatype Limits = Limits(cpuNs: int, clockNs: int, memoryBytes: int, maxProcesses: int,
                           stdoutMaxBytes: int, stderrMaxBytes: int)

  datatype Input = Input(path: string, executable: bool)

  datatype Spec = Spec(toolchain: string, args: seq<string>, env: seq<string>, inputs: seq<Input>,
                       outputs: seq<string>, limits: Limits)

  datatype Record = Record(key: string, value: string)

  function Line(r: Record): string { r.key + "=" + r.value + [NUL] }

  function Encode(records: seq<Record>): string {
    if records == [] then "" else Line(records[0]) + Encode(records[1..])
  }

  function Keyed(key: string, values: seq<string>): (r: seq<Record>)
    ensures |r| == |values|
    ensures forall i :: 0 <= i < |r| ==> r[i] == Record(key, values[i])
  {
    seq(|values|, i requires 0 <= i < |values| => Record(key, values[i]))
  }

  function InputText(i: Input): string { (if i.executable then "1:" else "0:") + i.path }

  function InputTexts(inputs: seq<Input>): (r: seq<string>)
    ensures |r| == |inputs|
    ensures forall i :: 0 <= i < |r| ==> r[i] == InputText(inputs[i])
  {
    seq(|inputs|, i requires 0 <= i < |inputs| => InputText(inputs[i]))
  }

  function LimitRecords(l: Limits): seq<Record> {
    [Record("cpu_ns", FormatInt(l.cpuNs)), Record("clock_ns", FormatInt(l.clockNs)),
     Record("memory_bytes", FormatInt(l.memoryBytes)), Record("max_processes", FormatInt(l.maxProcesses)),
     Record("stdout_max_bytes", FormatInt(l.stdoutMaxBytes)), Record("stderr_max_bytes", FormatInt(l.stderrMaxBytes))]
  }

  function RecordsOf(j: Spec): seq<Record> {
    [Record("toolchain", j.toolchain)] + Keyed("arg", j.args) + Keyed("env", j.env)
    + Keyed("input", InputTexts(j.inputs)) + Keyed("output", j.outputs) + LimitRecords(j.limits)
  }

  /** The bytes of the spec file. */
  function Print(j: Spec): string { Encode(RecordsOf(j)) }

  /** What `writeRequest` itself refuses, apart from the sizes of the input files. */
  ghost predicate Printable(j: Spec) {
    && ValidToolchain(j.toolchain)
    && (forall i :: 0 <= i < |j.args| ==> NUL !in j.args[i])
    && (forall i :: 0 <= i < |j.env| ==> NUL !in j.env[i])
    && (forall i :: 0 <= i < |j.inputs| ==> ValidPath(j.inputs[i].path))
    && (forall i :: 0 <= i < |j.outputs| ==> ValidPath(j.outputs[i]))
  }

  lemma {:induction false} EncodeAppend(xs: seq<Record>, ys: seq<Record>)
    ensures Encode(xs + ys) == Encode(xs) + Encode(ys)
  {
    if xs == [] {
      assert xs + ys == ys;
    } else {
      assert (xs + ys)[1..] == xs[1..] + ys;
      EncodeAppend(xs[1..], ys);
    }
  }

  function Total(sizes: seq<nat>): nat {
    if sizes == [] then 0 else Total(sizes[..|sizes| - 1]) + sizes[|sizes| - 1]
  }

  lemma {:induction false} TotalPrefix(sizes: seq<nat>, n: nat)
    requires n <= |sizes|
    ensures Total(sizes[..n]) <= Total(sizes)
    decreases |sizes|
  {
    if n < |sizes| {
      assert sizes[..|sizes| - 1][..n] == sizes[..n];
      TotalPrefix(sizes[..|sizes| - 1], n);
    } else {
      assert sizes[..n] == sizes;
    }
  }

  /** One record appended to the buffer. */
  lemma EncodeOne(done: seq<Record>, r: Record)
    ensures Encode(done + [r]) == Encode(done) + Line(r)
  {
    EncodeAppend(done, [r]);
    assert [r][1..] == [];
  }

  lemma KeyedStep(key: string, values: seq<string>, i: nat)
    requires i < |values|
    ensures Keyed(key, values[..i + 1]) == Keyed(key, values[..i]) + [Record(key, values[i])]
  {
  }

  /** Appends `key=value` records, refusing a NUL where the code checks for one. */
  method PrintAll(buffer: string, ghost done: seq<Record>, key: string, values: seq<string>)
    returns (ok: bool, buffer': string)
    requires buffer == Encode(done)
    ensures ok <==> forall i :: 0 <= i < |values| ==> NUL !in values[i]
    ensures ok ==> buffer' == Encode(done + Keyed(key, values))
  {
    hide Encode;
    buffer' := buffer;
    assert done + Keyed(key, values[..0]) == done;
    for i := 0 to |values|
      invariant buffer' == Encode(done + Keyed(key, values[..i]))
      invariant forall k :: 0 <= k < i ==> NUL !in values[k]
    {
      if NUL in values[i] {
        return false, buffer';
      }
      KeyedStep(key, values, i);
      EncodeOne(done + Keyed(key, values[..i]), Record(key, values[i]));
      assert done + Keyed(key, values[..i + 1]) == done + Keyed(key, values[..i]) + [Record(key, values[i])];
      buffer' := buffer' + (key + "=" + values[i] + [NUL]);
    }
    assert values[..|values|] == values;
    ok := true;
  }

  lemma InputLine(inputs: seq<Input>, i: nat, flag: string)
    requires i < |inputs| && flag == if inputs[i].executable then "1" else "0"
    ensures "input=" + flag + ":" + inputs[i].path + [NUL] == Line(Record("input", InputTexts(inputs)[i]))
  {
  }

  lemma TotalNothing(sizes: seq<nat>)
    ensures Total(sizes[..0]) == 0
  {
  }

  lemma TotalNext(sizes: seq<nat>, i: nat)
    requires i < |sizes|
    ensures Total(sizes[..i + 1]) == Total(sizes[..i]) + sizes[i]
  {
    assert sizes[..i + 1][..i] == sizes[..i];
  }

  /** The inputs, each with its path checked and its bytes charged to the budget. */
  method PrintInputs(buffer: string, ghost done: seq<Record>, inputs: seq<Input>, sizes: seq<nat>)
    returns (ok: bool, buffer': string, total: nat)
    requires |sizes| == |inputs| && buffer == Encode(done)
    ensures ok <==> (forall i :: 0 <= i < |inputs| ==> ValidPath(inputs[i].path)) && Total(sizes) <= MAX_INPUT_BYTES
    ensures ok ==> buffer' == Encode(done + Keyed("input", InputTexts(inputs))) && total == Total(sizes)
  {
    hide Encode, ValidPath, Split, Line, Keyed, Total;
    ghost var texts := InputTexts(inputs);
    assert Total(sizes[..0]) == 0 by { TotalNothing(sizes); }
    assert done + Keyed("input", texts[..0]) == done;
    buffer', total := buffer, 0;
    for i := 0 to |inputs|
      invariant buffer' == Encode(done + Keyed("input", texts[..i]))
      invariant forall k :: 0 <= k < i ==> ValidPath(inputs[k].path)
      invariant total == Total(sizes[..i]) <= MAX_INPUT_BYTES
    {
      if !ValidPath(inputs[i].path) {
        return false, "", 0;
      }
      TotalNext(sizes, i);
      TotalPrefix(sizes, i + 1);
      if sizes[i] > MAX_INPUT_BYTES - total {
        return false, "", 0;
      }
      total := total + sizes[i];
      var flag := if inputs[i].executable then "1" else "0";
      KeyedStep("input", texts, i);
      EncodeOne(done + Keyed("input", texts[..i]), Record("input", texts[i]));
      assert done + Keyed("input", texts[..i + 1]) == done + Keyed("input", texts[..i]) + [Record("input", texts[i])];
      InputLine(inputs, i, flag);
      buffer' := buffer' + ("input=" + flag + ":" + inputs[i].path + [NUL]);
    }
    assert texts[..|inputs|] == texts && sizes[..|inputs|] == sizes;
    ok := true;
  }

  /** The outputs are checked before anything of them is written; a valid path has no NUL. */
  method CheckOutputs(outputs: seq<string>) returns (ok: bool)
    ensures ok <==> forall i :: 0 <= i < |outputs| ==> ValidPath(outputs[i])
    ensures ok ==> forall i :: 0 <= i < |outputs| ==> NUL !in outputs[i]
  {
    hide ValidPath;
    for i := 0 to |outputs|
      invariant forall k :: 0 <= k < i ==> ValidPath(outputs[k]) && NUL !in outputs[k]
    {
      if !ValidPath(outputs[i]) {
        return false;
      }
      ValidPathMeans(outputs[i]);
    }
    ok := true;
  }

  /** `writeRequest`; `sizes` are the bytes of the input files, `stdinSize` those of stdin. */
  method WriteRequest(j: Spec, sizes: seq<nat>, stdinSize: nat) returns (r: Option<string>)
    requires |sizes| == |j.inputs|
    ensures r.Some? <==> Printable(j) && Total(sizes) + stdinSize <= MAX_INPUT_BYTES
    ensures r.Some? ==> r.value == Print(j)
  {
    hide Encode, ValidPath, Split, ValidToolchain, Total, LimitRecords, Keyed, InputTexts;
    if !ValidToolchain(j.toolchain) {
      return None;
    }
    ghost var done := [Record("toolchain", j.toolchain)];
    EncodeOne([], done[0]);
    assert [] + done == done && Encode([]) == "" by { EmptyEncoding(); }
    var buffer := "toolchain=" + j.toolchain + [NUL];
    var ok;
    ok, buffer := PrintAll(buffer, done, "arg", j.args);
    if !ok {
      return None;
    }
    done := done + Keyed("arg", j.args);
    ok, buffer := PrintAll(buffer, done, "env", j.env);
    if !ok {
      return None;
    }
    done := done + Keyed("env", j.env);
    var total;
    ok, buffer, total := PrintInputs(buffer, done, j.inputs, sizes);
    if !ok {
      return None;
    }
    done := done + Keyed("input", InputTexts(j.inputs));
    if stdinSize > MAX_INPUT_BYTES - total {
      return None;
    }
    ok := CheckOutputs(j.outputs);
    if !ok {
      return None;
    }
    ok, buffer := PrintAll(buffer, done, "output", j.outputs);
    done := done + Keyed("output", j.outputs);
    buffer := PrintLimits(buffer, done, j.limits);
    r := Some(buffer);
  }

  lemma EmptyEncoding()
    ensures Encode([]) == ""
  {
  }

  lemma ValidPathMeans(p: string)
    ensures ValidPath(p) <==> ValidPathC(p, 0)
    ensures ValidPath(p) ==> NUL !in p
  {
    PathsAgree(p, 0);
    if ValidPath(p) {
      ValidPathHasNoNul(p, 0);
    }
  }

  lemma LineIs(key: string, value: string)
    ensures Line(Record(key, value)) == key + "=" + value + [NUL]
  {
  }

  /** The table of limits that the printer walks. */
  function LimitPairs(l: Limits): seq<(string, int)> {
    [("cpu_ns", l.cpuNs), ("clock_ns", l.clockNs), ("memory_bytes", l.memoryBytes), ("max_processes", l.maxProcesses),
     ("stdout_max_bytes", l.stdoutMaxBytes), ("stderr_max_bytes", l.stderrMaxBytes)]
  }

  lemma PairsAreRecords(l: Limits)
    ensures |LimitPairs(l)| == |LimitRecords(l)|
    ensures forall i :: 0 <= i < |LimitPairs(l)| ==>
              LimitRecords(l)[i] == Record(LimitPairs(l)[i].0, FormatInt(LimitPairs(l)[i].1))
  {
    hide FormatInt;
  }

  method PrintLimits(buffer: string, ghost done: seq<Record>, l: Limits) returns (buffer': string)
    requires buffer == Encode(done)
    ensures buffer' == Encode(done + LimitRecords(l))
  {
    hide Encode, LimitPairs, LimitRecords, FormatInt, Line;
    PairsAreRecords(l);
    var pairs := LimitPairs(l);
    ghost var records := LimitRecords(l);
    buffer' := buffer;
    assert done + records[..0] == done;
    for i := 0 to |pairs|
      invariant buffer' == Encode(done + records[..i])
    {
      EncodeOne(done + records[..i], records[i]);
      assert done + records[..i + 1] == done + records[..i] + [records[i]];
      LineIs(pairs[i].0, FormatInt(pairs[i].1));
      buffer' := buffer' + (pairs[i].0 + "=" + FormatInt(pairs[i].1) + [NUL]);
    }
    assert records[..|pairs|] == records;
  }

  // ----- the parser, one record after the other

  datatype State = State(args: seq<string>, env: seq<string>, inputs: seq<Input>, outputs: seq<string>,
                         toolchain: string, limits: map<nat, int>, stringBytes: nat)

  const START := State([], [], [], [], "", map[], 0)

  const ROWS := 6

  /** The row of the table of limits that a key names; ROWS if there is none. */
  function RowOf(key: string): (row: nat)
    ensures row <= ROWS
  {
    if key == "cpu_ns" then 0
    else if key == "clock_ns" then 1
    else if key == "memory_bytes" then 2
    else if key == "max_processes" then 3
    else if key == "stdout_max_bytes" then 4
    else if key == "stderr_max_bytes" then 5
    else ROWS
  }

  /** The largest value of a row. */
  function MaxOf(row: nat): (max: int)
    ensures 0 <= max <= INT64_MAX
  {
    match row
    case 0 => 60_000_000_000
    case 1 => 120_000_000_000
    case 2 => 1_073_741_824
    case 3 => 256
    case _ => 1_048_576
  }

  predicate EnvShape(v: string) { 0 < IndexOf(v, '=') < |v| }

  predicate InputShape(v: string) {
    |v| >= 2 && (v[0] == '0' || v[0] == '1') && v[1] == ':' && ValidPathC(v[2..], 0) && |v[2..]| < PATH_CAPACITY
  }

  /** One record, after the '=' has been found. */
  function Step(st: State, key: string, v: string): Result<State> {
    if key == "arg" then
      if |st.args| == MAX_ARGS then Err(TooMany)
      else Ok(st.(args := st.args + [v], stringBytes := st.stringBytes + |v| + 1))
    else if key == "env" then
      if |st.env| == MAX_ENV then Err(TooMany)
      else if !EnvShape(v) then Err(BadEnv)
      else Ok(st.(env := st.env + [v], stringBytes := st.stringBytes + |v| + 1))
    else if key == "input" then
      if |st.inputs| == MAX_INPUTS then Err(TooMany)
      else if !InputShape(v) then Err(BadInput)
      else if exists i :: 0 <= i < |st.inputs| && st.inputs[i].path == v[2..] then Err(DuplicateInput)
      else Ok(st.(inputs := st.inputs + [Input(v[2..], v[0] == '1')]))
    else if key == "toolchain" then
      if st.toolchain != "" || !ValidToolchain(v) then Err(BadToolchain)
      else Ok(st.(toolchain := v))
    else if key == "output" then
      if |st.outputs| == MAX_OUTPUTS then Err(TooMany)
      else if !ValidPathC(v, 0) then Err(BadOutput)
      else if exists i :: 0 <= i < |st.outputs| && st.outputs[i] == v then Err(DuplicateOutput)
      else Ok(st.(outputs := st.outputs + [v]))
    else
      var row := RowOf(key);
      if row == ROWS || row in st.limits then Err(BadKey)
      else
        match ParseLimit(v, MaxOf(row))
        case None => Err(BadKey)
        case Some(n) => Ok(st.(limits := st.limits[row := n]))
  }

  predicate AllLimits(limits: map<nat, int>) { forall row: nat :: row < ROWS ==> row in limits }

  function LimitsFrom(limits: map<nat, int>): Limits
    requires AllLimits(limits)
  {
    Limits(limits[0], limits[1], limits[2], limits[3], limits[4], limits[5])
  }

  predicate Normalized(l: Limits) { l.cpuNs > 0 && l.clockNs > 0 && l.memoryBytes > 0 && l.maxProcesses > 0 }

  /** The checks behind the last record. */
  function Finish(st: State): Result<Spec> {
    if st.toolchain == "" then Err(MissingToolchain)
    else if !AllLimits(st.limits) then Err(MissingLimit)
    else if !Normalized(LimitsFrom(st.limits)) then Err(NotNormalized)
    else if st.args == [] || !ValidCommand(st.args[0]) then Err(BadCommand)
    else if st.stringBytes > MAX_STRING_BYTES then Err(TooLarge)
    else Ok(Spec(st.toolchain, st.args, st.env, st.inputs, st.outputs, LimitsFrom(st.limits)))
  }

  function Fold(st: State, records: seq<Record>): Result<State>
    decreases |records|
  {
    if records == [] then Ok(st)
    else
      match Step(st, records[0].key, records[0].value)
      case Err(e) => Err(e)
      case Ok(next) => Fold(next, records[1..])
  }

  /** The record at the front of the data: up to NUL, cut at the first '='. */
  function ParseFrom(data: string, st: State): Result<State>
    decreases |data|
  {
    if data == "" then Ok(st)
    else
      var end := IndexOf(data, NUL);
      var record := data[..end];
      var eq := IndexOf(record, '=');
      if end == |data| || eq == end then Err(NoEquals)
      else
        match Step(st, record[..eq], record[eq + 1..])
        case Err(e) => Err(e)
        case Ok(next) => ParseFrom(data[end + 1..], next)
  }

  function Parse(data: string): Result<Spec> {
    if data == "" || data[|data| - 1] != NUL then Err(NotTerminated)
    else
      match ParseFrom(data, START)
      case Err(e) => Err(e)
      case Ok(st) => Finish(st)
  }

  // ----- parsing what was printed

  ghost predicate Wellformed(r: Record) { '=' !in r.key && NUL !in r.key && NUL !in r.value }

  lemma {:induction false} ParseEncoded(records: seq<Record>, st: State)
    requires forall i :: 0 <= i < |records| ==> Wellformed(records[i])
    ensures ParseFrom(Encode(records), st) == Fold(st, records)
    decreases |records|
  {
    hide Step;
    if records != [] {
      assert Wellformed(records[0]);
      var r, data := records[0], Encode(records);
      var line := r.key + "=" + r.value;
      assert data == line + [NUL] + Encode(records[1..]);
      IndexOfUnique(data, NUL, |line|);
      assert data[..|line|] == line;
      IndexOfUnique(line, '=', |r.key|);
      assert line[..|r.key|] == r.key && line[|r.key| + 1..] == r.value;
      assert data[|line| + 1..] == Encode(records[1..]);
      match Step(st, r.key, r.value)
      case Err(e) =>
      case Ok(next) => ParseEncoded(records[1..], next);
    }
  }

  lemma EncodedIsTerminated(records: seq<Record>)
    requires records != []
    ensures Encode(records) != "" && Encode(records)[|Encode(records)| - 1] == NUL
  {
    if |records| > 1 {
      EncodedIsTerminated(records[1..]);
    }
  }

  lemma {:induction false} FoldAppend(st: State, xs: seq<Record>, ys: seq<Record>)
    ensures Fold(st, xs + ys) == match Fold(st, xs) case Err(e) => Err(e) case Ok(next) => Fold(next, ys)
    decreases |xs|
  {
    hide Step;
    if xs == [] {
      assert xs + ys == ys;
    } else {
      assert (xs + ys)[1..] == xs[1..] + ys;
      match Step(st, xs[0].key, xs[0].value)
      case Err(e) =>
      case Ok(next) => FoldAppend(next, xs[1..], ys);
    }
  }

  /** argv and environment bytes, each with its NUL. */
  function StringBytes(values: seq<string>): nat {
    if values == [] then 0 else |values[0]| + 1 + StringBytes(values[1..])
  }

  lemma {:induction false} StringBytesAppend(xs: seq<string>, v: string)
    ensures StringBytes(xs + [v]) == StringBytes(xs) + |v| + 1
  {
    if xs != [] {
      assert (xs + [v])[1..] == xs[1..] + [v];
      StringBytesAppend(xs[1..], v);
    } else {
      assert xs + [v] == [v];
    }
  }

  lemma KeyedTail(key: string, values: seq<string>)
    requires values != []
    ensures Keyed(key, values)[0] == Record(key, values[0]) && Keyed(key, values)[1..] == Keyed(key, values[1..])
  {
  }

  lemma {:induction false} FoldArgs(st: State, args: seq<string>)
    requires |st.args| <= MAX_ARGS
    ensures var r := Fold(st, Keyed("arg", args));
            if |st.args| + |args| <= MAX_ARGS
            then r == Ok(st.(args := st.args + args, stringBytes := st.stringBytes + StringBytes(args)))
            else r.Err?
    decreases |args|
  {
    if args != [] {
      KeyedTail("arg", args);
      if |st.args| < MAX_ARGS {
        FoldArgs(st.(args := st.args + [args[0]], stringBytes := st.stringBytes + |args[0]| + 1), args[1..]);
        assert st.args + [args[0]] + args[1..] == st.args + args;
      }
    } else {
      assert st.args + args == st.args;
    }
  }

  ghost predicate EnvShapes(env: seq<string>) { forall i :: 0 <= i < |env| ==> EnvShape(env[i]) }

  lemma {:induction false} FoldEnv(st: State, env: seq<string>)
    requires |st.env| <= MAX_ENV
    ensures var r := Fold(st, Keyed("env", env));
            if |st.env| + |env| <= MAX_ENV && EnvShapes(env)
            then r == Ok(st.(env := st.env + env, stringBytes := st.stringBytes + StringBytes(env)))
            else r.Err?
    decreases |env|
  {
    hide EnvShape;
    if env != [] {
      KeyedTail("env", env);
      assert EnvShapes(env) <==> EnvShape(env[0]) && EnvShapes(env[1..]) by {
        assert forall i :: 1 <= i < |env| ==> env[i] == env[1..][i - 1];
      }
      if |st.env| < MAX_ENV && EnvShape(env[0]) {
        FoldEnv(st.(env := st.env + [env[0]], stringBytes := st.stringBytes + |env[0]| + 1), env[1..]);
        assert st.env + [env[0]] + env[1..] == st.env + env;
      }
    } else {
      assert st.env + env == st.env;
    }
  }

  ghost predicate Distinct(names: seq<string>) {
    forall i, j :: 0 <= i < j < |names| ==> names[i] != names[j]
  }

  function Paths(inputs: seq<Input>): (r: seq<string>)
    ensures |r| == |inputs|
    ensures forall i :: 0 <= i < |r| ==> r[i] == inputs[i].path
  {
    seq(|inputs|, i requires 0 <= i < |inputs| => inputs[i].path)
  }

  /** Adding one name to distinct names keeps them distinct exactly when it is new. */
  lemma DistinctExtend(seen: seq<string>, name: string, rest: seq<string>)
    requires Distinct(seen)
    ensures Distinct(seen + [name] + rest) ==> name !in seen
    ensures Distinct(seen + [name]) <==> name !in seen
  {
    var all := seen + [name] + rest;
    if name in seen {
      var i :| 0 <= i < |seen| && seen[i] == name;
      assert all[i] == all[|seen|];
      assert (seen + [name])[i] == (seen + [name])[|seen|];
    }
  }

  ghost predicate InputsFit(inputs: seq<Input>) {
    forall i :: 0 <= i < |inputs| ==> |inputs[i].path| < PATH_CAPACITY
  }

  lemma StepInput(st: State, i: Input)
    requires |st.inputs| <= MAX_INPUTS && ValidPathC(i.path, 0)
    ensures var r := Step(st, "input", InputText(i));
            if |st.inputs| < MAX_INPUTS && |i.path| < PATH_CAPACITY && i.path !in Paths(st.inputs)
            then r == Ok(st.(inputs := st.inputs + [i]))
            else r.Err?
  {
    hide ValidPathC;
    var text := InputText(i);
    assert text[2..] == i.path && text[0] == (if i.executable then '1' else '0') && text[1] == ':';
    assert i.path in Paths(st.inputs) <==> exists n :: 0 <= n < |st.inputs| && st.inputs[n].path == i.path;
  }

  lemma PathsSplit(before: seq<Input>, inputs: seq<Input>)
    requires inputs != []
    ensures Paths(before + inputs) == Paths(before) + [inputs[0].path] + Paths(inputs[1..])
    ensures Paths(before + [inputs[0]]) == Paths(before) + [inputs[0].path]
    ensures before + [inputs[0]] + inputs[1..] == before + inputs
  {
  }

  lemma {:induction false} FoldInputs(st: State, inputs: seq<Input>)
    requires |st.inputs| <= MAX_INPUTS && Distinct(Paths(st.inputs))
    requires forall i :: 0 <= i < |inputs| ==> ValidPathC(inputs[i].path, 0)
    ensures var r := Fold(st, Keyed("input", InputTexts(inputs)));
            if |st.inputs| + |inputs| <= MAX_INPUTS && InputsFit(inputs) && Distinct(Paths(st.inputs + inputs))
            then r == Ok(st.(inputs := st.inputs + inputs))
            else r.Err?
    decreases |inputs|
  {
    hide ValidPathC, Step, InputText, Distinct, InputsFit;
    if inputs != [] {
      var first, rest := inputs[0], inputs[1..];
      var texts := InputTexts(inputs);
      KeyedTail("input", texts);
      assert texts[1..] == InputTexts(rest);
      StepInput(st, first);
      InputsFitTail(inputs);
      DistinctExtend(Paths(st.inputs), first.path, Paths(rest));
      PathsSplit(st.inputs, inputs);
      hide Paths, InputTexts, Keyed;
      if |st.inputs| < MAX_INPUTS && |first.path| < PATH_CAPACITY && first.path !in Paths(st.inputs) {
        FoldInputs(st.(inputs := st.inputs + [first]), rest);
      }
    } else {
      assert st.inputs + inputs == st.inputs;
      InputsFitTail(inputs);
    }
  }

  lemma InputsFitTail(inputs: seq<Input>)
    ensures inputs == [] ==> InputsFit(inputs)
    ensures inputs != [] ==> (InputsFit(inputs) <==> |inputs[0].path| < PATH_CAPACITY && InputsFit(inputs[1..]))
  {
    if inputs != [] {
      assert forall i :: 1 <= i < |inputs| ==> inputs[i] == inputs[1..][i - 1];
    }
  }

  lemma {:induction false} FoldOutputs(st: State, outputs: seq<string>)
    requires |st.outputs| <= MAX_OUTPUTS && Distinct(st.outputs)
    requires forall i :: 0 <= i < |outputs| ==> ValidPathC(outputs[i], 0)
    ensures var r := Fold(st, Keyed("output", outputs));
            if |st.outputs| + |outputs| <= MAX_OUTPUTS && Distinct(st.outputs + outputs)
            then r == Ok(st.(outputs := st.outputs + outputs))
            else r.Err?
    decreases |outputs|
  {
    hide ValidPathC;
    if outputs != [] {
      var first, rest := outputs[0], outputs[1..];
      KeyedTail("output", outputs);
      DistinctExtend(st.outputs, first, rest);
      assert st.outputs + [first] + rest == st.outputs + outputs;
      if |st.outputs| < MAX_OUTPUTS && first !in st.outputs {
        FoldOutputs(st.(outputs := st.outputs + [first]), rest);
      } else {
        assert Step(st, "output", first).Err?;
      }
    } else {
      assert st.outputs + outputs == st.outputs;
    }
  }

  predicate InRange(row: nat, n: int) { row < ROWS && 0 <= n <= MaxOf(row) }

  lemma FoldLimit(st: State, key: string, row: nat, n: int, rest: seq<Record>)
    requires row == RowOf(key) < ROWS && row !in st.limits
    ensures Fold(st, [Record(key, FormatInt(n))] + rest) ==
              if InRange(row, n) then Fold(st.(limits := st.limits[row := n]), rest) else Err(BadKey)
  {
    hide ParseLimit, FormatInt, MaxOf;
    ParseFormatted(n, MaxOf(row));
    var records := [Record(key, FormatInt(n))] + rest;
    assert records[1..] == rest;
    assert key != "arg" && key != "env" && key != "input" && key != "toolchain" && key != "output";
    assert Step(st, key, FormatInt(n)) ==
           if InRange(row, n) then Ok(st.(limits := st.limits[row := n])) else Err(BadKey);
  }

  ghost predicate LimitsInRange(l: Limits) {
    && InRange(0, l.cpuNs) && InRange(1, l.clockNs) && InRange(2, l.memoryBytes)
    && InRange(3, l.maxProcesses) && InRange(4, l.stdoutMaxBytes) && InRange(5, l.stderrMaxBytes)
  }

  lemma Rows()
    ensures RowOf("cpu_ns") == 0 && RowOf("clock_ns") == 1 && RowOf("memory_bytes") == 2
    ensures RowOf("max_processes") == 3 && RowOf("stdout_max_bytes") == 4 && RowOf("stderr_max_bytes") == 5
  {
  }

  lemma FoldLimits(st: State, l: Limits)
    requires st.limits == map[]
    ensures var r := Fold(st, LimitRecords(l));
            if LimitsInRange(l)
            then r.Ok? && r.value == st.(limits := r.value.limits) && AllLimits(r.value.limits) && LimitsFrom(r.value.limits) == l
            else r.Err?
  {
    hide FormatInt, Fold, InRange, RowOf;
    var rs := LimitRecords(l);
    var s1 := st.(limits := st.limits[0 := l.cpuNs]);
    var s2 := s1.(limits := s1.limits[1 := l.clockNs]);
    var s3 := s2.(limits := s2.limits[2 := l.memoryBytes]);
    var s4 := s3.(limits := s3.limits[3 := l.maxProcesses]);
    var s5 := s4.(limits := s4.limits[4 := l.stdoutMaxBytes]);
    var s6 := s5.(limits := s5.limits[5 := l.stderrMaxBytes]);
    Rows();
    LimitTails(l);
    FoldLimit(st, "cpu_ns", 0, l.cpuNs, rs[1..]);
    FoldLimit(s1, "clock_ns", 1, l.clockNs, rs[2..]);
    FoldLimit(s2, "memory_bytes", 2, l.memoryBytes, rs[3..]);
    FoldLimit(s3, "max_processes", 3, l.maxProcesses, rs[4..]);
    FoldLimit(s4, "stdout_max_bytes", 4, l.stdoutMaxBytes, rs[5..]);
    FoldLimit(s5, "stderr_max_bytes", 5, l.stderrMaxBytes, []);
    FoldNothing(s6);
  }

  lemma LimitTails(l: Limits)
    ensures var rs := LimitRecords(l);
            && |rs| == ROWS
            && rs == [Record("cpu_ns", FormatInt(l.cpuNs))] + rs[1..]
            && rs[1..] == [Record("clock_ns", FormatInt(l.clockNs))] + rs[2..]
            && rs[2..] == [Record("memory_bytes", FormatInt(l.memoryBytes))] + rs[3..]
            && rs[3..] == [Record("max_processes", FormatInt(l.maxProcesses))] + rs[4..]
            && rs[4..] == [Record("stdout_max_bytes", FormatInt(l.stdoutMaxBytes))] + rs[5..]
            && rs[5..] == [Record("stderr_max_bytes", FormatInt(l.stderrMaxBytes))] + []
  {
    hide FormatInt;
  }

  lemma FoldNothing(st: State)
    ensures Fold(st, []) == Ok(st)
  {
  }

  /** What the executor asks of a request beyond what the printer checks. */
  ghost predicate Acceptable(j: Spec) {
    && 1 <= |j.args| <= MAX_ARGS && ValidCommand(j.args[0])
    && |j.env| <= MAX_ENV && EnvShapes(j.env)
    && |j.inputs| <= MAX_INPUTS && InputsFit(j.inputs) && Distinct(Paths(j.inputs))
    && |j.outputs| <= MAX_OUTPUTS && Distinct(j.outputs)
    && StringBytes(j.args) + StringBytes(j.env) <= MAX_STRING_BYTES
    && LimitsInRange(j.limits) && Normalized(j.limits)
  }

  /** The sections of a printed job, folded one after the other. */
  lemma FoldJob(j: Spec)
    requires Printable(j)
    ensures var r := Fold(START, RecordsOf(j));
            && (r.Ok? <==>
                && |j.args| <= MAX_ARGS && |j.env| <= MAX_ENV && EnvShapes(j.env)
                && |j.inputs| <= MAX_INPUTS && InputsFit(j.inputs) && Distinct(Paths(j.inputs))
                && |j.outputs| <= MAX_OUTPUTS && Distinct(j.outputs) && LimitsInRange(j.limits))
            && (r.Ok? ==>
                && r.value == State(j.args, j.env, j.inputs, j.outputs, j.toolchain, r.value.limits,
                                    StringBytes(j.args) + StringBytes(j.env))
                && AllLimits(r.value.limits) && LimitsFrom(r.value.limits) == j.limits)
  {
    hide Fold, EnvShapes, InputsFit, Distinct, LimitsInRange, StringBytes, ValidToolchain, ValidPath, ValidPathC, AllLimits, LimitsFrom;
    var tool := [Record("toolchain", j.toolchain)];
    var args, env := Keyed("arg", j.args), Keyed("env", j.env);
    var inputs, outputs := Keyed("input", InputTexts(j.inputs)), Keyed("output", j.outputs);
    var limits := LimitRecords(j.limits);
    forall i | 0 <= i < |j.inputs| ensures ValidPathC(j.inputs[i].path, 0) { ValidPathMeans(j.inputs[i].path); }
    forall i | 0 <= i < |j.outputs| ensures ValidPathC(j.outputs[i], 0) { ValidPathMeans(j.outputs[i]); }
    FoldToolchain(j.toolchain);
    FoldAppend(START, tool, args);
    FoldAppend(START, tool + args, env);
    FoldAppend(START, tool + args + env, inputs);
    FoldAppend(START, tool + args + env + inputs, outputs);
    FoldAppend(START, tool + args + env + inputs + outputs, limits);
    var s0 := START.(toolchain := j.toolchain);
    FoldArgs(s0, j.args);
    var s1 := s0.(args := s0.args + j.args, stringBytes := s0.stringBytes + StringBytes(j.args));
    FoldEnv(s1, j.env);
    var s2 := s1.(env := s1.env + j.env, stringBytes := s1.stringBytes + StringBytes(j.env));
    DistinctEmpty();
    FoldInputs(s2, j.inputs);
    var s3 := s2.(inputs := s2.inputs + j.inputs);
    FoldOutputs(s3, j.outputs);
    var s4 := s3.(outputs := s3.outputs + j.outputs);
    FoldLimits(s4, j.limits);
    assert [] + j.args == j.args && [] + j.env == j.env && [] + j.inputs == j.inputs && [] + j.outputs == j.outputs;
  }

  lemma DistinctEmpty()
    ensures Distinct([]) && Distinct(Paths([]))
  {
  }

  lemma FoldToolchain(toolchain: string)
    requires ValidToolchain(toolchain)
    ensures Fold(START, [Record("toolchain", toolchain)]) == Ok(START.(toolchain := toolchain))
    ensures NUL !in toolchain && toolchain != ""
  {
    var records := [Record("toolchain", toolchain)];
    assert records[1..] == [];
  }

  ghost predicate AllWellformed(records: seq<Record>) {
    forall i :: 0 <= i < |records| ==> Wellformed(records[i])
  }

  lemma JoinWellformed(xs: seq<Record>, ys: seq<Record>)
    requires AllWellformed(xs) && AllWellformed(ys)
    ensures AllWellformed(xs + ys)
  {
  }

  lemma PlainKeys()
    ensures forall c :: c in "cpu_ns" || c in "clock_ns" || c in "memory_bytes" ==> c == '_' || IsAlpha(c)
    ensures forall c :: c in "max_processes" || c in "stdout_max_bytes" || c in "stderr_max_bytes" ==> c == '_' || IsAlpha(c)
  {
  }

  lemma LimitWellformed(key: string, n: int)
    requires forall c :: c in key ==> c == '_' || IsAlpha(c)
    ensures Wellformed(Record(key, FormatInt(n)))
  {
    hide FormatInt;
    FormattedHasNoNul(n);
  }

  lemma LimitsWellformed(l: Limits)
    ensures AllWellformed(LimitRecords(l))
  {
    hide FormatInt, Wellformed;
    PlainKeys();
    LimitWellformed("cpu_ns", l.cpuNs);
    LimitWellformed("clock_ns", l.clockNs);
    LimitWellformed("memory_bytes", l.memoryBytes);
    LimitWellformed("max_processes", l.maxProcesses);
    LimitWellformed("stdout_max_bytes", l.stdoutMaxBytes);
    LimitWellformed("stderr_max_bytes", l.stderrMaxBytes);
  }

  lemma KeyedWellformed(key: string, values: seq<string>)
    requires '=' !in key && NUL !in key && forall i :: 0 <= i < |values| ==> NUL !in values[i]
    ensures AllWellformed(Keyed(key, values))
  {
  }

  lemma RecordsWellformed(j: Spec)
    requires Printable(j)
    ensures AllWellformed(RecordsOf(j))
  {
    hide ValidPath, LimitRecords, ValidToolchain, AllWellformed, Keyed;
    FoldToolchain(j.toolchain);
    forall i | 0 <= i < |j.inputs| ensures NUL !in InputTexts(j.inputs)[i] { ValidPathMeans(j.inputs[i].path); }
    forall i | 0 <= i < |j.outputs| ensures NUL !in j.outputs[i] { ValidPathMeans(j.outputs[i]); }
    var tool := [Record("toolchain", j.toolchain)];
    var args, env := Keyed("arg", j.args), Keyed("env", j.env);
    var inputs, outputs := Keyed("input", InputTexts(j.inputs)), Keyed("output", j.outputs);
    assert AllWellformed(tool) by { ToolchainWellformed(j.toolchain); }
    KeyedWellformed("arg", j.args);
    KeyedWellformed("env", j.env);
    KeyedWellformed("input", InputTexts(j.inputs));
    KeyedWellformed("output", j.outputs);
    JoinWellformed(tool, args);
    JoinWellformed(tool + args, env);
    JoinWellformed(tool + args + env, inputs);
    JoinWellformed(tool + args + env + inputs, outputs);
    LimitsWellformed(j.limits);
    JoinWellformed(tool + args + env + inputs + outputs, LimitRecords(j.limits));
  }

  lemma ToolchainWellformed(toolchain: string)
    requires NUL !in toolchain
    ensures AllWellformed([Record("toolchain", toolchain)])
  {
  }

  /** The parser returns exactly the printed job, and refuses it exactly when it is not acceptable. */
  lemma RoundTrip(j: Spec)
    requires Printable(j)
    ensures Parse(Print(j)).Ok? <==> Acceptable(j)
    ensures Parse(Print(j)).Ok? ==> Parse(Print(j)).value == j
  {
    hide Fold, EnvShapes, InputsFit, Distinct, LimitsInRange, StringBytes, ParseFrom, Encode, RecordsOf, Printable, AllLimits, LimitsFrom;
    RecordsWellformed(j);
    ParseEncoded(RecordsOf(j), START);
    RecordsNotEmpty(j);
    EncodedIsTerminated(RecordsOf(j));
    FoldJob(j);
  }

  lemma RecordsNotEmpty(j: Spec)
    ensures RecordsOf(j) != []
    ensures Printable(j) ==> j.toolchain != ""
  {
  }

  /** Two acceptable jobs with the same bytes are the same job. */
  lemma PrintInjective(i: Spec, j: Spec)
    requires Printable(i) && Acceptable(i) && Printable(j) && Acceptable(j)
    requires Print(i) == Print(j)
    ensures i == j
  {
    RoundTrip(i);
    RoundTrip(j);
  }

  // ----- whatever the parser accepts could have been printed

  ghost predicate NoNuls(values: seq<string>) { forall i :: 0 <= i < |values| ==> NUL !in values[i] }

  ghost predicate GoodPaths(paths: seq<string>) { forall i :: 0 <= i < |paths| ==> ValidPathC(paths[i], 0) }

  /** What every accepted record keeps. */
  ghost predicate Sane(st: State) {
    && |st.args| <= MAX_ARGS && NoNuls(st.args)
    && |st.env| <= MAX_ENV && NoNuls(st.env) && EnvShapes(st.env)
    && |st.inputs| <= MAX_INPUTS && GoodPaths(Paths(st.inputs)) && InputsFit(st.inputs) && Distinct(Paths(st.inputs))
    && |st.outputs| <= MAX_OUTPUTS && GoodPaths(st.outputs) && Distinct(st.outputs)
    && (st.toolchain == "" || ValidToolchain(st.toolchain))
    && st.stringBytes == StringBytes(st.args) + StringBytes(st.env)
    && forall k :: k in st.limits ==> InRange(k, st.limits[k])
  }

  lemma InputSane(st: State, added: Input)
    requires GoodPaths(Paths(st.inputs)) && InputsFit(st.inputs) && Distinct(Paths(st.inputs))
    requires ValidPathC(added.path, 0) && |added.path| < PATH_CAPACITY
    requires !exists i :: 0 <= i < |st.inputs| && st.inputs[i].path == added.path
    ensures var inputs := st.inputs + [added];
            GoodPaths(Paths(inputs)) && InputsFit(inputs) && Distinct(Paths(inputs))
  {
    hide ValidPathC;
    assert Paths(st.inputs + [added]) == Paths(st.inputs) + [added.path];
    DistinctExtend(Paths(st.inputs), added.path, []);
  }

  lemma StepSane(st: State, key: string, v: string)
    requires Sane(st) && NUL !in v && Step(st, key, v).Ok?
    ensures Sane(Step(st, key, v).value)
  {
    hide ValidPathC, EnvShape, ParseLimit, ValidToolchain, MaxOf, RowOf;
    if key == "arg" {
      StringBytesAppend(st.args, v);
      hide Distinct, GoodPaths, InputsFit, InRange, Paths, StringBytes;
    } else if key == "env" {
      StringBytesAppend(st.env, v);
      hide Distinct, GoodPaths, InputsFit, InRange, Paths, StringBytes;
    } else if key == "input" {
      InputSane(st, Input(v[2..], v[0] == '1'));
      hide Distinct, GoodPaths, InputsFit, InRange, Paths, StringBytes, NoNuls, EnvShapes;
    } else if key == "output" {
      DistinctExtend(st.outputs, v, []);
    } else if key != "toolchain" {
      LimitParsed(v, MaxOf(RowOf(key)));
    }
  }

  lemma LimitParsed(v: string, max: int)
    ensures ParseLimit(v, max).Some? ==> 0 <= ParseLimit(v, max).value <= max
  {
  }

  lemma {:induction false} ParseFromSane(data: string, st: State)
    requires Sane(st) && ParseFrom(data, st).Ok?
    ensures Sane(ParseFrom(data, st).value)
    decreases |data|
  {
    hide Step, Sane;
    if data != "" {
      var end := IndexOf(data, NUL);
      var record := data[..end];
      var eq := IndexOf(record, '=');
      assert forall i :: 0 <= i < end ==> data[i] != NUL;
      assert NUL !in record[eq + 1..];
      StepSane(st, record[..eq], record[eq + 1..]);
      ParseFromSane(data[end + 1..], Step(st, record[..eq], record[eq + 1..]).value);
    }
  }

  lemma AcceptedIsSane(data: string)
    requires Parse(data).Ok?
    ensures Printable(Parse(data).value) && Acceptable(Parse(data).value)
  {
    hide ValidPathC, ValidPath, ParseFrom, EnvShape, ValidToolchain, StringBytes, Distinct;
    var j := Parse(data).value;
    SaneStart();
    ParseFromSane(data, START);
    forall i | 0 <= i < |j.inputs| ensures ValidPath(j.inputs[i].path) {
      assert Paths(j.inputs)[i] == j.inputs[i].path;
      ValidPathMeans(j.inputs[i].path);
    }
    forall i | 0 <= i < |j.outputs| ensures ValidPath(j.outputs[i]) {
      ValidPathMeans(j.outputs[i]);
    }
  }

  /** Any accepted file, however it was written, says what some acceptable job prints. */
  lemma AcceptedIsAcceptable(data: string)
    requires Parse(data).Ok?
    ensures Printable(Parse(data).value) && Acceptable(Parse(data).value)
    ensures Parse(Print(Parse(data).value)) == Parse(data)
  {
    var j := Parse(data).value;
    hide *;
    AcceptedIsSane(data);
    RoundTrip(j);
  }

  lemma SaneStart()
    ensures Sane(START)
  {
  }

  // ----- the parser in place

  /** A spec as the C struct holds it: arguments, environment and outputs are offsets into the buffer. */
  datatype Raw = Raw(args: seq<nat>, env: seq<nat>, inputs: seq<Input>, outputs: seq<nat>,
                     toolchain: string, limits: map<nat, int>, stringBytes: nat)

  /** The C string at offset p: everything up to the next NUL. */
  function CString(buffer: string, p: nat): (s: string)
    requires p <= |buffer|
    ensures p + |s| <= |buffer| && s == buffer[p..p + |s|] && NUL !in s
  {
    buffer[p..][..IndexOf(buffer[p..], NUL)]
  }

  /** Every pointer points at a string that ends before `limit`. */
  ghost predicate Below(buffer: string, pointers: seq<nat>, limit: nat) {
    forall i :: 0 <= i < |pointers| ==> pointers[i] < limit <= |buffer| && NUL in buffer[pointers[i]..limit]
  }

  ghost predicate RawBelow(buffer: string, raw: Raw, limit: nat) {
    Below(buffer, raw.args, limit) && Below(buffer, raw.env, limit) && Below(buffer, raw.outputs, limit)
  }

  function Strings(buffer: string, pointers: seq<nat>): (r: seq<string>)
    requires forall i :: 0 <= i < |pointers| ==> pointers[i] <= |buffer|
    ensures |r| == |pointers|
    ensures forall i :: 0 <= i < |r| ==> r[i] == CString(buffer, pointers[i])
  {
    seq(|pointers|, i requires 0 <= i < |pointers| => CString(buffer, pointers[i]))
  }

  ghost predicate InBuffer(buffer: string, raw: Raw) {
    && (forall i :: 0 <= i < |raw.args| ==> raw.args[i] <= |buffer|)
    && (forall i :: 0 <= i < |raw.env| ==> raw.env[i] <= |buffer|)
    && (forall i :: 0 <= i < |raw.outputs| ==> raw.outputs[i] <= |buffer|)
  }

  /** What the struct says, read through its pointers. */
  ghost function View(buffer: string, raw: Raw): State
    requires InBuffer(buffer, raw)
  {
    State(Strings(buffer, raw.args), Strings(buffer, raw.env), raw.inputs, Strings(buffer, raw.outputs),
          raw.toolchain, raw.limits, raw.stringBytes)
  }

  lemma CStringStable(buffer: string, buffer': string, p: nat, limit: nat)
    requires p <= limit <= |buffer| && |buffer'| == |buffer| && buffer[..limit] == buffer'[..limit]
    requires NUL in buffer[p..limit]
    ensures CString(buffer, p) == CString(buffer', p)
  {
    var s := CString(buffer, p);
    var n := |s|;
    assert forall i :: 0 <= i < limit ==> buffer[..limit][i] == buffer'[..limit][i];
    var k :| 0 <= k < limit - p && buffer[p..limit][k] == NUL;
    assert buffer[p..][k] == NUL;
    assert n <= k;
    assert buffer[p..][n] == NUL;
    forall i | 0 <= i < n ensures buffer'[p..][i] == s[i] != NUL {
      assert s[i] == buffer[p..][i];
    }
    assert buffer'[p..][n] == NUL;
    IndexOfUnique(buffer'[p..], NUL, n);
    assert CString(buffer', p) == s;
  }

  /** A write behind the strings read so far changes none of them. */
  lemma ViewStable(buffer: string, buffer': string, raw: Raw, limit: nat)
    requires limit <= |buffer| && |buffer'| == |buffer| && buffer[..limit] == buffer'[..limit]
    requires RawBelow(buffer, raw, limit)
    ensures RawBelow(buffer', raw, limit) && InBuffer(buffer, raw) && InBuffer(buffer', raw)
    ensures View(buffer', raw) == View(buffer, raw)
  {
    hide CString;
    StringsStable(buffer, buffer', raw.args, limit);
    StringsStable(buffer, buffer', raw.env, limit);
    StringsStable(buffer, buffer', raw.outputs, limit);
  }

  lemma StringsStable(buffer: string, buffer': string, pointers: seq<nat>, limit: nat)
    requires limit <= |buffer| && |buffer'| == |buffer| && buffer[..limit] == buffer'[..limit]
    requires Below(buffer, pointers, limit)
    ensures Below(buffer', pointers, limit)
    ensures forall i :: 0 <= i < |pointers| ==> pointers[i] <= |buffer|
    ensures Strings(buffer', pointers) == Strings(buffer, pointers)
  {
    hide CString;
    forall i | 0 <= i < |pointers|
      ensures NUL in buffer'[pointers[i]..limit] && CString(buffer, pointers[i]) == CString(buffer', pointers[i])
    {
      CStringStable(buffer, buffer', pointers[i], limit);
      assert buffer[pointers[i]..limit] == buffer[..limit][pointers[i]..];
      assert buffer'[pointers[i]..limit] == buffer'[..limit][pointers[i]..];
    }
  }

  lemma BelowGrows(buffer: string, raw: Raw, limit: nat, limit': nat)
    requires RawBelow(buffer, raw, limit) && limit <= limit' <= |buffer|
    ensures RawBelow(buffer, raw, limit')
  {
    forall p: nat | p < limit && NUL in buffer[p..limit] ensures NUL in buffer[p..limit'] {
      var k :| 0 <= k < limit - p && buffer[p..limit][k] == NUL;
      assert buffer[p..limit'][k] == NUL;
    }
  }

  /** `strlen` and `strchr(rec, '=')` walk the buffer itself. */
  method Scan(data: array<char>, from: nat, stop: char) returns (end: nat)
    requires from < data.Length && data[data.Length - 1] == NUL
    ensures from <= end < data.Length && (data[end] == NUL || data[end] == stop)
    ensures forall i :: from <= i < end ==> data[i] != NUL && data[i] != stop
  {
    end := from;
    while data[end] != NUL && data[end] != stop
      invariant from <= end < data.Length
      invariant forall i :: from <= i < end ==> data[i] != NUL && data[i] != stop
      decreases data.Length - end
    {
      end := end + 1;
    }
  }

  /** One record stored: k is its key, the value is the C string at offset v. */
  method StoreRecord(buffer: string, raw: Raw, k: string, v: nat) returns (r: Result<Raw>)
    requires v < |buffer| && RawBelow(buffer, raw, v)
    requires NUL in buffer[v..]
    ensures InBuffer(buffer, raw)
    ensures match Step(View(buffer, raw), k, CString(buffer, v))
            case Err(e) => r == Err(e)
            case Ok(st) => r.Ok? && InBuffer(buffer, r.value) && View(buffer, r.value) == st
    ensures r.Ok? ==> PointersFrom(raw, r.value, v)
  {
    hide ValidPathC, EnvShape, ParseLimit, ValidToolchain, CString, MaxOf, RowOf;
    var value := CString(buffer, v);
    if k == "arg" {
      if |raw.args| == MAX_ARGS {
        return Err(TooMany);
      }
      r := Ok(raw.(args := raw.args + [v], stringBytes := raw.stringBytes + |value| + 1));
      assert Strings(buffer, r.value.args) == Strings(buffer, raw.args) + [value];
    } else if k == "env" {
      if |raw.env| == MAX_ENV {
        return Err(TooMany);
      }
      if !EnvShape(value) {
        return Err(BadEnv);
      }
      r := Ok(raw.(env := raw.env + [v], stringBytes := raw.stringBytes + |value| + 1));
      assert Strings(buffer, r.value.env) == Strings(buffer, raw.env) + [value];
    } else if k == "input" {
      if |raw.inputs| == MAX_INPUTS {
        return Err(TooMany);
      }
      if !InputShape(value) {
        return Err(BadInput);
      }
      for i := 0 to |raw.inputs|
        invariant forall n :: 0 <= n < i ==> raw.inputs[n].path != value[2..]
      {
        if raw.inputs[i].path == value[2..] {
          return Err(DuplicateInput);
        }
      }
      r := Ok(raw.(inputs := raw.inputs + [Input(value[2..], value[0] == '1')]));
    } else if k == "toolchain" {
      if raw.toolchain != "" || !ValidToolchain(value) {
        return Err(BadToolchain);
      }
      r := Ok(raw.(toolchain := value));
    } else if k == "output" {
      r := StoreOutput(buffer, raw, v);
    } else {
      var row := RowOf(k);
      if row == ROWS || row in raw.limits {
        return Err(BadKey);
      }
      var n := ParseLimit(value, MaxOf(row));
      if n.None? {
        return Err(BadKey);
      }
      r := Ok(raw.(limits := raw.limits[row := n.value]));
    }
  }

  /** The only pointer a record can add is the one to its own value. */
  ghost predicate PointersFrom(raw: Raw, raw': Raw, v: nat) {
    && (raw'.args == raw.args || raw'.args == raw.args + [v])
    && (raw'.env == raw.env || raw'.env == raw.env + [v])
    && (raw'.outputs == raw.outputs || raw'.outputs == raw.outputs + [v])
  }

  method StoreOutput(buffer: string, raw: Raw, v: nat) returns (r: Result<Raw>)
    requires v < |buffer| && InBuffer(buffer, raw)
    ensures match Step(View(buffer, raw), "output", CString(buffer, v))
            case Err(e) => r == Err(e)
            case Ok(st) => r.Ok? && InBuffer(buffer, r.value) && View(buffer, r.value) == st
    ensures r.Ok? ==> r.value == raw.(outputs := raw.outputs + [v])
  {
    hide ValidPathC, CString;
    var value := CString(buffer, v);
    if |raw.outputs| == MAX_OUTPUTS {
      return Err(TooMany);
    }
    if !ValidPathC(value, 0) {
      return Err(BadOutput);
    }
    for i := 0 to |raw.outputs|
      invariant forall n :: 0 <= n < i ==> CString(buffer, raw.outputs[n]) != value
    {
      if CString(buffer, raw.outputs[i]) == value {
        assert Strings(buffer, raw.outputs)[i] == value;
        return Err(DuplicateOutput);
      }
    }
    r := Ok(raw.(outputs := raw.outputs + [v]));
    assert Strings(buffer, r.value.outputs) == Strings(buffer, raw.outputs) + [value];
  }

  /** The record between rec and end, cut at eq, is the one the parser reads next. */
  lemma RecordAt(data: string, rec: nat, end: nat, eq: nat, st: State)
    requires rec <= eq <= end < |data| && data[end] == NUL
    requires forall i :: rec <= i < end ==> data[i] != NUL
    requires forall i :: rec <= i < eq ==> data[i] != '='
    requires eq < end ==> data[eq] == '='
    ensures ParseFrom(data[rec..], st) ==
              if eq == end then Err(NoEquals)
              else
                match Step(st, data[rec..eq], data[eq + 1..end])
                case Err(e) => Err(e)
                case Ok(next) => ParseFrom(data[end + 1..], next)
  {
    hide Step, IndexOf;
    RecordCut(data, rec, end, eq);
  }

  lemma RecordCut(data: string, rec: nat, end: nat, eq: nat)
    requires rec <= eq <= end < |data| && data[end] == NUL
    requires forall i :: rec <= i < end ==> data[i] != NUL
    requires forall i :: rec <= i < eq ==> data[i] != '='
    requires eq < end ==> data[eq] == '='
    ensures var tail := data[rec..];
            var record := data[rec..end];
            && tail != "" && IndexOf(tail, NUL) == end - rec < |tail| && tail[..end - rec] == record
            && tail[end - rec + 1..] == data[end + 1..]
            && IndexOf(record, '=') == eq - rec && record[..eq - rec] == data[rec..eq]
            && (eq < end ==> record[eq - rec + 1..] == data[eq + 1..end])
  {
    hide IndexOf;
    var tail, record := data[rec..], data[rec..end];
    FirstIn(data, rec, end, |data|, NUL);
    FirstIn(data, rec, eq, end, '=');
    assert data[rec..|data|] == tail;
    assert tail[..end - rec] == record;
  }

  /** The first c at or behind `from` in a part of the data, seen from that part. */
  lemma FirstIn(data: string, from: nat, at: nat, to: nat, c: char)
    requires from <= at <= to <= |data| && (at < to ==> data[at] == c)
    requires forall i :: from <= i < at ==> data[i] != c
    ensures IndexOf(data[from..to], c) == at - from
  {
    IndexOfUnique(data[from..to], c, at - from);
  }

  lemma CStringIs(buffer: string, p: nat, end: nat)
    requires p <= end < |buffer| && buffer[end] == NUL
    requires forall i :: p <= i < end ==> buffer[i] != NUL
    ensures CString(buffer, p) == buffer[p..end]
    ensures NUL in buffer[p..] && NUL in buffer[p..end + 1]
  {
    var tail := buffer[p..];
    assert tail[end - p] == NUL;
    assert buffer[p..end + 1][end - p] == NUL;
    assert forall i :: 0 <= i < end - p ==> tail[i] == buffer[p + i] != NUL;
    IndexOfUnique(tail, NUL, end - p);
    assert tail[..end - p] == buffer[p..end];
  }

  /** Storing a record keeps every pointer behind the start of the next one. */
  lemma StoredBelow(buffer: string, raw: Raw, raw': Raw, v: nat, limit: nat)
    requires RawBelow(buffer, raw, v) && PointersFrom(raw, raw', v)
    requires v < limit <= |buffer| && NUL in buffer[v..limit]
    ensures RawBelow(buffer, raw', limit)
  {
    BelowGrows(buffer, raw, v, limit);
  }

  const RAW_START := Raw([], [], [], [], "", map[], 0)

  lemma ViewStart(buffer: string)
    ensures InBuffer(buffer, RAW_START) && RawBelow(buffer, RAW_START, 0)
    ensures View(buffer, RAW_START) == START
  {
    assert Strings(buffer, []) == [];
  }

  /** The struct that `spec_parse` leaves behind, read through its pointers. */
  ghost function Pointed(buffer: string, raw: Raw): Result<Spec>
    requires InBuffer(buffer, raw)
  {
    Finish(View(buffer, raw))
  }

  /** Where the walk stands: what is behind rec is untouched, what is before it has been read into raw. */
  ghost predicate Walk(input: string, buffer: string, rec: nat, raw: Raw) {
    && rec <= |buffer| == |input| && buffer[rec..] == input[rec..]
    && RawBelow(buffer, raw, rec) && InBuffer(buffer, raw)
    && ParseFrom(input, START) == ParseFrom(input[rec..], View(buffer, raw))
  }

  lemma WalkStart(input: string)
    ensures Walk(input, input, 0, RAW_START)
  {
    ViewStart(input);
    assert input[0..] == input;
  }

  lemma WalkDone(input: string, buffer: string, raw: Raw)
    requires Walk(input, buffer, |buffer|, raw)
    ensures InBuffer(buffer, raw) && ParseFrom(input, START) == Ok(View(buffer, raw))
  {
    hide View, RawBelow, InBuffer, Step;
    assert input[|buffer|..] == "";
    ParseNothing(View(buffer, raw));
  }

  /** After the '=' at eq is gone, the record reads as the parser reads it, and the struct is unchanged. */
  lemma WalkRecord(input: string, before: string, rec: nat, raw: Raw, end: nat, eq: nat)
    requires Walk(input, before, rec, raw)
    requires rec <= eq <= end < |before| && before[end] == NUL
    requires forall i :: rec <= i < end ==> before[i] != NUL
    requires forall i :: rec <= i < eq ==> before[i] != '='
    requires eq < end ==> before[eq] == '='
    ensures |before| == |input|
    ensures eq == end ==> ParseFrom(input, START) == Err(NoEquals)
    ensures eq < end ==>
              var after := before[eq := NUL];
              && RawBelow(after, raw, eq + 1) && InBuffer(after, raw) && NUL in after[eq + 1..end + 1] && NUL in after[eq + 1..]
              && after[end + 1..] == input[end + 1..]
              && ParseFrom(input, START) ==
                 match Step(View(after, raw), before[rec..eq], CString(after, eq + 1))
                 case Err(e) => Err(e)
                 case Ok(next) => ParseFrom(input[end + 1..], next)
  {
    hide ParseFrom, Step, View, CString, RawBelow, InBuffer;
    SameTail(input, before, rec);
    RecordAt(input, rec, end, eq, View(before, raw));
    if eq < end {
      CutStable(before, rec, raw, end, eq);
      hide *;
      SameSlices(input, before, rec, eq, end);
    }
  }

  /** The NUL in place of the '=' leaves the struct as it is, and ends the key in front of the value. */
  lemma CutStable(before: string, rec: nat, raw: Raw, end: nat, eq: nat)
    requires rec <= eq < end < |before| && RawBelow(before, raw, rec) && InBuffer(before, raw) && before[end] == NUL
    requires forall i :: rec <= i < end ==> before[i] != NUL
    ensures var after := before[eq := NUL];
            && RawBelow(after, raw, eq + 1) && InBuffer(after, raw) && View(after, raw) == View(before, raw)
            && NUL in after[eq + 1..end + 1] && NUL in after[eq + 1..]
            && CString(after, eq + 1) == after[eq + 1..end]
  {
    hide View, CString, RawBelow, InBuffer;
    var after := before[eq := NUL];
    assert after[..rec] == before[..rec];
    ViewStable(before, after, raw, rec);
    BelowGrows(after, raw, rec, eq + 1);
    CStringIs(after, eq + 1, end);
  }

  lemma SameTail(x: string, y: string, n: nat)
    requires n <= |x| == |y| && x[n..] == y[n..]
    ensures forall i :: n <= i < |x| ==> x[i] == y[i]
  {
    forall i | n <= i < |x| ensures x[i] == y[i] {
      assert x[n..][i - n] == y[n..][i - n];
    }
  }

  lemma SameSlices(input: string, before: string, rec: nat, eq: nat, end: nat)
    requires rec <= eq < end < |before| == |input| && forall i :: rec <= i < |input| ==> input[i] == before[i]
    ensures var after := before[eq := NUL];
            && before[rec..eq] == input[rec..eq] && after[eq + 1..end] == input[eq + 1..end]
            && after[end + 1..] == input[end + 1..]
  {
  }

  /** One turn of the loop of `spec_parse`. */
  method ParseRecord(data: array<char>, rec: nat, raw: Raw, ghost input: string) returns (next: nat, r: Result<Raw>)
    requires rec < data.Length && data[data.Length - 1] == NUL && Walk(input, data[..], rec, raw)
    modifies data
    ensures rec < next <= data.Length && data[data.Length - 1] == NUL
    ensures match r
            case Err(e) => ParseFrom(input, START) == Err(e)
            case Ok(raw') => Walk(input, data[..], next, raw')
  {
    hide ParseFrom, Step, View, RawBelow, InBuffer, CString, PointersFrom, Walk;
    ghost var before := data[..];
    var end := Scan(data, rec, NUL);
    var eq := Scan(data, rec, '=');
    next := end + 1;
    WalkRecord(input, before, rec, raw, end, eq);
    if data[eq] == NUL {
      return next, Err(NoEquals);
    }
    data[eq] := NUL;
    assert data[..] == before[eq := NUL];
    assert data[rec..eq] == before[rec..eq];
    r := StoreRecord(data[..], raw, data[rec..eq], eq + 1);
    if r.Ok? {
      StoredBelow(data[..], raw, r.value, eq + 1, next);
      WalkNext(input, data[..], next, r.value);
    }
  }

  lemma WalkNext(input: string, buffer: string, rec: nat, raw: Raw)
    requires rec <= |buffer| == |input| && buffer[rec..] == input[rec..]
    requires RawBelow(buffer, raw, rec) && InBuffer(buffer, raw)
    requires ParseFrom(input, START) == ParseFrom(input[rec..], View(buffer, raw))
    ensures Walk(input, buffer, rec, raw)
  {
  }

  /**
   * The loop of `spec_parse`.  The buffer loses its '=' signs while it is being walked; what is left of it,
   * and every string already handed out, stays what it was.
   */
  method ParseRecords(data: array<char>) returns (r: Result<Raw>)
    requires data.Length > 0 && data[data.Length - 1] == NUL
    modifies data
    ensures match ParseFrom(old(data[..]), START)
            case Err(e) => r == Err(e)
            case Ok(st) => r.Ok? && InBuffer(data[..], r.value) && View(data[..], r.value) == st
  {
    hide *;
    ghost var input := data[..];
    var raw, rec := RAW_START, 0;
    WalkStart(input);
    while rec < data.Length
      invariant rec <= data.Length && data[data.Length - 1] == NUL
      invariant Walk(input, data[..], rec, raw)
      decreases data.Length - rec
    {
      rec, r := ParseRecord(data, rec, raw, input);
      if r.Err? {
        return;
      }
      raw := r.value;
    }
    WalkDone(input, data[..], raw);
    r := Ok(raw);
  }

  lemma ParseNothing(st: State)
    ensures ParseFrom("", st) == Ok(st)
  {
  }

  /** `spec_parse`. */
  method SpecParse(data: array<char>) returns (r: Result<Raw>)
    modifies data
    ensures match Parse(old(data[..]))
            case Err(e) => r == Err(e)
            case Ok(spec) => r.Ok? && InBuffer(data[..], r.value) && Pointed(data[..], r.value) == Ok(spec)
  {
    hide ParseFrom, View, InBuffer, CString;
    if data.Length == 0 || data[data.Length - 1] != NUL {
      return Err(NotTerminated);
    }
    r := ParseRecords(data);
    if r.Err? {
      return;
    }
    var raw := r.value;
    var finished := FinishRaw(data, raw);
    if finished.Some? {
      r := Err(finished.value);
    }
  }

  /** The checks behind the loop. */
  method FinishRaw(data: array<char>, raw: Raw) returns (error: Option<Error>)
    requires InBuffer(data[..], raw)
    ensures match Pointed(data[..], raw)
            case Err(e) => error == Some(e)
            case Ok(_) => error == None
  {
    hide CString, ValidCommand;
    if raw.toolchain == "" {
      return Some(MissingToolchain);
    }
    if !AllLimits(raw.limits) {
      return Some(MissingLimit);
    }
    if !Normalized(LimitsFrom(raw.limits)) {
      return Some(NotNormalized);
    }
    if raw.args == [] || !ValidCommand(CString(data[..], raw.args[0])) {
      assert raw.args == [] || Strings(data[..], raw.args)[0] == CString(data[..], raw.args[0]);
      return Some(BadCommand);
    }
    assert Strings(data[..], raw.args)[0] == CString(data[..], raw.args[0]);
    if raw.stringBytes > MAX_STRING_BYTES {
      return Some(TooLarge);
    }
    error := None;
  }
}
