/**
 * One judgment and the references it owns: uploads, the compiled program and spilled inputs
 * (apps/judge-engine/judge/flow), over the execution layer of apps/judge-engine/execution/engine.go.
 */
module JudgeRefs {
  import opened Common
  import opened Supervision
  import opened RunArtifacts

  // ----- the execution layer as the judge sees it

  datatype Answer = Refused | Answered(run: RunResult)

  /** What the judgment asked of the execution layer, and what it was told. */
  datatype Event = Uploaded(data: Bytes, stored: Option<Ref>) | Executed(spec: Spec, answer: Answer) | Asked(ref: Ref, gone: bool)

  /** A deletion that was carried out, or one that left the blob behind and on the books. */
  predicate Deleted(before: Books, after: Books, ref: Ref) {
    || after == Books(before.files - {ref}, before.undeleted - {ref}, before.overwritten - {ref})
    || after == before.(undeleted := before.undeleted + {ref} * before.files.Keys)
  }

  ghost predicate Keeps(before: map<Ref, Bytes>, after: map<Ref, Bytes>, gone: set<Ref>) {
    forall r :: r in before && r !in gone ==> r in after && after[r] == before[r]
  }

  lemma KeepsItself(files: map<Ref, Bytes>)
    ensures Keeps(files, files, {})
  {
  }

  lemma AfterDelete(start: Books, before: Books, after: Books, held: set<Ref>, ref: Ref)
    requires Balanced(start, before, held) && ref in held && Deleted(before, after, ref)
    ensures Balanced(start, after, held - {ref})
    ensures Keeps(before.files, after.files, {ref})
  {
    assert ref !in before.undeleted + before.overwritten && ref in before.files.Keys - start.files.Keys;
    forall r ensures r in after.files.Keys - start.files.Keys
                <==> r in (held - {ref}) + (after.undeleted - start.undeleted) + (after.overwritten - start.overwritten)
    {
      assert r in before.files.Keys - start.files.Keys
        <==> r in held + (before.undeleted - start.undeleted) + (before.overwritten - start.overwritten);
    }
  }

  lemma BalancedItself(b: Books)
    requires b.undeleted <= b.files.Keys && b.overwritten <= b.files.Keys
    ensures Balanced(b, b, {})
  {
  }

  lemma Chain(start: Books, middle: Books, end: Books, held: set<Ref>, more: set<Ref>)
    requires Balanced(start, middle, held) && Balanced(middle, end, more)
    ensures Balanced(start, end, held + more) && held <= middle.files.Keys && more !! middle.files.Keys
    ensures Keeps(middle.files, end.files, {})
  {
    assert held + middle.undeleted + middle.overwritten <= middle.files.Keys by {
      assert held <= middle.files.Keys - start.files.Keys;
    }
    forall r ensures r in end.files.Keys - start.files.Keys
                <==> r in (held + more) + (end.undeleted - start.undeleted) + (end.overwritten - start.overwritten)
    {
      assert r in end.files.Keys - middle.files.Keys
        <==> r in more + (end.undeleted - middle.undeleted) + (end.overwritten - middle.overwritten);
      assert r in middle.files.Keys - start.files.Keys
        <==> r in held + (middle.undeleted - start.undeleted) + (middle.overwritten - start.overwritten);
    }
  }

  function HeldBy(r: Answer): set<Ref> { if r.Refused? then {} else r.run.artifacts.Values }

  /** A success names exactly the artifacts asked for, anything else names none. */
  ghost predicate Shaped(s: Spec, r: Answer) {
    r.Answered? ==>
      && (r.run.status != OK ==> r.run.artifacts == map[])
      && (r.run.status == OK ==> r.run.seen.Some? && forall n :: n in r.run.artifacts <==> n in s.artifacts)
  }

  lemma NothingHeld(s: Spec, r: Answer)
    requires Shaped(s, r) && (r.Refused? || r.run.status != OK)
    ensures HeldBy(r) == {}
  {
  }

  lemma NoArtifacts(s: Spec, r: Answer)
    requires Shaped(s, r) && s.artifacts == []
    ensures HeldBy(r) == {}
  {
  }

  /** What a user's books are when the blobs of others are left out. */
  function Without(b: Books, foreign: set<Ref>): Books { b.(files := b.files - foreign) }

  /** Balanced books stay balanced when others are left out, whose blobs are all still there. */
  lemma OthersUntouched(before: Books, after: Books, held: set<Ref>, foreign: set<Ref>)
    requires Balanced(before, after, held)
    requires foreign <= before.files.Keys && foreign !! before.undeleted + before.overwritten
    ensures Balanced(Without(before, foreign), Without(after, foreign), held)
    ensures foreign <= after.files.Keys && foreign !! after.undeleted + after.overwritten
  {
    var added := after.files.Keys - before.files.Keys;
    assert held <= added && after.undeleted - before.undeleted <= added && after.overwritten - before.overwritten <= added;
    assert Without(after, foreign).files.Keys == after.files.Keys - foreign;
    assert Without(before, foreign).files.Keys == before.files.Keys - foreign;
    assert (after.files.Keys - foreign) - (before.files.Keys - foreign) == added;
  }

  /**
   * The execution layer as one judgment uses it.  Others use the same store at the same time: `foreign` are the
   * blobs that are theirs.
   */
  class Engine {
    const store: Store
    var foreign: set<Ref>
    /** Whether some executor has reported one artifact name twice. */
    ghost var repeated: bool
    /** Whether the deletion of a blob of someone else has been asked for. */
    ghost var trespassed: bool
    /** Everything that has been asked for, in order. */
    ghost var log: seq<Event>

    ghost predicate Valid()
      reads this, store
    {
      store.Valid() && foreign <= store.files.Keys && foreign !! store.undeleted + store.overwritten
    }

    /** The books of this judgment. */
    ghost function Mine(): Books
      reads this, store
    {
      Without(store.Now(), foreign)
    }

    constructor (store: Store)
      requires store.Valid() && store.undeleted == {} && store.overwritten == {}
      ensures this.store == store && foreign == store.files.Keys && Valid() && !repeated && !trespassed && log == []
    {
      this.store, foreign, repeated, trespassed, log := store, store.files.Keys, false, false, [];
    }

    /** What others do in between: they add blobs under new names and delete blobs of their own. */
    method Others()
      requires Valid()
      modifies this`foreign, store`files
      ensures Valid() && Mine() == old(Mine())
    {
      var added: map<Ref, Bytes>, removed: set<Ref> := *, *;
      ghost var mine := store.files - foreign;
      var gone := removed * foreign;
      added := added - (store.files.Keys + {""});
      store.files := (store.files - gone) + added;
      foreign := (foreign - gone) + added.Keys;
      assert store.files - foreign == mine;
      assert store.undeleted + store.overwritten <= mine.Keys;
    }

    /** `draw` is the name that the store draws for the blob, if it can store it. */
    method Upload(data: Bytes, readable: bool, draw: Option<Ref>) returns (ref: Option<Ref>)
      requires Valid()
      modifies this`foreign, this`log, store`files
      ensures Valid() && log == old(log) + [Uploaded(data, ref)]
      ensures ref.Some? ==> readable && ref == draw && ref.value in Mine().files && Mine().files[ref.value] == data
      ensures ref.None? ==> !readable || draw in {None, Some("")} || draw.value in store.files
      ensures Balanced(old(Mine()), Mine(), if ref.Some? then {ref.value} else {})
    {
      Others();
      ref := store.Put(data, if readable then draw else None);
      log := log + [Uploaded(data, ref)];
    }

    method Delete(ref: Ref) returns (ok: bool)
      requires Valid()
      modifies this`foreign, this`trespassed, this`log, store
      ensures Valid() && Deleted(old(Mine()), Mine(), ref) && (ok ==> ref !in Mine().files)
      ensures log == old(log) + [Asked(ref, ok)]
      ensures ref in old(Mine()).files ==> trespassed == old(trespassed)
    {
      Others();
      trespassed := trespassed || ref in foreign;
      ghost var mine, theirs := Mine(), ref in foreign;
      ok := store.Delete(ref);
      if ok {
        foreign := foreign - {ref};
        assert Mine().files == mine.files - {ref};
      } else if ref in foreign {
        store.undeleted := store.undeleted - {ref};
        assert Mine() == mine && {ref} * mine.files.Keys == {};
      }
      log := log + [Asked(ref, ok)];
    }

    /**
     * The pool may not admit it; everything else about the execution is arbitrary.  `present` is the store when the
     * inputs are opened.  What others do during the execution is taken before and after it: they touch none of
     * its blobs, and it touches none of theirs.
     */
    method Run(s: Spec, admitted: bool, x: Exec) returns (r: Answer, ghost present: map<Ref, Bytes>)
      requires Valid()
      modifies this`foreign, this`repeated, this`log, store
      ensures Valid() && log == old(log) + [Executed(s, r)]
      ensures r.Refused? <==> s.command == [] || s.limits.None? || !admitted
      ensures r.Answered? ==> (r.run.status == OK <==> Succeeds(present, s, x)) && r.run.seen == Begins(present, s, x)
      ensures Balanced(old(Mine()), Mine(), HeldBy(r)) && Shaped(s, r)
      ensures Keeps(old(Mine()).files, present, {}) && "" !in present
      ensures r.Answered? && r.run.seen.Some? ==> r.run.seen == Opened(present, s)
      ensures old(repeated) ==> repeated
      ensures !repeated ==> store.overwritten == old(store.overwritten)
    {
      Others();
      present := store.files;
      if s.command == [] || s.limits.None? || !admitted {
        r := Refused;
      } else {
        hide Balanced, Succeeds, Begins, Shaped, Keeps;
        var run := Execute(s, x);
        r := Answered(run);
        Others();
      }
      log := log + [Executed(s, r)];
    }

    /** The execution itself. */
    method Execute(s: Spec, x: Exec) returns (run: RunResult)
      requires Valid() && s.command != [] && s.limits.Some?
      modifies this`repeated, store
      ensures Valid() && Balanced(old(Mine()), Mine(), HeldBy(Answered(run))) && Shaped(s, Answered(run))
      ensures (run.status == OK <==> Succeeds(old(store.files), s, x)) && run.seen == Begins(old(store.files), s, x)
      ensures old(repeated) ==> repeated
      ensures !repeated ==> store.overwritten == old(store.overwritten)
    {
      hide Balanced, Twice, InlineSize, OutputNames, Opened, Repeats;
      repeated := repeated || exists i, j :: 0 <= i < j < |x.items| && x.items[i].name == x.items[j].name;
      if !repeated {
        OncePerName(store.files, s, x);
      }
      ghost var before := store.Now();
      var cleanup;
      run, cleanup := RunArtifacts.Run(store, s, x);
      OthersUntouched(before, store.Now(), run.artifacts.Values, foreign);
    }
  }

  // ----- the judgment

  /** An empty compile command is a language that is not compiled. */
  datatype Language = Language(source: Name, solution: Name, compile: seq<string>, artifact: Name, run: seq<string>)

  /** size is what the metadata says of the input, zero when unknown. */
  datatype Testcase = Testcase(input: Bytes, size: int, opens: bool, readable: bool)

  /** A request; cases is None when a check or the test data refuses it before anything is uploaded. */
  datatype Request = Request(source: Bytes, solution: Bytes, language: Language, cases: Option<seq<Testcase>>,
                             inlineThreshold: int, compileLimits: Option<Budget>, runLimits: Option<Budget>)

  datatype CaseResult = NoStdin | RunFailed | Ran(run: RunResult)

  datatype Outcome = SystemError | CompileError | Judged(compiled: Option<RunResult>, results: seq<CaseResult>)

  /** The files a program is made of, by content. */
  function Sources(q: Request): map<Name, Bytes> {
    var one := map[q.language.source := q.source];
    if q.solution == [] then one else one[q.language.solution := q.solution]
  }

  /** What a run has to be given: the compiled program, or the sources where nothing is compiled. */
  ghost predicate RunsProgram(q: Request, program: Bytes, seen: Seen, tc: Testcase) {
    && seen.stdin == tc.input
    && seen.inputs == if q.language.compile != [] then map[q.language.artifact := program] else Sources(q)
  }

  /** Every test case was run, if at all, on its own input and on one and the same program. */
  ghost predicate Faithful(q: Request, program: Bytes, cases: seq<Testcase>, results: seq<CaseResult>) {
    && |results| == |cases|
    && forall i :: 0 <= i < |results| && results[i].Ran? && results[i].run.seen.Some? ==>
         RunsProgram(q, program, results[i].run.seen.value, cases[i])
  }

  /** Distinct references to the source, to the solution if there is one, and to the program if there is one. */
  ghost predicate Named(q: Request, source: Ref, solution: Ref, executable: Ref, files: map<Ref, Bytes>, program: Bytes) {
    && "" !in files && source in files && files[source] == q.source
    && (if q.solution == [] then solution == ""
        else solution in files && solution != source && files[solution] == q.solution)
    && (executable == "" || (executable in files && executable !in {source, solution} && files[executable] == program))
  }

  /** Naming the program, or none, keeps everything named. */
  lemma NameProgram(q: Request, source: Ref, solution: Ref, ref: Ref, files: map<Ref, Bytes>, program: Bytes)
    requires Named(q, source, solution, "", files, [])
    requires ref != "" ==> ref !in {source, solution} && ref in files && files[ref] == program
    ensures Named(q, source, solution, ref, files, program)
  {
  }

  lemma NameSources(q: Request, source: Ref, solution: Ref, files: map<Ref, Bytes>)
    requires "" !in files && source in files && files[source] == q.source
    requires if q.solution == [] then solution == "" else solution in files && solution != source && files[solution] == q.solution
    ensures Named(q, source, solution, "", files, [])
  {
  }

  lemma NameBoth(q: Request, source: Ref, solution: Ref, before: map<Ref, Bytes>, files: map<Ref, Bytes>)
    requires "" !in files && source in before && before[source] == q.source && Keeps(before, files, {})
    requires q.solution != [] && solution in files && solution != source && files[solution] == q.solution
    ensures Named(q, source, solution, "", files, [])
  {
  }

  lemma FaithfulNothing(q: Request, program: Bytes)
    ensures Faithful(q, program, [], [])
  {
  }

  lemma FaithfulMore(q: Request, program: Bytes, cases: seq<Testcase>, i: nat, results: seq<CaseResult>, r: CaseResult)
    requires i < |cases| && Faithful(q, program, cases[..i], results)
    requires r.Ran? && r.run.seen.Some? ==> RunsProgram(q, program, r.run.seen.value, cases[i])
    ensures Faithful(q, program, cases[..i + 1], results + [r])
  {
    hide RunsProgram;
  }

  lemma CompiledWell(q: Request, answer: Option<Answer>)
    requires answer.None? <==> q.language.compile == []
    requires answer.Some? ==> answer.value.Answered? && answer.value.run.status == OK
    requires answer.Some? ==> answer.value.run.seen == Some(Seen(Sources(q), []))
    ensures Compiled(q, if answer.Some? then Some(answer.value.run) else None)
  {
  }

  // ----- the course of a judgment: what it asks for, and how the answers decide

  function ToUpload(q: Request): seq<Bytes> {
    if q.cases.None? || q.cases.value == [] then [] else if q.solution == [] then [q.source] else [q.source, q.solution]
  }

  predicate Stored(e: Event) { e.Uploaded? && e.stored.Some? }

  /** The uploads are made one after the other, up to the first that fails. */
  ghost predicate InOrder(q: Request, uploads: seq<Event>) {
    && |uploads| <= |ToUpload(q)|
    && (forall i :: 0 <= i < |uploads| ==> uploads[i].Uploaded? && uploads[i].data == ToUpload(q)[i])
    && (forall i :: 0 <= i < |uploads| - 1 ==> Stored(uploads[i]))
    && (|uploads| < |ToUpload(q)| ==> uploads != [] && !Stored(uploads[|uploads| - 1]))
  }

  /** There is something to judge, and all of it has been stored. */
  predicate AllStored(q: Request, uploads: seq<Event>) {
    uploads != [] && |uploads| == |ToUpload(q)| && forall i :: 0 <= i < |uploads| ==> Stored(uploads[i])
  }

  function RefAt(uploads: seq<Event>, i: nat): Ref {
    if i < |uploads| && Stored(uploads[i]) then uploads[i].stored.value else ""
  }

  /** The submitted files, by reference. */
  function FilesOf(q: Request, uploads: seq<Event>): map<Name, FileSource> {
    var one := map[q.language.source := FileSource(RefAt(uploads, 0), [])];
    if q.solution == [] then one else one[q.language.solution := FileSource(RefAt(uploads, 1), [])]
  }

  /** What is asked for to compile them. */
  function CompileSpec(q: Request, uploads: seq<Event>): Spec {
    Spec(q.language.compile, FilesOf(q, uploads), None, [], [q.language.artifact], q.compileLimits)
  }

  /** What is asked for to run the program on one input. */
  function CaseSpec(q: Request, uploads: seq<Event>, program: Ref, stdin: Option<FileSource>): Spec {
    Spec(q.language.run,
         if q.language.compile == [] then FilesOf(q, uploads) else map[q.language.artifact := FileSource(program, [])],
         stdin, [], [], q.runLimits)
  }

  /** The one compile run, of a language that is compiled. */
  predicate CompileAsked(q: Request, uploads: seq<Event>, compile: seq<Event>) {
    if q.language.compile == [] then compile == []
    else |compile| == 1 && compile[0].Executed? && compile[0].spec == CompileSpec(q, uploads)
  }

  /** The compile run was carried out and ended in one of these ways. */
  predicate CompileEnded(compile: seq<Event>, how: set<Status>) {
    |compile| == 1 && compile[0].Executed? && compile[0].answer.Answered? && compile[0].answer.run.status in how
  }

  /** Nothing had to be compiled, or the compile run was OK and delivered its artifact. */
  predicate Built(q: Request, compile: seq<Event>) {
    q.language.compile == [] || (CompileEnded(compile, {OK}) && q.language.artifact in compile[0].answer.run.artifacts)
  }

  /** The submission is to blame. */
  predicate Unbuildable(compile: seq<Event>) {
    CompileEnded(compile, {TimeLimit, MemoryLimit, OutputLimit, NonzeroExit, Signalled})
  }

  function ProgramOf(q: Request, compile: seq<Event>): Ref {
    if q.language.compile != [] && Built(q, compile) then compile[0].answer.run.artifacts[q.language.artifact] else ""
  }

  /** The program was run once on this input, with this result. */
  predicate RanOn(q: Request, uploads: seq<Event>, program: Ref, stdin: Option<FileSource>, events: seq<Event>, r: CaseResult) {
    && |events| == 1 && events[0].Executed? && events[0].spec == CaseSpec(q, uploads, program, stdin)
    && match events[0].answer
       case Refused => r == RunFailed
       case Answered(run) => r == Ran(run)
  }

  /**
   * One test case: its input travels in the request if it is small, and otherwise by way of the store, from where
   * it is deleted after the run.  Without an input there is no run.
   */
  predicate CaseCourse(q: Request, uploads: seq<Event>, program: Ref, tc: Testcase, events: seq<Event>, r: CaseResult) {
    if !tc.opens || (tc.size <= q.inlineThreshold && !tc.readable) then events == [] && r == NoStdin
    else if tc.size <= q.inlineThreshold then
      RanOn(q, uploads, program, if tc.input == [] then None else Some(FileSource("", tc.input)), events, r)
    else
      && |events| in {1, 3} && events[0].Uploaded? && events[0].data == tc.input
      && (Stored(events[0]) <==> |events| == 3)
      && (|events| == 1 ==> r == NoStdin)
      && (|events| == 3 ==> RanOn(q, uploads, program, Some(FileSource(RefAt(events, 0), [])), events[1..2], r)
                            && events[2].Asked? && events[2].ref == RefAt(events, 0))
  }

  /** How the input of a test case has been made available: in the request, or by an upload. */
  ghost predicate Supplied(q: Request, tc: Testcase, stdin: Option<FileSource>, spilled: Ref, ok: bool, events: seq<Event>) {
    if tc.opens && tc.size > q.inlineThreshold then
      && |events| == 1 && events[0].Uploaded? && events[0].data == tc.input && spilled == RefAt(events, 0)
      && (ok <==> Stored(events[0])) && (ok ==> spilled != "" && stdin == Some(FileSource(spilled, [])))
    else
      && events == [] && spilled == "" && (ok <==> tc.opens && tc.readable)
      && (ok ==> stdin == if tc.input == [] then None else Some(FileSource("", tc.input)))
  }

  lemma SuppliedCourse(q: Request, uploads: seq<Event>, program: Ref, tc: Testcase, stdin: Option<FileSource>, spilled: Ref, ok: bool,
                       events: seq<Event>, answer: Answer, asked: seq<Event>)
    requires Supplied(q, tc, stdin, spilled, ok, events)
    ensures !ok ==> CaseCourse(q, uploads, program, tc, events, NoStdin)
    ensures ok && AsksFor(asked, IfAny(spilled)) ==>
              CaseCourse(q, uploads, program, tc, events + [Executed(CaseSpec(q, uploads, program, stdin), answer)] + asked,
                         if answer.Refused? then RunFailed else Ran(answer.run))
  {
    hide CaseSpec;
    if ok && AsksFor(asked, IfAny(spilled)) {
      var run := Executed(CaseSpec(q, uploads, program, stdin), answer);
      var all := events + [run] + asked;
      if spilled != "" {
        assert all[1..2] == [run] && all[0] == events[0] && all[2] == asked[0];
      } else {
        assert all == [run];
      }
    }
  }

  lemma CompileVerdict(q: Request, uploads: seq<Event>, r: Answer)
    requires q.language.compile != [] && Shaped(CompileSpec(q, uploads), r)
    ensures var c := [Executed(CompileSpec(q, uploads), r)];
            && CompileAsked(q, uploads, c)
            && (Built(q, c) <==> r.Answered? && r.run.status == OK)
            && (Unbuildable(c) <==> r.Answered? && r.run.status !in {OK, WorkspaceError, InternalError})
            && (!Built(q, c) ==> ProgramOf(q, c) == "")
            && (Built(q, c) ==> q.language.artifact in r.run.artifacts && ProgramOf(q, c) == r.run.artifacts[q.language.artifact])
  {
    hide FilesOf;
    assert q.language.artifact in CompileSpec(q, uploads).artifacts;
  }

  lemma NothingToCompile(q: Request, uploads: seq<Event>)
    requires q.language.compile == []
    ensures CompileAsked(q, uploads, []) && Built(q, []) && !Unbuildable([]) && ProgramOf(q, []) == ""
  {
  }

  lemma NoProgram(q: Request)
    ensures ProgramOf(q, []) == "" && !Unbuildable([]) && Flat([]) == []
  {
  }

  lemma NothingUploaded(q: Request)
    ensures RefAt([], 0) == "" && RefAt([], 1) == "" && !AllStored(q, [])
    ensures q.cases.None? || q.cases.value == [] ==> InOrder(q, [])
  {
  }

  lemma OneUploaded(q: Request, ref: Option<Ref>)
    requires q.cases.Some? && q.cases.value != []
    ensures var uploads := [Uploaded(q.source, ref)];
            && RefAt(uploads, 0) == (if ref.Some? then ref.value else "") && RefAt(uploads, 1) == ""
            && (ref.None? || q.solution == [] ==> InOrder(q, uploads) && (AllStored(q, uploads) <==> ref.Some?))
  {
  }

  lemma TwoUploaded(q: Request, ref: Ref, ref2: Option<Ref>)
    requires q.cases.Some? && q.cases.value != [] && q.solution != []
    ensures var uploads := [Uploaded(q.source, Some(ref)), Uploaded(q.solution, ref2)];
            && RefAt(uploads, 0) == ref && RefAt(uploads, 1) == (if ref2.Some? then ref2.value else "")
            && InOrder(q, uploads) && (AllStored(q, uploads) <==> ref2.Some?)
  {
  }

  /** The parts of a judgment. */
  datatype History = History(uploads: seq<Event>, compile: seq<Event>, cases: seq<seq<Event>>, closing: seq<Event>)

  function Flat(parts: seq<seq<Event>>): seq<Event> {
    if parts == [] then [] else Flat(parts[..|parts| - 1]) + parts[|parts| - 1]
  }

  function Events(h: History): seq<Event> { h.uploads + h.compile + Flat(h.cases) + h.closing }

  lemma FlatMore(parts: seq<seq<Event>>, part: seq<Event>)
    ensures Flat(parts + [part]) == Flat(parts) + part
  {
    assert (parts + [part])[..|parts|] == parts;
  }

  /** Exactly these references are asked to be deleted, in this order. */
  ghost predicate AsksFor(events: seq<Event>, refs: seq<Ref>) {
    |events| == |refs| && forall i :: 0 <= i < |refs| ==> events[i].Asked? && events[i].ref == refs[i]
  }

  lemma AsksBoth(events: seq<Event>, refs: seq<Ref>, events': seq<Event>, refs': seq<Ref>)
    requires AsksFor(events, refs) && AsksFor(events', refs')
    ensures AsksFor(events + events', refs + refs')
  {
  }

  lemma OneLess(executable: Ref, source: Ref, solution: Ref)
    requires (executable != "" ==> executable !in {source, solution}) && (source != "" ==> source != solution)
    ensures {executable, source, solution} - {""} - IfNamed(executable) == {source, solution} - {""}
    ensures {source, solution} - {""} - IfNamed(source) == {solution} - {""}
    ensures {solution} - {""} - IfNamed(solution) == {}
  {
  }

  lemma NamedIf(ref: Ref)
    ensures IfNamed(ref) == {ref} - {""} && (ref != "" ==> ref in IfNamed(ref))
  {
  }

  function IfNamed(ref: Ref): set<Ref> { if ref == "" then {} else {ref} }

  function IfAny(ref: Ref): seq<Ref> { if ref == "" then [] else [ref] }

  /** Every test case has had its course, with one result each. */
  ghost predicate AllCases(q: Request, uploads: seq<Event>, program: Ref, cases: seq<Testcase>, parts: seq<seq<Event>>,
                           results: seq<CaseResult>) {
    && |parts| == |cases| == |results|
    && forall i :: 0 <= i < |cases| ==> CaseCourse(q, uploads, program, cases[i], parts[i], results[i])
  }

  lemma AllCasesNone(q: Request, uploads: seq<Event>, program: Ref, cases: seq<Testcase>)
    ensures AllCases(q, uploads, program, cases[..0], [], []) && Flat([]) == []
  {
  }

  lemma AllCasesMore(q: Request, uploads: seq<Event>, program: Ref, cases: seq<Testcase>, i: nat, parts: seq<seq<Event>>,
                     results: seq<CaseResult>, part: seq<Event>, r: CaseResult)
    requires i < |cases| && AllCases(q, uploads, program, cases[..i], parts, results)
    requires CaseCourse(q, uploads, program, cases[i], part, r)
    ensures AllCases(q, uploads, program, cases[..i + 1], parts + [part], results + [r])
  {
    hide CaseCourse;
  }

  class Judgment {
    const engine: Engine
    const request: Request
    var sourceRef: Ref
    var solutionRef: Ref
    var executableRef: Ref

    constructor (engine: Engine, request: Request)
      ensures this.engine == engine && this.request == request
      ensures sourceRef == "" && solutionRef == "" && executableRef == ""
    {
      this.engine, this.request := engine, request;
      sourceRef, solutionRef, executableRef := "", "", "";
    }

    ghost function Held(): set<Ref>
      reads this
    {
      {sourceRef, solutionRef, executableRef} - {""}
    }

    /** The blobs that the fields name are what they should be. */
    ghost predicate Filled(files: map<Ref, Bytes>, program: Bytes)
      reads this
    {
      Named(request, sourceRef, solutionRef, executableRef, files, program)
    }

    lemma StillFilled(before: map<Ref, Bytes>, after: map<Ref, Bytes>, program: Bytes, gone: set<Ref>)
      requires Filled(before, program) && Keeps(before, after, gone) && gone !! Held() && "" !in after
      ensures Filled(after, program)
    {
    }

    /** What has been added to the store since start is exactly what the fields name. */
    ghost predicate Ready(start: Books, program: Bytes)
      reads this, engine, engine.store
    {
      && engine.Valid() && Balanced(start, engine.Mine(), Held())
      && Filled(engine.Mine().files, program)
    }

    /** `sourceInputs`. */
    function SourceInputs(): (m: map<Name, FileSource>)
      reads this
    {
      var one := map[request.language.source := FileSource(sourceRef, [])];
      if solutionRef == "" then one else one[request.language.solution := FileSource(solutionRef, [])]
    }

    /** `runInputs`. */
    function RunInputs(): map<Name, FileSource>
      reads this
    {
      if request.language.compile != [] then map[request.language.artifact := FileSource(executableRef, [])] else SourceInputs()
    }

    /** The fields name what has been uploaded. */
    ghost predicate Holding(uploads: seq<Event>)
      reads this
    {
      sourceRef == RefAt(uploads, 0) && solutionRef == RefAt(uploads, 1)
    }

    lemma InputsAre(uploads: seq<Event>, files: map<Ref, Bytes>, program: Bytes)
      requires Filled(files, program) && Holding(uploads)
      ensures SourceInputs() == FilesOf(request, uploads)
    {
    }

    lemma CaseSpecIs(uploads: seq<Event>, files: map<Ref, Bytes>, program: Bytes, stdin: Option<FileSource>)
      requires Filled(files, program) && Holding(uploads)
      ensures Spec(request.language.run, RunInputs(), stdin, [], [], request.runLimits) ==
              CaseSpec(request, uploads, executableRef, stdin)
    {
      InputsAre(uploads, files, program);
      hide Filled, FilesOf;
    }

    lemma SourcesResolve(files: map<Ref, Bytes>, program: Bytes, s: Spec)
      requires Filled(files, program) && s.inputs == SourceInputs() && Opened(files, s).Some?
      ensures Opened(files, s).value.inputs == Sources(request)
    {
    }

    lemma SeenRight(files: map<Ref, Bytes>, program: Bytes, s: Spec, tc: Testcase)
      requires Filled(files, program) && s.inputs == RunInputs()
      requires request.language.compile != [] ==> executableRef != ""
      requires if s.stdin.None? then tc.input == [] else Resolve(files, s.stdin.value) == Some(tc.input)
      ensures Opened(files, s).Some? ==> RunsProgram(request, program, Opened(files, s).value, tc)
    {
      if Opened(files, s).Some? && request.language.compile == [] {
        SourcesResolve(files, program, s);
      }
    }

    lemma StillResolves(before: map<Ref, Bytes>, after: map<Ref, Bytes>, src: FileSource)
      requires Keeps(before, after, {}) && Resolve(before, src).Some?
      ensures Resolve(after, src) == Resolve(before, src)
    {
    }

    /** The reference, if any, is to be deleted by the caller; "" stands for nothing to delete. */
    method StdinFor(tc: Testcase) returns (stdin: Option<FileSource>, spilled: Ref, ok: bool, ghost events: seq<Event>)
      requires engine.Valid()
      modifies engine, engine.store
      ensures engine.Valid()
      ensures Balanced(old(engine.Mine()), engine.Mine(), {spilled} - {""})
      ensures engine.repeated == old(engine.repeated) && engine.trespassed == old(engine.trespassed)
      ensures engine.store.overwritten == old(engine.store.overwritten)
      ensures !ok ==> spilled == ""
      ensures ok ==> if stdin.None? then tc.input == [] else Resolve(engine.Mine().files, stdin.value) == Some(tc.input)
      ensures engine.log == old(engine.log) + events
      ensures Supplied(request, tc, stdin, spilled, ok, events)
    {
      stdin, spilled, ok, events := None, "", false, [];
      if !tc.opens {
        return;
      }
      if tc.size <= request.inlineThreshold {
        if !tc.readable {
          return;
        }
        if tc.input == [] {
          return None, "", true, [];
        }
        return Some(FileSource("", tc.input)), "", true, [];
      }
      var draw: Option<Ref> := *;
      var ref := engine.Upload(tc.input, tc.readable, draw);
      events := [Uploaded(tc.input, ref)];
      if ref.None? {
        return;
      }
      return Some(FileSource(ref.value, [])), ref.value, true, events;
    }

    /** One run of the program, while the judgment holds `held`. */
    method RunOn(tc: Testcase, stdin: Option<FileSource>, ghost start: Books, ghost held: set<Ref>, ghost program: Bytes,
                 ghost uploads: seq<Event>)
      returns (answer: Answer)
      requires Holding(uploads)
      requires engine.Valid() && Balanced(start, engine.Mine(), held) && Filled(engine.Mine().files, program)
      requires request.language.compile != [] ==> executableRef != ""
      requires if stdin.None? then tc.input == [] else Resolve(engine.Mine().files, stdin.value) == Some(tc.input)
      modifies engine, engine.store
      ensures engine.Valid() && Balanced(start, engine.Mine(), held) && Filled(engine.Mine().files, program)
      ensures answer.Answered? && answer.run.seen.Some? ==> RunsProgram(request, program, answer.run.seen.value, tc)
      ensures engine.log == old(engine.log) + [Executed(CaseSpec(request, uploads, executableRef, stdin), answer)]
      ensures (old(engine.repeated) ==> engine.repeated) && engine.trespassed == old(engine.trespassed)
      ensures !engine.repeated ==> engine.store.overwritten == old(engine.store.overwritten)
    {
      hide Balanced, Keeps, Filled, Opened, RunInputs, Resolve, RunsProgram, Shaped, HeldBy, CaseSpec, Holding, Succeeds, Begins;
      ghost var before := engine.Mine();
      var s := Spec(request.language.run, RunInputs(), stdin, [], [], request.runLimits);
      CaseSpecIs(uploads, before.files, program, stdin);
      ghost var present;
      var admitted: bool, x: Exec := *, *;
      answer, present := engine.Run(s, admitted, x);
      NoArtifacts(s, answer);
      StillFilled(before.files, present, program, {});
      if stdin.Some? {
        StillResolves(before.files, present, stdin.value);
      }
      SeenRight(present, program, s, tc);
      Chain(start, before, engine.Mine(), held, {});
      StillFilled(before.files, engine.Mine().files, program, {});
      assert held + {} == held;
    }

    method RunTestcase(tc: Testcase, ghost start: Books, ghost program: Bytes, ghost uploads: seq<Event>)
      returns (r: CaseResult, ghost events: seq<Event>)
      requires Holding(uploads)
      requires Ready(start, program) && (request.language.compile != [] ==> executableRef != "")
      modifies engine, engine.store
      ensures Ready(start, program)
      ensures r.Ran? && r.run.seen.Some? ==> RunsProgram(request, program, r.run.seen.value, tc)
      ensures engine.log == old(engine.log) + events && CaseCourse(request, uploads, executableRef, tc, events, r)
      ensures (old(engine.repeated) ==> engine.repeated) && engine.trespassed == old(engine.trespassed)
      ensures !engine.repeated ==> engine.store.overwritten == old(engine.store.overwritten)
    {
      hide *;
      ReadyIs(start, program);
      ghost var before, held := engine.Mine(), Held();
      var stdin, spilled, ok;
      stdin, spilled, ok, events := StdinFor(tc);
      ghost var spill, supply := IfNamed(spilled), events;
      assert {spilled} - {""} == spill by { NamedIf(spilled); }
      Chain(start, before, engine.Mine(), held, spill);
      BooksOf();
      StillFilled(before.files, engine.Mine().files, program, {});
      if !ok {
        SuppliedCourse(request, uploads, executableRef, tc, stdin, spilled, ok, supply, Refused, []);
        assert held + spill == held;
        ReadyIs(start, program);
        return NoStdin, events;
      }
      var answer := RunOn(tc, stdin, start, held + spill, program, uploads);
      r := if answer.Refused? then RunFailed else Ran(answer.run);
      FilledHolds(before.files, program);
      NamedIf(spilled);
      ghost var after := engine.Mine();
      ghost var asked := DropRef(spilled, start, held + spill);
      events := events + [Executed(CaseSpec(request, uploads, executableRef, stdin), answer)] + asked;
      SuppliedCourse(request, uploads, executableRef, tc, stdin, spilled, ok, supply, answer, asked);
      BooksOf();
      StillFilled(after.files, engine.Mine().files, program, spill);
      assert held + spill - spill == held;
      ReadyIs(start, program);
    }

    lemma FilledIs(program: Bytes)
      ensures Filled(engine.Mine().files, program) <==>
                Named(request, sourceRef, solutionRef, executableRef, engine.Mine().files, program)
    {
    }

    lemma ReadyIs(start: Books, program: Bytes)
      ensures Ready(start, program) <==>
                engine.Valid() && Balanced(start, engine.Mine(), Held()) && Filled(engine.Mine().files, program)
    {
    }

    lemma FilledApart(files: map<Ref, Bytes>, program: Bytes)
      requires Filled(files, program)
      ensures executableRef != "" ==> executableRef !in {sourceRef, solutionRef}
    {
    }

    lemma FilledHolds(files: map<Ref, Bytes>, program: Bytes)
      requires Filled(files, program)
      ensures Held() <= files.Keys && "" !in files
    {
    }

    /** `deleteRef`: whatever comes of it, the judgment no longer holds the reference. */
    method DeleteRef(ref: Ref, ghost start: Books, ghost held: set<Ref>) returns (ghost asked: Event)
      requires engine.Valid() && Balanced(start, engine.Mine(), held) && ref in held
      modifies engine, engine.store
      ensures engine.Valid() && Balanced(start, engine.Mine(), held - {ref})
      ensures Keeps(old(engine.Mine()).files, engine.Mine().files, {ref})
      ensures engine.log == old(engine.log) + [asked] && asked.Asked? && asked.ref == ref
      ensures engine.repeated == old(engine.repeated) && engine.trespassed == old(engine.trespassed)
      ensures engine.store.overwritten == old(engine.store.overwritten)
    {
      hide Balanced, Keeps;
      ghost var before := engine.Mine();
      HeldStored(start, before, held);
      var deleted := engine.Delete(ref);
      asked := Asked(ref, deleted);
      AfterDelete(start, before, engine.Mine(), held, ref);
    }

    /** `compile`: the reference of the program, empty if nothing is compiled or the judgment ends early. */
    method Compile(ghost start: Books, ghost uploads: seq<Event>)
      returns (ref: Ref, early: Option<Outcome>, answer: Option<Answer>, ghost program: Bytes, ghost compile: seq<Event>)
      requires Holding(uploads)
      requires Ready(start, []) && executableRef == ""
      modifies engine, engine.store
      ensures engine.Valid() && Filled(engine.Mine().files, [])
      ensures Balanced(start, engine.Mine(), Held() + ({ref} - {""}))
      ensures ref != "" ==> ref !in Held() && ref in engine.Mine().files && engine.Mine().files[ref] == program
      ensures answer.None? <==> request.language.compile == []
      ensures engine.log == old(engine.log) + compile && CompileAsked(request, uploads, compile)
      ensures answer.Some? ==> compile == [Executed(CompileSpec(request, uploads), answer.value)]
      ensures answer.None? ==> compile == []
      ensures early.None? <==> Built(request, compile)
      ensures early == Some(CompileError) <==> Unbuildable(compile)
      ensures early in {None, Some(CompileError), Some(SystemError)} && ref == ProgramOf(request, compile)
      ensures ref != "" <==> answer.Some? && early.None?
      ensures answer.Some? && answer.value.Answered? && answer.value.run.seen.Some? ==>
                answer.value.run.seen.value.inputs == Sources(request) && answer.value.run.seen.value.stdin == []
      ensures early.None? && answer.Some? ==> answer.value.Answered? && answer.value.run.status == OK && answer.value.run.seen.Some?
      ensures (old(engine.repeated) ==> engine.repeated) && engine.trespassed == old(engine.trespassed)
      ensures !engine.repeated ==> engine.store.overwritten == old(engine.store.overwritten)
    {
      hide Balanced, Keeps, Filled, Opened, SourceInputs, Sources, Shaped, HeldBy, Holding, FilesOf, CompileAsked, Built, Unbuildable, ProgramOf, Succeeds, Begins;
      ref, early, answer, program, compile := "", None, None, [], [];
      ghost var before, held := engine.Mine(), Held();
      assert held + ({ref} - {""}) == held;
      var language := request.language;
      if language.compile == [] {
        NothingToCompile(request, uploads);
        return;
      }
      var s := Spec(language.compile, SourceInputs(), None, [], [language.artifact], request.compileLimits);
      InputsAre(uploads, before.files, []);
      var admitted: bool, x: Exec := *, *;
      var r, present := engine.Run(s, admitted, x);
      answer, compile := Some(r), [Executed(s, r)];
      CompileVerdict(request, uploads, r);
      StillFilled(before.files, present, [], {});
      ghost var after := engine.Mine();
      Chain(start, before, after, held, HeldBy(r));
      StillFilled(before.files, after.files, [], {});
      if r.Refused? || r.run.status != OK {
        NothingHeld(s, r);
        assert held + HeldBy(r) == held;
      }
      if r.Refused? {
        early := Some(SystemError);
        return;
      }
      if r.run.seen.Some? {
        SourcesSeen(present, s);
      }
      match r.run.status
      case OK =>
        OneArtifact(s, r, language.artifact);
        ref := r.run.artifacts[language.artifact];
        HeldStored(before, after, HeldBy(r));
        program := engine.Mine().files[ref];
        assert {ref} - {""} == {ref};
      case WorkspaceError => early := Some(SystemError);
      case InternalError => early := Some(SystemError);
      case _ => early := Some(CompileError);
    }

    lemma SourcesSeen(files: map<Ref, Bytes>, s: Spec)
      requires Filled(files, []) && s.inputs == SourceInputs() && s.stdin.None? && Opened(files, s).Some?
      ensures Opened(files, s).value.inputs == Sources(request) && Opened(files, s).value.stdin == []
    {
      SourcesResolve(files, [], s);
    }

    /** `judge`: compile, then run every test case in order. */
    method RunAll(cases: seq<Testcase>, ghost start: Books, ghost uploads: seq<Event>)
      returns (outcome: Outcome, ghost program: Bytes, ghost compile: seq<Event>, ghost parts: seq<seq<Event>>)
      requires Holding(uploads)
      requires Ready(start, []) && executableRef == ""
      modifies this`executableRef, engine, engine.store
      ensures Ready(start, program)
      ensures engine.log == old(engine.log) + compile + Flat(parts) && CompileAsked(request, uploads, compile)
      ensures executableRef == ProgramOf(request, compile)
      ensures outcome.Judged? <==> Built(request, compile)
      ensures outcome.CompileError? <==> Unbuildable(compile)
      ensures outcome.Judged? ==> AllCases(request, uploads, ProgramOf(request, compile), cases, parts, outcome.results)
      ensures outcome.Judged? ==> outcome.compiled == if compile == [] then None else Some(compile[0].answer.run)
      ensures !outcome.Judged? ==> parts == []
      ensures outcome.Judged? ==> Faithful(request, program, cases, outcome.results)
      ensures outcome.Judged? ==> Compiled(request, outcome.compiled)
      ensures (old(engine.repeated) ==> engine.repeated) && engine.trespassed == old(engine.trespassed)
      ensures !engine.repeated ==> engine.store.overwritten == old(engine.store.overwritten)
    {
      hide *;
      ghost var held := Held();
      HeldIs();
      var ref, early, answer;
      ref, early, answer, program, compile := Compile(start, uploads);
      parts := [];
      AllCasesNone(request, uploads, ref, cases);
      FilledIs([]);
      NameProgram(request, sourceRef, solutionRef, ref, engine.Mine().files, program);
      FieldsAre(start, uploads);
      executableRef := ref;
      FieldsAre(start, uploads);
      assert Held() == held + ({ref} - {""}) by { HeldIs(); }
      FilledIs(program);
      ReadyIs(start, program);
      if early.Some? {
        return early.value, program, compile, parts;
      }
      var results: seq<CaseResult> := [];
      FaithfulNothing(request, program);
      assert Compiled(request, if answer.Some? then Some(answer.value.run) else None) by { CompiledWell(request, answer); }
      for i := 0 to |cases|
        invariant Ready(start, program) && Holding(uploads) && executableRef == ref
        invariant Faithful(request, program, cases[..i], results)
        invariant AllCases(request, uploads, ref, cases[..i], parts, results)
        invariant engine.log == old(engine.log) + compile + Flat(parts)
        invariant (old(engine.repeated) ==> engine.repeated) && engine.trespassed == old(engine.trespassed)
        invariant !engine.repeated ==> engine.store.overwritten == old(engine.store.overwritten)
      {
        var r;
        ghost var part;
        r, part := RunTestcase(cases[i], start, program, uploads);
        FlatMore(parts, part);
        AllCasesMore(request, uploads, ref, cases, i, parts, results, part, r);
        parts := parts + [part];
        FaithfulMore(request, program, cases, i, results, r);
        results := results + [r];
      }
      assert cases[..|cases|] == cases;
      outcome := Judged(if answer.Some? then Some(answer.value.run) else None, results);
    }

    /** `prepare`: the source and, if there is one, the solution are uploaded once every check has passed. */
    method Prepare() returns (ok: bool, ghost uploads: seq<Event>)
      requires sourceRef == "" && solutionRef == "" && executableRef == "" && engine.Valid()
      modifies this`sourceRef, this`solutionRef, engine, engine.store
      ensures engine.Valid() && Balanced(old(engine.Mine()), engine.Mine(), Held())
      ensures sourceRef != "" ==> sourceRef != solutionRef
      ensures engine.log == old(engine.log) + uploads && InOrder(request, uploads) && Holding(uploads)
      ensures ok <==> AllStored(request, uploads)
      ensures ok ==> Ready(old(engine.Mine()), []) && request.cases.Some? && request.cases.value != []
      ensures engine.repeated == old(engine.repeated) && engine.trespassed == old(engine.trespassed)
      ensures engine.store.overwritten == old(engine.store.overwritten)
    {
      hide *;
      ghost var start := engine.Mine();
      ok, uploads := false, [];
      if request.cases.None? || request.cases.value == [] {
        NothingUploaded(request);
        FieldsAre(start, uploads);
        BooksOf();
        BalancedItself(start);
        assert Held() == {} by { HeldIs(); }
        return;
      }
      ok, uploads := UploadSource();
      if ok && request.solution != [] {
        ghost var more;
        ok, more := UploadSolution(start);
        uploads := uploads + more;
      }
    }

    /** The first half of the uploads of `prepare`. */
    method UploadSource() returns (ok: bool, ghost uploads: seq<Event>)
      requires request.cases.Some? && request.cases.value != []
      requires sourceRef == "" && solutionRef == "" && executableRef == "" && engine.Valid()
      modifies this`sourceRef, engine, engine.store
      ensures engine.Valid() && Balanced(old(engine.Mine()), engine.Mine(), Held()) && engine.log == old(engine.log) + uploads
      ensures !ok || request.solution == [] ==>
                InOrder(request, uploads) && Holding(uploads) && (ok <==> AllStored(request, uploads))
      ensures ok && request.solution == [] ==> Ready(old(engine.Mine()), [])
      ensures ok ==> sourceRef in engine.Mine().files && engine.Mine().files[sourceRef] == request.source && sourceRef != ""
                     && Held() == {sourceRef} && uploads == [Uploaded(request.source, Some(sourceRef))]
      ensures !ok ==> sourceRef == "" && !AllStored(request, uploads)
      ensures engine.repeated == old(engine.repeated) && engine.trespassed == old(engine.trespassed)
      ensures engine.store.overwritten == old(engine.store.overwritten)
    {
      hide *;
      ghost var start := engine.Mine();
      var draw: Option<Ref> := *;
      var ref := engine.Upload(request.source, true, draw);
      ok, uploads := ref.Some?, [Uploaded(request.source, ref)];
      OneUploaded(request, ref);
      sourceRef := if ref.Some? then ref.value else "";
      BooksOf();
      HeldIs();
      if ok && request.solution == [] {
        NameSources(request, sourceRef, "", engine.Mine().files);
      }
      FieldsAre(start, uploads);
      assert Held() == if ok then {sourceRef} else {};
    }

    /** What the fields say, spelt out. */
    lemma FieldsAre(start: Books, uploads: seq<Event>)
      ensures Holding(uploads) <==> sourceRef == RefAt(uploads, 0) && solutionRef == RefAt(uploads, 1)
      ensures Ready(start, []) <==> engine.Valid() && Balanced(start, engine.Mine(), Held()) &&
                                    Named(request, sourceRef, solutionRef, executableRef, engine.Mine().files, [])
    {
    }

    lemma BooksOf()
      requires engine.Valid()
      ensures engine.Mine().undeleted <= engine.Mine().files.Keys && engine.Mine().overwritten <= engine.Mine().files.Keys
      ensures "" !in engine.Mine().files
    {
    }

    /** The second half of `prepare`. */
    method UploadSolution(ghost start: Books) returns (ok: bool, ghost more: seq<Event>)
      requires request.cases.Some? && request.cases.value != [] && request.solution != []
      requires solutionRef == "" && executableRef == "" && sourceRef in engine.Mine().files && engine.Mine().files[sourceRef] == request.source
      requires engine.Valid() && Balanced(start, engine.Mine(), {sourceRef})
      modifies this`solutionRef, engine, engine.store
      ensures engine.Valid() && Balanced(start, engine.Mine(), Held()) && sourceRef != solutionRef
      ensures engine.log == old(engine.log) + more
      ensures var uploads := [Uploaded(request.source, Some(sourceRef))] + more;
              InOrder(request, uploads) && Holding(uploads) && (ok <==> AllStored(request, uploads))
      ensures ok ==> Ready(start, [])
      ensures engine.repeated == old(engine.repeated) && engine.trespassed == old(engine.trespassed)
      ensures engine.store.overwritten == old(engine.store.overwritten)
    {
      hide Balanced, InOrder, AllStored, RefAt, Named, Keeps;
      ghost var middle := engine.Mine();
      assert sourceRef != "";
      var draw: Option<Ref> := *;
      var ref := engine.Upload(request.solution, true, draw);
      more := [Uploaded(request.solution, ref)];
      TwoUploaded(request, sourceRef, ref);
      assert [Uploaded(request.source, Some(sourceRef))] + more ==
             [Uploaded(request.source, Some(sourceRef)), Uploaded(request.solution, ref)];
      ghost var added := if ref.Some? then {ref.value} else {};
      Chain(start, middle, engine.Mine(), {sourceRef}, added);
      solutionRef := if ref.Some? then ref.value else "";
      assert Held() == {sourceRef} + added;
      ok := ref.Some?;
      if ok {
        NameBoth(request, sourceRef, solutionRef, middle.files, engine.Mine().files);
      }
    }

    /** `close`: whatever is held is asked to be deleted, once. */
    method Close(ghost start: Books) returns (ghost closing: seq<Event>)
      requires engine.Valid() && Balanced(start, engine.Mine(), Held())
      requires executableRef != "" ==> executableRef !in {sourceRef, solutionRef}
      requires sourceRef != "" ==> sourceRef != solutionRef
      modifies this, engine, engine.store
      ensures engine.Valid() && Balanced(start, engine.Mine(), {}) && Held() == {}
      ensures engine.log == old(engine.log) + closing
      ensures AsksFor(closing, IfAny(old(executableRef)) + IfAny(old(sourceRef)) + IfAny(old(solutionRef)))
      ensures engine.store.overwritten == old(engine.store.overwritten)
      ensures engine.repeated == old(engine.repeated) && engine.trespassed == old(engine.trespassed)
    {
      hide *;
      OneLess(executableRef, sourceRef, solutionRef);
      ghost var held := {executableRef, sourceRef, solutionRef} - {""};
      assert Held() == held by { HeldIs(); }
      ghost var first := DropRef(executableRef, start, held);
      executableRef := "";
      ghost var second := DropRef(sourceRef, start, {sourceRef, solutionRef} - {""});
      sourceRef := "";
      ghost var third := DropRef(solutionRef, start, {solutionRef} - {""});
      solutionRef := "";
      assert Held() == {} by { HeldIs(); }
      closing := first + second + third;
      AsksBoth(first, IfAny(old(executableRef)), second, IfAny(old(sourceRef)));
      AsksBoth(first + second, IfAny(old(executableRef)) + IfAny(old(sourceRef)), third, IfAny(old(solutionRef)));
    }

    lemma HeldIs()
      ensures Held() == {executableRef, sourceRef, solutionRef} - {""}
    {
    }

    /** What is named by a field is asked to be deleted. */
    method DropRef(ref: Ref, ghost start: Books, ghost held: set<Ref>) returns (ghost asked: seq<Event>)
      requires engine.Valid() && Balanced(start, engine.Mine(), held) && (ref != "" ==> ref in held)
      modifies engine, engine.store
      ensures engine.Valid() && Balanced(start, engine.Mine(), held - IfNamed(ref))
      ensures Keeps(old(engine.Mine()).files, engine.Mine().files, IfNamed(ref))
      ensures engine.log == old(engine.log) + asked && AsksFor(asked, IfAny(ref))
      ensures engine.repeated == old(engine.repeated) && engine.trespassed == old(engine.trespassed)
      ensures engine.store.overwritten == old(engine.store.overwritten)
    {
      hide Balanced, Keeps;
      asked := [];
      if ref != "" {
        ghost var event := DeleteRef(ref, start, held);
        asked := [event];
      } else {
        assert held - {} == held;
        assert Keeps(engine.Mine().files, engine.Mine().files, {}) by { KeepsItself(engine.Mine().files); }
      }
    }
  }

  /** A language that is compiled was compiled, successfully and from the submitted files. */
  ghost predicate Compiled(q: Request, compiled: Option<RunResult>) {
    && (compiled.Some? <==> q.language.compile != [])
    && (compiled.Some? ==> compiled.value.status == OK && compiled.value.seen == Some(Seen(Sources(q), [])))
  }

  lemma OneArtifact(s: Spec, r: Answer, name: Name)
    requires Shaped(s, r) && s.artifacts == [name] && r.Answered? && r.run.status == OK
    ensures name in r.run.artifacts && HeldBy(r) == {r.run.artifacts[name]} && r.run.seen.Some?
  {
  }

  lemma HeldStored(before: Books, after: Books, held: set<Ref>)
    requires Balanced(before, after, held)
    ensures held <= after.files.Keys - before.files.Keys && held !! after.undeleted + after.overwritten
  {
  }

  lemma NothingStray(before: Books, after: Books)
    requires Balanced(before, after, {})
    ensures before.undeleted == after.undeleted && before.overwritten == after.overwritten ==> before.files == after.files
    ensures before.overwritten <= after.overwritten
  {
    if before.undeleted == after.undeleted && before.overwritten == after.overwritten {
      assert after.files.Keys - before.files.Keys == {};
      forall r | r in after.files ensures r in before.files {
        assert r !in after.files.Keys - before.files.Keys;
      }
    }
  }

  /**
   * A whole judgment, whatever others do with the store meanwhile.  On every path it leaves behind, at most, blobs
   * whose deletion failed and artifacts an executor reported twice; it asks for the deletion of no blob of anyone
   * else; and what was judged is what was submitted.
   */
  method Judge(engine: Engine, request: Request) returns (outcome: Outcome, ghost h: History)
    requires engine.Valid()
    modifies engine, engine.store
    ensures engine.log == old(engine.log) + Events(h) && InOrder(request, h.uploads)
    ensures AllStored(request, h.uploads) ==> CompileAsked(request, h.uploads, h.compile)
    ensures !AllStored(request, h.uploads) ==> h.compile == []
    ensures outcome.Judged? <==> AllStored(request, h.uploads) && Built(request, h.compile)
    ensures outcome.CompileError? <==> AllStored(request, h.uploads) && Unbuildable(h.compile)
    ensures outcome.Judged? ==>
              AllCases(request, h.uploads, ProgramOf(request, h.compile), request.cases.value, h.cases, outcome.results)
    ensures outcome.Judged? ==> outcome.compiled == if h.compile == [] then None else Some(h.compile[0].answer.run)
    ensures !outcome.Judged? ==> h.cases == []
    ensures AsksFor(h.closing, IfAny(ProgramOf(request, h.compile)) + IfAny(RefAt(h.uploads, 0)) + IfAny(RefAt(h.uploads, 1)))
    ensures engine.Valid() && Balanced(old(engine.Mine()), engine.Mine(), {})
    ensures !engine.repeated ==> engine.store.overwritten == old(engine.store.overwritten)
    ensures !engine.repeated && engine.store.undeleted == old(engine.store.undeleted) ==>
              engine.Mine().files == old(engine.Mine()).files
    ensures engine.trespassed == old(engine.trespassed)
    ensures outcome.Judged? ==> Compiled(request, outcome.compiled) && request.cases.Some?
    ensures outcome.Judged? ==> exists program :: Faithful(request, program, request.cases.value, outcome.results)
  {
    hide Balanced, Keeps, Named, InOrder, AllStored, CompileAsked, Built, Unbuildable, AllCases, ProgramOf, RefAt, AsksFor, IfAny, Flat,
      Compiled, Faithful;
    NoProgram(request);
    ghost var start := engine.Mine();
    var job := new Judgment(engine, request);
    var prepared;
    ghost var uploads, compile, parts, closing;
    prepared, uploads := job.Prepare();
    outcome, compile, parts := SystemError, [], [];
    if prepared {
      ghost var program;
      outcome, program, compile, parts := job.RunAll(request.cases.value, start, uploads);
      job.FilledApart(engine.Mine().files, program);
    }
    closing := job.Close(start);
    h := History(uploads, compile, parts, closing);
    NothingStray(start, engine.Mine());
  }
}
