# Verified models of the judge

Dafny models of the parts of Cherry OJ in which a mistake would be hard to see: the execution pool and its boxes,
the blob store and everyone who must not leak into it, the request format between the judge and its setuid executor,
the answer checker, the package resolver of the sandbox image, the supervision loop and the status drawn from it,
and four smaller cores (capped streams and shared budgets, groups of concurrent runs, test-data metadata).

`dafny verify dfyconfig.toml` checks everything. One module per component:

| file | component |
|---|---|
| `Capacity.dfy` | admission, slots, boxes, poisoning and closing of the pool, as interleaved atomic steps |
| `BlobStore.dfy` | the store: a step machine over Put halves, readers, Delete, Sweep and Close, and the class whose methods are those steps |
| `RunArtifacts.dfy` | one execution: what the collector keeps, publishes or takes back |
| `JudgeRefs.dfy` | one judgment: every reference it uploads, receives, uses and deletes |
| `SpecWire.dfy` | `writeRequest` and `spec_parse`, the latter both as a function and in place |
| `Checker.dfy` | the streaming comparison against its meaning on whole streams |
| `DebVersion.dfy`, `PackageIndex.dfy` | version order, package index and dependency closure |
| `Supervision.dfy` | the poll loop, `conclude`, the facts and `classify` |
| `Readings.dfy` | the poll loop once more, by what is read instead of by its handlers |
| `Streams.dfy` | `drain`, `capWriter`, the shared input budget |
| `Groups.dfy` | symmetric references and connected components |
| `Testdata.dfy` | writer, validator and digest of the test-data metadata |
| `Ascii.dfy`, `Common.dfy` | digits, decimal numbers, searching, options and the order of strings, shared by the others |

Two forms occur throughout. Protocols are a `Step` datatype with `Enabled` and `Apply`; `Reachable` is any finite
sequence of enabled steps, so a lemma about reachable states is one about every interleaving. Code that works in
place is a method (with a class where the code has an object) proved equal to a function of its inputs; the lemmas
are about that function. What comes from outside (the kernel, the clock, the disk, a random identifier, a failing
system call) is always an input: a parameter, a step of the machine, or an arbitrary choice.

## What turned out not to hold

- A reference is not conserved when an executor reports the same output index twice: the collector's map keeps the
  second blob and forgets the first, which stays in the store until it expires. `RunArtifacts.StrayIff` says when
  this happens, in terms of what the executor reported; `RunArtifacts.DeliveredTwice` is a run in which it does.
- A failed upload whose pending file cannot be removed keeps its count of one reader for good, so `Close` can never
  succeed again (`BlobStore.LeakBlocksClose`; `BlobStore.LeakHappens` is the shortest run that gets there).
- `ValidPath` admits paths of up to 1031 bytes while the executor's input records hold fewer than 1024
  (`SpecWire.PathTooLong`); `SpecWire.RoundTrip` therefore has path length in its condition.
- The declared total of the test data can be trusted exactly when 2000 files of the largest permitted size add up to
  less than 2^63 (`Testdata.TotalTrustedIff`); otherwise wrap-around lets wrong totals through (`Testdata.TotalWraps`).
- That nobody waits for a box is no property of the pool: it holds exactly when there is a box for every slot, which
  configuring both from the same number gives (`Capacity.NoWaitIff`). Everything else about the pool holds without.

## Model

| member | source | states |
|---|---|---|
| Capacity.Pool.Enter | apps/judge-engine/execution/pool/pool.go:120-136 | refused as closed after closing, accepted while fewer than P+Q are in, busy otherwise; an accepted request is counted and nothing else changes, in one critical section |
| Capacity.Pool.Poison | apps/judge-engine/execution/pool/pool.go:140-148 | the pool is closed and cancelled and the failure is added to the error, in one critical section |
| Capacity.Pool.Shut | apps/judge-engine/execution/pool/pool.go:104-110 | the first half of Close closes and cancels once |
| Capacity.StepInv | apps/judge-engine/execution/pool/pool.go:71-100 | every step of every request keeps the cross-layer invariant (slots and tokens counted, boxes apart, a lost box paid for by its slot, failures recorded), and with a box for every slot the cover of started requests by free boxes |
| Capacity.KeepsBlamed | apps/judge-engine/execution/pool/pool.go:92-98 | who lost a box is on record before the slot is given back, and stays on record |
| Capacity.ReachableInv | apps/judge-engine/execution/engine.go:146-147 | the invariant holds in every interleaving of every configuration; with at least as many boxes as slots the started requests are covered by free boxes as well |
| Capacity.BoxesPartition | apps/judge-engine/execution/backend/executor.go:118-134 | every box is free, held by exactly one request, or retired, and only one of these |
| Capacity.KeepsStartedCovered | apps/judge-engine/execution/backend/executor.go:118-124 | requests past the stop check never outnumber the free boxes |
| Capacity.NobodyWaits | apps/judge-engine/execution/pool/pool.go:82-98 | no release ever blocks, and with a box for every slot a started execution finds a box at once |
| Capacity.NoWaitIff | apps/judge-engine/execution/engine.go:270-270 | no execution waits for a box in any interleaving if and only if there is a box for every slot |
| Capacity.TooFewBoxes | apps/judge-engine/execution/backend/executor.go:118-124 | with fewer boxes than slots some interleaving leaves a started execution without a box |
| Capacity.RetiredForGood | apps/judge-engine/execution/backend/executor.go:126-134 | a box whose reclaim or reset was not confirmed stays out of circulation over any continuation |
| Capacity.Bounded | apps/judge-engine/execution/pool/pool.go:71-89 | at most P executions hold slots and at most P+Q requests are admitted |
| Capacity.AdmissionIff | apps/judge-engine/execution/pool/pool.go:120-136 | in every reachable state an unseen request can come in if and only if the pool is not closed and fewer than P+Q requests hold a token |
| Capacity.SlotIff | apps/judge-engine/execution/pool/pool.go:82-86 | in every reachable state a queued request can take a slot if and only if fewer than P requests hold one |
| Capacity.FullHouse | apps/judge-engine/execution/pool/pool.go:71-86 | for every k up to P+Q a state is reachable in which k requests are in, the first P of them with a slot: both bounds are attained |
| Capacity.FailureStopsThePool | apps/judge-engine/execution/pool/pool.go:92-98 | a cleanup failure is recorded before its slot is free: from then on only executions that were already running can run |
| Capacity.StoppedStaysStopped | apps/judge-engine/execution/pool/pool.go:85-91 | once cancelled, nothing starts that was not already past the check |
| Capacity.CloseIsComplete | apps/judge-engine/execution/pool/pool.go:104-115 | Close returns only when nothing admitted is left, and its error holds every cleanup failure there ever was or will be |
| BlobStore.DiskStore.Load | apps/judge-engine/execution/store/disk.go:121-170 | taking over a directory succeeds exactly when no name is foreign or in the way and the unexpired blobs fit; the store then holds exactly these, unread |
| BlobStore.FreshInv | apps/judge-engine/execution/store/disk.go:163-168 | what load accounts for establishes the invariant, so every run may start from any directory |
| BlobStore.DiskStore.PutStartHalf | apps/judge-engine/execution/store/disk.go:185-220 | sweeps (only what has expired and can be unlinked), then is refused for exactly the stated reason or reserves the full blob size under an unpublished entry |
| BlobStore.DiskStore.Copy | apps/judge-engine/execution/store/disk.go:221-221 | the copy writes at most one byte more than a blob may have |
| BlobStore.DiskStore.PutEndHalf | apps/judge-engine/execution/store/disk.go:222-247 | publishes the upload with its true size, aborts it, or leaks it, and says which |
| BlobStore.DiskStore.Get | apps/judge-engine/execution/store/disk.go:249-287 | says exactly which of closed, not found, failed and opened it is; what it opens is the published blob, whole; an expired one is removed |
| BlobStore.DiskStore.CloseReader | apps/judge-engine/execution/store/disk.go:279-286 | one reader less, and the capacity back if it was the last of a deleted blob |
| BlobStore.DiskStore.Delete | apps/judge-engine/execution/store/disk.go:289-302 | the blob is gone for new readers, or the unlink failed and nothing changed; an absent one is no error |
| BlobStore.DiskStore.RemoveEntry | apps/judge-engine/execution/store/disk.go:305-315 | unlink first, capacity only if nobody reads |
| BlobStore.DiskStore.SweepExpired | apps/judge-engine/execution/store/disk.go:316-325 | removes expired blobs and nothing else, all of them exactly when none of them is stuck, stopping at the first that is |
| BlobStore.DiskStore.Sweep | apps/judge-engine/execution/store/disk.go:328-335 | the same behind the check for a closed store |
| BlobStore.DiskStore.Close | apps/judge-engine/execution/store/disk.go:338-351 | succeeds exactly when no entry has a reader |
| BlobStore.StepInv | apps/judge-engine/execution/store/disk.go:185-351 | every step keeps accounting, reader counts, the shape of entries and files, and quiet after closing |
| BlobStore.Quotas | apps/judge-engine/execution/store/disk.go:195-220 | in every interleaving, from any directory, used is the sum of the entry sizes and within both quotas, and readers is open handles plus an unfinished or leaked upload |
| BlobStore.DiskIsAccounted | apps/judge-engine/execution/store/disk.go:218-221 | the bytes on disk exceed used by at most one probe byte per unfinished or leaked upload |
| BlobStore.PossibleIff | apps/judge-engine/execution/store/disk.go:185-325 | in every reachable state: an upload can begin exactly if another full-sized blob fits beside the published files and the unfinished uploads, be published exactly if it kept to the limit; a blob can be opened and deleted exactly while it is visible, and expires exactly past its expiry |
| BlobStore.StepRefinesMap | apps/judge-engine/execution/store/disk.go:185-302 | seen through Get, publishing adds one binding, deletion and expiry take one away, every other step changes nothing |
| BlobStore.BlobIsImmutable | apps/judge-engine/execution/store/disk.go:249-287 | until Delete, or a clock reading past its expiry, a published blob can be opened and keeps its bytes and its expiry, over any continuation |
| BlobStore.GoneMeansRemoved | apps/judge-engine/execution/store/disk.go:289-325 | a blob that is gone was deleted or found expired |
| BlobStore.ReaderKeepsBytes | apps/judge-engine/execution/store/disk.go:278-286 | an open reader keeps its bytes through Delete, expiry and everything else |
| BlobStore.UploadIsAtomic | apps/judge-engine/execution/store/disk.go:221-247 | an upload under way cannot be opened; published, it is exactly the bytes it was given |
| BlobStore.CapacityAtLastClose | apps/judge-engine/execution/store/disk.go:278-286 | closing a reader returns the size of its file exactly when the file is deleted and this was the last reader |
| BlobStore.CloseIff | apps/judge-engine/execution/store/disk.go:338-351 | Close can succeed if and only if no reader is open and no upload is unfinished or leaked |
| BlobStore.ClosedBranchUnreachable | apps/judge-engine/execution/store/disk.go:227-235 | the second half of Put never finds the store closed |
| BlobStore.LeakBlocksClose | apps/judge-engine/execution/store/disk.go:228-236 | after a leaked upload the store can never be closed again |
| BlobStore.LeakHappens | apps/judge-engine/execution/store/disk.go:228-240 | a store with a leaked upload is reachable |
| RunArtifacts.CollectNames | apps/judge-engine/execution/runner/request.go:67-80 | every declared file once, in order of first mention |
| RunArtifacts.Collector.Accept | apps/judge-engine/execution/runner/collector.go:49-91 | an artifact of a run that is not OK is dropped; otherwise inline and stored copies are made from one reading, errors leaving what was registered |
| RunArtifacts.Collector.Deliver | apps/judge-engine/execution/backend/executor.go:391-422 | deliveries in order up to the first unrequested, oversized, unreadable or refused one |
| RunArtifacts.DeliveredSound | apps/judge-engine/execution/runner/collector.go:83-91 | however a delivery ends, every new blob is registered under one name or was overwritten, and no older blob is touched |
| RunArtifacts.DeliveredHolds | apps/judge-engine/execution/runner/collector.go:49-91 | after an undisturbed delivery each declared name stands for exactly the bytes last delivered for it |
| RunArtifacts.InlineBounded | apps/judge-engine/execution/runner/collector.go:70-81 | all inline artifacts together stay within the shared allowance |
| RunArtifacts.OverwrittenIff | apps/judge-engine/execution/runner/collector.go:83-91 | a blob is forgotten if and only if one of the deliveries that went through stored an artifact that had been stored |
| RunArtifacts.DeliveredIff | apps/judge-engine/execution/backend/executor.go:391-422 | the deliveries succeed if and only if each is the file declared for its slot and opens, all together stay within the limit, and each wanted one can be read, fits what is left of the inline allowance and gets an unused identifier |
| RunArtifacts.StoredNamesMean | apps/judge-engine/execution/runner/collector.go:42-66 | the stored names repeat if and only if two reported items are wanted, declared as artifacts, and have the same name |
| RunArtifacts.StrayIff | apps/judge-engine/execution/runner/collector.go:83-91 | where the backend reports no error, a blob becomes stray if and only if the executor reported a wanted artifact twice |
| RunArtifacts.OncePerName | apps/judge-engine/execution/runner/request.go:67-80 | an executor that reports each artifact at most once makes no blob stray |
| RunArtifacts.DeliveredTwice | apps/judge-engine/execution/runner/collector.go:83-91 | a successful run that leaves an unnamed blob behind |
| RunArtifacts.CompleteIff | apps/judge-engine/execution/runner/collector.go:95-111 | nothing is missing exactly when every declared file was delivered while the run counted as OK |
| RunArtifacts.Settle | apps/judge-engine/execution/runner/runner.go:49-65 | publish, discard and the three rejections end with all artifacts or with none |
| RunArtifacts.RejectArtifacts | apps/judge-engine/execution/runner/result.go:34-46 | every reference of the result is deleted or known to be undeletable, and the result names none |
| RunArtifacts.Run | apps/judge-engine/execution/runner/runner.go:23-67 | OK if and only if nothing failed and everything declared was delivered; OK returns exactly the declared files; anything else leaves no reference behind; blobs become stray exactly by repeated reports or failed deletions; all other blobs are untouched |
| JudgeRefs.OthersUntouched | apps/judge-engine/execution/runner/runner.go:23-67 | balanced books of the whole store are balanced books of one user, and leave the blobs of others as they are |
| JudgeRefs.Engine.Upload | apps/judge-engine/execution/engine.go:156-157 | the blob is stored under the name drawn exactly if it can be read and the name is free; the request is recorded |
| JudgeRefs.Engine.Run | apps/judge-engine/execution/engine.go:167-177 | refused exactly without a command, without limits or when the pool does not admit it, otherwise with the status of the execution; the books of a judgment balance for any behaviour of pool, executor, disk and other users; the request is recorded |
| JudgeRefs.Engine.Delete | apps/judge-engine/execution/engine.go:160-165 | the blob is gone or stays on the books, and a blob of one's own is never one of somebody else; the request is recorded |
| JudgeRefs.Chain | apps/judge-engine/judge/flow/flow.go:51-59 | balanced books compose, and what was held stays as it was |
| JudgeRefs.AfterDelete | apps/judge-engine/judge/flow/flow.go:170-174 | a deletion, carried out or not, takes one reference off the books of the judgment |
| JudgeRefs.Judgment.DeleteRef | apps/judge-engine/judge/flow/flow.go:170-174 | whatever comes of the deletion, the judgment no longer holds the reference, and no other blob of its own changes |
| JudgeRefs.Judgment.StdinFor | apps/judge-engine/judge/flow/testcase.go:78-107 | a small input travels in the request (an empty one not at all), any other by one upload; whichever way, it resolves to the input, and only a spilled one leaves a reference to delete |
| JudgeRefs.Judgment.RunOn | apps/judge-engine/judge/flow/testcase.go:28-40 | one run, of exactly this command, program and input, leaves the held references as they are and sees the program and the input |
| JudgeRefs.Judgment.RunTestcase | apps/judge-engine/judge/flow/testcase.go:13-76 | the exact course of a test case: the input supplied, one run of the program on it, whose answer is the result, and the spilled input deleted; without an input no run; nothing is left in the store |
| JudgeRefs.Judgment.Compile | apps/judge-engine/judge/flow/compile.go:12-66 | one compile run of the submitted files if the language is compiled: the judgment goes on exactly if it was OK with its artifact, ends as CE exactly if it ended by time, memory, output, exit code or signal, and as SE otherwise; the program's reference is the one new blob, or there is none |
| JudgeRefs.Judgment.RunAll | apps/judge-engine/judge/flow/flow.go:62-78 | judged exactly if the program was built, with the exact course and result of every test case, all of the same program; CE exactly if the submission is to blame |
| JudgeRefs.Judgment.Prepare | apps/judge-engine/judge/flow/flow.go:80-136 | the source, and the solution if there is one, are uploaded in this order up to the first failure; it succeeds exactly if there is a test case and all of them were stored; on every path the new blobs are exactly those the fields name |
| JudgeRefs.Judgment.Close | apps/judge-engine/judge/flow/flow.go:137-155 | exactly the references held are asked to be deleted, program first, and nothing is held afterwards |
| JudgeRefs.Judge | apps/judge-engine/judge/flow/flow.go:26-59 | the outcome as a function of the recorded requests and answers: judged if and only if all uploads succeeded and the program was built, with the result of every test case; CE if and only if the compile run ended by the program's own failure; SE otherwise; then exactly the references held are asked to be deleted. On every path, and whatever others do with the store, the judgment leaves behind nothing but blobs whose deletion failed and artifacts reported twice; it deletes nobody else's blob; what ran is what was submitted |
| SpecWire.PathsAgree | apps/judge-engine/execution/backend/limits.go:22-37 | the Go and the C validation accept the same paths |
| SpecWire.PathTooLong | apps/sandbox/src/spec.c:37-48 | both admit a path of 1031 bytes |
| SpecWire.PathLength | apps/sandbox/src/spec.c:37-48 | no valid path is longer than that |
| SpecWire.ParseFormatted | apps/sandbox/src/spec.c:50-58 | a printed number is read back, and accepted exactly when it is in range |
| SpecWire.WriteRequest | apps/judge-engine/execution/backend/executor.go:220-285 | the printer's loops write exactly Print of the job, or refuse exactly what is not printable |
| SpecWire.RoundTrip | apps/sandbox/src/spec.c:71-194 | reading what was printed returns the same job, and is refused if and only if the job is outside the stated domain |
| SpecWire.PrintInjective | apps/judge-engine/execution/backend/executor.go:220-285 | two acceptable jobs with the same bytes are equal |
| SpecWire.AcceptedIsAcceptable | apps/sandbox/src/spec.c:71-194 | any accepted file, however written, describes an acceptable job |
| SpecWire.ParseEncoded | apps/sandbox/src/spec.c:71-90 | splitting at NUL and the first equals sign inverts the record format |
| SpecWire.ViewStable | apps/sandbox/src/spec.c:71-100 | overwriting an equals sign changes no string that the struct already points at |
| SpecWire.WalkRecord | apps/sandbox/src/spec.c:78-100 | a record read in place is the record the parser function reads |
| SpecWire.ParseRecords | apps/sandbox/src/spec.c:71-160 | the walk terminates, stays inside the buffer, and leaves a struct whose pointers read as the parsed records |
| SpecWire.SpecParse | apps/sandbox/src/spec.c:71-194 | the in-place parser returns what the parser function returns |
| Checker.SkipSpaces | apps/judge-engine/judge/checker/checker.go:86-134 | both cursors end on the next token, unless exactly there a stream breaks off; equality of the skipped spaces and the line of their first difference are exact |
| Checker.CompareOneToken | apps/judge-engine/judge/checker/checker.go:138-168 | the cursors pass exactly the common prefix of the two tokens; equality is exact; it fails exactly when a stream breaks off there |
| Checker.CutInToken | apps/judge-engine/judge/checker/checker.go:138-168 | a stream that breaks off inside the tokens being compared, or right behind them, breaks off where the comparison has to read |
| Checker.Compare | apps/judge-engine/judge/checker/checker.go:26-76 | verdict, line and excerpts are those of Meaning, MeaningLine and Reach on the whole streams; SE if and only if a stream breaks off where it still has to be read |
| Checker.StrictOnlyTurnsPE | apps/judge-engine/judge/checker/checker.go:26-76 | the whitespace option never changes whether the answer is WA, and only turns PE into AC |
| Checker.DecideWrong | apps/judge-engine/judge/checker/checker.go:38-52 | at the first token mismatch the token sequences differ, and the reported line is that of got's cursor |
| Checker.DecideEqual | apps/judge-engine/judge/checker/checker.go:53-64 | equal tokens: the layout flag says whether the streams are byte-equal, the line is one plus the newlines of the common prefix |
| Checker.NextToken | apps/judge-engine/judge/checker/checker.go:86-134 | what skipping spaces leaves is the end or the next token of the whole stream |
| Checker.Scanner.Next | apps/judge-engine/judge/checker/checker.go:210-225 | one byte, with line and current-line prefix kept |
| Checker.Scanner.LineExcerpt | apps/judge-engine/judge/checker/checker.go:228-241 | the excerpt is what was read of the line, then the rest of it without carriage returns, capped and cut at a character |
| Checker.ExcerptOfPlainLine | apps/judge-engine/judge/checker/checker.go:210-241 | on a line without carriage returns the excerpt is its first 200 bytes, wherever the cursor stands in it |
| Checker.TrimLoop | apps/judge-engine/judge/checker/checker.go:245-250 | the longest prefix that is valid UTF-8 |
| Checker.TrimLosesOneRune | apps/judge-engine/judge/checker/checker.go:245-250 | cutting valid text anywhere loses only the split character |
| DebVersion.ComparePart | deploy/sandbox-linux/rootfs/lock.py:47-63 | the two-string loop terminates and gives the padded lexicographic order of (run, number) pairs (section 5.6.12 of the Debian Policy Manual) |
| DebVersion.CompareVersionsOf | deploy/sandbox-linux/rootfs/lock.py:66-77 | epoch, then upstream version, then revision; fails exactly where a version does not parse |
| DebVersion.CompareMeaning | deploy/sandbox-linux/rootfs/lock.py:66-77 | the sign is exactly the order of the keys |
| DebVersion.CompareAntisymmetric | deploy/sandbox-linux/rootfs/lock.py:66-77 | well-formed versions always compare, and swapping them swaps the sign |
| DebVersion.CompareTransitive | deploy/sandbox-linux/rootfs/lock.py:66-77 | not-later is transitive, strictly if one step is strict |
| DebVersion.SplitAssembled | deploy/sandbox-linux/rootfs/lock.py:68-71 | an assembled version is taken apart into the epoch before the last colon (or 0), the upstream version, and the revision behind the last hyphen (or 0) |
| DebVersion.KeyOfAssembled | deploy/sandbox-linux/rootfs/lock.py:68-71 | the key of an assembled version is the value of its epoch and the encodings of upstream version and revision, in this order |
| DebVersion.PartsDecideInOrder | deploy/sandbox-linux/rootfs/lock.py:66-77 | on assembled versions different epochs decide; with equal epochs a difference of the upstream versions decides whatever the revisions are; then the revisions |
| DebVersion.NumbersDecide | deploy/sandbox-linux/rootfs/lock.py:58-62 | behind equal text the smaller number comes first, whatever follows |
| DebVersion.CharactersDecide | deploy/sandbox-linux/rootfs/lock.py:36-57 | behind equal text letters come before other characters, among their kind the smaller code first, and the end of the text before both |
| DebVersion.RelationsMean | deploy/sandbox-linux/rootfs/lock.py:80-84 | exactly one of earlier, same and later holds, and each relation is the one its sign says |
| DebVersion.TildeBeforeEnd | deploy/sandbox-linux/rootfs/lock.py:36-44 | a part followed by a tilde sorts before the part itself |
| PackageIndex.CollectPackages | deploy/sandbox-linux/rootfs/lock.py:137-144 | for every usable name a stanza at least as high as every usable one of that name, and the first read of those that are as high |
| PackageIndex.HighestIsOrderIndependent | deploy/sandbox-linux/rootfs/lock.py:137-144 | the order of the stanzas does not influence the version kept |
| PackageIndex.BuildIndex | deploy/sandbox-linux/rootfs/lock.py:137-152 | the index is valid: providers are sorted and exactly the packages that provide the name, all of them keys |
| PackageIndex.InsertMeaning | deploy/sandbox-linux/rootfs/lock.py:146-152 | the provider list stays sorted and gains exactly the name |
| PackageIndex.CandidateHolds | deploy/sandbox-linux/rootfs/lock.py:188-194 | a candidate comes from the index and meets its alternative once chosen |
| PackageIndex.NoCandidate | deploy/sandbox-linux/rootfs/lock.py:188-194 | without a candidate not even the whole index meets the alternative |
| PackageIndex.PickMeaning | deploy/sandbox-linux/rootfs/lock.py:210-216 | the loop over alternatives picks one that can hold, and gives up only when the index meets none |
| PackageIndex.PickPicks | deploy/sandbox-linux/rootfs/lock.py:188-216 | what is picked is what the first workable alternative stands for: the named package if it fits, else the first of its providers by name |
| PackageIndex.AddPicked | deploy/sandbox-linux/rootfs/lock.py:196-199 | adding a package satisfies the group that asked for it and loses none that held |
| PackageIndex.MeetGroup | deploy/sandbox-linux/rootfs/lock.py:206-222 | a group that holds leaves everything as it is; for any other exactly the pick of its first workable alternative is added; a failure means that not even the index meets it, or that a comparison raises |
| PackageIndex.AddRoots | deploy/sandbox-linux/rootfs/lock.py:201-204 | the roots are chosen first, each once, in order of first mention; the first unknown one is the failure |
| PackageIndex.ProcessPackage | deploy/sandbox-linux/rootfs/lock.py:205-222 | a package taken from the queue ends with all its groups satisfied, in their order, and nothing added without need |
| PackageIndex.FollowAdd | deploy/sandbox-linux/rootfs/lock.py:205-222 | an addition keeps the trail: every package but the roots was added for a group of a package chosen before it, which did not hold in what had been chosen by then, all earlier groups holding |
| PackageIndex.Resolve | deploy/sandbox-linux/rootfs/lock.py:177-223 | terminates; the result is the roots and, in an order that is given, packages each of which was needed: for a group of a package in front of it that did not hold in what had been chosen before; it is closed at the end and reachable from the roots; a failure comes at the first group in this order that cannot be met, and the whole index could not avoid it |
| Supervision.Monitor.Poll | apps/sandbox/src/supervise.c:181-240 | one turn in the order of the code equals Handle |
| Supervision.Monitor.Run | apps/sandbox/src/supervise.c:181-240 | the loop equals Supervise over the rounds that poll delivers |
| Supervision.HandleKept | apps/sandbox/src/supervise.c:102-240 | what every turn guarantees, from any undecided state and any readings |
| Supervision.SuperviseDecides | apps/sandbox/src/supervise.c:181-240 | whatever happens in whatever order, the loop ends in one of the admissible decisions |
| Supervision.EndDecided | apps/sandbox/src/supervise.c:254-310 | however far an execution gets, supervision ends in an admissible decision |
| Supervision.SuperviseStarts | apps/sandbox/src/supervise.c:102-149 | an exit without a reason was preceded by a successful start |
| Supervision.ReadableReportWins | apps/sandbox/src/supervise.c:125-149 | a readable exit report is never lost to the pidfd |
| Supervision.LostMeansUnreadable | apps/sandbox/src/supervise.c:181-240 | a lost report was not there to be read when the pidfd fired |
| Supervision.ConcludeInOrder | apps/sandbox/src/facts.c:32-60 | the ordered assignments equal the ranking of causes |
| Supervision.OkIff | apps/judge-engine/execution/runner/result.go:51-74 | from the start of an execution, the final status is OK if and only if it got as far as the loop, the payload started, reported exit 0, its group was confirmed empty and removed, every limit held and nothing was cancelled or failed |
| Supervision.StatusTable | apps/judge-engine/execution/runner/result.go:51-74 | the status after any decided end in one table, through conclude, the printed line, the facts and classify: platform failure, OOM kill, time, output, cancellation, signal, exit code |
| Supervision.FailureIffPlatform | apps/sandbox/src/facts.c:26-60 | the failure text is non-empty if and only if the reason is platform, and such a run is an internal error |
| Readings.TurnIs | apps/sandbox/src/supervise.c:181-240 | one turn, described by what was read and not by its handlers: it ends the loop if and only if some reading calls for it, and then as the call of the highest rank says |
| Readings.StopsIff | apps/sandbox/src/supervise.c:181-240 | supervision ends if and only if some round calls for it |
| Readings.FirstCallDecides | apps/sandbox/src/supervise.c:181-240 | the first round with a call decides, by its foremost call, whatever comes later; reason, failure, report, start, baseline and bytes read are those of the readings up to there |
| Readings.CancelStops | apps/sandbox/src/supervise.c:205-210 | a cancellation in a round that is reached ends supervision there as cancelled, whatever else there is to read |
| Readings.TicksStop | apps/sandbox/src/supervise.c:152-179 | a tick that is reached ends supervision: past the startup timeout before the start, then at the clock limit, then at the CPU budget since the baseline |
| Readings.OkOnReadings | apps/sandbox/src/supervise.c:181-240 | over the readings, the final status is OK if and only if no round calls for an end before one whose foremost reading is the report of exit code 0 without a signal, the payload had started, and bytes and CPU time stayed within the limits with a clean aftermath |
| Readings.OkMeansUndisturbed | apps/sandbox/src/supervise.c:205-210 | no round that was reached in a successful execution had a cancellation |
| Readings.StatusOnReadings | apps/judge-engine/execution/runner/result.go:51-74 | for every way of ending, the status it leads to if nothing more goes wrong |
| Streams.Stream.Drain | apps/sandbox/src/supervise.c:59-80 | for every cutting into chunks the first min(total, limit) bytes are kept and overflow is flagged exactly beyond the limit |
| Streams.CapWriter.Write | apps/judge-engine/execution/runner/capwriter.go:15-29 | one write accepts everything and keeps what fits |
| Streams.CapWriter.WriteAll | apps/judge-engine/execution/runner/capwriter.go:15-29 | the same for every cutting, with the callback fired once |
| Streams.Inputs.Read | apps/judge-engine/execution/runner/sources.go:90-109 | a read delivers exactly the next bytes that fit and charges the shared budget; it reports TooLarge exactly when the budget is spent and bytes are left, EOF exactly at the end |
| Streams.Inputs.AllDelivered | apps/judge-engine/execution/runner/sources.go:83-109 | all sources at EOF means that every byte was delivered and the total fits |
| Streams.Inputs.BudgetIff | apps/judge-engine/execution/runner/sources.go:83-109 | no read can fail if the total fits, and not all can reach EOF if it does not |
| Streams.Inputs.ReadAll | apps/judge-engine/execution/runner/sources.go:83-109 | reading all sources in any order and any portions terminates, and works exactly when the total fits, delivering everything |
| Groups.Check | benchmark/tools/specs.py:128-140 | accepts exactly the lists with unique names and mutual references |
| Groups.Symmetric | benchmark/tools/specs.py:128-140 | in an accepted list the relation is symmetric |
| Groups.ConnectedSymmetric | benchmark/tools/specs.py:143-160 | so is being connected |
| Groups.ConnectedTransitive | benchmark/tools/specs.py:143-160 | being connected is transitive |
| Groups.Collect | benchmark/tools/specs.py:143-160 | the stack search terminates with exactly what is connected to its start |
| Groups.Groups | benchmark/tools/specs.py:143-160 | a partition of the input into connected components, each in input order |
| Groups.SameGroupIff | benchmark/tools/specs.py:143-160 | two specifications share a group if and only if they are connected |
| Testdata.PreImageDecodes | apps/judge-engine/judge/testcase/metadata.go:114-120 | the digest's pre-image determines names, hashes and their order |
| Testdata.ValidateCases | apps/judge-engine/judge/testcase/metadata.go:72-103 | the loop accepts exactly the valid lists and sums with 64-bit wrap-around |
| Testdata.Validate | apps/judge-engine/judge/testcase/metadata.go:68-108 | accepts exactly valid metadata with the right count, total and digest |
| Testdata.TotalIsTrue | apps/judge-engine/judge/testcase/load.go:117-127 | with small enough files the declared total is the true one and within the limit |
| Testdata.TotalTrustedIff | apps/judge-engine/judge/testcase/load.go:117-127 | the declared total can be trusted if and only if 2000 largest files fit into an int64 |
| Testdata.TotalWraps | apps/judge-engine/judge/testcase/metadata.go:72-103 | otherwise there is metadata that passes every check with a wrong total |
| Testdata.SortNames | scripts/testdata_pack.py:26-44 | the names sorted by key, each once |
| Testdata.Build | scripts/testdata_pack.py:47-67 | the metadata written describes exactly the files found, or the defect that stops it |
| Testdata.WrittenIsAccepted | scripts/testdata_pack.py:47-67 | what the writer writes the validator accepts, exactly as long as the total is an int64 |

## Left out

- The kernel side (namespaces, mounts, seccomp, cgroup files, privilege dropping): its answers are inputs of the models.
- The devhost backend, HTTP, YAML and environment loading, logging, tracing and node registration: plumbing without a harder claim.
- Verdict folding, score, diff wording and the language table: true but easy.
- The Go mutexes: critical sections are atomic steps, and finer interleavings of unlocked code are covered because each such action is its own step.
- Pool: contexts are one flag per request and one for the pool; a cancellation that arrives later than it could is one of the interleavings.
- Pool: the error is the set of requests whose cleanup failed, not its text; the protocol document allows 1 to 256 boxes where `openExecutor` allows 1 to 4, and the model allows any count.
- Store: entries are values in the map, so sharing of one entry record between Put, readers and the map is not modelled as aliasing; every update is made in the map.
- Store: the pattern of reference names; a directory that is being opened is a list of names with what is found behind each.
- RunArtifacts.Run: streams, exit code, usage and messages of the result are not carried along; the status is.
- JudgeRefs.Judge: others use the store between any two calls of the judgment, and before and after, not inside, an execution, where they touch other blobs than it does; expiry of the judgment's own blobs during the judgment is not modelled.
- JudgeRefs.Judge: the checks and the loading of test data before the first upload are one outcome, a list of test cases or a refusal; the verdict of a test case is left to the checker.
- JudgeRefs.Judgment.Close: the local copy of the test data is not part of this model.
- SpecWire.WriteRequest: the contents of the input files are not modelled, only their sizes; writing them to the box directory is I/O.
- SpecWire.SpecParse: the limit of 256 KiB on the file and reading it are in box.c, which is not part of this model.
- DebVersion.ComparePart: Python's `int` raises on runs of digits beyond its conversion limit (4300 digits unless configured otherwise); the model compares numbers of any length.
- DebVersion.CompareVersionsOf: Python's `int` also accepts underscores, blanks, a sign and non-ASCII digits in an epoch, and its string predicates know non-ASCII letters and digits; the model is ASCII.
- PackageIndex.Resolve: the text of relation fields, the notes on why a package was chosen and fetching of indexes are not modelled; stanzas arrive parsed.
- Checker.Compare: buffering and the decoding of runes beyond the excerpt are not modelled; a read error is a stream that breaks instead of ending.
- Supervision.OkIff: texts are lists of causes; formatting and parsing of the JSON line are taken as faithful; everything that makes the executor refuse before `execute` is one course of events.
- Testdata.Build: SHA-256 is an arbitrary function, files are values; JSON text is not modelled.
