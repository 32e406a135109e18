# Verified models of the benchmark runners and estate tools

A Dafny 4.11 project that models the state-carrying parts of this repository and proves what they keep. Run
`dafny verify dfyconfig.toml` to check all of it.

| Area | Modules | Repository files |
|---|---|---|
| Multi-pass benchmark runner: holdout, passes, checkpoint, ledger, crash and resume | `XbowSuite`, `XbowSession`, `XbowHistory` | `cmd/tsbench/xbow.go` |
| Code-review runner: per-case checkpoint, crash and resume | `CodeReviewRun` | `cmd/tsbench/codereview.go` |
| Folds that summarise attempts, and the numbers printed from them | `AttemptFolds`, `EngineerAutopsy` | `cmd/tsbench/xbow.go`, `internal/bench/xbow.go`, `scripts/xbow_autopsy.py`, `scripts/engineer_autopsy.py` |
| Corpus converters: twin pairing and anchor extraction | `TwinPairing`, `PatchAnchors` | `scripts/bountybench_to_cvepatch.py`, `scripts/cvebench_to_cvepatch.py` |
| Agent telemetry snapshot | `AgentEvents`, `AgentSnapshot` | `internal/adrsensor/adrsensor.go` |
| Concurrent protocols: assessment pool and dispatch budget | `AssessPool`, `DispatchBudget` | `cmd/tsengine/assess.go`, `cmd/tool-server/main.go`, `internal/execpolicy/execpolicy.go` |
| Reply parsers | `ReplyParser` | `cmd/tsbench/discover.go`, `cmd/tsbench/impact.go` |

`Wrappers`, `Text`, `Sequences` and `Sorting` are shared: options, ASCII strings, order-preserving
de-duplication, and sorting by a strict weak order.

## How it is built

* Loops and objects that the source updates in place are methods and classes (`XbowSession.Runner`,
  `CodeReviewRun.Runner`, the folds, the parsers, the array compaction and the in-place table sort). Each is
  proved equal to a specification function or predicate, and the promised properties are lemmas about that.
* Crashes, resumes, interleavings and failing writes are separate steps of a state machine (`Apply` or `Step`),
  and safety is proved over every finite run. In `XbowHistory` the steps build on the session functions that
  `XbowSession.Runner` is proved against.
* What Docker, the agent, the language model, the network and the file system do is a parameter: an oracle that
  gives each attempt's outcome, a review function, the answers of the domain check, and the fate of each write
  (made, lost, or cut short so that the file no longer parses).
* Python's tuple and Go's comparison orders, strip sets, prefixes, thresholds (12 characters, 40 anchors, 0.5)
  and branch order are the source's own. Overlaps are exact rationals.

## Where the code and its documentation disagree

The model follows the code.

* `cmd/tsbench/xbow.go:215-217` marks a carried benchmark as eligible again on a retry pass. The branch is dead:
  line 201 has already skipped every benchmark that is done. So a carried miss is never attempted again,
  whatever `--attempts` says, and a resumed run can report a miss where an uninterrupted run reports a solve.
  It happens exactly when some benchmark is graded a miss on one pass and solved on a later one
  (`XbowHistory.FlagsTransparentIff`), so for all outcomes it is ruled out exactly when `--attempts` is 1
  (`FlagsTransparentForAllOutcomesIff`); `MissThenSolveIsLost` is the failing input. The whole record, with its
  pass stamp and note, can already differ when a graded attempt of any kind is followed by another
  (`ResumeIsTransparentIff`).
* The comment at `cmd/tsbench/xbow.go:188-190` says that later passes retry the non-errored set. Within a session
  the code retries errored attempts too: after an errored attempt the next one is made exactly when there is
  another pass (`XbowSession.ErroredIsRetried`, with a two-pass input in `TwoPassesRetryAnError`). The errored
  flag is only consulted when a checkpoint is loaded.
* `scripts/xbow_autopsy.py:121` divides by all benchmarks, the scoreboard (`internal/bench/xbow.go:220-224`) only
  by those whose surviving attempt is not errored. `AttemptFolds.HeadlinesAgree` says when the two are equal;
  one benchmark that never ran is reported as 0/1 by the one and 0/0 by the other (`ErroredWinnerSplitsHeadlines`).
* `_best_twin` says its tie-break makes the choice the same on every run. Two candidates with equal overlap and
  equally long paths are still chosen by walk order (`TwinPairing.TiedTwinsDependOnOrder`); `OrderFreeIff` is the
  exact condition.
* The diff reader takes every line starting with `---` for a file header and so misses a removed line that starts
  with two dashes, for example a SQL comment (`PatchAnchors.SqlCommentIsMissed`). The whole-file reader does not.
* `internal/adrsensor/adrsensor.go:195` promises the same snapshot for the same export. Two sources that
  `agentName` shows under one name (for example `claude` and `CLAUDE`) are two records with one sort key, and
  their order is then left to map iteration (`AgentSnapshot.MergedSourcesAreNotDetermined`; `SnapshotIsFunctionIff`
  gives the exact condition).
* `internal/adrsensor/adrsensor.go:144-145` promises the most recently observed model. A newer event without a
  model, met earlier in the input, hides the event that named it (`AgentEvents.NewestModelIsHidden`). The model is
  taken from that event exactly when it is not hidden (`NewestEventReportedIff`), and it is the same model exactly
  when that holds or the last earlier record happens to name it too (`NewestModelReportedIff`).
* The dispatch budget is checked before it is counted, so overlapping requests can exceed it, by at most one less
  than the number of overlapping handlers, and that is reached (`DispatchBudget.BudgetBoundIsTight`). It is kept
  exactly when handlers never overlap (`BudgetHoldsIff`).
* In `scripts/engineer_autopsy.py` a run that invented findings is disqualified, but any other run of the same
  case hides that, even a refused one (`EngineerAutopsy.HallucinationShownIffAlways`, `HallucinationHidden`).

## Model

| member | source | states |
|---|---|---|
| AttemptFolds.DedupeResults | cmd/tsbench/xbow.go:279-303 | The map-and-order loop returns, for each id in first-seen order, that id's winner |
| AttemptFolds.WinnerIsLastSolvedOrLast | cmd/tsbench/xbow.go:276-297 | The winner of an id is its last solved attempt, or its last attempt if none is solved; it is solved exactly when some attempt is |
| AttemptFolds.DedupeIds | cmd/tsbench/xbow.go:281-302 | The output lists every id of the input exactly once, in order of first occurrence |
| AttemptFolds.DedupeInPieces | cmd/tsbench/xbow.go:279-303 | Homomorphism: folding two parts and then their folded concatenation equals folding everything at once, order included |
| AttemptFolds.DedupeIdempotent | cmd/tsbench/xbow.go:279-303 | Folding a folded list changes nothing |
| AttemptFolds.DedupeSelects | cmd/tsbench/xbow.go:277-278 | The output is contained in the input as a multiset: no attempt is invented or altered |
| AttemptFolds.AutopsyFold | scripts/xbow_autopsy.py:86-93 | The Python loop keeps each id's first attempt, replaced once by its first solved one, and counts the id's attempts |
| AttemptFolds.FirstWinnerIsFirstSolvedOrFirst | scripts/xbow_autopsy.py:86-93 | What it keeps of an id is the first solved attempt, or the first attempt if none is solved |
| AttemptFolds.FoldsAgree | scripts/xbow_autopsy.py:91-93 | Over any attempt sequence, the Go and the Python fold know the same ids and agree on which are solved |
| AttemptFolds.FoldsKeepDifferentAttempts | scripts/xbow_autopsy.py:91-93 | They do keep different attempts for some inputs |
| AttemptFolds.Aggregate | internal/bench/xbow.go:214-252 | The scoreboard loop counts graded results, solves, results with findings, and the same per level and per normalised tag, and counts errored results apart; no breakdown has an empty entry |
| AttemptFolds.BreakdownsAdd | internal/bench/xbow.go:214-252 | Totals, findings, levels and tags of two batches of results add up to those of both together |
| AttemptFolds.OneTagged | internal/bench/xbow.go:230-246 | One graded result counts once under a tag its benchmark carries once, in whatever case and spacing, and never under a blank or absent one |
| AttemptFolds.FoundBounds | internal/bench/xbow.go:220-228 | Results with findings are among the graded ones: none exactly if no graded result has a finding |
| AttemptFolds.LevelsAddUp | internal/bench/xbow.go:224-246 | The per-level counts sum to the overall Total and Solved: every benchmark that ran is counted under exactly one level |
| AttemptFolds.TallyCounts | internal/bench/xbow.go:216-246 | Over distinct ids: total plus errored is the number of benchmarks, and Solved is the number of solved ids |
| AttemptFolds.HeadlinesAgree | scripts/xbow_autopsy.py:120-121 | Both reports have the same numerator; the denominators are equal exactly when no winner is errored |
| AttemptFolds.ErroredWinnerSplitsHeadlines | scripts/xbow_autopsy.py:120-121 | One errored benchmark: one denominator is 1, the other 0 |
| XbowSuite.FilterXbow | cmd/tsbench/xbow.go:680-698 | The filter keeps, in order, exactly the benchmarks that --only names (all, if it names none) at the level |
| XbowSuite.WantedParts | cmd/tsbench/xbow.go:680-690 | --only names the trimmed, non-blank parts between its commas |
| XbowSuite.SelectInPieces | cmd/tsbench/xbow.go:690-698 | The filter keeps suite order: filtering two parts of a suite and joining equals filtering the whole |
| XbowSuite.SelectsAll | cmd/tsbench/xbow.go:690-698 | A suite that --only and the level wholly admit comes through unchanged |
| XbowSuite.DropReserved | cmd/tsbench/xbow.go:90-102 | Compacting the slice into its own storage yields the plain filter: no element is overwritten before it is read |
| XbowSuite.HoldoutIsSafe | cmd/tsbench/xbow.go:70-102 | For every --only: a benchmark is planned exactly when it is of the suite, named or nothing is named, of the level or no level is set, and not among the reserved last ids of the level |
| XbowSuite.ReservedCount | cmd/tsbench/xbow.go:75-88 | Exactly the requested number is reserved when the level's pool is larger, otherwise none |
| XbowSuite.PlanAndHoldoutPartitionThePool | cmd/tsbench/xbow.go:70-102 | Without --only, the planned benchmarks followed by the held-out ones are the level's pool, in order |
| XbowSession.MadeIsFirstSolve | cmd/tsbench/xbow.go:198-234 | The number of attempts after p passes is the first solving attempt, or p if none of the first p solves |
| XbowSession.ExactAttempts | cmd/tsbench/xbow.go:198-235 | A session attempts a benchmark that was not carried exactly that often, numbered 1, 2, ..., and a carried one never |
| XbowSession.LogMember | cmd/tsbench/xbow.go:199-235 | Every attempt is of a planned, uncarried benchmark, made on a pass at which no earlier attempt had solved it |
| XbowSession.LogInOrder | cmd/tsbench/xbow.go:198-235 | Attempts are made pass by pass, and within a pass in suite order |
| XbowSession.ErroredIsRetried | cmd/tsbench/xbow.go:198-220 | After an errored attempt j, a session makes attempt j + 1 exactly when j is not its last pass |
| XbowSession.TwoPassesRetryAnError | cmd/tsbench/xbow.go:188-190 | With two passes and an error on the first, both attempts are made |
| XbowSession.SolvedSoFar | cmd/tsbench/xbow.go:192-231 | Between passes, solved holds an uncarried id exactly when its last attempt so far solved it |
| XbowSession.QueueIsDue | cmd/tsbench/xbow.go:199-220 | The queue computed from solved, done and results is the closed form: uncarried and unsolved so far |
| XbowSession.RecordedIsSound | cmd/tsbench/xbow.go:224-235 | Recording the head of the queue keeps the session equal to the closed form cut at the queue position |
| XbowSession.NextPassIsSound | cmd/tsbench/xbow.go:198-220 | So does starting the next pass |
| XbowSession.Runner.LoadCheckpoint | cmd/tsbench/xbow.go:172-182 | The loop loads what the two rows below describe, and done is the set of the loaded ids |
| XbowSession.CarryableInPieces | cmd/tsbench/xbow.go:172-181 | A checkpoint is carried in file order: loading a followed by b gives what a gives followed by what b gives |
| XbowSession.ErrorFreeIsCarried | cmd/tsbench/xbow.go:172-181 | A checkpoint without errored results is carried unchanged |
| XbowSession.CarriedReport | cmd/tsbench/xbow.go:172-181 | Of what is carried for a benchmark, the report shows its last solved result in the file, or its last non-errored one if none is solved |
| XbowSession.ResumedReport | cmd/tsbench/xbow.go:166-262 | And so it does after the whole resumed session, whatever its passes attempt |
| XbowSession.Runner.MarkSolved | cmd/tsbench/xbow.go:192-197 | solved is the set of ids with a solved carried result |
| XbowSession.Runner.Resume | cmd/tsbench/xbow.go:166-197 | With --resume the carried results are the checkpoint's non-errored ones, otherwise and for an unreadable file none |
| XbowSession.Runner.BuildQueue | cmd/tsbench/xbow.go:199-220 | The loop, with its attempted-before scan, builds the specified queue; the re-eligible branch is unreachable |
| XbowSession.Runner.Record | cmd/tsbench/xbow.go:226-252 | One attempt extends the results and, if the append succeeds, the ledger by the same result; the checkpoint is rewritten from the results, kept, or cut short as that write goes |
| XbowSession.NotedIsRecorded | cmd/tsbench/xbow.go:226-252 | That takes the memory of a session to the memory of the session with its queue head recorded |
| XbowSession.DurableWrites | cmd/tsbench/xbow.go:236-252 | If every write succeeds, the ledger has every attempt and the checkpoint every result |
| XbowSession.AppendedInPieces | cmd/tsbench/xbow.go:235-238 | Ledger lines keep the order of the attempts, whichever are lost |
| XbowSession.LastWriteStands | cmd/tsbench/xbow.go:239-252 | The last rewrite that was not lost decides what the checkpoint holds: all results up to it, or an unreadable file |
| XbowSession.Runner.RunPass | cmd/tsbench/xbow.go:199-253 | One pass moves the runner from one sound state between passes to the next, carrying the same results |
| XbowSession.Runner.Run | cmd/tsbench/xbow.go:166-262 | Whatever writes fail, a whole session attempts its log and reports the fold of carried results and log; without --resume or a readable checkpoint nothing is carried, and with one, each benchmark's last solved, or else last non-errored, checkpointed result is in the report. The ledger gains the appended attempts and the checkpoint is what the last surviving write left |
| XbowSession.FreshWinner | cmd/tsbench/xbow.go:188-256 | An uncarried benchmark's scoreboard entry is its first solving attempt, or else its last one |
| XbowSession.CarriedWinner | cmd/tsbench/xbow.go:201-203 | A carried benchmark's entry is what the checkpoint said, on every pass |
| XbowSession.HoldoutNeverAttempted | cmd/tsbench/xbow.go:199-226 | No pass of any session attempts a reserved benchmark, whatever --only names |
| XbowHistory.StepKeepsLedgerAhead | cmd/tsbench/xbow.go:235-252 | Every step of every session, crashes and lost or cut writes included, keeps the ledger ahead of memory and disk |
| XbowHistory.LedgerIsAhead | cmd/tsbench/xbow.go:236-252 | In every reachable world, when appends succeed, the ledger contains every checkpointed result with multiplicity |
| XbowHistory.LedgerLeadsByOne | cmd/tsbench/xbow.go:235-252 | With durable writes, throughout a session the ledger leads the checkpoint by at most one attempt |
| XbowHistory.SolveStays | cmd/tsbench/xbow.go:166-256 | A solve in the checkpoint is never lost over any history of resuming sessions, wherever they crash and whatever rewrites are lost, as long as none is cut short |
| XbowHistory.HistoryStaysHonest | cmd/tsbench/xbow.go:166-256 | Over every crash and resume history, checkpoints hold only attempts the plan could have made and sessions carry only non-errored ones |
| XbowHistory.Complete | cmd/tsbench/xbow.go:198-262 | A session started in any world can be driven to completion |
| XbowHistory.CompletedAgreesWithClean | cmd/tsbench/xbow.go:166-256 | If only infrastructure errors are ever retried, a completed session after any history reports what an uninterrupted run reports |
| XbowHistory.NotTransparent | cmd/tsbench/xbow.go:170-203 | If a non-errored, non-final attempt exists, a crash after its pass and a resume report another record |
| XbowHistory.ResumeIsTransparentIff | cmd/tsbench/xbow.go:166-256 | Every history ends with the uninterrupted run's whole records, pass stamps included, exactly when every non-final attempt is an infrastructure error |
| XbowHistory.TransparentForAllOutcomesIff | cmd/tsbench/xbow.go:58-58 | For all outcomes, that holds exactly when --attempts is 1 |
| XbowHistory.SolveIsLost | cmd/tsbench/xbow.go:170-203 | A miss on one pass and a solve on a later one: the uninterrupted run counts the solve, and a crash between them with a resume does not |
| XbowHistory.FlagsTransparentIff | cmd/tsbench/xbow.go:166-256 | Every history counts the same benchmarks as solved as the uninterrupted run exactly when no benchmark that the passes solve was graded a miss before |
| XbowHistory.MissThenSolveIsLost | cmd/tsbench/xbow.go:215-217 | With two or more passes, the outcomes miss, solve are a failing input for every planned benchmark |
| XbowHistory.FlagsTransparentForAllOutcomesIff | cmd/tsbench/xbow.go:58-58 | No solve can be lost, for all outcomes, exactly when --attempts is 1 |
| CodeReviewRun.Runner.Resume | cmd/tsbench/codereview.go:184-200 | A readable file of the same tool and model becomes the state as it is; from any other file the run starts from nothing |
| CodeReviewRun.Runner.Complete | cmd/tsbench/codereview.go:234-263 | A completed case gets its locations and its distinct planned paths in order, loses its error, and is on disk |
| CodeReviewRun.Runner.Run | cmd/tsbench/codereview.go:213-269 | A session reviews the wanted cases not yet run, in order, and leaves the file equal to memory. For every sweep, each case that a file of the same tool and model records as run keeps its predictions, paths and run mark; with any other file the result is that of a run from nothing |
| CodeReviewRun.OnlyWantedAreReviewed | cmd/tsbench/codereview.go:213-266 | Each case that --only admits has afterwards run or has the reason why not; every other one is untouched |
| CodeReviewRun.FinishedIsNeverLost | cmd/tsbench/codereview.go:184-269 | Over any crashed, failed or completed sessions, with any --only and any review answers, a case recorded as run stays so, with the same predictions and paths, unless a rewrite is cut short |
| CodeReviewRun.FinishedWorkIsSaved | cmd/tsbench/codereview.go:234-269 | At every step of every history, all that the session in progress has finished is in the file on disk |
| CodeReviewRun.UninterruptedIsFull | cmd/tsbench/codereview.go:213-266 | An uninterrupted run yields the order-free result: every wanted case, with its review or its error |
| CodeReviewRun.CoveredIsFull | cmd/tsbench/codereview.go:180-266 | Predictions that agree with the review function and cover the corpus are that result |
| CodeReviewRun.RanAndErrorsStayDisjoint | cmd/tsbench/codereview.go:217-266 | For every review behaviour, and over every run, no case is both run and reported as not run, in memory or on disk |
| CodeReviewRun.CrashSafety | cmd/tsbench/codereview.go:184-269 | After any crashed, failed and cut-short sessions, each wanting at least what the one before wanted, a completed session has the four maps of one uninterrupted run with its own --only |
| TwinPairing.Triangle | scripts/bountybench_to_cvepatch.py:171-181 | One minus the overlap obeys the triangle inequality, with the max(1, ...) convention for two empty files |
| TwinPairing.OneLineCounts | scripts/bountybench_to_cvepatch.py:171-181 | A line counts without its indentation and trailing space, and a blank line not at all |
| TwinPairing.LinesUnite | scripts/bountybench_to_cvepatch.py:171-181 | The lines of a concatenation are those of its parts, so order and repetition do not count |
| TwinPairing.OverlapExtremes | scripts/bountybench_to_cvepatch.py:171-181 | The overlap is symmetric and between 0 and 1; it is 1 exactly for equal, non-empty line sets and 0 exactly for disjoint ones |
| TwinPairing.BestTwin | scripts/bountybench_to_cvepatch.py:208-220 | The walk settles on the earliest of the readable candidates that none beats on (overlap, shorter path), with its overlap as confidence |
| TwinPairing.ChoiceMeans | scripts/bountybench_to_cvepatch.py:206-219 | In terms of the files: no readable candidate overlaps more, none of equal overlap has a shorter path, and none equal in both is met earlier |
| TwinPairing.ChoiceIsUnique | scripts/bountybench_to_cvepatch.py:208-220 | For one walk there is only one such candidate |
| TwinPairing.TwinSeparation | scripts/bountybench_to_cvepatch.py:184-206 | A twin within eps of the fixed file, with every other candidate more than 2 eps from the twin, is chosen wherever it is met |
| TwinPairing.SeparationIsTight | scripts/bountybench_to_cvepatch.py:203-219 | At a distance of exactly 2 eps the twin can lose |
| TwinPairing.OrderFreeIff | scripts/bountybench_to_cvepatch.py:206-219 | Every walk order chooses the same file exactly when no two candidates share the greatest (overlap, path length) |
| TwinPairing.TiedTwinsDependOnOrder | scripts/bountybench_to_cvepatch.py:206-219 | Two copies of a file at equal depth: two walk orders choose different ones |
| PatchAnchors.AnchorsBetween | scripts/bountybench_to_cvepatch.py:266-279 | The loop returns the first forty of the distinct long lines absent from the fixed file, in order |
| PatchAnchors.LostMember | scripts/bountybench_to_cvepatch.py:266-279 | A text is among those lines exactly if it has twelve characters, some vulnerable line strips to it, and no fixed line does |
| PatchAnchors.StripSurrounded | scripts/bountybench_to_cvepatch.py:266-279 | Stripping removes exactly the white space around a text |
| PatchAnchors.BetweenIs | scripts/bountybench_to_cvepatch.py:266-279 | For any edit script, those are the distinct removed lines that are gone from the fixed file |
| PatchAnchors.ScriptExists | scripts/bountybench_to_cvepatch.py:266-279 | Any two files are related by an edit script, so the row above is about every pair of files |
| PatchAnchors.GoldAnchors | scripts/cvebench_to_cvepatch.py:110-133 | The line loop computes the scanned anchors of every kept path |
| PatchAnchors.DiffAnchors | scripts/cvebench_to_cvepatch.py:110-133 | From the diff of a whole commit, each kept file gets exactly its own long removed lines, once each, in order |
| PatchAnchors.ExtractorsAgree | scripts/cvebench_to_cvepatch.py:110-133 | For any edit script and context, the whole-file anchors equal, as a sequence, the diff anchors absent from the fixed file, if no removed line starts with two dashes |
| PatchAnchors.SameAnchorsIff | scripts/cvebench_to_cvepatch.py:126-127 | Without that proviso, both find the same anchors exactly when every dashed removal that is gone is also removed in an undashed form |
| PatchAnchors.SqlCommentIsMissed | scripts/cvebench_to_cvepatch.py:126-127 | A removed flush-left SQL comment is an anchor for one reader and invisible to the other |
| PatchAnchors.GoldFiles | scripts/cvebench_to_cvepatch.py:90-102 | The named paths are split into distinct source files in order and dropped test or document paths |
| PatchAnchors.SortedOutInPieces | scripts/cvebench_to_cvepatch.py:90-102 | Kept and dropped paths both keep the order in which the diff names them |
| PatchAnchors.KeptOrDropped | scripts/cvebench_to_cvepatch.py:90-102 | Every named path is kept or dropped, as often as it is named |
| PatchAnchors.DroppedMember | scripts/cvebench_to_cvepatch.py:90-102 | Dropped are exactly the named paths that are not sources |
| PatchAnchors.NotSource | scripts/cvebench_to_cvepatch.py:63-88 | Not a source, in any letter case: a path with a test marker anywhere in it, with a document's extension, or with a changelog-like file name in any directory and with any extension |
| PatchAnchors.DiffNamesItsFiles | scripts/cvebench_to_cvepatch.py:93-94 | No line of a hunk is mistaken for a file header: a diff names exactly the files it is made of |
| PatchAnchors.CommitAnchors | scripts/cvebench_to_cvepatch.py:63-133 | With the fix's own source files kept, each source file gets its own anchors and no test or document gets any |
| EngineerAutopsy.AdaptCloudEngine | scripts/engineer_autopsy.py:118-144 | Which run gets which category, in both directions: hallucinated exactly if anything was invented or the run was disqualified, an operator state exactly if the note shows one, a capability outcome exactly for a gradeable run, and among those solved, unverified, partial or no lift by recall, verified rate and lift |
| EngineerAutopsy.AdaptDefense | scripts/engineer_autopsy.py:147-170 | Which run gets which category, in both directions: an operator state exactly if nothing was invented and the note shows it, and never a capability outcome; a pass is solved, and a failure is partial recall, an unverified fix or no lift by what was found and captured |
| EngineerAutopsy.AdaptDefenseXbow | scripts/engineer_autopsy.py:173-202 | Which verdict gets which category, in both directions: a bare no-patch is charged only if the note shows no operator state |
| EngineerAutopsy.AdaptCvePatch | scripts/engineer_autopsy.py:205-227 | Which result gets which category, in both directions: a failed entry is a refusal, a misconfiguration or excluded by its error text and never a capability outcome, and a produced but unjudged patch is neither a pass nor a failure |
| EngineerAutopsy.EverBest | scripts/engineer_autopsy.py:345-350 | The loop keeps each key's best case and counts its attempts |
| EngineerAutopsy.BestIsFirstOfHighestTier | scripts/engineer_autopsy.py:339-350 | The kept case has the highest tier of its key and is the first to reach it |
| EngineerAutopsy.StrongerIsShown | scripts/engineer_autopsy.py:341-350 | Of two runs of a case, the one whose category stands in the stronger of the six groups is shown, whichever came first; of two in one group, the first |
| EngineerAutopsy.BestReflectsAny | scripts/engineer_autopsy.py:339-350 | A key counts as solved, or as evaluated, exactly when some case of it is: no dead run masks a real one |
| EngineerAutopsy.RollUp | scripts/engineer_autopsy.py:366-377 | The loop over the sorted cases leaves, for exactly the benchmarks with a case, the sizes of their solved, missed, evaluated and whole sets, and for exactly the categories with a failure, their failures in key order |
| EngineerAutopsy.FailuresRead | scripts/engineer_autopsy.py:366-377 | A category's failures are listed by benchmark and then by case, in character order |
| EngineerAutopsy.CountsAreReport | scripts/engineer_autopsy.py:370-377 | Counting over any listing of the cases comes to those sizes |
| EngineerAutopsy.Totals | scripts/engineer_autopsy.py:405-408 | The totals over all cases are the same sizes without a benchmark |
| EngineerAutopsy.SolvedOrMissed | scripts/engineer_autopsy.py:371-373 | Per benchmark and overall: solved plus missed is the number of cases |
| EngineerAutopsy.CountsNeverFall | scripts/engineer_autopsy.py:345-409 | Adding cases never lowers solved, evaluated or total, overall or for a benchmark |
| EngineerAutopsy.OrderFree | scripts/engineer_autopsy.py:333-350 | The numbers are the same for every order, and every repetition, of the same cases |
| EngineerAutopsy.TiedCategoryDependsOnOrder | scripts/engineer_autopsy.py:341-350 | The category shown for tied cases is not |
| EngineerAutopsy.HallucinationShownIffAlways | scripts/engineer_autopsy.py:341-350 | A case is shown as hallucinated exactly when all its runs are |
| EngineerAutopsy.HallucinationHidden | scripts/engineer_autopsy.py:341-350 | One invented run and one refused run: the case is shown as refused |
| EngineerAutopsy.SolvedWithinEvaluated | scripts/engineer_autopsy.py:372-386 | Per benchmark and overall: solved <= evaluated <= total |
| EngineerAutopsy.TotalsAddUp | scripts/engineer_autopsy.py:369-408 | The per-benchmark totals sum to the number of distinct cases |
| EngineerAutopsy.AttemptsAddUp | scripts/engineer_autopsy.py:345-348 | The attempt counts sum to the number of cases read |
| AgentEvents.Observe | internal/adrsensor/adrsensor.go:144-164 | One more event updates an installation's record to what all its events say |
| AgentEvents.First | internal/adrsensor/adrsensor.go:133-164 | An installation's first event creates the record that it alone describes |
| AgentEvents.Aggregate | internal/adrsensor/adrsensor.go:126-165 | The loop holds, for exactly the installations met, what that installation's own events say; the next four rows say in event fields what that is |
| AgentEvents.InstallationOf | internal/adrsensor/adrsensor.go:129-133 | Two events belong to one installation exactly when source, host and effective user agree: the user name, or the user id where the name is empty |
| AgentEvents.SessionMember | internal/adrsensor/adrsensor.go:151-154 | A session is counted exactly if some event of the installation has its non-empty id |
| AgentEvents.ServerMember | internal/adrsensor/adrsensor.go:155-164 | A server is listed exactly if some usage of the MCP kind names it |
| AgentEvents.UsesAreCounted | internal/adrsensor/adrsensor.go:155-164 | A tool's count is the number of usages naming it |
| AgentEvents.AggregateIsUnique | internal/adrsensor/adrsensor.go:126-165 | What the loop holds is determined by the events |
| AgentEvents.ExportsCombine | internal/adrsensor/adrsensor.go:126-165 | For concatenated exports, installations, sessions and servers unite, tool counts add and LastSeen is the later one |
| AgentEvents.OrderIrrelevant | internal/adrsensor/adrsensor.go:126-165 | Those facts are the same for every permutation of the events |
| AgentEvents.ModelIsLastRecord | internal/adrsensor/adrsensor.go:144-151 | The model is that of the last naming event that was at least as new as everything before it, or else the first event's |
| AgentEvents.NewestEventReportedIff | internal/adrsensor/adrsensor.go:144-151 | The model is taken from the newest event naming one exactly when no earlier event without a model is newer |
| AgentEvents.NewestModelReportedIff | internal/adrsensor/adrsensor.go:144-151 | The newest model named is reported exactly when that holds, or the last naming event before it that was newest when it came names the same model |
| AgentEvents.NewestModelIsHidden | internal/adrsensor/adrsensor.go:144-151 | Three events of one installation for which an older model is reported |
| AgentEvents.AllNamed | internal/adrsensor/adrsensor.go:144-151 | If every event names a model, it is that of the last event with the greatest timestamp |
| AgentEvents.InTimeOrder | internal/adrsensor/adrsensor.go:144-151 | If the events come in time order, it is the last model named |
| AgentSnapshot.Finish | internal/adrsensor/adrsensor.go:168-193 | An installation's record lists its servers by name and its tools by count and name, without repetition |
| AgentSnapshot.AgentIsDetermined | internal/adrsensor/adrsensor.go:171-191 | Map iteration order cannot show in it |
| AgentSnapshot.ToSnapshot | internal/adrsensor/adrsensor.go:119-207 | The result is the records of all installations, in some iteration order, sorted by name, user and host |
| AgentSnapshot.AgentsAreInstallations | internal/adrsensor/adrsensor.go:111-193 | In event fields: every event has an agent with its host and its user name, or user id where that is empty, and every agent is that of some event; its sessions, servers, tool counts and time are those of exactly the events with the same source, host and effective user |
| AgentSnapshot.ListsRead | internal/adrsensor/adrsensor.go:181-205 | Servers come in name order, tools from the most used down and then by name, agents by name, user and host |
| AgentEvents.NamesShown | internal/adrsensor/adrsensor.go:209-215 | The six known sources are shown under their names in any case and spacing, any other under its own |
| AgentSnapshot.DeterminedIff | internal/adrsensor/adrsensor.go:195-205 | It is the same for every iteration order and tie order exactly when installations shown under one label have equal records |
| AgentSnapshot.SnapshotIsFunctionIff | internal/adrsensor/adrsensor.go:119-207 | So the same export always produces the same snapshot exactly under that condition |
| AgentSnapshot.DistinctNamesDetermine | internal/adrsensor/adrsensor.go:195-215 | In particular when agentName merges no two sources of one user and host |
| AgentSnapshot.MergedSourcesAreNotDetermined | internal/adrsensor/adrsensor.go:209-215 | With the sources claude and CLAUDE, it is not |
| AgentSnapshot.ToolCountsAreConserved | internal/adrsensor/adrsensor.go:155-193 | The tool counts of all records sum to the number of usages that name a tool |
| AssessPool.StepKeepsInv | cmd/tsengine/assess.go:58-78 | Every step of any goroutine keeps the rows, the semaphore and the wait group equal to what the phases say |
| AssessPool.BoundedConcurrency | cmd/tsengine/assess.go:60-66 | Under every interleaving at most the number of domains that --concurrency asks for, or one if it is less than one, is in progress |
| AssessPool.ReturnedIsComplete | cmd/tsengine/assess.go:61-78 | When Wait has returned, row i holds domain i with exactly one of its report and its error, and the semaphore is empty |
| AssessPool.NoDeadlock | cmd/tsengine/assess.go:61-78 | Until Wait returns, some step is possible |
| AssessPool.StepDecreases | cmd/tsengine/assess.go:61-78 | Every step lowers the number of steps left by one |
| AssessPool.AlwaysReturns | cmd/tsengine/assess.go:61-78 | An interleaving has returned exactly when it is six steps per domain plus two long, is never longer, and never stuck before |
| AssessPool.RowsAsIfSerial | cmd/tsengine/assess.go:58-78 | With a deterministic check, the rows are those of a plain loop, whatever the interleaving |
| AssessPool.SortTable | cmd/tsengine/assess.go:87-93 | Sorting the slice in place leaves a stable permutation ordered by the comparison |
| AssessPool.CallSheet | cmd/tsengine/assess.go:85-93 | The table has every row once, failed checks on top and then the lowest scores first |
| AssessPool.EqualRowsKeepTheirOrder | cmd/tsengine/assess.go:87-93 | Rows that compare equal stay in the order of the domains |
| AssessPool.StableSortIsUnique | cmd/tsengine/assess.go:87-93 | There is only one such table, so any correct stable sort prints it |
| DispatchBudget.BudgetBound | cmd/tool-server/main.go:103-131 | With at most K handlers between check and count, every reachable count is at most B + K - 1, and at most B for K = 1 |
| DispatchBudget.BudgetBoundIsTight | cmd/tool-server/main.go:121-130 | For every B and K some interleaving reaches B + K - 1 |
| DispatchBudget.BudgetHoldsIff | cmd/tool-server/main.go:121-130 | Under any policy that would serve some request, the counter stays within the budget on every run exactly when K is 1 |
| DispatchBudget.SerialUseSpendsTheBudget | cmd/tool-server/main.go:121-130 | Requests served one at a time are dispatched until the budget is spent and never after |
| DispatchBudget.OnlyPermittedIsDispatched | cmd/tool-server/main.go:119-130 | Over every run, the counter equals the dispatches, each of a known tool that the policy allowed at its check |
| DispatchBudget.DispatchedInScope | internal/execpolicy/execpolicy.go:62-86 | Over every run, no dispatch is past the expiry, of an unlisted tool, beyond the budget as its check saw it, or at a host that no listed name equals up to case and surrounding space |
| DispatchBudget.ServedIff | cmd/tool-server/main.go:119-130 | A request at a free handler is dispatched and counted once exactly when its tool is named and known and neither expiry, tool list, budget nor a host refuses it; otherwise nothing changes |
| DispatchBudget.UnservedRequestsCostNothing | cmd/tool-server/main.go:121-129 | Any overlapping run of refused requests and unknown tools leaves the counter and the dispatches alone |
| ReplyParser.SplitIds | cmd/tsbench/impact.go:145-153 | The loop collects the trimmed, non-empty fields between commas, spaces and semicolons |
| ReplyParser.IdsSplitAt | cmd/tsbench/impact.go:145-153 | On any text, the ids are those left of any separator followed by those right of it |
| ReplyParser.IdsOfRun | cmd/tsbench/impact.go:145-153 | Text without separators is one trimmed id, or none if blank; with the row above this fixes the ids of every text |
| ReplyParser.ParseDiscovery | cmd/tsbench/discover.go:149-163 | The picks are the ids of all HIGH_IMPACT lines, in order, without the no-picks markers |
| ReplyParser.SentinelIff | cmd/tsbench/discover.go:164-172 | The dropped markers are exactly the six words in any letter case, between any brackets and dots |
| ReplyParser.PicksInPieces | cmd/tsbench/discover.go:152-158 | Markers are passed over wherever they stand, and the other ids keep their order |
| ReplyParser.ParseAssessment | cmd/tsbench/impact.go:121-143 | The ranking keeps the known ids of all RANKING lines, the crowns every id of the other CROWN lines |
| ReplyParser.LineReadsBack | cmd/tsbench/impact.go:127-153 | A rendered line, its tag in any letter case, carries that tag and exactly its ids, the empty list included |
| ReplyParser.DiscoveryRoundTrip | cmd/tsbench/discover.go:145-172 | A reply with the rendered line among unrelated ones parses to exactly its ids if none is a marker, and to no picks if all are |
| ReplyParser.AssessmentRoundTrip | cmd/tsbench/impact.go:113-153 | From a reply with both rendered lines, in either order and any letter case, among unrelated ones: a ranking of known ids is read back exactly as written, unknown ids anywhere in it change nothing, and the crowns are all ids of the CROWN line |
| ReplyParser.RankingInPieces | cmd/tsbench/impact.go:127-132 | A ranking line cut anywhere into two reads the same: the ids of the first line and then those of the second |

## Left out

- ExtractorsAgree: is about the list before the forty-anchor cap; `AnchorsBetween` is proved to return a prefix of that list, so the capped results agree only up to that prefix.
- RollUp: leaves out the ordering of the failure categories by how many benchmarks they span, and the labels printed with them.
- Aggregate: a result's level and tags are looked up by its benchmark id, where the source copies them into the result; the solve rate is left as the pair it is computed from.
- SortTable: is an in-place insertion sort where Go's library merges blocks in place; `StableSortIsUnique` makes the table the same.
- Finish: sorts lists as values where `sort.Slice` permutes in place; the result is unique, so the permutation steps would add nothing.
- SameAnchorsIff: compares the anchors as sets, because the sequences can also differ in the order of first occurrence.
- ResumeIsTransparentIff: the outcome of an attempt depends on the benchmark and the attempt's number within its session, the same in every session; an agent that answers differently after a resume is not compared.
- The runner lemmas assume distinct benchmark ids. The suite loader does not enforce them; the folds and the parsers are proved without that.
- CrashSafety: a session that wants less than an earlier one still carries the earlier cases in its file; what it leaves is then not compared with a run of its own.
- The runner's `--out` and `--ledger` are taken as given; disabling them removes the checkpoint or the ledger from the model's steps. Ledger lines are appended whole or not at all.
- In `XbowHistory` only the checkpoint's results list is state: the scoreboard and Markdown files beside it are derived from it and never read back.
- Text is ASCII. Unicode space, case mapping and Python's extra line terminators are not modelled, and the converters and autopsy scripts start from lines.
- Floating point: overlaps and rates are exact; rounding of a quotient could tie two overlaps that differ.
- JSON decoding, malformed-line accounting of the telemetry export, durations, timestamps of ledger entries and cost figures.
- How a candidate's evidence text becomes a location, and how a case is checked out and swept: a case's review is a parameter.
- The free-text classification of notes and misses: only the operator state or category it yields enters.
- Commit-state and re-export-shim checks of the converter, Docker, git, HTTP, rendering and console output.
- How hosts are extracted from tool arguments: a request carries its hosts.
