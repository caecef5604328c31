# Verification model of the adaptive-learning service

A Dafny 4.11 model of the stateful protocols and loop-heavy algorithms of the service, with proofs
of what they promise. `dafny verify dfyconfig.toml` checks all of it.

## What is modelled

**Adaptive sessions.** One durable row per session holds an aggregate: the screen shown, the private
quiz, the last report, the submit in progress and the receipts of settled submits. `AdaptiveModels`
states the validator every write must pass, `SubmitPipeline` the stages of a submit (bind the input,
bind the answers, grade, write the memory marker, read the mastery, decide, finish the turn), and
`SubmitSoundness` that each stage keeps the validator, `SubmitOutcome` what a settled turn shows and
records. `SessionStore` is the table with its claims, leases, revisions and capacity, `SubmitWorkers`
the worker that drives the stages against it. In `SubmitProtocol` any number of workers run at once;
database calls are sent and land separately, may land after their worker was cancelled, may lose their
acknowledgement, and each transaction reads an arbitrary clock. `SubmitRuns` and `ConcurrentRuns` are
about whole histories.

**Knowledge bases.** `KnowledgeRepository` holds the rows and transactions of the job protocol,
`KnowledgeProtocol` the service process around them: requests, one worker, an external index that is
a set of version ids and may be left in any state by a call that fails, crashes, recovery, drift of
the index configuration, retries and purging. `KnowledgeLifecycle` counts jobs and epochs,
`KnowledgeIndex` relates rows and index under one job, `IndexRuns` in whole runs, and `KnowledgeWorker` holds
the worker's loops.

**Graph corrections.** `EntityMerge` is the in-place rewrite of relations when entities merge, with
renaming and deletion; `GraphRuns` follows references through every sequence of corrections.

**Algorithms.** `InstanceCache` and `InstancePool` (reference-counted cache of SDK instances),
`Chunker` and `ChunkPacking` (document splitting), `SourceBlocks` (bounded view of a stored source),
`PurgeSweep` (removing files of deleted documents), `PublicTrajectory` and `ReplayContract` (publishing
a grounded answer and checking it again on replay).

## How the outside world enters

Grading results, memory writes, mastery, model decisions and generated content are arbitrary values
handed to a stage; what the code does not check is stated as a condition of the result. Hashes are
the hashed values themselves, claim tokens and new ids are fresh, scores are reals rounded half to
even in hundredths. Clock readings are arbitrary per transaction and need not grow. Message texts and
length limits of single fields are left out; the limits on counts are kept (10 answers, 16 receipts,
100 weak points, 5 turns, 100 blocks, 16 KiB of metadata, pages of 100 files, 240-character snippets).

## What the proofs found

- A decided turn whose report holds a knowledge gap with surrounding whitespace can never be
  completed: the shown gaps are stripped, then compared with the recorded ones as they are, and every
  retry meets the same durable report. `StuckIffUntrimmedGap` gives the exact condition,
  `UntrimmedGapIsReachable` a run that gets there.
- No decision can be checkpointed exactly while no mastery is on record, which a first lesson may leave so
  (`UndecidableIffNoMastery`, `LessonWithoutMasteryIsReachable`), and a graded turn can never record its score
  exactly when its report exposes a blank gap (`UnscorableIffBlankGap`, `BlankGapIsReachable`).
- The validator alone is not inductive; `LoopInv` states what every reachable aggregate keeps besides.
- If the acknowledgement of a finished job is lost, the worker fails that job after it has released the
  base, whatever the base is doing by then. A base is updating if and only if it has exactly one live job
  exactly as long as no such late failure strikes an updating base (`UpdatingMeansOneLiveJob`); one that does
  leaves a queued job behind (`LostAckLeavesAQueuedJob`, reachable by `LostAckIsReachable`), and from there a
  rebuild may empty the index of a ready base without its epoch changing, so that only the in-process lock
  protects a query (`LostAckDefeatsTheEpochCheck`). The epoch law counts late failures and always holds; the
  epoch check and the agreement of index and rows hold until the first strike. Until then a
  late failure of the deletion itself is the one thing that brings back a base on its way out
  (`DeletionIsFinal`).
- Executing and settling a job brings rows and index into agreement exactly when they agree already apart
  from what it writes, whatever state the base is in (`ReplayAgreesIff`). So a job cut short between its
  direct calls can be retried as it is (`CutShortCanBeReplayed`), a job from before keeps a base in agreement
  exactly when no later version became current (`ReplayAgreesIffNotOvertaken`), and a reuse exactly when the
  version it found is still the current one (`ReuseAgreesIffCurrent`), which its revision check ensures when
  it is submitted at a revision no later than its lookup (`ReuseFindsCurrent`).
- The deletion of a document without a current version opens a job that names no version and can never be
  settled. On a base in agreement there is no such document (`SettingUpPrepares`).
- An entity cannot be renamed to the name of an entity merged into it, although the alias check
  passes: the merged row still holds the name (`MergedNamesStayTaken`).
- A published answer is refused on replay exactly when one of its citations shows only blanks, which
  the cut at 240 characters may leave (`PublishedReplays`, `BlankSnippetIsPossible`).

## Model

| member | source | states |
|---|---|---|
| Text.StripFacts | services/chunker.py:177-183 | stripping empties exactly the blank texts, and a second time changes nothing |
| Text.NonSpaceStrip | services/chunker.py:177-183 | stripping loses no character that is not whitespace |
| Text.StripIsInner | services/chunker.py:177-183 | stripping takes the blanks off both ends and nothing else |
| AdaptiveModels.RoundedShareInUnit | models/adaptive_session.py:440-451 | the rounded share of correct answers lies in the unit interval |
| AdaptiveModels.RoundedShareIsNearest | models/adaptive_session.py:440-451 | the score is the share of correct answers to the nearest hundredth, half to even, 1 if all are correct and 0 if none is |
| AdaptiveModels.CorrectOnesAreCounted | models/adaptive_session.py:440-451 | the count is the number of places with a correct grade |
| AdaptiveModels.ReportCountsItsGrades | models/adaptive_session.py:440-451 | a report the validator passes counts its own correct grades and scores their share |
| AdaptiveModels.GapsAreThoseOfWrongAnswers | routers/adaptive.py:386-394 | the gaps shown are those of the wrong answers that name one, in the order of the questions |
| AdaptiveModels.ViewsHideAnswers | routers/adaptive.py:357-366 | what the learner sees of a question does not depend on its answer, and is its number, text, options and kind |
| AdaptiveModels.StoredContentIsBounded | models/adaptive_session.py:62-439 | what every stored aggregate is bound to: decisions within their ranges, usable questions, stripped answers and lessons, bounded lists |
| AdaptiveLoop.Normalize | services/adaptive_loop.py:78-96 | overwriting the fields one by one gives the cleaned-up decision |
| AdaptiveLoop.NormalizingRepairs | services/adaptive_loop.py:78-96 | a usable decision is kept as it is, and every unusable field gets its own default |
| AdaptiveLoop.DecisionAcceptedIff | services/adaptive_loop.py:78-178 | whatever the model proposes, the decision passes the validator exactly when the weak points it carries do |
| AdaptiveLoop.NoTeachWhenForbidden | services/adaptive_loop.py:78-178 | a lesson is never decided right after a lesson |
| AdaptiveLoop.FallbackFollowsScore | services/adaptive_loop.py:99-117 | without a proposal: consolidate at the start, go back below one half with at most three weak points, go on otherwise |
| AdaptiveLoop.TerminationThresholds | services/adaptive_loop.py:181-191 | a session goes on exactly before its fifth turn, below a mastery of 0.85 and unless the agent finishes it; which reason is named first |
| SubmitSoundness.StageAccepted | models/adaptive_session.py:453-608 | from any sound aggregate a stage passes the validator exactly when the outside world answered acceptably, and is sound again |
| SubmitSoundness.OpeningAccepted | routers/adaptive.py:683-789 | a session opens validly exactly when mastery, decision and content are usable |
| SubmitSoundness.BindInputSound | routers/adaptive.py:907-937 | binding a submit keeps the aggregate sound |
| SubmitSoundness.BindAnswersSound | routers/adaptive.py:940-953 | binding the answers keeps it sound |
| SubmitSoundness.CacheGradesSound | routers/adaptive.py:956-977 | caching any well-formed grades keeps it sound |
| SubmitSoundness.PublishReportSound | routers/adaptive.py:956-977 | the report of the cached grades keeps it sound: one grade for each question with the answer given, the correct ones counted, the score their share |
| SubmitSoundness.CommitMemorySound | routers/adaptive.py:980-1029 | the memory marker keeps it sound |
| SubmitSoundness.ReadMasterySound | routers/adaptive.py:1032-1057 | the mastery checkpoint passes exactly when mastery is a proportion and no exposed gap is blank |
| SubmitSoundness.DecideSound | routers/adaptive.py:1058-1070 | the decision checkpoint passes exactly when a mastery is recorded and the decision is well formed |
| SubmitSoundness.FinishTurnSound | routers/adaptive.py:1073-1217 | the completing write passes exactly when the new content is usable and every recorded gap is stripped |
| SubmitSoundness.ProjectionExactIff | models/adaptive_session.py:498-531 | a shown report is acceptable and exact if and only if its gaps are stripped |
| SubmitSoundness.StrippedGaps | models/adaptive_session.py:175-186 | stripping leaves a list of gaps alone exactly when each is clean |
| SubmitLimits.StuckIffUntrimmedGap | routers/adaptive.py:1073-1217 | no content lets a decided turn complete exactly when its report holds an unstripped gap |
| SubmitLimits.UntrimmedGapIsReachable | models/adaptive_session.py:498-531 | a run from a fresh session to such a turn |
| SubmitLimits.UnscorableIffBlankGap | routers/adaptive.py:1044-1057 | no mastery lets a graded turn record its score exactly when its report exposes a blank gap |
| SubmitLimits.BlankGapIsReachable | routers/adaptive.py:386-394 | a run from a fresh session to such a turn |
| SubmitLimits.UndecidableIffNoMastery | models/adaptive_session.py:301-307 | no decision can be checkpointed exactly while no mastery is on record |
| SubmitLimits.LessonWithoutMasteryIsReachable | routers/adaptive.py:1044-1046 | a run from a fresh lesson to such a turn |
| SubmitRuns.SessionsAreBounded | services/adaptive_loop.py:181-191 | a session ends within MAX_TURNS settled submits, whatever is decided |
| SubmitRuns.OneSubmitPerTurn | routers/adaptive.py:1195-1217 | two settled submits never belong to the same turn |
| SubmitRuns.SessionShape | models/adaptive_session.py:194-259 | turns are numbered 1..n, lessons never follow each other, the reason matches the final action |
| SubmitRuns.PendingTurnIsKept | routers/adaptive.py:907-1070 | while a turn is pending its answers, grades, report, memory marker and decision never change |
| SubmitRuns.ShownAnswersAreTheFirstAccepted | routers/adaptive.py:883-953 | the graded and shown answers are those of the first accepted submit |
| SubmitRuns.ReceiptsAreKept | models/adaptive_session.py:592-607 | receipts are never removed or overwritten |
| SubmitRuns.SettledKeysReplay | routers/adaptive.py:868-880 | a settled key replays its first response for ever, is refused with another payload and settles nothing again |
| SubmitRuns.DoneIsFinal | routers/adaptive.py:883-904 | a finished session accepts no stage |
| SubmitOutcome.SettledTurnsAreRecorded | routers/adaptive.py:1032-1057 | in any run, once a quiz turn is settled its entry in the history holds for ever the share of correct answers, the mastery read then and the gaps exposed |
| SubmitOutcome.SettledScreen | routers/adaptive.py:1073-1157 | settling closes the session or opens the next turn, exactly by decision, mastery and turn, and names the reason; the history gains one entry or none |
| SubmitOutcome.SettledContent | routers/adaptive.py:420-459 | the next screen shows the lesson or the questions as generated, without answers, and the last report answer by answer |
| SubmitOutcome.OpeningScreen | routers/adaptive.py:683-789 | a session opens by the same rules before anything was answered |
| SubmitOutcome.StageRecords | routers/adaptive.py:907-1057 | what each earlier stage records, and that it leaves the rest alone |
| SubmitOutcome.DecisionStands | routers/adaptive.py:1058-1070 | a usable proposal is decided as it is, only a second lesson in a row is replaced; without one the last score decides |
| SessionStore.AdaptiveStore.MakeCapacity | services/adaptive_sessions.py:904-937 | expired unclaimed rows go, then exactly as many of the oldest done unclaimed rows as needed, or nothing |
| SessionStore.OldestOf | services/adaptive_sessions.py:911-930 | the first candidate by last update and id |
| SessionStore.KeptRows | services/adaptive_sessions.py:904-937 | no running or claimed session is evicted and one more row fits |
| SessionStore.EvictionIsFair | services/adaptive_sessions.py:904-937 | exactly the expired unclaimed sessions go at once; of the others only finished unclaimed ones, only as many as one row needs, those longest untouched first |
| SessionStore.NoRoomMeaning | services/adaptive_sessions.py:904-937 | capacity is refused exactly when fewer sessions may go than would have to |
| SessionStore.LexMeaning | services/adaptive_sessions.py:911-930 | ids are ordered by the first place where they differ, a prefix before what it begins |
| SessionStore.AdaptiveStore.Insert | services/adaptive_sessions.py:671-704 | the new row joins what capacity left, at revision 1 and free for one lifetime, and start keys stay unique; or capacity is refused, exactly when too few rows may go |
| SessionStore.AdaptiveStore.Create | services/adaptive_sessions.py:646-704 | the same key and request return the row they made, the key with another request is refused, a taken id and a full table are told apart, each exactly then; capacity is never exceeded and a new session is free for one lifetime |
| SessionStore.AdaptiveStore.Claim | services/adaptive_sessions.py:730-784 | a claim is granted exactly on a live, active, unclaimed row and holds it for one lease from that clock reading: nobody else claims it, exactly the holder's writes at this revision land, and afterwards it may be claimed again while it lives; every refusal names its reason exactly |
| SessionStore.AdaptiveStore.Write | services/adaptive_sessions.py:786-881 | a write lands exactly under the fence of token, lease, lifetime, identity and revision; a checkpoint holds the next revision for another lease, a completing write gives the session up for another lifetime |
| SessionStore.AdaptiveStore.Release | services/adaptive_sessions.py:883-898 | a release drops exactly the claim of its own token and leaves the session free for the rest of its life |
| SessionStore.ClaimKeepsTable | services/adaptive_sessions.py:575-577 | a claim never outlives its session |
| SessionStore.ClaimHolds | services/adaptive_sessions.py:730-784 | what a granted claim is worth at every later clock reading: who may claim, whose writes land, what is untouched |
| SessionStore.WriteHoldsOrFrees | services/adaptive_sessions.py:786-881 | the same for a checkpoint and for a completing write |
| SessionStore.ReleaseFrees | services/adaptive_sessions.py:883-898 | the same for a release |
| SubmitProtocol.StepKeepsInv | services/adaptive_sessions.py:730-898 | every step keeps the invariant and makes at most one stage durable |
| SubmitProtocol.LandedRow | services/adaptive_sessions.py:786-881 | a write that lands is one stage of what was stored |
| ConcurrentRuns.ConcurrentSubmitsRefinePipeline | routers/adaptive.py:1160-1217 | under any interleaving the durable aggregates of a session are a run of the single-worker pipeline, one revision per stage |
| ConcurrentRuns.ClaimsNestInSessions | services/adaptive_sessions.py:575-577 | capacity, one row per start key, claims within sessions, done rows unclaimed, in every reachable state |
| ConcurrentRuns.ConcurrentSessionsAreBounded | services/adaptive_loop.py:181-191 | however many workers race, a session ends within MAX_TURNS settled submits |
| ConcurrentRuns.ReceiptsSurvive | routers/adaptive.py:868-880 | a durable receipt answers every later retry from any worker |
| ConcurrentRuns.FencedForEver | services/adaptive_sessions.py:786-898 | a worker whose token was superseded or released never lands another write |
| ConcurrentRuns.WorkersSettleTheirOwn | routers/adaptive.py:883-937 | in any run a worker binds, continues and settles only the submit it carries, under its own key |
| ConcurrentRuns.LeaseIsExclusive | services/adaptive_sessions.py:730-898 | in any run, while a lease runs the session's row is the holder's alone, and a write the holder sent lands exactly before the lease is over |
| ConcurrentRuns.FinishedRowsFreeze | services/adaptive_sessions.py:730-898 | a finished row never changes except by deletion |
| ConcurrentRuns.ReplaysPublishTheSamePath | routers/adaptive.py:462-498 | every replay of a planning session binds the same learning-path fingerprint |
| ConcurrentRuns.PathBindingChecks | routers/adaptive.py:462-498 | only an idle finished session binds a path, only for the screen it ends with, and only the path shown there |
| SubmitWorkers.BindingAdmitsOwnSubmit | routers/adaptive.py:883-904 | the binding check admits exactly a fresh submit for this turn or the pending one |
| SubmitWorkers.RefusalsAreNamed | routers/adaptive.py:883-904 | each refusal of the binding is given exactly in its own case |
| SubmitWorkers.SubmitWorker.Commit | routers/adaptive.py:285-344 | an acknowledged checkpoint extends the history by one stage; otherwise the worker keeps its copy and the table is as it was or holds that very stage |
| SubmitWorkers.Memory.Write | services/memory.py:1428-1462 | a report is kept before its audit, and success means both were |
| SubmitWorkers.SubmitWorker.BindInput | routers/adaptive.py:907-937 | the worker carries its own submit afterwards |
| SubmitWorkers.SubmitWorker.BindAnswers | routers/adaptive.py:940-953 | the quiz is completed with the pending answers |
| SubmitWorkers.SubmitWorker.GradeQuiz | routers/adaptive.py:956-977 | grades and report are durable, the report is the last one, holds one grade per question and answer, counts the correct ones and scores their share |
| SubmitWorkers.SubmitWorker.CommitMemory | routers/adaptive.py:980-1029 | nothing becomes durable before memory holds the report and the audited decision, and a marker already set writes neither again |
| SubmitWorkers.SubmitWorker.DecideTurn | routers/adaptive.py:1032-1070 | a decision is durable; one already made is left as it is |
| SubmitWorkers.SubmitWorker.FinishTurn | routers/adaptive.py:1182-1217 | the turn is settled, its receipt stored and the claim dropped |
| SubmitWorkers.SubmitWorker.Execute | routers/adaptive.py:1160-1217 | a success settled exactly one turn and its response is what every retry finds; refusals of the binding change nothing |
| KnowledgeRepository.Repository.BeginJob | graph_service/repository.py:220-288 | a repeated key replays and begins nothing; otherwise one job opens exactly when status, revision and configuration admit it, each refusal in its own case, and inserts exactly the pending rows it names |
| KnowledgeRepository.Repository.ClaimJob | graph_service/repository.py:290-302 | the oldest queued job of all bases |
| KnowledgeRepository.Repository.Activate | graph_service/repository.py:364-380 | the loop over selected versions activates exactly those and supersedes the rest |
| KnowledgeRepository.Repository.FinishJob | graph_service/repository.py:304-387 | settling publishes a revision, exactly on an updating base and for an operation that can be settled, and changes exactly the rows the operation names |
| KnowledgeRepository.SettlingPublishes | graph_service/repository.py:304-387 | the new status of every document and version an operation names, all others as they were |
| KnowledgeRepository.RenamedAndPurged | graph_service/repository.py:427-475 | a rename counts as a revision and moves the epoch on; a purge leaves a tombstone with its deletion jobs |
| KnowledgeRepository.Repository.FailJob | graph_service/repository.py:389-400 | the base becomes dirty whatever it was, live jobs fall by one exactly if the job was live, rows, epoch and revision stay |
| KnowledgeRepository.Repository.MarkInterruptedDirty | graph_service/repository.py:402-413 | afterwards no job is running, exactly the bases that had one are dirty, and queued jobs, rows, epochs and revisions stay |
| KnowledgeRepository.Repository.MarkConfigDriftDirty | graph_service/repository.py:415-420 | no ready base of another configuration is left, exactly those become dirty at the next epoch, the rest stays |
| KnowledgeLifecycle.EpochsAreConserved | graph_service/repository.py:220-420 | epoch + late failures = revision + failed jobs + live jobs + drifts in every reachable state before purging |
| KnowledgeLifecycle.RetryRepeats | graph_service/service.py:1250-1282 | a retry opens the failed operation once more at the next epoch and changes no row, index or other job |
| KnowledgeLifecycle.UpdatingMeansOneLiveJob | graph_service/repository.py:253-400 | in any run every base is updating if and only if it has exactly one live job, exactly until a late failure strikes an updating base |
| KnowledgeLifecycle.StrikeBreaksLaw | graph_service/repository.py:389-400 | failing a finished job on an updating base leaves a live job on a dirty one |
| KnowledgeLifecycle.LiveInterrupted | graph_service/repository.py:402-413 | an interruption turns each running job into a failed one |
| KnowledgeLifecycle.DeletionIsFinal | graph_service/repository.py:304-400 | a base on its way out stays so exactly unless its own deletion is failed late |
| KnowledgeLifecycle.ReadyMeansConfigured | graph_service/repository.py:415-420 | in every reachable state a ready base is indexed under the running configuration |
| KnowledgeLifecycle.LostAckLeavesAQueuedJob | graph_service/worker.py:58-76 | after a lost acknowledgement a job opened in between is left queued on a dirty base |
| KnowledgeLifecycle.LostAckIsReachable | graph_service/worker.py:58-76 | a run that reaches such a state |
| KnowledgeLifecycle.LostAckDefeatsTheEpochCheck | graph_service/worker.py:58-76 | from such a state seven steps, the second a strike, pass a ready base and end with it ready at the same epoch and its index emptied |
| KnowledgeLifecycle.UnchangedEpochVouchesForEvidence | graph_service/service.py:577-588 | until a late failure strikes an updating base: ready at one epoch before and after a read, rows, index and revision did not change in between |
| IndexRuns.IndexAgreesWithRows | graph_service/worker.py:78-164 | in every reachable state a ready base's index is its active versions, one per active document, its current one, and nothing is pending |
| IndexRuns.DeletedBasesAreGone | graph_service/repository.py:151-153 | in every reachable state the index of a base being deleted or deleted is empty and none of its documents stands |
| KnowledgeIndex.DeletionEmpties | graph_service/worker.py:153-156 | deleting a base empties its index whatever it held |
| KnowledgeIndex.SelectedMeaning | graph_service/worker.py:297-309 | a rebuild selects the newest pending version if there is one, otherwise the current one, otherwise the newest, of every document not deleted |
| KnowledgeIndex.RebuildReachesSelection | graph_service/engine.py:433-483 | from any index a rebuild leaves exactly its selection |
| KnowledgeIndex.RebuildingAgrees | graph_service/repository.py:364-380 | settling a rebuild brings documents and versions into agreement from any dirty rows |
| KnowledgeIndex.SettlingAgreesIff | graph_service/repository.py:304-387 | settling any other job brings the rows into agreement exactly when they agree apart from what it writes |
| KnowledgeIndex.SettingUpPrepares | graph_service/service.py:398-495 | a job opened on a base in agreement can be settled in agreement, a deletion included |
| KnowledgeIndex.DirectPlanReachesIff | graph_service/worker.py:78-158 | a job's direct calls bring the index to what settling it makes active exactly when it held what it should of the other versions |
| KnowledgeIndex.PlanReaches | graph_service/worker.py:78-158 | so do the calls of any waiting job, direct or by rebuild |
| KnowledgeIndex.FallbackReaches | graph_service/worker.py:160-164 | so does the rebuild a refused removal falls back to |
| IndexRuns.ReuseFindsCurrent | graph_service/service.py:354-384 | the revision check makes a reuse find its version still current |
| KnowledgeIndex.ReuseAgreesIffCurrent | graph_service/service.py:354-384 | reuse keeps agreement exactly when the version is still current |
| KnowledgeIndex.ReplayAgreesIff | graph_service/service.py:1250-1282 | from any base, dirty or half indexed, replaying a job ends in agreement exactly when rows and index agree apart from what it writes |
| KnowledgeIndex.CutShortCanBeReplayed | graph_service/service.py:1250-1282 | a waiting job that failed after any number of direct calls may be replayed |
| KnowledgeIndex.ReplayAgreesIffNotOvertaken | graph_service/service.py:1250-1282 | against a base in agreement that is when no later version became current |
| IndexRuns.StepKeepsLaw | graph_service/repository.py:220-420 | every step but a strike and an unready replay keeps bases, worker and lookups in order |
| KnowledgeWorker.Choose | graph_service/worker.py:300-308 | the loops pick the version the rule selects |
| KnowledgeWorker.WriteWorker.ByDocument | graph_service/worker.py:294-296 | rows grouped by document in creation order |
| KnowledgeWorker.WriteWorker.RebuildInputs | graph_service/worker.py:283-318 | the selection of the operation, and the rows marked active |
| KnowledgeWorker.WriteWorker.Rebuild | graph_service/engine.py:433-483 | the index is exactly the selection |
| KnowledgeWorker.WriteWorker.Execute | graph_service/worker.py:78-164 | the calls made are those of the plan, or of the fallback after a refusal; deleting the base empties the index |
| EntityMerge.GraphRows.MergeEntities | graph_service/service.py:923-1026 | the rows become the quotient graph, stay valid, and errors change nothing; sources are tombstoned under their names, the target takes their labels, every other entity stays |
| EntityMerge.GraphRows.RewriteEdges | graph_service/service.py:970-1025 | the loop leaves no relation at a merged entity, unique endpoints, OR-ed tombstones, resolving ids, and decides which ids survive |
| EntityMerge.QuotientIsValid | graph_service/repository.py:78-85 | the quotient keeps the unique, foreign-key and alias promises of the rows |
| EntityMerge.MergingFuses | graph_service/service.py:923-969 | what a merge makes of each entity and each label |
| EntityMerge.AbsorbStep | graph_service/service.py:1001-1015 | giving way to a parallel relation keeps the loop's invariant |
| EntityMerge.MoveStep | graph_service/service.py:1016-1025 | so does moving to free endpoints |
| EntityMerge.GraphRows.RenameEntity | graph_service/service.py:869-922 | a rename happens exactly when the label is free for this entity; it keeps the old name as an alias and shows the new one at both ends of its relations, and nothing else changes |
| EntityMerge.RenamingNames | graph_service/service.py:869-922 | the same of the rows as a value |
| EntityMerge.GraphRows.DeleteEntity | graph_service/service.py:1027-1036 | exactly a known entity is tombstoned under its name and aliases; every other entity, all relations and all labels stay |
| EntityMerge.GraphRows.DeleteRelation | graph_service/service.py:1037-1050 | exactly the relation an id resolves to is tombstoned between its ends; every other relation, all entities and labels stay |
| EntityMerge.GraphRows.Node | graph_service/service.py:725-771 | a label resolves to its entity, inserted live under that name only if unknown; nothing else changes |
| EntityMerge.GraphRows.Relation | graph_service/service.py:795-842 | a relation between live entities is inserted once under its own id and shown unless tombstoned; nothing else changes |
| GraphRuns.StepIsValid | graph_service/repository.py:55-85 | every correction keeps the rows valid |
| GraphRuns.RelationIdsFollowTheirEntities | graph_service/service.py:970-1025 | a relation id for ever resolves to the relation of what became of its entities, and tombstones are never lost |
| GraphRuns.LabelsFollowTheirEntities | graph_service/service.py:963-969 | a label for ever resolves to what became of its entity |
| GraphRuns.MergedAwayForEver | graph_service/service.py:959-1025 | a merged entity is never touched by a relation nor named by a label again |
| GraphRuns.DeletedForEver | graph_service/service.py:1027-1036 | a deleted entity stays tombstoned, and no relation is added to it, no name given and nothing merged with it again |
| GraphRuns.DeletedRelationsStayDeleted | graph_service/service.py:1037-1050 | whatever an id of a deleted relation resolves to later is tombstoned |
| GraphRuns.MergedNamesStayTaken | graph_service/service.py:869-893 | a merged name passes the alias check but meets the unique constraint |
| InstanceCache.EngineCache.Acquire | graph_service/engine.py:227-266 | a hit counts up and moves to the end, a miss appends the new instance; the others keep their counters and their order |
| InstanceCache.EngineCache.Release | graph_service/engine.py:268-286 | counts down, runs the eviction loop and finalizes exactly the instances it takes out |
| InstanceCache.EngineCache.Forget | graph_service/engine.py:314-332 | refused while held; otherwise exactly this workspace is gone |
| InstanceCache.FirstIdleIsFirst | graph_service/engine.py:277-279 | the candidate is the first idle entry |
| InstanceCache.ClosingMeaning | graph_service/engine.py:276-286 | the eviction loop finalizes exactly the instances it takes out |
| InstanceCache.AcquiringTouches | graph_service/engine.py:227-266 | an acquisition moves one entry and one counter |
| InstancePool.EvictionTakesOldestIdle | graph_service/engine.py:276-284 | only idle instances, least recently acquired first, no more than needed, until the limit is met or all left are in use |
| InstancePool.CountersAreOpenUses | graph_service/engine.py:227-286 | counters are open uses, equal keys, bounded idle instances, order of acquisition, in every reachable state |
| InstancePool.HeldInstancesAreNeverTouched | graph_service/engine.py:268-332 | an open use keeps its instance, cached and not finalized |
| InstancePool.ForgettingCloses | graph_service/engine.py:314-332 | in any run a workspace nobody uses is forgotten at once and its instance finalized, one in use is left alone |
| Chunker.NormalizeKeepsContent | services/chunker.py:180-183 | normalising loses only whitespace |
| Chunker.NormalizeGivesNormalForm | services/chunker.py:180-183 | a normalised text has no tab, no wide space, no two spaces in a row and nothing to strip |
| Chunker.NormalizeKeepsNormalForm | services/chunker.py:180-183 | a text that is so already is left as it is |
| Chunker.DividingKeepsContent | services/chunker.py:30-33 | cutting at zero-width matches loses nothing |
| Chunker.DividesAtCuts | services/chunker.py:31-33 | a text is cut exactly at its separators, nothing lost or moved |
| Chunker.ParagraphsKeepContent | services/chunker.py:177-178 | cutting at blank lines loses only whitespace |
| Chunker.SeparatorMeaning | services/chunker.py:31 | a paragraph separator is found where one begins and taken as long as it is |
| Chunker.SplitsAtSeparators | services/chunker.py:177-178 | paragraphs lie exactly between the separators |
| Chunker.StrippingKeepsTheRest | services/chunker.py:177-178 | the pieces that are not blank stay, in order, each stripped |
| Chunker.AdaptiveChunker.HardCut | services/chunker.py:162-166 | slices of the full size and a last one of at most that, which together are the piece |
| Chunker.AdaptiveChunker.SplitByPunct | services/chunker.py:151-174 | content kept, sizes bounded, pieces that fit kept whole and packed as tightly as they come, longer ones sliced |
| Chunker.AdaptiveChunker.SplitLong | services/chunker.py:123-149 | the same for sentences, longer ones by their pieces |
| Chunker.AdaptiveChunker.SplitText | services/chunker.py:98-119 | the same for paragraphs with blank lines between: a chunk ends only where the next paragraph has no room |
| Chunker.AdaptiveChunker.MergeTiny | services/chunker.py:185-198 | a chunk takes in the next ones just until it reaches min_chunk_size; nothing is lost, sizes grow by at most min_chunk_size + 1, and only the last one is short |
| Chunker.AdaptiveChunker.SemanticSplit | services/chunker.py:92-121 | all of it together for any text |
| Chunker.AdaptiveChunker.SplitDocument | services/chunker.py:58-89 | a document's chunks are exactly the non-blank pieces of the split, in order, each with its place among all; an image stays whole |
| SourceBlocks.BoundMetadata | graph_service/service.py:92-102 | entries are kept in key order, each exactly if it fits behind those kept before it, and truncation is reported exactly |
| SourceBlocks.KeptFieldsAreGreedy | graph_service/service.py:92-102 | every entry kept fitted behind those before it and every other would not have |
| SourceBlocks.BoundedSourceBlocks | graph_service/service.py:79-119 | the shown texts are a prefix of the joined text within the limit, metadata is bounded, projection stops late, truncated if and only if something is missing |
| SourceBlocks.DecodeBlocks | graph_service/service.py:307-328 | an upload is accepted exactly when well formed, and its text is the join of its blocks |
| SourceBlocks.GetSource | graph_service/service.py:1108-1146 | blocks agree with the shown text; complete blocks mean the complete text |
| PurgeSweep.FirstOfFacts | graph_service/repository.py:490-498 | a page is the ascending first entries beyond the cursor |
| PurgeSweep.SweepTouchesOnlyDeleted | graph_service/worker.py:222-236 | only files of deleted documents are attempted, and a record goes exactly when its unlink succeeded |
| PurgeSweep.DeletionUnlinksItsFiles | graph_service/worker.py:166-176 | deleting a document attempts its own files at once and leaves the sweep where it is |
| PurgeSweep.SweepAttemptsEachOnce | graph_service/worker.py:211-220 | between two resets every standing file is attempted exactly once |
| PurgeSweep.SweepsEnd | graph_service/worker.py:211-220 | whatever is added and deleted meanwhile, the cursor is reset once more pages were taken than the files ahead fill, newly deleted ones counted |
| PurgeSweep.PassesEnd | graph_service/worker.py:186-220 | so at most that many pages by ten passes run full without a reset |
| PurgeSweep.PageIsProgress | graph_service/repository.py:490-498 | a page that finds something is one page fewer to go |
| PurgeSweep.Purger.DeletedMaterials | graph_service/repository.py:490-498 | the next at most hundred recorded files of deleted documents beyond the cursor, in order, none passed over |
| PurgeSweep.Purger.UnlinkMaterials | graph_service/worker.py:222-236 | exactly the files that could be removed lose their record, no row its document |
| PurgeSweep.Purger.SweepPass | graph_service/worker.py:211-220 | a pass reports whether it reset the cursor, and otherwise used up all its pages and as many of those to go |
| PublicTrajectory.SanitizingTwice | services/autonomous_snapshot.py:73-88 | redacting twice is redacting once, nested objects and merged keys included |
| PublicTrajectory.SanitizedIsSafe | services/autonomous_snapshot.py:76-88 | whatever the value, however nested, what is shown of it holds no text and no key that leaks |
| PublicTrajectory.SafeIsShown | services/autonomous_snapshot.py:76-88 | a value in which nothing leaks is shown as it is |
| PublicTrajectory.FieldsAreShown | services/autonomous_snapshot.py:81-85 | an object shows each field under its own or the redacted name, of several under one name the last, each value on its own |
| PublicTrajectory.ItemsAreShown | services/autonomous_snapshot.py:86-87 | a list shows its items one for one |
| PublicTrajectory.PublishingTwice | services/autonomous_snapshot.py:91-132 | a published plan and trajectory is published unchanged |
| PublicTrajectory.PublishedIsSafe | services/autonomous_snapshot.py:91-132 | of plan and steps nothing that leaks is shown and everything else is: known tools named, control arguments and hidden details left out |
| ReplayContract.EvidenceRegistry.Collect | services/citations.py:34-104 | an observation is taken whole or not at all, from the bound document only |
| ReplayContract.EvidenceRegistry.Resolve | services/citations.py:107-133 | exactly the known ids asked for are cited and exactly the unknown ones reported, each once, in the order of the model, with the first 240 characters of the evidence |
| ReplayContract.CitationsAreEvidence | services/citations.py:107-133 | a citation is shown exactly for a requested id the run observed |
| ReplayContract.FirstNamedFirst | services/citations.py:107-133 | citations and unknown ids keep the order in which they are first named |
| ReplayContract.ResolvedAreInScope | services/citations.py:34-133 | what a run cites comes from its document and quotes its evidence |
| ReplayContract.BuildResponse | routers/autonomous.py:1239-1332 | when it abstains and for which reason, what it cites, that nothing shown of answer, citations, plan and steps leaks, and that replay returns it unchanged exactly when its snippets show something |
| ReplayContract.FinishRun | routers/autonomous.py:1135-1332 | searches, citations, response and replay together: what is shown quotes a search of the bound document and leaks nothing, grounding is honoured, replay is a fixed point exactly when every snippet shows something |
| ReplayContract.PublishedReplays | routers/autonomous.py:283-537 | a published terminal response is a fixed point of replay exactly when no snippet is blank |
| ReplayContract.ReplayingTwice | routers/autonomous.py:283-537 | replay is idempotent for every stored terminal response, old ones included |
| ReplayContract.ReplayedIsSafe | routers/autonomous.py:283-537 | what a replay returns leaks nothing and honours its grounding and its document, whatever was stored |
| ReplayContract.BlankSnippetIsPossible | services/citations.py:120-131 | accepted evidence whose first 240 characters are blank |

## Left out

- SQL text, schema migration, connection handling and the difference between database backends: each transaction is one atomic step over maps.
- Language-model, embedding, vector-store, graph-SDK and tool-protocol calls: their results are arbitrary values, the index is a set of version ids, entity extraction is not modelled.
- Memory, grader, quiz-session, idempotency-store and learning-path-store internals: only their results enter.
- Cancelled or dropped tasks inside one claim call: covered by calls that land late, not by a model of the event loop.
- Knowledge-base answers, paused answers and continuation in the autonomous router: only finished answers bound to a document or unbound are modelled.
- The chunk index a citation derives from its chunk id: it changes no decision.
- Chunking of PDF files: it is done by a library splitter.
- Single-field length limits, character encodings and message texts.
- Blanking of web snapshots and stored texts on deletion: it touches no row the proofs speak about.
- Several service processes at once, and a crash between inserting a relation and its alias row: each insertion is one step.
- IndexRuns.IndexAgreesWithRows: assumes that no late failure has struck an updating base, that a reuse is submitted at a revision not ahead of its lookup, and that a failed job is retried only where retrying can end in agreement; LostAckDefeatsTheEpochCheck, ReuseAgreesIffCurrent and ReplayAgreesIff show what happens otherwise.
- KnowledgeLifecycle.UnchangedEpochVouchesForEvidence: assumes that no late failure has struck an updating base, because LostAckDefeatsTheEpochCheck shows what one may do.
- ReplayContract.BuildResponse: takes the answer and reason as strings.
- Chunker.AdaptiveChunker.SemanticSplit: needs a chunk size of at least one, below which the source raises.
- Supervisor, orchestrator and planner loops, request handlers, authentication, configuration, evaluation, front end and backup tools: they would add only easy members.
