# CR v2 in Dafny

CR v2 reviews code changes. Review tasks wait in a SQLite queue; daemons claim them under a lease,
ask models to review the change, let a judge model sift the findings, set a gate, and report by
callback. People later resolve findings, which can turn a failed gate into a passed one.

This project models that machinery and proves what it promises. Model turns, HTTP answers, git output,
clocks, operators and thread schedules are arbitrary inputs: every theorem holds for all of them.

| module | models |
|---|---|
| `Store`, `Database` | the task and control tables: each transaction as a function on tables, and the `ReviewDB` object that performs it in place |
| `Runs` | any interleaving of transactions by any number of daemons and operators; leases, attempts, row shape, queue order, control requests |
| `Callbacks`, `CallbackRuns`, `CallbackLimits` | the callback client and the daemon's retry loop; budgets over any run, and exactly how far several daemons exceed them |
| `Feedback` | concurrent resolvers of findings, each in three separate transactions, beside requeues and the executors they set off |
| `Judge`, `JudgeProofs`, `Regroup` | the judge normalizer as a dictionary fold, its group-by specification, and the regrouping before it |
| `Risk`, `Workflow`, `Gate` | risk tiers, the reviewer plan, one whole workflow run with its fan-out, and what each gate means |
| `DiffLines`, `DiffProofs`, `DiffFiles`, `DiffCuts` | the unified-diff line tracker against a diff printer and an apply function, and lines with breaks inside |
| `JsonScan` | the balanced-brace scanner and JSON extraction from model output |
| `Sessions` | the worklist over the session table and the usage totals |
| `AnalyzeRetry` | the retry and repair loops of `analyze` |
| `Routing`, `Fallback` | model health with cooldowns, candidate selection, and the fallback loop of a turn |
| `Basics`, `Text` | shared datatypes and the few string operations |

Code that updates state in place is modelled by classes and methods; each is tied to a function of the
state, and the theorems are about that function. In `Runs`, an event carries the moment its clock was
read (`stamp`) and the moment its transaction committed (`commit`): the program reads the clock before
it opens the transaction, so only commits are in order.

Some expected properties do not hold of the code. For each there is an input on which it fails, and the
condition under which it holds:

* `docs/spec-cr-v2-cloudflare-reuse.md:231` and `:514` say that two daemons cannot run one review at
  the same time. The lease is never renewed, and a requeue does not look at the status. Two executions can
  overlap exactly if one may outlast its lease or the row is requeued between the two claims:
  `Runs.ExclusiveIffWithinLease`, with runs in `Runs.LongExecutionsCanOverlap` and
  `Runs.RequeueLetsExecutionsOverlap`.
* A due list read by one daemon can be stale by the time it sends. The callback limit can be exceeded
  exactly if more than one daemon handles callbacks (`CallbackLimits.LimitExceededIffSeveralDaemons`), by
  exactly one call for each further daemon (`CallbackLimits.CallBudgetIsReached`). A callback can succeed
  twice exactly if there is a second daemon and the payload can change in between, or if a payload can
  fail to be built and there is a third daemon, or a second one and a limit of at least three
  (`CallbackLimits.SecondSuccessIff`).
* A row inserted with a status other than queued has no gate and no lease; only queued inserts have the row
  shape (`Runs.OnlyQueuedInsertsAreShaped`).
* Diffs whose added text starts with `++`, some with deleted text starting with `--` or with a missing final
  line feed, and all in which git quotes the path of a file with hunks are tracked wrongly.
  `DiffProofs.TrackerIsRightIffTrackable` says exactly which: the numbers are right if every hunk is trackable
  and no path with hunks is quoted, and otherwise wrong unless two mistakes happen to cancel, which takes an
  ambiguous diff (`DiffProofs.MistakesCanCancel`, `DiffProofs.HeaderPieceCanBeHarmless`). What a quoted path
  leads to is `DiffProofs.QuotedPathIsNotRecognized`: its numbers go to the file before it, or nowhere.
* `splitlines` also breaks at form feeds and other characters inside a line. The same theorem then holds of
  the diff whose lines are cut there (`DiffCuts.BrokenTextIsTrackedIffTrackable`).
* A stop or cancel request that is seen by the poll during a model turn leaves the review incomplete instead
  of cancelled exactly if it is withdrawn before the next checks: `Gate.PolledRequest`, with a run in
  `Gate.PolledRequestWithdrawn`.
* A request goes out of sight exactly by a requeue of the row, or by an outcome written while no request for
  the row is unacknowledged, as after a cancellation: `Runs.WithdrawnIffSettled`, over runs
  `Runs.VisibleIffUnsettled`, with both cases in `Runs.RequestsCanBeLost`.
* With reruns, a passed gate can cover an open finding. It never does exactly if none of three moves
  happens: a finding is stored while the gate is passed, an executor passes a row that has an open finding,
  or a finding is stored between the count and the write of a resolver and is open at the write
  (`Feedback.SoundIffSafe`, with runs in `Feedback.RerunRaceEndsPassedWithOpenFinding` and
  `Feedback.CleanRerunEndsPassedWithOpenFinding`).
* A requeue does not promise a rerun. An outcome is written whatever the status, so a resolver between count
  and write takes a requeued row out of the queue. An unclaimed row waits there exactly as long as no resolver
  passes it and nobody finishes, cancels or stops it (`Feedback.WaitsIffNothingConcludes`, with a run in
  `Feedback.LostRerunLeavesTheQueueUnclaimed`).
* The deduplication key of findings is not injective (`JudgeProofs.KeysCollide`). Two keys are equal exactly if
  file, line and title agree, or one path goes on after the other with a colon and its line and the title
  makes up for the rest (`JudgeProofs.KeysEqualIff`); between other paths, in particular without colons,
  keys are exact (`JudgeProofs.KeysAreExactWithoutColons`).

## Model

| member | source | states |
|---|---|---|
| `Database.ReviewDB.ClaimNextTask` | src/cr_agent/review_v2/storage.py:420-460 | Returns none exactly when no queued row is due; otherwise claims a due row of the greatest priority number, and of these one with the least creation time, and changes no other row |
| `Database.ReviewDB.RecoverStaleRunningTasks` | src/cr_agent/review_v2/storage.py:1155-1207 | Exactly the running rows whose lease has run out change: below the attempt limit they are queued again and their ids returned, at the limit they fail as incomplete |
| `Database.ReviewDB.RequeueTask` | src/cr_agent/review_v2/storage.py:826-882 | Resets status, gate and lease and acknowledges requests, but keeps attempts and callback columns |
| `Database.ReviewDB.UpdateTaskOutcome` | src/cr_agent/review_v2/storage.py:365-411 | Writes status and gate whatever the row's status was, and re-arms the callback |
| `Database.ReviewDB.CancelTask` | src/cr_agent/review_v2/storage.py:780-824 | Records a cancel request, then cancels the row and acknowledges every request for it |
| `Database.ReviewDB.MarkTaskStopped` | src/cr_agent/review_v2/storage.py:884-927 | Stops the row and acknowledges stop requests only |
| `Database.ReviewDB.SetCallbackState` | src/cr_agent/review_v2/storage.py:1126-1153 | Changes the callback columns of one row, keeping the digest unless a new one is given |
| `Database.ReviewDB.DueCallbackTasks` | src/cr_agent/review_v2/storage.py:1209-1224 | Lists up to the limit of due callbacks by ascending due time, missing times first, omitting none that is due before a listed one |
| `Runs.RowSteps` | src/cr_agent/review_v2/storage.py:285-329 | In any run, a row appears only by an insert and changes only as the event at hand prescribes |
| `Runs.RowsStayShaped` | src/cr_agent/review_v2/storage.py:365-460 | In every reachable state running rows have holder and lease, queued and cancelled rows neither, and the gate is NULL exactly for queued and running rows |
| `Runs.OnlyQueuedInsertsAreShaped` | src/cr_agent/review_v2/storage.py:285-329 | An insert keeps the row shape exactly if its status is queued |
| `Runs.AttemptsCountClaims` | src/cr_agent/review_v2/storage.py:437-450 | A row's attempts equal the number of its claims |
| `Runs.AttemptBudget` | src/cr_agent/review_v2/storage.py:1173-1199 | Attempts are at most max(1, limit) plus the number of requeues, and a queued row has a claim left |
| `Runs.FinitelyManyClaims` | src/cr_agent/review_v2/storage.py:1155-1207 | Claims are bounded by creates and requeues, and recoveries of a row by its claims, however long the run |
| `Runs.ClaimsAreALeaseApart` | src/cr_agent/review_v2/storage.py:420-460 | Without a requeue in between, the next claim of a row commits more than the first claim's lease after that claim's clock reading, whoever makes it |
| `Runs.LeaseProtects` | src/cr_agent/review_v2/storage.py:1155-1172 | Without a requeue, until its lease has run out a claimed row runs under that lease or has ended; it is not queued |
| `Runs.ExclusiveIffWithinLease` | src/cr_agent/review_v2/storage.py:420-460 | Two executions of one row can overlap exactly if an execution may outlast its lease or the row may be requeued between the two claims |
| `Runs.OverlapHasACause` | src/cr_agent/review_v2/storage.py:420-460 | In every run, an overlap of two executions has one of these two causes |
| `Runs.RequeueLetsExecutionsOverlap` | src/cr_agent/review_v2/storage.py:826-844 | A concrete run in which a requeue of a running row lets executions of any duration overlap |
| `Runs.LongExecutionsCanOverlap` | src/cr_agent/review_v2/daemon.py:45-70 | A concrete run of two daemons in which the executions overlap |
| `Runs.ClaimingDrainsTheQueueInOrder` | src/cr_agent/review_v2/storage.py:424-460 | Claims alone take every eligible queued row once; of two, the first claimed has the greater priority number, or the same one and is created no later |
| `Runs.PendingIsObserved` | src/cr_agent/review_v2/workflow.py:609-619 | A control check sees a request exactly if the row is cancelled or an unacknowledged request exists |
| `Store.CheckSeesTheLatestOpen` | src/cr_agent/review_v2/storage.py:929-942 | A check answers with an action exactly if that is the action of the latest unacknowledged request for the row |
| `Runs.WithdrawnIffSettled` | src/cr_agent/review_v2/storage.py:929-942 | A step hides the requests for a row exactly if it requeues the row or writes its outcome while none is unacknowledged |
| `Runs.VisibleIffUnsettled` | src/cr_agent/review_v2/storage.py:929-953 | From its recording on, every later check of the row sees a request exactly as long as no such step happens |
| `Runs.RequestsCanBeLost` | src/cr_agent/review_v2/storage.py:826-882 | Both kinds of such steps occur: a requeue, and an outcome written after the cancellation |
| `Callbacks.CallbackClient.Send` | src/cr_agent/core/callback.py:34-80 | Succeeds exactly if one of the first retry_times + 1 answers is 2xx, stops at the first such answer, and logs every POST |
| `Callbacks.Daemon.SendCallbackFor` | src/cr_agent/review_v2/daemon.py:162-194 | What becomes of the row, told by its target, the payload and the answers: unchanged if the payload was acknowledged before, a success exactly if one of the first retry_times + 1 answers is 2xx, no target, or a counted failure |
| `Callbacks.Daemon.RecordCallbackFailure` | src/cr_agent/review_v2/daemon.py:196-228 | Counts the failure; the attempt that reaches the limit ends the retries, any other schedules the next one after its delay |
| `Callbacks.Daemon.RetryCallbacks` | src/cr_agent/review_v2/daemon.py:139-153 | Sends each listed callback once, in list order, and returns those that need no further attempt |
| `CallbackRuns.CallBudget` | src/cr_agent/review_v2/daemon.py:139-228 | Between two outcome writes, D daemons call the client at most max(1, limit) + D - 1 times for one row |
| `CallbackRuns.PostBudget` | src/cr_agent/core/callback.py:34-80 | POSTs stay within that number of calls times retry_times + 1 |
| `CallbackRuns.AtMostOneAcknowledgement` | src/cr_agent/review_v2/daemon.py:162-194 | With one daemon at most one call succeeds between two outcome writes |
| `CallbackRuns.DelaysDouble` | src/cr_agent/review_v2/daemon.py:196-228 | The first delay is the initial one and each further one twice the one before, capped by the maximum |
| `CallbackLimits.CallBudgetIsReached` | src/cr_agent/review_v2/daemon.py:139-228 | For every limit and every set of daemons some run makes exactly max(1, limit) + D - 1 calls |
| `CallbackLimits.LimitExceededIffSeveralDaemons` | src/cr_agent/review_v2/storage.py:1209-1224 | The limit can be exceeded exactly if more than one daemon handles callbacks |
| `CallbackLimits.SteadySucceedsOnce` | src/cr_agent/review_v2/daemon.py:174-176 | Any number of daemons succeed at most once while the payload stays the same and none fails to be built |
| `CallbackLimits.TwoDaemonsSucceedOnce` | src/cr_agent/review_v2/daemon.py:196-228 | So do two daemons with a steady payload and a limit of at most two, failing builds included |
| `CallbackLimits.SecondSuccessIff` | src/cr_agent/review_v2/daemon.py:162-228 | A second success is possible exactly with two daemons and a changing payload, or with failing builds and three daemons, or two and a limit of at least three |
| `CallbackRuns.DelayBudget` | src/cr_agent/review_v2/daemon.py:196-228 | The scheduled delays are nondecreasing and total at most initial * (2^(N-1) - 1) |
| `Feedback.NeverPassedWhileOpen` | src/cr_agent/review_v2/feedback.py:133-166 | In every interleaving of resolvers, without reruns, the gate is not passed while a finding is open |
| `Feedback.PassedIffAllResolved` | src/cr_agent/review_v2/feedback.py:133-166 | When all resolvers are through, without reruns, the gate is passed exactly if every finding is resolved |
| `Feedback.ResolvedStaysResolved` | src/cr_agent/review_v2/storage.py:1093-1116 | No interleaving of resolvers opens a resolved finding again |
| `Feedback.SoundIffSafe` | src/cr_agent/review_v2/feedback.py:133-166 | In every run of resolvers, operators, executors and recoveries, a passed gate never covers an open finding exactly if none of three unsafe moves happens |
| `Feedback.RerunRaceEndsPassedWithOpenFinding` | src/cr_agent/review_v2/storage.py:677-723 | A run in which a whole rerun falls between the count and the write of a resolver |
| `Feedback.CleanRerunEndsPassedWithOpenFinding` | src/cr_agent/review_v2/storage.py:826-844 | A run in which a rerun without findings passes the row over the open finding of the first run |
| `Feedback.LeavesQueueIff` | src/cr_agent/review_v2/storage.py:379-395 | A queued row leaves the queue exactly by a claim, by a resolver's write, or by being finished, cancelled or stopped |
| `Feedback.WaitsIffNothingConcludes` | src/cr_agent/review_v2/storage.py:826-844 | An unclaimed row waits in the queue exactly as long as none of these outcomes is written |
| `Feedback.ConcludedIsNotClaimed` | src/cr_agent/review_v2/storage.py:424-460 | After such an outcome the row is not claimed before it is requeued again |
| `Feedback.LostRerunLeavesTheQueueUnclaimed` | src/cr_agent/review_v2/feedback.py:162-166 | A run in which the write of a resolver takes a requeued row out of the queue |
| `Feedback.FeedbackProcessor.ProcessFindingFeedback` | src/cr_agent/review_v2/feedback.py:77-150 | A resolver on its own: without a verdict nothing changes; otherwise exactly its finding gets the verdict, an unknown finding raises, and the row passes exactly if no finding is left open |
| `Feedback.FeedbackProcessor.MarkHumanNonFix` | src/cr_agent/review_v2/feedback.py:152-160 | The same for a human verdict |
| `Judge.Normalize` | src/cr_agent/review_v2/judge.py:23-58 | The dictionary loop computes the fold over all candidates in order, and raises exactly where the fold does; what the fold accepts is said below |
| `JudgeProofs.FoldIsGroupBy` | src/cr_agent/review_v2/judge.py:32-58 | Per key the first of the strongest candidates that are not rejected, keys by first appearance; accepted and rejected entries number exactly the candidates; it raises exactly if such a candidate has an unknown severity |
| `JudgeProofs.BestIsLeftmostStrongest` | src/cr_agent/review_v2/judge.py:99-103 | The winner of a key is strictly stronger than every earlier candidate of it and at least as strong as every later one |
| `JudgeProofs.AcceptedIsGravestThenSurest` | src/cr_agent/review_v2/judge.py:11-103 | What is accepted under a key stands no later in fatal, high, medium, low, info than any other report of that key that is not rejected, has at equal severity at least its confidence, and beats every earlier one strictly |
| `JudgeProofs.SurvivorIsReported` | src/cr_agent/review_v2/judge.py:76-97 | A report contributes itself, under the severity its word names once stripped and lowered (fatal or critical, high, medium, low, info; medium for none), with full confidence if none is given |
| `JudgeProofs.RejectionMeans` | src/cr_agent/review_v2/judge.py:60-74 | Each reason for a rejection, both ways: the first that applies of missing texts, a confidence below 0.3, a line that is not changed, and a path that names a test |
| `JudgeProofs.KeysAre` | src/cr_agent/review_v2/judge.py:32-56 | Keys are distinct, complete and in order of first appearance |
| `JudgeProofs.RejectionsFollowInput` | src/cr_agent/review_v2/judge.py:35-56 | The rejection entries are, in input order, the candidates rejected on their own or losing their key, each with the incoming candidate, and with the source of the weaker finding for a duplicate |
| `JudgeProofs.NothingAcceptedIffAllRejected` | src/cr_agent/review_v2/judge.py:61-74 | Nothing is accepted exactly if every candidate is rejected on its own account |
| `JudgeProofs.PermutationKeepsWinners` | src/cr_agent/review_v2/judge.py:32-56 | Under any permutation the accepted keys, each key's winning rank and the gate are the same |
| `JudgeProofs.KeysCollide` | src/cr_agent/review_v2/judge.py:96-97 | Two different findings with one key |
| `JudgeProofs.KeysEqualIff` | src/cr_agent/review_v2/judge.py:96-97 | Keys are equal exactly if file, line and plain title agree, or one path swallows the other's line as stated |
| `JudgeProofs.KeysAreExactWithoutColons` | src/cr_agent/review_v2/judge.py:96-97 | Keys tell findings apart exactly by file, line and plain title unless one path goes on after the other with a colon |
| `Regroup.JudgePayloadToReviewerOutputs` | src/cr_agent/review_v2/workflow.py:457-477 | Grouping by source loses and invents nothing, keeps the order within a source, and gives each source one group |
| `Regroup.RegroupingKeepsTheGate` | src/cr_agent/review_v2/workflow.py:457-477 | Regrouped findings raise, or accept nothing, exactly when the reported order does |
| `Risk.SpecialistsForPaths` | src/cr_agent/review_v2/risk.py:69-87 | The triggered specialists, each once, in the fixed order of priority |
| `Risk.ClassifyRisk` | src/cr_agent/review_v2/risk.py:27-52 | What each tier means, both ways; specialists only ever come with the full tier |
| `Risk.EveryPlannedReviewerIsRequired` | src/cr_agent/review_v2/risk.py:55-66 | The plan is empty exactly without production files, all its members are required and distinct, five for a heavy change and one otherwise |
| `Risk.ReviewersOfTheTier` | src/cr_agent/review_v2/risk.py:55-66 | The light reviewer for a small change, the one correctness reviewer for a larger one, and with the four specialists for a heavy one |
| `Risk.GuardMeans` | src/cr_agent/review_v2/guards.py:8-13 | The guard skips exactly without production files and refuses exactly truncated production diffs |
| `Workflow.RunSingleReviewer` | src/cr_agent/review_v2/workflow.py:479-600 | How a session's end follows from its checks, its turn and its failures, optional ones included |
| `Workflow.Interleave` | src/cr_agent/review_v2/workflow.py:264-277 | The fan-out's events keep each thread's order and lose none |
| `Workflow.RunReviewers` | src/cr_agent/review_v2/workflow.py:261-296 | What the fan-out returns, for every interleaving and completion order; each required output reaches the judge once |
| `Workflow.RunJudgeSession` | src/cr_agent/review_v2/workflow.py:346-455 | A verdict only from a completed, parsed turn with a session, and then the normalizer's verdict on its findings |
| `Workflow.RecordVerdict` | src/cr_agent/review_v2/workflow.py:312-344 | Findings are stored in order, each only if every check up to its own is answered with none; the outcome is written only after all of them and one more check; a request ends it at the first check that sees one |
| `Workflow.Run` | src/cr_agent/review_v2/workflow.py:115-191 | Every run of an existing row ends with its only terminal write, justified by what happened; each event comes only after all its checks were answered with none, and a cancelled or stopped end has the action of the first request its checks were told of, or one that a session was told of |
| `Gate.OutcomeIsTheDecision` | src/cr_agent/review_v2/workflow.py:115-344 | Whatever is requested or fails, passed means all required sessions and the judge came to good ends and every finding is rejected, failed that a finding stands, skipped that no file is production |
| `Gate.UndisturbedRunIsDecided` | src/cr_agent/review_v2/workflow.py:115-344 | Without requests and failing operations the outcome is exactly the one called for, incomplete included |
| `Gate.StoredFindingsWereReported` | src/cr_agent/review_v2/workflow.py:318-331 | A failed gate has stored findings, each reported by the judge and not rejected |
| `Gate.CancelledIffSeen` | src/cr_agent/review_v2/workflow.py:185-191 | A run ends cancelled or stopped exactly if one of its own checks saw a request |
| `Gate.NothingWithoutItsChecks` | src/cr_agent/review_v2/workflow.py:115-344 | Passed and failed imply that checks 0 to 6 plus the number of findings, and those of all sessions, are answered with none; a stored finding that its own check and all before it are; a judge turn that the first five and the sessions are; skipped and too large that the first three are |
| `Gate.RequestsAreObeyed` | src/cr_agent/review_v2/workflow.py:115-344 | Where no operation fails, whatever the turns come to, a run ends cancelled or stopped exactly if one of the checks it comes to is told so |
| `Gate.NothingAfterARequest` | src/cr_agent/review_v2/workflow.py:281-344 | After any check that saw a request, polls included, no judge turn starts, no finding is stored, no pass or fail is written |
| `Gate.PolledRequest` | src/cr_agent/review_v2/workflow.py:602-619 | A run whose turn polled a request ends incomplete exactly if the checks that follow the turn are all answered with none, and cancelled or stopped otherwise |
| `Gate.PolledRequestWithdrawn` | src/cr_agent/review_v2/workflow.py:602-619 | A run that polled a request and still ends incomplete |
| `Gate.RunLeavesTaskTerminal` | src/cr_agent/review_v2/workflow.py:185-191 | The last write leaves the row in a terminal status with its gate, whatever the row was |
| `DiffLines.ChangedLines` | src/cr_agent/review_v2/context.py:222-244 | The loop computes the line tracker over the split lines |
| `DiffProofs.TrackerIsRightIffTrackable` | src/cr_agent/review_v2/context.py:222-244 | For every diff over distinct paths, quoted ones included, each file gets the new-side numbers of its added lines if each hunk is trackable and no path with hunks is quoted; unless the diff is ambiguous, only then |
| `DiffProofs.QuotedPathIsNotRecognized` | src/cr_agent/review_v2/context.py:227-230 | The numbers of a file with a quoted path go to the file before it, and are lost if there is none |
| `DiffProofs.QuotedPathIsMissing` | src/cr_agent/review_v2/context.py:227-236 | A quoted path with hunks makes the result wrong, its key being absent |
| `DiffProofs.HeaderPieceCanBeHarmless` | src/cr_agent/review_v2/context.py:231-234 | A piece that reads as a hunk header behind the last added line leaves the right numbers |
| `DiffProofs.MistakesCanCancel` | src/cr_agent/review_v2/context.py:237-243 | A number too many and a number too few can leave the right numbers by accident |
| `DiffProofs.HeaderNamesNewStart` | src/cr_agent/review_v2/context.py:231-233 | A hunk header sets the counter to its new start whatever its section text |
| `DiffFiles.TextIsTrackedIffTrackable` | src/cr_agent/review_v2/context.py:222-244 | The same for the text of a diff without breaks inside its lines, with either kind of line end |
| `DiffFiles.ListedLinesAreTheAddedOnes` | src/cr_agent/review_v2/context.py:222-244 | When the hunks turn the old file into the new one, the listed numbers increase and name the added lines of the new file |
| `DiffFiles.OtherLinesAreKept` | src/cr_agent/review_v2/context.py:222-244 | The lines not listed are, in order, the old lines that were not deleted |
| `DiffFiles.FormFeedShiftsNumbers` | src/cr_agent/review_v2/context.py:226 | A form feed in an added line shifts the numbers after it |
| `DiffCuts.SplitUndoesJoin` | src/cr_agent/review_v2/context.py:226 | Splitting joined lines gives the lines cut at every break inside them |
| `DiffCuts.BrokenTextIsTrackedIffTrackable` | src/cr_agent/review_v2/context.py:222-244 | The same for the text of any diff, breaks inside its lines included, with its lines cut at them |
| `JsonScan.FindBalancedJsonObject` | src/cr_agent/core/opencode_runner.py:1255-1277 | The loop returns the text up to the closing of the outermost brace, or none |
| `JsonScan.ScannerFindsThePrintedObject` | src/cr_agent/core/opencode_runner.py:1255-1277 | A printed object followed by any text is found exactly |
| `JsonScan.ScannerRejectsTruncation` | src/cr_agent/core/opencode_runner.py:1255-1277 | No proper prefix of a printed object is taken for an object |
| `JsonScan.ExtractJsonObject` | src/cr_agent/core/opencode_runner.py:1094-1122 | The whole text if it reads as an object, else the first object that reads, else an error |
| `JsonScan.FirstObjectStartsFirst` | src/cr_agent/core/opencode_runner.py:1104-1120 | The search returns an object exactly if it is the first that starts at a brace and reads as one up to the balancing brace, as it stands or after the repair; it fails exactly if there is none |
| `JsonScan.ExtractionFindsThePrintedObject` | src/cr_agent/core/opencode_runner.py:1094-1122 | After noise without an opening brace and before any text, a printed object that the parser reads is extracted, given only that what the parser reads as an object has the form of one |
| `Sessions.ExpandOpencodeSessionIds` | src/cr_agent/core/opencode_runner.py:1058-1091 | Ends on every table, cyclic ones included, with each reachable session once, nearest first |
| `Sessions.LoadUsageMetrics` | src/cr_agent/core/opencode_runner.py:1019-1055 | The totals are the sum over the reachable sessions, in any order of listing them; if a query fails, over those listed before the first one that fails |
| `Sessions.SumIsOverTheSet` | src/cr_agent/core/opencode_runner.py:1038-1055 | Sums over two listings of one set agree |
| `Sessions.CallsCountSessions` | src/cr_agent/core/opencode_runner.py:1038-1055 | The calls are the number of sessions that used tokens |
| `Sessions.OverlapsReachTheSame` | src/cr_agent/core/opencode_runner.py:1058-1091 | Repeated ids, and ids reachable anyway, change nothing |
| `AnalyzeRetry.Analyze` | src/cr_agent/core/opencode_runner.py:55-117 | The nested loops always end; their prompts are a run of the flat machine, within the bounds below; a result is what the last output parses to, and a first output that parses is the result |
| `AnalyzeRetry.ParseWithRepairLoop` | src/cr_agent/core/opencode_runner.py:351-398 | The repair loop takes the machine from an output to its acceptance or its failure |
| `AnalyzeRetry.PromptsAreBounded` | src/cr_agent/core/opencode_runner.py:55-117 | At most retry + 2 analysis prompts and 2 * format retry repair prompts, whatever is answered |
| `AnalyzeRetry.BoundsAreReached` | src/cr_agent/core/opencode_runner.py:351-398 | One run reaches both bounds |
| `AnalyzeRetry.ExtraAttemptOnce` | src/cr_agent/core/opencode_runner.py:92-108 | The extra attempt is granted at most once |
| `AnalyzeRetry.AskedAgainOnlyIf` | src/cr_agent/core/opencode_runner.py:84-115 | An analysis prompt is repeated only after a failed process, or once after a suspicious empty result of a repair |
| `AnalyzeRetry.ResultIsTheLastOutput` | src/cr_agent/core/opencode_runner.py:351-398 | A result is what the last output of a successful prompt parses to |
| `AnalyzeRetry.EveryReplyDecides` | src/cr_agent/core/opencode_runner.py:55-117 | What follows any reply, each case exactly when: a returned result if the reply parses and is not the first suspicious one, another analysis, another repair, or a failure after a broken prompt, a failed repair, an unrepairable output, or used-up rounds or attempts |
| `AnalyzeRetry.ExtraUsedIffSuspicious` | src/cr_agent/core/opencode_runner.py:92-108 | The extra attempt is used up exactly after a suspicious reply |
| `AnalyzeRetry.RepairsFollowTheirAnalysis` | src/cr_agent/core/opencode_runner.py:351-398 | A repair prompt of round n comes n prompts after the analysis whose output it repairs, with only repairs in between |
| `Routing.CooldownSeconds` | src/cr_agent/review_v2/opencode_routing.py:139-147 | A positive retry-after wins; otherwise 120, 600 or 900 seconds by reason |
| `Routing.UnhealthyIffLastMarkCools` | src/cr_agent/review_v2/opencode_routing.py:101-125 | By the full history a model is unhealthy exactly before its last mark plus that mark's cooldown |
| `Routing.ModelHealthTracker.MarkUnhealthy` | src/cr_agent/review_v2/opencode_routing.py:106-115 | Appends one mark to the history |
| `Routing.ModelHealthTracker.IsHealthy` | src/cr_agent/review_v2/opencode_routing.py:117-125 | The evicting map answers as the full history does under a nondecreasing clock |
| `Routing.ModelHealthTracker.Status` | src/cr_agent/review_v2/opencode_routing.py:127-133 | Reason and end are those of the last mark, exactly while unhealthy |
| `Routing.ModelHealthTracker.Reset` | src/cr_agent/review_v2/opencode_routing.py:135-137 | Forgets the whole history |
| `Routing.SelectCandidates` | src/cr_agent/review_v2/opencode_config.py:145-162 | The cached loop is a plain order-preserving filter and asks each provider of a healthy candidate once, and no other |
| `Routing.SelectionIsPlainFilter` | src/cr_agent/review_v2/opencode_config.py:145-162 | Loop state and filter agree after every candidate, and the cache holds first answers only |
| `Routing.SteadyProvidersMakeAPlainFilter` | src/cr_agent/review_v2/opencode_config.py:145-162 | With providers that answer alike whenever asked, the cache is invisible |
| `Routing.OfferedUnderEitherName` | src/cr_agent/review_v2/opencode_config.py:126-131 | A candidate is offered exactly under its model name with or without its provider, whichever way the chain writes it; a name under another provider only as it is |
| `Routing.KeptInChainOrder` | src/cr_agent/review_v2/opencode_config.py:145-162 | The kept candidates stand at rising positions of the chain, each kept position once |
| `Routing.CandidateOpencodeModels` | src/cr_agent/review_v2/opencode_config.py:42-48 | The preferred model first, then the others without it |
| `Routing.OthersKeepTheirOrder` | src/cr_agent/review_v2/opencode_config.py:42-48 | The others are all the models but the preferred one, at rising positions |
| `Fallback.RunTurn` | src/cr_agent/review_v2/opencode_process.py:139-161 | Which models are tried, which are marked with what reason, and that the last attempt's result is returned; a first model that works or is cancelled ends the turn at once without a mark |
| `Fallback.TurnFollowsItsResults` | src/cr_agent/review_v2/opencode_process.py:139-161 | Every model tried but the last was unavailable and not cancelled; the last one ends the turn unmarked, or all are marked; a model is tried exactly if no refused connection to its provider came before |
| `Fallback.MarksFollowResults` | src/cr_agent/review_v2/opencode_process.py:145-157 | The mark of a tried model has the reason its result gives, or provider_error without one, and that reason's cooldown |
| `Routing.ProviderIsBeforeTheSlash` | src/cr_agent/review_v2/opencode_process.py:38-41 | A model id names its provider before the first slash, and none without one |
| `Fallback.LegalTurnIsUnique` | src/cr_agent/review_v2/opencode_process.py:139-161 | The rules for trying models leave no choice |
| `Fallback.PassedOverAreMarked` | src/cr_agent/review_v2/opencode_process.py:95-100 | The first model is tried; a model is passed over only behind a refused connection of its own provider, and is then marked for 900 seconds |
| `Fallback.FailureMeansExhausted` | src/cr_agent/review_v2/opencode_process.py:139-161 | A turn that returns an availability error has no model left that it could have tried |

## Left out

- HTTP routes, views, dashboards, HTML reports, prompt texts and audit files: presentation and I/O.
- Git, subprocesses, stream reading, signals and timeouts: their results are arbitrary inputs.
- SQLite: transactions are atomic steps on tables; ties in ORDER BY are left open; columns that only record (started_at, finished_at, updated_at, error, report_url, events, token counts, reviewer_runs) are not kept.
- Timestamps are integer seconds, and `_send_callback` is one atomic step; a database that fails between an acknowledgement and its recording is not modelled.
- A database that fails in the very last handler of a run, after which no terminal write happens.
- Finding ids and payload digests: hashes are opaque; nothing is claimed about their uniqueness.
- The legacy TaskService queue and its fix sessions; the v2 queue replaces them.
- json_output.py, regular-expression repair, token parsing and pricing: opaque functions.
- Which specialists, test files and ignored files a path text stands for: an arbitrary function of the path.
- Session ids attached to an analysis result, and the feedback and fix prompts of the legacy runner.
- The provider model-list cache with its time to live, and parsing of provider settings.
- Text.Lower, Text.Strip: ASCII letters, blanks and digits only.
- DiffLines.ChangedLines: git's quoting of paths is not decoded, as in the source; a path that git ends with a tab keeps the tab in its key, so `Expected` names it with the tab.
- DiffProofs.TrackerIsRightIffTrackable: for ambiguous diffs, those with a piece that reads as a header or with both numbers too many and too few, only the sufficient half is stated, since such diffs can be tracked rightly by accident.
- DiffFiles.TextIsTrackedIffTrackable: the same, and lines without inner breaks only.
- DiffCuts.BrokenTextIsTrackedIffTrackable: the same, with names and other lines before the hunks free of breaks.
- Database.ReviewDB.DueCallbackTasks: the second sort key `updated_at` is not kept, so rows with one due time may come in any order.
- JsonScan.ExtractJsonObject: `json.loads` returns or raises JSONDecodeError; its other exceptions, for deep nesting and for very long numbers, are not modelled.
- Judge.Normalize: confidence is a real number, so a NaN confidence is not modelled.
- Database.ReviewDB.RecoverStaleRunningTasks: the order of the returned ids is left open.
- Sessions.LoadUsageMetrics: a database that cannot be opened at all counts as missing.
- Routing.ModelHealthTracker.IsHealthy: the clock must not run backwards, as the history alone could not tell what was evicted.
- Feedback.PassedIffAllResolved: runs of resolvers only; a requeue clears the gate whatever is open.
- Workflow.Run: the control checks of a run may see anything; `Runs` says what they do see.
