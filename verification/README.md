# Chronicler: a verified model

A Dafny model of the parts of Chronicler whose correctness rests on more than one function, with
proofs about every input, every run or every reachable state:

- **The regex guard.** `RegexSyntax` has the parse tree and the guard's recursion, `Backtracking` the
  ways a backtracking engine can take through a pattern and the work of trying them all, which
  `Languages` compares with the languages patterns stand for.
  `SafeBodies` and `CapturedGroups` are about the bodies the guard lets a repeat have, the second
  about back-references in them; `GuardSoundness` proves that what the guard accepts stays
  polynomial, and `Explosions` that what it rejects can be exponential. `GuardVerdicts` says what
  is accepted in terms of the pattern alone. `Powers` holds the arithmetic.
- **The task queue.** `Tasks` has the table and its repository, `Workers` one process's worker,
  `WorkspaceLocks` the file lock, and `Fleet` all processes and clients as one state machine with
  crashes, restarts, stops, locked databases and manual retries.
- **The project engine cache.** `EngineCache` cuts the coroutines that open and close chronicles at
  each await and proves what every interleaving keeps.
- **Transcripts.** `Cleaning`, `Merging` and `Pipeline` are the cleaning rules, and `Thinning` says
  of the transcript itself which lines they keep; `Importers` turns a
  text file into turns and stores them; `TranscriptStore` has the stored lines and the runs of
  transcriptions, imports, edits and cleans over them, and `StoreSteps` shows that what the repository
  does are steps of those runs. `Transcripts` and `Texts` hold the line and
  the string functions they share.
- **Chunking** for summaries, **Settings** (layers and saving), **LockFiles** (parse and render) and
  **LockTexts** (when a file survives both).

Code that updates state in place is a class or a method with loops, proved against a function of the
old state; what the code promises is then proved about that function.

Assumptions the results need, each a guard of a step or a precondition:

- A manual retry is taken only from FAILED or DONE, as the task view offers it
  (`chronicler/desktop/views/tasks.py:17`). `retry_task` itself checks nothing;
  `Fleet.RetryKeepsAccountExactlyWhenNotWorking` says exactly what that guard is worth.
- The conditional update rechecks the status but not `not_before`, so the results about waiting and
  about the order of claims are for one claimer, which the workspace lock provides.
- A cancellation reaches a status write in its sleep, not after its commit.
- Clocks and times are reals, and a process's wall clock does not run backwards.

Where code and documentation differ, or a natural claim fails, the model follows the code and says
exactly when the claim holds:

- Merging is documented as a line "spanning both times", but its end is the last line's. It spans all
  it was merged from exactly when no line of the input ends after the last of its stretch:
  `Merging.MergedLinesSpanExactlyWhenTheLastEndsLast`.
- Cleaning twice is not always cleaning once, because merging runs last. A second clean changes
  nothing exactly when each cleaned line is settled, keys are distinct and repeats apart:
  `Pipeline.CleaningAgainChangesNothingExactlyWhenSettled`. Without merging only the texts decide.
- A chronicle can have two live engines, exactly when one is created while the last is being closed:
  `EngineCache.RunHasTwoLiveExactlyWhenACloseIsMet`.
- Rendered lock files are meant to parse back, and do so exactly when the last pin of each name keeps
  its version and its last hash its end: `LockTexts.TextRoundTripsExactlyWhen`.
- Imported lines are lost when a matched speaker is blank:
  `Importers.LinesAreKeptExactlyWhenSpeakersAreNamed`.
- The ways through an accepted pattern are at most its choices times `(n+1)^repeats` on every input of
  n > 0 characters. On the empty input that can fail, so for all inputs it holds exactly when it holds
  there: `GuardSoundness.TighterBoundExactlyWhenOnTheEmptyInput`.

## Model

| member | source | states |
|---|---|---|
| RegexSyntax.DangerousMeans | chronicler/core/processing/regex_guard.py:58-82 | A body is called dangerous exactly when a repeat, or an alternation with overlapping branches, is anywhere inside it |
| RegexSyntax.UnsafeMeans | chronicler/core/processing/regex_guard.py:85-105 | The walk finds a pattern unsafe exactly when some repeat in it has such a node anywhere inside its body |
| GuardVerdicts.LeadingCharsAreExact | chronicler/core/processing/regex_guard.py:20-45 | A branch has a leading set exactly when its first element, through groups, is a letter or a class of letters and ranges of at most 65, and the set is exactly the characters that element consumes |
| GuardVerdicts.OverlapsExactlyWhen | chronicler/core/processing/regex_guard.py:48-55 | Branches overlap exactly when one of two has no such first element or some character starts both |
| GuardVerdicts.AcceptedExactlyWhen | chronicler/core/processing/regex_guard.py:85-127 | A pattern is accepted exactly when it has at most 500 characters, parses, and no repeat holds a repeat or an alternation not told apart by its first characters; otherwise the first of the three that fails is the verdict |
| GuardVerdicts.ToldApartRepeatIsAccepted | chronicler/core/processing/regex_guard.py:58-105 | A repeat over a body without repeats, with only alternations told apart, is accepted |
| Languages.MatchesExactlyTheLanguage | chronicler/core/processing/regex_guard.py:58-63 | The engine the guard is judged by: without assertions, anchors and back-references there is a way from one position to another exactly when the text between is in the pattern's language |
| SafeBodies.ItemsAcceptOnlyListed | chronicler/core/processing/regex_guard.py:28-41 | A class with a leading set matches no character outside that set |
| SafeBodies.LeadingCharsSound | chronicler/core/processing/regex_guard.py:20-45 | A branch with a leading set matches only where the next character exists and is in the set |
| SafeBodies.DisjointBranches | chronicler/core/processing/regex_guard.py:48-55 | Of branches that do not overlap, at most one can match from any state of any input |
| SafeBodies.SafeBodyIsUnambiguous | chronicler/core/processing/regex_guard.py:58-82 | A body that is not dangerous has at most one way through it, from every state of every input |
| SafeBodies.SeveralBranchesMove | chronicler/core/processing/regex_guard.py:48-55 | Of several branches that do not overlap, each has to consume a character |
| CapturedGroups.SignsAreRight | chronicler/core/processing/regex_guard.py:58-82 | In a tree as the parser forms it, whether each group of a repeat's body captures something can be told from the groups captured before |
| CapturedGroups.SignedDataMoves | chronicler/core/processing/regex_guard.py:58-82 | Then every way through such a body moves on, or none does, and it stays so for the next iteration |
| CapturedGroups.SignedLoopWays | chronicler/core/processing/regex_guard.py:58-82 | So its loop is left at most once per position, or at most twice, back-references included |
| GuardSoundness.DataWays | chronicler/core/processing/regex_guard.py:85-105 | Ways through a sequence without unsafe nodes are at most its choices times N to the number of repeats: N is the length plus two, and plus one when the repeats move on or the parser formed it and the input is not empty |
| GuardSoundness.DataWork | chronicler/core/processing/regex_guard.py:85-105 | The nodes visited while every way is tried are at most a constant of the pattern times the length plus two, to the number of repeats |
| GuardSoundness.FiguresMean | chronicler/core/processing/regex_guard.py:85-105 | The degree of the bounds is at most the number of repeats, and without alternations there is one choice |
| GuardSoundness.AcceptedPatternsArePolynomial | chronicler/core/processing/regex_guard.py:108-127 | Every accepted pattern, on every input: ways and work are polynomial in the length, of a degree its repeats bound |
| GuardSoundness.AcceptedPatternsOverLengthPlusOne | chronicler/core/processing/regex_guard.py:85-105 | The bound over the length plus one, with a factor two for each repeat |
| GuardSoundness.NonEmptyInputsMeetTheTighterBound | chronicler/core/processing/regex_guard.py:85-105 | Without that factor for every accepted pattern the parser forms, on every input but the empty one |
| GuardSoundness.TighterBoundExactlyWhenOnTheEmptyInput | chronicler/core/processing/regex_guard.py:85-105 | And on all inputs exactly when the ways through the empty one are at most the choices |
| GuardSoundness.EmptyIterationCountsTwice | chronicler/core/processing/regex_guard.py:58-82 | The accepted `()*` has one choice and two ways through the empty input |
| GuardSoundness.MovingRepeatsMeetTheTighterBound | chronicler/core/processing/regex_guard.py:85-105 | Without the factor on every input, from every state, when each iteration of a repeat has to consume a character |
| Explosions.AmbiguousRepeatIsExponential | chronicler/core/processing/regex_guard.py:58-63 | A repeat whose body can stop in two ways within k characters doubles its ways with every k characters |
| Explosions.OverlappingBranchesExplode | chronicler/core/processing/regex_guard.py:123-127 | A star over `a` or `a`, as parsed, is rejected and has at least 2^n ways through n letters |
| Explosions.NestedRepeatsExplode | chronicler/core/processing/regex_guard.py:123-127 | `(a+)+` is rejected and is exponential |
| Tasks.TaskRepository.Create | chronicler/core/services/task_service.py:31-34 | A queued task is appended with the attempt budget of its type |
| Tasks.TaskRepository.SelectDue | chronicler/core/sqlite/task_repository.py:67-78 | The candidates are at most five due tasks, best first, and no due task left out comes before one chosen |
| Tasks.TaskRepository.NextDue | chronicler/core/sqlite/task_repository.py:69-77 | The next candidate is due, not yet taken, and nothing due and untaken comes before it by priority, then age |
| Tasks.TaskRepository.TryClaim | chronicler/core/sqlite/task_repository.py:80-91 | The conditional update takes the row exactly when it is still PENDING, and otherwise changes nothing |
| Tasks.TaskRepository.ClaimNext | chronicler/core/sqlite/task_repository.py:67-93 | With one claimer, a claimed task is the first due one by priority then age; nothing is claimed only when nothing is due |
| Tasks.TaskRepository.MarkFailedOrRetry | chronicler/core/sqlite/task_repository.py:95-112 | A failure costs an attempt and requeues the task with its delay, or fails it when the budget is spent; no other row changes |
| Tasks.TaskRepository.RecoverInterrupted | chronicler/core/sqlite/task_repository.py:114-132 | Exactly the WORKING tasks lose an attempt and go back to the queue or fail; they are the ones returned |
| Tasks.TaskRepository.UpdateStatus | chronicler/core/sqlite/task_repository.py:134-146 | Sets one row's status; PENDING clears the claim, the error, the progress and the wait, and keeps the attempts |
| Workers.DefaultTimeoutAllowsNineteenTries | chronicler/core/workers.py:186-199 | The doubling waits capped at two seconds fit the default 30 seconds exactly up to the nineteenth try |
| Workers.WorkerManager.RecordOutcome | chronicler/core/workers.py:179-215 | The write is applied once or not at all; there is one try more than waits, also when a stop cuts the last wait short; it is given up with no effect, and only when the next wait would pass the deadline |
| Workers.WorkerManager.PublishCompletion | chronicler/core/workers.py:217-231 | A task is announced once, with its status, unless it is PENDING or there is no bus |
| Workers.WorkerManager.ExecuteTask | chronicler/core/workers.py:127-177 | A handler that returned leaves its task DONE, one that raised costs it an attempt and is retried or failed, a stop puts it back, a missing handler fails it; at most one write, announced only after it |
| Workers.RunEffect | chronicler/core/workers.py:115-163 | A run changes only its own row, and lowers what the queue can still ask for unless a stop puts the task back |
| Workers.WorkerManager.Round | chronicler/core/workers.py:120-125 | One round claims the first due task and runs it, or finds that nothing is due |
| Workers.WorkerManager.ProcessTasks | chronicler/core/workers.py:115-125 | The loop ends whatever the delays are; every due task is run, none more often than once for each attempt left, no other row changes, and it completes only when nothing is due and nothing it ran is left WORKING |
| Workers.WorkerManager.RecoverInterrupted | chronicler/core/workers.py:83-108 | Recovery is all or nothing; then each task it failed gets its cleanup before its announcement, in order, and only such tasks are announced |
| Workers.WorkerManager.Poll | chronicler/core/workers.py:64-77 | Nothing is claimed before recovery has worked; recovery works once; a pass that completes leaves nothing due and nothing WORKING that it found or ran |
| Fleet.StepKeepsOwned | chronicler/core/sqlite/task_repository.py:80-91 | With any number of claimers and no lock, each step but recovery keeps every task in hand WORKING in its holder's name |
| Fleet.RecoveryMeetsNoHandler | chronicler/core/workers.py:83-91 | Recovery never finds a task whose handler is running or whose outcome is still to be written |
| Fleet.WaitingRowStaysInRun | chronicler/core/sqlite/task_repository.py:95-112 | In every run a PENDING task stays exactly as it is until it is claimed |
| Fleet.StepKeepsAccount | chronicler/core/workers.py:127-204 | Each step keeps a task's account of claims and its attempt budget, and fails it only when the budget is spent or there is no handler |
| Fleet.StepKeepsInv | chronicler/core/workers.py:64-177 | Each step of any process or client keeps the whole invariant |
| Fleet.RunsKeepInv | chronicler/core/workers.py:64-177 | Every state of every run from an empty workspace meets it |
| Fleet.OneProcessRuns | chronicler/core/database_manager.py:70-83 | In every run at most one process is open on the workspace; what it executes is WORKING, claimed by it, after its recovery |
| Fleet.AbandonedWorkspaceOpens | chronicler/core/workspace_lock.py:36-57 | In every run the workspace can be opened exactly when no process has it open: the lock goes with its process |
| Fleet.NothingIsLeftBehind | chronicler/core/workers.py:69-91 | In every run, while a process claims, runs or records, whatever is WORKING was claimed by it: it has recovered what others left |
| Fleet.AbandonedTaskRuns | chronicler/core/workers.py:64-77 | From any abandoned state a new process gets to its first task in five steps: open, recover, select, claim |
| Fleet.WhatIsPossible | chronicler/desktop/views/tasks.py:17 | Which steps are open: queueing always, a retry for FAILED or DONE tasks alone, a free workspace to any process |
| Fleet.TasksStay | chronicler/core/sqlite/task_repository.py:95-146 | In every run no task is lost, and its type, priority, age and attempt budget never change |
| Fleet.RecoveryMeans | chronicler/core/sqlite/task_repository.py:114-132 | Recovery leaves nothing WORKING: each such task loses an attempt and is PENDING while it has any left, and nothing else changes |
| Fleet.HandlerOutcomeIsRecorded | chronicler/core/workers.py:147-163 | What a handler did is what its process records when its write comes through at last, whatever happened in between |
| Fleet.StopAndRejectAreRecorded | chronicler/core/workers.py:128-177 | A stopped task goes back as it came, and one without a handler is failed |
| Fleet.TryNextMeans | chronicler/core/sqlite/task_repository.py:80-93 | A claimer takes its next candidate if it is still PENDING, in its own name, and passes on to the one after if not |
| Fleet.ClaimersNeverShare | chronicler/core/sqlite/task_repository.py:80-91 | Over any run of claimers without recovery, no two ever have the same task in hand |
| Fleet.SecondClaimerLoses | chronicler/core/sqlite/task_repository.py:80-93 | Of two claimers with the same first candidate the second takes nothing and changes no row |
| Fleet.LoneClaimerWins | chronicler/core/sqlite/task_repository.py:80-91 | Under the lock a claimer that selected anything gets its first candidate, whatever clients do meanwhile |
| Fleet.FailureIsWaitedOut | chronicler/core/sqlite/task_repository.py:68-112 | In every run, the next claim of a task after its k-th failure is no earlier than the k-th delay after the failure |
| Fleet.ClaimsAreConserved | chronicler/core/workers.py:127-204 | In every run the claims of a task, counted over its steps, are its attempts, finished, returned and rejected runs and the one in progress; attempts exceed the budget by at most the manual retries |
| Fleet.CrashingTaskEndsFailed | chronicler/core/workers.py:83-90 | A task that only ever crashes or fails starts at most as often as its budget allows, is FAILED after that, and never before |
| Fleet.RetryKeepsAccountExactlyWhenNotWorking | chronicler/core/services/task_service.py:150-152 | A manual retry keeps the invariant and the account of claims exactly when the task is not WORKING |
| WorkspaceLocks.WorkspaceLock.Acquire | chronicler/core/workspace_lock.py:36-48 | Takes the lock exactly when it is free or already held here; a failure leaves no descriptor open, a second call changes nothing |
| WorkspaceLocks.WorkspaceLock.Release | chronicler/core/workspace_lock.py:50-57 | Frees the lock and closes the descriptor, and does nothing when none is held |
| EngineCache.StepKeepsInv | chronicler/core/database_manager.py:135-206 | Each step of an opener, a closer or the archive's opening keeps the invariant |
| EngineCache.OneMigrationAtATime | chronicler/core/database_manager.py:139-171 | Under every interleaving no two migrations are in progress at once, the archive's included |
| EngineCache.LockIsFreeExactlyWhenNobodyMigrates | chronicler/core/database_manager.py:149-171 | In every run a waiting opener can take the lock exactly when no coroutine is migrating or disposing of a failed engine |
| EngineCache.LockIsOneStepAway | chronicler/core/database_manager.py:149-171 | And otherwise one step ends that migration or disposal and frees it |
| EngineCache.OpenersGetMigratedEngines | chronicler/core/database_manager.py:145-171 | What an opener returns is an engine of a chronicle, migrated |
| EngineCache.OpenersShareOneEngine | chronicler/core/database_manager.py:145-171 | All openers of a chronicle between two of its closes get one engine, which stays cached, migrated and undisposed until the close |
| EngineCache.NoEngineIsLost | chronicler/core/database_manager.py:160-206 | Every engine ever created is disposed of, or cached, or in the hands of exactly one coroutine |
| EngineCache.SecondEngineNeedsAClose | chronicler/core/database_manager.py:194-206 | Two live engines of one chronicle exist only while a close is still disposing of one of them |
| EngineCache.CreationMakesTwoExactlyInAClose | chronicler/core/database_manager.py:149-162 | The engine an opener creates is a second live one exactly when a close of its chronicle has not finished disposing |
| EngineCache.TwoLiveExactlyWhenCloseIsMet | chronicler/core/database_manager.py:135-206 | No other step of any coroutine makes a second live engine |
| EngineCache.RunHasTwoLiveExactlyWhenACloseIsMet | chronicler/core/database_manager.py:135-206 | In every run a chronicle has two live engines at some point exactly when an opener before it met such a close |
| EngineCache.SecondEngineIsPossible | chronicler/core/database_manager.py:202-206 | And a chronicle reopened during its close does have two |
| EngineCache.DatabaseManager.LookUp | chronicler/core/database_manager.py:145-149 | The unlocked look is one step of the machine |
| EngineCache.DatabaseManager.LookAgain | chronicler/core/database_manager.py:149-162 | The look under the lock, and the creation of an engine, are one step of the machine |
| EngineCache.DatabaseManager.Keep | chronicler/core/database_manager.py:163-171 | Caching a migrated engine and leaving the lock are one step of the machine |
| EngineCache.DatabaseManager.Pop | chronicler/core/database_manager.py:202-206 | Taking an engine out of the cache is one step of the machine |
| Chunking.ChunkTranscript | chronicler/core/processing/summarizer.py:33-59 | The loop returns the groups that are each as long as the limit allows, one text each |
| Chunking.TurnsAreSpokenLines | chronicler/core/processing/summarizer.py:25-30 | There is one turn for each line that is not blank, in order: its speaker, or Unknown, and its text without the blanks around it |
| Chunking.ChunksSayEverything | chronicler/core/processing/summarizer.py:25-59 | The chunks one after another hold every word of every line, in order, each line's after its speaker |
| Chunking.GreedyIsOptimal | chronicler/core/processing/summarizer.py:33-59 | No split of the turns into groups allowed to share a chunk has fewer groups |
| Chunking.ChunksAreBest | chronicler/core/processing/summarizer.py:25-59 | The chunks joined by line breaks are the transcript text, each is under the limit or one turn, and no allowed split needs fewer |
| Chunking.BudgetFitsExactlyWhenRoomIsLeft | chronicler/core/processing/summarizer.py:62-73 | Everything within the budget fits the window beside the prompt, the answer and 256 tokens exactly when at least 256 more are left; the budget is what is left, or those 256 |
| Cleaning.DropRepeats | chronicler/core/processing/cleaners.py:130-142 | The one pass with a table of times keeps exactly the lines that survive by their declarative meaning |
| Cleaning.RepeatsAreApart | chronicler/core/processing/cleaners.py:124-142 | Survivors with the same speaker and words are more than the window apart; on ordered lines each dropped line follows such a survivor within the window |
| Cleaning.RepeatsAreIdempotent | chronicler/core/processing/cleaners.py:124-142 | Dropping repeats again drops nothing |
| Cleaning.DropDuplicateSegments | chronicler/core/processing/cleaners.py:107-121 | The pass with a set of keys keeps exactly the first line of each key |
| Cleaning.DuplicatesLeaveOneOfEach | chronicler/core/processing/cleaners.py:104-121 | Each key of the input is left exactly once |
| Merging.MergeSameSpeaker | chronicler/core/processing/cleaners.py:152-171 | The loop computes the merge |
| Merging.MergeKeepsCredits | chronicler/core/processing/cleaners.py:145-171 | Merging keeps the exact sequence of words, each credited to the same speaker and track |
| Merging.MergeIsIdempotent | chronicler/core/processing/cleaners.py:145-171 | No two neighbours of one speaker and track are left, and merging again changes nothing |
| Merging.MergeStandsForRuns | chronicler/core/processing/cleaners.py:155-171 | The merged lines stand one by one for runs of the input that together are the input |
| Merging.TidyRunsAreJoined | chronicler/core/processing/cleaners.py:162-165 | Texts without blanks around them are joined by single blanks, nothing else |
| Merging.MergedLinesSpanExactlyWhenTheLastEndsLast | chronicler/core/processing/cleaners.py:145-171 | Every merged line spans the run it was merged from exactly when no line of the input ends after the last line of its stretch |
| Merging.MergeCanEndEarly | chronicler/core/processing/cleaners.py:162-165 | A merged line ends before one it holds whenever a later line ended earlier |
| Merging.MergeKeepsOrder | chronicler/core/processing/cleaners.py:152-171 | Starts stay ordered, ids stay distinct, and each line keeps id, start, speaker and track of an input line |
| Pipeline.CollapseLines | chronicler/core/processing/cleaners.py:31-37 | The loop collapses the blanks of each text and changes nothing else |
| Pipeline.StripLines | chronicler/core/processing/cleaners.py:46-57 | The nested loops apply the patterns in order to each text |
| Pipeline.Apply | chronicler/core/processing/cleaners.py:25-171 | Each rule has its effect: five by their loops, the three that drop lines by their text by a comprehension as in the source |
| Pipeline.BuildRules | chronicler/core/processing/cleaners.py:174-192 | The enabled rules, one by one, in the order the pipeline has |
| Pipeline.Clean | chronicler/core/processing/cleaners.py:195-206 | The enabled rules run one after another, in their order |
| Pipeline.CleanThinsThenMerges | chronicler/core/processing/cleaners.py:174-206 | A clean is the merge of a subsequence of the input that differs from it in text alone |
| Pipeline.CleanKeepsIdentities | chronicler/core/processing/cleaners.py:174-206 | Distinct ids stay distinct, ordered starts ordered, and each cleaned line keeps the id, start, speaker and track of an input line |
| Thinning.TextRulesKeepExactly | chronicler/core/processing/cleaners.py:60-101 | The lines that the three rules about texts keep are exactly those whose own text is not blank, not a phrase, or long enough |
| Thinning.ThinningKeepsExactly | chronicler/core/processing/cleaners.py:28-142 | The rules before merging keep exactly the lines whose rewritten text passes these, that have no earlier duplicate among them, and that repeat no earlier kept line within the window; these keep all but their text |
| Thinning.CleanKeepsExactly | chronicler/core/processing/cleaners.py:174-206 | A clean is the merge of exactly those lines |
| Pipeline.ThinningStaysExactlyWhenSettled | chronicler/core/processing/cleaners.py:28-142 | The rules before merging leave a transcript alone exactly when each text is fixed by rewriting, not blank, not a phrase and long enough, keys are distinct and repeats apart |
| Pipeline.CleaningAgainChangesNothingExactlyWhenSettled | chronicler/core/processing/cleaners.py:174-206 | Cleaning a cleaned transcript again changes nothing exactly when it is settled so, for any settings |
| Pipeline.WithoutMergingTextsDecide | chronicler/core/processing/cleaners.py:174-206 | Without merging, exactly when rewriting the text of each kept input line twice is rewriting it once |
| Pipeline.WithoutMergingAndPatternsCleaningIsIdempotent | chronicler/core/processing/cleaners.py:174-206 | Without merging and strip patterns cleaning is idempotent |
| Pipeline.WithoutPatternsOnlyWholeLinesGo | chronicler/core/processing/cleaners.py:174-206 | Without strip patterns a clean leaves the exact words of the lines it keeps, in order, each credited as before |
| Pipeline.CleaningTwiceCanDropMore | chronicler/core/processing/cleaners.py:174-192 | A second clean can drop more, as merging runs last |
| TranscriptStore.TranscriptRepository.GetOrCreateSpeaker | chronicler/core/sqlite/transcript_repository.py:21-29 | The speaker of that name, created only when there is none |
| TranscriptStore.AttachSpeakers | chronicler/core/processing/handlers/base.py:99-113 | Each line gets a speaker of its name; no name gets a second speaker and none is removed |
| TranscriptStore.TranscriptRepository.GetLines | chronicler/core/sqlite/transcript_repository.py:31-42 | All rows, ordered by start, each under the name its speaker has |
| TranscriptStore.TranscriptRepository.UpdateLine | chronicler/core/sqlite/transcript_repository.py:75-100 | Edits text or speaker of one line, and with the speaker the name it is read under; never its times or track, and no other line |
| TranscriptStore.TranscriptRepository.DeleteLine | chronicler/core/sqlite/transcript_repository.py:102-108 | Removes that line and no other |
| TranscriptStore.OthersKeepsTheRest | chronicler/core/sqlite/transcript_repository.py:113-116 | Deleting a track leaves exactly the lines of other tracks and of imports, in order |
| TranscriptStore.HandleTranscribe | chronicler/core/processing/handlers/transcribing.py:111-120 | The lines of the track become the new segments at the track's offset, under their speakers; all other lines stay as they were |
| TranscriptStore.HandleClean | chronicler/core/processing/handlers/cleaning.py:54-67 | What is read afterwards is the clean of what was read, ordered by start |
| StoreSteps.TranscribeIsAStep | chronicler/core/processing/handlers/transcribing.py:111-120 | What a transcription does to the repository is a step of the runs below |
| StoreSteps.ImportIsAStep | chronicler/core/processing/handlers/importing.py:35-50 | So is an import, |
| StoreSteps.EditIsAStep | chronicler/core/sqlite/transcript_repository.py:75-100 | an edit, |
| StoreSteps.DeleteIsAStep | chronicler/core/sqlite/transcript_repository.py:102-108 | a deletion, |
| StoreSteps.CleanIsAStep | chronicler/core/processing/handlers/cleaning.py:54-67 | and a clean, in whatever order equal starts are read |
| TranscriptStore.EveryCleanIsAStep | chronicler/core/processing/handlers/cleaning.py:54-67 | Any transcript can take the clean step that also tracks where words came from |
| TranscriptStore.CleanStepIsClean | chronicler/core/processing/handlers/cleaning.py:54-67 | And that step cleans the lines just so |
| TranscriptStore.StepKeepsInv | chronicler/core/processing/handlers/transcribing.py:111-120 | Each transcription, import, edit, deletion or clean keeps every line to one track's latest transcription, or to imports |
| TranscriptStore.NoLineMixesTracks | chronicler/core/processing/cleaners.py:145-171 | Over any run, a track's line goes back to the latest transcription of that track alone, an imported line to imports alone |
| TranscriptStore.UneditedLinesSayWhatWasWritten | chronicler/core/processing/cleaners.py:145-171 | When strip patterns take whole words only, each word of a line nobody edited is a word of a write that the line may go back to |
| TranscriptStore.WithoutPatternsWordsStay | chronicler/core/processing/cleaners.py:46-48 | Settings without strip patterns take and add no word |
| Texts.SplitLinesMeans | chronicler/core/processing/importers.py:66 | The lines of a text are the text cut at each break, a carriage return and the newline right after it being one |
| Texts.BreaksAre | chronicler/core/processing/importers.py:66 | The characters that break lines |
| Texts.StripMeans | chronicler/core/processing/importers.py:67 | Stripping takes all blanks at both ends and nothing else |
| Texts.SpacesAre | chronicler/core/processing/importers.py:67 | The characters that are blanks |
| Importers.CollectTurns | chronicler/core/processing/importers.py:42-89 | The loop with its open turn computes the turns of the file, or fails on a malformed timestamp |
| Importers.GroupsPartition | chronicler/core/processing/importers.py:66-84 | Each line from the first speaker on is in exactly one group, in order; a group is a starting line and its continuations |
| Importers.EveryLineIsInOneTurn | chronicler/core/processing/importers.py:42-89 | When all matched speakers are named, the turns are exactly those groups of the non-blank lines |
| Importers.LinesAreKeptExactlyWhenSpeakersAreNamed | chronicler/core/processing/importers.py:55-86 | A file is refused exactly for a malformed timestamp, and no group is lost exactly when every matched speaker is named |
| Importers.NonBlankMeans | chronicler/core/processing/importers.py:66-68 | The lines looked at are exactly those that are not blank, in order |
| Importers.TurnsAreGroups | chronicler/core/processing/importers.py:35-104 | When all matched speakers are named, turn i has the speaker, the joined texts and the time of group i |
| Importers.AssignTimes | chronicler/core/processing/importers.py:91-104 | The passes over the turns give each its end, or a made-up second |
| Importers.TurnsTile | chronicler/core/processing/importers.py:35-104 | Each turn ends where the next begins, none starts before the offset, and made-up turns tile unit intervals from it |
| Importers.HandleImport | chronicler/core/processing/handlers/importing.py:34-57 | A malformed file changes nothing; any other replaces all lines from zero, or follows them from their latest end |
| Importers.AppendedLinesStartAfter | chronicler/core/processing/handlers/importing.py:35-49 | Appended lines start no earlier than any existing line ends, belong to no track, and leave all others as they were |
| Settings.DeepMerge | chronicler/core/config.py:115-120 | Merging in place is the layering of trees |
| Settings.KeepFileValues | chronicler/core/config.py:123-142 | The recursion in place computes what a save keeps |
| Settings.EffectiveSetting | chronicler/core/config.py:249-263 | Every setting, however nested, is the environment's value, else the file's, else that of `.env`, as validation leaves it, else its default |
| Settings.SaveKeepsSettings | chronicler/core/config.py:198-263 | Reloading a save of untouched settings gives the same settings, under environment over file over `.env` |
| Settings.SecondSaveIsTheSame | chronicler/core/config.py:208-210 | A second save writes the same file |
| Settings.SavedSetting | chronicler/core/config.py:123-142 | A setting outside the environment is saved as it is; one inside keeps the file's own value or is left out |
| Settings.NothingLeaks | chronicler/core/config.py:198-228 | No setting is saved with the environment's value |
| LockFiles.ParseBlocks | scripts/runtime/locks.py:85-98 | The loop computes the blocks of the text |
| LockFiles.PinNameMeans | scripts/runtime/locks.py:34-92 | A line pins a name exactly when it is that name, `==` and something not blank |
| LockFiles.NormalizedWord | scripts/runtime/locks.py:81-82 | Between separators letters are only lowered |
| LockFiles.NormalizedAround | scripts/runtime/locks.py:81-82 | Separators that stand together, however many and whichever, become one dash |
| LockFiles.Render | scripts/runtime/locks.py:101-106 | The loop writes the blocks in the order of their names |
| LockFiles.RenderedReads | scripts/runtime/locks.py:85-106 | What reading a rendered file gives, for any blocks that can have been read |
| LockFiles.RoundTripsExactlyWhenItReads | scripts/runtime/locks.py:85-106 | Such blocks come back from their text exactly when each pin kept its version and no block ends in blanks |
| LockFiles.ReadTextRoundTrips | scripts/runtime/locks.py:85-106 | So for what was read from any text |
| LockTexts.ParseKeepsLastPins | scripts/runtime/locks.py:85-98 | A name is read exactly when a line pins it, and its block is the last such line with the hash lines directly below |
| LockTexts.TextRoundTripsExactlyWhen | scripts/runtime/locks.py:85-106 | A text survives reading, writing and reading exactly when the last pin of each name keeps a version without the blanks and backslashes at its end, and its last hash ends in no other blank |
| LockFiles.AVersionCanBeLost | scripts/runtime/locks.py:93 | A version of backslashes alone is stripped away, and the block with it |
| LockTexts.ComponentAndBaseShareNothing | scripts/runtime/locks.py:109-110 | A component's lock beside the base shares no requirement with it, and together they lose none |
| LockTexts.WrittenComponentSharesNothing | scripts/runtime/locks.py:85-110 | As files: the written component lock shares nothing with the base, and is read back whole exactly when the text of each of its own pins stays |

## Left out

- AcceptedPatternsArePolynomial: does not model `IGNORECASE` and other flags, atomic groups, possessive repeats and conditionals, which the guard does not look into, nor the `re` parser that makes the tree.
- NonEmptyInputsMeetTheTighterBound: takes what the parser guarantees, that a group is captured in one place and referred back to after it is closed; other trees have the bound over the length plus two.
- UneditedLinesSayWhatWasWritten: is for strip patterns that take whole words, because one that takes part of a word leaves a word nobody said.
- ClaimNext: has no other claimer between its select and its update; claimers that interleave are the steps of `Fleet`.
- ProcessTasks: has no task queued or retried while it runs; those are steps of `Fleet`.
- Poll: is one pass of `run_forever`; the endless loop, its sleep and `stop` are not modelled.
- RecordOutcome: does not model a cancellation after a committed write, which would apply the write again.
- HandleTranscribe: starts with the segments and the track; failures after the write stage and the state of the audio source are not modelled.
- OpenersShareOneEngine: leaves out `close_all` racing with openers, and failures of engine creation other than a failed migration.
- SaveKeepsSettings: takes layers that validation accepts and checks that change nothing they have accepted; dropped invalid sections, file choice and file modes are not modelled.
- HandleImport: takes line matching as a function of the line; a group that did not take part in a match, and reading the file, are not modelled.
- HandleClean: rows with equal starts may be read in any order; the snapshot before a clean is not modelled.
- Rows of deleted chronicles: tasks are never removed from the modelled table.
- The workspace-wide registry of speakers and the counts on a chronicle are not modelled.
- `normalize_for_comparison`, rounding, what a strip pattern makes of a text and the hallucination phrases are parameters of the cleaning rules.
- Resolving and downloading locked requirements; only their text is modelled.
- Desktop and web front ends, RPC, LLM and HTTP clients, audio, speech recognition, export and packaging: calls into other libraries, or presentation.
