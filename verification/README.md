# Verified models of the lab's stateful cores

This project models the parts of the repository that keep state step by step, and proves what each of them is for.
Each is an incremental, bounded or crash-tolerant implementation of something simple; the proofs relate the two, over
all inputs and all runs.

- `StreamObserver`: the telemetry proxy's line splitter for event streams (the subset of section 9.2.5 of the WHATWG
  HTML Standard with lines ended by `\n`) against a cut of the whole stream.
- `RateLimiter`: the token bucket against the limit in every window of a request history.
- `ResponseStore`: the bounded, expiring store against a window over the log of its sets.
- `QueueFileNames`, `TelegramQueue`: the durable queue of updates as runs of file operations, any prefix of which a
  crash may leave.
- `TelegramHtml`: the printer of messages against a reader of its output.
- `ConversationWindow`: the history that is trimmed after every turn against one trimming of the whole log.
- `BruteForce`: the in-place list of failures against the whole log of failures.
- `PromptCompaction`: the trimming loop against the longest end that fits, with a bound for the summary.
- `ProgressTracker`: the tracker as all interleavings of its calls and the timer's callback.
- `DayFiles`, `LearningLog`, `LearningRuns`, `LearningStore`: the learning store over day files against its append log,
  with file operations that fail and calls that overlap.
- `LearningLines`: one of those files as bytes, with writes that are cut anywhere, against the attempts to write it.
- `MemoryPartition`, `MemoryContext`: the archive of conversations, of which only some day files are opened, against
  going through everything; and the bounded context made of what is recalled.
- `Retrieval`: the greedy selection of hits against every other selection.
- `Sorting`, `Text`, `LineSplitting`, `Common`: the library's stable sort, order of strings and trimming; lines; what
  several models share.

Objects whose methods update their fields are classes here too, and their methods are proved against functions of the
state; what is promised of a whole run is proved of those functions as lemmas. Where several calls share files or a
lock, a run is a list of atomic steps, and a legal run is one that the code could take.

Instants are integers (nanoseconds) and floating-point numbers are reals. The clock, random ids, directory order, the
order in which a map is gone through, and the failure of a file operation are parameters or free choices, so that a
result holds for all of them. An object whose file operations may fail has a flag (`reliable`) that says that none does;
its methods then promise to succeed wherever their input allows it. JSON, white space and phrase tests of the library
are function parameters where the results do not depend on them.

What a statement says of the code it says in plain terms: numbers and texts are written out, and what decides a result
(which request is refused, which records are recalled, which chunks are hits) does not refer to the definition that
computes it.

## What the code does not promise

Some expected properties fail. For each there is the exact condition under which it holds, and an input or a run at
which it does not.

- A terminal `Observe` that finds the tracker closed returns without waiting, so the delayed event may still be running
  (`ProgressTracker.ObserveIsQuietIff`, `ObserveCanReturnDuringEmission`).
- "The last seven days" does not open today's file, except at midnight, or when the clocks of the process's zone and of
  the local calendar have changed against each other during the week (`MemoryPartition.SevenDaysCoveredIff`,
  `TodayIsMissed`).
- A prune of the learning store can report success although a write failed: the unfinished file replaces the old
  one, and feedback can stay whose interaction is lost (`LearningLog.FinishedPruneIsRightIff`,
  `LearningRuns.PruneStrandsIff`, `LostTraceStrandsFeedback`), or an item that was decided can be a candidate again
  (`LearningLog.LostDecisionComesBackIff`, `LearningRuns.PruneRevivesIff`, `LostDecisionCanBeMadeAgain`). A prune that
  is refused can strand feedback too, until one succeeds (`RefusedPruneStrandsFeedback`,
  `LearningLog.RefusedPruneCanBeRepeated`), and so can a forgetting (`LearningRuns.ForgetStrandsIff`,
  `RefusedForgetStrandsFeedback`, `LearningLog.RefusedForgetCanBeRepeated`).
- A record whose appending reported success is lost when another write to its file is cut inside a record, before or
  after: the cut line is malformed, alone or with the line that joins it, and the file is never read again
  (`LearningLines.AcknowledgedIsFoundIff`, `DamageStays`). A record of exactly 1 MB does the same by itself
  (`LongestRecordDamages`).
- Feedback takes the store's lock once to find its interaction and once more to be appended. Maintenance prunes without
  the service's own lock (internal/secretary/service.go:100-132, started in cmd/lab-secretary/main.go:69), so a prune
  can come in between, and the feedback then dangles (`LearningRuns.SubmittedFeedbackDanglesIff`, `FeedbackCanBeLate`).
- Two reviews that overlap decide an item twice, and so do two that do not when a prune has lost the first decision
  (`LearningRuns.DecidedTwiceIff`, `OverlappingReviewsDecideTwice`, `LostDecisionIsMadeAgain`). Within one process
  reviews do not overlap: the one caller, `learningCommand`, is called by `reply`, which holds the service's lock
  (internal/secretary/service.go:211-213 and 296). With a second caller, or a second process on the same directory, they
  could.
- An approval that has expired can be pruned while its candidate stays, which makes it pending again
  (`LearningLog.DecidedComesBackIff`, `ExpiryBringsCandidateBack`).
- An item that is saved again with an earlier time of creation is listed as it was before (`DayFiles.ScanIsReplayIff`,
  `LearningLog.ListingCanBeStale`).
- Chunks that share a reference but not a class can make the greedy selection smaller than another
  (`Retrieval.GreedIsBestIff`, `SharedRefsCanMakeGreedSmaller`).
- The bound of 128 on the queue counts directory entries, among them temporary files that a crash has left, which no
  operation removes: with each of them one update less can be pending, and after 128 the queue accepts none ever again
  (`TelegramQueue.LeftoversStay`, `RefusedForever`, `AcceptsLaterIff`, `LeftoversFillQueue`).

## Model

| member | source | states |
|---|---|---|
| LineSplitting.CutIsFaithful | internal/llmtelemetry/proxy.go:131-156 | Cutting a stream into newline-terminated lines loses no byte and leaves no newline inside a line |
| LineSplitting.CutIsUnique | internal/llmtelemetry/proxy.go:131-156 | There is only one way to cut a stream so, which makes `Cut` a specification independent of the loop |
| StreamObserver.WithinLine | internal/llmtelemetry/proxy.go:139-148 | Bytes inside a line deliver nothing, and leave a buffer that depends on the stream only: the unfinished line, or only the fact that it is longer than 65536 bytes |
| StreamObserver.AtLineEnd | internal/llmtelemetry/proxy.go:149-154 | A newline delivers the line that it ends unless that is over-long, and empties the buffer |
| StreamObserver.ObservableOfBoth | internal/llmtelemetry/proxy.go:139-154 | The lines that are acted on are chosen line by line, in order |
| StreamObserver.ObservableOfOne | internal/llmtelemetry/proxy.go:139-154 | A line is acted on if and only if it has at most 65536 bytes |
| StreamObserver.Observer.Consume | internal/llmtelemetry/proxy.go:131-156 | After consuming a chunk the whole state is the function of old bytes + new bytes (so consuming a then b equals consuming a + b), the lines handed on are the complete lines of at most 65536 bytes, in order, and `pending` never exceeds 65536 |
| StreamObserver.Observer.Event | internal/llmtelemetry/proxy.go:157-192 | What one line does to done, failed and the time to first output, by the meaning of the line and not by the branches |
| StreamObserver.LineMeans | internal/llmtelemetry/proxy.go:157-191 | Only what follows "data:" counts: "[DONE]" means done; a payload fails if and only if it has an error that is not null, and is output if and only if some choice has text or a tool call with a name or arguments |
| StreamObserver.Observer.MeaningfulTool | internal/llmtelemetry/proxy.go:194-207 | True just when some tool call decodes to a function with a name or arguments |
| StreamObserver.FirstOutputSeen | internal/llmtelemetry/proxy.go:183-191 | Whether any output was seen depends on the delivered lines only, provided time has passed since the start |
| StreamObserver.ObservedBody.Read | internal/llmtelemetry/proxy.go:105-117 | One read of the upstream body, as an extension of the log of read results that fixes the observer's state |
| StreamObserver.VerdictIsFunctionOfBytes | internal/llmtelemetry/proxy.go:105-117 | done, failed and complete at the end of a body are a function of its bytes and the final error: not of the read sizes, nor of whether the last bytes come together with the end of file |
| StreamObserver.OutputSeenIsFunctionOfBytes | internal/llmtelemetry/proxy.go:110-112 | The same for "some output seen" |
| StreamObserver.OutcomesMean | internal/llmtelemetry/proxy.go:72-83 | When a request is labelled an HTTP error, cancelled, a stream error or ok, for every status, end and verdict; the four cases shut each other out |
| StreamObserver.StreamOkIffDoneWithoutError | internal/llmtelemetry/proxy.go:72-83 | An event stream is labelled ok if and only if it was read to its end, announced that it was done and carried no error; a client that leaves afterwards changes nothing |
| RateLimiter.Limiter.constructor | internal/codexlocalgateway/ratelimit.go:25-37 | Limits that are not positive are replaced by the defaults; there are no buckets |
| RateLimiter.RateBucket.Take | internal/codexlocalgateway/ratelimit.go:52-63 | The answer and the tokens left, from the tokens before and the time since |
| RateLimiter.Limiter.Allow | internal/codexlocalgateway/ratelimit.go:39-64 | In whole numbers of nanoseconds: a request at t_j is refused if and only if, for some earlier request i of its key or itself, 60e9 * (admitted in [i, j) + 1) exceeds 60e9 * burst + rpm * (t_j - t_i); the answers of the key so far are those that `Admits` says, and the other keys keep their histories |
| RateLimiter.LevelBelowEveryWindow | internal/codexlocalgateway/ratelimit.go:52-62 | 60e9 times the tokens is at most what each window leaves over |
| RateLimiter.LevelMetBySomeWindow | internal/codexlocalgateway/ratelimit.go:52-62 | Some window leaves over exactly 60e9 times the tokens, so no request is refused without need |
| RateLimiter.RefusedIffSomeWindowWouldExceed | internal/codexlocalgateway/ratelimit.go:39-64 | Request j is refused if and only if, for some i <= j, 60e9 * (admitted in [i, j) + 1) > 60e9 * burst + rpm * (t_j - t_i), in whole numbers of nanoseconds; no assumption about the times is needed |
| RateLimiter.EveryWindowWithinLimit | internal/codexlocalgateway/ratelimit.go:39-64 | With nondecreasing times every window [i..j] holds at most burst + rpm * (t_j - t_i) / 60e9 admissions, stated in whole numbers |
| RateLimiter.SpacedRequestAdmitted | internal/codexlocalgateway/ratelimit.go:52-63 | A request at least 1/rpm minutes after the one before is always admitted |
| RateLimiter.DecisionOfNextRequest | internal/codexlocalgateway/ratelimit.go:46-63 | What the replayed history says about one more request is what the bucket computes from its two fields |
| RateLimiter.LevelOfPrefix | internal/codexlocalgateway/ratelimit.go:39-64 | A later request changes no earlier answer |
| ResponseStore.Store.constructor | internal/codexlocalgateway/store.go:20-32 | The store starts empty; a time to live or a size that is not positive is replaced by its default |
| ResponseStore.Store.Get | internal/codexlocalgateway/store.go:34-46 | The answer of a lookup, and that an entry found expired is dropped |
| ResponseStore.Store.Set | internal/codexlocalgateway/store.go:48-69 | What a set may leave in the map: expired entries only go when it is full, then one oldest entry, and the new entry is there |
| ResponseStore.Store.MakeRoom | internal/codexlocalgateway/store.go:51-64 | Eviction leaves room for one entry |
| ResponseStore.Store.Oldest | internal/codexlocalgateway/store.go:55-62 | The search returns an entry that expires first, in whatever order the map is gone through, as long as no id is empty |
| ResponseStore.Store.EvictExpired | internal/codexlocalgateway/store.go:71-78 | Exactly the expired entries are dropped |
| ResponseStore.VictimIsOld | internal/codexlocalgateway/store.go:54-64 | The entry that is evicted has at least maxEntries sets after it, counting the new one |
| ResponseStore.OldestLeaves | internal/codexlocalgateway/store.go:54-64 | An unexpired entry that falls out of the window is the one that is evicted |
| ResponseStore.SetKeepsWindow | internal/codexlocalgateway/store.go:48-69 | One set moves the window over the log on by one |
| ResponseStore.RunsKeepWindow | internal/codexlocalgateway/store.go:34-78 | Over every run with fresh non-empty ids and increasing set times the map is a window over the log of sets |
| ResponseStore.StoreIsWindowOverLog | internal/codexlocalgateway/store.go:34-78 | After every such run a lookup hits if and only if the entry is unexpired and fewer than maxEntries sets came after it, and gives that set's messages; the map never exceeds maxEntries |
| QueueFileNames.PaddedOrdered | internal/secretary/telegram_webhook.go:170-176 | Numbers of at most `width` digits are ordered, and told apart, by their zero-padded digits |
| QueueFileNames.NamesOrderedAsIds | internal/secretary/telegram_webhook.go:170-176 | For all positive int64 ids the names of the queue files are ordered as the ids are, and differ when they do |
| QueueFileNames.NameParsesBack | internal/secretary/telegram_webhook.go:204-207 | Parsing the name of an id's file gives the id back |
| QueueFileNames.NameIs | internal/secretary/telegram_webhook.go:170-172 | The name is "pending-", twenty digits and ".json" |
| QueueFileNames.QueueFileRecognized | internal/secretary/telegram_webhook.go:105-108 | The name of every queue file passes the prefix and suffix test of the scan |
| TelegramQueue.CrashIsLegal | internal/secretary/telegram_webhook.go:209-239 | What a crash between any two file operations leaves is the state of a legal run |
| TelegramQueue.NoAcceptedUpdateIsLost | internal/secretary/telegram_webhook.go:62-168 | In every reachable state, crashes included, an accepted update is pending with its contents or its completion marker has been written |
| TelegramQueue.CompletedStaysCompleted | internal/secretary/telegram_webhook.go:62-136 | While an id's marker is kept it is neither accepted nor handed out again |
| TelegramQueue.MarkerKeptFor48Hours | internal/secretary/telegram_webhook.go:178-202 | A marker is kept until it is more than 48 hours old |
| TelegramQueue.CompletedOnceFor48Hours | internal/secretary/telegram_webhook.go:62-202 | For 48 hours after completion an id is neither accepted nor handed out again, even after a crash between the marker and the removal of the pending file |
| TelegramQueue.EveryRunIsSane | internal/secretary/telegram_webhook.go:81-87 | In every reachable state the pending updates and the temporary files are at most 128 together, and each update is in the file of its own positive id |
| TelegramQueue.FirstEntry | internal/secretary/telegram_webhook.go:104-113 | The queue file that comes first by name is the pending update with the smallest id |
| TelegramQueue.FileQueue.Enqueue | internal/secretary/telegram_webhook.go:62-92 | The answer is `Answer` of what was on disk, or an I/O error if a file operation can fail; what is on disk in each case; and nothing is handed out or marked |
| TelegramQueue.LeftoversStay | internal/secretary/telegram_webhook.go:214-219 | A temporary file that a crash or a failed removal has left behind is there in every later state: only the call that creates one removes it |
| TelegramQueue.RefusedForever | internal/secretary/telegram_webhook.go:81-87 | Once 128 temporary files are left behind, nothing is ever accepted again and every new update is refused as the queue is full, although none is pending |
| TelegramQueue.AcceptsLaterIff | internal/secretary/telegram_webhook.go:62-239 | After any run, some later run accepts an update if and only if fewer than 128 temporary files have been left behind |
| TelegramQueue.LeftoversFillQueue | internal/secretary/telegram_webhook.go:209-219 | A run of 128 crashes, with never an update pending, after which no run accepts an update |
| TelegramQueue.FileQueue.WritePending | internal/secretary/telegram_webhook.go:209-239 | Writing through a temporary file and a rename: success means accepted, any step may fail, and when the removal of the temporary file fails, too, it is left behind |
| TelegramQueue.FileQueue.PruneCompleted | internal/secretary/telegram_webhook.go:178-202 | Exactly the markers older than 48 hours are removed, unless a file operation fails |
| TelegramQueue.FileQueue.Complete | internal/secretary/telegram_webhook.go:146-168 | The marker is written before the pending file is removed; the error cases, what is left in each, and that without a failing file operation a pending update ends marked and removed |
| TelegramQueue.FileQueue.Examine | internal/secretary/telegram_webhook.go:114-135 | A queue file is cleared if its update is completed and returned otherwise |
| TelegramQueue.FileQueue.Next | internal/secretary/telegram_webhook.go:98-137 | A scan returns the uncompleted pending update with the smallest id, and only clears files of completed updates |
| TelegramQueue.WorkIsInTurn | internal/secretary/telegram.go:242-268 | In what the worker does, each mark comes right after the processing of its update and that right after its handing out; and an update that was processed is marked next unless its round reports a failure |
| TelegramQueue.FileQueue.WorkerRound | internal/secretary/telegram.go:242-268 | How a round ends and what it has done: a round with an update that reports no failure ends with that update processed, completed and no longer pending; one without an update ends with none pending; what cannot fail does not |
| TelegramQueue.FileQueue.RunWebhookWorker | internal/secretary/telegram.go:238-271 | Whatever fails and arrives, all that the worker does is the work of its rounds in order, so that marks follow processing and processing is followed by its mark or a reported failure; when nothing fails or arrives, as many rounds as updates were pending complete them all |
| TelegramHtml.TelegramHtml | internal/secretary/telegram.go:171-193 | The loop prints what the recursive definition `Render` says, and terminates |
| TelegramHtml.RoundTrip | internal/secretary/telegram.go:171-193 | For every text: reading the output back (bold tags as "**", entities as their characters) gives exactly the text, and its only tags are bold tags that are balanced and not nested |
| TelegramHtml.BoldIffSpan | internal/secretary/telegram.go:174-191 | The output has bold in it if and only if the text has "**", a character that is no star, and "**" again |
| TelegramHtml.BoldSpansAreTight | internal/secretary/telegram.go:181-190 | No bold span is empty, and each ends at the first "**" after its start |
| TelegramHtml.Send | internal/secretary/telegram.go:154-167 | The pieces are sent in order up to the first failure |
| TelegramHtml.PiecesArePartition | internal/secretary/telegram.go:155-165 | The pieces are non-empty, of at most 3500 characters, all but the last full, and together are the text |
| TelegramHtml.MessagesReadBack | internal/secretary/telegram.go:154-167 | Every message is well-formed by itself and reading all of them back gives the text, even when a bold span is split |
| ConversationWindow.BoundedAt | internal/secretary/service.go:146-165 | The loop computes the trimming that `Bounded` defines |
| ConversationWindow.TrimIsLongestWindow | internal/secretary/service.go:154-164 | Trimming keeps the longest pair-aligned end that fits, for any turns and any limits |
| ConversationWindow.BoundedIsLongestWindow | internal/secretary/service.go:146-165 | What is kept is the longest pair-aligned end of the recent turns with at most 20 turns and 12000 characters |
| ConversationWindow.RememberKeepsLogWindow | internal/secretary/service.go:530-541 | Adding an exchange to what was kept and trimming keeps what trimming the whole log would |
| ConversationWindow.ReloadKeepsLogWindow | internal/secretary/service.go:507-529 | Trimming again later keeps what trimming the whole log then would |
| ConversationWindow.BoundedOfLog | internal/secretary/service.go:146-165 | On the turns of a log, `boundedAt` keeps the last exchanges that are recent and within the limits |
| ConversationWindow.TurnsAlternate | internal/secretary/service.go:530-532 | The turns of a log, and so of every kept history, alternate from user to assistant |
| ConversationWindow.Histories.LoadHistory | internal/secretary/service.go:507-529 | A history read from its file is that file stamped and trimmed, whatever is in it; for a file begun by this code that is what trimming the whole log now keeps |
| ConversationWindow.Histories.Stamped | internal/secretary/service.go:520-525 | Exactly the turns without a time are given the time of the load |
| ConversationWindow.Histories.Restart | internal/secretary/service.go:507-519 | A new process has no history in memory, and the files are what they were |
| ConversationWindow.Histories.Remember | internal/secretary/service.go:530-541 | The history is trimmed with the new exchange; after any run of remember, reload and restart with nondecreasing times it and its file equal one trimming of the whole log (for a conversation begun by this code); a failed write changes neither |
| BruteForce.AfterTwice | internal/orchestratorgo/httpapi/middleware.go:198-203 | Filtering what an earlier cutoff left is filtering everything |
| BruteForce.WindowFromWindow | internal/orchestratorgo/httpapi/middleware.go:196-205 | Dropping failures as they leave the window loses none that a later window holds |
| BruteForce.AfterIsFilter | internal/orchestratorgo/httpapi/middleware.go:199-203 | The filter keeps each failure after the cutoff as often as it happened, and no other |
| BruteForce.Compact | internal/orchestratorgo/httpapi/middleware.go:198-203 | The in-place filter: the aliased write index never passes the read index, and the front of the array is the filtered list |
| BruteForce.Append | internal/orchestratorgo/httpapi/middleware.go:204 | Go's append, in place or into a bigger array |
| BruteForce.Recorded | internal/orchestratorgo/httpapi/middleware.go:196-205 | A slice that holds a log's window holds the next window after one failure |
| BruteForce.Tracker.Filtered | internal/orchestratorgo/httpapi/middleware.go:196-205 | The failures of one source with the new one; the arrays of other sources keep their contents |
| BruteForce.Tracker.IsBlocked | internal/orchestratorgo/httpapi/middleware.go:178-191 | The answer, and that an expired block forgets the failures as well |
| BruteForce.Tracker.RecordFailure | internal/orchestratorgo/httpapi/middleware.go:193-209 | A failure blocks its source if and only if, of all failures since the last reset or expiry, at least maxAttempts fall in the window that ends with it |
| BruteForce.Tracker.Reset | internal/orchestratorgo/httpapi/middleware.go:211-215 | A reset forgets the failures of one source and nothing else |
| PromptCompaction.CollectSignals | internal/codexlocalgateway/server.go:992-1012 | The loops collect what `Signals` defines |
| PromptCompaction.CollectedIsComplete | internal/codexlocalgateway/server.go:992-1012 | What is collected is without duplicates, at most `limit`, and all signals when there are fewer |
| PromptCompaction.CollectedIsNewest | internal/codexlocalgateway/server.go:995-1010 | What is collected was met before anything that was left out: newer signals win |
| PromptCompaction.SignalsMean | internal/codexlocalgateway/server.go:992-1012 | What is collected are lines of the messages, trimmed and cut to 180 bytes, that are to be kept; and a signal that is left out means that the list is full of signals of its own or of newer messages |
| PromptCompaction.PromptCharsAdd | internal/codexlocalgateway/server.go:821-830 | The size of a prompt is the sum over its parts |
| PromptCompaction.PromptCharsOfMessage | internal/codexlocalgateway/server.go:824-827 | A message counts its text, and each of its calls adds its name and its arguments |
| PromptCompaction.MessageCounts | internal/codexlocalgateway/server.go:821-830 | No text of a prompt, alone or with the name and the arguments of one of its calls, is larger than the prompt |
| PromptCompaction.CountPromptChars | internal/codexlocalgateway/server.go:821-830 | The loops compute that size |
| PromptCompaction.BuildCompactionSummary | internal/codexlocalgateway/server.go:878-905 | The lines of the summary, each list only when it is not empty |
| PromptCompaction.SummaryOpens | internal/codexlocalgateway/server.go:885-890 | The objective and the workspace are in the summary, cut to 280 and 180 bytes |
| PromptCompaction.SummaryLists | internal/codexlocalgateway/server.go:881-900 | Which signals the summary lists under which heading, and how many of them |
| PromptCompaction.ListsUnder | internal/codexlocalgateway/server.go:891-899 | A list that is not empty is one line, after its heading |
| PromptCompaction.SummaryBounded | internal/codexlocalgateway/server.go:878-905 | The summary has at most 2598 bytes for every transcript |
| PromptCompaction.CompactMessages | internal/codexlocalgateway/server.go:832-848 | The in-place loop leaves the summary and the longest end of (leading system message, last two messages) that fits |
| PromptCompaction.Server.CompactChatPrompt | internal/codexlocalgateway/server.go:795-819 | All outcomes: untouched, refused before, accepted or refused after compaction; an accepted prompt never exceeds the limit, and the counter counts the compactions |
| PromptCompaction.CompactionFailsIffSummaryTooLong | internal/codexlocalgateway/server.go:844-846 | Compaction fails if and only if the summary alone exceeds the limit |
| PromptCompaction.CompactionFits | internal/codexlocalgateway/server.go:807-811 | With at least three messages and a limit of at least 2598 the error after compaction is unreachable |
| PromptCompaction.NothingDroppedWithoutNeed | internal/codexlocalgateway/server.go:844-846 | A prompt that fits with everything that may be kept keeps all of it |
| PromptCompaction.OldSummaryIsReplaced | internal/codexlocalgateway/server.go:840-842 | When a compacted prompt is compacted again its old summary is not kept beside the new one |
| ProgressTracker.InteractionProgressTracker.constructor | internal/secretary/progress.go:33-42 | The first stage is set; the timer is armed if and only if there is something to emit to |
| ProgressTracker.InteractionProgressTracker.Observe | internal/secretary/progress.go:48-78 | What an event changes under the lock, whether it is forwarded, and which channel is waited for |
| ProgressTracker.InteractionProgressTracker.SendDelayed | internal/secretary/progress.go:91-101 | When the delayed event is due, and that it makes the channel |
| ProgressTracker.InteractionProgressTracker.CloseDone | internal/secretary/progress.go:102-103 | The channel is closed when the delayed event has been emitted |
| ProgressTracker.InteractionProgressTracker.Close | internal/secretary/progress.go:110-116 | The tracker is closed and the timer stopped under the lock |
| ProgressTracker.BoundedLabel | internal/secretary/progress.go:122-128 | A label is the beginning of the trimmed text, and all of it unless it has 80 characters |
| ProgressTracker.RunsAreSane | internal/secretary/progress.go:44-120 | The invariant of every interleaving: the channel follows the callback, which is sent at most once, and no two calls close the tracker with a terminal event |
| ProgressTracker.DelayedOnce | internal/secretary/progress.go:87-104 | Over all interleavings of any number of Observe and Close calls and the callback, the delayed event is emitted at most once |
| ProgressTracker.TerminalOnce | internal/secretary/progress.go:70-81 | At most one terminal event is forwarded, and exactly one when the Observe that closed the tracker has returned |
| ProgressTracker.ForwardedOnceIff | internal/secretary/progress.go:44-85 | When a call of Observe has returned, its event has been forwarded once if it found the tracker open, there is an observer and the event is no change of stage and no delay; otherwise not at all |
| ProgressTracker.StagesByEvent | internal/secretary/progress.go:54-69 | Which stage an event names |
| ProgressTracker.StageIsLast | internal/secretary/progress.go:50-69 | After every run the stage is the one that was named last while the tracker was open |
| ProgressTracker.DelayedNamesStage | internal/secretary/progress.go:87-104 | The delayed event names that stage, which is not empty |
| ProgressTracker.QuietAfterClosing | internal/secretary/progress.go:70-120 | After Close, or the Observe that closed the tracker, has returned, no delayed emission is running or ever starts |
| ProgressTracker.ObserveIsQuietIff | internal/secretary/progress.go:49-52 | A terminal Observe gives that guarantee if and only if it does not find the tracker closed while the delayed event is being emitted; in that case it returns at once, without waiting |
| ProgressTracker.ReturnsAtOnce | internal/secretary/progress.go:49-52 | From every such state the call can return while the delayed emission runs |
| ProgressTracker.ObserveCanReturnDuringEmission | internal/secretary/progress.go:49-52 | A run from the start in which a terminal Observe has returned and the delayed emission runs |
| ProgressTracker.NoCallIsStuck | internal/secretary/progress.go:82-84 | No call is stuck on the channel: until it has returned, it or the callback has a step that brings its return nearer, and no step takes it further away |
| DayFiles.AppendHolds | internal/secretary/learning_store.go:74-95 | A day file holds what was appended with its owner and day, in order |
| DayFiles.JsonlFiles | internal/secretary/learning_store.go:154-161 | The days of an owner's files, all of them and in ascending order |
| DayFiles.ScanFindsAll | internal/secretary/learning_store.go:172-188 | Going through an owner's files in order of day finds everything appended for the owner and nothing else |
| DayFiles.ScanIsReplayIff | internal/secretary/learning_store.go:257-272 | Going through the files finds the record appended last if and only if no record of the kind is on a later day |
| DayFiles.RewrittenFile | internal/secretary/learning_store.go:282-322 | A file that was rewritten has the first of the records that should be left in it, as many as were written; the others are as they were |
| DayFiles.RewrittenIsFilterIff | internal/secretary/learning_store.go:282-322 | Rewriting every file leaves exactly what is kept if and only if every file was written whole |
| LearningLog.FinishedPruneIsRightIff | internal/secretary/learning_store.go:310-322 | A prune that reports success has left what it should if and only if every file was written whole: the error of a failed write is assigned to a variable of the `if` alone, and what was written by then replaces the file |
| LearningLog.RefusedPruneLeaves | internal/secretary/learning_store.go:380-392 | A prune that is refused, but wrote whole what it wrote, leaves what it should of the files that it came to and all of the others |
| LearningLog.RefusedPruneCanBeRepeated | internal/secretary/learning_store.go:324-359 | Whatever a refused prune has done, a later one that succeeds leaves what it would have left without it |
| LearningLog.ListingIsReplay | internal/secretary/learning_store.go:247-272 | When items keep their time of creation, the last record of each id by day files is the last of the append log |
| LearningLog.ListingCanBeStale | internal/secretary/learning_store.go:238-240 | Otherwise not: an item saved again with an earlier time of creation is still listed as before |
| LearningLog.PruneKeepsFeedbackIff | internal/secretary/learning_store.go:332-347 | Whatever the store holds, what a prune should leave of the feedback is exactly that of the last traceDays days whose interaction is of these days, too |
| LearningLog.PruneKeepsTraceIff | internal/secretary/learning_store.go:330-339 | What a prune should leave of the traces is exactly those of the last traceDays days |
| LearningLog.PruneKeepsKnowledgeIff | internal/secretary/learning_store.go:348-357 | What it should leave of knowledge: candidates of the last candidateDays days, approvals that have no end or one to come, and everything else |
| LearningLog.PruneTakesOldCandidates | internal/secretary/learning_store.go:348-357 | On records made by feedback and reviews, what a prune should remove from the listings is exactly the undecided candidates older than the cutoff |
| LearningLog.DecidedComesBackIff | internal/secretary/learning_store.go:349-357 | In general a decided item is a candidate again after a prune if and only if it is approved, its validity has ended and its candidate record is kept |
| LearningLog.ExpiryBringsCandidateBack | internal/secretary/learning_store.go:353-355 | A store in which that happens |
| LearningLog.LostDecisionComesBackIff | internal/secretary/learning_store.go:310-319 | After a write that was cut short a decided item is a candidate again if and only if what was written ends between its candidate and its decision |
| LearningLog.ForgetIsRightIff | internal/secretary/learning_store.go:406-410 | A forgetting takes everything of one operator and nothing else if and only if it has gone through all files of all three classes |
| LearningLog.RefusedForgetCanBeRepeated | internal/secretary/learning_store.go:406-410 | Whatever a refused forgetting has removed, a later one that succeeds leaves what it would have left without it |
| LearningLog.ForgetLeavesCurrent | internal/secretary/learning_store.go:399-412 | Finished or not, a forgetting takes an item with all its records or leaves its listing as it was |
| LearningLog.SavedDecisionIsOnlyOneIff | internal/secretary/learning_feedback.go:67-81 | Saving a decision keeps every id decided at most once if and only if the id has not been decided since it was listed, which is not checked |
| LearningRuns.KnowledgeStaysSane | internal/secretary/learning_feedback.go:37-81 | Over every run of the store's locked sections, however calls overlap, each id keeps its time of creation, is no candidate after another record of it, and never expires |
| LearningRuns.ReviewedStaysDecided | internal/secretary/learning_feedback.go:67-86 | Over every run, once a decision is saved its item is never a candidate again, unless a prune loses records of knowledge |
| LearningRuns.DecidedTwiceIff | internal/secretary/learning_feedback.go:67-81 | Over every run an item is decided more than once if and only if two reviews of it overlap, one saving its decision between the listing and the saving of the other, or a prune makes the decided item a candidate again before it is listed and decided again |
| LearningRuns.PruneRevivesIff | internal/secretary/learning_store.go:310-319 | A prune makes a decided item a candidate again if and only if it loses every decision of it in a write that was cut short, and leaves a record of it |
| LearningRuns.OnlyOverlapDecidesTwice | internal/secretary/learning_feedback.go:67-81 | When no prune loses records of knowledge, only overlapping reviews decide an item more than once |
| LearningRuns.OverlappingReviewsDecideTwice | internal/secretary/learning_feedback.go:67-81 | A run in which two reviews overlap |
| LearningRuns.LostDecisionCanBeMadeAgain | internal/secretary/learning_store.go:310-319 | A run in which a prune that reports success loses a decision, and the item is listed as a candidate again |
| LearningRuns.LostDecisionIsMadeAgain | internal/secretary/learning_store.go:310-319 | ... and then decided a second time, although no reviews overlap |
| LearningRuns.FeedbackDanglesIff | internal/secretary/learning_store.go:324-412 | Over every run, feedback that is there is on an interaction that is gone if and only if it was appended when that was gone already, or a prune or a forgetting took the interaction and left the feedback |
| LearningRuns.SubmittedFeedbackDanglesIff | internal/secretary/learning_feedback.go:23-36 | Feedback on an interaction that was found dangles when it is appended if and only if a prune or a forgetting removed the interaction in between |
| LearningRuns.OnlyLateFeedbackDangles | internal/secretary/learning_store.go:324-412 | When all prunes and forgettings succeed and prunes write their traces whole, every feedback that is left is on an interaction that is left, except what was late in this way |
| LearningRuns.PruneStrandsIff | internal/secretary/learning_store.go:332-347 | A prune strands feedback if and only if it leaves it, and has lost its trace in a write that was cut short, or has taken the trace and been refused before it came to the file of the feedback |
| LearningRuns.GoodPruneStrandsNothing | internal/secretary/learning_store.go:332-347 | A prune that succeeds and writes its traces whole strands nothing |
| LearningRuns.ForgetStrandsIff | internal/secretary/learning_store.go:406-410 | A forgetting strands feedback if and only if it removes the file of its interaction and is refused before it removes the one of the feedback |
| LearningRuns.FinishedForgetStrandsNothing | internal/secretary/learning_store.go:406-410 | A forgetting that succeeds strands nothing |
| LearningRuns.FeedbackCanBeLate | internal/secretary/learning_feedback.go:23-36 | A run in which a good prune comes between the finding of an old interaction and the feedback on it |
| LearningRuns.LostTraceStrandsFeedback | internal/secretary/learning_store.go:310-319 | A run in which a prune that reports success loses an interaction and keeps its feedback |
| LearningRuns.RefusedPruneStrandsFeedback | internal/secretary/learning_store.go:340-347 | A run in which a prune takes an old interaction and is refused before it comes to the feedback |
| LearningRuns.RefusedForgetStrandsFeedback | internal/secretary/learning_store.go:406-410 | A run in which a forgetting takes an interaction and is refused before it comes to the feedback |
| LearningStore.JSONLLearningStore.AppendRecord | internal/secretary/learning_store.go:63-95 | A record goes to the end of the file of its operator and UTC day, or is refused for want of either; when a file operation fails it may or may not be there, and when none does it is |
| LearningLines.AppendLine | internal/secretary/learning_store.go:74-93 | A record goes to the end of a file as one line, of which any beginning may be written; success means all of it, and a record over 1 MB is not written |
| LearningLines.DecodeLearningFile | internal/secretary/learning_store.go:118-147 | The loop over the bytes reads the file line by line; it fails only when reading does or some line is oversized or malformed |
| LearningLines.DecodedIff | internal/secretary/learning_store.go:63-147 | Whatever was cut in whichever writes: a file can be read if and only if no write was cut inside a record, nothing was written after one that lacked only its newline, and no line with its newline is over 1 MB; then what is read is every record that was written whole, in order |
| LearningLines.AcknowledgedIsFoundIff | internal/secretary/learning_store.go:63-147 | A record whose appending reported success is found again if and only if no other attempt, before or after it, has damaged the file in one of these ways |
| LearningLines.DamageStays | internal/secretary/learning_store.go:118-147 | A file that cannot be read is never read again, whatever is appended to it |
| LearningLines.LongestRecordDamages | internal/secretary/learning_store.go:75-131 | A record of exactly 1 MB is appended with success and makes its file unreadable: writing compares the record with the limit, and reading the line with its newline |
| LearningStore.JSONLLearningStore.AppendTrace | internal/secretary/learning_store.go:97-116 | Which traces are refused; otherwise the run is one step longer, or the failure is reported |
| LearningStore.JSONLLearningStore.AppendFeedback | internal/secretary/learning_store.go:192-208 | The same for feedback |
| LearningStore.JSONLLearningStore.SaveKnowledge | internal/secretary/learning_store.go:219-241 | The same for knowledge, with the id and the times that are filled in |
| LearningStore.JSONLLearningStore.LastTrace | internal/secretary/learning_store.go:163-190 | The loops compute the fold `Latest` over the files in order, unless a file cannot be read |
| LearningStore.LatestMeans | internal/secretary/learning_store.go:183-185 | That fold is the first among the latest traces of the conversation, and nothing only when there is none |
| LearningStore.JSONLLearningStore.ListKnowledge | internal/secretary/learning_store.go:247-280 | The listing has exactly the last record of each id that fits the status, once, by time of creation; it equals the replay of the log when items keep their time of creation |
| LearningStore.RewriteJSONL | internal/secretary/learning_store.go:282-322 | A file is rewritten, removed, left as it was with an error, or replaced by the beginning of what should be in it without one |
| LearningLines.RewriteLines | internal/secretary/learning_store.go:282-322 | The loop joins the lines of what is kept, and any beginning of them may replace the file without an error |
| LearningLines.CutRewriteIsReadIff | internal/secretary/learning_store.go:289-319 | A rewriting that was cut can be read if and only if it was cut between two records, or just before a newline, and no finished line is over 1 MB; then the first records are read |
| LearningLines.BracedIsJson | internal/secretary/learning_store.go:74-77 | What is assumed of JSON objects can be met |
| LearningStore.PruneLearningFiles | internal/secretary/learning_store.go:361-395 | The files are rewritten until one is refused; when none is, the ids are those of everything that is kept, whatever was then written |
| LearningStore.JSONLLearningStore.Prune | internal/secretary/learning_store.go:324-359 | The three classes are pruned in order, feedback by the traces that are kept; success means that all files were gone through, and the run has what was written to each; when no file operation fails, exactly what should be left is |
| LearningStore.JSONLLearningStore.Forget | internal/secretary/learning_store.go:399-412 | The files of one operator are removed class by class; success means that all of them are, and the run has those that were |
| LearningStore.RemoveAll | internal/secretary/learning_store.go:407 | Of the files of a directory any may be left when its removal fails, and none when it does not |
| LearningStore.Service.Meanwhile | internal/secretary/service.go:100-132 | Maintenance can prune at any time that the store's lock is free |
| LearningStore.Service.SaveFeedback | internal/secretary/learning_feedback.go:33-43 | The feedback is appended after any prunes, and then the candidate after any more; what is there after each failure |
| LearningStore.Service.SubmitFeedback | internal/secretary/learning_feedback.go:10-44 | All refusals; otherwise the steps of the run: a latest interaction of the conversation is found, then its feedback and, for the labels that correct something, a candidate are appended, with prunes anywhere between; a candidate that cannot be saved leaves the feedback saved |
| LearningStore.CandidateLabels | internal/secretary/learning_feedback.go:37 | Every label but correct, style, missing_source and the unknown ones makes a candidate |
| LearningStore.CandidateSays | internal/secretary/learning_feedback.go:38-42 | What a candidate takes over from the interaction and the correction |
| LearningStore.Service.ReviewKnowledge | internal/secretary/learning_feedback.go:54-87 | All refusals; otherwise the steps of the run: the item is listed as a candidate and then its decision is appended, with prunes anywhere between |
| LearningStore.DecisionsByName | internal/secretary/learning_feedback.go:58-66 | "approve" and "/aprueba" approve, "reject" and "/descarta" reject, and nothing else decides |
| MemoryPartition.PeriodsMean | internal/secretary/memory.go:138-171 | The period of each phrase as whole local days: last week is the seven days before this week's Monday, without a phrase it is the last thirty days |
| MemoryPartition.PhrasesDecide | internal/secretary/memory.go:144-169 | Which phrases decide the period, and which come first |
| MemoryPartition.PartitionDays | internal/secretary/memory.go:179-184 | The loop lists the days stepped through from the start at its time of the day |
| MemoryPartition.OpenedAre | internal/secretary/memory.go:180-184 | Every day before the last is opened, and the last one if and only if its turn comes before the end |
| MemoryPartition.MidnightCovers | internal/secretary/memory.go:138-171 | A period that starts at midnight has all its days opened |
| MemoryPartition.PeriodsAreCovered | internal/secretary/memory.go:144-170 | So every period but that of the last seven days is covered |
| MemoryPartition.SevenDaysCoveredIff | internal/secretary/memory.go:154-157 | The period of the last seven days has today's file opened if and only if it is exactly midnight, or the local time of the period's start has come before now today, as when the clocks of the process and of the calendar have changed against each other during the week |
| MemoryPartition.UtcIsCalendar | internal/secretary/memory.go:46-52 | The calendar of UTC is one: the assumptions on calendars can be met |
| MemoryPartition.TodayIsMissed | internal/secretary/memory.go:154-157 | At any time but midnight, with the calendar of UTC, a record of just before is missed by the last seven days |
| MemoryPartition.PartitionsSufficeIff | internal/secretary/memory.go:178-184 | The opened files have every record of a period, whatever was remembered, if and only if the period is covered |
| MemoryPartition.PartitionScanIsFullScan | internal/secretary/memory.go:177-245 | For a covered period, opening only its files recalls exactly what going through everything would, down to the order of equally good records and the cut to eight |
| MemoryPartition.ReadFile | internal/secretary/memory.go:200-224 | The wanted records of one file, in order |
| MemoryPartition.ScoreIsMatched | internal/secretary/memory.go:212-221 | The score of a record is the number of the query's terms that are among its words |
| MemoryPartition.BestMeans | internal/secretary/memory.go:203-245 | Of any records, what is recalled are at most eight, each of the period and the channel and with a matching term; by the number of matched terms and then by time, both falling; and a record left out while it could be recalled means that there are eight, none of them worse |
| MemoryPartition.EqualAnswersKeepOrder | internal/secretary/memory.go:231-236 | Records with as many matches and the same time are recalled in the order of the files, the first of them first |
| MemoryPartition.Archive.AppendMemoryAt | internal/secretary/memory.go:80-103 | An exchange goes to the end of the file of its local day; when a file operation fails it may or may not be there |
| MemoryPartition.Archive.RelevantMemoriesAt | internal/secretary/memory.go:177-245 | The best eight answers, as `BestMeans` says, among the records of the opened files and the old archive, unless a file cannot be read; for a covered period among all records of the user |
| MemoryContext.FormatMemoryContext | internal/secretary/memory.go:291-347 | The context is the heading and what fits, and never exceeds 12000 bytes of UTF-8 |
| MemoryContext.WriteCut | internal/secretary/memory.go:335-340 | The loop over the characters writes the longest beginning of the line that leaves room for the marker |
| MemoryContext.CutIsLongest | internal/secretary/memory.go:335-340 | Every longer beginning exceeds the room |
| MemoryContext.NothingCutIff | internal/secretary/memory.go:330-344 | Nothing is cut if and only if all lines fit |
| MemoryContext.WidthIsUtf8 | internal/secretary/memory.go:330-340 | A character takes the bytes that it has in UTF-8 |
| Retrieval.CompactText | internal/orchestratorgo/memory/retrieval.go:32-48 | A text that fits is kept; of a longer one a beginning is, with an ellipsis where there is room, and never more than the limit or its default |
| Retrieval.ClassesByName | internal/orchestratorgo/memory/retrieval.go:18-30 | Which trimmed text stands for which class; every other text is repo_specific |
| Retrieval.NamesReadBack | internal/orchestratorgo/memory/retrieval.go:18-30 | Each of the six names is read back as its class |
| Retrieval.ClassIsSaid | internal/orchestratorgo/memory/retrieval.go:72-76 | The class of a chunk is the one that its field names or, when that is empty, its metadata |
| Retrieval.GuardrailIsNeverPicked | internal/orchestratorgo/memory/retrieval.go:77-80 | A chunk that names negative_guardrail, in its field or in its metadata, is never a hit; any other is one unless there is no room for it |
| Retrieval.SelectRetrievalHits | internal/orchestratorgo/memory/retrieval.go:59-153 | The hits are those of the greedy choice over the ranked candidates, at most five and two of a class unless told otherwise, with the reasons for them and the summary of the first hit of each class |
| Retrieval.SelectCandidates | internal/orchestratorgo/memory/retrieval.go:71-90 | The candidates are the chunks that are no guardrails, in order |
| Retrieval.PickGreedily | internal/orchestratorgo/memory/retrieval.go:101-148 | The loop with its maps makes the greedy choice |
| Retrieval.BeforeIsStrictWeakOrder | internal/orchestratorgo/memory/retrieval.go:91-99 | The comparison of the sort is a strict weak order, so that the sort is well-defined |
| Retrieval.RankedDescends | internal/orchestratorgo/memory/retrieval.go:91-99 | The ranking is a permutation of the candidates, by descending score |
| Retrieval.SelectionIsFeasible | internal/orchestratorgo/memory/retrieval.go:59-153 | The hits obey both caps, have distinct references, are among the chunks and hold no guardrail |
| Retrieval.HitsInOrder | internal/orchestratorgo/memory/retrieval.go:91-99 | Hits come by descending score, where none counts as -1; with equal scores in the order repo_specific, recent_execution, pattern_similar, technology_similar, planning_context; and then by reference |
| Retrieval.HitsSay | internal/orchestratorgo/memory/retrieval.go:110-141 | What each field of a hit takes from its chunk, the reason in words, and the line that explains it |
| Retrieval.SummariesSay | internal/orchestratorgo/memory/retrieval.go:138-140 | The classes with a summary are those among the hits, and it is that of the first hit of the class |
| Retrieval.GreedyIsSaturated | internal/orchestratorgo/memory/retrieval.go:106-147 | No chunk that was not picked could be added at the end |
| Retrieval.GreedyIsLargest | internal/orchestratorgo/memory/retrieval.go:106-147 | When the caps are apart in the pool that the list is drawn from, no selection that obeys them is larger |
| Retrieval.GreedyDominatesAt | internal/orchestratorgo/memory/retrieval.go:106-147 | At every score, no selection that obeys the caps has more chunks scoring as high |
| Retrieval.DominatingScoresHigher | internal/orchestratorgo/memory/retrieval.go:91-147 | A descending list that has at least as many at every score scores at least as much |
| Retrieval.SelectionIsOptimal | internal/orchestratorgo/memory/retrieval.go:59-153 | When no class with more references than its cap admits shares one of them with another class (as when references are distinct), the hits are of maximum size and no selection of their size scores higher |
| Retrieval.GreedIsBestIff | internal/orchestratorgo/memory/retrieval.go:59-153 | For a pool of chunks and a cap for each class: the hits are of maximum size for all chunks drawn from the pool, all scores and all limits if and only if no class with more references than the cap shares one of them with another class; and likewise of maximum size and best score |
| Retrieval.GreedCanLose | internal/orchestratorgo/memory/retrieval.go:119-124 | From a pool without that property, chunks and scores for which another selection is larger than the hits |
| Retrieval.SharedRefsCanMakeGreedSmaller | internal/orchestratorgo/memory/retrieval.go:119-124 | Three chunks, given to the selection, of which two could be hits and one is |
| Sorting.StableSortSorts | internal/orchestratorgo/memory/retrieval.go:91-99 | The model of the stable sort sorts and permutes |
| Sorting.SortedStays | internal/orchestratorgo/memory/retrieval.go:91-99 | ... leaves what is sorted as it is |
| Sorting.StableSortKeepsOrder | internal/orchestratorgo/memory/retrieval.go:91-99 | ... and keeps the order of elements that compare equal |
| Sorting.StableSortIsDetermined | internal/secretary/memory.go:231-236 | Two lists that hold what compares equal in the same order are sorted into the same list |
| Text.TrimSpaceMeans | internal/orchestratorgo/memory/retrieval.go:19 | Trimming takes the white space at both ends and nothing else |
| Text.SpacesOfLatin1 | internal/orchestratorgo/memory/retrieval.go:19 | Which of the first 256 characters are white space |
| Text.FirstDifferenceDecides | internal/secretary/telegram_webhook.go:104 | Strings are ordered by the first character in which they differ |
| Text.BeginningIsBefore | internal/secretary/telegram_webhook.go:104 | ... and a beginning comes before what it begins |

## Left out

- TelegramQueue.FileQueue.Next: is one scan; the ticker and the cancelled context between scans are not modelled, nor are directories and foreign files among the queue files; a file with damaged JSON is one that cannot be read.
- TelegramQueue.FileQueue.PruneCompleted: a damaged marker is one that cannot be read; there are no temporary files in the directory of markers.
- TelegramQueue.FileQueue.RunWebhookWorker: stops after a number of rounds that stands for the cancelled context; in which rounds processing succeeds is a parameter.
- RateLimiter.Limiter.Allow: tokens are reals, so the rounding of floating-point numbers is not modelled.
- LearningStore.JSONLLearningStore.AppendRecord: a file is the list of the records that were written whole to it, which by `LearningLines.DecodedIff` is what reading it gives if it can be read; that a damaged file can no longer be read is one of the failures to read and to prune that the store's methods may meet at any time.
- LearningStore.RewriteJSONL: the same, by `LearningLines.CutRewriteIsReadIff`.
- LearningStore.JSONLLearningStore.ListKnowledge: records of another schema version make a listing fail, which is modelled as any other failure to read; day files sort as days up to the year 9999.
- LearningLines.DecodeLearningFile: JSON is a parameter, of which `IsJson` says what is needed; that a record reads back as it was written leaves out invalid UTF-8.
- LearningStore.Service.ReviewKnowledge: of what can come between its steps only prunes are modelled here, as they are what can come in one process; `LearningRuns` has the other overlaps.
- LearningStore.Service.SubmitFeedback: an item's type, aliases, references and confidence, and a trace's other fields, are carried along unchanged and left out; the digest of a conversation is a parameter.
- ProgressTracker.InteractionProgressTracker.Observe: the emission itself is a step of a run that begins and ends; an observer that panics or calls the tracker back is not modelled.
- ProgressTracker.NoCallIsStuck: says that progress is always possible, not that the scheduler is fair.
- MemoryPartition.Archive.RelevantMemoriesAt: the words of a text and the test for a phrase are parameters; damaged lines, which are skipped, are not modelled, and lines over 1 MB only as a failure to read; the score is computed anew when records are compared.
- MemoryContext.FormatMemoryContext: takes the lines as they are; how a record becomes a line is left out.
- ResponseStore.Store.Get: messages are values, so the copying of their tool calls is not modelled.
- StreamObserver.Observer.Event: the decoding of JSON is a parameter, and only the fields that the observer looks at are there; the value of the time to first output is not related to the clock.
- The tracker of plain progress texts (`progressTracker`), which shares no state with the interaction tracker.
- Deleting histories and memory on `/new` and `/forget`, except in the learning store.
- HTTP handlers, reverse proxying, OAuth, Jira, Granola and Telegram calls, metrics, terminal rendering and subprocesses: they connect the cores and keep no state of their own.
- The Postgres and Redis stores, the lease protocol and the repair cycle of objectives.
- Natural-language intent matching, fallback parsing of tool calls, and regular expressions.
- The wall clock, random ids, file permissions and fsync; a rename is one step.
