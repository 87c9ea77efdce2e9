# coScout: model and proofs

coScout runs on a robot. It takes rule messages over HTTP and from listened files, decides which rules
fire, collects the files a rule asks for and uploads them. This project models the parts of it whose
correctness depends on many operations together, and proves what they keep over every run.

- `QueuedBytes`, `RuleIngress`: the byte budget shared by HTTP requests, the subscriber, the consumer and
  the file readers. Every load, compare-and-swap, table access and channel operation is one action, and
  any goroutine may take the next one.
- `RuleDecoder`: the streaming decoder of rule messages, with the reservations it makes, over JSON tokens
  that arrive in chunks.
- `LogHeap` (in `TimestampHeap.dfy`), `LogReader`: the reorder buffer of log lines, a queue and an array
  heap that must agree, and the iterator on top of it.
- `SymWalk`: the file walk through symbolic links, cycles included, with its file limit.
- `Multipart`: the resumable multipart upload. One call is a result and the list of operations it performs
  on its cached keys; a process that dies has performed a prefix of them.
- `KeyedMutex`, `RecordCache`, `RecordUpload`: the reference-counted mutex per file, the read-modify-write
  of a record's state file under it, and the uploader's loop while a canceller interferes.
- `RecordPipeline`: records between collector, channel, receiver, queue and worker.
- `FileState`: scanning listened files, rolling back a failed walk, dispatching each file once.
- `Cdr`: the CDR decoder of ROS 2 messages against an encoder written from the transfer syntax.
- `Debounce`: the debounce of rules and the map of activation times.

Each module has functions that specify the code, lemmas about whole runs of them, and, where the code
changes objects in place, classes whose methods are proved equal to those functions. Automatic induction
is switched off for every lemma, so each induction is written out. `Wrappers` holds the Option type and a lemma on subsets.

## What the code does not keep

Some properties that the code is written for do not hold on all inputs. For these there is an input that
breaks them, and the exact condition under which they hold.

- A resumed upload can return nil with nothing completed, because the size check wraps an error that is
  nil (upload_manager.go:541). It happens exactly when the cached size is not that of the cached parts.
  A process dying between two Puts (525, 529) leaves such a cache, and so does one dying between two
  deletions of the cleanup (572, 576).
- Between the deletions of the upload id and of the parts (568, 572) cached parts outlive their upload. The
  next call then completes a new upload with parts of the old one; without that death it never does.
- Files from 1000 parts of 5 GiB and 1000 bytes up to 5 TiB pass the upload's own limit and always fail.
- The log iterator drops a first line whose stamp is late among those that follow it: it leaves the
  buffer without its stamp and no record takes its text. All text is kept exactly when, among the first
  bufferSize + 1 stamped lines, the first one stands in one of the first two places of their heap. With a
  buffer of 0, 1 or 2 the buffer can run empty, with 3 or more it cannot.
- Signed integers of 16, 32 and 64 bits are read one too high when they are negative (cdr_reader.go:74-113).
- While json.Decoder looks for more, an error of the body reader passes for the end of the array. A chunk
  that the budget refuses at that moment can be lost and the request still succeed. A request is decoded
  with nothing of it lost exactly when each chunk, at the token where it is read, and each message fit.
- Of rule messages read from files, one that is earlier than the last fires whatever the debounce time. The
  fires of a rule stay apart for every debounce time exactly when no file message is before one that met
  the conditions earlier.
- A record is marked uploaded although a file of it could not be read. The recorded paths are then exactly
  those recorded before and those of the files that could be read.
- The file walk skips a link whose cleaned text is its own path, even where by way of another link it leads
  to a file. What the walk comes to is what the operating system finds exactly when no link ahead is one.

## Model

| member | source | states |
|---|---|---|
| QueuedBytes.Budget.TryReserve | internal/queuedbytes/budget.go:59-73 | a size is reserved exactly when it is not negative and fits beside what is queued; otherwise nothing changes |
| QueuedBytes.Budget.Release | internal/queuedbytes/budget.go:75-92 | a size is given back exactly when it is not negative and is queued; otherwise nothing changes |
| QueuedBytes.CallsAreAtomic | internal/queuedbytes/budget.go:59-92 | however the counter moves between the turns of a TryReserve or Release, the call takes or gives its size in one turn, its last, at a counter that allows it, or is refused at one where it is not possible; its other turns change nothing |
| QueuedBytes.UndisturbedEnds | internal/queuedbytes/budget.go:64-91 | a load and a compare-and-swap between which the counter stays the same end the call |
| RuleIngress.StepKeeps | internal/queuedbytes/budget.go:59-229 | every atomic action of every goroutine keeps the invariant: the counter is the sum of what is held, table and reservations agree, each handed-over reservation has one holder |
| RuleIngress.RunKeeps | internal/mod/rule/handler.go:245-343 | the invariant holds after every schedule, for any message identifiers |
| RuleIngress.Conservation | internal/queuedbytes/budget.go:59-92 | after any schedule the counter equals all outstanding reservations, stays within 0 and the limit, and no Release was refused |
| RuleIngress.ExactlyOnce | internal/queuedbytes/budget.go:96-179 | publisher and subscriber never both own a reservation: it is held in one place or was released once, and a finished request was told `transferred` exactly when the claim succeeded |
| RuleIngress.BodyIsReserved | internal/queuedbytes/budget.go:183-200 | in every run a request that announced n bytes holds exactly n for its body from the moment it decodes until its drain gives them back; when it is over without having held them, it has no payload and no reservation, and was neither admitted nor handed over |
| RuleIngress.FirstReservation | internal/queuedbytes/budget.go:183-193 | the first reservation, turn by turn: at its load it is refused exactly when the announced bytes do not fit, which ends the request and leaves counter, table and queue as they were; otherwise it takes exactly these bytes at a moment when they fit |
| RuleIngress.TooLargeIsTurnedAway | internal/mod/http/server/rules.go:72-76 | a request that announces more than the limit is over after its second action at the latest, with nothing taken |
| RuleIngress.DecodingAsks | internal/mod/http/server/rules.go:230-255 | what a decoding request asks the budget for: a message asks for its length and 256 bytes, a chunk only where the length is unknown, a replaced field gives its payload back, and an end without messages or with an error goes to the drain |
| RuleIngress.DecodingAnswered | internal/queuedbytes/budget.go:212-223 | and what the answer does: a reservation is refused only at a moment when it does not fit and taken only when it does; a refused message ends the decoding, a refused chunk leaves it to the decoder |
| RuleIngress.PayloadGiven | internal/mod/http/server/rules.go:301-305 | giving back a replaced payload takes away that payload and no other |
| RuleIngress.QueueMoves | internal/mod/rule/handler.go:245-318 | the queue takes a batch or a file only while there is room, at its end, and hands on first what came first |
| RuleIngress.QueueBounded | internal/mod/rule/handler.go:285-300 | in every run the queue holds no more than its capacity |
| RuleIngress.DeliveredIsAdmitted | internal/mod/rule/handler.go:278-318 | in every state that keeps the invariant, a message delivered while its reservation is open and the queue has room is queued last and admitted, and nothing else changes; one whose reservation is not open any more is dropped |
| RuleIngress.GivesUpOnlyWhenStopped | internal/mod/rule/handler.go:245-318 | in every run the subscriber aborts a held message and the consumer sweeps the queue only after the context was done |
| RuleIngress.AdmittedEntered | internal/mod/rule/handler.go:285-318 | a request is told `admitted` only if its batch, with its reservation, was in the rule queue |
| RuleIngress.NothingLeaks | internal/mod/http/server/rules.go:63-142 | when all requests are over and the shutdown drained the queue, no byte is queued, no entry is tracked, and each transferred reservation was released once |
| RuleIngress.NoDeadlock | internal/mod/rule/handler.go:245-343 | after the context is done and until all are at rest, a request, the subscriber or the consumer has an action that takes it nearer to the end |
| RuleIngress.ReachesQuiet | internal/mod/rule/handler.go:245-343 | from every such state, however budget calls were interrupted, actions of these three alone bring everything to rest |
| RuleIngress.ShutdownReleasesAll | internal/mod/rule/handler.go:245-343 | after any schedule whatever the end of the context can be followed by such actions, after which no byte is queued and no message is tracked |
| RuleIngress.MessageGetsThrough | internal/mod/http/server/rules.go:63-142 | a message that fits can be admitted, handled and released, with nothing left in budget, table and queue |
| RuleIngress.ClaimKeeps | internal/queuedbytes/budget.go:108-124 | the claim moves the bytes from the publisher to the subscriber, whoever else moves between its load and its swap |
| RuleIngress.SubKeeps | internal/mod/rule/handler.go:261-318 | every step of the subscriber, admission and abort included, keeps the invariant |
| RuleIngress.ConKeeps | internal/mod/rule/handler.go:245-259 | every step of the consumer and of the drain at shutdown keeps the invariant |
| RuleDecoder.RequestBalanced | internal/mod/http/server/rules.go:160-213 | for any input and budget, an error leaves only the reader's bytes in the budget; success leaves in addition exactly the returned reservations, within the limit |
| RuleDecoder.ItemsBalanced | internal/mod/http/server/rules.go:215-265 | the array loop gives back all its payloads on every error path |
| RuleDecoder.RepayAll | internal/mod/http/server/rules.go:301-305 | releasing payloads whose bytes are queued is never refused and gives back their sum |
| RuleDecoder.RequestExact | internal/mod/http/server/rules.go:160-213 | for any body, chunked or not, and any budget, decoding succeeds with nothing of the body dropped if and only if the body is an object whose "messages" fields are null or readable arrays and every reservation, of a chunk at the token where it is read and of a message when it is decoded, fits; the payloads are then the messages of the last "messages" field in order |
| RuleDecoder.KnownLengthExact | internal/mod/http/server/rules.go:160-213 | with a known body length decoding succeeds exactly when the fields can be read and each array fits beside the one it replaces |
| RuleDecoder.BodyDecoded | internal/mod/http/server/rules.go:160-213 | a body that is an object is a request exactly when every field named "messages" is null or an array of messages with metadata; decoded without loss it gives, for the last such field, one payload per message in order, with its tokens, its timestamp and its bytes and 256 more, and the budget has grown by these and by what the reader took |
| RuleDecoder.MessagesSpelled | internal/mod/http/server/rules.go:189-194 | a field is "messages" exactly when it has these eight letters in either case, the long s counting as s |
| RuleDecoder.WidthAdds | internal/mod/http/server/rules.go:245-246 | the bytes of a message are the sum of those of its tokens |
| RuleDecoder.AmpleBudget | internal/queuedbytes/budget.go:212-223 | where the budget has room for all chunks and all messages at once, every readable body is decoded with nothing dropped |
| RuleDecoder.ItemsExact | internal/mod/http/server/rules.go:230-264 | the array loop returns one payload for every item, in order, with nothing dropped, exactly when the items can be read and fit beside the chunks read for them; otherwise it fails or a chunk was dropped |
| RuleDecoder.SkipParses | internal/mod/http/server/rules.go:267-299 | when no chunk was dropped, skipJSONValue succeeds exactly where the reference parser finds a value, and stops where it stops |
| RuleDecoder.SkipReads | internal/queuedbytes/budget.go:212-223 | skipping a value reads the chunks up to the one with its last token and no further: nothing is dropped exactly when those fit, and then exactly they are taken |
| RuleDecoder.SkipsOneValue | internal/mod/http/server/rules.go:267-299 | a value of any nesting is skipped together with nothing after it, exactly when the chunks that hold it fit |
| RuleDecoder.ParsesTokens | internal/mod/http/server/rules.go:267-299 | the reference parser reads back every value from its tokens |
| RuleDecoder.ParsedTokens | internal/mod/http/server/rules.go:267-299 | and the tokens it consumes are those of the value it returns |
| RuleDecoder.DroppedChunkGoesUnnoticed | internal/queuedbytes/budget.go:212-223 | a body of two messages in three chunks, of which the budget refuses the second: decoding succeeds with one message |
| RuleDecoder.RequestDecoder.SkipJSONValue | internal/mod/http/server/rules.go:267-299 | the recursive loops equal their specification |
| RuleDecoder.RequestDecoder.DecodeMessageArray | internal/mod/http/server/rules.go:215-265 | the loop with its reservations and deferred release equals its specification |
| RuleDecoder.RequestDecoder.DecodeRuleMessages | internal/mod/http/server/rules.go:160-213 | the loop over the fields equals its specification |
| RuleDecoder.RequestDecoder.ReleasePayloads | internal/mod/http/server/rules.go:301-305 | the release loop equals its specification |
| LogHeap.PushHeap | internal/log_reader/ordered_queue.go:32-57 | pushing keeps heap order and adds exactly the item |
| LogHeap.RemoveHeap | internal/log_reader/ordered_queue.go:32-57 | removing at any index keeps heap order and takes exactly that item |
| LogHeap.RootIsLeast | internal/log_reader/ordered_queue.go:34-37 | no item of a heap is before its root |
| LogHeap.TimestampHeap.Push | internal/log_reader/ordered_queue.go:43-49 | the loop of heap.Push equals its specification |
| LogHeap.TimestampHeap.Remove | internal/log_reader/ordered_queue.go:51-57 | the loops of heap.Remove equal their specification |
| LogReader.ConsumeReady | internal/log_reader/ordered_queue.go:72-135 | for any stamps, after Consume the heap holds exactly the queued logs in heap order and at most bufferSize remain; something is given out only when the buffer was full |
| LogReader.Found | internal/log_reader/ordered_queue.go:92-103 | every queued log is found in the heap under its own item |
| LogReader.ReleasesARun | internal/log_reader/ordered_queue.go:87-132 | what is given out is the text of a run of the oldest logs, and the others keep their order |
| LogReader.ReleasesExactly | internal/log_reader/ordered_queue.go:87-132 | which run it is: away from the first two heap places the oldest log alone, which loses its stamp; otherwise the oldest with all logs after it that are before it in time, up to the first that is not |
| LogReader.ConsumeText | internal/log_reader/ordered_queue.go:72-135 | output followed by what is kept is what was kept followed by the new line; only a continuation line that finds the buffer empty is dropped |
| LogReader.NeverEmpties | internal/log_reader/ordered_queue.go:105-131 | with bufferSize 3 or more the buffer is not empty once a stamped line came |
| LogReader.TwoCanEmpty | internal/log_reader/ordered_queue.go:105-131 | with bufferSize 0, 1 and 2 the stamps 5, then 5 and 3, then 5, 3 and 4 leave it empty |
| LogReader.NoTextMoves | internal/log_reader/log_iterator.go:48-102 | for any file and any stamps the records one after the other are the text of the file in file order, less what left the buffer before its first stamped log |
| LogReader.WholeTextKept | internal/log_reader/log_iterator.go:48-102 | the records hold all text of the file if and only if, among the first bufferSize + 1 stamped lines, the first one stands in place 0 or 1 of their heap |
| LogReader.RecordTakes | internal/log_reader/log_iterator.go:56-88 | a record takes the text of the logs without a stamp that follow it, up to the next one with a stamp, and one byte of length for each |
| LogReader.NothingLeftOut | internal/log_reader/ordered_queue.go:104-108 | for any stamps and any bufferSize, no log leaves the buffer before the first that keeps its stamp exactly under the same condition |
| LogReader.EarliestFirstKeepsAll | internal/log_reader/log_iterator.go:48-102 | when no stamped line is before the first one, all text is in the records |
| LogReader.LateFirstLineIsLost | internal/log_reader/log_iterator.go:63-66 | with stamps 9, 1, 2, 3 and bufferSize 3 the text of the first line is in no record |
| LogReader.RefinesGrouping | internal/log_reader/log_iterator.go:48-102 | for strictly increasing stamps the iterator yields one record per stamped line in file order, with exactly its continuation lines |
| LogReader.OrderedQueue.Consume | internal/log_reader/ordered_queue.go:72-135 | Consume on the slice and the heap equals its specification |
| LogReader.OrderedQueue.ReleaseOldest | internal/log_reader/ordered_queue.go:87-132 | the removal and the merge loop equal their specification |
| LogReader.OrderedQueue.DumpRemaining | internal/log_reader/ordered_queue.go:138-184 | the dump loop equals its specification and empties queue and heap |
| LogReader.LogIterator.ScanLines | internal/log_reader/log_iterator.go:50-68 | the loop over the lines returns the next record to come, or none and reads to the end |
| LogReader.LogIterator.YieldRemaining | internal/log_reader/log_iterator.go:74-88 | the loop over what was dumped returns the next record to come |
| LogReader.LogIterator.Next | internal/log_reader/log_iterator.go:48-102 | successive calls return exactly the specified records, and then nothing |
| SymWalk.WalkIsExact | pkg/utils/symwalk.go:70-283 | for any links, cycles included, the walk fails exactly when a dangling link lies ahead; otherwise it reports exactly the non-empty files that some path below the root denotes by links that do not spell themselves, and enters each link target at most once |
| SymWalk.ReportsExactly | pkg/utils/symwalk.go:158-207 | under which paths: the callback gets exactly the paths of the non-empty files below the root, and below every link target entered, each going on from the path of its link; each path once |
| SymWalk.EveryPathReported | pkg/utils/symwalk.go:184-236 | without links the callback gets exactly the paths at which there is a non-empty file |
| SymWalk.FindsExactly | pkg/utils/symwalk.go:110-124 | those paths denote what the operating system finds, for every path, if and only if no link ahead spells itself |
| SymWalk.SpelledFileIsMissed | pkg/utils/symwalk.go:110-124 | a file that only a link `l` with the text `b/../l` leads to, through a link `b`, is not reported |
| SymWalk.WalkIsOrdered | pkg/utils/symwalk.go:209-236 | files come in lexical order of the paths they are reached by, no path twice |
| SymWalk.LimitIsPrefix | pkg/utils/symwalk.go:313-346 | with MaxFiles M the callback gets exactly the first M files of the unlimited walk, although SkipDir is swallowed at directories and links |
| SymWalk.DanglingIsMet | pkg/utils/symwalk.go:209-283 | whatever the limit, a dangling link in a directory makes the walk fail unless a file of the same directory comes before it |
| SymWalk.RefusedFileEnds | pkg/utils/symwalk.go:209-283 | a file that a full limit refuses ends its directory: nothing after it is looked at |
| SymWalk.WalkFails | pkg/utils/symwalk.go:94-182 | a walk that fails met a dangling link |
| SymWalk.Walker.SymWalk | pkg/utils/symwalk.go:184-207 | the recursion over the shared map equals its specification |
| SymWalk.Walker.HandleSymlink | pkg/utils/symwalk.go:94-182 | following a link equals its specification |
| SymWalk.Walker.WalkDirectory | pkg/utils/symwalk.go:209-283 | the loop over the entries, with SkipDir and errors, equals its specification |
| SymWalk.Walker.Callback | pkg/utils/symwalk.go:313-338 | the callback counts, stops at the limit and passes the file on |
| Multipart.PartsTile | pkg/upload/upload_manager.go:404-409 | every byte of the file is in exactly one of the parts 1 to N |
| Multipart.AtMost1001 | pkg/upload/upload_manager.go:126-135 | the chosen part size gives at most 1001 parts |
| Multipart.UploadableSizes | pkg/upload/upload_manager.go:126-135 | the files that get a plan are exactly those below 1000 times 5 GiB and one byte, fewer than the code's own limit lets through |
| Multipart.PlannedParts | pkg/upload/upload_manager.go:241-245 | the plan in plain terms: parts of 6 MiB where no size is asked for, of 5 MiB to 5 GiB, at most 10000 and just as many as hold the file, of a file of at most 5 TiB |
| Multipart.NilCompletes | pkg/upload/upload_manager.go:329-563 | a call that returns nil completed the upload if and only if the cached size was that of the cached parts, and completed exactly the parts 1 to N ascending |
| Multipart.NilExactly | pkg/upload/upload_manager.go:210-563 | with a cached size that is that of the cached parts, an attempt returns nil if and only if the file is not too large, there is an upload to go on with, all missing parts arrive and the completion is accepted |
| Multipart.SilentlyDropped | pkg/upload/upload_manager.go:539-542 | a resumed call with a wrong cached size that uploads all the other parts returns nil with nothing completed |
| Multipart.DiesAnywhere | pkg/upload/upload_manager.go:481-535 | whenever the process dies, the cached parts are distinct and in the plan, the cached size is theirs if and only if it did not die in a size window, and they belong to the cached upload if and only if it did not die in the id window |
| Multipart.CompletedTogether | pkg/upload/upload_manager.go:259-275 | the upload completed is the cached or the new one, and all completed parts were put under it if and only if the cached parts belonged to the cached upload |
| Multipart.LivesKeep | pkg/upload/upload_manager.go:210-580 | the same over any number of attempts, each dying anywhere or not |
| Multipart.ResumeIsSafe | pkg/upload/upload_manager.go:210-580 | starting from an empty cache, with deaths anywhere but in the size windows, nil means completed with exactly the parts 1 to N in order |
| Multipart.ResumeKeepsUpload | pkg/upload/upload_manager.go:567-580 | with deaths anywhere but between the deletions of the id and of the parts, all completed parts were put under the upload that is completed |
| Multipart.PutWindowLosesFile | pkg/upload/upload_manager.go:521-532 | for every file of two or more parts a death between the two Puts leads to nil with nothing completed |
| Multipart.CleanWindowLosesFile | pkg/upload/upload_manager.go:567-580 | a death between the deletions of the parts and of the size leads there too |
| Multipart.IdWindowMixesUploads | pkg/upload/upload_manager.go:567-580 | after a death between the deletions of the id and of the parts, the next call completes a new upload with parts put under the old one |
| Multipart.CompletedCleans | pkg/upload/upload_manager.go:549-562 | a completed upload leaves an empty cache |
| Multipart.StaleStartsOver | pkg/upload/upload_manager.go:494-502 | when a part is told that the upload no longer exists, the attempt fails and leaves an empty cache, and the next one starts a new upload |
| Multipart.RefusedCompletion | pkg/upload/upload_manager.go:549-562 | a refused completion leaves an empty cache if the upload no longer exists, and otherwise all parts with the size of the file |
| Multipart.OversizeStartsOver | pkg/upload/upload_manager.go:241-257 | a cached size above the size of the file counts as an empty cache |
| Multipart.MismatchStartsOver | pkg/upload/upload_manager.go:329-360 | enough cached parts with a wrong size, or too many of them: the attempt fails and leaves an empty cache |
| Multipart.CompletesWithinThree | pkg/upload/upload_manager.go:210-563 | from any cache with sound parts, whatever its size says, three attempts in which nothing goes wrong complete the upload |
| Multipart.UploadedRemembered | pkg/upload/upload_manager.go:503-535 | every part taken by the gather loop is in the cache with its size, also when the loop ends early without a sign that the upload is gone |
| Multipart.SortedAll | pkg/upload/upload_manager.go:544-547 | sorting N distinct parts of the plan puts part i + 1 at place i |
| Multipart.Manager.GatherParts | pkg/upload/upload_manager.go:480-536 | the gather loop and the operations it performs equal their specification |
| Multipart.Manager.FMultipartPutObject | pkg/upload/upload_manager.go:210-563 | the call's result, the operations it performs and the keys it leaves are as specified |
| Multipart.Manager.FPutObject | pkg/upload/upload_manager.go:101-153 | large files go through the multipart upload with the chosen part size, after the cleanup when asked; others through one PutObject |
| Multipart.Manager.CleanUploadCache | pkg/upload/upload_manager.go:567-580 | the three keys are deleted in this order |
| KeyedMutex.RunKeeps | internal/model/record_cache_lock.go:39-77 | in every run references count holders and waiting, an entry is registered exactly while it has references, and no other mutex takes its place before it is unlocked |
| KeyedMutex.MutualExclusion | internal/model/record_cache_lock.go:39-77 | two handles between Lock and the unlock of one key are the same handle |
| KeyedMutex.EveryCallHolds | internal/model/record_cache_lock.go:39-62 | in every run a call on a key that is not blank ends only after it held the lock of that key; a blank key locks nothing |
| KeyedMutex.EmptyAtRest | internal/model/record_cache_lock.go:64-77 | when every handle is done the map is empty |
| KeyedMutex.SomeoneMoves | internal/model/record_cache_lock.go:39-62 | while some handle is not done, some handle can move or some caller holds a lock it may release |
| KeyedMutex.EveryoneFinishes | internal/model/record_cache_lock.go:39-77 | in whatever order the handles of a reachable state move, within a fixed number of steps every one is done and the map is empty |
| KeyedMutex.RestIsReached | internal/model/record_cache_lock.go:39-77 | and from every reachable state there is such an order |
| KeyedMutex.ReleaseOnce | internal/model/record_cache_lock.go:56-61 | in every run, calling release again at any later moment changes nothing |
| KeyedMutex.GoesForward | internal/model/record_cache_lock.go:39-77 | no step moves a handle back |
| KeyedMutex.LeaveKeeps | internal/model/record_cache_lock.go:64-77 | dropping the last reference with its entry while the mutex is still held keeps the invariant |
| RecordCache.RunsAreSerial | internal/model/record_cache.go:142-210 | in every interleaving of updates, reloads and cleanups the files are the replay of the effects in lock order; every call took effect between its begin and its end, a cleanup and an update that is to be written and finds its file exactly once, and returned what the replay shows there |
| RecordCache.UpdatesTakeEffect | internal/model/record_cache.go:142-167 | in every run a finished update that can be written returned a record if and only if its file was there; then it is in the log exactly once, and the file is the one an effect earlier, changed as asked: skipped after a cancellation, uploaded after the end of an unskipped record, with the path after progress on a record without flags, and otherwise the same |
| RecordCache.ReloadsSeeFiles | internal/model/record_cache.go:173-192 | in every run a finished reload returned the file of its place if and only if there was one |
| RecordCache.CallsAreAsked | internal/model/record_cache.go:142-167 | the calls of a run are those that were begun, with the request they were begun with |
| RecordCache.EveryCallReturns | internal/model/record_cache.go:142-210 | in whatever order the calls of a reachable store move, within a fixed number of moves every one has returned and no lock is held |
| RecordCache.MoveSerial | internal/model/record_cache.go:142-167 | every single step keeps that, so nothing changes a file between a call's read and its write |
| RecordCache.FilesGoForward | internal/collector/upload.go:322-333 | flags never revert, a skipped record is never newly marked uploaded, paths grow without repeats and freeze once a flag is set |
| RecordCache.ResultsGoForward | internal/model/record_cache.go:142-167 | a call that begins after another on the same file returned has the later place and returns a later record, in every run |
| RecordCache.PlacesGoForward | internal/model/record_cache.go:142-167 | of two calls on one file the one with the later place returned the later record |
| RecordCache.ApplyLater | internal/mod/task/handler.go:175-178 | every update function, the canceller's included, only moves a record forward |
| RecordCache.ApplyMeans | internal/collector/upload.go:322-333 | what each update function does to flags, paths and the rest |
| RecordUpload.UploadFiles | internal/collector/upload.go:216-449 | whatever the canceller does meanwhile and whenever the record expires, it is cleaned up only after an update marked it uploaded and saw it not skipped, the recorded paths being exactly those recorded before and those of the readable files, and every upload having gone well; it is cleaned up when nothing interferes and no upload fails; otherwise, unless it expires, it stays, moved forward only and not newly marked uploaded, and there is a reason for the error or for leaving it; no file is uploaded that the record already names, or after it was seen skipped or uploaded |
| RecordUpload.UploadNext | internal/collector/upload.go:253-367 | one file in the loop: when it is uploaded, what is recorded of it, and when the loop ends, with or without an error |
| RecordUpload.UnreadableIsForgotten | internal/collector/upload.go:270-273 | a record whose file cannot be read is marked uploaded and cleaned up, and the file's path was never recorded |
| RecordUpload.Finalize | internal/collector/upload.go:371-447 | the end of the loop: cleanup only after the final update saw the record unskipped |
| RecordUpload.StateFile.Modify | internal/collector/upload.go:322-336 | an update on top of the others': what it may change, and that the uploaded flag is set only on an unskipped record |
| RecordPipeline.ActiveIsOnTheWay | internal/collector/collector.go:220-252 | in every run the active set is the disjoint union of what collector, channel, receiver, queue and worker hold |
| RecordPipeline.PushNeverFails | internal/collector/upload.go:195-209 | Push succeeds whenever IsFull said no before |
| RecordPipeline.RefusedOnlyWhenFull | internal/collector/collector.go:220-252 | a record is refused only where there is no room: the channel takes it exactly while it holds fewer than 5, the queue exactly while it holds fewer than 8 |
| RecordPipeline.FirstInFirstOut | pkg/upload/queue.go:39-76 | channel and queue hand on first what came first, and nothing else enters or leaves them |
| RecordPipeline.ReachesWorker | internal/collector/upload.go:110-213 | from every reachable state a record on its way that nobody has refused can come to the worker |
| RecordPipeline.AcquiredReachesWorker | internal/collector/collector.go:220-252 | and every path that is neither blank nor active can be acquired by a free collector and get there |
| RecordPipeline.UploadedAlone | internal/collector/upload.go:113-168 | the record being uploaded is active and waits nowhere |
| RecordPipeline.SomeStepPossible | internal/collector/upload.go:110-213 | while a record is active some goroutine can pass it on or release it |
| RecordPipeline.StepsApproach | internal/collector/upload.go:110-213 | every step but an acquisition brings some record nearer to its release |
| RecordPipeline.EverythingIsReleased | internal/collector/record_registry.go:33-57 | from every reachable state, in whatever order the goroutines move, within a fixed number of steps none of them can move and no key is active |
| RecordPipeline.DedupQueue.Push | pkg/upload/queue.go:39-62 | a record is appended exactly when there is room, it is not empty and it is not in the queue |
| RecordPipeline.DedupQueue.Pop | pkg/upload/queue.go:65-76 | the first element is taken off, if there is one |
| RecordPipeline.DedupQueue.IsFull | pkg/upload/queue.go:79-84 | full means as many elements as the capacity |
| RecordPipeline.RecordRegistry.TryAcquire | internal/collector/record_registry.go:33-47 | a key is acquired exactly when it is not blank and not active |
| RecordPipeline.RecordRegistry.Release | internal/collector/record_registry.go:49-57 | a key that is not blank is no longer active |
| FileState.FailedWalkUndone | internal/mod/rule/file_state_handler/file_state_handler.go:266-289 | a walk that fails after any visits, repeated ones and new paths included, restores the whole state map |
| FileState.WalkProcesses | internal/mod/rule/file_state_handler/file_state_handler.go:340-370 | a walk that succeeds has processed every visit |
| FileState.SettledStays | internal/mod/rule/file_state_handler/file_state_handler.go:566-613 | a supported and processed file stays so, and is not dispatched, in any pass that does not delete its entry |
| FileState.AtMostOnce | internal/mod/rule/handler.go:368-393 | between two dispatches of one path its entry was deleted |
| FileState.DispatchedExactly | internal/mod/rule/handler.go:368-393 | a file without progress that a pass met finished, that a handler takes, that is not too old, and that no pass since deleted or met otherwise, is dispatched exactly by the first pass without error from the second pass on that counts |
| FileState.UnfitStartsOver | internal/mod/rule/file_state_handler/file_state_handler.go:566-595 | a file not dispatched yet that a pass meets without a handler or too old is not dispatched by it, and has no progress afterwards |
| FileState.DeletedStartsOver | internal/mod/rule/file_state_handler/file_state_handler.go:305-338 | what a pass deletes starts over: a file that is gone has no entry, one whose directory is no longer listened to has been seen at most once since |
| FileState.LastVisitKept | internal/mod/rule/file_state_handler/file_state_handler.go:596-610 | the entry of a file not dispatched yet holds the size and time of its last visit |
| FileState.LastVisitRefused | internal/mod/rule/file_state_handler/file_state_handler.go:572-595 | a file that no handler takes, or that is too old, is unsupported from then on, and too old only in the second case |
| FileState.UnsupportedKept | internal/mod/rule/file_state_handler/file_state_handler.go:572-584 | an unsupported file keeps its entry however often no handler takes it |
| FileState.DispatchedAfterTwoPasses | internal/mod/rule/file_state_handler/file_state_handler.go:682-704 | a file is dispatched only after an earlier pass left it seen once, its entry being there ever since |
| FileState.DispatchedWasFinished | internal/mod/rule/file_state_handler/file_state_handler.go:576-610 | a file is dispatched only when some pass so far met it finished, taken by a handler and not too old, in a scan that was not rolled back |
| FileState.FileStateHandler.ProcessListenFile | internal/mod/rule/file_state_handler/file_state_handler.go:566-613 | all branches equal their specification |
| FileState.FileStateHandler.RestoreFileStates | internal/mod/rule/file_state_handler/file_state_handler.go:279-289 | the loop restores or deletes exactly the checkpointed paths |
| FileState.FileStateHandler.WalkDir | internal/mod/rule/file_state_handler/file_state_handler.go:340-370 | checkpoint, visit and rollback equal their specification |
| FileState.FileStateHandler.UpdateListenDirs | internal/mod/rule/file_state_handler/file_state_handler.go:305-417 | forgetting, scanning and cleaning up equal their specification |
| FileState.FileStateHandler.UpdateFilesProcessState | internal/mod/rule/file_state_handler/file_state_handler.go:682-704 | the loop moves every listened file exactly one step; by DispatchedExactly the second step makes it ready |
| FileState.FileStateHandler.SendFilesToBeProcessed | internal/mod/rule/handler.go:368-393 | one pass dispatches exactly the ready files and marks them processed |
| Cdr.ReadsWhatWasWritten | pkg/mcap_ros2/message_reader.go:350-512 | for every schema, byte order and padding, reading what was written gives the value, with negative wide integers one higher, and ends at the end of the data |
| Cdr.RoundTripExactly | pkg/mcap_ros2/message_reader.go:119-131 | the round trip holds exactly for values without a negative integer wider than a byte |
| Cdr.TruncatedFails | pkg/mcap_ros2/cdr_reader.go:190-203 | data whose end is missing is never misread: reading fails unless only the last byte is missing, and then gives the same value or fails |
| Cdr.SignedOffByOne | pkg/mcap_ros2/cdr_reader.go:74-113 | the signed conversion undoes two's complement for values that are not negative and is one too high for the others |
| Cdr.AlignPads | pkg/mcap_ros2/cdr_reader.go:182-187 | the reader's alignment, counted from byte 4, skips exactly the writer's padding |
| Cdr.WordInverse | pkg/mcap_ros2/cdr_reader.go:190-203 | a padded word in either byte order reads back |
| Cdr.WrittenWord | pkg/mcap_ros2/cdr_reader.go:54-137 | every number is written as a word of the size the transfer syntax gives, 1, 2, 4 or 8 bytes, and that word is what is read and what yields the number |
| Cdr.NonzeroIsTrue | pkg/mcap_ros2/cdr_reader.go:55-59 | every byte but 0 is true |
| Cdr.StringInverse | pkg/mcap_ros2/cdr_reader.go:140-166 | a string reads back, an empty one with or without terminator |
| Cdr.TerminatorUnread | pkg/mcap_ros2/cdr_reader.go:140-158 | the terminator of a string is stepped over and not read, so it may hold anything and may be missing |
| Cdr.FieldInverse | pkg/mcap_ros2/message_reader.go:376-430 | single, fixed and unbounded fields, nested ones included, read back |
| Cdr.ArrayInverse | pkg/mcap_ros2/message_reader.go:433-480 | arrays read back, byte arrays as one slice |
| Cdr.CdrReader.ReadBytes | pkg/mcap_ros2/cdr_reader.go:190-203 | the bounds check before the alignment, and the bytes read |
| Cdr.CdrReader.StringValue | pkg/mcap_ros2/cdr_reader.go:140-166 | equals its specification |
| Cdr.CdrReader.Complex | pkg/mcap_ros2/message_reader.go:350-373 | the loop over the fields equals its specification |
| Cdr.CdrReader.ReadField | pkg/mcap_ros2/message_reader.go:376-430 | equals its specification |
| Cdr.CdrReader.ReadArray | pkg/mcap_ros2/message_reader.go:433-480 | the array loops equal their specification |
| Cdr.ReadMessage | pkg/mcap_ros2/message_reader.go:119-131 | data shorter than its header is refused, otherwise the decoded value is returned |
| Debounce.RuleDebounces | pkg/rule_engine/rule.go:62-97 | for messages of any source the stored time is the latest timestamp since the last file message, and the rule fires exactly at the timestamps that are first, more than the debounce time past the stored one, or in a file and before it |
| Debounce.HttpDebounces | pkg/rule_engine/rule.go:62-97 | for HTTP messages the stored time is the latest timestamp that met the conditions, and the rule fires exactly at those that are first or more than the debounce time past the latest |
| Debounce.OrderedDebounces | pkg/rule_engine/rule.go:62-97 | messages of any source that are in order debounce the same way |
| Debounce.FiresApart | pkg/rule_engine/rule.go:78-96 | for messages in order any two fires are more than the debounce time apart |
| Debounce.SilentHasReason | pkg/rule_engine/rule.go:91-96 | a timestamp that is held back has one before it within the debounce time |
| Debounce.FilesFireBackwards | pkg/rule_engine/rule.go:81-90 | two messages from files in reverse order both fire, however close |
| Debounce.SpacedExactly | pkg/rule_engine/rule.go:78-96 | the fires stay more than the debounce time apart, for every debounce time, if and only if no file message is before one that met the conditions earlier |
| Debounce.RuleFiresAlways | pkg/rule_engine/rule.go:75-78 | a rule without a debounce time, or without a name, fires at exactly the messages of its topics, or of all topics when it names none, that meet all its conditions |
| Debounce.RunsAlone | internal/mod/rule/engine.go:173-239 | with at most 1000 keys the rules of one key behave as if they ran alone |
| Debounce.KeysTellRulesApart | internal/mod/rule/engine.go:241-262 | rules whose names hold no bar share a key only with the same name and scope |
| Debounce.CleanupExactly | internal/mod/rule/engine.go:264-284 | above 1000 keys exactly the activation times more than 86400000000000 nanoseconds before the clock go |
| Debounce.Engine.EvalConditions | pkg/rule_engine/rule.go:62-97 | the loop over the conditions and the branches equal their specification |
| Debounce.Engine.ConsumeNext | internal/mod/rule/engine.go:173-239 | the loop over the rules equals its specification |
| Debounce.Engine.CleanupDebounceTime | internal/mod/rule/engine.go:264-284 | above 1000 keys exactly those older than 24 hours go |

## Left out

- QueuedBytes.Budget.TryReserve: runs without interference; CallsAreAtomic and RuleIngress take the compare-and-swap loop turn by turn.
- QueuedBytes.Budget.Release: likewise.
- RuleIngress: the rate limiter, the encoding of a batch, its sorting by timestamp and the bodies of responses; a request's decoding is any sequence of reservations and failures.
- RuleDecoder: bytes inside tokens; json.Decoder is written from its documented behaviour, its input ends at the first lexical error, and a message's metadata is any function of its tokens. Chunks end between tokens, and no other request changes the budget during one decoding.
- LogReader: timestamp formats and file reading; a line comes with its stamp. The pointer shared by queue and heap is the position of the line.
- LogReader.WholeTextKept: is stated for bufferSize 3 and more, because with less continuation lines can be dropped as well; a stamped line has text, because its stamp is found in it.
- SymWalk: errors of directories and of the user's callback, options that do not follow links or that keep empty files. Whether a link spells itself belongs to the link, so an absolute text that does so only under one of the paths that lead to it is not covered.
- Multipart: the server and its network, progress messages, legacy cache keys, cached values that cannot be parsed, Puts and Deletes that fail, files that change size between attempts; workers are any order of arrival of parts, each of the requested size.
- Multipart.OptimalIsPlan: minio.OptimalPartInfo is not part of this model; it is written from its contract in integers.
- KeyedMutex: fairness among those who wait.
- RecordCache: the mutex of a RecordCache object, creating state files, fields other than flags and paths, failures of reading a file that exists, and the collector's deletion of expired records, which takes no lock.
- RecordUpload.UploadFiles: files come in any order; the upload of one file, labels and tags are outcomes; a record expires between two operations on its state file, not within one.
- RecordPipeline: panics, shutdown, and the reasons for which a worker gives a record up.
- FileState: UpdateCollectDirs, the order of Files, relative paths, and the content of file handlers; dispatched files are a set.
- Cdr: parsing of schema text and looking up nested definitions; a schema is the tree of its definitions. The map of a message's fields is a list in field order.
- Cdr.ReadsWhatWasWritten: bounded sequences are not covered, because the reader takes their bound for a fixed length.
- Debounce: compiling and evaluating conditions, actions and their effects, and durations beyond 64 bits.
- Registration, heartbeat, configuration, slaves, scripts and the command line would add only easy members.
