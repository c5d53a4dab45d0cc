# Models of the solved exercises

Machine-checked models of the exercises of this course that carry hard behaviour:
the threaded pipeline, the in-place merge sort, the parallel chat server, newline
framing, the worker queue, the assembly interpreter with its parser, and the two
computers. `dafny verify dfyconfig.toml` checks everything.

## What is modelled

**Pipeline** (`factorio/`). Threads joined by bounded FIFO channels: a forwarder,
`filter_map` stages, and `fork_join` blocks of a distributer, one worker per line and a
gatherer. The program is a step relation over channel contents, what each thread holds,
and which threads have returned. A channel end is open exactly while the thread that
owns it runs. A channel of size 0 is a rendezvous: a value can be put into it only while
its reader waits. The caller of the output may be away, receiving, told that the channel
is disconnected, or have dropped its receiver. `sent`, `received`, `taken`, `made` and
`joined` are histories. Every theorem about runs holds for every list of stages, every queue size
and every interleaving; `n_lines >= 1` is assumed, and `InOrderIffLines` shows that this
is exactly what is needed.

**Merge sort** (`sorting/`). Arrays sorted in place, for every total preorder. Each loop
is a method over an `array`; what it computes is tied to functions about which
sortedness, stability, the movement count and the index range are proved.

**Chat server** (`chat/`). One step per acquisition and release of a lock. The map from
names to writers sits behind a fair read-write lock with a FIFO queue; each writer has
its own mutex and is named by the client task that owns it. Between the name check and
the insertion other tasks run. A send may complete or fail. `inserts` and `log` are
histories of the names inserted and of the sends completed.

**Framing** (`framing/`). A stream is a script of reads: some bytes (as many as fit are
returned, the rest stay), no bytes (end of stream), or an error such as `WouldBlock`.
The reader is an object with the 1024-byte buffer and `loaded`; decoder and encoder are
parameters.

**Worker queue** (`queue/`). One owner, `n >= 1` workers with bounded inboxes (size 0 is
again a rendezvous), an unbounded result channel. `unwrap` on a failed send is a state of
its own, and proved unreachable.

**Interpreter** (`interp/`). Stage 3 (straight lines) and stage 4 (labels and jumps) over
`u8`, both driving the same CPU object, and the stage 4 parser on strings of Unicode
characters. A `u8` overflow, which panics, is the fault `Overflow`.

**Computers** (`computer/`). The struct of flags as an object and the enum as a function,
with checked `u32` additions: `None` or `ok == false` is the overflow panic.

## Where the code and its description differ

- `fork_join` with 0 lines is accepted and emits without input (`ZeroLines`).
- The size limit of 256 bytes is checked only when no newline is in the buffer: whether
  a payload of 256 to 1023 bytes is received depends on how reads are cut
  (`DeliveredIffSmall`, `LoneMessageLimit`).
- A payload that does not decode stays in the buffer and fails every later call
  (`Poisoned`).
- Two chat clients can both be welcomed under one name (`ServedButUnlisted`).
- A destination operand without `R` is reported as an invalid *readable* expression.
- Passing time is not always additive on `u32`: where only the sum, or only one of the
  steps, overflows, one way panics and the other turns the computer off
  (`MergedSurvives`, `SplitSurvives`; `PassTimeAdds` has the exact condition).
- The struct computer panics on some runs on which the enum computer turns off
  (`EnumSurvives`).

## Model

| member | source | states |
|---|---|---|
| Builder.NewForwards | lessons/07/exercises/src/factorio.rs:184-200 | a new pipeline delivers its input unchanged |
| Builder.FilterMapMeaning | lessons/07/exercises/src/factorio.rs:229-244 | `filter_map` drops the old outputs `f` has no result for and delivers its result for each of the others, in order, for every `f` |
| Builder.MapMeaning | lessons/07/exercises/src/factorio.rs:212-219 | `map`, which wraps its function for `filter_map`, delivers `f` of each old output, same length and order |
| Builder.FilterMeaning | lessons/07/exercises/src/factorio.rs:221-227 | `filter` delivers exactly the old outputs that pass, in order |
| Builder.ForkJoinMeaning | lessons/07/exercises/src/factorio.rs:255-324 | `fork_join` delivers, for each old output, `join` of the results of all lines on it, in line order |
| Schedules.ScheduleIndependence | lessons/07/exercises/src/factorio.rs:184-325 | in every reachable state of every interleaving: received is a prefix of the sequential composition on what was sent; until the receiver is dropped, received followed by all in-flight items pushed through their remaining stages equals it; after disconnection received is all of it |
| Schedules.DrainedRunsAgree | lessons/07/exercises/src/factorio.rs:184-325 | any two schedules that were sent the same and drained received the same |
| Built.BuiltDelivers | lessons/07/exercises/src/factorio.rs:208-210 | running a built pipeline delivers what its builder computes: a prefix of it, and all of it to a caller that reads until the end |
| Built.QueueSizeKept | lessons/07/exercises/src/factorio.rs:184-325 | every stage added keeps the queue size the builder was made with |
| Built.CallerIsFree | lessons/07/exercises/src/factorio.rs:208-210 | the caller can drop its senders, ask for output or drop its receiver whenever it is not waiting |
| Schedules.StepKeepsTotal | lessons/07/exercises/src/factorio.rs:236-312 | no thread step loses, duplicates or reorders received plus in-flight |
| Schedules.StepKeepsFaithful | lessons/07/exercises/src/factorio.rs:184-325 | the invariant behind it is kept by every action, dropping the receiver included |
| Schedules.RowsStayAligned | lessons/07/exercises/src/factorio.rs:271-312 | in every reachable state, the gatherer returned or not: the lines were sent the first items taken, in counts that fall by at most one over the lines; the k-th result of worker `l` is its function of the k-th item; every vector joined is one whole row, in input order; and while the gatherer runs the results still queued are the next ones |
| LineHistories.LinesDealtInOrder | lessons/07/exercises/src/factorio.rs:271-296 | the part of this about what the lines were sent and what their workers made of it |
| LineHistories.StepKeepsDealt | lessons/07/exercises/src/factorio.rs:277-296 | ... as an invariant kept by every action |
| ForkJoinRows.InnerKeepsBlock | lessons/07/exercises/src/factorio.rs:271-312 | each step inside a fork-join keeps the rows aligned |
| ForkJoinRows.DistributeKeeps | lessons/07/exercises/src/factorio.rs:287-296 | ... a send of the distributer to one line |
| ForkJoinRows.GatherKeeps | lessons/07/exercises/src/factorio.rs:299-307 | ... the gatherer reading one line |
| ForkJoinRows.JoinKeeps | lessons/07/exercises/src/factorio.rs:308-312 | ... the gatherer joining a row |
| Schedules.NeverStopsWriting | lessons/07/exercises/src/factorio.rs:187-193 | while the caller keeps its receiver, no send between stages fails |
| Schedules.StopsDrained | lessons/07/exercises/src/factorio.rs:236-244 | ... and a thread that returns has an empty, closed input |
| Schedules.GathererEndsDrained | lessons/07/exercises/src/factorio.rs:299-307 | a gatherer that sees a closed line has gathered every row |
| Bounds.BoundedInFlight | lessons/07/exercises/src/factorio.rs:184-325 | the items inside never exceed the sum of queue sizes and stage limits, an item handed to a caller waiting at a rendezvous aside |
| Bounds.StraightInFlight | lessons/07/exercises/src/factorio.rs:184-244 | m single-thread stages and their queues hold at most (m + 1) * queue_size + m items, and one more only when a caller already waits for it at a rendezvous output |
| Bounds.StageHolds | lessons/07/exercises/src/factorio.rs:271-312 | how much one fork-join can hold, whatever the speeds of its workers |
| Bounds.InputTakesQueueSize | lessons/07/exercises/src/factorio.rs:184-193 | a live input channel of size q takes items until it holds q, before any thread moves, and no more |
| Bounds.RendezvousInput | lessons/07/exercises/src/factorio.rs:184-193 | a size 0 input takes an item exactly when its reader waits |
| Bounds.OutputTakesQueueSize | lessons/07/exercises/src/factorio.rs:234-244 | a stage with an output ready can send it exactly while the next live channel is not full |
| Bounds.LinesTakeQueueSize | lessons/07/exercises/src/factorio.rs:271-296 | the same between distributer, workers and gatherer |
| Progress.NoDeadlock | lessons/07/exercises/src/factorio.rs:184-325 | whenever something is inside and the output side has room or a waiting caller, some thread can step or the caller gets an item; rendezvous queues included |
| Progress.StuckForkIsEmpty | lessons/07/exercises/src/factorio.rs:271-312 | a fork-join in which nothing can step and nothing is offered is empty |
| Shutdown.StepUsesWork | lessons/07/exercises/src/factorio.rs:187-312 | every action except sending an input makes the measure smaller |
| Shutdown.SendAddsWork | lessons/07/exercises/src/factorio.rs:184-193 | sending an input adds exactly the cost of one item |
| Shutdown.RunsAreShort | lessons/07/exercises/src/factorio.rs:184-325 | every run is at most as long as its starting work plus what its sends add: no livelock |
| Shutdown.RestMeansEnded | lessons/07/exercises/src/factorio.rs:277-336 | a closed pipeline that cannot move has no live thread |
| Shutdown.CloseTerminates | lessons/07/exercises/src/factorio.rs:332-336 | after the inputs are dropped every continuation is finite and ends with all threads returned; a caller that drained has exactly the sequential result |
| Shutdown.DrainingComesToRest | lessons/07/exercises/src/factorio.rs:187-336 | from every reachable closed state a caller that keeps receiving brings the pipeline to such an end |
| ZeroLines.InOrderIffLines | lessons/07/exercises/src/factorio.rs:299-312 | a fork-join pipeline delivers in order under every schedule if and only if it has a line |
| ZeroLines.EmptyRowEscapes | lessons/07/exercises/src/factorio.rs:299-312 | with 0 lines an output is received though nothing was sent |
| Ordering.StableSortUnique | lessons/03/exercises/src/in_place_mergesort.rs:1-15 | sortedness and unchanged order within equal keys determine the result |
| Ordering.SameClassesPermute | lessons/03/exercises/src/in_place_mergesort.rs:1-15 | equal classes make a permutation |
| Ordering.InversionsCountPairs | lessons/03/exercises/src/in_place_mergesort.rs:1-27 | the recursive inversion count is the number of index pairs in the wrong order |
| MergeSort.MergeSorted | lessons/03/exercises/src/merge_slices.rs:1-18 | merging sorted pieces gives a sorted sequence |
| MergeSort.MergeStable | lessons/03/exercises/src/merge_slices.rs:1-18 | for every key, the merge holds the left piece's elements of that key, then the right piece's, in order |
| MergeSort.MergeElements | lessons/03/exercises/src/merge_slices.rs:1-18 | the merge is a permutation of both pieces, sorted or not |
| MergeSort.MergeRemovesCross | lessons/03/exercises/src/in_place_mergesort.rs:17-27 | merging sorted neighbours inside any array removes exactly the inversions between them |
| MergeSort.MergeSlices | lessons/03/exercises/src/merge_slices.rs:1-18 | the two-index loop returns the merge |
| MergeSort.RotateRight | lessons/03/exercises/src/in_place_mergesort.rs:23 | the last element of the range moves to its front, the others up by one, nothing else changes |
| MergeSort.SwapDown | lessons/03/exercises/src/in_place_mergesort.rs:36-40 | the chain of swaps does the same as a rotation, in as many swaps as the element moves places |
| MergeSort.LoopResult | lessons/03/exercises/src/in_place_mergesort.rs:17-27 | on every input the merge loop leaves the merge of both pieces in the range and nothing else changed; on sorted pieces the distance moved is the number of inversions between them; a `mid` beyond the range changes nothing |
| MergeSort.InPlaceMerge | lessons/03/exercises/src/in_place_mergesort.rs:17-27 | the rotating merge on the array is that loop |
| MergeSort.InPlaceMergeOld | lessons/03/exercises/src/in_place_mergesort.rs:29-45 | the swapping merge leaves the same array on every input, and its number of swaps is the distance the rotations move |
| MergeSort.PassLoopMerges | lessons/03/exercises/src/in_place_mergesort.rs:5-12 | one run of the inner loop, clamped ends included, merges neighbouring pieces and moves by exactly the inversions it removes |
| MergeSort.SortLoopSorts | lessons/03/exercises/src/in_place_mergesort.rs:4-14 | the outer loop sorts stably, and its total movement is the inversion count |
| MergeSort.PeakFitsIff | lessons/03/exercises/src/in_place_mergesort.rs:2-13 | the largest of all `i + 2 * width` and `width * 2` computed fits 64 bits if and only if there are at most 2^63 elements, and is then at most 2^63 |
| MergeSort.Sort | lessons/03/exercises/src/in_place_mergesort.rs:1-15 | for every length: sorted, stable, movement equals the strict inversions of the input, and the largest index or width computed is the one `PeakFitsIff` speaks of |
| ChatSafety.StepKeepsSafe | lessons/10_parallel/exercises/src/server.rs:30-237 | every step keeps: queue and lock owners match where the tasks are, each writer's mutex is held by the one task sending to it, entries belong to present tasks, targets of a running reaction stay listed |
| ChatSafety.RunKeepsSafe | lessons/10_parallel/exercises/src/server.rs:30-237 | ... and so does every run |
| ChatSafety.StepKeepsTargets | lessons/10_parallel/exercises/src/server.rs:153-237 | no writer a reaction still has to send to leaves the map before the reaction ends |
| ChatRegistry.RegistrySafety | lessons/10_parallel/exercises/src/server.rs:36-56 | in every reachable state, name races included: every entry belongs to a task that inserted that name and has not removed it, owners are distinct, and entries <= present tasks <= tasks <= max_clients |
| ChatRegistry.StepKeepsBijectiveIff | lessons/10_parallel/exercises/src/server.rs:121-130 | one step keeps the map the bijection of present names and tasks if and only if it does not insert a name already listed |
| ChatRegistry.BijectiveRuns | lessons/10_parallel/exercises/src/server.rs:115-132 | the bijection holds in every state of a run if and only if no insertion of the run overwrites an entry |
| ChatJoining.JoinAnswered | lessons/10_parallel/exercises/src/server.rs:80-91 | in every run, a client whose answer arrives was told `Welcome` if and only if its name was not listed while it held the shared lock, and "Username already taken" otherwise, once |
| ChatJoining.WelcomedIsServed | lessons/10_parallel/exercises/src/server.rs:115-132 | a welcomed client is served under its name once the server is at rest, unless it removed its name, which it does only after it left or a reaction sent it away |
| ChatJoining.TakenNameRefused | lessons/10_parallel/exercises/src/server.rs:82-87 | a client with a listed name is forgotten without being listed |
| ChatJoining.WrongFirstMessage | lessons/10_parallel/exercises/src/server.rs:92-108 | any other first message, the end of the stream or the timeout is answered with its error, once, and the client is forgotten |
| ChatJoining.ErrorFirstMessage | lessons/10_parallel/exercises/src/server.rs:97 | a first message that cannot be received ends the client with nothing sent |
| ChatJoining.JoinIsChecked | lessons/10_parallel/exercises/src/server.rs:82-83 | a `Join` is checked under the name it carried |
| ChatRegistry.StepKeepsWindow | lessons/10_parallel/exercises/src/server.rs:82-124 | a name that passed the check is listed later only if it was inserted since |
| ChatRegistry.OverwriteIsRace | lessons/10_parallel/exercises/src/server.rs:82-124 | an overwrite means another insertion of the name fell between this client's check and insertion |
| ChatRegistry.CleanRuns | lessons/10_parallel/exercises/src/server.rs:80-132 | in runs without such a race the map is the bijection in every state |
| ChatRace.ServedButUnlisted | lessons/10_parallel/exercises/src/server.rs:82-130 | a run in which two clients race on a name ends with a welcomed, serving client that is not listed |
| ChatLocks.LockDiscipline | lessons/10_parallel/exercises/src/server.rs:153-237 | no task holds two writer mutexes, or asks for the map lock while holding any lock |
| ChatLocks.WaitDescends | lessons/10_parallel/exercises/src/server.rs:115-237 | waiting for someone lowers the rank: queue, then map lock holders, then writer holders |
| ChatLocks.NoWaitCycle | lessons/10_parallel/exercises/src/server.rs:115-237 | the wait-for relation has no cycle in any reachable state |
| ChatLocks.SomeoneCanStep | lessons/10_parallel/exercises/src/server.rs:115-237 | from every task inside the server a chain of waiting leads to a task that can step |
| ChatLocks.NoDeadlock | lessons/10_parallel/exercises/src/server.rs:115-237 | in every reachable state with a task inside the server some step is possible |
| ChatLocks.OwnWriterIsFree | lessons/10_parallel/exercises/src/server.rs:84-93 | a joining task never waits for its own writer |
| ChatQuiescence.StepUsesWork | lessons/10_parallel/exercises/src/server.rs:75-237 | every step of the server's own makes a measure smaller |
| ChatQuiescence.RunsAreShort | lessons/10_parallel/exercises/src/server.rs:75-237 | between two moves of clients only boundedly many steps happen |
| ChatQuiescence.RestMeansIdle | lessons/10_parallel/exercises/src/server.rs:75-237 | where the server can go no further every task waits for its client or has ended, and every lock is free |
| ChatQuiescence.ComesToRest | lessons/10_parallel/exercises/src/server.rs:75-237 | from every reachable state the server comes to rest without a move of a client |
| ChatService.PlacesAreFilled | lessons/10_parallel/exercises/src/server.rs:42-49 | n more connections are taken on if and only if there are places for them |
| ChatService.ReapingFreesPlace | lessons/10_parallel/exercises/src/server.rs:50-54 | a task can be reaped exactly when it is finished, and that frees its place |
| ChatService.GrantedIff | lessons/10_parallel/exercises/src/server.rs:83-226 | the head of the lock queue is granted if and only if nobody writes, and nobody reads either when it wants to write |
| ChatService.NewcomerIsHeard | lessons/10_parallel/exercises/src/server.rs:80-104 | a new client's first message is always heard |
| ChatService.ServedIsHeard | lessons/10_parallel/exercises/src/server.rs:125 | a served client can always send a request and can always leave |
| ChatService.RequestKept | lessons/10_parallel/exercises/src/server.rs:125-128 | a request waits for the lock as it came |
| ChatService.LeaverIsRemoved | lessons/10_parallel/exercises/src/server.rs:130 | a leaving client has removed its name when the server is at rest, and owns no entry |
| ChatDelivery.StepKeepsLogInv | lessons/10_parallel/exercises/src/server.rs:75-237 | every step keeps: what the log holds of a running reaction is the part of its plan already sent, in order |
| ChatDelivery.ReactionDelivers | lessons/10_parallel/exercises/src/server.rs:153-237 | a reaction ends with a prefix of its plan delivered in order, and with all of it if and only if no send failed |
| ChatDelivery.ReactionFrozen | lessons/10_parallel/exercises/src/server.rs:153-237 | while a reaction runs, its plan and the map do not change |
| ChatDelivery.BroadcastReachesOthers | lessons/10_parallel/exercises/src/server.rs:176-189 | a broadcast that does not fail has reached exactly the clients listed when it got the map lock, its own name left out, each once |
| ChatDelivery.PlanMeaning | lessons/10_parallel/exercises/src/server.rs:153-237 | chat messages carry the sender's name and go only to clients listed under other names; every other reply goes to the client itself |
| ChatDelivery.DirectMessage | lessons/10_parallel/exercises/src/server.rs:190-222 | a direct message is sent, with its text, if and only if its addressee is listed under another name; an error, with its reason, if and only if the listed sender wrote to itself or to nobody listed |
| ChatDelivery.PingAndRejoin | lessons/10_parallel/exercises/src/server.rs:159-165 | a listed client that pings gets one pong; one that sends `Join` again gets one error |
| ChatDelivery.UserListComplete | lessons/10_parallel/exercises/src/server.rs:166-175 | the user list holds every listed name once |
| ChatDelivery.ReactionEnds | lessons/10_parallel/exercises/src/server.rs:125-130 | after a reaction the client leaves if a send failed or it sent `Join` again while listed, and is served on otherwise |
| ChatDelivery.DeliveriesOrdered | lessons/10_parallel/exercises/src/server.rs:75-237 | in every run one task's deliveries are in request order, and each client gets its welcome before anything else |
| Frames.SplitWire | lessons/09/exercises/src/writer.rs:18-25 | splitting the written bytes at newlines gives back the payloads, all and in order |
| Frames.SplitAppend | lessons/09/exercises/src/writer.rs:21-22 | a payload and a newline at the end add one payload at the end |
| Framing.RecvTakesLine | lessons/09/exercises/src/reader.rs:24-54 | whatever the reads, one call takes the first line off the stream and decodes it, or takes nothing |
| Framing.RecvAccounts | lessons/09/exercises/src/reader.rs:37-53 | one call reports a failed read exactly when it met one, the end exactly when it met an empty read or the exhausted script, both only with no line and fewer than 256 bytes held; any other result uses up neither |
| Framing.FailuresReported | lessons/09/exercises/src/reader.rs:44-53 | over any number of calls the failed reads are reported one by one, no more and no fewer than were met, and so are the empty reads |
| Framing.HeldFits | lessons/09/exercises/src/reader.rs:17 | at most 1024 bytes are ever held |
| Framing.Poisoned | lessons/09/exercises/src/reader.rs:28-42 | after an undecodable or too large payload the state is unchanged and every later call fails the same way |
| Framing.CallsAgreeWithSplit | lessons/09/exercises/src/reader.rs:24-54 | for every byte stream, every chunking and any number of calls, the messages are the first lines of the stream decoded in order, and the stream is those lines, then the bytes held, then what is still to come |
| Framing.AllDelivered | lessons/09/exercises/src/reader.rs:24-54 | payloads of at most 255 bytes: enough calls return exactly the messages sent, with nothing refused, wherever reads fail |
| Framing.BytewiseReceives | lessons/09/exercises/src/reader.rs:24-54 | read byte by byte, n calls receive exactly the first n messages, up to the first payload of 256 bytes or more; that one and all behind it are never received |
| Framing.DeliveredIffSmall | lessons/09/exercises/src/reader.rs:24-54 | every way of cutting the written bytes delivers the messages if and only if every payload has at most 255 bytes |
| Framing.LoneMessageLimit | lessons/09/exercises/src/reader.rs:24-54 | some way of cutting delivers a lone message if and only if it has at most 1023 bytes |
| Framing.MessageReader.Receive | lessons/09/exercises/src/reader.rs:24-54 | the loop over the buffer computes the specified outcome and leaves the specified buffer and stream |
| Framing.MessageReader.Shift | lessons/09/exercises/src/reader.rs:32-33 | the delivered frame leaves the buffer, the rest keeps its order |
| Framing.MessageReader.Fill | lessons/09/exercises/src/reader.rs:44-51 | a read appends its bytes behind the loaded ones; the slice given to it is never empty |
| Framing.MessageWriter.Send | lessons/09/exercises/src/writer.rs:18-25 | the sink gains exactly one line, or nothing when encoding fails or the payload holds a newline |
| WorkerQueue.LaneAt | lessons/07/exercises/src/worker_queue.rs:98-104 | the j-th job of worker w is job number w + j * n |
| QueueSafety.StepKeepsSafe | lessons/07/exercises/src/worker_queue.rs:70-116 | every step keeps the shares of the workers, the counts of jobs and the ends of the channels consistent |
| QueueSafety.RoundRobin | lessons/07/exercises/src/worker_queue.rs:94-105 | in every reachable state worker w has received, then has waiting, exactly jobs w, w + n, w + 2n, ... in order |
| QueueSafety.JobsConserved | lessons/07/exercises/src/worker_queue.rs:70-109 | accepted jobs = waiting + running + unread results + read results, as multisets |
| ResultOrder.ResultsGrow | lessons/07/exercises/src/worker_queue.rs:107-109 | in every run what `next_result` handed out, then what is ready, only grows at the end |
| ResultOrder.ResultsInOrder | lessons/07/exercises/src/worker_queue.rs:78-81 | the results of worker w, as handed out, are the jobs it took, in order, the one at hand left out |
| ResultOrder.OneWorkerInOrder | lessons/07/exercises/src/worker_queue.rs:70-109 | with one worker the results come in the order of the jobs |
| ResultOrder.PutWaitsOnlyForRoom | lessons/07/exercises/src/worker_queue.rs:76-104 | an `enqueue` waits only while the inbox of its worker holds queue_size jobs |
| ResultOrder.ReadyTakesCalls | lessons/07/exercises/src/worker_queue.rs:94-116 | between calls every call can be made, and `enqueue` takes the next number and worker |
| QueueSafety.SendsSucceed | lessons/07/exercises/src/worker_queue.rs:80-104 | neither the send of a job nor the send of a result ever fails |
| QueueSafety.CloseRunsEverything | lessons/07/exercises/src/worker_queue.rs:111-116 | when `close` has returned every worker has ended and every accepted job ran once |
| QueueProgress.StepUsesWork | lessons/07/exercises/src/worker_queue.rs:70-116 | every step that is not a new call makes a measure smaller |
| QueueProgress.RestMeansDone | lessons/07/exercises/src/worker_queue.rs:94-116 | where nothing can move, no enqueue or close is pending, and every accepted job has run |
| QueueProgress.RunsAreShort | lessons/07/exercises/src/worker_queue.rs:70-116 | a run without new calls is bounded by the work it starts with |
| QueueProgress.ComesToRest | lessons/07/exercises/src/worker_queue.rs:70-116 | ... and from every reachable state one leads to rest |
| QueueProgress.EnqueueUnblocks | lessons/07/exercises/src/worker_queue.rs:94-105 | a blocked `enqueue` always ends with its job accepted |
| QueueProgress.CloseReturns | lessons/07/exercises/src/worker_queue.rs:111-116 | `close` always returns |
| QueueProgress.ReadReturnsIff | lessons/07/exercises/src/worker_queue.rs:107-109 | `next_result` returns if and only if some accepted job's result is unread |
| Machine.PutFetch | archive/2023/projects/assembly-interpret/04/src/cpu.rs:80-114 | a write is seen at its place and nowhere else |
| Machine.SubUndoesAdd | archive/2023/projects/assembly-interpret/03/src/lib.rs:37-48 | `SUB` of the same operands restores the whole machine after `ADD` if and only if the destination is not its own source, or held 0 |
| Meaning.MoveMeaning | archive/2023/projects/assembly-interpret/03/src/lib.rs:33-36 | `MOV` succeeds exactly when its source has a value and its destination exists; only that place changes |
| Meaning.AddMeaning | archive/2023/projects/assembly-interpret/03/src/lib.rs:37-42 | `ADD` succeeds exactly when both have values and the sum fits; the destination gets the sum, nothing else changes |
| Meaning.SubMeaning | archive/2023/projects/assembly-interpret/03/src/lib.rs:43-48 | the same for `SUB` and the difference |
| Meaning.PrintMeaning | archive/2023/projects/assembly-interpret/03/src/lib.rs:49-52 | `PRINT` appends its number to the output and touches no cell |
| Meaning.FaultMeaning | archive/2023/projects/assembly-interpret/03/src/lib.rs:28-56 | which fault is reported: the source's, then the destination's, then an overflow |
| Meaning.StraightAppend | archive/2023/projects/assembly-interpret/03/src/lib.rs:58-67 | two programs run one after the other are one program |
| Meaning.JumpMeaning | archive/2023/projects/assembly-interpret/04/src/lib.rs:64-86 | `JNZ` goes on to the next instruction on 0, whatever its label; otherwise to its label, or faults when there is none |
| Meaning.CountdownEnds | archive/2023/projects/assembly-interpret/04/src/lib.rs:34-101 | a loop that counts a register down from v ends after 2 * v steps with 0 in it and nothing else changed |
| Machine.RunEnds | archive/2023/projects/assembly-interpret/04/src/lib.rs:91-101 | once a run has ended more fuel changes nothing |
| Machine.Refinement | archive/2023/projects/assembly-interpret/04/src/lib.rs:34-101 | a jump-free program started at 0 leaves the registers, memory, printed values and result that stage 3 leaves, whatever its labels |
| Machine.RefinesStraight | archive/2023/projects/assembly-interpret/04/src/lib.rs:34-101 | ... from every instruction pointer |
| Machine.RunStaysInside | archive/2023/projects/assembly-interpret/04/src/lib.rs:91-101 | with labels inside the program the pointer stays at most at its end, and a run halts exactly there |
| Machine.ForwardHalts | archive/2023/projects/assembly-interpret/04/src/lib.rs:64-101 | if every known jump goes forward, a run ends within as many steps as instructions are left |
| Machine.BackwardLoops | archive/2023/projects/assembly-interpret/04/src/lib.rs:64-101 | a jump to itself on a nonzero constant never ends |
| Interpreter.Cpu.constructor | archive/2023/projects/assembly-interpret/04/src/cpu.rs:30-52 | both builders: the given sizes, every cell the given one, pointer 0 |
| Interpreter.Cpu.Read | archive/2023/projects/assembly-interpret/04/src/cpu.rs:62-79 | value, undefined cell or out of bounds |
| Interpreter.Cpu.Write | archive/2023/projects/assembly-interpret/04/src/cpu.rs:80-90 | one cell written, or an error and nothing changed |
| Interpreter.ExecuteSimple | archive/2023/projects/assembly-interpret/03/src/lib.rs:28-56 | one stage 3 instruction on the CPU object |
| Interpreter.ExecuteStraight | archive/2023/projects/assembly-interpret/03/src/lib.rs:58-67 | the stage 3 loop |
| Interpreter.ExecuteInstruction | archive/2023/projects/assembly-interpret/04/src/lib.rs:34-89 | one stage 4 instruction and the pointer after it |
| Interpreter.ExecuteProgram | archive/2023/projects/assembly-interpret/04/src/lib.rs:91-101 | the stage 4 loop, every fetch in bounds |
| Text.LinesUnlines | archive/2023/projects/assembly-interpret/04/src/parser.rs:41 | splitting text into lines undoes joining them |
| Text.ParseShown | archive/2023/projects/assembly-interpret/04/src/lib.rs:25-28 | every `u8` is read back from its decimal form |
| Parser.AssembleMeaning | archive/2023/projects/assembly-interpret/04/src/parser.rs:37-103 | for every input: parsing succeeds if and only if every line is right and no label repeats; then the program is the instruction lines in order, and each label is the number of instruction lines before it |
| Parser.RepeatRejected | archive/2023/projects/assembly-interpret/04/src/parser.rs:83-91 | the first repeated label is reported, with its line number |
| Parser.AssemblePrefix | archive/2023/projects/assembly-interpret/04/src/parser.rs:37-103 | the first problem decides the result |
| Parser.ParsedLabelsInside | archive/2023/projects/assembly-interpret/04/src/parser.rs:83-86 | labels of a parsed program are at most its length |
| Parser.ParsedRunsStayInside | archive/2023/projects/assembly-interpret/04/src/lib.rs:91-101 | every run of every parsed program stays inside it and halts only at its end |
| Parser.ParseProgram | archive/2023/projects/assembly-interpret/04/src/parser.rs:37-103 | the loop over lines gives that result |
| Parser.LineRoundTrip | archive/2023/projects/assembly-interpret/04/src/parser.rs:42-99 | a canonical line is read back as the instruction or label it shows |
| Layout.IndentIgnored | archive/2023/projects/assembly-interpret/04/src/parser.rs:41-42 | white space around a line does not change what it means |
| Layout.WhiteLineIsBlank | archive/2023/projects/assembly-interpret/04/src/parser.rs:43-45 | a line of only white space means nothing |
| Layout.BlankIgnored | archive/2023/projects/assembly-interpret/04/src/parser.rs:43-45 | leaving out such a line changes no program |
| Layout.LineEnds | archive/2023/projects/assembly-interpret/04/src/parser.rs:41 | lines may end in CR LF, and the last one in nothing |
| Layout.NumberForms | archive/2023/projects/assembly-interpret/04/src/parser.rs:122-135 | leading zeros and one plus sign are accepted, numbers above 255 are not |
| Layout.UnknownRefused | archive/2023/projects/assembly-interpret/04/src/parser.rs:94-96 | a word that is no command and no label is refused |
| Layout.CommaRequired | archive/2023/projects/assembly-interpret/04/src/parser.rs:105-112 | `MOV`, `ADD` and `SUB` without a comma are refused with their arguments |
| Layout.JumpNeedsLabel | archive/2023/projects/assembly-interpret/04/src/parser.rs:69-74 | a `JNZ` with an operand and no comma panics |
| Layout.JumpIgnoresRest | archive/2023/projects/assembly-interpret/04/src/parser.rs:69-74 | what follows a second comma of a jump is ignored |
| Layout.NumberIsNoDestination | archive/2023/projects/assembly-interpret/04/src/parser.rs:137-141 | a number as destination is refused, as an invalid readable expression |
| Layout.WordRefused | archive/2023/projects/assembly-interpret/04/src/parser.rs:122-146 | any word that is neither a number nor a register is refused |
| Layout.SourceErrorFirst | archive/2023/projects/assembly-interpret/04/src/parser.rs:113-114 | with both operands wrong the source's error is reported |
| Layout.LabelNeedsName | archive/2023/projects/assembly-interpret/04/src/parser.rs:75-82 | a label of colons only is refused |
| Layout.LabelForms | archive/2023/projects/assembly-interpret/04/src/parser.rs:75-93 | a label may end in several colons, and what follows it is ignored |
| RoundTrip.ShownLinesParse | archive/2023/projects/assembly-interpret/04/src/parser.rs:37-103 | canonical text parses if and only if no label is shown twice, and then to what it shows |
| RoundTrip.ParsePrint | archive/2023/projects/assembly-interpret/04/src/parser.rs:37-146 | parsing the canonical text of a program gives back the same instructions and the same label map |
| Computer.TransitionKeepsGood | lessons/02/exercises/tests/04_state_transition_enum.rs:64-99 | idle <= 1000, idle <= uptime, sleep <= 500 and uptime >= 1000 + sleep are kept by every event |
| Computer.ReachableIsGood | lessons/02/exercises/tests/04_state_transition_enum.rs:64-99 | ... and so hold in every reachable state |
| Computer.PassTimeMeaning | lessons/02/exercises/tests/04_state_transition_enum.rs:78-97 | passing time is 1000 idle, then 500 asleep, then off; and exactly when a `u32` addition on the way overflows |
| Computer.SplitMeaning | lessons/02/exercises/tests/04_state_transition_enum.rs:78-97 | exactly when passing a and then b overflows, and that it is otherwise the plain clock after a + b |
| Computer.PassTimeAdds | lessons/02/exercises/tests/04_state_transition_enum.rs:78-97 | passing a then b is passing a + b, across all boundaries, if and only if both ways overflow or neither does |
| Computer.DisagreementIsOff | lessons/02/exercises/tests/04_state_transition_enum.rs:78-97 | where only one of the two ways overflows, the other turns the computer off |
| Computer.MergedSurvives | lessons/02/exercises/tests/04_state_transition_enum.rs:78-97 | a reachable state in which a + b turns the computer off, and a then b overflows |
| Computer.SplitSurvives | lessons/02/exercises/tests/04_state_transition_enum.rs:78-97 | a reachable state in which a then b turns the computer off, and a + b overflows |
| Computer.MergeAnywhere | lessons/02/exercises/tests/04_state_transition_enum.rs:64-99 | at a point of a run, merging or splitting adjacent passings of time changes where no continuation ends, if and only if both ways overflow there or neither does |
| Computer.EventMeaning | lessons/02/exercises/tests/04_state_transition_enum.rs:64-77 | turning off, turning on and moving the mouse: what becomes of uptime and idle time, and that none of them overflows |
| Computer.MovesKeepItOn | lessons/02/exercises/tests/04_state_transition_enum.rs:64-97 | a mouse move and at most 1000 after it leave the computer running, idle for just that time |
| ComputerFlags.ComputerState.PcTransition | lessons/02/exercises/tests/03_state_transition_struct.rs:87-118 | the field updates compute the specified flags, or panic exactly when an addition overflows |
| ComputerFlags.StepAgrees | lessons/02/exercises/tests/03_state_transition_struct.rs:87-118 | from every good state the struct moves as the enum does, and overflows exactly when the uptime does |
| ComputerFlags.OverflowGap | lessons/02/exercises/tests/03_state_transition_struct.rs:99-100 | where the struct overflows, the enum overflows too or has just turned off |
| ComputerFlags.RunsAgree | lessons/02/exercises/tests/03_state_transition_struct.rs:87-118 | on every event sequence both agree, and the struct panics if and only if some event takes the uptime past `u32` |
| ComputerFlags.EnumSurvives | lessons/02/exercises/tests/04_state_transition_enum.rs:86-97 | a run that ends in `Off` as an enum and in a panic as a struct |

## Left out

- Pipeline: user closures are pure and total, and one item type stands for all; a panic
  in a closure and a poisoned join are not modelled.
- Pipeline: a thread that returns drops both its channel ends in one step.
- Pipeline: `Pipeline::close` is modelled by the ends of all threads, not by the order in
  which it joins them.
- Chat: stopping the server, which aborts its client tasks, and the "Server is full"
  answer to a connection beyond the limit, with the failure of that send.
- Chat: sockets, the runtime, timers and message encoding; the two-second timeout may
  strike whenever the first message has not come.
- Chat: a send that never completes; every send either completes or fails.
- Chat: the servers of lessons 08, 09 and 10, which are other programs.
- Framing: serde_json, which is a parameter; errors of the sink in the writer.
- Framing: the readers in the playground and in archive/network-chat.
- Worker queue: dropping the queue without `close`, and panics inside jobs.
- Interpreter: value types other than `u8`, and operands in memory in the parser, which
  cannot be written in source text.
- Interpreter.ExecuteProgram: stops after a given number of instructions, because a
  program with backward jumps need not end.
- Computers: wrapping `u32` arithmetic of release builds.
- Exercises without an implementation, and small ones (factorial, largest element,
  matching, parallel sums, shell, stages 1 and 2 of the interpreter).
