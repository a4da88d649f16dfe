# Verified models of the tiled 360-degree streaming client

This project models the parts of the repository whose correctness depends on state, ordering or
arithmetic, and proves properties of them with Dafny: the lock-free concurrency primitives, the
HTTP sessions of both sides, the pipeline that carries a tile's frames from the network to the
textures, the byte cursor and decode iterator below it, the tool that merges MPD documents
together with the reader of its output, and the arithmetic that cuts a frame into tiles.

Run `dafny verify dfyconfig.toml` to check everything.

## How the models are built

Code that several threads share is a transition system: a `State`, an `Event` per atomic
operation, `Enabled` and `Apply`, an inductive invariant, and results about every reachable state
or every run.  Beside it stands a class with the fields of the source's object whose methods each
perform one such operation and are proved to move the object exactly as `Apply` says, so the
results hold of the objects.  What must not happen is proved of every reachable state or run; what
must remain possible is proved by giving, from every such state, a run that does it.  Sequential
code is a class or a method with loops, proved against a function, and the promises are lemmas
about that function.  Fields marked `ghost` are history.

| module | what it models |
|---|---|
| `AsyncChain`, `Barrier`, `Latch` | core/async_chain.hpp, core/barrier.hpp (v3), core/latch.hpp, any number of threads |
| `AsyncAddresses`, `AsyncFutures` | the chain with raw addresses that are reused, and the futures it hands out |
| `AsyncProgress`, `BarrierProgress`, `LatchProgress` | what single steps of these lead to, and what can always still happen |
| `ClientSession`, `ServerSession`, `SessionWire`, `SessionProgress` | the HTTP sessions of network/, the two joined by a connection, and what they can answer together |
| `TilePipeline`, `PipelineProgress`, `TileStreamer` | decode thread, polling and texture events of gallery/plugin.cpp; the streamer of network/dash.manager.cpp |
| `BufferCursor`, `FrameSegmentor` | multimedia/io.cursor.cpp; multimedia/io.segmentor.cpp with multimedia/context.cpp |
| `MpdMerge`, `MpdReader`, `TileText` | merging in multimedia/command.cpp, reading in network/dash.protocal.cpp, and the texts both share |
| `CropPlan`, `TileGrid`, `FrameScale` | crop batches and rectangles of multimedia/command.cpp; tile size and tile numbers; the frame size, from the sources to the reader |
| `Xml`, `Http`, `Decimal`, `Arithmetic`, `Sequences`, `Wrappers` | vocabulary and helpers |

Assumptions about callers appear as conditions of the models: a participant of the barrier arrives
once per generation or drops once; a latch is not counted below zero; buffers are not empty; texture
events of a stream come in the order Begin 0, End 0, ..., End 2; a source MPD has one AdaptationSet
with one Representation and a SegmentTemplate at one of the two levels at least.

## Where the code does less than it seems to

These are proved, each with its exact condition and a concrete run or input.

- The end of stream, once set, is forgotten when polling sets it between the two checks of a
  round's first texture event and anything but the null frame is found there.
  `TilePipeline.EndStays` shows that this is the only way, `TilePipeline.EndCanBeLost` that it happens.
- The assertions of the texture handler fail when a round begins while no frame is waiting, and
  only then (`TilePipeline.AssertionsHoldIff`, `TilePipeline.EmptyRoundCrashes`).
- Release waits for the decode threads, but one that has to report a bad response to a full decode queue
  ends only if somebody goes on polling (`PipelineProgress.EndsAloneIff`, `PipelineProgress.ReleaseHangs`).
- A merged Representation that is the first of its coordinate gets the inherited template in front of
  its own, so if its source had two different ones the wrong one governs (`MpdMerge.TemplatePreserved`,
  `MpdMerge.CompetingOccurs`).
- The reader's sibling list takes the second element whatever its name; it lists the Representations
  exactly when nothing but the template follows the first one in its source (`MpdReader.ReaderSeesReps`,
  `MpdReader.StrayOccurs`).
- A client session whose socket shutdown throws stays open with an empty queue and goes on serving.
  What such a session does next keeps the fulfilled promises first exactly when it has never failed its
  queue (`ClientSession.OrderKeptIff`, `ClientSession.ThrowingShutdownBreaksOrder`).
- A barrier whose last decrement in a generation is a drop leaves its waiters blocked for ever
  (`Barrier.JammedForever`, `Barrier.JamHappens`), and nothing else does (`Barrier.StuckOnlyByDrop`).
  The outcome is decided as soon as only participants who have begun to drop are left (`BarrierProgress.LeavesIff`).
- A latch whose last decrement is a plain count-down, or which starts at zero, leaves its waiters
  blocked for ever (`Latch.StuckForever`, `Latch.StuckHappens`, `Latch.ZeroSticks`), and at a count of
  zero nothing else does (`Latch.StuckOnlyByCountDown`).  `LatchProgress.ReturnsIff` says from any state on who can return.
- The server never answers a request that does not ask for the connection to stay: it closes instead
  (`SessionProgress.AllAnsweredIff`).
- A cursor is out of order after a seek to a negative target (`BufferCursor.BufferListCursor.Seek`,
  `BufferCursor.SeekBeforeStart`).
- The tiles leave pixels uncovered unless the grid divides the frame (`CropPlan.TiledIff`,
  `CropPlan.ThreeInTwo`).
- The stem of a tile's file name must be a word for its coordinate to be read back
  (`TileText.CoordinateRoundTrip`, `TileText.HyphenFails`).
- Cropping with a stride that is not positive takes no tile in its first batch, and then a character is
  removed from an empty text, which is undefined (`CropPlan.EmptyIff`, `CropPlan.TranscodeIff`,
  `CropPlan.ZeroStridePops`).

## Model

The results come first.  Behind them stand, in one block, the single steps of the objects: the
contract of each gives its whole new state, as the function that the results are about does.

| member | source | states |
|---|---|---|
| AsyncChain.StepKeepsInv | core/async_chain.hpp:17-71 | every atomic step of append, of a speculative task, of wait and of abort keeps the invariant that ties nodes, calls, tasks, waiters and the log of callables together |
| AsyncChain.OneTaskPerAppend | core/async_chain.hpp:25-47 | of all speculative tasks of a finished append, exactly the one installed in pending_ passes the signal test |
| AsyncChain.HeadsAreDistinct | core/async_chain.hpp:45-46 | pending_ never holds a node twice, nor two nodes of one append |
| AsyncChain.CallablesRunInOrder | core/async_chain.hpp:31-36 | in every interleaving callables run one at a time in CAS order; only the last one entered may be unfinished or have thrown |
| AsyncChain.FailureStopsChain | core/async_chain.hpp:33-42 | behind a callable that has not returned normally none is entered; once one throws every later task that ends fails; those that returned normally are a prefix; packaged tasks never break the chain |
| AsyncChain.AbortHasCause | core/async_chain.hpp:35 | a task fails without running only if a callable in front of it threw |
| AsyncChain.WaitCoversChain | core/async_chain.hpp:61-65 | when wait returns, every task up to the head it loaded has ended |
| AsyncChain.CancelRefuses | core/async_chain.hpp:19-71 | after canceled_ is set, no append that has not passed its test ever joins the chain |
| AsyncChain.ChainProgresses | core/async_chain.hpp:29-47 | while an installed task has not ended, the first such task or the append that owes it its signal can take a step |
| AsyncProgress.ThrowStopsSuccessors | core/async_chain.hpp:33-42 | in every run that begins with a callable throwing, no packaged one: no callable behind it is ever entered, and every task behind it that ends was aborted |
| AsyncProgress.JoinAfter | core/async_chain.hpp:33-42 | in every run that begins with a callable leaving: whoever joins its task later enters its own callable if that one returned or was packaged, and is aborted if it threw |
| AsyncProgress.JoinMeans | core/async_chain.hpp:33-36 | at the join a callable is entered if and only if there is no predecessor or it returned, and aborted if and only if the predecessor threw or was aborted |
| AsyncProgress.AbortHappens | core/async_chain.hpp:33-42 | runs of two calls: the second task is aborted behind a callable that threw, and runs behind one that returned |
| AsyncProgress.TestDecides | core/async_chain.hpp:31-32 | at the signal test the installed task goes on and every other one ends |
| AsyncProgress.WaitFromLoad | core/async_chain.hpp:61-65 | a wait returns only when all tasks in the chain at its load of the head have ended |
| AsyncProgress.CancelStops | core/async_chain.hpp:19-71 | from the step that sets canceled_ on, no call that had not passed its test joins the chain |
| AsyncProgress.CanceledIff | core/async_chain.hpp:67-71 | canceled_ is set if and only if that step was taken, and no call is refused before |
| AsyncProgress.CallKeepsKind | core/async_chain.hpp:37-58 | a call keeps the kind of callable it was made with |
| AsyncProgress.CallCompletes | core/async_chain.hpp:17-48 | append is lock-free: from every state a call can run to its end by its own steps alone, refused exactly if it has still to test a set canceled_ |
| AsyncProgress.EverythingSettles | core/async_chain.hpp:17-71 | from every reachable state there is a run after which every call has returned, every task has ended and every wait has returned |
| AsyncProgress.AppendServed | core/async_chain.hpp:17-48 | append can be called at any time; it joins the chain if and only if canceled_ is not set |
| AsyncProgress.WaitServed | core/async_chain.hpp:61-65 | wait can be called at any time and can always return |
| AsyncProgress.AbortServed | core/async_chain.hpp:67-71 | so can abort_and_wait |
| AsyncAddresses.EqualAddressesSameFuture | core/async_chain.hpp:24-48 | at the signal test and at the compare-exchange equal addresses mean the same future, although addresses of destroyed futures are reused |
| AsyncAddresses.Refines | core/async_chain.hpp:17-71 | every run that compares raw addresses is a run of the chain whose futures are told apart by their tasks |
| AsyncAddresses.AddressReused | core/async_chain.hpp:17-48 | a run in which a third future stands at the address of the first |
| AsyncFutures.FutureMeans | core/async_chain.hpp:37-58 | the future of a packaged callable is unset while its call or installed task is under way, broken exactly if the call was refused or the task aborted, and has a result exactly if the task ran to its end |
| AsyncFutures.SettledBy | core/async_chain.hpp:36-41 | which step settles it, and how: what the callable returned or threw, or a broken promise |
| AsyncFutures.EndsOnce | core/async_chain.hpp:37-58 | a settled future keeps its outcome through every later run |
| Barrier.StepKeepsInv | core/barrier.hpp:110-148 | every atomic step of arrivals and drops, freely interleaved, keeps the invariant relating the counters to the sets of participants |
| Barrier.NoEarlyReturn | core/barrier.hpp:110-149 | nobody leaves generation g before every participant at its start has arrived or dropped and its completion has run |
| Barrier.TurnCountsTheLiving | core/barrier.hpp:138-144 | a turn sets threshold_ and count_ to the number of participants still live |
| Barrier.OneTurner | core/barrier.hpp:112-114 | at most one arrival turns a generation, and no drop is half done meanwhile |
| Barrier.StuckOnlyByDrop | core/barrier.hpp:110-122 | if waiters are blocked and nothing else can happen, the last decrement was a drop that took count_ to zero |
| Barrier.JammedForever | core/barrier.hpp:110-122 | such a generation is never turned and lets nobody out in any later run |
| Barrier.JamHappens | core/barrier.hpp:110-122 | a run in which a drop leaves the other participant blocked in a jammed generation |
| BarrierProgress.ReturnGoesHome | core/barrier.hpp:135-149 | a thread that returns is outside the barrier afterwards |
| BarrierProgress.HomeOnlyByReturn | core/barrier.hpp:110-149 | ... and nothing else takes a thread from the inside to the outside |
| BarrierProgress.ComesHome | core/barrier.hpp:110-149 | from every state, whoever waits on a generation already turned has a run, without spurious wake-ups, that ends with it outside |
| BarrierProgress.LeavesIff | core/barrier.hpp:110-149 | a waiter can ever leave if and only if its generation has been turned, or is being turned, or some participant owes it neither a drop under way nor an arrival done |
| BarrierProgress.SpuriousWakeHarmless | core/barrier.hpp:146-149 | a waiter may wake spuriously at any time, and its test puts everything back |
| BarrierProgress.DropServed | core/barrier.hpp:118-122 | a participant outside can drop at any time, whoever holds the mutex |
| Latch.SetOnce | core/latch.hpp:19-24 | within the budget of decrements the promise is set at most once |
| Latch.NoEarlyReturn | core/latch.hpp:19-41 | a set promise implies is_ready, and nobody waiting returns before the count is used up |
| Latch.StuckOnlyByCountDown | core/latch.hpp:26-29 | waiters are stuck at zero only if the last decrement was a plain count_down or there was nothing to count |
| Latch.StuckForever | core/latch.hpp:26-29 | ... and then for ever |
| Latch.StuckHappens | core/latch.hpp:19-29 | a run in which a plain count-down leaves the other thread waiting at zero |
| Latch.ZeroSticks | core/latch.hpp:14-41 | a latch that starts at zero is ready, yet a thread waits on it |
| Latch.OverdraftSetsTwice | core/latch.hpp:23 | one decrement too many makes set_value meet a satisfied promise |
| LatchProgress.ReturnsIff | core/latch.hpp:19-41 | a waiter can ever return if and only if the promise is set, or somebody is to set it, or enough threads have yet to move to let an arrival take the count to zero |
| ClientSession.StepKeepsInv | network/session.client.cpp:42-119 | in all runs: one operation outstanding iff the queue is non-empty, round_index_ + 1 is responses plus failures plus operations in flight, every promise is queued or completed, fulfilled ones come first |
| ClientSession.CompletedOnce | network/session.client.cpp:62 | a completed promise keeps its outcome through every later run |
| ClientSession.FailureDrainsQueue | network/session.client.h:72-82 | an error or a response other than OK fails the request under way and all queued ones with the same error, touches no other promise, and closes the session unless the shutdown throws |
| ClientSession.ClosedRejects | network/session.client.cpp:109-116 | a closed session stays closed and empty and rejects every later request |
| ClientSession.OrderKept | network/session.client.cpp:42-119 | in every run without a throwing shutdown nothing behind a failed request is ever fulfilled |
| ClientSession.OrderKeptIff | network/session.client.h:72-82 | for every open session: all runs without a throwing shutdown keep the fulfilled promises first if and only if the session has never failed its queue |
| ClientSession.OpenAfterFailure | network/session.client.h:79-81 | a session is open after a failure only if a shutdown threw |
| ClientSession.ThrowingShutdownBreaksOrder | network/session.client.h:79-81 | a run in which a later promise is fulfilled after an earlier one failed |
| ServerSession.StepKeepsInv | network/session.server.cpp:30-116 | the completion is fulfilled once, exactly when the loop has ended; every answer is the one its request calls for; only the last may end the connection |
| ServerSession.OneAnswerEach | network/session.server.cpp:30-116 | in every run each accepted request gets one answer, in order: the file it names, or bad_request if there is none, which is then the last; the completion is fulfilled once, exactly when the loop has ended |
| ServerSession.PhaseMeans | network/session.server.h:48-57 | in every run the last event decides what the loop does: it has ended if and only if that event failed, or the request did not ask for the connection to stay, or the answer sent was no success; otherwise it sends after a request and receives after a start or an answer |
| ServerSession.ServesAll | network/session.server.cpp:44-81 | for every list of requests that keep the connection and name files there are, a run answers each with its file and ends waiting for more |
| SessionWire.PromisesMatchAnswers | network/session.client.cpp:42-119 | in every run of both sessions over a FIFO connection the first n promises hold the server's answers to the first n requests, with the file each named; all later ones are queued, or failed once the session is closed; at most one message is under way |
| SessionWire.ServerCompletesOnce | network/session.server.cpp:97-116 | the completion is fulfilled exactly when the loop has ended, and an answer that ends the connection is the last |
| SessionWire.StepKeepsInv | network/session.server.cpp:44-81 | every handler of either side keeps the invariant of the composition |
| SessionProgress.QueueAnswered | network/session.client.cpp:42-119 | from every state in which both sides are open and no answer was an error, everything queued can still be answered: a run ends with every promise fulfilled |
| SessionProgress.AllAnsweredIff | network/session.server.cpp:44-81 | a list of requests can be answered in full, every promise fulfilled, if and only if each asks for the connection to stay |
| TilePipeline.FramesConserved | gallery/plugin.cpp:228-256 | in every interleaving frames written are those popped, then those in the render queue, in a poll's hand and in the decode queue, in order; the decode queue stays within its capacity; what is popped is a prefix of what the segments decode to; one segment more is requested than received |
| TilePipeline.AssertionsHoldIff | gallery/plugin.cpp:480-506 | the assertions of the texture handler hold when they are reached if and only if no round begins while no frame is waiting |
| TilePipeline.EmptyRoundCrashes | gallery/plugin.cpp:480-488 | a run in which one fails |
| TilePipeline.WholeRounds | gallery/plugin.cpp:479-508 | begin == 3 * render_finish + planes set, end <= begin, and each popped frame has had its three planes begun and ended in order |
| TilePipeline.CountersAgree | gallery/plugin.cpp:253-306 | decode.count is the number of pictures written, decode_success the number of items polled wherever they are now, and at most decode_try |
| TilePipeline.EndStays | gallery/plugin.cpp:476-486 | the end of stream, once set, stays set in every later run if and only if the handler is not between its two checks at the start of a round with anything but the null frame to show |
| TilePipeline.EndCanBeLost | gallery/plugin.cpp:476-486 | such a run exists, with one stream |
| TilePipeline.NoticedIsFinal | gallery/plugin.cpp:476-486 | once the render thread has seen the end of stream it stays set and no texture event is acted on again |
| TilePipeline.StepKeepsInv | gallery/plugin.cpp:223-319 | every step of decode, poll and render threads keeps the invariant |
| PipelineProgress.ReleaseStops | gallery/plugin.cpp:241-253 | once running is cleared a stream gets at most one more picture for ever, and none if its thread had not just seen running set |
| PipelineProgress.LoadStops | gallery/plugin.cpp:246-252 | a decode thread that finds running cleared has stopped for ever, having written nothing |
| PipelineProgress.LoadGoesOn | gallery/plugin.cpp:246-252 | one that finds it set does nothing but write next |
| PipelineProgress.StopsOnlySo | gallery/plugin.cpp:228-266 | without a release a decode thread is stopped by a bad response only |
| PipelineProgress.RunningIff | gallery/plugin.cpp:417 | running is cleared by release and nothing else |
| PipelineProgress.EndsAloneIff | gallery/plugin.cpp:228-269 | after a release a decode thread comes to its end by its own steps if and only if it stands before a load of running or has room for all it has to report of a bad response |
| PipelineProgress.ReleaseHangs | gallery/plugin.cpp:257-261 | a run after which it does not: the null frame has filled the queue and the exception finds no room |
| PipelineProgress.CarriesThrough | gallery/plugin.cpp:228-319 | while running is set, everything a decode thread has received can be carried to the render queue, however small the decode queue; the end of stream is set by it if and only if an exception was on its way |
| PipelineProgress.Shown | gallery/plugin.cpp:479-508 | while the end of stream is not set, the texture events left of its round take a picture off the render queue |
| PipelineProgress.TriesCounted | gallery/plugin.cpp:303 | decode_try counts the polls |
| PipelineProgress.AlwaysPossible | gallery/plugin.cpp:301-319 | a running system can be released and polled at any time |
| TileStreamer.PredictOrders | network/dash.manager.cpp:81-89 | for every probability the index is valid; it does not rise with the probability; 1 selects the first and 0 the last representation |
| TileStreamer.PredictReaches | network/dash.manager.cpp:81-89 | every representation is selected by some probability |
| TileStreamer.PredictMeans | network/dash.manager.cpp:81-89 | the index is the whole part of the share the probability leaves out, and the last one at probability 0 |
| TileStreamer.StreamingOrder | network/dash.manager.cpp:81-138 | for any predictor the k-th call requests segment k of the representation it picked; an initial segment is requested at most once, only if picked, before the first data segment; the trace holds the last 120 picks |
| TileStreamer.DrainedIsSilent | network/dash.manager.cpp:219-225 | a drained streamer requests nothing more |
| TileStreamer.SegmentName | network/dash.manager.cpp:111-116 | the number's place of the template's media attribute is filled with the number of the call |
| TileStreamer.SegmentNamesDiffer | network/dash.manager.cpp:111-116 | different calls ask for different names |
| BufferCursor.ReadsDeliverInOrder | multimedia/io.cursor.cpp:179-202 | any sequence of reads delivers consecutive bytes, as many as asked for until none is left |
| BufferCursor.SeekMeans | multimedia/io.cursor.cpp:208-244 | seeks from the position or the end are seeks from the start to that place; seeking by nothing stays, to the end leaves nothing to read, from anywhere else does nothing |
| BufferCursor.ReadBlocks | multimedia/io.cursor.cpp:92-104 | the copying loop fills the destination with the next bytes of the concatenation |
| BufferCursor.BufferListCursor.constructor | multimedia/io.cursor.cpp:169-177 | starts at the beginning with the total size |
| BufferCursor.BufferListCursor.Read | multimedia/io.cursor.cpp:179-202 | the same bytes, count, position and end of file as reading a flat array |
| BufferCursor.BufferListCursor.Seek | multimedia/io.cursor.cpp:208-244 | the same position and result as on a flat array; the cursor is in order afterwards exactly when the target is not negative |
| BufferCursor.SeekBeforeStart | multimedia/io.cursor.cpp:229-243 | a seek to one byte before the start leaves a cursor out of order |
| BufferCursor.BufferListCursor.Available | multimedia/io.cursor.cpp:254-256 | true exactly while bytes remain |
| BufferCursor.BufferListCursor.ConsumeAndRemain | multimedia/io.cursor.cpp:258-264 | consumed plus remaining is the total size |
| BufferCursor.BufferListCursor.Run | multimedia/io.cursor.cpp:179-244 | any sequence of reads and seeks answers as the flat array with one position does |
| BufferCursor.RandomAccessCursor.Read | multimedia/io.cursor.cpp:87-107 | reads as the other cursor does |
| FrameSegmentor.FlushComesLast | multimedia/context.cpp:134-147 | the decoder is sent exactly one empty packet, the last |
| FrameSegmentor.FeedUpTo | multimedia/context.cpp:134-147 | the decoder is fed the video packets up to the first without data, and a flush if there is none |
| FrameSegmentor.SkipMeans | multimedia/context.cpp:134-147 | exactly the packets of other kinds in front are skipped |
| FrameSegmentor.FeedIsVideo | multimedia/context.cpp:134-147 | when video packets carry data, the decoder is sent all of them in order and then the flush |
| FrameSegmentor.Segmentor.ReadPacket | multimedia/context.cpp:134-147 | the loop returns the next packet of the wanted kind, or none |
| FrameSegmentor.Segmentor.Decode | multimedia/context.cpp:200-217 | called only before the flush; counts what it yields |
| FrameSegmentor.Segmentor.TryConsumeOnce | multimedia/io.segmentor.cpp:23-46 | the next frame of all that are still to come, and none only when there are none |
| FrameSegmentor.Segmentor.TryConsume | multimedia/io.segmentor.cpp:95-110 | the frames of one packet, or the error exactly after the flush |
| FrameSegmentor.Segmentor.DrainOnce | multimedia/io.segmentor.cpp:23-46 | calling until empty terminates and yields every frame to come, in order; dispose_count_ is frames handed out plus those remaining |
| FrameSegmentor.Segmentor.DrainBatches | multimedia/io.segmentor.cpp:95-110 | calling while the codec is available terminates and yields the same frames in batches |
| FrameSegmentor.Segmentor.TryDropPacket | multimedia/io.segmentor.cpp:99-105 | with decoding off, one packet is read and tells whether it was the last |
| FrameSegmentor.Segmentor.DrainDropped | multimedia/io.segmentor.cpp:99-105 | ... one fake frame for each packet but the flush |
| FrameSegmentor.ConsumeBothWays | multimedia/io.segmentor.cpp:23-110 | both interfaces deliver the same frames: all that the decoder yields for its feed |
| MpdMerge.OpenChildrenParts | multimedia/command.cpp:437-444 | opening an AdaptationSet puts its place in front, moves an inherited template into the Representation and leaves the rest in order |
| MpdMerge.SetShape | multimedia/command.cpp:426-448 | a merged AdaptationSet is the first source's with its Representation completed, followed by the later sources' |
| MpdMerge.SetHoldsReps | multimedia/command.cpp:426-448 | it holds one Representation per source in the order of the sources, none lost, added or reordered |
| MpdMerge.RepsAt | multimedia/command.cpp:446-447 | the k-th is the k-th source's, numbered k + 1 after the sources before |
| MpdMerge.TemplatePreserved | multimedia/command.cpp:430-444 | a merged Representation is governed by its source's effective template if and only if it is not the first of its coordinate with two different templates in its source; which template governs it in any case |
| MpdMerge.CompetingOccurs | multimedia/command.cpp:440-444 | there are sources with two different templates |
| MpdMerge.RestPreserved | multimedia/command.cpp:427-447 | apart from its id and an inherited template it is its source's |
| MpdMerge.CloneSet | multimedia/command.cpp:363-387 | cloning an AdaptationSet by its path copies what is missing of the way and appends to what is there |
| MpdMerge.CloneInfo | multimedia/command.cpp:422-425 | the first source's program information is copied and retitled |
| MpdMerge.MergeDashMpd | multimedia/command.cpp:399-452 | the nested loops, editing the document in place, build the document that the results are about |
| MpdMerge.IdsInOrder | multimedia/command.cpp:411-450 | through the whole merged document the ids are 1, 2, 3, ... in document order, one per source, in one AdaptationSet per coordinate |
| MpdReader.ListNextSibling | network/dash.protocal.cpp:31-40 | the loop collects the first element, the next one of any name, and from there those of the name |
| MpdReader.SiblingsAreAll | network/dash.protocal.cpp:31-40 | that is all elements of the name if and only if the second element has it or does not exist |
| MpdReader.ReaderSeesReps | network/dash.protocal.cpp:53 | in a merged set it is exactly the merged Representations if and only if nothing but its template follows the Representation in the first source |
| MpdReader.ReaderLists | network/dash.protocal.cpp:53 | what the reader lists in a merged set, for any sources: the first Representation, the first element left behind it in its source if any, and the other Representations |
| MpdReader.StrayOccurs | network/dash.protocal.cpp:31-40 | there are sources with such an element |
| MpdReader.ReadsAsSource | network/dash.protocal.cpp:68-82 | a merged Representation reads as its source's with the template that governs it now |
| MpdReader.ReadsItsPlace | network/dash.protocal.cpp:58-62 | the place and grid written by the merge are read back |
| MpdReader.MergeThenRead | network/dash.protocal.cpp:49-98 | merging and then reading gives, for any sources within the range of int: title, grid, and per coordinate its Represents in order with the templates that govern them, numbered from 1, and what is made of a stray element |
| MpdReader.VideoSetsAre | network/dash.protocal.cpp:162-176 | the video sets found stand at exactly the coordinates whose first source has no mimeType containing audio |
| MpdReader.Mp4SetsAre | network/dash.protocal.cpp:162-176 | ... so at every coordinate, and no other, when all are video/mp4 |
| MpdReader.AudioMeans | network/dash.protocal.cpp:165-169 | a set is left out if and only if the mimeType of its first Representation contains audio |
| MpdReader.FindTextMeans | network/dash.protocal.cpp:168 | the search finds the first occurrence, and nothing exactly if there is none |
| MpdReader.FormatExample | network/dash.protocal.cpp:72-78 | the place of the number in a media attribute becomes a pair of braces |
| MpdReader.CleanRepresents | network/dash.protocal.cpp:68-82 | without competing templates and stray elements in the first source of a coordinate the k-th Represent is the k-th source's with its own effective template |
| MpdReader.SourceSetsHold | network/dash.protocal.cpp:85-97 | under each video coordinate stands what its own sources say |
| MpdReader.SourceSetsAccepted | network/dash.protocal.cpp:85-97 | the reader accepts when every video set is complete and coordinates differ, and adds no other coordinate |
| MpdReader.RepresentMeans | network/dash.protocal.cpp:68-82 | numbers and texts written into a source's Representation and template are those reported, with the number's place turned into a format |
| MpdReader.VideoSetMeans | network/dash.protocal.cpp:51-64 | ... and into its AdaptationSet, each in its own field |
| TileText.SpatialRoundTrip | multimedia/command.cpp:389-397 | the SRD value written for any coordinate and grid parses back to them |
| TileText.SpatialText | multimedia/command.cpp:389-397 | the text written: source 0, column, row, one by one, of so many columns and rows |
| TileText.FieldsPadded | network/dash.protocal.cpp:42-47 | fewer than six fields are filled up with zeros, more fail |
| TileText.LoneField | network/dash.protocal.cpp:42-47 | a text of one field is read as that field |
| Decimal.ParseIff | network/dash.protocal.cpp:45 | exactly the numbers that fit an int are parsed, to their value |
| Decimal.DigitsUnique | multimedia/command.cpp:389-397 | a number has one text without superfluous zeros, the one printed |
| Decimal.PrintShortest | multimedia/command.cpp:447 | ... with a sign only if it is negative |
| TileText.SplitJoined | network/dash.protocal.cpp:42-47 | splitting at commas undoes joining |
| TileText.ComposeInjective | multimedia/command.cpp:108-115 | a file name decomposes in one way only, whatever its stem looks like |
| TileText.CoordinateRoundTrip | multimedia/command.cpp:108-115 | reading the coordinate from a tile's file name gives what was written if and only if the stem is a word, and fails otherwise |
| TileText.HyphenFails | multimedia/command.cpp:108-115 | a stem with a hyphen is not read back |
| CropPlan.CropScaleTranscode | multimedia/command.cpp:165-224 | the recursion and its nested loops produce the batches, or fail where a character is removed from an empty text; any stride and offset |
| CropPlan.CollectFilters | multimedia/command.cpp:178-188 | the filters of exactly the tiles of a batch, in order |
| CropPlan.CollectMaps | multimedia/command.cpp:206-219 | the outputs of exactly the tiles of a batch, in order |
| CropPlan.EmptyIff | multimedia/command.cpp:178-189 | the filter graph of a batch is empty if and only if its range holds no tile; from a tile on, if and only if the stride is not positive |
| CropPlan.TranscodeIff | multimedia/command.cpp:168-222 | the whole recursion comes to its end if and only if nothing was left to begin with, or the stride is positive and the first batch reaches a tile |
| CropPlan.ZeroStridePops | multimedia/command.cpp:178-189 | a stride of zero fails in the first batch of a grid of two |
| CropPlan.EachTileOnce | multimedia/command.cpp:168-222 | for every positive stride, and any start that leaves out no tile, all batches together produce each tile exactly once |
| CropPlan.LabelsAgree | multimedia/command.cpp:178-219 | in each batch the outputs mapped are those of the filter graph, which is never empty and never longer than the stride |
| CropPlan.FiltersCut | multimedia/command.cpp:178-188 | each filter of a batch cuts the rectangle of the tile whose output it feeds and scales its sides to the even number in reach |
| CropPlan.ScaledOnce | multimedia/command.cpp:175-186 | ... which is the only one |
| CropPlan.InsideFrame | multimedia/command.cpp:183-185 | every rectangle lies inside the frame |
| CropPlan.TilesDisjoint | multimedia/command.cpp:183-185 | no pixel lies in two rectangles |
| CropPlan.GapsOfOne | multimedia/command.cpp:183-185 | neighbours are zero or one pixel apart |
| CropPlan.TiledIff | multimedia/command.cpp:183-185 | the rectangles cover the frame if and only if the grid divides it, or it has no pixels |
| CropPlan.ThreeInTwo | multimedia/command.cpp:183-185 | a frame of three pixels' width in two columns is not covered |
| CropPlan.UnscaledKeepsSize | multimedia/command.cpp:175-186 | without a scale factor a tile keeps its size exactly when its sides are even |
| CropPlan.CeilEvenMeans | multimedia/command.cpp:35-37 | the least even number not below |
| TileGrid.FrameSize | network/dash.protocal.cpp:122-142 | over a full grid, in any grouping and order of the reduction, the frame is the sum of the column widths by the sum of the row heights |
| TileGrid.CellsAre | network/dash.protocal.cpp:124-139 | the terms are the coordinates of the grid, each once |
| FrameScale.ParsedScale | network/dash.protocal.cpp:122-142 | when the video sets found fill the grid found, the scale computed from them is the sum of the column widths by the sum of the row heights, in any grouping and order |
| FrameScale.MergedScale | network/dash.protocal.cpp:122-142 | ... and so it is for the merged document of any sources that fill a grid and declare sizes by column and by row |
| FrameScale.QuotientTruncates | network/dash.protocal.cpp:140-141 | the division truncates towards zero |
| FrameScale.InTurnCovers | network/dash.protocal.cpp:124-139 | there is such a reduction for every grid |
| TileGrid.TileRecovered | network/dash.manager.cpp:182-189 | for tiles of one size tile_size is that size |
| TileGrid.IndexRoundTrip | gallery/plugin.cpp:116-126 | tile numbers and coordinates determine each other, and a grid's numbers are 1 to its tile count |
| AsyncChain.Chain.BeginAppend | core/async_chain.hpp:17 | a call of append enters |
| AsyncChain.Chain.ReadCanceled | core/async_chain.hpp:19 | the test of canceled_, one step of the proved system |
| AsyncChain.Chain.LoadPendingHead | core/async_chain.hpp:25 | the first load of pending_ |
| AsyncChain.Chain.SpawnTask | core/async_chain.hpp:28-44 | creates the speculative task for the predecessor seen |
| AsyncChain.Chain.ExchangePending | core/async_chain.hpp:45-46 | the compare-exchange: installs the node exactly when pending_ is still the predecessor, else takes the new one |
| AsyncChain.Chain.PublishSignal | core/async_chain.hpp:47 | sets the signal promise to the predecessor that was replaced |
| AsyncChain.Chain.CompareSignal | core/async_chain.hpp:31-32 | the test that lets one task of a call pass |
| AsyncChain.Chain.GetPredecessor | core/async_chain.hpp:35 | joins the predecessor; fails if that failed, else enters the callable |
| AsyncChain.Chain.LeaveCallable | core/async_chain.hpp:36-42 | the callable returns or throws |
| AsyncChain.Chain.SetCanceled | core/async_chain.hpp:69 | sets canceled_ |
| AsyncChain.Chain.BeginWait | core/async_chain.hpp:63 | wait loads the head |
| AsyncChain.Chain.EndWait | core/async_chain.hpp:64 | wait returns once that head has ended |
| Barrier.CyclicBarrier.LockMutex | core/barrier.hpp:128 | an arrival takes the mutex |
| Barrier.CyclicBarrier.CountDown | core/barrier.hpp:129 | ... decrements count_ and remembers its old value |
| Barrier.CyclicBarrier.WaitNextGeneration | core/barrier.hpp:146-149 | ... goes to sleep on the generation it saw |
| Barrier.CyclicBarrier.BumpGeneration | core/barrier.hpp:141 | the last arrival opens the next generation |
| Barrier.CyclicBarrier.ExchangeDropped | core/barrier.hpp:142 | ... takes the drops off threshold_ |
| Barrier.CyclicBarrier.StoreCount | core/barrier.hpp:143 | ... restores count_ |
| Barrier.CyclicBarrier.InvokeCompletion | core/barrier.hpp:173 | ... runs the completion |
| Barrier.CyclicBarrier.UnlockMutex | core/barrier.hpp:134 | ... releases the mutex |
| Barrier.CyclicBarrier.NotifyAll | core/barrier.hpp:135 | ... wakes every waiter |
| Barrier.CyclicBarrier.WakeSpuriously | core/barrier.hpp:148 | a waiter may wake at any time |
| Barrier.CyclicBarrier.TestGeneration | core/barrier.hpp:148 | a woken waiter leaves exactly when the generation has changed |
| Barrier.CyclicBarrier.AddDropped | core/barrier.hpp:120 | a drop is announced |
| Barrier.CyclicBarrier.DropCount | core/barrier.hpp:121 | a drop decrements count_ |
| Latch.CountdownLatch.Arrive | core/latch.hpp:19-22 | count_down_and_wait up to its wait or to set_value |
| Latch.CountdownLatch.Decrement | core/latch.hpp:26-29 | count_down |
| Latch.CountdownLatch.BeginWait | core/latch.hpp:38-41 | wait begins |
| Latch.CountdownLatch.Complete | core/latch.hpp:23 | set_value |
| Latch.CountdownLatch.EndWait | core/latch.hpp:22-41 | a wait ends once the promise is set |
| ClientSession.Session.ProcessRequest | network/session.client.cpp:107-117 | queues the request and starts it if it is alone, or rejects it; keeps the invariant |
| ClientSession.Session.SendFrontRequest | network/session.client.cpp:87-94 | numbers the round and starts the write |
| ClientSession.Session.OnSendRequest | network/session.client.cpp:70-85 | starts the read or fails the queue; keeps the invariant |
| ClientSession.Session.OnRecvResponse | network/session.client.cpp:42-68 | fulfils the front promise and goes on, or fails the queue; keeps the invariant |
| ClientSession.Session.FailRequestThenClose | network/session.client.h:72-82 | the loop fails exactly the queued promises |
| ServerSession.Session.ProcessRequests | network/session.server.cpp:30-34 | starts receiving; keeps the invariant |
| ServerSession.Session.ReceiveRequest | network/session.server.cpp:75-81 | waits for a request |
| ServerSession.Session.OnRecvRequest | network/session.server.cpp:44-73 | answers with the file named or with bad_request, or closes; keeps the invariant |
| ServerSession.Session.OnSendResponse | network/session.server.h:48-57 | receives the next request, or closes after an error or a last answer; keeps the invariant |
| ServerSession.Session.CloseSocketThenComplete | network/session.server.cpp:97-116 | closes and fulfils the completion |
| TilePipeline.Availability.Available | gallery/plugin.cpp:102-112 | a pointer sets the flag to whether its frame is empty, a null pointer clears it |
| TilePipeline.StreamContext.ReceiveSegment | gallery/plugin.cpp:230-231 | takes a segment and requests the next |
| TilePipeline.StreamContext.CheckRunning | gallery/plugin.cpp:246-252 | goes on or aborts |
| TilePipeline.StreamContext.TryWriteFrame | gallery/plugin.cpp:247-253 | writes the next frame if there is room |
| TilePipeline.StreamContext.WriteNullFrame | gallery/plugin.cpp:259 | writes the null frame after a bad response |
| TilePipeline.StreamContext.WriteException | gallery/plugin.cpp:260 | ... and then the exception |
| TilePipeline.StreamContext.PollDecodeQueue | gallery/plugin.cpp:303-306 | counts the try and takes the head of the decode queue |
| TilePipeline.StreamContext.HandOver | gallery/plugin.cpp:307-315 | passes a frame to the render queue, or sets the end of stream |
| TilePipeline.StreamContext.BeginPlane | gallery/plugin.cpp:479-495 | a begin event, including the early return on a null frame |
| TilePipeline.StreamContext.EndPlane | gallery/plugin.cpp:496-509 | an end event; the third pops the frame |
| TileStreamer.VideoSet.PredictRepresent | network/dash.manager.cpp:81-94 | picks an index, records it, counts the call |
| TileStreamer.VideoSet.RequestInitialIfNull | network/dash.manager.cpp:125-138 | requests the initial segment if nobody has |
| TileStreamer.VideoSet.Stream | network/dash.manager.cpp:219-225 | one call of the streamer, or the error once drained |
| TileStreamer.VideoSet.MarkDrained | network/dash.manager.cpp:76-79 | sets drain and counts it |

## Left out

- Weak memory orderings and fences: atomics are sequentially consistent steps.
- The v2 barrier (legacy build), which duplicates v3.
- The launch policy of std::async: tasks are assumed to run on their own.
- AsyncChain.Chain.GetPredecessor: does not itself touch the packaged task, which the handler destroys when the predecessor has failed; AsyncFutures adds that.
- AsyncChain.Chain.LeaveCallable: does not itself set the packaged task's future; AsyncFutures adds that.
- AsyncChain.Chain.EndWait: a wait that finds its future already taken by the successor's get ends by throwing; the model only says that it ends after the future's task.
- A completion or a predictor that throws, and generation counters or sizes that wrap around: integers are unbounded.
- The composition of the two sessions assumes that socket shutdowns do not throw; ClientSession covers the throwing ones.
- Unbounded body parsing, buffers and parsers of Beast: a message is what the handlers look at.
- network/connector.cpp, network/acceptor.*, network/net.*: their queue invariant holds only until the first error.
- cursor::seek_sequence and random_access_cursor::seek, which treat buffer sizes as sorted prefix sums.
- Errors of the decoder's send call and the stream-index assertion of decode.
- TilePipeline runs with decoding enabled and from a reset on; unlike the source it does not model unexpected exceptions of the decode thread, the wall-clock timeout of a write, or several polls of one stream at once.
- The prediction is computed in double in the source and with exact reals here, so an index may differ where rounding crosses a whole number.
- The predictor's trim_offset and field of view, which do not influence its result; and the assembly of a request's path from the MPD's address.
- Patterns for fmt with braces other than one pair, and numbers with surrounding blanks, which folly would accept.
- The XML declaration, comments and attribute order of documents.
- The audio set of the reader, whose element is unspecified after remove_if, and parse_duration.
- More than six fields in an SRD value, which overrun an array in the source, are a failure here.
- crop_scale_package, package_container, dash_segment and resize: they only assemble command lines.
- gallery/database.*, server/*, gallery/graphic.*, gallery/unity/*: storage, configuration and rendering.
- core/meta/*, core/guard.hpp, core/verify.hpp, core/exception.hpp: template and exception plumbing.
