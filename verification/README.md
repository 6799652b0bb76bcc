# A verified model of the muxado stream multiplexer

This project models `muxado`, a small HTTP/2-like protocol that carries many byte streams over one
reliable connection, and proves what the protocol is for: bytes arrive in order and unchanged,
credit is conserved, nobody is reset without cause, and ids never collide. There is no public
standard; the model follows the code, and `muxado/PROTOCOL.md` where the code agrees with it.

Run `dafny verify dfyconfig.toml` to check everything.

## How the model is built

| layer | modules | what it holds |
|---|---|---|
| bytes and frames | `Wrappers`, `Frames`, `Codec`, `Layout` | the bit-packed header, bodies, error codes, byte for byte; an incremental decoder against a whole-buffer parser |
| one stream | `Flows`, `Windows`, `StreamOutput`, `Streams`, `Answers` | the application's end: credit window, close code, the poll functions, and what each call answers |
| one side | `Managers`, `Outcomes`, `Deliveries`, `SessionTasks` | the stream manager and what its operations come to, one delivery over many polls, the reader and the writer |
| one side, any remote | `Endpoints`, `Endings`, `Replies` | what manager, reader and writer keep over every run, whatever frames arrive, what stops them, and what they reply |
| one stream, two ends | `Links`, `LinkProofs`, `LinkSteps`, `LinkDelivery`, `LinkEmission`, `LinkGuarantees` | the invariant that relates both ends of a stream, kept by every step |
| its credit | `LinkCredit`, `LinkAccounts` | where credit is, and exactly what each step loses |
| a whole session | `Sessions`, `SessionSteps`, `Guarantees`, `Transcripts`, `Accounts` | a client and a server with many streams; the theorems over every run |
| both descriptions agree | `Refinement`, `Tracking` | in every run of a session both managers, readers and writers are where the session says they are |

Each object of the source is a class (`FrameCodec`, `Window`, `Channel`, `SinkCloser`,
`StreamSender`, `Stream`, `StreamManager`, `ReaderTask`, `WriterTask`) whose methods are proved to do
exactly what a function on values says. The two-endpoint machine of `Sessions` is built from those
same functions, and `Tracking` shows over every run that a side of a session moves as its manager,
its reader and its writer do, with one task for every stream of the map.

A session is a transition system. One step is one poll of a stream by its application, one locked
region of the reader or of the writer, one local open, or the drop of a stream. Which step comes
next, which ready stream is polled, whether a bounded channel is full and how many bytes a caller
asks for are free choices, so the theorems hold for every schedule. Both sides use the same
window, as the protocol demands out of band. A run may open streams as long as ids are left
(`IdsSuffice`), which an opener can see from its last id; what happens beyond that is stated
separately.

A stream is *healthy* while the readers of both sides run and neither application has dropped its
end. That no such stream is ever reset is a theorem, not an assumption.

## What the code does that its description does not say

- A stream limit that is reached does not refuse a remote stream, as the builder's comment says
  (muxado/src/session.rs:90-91): the reader ends, and with it the whole session
  (`Endpoints.SynBeyondLimitEndsReader`).
- A SYN with an id that is in use replaces the stream in the map, but the old stream and its task
  stay (muxado/src/stream_manager.rs:449-459). The number of tasks then has no bound
  (`Endpoints.TasksHaveNoBound`), tasks and map disagree from then on, exactly by the ids used again
  (`Endpoints.TasksAreCounted`), and when both streams are dropped the writer reaches the branch that
  should be unreachable (`Endpoints.ReusedIdCrashesTheWriter`). From then on, and only then, the
  applications alone can bring that about (`Endings.WriterCanCrashExactlyAfterReuse`). Between two sides of this
  implementation it never happens (`Tracking.ManagersFollowEveryRun`).
- A reset is final only until the id of the stream is registered again
  (`Endpoints.SilenceEndsExactlyAtRegistration`, `Endpoints.RegisteredAgainSpeaksAgain`).
- A GOAWAY frame declares a length that omits its eight fixed bytes (muxado/src/frame.rs:105-120).
  With a message of fewer than eight bytes it cannot be encoded; with a longer one the receiver
  loses the last eight bytes and takes them for the next header (`Codec.GoAwayLosesItsTail`). The
  message `invalid frame` sent by the reader is of this kind.
- The SYN flag is bit 0x02 in the code and 0x10 in `PROTOCOL.md`; the model follows the code.
- After 2^30 - 1 opens the clamp on ids hands out the largest id again and again
  (`Managers.LocalIds`, `Managers.IdSpaceExhausted`).
- A frame that names stream 0 can end the writer: the reader answers it with a reset for stream 0, and
  that the codec refuses (`Endings.ZeroIdEndsTheWriter`). The writer ends exactly when it is given a
  frame of stream 0 that is not a GOAWAY (`Endings.WriterEndsExactlyOnZero`).
- A GOAWAY with an invalid header reaches a branch of the reader that should be unreachable
  (muxado/src/session.rs:227-234). The reader panics on exactly these (`Endings.PanicsExactlyOnInvalidGoAway`),
  and then, unlike at any other end, no stream is told (`Endings.EndingTellsStreamsUnlessPanicking`).
- A read whose amount is a multiple of 2^32 bytes returns nothing, like the end of the stream, although
  the buffer is not empty (`Streams.LargeReadReturnsNothing`). It is the only such case
  (`Guarantees.EmptyReadExactly`), and there is none when the window or the room of the caller is
  below 2^32 (`Guarantees.ModerateReadsEndExactly`).
- A write without window that finds its input ended succeeds with nothing and sends an empty data frame,
  each time it is tried (`Answers.WriteBehindEndAcceptsNothing`; exactly when: `Answers.EmptyWriteExactly`).
- A reset does not end the reads of a stream. They first return all bytes that were buffered and queued;
  then they wait as long as the handle is in the map and the reader runs, and return nothing once it
  has left (`Guarantees.ReadAfterReset`).

## Model

| member | source | states |
|---|---|---|
| Frames.Clamp | muxado/src/constrained.rs:32-41 | the result is the value or the largest member, and never above either |
| Frames.Mask31 | muxado/src/constrained.rs:46-56 | a value in range is kept; one above loses exactly its top bit |
| Frames.FrameFrom | muxado/src/frame.rs:57-71 | stream id zero, no flags, header type and declared length always those of the body; a body that fits is kept, a longer one is cut to the largest length |
| Frames.ErrorCodeRoundTrip | muxado/src/errors.rs:53-83 | every error survives its code, and only the absence of an error has code zero |
| Codec.ParseOneAppend | muxado/src/codec.rs:141-164 | parsing a frame never reads past its declared body: with any bytes behind it, the same frame is parsed and those bytes are left |
| Codec.StepRefinesParse | muxado/src/codec.rs:141-164 | one call of the incremental decoder returns what the whole-buffer parser returns, and cached header plus buffer again stand for the unparsed rest |
| Codec.DecoderRefinesParser | muxado/src/codec.rs:141-164 | over any sequence of arriving chunks and calls, frames returned plus frames still parsable are the frames of the whole input |
| Codec.ChunkingInvariance | muxado/src/codec.rs:141-164 | however a byte string is cut, the decoder's output is a prefix of the one-shot parse, and equal to it once it has nothing more to give |
| Codec.HeaderRoundTrip | muxado/src/codec.rs:30-41 | a packed header unpacks to itself |
| Codec.BodyRoundTrip | muxado/src/codec.rs:106-134 | a well-formed frame's body decodes to that frame under its header |
| Codec.StreamRoundTrip | muxado/src/codec.rs:168-206 | any sequence of well-formed frames is recovered exactly from its concatenated encodings |
| Codec.RoundTripsExactlyWhenWellFormed | muxado/src/codec.rs:168-206 | a frame survives encoding and decoding if and only if its header is valid, its type fits and its length is that of its encoded body |
| Codec.ParsedIsWellFormed | muxado/src/codec.rs:82-134 | for any bytes, a parsed frame is Invalid exactly when its header is, and well formed otherwise |
| Codec.NormalForm | muxado/src/codec.rs:106-134 | any bytes decoded to a valid frame re-encode to as many bytes, which decode to the same frame |
| Codec.GoAwayLosesItsTail | muxado/src/frame.rs:105-120 | frames of this constructor never round-trip: unencodable below eight message bytes, shifted by eight bytes otherwise |
| Codec.FrameCodec.DecodeNext | muxado/src/codec.rs:141-164 | the decoder object agrees with the parser on the bytes it stands for |
| Codec.FrameCodec.Feed | muxado/src/session.rs:127-127 | appending a chunk and decoding until nothing is complete yields the parse of everything received |
| Codec.FrameCodec.EncodeFrame | muxado/src/codec.rs:201-206 | the encoding is appended, or the frame is refused and the buffer left alone |
| Layout.HeaderLayout | muxado/src/codec.rs:168-176 | the eight bytes of a header, one by one: three of length, type 0 to 3 for RST, DATA, WNDINC, GOAWAY beside FIN as 1 and SYN as 2, four of stream id |
| Layout.HeaderMeaning | muxado/src/codec.rs:30-41 | what each of any eight bytes means to the decoder; reserved flag bits and the top bit of the id do not matter |
| Layout.HeadersAccepted | muxado/src/codec.rs:43-104 | which headers are acceptable, and the reason for each that is not |
| Layout.BodyLayout | muxado/src/codec.rs:179-196 | the bytes of each body, with the number of every error code |
| Layout.BodyMeaning | muxado/src/codec.rs:106-134 | what the bytes of a body mean under each acceptable header |
| Windows.Window.Inc | muxado/src/window.rs:16-22 | the window grows by the credit up to its maximum |
| Windows.Window.Dec | muxado/src/window.rs:28-34 | what is taken is reported, and is all of it exactly when there was room |
| StreamOutput.CloseCode | muxado/src/stream_output.rs:123-132 | the first non-zero code is kept; closing without an error does nothing |
| StreamOutput.SinkCloser.CloseWith | muxado/src/stream_output.rs:123-132 | the shared code becomes the first close code |
| StreamOutput.StreamSender.PollReady | muxado/src/stream_output.rs:60-71 | error, pending or ready, and a vanished manager is recorded as a code |
| StreamOutput.StreamSender.StartSend | muxado/src/stream_output.rs:73-82 | the frame is queued, or an error is returned and nothing queued |
| StreamOutput.StreamSender.PollFlush | muxado/src/stream_output.rs:84-93 | only the close code makes flushing fail |
| Streams.ReadLen | muxado/src/stream.rs:213-215 | a read returns as much as buffer, caller and credit field allow, for amounts up to 32 bits; and nothing exactly when the amount is a multiple of 2^32, zero included |
| Streams.WriteLen | muxado/src/stream.rs:264-268 | a write takes as much as window, caller and frame length allow, for buffers up to 32 bits; and nothing exactly without window or for a multiple of 2^32, zero included |
| Streams.RecvIngests | muxado/src/stream.rs:124-176 | handling frames keeps buffered plus queued bytes, window plus queued credit, and the FIN, whichever poll does it |
| Streams.ReadMeaning | muxado/src/stream.rs:205-240 | a read returns a prefix of the buffered bytes and queues as much credit; with room it is empty if and only if the end was reached with nothing buffered, or the amount is a multiple of 2^32 |
| Streams.LargeReadReturnsNothing | muxado/src/stream.rs:213-215 | the input: 2^32 bytes buffered and room for all of them, and nothing is returned or changed |
| Streams.Stream.HandleFrame | muxado/src/stream.rs:160-176 | the stream takes in one data or credit frame |
| Streams.Stream.PollRecvFrameType | muxado/src/stream.rs:124-143 | the receive loop terminates and equals the recursive specification |
| Streams.Stream.PollSendWndInc | muxado/src/stream.rs:146-157 | credit is queued, or counted as sent when the sink is closed |
| Streams.Stream.PollRead | muxado/src/stream.rs:205-240 | the nested loops terminate for any queue and equal the specification whose meaning is proved above |
| Streams.Stream.PollWrite | muxado/src/stream.rs:245-287 | a write queues one frame with what the window allows, pays for it, and carries the SYN once |
| Streams.Stream.PollShutdown | muxado/src/stream.rs:299-322 | at most one FIN is queued, then the sink is flushed |
| Answers.BufferedReadServes | muxado/src/stream.rs:211-227 | a read with bytes in its buffer returns as many as caller and credit allow and sends one WNDINC for as many; it waits exactly while an open channel is full, and needs no room when the sink is closed |
| Answers.UnbufferedReadServes | muxado/src/stream.rs:229-240 | with an empty buffer it handles frames up to the first data that ends its wait and serves the caller from that |
| Answers.UnbufferedReadWaits | muxado/src/stream.rs:124-143 | without such a frame it handles all and waits, or is empty if the channel has ended |
| Answers.WriteAccepts | muxado/src/stream.rs:258-286 | with window, a write accepts the least of window, caller and frame, queues one data frame with those bytes, a SYN exactly if it is still owed, and pays for them; it waits exactly while the channel is full, and reports the error of a closed sink |
| Answers.WriteAfterCredit | muxado/src/stream.rs:254-258 | without window it handles data up to the first credit frame, keeps the bytes for reads, and goes on with that credit |
| Answers.WriteWithoutCredit | muxado/src/stream.rs:254-258 | without window and credit it waits if and only if its input is open |
| Answers.WriteAnswer | muxado/src/stream.rs:245-287 | the answer of every write that was not shut down: waiting, the error, or the exact number of bytes |
| Answers.EmptyWriteExactly | muxado/src/stream.rs:254-270 | a write of some bytes through an open sink accepts none if and only if it has no window and finds its input ended or credit for nothing |
| Answers.WriteBehindEndAcceptsNothing | muxado/src/stream.rs:254-270 | the input: no window, an ended and empty input, an open sink: the write returns zero and sends an empty frame |
| Answers.ClosedWriteFails | muxado/src/stream.rs:250-252 | after a shutdown or a failure every write fails in the same way and changes nothing |
| Answers.ShutdownSendsFin | muxado/src/stream.rs:299-322 | the first shutdown sends exactly one frame, an empty data frame with FIN, and closes the stream for writing; it waits while the channel is full and reports the error of a closed sink |
| Answers.ShutdownOnce | muxado/src/stream.rs:318-322 | every later one sends nothing and reports the close code, or waits until all is sent |
| Answers.NewStream | muxado/src/stream.rs:83-101 | a new stream has its whole window, nothing buffered, and owes a SYN exactly when its opener says so |
| Managers.DeliverMeaning | muxado/src/stream_manager.rs:297-386 | each outcome of a poll: accepted data is paid for and at the end of the channel; waiting means a full channel and a frame already paid for; a refusal has one of its causes, passes nothing on and closes the stream; a reset closes the sink with its code |
| Outcomes.DeliveryOutcome | muxado/src/stream_manager.rs:300-386 | every outcome of one poll of a delivery, with the number of the close code it leaves and the literal new window, channel and flags |
| Outcomes.UnknownOutcome | muxado/src/stream_manager.rs:361-367 | for a stream that is not in the map, data but an empty FIN is refused with StreamClosed, anything else let go |
| Outcomes.ResetReachesTheWriter | muxado/src/stream_manager.rs:310-326 | once a reset is delivered to an open stream, its next write and shutdown fail with the error of that reset |
| Outcomes.SystemOutcome | muxado/src/stream_manager.rs:171-185 | system frames go first and in order, and nothing goes after a go-away |
| Outcomes.TaskOutcome | muxado/src/stream_manager.rs:187-254 | the frame a ready task yields, field by field, its effect on the window and the FIN debt, and when the stream leaves the map, with a FIN of the manager exactly if one is due |
| Outcomes.OpenOutcome | muxado/src/stream_manager.rs:432-465 | the handle, the task and the id of a new stream, or StreamsExhausted at the limit |
| Outcomes.FirstIds | muxado/src/stream_manager.rs:444-447 | a client opens its first stream as 3, a server as 2 |
| Managers.NextLocalId | muxado/src/stream_manager.rs:444-447 | two above the last id, or the largest id |
| Managers.LocalIds | muxado/src/stream_manager.rs:104-118 | the k-th id is initial + 2k exactly for k up to 2^30 - 1, the largest id afterwards |
| Managers.LocalIdsDistinct | muxado/src/stream_manager.rs:432-448 | up to that bound ids are non-zero, different from each other and from all of the other side |
| Managers.IdSpaceExhausted | muxado/src/stream_manager.rs:444-447 | the bound is tight: the next open repeats an id, on a server one of the client's |
| Managers.NewManagerInv | muxado/src/stream_manager.rs:104-124 | a new manager satisfies every invariant |
| Managers.CreateKeepsAgreementExactlyWhenFresh | muxado/src/stream_manager.rs:432-465 | opening fails exactly at the limit, and keeps tasks and map in agreement if and only if the id was not in use |
| Managers.PollNextKeepsInv | muxado/src/stream_manager.rs:170-255 | polling keeps every invariant, so the unreachable branch is never reached |
| Managers.ClosedStreamIsSilent | muxado/src/stream_manager.rs:203-214 | a stream with a close code yields no frame and leaves the map |
| Managers.SendToStreamKeepsInv | muxado/src/stream_manager.rs:275-388 | delivery keeps every invariant and the set of streams |
| Managers.GoneAwayForGood | muxado/src/stream_manager.rs:136-141 | after a go-away a poll yields the end, and neither opens nor deliveries undo it |
| Managers.NewOpenReq | muxado/src/stream_manager.rs:406-417 | a stream and a request joined by two new channels and one close code |
| Managers.StreamManager.CreateStream | muxado/src/stream_manager.rs:432-465 | the map, the tasks and the last ids move as specified |
| Managers.StreamManager.RemoveStream | muxado/src/stream_manager.rs:472-474 | the stream leaves the map and the tasks, its channels are dropped, nothing else changes |
| Managers.StreamManager.PollNext | muxado/src/stream_manager.rs:170-255 | the frame returned and the whole new state are those of the specification |
| Managers.StreamManager.GoAway | muxado/src/stream_manager.rs:136-141 | the map is emptied and every stream that was in it has a closed sink and an ended input |
| Managers.StreamManager.CloseSenders | muxado/src/stream_manager.rs:147-151 | the input of every stream is ended |
| Managers.StreamManager.MarkWriteClosed | muxado/src/session.rs:217-221 | the handle is closed for writing if it is still there |
| Managers.StreamManager.ResetHandle | muxado/src/stream_manager.rs:310-326 | a reset closes the sink, refuses further data and rules out a FIN |
| Managers.StreamManager.PollSend | muxado/src/stream_manager.rs:357-386 | one poll of a delivery: result, what is left of it, and the whole new state |
| Deliveries.DeliveredExactlyOnce | muxado/src/stream_manager.rs:275-388 | over any number of polls, with anything done to the handle in between, accepted data shrinks the window once and is queued once, refused data never |
| SessionTasks.ReaderTask.Take | muxado/src/session.rs:172-184 | a SYN registers a stream or ends the reader, and the stream returned is new, owes no SYN and is joined to the handle and the task in the manager; other frames are dispatched |
| SessionTasks.ReaderTask.Dispatch | muxado/src/session.rs:199-246 | each frame type has the specified effect on manager and reader |
| SessionTasks.ReaderTask.Poll | muxado/src/session.rs:201-222 | one poll of the delivery in progress, its outcome deciding what the reader does next |
| SessionTasks.ReaderTask.Conclude | muxado/src/session.rs:211-221 | an RST is queued after a refusal, the handle closed for writing after a FIN |
| SessionTasks.ReaderTask.HandleFrame | muxado/src/session.rs:172-247 | one frame that never makes the reader wait equals the composition of its locked regions |
| SessionTasks.ReaderTask.Run | muxado/src/session.rs:251-267 | for a reader that never has to wait, the loop equals the fold over all frames, and always ends the streams' input |
| SessionTasks.HandledIsDone | muxado/src/session.rs:251-262 | after each frame the reader is ready for the next one or has ended |
| SessionTasks.WriterTask.WriteFrame | muxado/src/session.rs:287-293 | exactly the frame the manager returns is written, unless the codec refuses it: then nothing is, and the writer ends |
| SessionTasks.WriterTask.OpenStream | muxado/src/session.rs:297-305 | an open request is answered with a new stream that owes its SYN and is joined to its handle and its task, or fails exactly when the manager does |
| LinkDelivery.NoFlowControl | muxado/src/stream_manager.rs:328-342 | in a state of the invariant the window covers the frame being delivered |
| LinkDelivery.UnknownGetsLoneFin | muxado/src/stream_manager.rs:361-367 | a side that does not know a stream is only ever sent a lone FIN for it |
| LinkDelivery.HealthyRefusesNothing | muxado/src/stream_manager.rs:302-305 | while both ends are healthy no data meets a closed handle or a closed channel |
| LinkSteps.SynIsFresh | muxado/src/session.rs:174-179 | a SYN is the first frame of its opener and arrives at an end that does not know the stream |
| LinkEmission.StepKeeps | muxado/src/stream_manager.rs:170-255 | every step of either end keeps the invariant that relates both ends |
| SessionSteps.StepProjects | muxado/src/session.rs:172-312 | every step of a session is, for every stream, one step of that stream or nothing: streams do not interfere |
| SessionSteps.SessionRunKeeps | muxado/src/session.rs:251-312 | the invariants of all streams and both sides hold in every run |
| SessionSteps.RefusalIsStreamClosed | muxado/src/session.rs:202-214 | the only reset one side ever decides on is StreamClosed, with a non-zero id |
| Refinement.OpenIsCreate | muxado/src/session.rs:297-305 | a local open is the manager's operation |
| Refinement.WriteIsPollNext | muxado/src/stream_manager.rs:187-254 | a stream frame written by a side is what its manager's poll returns |
| Refinement.SystemWriteIsPollNext | muxado/src/stream_manager.rs:171-185 | so is a system frame, and nothing is after a go-away |
| Refinement.TakingIsTook | muxado/src/session.rs:172-184 | taking a frame is the reader's own first region |
| Refinement.AdmissionIsAdmitted | muxado/src/session.rs:180-184 | so is handing over a new stream, or failing to |
| Refinement.RouteIsPolled | muxado/src/session.rs:201-216 | so is each poll of a delivery |
| Refinement.ConcludeIsConcluded | muxado/src/session.rs:211-221 | so is the end of a delivery |
| Guarantees.EndToEndDelivery | muxado/src/stream.rs:203-287 | in every session, bytes read are a prefix of bytes accepted; on a healthy stream accepted bytes are those read and those in the six places on the way, in order |
| Guarantees.CleanEndIsComplete | muxado/src/stream.rs:124-143 | once a FIN has been processed, every byte ever accepted has been or can be read |
| Guarantees.EmptyReadMeaning | muxado/src/stream.rs:205-240 | an empty read means a complete stream, an ended reader, a reset, or a multiple of 2^32 bytes of what was buffered |
| Guarantees.EmptyReadExactly | muxado/src/stream.rs:205-240 | in every session, from the state before the call: a read with room is empty if and only if the buffered amount is a multiple of 2^32, or the buffer is empty and only the end is left |
| Guarantees.ModerateReadsEndExactly | muxado/src/stream.rs:205-240 | below 2^32 bytes of window or of room, a read is empty if and only if nothing is buffered or queued and the stream has ended |
| Guarantees.HealthyReadsEndExactly | muxado/src/stream.rs:205-240 | on a healthy stream, below 2^32, a read is empty if and only if the peer's FIN is there and all bytes it ever accepted have been read |
| Guarantees.ReadAfterReset | muxado/src/stream.rs:205-240 | after a reset a read returns what is buffered and queued; then nothing once the channel has ended, as it has when the handle left the map, and until then it waits |
| Guarantees.BuffersFitWindow | muxado/PROTOCOL.md:112-122 | the bytes buffered unread at a stream never exceed the window |
| Guarantees.SinkIsOpenExactlyUntilReset | muxado/src/stream_output.rs:60-71 | in every session a stream with an application can send exactly while it has no close code |
| Guarantees.ReadsWaitExactly | muxado/src/stream.rs:205-240 | in every session a read with room for its credit waits if and only if nothing is buffered or queued and the stream has not ended |
| Guarantees.ReadsReturnWhatIsThere | muxado/src/stream.rs:205-240 | in every session a read that need not wait for room returns the start of the buffered bytes, else of the first bytes queued, as far as the caller has room; else nothing at the end, else it waits |
| Guarantees.WritesAcceptWhatFits | muxado/src/stream.rs:245-287 | in every session a write of an open stream waits exactly for room, or for window; otherwise it accepts the least of window, bytes given and one frame |
| Guarantees.ShutdownMeansFin | muxado/src/stream.rs:299-322 | in every session, once a shutdown has succeeded there is a FIN in the output of the stream |
| Guarantees.ShutdownEndsTheOtherSidesReads | muxado/src/stream.rs:299-322 | on a healthy stream one side has shut down, when nothing is on its way and all is read, the other side has every byte accepted and its read is empty |
| Accounts.SenderCreditConserved | muxado/src/stream.rs:264-284 | in every run: sender's window + bytes in the six places to the reader + credit in the four places back + the sum of what each step lost = window size, with nothing lost on a healthy stream |
| Accounts.ReceiverCreditConserved | muxado/src/stream_manager.rs:328-342 | in every run, until the stream leaves the map: the manager's window + what is taken off it for frames being delivered and bytes unread + credit not passed on + the sum of what each step lost = window size |
| LinkAccounts.SenderStepBalances | muxado/src/stream_manager.rs:203-214 | a step of the sender's end changes its total by exactly what it loses: bytes dropped with the channel, credit discarded at delivery |
| LinkAccounts.ReceiverStepBalances | muxado/src/stream.rs:146-157 | a step of the receiver's end by exactly what it loses: bytes read while the sink is closed, bytes refused or dropped, queued credit dropped on removal |
| LinkAccounts.HandleStepBalances | muxado/src/stream_manager.rs:328-349 | the same for the manager's window: bytes read while the sink is closed or dropped, and what was taken off the window for a frame then refused |
| Guarantees.CreditIsNeverDiscarded | muxado/src/window.rs:16-22 | the window and all credit on its way back together never exceed the maximum, so the cap never cuts off credit |
| Guarantees.NeverFlowControl | muxado/src/stream_manager.rs:328-342 | no delivery is ever refused for flow control |
| Guarantees.WindowCoversDataOnItsWay | muxado/PROTOCOL.md:112-122 | the manager's window has room for all data held by the reader and on the byte stream |
| Guarantees.OnlyExpectedFrames | muxado/src/session.rs:225-244 | between two such sides only data, credit and StreamClosed resets travel; nobody ever goes away |
| Guarantees.HealthyStreamsAreNeverReset | muxado/src/session.rs:201-215 | on a healthy stream both handles stay, both codes stay zero and no RST is anywhere |
| Guarantees.ArrivingIdsAreFresh | muxado/src/session.rs:174-179 | the id of an arriving SYN is unknown here and not one of this side's own |
| Guarantees.NextIdIsFreshExactlyWhileIdsAreLeft | muxado/src/stream_manager.rs:444-447 | the next local id is larger and of this side's parity if and only if ids are left, and then neither side knows it |
| Tracking.ManagersFollowEveryRun | muxado/src/stream_manager.rs:187-201 | in every run, on both sides: manager, reader and writer are where the session says; tasks are exactly the streams of the map, each once; every task the collection may yield finds its handle; the writer wrote what the session put on the byte stream |
| Tracking.SideStepFollows | muxado/src/session.rs:172-312 | every step of a side is a sequence of the manager's, the reader's and the writer's own operations, and keeps all their invariants |
| Guarantees.OutputFollowsGrammar | muxado/src/stream.rs:250-316 | nothing, a lone FIN, or one SYN then data and credit, at most one FIN and only credit behind it; a removed stream has sent its FIN or was reset |
| Guarantees.OwnFinExactlyWhenNeeded | muxado/src/stream_manager.rs:229-251 | the manager adds a FIN at the end of a dropped stream exactly when none was sent and it was not reset |
| Guarantees.StreamsReceiveOnlyStreamFrames | muxado/src/stream.rs:164-174 | streams only ever receive data and credit, so their unreachable branch is not reached |
| Tracking.LimitsHold | muxado/src/stream_manager.rs:433-436 | neither side of a session ever exceeds its stream limit |
| Guarantees.ResetIsFinal | muxado/src/stream_manager.rs:203-214 | between two sides: once a stream has a close code it keeps it through any further run and emits nothing more |
| Guarantees.ResetsTakeEffect | muxado/src/stream_manager.rs:308-326 | a reset received or decided on closes a live stream, and one received is never answered with another |
| Transcripts.HistoriesAreTranscripts | muxado/src/stream.rs:203-287 | the histories the other theorems speak of are what the calls of the run returned and what the writer put out |
| Transcripts.ReadsFollowWrites | muxado/src/stream.rs:203-287 | in every run the bytes returned by all reads at one end are a prefix of the bytes accepted by all writes at the other |
| Transcripts.SendsFollowGrammar | muxado/src/stream_manager.rs:216-254 | the data and credit put on the byte stream for one stream follow the grammar over the whole run |
| Transcripts.ByteStreamIsTransparent | muxado/src/codec.rs:141-206 | in every run all frames a side has ever written come out of the decoder unchanged however their bytes are cut, and the frames the other reader took are the first of them |
| Endpoints.TasksAreCounted | muxado/src/stream_manager.rs:432-474 | whatever arrives: the map stays within the limit; until a go-away there are as many tasks as streams in it and one more per registration of an id in use; they agree if and only if there was none, and then the writer never crashes |
| Endpoints.TasksHaveNoBound | muxado/src/stream_manager.rs:449-459 | with a limit of at least two, a repeated SYN adds a task each time and leaves one entry in the map |
| Endpoints.ReusedIdCrashesTheWriter | muxado/src/stream_manager.rs:194-201 | two SYNs with one id and both streams dropped lead to a ready task without a handle |
| Endpoints.ResetsSilence | muxado/src/stream_manager.rs:310-326 | a received reset with any code but zero, and every refused delivery, leave a stream with a close code |
| Endpoints.SilenceEndsExactlyAtRegistration | muxado/src/stream_manager.rs:449-458 | a step takes the close code of an id away if and only if it registers that id again; otherwise the first code stays |
| Endpoints.ResetIsFinal | muxado/src/stream_manager.rs:203-214 | against any remote and any application, a stream with a close code keeps it and not one more frame of it is written until its id is registered again |
| Endpoints.ResetIsFinalInEveryRun | muxado/src/stream_manager.rs:376-381 | the same from the start of every run, and in every run a closed sink owes no FIN |
| Endpoints.RegisteredAgainSpeaksAgain | muxado/src/stream_manager.rs:449-459 | the condition is needed: after a registration with an id other than zero a frame of the id is written again |
| Endpoints.ValidFramesKeepTheManager | muxado/src/stream.rs:164-174 | on valid frames from any remote streams only ever receive data and credit, and without reuse of a live id the manager keeps every invariant its class asks for |
| Endpoints.SynBeyondLimitEndsReader | muxado/src/session.rs:174-179 | a SYN ends the reader exactly at the limit, without a reset and with every stream's input ended |
| Endpoints.NoResetStorm | muxado/src/session.rs:201-215 | whatever valid frames arrive, the RST frames queued and written are at most the data frames taken that are not empty FINs |
| Endpoints.GoAwayClosesEverything | muxado/src/stream_manager.rs:136-141 | a GOAWAY empties the map and closes every open stream in it with error 11, RemoteGoneAway |
| Endpoints.AwayForGood | muxado/src/stream_manager.rs:171-174 | after that nothing is ever written, whatever the run |
| Endpoints.IdsCountSuccessfulOpens | muxado/src/stream_manager.rs:432-448 | in any run the last id is determined by the number of successful opens; failed ones take no id |
| Endings.WriterEndsExactlyOnZero | muxado/src/codec.rs:201-206 | in every run against any remote, a running writer ends on the frame it is given if and only if that names stream 0 and is not a GOAWAY; any other frame is written |
| Endings.NamedFramesKeepTheWriter | muxado/src/session.rs:287-293 | as long as no frame registers stream 0 or makes the reader answer for it, the codec refuses nothing |
| Endings.ZeroIdEndsTheWriter | muxado/src/session.rs:199-215 | the input: one reset naming stream 0 is answered with another, which ends the writer; nothing is ever written |
| Endings.StoppedForGood | muxado/src/session.rs:281-312 | a writer that has ended or panicked writes and opens nothing in any further run |
| Endings.WriterCanCrashExactlyAfterReuse | muxado/src/stream_manager.rs:194-201 | without frames of stream 0 and before a go-away, a running writer can be made to panic by the applications and its own steps alone if and only if an id was registered while in use |
| Endings.PanicsExactlyOnInvalidGoAway | muxado/src/session.rs:227-234 | a decoded frame makes the reader panic if and only if it is a GOAWAY with a stream id or fewer than eight bytes |
| Endings.EndingTellsStreamsUnlessPanicking | muxado/src/session.rs:251-267 | when the reader ends, every stream's input ends; when it panics, the manager does not change at all |
| Endings.PanicLeavesReadersWaiting | muxado/src/session.rs:227-234 | in every run, after such a panic no stream in the map ever sees the end of its input |
| Replies.ArrivalOutcome | muxado/src/session.rs:172-246 | what the reader does with each kind of frame: the stream it registers, the delivery it starts, the reset it owes, the go-away it queues, field by field |
| Replies.AdmissionOutcome | muxado/src/session.rs:180-184 | a new stream handed over goes on with its SYN as data; without the accept queue the reader ends and with it every input |
| Replies.LastIsLastDelivered | muxado/src/session.rs:215-216 | the id a go-away reports changes exactly when a delivery succeeds, to the id delivered |
| Replies.RefusedExactly | muxado/src/session.rs:201-214 | a poll of a delivery makes the reader owe a reset with an error if and only if the data is refused for that error |
| Replies.RefusalIsAnswered | muxado/src/session.rs:202-214 | in every run on valid frames a refused delivery is answered with one RST of length four, with the id of the refused frame and the error of the refusal |
| Replies.SystemGoesOut | muxado/src/stream_manager.rs:176-185 | a running writer puts out the queued system frames, all and in order |
| Replies.ExcessIsReset | muxado/src/stream_manager.rs:328-342 | data beyond the window makes the writer put out a FlowControl reset of its stream right behind the system frames already queued |
| Replies.DataBehindFinIsRefused | muxado/src/session.rs:217-221 | against any remote sending valid frames, after a delivered FIN all data of the stream is refused with StreamClosed and none enters its channel, until its id is registered again |

## Left out

- Wakers, pinning, lock internals and scheduling: a locked region and a poll of a stream are atomic
  steps, readiness is a free choice, and nothing is said about progress.
- A stream's poll is one step, so the close code cannot change between its readiness check and its
  send; a send that fails for that reason alone is not modelled.
- The sizes of the channels, of the accept queue and of the queue of open requests: only when a
  caller has to wait depends on them.
- The libraries for channels, unordered futures, growable buffers and framed transports: queues
  deliver buffered frames before their end, and the unordered collection picks any ready element.
- SessionTasks.ReaderTask.Run: the loop is proved for a reader that never has to wait, because a
  method cannot be interrupted; runs with waits and any other steps in between are those of
  `Endpoints.RunSide`, whose steps are the reader's single methods.
- SessionTasks.ReaderTask.HandleFrame: one frame without a wait, for the same reason.
- Endpoints.TasksAreCounted: the applications are any that respect their channels
  (`StreamActs`), not the stream objects themselves; that these respect them is proved in `Tracking`.
- Failing writes of the connection and both halves of the manager being dropped: apart from its panic and
  from frames the codec refuses, the writer of a side is taken to live as long as the session.
- Managers.GoneAwayForGood: one step of each operation; whole runs are `Endpoints.AwayForGood`.
- `io::Error` kinds: an error is represented by its muxado code.
- `usize` overflow: windows and lengths are unbounded, while every narrowing to 32, 31 or 24 bits is
  modelled.
- The wire of a session holds frames; that their bytes decode to them is
  `Transcripts.ByteStreamIsTransparent`.
- Sides with different windows: the protocol leaves their agreement to be reached elsewhere.
- Guarantees.ResetIsFinal: stated for two sides of this implementation; for an arbitrary remote,
  which may use an id again, see `Endpoints.ResetIsFinal`.
- `poll_flush` on its own: it is the last part of a shutdown (`Answers.ShutdownOnce`).
- Heartbeats, typed streams, and the whole of the `ngrok` crate.
