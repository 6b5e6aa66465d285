# A verified model of uRPC's runtime

uRPC carries gRPC calls over HTTP/2 on one event-loop thread. This project models the state machines
that take a message from a server handler to a client's `Read()`, and proves what they promise over
every run: every interleaving of tasks, timers, resets, closes and losses, and every cutting of the
byte stream.

| file | what it models |
|---|---|
| `Codec.dfy` | message framing: `EncodeFrame`, `FrameDecoder`, and the whole-stream parser they agree with |
| `Server.dfy` | one server stream as a machine: request, read, write, finish, deadline and close steps |
| `ServerWire.dfy`, `ServerCallbacks.dfy`, `ServerWrites.dfy`, `ServerReads.dfy` | what holds of that machine over every run |
| `ServerAnswers.dfy` | with which status a server stream ends a call, what ends it, and when its deadline runs |
| `ServerConn.dfy` | a connection's table of calls, updated in place, as the source's methods do it |
| `ServerWitnesses.dfy` | runs that reach the states where the code does less than its comments say |
| `AutoFinish.dfy`, `TypedAnswers.dfy` | the typed server-streaming layer and its drain-aware finish; with which status it ends a call |
| `H2Session.dfy` | the flush engine and the consumed-notifications that re-enter it |
| `ClientStream.dfy`, `Channel.dfy` | one client stream; the channel with its two call tables |
| `ChannelCalls.dfy`, `ChannelDeadlines.dfy`, `StreamDeadlines.dfy`, `ClientFlushes.dfy`, `ChannelStreams.dfy`, `ChannelFlushes.dfy`, `SendAnswers.dfy` | what holds of the channel over every run |
| `ChannelView.dfy`, `ChannelCallView.dfy`, `ChannelSends.dfy` | what a step of the channel does to one stream, to one call, and for the messages sent on a stream |
| `ChannelImpl.dfy` | the channel's tables, updated in place |
| `ChannelWitnesses.dfy` | runs of the channel that reach the states its comments rule out |
| `ClientReader.dfy` | the caller's queue of payloads behind `Read()` |
| `EndToEnd.dfy`, `ChannelEndToEnd.dfy` | handler, wire, client stream and `Read()` together; the same on a whole channel |
| `StreamStatus.dfy`, `ChannelStatus.dfy` | the status a streaming call ends with at the caller, and what gave it, for both |
| `UnaryEndToEnd.dfy`, `UnaryStatus.dfy` | handler, wire and a unary call's completion on a whole channel; the status and payload it completes with |
| `RequestEndToEnd.dfy` | `StreamSend` on a channel, wire, and the handler's reads together |
| `Shutdown.dfy` | starting and draining a server |
| `Loop.dfy`, `Timeout.dfy` | the task loop; `grpc-timeout` parsing |

How it is built. Each machine is a value and a set of step functions, so that statements about whole
runs are lemmas. The source updates records in place, so classes (`FrameDecoder`, `Conn`, `Impl`,
`Session`, `LoopRunner`, `ServerWriteState`, `ClientStreamState`) hold the same state in mutable
fields; every method is proved to do exactly the step it stands for and to keep the invariant of its
class. For the two largest classes that invariant is that the state is one some run reaches, so that
what holds over every run holds between any two of their calls.

What a step decides is stated a second time, as a table that calls none of the operations
(`ServerAnswers.Ending`, `TypedAnswers.TypedCloses`, `StreamStatus.Gives`, `ChannelStatus.StepEnds`,
`UnaryStatus.Completes`, `ChannelSends.Tells` and `NextLine`): gRPC's status numbers and the bound of 64
stand there as numerals, frames as place values. The machines are proved equal to the tables in every
reachable state, and over every run an outcome is traced to the one step that caused it.

Server steps run up to the first user callback they make, and what the source does after it is a step
of its own, so handler code may act in between. Client entry points all post a task, so their
callbacks never re-enter. nghttp2 is an environment that delivers in order, cuts and delays as it
likes and may close streams it has opened; a submission on a closed stream does nothing, and a body
given to it is never read. The HTTP/2 stream ids that a session answers with, the routing result, the
outcome of connecting, whether a reset reports the stream's close before it returns, and whether a body
had been read and its notification queued when its stream closed, are parameters of the steps. One
request header block arrives per stream id.

## Where the code does less than its comments say

The model follows the code. Each item is a theorem that says exactly when it happens, and a run that
gets there.

- A finish deferred over queued messages sends neither them nor the trailers, ever, although the
  comments at `urpc/core/source/urpc_server.cc:477-479` promise both (`ServerWire.DeferredFinish`,
  `ServerWitnesses.DeferredFinishHappens`).
- A framing error in a request settles the call and submits nothing (`ServerWire.FramingErrorIsSilent`,
  `ServerWitnesses.FramingErrorHappens`).
- Write callbacks can be lost (`ServerWrites.NeverResolvedExactly`): that of the body in flight when its
  stream or connection closes, unless its notification was queued (`ServerConn.CloseLosesInFlight`,
  `ServerWitnesses.CloseLosesWriteHappens`); those of everything written from a cancel
  callback of a closed stream (`ServerWrites.LostWritesExactly`, `ServerWitnesses.CancelCallbackLosesWrites`); and those of everything
  queued or in flight when shutdown abandons a call (`ServerWrites.AbandonLosesOutstanding`,
  `ServerWitnesses.AbandonLosesWrites`).
- A message still queued at `WriteDone` is never sent, even if nothing finishes the call
  (`ServerWrites.WriteDoneStops`, `ServerWitnesses.WriteDoneStrandsHappens`).
- Half-close without a waiting read loses the unread backlog and the OK end of stream
  (`ServerReads.HalfCloseExactly`, `ServerWitnesses.LostBacklogHappens`).
- A request message that overflows the backlog after the call was responded to is dropped while later
  ones are still read (`ServerReads.ReadsInOrder`, `ServerReads.OverflowExactly`,
  `ServerWitnesses.DropAfterDeadlineHappens`); so the handler can be told OK end of stream without having
  seen every message, as it also can after a framing error (`RequestEndToEnd.RequestEndsExactly`).
- A unary request with several messages is not refused: its test counts taken messages
  (`ServerReads.UnaryTakesFirst`, `ServerWitnesses.SecondMessageHappens`).
- Connect failure never completes the streams that waited for the connection
  (`ChannelStreams.BrokenStrandsParked`, `ChannelWitnesses.StrandedStreamHappens`), nor answers the sends
  they took (`ChannelFlushes.StrandedSendsExactly`, `ChannelWitnesses.StrandedSendHappens`).
- A unary timer that fires while the call waits for the connection is spent
  (`ChannelDeadlines.CallDeadlineExactly`, `ChannelWitnesses.SpentDeadlineHappens`).
- A message sent after a close that still waits in the queue follows END_STREAM
  (`ClientStream.EndStreamExactly`, `ChannelWitnesses.MessageAfterEndHappens`).
- The StreamSend callback of a body in flight never runs once its stream has completed and the session
  has dropped the body, by a close, a reset or the loss of the connection
  (`ChannelFlushes.NeverFlushedExactly`, `ChannelWitnesses.LostFlushHappens`); the typed `Write` at
  `urpc/api/include/urpc/stream.h:362-369` waits for it.
- A message still queued when its stream ends OK is dropped, and its callback is told OK
  (`ChannelSends.StepSends`, `SendAnswers.OkMeansSubmitted`, `ChannelWitnesses.DroppedToldOkHappens`).
- A `grpc-timeout` with a minus sign is not refused and asks for almost 2^64 milliseconds
  (`Timeout.TimeoutNegative`).
- Frame lengths are cut to 32 bits (`Codec.FrameRoundTrip`, `Codec.LengthWraps`).
- `drained` can be set before the listener's close callback (`Shutdown.DrainedEarlyExactly`,
  `Shutdown.DrainedEarlyHappens`), and the drain task can lock a mutex it holds, even on a server that
  started (`Shutdown.DrainHangsExactly`, `Shutdown.DrainHangHappens`).
- Queue bounds are 64, where comments say 2.

## Model

| member | source | states |
|---|---|---|
| Codec.EncodeFrame | urpc/core/source/urpc_codec.cpp:12-29 | appends exactly one frame: a zero byte, four bytes whose big-endian place value is the length modulo 2^32, then the message |
| Codec.FrameFormat | urpc/core/source/urpc_codec.cpp:12-25 | every frame is a zero byte, the length modulo 2^32 in four bytes of descending place value, then the message |
| Codec.HeadFormat | urpc/core/source/urpc_codec.cpp:36-58 | for every byte string and limit: incomplete, compressed, over the limit, or a whole frame, decided by the first byte and the place value of the next four |
| Codec.ParseFormat | urpc/core/source/urpc_codec.cpp:43-61 | a whole frame at the head is one message with exactly those bytes, and the rest is parsed on its own |
| Codec.FrameDecoder.Consume | urpc/core/source/urpc_codec.cpp:31-63 | the incremental loop refines the recursive whole-stream parser in messages, residue, header state and status, and terminates on every input |
| Codec.FrameDecoder.TakeMessage | urpc/core/include/urpc/core/codec.h:36-41 | takes the oldest message and counts it |
| Codec.ParseAppend | urpc/core/source/urpc_codec.cpp:31-63 | parsing in two instalments with the leftovers kept is parsing once |
| Codec.ErrorIsSticky | urpc/core/source/urpc_codec.cpp:39-52 | a framing violation is decided by the bytes seen: later bytes change neither it nor the messages |
| Codec.FeedResidue | urpc/core/source/urpc_codec.cpp:31-63 | after every OK call the buffer is shorter than max(5, limit), and buffer plus header state stand for the unparsed bytes |
| Codec.FeedTwice | urpc/core/source/urpc_codec.cpp:31-63 | two calls are one on the concatenation, in state and status; after an error every later call repeats it and decodes nothing |
| Codec.ChunkingIndependence | urpc/core/source/urpc_codec.cpp:31-63 | every cutting of a byte string ends in the decoder state of one call on all of it |
| Codec.FrameRoundTrip | urpc/core/source/urpc_codec.cpp:21-63 | a frame decodes to its message if and only if the length fits the limit and 32 bits |
| Codec.FramesRoundTrip | urpc/core/source/urpc_codec.cpp:21-63 | a list of messages that fit decodes to itself with nothing left over |
| Codec.FramesFit | urpc/core/source/urpc_codec.cpp:21-63 | a list of messages decodes to itself, without error, if and only if each fits the limit |
| Codec.ChunkedRoundTrip | urpc/core/source/urpc_codec.cpp:12-63 | the round trip under every chunking, with an empty residual buffer |
| Codec.CutParsesPrefix | urpc/core/source/urpc_codec.cpp:31-63 | any cut of an encoded stream decodes to a prefix of its messages |
| Codec.LengthWraps | urpc/core/source/urpc_codec.cpp:23-24 | a message of 2^32 bytes decodes to an empty first message |
| Timeout.TimeoutExactly | urpc/core/source/urpc_server.cc:35-55 | for any number of digits the result is the floor in milliseconds if and only if value and floor fit 64 bits |
| Timeout.TimeoutGrammar | urpc/core/source/urpc_server.cc:35-55 | for one to eight digits it is always the floor, and zero exactly below one millisecond, when no deadline is armed |
| Timeout.TimeoutMalformed | urpc/core/source/urpc_server.cc:35-55 | a value that is too short, has no unit or does not begin like a number sets no deadline |
| Timeout.TimeoutNegative | urpc/core/source/urpc_server.cc:35-55 | a minus sign negates modulo 2^64 |
| Loop.LoopRunner.Post | urpc/core/source/urpc_loop.cpp:76-85 | appends the task; tasks that ran, picked up and pending stay the posted ones in order |
| Loop.LoopRunner.DrainPending | urpc/core/source/urpc_loop.cpp:65-74 | runs exactly the tasks posted before it began, in order; what they post waits for the next drain |
| Loop.LoopRunner.SetTimer | urpc/core/source/urpc_loop.cpp:166-177 | arms the task under an id never used before, or answers 0 on a stopped loop |
| Loop.LoopRunner.CancelTimer | urpc/core/source/urpc_loop.cpp:179-187 | disarms exactly that timer |
| Loop.LoopRunner.OnTimer | urpc/core/source/urpc_loop.cpp:18-23 | the timer is disarmed before its task runs, so no timer runs twice |
| H2Session.Session.BodyRead | urpc/core/source/urpc_h2_session.cc:139-164 | advances the body by min(remaining, length) and queues its notification exactly when the read ends a body that holds one |
| H2Session.Session.SessionSend | urpc/core/source/urpc_h2_session.cc:76-81 | does exactly what nghttp2 chose: its bytes are produced in order, its reads made, the notifications of finished bodies queued, its closed streams dropped |
| H2Session.Session.OnStreamClose | urpc/core/source/urpc_h2_session.cc:120-127 | drops exactly the stream's bodies; the notification of one not consumed yet is never queued afterwards |
| H2Session.Session.SendData | urpc/core/source/urpc_h2_session.cc:279-293 | registers the body and flushes; inside a callback it runs no other callback |
| H2Session.Session.FlushOut | urpc/core/source/urpc_h2_session.cc:44-71 | a nested flush sends once and runs no callback; the outermost one ends with nothing queued and every notification run, in consumption order, for every finite producer; all bytes produced are written |
| H2Session.Session.RunNote | urpc/core/source/urpc_h2_session.cc:56-58 | a notification runs once, submits what it wants in order, and the work left strictly shrinks |
| H2Session.Session.RunBatch | urpc/core/source/urpc_h2_session.cc:54-58 | runs every notification queued so far, once and in order; what they queue waits |
| H2Session.Session.ExactlyOnceOrNever | urpc/core/include/urpc/core/h2_session.h:73-77 | a body submitted with a callback is read in full and its callback ran once, or its stream closed first and it never runs, or it is not read to its end: exactly one of these |
| ServerWire.WireRun | urpc/core/source/urpc_server.cc:125-548 | every step keeps the wire grammar, the flags that go with it and the order of messages |
| ServerWire.ServerWireGrammar | urpc/core/source/urpc_server.cc:289-530 | in every run the submissions are a prefix of HEADERS DATA* TRAILERS or one trailers-only block, the messages are the first accepted ones in order, an OK terminal means all of them, and at most 64 wait |
| ServerWire.FrozenRun | urpc/core/source/urpc_server.cc:289-530 | nothing is submitted after a terminal or a close, whatever happens next |
| ServerWire.StuckRun | urpc/core/source/urpc_server.cc:441-448 | behind a finish deferred over queued messages nothing is ever submitted |
| ServerWire.DeferredFinish | urpc/core/source/urpc_server.cc:480-530 | with a message queued no continuation submits anything; with only a body in flight every continuation has sent the status, or closed, or sends it once the body is consumed; with nothing outstanding it is sent at once and for good |
| ServerWire.FramingErrorIsSilent | urpc/core/source/urpc_server.cc:341-347 | after a framing error no continuation submits anything |
| ServerWitnesses.DeferredFinishHappens | urpc/core/source/urpc_server.cc:500-515 | a run in which a second message and the status of a finish are never sent |
| ServerWitnesses.FramingErrorHappens | urpc/core/source/urpc_server.cc:341-347 | a run in which a request with a bad flag is never answered |
| ServerAnswers.StepAnswers | urpc/core/source/urpc_server.cc:230-530 | in every reachable state each step of a live stream submits exactly the ending its cause calls for, in trailers if the response has begun and alone if not, and settles the call exactly when there is a cause: a finish or response with the handler's status, a deadline as 4, a second request as 13, a full backlog as 8, a missing request as 13, no such method as 12; a finish behind outstanding messages keeps its status |
| ServerAnswers.EndingHasCause | urpc/core/source/urpc_server.cc:289-530 | in every run a response that has ended carries the status of a step that settled the call |
| ServerAnswers.CauseIsOnly | urpc/core/source/urpc_server.cc:289-530 | in every run at most one step settles the call, with one status |
| ServerAnswers.DeadlineAnswers | urpc/core/source/urpc_server.cc:349-371 | in every reachable state a due deadline appends exactly one terminal with status 4, `Trailers` if and only if something was submitted, to a call that is live and unanswered, and nothing follows it in any continuation; to an answered call it appends nothing |
| ServerAnswers.TimerRunsExactly | urpc/core/source/urpc_server.cc:149-156 | in every run of a live call the timer runs if and only if a timeout was given, it has not fired and the call is not settled; once fired the call is settled or about to be; no call is erased before its cancel callbacks ran |
| ServerAnswers.OpeningExactly | urpc/core/source/urpc_server.cc:125-166 | bad headers are answered 13 and leave no call; others open one with its limit, deadline, form and context |
| ServerAnswers.FirstRequestGiven | urpc/core/source/urpc_server.cc:186-195 | a handler that takes one request is given the first message |
| ServerAnswers.CloseTellsReader | urpc/core/source/urpc_server.cc:532-542 | a waiting read is told UNAVAILABLE when its stream or connection closes, and no other read is told anything then |
| ServerAnswers.ReadTold | urpc/core/source/urpc_server.cc:602-633 | what each read is told, and with which status |
| ServerAnswers.FramingCodes | urpc/core/source/urpc_codec.cpp:40-52 | a compressed frame stands for 13, one over the limit for 8 |
| ServerCallbacks.WriteCallbacksConserved | urpc/core/source/urpc_server.cc:441-475 | in every run a write's callback ran once or the write waits, never both and never twice |
| ServerCallbacks.CloseResolvesWrites | urpc/core/source/urpc_server.cc:532-548 | after a close every earlier write's callback has run exactly once, save at most the one in flight |
| ServerWrites.OkMeansHanded | urpc/core/source/urpc_server.cc:449-474 | in every run the writes told OK, then the one in flight, are exactly the bodies given to the session, in order; on a live stream these are the DATA submitted |
| ServerWrites.TakenOrRefused | urpc/core/source/urpc_server.cc:635-654 | a write on an open stream with fewer than 64 queued is taken, with its payload, and told nothing yet; any other is refused at once, as 14 on a call that is gone, 13 on one that is finished or closed, 8 when the queue is full |
| ServerWrites.NeverResolvedExactly | urpc/core/source/urpc_server.cc:203-213 | once the record is erased a callback never runs, in any continuation, if and only if its write is queued, or its body was dropped at the close, given to a closed stream, or destroyed with the session |
| ServerWrites.LostWritesExactly | urpc/core/source/urpc_server.cc:380-385 | after any calls of a handler from a cancel callback, which writes are never resolved, and how many: all that was outstanding and all that was written, save a body whose notification was queued |
| ServerWrites.AbandonLosesOutstanding | urpc/core/source/urpc_server.cc:743-753 | when shutdown abandons a live call exactly the writes queued or in flight then are never resolved |
| ServerConn.CloseLosesInFlight | urpc/core/source/urpc_h2_session.cc:120-127 | when a stream or its connection closes and the handler writes no more, exactly the body in flight is never resolved, unless its notification was queued |
| ServerWrites.WriteDoneStops | urpc/core/source/urpc_server.cc:656-659 | after WriteDone no continuation submits a message: one is sent if and only if it was handed over already, and the queue stays |
| ServerWitnesses.CancelCallbackLosesWrites | urpc/core/source/urpc_server.cc:203-213 | a run in which two writes from a cancel callback are accepted and no continuation resolves either |
| ServerWitnesses.AbandonLosesWrites | urpc/core/source/urpc_server.cc:743-753 | a run in which no continuation resolves the queued write of an abandoned call nor the one in flight |
| ServerWitnesses.CloseLosesWriteHappens | urpc/core/source/urpc_h2_session.cc:120-127 | a run in which a stream closes over a body whose write no continuation resolves |
| ServerWitnesses.WriteDoneStrandsHappens | urpc/core/source/urpc_server.cc:441-448 | a run in which a queued message is stranded by WriteDone on a call that is not finished |
| ServerReads.ReadsInOrder | urpc/core/source/urpc_server.cc:409-435 | in every run, while the read side is open, messages delivered then unread are the arrived ones if and only if none was discarded, and fall short by exactly the number discarded, which is none before a response; a waiting read and a backlog never coexist; at most 64 unread; no second OK end of stream |
| ServerReads.OverflowExactly | urpc/core/source/urpc_server.cc:423-435 | the next message is kept if and only if a read waits or the backlog has room; what happens otherwise |
| ServerReads.FinishedRun | urpc/core/source/urpc_server.cc:602-609 | a finished read side never hands out a message again |
| ServerReads.HalfCloseExactly | urpc/core/source/urpc_server.cc:265-287 | OK end of stream is told if and only if a read waits at half-close, and unread messages are never delivered after it |
| ServerReads.RearmingHandlerSeesAll | urpc/core/source/urpc_server.cc:185-200 | in every run with any DATA, writes, consumption and deadline in between, a handler that reads again after every message is given exactly the messages of the bytes that arrived, in order; at the end one OK end of stream, and nothing after it |
| ServerReads.UnaryTakesFirst | urpc/core/source/urpc_server.cc:247-263 | in every run a unary request with any number of messages is handled with its first |
| ServerReads.DeliverKept | urpc/core/source/urpc_server.cc:423-435 | a delivered message goes to the waiting read, or behind the unread ones |
| ServerWitnesses.LostBacklogHappens | urpc/core/source/urpc_server.cc:414-422 | a run in which a message that arrived is never delivered after half-close |
| ServerWitnesses.DropAfterDeadlineHappens | urpc/core/source/urpc_server.cc:429-433 | a run in which a message is dropped after a deadline and the next one kept: what is kept is no prefix |
| ServerWitnesses.SecondMessageHappens | urpc/core/source/urpc_server.cc:248-256 | a run in which a unary request with two messages is handled |
| ServerConn.ReceivedIsRun | urpc/core/source/urpc_server.cc:169-201 | a whole DATA event is a run of the stream's steps: the bytes, every message they completed, and the end of the request if it came with them; malformed bytes stop it, and so does a second request |
| ServerConn.FailAllFails | urpc/core/source/urpc_server.cc:543-547 | the close loop fails every queued write once, in order |
| ServerConn.Conn.OnHeadersComplete | urpc/core/source/urpc_server.cc:125-167 | refuses bad headers with one trailers-only block, else opens the call, arms its deadline and dispatches streaming handlers; other streams unchanged |
| ServerConn.Conn.OnData | urpc/core/source/urpc_server.cc:169-201 | decodes, answers framing errors, hands messages over one by one and ends the request; other streams unchanged |
| ServerConn.Conn.TakeAll | urpc/core/source/urpc_server.cc:186-198 | the loop over decoded messages is the recursive drain, and tells whether a second message stopped it |
| ServerConn.Conn.EndRequest | urpc/core/source/urpc_server.cc:230-287 | END_STREAM for every form of call, with its error answers |
| ServerConn.Conn.Respond | urpc/core/source/urpc_server.cc:289-310 | the unary response, once: OK sends headers, the payload's frame and OK trailers, any other status exactly that status alone |
| ServerConn.Conn.OnDeadline | urpc/core/source/urpc_server.cc:349-371 | cancels, then ends a live unanswered call by one terminal with status 4, in trailers exactly if something was submitted before |
| ServerConn.Conn.PumpOut | urpc/core/source/urpc_server.cc:441-457 | at most one body in flight, headers before the first |
| ServerConn.Conn.OnConsumed | urpc/core/source/urpc_server.cc:461-495 | the callback of the body runs, then a deferred finish whose turn has come |
| ServerConn.Conn.FinishStream | urpc/core/source/urpc_server.cc:500-530 | terminal once: at once, or deferred behind what is outstanding |
| ServerConn.Conn.CancelStreamIo | urpc/core/source/urpc_server.cc:532-548 | the waiting read is told, then every queued write is failed |
| ServerConn.Conn.OnStreamClose | urpc/core/source/urpc_server.cc:203-215 | closes, cancels and erases the call; other streams unchanged |
| ServerConn.Conn.ReadMessage | urpc/core/source/urpc_server.cc:602-633 | the answers of a read in their order of precedence, or the read is armed |
| ServerConn.Conn.WriteMessage | urpc/core/source/urpc_server.cc:635-654 | rejections fire at once with their codes; an accepted message is framed, queued and pumped |
| ServerConn.Conn.EveryStreamIsOrderly | urpc/core/source/urpc_server.cc:87-123 | every stream of a connection keeps the wire grammar, OK completeness, queue bound, one callback per write, what OK tells, and read order |
| AutoFinish.TypedRunKeeps | urpc/api/include/urpc/stream.h:43-68 | the in-flight counter is the number of writes whose delivery callback has not completed, over every run |
| AutoFinish.ZeroMeansDrained | urpc/api/include/urpc/stream.h:58-67 | when the counter is zero the core queue is empty and nothing is in flight |
| AutoFinish.AutoFinishIsComplete | urpc/api/include/urpc/stream.h:58-67 | in every run the delivery or return that finishes a stream does so if and only if the handler returned and every delivery completed, and on an open stream makes the response exactly headers, every accepted message, OK trailers |
| AutoFinish.ChainingProducer | urpc/api/include/urpc/stream.h:98-136 | a producer that chains each write on the previous delivery yields headers, all n messages, OK trailers, for every n |
| AutoFinish.ServerWriteState.WriteNext | urpc/api/include/urpc/stream.h:103-136 | a write is forwarded unless the stream is finished, and on an open stream with room its payload is accepted; the counter stays the number of writes whose delivery has not completed |
| AutoFinish.ServerWriteState.FinishWhenDrained | urpc/api/include/urpc/stream.h:62-67 | finishes if and only if the handler returned and every delivery completed, and then the whole response has been sent |
| AutoFinish.ServerWriteState.DeliveryEnds | urpc/api/include/urpc/stream.h:58-60 | the last delivery after the handler returned finishes the stream, with the whole response sent |
| AutoFinish.ServerWriteState.FinishWith | urpc/api/include/urpc/stream.h:140-144 | the first finish on an open stream sends exactly its status: at once with nothing outstanding, as soon as the body in flight is consumed, and never behind queued messages; later ones change nothing |
| AutoFinish.ServerWriteState.WrapperEnds | urpc/api/include/urpc/stream.h:609-623 | nothing written ends the call as 12; else the stream is finished now if and only if every delivery completed, with the whole response sent |
| AutoFinish.FinishEnds | urpc/api/include/urpc/stream.h:140-144 | the status given to a finish is the one sent, at once, after the body in flight, or never |
| TypedAnswers.TypedIsCore | urpc/api/include/urpc/stream.h:43-68 | each step of the typed layer is one step of the core or none, and settles the call exactly when the table says, with the status it says |
| TypedAnswers.TypedEndingHasCause | urpc/api/include/urpc/stream.h:98-144 | in every run from the moment the handler is given the stream, an ended response carries the status of the step that settled the call |
| TypedAnswers.OkHasAuthor | urpc/api/include/urpc/stream.h:58-67 | in every run an OK ending comes from an explicit finish with OK, or from a return or delivery that found the handler returned and every message delivered, and from nothing else |
| ClientStream.EndStreamExactly | urpc/core/source/urpc_channel.cc:659-685 | END_STREAM is submitted at most once and on the last submission, with nothing queued, if and only if no message was taken after the close |
| ClientStream.PumpKeeps | urpc/core/source/urpc_channel.cc:148-169 | pumping keeps submitted-then-queued bodies as they were; `ChannelSends.StepSends` says which are submitted |
| ClientStream.CloseSendKeeps | urpc/core/source/urpc_channel.cc:673-683 | half-close rides the last queued message or an empty DATA |
| ClientStream.SeedKeeps | urpc/core/source/urpc_channel.cc:178-202 | opening a parked stream keeps its messages and moves a parked close to the last of them |
| ChannelCalls.CallsRun | urpc/core/source/urpc_channel.cc:354-491 | every step keeps each issued call in exactly one place and the two tables inverse to each other |
| ChannelCalls.UnaryExactlyOnce | urpc/core/source/urpc_channel.cc:354-572 | in every run an issued call is waiting, in the table, or done once, exactly one of these; `by_stream` and `calls` are inverse; on a broken channel every issued call is done exactly once |
| ChannelCalls.EndInTable | urpc/core/source/urpc_channel.cc:354-368 | completing a call takes it out of both tables with one completion, and every other call stays in its place |
| ChannelCalls.CallNowKeeps | urpc/core/source/urpc_channel.cc:370-390 | submitting enters both tables under a fresh stream, or fails the call when the session refuses; every call stays in exactly one place |
| ChannelCalls.ResetKeeps | urpc/core/source/urpc_channel.cc:514-533 | a reset call ends with the code given even when the reset reports the close from inside |
| ChannelDeadlines.CallDeadlineExactly | urpc/core/source/urpc_channel.cc:513-533 | a timer ends its call as DEADLINE_EXCEEDED if and only if the call was submitted; otherwise the call never has a deadline again, in any continuation |
| ChannelDeadlines.CallTimerExactly | urpc/core/source/urpc_channel.cc:504-540 | in every run the timer of a call issued with a timeout runs exactly while the call is waiting or submitted, until it fires; without a timeout there is none |
| ChannelWitnesses.SpentDeadlineHappens | urpc/core/source/urpc_channel.cc:514-516 | a run in which a waiting call loses its deadline for good |
| ChannelStreams.StreamsRun | urpc/core/source/urpc_channel.cc:130-342 | every step keeps the stream index, the traces and the send lines |
| ChannelStreams.StreamTraces | urpc/core/source/urpc_channel.cc:130-146 | in every run a stream's callbacks are messages, then at most one completion and nothing after; the index holds exactly the uncompleted streams |
| ChannelStreams.DeadlineCompletes | urpc/core/source/urpc_channel.cc:203-217 | a fired deadline completes its stream as DEADLINE_EXCEEDED despite the close its own reset reports |
| StreamDeadlines.StreamTimerExactly | urpc/core/source/urpc_channel.cc:199-222 | in every run a stream has an armed deadline while it is open if and only if it was opened with a timeout, however long it waited for the connection |
| ChannelStreams.SendsInOrder | urpc/core/source/urpc_channel.cc:148-231 | in every run, for every live stream, bodies submitted then queued are those handed over, in order, at most 64 queued; END_STREAM comes at most once, on the last submission and with nothing queued, exactly when nothing was taken after the close |
| ChannelStreams.FlushesConserved | urpc/core/source/urpc_channel.cc:140-169 | in every run each StreamSend callback ran once or its message waits, never both; on a completed stream all but that of the body in flight have run |
| ChannelFlushes.NeverFlushedExactly | urpc/core/source/urpc_channel.cc:160-168 | a StreamSend callback never runs, in any continuation, if and only if its stream has completed with its body in flight and the session no longer has that body |
| ChannelFlushes.StrandedSendsExactly | urpc/core/source/urpc_channel.cc:617-637 | on a broken channel a send on a stream left parked is never answered, in any continuation, if and only if it was taken |
| ChannelSends.StepSends | urpc/core/source/urpc_channel.cc:130-169 | in every reachable channel, for every step and stream: what each StreamSend callback is told (13 after END_STREAM, 8 with 64 queued, OK for a consumed body, the status of the end for a dropped one), how the line of messages grows or is closed, and which are submitted |
| ChannelSends.ParkedSends | urpc/core/source/urpc_channel.cc:617-671 | on a waiting stream a send with room is queued, one without is told 8, and a half-close rides the last message or an empty one; nothing else changes |
| ChannelSends.OpeningSends | urpc/core/source/urpc_channel.cc:171-223 | an opened stream's line is its waiting messages, closed at the end if any asked for it, the first submitted at once; a refused one ends as 14 and every waiting send hears that |
| ChannelSends.RefusedAtOnce | urpc/core/source/urpc_channel.cc:574-611 | a stream opened on a broken channel, or refused, ends as 14 at once |
| SendAnswers.OkMeansSubmitted | urpc/core/source/urpc_channel.cc:140-168 | in every run a send told OK had its message submitted, unless its stream ended OK |
| ChannelWitnesses.DroppedToldOkHappens | urpc/core/source/urpc_channel.cc:140-145 | a run in which a send is told OK and its message was never submitted |
| ChannelWitnesses.LostFlushHappens | urpc/core/source/urpc_h2_session.cc:120-127 | a run in which a stream closes over the body of its first send and the callback never runs |
| ChannelWitnesses.StrandedSendHappens | urpc/core/source/urpc_channel.cc:413-420 | a run in which a parked send is never answered |
| ChannelWitnesses.MessageAfterEndHappens | urpc/core/source/urpc_channel.cc:640-655 | a run in which a message is submitted after END_STREAM |
| ChannelStreams.BrokenStrandsParked | urpc/core/source/urpc_channel.cc:413-420 | on a broken channel a stream has completed if and only if it was not left parked |
| ChannelStreams.BrokenIsFinal | urpc/core/source/urpc_channel.cc:413-420 | a broken channel stays broken and its parked streams stay parked in every continuation |
| ChannelWitnesses.StrandedStreamHappens | urpc/core/source/urpc_channel.cc:413-420 | a run in which a stream stays parked in every continuation |
| ChannelView.StepView | urpc/core/source/urpc_channel.cc:130-342 | every step of a channel acts on each of its streams as if the stream were alone |
| ChannelCallView.CallStepView | urpc/core/source/urpc_channel.cc:354-572 | every step but its own answers keeps a submitted call as it is, or ends it without payload: its cancellation, close or the loss of the connection as 14, its deadline as 4 |
| ChannelCallView.CompletedStays | urpc/core/source/urpc_channel.cc:354-368 | the completion of a call never changes again |
| ChannelCallView.IssueTells | urpc/core/source/urpc_channel.cc:500-554 | a new call is submitted with its timer, waits with its timer, or ends as 14 on a broken channel or a refusing session |
| ChannelCallView.FailTells | urpc/core/source/urpc_channel.cc:392-398 | a failed connect gives every waiting call the same status, in order |
| ChannelCallView.StartTells | urpc/core/source/urpc_channel.cc:400-406 | a connect submits every waiting call, and those the session refuses end as 14, in order |
| ChannelImpl.Impl.Issue | urpc/core/source/urpc_channel.cc:500-554 | submits, fails or parks a call, and starts the one connect |
| ChannelImpl.Impl.FailWaiting | urpc/core/source/urpc_channel.cc:392-398 | the loop fails every waiting call in order |
| ChannelImpl.Impl.StartWaiting | urpc/core/source/urpc_channel.cc:400-406 | the loop submits every waiting call in order |
| ChannelImpl.Impl.OnTimeout | urpc/core/source/urpc_channel.cc:514-533 | ends a submitted call by a reset; spends the timer of a waiting one |
| ChannelImpl.Impl.Cancel | urpc/core/source/urpc_channel.cc:556-572 | ends a submitted unary call by a reset and touches nothing else |
| ChannelImpl.Impl.CompleteOne | urpc/core/source/urpc_channel.cc:130-146 | each queued message hears the status, in order, then the terminal event with that status, once; the timer stops |
| ChannelImpl.Impl.OpenNow | urpc/core/source/urpc_channel.cc:171-223 | opens with the parked messages and close, or completes when the session refuses |
| ChannelImpl.Impl.StartPendingStreams | urpc/core/source/urpc_channel.cc:225-231 | the loop opens every parked stream in order |
| ChannelImpl.Impl.Open | urpc/core/source/urpc_channel.cc:574-611 | opens, fails or parks a stream, and starts the one connect |
| ChannelImpl.Impl.StreamSend | urpc/core/source/urpc_channel.cc:613-657 | queues and pumps on a live stream, parks on a waiting one; a refused send hears its code at once |
| ChannelImpl.Impl.StreamCloseSend | urpc/core/source/urpc_channel.cc:659-685 | half-close on a live or a waiting stream |
| ChannelImpl.Impl.PumpNow | urpc/core/source/urpc_channel.cc:148-169 | submits the next body when none is in flight |
| ChannelImpl.Impl.OnStreamTimeout | urpc/core/source/urpc_channel.cc:203-217 | resets, completes and erases the stream, with the close reported from inside or not |
| ChannelImpl.Impl.OnHeadersComplete | urpc/core/source/urpc_channel.cc:233-287 | trailers end an open stream with exactly their status, headers that are not HTTP 200 with 14, others not at all; a call completes with the status and its first message |
| ChannelImpl.Impl.OnData | urpc/core/source/urpc_channel.cc:289-318 | decoded messages are delivered in order; a framing error completes the stream or call |
| ChannelImpl.Impl.OnStreamClose | urpc/core/source/urpc_channel.cc:320-342 | completes what had no trailers and cleans both indexes |
| ChannelImpl.Impl.OnConnected | urpc/core/source/urpc_channel.cc:422-448 | submits everything that waited |
| ChannelImpl.Impl.OnConnectFailed | urpc/core/source/urpc_channel.cc:413-420 | fails waiting calls, and waiting calls only |
| ChannelImpl.Impl.OnConnectionLost | urpc/core/source/urpc_channel.cc:451-491 | completes every stream, parked stream, call (in id order) and waiting call |
| ChannelImpl.Impl.AlwaysOrderly | urpc/core/source/urpc_channel.cc:55-128 | between any two tasks every call is in exactly one place and the tables are inverse; every stream keeps its trace, its send order and one answer per send |
| ClientReader.ReadConserves | urpc/api/include/urpc/stream.h:284-299 | reading moves payloads over and loses none |
| ClientReader.ClientStreamState.OnMessage | urpc/api/include/urpc/stream.h:481-486 | returned and queued payloads stay those delivered, in order, one more |
| ClientReader.ClientStreamState.NotifyTerminal | urpc/api/include/urpc/stream.h:78-85 | the terminal status is set and no payload is touched |
| ClientReader.ClientStreamState.Read | urpc/api/include/urpc/stream.h:284-299 | answers the payload after those returned, for as long as one was delivered; end of stream or failure only when every payload delivered has been returned |
| EndToEnd.RunKeeps | urpc/core/source/urpc_channel.cc:233-308 | every step keeps what the client holds equal to the parse of the bytes that arrived, a prefix of what the server accepted |
| EndToEnd.NoSilentTruncation | urpc/core/source/urpc_server.cc:441-530 | for one call by itself, in every run and under every chunking, payloads that `Read` returned are the first accepted ones in order, and an OK end of stream says they are all of them |
| EndToEnd.WholeResponse | urpc/core/source/urpc_channel.cc:233-308 | a response that ended OK and fits the client's limit arrives whole under every chunking, then one OK completion |
| StreamStatus.HeadersEnd | urpc/core/source/urpc_channel.cc:241-257 | a header block ends an open stream with its status, with 14 if it has none and is not HTTP 200, else not at all |
| StreamStatus.DataEnds | urpc/core/source/urpc_channel.cc:289-308 | DATA ends an open stream as 13 or 8 exactly if it cannot be decoded, else delivers the messages it completed |
| StreamStatus.StepGives | urpc/core/source/urpc_channel.cc:233-342 | every step of a call ends it exactly as the table says: trailers with the code of the server's terminal, a failure with its own, undecodable bytes with 13 or 8 |
| StreamStatus.StatusHasCause | urpc/core/source/urpc_channel.cc:233-342 | in every run the status the reader holds, or `Read` fails with, was given by a step: by trailers with the code of the server's terminal, by a failure at the client with that code, or by a framing error |
| StreamStatus.StatusReachesReader | urpc/api/include/urpc/stream.h:78-85 | in every run, once the callbacks have run, the reader holds the status the call was given |
| StreamStatus.StatusIsTheServers | urpc/core/source/urpc_server.cc:480-530 | in every run a status the client does not give of its own accord is the one the response ended with, and a step of the server settled the call with it |
| ChannelEndToEnd.RunKeeps | urpc/core/source/urpc_channel.cc:233-342 | on a channel with any other calls and streams, every step keeps what the client holds a prefix of what the server accepted |
| ChannelEndToEnd.NoSilentTruncation | urpc/api/include/urpc/stream.h:284-299 | from any state a channel reaches, in every run of the whole channel and under every chunking, payloads that `Read` returned are the first accepted ones in order, and an OK end of stream says they are all of them |
| ChannelStatus.ChannelStepEnds | urpc/core/source/urpc_channel.cc:130-342 | in every reachable channel every step ends an open stream exactly as the table says: its trailers with their status, its deadline as 4, its close or a loss as 14, undecodable DATA as 13 or 8, nothing else; an ended stream hears no more |
| ChannelStatus.StepGives | urpc/core/source/urpc_channel.cc:233-342 | the same for a response in transit: trailers give the code of the server's terminal |
| ChannelStatus.StatusHasCause | urpc/core/source/urpc_channel.cc:233-342 | from any state a channel reaches, in every run, the status the reader holds was given by the stream's trailers with the code of the server's terminal, its deadline, its close or a loss, or a framing error |
| UnaryEndToEnd.OneResponseRun | urpc/core/source/urpc_server.cc:289-310 | in every run a unary stream accepts at most one response and ends OK only with it |
| UnaryEndToEnd.RunKeeps | urpc/core/source/urpc_channel.cc:259-342 | every step, of the call or of any other on the channel, keeps it in both tables with the messages of the bytes that arrived, or completed once |
| UnaryEndToEnd.UnaryResponseArrives | urpc/core/source/urpc_channel.cc:259-318 | in every run of a channel a submitted call completes at most once, and OK carries exactly the payload the unary handler responded with |
| UnaryStatus.StepCompletes | urpc/core/source/urpc_channel.cc:259-342 | every step completes a submitted call exactly as the table says, and only once |
| UnaryStatus.CompletionHasCause | urpc/core/source/urpc_channel.cc:259-342 | from any state a channel reaches, in every run, a completion was brought by trailers with the code of the server's terminal and the first message, by the deadline as 4, by a cancellation, close or loss as 14, or by a framing error |
| UnaryStatus.ResponseStands | urpc/core/source/urpc_server.cc:289-310 | in every run a response that finds the call live and unanswered is the whole answer for good: OK with its payload, or its status alone |
| UnaryStatus.HandlerDecides | urpc/core/source/urpc_server.cc:289-310 | in every run, if the handler responded first, a completion by trailers carries exactly its status, and with OK exactly its payload |
| UnaryStatus.TrailersHaveCause | urpc/core/source/urpc_server.cc:230-371 | in every run a completion by trailers carries the status of the step that settled the call on the server |
| RequestEndToEnd.RunKeeps | urpc/core/source/urpc_server.cc:169-201 | every step keeps what the server took off its decoder the parse of the bytes that arrived, a prefix of what the stream took |
| RequestEndToEnd.RequestInOrder | urpc/core/source/urpc_channel.cc:613-657 | in every run messages given to the handler, then unread ones, are the first that StreamSend took, in order, unless one was discarded |
| RequestEndToEnd.RequestEndsExactly | urpc/core/source/urpc_server.cc:265-287 | in every run an OK end of stream finds every message delivered if and only if each fits the limit and none was discarded; always so on a call not yet responded to |
| Shutdown.InvRun | urpc/core/source/urpc_server.cc:706-775 | every interleaving keeps listener, connections, grace timer and drained flag consistent |
| Shutdown.DrainIsSafe | urpc/core/source/urpc_server.cc:706-775 | in every run the listener is closed at most once, and drained means no connection and not listening |
| Shutdown.NoNewConnections | urpc/core/source/urpc_server.cc:816-832 | once the server has stopped listening its connection set stays empty in every continuation |
| Shutdown.TrafficExactly | urpc/core/source/urpc_server.cc:816-840 | starting decides whether the server listens; an accepted connection is open and one a drain would not wait for; call traffic changes that for its own connection only |
| Shutdown.ShutdownCompletes | urpc/core/source/urpc_server.cc:866-908 | in every interleaving, once the drain task, the grace timer and the close callback have had their turn, the server is drained, deaf and empty, or the loop thread hangs |
| Shutdown.DrainedEarlyExactly | urpc/core/source/urpc_server.cc:736-771 | `drained` precedes the close callback exactly when the grace timer fires between the listener's close and that callback |
| Shutdown.DrainedEarlyHappens | urpc/core/source/urpc_server.cc:860-865 | a run in which it does |
| Shutdown.DrainHangsExactly | urpc/core/source/urpc_server.cc:866-907 | the drain task re-locks its mutex exactly when it finds the listener closed |
| Shutdown.DrainHangHappens | urpc/core/source/urpc_server.cc:866-907 | a run of a server that started in which it does |
| Shutdown.Impl.ConnIdle | urpc/core/source/urpc_server.cc:706-734 | drops ended connections in place; the last one during shutdown closes the listener |
| Shutdown.Impl.OnReadEnd | urpc/core/source/urpc_server.cc:785-794 | exactly that connection leaves the set, and the listener is closed exactly if it was the last of a server shutting down |
| Shutdown.Impl.RequestShutdown | urpc/core/source/urpc_server.cc:849-866 | the drain task is posted by the first request after the start and by no other |
| Shutdown.Impl.Drain | urpc/core/source/urpc_server.cc:866-907 | exactly the busy connections stay and are waited for; with none the listener is closed, or the thread hangs if it already was |
| Shutdown.Impl.OnGrace | urpc/core/source/urpc_server.cc:736-775 | no connection is left, the listener has been closed once, and drained is early exactly if the close callback was due |

## Left out

- EndToEnd.NoSilentTruncation: holds for payloads shorter than 2^32 bytes, because `EncodeFrame` cuts longer lengths; `Codec.FrameRoundTrip` says exactly which frames survive.
- ChannelEndToEnd.NoSilentTruncation: the same bound on payloads, for the same reason.
- UnaryEndToEnd.UnaryResponseArrives: the same bound on payloads, for the same reason.
- RequestEndToEnd.RequestInOrder: the same bound on payloads, for the same reason.
- RequestEndToEnd.RequestEndsExactly: speaks of streams that took no message after closing; `ClientStream.EndStreamExactly` says what happens to the others.
- ServerConn.Conn.OnData: user callbacks inside one DATA event are recorded, not run, by the method; the per-stream machine of `Server.dfy` lets handlers act at each of them.
- Decoder objects inside calls and streams: the tables hold the decoder's value and use `Feed`, which `FrameDecoder.Consume` is proved to compute.
- nghttp2 (HPACK, flow-control windows, submission errors) and libuv: an environment that delivers in order, and whose callbacks other than close do not run inside a send.
- User code that runs inside a stream-close callback of `nghttp2_session_send` and submits again: the session model has no such re-entry.
- upb encoding and decoding, arenas, typed message classes, decode and encode failures: payloads are byte strings.
- `Router`: a map from path to handler, represented by what it answers for a path; its copy-on-write has no effect on a call.
- Address parsing, thread start and stop, `LoopRunner::Stop`: operating-system plumbing with no state that the machines read.
- Status messages, paths, header fields, logging: statuses are codes, and a `grpc-status` that is no number arrives as INTERNAL.
- UnaryStatus.HandlerDecides: the payload for responses shorter than 2^32 bytes, because `EncodeFrame` cuts longer lengths.
- Cancel-callback registration lists and `TimeRemainingMs`: cancel callbacks appear as points where user code may act.
- The blocking typed `ClientWriter`: it waits on one StreamSend callback at a time, which `ChannelStreams.FlushesConserved` describes.
- StreamSend on a stream the channel does not know, or that has completed: it is told UNAVAILABLE at once and changes nothing.
- Request bytes of unary calls on the client, and changes of the receive limit while calls are open.
- Memory lifetime, for example deadline timers that outlive a lost connection.
- The mutex that `Shutdown`'s drain task locks twice: undefined in C++, modelled as a loop thread that takes no further step.
- Real time: timers fire at any moment while armed.
