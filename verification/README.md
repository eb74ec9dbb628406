# Verified model of the qhttp connection core

This project models the parts of the server that keep state across messages, polls and buffers, and proves what they
promise. It covers

* the HTTP/2 connection: the main loop of the connection task, one task per stream, the request body reader of each
  stream, and the channels between them, as one transition system (flow control and stream lifecycle of RFC 7540);
* the chunked transfer coding of HTTP/1 (section 4.1 of RFC 7230): the resumable writer and the resumable reader,
  each against a reference coder, and the pair of them end to end;
* the HTTP/2 frame codec, the buffered frame reader, the SETTINGS payload and the fragmentation of header blocks;
* the byte scanners and the header parser of HTTP/1, and the loop that reads the header lines;
* the two-pointer buffer, the hand-over of body bytes between buffers, and the length-limited reader;
* the path template parser.

Code that updates fields in place is a class here (`Connection`, `Stream`, `Reader`, `ChunkedWriter`, `ChunkedReader`,
`LimitReader`, `Buffer`, `Request`, `SettingsCell`), with its loops and branches, and each method is proved equal to a
function on values; the theorems are about those functions, over all runs.

## How to read it

| part | files |
|---|---|
| shared | `Basics`, `Seqs`, `Runs`, `Polling`, `BigEndian` |
| HTTP/2 connection: functions | `H2Errors`, `Settings`, `H2Types`, `ConnSpec`, `StreamSpec`, `System` |
| HTTP/2 connection: proofs | `Conservation`, `PerStream`, `TaskSteps`, `StreamRuns`, `Credits`, `RequestRuns`, `FlowTheorems`, `WireRuns`, `Guards`, `TaskRuns`, `FlowLimits` |
| HTTP/2 connection: objects | `Connection`, `StreamTask`, `BackgroundRead` |
| chunked coding | `Parse`, `ChunkHeader`, `ChunkedCoding`, `ChunkedWriter`, `ChunkedReader`, `ChunkedPair`, `Spelling`, `LimitReader` |
| HTTP/1 headers and bodies | `HeaderFraming`, `HeaderContent`, `HeaderLines`, `Buffer`, `Http1Body` |
| frames | `Frames`, `FrameReader`, `SettingsCodec`, `TypedFrames`, `HeaderBlocks` |
| paths | `PathParser` |

`FlowTheorems`, `RequestRuns`, `WireRuns`, `Guards`, `TaskRuns`, `ChunkedPair`, `Spelling` and `HeaderContent` hold the main
results.

### Modelling decisions

* **Channels and schedules.** A channel is a sequence. `System.Step` is one step of one task; a run is any list of
  enabled steps, so the theorems hold for every interleaving. A frame that arrives is one step. A connection error ends
  the run (`Ended` carries the id and the code of the GOAWAY frame).
* **Streams.** Tasks are numbered in the order they are spawned. HEADERS for an id that still has a handle replaces the
  handle, as `src/http2/mod.rs:613-630` does. The balances of the whole connection hold in all runs; what is said about
  a single stream holds for every task that is alone with its id, whatever happens to other ids.
  `FlowTheorems.AloneUntilReused` says when a task stops being alone, and `FlowLimits.ReuseStallsStream` is a run that
  shows why it matters. Likewise a mailbox records whether a change ever lowered the limit of its stream, and
  `FlowLimits.LoweringOverrunsLimit` shows that the limit then can be exceeded; `FlowTheorems.SentWithinLimit` says
  exactly when it is.
* **Header blocks.** HEADERS carries the outcome of collecting its block and of reading a request out of it. How the
  block is collected is in `HeaderBlocks` and `Connection`.
* **Request bodies.** A send into the channel of a request body can fail only after the handler dropped the body.
* **History.** Some fields of the states exist for the theorems only: bytes lost with finished tasks, increments,
  everything written, everything produced. No step reads them.
* **The world below.** What a sink, a source or the network does is a list of answers (`Polling.Answer`): move up to so
  many bytes, not ready, or fail. Every theorem quantifies over these lists. A sink that accepts zero bytes of a
  non-empty write, on which the write loops would spin, has no answer here.
* **Code that decides.** Where comments in the source say otherwise the code counts: unknown frame types and repeated
  settings are connection errors, an extension of a chunk header is never accepted, a received RST_STREAM changes nothing.

## Model

| member | source | states |
|---|---|---|
| FlowTheorems.DataWithinGrant | src/http2/mod.rs:393-403 | global window, window in both channels, window held by streams, DATA queued and written, and window lost with finished tasks add up to 65535 plus all stream-0 increments in every reachable state; so the global window is never negative and DATA never exceeds what the peer granted |
| FlowTheorems.CreditWithinWindow | src/http2/mod.rs:475-494 | connection receive window plus every body byte that is not credited yet, wherever it is, plus lost bytes is the configured window in every reachable state, so the receive window stays between 0 and that |
| FlowTheorems.CreditNeverOverflows | src/http2/mod.rs:404-441 | crediting back body bytes always succeeds: its overflow branch is unreachable |
| FlowTheorems.StreamCreditWithinWindow | src/http2/stream.rs:471-547 | the same balance for each stream task, and taking a credit never fails |
| FlowTheorems.OpenStreamsCounted | src/http2/mod.rs:442-463 | `open_streams` counts exactly the spawned tasks whose closing was not processed; it respects the maximum and never underflows |
| FlowTheorems.StreamIds | src/http2/mod.rs:502-521 | ids are odd, at most the biggest, the biggest was opened, a run strictly increases them if and only if it never reuses the id of a stored handle, and the final GOAWAY names the biggest, or the id whose opening overflowed the open count |
| FlowTheorems.GoAwayNamesBiggest | src/http2/mod.rs:268-293 | whatever ends the connection, refused HEADERS included, names the biggest opened id; only a HEADERS frame that overflows the count of open streams names its own |
| FlowTheorems.DrainingOpensNothing | src/http2/mod.rs:320-338 | after a graceful shutdown began no continuation of the run opens a stream, and the loop goes on only while one is open |
| FlowTheorems.LastCloseEndsLoop | src/http2/mod.rs:442-458 | the closing of the last stream ends a draining connection, with or without an error, and only a connection error passes its code on |
| FlowTheorems.AloneUntilReused | src/http2/mod.rs:613-630 | a task stops being alone with its id in exactly one way: HEADERS for that id while a handle is stored under it |
| FlowTheorems.NoFalseStall | src/http2/stream.rs:387-453 | a stream alone with its id that waits for window, with no request for window on its way from it and no window on its way to it, has used up its own window, or the global one is used up, whatever else is in flight |
| FlowTheorems.NoLostReservation | src/http2/stream.rs:387-453 | inside the send loop the unsent bytes equal what is still to ask for plus everything asked for that is in flight plus what is granted; the granted window stays within 0 and 16384; between chunks all of it is zero |
| FlowTheorems.SentWithinLimit | src/http2/stream.rs:398-406 | window left, changes in flight and everything ever reserved add up to the peer's current initial window plus its increments, across all SETTINGS; what is sent never exceeds what was reserved nor the highest limit ever given to the stream, which is the current one unless a change lowered it; and it stays within the current limit if and only if the window to come, with what is reserved and not sent, is not negative |
| FlowTheorems.WrittenInOrder | src/http2/mod.rs:385-392 | what the connection wrote for a stream, followed by what is queued, is exactly what its task emitted |
| FlowTheorems.ResponseDelivered | src/http2/stream.rs:350-461 | when the task of a stream ended without error and its frames were written, the peer got HEADERS, then DATA of 1 to 16384 bytes that concatenate to what the body reader produced, and END_STREAM on exactly the last frame |
| RequestRuns.RequestBodyInOrder | src/http2/stream.rs:504-547 | in every run what the handler read is the beginning of the DATA the peer sent on its stream; while the body is in use nothing of it is missing: read, in hand, queued and in the mailbox make up all of it, in order |
| RequestRuns.CreditedInOrder | src/http2/mod.rs:1143-1252 | in every run the increments written for a stream, those on their way, those waiting, the chunk in hand and the queue are, as a multiset, among the lengths of the non-empty DATA chunks, so no chunk is credited twice; while the stream task runs they and the mailbox are all of these lengths, so each chunk is credited once and in full; and they are so in order too, unless a chunk came back from a dropped body, which is credited ahead of what waits |
| RequestRuns.EveryStepRequests | src/http2/stream.rs:471-547 | every enabled step keeps both for each stream alone with its id |
| WireRuns.PeerWindowOnWire | src/http2/mod.rs:404-441 | in every run the receive window of the connection is the configured one, less all DATA that came in, plus the increments written on stream 0: the window that the peer works out from the wire |
| WireRuns.ResetsOnWire | src/http2/mod.rs:725-768 | in every run the RST_STREAM frames written are, one for one, in order and with their codes, those for refused HEADERS, failing header blocks, stream tasks that ended with an error, and WINDOW_UPDATE for tasks that are gone |
| WireRuns.ResetReachesStream | src/http2/mod.rs:725-768 | a stream that is reset is told last of all and its handle marked, or its handle removed if the task is gone; no other mailbox changes |
| WireRuns.DeadStreamForgotten | src/http2/mod.rs:692-715 | WINDOW_UPDATE for a task that is gone removes its handle |
| WireRuns.SettingsAnswered | src/http2/mod.rs:643-665 | in every run each SETTINGS frame is acknowledged once, in order, and each shutdown announced once |
| WireRuns.EveryStepExplained | src/http2/mod.rs:311-720 | every step changes the receive window by what comes in and what it gives back, and writes exactly the resets and settings it has a reason for |
| Guards.DistributeFails | src/http2/mod.rs:770-824 | handing out window fails if and only if, with window left, it reaches a request of a stream whose handle is stored but whose task is gone |
| Guards.GetWindowServed | src/http2/mod.rs:393-397 | in every reachable state a request for window is taken, unless window is left and the task that asked is gone |
| Guards.PutWindowServed | src/http2/mod.rs:398-403 | returned window is taken unless the sum overflows or it reaches such a request |
| Guards.ClosingServed | src/http2/mod.rs:442-463 | when a closing ends the connection, with which code, and that the count goes down otherwise |
| Guards.OthersServed | src/http2/mod.rs:385-392 | frames, responses, credits and the last message of a task are always taken, and the last message removes the handle |
| Guards.StartsEmpty | src/http2/mod.rs:180-240 | the windows and settings a connection starts with |
| Guards.HeadersOpen | src/http2/mod.rs:495-631 | in every reachable state HEADERS open a stream if and only if the id may be opened, a request was read and there is room; and the windows, the mailbox, the handle and the counts it starts with |
| Guards.HeadersEnd | src/http2/mod.rs:495-557 | HEADERS end the connection on an id that may not be opened and on a broken block, with which code |
| Guards.HeadersRefused | src/http2/mod.rs:559-598 | HEADERS that are refused open nothing and go on, unless their block held a connection error |
| Guards.HeadersNoRoom | src/http2/mod.rs:598-612 | a stream that cannot be counted or given its window ends the connection, with which code and stream id |
| Guards.DataTaken | src/http2/mod.rs:475-494 | DATA are taken if and only if the stream is known and alive and the window holds them, and are then the last message to its task; otherwise with which code the connection ends |
| Guards.SettingsTaken | src/http2/mod.rs:643-665 | SETTINGS with allowed values, while no stored task is gone, change exactly their fields, and tell each stored task the change of its window |
| Guards.SettingsRefused | src/http2/mod.rs:643-665 | with which code SETTINGS with other values end the connection |
| Guards.SettingsForDead | src/http2/mod.rs:643-665 | SETTINGS end the connection while a stored task is gone |
| Guards.GlobalUpdateTaken | src/http2/mod.rs:692-715 | WINDOW_UPDATE on stream 0 is taken unless the sum overflows or it reaches a request of a task that is gone |
| Guards.StreamUpdateTaken | src/http2/mod.rs:692-715 | WINDOW_UPDATE on another stream is always taken, and is the last message to its task alone |
| Guards.ShutdownTaken | src/http2/mod.rs:320-338 | a shutdown ends an idle connection and lets any other drain |
| TaskRuns.LeavesOn | src/http2/stream.rs:502-581 | a stream task leaves on a message if and only if that is a reset, DATA it cannot take, or window that overflows, each with its error |
| TaskRuns.GrantsFit | src/http2/stream.rs:549-562 | window granted to a stream alone with its id never overflows |
| TaskRuns.TaskListens | src/http2/stream.rs:463-500 | a waiting task takes every message and every credit |
| TaskRuns.TaskMoves | src/http2/stream.rs:387-453 | a task that does not wait has a next step until it is done |
| TaskRuns.BodyInUse | src/http2/mod.rs:1143-1222 | a body in use can be polled, and dropped with what it has in hand |
| TaskRuns.BodyDropped | src/http2/mod.rs:1216-1252 | a dropped body is drained chunk by chunk, each credited by its length |
| TaskRuns.WindsDown | src/http2/stream.rs:133-181 | a task that left is done four steps later: its window is returned, then its closing with its error, then its end, and its channels are gone |
| TaskRuns.RespondsAsTold | src/http2/stream.rs:350-461 | in every run the body a task sends is that of the handler's chunks, HEADERS promise one if and only if the handler gave one, the task ends without error if and only if it was told the end, and a failing handler is a stream error |
| TaskRuns.ResponseAsGiven | src/http2/stream.rs:350-461 | once the handler ended its response and all was written, the peer got it complete: with a body if and only if one was given, and exactly its bytes |
| FlowLimits.ReuseStallsStream | src/http2/mod.rs:613-630 | a run with a reused id after which the first stream of that id waits although nothing is in flight and both windows are open |
| FlowLimits.LoweringOverrunsLimit | src/http2/mod.rs:643-665 | a run in which the peer lowers its initial window and a stream then exceeds the current limit with bytes it had reserved before |
| Conservation.EveryStepKeeps | src/http2/mod.rs:311-720 | every enabled step keeps the well-formedness of the state and each of the three balances (send window, body credit, open streams) |
| Conservation.Conserved | src/http2/mod.rs:295-720 | so do all runs |
| Conservation.DistributeKeeps | src/http2/mod.rs:770-824 | handing out window moves it between the connection and the channels without loss and ends with no window or no request left |
| PerStream.DistributeInOrder | src/http2/mod.rs:770-824 | what is served and what is left make up the requests in their order, only the last one served may be served in part; each mailbox gets exactly the grants of its served requests in that order, requests of streams without a handle get none, and the window goes down by the sum of the grants |
| PerStream.DistributeEffect | src/http2/mod.rs:770-824 | what is owed to each stream, waiting or granted, is unchanged |
| StreamRuns.EveryStepRuns | src/http2/stream.rs:350-581 | every enabled step keeps the invariant of each stream alone with its id (reservations, limits, written frames), and what is said about ids |
| Credits.CreditsHold | src/http2/stream.rs:471-490 | every run keeps the receive balance of each stream and the count of open streams within its maximum |
| Connection.Connection.DistributeWindow | src/http2/mod.rs:770-824 | the loop over pending requests terminates and does what the specification function says, also when a stream is gone |
| Connection.Connection.ServeFirst | src/http2/mod.rs:780-820 | one round: the oldest request is dropped, served, or served in part |
| Connection.Connection.UpdateGlobalWindow | src/http2/mod.rs:827-837 | checked addition to the global window |
| Connection.Connection.HandlePossibleStreamError | src/http2/mod.rs:725-768 | a stream error resets the stream and informs its task; a connection error is passed on |
| Connection.Connection.OnDataFrame | src/http2/mod.rs:475-494 | DATA is refused beyond the window, charged and passed to its stream |
| Connection.Connection.OnHeadersFrame | src/http2/mod.rs:495-631 | id checks, the header block out of this and the following frames, and then the refusal or the opening of a stream |
| Connection.Connection.ReadHeaderBlock | src/http2/mod.rs:523-557 | the loop over CONTINUATION frames into the bounded header buffer |
| Connection.Connection.OpenOrRefuse | src/http2/mod.rs:559-630 | refusal of streams, and the opening of one with its windows |
| Connection.Connection.UpdateStreamWindows | src/http2/mod.rs:651-655 | the change of the initial window reaches every stored stream |
| Connection.Connection.OnSettingsFrame | src/http2/mod.rs:643-665 | settings are applied, every stream is re-based, and the frame is acknowledged |
| Connection.Connection.OnWindowUpdateFrame | src/http2/mod.rs:692-715 | an increment goes to the global window or to its stream |
| Connection.Connection.OnStreamClosingReq | src/http2/mod.rs:442-463 | error handling, the open count and the end of a draining connection |
| Connection.Connection.OnUpdatePeerWindowReq | src/http2/mod.rs:404-441 | both receive windows are raised and announced |
| Connection.Connection.OnShutdownSignal | src/http2/mod.rs:320-338 | ends an idle connection, else announces that no more streams are wanted |
| Connection.Connection.OnConnectionReq | src/http2/mod.rs:379-470 | all requests of the stream tasks |
| StreamTask.PumpOnce | src/http2/stream.rs:387-453 | however often the inner send loop turns, it asks once for all that its window allows and sends once all that is granted |
| StreamTask.Stream.HandleStreamReq | src/http2/stream.rs:502-581 | data, granted window, window changes and resets |
| StreamTask.Stream.TakeBodyCredit | src/http2/stream.rs:471-490 | the receive window of the stream is raised and the credit passed on |
| StreamTask.Stream.OnChunk | src/http2/stream.rs:359-387 | a chunk is loaded into the buffer, an empty one ends the body with END_STREAM |
| StreamTask.Stream.Reserve | src/http2/stream.rs:396-416 | a reservation takes no more than is needed and than the window holds |
| StreamTask.Stream.SendData | src/http2/stream.rs:418-447 | DATA of at most the granted window leaves the buffer from its front |
| StreamTask.Stream.SendLoop | src/http2/stream.rs:387-453 | the inner loop terminates and equals its specification |
| StreamTask.Stream.Finish | src/http2/stream.rs:143-181 | leftover window is returned, then closing and closed are announced |
| BackgroundRead.PollInOrder | src/http2/mod.rs:1143-1215 | polls of the body reader hand out the queued bytes in order, at most as many as there is room for, and lose none |
| BackgroundRead.PollProgress | src/http2/mod.rs:1143-1214 | a poll hands out all there is room for of the chunk in hand, or of the next one, or drops an empty one; it is idle only when nothing is there |
| BackgroundRead.Reader.PollRead | src/http2/mod.rs:1143-1215 | the poll, with a used-up chunk credited by its full length exactly once |
| BackgroundRead.Reader.Drop | src/http2/mod.rs:1217-1252 | dropping the reader credits the chunk in hand and drains and credits all others |
| Settings.Apply | src/http2/settings.rs:49-73 | which frames are accepted, and that the returned difference is the change of the initial window |
| Settings.FieldByField | src/http2/settings.rs:49-73 | an accepted frame changes exactly the fields it has, and which check refuses it with which code |
| Settings.Defaults | src/http2/settings.rs:34-47 | the initial values are those of section 6.5.2 of RFC 7540 |
| Settings.SettingsCell.ApplySettingsFrame | src/http2/settings.rs:49-73 | the mutable settings follow the function, also where a frame fails half way |
| Settings.DifferencesTelescope | src/http2/settings.rs:49-73 | over any list of accepted frames the returned differences add up to the total change |
| ChunkedPair.RoundTrip | src/response.rs:43-218 | whatever is written in whatever pieces through whatever sink and, once a shutdown completed, read from whatever source: nothing else comes out, the end comes exactly after the last byte and stays, what follows is left on the wire, nothing fails unless the source does, and each turn before the end brings a byte |
| ChunkedPair.DecodeEncoded | src/request.rs:559-602 | the reference decoder undoes the reference encoder and stops right behind it |
| ChunkedPair.ChunkReads | src/response.rs:159-167 | one encoded chunk decodes to its bytes |
| ChunkedWriter.EncodesWrites | src/response.rs:43-218 | in every run the sink holds a prefix of the encoding of the reported bytes in chunks of 1 to size - 2 bytes, and after a completed shutdown exactly that encoding and one last chunk |
| ChunkedWriter.OpenUntilShutdown | src/response.rs:52-82 | no run of writes closes the writer |
| ChunkedWriter.FreshTakes | src/response.rs:52-82 | a fresh writer takes what its buffer holds at once |
| ChunkedWriter.WriteKeeps | src/response.rs:52-82 | a write takes exactly the bytes it reports, at least one if offered any, none when pending or failing, and keeps the framing |
| ChunkedWriter.FlushKeeps | src/response.rs:84-104 | a flush of a non-empty chunk keeps the framing wherever it stops |
| ChunkedWriter.ShutdownKeeps | src/response.rs:182-217 | shutdown keeps the framing wherever it stops and completes once |
| ChunkedWriter.ShutdownCompletes | src/response.rs:182-217 | over a sink that keeps taking bytes one poll completes it |
| ChunkedWriter.FlushSafe | src/response.rs:84-104 | an explicit flush keeps the framing for all sinks if and only if something is buffered or the writer is finished |
| ChunkedWriter.WriteStops | src/response.rs:52-82 | a write waits only for the sink, and fails only with it or after a shutdown began |
| ChunkedWriter.ShutdownStops | src/response.rs:182-217 | a shutdown waits only for the sink, and fails only with it or once it was completed |
| ChunkedWriter.FlushesSink | src/response.rs:84-104 | neither a flush nor a shutdown completes before the sink flushed what was written |
| ChunkedWriter.ChunkedWriter.SendHeader | src/response.rs:106-130 | the resumable loop over the chunk header |
| ChunkedWriter.ChunkedWriter.SendBody | src/response.rs:132-157 | the resumable loop over the chunk body |
| ChunkedWriter.ChunkedWriter.BeginChunk | src/response.rs:159-167 | size line and the line end in the two spare bytes of the buffer |
| ChunkedWriter.ChunkedWriter.Flush | src/response.rs:84-104 | `flush_inner` on the array equals its function |
| ChunkedWriter.ChunkedWriter.Write | src/response.rs:52-82 | `write_inner` on the array equals its function |
| ChunkedWriter.ChunkedWriter.Shutdown | src/response.rs:182-217 | `shutdown_inner` on the array equals its function |
| ChunkedReader.DecodesSource | src/request.rs:465-731 | in every run, in builds with and without overflow checks, the output is a prefix of the decoded body; the end is told only when it is all of it, with exactly its encoding taken from the source, and again on every later poll; a reliable source fails the reader only with bytes the reference decoder refuses, and with an overflow only at a size too long for the build |
| ChunkedReader.BuildsDecode | src/parse.rs:567-597 | both builds decode the same if and only if no size line needs more than 16 digits |
| ChunkedReader.BuildsAgree | src/request.rs:711-730 | in every run both builds answer every poll alike until a size overflows, and so always if no size line needs more than 16 digits |
| ChunkedPair.LongSizeDiffers | src/parse.rs:567-597 | a size of 17 digits is refused by a build with overflow checks, and read by one without as the value of the last 16 plus the first |
| Spelling.DigitValue | src/parse.rs:543-565 | the value of a digit is its place among 0 to 9, a to f in either case, and nothing else is a digit |
| Spelling.SizesParse | src/parse.rs:567-597 | up to 16 digits parse to a number if and only if they spell it, in either case and with any zeros in front |
| Spelling.SpelledDecodes | src/request.rs:465-731 | a chunked body decodes to its data whatever the spelling of its sizes |
| Spelling.DecodesExactly | src/request.rs:465-731 | the reference decoder accepts exactly the chunked bodies without extensions and trailers, in every spelling, and decodes each to its data |
| ChunkedReader.PollRefines | src/request.rs:711-730 | one poll hands out the next bytes and leaves the rest to decode, whatever state it starts in |
| ChunkedReader.ReadDataRefines | src/request.rs:505-550 | the same while chunk data is read |
| ChunkedReader.ReadHeaderRefines | src/request.rs:552-609 | the same across a chunk header |
| ChunkedReader.ReadChunkDataRefines | src/request.rs:627-673 | the same across the end of a chunk |
| ChunkedReader.ReadTerminatorRefines | src/request.rs:675-707 | the same at the end of the body |
| ChunkedReader.FoundAtEnd | src/request.rs:465-503 | bytes are read one at a time, so the buffer never holds more than the header |
| ChunkedReader.EndStays | src/request.rs:675-707 | after the end every poll tells it again without touching the source |
| ChunkedReader.WaitsForSource | src/request.rs:711-730 | a poll is pending only when the source is |
| ChunkedReader.ChunkedReader.ReadToBuffer | src/request.rs:465-503 | one byte more in the header buffer, or why not |
| ChunkedReader.ChunkedReader.HeaderPoll | src/request.rs:552-609 | `read_chunk_header` equals its function |
| ChunkedReader.ChunkedReader.ChunkDataPoll | src/request.rs:627-673 | `read_chunk_data` equals its function |
| ChunkedReader.ChunkedReader.Poll | src/request.rs:711-730 | `poll_read` equals its function |
| LimitReader.FirstBytes | src/request.rs:334-396 | in every run the output is the first bytes of the source, never more than the limit, nothing else is taken, and the end is told only at the limit or at the end of the source |
| LimitReader.PollAnswers | src/request.rs:334-396 | a poll waits and fails only with the source, and hands out what it gives within the limit |
| LimitReader.LimitReader.Poll | src/request.rs:334-396 | `poll_read` with both of its branches |
| ChunkHeader.FindChunkHeaderEnd | src/parse.rs:304-355 | the scanner for chunk headers |
| ChunkHeader.HeaderAccepts | src/parse.rs:304-355 | it accepts exactly digits followed by CR NL |
| ChunkHeader.ExtensionNeverFound | src/parse.rs:357-394 | the scanner for extensions never accepts one |
| ChunkHeader.ExtensionAnswers | src/parse.rs:357-394 | it asks for more exactly while all of it is one name |
| ChunkHeader.HeaderTailOnline | src/parse.rs:304-355 | once it answered, more input does not change the answer |
| ChunkHeader.MoreHelps | src/parse.rs:304-355 | it asks for more only where more bytes can complete the header, or behind a semicolon |
| ChunkHeader.ParseHexDigits | src/parse.rs:567-597 | the value of the digits, computed from the last one on: exact within 64 bits for up to 16 of them; beyond, a build with overflow checks aborts unless a bad digit comes first, and one without adds up the blocks of 16 digits modulo 2^64 |
| ChunkHeader.ParsePrinted | src/parse.rs:567-597 | parsing undoes lower-case printing in both builds exactly for the values below 2^64; beyond, one gives nothing and the other another number |
| Parse.FindStartLineEnd | src/parse.rs:94-114 | the end of a start line is behind its first CR NL, with no CR before |
| Parse.StartLineOnline | src/parse.rs:94-114 | its answer is final |
| Parse.StartLineFrom | src/parse.rs:94-114 | which inputs it refuses and for which it asks for more |
| Parse.FindHeaderEnd | src/parse.rs:116-147 | the scanner for header lines with folds |
| Parse.HeaderOnline | src/parse.rs:116-147 | its answer is final |
| Parse.FindLwsEnd | src/parse.rs:149-182 | the scanner for one fold |
| Parse.FindMultiLwsEnd | src/parse.rs:184-205 | the scanner for any number of folds |
| Parse.MultiLwsOnline | src/parse.rs:184-205 | its answer is final |
| Parse.FindRunEnd | src/parse.rs:207-259 | the scanners for text, tokens and digits stop at the first byte outside the class |
| Parse.ByteClasses | src/parse.rs:32-60 | the bytes of text, digits and spaces |
| Parse.TokenBytes | src/parse.rs:62-79 | the bytes of tokens: letters, digits and fifteen marks |
| HeaderFraming.ParseRequestHeader | src/parse.rs:460-541 | the header parser equals its function |
| HeaderContent.ParsesExactly | src/parse.rs:460-541 | the parser accepts exactly the lines of an accepted name, a colon, and accepted texts between spaces, tabs and folds, and returns exactly this name and these texts |
| HeaderFraming.LinesFound | src/parse.rs:116-147 | the scanner finds exactly the lines that end with a CR NL before something that is no fold, and in which every other CR begins a fold |
| HeaderFraming.LinesRefused | src/parse.rs:116-147 | it refuses exactly the lines with another CR |
| HeaderFraming.StopsAtLineEnd | src/parse.rs:460-541 | on a line the scanner found and the parser accepts, the parser stops right at the line end over any number of folds if and only if no NL in it lacks its CR; otherwise it stops earlier |
| HeaderFraming.ParseLocal | src/parse.rs:460-541 | what follows the line changes nothing for the parser |
| HeaderLines.LoopRefines | src/lib.rs:760-803 | however the bytes arrive, the header loop ends with the headers of the reference reading and leaves exactly what follows the empty line; it refuses or misses the end only where the reference does |
| HeaderLines.SameForAllSegmentations | src/lib.rs:760-803 | two complete runs over the same bytes agree on headers and rest |
| HeaderLines.LoopWaits | src/lib.rs:760-803 | the loop waits only where the source does |
| HeaderLines.Request.ReadHeaders | src/lib.rs:760-803 | the loop over the buffer equals its function |
| Buffer.FirstInFirstOut | src/buffer.rs:217-262 | over every sequence of reads and writes, what came out followed by the content is what went in, within the capacity |
| Buffer.Buffer.Rotate | src/buffer.rs:158-178 | moving the unread bytes to the front keeps them |
| Buffer.Buffer.SetCapacity | src/buffer.rs:110-118 | an empty buffer of the new capacity, reusing the array if it fits |
| Buffer.Buffer.Progress | src/buffer.rs:180-191 | the read pointer never passes the write pointer |
| Buffer.Buffer.ProgressWrite | src/buffer.rs:193-206 | bytes behind the write pointer become readable, up to the capacity |
| Buffer.Buffer.AvailableForWrite | src/buffer.rs:212-214 | readable and writable bytes make up the capacity |
| Buffer.Buffer.Read | src/buffer.rs:217-238 | takes from the front as much as fits |
| Buffer.Buffer.Write | src/buffer.rs:240-262 | appends as much as fits |
| Http1Body.Connection.HandleBackgroundRead | src/lib.rs:808-906 | a body read gets as many bytes as were asked for and have room, or all there are, in wire order, and all others stay queued in order; a failure is that of the read, and drops the body buffer with exactly the bytes the own buffer held |
| Http1Body.Connection.ReadIntoBuffer | src/lib.rs:1087-1089 | what arrives is appended and nothing is lost |
| Frames.ReadWrittenFrame | src/http2/mod.rs:910-928 | a written frame is read back unchanged, using exactly its bytes, if and only if it is well formed and its payload fits the buffer |
| Frames.TooLong | src/http2/mod.rs:880-898 | a longer payload is refused whatever follows |
| Frames.WireLayout | src/http2/mod.rs:910-928 | length, type, flags, stream id and payload stand where section 4.1 of RFC 7540 puts them, most significant byte first |
| Frames.FlagsOfBits | src/http2/frame.rs:20-28 | flags survive their bit representation |
| Frames.TypeOf | src/http2/frame.rs:5-18 | exactly the ten codes are known |
| Frames.TypeCodes | src/http2/frame.rs:5-18 | the code of each type is the one of section 11.2 of RFC 7540 |
| Frames.FlagBits | src/http2/frame.rs:20-28 | each flag has the bit that section 6 of RFC 7540 gives it |
| Frames.UnknownBits | src/http2/frame.rs:20-28 | the other four bits are ignored |
| Frames.HeaderRules | src/http2/frame.rs:762-873 | a frame header is accepted if and only if type, stream and size are right, and which error it is otherwise |
| Frames.PaddingCut | src/http2/frame.rs:716-752 | length of the padding, data and padding are read as the data |
| Frames.PaddingFits | src/http2/frame.rs:716-752 | no other payload of a padded frame is read, and which error it is |
| FrameReader.ReadsFirst | src/http2/mod.rs:863-908 | however the bytes arrive, an uninterrupted read returns the first frame of all of them and leaves the rest, or fails with the error of the reference |
| FrameReader.WaitsForPeer | src/http2/mod.rs:863-908 | a call waits only where the peer does |
| FrameReader.FramesRoundTrip | src/http2/mod.rs:863-928 | well-formed frames written one after the other come back unchanged and in order in whatever pieces the bytes arrive |
| FrameReader.TooLongNeverRead | src/http2/mod.rs:880-898 | a payload beyond the buffer is never returned, and refused unless the peer goes silent |
| FrameReader.WaitsWithRoom | src/http2/mod.rs:880-898 | a payload that does not fit is refused as soon as the buffer is full, without waiting |
| FrameReader.Connection.ReadNextFrame | src/http2/mod.rs:863-908 | the two read loops over the buffer equal their function |
| FrameReader.Connection.WriteFrame | src/http2/mod.rs:910-928 | the written bytes |
| TypedFrames.TypedRoundTrip | src/http2/frame.rs:82-704 | converting to a frame and back gives the same typed frame exactly for the canonical ones (for instance no priority on HEADERS, a known error code, 31-bit ids) |
| TypedFrames.WireRoundTrip | src/http2/frame.rs:715-752 | the same through the wire bytes, whatever follows |
| TypedFrames.StaysWithinPayload | src/http2/frame.rs:140-178 | for frames with a checked header the conversion stays within the payload, except exactly for HEADERS with padding and priority and fewer than 13 bytes left |
| TypedFrames.PayloadNeeded | src/http2/frame.rs:82-704 | for any frame, exactly when the conversion would leave the payload |
| TypedFrames.FramesRefused | src/http2/frame.rs:82-704 | which frames the conversion refuses, and with which error |
| TypedFrames.ErrorNumbers | src/http2/error.rs:33-64 | the error codes have the numbers of section 7 of RFC 7540, and an unknown one is sent as an internal error |
| TypedFrames.FlagsSent | src/http2/frame.rs:105-704 | the flag bits of each frame that is sent |
| TypedFrames.NumbersSent | src/http2/frame.rs:39-704 | stream dependencies, error codes, last streams and increments stand most significant byte first where section 6 of RFC 7540 puts them |
| TypedFrames.StreamSent | src/http2/frame.rs:105-704 | the stream of each frame that is sent |
| SettingsCodec.SettingsRoundTrip | src/http2/frame.rs:340-483 | every SETTINGS frame that is no acknowledgement survives encoding and decoding |
| SettingsCodec.EntryLayout | src/http2/frame.rs:452-476 | identifier and value stand where section 6.5.1 of RFC 7540 puts them, most significant byte first |
| SettingsCodec.DecodeAccepts | src/http2/frame.rs:340-431 | a payload is accepted if and only if its identifiers are known, none repeats and the push flag is 0 or 1; otherwise a protocol error |
| SettingsCodec.AckAccepts | src/http2/frame.rs:340-358 | an acknowledgement is accepted if and only if it is empty |
| SettingsCodec.FieldNumbers | src/http2/frame.rs:433-483 | each field has the identifier of section 6.5.2 of RFC 7540 |
| SettingsCodec.AddAllMeaning | src/http2/frame.rs:360-428 | each field of the result is that of its entry |
| SettingsCodec.EncodeSettings | src/http2/frame.rs:433-483 | the payload built field by field |
| SettingsCodec.DecodeSettings | src/http2/frame.rs:340-431 | the loop over six-byte entries equals its function |
| HeaderBlocks.WriteBlock | src/http2/mod.rs:1055-1096 | any header block becomes one HEADERS frame and CONTINUATION frames of the stream that concatenate to it, all but the last full, END_HEADERS on exactly the last |
| HeaderBlocks.PartsJoin | src/http2/mod.rs:523-557 | the fragments of any block are collected to exactly that block if and only if it fits the header buffer |
| HeaderBlocks.OnlyWholeBlocks | src/http2/frame.rs:862-867 | with the checks on frame headers, which let CONTINUATION through on stream 0 alone, a block is read if and only if its HEADERS frame carries all of it and it fits; everything else ends the connection |
| HeaderBlocks.BlockFromBytes | src/http2/mod.rs:523-557 | so whatever bytes follow a HEADERS frame, its block is read if and only if it is whole and fits |
| PathParser.RenderReparses | src/util/path.rs:212-281 | rendering the elements of a parser plus a slash and parsing again gives an equal parser |
| PathParser.ParsedShows | src/util/path.rs:212-281 | parsed elements alternate, are non-empty, have distinct names, and show the template without its last slash |
| PathParser.TemplatesAreRenderings | src/util/path.rs:212-281 | a string is a template if and only if it begins with a slash and, without its last one, renders good elements, which are then the parsed ones |
| PathParser.ParsesInstance | src/util/path.rs:85-161 | a template with values in place of its variables, then a slash and anything, binds exactly these values if and only if not a last variable gets an empty value with nothing behind |
| PathParser.PutBack | src/util/path.rs:85-161 | whatever is accepted, the values in the returned map put back into the template give the path as far as the shorter reaches |
| PathParser.RefusedPaths | src/util/path.rs:85-97 | a path is refused if it is empty, does not begin with a slash, or has fewer slashes than the template |
| PathParser.BoundValues | src/util/path.rs:115-153 | no bound value has a slash in it |
| PathParser.UntilFirst | src/util/path.rs:122-141 | where the value before a text ends, and which error it is if it does not |
| PathParser.ParseTemplate | src/util/path.rs:215-281 | the loop over the characters equals its function |
| PathParser.ParsePath | src/util/path.rs:85-161 | the loop over the elements equals its function |
| PathParser.FindValue | src/util/path.rs:115-153 | the loops over the characters of a value |
| PathParser.NormalizeAndCountSlashes | src/util/path.rs:191-209 | the stripped path and its number of slashes |

## Left out

- Sockets, TLS, listeners, signals, pools, logging, `FileServer`, the handler trait and its time limits: I/O and
  plumbing around the modelled core. Timeouts and PING and SETTINGS acknowledgement timers end a run like `PeerStop`.
- HPACK and the `http` and `serde_json` crates are not part of this model: header blocks are byte strings, a header list
  either parses or fails, what counts as a header name or value is a parameter, and path values stay strings.
- `read_next_frame` inside `select!`: a call that is dropped half way has consumed the frame header. The frame theorems
  are about uninterrupted calls, and in the connection a frame arrives in one step.
- Padding and END_STREAM of received DATA: the source charges only the data behind the padding and ignores the flag, and
  so does the model.
- TypedFrames.TypedRoundTrip: HEADERS with a priority is not canonical, because the flag is not set when it is written
  (`src/http2/frame.rs:180-214`).
- FlowTheorems.NoFalseStall: for streams whose id was not reused, like the other theorems on single streams;
  `FlowLimits.ReuseStallsStream` is the counterexample for a stream whose own id was.
- ChunkedReader.DecodesSource: where a build with overflow checks aborts on a size of more than 16 digits, the poll fails
  here.
- Chunk extensions and trailers: the source never accepts an extension and reads the end of the body as a bare CR NL.
- ChunkedPair.RoundTrip: runs of `poll_write` and `poll_shutdown`; the explicit `poll_flush`, which the server never
  calls on this writer, is characterised by `ChunkedWriter.FlushSafe`. Writers need a buffer of at least three bytes.
- Http1Body.Connection.HandleBackgroundRead: the starting buffer of a body is built with all bytes readable
  (`src/lib.rs:530-533`), so what a handler reads first is not covered.
- The end of `window_rx` (`src/http2/stream.rs:474-477`): it only stops the polling of that channel.
- Reads of a request body after its stream task ended: the bytes are counted as lost, their content is not followed.
- `RingBuffer`, `CounterTask`, the rate limit of the listener, `ByteRanges`, request getters and `StreamState`: not part
  of the core, or easy.
