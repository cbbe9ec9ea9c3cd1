# A model of fnet's protocols in Dafny

fnet is an event-driven network engine in Go with servers on top of it. This project models the six places where it is
hardest to be sure that it is right, and proves what each of them is for:

- **KCP** (`kcp/arq.go`): two endpoints over a network that drops, duplicates and reorders datagrams. The program's 32-bit
  sequence numbers are proved to behave like unbounded ones; the endpoints deliver a prefix of what was sent, lose nothing,
  resend what is overdue and acknowledge what arrives. Files `Arq*.dfy`; `Arq.dfy` is the endpoint in place.
- **The task pool** (`taskpool/taskpool.go`): workers, counters, idle bitmap and the starving flag, one atomic operation at
  a time, with nested calls of `notify` as continuations; no wakeup is lost and every task is run once. Files `Pool*.dfy`. The lock-free ring under it, and that it
  behaves like the queue of the pool model, is `Ring.dfy`.
- **HTTP/2** (`http2/conn.go`, `http2/stream.go`, `http2/write.go`): flow control in both directions, SETTINGS, blocked
  writers and the order of frames. `Http2Model.dfy` has every critical section as a function, `Http2Flow.dfy` the
  invariant and the results over every run, `Http2Wire.dfy` what each section writes and leaves alone, `Http2Bodies.dfy` and
  `Http2Writes.dfy` what the events of a run add up to, `Http2Conn.dfy` the connection in place.
- **The HTTP/1 framer** (`fhttp/framer.go`): requests come out as they were written, and where they end does not depend on
  how the stream arrives. `FramerModel.dfy`, `FramerStream.dfy`, `FramerRoundTrip.dfy`, and the framer in place, `Framer.dfy`.
- **The HTTP/1 response** (`fhttp/response.go`): a response after which the connection stays open can be told apart from the
  next one. `Response.dfy`, `ResponseWriter.dfy`.
- **The connection** (`task_unix.go`, `conn_unix.go`, `fdtable_unix.go`): who runs its task (`ConnTask.dfy`), what becomes of
  the bytes written to it and of a request to close it (`SendModel.dfy`; in place, `SendPath.dfy`), and who notices its deadline (`Deadlines.dfy`, `DeadlineTable.dfy`).

A protocol that runs in several goroutines is a state machine whose steps are the program's atomic operations (or the
critical sections of its lock), and its results are about every run. Code that works in place is a class whose methods are
proved to compute the functions that the results are about. `dafny verify dfyconfig.toml` checks all of it.

Three results say exactly when the code does what it is for:

- `PoolWakeup.WakeupsLostExactly`: a task that an overflow helper popped from a queue and that calls `runtime.Goexit` takes
  the helper with it, and a queued task can then be left to nobody, in a pool of any configuration
  (`GoexitInHelperLosesWakeup`). Without that no wakeup is lost (`NoLostWakeup`); workers, and the task that a helper was
  started for, may call `Goexit`.
- `Http2Flow.EmptyGrantsExactly`: with `InitialWindowSize: 1`, an empty DATA frame is answered by a WINDOW_UPDATE of 0, which
  section 6.9 of RFC 9113 forbids (`EmptyGrant`). With 2 or more no run sends one (`GrantsNotEmpty`).
- `FramerStream.FragmentationDoesNotMatter`: a header with an empty line made of a bare LF can be cut so that the framer
  answers the part and the whole differently (`UnsafeArrivals`). Requests come out the same for every cutting of a stream if
  and only if it is `Safe`: none of its headers is of that kind, unless the whole is refused as malformed as well.

## Model

| member | source | states |
|---|---|---|
| `ArqSafety.EndToEnd` | kcp/arq.go:162-326 | in every run of two 32-bit endpoints over a dropping, duplicating, reordering network, the messages popped at one side are a prefix of those the other side accepted; in stream mode the bytes are |
| `ArqSafety.NeverLost` | kcp/arq.go:367-484 | in every reachable state each sequence number assigned so far is still in the sender's buffer, or is delivered, queued or buffered at the receiver |
| `ArqSafety.DatagramsParse` | kcp/arq.go:534-665 | every datagram ever emitted is non-empty, at most MTU long, and parses back to exactly the items encoded, with nothing rejected |
| `ArqSafety.Reachable` | kcp/arq.go:112-684 | the invariant of the two-endpoint system holds after every run: the 32-bit states are the truncation of the ideal ones, logs, buffers and acknowledgements agree |
| `ArqSending.FlushSends` | kcp/arq.go:534-684 | read back from the datagrams of a full flush: every segment that is new, timed out or skipped often enough goes out with its number, fragment and payload and starts its timer anew, with the backoff, and no other does; as many queued segments get the next numbers as the windows have room for; acknowledgements and probes that are due go out; every header announces what was received and the free window; the link dies at 20 sends; a timeout takes the congestion window to 1 |
| `ArqSending.FlushAnswers` | kcp/arq.go:534-561 | a flush of acknowledgements sends exactly those that are due; with nothing to do a flush does nothing |
| `ArqExchange.OverdueResent` | kcp/arq.go:598-665 | in every run a full flush does that, and no datagram of it carries a segment whose timer runs and that was skipped less often than the limit |
| `ArqExchange.DataAcknowledged` | kcp/arq.go:303-310 | in every run a PUSH that arrived within the window, duplicates included, is among the pending acknowledgements ever after, or a datagram sent since carries its acknowledgement or a higher cumulative one |
| `ArqExchange.InputAcks` | kcp/arq.go:303-310 | after any datagram the pending acknowledgements are the old ones and number and timestamp of each PUSH within the window at its turn, in order |
| `ArqExchange.AcknowledgedLeaves` | kcp/arq.go:367-403 | in every run a datagram takes exactly what it acknowledges off the send buffer |
| `ArqExchange.SkippedCounted` | kcp/arq.go:405-420 | in every run a segment that stays counts exactly the later segments that a datagram acknowledges by name, and is otherwise unchanged |
| `ArqExchange.EarlyFlush` | kcp/arq.go:367-420 | an item asks for an early flush if and only if it takes a segment off by its cumulative acknowledgement or brings one to the limit of skips |
| `ArqExchange.InOrderHandedOn` | kcp/arq.go:430-484 | in every run the next segment is not left in the receive buffer while the queue has room |
| `ArqExchange.WindowHeard` | kcp/arq.go:288-314 | after any datagram the peer's window is the one announced last, and a question for ours is noted |
| `ArqExchange.RoomTold` | kcp/arq.go:228-258 | a pop that makes room in a full queue has the peer told by the next full flush |
| `ArqExchange.SampleTaken` | kcp/arq.go:319-321 | the round-trip estimate takes its sample from the last acknowledgement of a datagram, and from nothing else |
| `ArqAcks.CompressionPreservesMeaning` | kcp/arq.go:534-561 | in every reachable state, one datagram with the acknowledgements that a flush keeps leaves the sender in exactly the state, and with the same early flush, that one with all of them would |
| `ArqAcks.CompressionIdeal` | kcp/arq.go:260-326 | the same for unbounded sequence numbers and any list of acknowledgements of received segments |
| `ArqCongestion.CongestionExact` | kcp/arq.go:316-365 | over every history of writes, reads, flushes, losses and arbitrary datagrams the byte count stays below one segment past the window; a datagram that acknowledges something new grows the window by one step of unbounded arithmetic from the window just announced and never past it, and no other datagram changes it |
| `ArqCongestion.GrowIsExact` | kcp/arq.go:344-365 | for every MTU and window below 2^16 no product or sum of the growth step wraps |
| `ArqCongestion.EstimateExact` | kcp/arq.go:328-342 | for every sample that a clock can give the 32-bit estimate equals the one with unbounded integers if and only if neither weighted sum passes 2^31 |
| `ArqCongestion.EstimatesExact` | kcp/arq.go:328-342 | it is exact after any number of samples below 2^28 ms |
| `ArqCongestion.TimeoutExact` | kcp/arq.go:340-341 | the retransmission timeout is always within its bounds, and is computed without a wrap |
| `ArqWrap.InputWrap` | kcp/arq.go:260-326 | a datagram not older than 2^31 numbers does to the 32-bit state what it does to the unbounded one |
| `ArqWrap.TakeItemWrap` | kcp/arq.go:288-315 | the same for one header, with the same decision about an early flush |
| `ArqWrap.FlushWrap` | kcp/arq.go:534-684 | a flush of the 32-bit state sends the truncation of what a flush of the unbounded one sends, and leaves its truncation |
| `ArqWrap.PopWrap` | kcp/arq.go:228-258 | a pop takes the same message from both |
| `ArqCodec.ParseEncode` | kcp/arq.go:523-532 | parsing an encoded datagram gives back exactly its items |
| `ArqCodec.PackExact` | kcp/arq.go:646-665 | packing loses and reorders nothing, and makes no empty packet and none beyond the MTU |
| `ArqIdeal.TakeItemKeeps` | kcp/arq.go:288-315 | what an item does keeps the sender's and the receiver's invariants, and gives up nothing received |
| `ArqIdeal.TakeItemLosesNothing` | kcp/arq.go:386-403 | an acknowledgement drops only segments the peer has received |
| `ArqIdeal.PromoteKeeps` | kcp/arq.go:468-484 | promotion keeps the receive queue the gapless continuation of what was delivered, also when the queue is full |
| `ArqIdeal.FullFlushKeeps` | kcp/arq.go:598-683 | numbering and resending keep the send buffer faithful to the log |
| `ArqStream.FragmentExact` | kcp/arq.go:182-202 | fragments are numbered down to 0, fit a segment, and join to the message |
| `ArqStream.StreamQueueExact` | kcp/arq.go:163-180 | in stream mode the queue's bytes grow by exactly the data |
| `ArqStream.SendSays` | kcp/arq.go:162-204 | what `send` queues says the accepted message |
| `ArqStream.PopMessage` | kcp/arq.go:228-258 | a popped message is the next accepted one |
| `ArqStream.MessageReady` | kcp/arq.go:207-224 | a queue that begins with all of a message has it ready, one with only a part of it has nothing ready |
| `ArqStream.AcceptsExactly` | kcp/arq.go:182-189 | a message is refused exactly when it is longer than the receive window, or 256, segments |
| `ArqEndpoint.Arq.constructor` | kcp/arq.go:112-136 | the initial state |
| `ArqEndpoint.Arq.Send` | kcp/arq.go:162-204 | computes `Send`; refuses exactly the messages that need too many fragments |
| `ArqEndpoint.Arq.PeekSize` | kcp/arq.go:207-224 | the length of the next complete message, -1 when there is none |
| `ArqEndpoint.Arq.PopMessage` | kcp/arq.go:228-258 | computes `Pop` and returns the bytes of the message |
| `ArqEndpoint.Arq.PromoteReceiveBuf` | kcp/arq.go:468-484 | computes `Promote` |
| `ArqEndpoint.Arq.ParseUnacknowledged` | kcp/arq.go:367-384 | computes `DropBefore` and reports whether anything was dropped |
| `ArqEndpoint.Arq.ParseAck` | kcp/arq.go:386-403 | computes `TakeAck` |
| `ArqEndpoint.Arq.ParseFastAck` | kcp/arq.go:405-420 | computes `TakeFastAck` and whether a segment reached the limit |
| `ArqEndpoint.Arq.InsertDataSegment` | kcp/arq.go:430-466 | computes `Insert` |
| `ArqEndpoint.Arq.Grow` | kcp/arq.go:344-365 | computes the growth step |
| `ArqEndpoint.Arq.Input` | kcp/arq.go:260-326 | computes the effect of the bytes of a datagram, malformed ones included, and the early-flush decision; data within the window joins the pending acknowledgements |
| `ArqEndpoint.Arq.Flush` | kcp/arq.go:534-684 | computes the new state, and outputs exactly the datagrams of the model; what a peer reads in them is what `FlushSends` says |
| `PoolWakeup.NoLostWakeup` | taskpool/taskpool.go:243-271 | in every interleaving before Close in which no task popped by a helper calls Goexit, once all submits and notifies have returned and every worker is suspended on an empty channel, every queue is empty, both counters are 0 and nobody starves |
| `PoolWakeup.WorkersAccounted` | taskpool/taskpool.go:365-398 | in every reachable state, whatever calls Goexit, both counters count exactly their holders; idle bit, pending message and running are one per worker; worker numbers are given out once; live workers do not exceed the maximum; a wakeup finds the channel empty |
| `PoolWakeup.GoexitInHelperLosesWakeup` | taskpool/taskpool.go:494-498 | every pool in which a popped task may call Goexit has a run that ends at rest with a queued task left to nobody |
| `PoolWakeup.WakeupsLostExactly` | taskpool/taskpool.go:494-498 | a pool loses no wakeup in any run if and only if no task that a helper popped may call Goexit |
| `PoolWakeup.Reachable` | taskpool/taskpool.go:434-491 | the invariant of the pool holds after every run, Goexit included |
| `PoolWakeup.StepKeeps` | taskpool/taskpool.go:183-498 | every step of every agent keeps it: somebody is in charge of every available task, or the starving flag is set and somebody will clear it |
| `PoolWakeup.SomeoneClears` | taskpool/taskpool.go:266-270 | when every shard is full, a worker is suspended where the scan will find it, or has yet to look at the flag |
| `PoolWakeup.SendNeverBlocks` | taskpool/taskpool.go:365-381 | the channel of a worker whose bit was cleared is empty, and the worker is not running |
| `PoolTasks.TasksAccounted` | taskpool/taskpool.go:121-223 | in every run the tasks accepted are those that have been run, those in a queue and those in the hands of one agent |
| `PoolTasks.AllTasksRun` | taskpool/taskpool.go:434-498 | when everything has come to rest every task that was accepted has been run, exactly once |
| `Ring.BoundedFifo` | taskpool/taskpool.go:183-223 | in every interleaving the pop of a position returns the task of its push, no position is taken twice or lost, no cell is overwritten while it holds a task, and tail - head is at most the capacity |
| `Ring.RingRefinesQueue` | taskpool/taskpool.go:183-223 | every step of the ring is a claim, a store or a take of the abstract queue, or leaves it alone |
| `Ring.LooksAgree` | taskpool/taskpool.go:183-229 | hasTask and pop see what the abstract queue lets them see; push is refused only when the cell of the lap before is not released |
| `Http2Flow.ReceiveConserved` | http2/conn.go:568-655 | in every run window + unacknowledged + unread bytes of all streams is the connection's window, the same for each stream still receiving, and no int32 overflows |
| `Http2Flow.BodiesInOrder` | http2/stream.go:187-208 | in every run the handler has read the first bytes of what was taken in for it, through compaction and resets, and the body holds the rest |
| `Http2Bodies.BodiesAsSent` | http2/conn.go:568-655 | in every run what the handler has read is a prefix of the payloads, without padding, of the DATA frames accepted for the stream, and while the body is open it holds exactly the rest |
| `Http2Bodies.DataFollows` | http2/conn.go:625-636 | a DATA frame after which the stream goes on adds exactly its data to what the handler has read and will read |
| `Http2Flow.SendWindowsExact` | http2/conn.go:372-443 | in every run the send windows are the initial ones plus increments less the DATA on the wire, also after SETTINGS shrink them, within 0..2^31-1 for the connection and above -2^31 for streams; after a SETTINGS frame refused half way each stream has the new or the previous initial window |
| `Http2Bodies.WindowsAsCounted` | http2/conn.go:488-655 | in every run the windows are what both sides count from the frames: the receive window from the DATA payloads that arrived and the increments sent, the send windows from the WINDOW_UPDATE frames that arrived and the DATA written |
| `Http2Bodies.ConnCredited` | http2/conn.go:1025-1047 | in every run every section leaves less than half of the connection's window owed, or no more than it found; those that end a stream with a write, with trailers or with the connection are left out by name |
| `Http2Bodies.StreamsCredited` | http2/conn.go:646-651 | in every run a stream that still receives owes nothing or less than half of its window |
| `Http2Bodies.SettingsTaken` | http2/conn.go:386-443 | a SETTINGS frame is taken only when every value is allowed, and the last value of each kind then holds |
| `Http2Bodies.StreamsOpened` | http2/conn.go:731-819 | a stream appears only with a request under a new odd number, on a connection that is not going away or closed and has room for it, and begins with fresh windows |
| `Http2Bodies.StreamsBounded` | http2/conn.go:731-819 | in every run there are at most as many streams as configured |
| `Http2Bodies.ResetEnds` | http2/conn.go:539-566 | a reset from either side ends the stream at once |
| `Http2Bodies.HandlerEnds` | http2/conn.go:920-969 | a stream does not outlive its handler; an unfinished response is reset |
| `Http2Bodies.ResponseEnds` | http2/write.go:342-351 | END_STREAM ends the stream, and resets a request that has not ended |
| `Http2Bodies.RequestEnds` | http2/conn.go:636-643 | the last DATA frame ends the request, and a stream that had answered is gone |
| `Http2Bodies.TrailersEnd` | http2/conn.go:821-858 | well-formed trailers after a complete body end the request; any others reset the stream |
| `Http2Bodies.BodyEnds` | http2/stream.go:230-248 | a closed body holds nothing |
| `Http2Wire.DataWithinWindows` | http2/write.go:41-337 | in every run, every step of whatever kind adds to every stream, and to the error replies, only DATA that respects the connection's window, the stream's and the peer's frame size as the step found them |
| `Http2Writes.WritesSentWhole` | http2/write.go:210-337 | in every run in which a handler writes one thing at a time, the bytes that its writes asked for are on the wire, still to be sent, or refused for good; a pass puts END_STREAM on its frame if and only if the write ends the stream and nothing of it is left, and then every byte ever asked for is on the wire |
| `Http2Writes.PassSends` | http2/write.go:246-337 | a pass that is neither refused nor has to wait sends one frame of at least a byte, as large as windows and frame size allow, with END_STREAM exactly on the last byte of a write that ends the stream |
| `Http2Writes.HeadersSend` | http2/write.go:82-123 | headers go out on every stream that takes frames, but for a late interim response |
| `Http2Writes.WholeSends` | http2/write.go:127-189 | a short response goes out as headers and one frame when all of it fits, and else as headers |
| `Http2Writes.EndSends` | http2/write.go:210-245 | the end of a response without data is an empty frame with END_STREAM |
| `Http2Writes.ReplyAnswers` | http2/write.go:41-79 | a request without a stream gets a whole response, with its body if that fits |
| `Http2Writes.WriterResumes` | http2/write.go:279-296 | a parked writer goes on exactly when its channel has a token or its time is up |
| `Http2Flow.WritersWake` | http2/write.go:246-296 | in every run a writer parked on an empty channel has a stream window of at most 0, or is on the list exactly once with the connection's window at 0 or an OnWritable still to come |
| `Http2Flow.FramesInOrder` | http2/write.go:41-123 | in every run a stream, and every error reply, has at most one END_STREAM, nothing after it, and no interim response after the final one |
| `Http2Flow.Reachable` | http2/conn.go:196-333 | the invariant holds after every run |
| `Http2Flow.HandleDataKeeps` | http2/conn.go:568-655 | a DATA frame keeps it on every path, refused and failing ones included |
| `Http2Flow.SettingsKeep` | http2/conn.go:386-433 | so does a SETTINGS frame, whatever the order of the map and wherever it is refused |
| `Http2Flow.WakeWaitingKeeps` | http2/conn.go:1013-1023 | waking the list makes up for any change of the connection's window and of the backlog |
| `Http2Flow.ParkKeeps` | http2/write.go:255-278 | a writer that parks has registered for what it waits for, whenever Writable turns true |
| `Http2Flow.RemoveKeeps` | http2/conn.go:971-998 | a removed stream gives its unread bytes back and wakes its writer |
| `Http2Flow.CloseBodyKeeps` | http2/stream.go:230-248 | closing a body gives its unread bytes back |
| `Http2Flow.EndLocalKeeps` | http2/write.go:342-351 | so does the end of a response, which resets a request that is not finished |
| `Http2Flow.GrantsNotEmpty` | http2/conn.go:646-651 | with a configured window of at least 2 no run sends a WINDOW_UPDATE of 0, on the connection or on a stream |
| `Http2Flow.EmptyGrant` | http2/conn.go:646-651 | every configuration with a window of 1 has a run that sends one |
| `Http2Flow.EmptyGrantsExactly` | http2/server.go:86-89 | a configuration has a run that sends a WINDOW_UPDATE of 0 if and only if its window is 1 |
| `Http2Model.StripPadding` | http2/frame.go:116-128 | the payload is the length byte, the data and that many bytes of padding; refused exactly when the padding does not fit |
| `Http2Conn.Conn.constructor` | http2/conn.go:115-128 | the initial state, in which the invariant holds |
| `Http2Conn.Conn.HandleData` | http2/conn.go:568-655 | computes `HandleData` and keeps the invariant; a frame after which the stream goes on adds exactly its data to the body |
| `Http2Conn.Conn.HandleWindowUpdate` | http2/conn.go:488-537 | computes `HandleWindowUpdate` and keeps the invariant |
| `Http2Conn.Conn.HandleSettings` | http2/conn.go:386-433 | computes `HandleSettings`, with the loop over the streams, and keeps the invariant |
| `Http2Conn.Conn.UnregisterWaiter` | http2/conn.go:1000-1011 | takes the stream off the list |
| `Http2Conn.Conn.WakeWaitingStreams` | http2/conn.go:1013-1023 | computes `WakeWaiting` |
| `Http2Conn.Conn.ReadBody` | http2/stream.go:187-208 | computes `Read`, keeps the invariant, and returns the bytes that follow what the handler has read, as many as there are and fit |
| `Http2Conn.Conn.WritePass` | http2/write.go:246-337 | computes one pass of `WriteData` and keeps the invariant; puts out one frame of the bytes it reports, within both windows and the frame size, with END_STREAM exactly on the last byte |
| `Http2Conn.Conn.OnClose` | http2/conn.go:1067-1087 | computes `OnClose`, with the loop over the streams, keeps the invariant and leaves no stream |
| `FramerStream.FragmentationDoesNotMatter` | fhttp/framer.go:57-94 | a stream is safe if and only if for every way of cutting it the same messages and failures come out in order, the message that waits, failed or is handed off starts at the same place, and the same bytes wait, as when it arrives at once |
| `FramerStream.SplitInParts` | fhttp/framer.go:57-94 | splitting a stream is splitting its first part, then what that left with the second |
| `FramerStream.NextStays` | fhttp/framer.go:111-147 | a message or failure found in a part of the data is found in all of it |
| `FramerStream.HeaderStays` | fhttp/framer.go:152-173 | what is decided about a safe header stays decided when more arrives |
| `FramerStream.UnsafeCut` | fhttp/framer.go:156-164 | every header that is not safe can be cut so that the search answers differently |
| `FramerStream.UnstableCut` | fhttp/framer.go:111-173 | a message that is not `Stable` can be cut so that the part fails and the whole is answered otherwise |
| `FramerStream.UnsafeArrivals` | fhttp/framer.go:57-94 | every stream that is not safe has arrivals that come out differently from the whole |
| `FramerStream.HeaderResumes` | fhttp/framer.go:153-155 | looking from three bytes back finds what looking from the start finds |
| `FramerStream.ChunksResume` | fhttp/framer.go:187-214 | the walk over the chunks goes on where it waited |
| `FramerRoundTrip.PipelineReadsBack` | fhttp/framer.go:57-147 | any requests written one after the other, with bodies of the announced length or chunked, come out whole and in order with nothing left over, however the stream is cut into arrivals |
| `FramerRoundTrip.RequestReadsBack` | fhttp/framer.go:111-147 | a request comes out with exactly the bytes of its header and body, whatever follows, and the splitter goes on right after it |
| `FramerRoundTrip.RequestWaits` | fhttp/framer.go:111-147 | of a request that lacks a byte of its body nothing comes out and nothing is taken |
| `FramerRoundTrip.RefusedAnswered` | fhttp/framer.go:118-121 | a request that the inspection refuses is answered, or handed off with all its bytes |
| `FramerRoundTrip.OversizedAnswered` | fhttp/framer.go:164-182 | a header beyond the limit is 431 when its first line ends within the limit, and else 414 |
| `FramerRoundTrip.BareAnswered` | fhttp/framer.go:157-163 | a header that has not ended and has an empty line made of a bare LF is 400 |
| `FramerRoundTrip.BrokenHandsOff` | fhttp/framer.go:187-214 | chunks that are not plain hand the request off with all its bytes, whatever plain ones come before |
| `Framer.Framer.Split` | fhttp/framer.go:57-94 | what the framer pushes, ends with and leaves in the data, a handed-off request included, is what the bytes alone say, whatever it had seen before |
| `Framer.Framer.Next` | fhttp/framer.go:111-147 | the answer is what the bytes alone say, which `RequestReadsBack` ties to what was written; the offsets it keeps fit an int32 |
| `Framer.Framer.LookForHeader` | fhttp/framer.go:152-173 | finds the header that the whole data has |
| `Framer.Framer.WalkChunks` | fhttp/framer.go:187-214 | walks from the stored offset as from the start |
| `Framer.ChunkHeader` | fhttp/framer.go:220-242 | reads a size line of up to 7 digits |
| `Response.ChunkedReadsBack` | fhttp/response.go:258-280 | any pieces written as chunks, with the last chunk, read back by the framer's grammar as their concatenation, ending at the last byte |
| `Response.LineReads` | fhttp/response.go:480-484 | the size line of a chunk reads back as its size |
| `ResponseWriter.Writer.Finish` | fhttp/response.go:292-325 | when it reports keep-alive, the body of a response with content is delimited by its own framing and is exactly what was accepted, and one without content (HEAD, 204, 304, 205) has put out no byte of a body |
| `ResponseWriter.Writer.Write` | fhttp/response.go:167-213 | accepts all bytes or none; on a connection that has not failed exactly when the status has a body and the declared length has room |
| `ResponseWriter.Writer.Stream` | fhttp/response.go:218-237 | sends full pieces and keeps at least a byte |
| `ResponseWriter.Writer.Send` | fhttp/response.go:258-280 | puts out one piece as the header said |
| `ResponseWriter.Writer.Decide` | fhttp/response.go:394-432 | the framing, and keep-alive exactly when neither request nor handler closes, it is no CONNECT and the body does not end with the connection |
| `ResponseWriter.Writer.WriteHeader` | fhttp/response.go:156-165 | the first final status and its header are the ones kept; interim and later ones change nothing |
| `ConnTask.OneOwner` | task_unix.go:37-78 | in every run at most one task is queued, running, or owned by Detach |
| `ConnTask.NoLostEvent` | task_unix.go:37-78 | when everything has come to rest on a connection that is not closed or detached, the events of every notify were taken, all together, by a run that started after it |
| `ConnTask.EventsWereSet` | task_unix.go:37-78 | whatever a run takes was set by a notify, or by accept, after the run before it started |
| `ConnTask.CallbacksInOrder` | task_unix.go:87-138 | in every run OnOpen is first, OnClose last, each once at most, and Done is called once at most |
| `ConnTask.OverForGood` | conn_unix.go:182-215 | a closed or detached connection has called Done exactly once and keeps its task; no OnClose follows a successful Detach |
| `ConnTask.Reachable` | task_unix.go:37-78 | the invariant holds after every run |
| `SendModel.SoftCloseSendsAll` | task_unix.go:286-316 | in every run of writers, closers and the task, the kernel has the accepted bytes in order; a connection that ended with a local close or EOF has sent all of them, whatever came between the decision and the close; a detached one has sent or handed over all |
| `SendModel.NothingForgotten` | task_unix.go:87-138 | in every run that has come to rest, a connection that anybody asked to close is closed, and one that nobody did has sent everything accepted |
| `SendModel.ReasonAsAsked` | task_unix.go:235-261 | in every run the close reason is the first hard error asked for, or else the first request; OnClose gets what it was at the decision, or a panic |
| `SendModel.ReasonSettles` | task_unix.go:235-261 | once a close is asked for nothing more is accepted, a hard reason is never replaced, and a soft one only by a hard error that was asked for; OnClose is called once |
| `SendModel.Reachable` | task_unix.go:63-316 | the invariant of sending and closing holds after every run |
| `SendPath.SendPath.Write` | conn_unix.go:68-94 | accepts all bytes or none; what the kernel took and what waits are the accepted bytes in order; the task is notified exactly when bytes are left for it |
| `SendPath.SendPath.Writev` | conn_unix.go:96-130 | the same for segments, with the limit on their number |
| `SendPath.SendPath.BufferSegments` | conn_unix.go:118-124 | exactly what the kernel did not take joins the buffer |
| `SendPath.SendPath.CompactOut` | conn_unix.go:152-157 | compaction keeps what waits |
| `SendPath.SendPath.Flush` | task_unix.go:202-233 | moves bytes from the buffer to the kernel in order; drained exactly when the buffer became empty, and then everything was sent; failed exactly when the write did |
| `SendPath.SendPath.RequestClose` | task_unix.go:240-248 | a hard error becomes the reason unless one is there already; a local close leaves the reason |
| `SendPath.SendPath.RequestCloseOnEof` | task_unix.go:254-261 | EOF becomes the reason of a first request; a request made before keeps its reason |
| `SendPath.SendPath.TakeBuffer` | conn_unix.go:194-207 | Detach gets exactly what was accepted and not sent |
| `Deadlines.DeadlinesCovered` | fdtable_unix.go:101-155 | in every run a connection of the table with a deadline it was not told about is covered by its page's minimum or by a setter or scanner in the middle of its work |
| `Deadlines.QuietIsIndexed` | fdtable_unix.go:101-118 | when nobody is in the middle of anything the minimums alone cover every connection |
| `Deadlines.Reachable` | fdtable_unix.go:75-155 | the invariant of the index holds after every run |
| `DeadlineTable.FdTable.CheckDeadlines` | fdtable_unix.go:123-155 | an undisturbed check tells every connection whose deadline has passed, none whose has not, and keeps the index |
| `DeadlineTable.FdTable.ScanPage` | fdtable_unix.go:134-151 | checks each connection of the page; the minimum it returns is a deadline of the page that has not passed and the earliest, or 0 when there is none |
| `DeadlineTable.FdTable.SetDeadline` | conn_unix.go:241-249 | keeps the index |
| `DeadlineTable.FdTable.LowerDeadline` | fdtable_unix.go:107-118 | afterwards the page's minimum is at most the deadline and never 0; no minimum is raised and no other page touched |

## Left out

- System calls, pollers, accepting, UDP sockets, timers and clocks: their results are parameters of the steps.
- Close of the pool, and everything that reads its `closed` flag: the pool is open throughout.
- Liveness: nothing says that a task, a callback or a retransmission happens in finite time.
- Buffer pools: a buffer is the sequence of its bytes; whether its capacity is short is a parameter.
- kcp: `update` (when to flush), the session table of `kcp/server.go` and the callbacks of `kcp/conn.go`.
- kcp: the network is assumed not to deliver a datagram, and an endpoint not to hold an acknowledgement, that is 2^31 sequence numbers old less a window, and the windows to be below 2^31 together; these are `Young`, `AcksFresh` and `Matched`.
- ArqSafety.EndToEnd: says nothing about how much is delivered, because the network may drop everything.
- ArqAcks.CompressionPreservesMeaning: the acknowledgements travel in one datagram, also when all of them would need more than one.
- taskpool: a compare-and-swap on a word of the idle bitmap may fail in the model even when nobody changed the word, and the stall monitor may raise a limit at any time; both only add runs.
- PoolWakeup.NoLostWakeup: leaves out runs in which a task that an overflow helper popped calls runtime.Goexit, because the property is false of them; see `WakeupsLostExactly`.
- Ring.BoundedFifo: positions are unbounded, so a thread that sleeps through 2^64 pushes is not modelled.
- http2: HPACK, header validation, PING, PRIORITY, GOAWAY, control and reset tokens, deadlines, contexts and trailers' contents.
- http2: "nothing after RST_STREAM" is not stated: a zero increment and a self-dependency are answered by RST_STREAM without removing the stream.
- http2: Writable is taken to turn only from false to true while writeMu is held, as every write of the package holds it, and to be false only while a call of OnWritable is to come.
- Http2Writes.WritesSentWhole: is about handlers that finish a write before they begin another on the same stream, as a stream's writes do; its `OneAtATime` says so.
- http2: readers blocked in requestBody.Read, and the goroutines' own program counters; a writer's place is the `parked` flag of its stream.
- fhttp: `inspectHeader` enters the framer as any function of the header that keeps to the allowed body length; request parsing, handing off to net/http and the request queue are not modelled.
- FramerStream.FragmentationDoesNotMatter: the 100 Continue items are left aside, because whether one is due depends on what has arrived.
- fhttp: the header's own bytes, content sniffing, dates, upgrades and `WriteString`, which does to a string what `Write` does to bytes.
- fnet: the portable implementation over blocking connections, reading, half-close and pausing; a callback is a single step.
- SendModel.NothingForgotten: the kernel is taken to report the socket writable again after a write that it did not take whole.
- SendModel: the callbacks of a round are one step that may write, ask for a close or panic; OnOpen that fails to watch the connection is in `ConnTask.dfy` only.
- Deadlines.DeadlinesCovered: a connection enters the table without a deadline, as it does in the program, and the table has a fixed number of pages.
- websocket, ftls and the examples.
