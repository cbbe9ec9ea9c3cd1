/**
 Flow control and stream life cycle of an HTTP/2 connection (http2/conn.go, http2/stream.go, http2/write.go) as
 functions on a value: each one is a critical section of the lock `mu`, together with the frames written under
 `writeMu`.
 */
module Http2Model {
  import opened Words

  const MAX_WINDOW: int := 0x7FFF_FFFF
  const DEFAULT_WINDOW: int := 65535
  const MIN_FRAME: int := 16384
  const MAX_FRAME: int := 16777215

  datatype Options = Options(connectionWindow: int, initialWindow: int, maxStreams: int)
  {
    /** What withDefaults leaves of the configured windows. */
    ghost predicate Valid() {
      DEFAULT_WINDOW <= connectionWindow <= MAX_WINDOW && 1 <= initialWindow <= MAX_WINDOW && maxStreams >= 1
    }
  }

  datatype Phase = Open | HalfClosedRemote | HalfClosedLocal | Closed

  /**
   The receiving side; `accepted` and `credited` record the flow-controlled bytes received and credited, `grants` the
   increments of the WINDOW_UPDATE frames sent, `taken` the bytes that joined the body and `given` those that the
   handler has read.
   */
  datatype Inflow = Inflow(window: int, unacked: int, buf: seq<byte>, pos: nat, received: int, declared: int, eof: bool,
                           gotTrailers: bool, bodyClosed: bool, accepted: int, credited: int, grants: seq<int>,
                           taken: seq<byte>, given: seq<byte>)
  {
    function Unread(): int { |buf| - pos }
  }

  /** The HEADERS and DATA frames of a stream. */
  datatype Frame =
    | Interim                       // a 1xx response
    | Final(end: bool)              // the response headers
    | Trailers(end: bool)
    | Data(length: int, end: bool)

  function Ends(f: Frame): bool {
    match f
    case Interim => false
    case Final(end) => end
    case Trailers(end) => end
    case Data(_, end) => end
  }

  /**
   The sending side; `increments` and `sent` record the peer's WINDOW_UPDATEs and the DATA bytes, `wire` the HEADERS and
   DATA frames in the order in which they were written.
   */
  datatype Outflow = Outflow(window: int, increments: int, sent: int, wroteHeaders: bool, sentEnd: bool,
                             sentReset: bool, failed: bool, wire: seq<Frame>)

  /** `ready`: the channel writeReady exists; `token`: it is full; `parked`: a writer waits on it. */
  datatype Waiter = Waiter(waitingConn: bool, ready: bool, token: bool, parked: bool)

  datatype Stream = Stream(phase: Phase, inflow: Inflow, outflow: Outflow, waiter: Waiter)

  /**
   The connection's receive window, with the bytes received and credited and the increments of its WINDOW_UPDATE frames.
   */
  datatype Receive = Receive(window: int, unacked: int, accepted: int, credited: int, updates: seq<int>)

  /**
   The connection's send window, with the increments received and the DATA bytes sent, and the peer's settings;
   `aborted`: a SETTINGS frame was refused after some of the streams had taken it, and the others go on with
   `prevInitial`.
   */
  datatype Send = Send(window: int, increments: int, sent: int, peerInitial: int, peerMaxFrame: int, aborted: bool,
                       prevInitial: int)

  /**
   `objects` holds every stream ever opened, `live` the ids in the map of streams, `order` the ids in the order of
   opening; `owed`: the connection will still call OnWritable; `replies` records the frames of each error reply to a
   request that got no stream.
   */
  datatype State = State(opts: Options, objects: map<int, Stream>, order: seq<int>, live: set<int>, active: int,
                         waiting: seq<int>, receive: Receive, send: Send, owed: bool, maxClient: int,
                         goingAway: bool, closed: bool, replies: seq<seq<Frame>>)

  function Init(opts: Options): State {
    State(opts, map[], [], {}, 0, [], Receive(opts.connectionWindow, 0, 0, 0, []),
          Send(DEFAULT_WINDOW, 0, 0, DEFAULT_WINDOW, MIN_FRAME, false, DEFAULT_WINDOW), false, 0, false, false, [])
  }

  datatype Code = NoError | ProtocolError | FlowControlError | FrameSizeError

  datatype Result = Result(state: State, code: Code)

  // ---------------------------------------------------------------- padding

  /** The payload without its padding, and the number of bytes taken off. */
  datatype Stripped = Bad | Stripped(data: seq<byte>, pad: nat)

  function StripPadding(payload: seq<byte>, padded: bool): (r: Stripped)
    ensures r.Stripped? ==> |r.data| + r.pad == |payload|
    ensures r.Bad? <==> padded && (|payload| == 0 || 1 + payload[0] as int > |payload|)
    ensures r.Stripped? && !padded ==> r.data == payload
    ensures r.Stripped? && padded ==> r.pad == 1 + payload[0] as int
    ensures r.Stripped? && padded ==>
              var padding := payload[1 + |r.data|..];
              payload == [payload[0]] + r.data + padding && |padding| == payload[0] as int
  {
    if !padded then Stripped(payload, 0)
    else if |payload| == 0 then Bad
    else
      var pad := payload[0] as int;
      if 1 + pad > |payload| then Bad else Stripped(payload[1..|payload| - pad], 1 + pad)
  }

  // ---------------------------------------------------------------- the pieces

  function WithStream(v: State, id: int, s: Stream): State { v.(objects := v.objects[id := s]) }

  /** Sending on the channel of a stream, without waiting. */
  function Wake(w: Waiter): Waiter { if w.ready then w.(token := true) else w }

  function Without(waiting: seq<int>, id: int): seq<int> {
    if waiting == [] then []
    else if waiting[0] == id then waiting[1..]
    else [waiting[0]] + Without(waiting[1..], id)
  }

  function Unregister(waiting: seq<int>, id: int, w: Waiter): seq<int> {
    if w.waitingConn then Without(waiting, id) else waiting
  }

  /** The connection's WINDOW_UPDATE once half the window is owed. */
  function TakeWindowUpdate(r: Receive, whole: int): Receive {
    if r.unacked >= whole / 2 then
      Receive(r.window + r.unacked, 0, r.accepted, r.credited + r.unacked, r.updates + [r.unacked])
    else r
  }

  function Credited(v: State): State { v.(receive := TakeWindowUpdate(v.receive, v.opts.connectionWindow)) }

  function ClosedStream(s: Stream, failed: bool): Stream {
    Stream(Closed, s.inflow.(buf := [], pos := 0), s.outflow.(failed := s.outflow.failed || failed),
           Wake(s.waiter).(waitingConn := false))
  }

  /** removeStreamLocked: the unread bytes are owed to the peer again, and whoever waits is woken. */
  function Remove(v: State, id: int, failed: bool): (r: State)
    requires id in v.objects
    ensures r.opts == v.opts
  {
    var s := v.objects[id];
    if s.phase == Closed then v
    else
      v.(objects := v.objects[id := ClosedStream(s, failed)], live := v.live - {id}, active := v.active - 1,
         waiting := Unregister(v.waiting, id, s.waiter),
         receive := v.receive.(unacked := v.receive.unacked + s.inflow.Unread()))
  }

  function MarkReset(v: State, id: int): (r: State)
    requires id in v.objects
    ensures r.opts == v.opts
  {
    WithStream(v, id, v.objects[id].(outflow := v.objects[id].outflow.(sentReset := true)))
  }

  /** failStreamLocked and resetStream. */
  function Fail(v: State, id: int): (r: State)
    requires id in v.objects
    ensures r.opts == v.opts
  {
    Credited(Remove(MarkReset(v, id), id, true))
  }

  // ---------------------------------------------------------------- frames from the peer

  /** Frame bytes that no body takes are owed back at once. */
  function Refund(r: Receive, n: int): Receive {
    r.(window := r.window - n, unacked := r.unacked + n, accepted := r.accepted + n)
  }

  /** A DATA frame's share of the stream: the data joins the body, the padding is owed back. */
  function Absorb(f: Inflow, data: seq<byte>, pad: int, end: bool, compact: bool): Inflow {
    var n := |data| + pad;
    var kept := if compact && 0 < f.pos <= |f.buf| then f.(buf := f.buf[f.pos..], pos := 0) else f;
    var taken :=
      if f.bodyClosed then f
      else kept.(buf := kept.buf + data, taken := f.taken + data, unacked := f.unacked + pad);
    taken.(window := f.window - n, received := f.received + |data|, accepted := f.accepted + n, eof := f.eof || end)
  }

  function RefusesLength(f: Inflow, n: int, end: bool): bool {
    f.declared >= 0 && (f.received + n > f.declared || (end && f.received + n != f.declared))
  }

  /** The stream's WINDOW_UPDATE once half its window is owed. */
  function Regrant(f: Inflow, initial: int): Inflow {
    if f.unacked >= initial / 2 then
      f.(window := f.window + f.unacked, unacked := 0, credited := f.credited + f.unacked,
          grants := f.grants + [f.unacked])
    else f
  }

  /** The receive window after a DATA frame: what the body does not take is owed back. */
  function Charge(r: Receive, f: Inflow, data: int, pad: int): Receive {
    Receive(r.window - data - pad, r.unacked + pad + (if f.bodyClosed then data else 0), r.accepted + data + pad,
            r.credited, r.updates)
  }

  function AbsorbedStream(s: Stream, data: seq<byte>, pad: int, end: bool, compact: bool): Stream {
    s.(inflow := Absorb(s.inflow, data, pad, end, compact),
       phase := if end && s.phase == Open then HalfClosedRemote else s.phase)
  }

  function Absorbed(v: State, id: int, data: seq<byte>, pad: int, end: bool, compact: bool): (r: State)
    requires id in v.objects
    ensures r.opts == v.opts
  {
    WithStream(v, id, AbsorbedStream(v.objects[id], data, pad, end, compact))
      .(receive := Charge(v.receive, v.objects[id].inflow, |data|, pad))
  }

  function TakeData(v: State, id: int, data: seq<byte>, pad: int, end: bool, compact: bool): (r: State)
    requires id in v.objects
    ensures r.opts == v.opts
  {
    var v1 := Absorbed(v, id, data, pad, end, compact);
    Regranted(Credited(if end && v.objects[id].phase == HalfClosedLocal then Remove(v1, id, false) else v1), id)
  }

  function Regranted(v: State, id: int): (r: State)
    requires id in v.objects
    ensures r.opts == v.opts
  {
    var s := v.objects[id];
    if s.inflow.eof || s.inflow.bodyClosed then v
    else WithStream(v, id, s.(inflow := Regrant(s.inflow, v.opts.initialWindow)))
  }

  /** A frame that the stream takes and its declared length does not. */
  function Charged(v: State, id: int, n: int): (r: State)
    requires id in v.objects
    ensures r.opts == v.opts
  {
    var s := v.objects[id];
    WithStream(v, id, s.(inflow := s.inflow.(window := s.inflow.window - n, accepted := s.inflow.accepted + n)))
      .(receive := Refund(v.receive, n))
  }

  function HandleData(v: State, id: int, payload: seq<byte>, padded: bool, end: bool, compact: bool): (r: Result)
    ensures r.state.opts == v.opts
  {
    if id == 0 || id % 2 == 0 || id > v.maxClient then Result(v, ProtocolError)
    else
      match StripPadding(payload, padded)
      case Bad => Result(v, ProtocolError)
      case Stripped(data, pad) =>
        var n := |payload|;
        if n > v.receive.window then Result(v, FlowControlError)
        else if id !in v.live || id !in v.objects then Result(Credited(v.(receive := Refund(v.receive, n))), NoError)
        else
          var s := v.objects[id];
          if s.phase == HalfClosedRemote || s.phase == Closed || s.inflow.gotTrailers || n > s.inflow.window then
            Result(Fail(v.(receive := Refund(v.receive, n)), id), NoError)
          else if RefusesLength(s.inflow, |data|, end) then
            Result(Fail(Charged(v, id, n), id), NoError)
          else
            Result(TakeData(v, id, data, pad, end, compact), NoError)
  }

  function FinishTrailers(v: State, id: int, wellFormed: bool): (r: Result)
    ensures r.state.opts == v.opts
  {
    if id !in v.live || id !in v.objects then Result(v, NoError)
    else
      var s := v.objects[id];
      if s.inflow.gotTrailers then Result(v, ProtocolError)
      else if s.phase == HalfClosedRemote || !wellFormed
          || (s.inflow.declared >= 0 && s.inflow.received != s.inflow.declared) then
        Result(Fail(v, id), NoError)
      else
        var s1 := s.(inflow := s.inflow.(gotTrailers := true, eof := true));
        if s.phase == HalfClosedLocal then Result(Remove(WithStream(v, id, s1), id, false), NoError)
        else Result(WithStream(v, id, s1.(phase := HalfClosedRemote)), NoError)
  }

  function NewStream(v: State, end: bool, declared: int): Stream {
    Stream(if end then HalfClosedRemote else Open,
           Inflow(v.opts.initialWindow, 0, [], 0, 0, declared, end, false, false, 0, 0, [], [], []),
           Outflow(v.send.peerInitial, 0, 0, false, false, false, false, []),
           Waiter(false, false, false, false))
  }

  /** A new request: its number is taken, and a stream opened for it unless the connection refuses it. */
  function OpenStream(v: State, id: int, end: bool, declared: int, refused: bool): (r: Result)
    ensures r.state.opts == v.opts
  {
    if id <= v.maxClient || id % 2 == 0 then Result(v, ProtocolError)
    else
      var v1 := v.(maxClient := id);
      if refused || v.goingAway || v.closed || v.active >= v.opts.maxStreams then Result(v1, NoError)
      else
        Result(v1.(objects := v.objects[id := NewStream(v, end, declared)], order := v.order + [id],
                   live := v.live + {id}, active := v.active + 1), NoError)
  }

  /** wakeWaitingStreamsLocked: everybody on the list is taken off it and woken. */
  function WakeAll(objects: map<int, Stream>, waiting: seq<int>): map<int, Stream> {
    if waiting == [] then objects
    else
      var id := waiting[0];
      var rest :=
        if id in objects then objects[id := objects[id].(waiter := Wake(objects[id].waiter).(waitingConn := false))]
        else objects;
      WakeAll(rest, waiting[1..])
  }

  function WakeWaiting(v: State): State { v.(objects := WakeAll(v.objects, v.waiting), waiting := []) }

  /** A stream's window moves by `delta`; its writer is woken when the window opens. */
  function MoveWindow(s: Stream, delta: int, granted: int): Stream {
    s.(outflow := s.outflow.(window := s.outflow.window + delta, increments := s.outflow.increments + granted),
       waiter := if s.outflow.window <= 0 && s.outflow.window + delta > 0 then Wake(s.waiter) else s.waiter)
  }

  function HandleWindowUpdate(v: State, id: int, inc: int): (r: Result)
    ensures r.state.opts == v.opts
  {
    if inc == 0 then Result(v, if id == 0 then ProtocolError else NoError)
    else if id == 0 then
      if v.send.window + inc > MAX_WINDOW then Result(v, FlowControlError)
      else
        var send := v.send.(window := v.send.window + inc, increments := v.send.increments + inc);
        Result(WakeWaiting(v.(send := send)), NoError)
    else if id % 2 == 0 || id > v.maxClient then Result(v, ProtocolError)
    else if id !in v.live || id !in v.objects then Result(v, NoError)
    else if v.objects[id].outflow.window + inc > MAX_WINDOW then Result(Fail(v, id), NoError)
    else Result(WithStream(v, id, MoveWindow(v.objects[id], inc, inc)), NoError)
  }

  /** The streams of `visit` take the change of the peer's initial window one after the other. */
  datatype Shifted = Shifted(objects: map<int, Stream>, ok: bool)

  function ShiftWindows(objects: map<int, Stream>, visit: seq<int>, delta: int): Shifted {
    if visit == [] then Shifted(objects, true)
    else if visit[0] !in objects then ShiftWindows(objects, visit[1..], delta)
    else
      var s := objects[visit[0]];
      if s.outflow.window + delta > MAX_WINDOW then Shifted(objects, false)
      else ShiftWindows(objects[visit[0] := MoveWindow(s, delta, 0)], visit[1..], delta)
  }

  /** One parameter of a SETTINGS frame; `visit` is the order in which the map of streams is walked. */
  datatype Setting = InitialWindow(value: int, visit: seq<int>) | MaxFrame(value: int) | EnablePush(value: int) | Other

  function ApplySetting(v: State, p: Setting): (r: Result)
    ensures r.state.opts == v.opts
  {
    match p
    case InitialWindow(value, visit) =>
      if value > MAX_WINDOW then Result(v, FlowControlError)
      else
        var delta := value - v.send.peerInitial;
        var r := if delta == 0 then Shifted(v.objects, true) else ShiftWindows(v.objects, visit, delta);
        Result(v.(objects := r.objects, send := v.send.(peerInitial := value, prevInitial := v.send.peerInitial,
                                                     aborted := v.send.aborted || !r.ok)),
               if r.ok then NoError else FlowControlError)
    case MaxFrame(value) =>
      if value < MIN_FRAME || value > MAX_FRAME then Result(v, ProtocolError)
      else Result(v.(send := v.send.(peerMaxFrame := value)), NoError)
    case EnablePush(value) => Result(v, if value > 1 then ProtocolError else NoError)
    case Other => Result(v, NoError)
  }

  function HandleSettings(v: State, settings: seq<Setting>): (r: Result)
    decreases |settings|
    ensures r.state.opts == v.opts
  {
    if settings == [] then Result(v, NoError)
    else
      var r := ApplySetting(v, settings[0]);
      if r.code != NoError then r else HandleSettings(r.state, settings[1..])
  }

  function HandleReset(v: State, id: int): (r: State)
    ensures r.opts == v.opts
  {
    if id !in v.live || id !in v.objects then v else Fail(v, id)
  }

  // ---------------------------------------------------------------- the handler reads

  function ReadSize(f: Inflow, size: int): int { if size < f.Unread() then size else f.Unread() }

  /**
   One pass of requestBody.Read that finds data: the bytes go to the handler, their share of the windows to the peer.
   */
  function Read(v: State, id: int, size: nat): (r: State)
    requires id in v.objects
    ensures r.opts == v.opts
  {
    var s := v.objects[id];
    var f := s.inflow;
    var n := ReadSize(f, size);
    if f.bodyClosed || n <= 0 then v
    else
      var f0 := f.(given := f.given + f.buf[f.pos..f.pos + n]);
      var f1 := if f.pos + n == |f.buf| then f0.(buf := [], pos := 0) else f0.(pos := f.pos + n);
      var f2 :=
        if !f.eof && s.phase != Closed then Regrant(f1.(unacked := f.unacked + n), v.opts.initialWindow) else f1;
      Credited(WithStream(v, id, s.(inflow := f2)).(receive := v.receive.(unacked := v.receive.unacked + n)))
  }

  function CloseBody(v: State, id: int): (r: State)
    requires id in v.objects
    ensures r.opts == v.opts
  {
    var s := v.objects[id];
    if s.inflow.bodyClosed then v
    else
      Credited(WithStream(v, id, s.(inflow := s.inflow.(bodyClosed := true, buf := [], pos := 0)))
               .(receive := v.receive.(unacked := v.receive.unacked + s.inflow.Unread())))
  }

  // ---------------------------------------------------------------- the handler writes

  /** writeErrLocked: whether the stream takes no more frames. */
  predicate WriteRefused(v: State, s: Stream) {
    v.closed || s.outflow.failed || s.phase == Closed || s.outflow.sentEnd || s.outflow.sentReset
  }

  /** A frame goes out; DATA takes its length from both windows. */
  function Emit(s: Stream, frame: Frame): Stream {
    var n := if frame.Data? then frame.length else 0;
    s.(outflow := s.outflow.(window := s.outflow.window - n, sent := s.outflow.sent + n,
                             wire := s.outflow.wire + [frame], sentEnd := s.outflow.sentEnd || Ends(frame),
                             wroteHeaders := s.outflow.wroteHeaders || frame.Final?))
  }

  function Spend(send: Send, n: int): Send { send.(window := send.window - n, sent := send.sent + n) }

  /** endStreamLocalLocked, after the frame with END_STREAM: an unfinished request is reset. */
  function EndLocal(v: State, id: int): (r: State)
    requires id in v.objects
    ensures r.opts == v.opts
  {
    if v.objects[id].phase == Open then Remove(MarkReset(v, id), id, false) else Remove(v, id, false)
  }

  function EmitOn(v: State, id: int, frame: Frame): (r: State)
    requires id in v.objects
    ensures r.opts == v.opts
  {
    var v1 := WithStream(v, id, Emit(v.objects[id], frame))
      .(send := Spend(v.send, if frame.Data? then frame.length else 0));
    if Ends(frame) then EndLocal(v1, id) else v1
  }

  /** writeHeaders: an interim response is left out once the final one was written. */
  function WriteHeaders(v: State, id: int, frame: Frame): (r: State)
    requires id in v.objects && !frame.Data?
    ensures r.opts == v.opts
  {
    var s := v.objects[id];
    if WriteRefused(v, s) || (frame.Interim? && s.outflow.wroteHeaders) then v else EmitOn(v, id, frame)
  }

  /** writeHeadersAndBody: headers and the whole body at once when both windows and a frame have room for it. */
  function WriteHeadersAndBody(v: State, id: int, length: nat, writable: bool): (r: State)
    requires id in v.objects
    ensures r.opts == v.opts
  {
    var s := v.objects[id];
    if WriteRefused(v, s) then v
    else
      var v1 := EmitOn(v, id, Final(false));
      if length <= v.send.peerMaxFrame && writable && length <= v.send.window && length <= s.outflow.window then
        EmitOn(v1, id, Data(length, true))
      else v1
  }

  /** writeData without data: an empty frame with END_STREAM. */
  function WriteEnd(v: State, id: int): State
    requires id in v.objects
  {
    if WriteRefused(v, v.objects[id]) then v else EmitOn(v, id, Data(0, true))
  }

  function Min3(a: int, b: int, c: int): int { Min(a, Min(b, c)) }

  /**
   What Writable reports at each of the three times that writeData asks: it can only turn true while writeMu is held.
   */
  datatype Room = Room(first: bool, second: bool, third: bool)
  {
    predicate Valid(owed: bool) { (first ==> second) && (second ==> third) && (!third ==> owed) }
  }

  function Available(v: State, s: Stream): int { Min(v.send.window, s.outflow.window) }

  /** Whether the pass of the loop in writeData has to wait. */
  predicate Blocked(v: State, s: Stream, room: Room) { !room.first || Available(v, s) <= 0 }

  /** The writer drains its channel, gets on the list when it waits for the connection, and waits. */
  function Park(v: State, id: int, room: Room): (r: State)
    requires id in v.objects
    ensures r.opts == v.opts
  {
    var s := v.objects[id];
    var register := (!room.second || v.send.window <= 0) && !s.waiter.waitingConn;
    var w := Waiter(s.waiter.waitingConn || register, true, false, true);
    var v1 := WithStream(v, id, s.(waiter := w)).(waiting := if register then v.waiting + [id] else v.waiting);
    if room.third && Available(v, s) > 0 then
      WithStream(v, id, s.(waiter := Waiter(false, true, false, false))).(waiting := Unregister(v1.waiting, id, w))
    else v1
  }

  function Chunk(v: State, s: Stream, length: int): int { Min3(length, v.send.peerMaxFrame, Available(v, s)) }

  /** One pass of the loop in writeData over the `length` bytes that remain. */
  function WriteData(v: State, id: int, length: nat, end: bool, room: Room): (r: State)
    requires id in v.objects
    ensures r.opts == v.opts
  {
    var s := v.objects[id];
    if WriteRefused(v, s) then
      WithStream(v, id, s.(waiter := s.waiter.(waitingConn := false))).(waiting := Unregister(v.waiting, id, s.waiter))
    else if Blocked(v, s, room) then Park(v, id, room)
    else
      var n := Chunk(v, s, length);
      var v1 := WithStream(v, id, s.(waiter := s.waiter.(waitingConn := false)))
        .(waiting := Unregister(v.waiting, id, s.waiter));
      EmitOn(v1, id, Data(n, end && n == length))
  }

  /** A parked writer gets the token of its channel, or its timer runs out. */
  function Unpark(v: State, id: int, timeout: bool): State
    requires id in v.objects
  {
    var w := v.objects[id].waiter;
    if w.parked && (w.token || timeout) then
      WithStream(v, id, v.objects[id].(waiter := w.(parked := false, token := if timeout then w.token else false)))
    else v
  }

  /** replyErrorStatus: a whole response to a request that gets no stream, when its windows have room for the body. */
  predicate ReplyFits(v: State, length: int) {
    length <= v.send.window && length <= v.send.peerInitial && length <= v.send.peerMaxFrame
  }

  function ReplyFrames(v: State, length: int): seq<Frame> {
    if ReplyFits(v, length) then [Final(false), Data(length, true)] else [Final(true)]
  }

  function ReplyError(v: State, length: nat): State {
    if v.closed then v
    else v.(send := if ReplyFits(v, length) then Spend(v.send, length) else v.send,
            replies := v.replies + [ReplyFrames(v, length)])
  }

  /** cleanupStreamAfterHandler: a stream the handler left unfinished is reset. */
  function Cleanup(v: State, id: int): (r: State)
    requires id in v.objects
    ensures r.opts == v.opts
  {
    var s := v.objects[id];
    if s.phase == Closed then v
    else
      var v1 := if !s.outflow.sentReset && (!s.outflow.sentEnd || s.phase == Open || s.phase == HalfClosedLocal)
                then MarkReset(v, id) else v;
      Credited(Remove(v1, id, true))
  }

  function OnWritable(v: State, still: bool): State { WakeWaiting(v).(owed := still) }

  /** onClose: every stream of the map is removed, in any order. */
  function RemoveAll(v: State, visit: seq<int>): (r: State)
    decreases |visit|
    ensures r.opts == v.opts
  {
    if visit == [] then v
    else if visit[0] !in v.objects then RemoveAll(v, visit[1..])
    else RemoveAll(Remove(v, visit[0], true), visit[1..])
  }

  function OnClose(v: State, visit: seq<int>): (r: State)
    ensures r.opts == v.opts
  { RemoveAll(v.(closed := true), visit).(waiting := []) }

  // ---------------------------------------------------------------- runs

  /** One critical section, in whichever goroutine it runs. */
  datatype Event =
    | DataFrame(id: int, payload: seq<byte>, padded: bool, end: bool, compact: bool)
    | TrailerBlock(id: int, wellFormed: bool)
    | RequestBlock(id: int, end: bool, declared: int, refused: bool)
    | WindowUpdate(id: int, inc: nat)
    | Settings(settings: seq<Setting>)
    | ResetFrame(id: int)
    | ReadBody(id: int, size: nat)
    | BodyClose(id: int)
    | Headers(id: int, frame: Frame)
    | HeadersAndBody(id: int, length: nat, writable: bool)
    | EndData(id: int)
    | DataPass(id: int, length: nat, end: bool, room: Room)
    | Unparked(id: int, timeout: bool)
    | ErrorReply(length: nat)
    | StreamReset(id: int)
    | HandlerDone(id: int)
    | Overfull                          // a write leaves more than maxBacklog unsent
    | Writable(still: bool)             // OnWritable is called; `still`: another call is to come
    | GoAway
    | ConnClosed(visit: seq<int>)

  /** Frames are handled until the connection is broken; everything else goes on until its stream is gone. */
  ghost predicate Enabled(v: State, e: Event) {
    match e
    case DataFrame(_, _, _, _, _) => !v.send.aborted
    case TrailerBlock(_, _) => !v.send.aborted
    case RequestBlock(_, _, _, _) => !v.send.aborted
    case WindowUpdate(_, _) => !v.send.aborted
    case Settings(settings) => !v.send.aborted && forall k :: 0 <= k < |settings| ==> SettingOk(v, settings[k])
    case ResetFrame(_) => !v.send.aborted
    case ReadBody(id, _) => id in v.objects
    case BodyClose(id) => id in v.objects
    case Headers(id, frame) => id in v.objects && !frame.Data?
    case HeadersAndBody(id, _, _) => id in v.objects
    case EndData(id) => id in v.objects
    case DataPass(id, length, _, room) =>
      id in v.objects && length > 0 && !v.objects[id].waiter.parked && room.Valid(v.owed)
    case Unparked(id, _) => id in v.objects
    case ErrorReply(_) => !v.send.aborted
    case StreamReset(id) => id in v.objects
    case HandlerDone(id) => id in v.objects
    case Overfull => true
    case Writable(_) => true
    case GoAway => true
    case ConnClosed(visit) => Walks(visit, v.live)
  }

  /** A walk over a map of streams visits each of them once. */
  ghost predicate Distinct(s: seq<int>) { forall i, j :: 0 <= i < j < |s| ==> s[i] != s[j] }

  ghost predicate SettingOk(v: State, p: Setting) {
    match p
    case InitialWindow(value, visit) => 0 <= value && Walks(visit, v.live)
    case _ => true
  }

  ghost predicate Walks(visit: seq<int>, live: set<int>) { Distinct(visit) && forall id :: id in visit <==> id in live }

  function Apply(v: State, e: Event): (r: State)
    requires Enabled(v, e)
    ensures r.opts == v.opts
  {
    match e
    case DataFrame(id, payload, padded, end, compact) => HandleData(v, id, payload, padded, end, compact).state
    case TrailerBlock(id, wellFormed) => FinishTrailers(v, id, wellFormed).state
    case RequestBlock(id, end, declared, refused) => OpenStream(v, id, end, declared, refused).state
    case WindowUpdate(id, inc) => HandleWindowUpdate(v, id, inc).state
    case Settings(settings) => HandleSettings(v, settings).state
    case ResetFrame(id) => HandleReset(v, id)
    case ReadBody(id, size) => Read(v, id, size)
    case BodyClose(id) => CloseBody(v, id)
    case Headers(id, frame) => WriteHeaders(v, id, frame)
    case HeadersAndBody(id, length, writable) => WriteHeadersAndBody(v, id, length, writable)
    case EndData(id) => WriteEnd(v, id)
    case DataPass(id, length, end, room) => WriteData(v, id, length, end, room)
    case Unparked(id, timeout) => Unpark(v, id, timeout)
    case ErrorReply(length) => ReplyError(v, length)
    case StreamReset(id) => Fail(v, id)
    case HandlerDone(id) => Cleanup(v, id)
    case Overfull => v.(owed := true)
    case Writable(still) => OnWritable(v, still)
    case GoAway => v.(goingAway := true)
    case ConnClosed(visit) => OnClose(v, visit)
  }

  /** The states of a run. */
  ghost predicate Run(opts: Options, states: seq<State>, events: seq<Event>) {
    && |states| == |events| + 1 && states[0] == Init(opts)
    && (forall k :: 0 <= k < |events| ==> Enabled(states[k], events[k]) && states[k + 1] == Apply(states[k], events[k]))
  }
}
