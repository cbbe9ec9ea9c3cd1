/**
 What a handler's writes put on the wire: every byte that they ask for, in frames, with END_STREAM on the last one only.
 */
module Http2Writes {
  import opened Words
  import opened Http2Model
  import opened Http2Flow
  import opened Http2Wire
  import Http2Bodies

  /** The stream takes no more frames. */
  predicate Refused(v: State, s: Stream) { v.closed || Refuses(s) }

  /** The pass has to wait: for the connection's buffer, its window or the stream's. */
  predicate Waits(v: State, s: Stream, room: Room) { !room.first || v.send.window <= 0 || s.outflow.window <= 0 }

  /** How many of `length` bytes fit the next frame. */
  function Share(v: State, s: Stream, length: int): int {
    Min(Min(length, v.send.peerMaxFrame), Min(v.send.window, s.outflow.window))
  }

  /** The frames that stream `id` has put out. */
  function WireOf(v: State, id: int): seq<Frame> { if id in v.objects then v.objects[id].outflow.wire else [] }

  // ---------------------------------------------------------------- one pass

  /**
   One pass over the `length` bytes that remain: nothing when it is refused or has to wait, and else one frame of at
   least a byte, as large as the windows and the frame size let it be, with END_STREAM if and only if it takes the last
   byte of a write that ends the stream.
   */
  lemma PassSends(v: State, id: int, length: nat, end: bool, room: Room)
    requires SendOk(v.send) && id in v.objects && length > 0
    ensures var s, q := v.objects[id], WriteData(v, id, length, end, room);
            && id in q.objects
            && (Refused(v, s) || Waits(v, s, room) ==> WireOf(q, id) == WireOf(v, id))
            && (!Refused(v, s) && !Waits(v, s, room) ==>
                  var n := Share(v, s, length);
                  1 <= n <= length && WireOf(q, id) == WireOf(v, id) + [Data(n, end && n == length)])
  {
    var s := v.objects[id];
    var n := Chunk(v, s, length);
    PutKeeps(Frames, v.objects, id, s.(waiter := s.waiter.(waitingConn := false)));
    ParkWires(Frames, v, id, room);
    EmitWires(Off(v, id), id, Data(n, end && n == length));
  }

  // ---------------------------------------------------------------- every event

  /** How many DATA bytes the event puts on stream `id`. */
  function Put(v: State, e: Event, id: int): int {
    if !Writes(e) || e.id != id || id !in v.objects || Refused(v, v.objects[id]) then 0
    else
      match e
      case DataPass(_, length, _, room) =>
        if Waits(v, v.objects[id], room) then 0 else Share(v, v.objects[id], length)
      case HeadersAndBody(_, length, writable) => if WholeFits(v, v.objects[id], length, writable) then length else 0
      case _ => 0
  }

  predicate WholeFits(v: State, s: Stream, length: int, writable: bool) {
    writable && length <= v.send.peerMaxFrame && length <= v.send.window && length <= s.outflow.window
  }

  lemma HeadersPut(v: State, id: int, frame: Frame)
    requires id in v.objects && FrameLength(frame) == 0
    ensures DataBytes(WireOf(EmitOn(v, id, frame), id)) == DataBytes(WireOf(v, id))
  {
    EmitWires(v, id, frame);
    DataSnoc(WireOf(v, id), frame);
  }

  lemma WholePut(v: State, id: int, length: nat, writable: bool)
    requires id in v.objects
    ensures DataBytes(WireOf(WriteHeadersAndBody(v, id, length, writable), id))
            == DataBytes(WireOf(v, id)) + Put(v, HeadersAndBody(id, length, writable), id)
  {
    var v1 := EmitOn(v, id, Final(false));
    HeadersPut(v, id, Final(false));
    EmitWires(v, id, Final(false));
    EmitWires(v1, id, Data(length, true));
    DataSnoc(WireOf(v1, id), Data(length, true));
  }

  lemma PassPut(v: State, id: int, length: nat, end: bool, room: Room)
    requires SendOk(v.send) && id in v.objects && length > 0
    ensures DataBytes(WireOf(WriteData(v, id, length, end, room), id))
            == DataBytes(WireOf(v, id)) + Put(v, DataPass(id, length, end, room), id)
  {
    PassSends(v, id, length, end, room);
    var n := Share(v, v.objects[id], length);
    DataSnoc(WireOf(v, id), Data(n, end && n == length));
  }

  lemma OwnPut(v: State, e: Event)
    requires SendOk(v.send) && Enabled(v, e) && Writes(e)
    ensures DataBytes(WireOf(Apply(v, e), e.id)) == DataBytes(WireOf(v, e.id)) + Put(v, e, e.id)
  {
    match e
    case Headers(id, frame) => HeadersPut(v, id, frame);
    case HeadersAndBody(id, length, writable) => WholePut(v, id, length, writable);
    case EndData(id) => HeadersPut(v, id, Data(0, true));
    case DataPass(id, length, end, room) => PassPut(v, id, length, end, room);
  }

  /** The DATA bytes of a stream grow by what the event puts out. */
  lemma StepPut(v: State, e: Event, id: int)
    requires Ok(v) && Enabled(v, e)
    ensures DataBytes(WireOf(Apply(v, e), id)) == DataBytes(WireOf(v, id)) + Put(v, e, id)
  {
    if e.RequestBlock? {
      Http2Bodies.OpenBody(v, e.id, e.end, e.declared, e.refused, id);
    } else if Writes(e) {
      if e.id == id { OwnPut(v, e); } else { WriteEvents(v, e); }
    } else {
      EventLeaves(Frames, v, e);
    }
  }

  // ---------------------------------------------------------------- writes over a run

  /**
   The handler's side of a stream: `asked` counts the bytes of its writes, `left` those that the current write has still
   to send, `lost` those of writes that were refused; `ends`: the current write ends the stream.
   */
  datatype Desk = Desk(asked: int, left: int, lost: int, ends: bool)

  function After(v: State, e: Event, id: int, d: Desk): Desk {
    if !Writes(e) || e.id != id || id !in v.objects then d
    else
      match e
      case DataPass(_, length, end, _) =>
        var asked := if d.left == 0 then d.asked + length else d.asked;
        if Refused(v, v.objects[id]) then Desk(asked, 0, d.lost + length, end)
        else Desk(asked, length - Put(v, e, id), d.lost, end)
      case HeadersAndBody(_, _, _) => d.(asked := d.asked + Put(v, e, id))
      case _ => d
  }

  function Book(states: seq<State>, events: seq<Event>, id: int, k: nat): Desk
    requires k <= |events| && |states| == |events| + 1
  {
    if k == 0 then Desk(0, 0, 0, false) else After(states[k - 1], events[k - 1], id, Book(states, events, id, k - 1))
  }

  /** The handler writes one thing at a time: a write goes on until it is sent or refused. */
  predicate InTurn(e: Event, id: int, d: Desk) {
    Writes(e) && e.id == id && d.left > 0 ==> e.DataPass? && e.length == d.left && e.end == d.ends
  }

  ghost predicate OneAtATime(states: seq<State>, events: seq<Event>, id: int)
    requires |states| == |events| + 1
  {
    forall k :: 0 <= k < |events| ==> InTurn(events[k], id, Book(states, events, id, k))
  }

  /** Every byte asked for is on the wire, still to come, or was refused; a refusal is for good. */
  ghost predicate Balanced(v: State, id: int, d: Desk) {
    && DataBytes(WireOf(v, id)) + d.left + d.lost == d.asked && 0 <= d.left && 0 <= d.lost
    && (d.lost > 0 ==> id in v.objects && Refused(v, v.objects[id]))
  }

  lemma StayRefused(v: State, e: Event, id: int)
    requires Ok(v) && Enabled(v, e) && id in v.objects && Refused(v, v.objects[id])
    ensures id in Apply(v, e).objects && Refused(Apply(v, e), Apply(v, e).objects[id])
  {
    Http2Bodies.StepMoves(v, e);
    if e.RequestBlock? {
      Http2Bodies.OpenBody(v, e.id, e.end, e.declared, e.refused, id);
    } else {
      EventLeaves(Refusal, v, e);
    }
  }

  lemma StepBalances(v: State, e: Event, id: int, d: Desk)
    requires Ok(v) && Enabled(v, e) && Balanced(v, id, d) && InTurn(e, id, d)
    ensures Balanced(Apply(v, e), id, After(v, e, id, d))
  {
    StepPut(v, e, id);
    if id in v.objects && Refused(v, v.objects[id]) { StayRefused(v, e, id); }
    if Writes(e) && e.id == id && e.DataPass? { PassSends(v, id, e.length, e.end, e.room); }
  }

  lemma {:induction false} BookBalances(opts: Options, states: seq<State>, events: seq<Event>, id: int, k: nat)
    requires opts.Valid() && Run(opts, states, events) && OneAtATime(states, events, id) && k <= |events|
    ensures Balanced(states[k], id, Book(states, events, id, k))
    decreases k
  {
    if k > 0 {
      BookBalances(opts, states, events, id, k - 1);
      ReachableAt(opts, states, events, k - 1);
      assert InTurn(events[k - 1], id, Book(states, events, id, k - 1));
      StepBalances(states[k - 1], events[k - 1], id, Book(states, events, id, k - 1));
    }
  }

  /** The pass at step `k` put a frame on stream `id`. */
  ghost predicate PassSent(states: seq<State>, events: seq<Event>, id: int, k: nat, frame: Frame)
    requires k < |events| && |states| == |events| + 1
  {
    events[k].DataPass? && events[k].id == id && WireOf(states[k + 1], id) == WireOf(states[k], id) + [frame]
  }

  /**
   Writes are sent whole: in every run in which the handler writes one thing at a time, the bytes that its writes asked
   for are on the wire, still to be sent by the current write, or were refused for good. A pass puts END_STREAM on its
   frame if and only if the write ends the stream and nothing of it is left, and then every byte that was ever asked for
   is on the wire.
   */
  lemma WritesSentWhole(opts: Options, states: seq<State>, events: seq<Event>, id: int, k: nat, frame: Frame)
    requires opts.Valid() && Run(opts, states, events) && OneAtATime(states, events, id) && k < |events|
    ensures Balanced(states[k], id, Book(states, events, id, k))
    ensures PassSent(states, events, id, k, frame) ==>
              var d := Book(states, events, id, k + 1);
              && frame.Data? && frame.length >= 1 && (frame.end <==> events[k].end && d.left == 0)
              && (frame.end ==> DataBytes(WireOf(states[k + 1], id)) == d.asked)
  {
    BookBalances(opts, states, events, id, k);
    if PassSent(states, events, id, k, frame) { PassFrame(opts, states, events, id, k, frame); }
  }

  lemma PassFrame(opts: Options, states: seq<State>, events: seq<Event>, id: int, k: nat, frame: Frame)
    requires opts.Valid() && Run(opts, states, events) && OneAtATime(states, events, id) && k < |events|
    requires PassSent(states, events, id, k, frame)
    ensures var d := Book(states, events, id, k + 1);
            && frame.Data? && frame.length >= 1 && (frame.end <==> events[k].end && d.left == 0)
            && (frame.end ==> DataBytes(WireOf(states[k + 1], id)) == d.asked)
  {
    BookBalances(opts, states, events, id, k);
    BookBalances(opts, states, events, id, k + 1);
    ReachableAt(opts, states, events, k);
    FrameOfPass(states[k], events[k], Book(states, events, id, k), frame);
  }

  lemma FrameOfPass(v: State, e: Event, d: Desk, frame: Frame)
    requires Ok(v) && Enabled(v, e) && e.DataPass? && Balanced(v, e.id, d)
    requires WireOf(Apply(v, e), e.id) == WireOf(v, e.id) + [frame]
    ensures var d1 := After(v, e, e.id, d);
            frame.Data? && frame.length >= 1 && (frame.end <==> e.end && d1.left == 0) && d1.lost == 0
  {
    PassSends(v, e.id, e.length, e.end, e.room);
    var wire := WireOf(v, e.id);
    assert |wire + [frame]| == |wire| + 1 && (wire + [frame])[|wire|] == frame;
    var n := Share(v, v.objects[e.id], e.length);
    assert (wire + [Data(n, e.end && n == e.length)])[|wire|] == Data(n, e.end && n == e.length);
  }

  // ---------------------------------------------------------------- headers and whole responses

  /** The headers of a stream that takes frames go out, but for an interim response after the final one. */
  lemma HeadersSend(v: State, id: int, frame: Frame)
    requires id in v.objects && !frame.Data?
    ensures WireOf(WriteHeaders(v, id, frame), id)
            == WireOf(v, id)
               + if Refused(v, v.objects[id])
                   || (frame.Interim? && v.objects[id].outflow.wroteHeaders) then [] else [frame]
  {
    EmitWires(v, id, frame);
    assert WireOf(v, id) + [] == WireOf(v, id);
  }

  /** The end of a response without data goes out as an empty frame. */
  lemma EndSends(v: State, id: int)
    requires id in v.objects
    ensures WireOf(WriteEnd(v, id), id) == WireOf(v, id) + if Refused(v, v.objects[id]) then [] else [Data(0, true)]
  {
    EmitWires(v, id, Data(0, true));
    assert WireOf(v, id) + [] == WireOf(v, id);
  }

  /** A short response goes out as headers and one DATA frame when there is room for all of it, and else as headers. */
  lemma WholeSends(v: State, id: int, length: nat, writable: bool)
    requires id in v.objects
    ensures var s := v.objects[id];
            WireOf(WriteHeadersAndBody(v, id, length, writable), id)
            == WireOf(v, id)
               + if Refused(v, s) then []
                 else if WholeFits(v, s, length, writable) then [Final(false), Data(length, true)]
                 else [Final(false)]
  {
    var v1 := EmitOn(v, id, Final(false));
    EmitWires(v, id, Final(false));
    EmitWires(v1, id, Data(length, true));
    assert WireOf(v, id) + [] == WireOf(v, id);
    assert WireOf(v, id) + [Final(false)] + [Data(length, true)] == WireOf(v, id) + [Final(false), Data(length, true)];
  }

  /**
   A request that gets no stream is answered, on an open connection, by a whole response: headers, and the body if it
   fits.
   */
  lemma ReplyAnswers(v: State, length: nat)
    ensures var fits := length <= v.send.window && length <= v.send.peerInitial && length <= v.send.peerMaxFrame;
            ReplyError(v, length).replies
            == v.replies + if v.closed then [] else [if fits then [Final(false), Data(length, true)] else [Final(true)]]
  {
    assert v.replies + [] == v.replies;
  }

  /** A parked writer goes on when its channel has a token or its time is up, and takes the token with it. */
  lemma WriterResumes(v: State, id: int, timeout: bool)
    requires id in v.objects
    ensures var w, w1 := v.objects[id].waiter, Unpark(v, id, timeout).objects[id].waiter;
            && (w1.parked <==> w.parked && !w.token && !timeout)
            && (w.parked && w.token && !timeout ==> !w1.token) && (!w.parked || timeout ==> w1.token == w.token)
  {
  }
}
