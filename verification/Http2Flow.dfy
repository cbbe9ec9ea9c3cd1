/** What holds whenever the lock `mu` of an HTTP/2 connection is free, and that every critical section keeps it. */
module Http2Flow {
  import opened Words
  import opened Http2Model

  // ---------------------------------------------------------------- the invariant

  /** What is added up over the streams: unread body bytes, or DATA bytes sent. */
  datatype Measure = Unread | Sent

  function Amount(m: Measure, s: Stream): int { if m.Unread? then s.inflow.Unread() else s.outflow.sent }

  function SumOf(m: Measure, order: seq<int>, objects: map<int, Stream>): int
    requires forall k :: 0 <= k < |order| ==> order[k] in objects
  {
    if order == [] then 0 else SumOf(m, order[..|order| - 1], objects) + Amount(m, objects[order[|order| - 1]])
  }

  function Total(s: seq<int>): int { if s == [] then 0 else Total(s[..|s| - 1]) + s[|s| - 1] }

  function DataBytes(wire: seq<Frame>): int {
    if wire == [] then 0 else DataBytes(wire[..|wire| - 1]) + FrameLength(wire[|wire| - 1])
  }

  function FrameLength(frame: Frame): int { if frame.Data? then frame.length else 0 }

  function ReplyBytes(replies: seq<seq<Frame>>): int {
    if replies == [] then 0 else ReplyBytes(replies[..|replies| - 1]) + DataBytes(replies[|replies| - 1])
  }

  /** Whether the peer may still be granted more of this stream's window. */
  predicate Granting(s: Stream) { !s.inflow.eof && !s.inflow.bodyClosed && s.phase != Closed }

  /** The stream's window is open, owed to the peer, or unread in the body. */
  ghost predicate InflowOk(s: Stream, initial: int) {
    var f := s.inflow;
    && f.pos <= |f.buf| && 0 <= f.window && 0 <= f.unacked && f.window + f.unacked + f.Unread() <= initial
    && (Granting(s) ==> f.window + f.unacked + f.Unread() == initial)
    && (f.bodyClosed || s.phase == Closed ==> f.Unread() == 0)
    && f.window == initial - f.accepted + f.credited
    && (f.eof && s.phase != Closed ==> s.phase != Open)
    && f.credited == Total(f.grants) && (initial >= 2 ==> Positive(f.grants))
    && f.given <= f.taken && (!f.bodyClosed && s.phase != Closed ==> f.given + f.buf[f.pos..] == f.taken)
  }

  ghost predicate Positive(s: seq<int>) { forall k :: 0 <= k < |s| ==> s[k] > 0 }

  ghost predicate InflowsOk(objects: map<int, Stream>, initial: int) {
    forall id :: id in objects ==> InflowOk(objects[id], initial)
  }

  /** The connection's receive window is open, owed to the peer, or unread in a body. */
  ghost predicate ReceiveOk(order: seq<int>, objects: map<int, Stream>, r: Receive, whole: int) {
    && Distinct(order) && (forall id :: id in objects <==> id in order)
    && 0 <= r.window && 0 <= r.unacked && r.window + r.unacked + SumOf(Unread, order, objects) == whole
    && r.window == whole - r.accepted + r.credited && r.credited == Total(r.updates) && Positive(r.updates)
  }

  ghost predicate SendOk(send: Send) {
    && 0 <= send.window <= MAX_WINDOW && send.window == DEFAULT_WINDOW + send.increments - send.sent
    && 0 <= send.peerInitial <= MAX_WINDOW && 0 <= send.prevInitial <= MAX_WINDOW
    && MIN_FRAME <= send.peerMaxFrame <= MAX_FRAME
  }

  /** The DATA bytes sent on the connection are those of the streams and of the error replies. */
  ghost predicate SentOk(order: seq<int>, objects: map<int, Stream>, sent: int, replies: seq<seq<Frame>>) {
    && (forall k :: 0 <= k < |order| ==> order[k] in objects)
    && sent == SumOf(Sent, order, objects) + ReplyBytes(replies)
  }

  /**
   The window follows the peer's initial one, or still the one before when the SETTINGS frame did not come to this
   stream.
   */
  ghost predicate OutflowOk(s: Stream, send: Send) {
    var f := s.outflow;
    && f.increments - f.sent >= -MAX_WINDOW
    && (s.phase != Closed ==>
          && f.window <= MAX_WINDOW
          && (|| f.window == send.peerInitial + f.increments - f.sent
              || (send.aborted && f.window == send.prevInitial + f.increments - f.sent)))
  }

  ghost predicate OutflowsOk(objects: map<int, Stream>, send: Send) {
    forall id :: id in objects ==> OutflowOk(objects[id], send)
  }

  /** Section 8.1 of RFC 9113: nothing follows END_STREAM, no interim response follows the final one. */
  ghost predicate WireOk(wire: seq<Frame>) {
    && (forall i :: 0 <= i < |wire| - 1 ==> !Ends(wire[i]))
    && (forall i, j :: 0 <= i < j < |wire| && wire[i].Final? ==> !wire[j].Interim?)
  }

  /** The flags and the count of a stream say what is on the wire. */
  ghost predicate FlagsOk(f: Outflow) { InOrder(f.wire, f.sentEnd, f.wroteHeaders) && f.sent == DataBytes(f.wire) }

  ghost predicate InOrder(wire: seq<Frame>, sentEnd: bool, wroteHeaders: bool) {
    && WireOk(wire)
    && (!sentEnd ==> forall i :: 0 <= i < |wire| ==> !Ends(wire[i]))
    && (!wroteHeaders ==> forall i :: 0 <= i < |wire| ==> !wire[i].Final?)
  }

  ghost predicate WiresOk(objects: map<int, Stream>) { forall id :: id in objects ==> FlagsOk(objects[id].outflow) }

  /** A writer that waits will be woken: by its stream's window, by the connection's, or by OnWritable. */
  ghost predicate WillWake(s: Stream, sendWindow: int, owed: bool) {
    && (s.waiter.parked ==> s.waiter.ready)
    && (s.waiter.waitingConn ==> s.phase != Closed)
    && (s.waiter.parked && !s.waiter.token ==>
          s.phase != Closed && (s.outflow.window <= 0 || (s.waiter.waitingConn && (sendWindow <= 0 || owed))))
  }

  ghost predicate Registered(objects: map<int, Stream>, waiting: seq<int>) {
    Distinct(waiting) && forall id :: id in waiting <==> id in objects && objects[id].waiter.waitingConn
  }

  ghost predicate WaitersOk(objects: map<int, Stream>, sendWindow: int, owed: bool) {
    forall id :: id in objects ==> WillWake(objects[id], sendWindow, owed)
  }

  ghost predicate LiveOk(objects: map<int, Stream>, live: set<int>, active: int, maxClient: int) {
    && (forall id :: id in live <==> id in objects && objects[id].phase != Closed)
    && active == |live| && (forall id :: id in objects ==> 0 < id <= maxClient)
  }

  ghost predicate Ok(v: State) {
    && v.opts.Valid() && v.maxClient >= 0
    && LiveOk(v.objects, v.live, v.active, v.maxClient)
    && ReceiveOk(v.order, v.objects, v.receive, v.opts.connectionWindow)
    && InflowsOk(v.objects, v.opts.initialWindow)
    && SendOk(v.send) && OutflowsOk(v.objects, v.send) && WiresOk(v.objects)
    && SentOk(v.order, v.objects, v.send.sent, v.replies) && (forall k :: 0 <= k < |v.replies| ==> WireOk(v.replies[k]))
    && Registered(v.objects, v.waiting) && WaitersOk(v.objects, v.send.window, v.owed)
  }

  // ---------------------------------------------------------------- sums

  lemma {:induction false} SumSame(m: Measure, order: seq<int>, x: map<int, Stream>, y: map<int, Stream>)
    requires forall k :: 0 <= k < |order| ==>
               order[k] in x && order[k] in y && Amount(m, x[order[k]]) == Amount(m, y[order[k]])
    ensures SumOf(m, order, x) == SumOf(m, order, y)
  {
    if order != [] { SumSame(m, order[..|order| - 1], x, y); }
  }

  lemma {:induction false} SumUpdate(m: Measure, order: seq<int>, objects: map<int, Stream>, id: int, s: Stream)
    requires Distinct(order) && id in order && forall k :: 0 <= k < |order| ==> order[k] in objects
    ensures SumOf(m, order, objects[id := s]) == SumOf(m, order, objects) - Amount(m, objects[id]) + Amount(m, s)
  {
    var n := |order| - 1;
    if order[n] == id {
      SumSame(m, order[..n], objects, objects[id := s]);
    } else {
      assert id in order[..n];
      SumUpdate(m, order[..n], objects, id, s);
    }
  }

  lemma SumJoin(m: Measure, order: seq<int>, objects: map<int, Stream>, id: int, s: Stream)
    requires id !in order && forall k :: 0 <= k < |order| ==> order[k] in objects
    ensures SumOf(m, order + [id], objects[id := s]) == SumOf(m, order, objects) + Amount(m, s)
  {
    SumSame(m, order, objects, objects[id := s]);
    assert (order + [id])[..|order|] == order;
  }

  lemma {:induction false} SumNonNegative(order: seq<int>, objects: map<int, Stream>, initial: int)
    requires InflowsOk(objects, initial) && forall k :: 0 <= k < |order| ==> order[k] in objects
    ensures SumOf(Unread, order, objects) >= 0
  {
    if order != [] {
      SumNonNegative(order[..|order| - 1], objects, initial);
      var id := order[|order| - 1];
      assert id in objects && InflowOk(objects[id], initial);
    }
  }

  lemma TotalSnoc(s: seq<int>, x: int)
    ensures Total(s + [x]) == Total(s) + x
  {
    assert (s + [x])[..|s|] == s;
  }

  lemma DataSnoc(wire: seq<Frame>, frame: Frame)
    ensures DataBytes(wire + [frame]) == DataBytes(wire) + FrameLength(frame)
  {
    assert (wire + [frame])[..|wire|] == wire;
  }

  lemma ReplySnoc(replies: seq<seq<Frame>>, reply: seq<Frame>)
    ensures ReplyBytes(replies + [reply]) == ReplyBytes(replies) + DataBytes(reply)
  {
    assert (replies + [reply])[..|replies|] == replies;
  }

  // ---------------------------------------------------------------- one stream changes

  lemma LiveUpdate(objects: map<int, Stream>, live: set<int>, active: int, maxClient: int, id: int, s: Stream)
    requires LiveOk(objects, live, active, maxClient) && id in objects && objects[id].phase != Closed
    ensures if s.phase == Closed then LiveOk(objects[id := s], live - {id}, active - 1, maxClient)
            else LiveOk(objects[id := s], live, active, maxClient)
  {
  }

  lemma LiveSame(objects: map<int, Stream>, live: set<int>, active: int, maxClient: int, id: int, s: Stream)
    requires LiveOk(objects, live, active, maxClient) && id in objects
             && (s.phase == Closed <==> objects[id].phase == Closed)
    ensures LiveOk(objects[id := s], live, active, maxClient)
  {
  }

  lemma ReceiveUpdate(order: seq<int>, objects: map<int, Stream>, r: Receive, whole: int, id: int, s: Stream,
                      r1: Receive)
    requires ReceiveOk(order, objects, r, whole) && id in objects
    requires 0 <= r1.window && 0 <= r1.unacked && r1.window == whole - r1.accepted + r1.credited
    requires r1.credited == r.credited && r1.updates == r.updates
    requires r1.window + r1.unacked + s.inflow.Unread() == r.window + r.unacked + objects[id].inflow.Unread()
    ensures ReceiveOk(order, objects[id := s], r1, whole)
  {
    SumUpdate(Unread, order, objects, id, s);
  }

  lemma SentUpdate(order: seq<int>, objects: map<int, Stream>, sent: int, replies: seq<seq<Frame>>, id: int, s: Stream,
                   sent1: int)
    requires SentOk(order, objects, sent, replies) && Distinct(order) && id in order && id in objects
    requires sent1 - sent == s.outflow.sent - objects[id].outflow.sent
    ensures SentOk(order, objects[id := s], sent1, replies)
  {
    SumUpdate(Sent, order, objects, id, s);
  }

  lemma InflowsUpdate(objects: map<int, Stream>, initial: int, id: int, s: Stream)
    requires InflowsOk(objects, initial) && InflowOk(s, initial)
    ensures InflowsOk(objects[id := s], initial)
  {
  }

  lemma OutflowsUpdate(objects: map<int, Stream>, send: Send, send1: Send, id: int, s: Stream)
    requires OutflowsOk(objects, send) && OutflowOk(s, send)
    requires send1.aborted == send.aborted && send1.peerInitial == send.peerInitial
             && send1.prevInitial == send.prevInitial
    ensures OutflowsOk(objects[id := s], send1)
  {
  }

  lemma WiresUpdate(objects: map<int, Stream>, id: int, s: Stream)
    requires WiresOk(objects) && FlagsOk(s.outflow)
    ensures WiresOk(objects[id := s])
  {
  }

  lemma WaitersUpdate(objects: map<int, Stream>, window: int, owed: bool, id: int, s: Stream, window1: int)
    requires WaitersOk(objects, window, owed) && WillWake(s, window1, owed) && (window <= 0 ==> window1 <= 0)
    ensures WaitersOk(objects[id := s], window1, owed)
  {
  }

  lemma RegisteredUpdate(objects: map<int, Stream>, waiting: seq<int>, id: int, s: Stream, waiting1: seq<int>)
    requires Registered(objects, waiting) && Listed(waiting, waiting1, id, s.waiter.waitingConn)
    ensures Registered(objects[id := s], waiting1)
  {
  }

  /** The list of waiting streams, with or without this one. */
  ghost predicate Listed(waiting: seq<int>, waiting1: seq<int>, id: int, listed: bool) {
    Distinct(waiting1) && forall x :: x in waiting1 <==> if x == id then listed else x in waiting
  }

  /** What is known of one stream and of the connection's own words. */
  ghost predicate Known(v: State, id: int) {
    && v.opts.Valid() && id in v.objects && SendOk(v.send) && 0 <= v.receive.window && 0 <= v.receive.unacked
    && v.receive.window == v.opts.connectionWindow - v.receive.accepted + v.receive.credited
    && InflowOk(v.objects[id], v.opts.initialWindow) && FlagsOk(v.objects[id].outflow)
    && OutflowOk(v.objects[id], v.send)
    && WillWake(v.objects[id], v.send.window, v.owed)
    && Distinct(v.waiting) && (id in v.waiting <==> v.objects[id].waiter.waitingConn)
  }

  lemma OkKnown(v: State, id: int)
    requires Ok(v) && id in v.objects
    ensures Known(v, id)
  {
  }

  /** Everything that changes with one stream. */
  datatype Change = Change(s: Stream, receive: Receive, send: Send, waiting: seq<int>)

  function Changed(v: State, id: int, c: Change): State
    requires id in v.objects
  {
    v.(objects := v.objects[id := c.s], receive := c.receive, send := c.send, waiting := c.waiting,
       live := if c.s.phase == Closed then v.live - {id} else v.live,
       active := if c.s.phase == Closed && v.objects[id].phase != Closed then v.active - 1 else v.active)
  }

  ghost predicate Fits(v: State, id: int, c: Change)
    requires id in v.objects
  {
    var s0 := v.objects[id];
    && (s0.phase == Closed ==> c.s.phase == Closed)
    && 0 <= c.receive.window && 0 <= c.receive.unacked
    && c.receive.window == v.opts.connectionWindow - c.receive.accepted + c.receive.credited
    && c.receive.credited == v.receive.credited && c.receive.updates == v.receive.updates
    && c.receive.window + c.receive.unacked + c.s.inflow.Unread()
        == v.receive.window + v.receive.unacked + s0.inflow.Unread()
    && InflowOk(c.s, v.opts.initialWindow)
    && SendOk(c.send) && c.send.aborted == v.send.aborted && c.send.peerInitial == v.send.peerInitial
    && c.send.prevInitial == v.send.prevInitial && c.send.sent - v.send.sent == c.s.outflow.sent - s0.outflow.sent
    && OutflowOk(c.s, v.send)
    && FlagsOk(c.s.outflow)
    && WillWake(c.s, c.send.window, v.owed) && (v.send.window <= 0 ==> c.send.window <= 0)
    && Listed(v.waiting, c.waiting, id, c.s.waiter.waitingConn)
  }

  /** A change of one stream that fits keeps everything. */
  lemma ChangeKeeps(v: State, id: int, c: Change)
    requires Ok(v) && id in v.objects && Fits(v, id, c)
    ensures Ok(Changed(v, id, c))
  {
    ChangeLive(v.objects, v.live, v.active, v.maxClient, id, c.s);
    ReceiveUpdate(v.order, v.objects, v.receive, v.opts.connectionWindow, id, c.s, c.receive);
    InflowsUpdate(v.objects, v.opts.initialWindow, id, c.s);
    OutflowsUpdate(v.objects, v.send, c.send, id, c.s);
    SentUpdate(v.order, v.objects, v.send.sent, v.replies, id, c.s, c.send.sent);
    WiresUpdate(v.objects, id, c.s);
    WaitersUpdate(v.objects, v.send.window, v.owed, id, c.s, c.send.window);
    RegisteredUpdate(v.objects, v.waiting, id, c.s, c.waiting);
  }

  lemma ChangeLive(objects: map<int, Stream>, live: set<int>, active: int, maxClient: int, id: int, s: Stream)
    requires LiveOk(objects, live, active, maxClient) && id in objects
             && (objects[id].phase == Closed ==> s.phase == Closed)
    ensures LiveOk(objects[id := s], if s.phase == Closed then live - {id} else live,
                   if s.phase == Closed && objects[id].phase != Closed then active - 1 else active, maxClient)
  {
    if objects[id].phase == Closed {
      assert live - {id} == live;
      LiveSame(objects, live, active, maxClient, id, s);
    } else {
      LiveUpdate(objects, live, active, maxClient, id, s);
    }
  }

  // ---------------------------------------------------------------- the pieces

  lemma DistinctCons(x: int, s: seq<int>)
    requires Distinct(s) && x !in s
    ensures Distinct([x] + s)
  {
  }

  lemma {:induction false} WithoutIs(waiting: seq<int>, id: int)
    requires Distinct(waiting)
    ensures Listed(waiting, Without(waiting, id), id, false)
  {
    if waiting != [] && waiting[0] != id {
      var x, rest := waiting[0], waiting[1..];
      WithoutIs(rest, id);
      assert waiting == [x] + rest;
      assert x !in rest && x !in Without(rest, id);
      DistinctCons(x, Without(rest, id));
    } else if waiting != [] {
      assert waiting == [id] + waiting[1..];
      assert id !in waiting[1..];
    }
  }

  lemma UnregisterIs(v: State, id: int)
    requires Known(v, id)
    ensures Listed(v.waiting, Unregister(v.waiting, id, v.objects[id].waiter), id, false)
  {
    WithoutIs(v.waiting, id);
  }

  lemma CreditedKeeps(v: State)
    requires Ok(v)
    ensures Ok(Credited(v))
  {
    TotalSnoc(v.receive.updates, v.receive.unacked);
  }

  function RemoveChange(v: State, id: int, failed: bool): Change
    requires id in v.objects
  {
    var s := v.objects[id];
    Change(ClosedStream(s, failed), v.receive.(unacked := v.receive.unacked + s.inflow.Unread()), v.send,
           Unregister(v.waiting, id, s.waiter))
  }

  lemma RemoveFits(v: State, id: int, failed: bool)
    requires Known(v, id) && v.objects[id].phase != Closed
    ensures Fits(v, id, RemoveChange(v, id, failed))
            && Remove(v, id, failed) == Changed(v, id, RemoveChange(v, id, failed))
  {
    UnregisterIs(v, id);
  }

  lemma RemoveKeeps(v: State, id: int, failed: bool)
    requires Ok(v) && id in v.objects
    ensures Ok(Remove(v, id, failed))
  {
    OkKnown(v, id);
    if v.objects[id].phase != Closed {
      RemoveFits(v, id, failed);
      ChangeKeeps(v, id, RemoveChange(v, id, failed));
    }
  }

  /** Only the stream changes. */
  ghost predicate StreamFits(v: State, id: int, s: Stream)
    requires id in v.objects
  {
    (s.phase == Closed <==> v.objects[id].phase == Closed) && Fits(v, id, Change(s, v.receive, v.send, v.waiting))
  }

  lemma StreamKeeps(v: State, id: int, s: Stream)
    requires Ok(v) && id in v.objects && StreamFits(v, id, s)
    ensures Ok(WithStream(v, id, s))
  {
    ChangeKeeps(v, id, Change(s, v.receive, v.send, v.waiting));
    assert v.objects[id].phase == Closed ==> v.live - {id} == v.live;
    assert WithStream(v, id, s) == Changed(v, id, Change(s, v.receive, v.send, v.waiting));
  }

  lemma MarkResetFits(v: State, id: int)
    requires Known(v, id)
    ensures StreamFits(v, id, v.objects[id].(outflow := v.objects[id].outflow.(sentReset := true)))
  {
  }

  lemma MarkResetKeeps(v: State, id: int)
    requires Ok(v) && id in v.objects
    ensures Ok(MarkReset(v, id))
  {
    OkKnown(v, id);
    MarkResetFits(v, id);
    StreamKeeps(v, id, v.objects[id].(outflow := v.objects[id].outflow.(sentReset := true)));
  }

  lemma FailKeeps(v: State, id: int)
    requires Ok(v) && id in v.objects
    ensures Ok(Fail(v, id))
  {
    MarkResetKeeps(v, id);
    RemoveKeeps(MarkReset(v, id), id, true);
    CreditedKeeps(Remove(MarkReset(v, id), id, true));
  }

  // ---------------------------------------------------------------- frames from the peer

  lemma RefundKeeps(v: State, n: int)
    requires Ok(v) && 0 <= n <= v.receive.window
    ensures Ok(v.(receive := Refund(v.receive, n)))
  {
  }

  lemma AbsorbFits(v: State, id: int, data: seq<byte>, pad: int, end: bool, compact: bool)
    requires Known(v, id) && 0 <= pad && (v.objects[id].phase == Open || v.objects[id].phase == HalfClosedLocal)
    requires |data| + pad <= v.objects[id].inflow.window && |data| + pad <= v.receive.window
    ensures var s := v.objects[id];
            Fits(v, id, Change(AbsorbedStream(s, data, pad, end, compact), Charge(v.receive, s.inflow, |data|, pad),
                               v.send, v.waiting))
  {
    var f := v.objects[id].inflow;
    var f1 := Absorb(f, data, pad, end, compact);
    assert f1.Unread() == f.Unread() + if f.bodyClosed then 0 else |data|;
    if !f.bodyClosed { BodyGrows(f, f1, data); }
  }

  lemma BodyGrows(f: Inflow, f1: Inflow, data: seq<byte>)
    requires f.pos <= |f.buf| && f1.pos <= |f1.buf| && f1.buf[f1.pos..] == f.buf[f.pos..] + data
    requires f1.given == f.given && f1.taken == f.taken + data
    ensures f.given + f.buf[f.pos..] == f.taken ==> f1.given + f1.buf[f1.pos..] == f1.taken
    ensures f.given <= f.taken ==> f1.given <= f1.taken
  {
    assert f.given + (f.buf[f.pos..] + data) == f.given + f.buf[f.pos..] + data;
  }

  lemma AbsorbKeeps(v: State, id: int, data: seq<byte>, pad: int, end: bool, compact: bool)
    requires Ok(v) && id in v.objects && 0 <= pad
             && (v.objects[id].phase == Open || v.objects[id].phase == HalfClosedLocal)
    requires |data| + pad <= v.objects[id].inflow.window && |data| + pad <= v.receive.window
    ensures Ok(Absorbed(v, id, data, pad, end, compact))
  {
    OkKnown(v, id);
    AbsorbFits(v, id, data, pad, end, compact);
    var s := v.objects[id];
    var c := Change(AbsorbedStream(s, data, pad, end, compact), Charge(v.receive, s.inflow, |data|, pad), v.send,
        v.waiting);
    ChangeKeeps(v, id, c);
    assert Absorbed(v, id, data, pad, end, compact) == Changed(v, id, c);
  }

  lemma RegrantFits(v: State, id: int)
    requires Known(v, id) && Granting(v.objects[id])
    ensures StreamFits(v, id, v.objects[id].(inflow := Regrant(v.objects[id].inflow, v.opts.initialWindow)))
  {
    RegrantOk(v.objects[id], v.opts.initialWindow);
  }

  lemma RegrantOk(s: Stream, initial: int)
    requires InflowOk(s, initial) && initial >= 1 && Granting(s)
    ensures InflowOk(s.(inflow := Regrant(s.inflow, initial)), initial)
    ensures Regrant(s.inflow, initial).Unread() == s.inflow.Unread()
  {
    TotalSnoc(s.inflow.grants, s.inflow.unacked);
  }

  lemma RegrantKeeps(v: State, id: int)
    requires Ok(v) && id in v.objects && (v.objects[id].phase == Closed ==> v.objects[id].inflow.eof)
    ensures Ok(Regranted(v, id))
  {
    OkKnown(v, id);
    if Granting(v.objects[id]) {
      RegrantFits(v, id);
      StreamKeeps(v, id, v.objects[id].(inflow := Regrant(v.objects[id].inflow, v.opts.initialWindow)));
    }
  }

  lemma TakeDataKeeps(v: State, id: int, data: seq<byte>, pad: int, end: bool, compact: bool)
    requires Ok(v) && id in v.objects && 0 <= pad
             && (v.objects[id].phase == Open || v.objects[id].phase == HalfClosedLocal)
    requires |data| + pad <= v.objects[id].inflow.window && |data| + pad <= v.receive.window
    ensures Ok(TakeData(v, id, data, pad, end, compact))
  {
    var v1 := Absorbed(v, id, data, pad, end, compact);
    AbsorbKeeps(v, id, data, pad, end, compact);
    RemoveKeeps(v1, id, false);
    var v2 := if end && v.objects[id].phase == HalfClosedLocal then Remove(v1, id, false) else v1;
    CreditedKeeps(v2);
    RegrantKeeps(Credited(v2), id);
  }

  /** The stream fails with the frame charged to it. */
  function ChargedChange(v: State, id: int, n: int): Change
    requires id in v.objects
  {
    var s := v.objects[id];
    var f := s.inflow.(window := s.inflow.window - n, accepted := s.inflow.accepted + n);
    var r := Refund(v.receive, n);
    Change(ClosedStream(s.(inflow := f, outflow := s.outflow.(sentReset := true)), true),
           r.(unacked := r.unacked + f.Unread()), v.send, Unregister(v.waiting, id, s.waiter))
  }

  lemma ChargedIs(v: State, id: int, n: int)
    requires id in v.objects && v.objects[id].phase != Closed
    ensures Fail(Charged(v, id, n), id) == Credited(Changed(v, id, ChargedChange(v, id, n)))
  {
    var v1 := MarkReset(Charged(v, id, n), id);
    assert v1.objects == v.objects[id := v1.objects[id]];
    assert Remove(v1, id, true).objects == v.objects[id := ChargedChange(v, id, n).s];
  }

  lemma ChargedFits(v: State, id: int, n: int)
    requires Known(v, id) && 0 <= n <= v.objects[id].inflow.window && n <= v.receive.window
    ensures Fits(v, id, ChargedChange(v, id, n))
  {
    UnregisterIs(v, id);
  }

  lemma ChargedKeeps(v: State, id: int, n: int)
    requires Ok(v) && id in v.objects && 0 <= n <= v.objects[id].inflow.window && n <= v.receive.window
    requires v.objects[id].phase != Closed
    ensures Ok(Fail(Charged(v, id, n), id))
  {
    OkKnown(v, id);
    ChargedIs(v, id, n);
    ChargedFits(v, id, n);
    ChangeKeeps(v, id, ChargedChange(v, id, n));
    CreditedKeeps(Changed(v, id, ChargedChange(v, id, n)));
  }

  lemma StreamDataKeeps(v: State, id: int, data: seq<byte>, pad: int, n: int, end: bool, compact: bool)
    requires Ok(v) && id in v.objects && 0 <= pad && n == |data| + pad <= v.receive.window
    ensures var s := v.objects[id];
            Ok(if s.phase == HalfClosedRemote || s.phase == Closed || s.inflow.gotTrailers || n > s.inflow.window
               then Fail(v.(receive := Refund(v.receive, n)), id)
               else if RefusesLength(s.inflow, |data|, end) then Fail(Charged(v, id, n), id)
               else TakeData(v, id, data, pad, end, compact))
  {
    var s := v.objects[id];
    if s.phase == HalfClosedRemote || s.phase == Closed || s.inflow.gotTrailers || n > s.inflow.window {
      RefundKeeps(v, n);
      FailKeeps(v.(receive := Refund(v.receive, n)), id);
    } else if RefusesLength(s.inflow, |data|, end) {
      ChargedKeeps(v, id, n);
    } else {
      TakeDataKeeps(v, id, data, pad, end, compact);
    }
  }

  lemma HandleDataKeeps(v: State, id: int, payload: seq<byte>, padded: bool, end: bool, compact: bool)
    requires Ok(v)
    ensures Ok(HandleData(v, id, payload, padded, end, compact).state)
  {
    var n := |payload|;
    if id == 0 || id % 2 == 0 || id > v.maxClient || n > v.receive.window {
    } else {
      match StripPadding(payload, padded)
      case Bad =>
      case Stripped(data, pad) =>
        if id !in v.live || id !in v.objects {
          RefundKeeps(v, n);
          CreditedKeeps(v.(receive := Refund(v.receive, n)));
        } else {
          StreamDataKeeps(v, id, data, pad, n, end, compact);
        }
    }
  }

  lemma TrailersFit(v: State, id: int)
    requires Known(v, id) && (v.objects[id].phase == Open || v.objects[id].phase == HalfClosedLocal)
    ensures var s1 := v.objects[id].(inflow := v.objects[id].inflow.(gotTrailers := true, eof := true));
            && StreamFits(v, id, s1.(phase := HalfClosedRemote))
            && (v.objects[id].phase == HalfClosedLocal ==> StreamFits(v, id, s1))
  {
  }

  lemma TrailersKeep(v: State, id: int, wellFormed: bool)
    requires Ok(v)
    ensures Ok(FinishTrailers(v, id, wellFormed).state)
  {
    if id in v.live && id in v.objects {
      OkKnown(v, id);
      FailKeeps(v, id);
      var s := v.objects[id];
      if s.phase == Open || s.phase == HalfClosedLocal {
        var s1 := s.(inflow := s.inflow.(gotTrailers := true, eof := true));
        TrailersFit(v, id);
        if s.phase == HalfClosedLocal {
          StreamKeeps(v, id, s1);
          RemoveKeeps(WithStream(v, id, s1), id, false);
        } else {
          StreamKeeps(v, id, s1.(phase := HalfClosedRemote));
        }
      }
    }
  }

  /** The state with a stream opened for the new number. */
  function Opened(v: State, id: int, s: Stream): State {
    v.(maxClient := id, objects := v.objects[id := s], order := v.order + [id], live := v.live + {id},
        active := v.active + 1)
  }

  /** A stream that has neither received nor sent anything. */
  ghost predicate Fresh(v: State, s: Stream) {
    && s.phase != Closed && InflowOk(s, v.opts.initialWindow) && s.inflow.Unread() == 0 && s.outflow.sent == 0
    && OutflowOk(s, v.send) && FlagsOk(s.outflow) && WillWake(s, v.send.window, v.owed) && !s.waiter.waitingConn
  }

  lemma OpenedCounts(v: State, id: int, s: Stream)
    requires Ok(v) && id > v.maxClient && id !in v.objects && Fresh(v, s)
    ensures var q := Opened(v, id, s);
            && LiveOk(q.objects, q.live, q.active, q.maxClient)
            && ReceiveOk(q.order, q.objects, q.receive, q.opts.connectionWindow)
            && SentOk(q.order, q.objects, q.send.sent, q.replies)
  {
    OpenLive(v.objects, v.live, v.active, v.maxClient, id, s);
    OpenReceive(v.order, v.objects, v.receive, v.opts.connectionWindow, id, s);
    OpenSent(v.order, v.objects, v.send.sent, v.replies, id, s);
  }

  lemma OpenedStreams(v: State, id: int, s: Stream)
    requires Ok(v) && id !in v.objects && Fresh(v, s)
    ensures var q := Opened(v, id, s);
            && InflowsOk(q.objects, q.opts.initialWindow) && OutflowsOk(q.objects, q.send) && WiresOk(q.objects)
            && WaitersOk(q.objects, q.send.window, q.owed) && Registered(q.objects, q.waiting)
  {
    InflowsUpdate(v.objects, v.opts.initialWindow, id, s);
    OutflowsUpdate(v.objects, v.send, v.send, id, s);
    WiresUpdate(v.objects, id, s);
    WaitersUpdate(v.objects, v.send.window, v.owed, id, s, v.send.window);
    OpenRegistered(v.objects, v.waiting, id, s);
  }

  lemma OpenedKeeps(v: State, id: int, s: Stream)
    requires Ok(v) && id > v.maxClient && id !in v.objects && Fresh(v, s)
    ensures Ok(Opened(v, id, s))
  {
    OpenedCounts(v, id, s);
    OpenedStreams(v, id, s);
  }

  lemma OpenSent(order: seq<int>, objects: map<int, Stream>, sent: int, replies: seq<seq<Frame>>, id: int, s: Stream)
    requires SentOk(order, objects, sent, replies) && id !in order && s.outflow.sent == 0
    ensures SentOk(order + [id], objects[id := s], sent, replies)
  {
    SumJoin(Sent, order, objects, id, s);
  }

  lemma OpenRegistered(objects: map<int, Stream>, waiting: seq<int>, id: int, s: Stream)
    requires Registered(objects, waiting) && id !in objects && !s.waiter.waitingConn
    ensures Registered(objects[id := s], waiting)
  {
  }

  lemma OpenKeeps(v: State, id: int, end: bool, declared: int, refused: bool)
    requires Ok(v)
    ensures Ok(OpenStream(v, id, end, declared, refused).state)
  {
    if id > v.maxClient && id % 2 != 0 {
      assert id !in v.objects;
      if refused || v.goingAway || v.closed || v.active >= v.opts.maxStreams {
        assert LiveOk(v.objects, v.live, v.active, id);
      } else {
        OpenedKeeps(v, id, NewStream(v, end, declared));
      }
    }
  }

  lemma OpenLive(objects: map<int, Stream>, live: set<int>, active: int, maxClient: int, id: int, s: Stream)
    requires LiveOk(objects, live, active, maxClient) && id !in objects && id > maxClient && id > 0 && s.phase != Closed
    ensures LiveOk(objects[id := s], live + {id}, active + 1, id) && LiveOk(objects, live, active, id)
  {
  }

  lemma OpenReceive(order: seq<int>, objects: map<int, Stream>, r: Receive, whole: int, id: int, s: Stream)
    requires ReceiveOk(order, objects, r, whole) && id !in objects && s.inflow.Unread() == 0
    ensures ReceiveOk(order + [id], objects[id := s], r, whole)
  {
    SumJoin(Unread, order, objects, id, s);
  }

  // ---------------------------------------------------------------- waking the writers

  /** A stream taken off the list and woken. */
  function Woken(s: Stream): Stream { s.(waiter := Wake(s.waiter).(waitingConn := false)) }

  ghost predicate WokenAll(objects: map<int, Stream>, woken: map<int, Stream>, waiting: seq<int>) {
    && woken.Keys == objects.Keys
    && forall id :: id in objects ==> woken[id] == if id in waiting then Woken(objects[id]) else objects[id]
  }

  lemma {:induction false} WakeAllIs(objects: map<int, Stream>, waiting: seq<int>)
    requires Distinct(waiting) && forall id :: id in waiting ==> id in objects
    ensures WokenAll(objects, WakeAll(objects, waiting), waiting)
    decreases |waiting|
  {
    if waiting != [] {
      var x, rest := waiting[0], waiting[1..];
      assert waiting == [x] + rest && x !in rest;
      WakeAllIs(objects[x := Woken(objects[x])], rest);
    }
  }

  /** Waking everybody on the list makes up for any change of the connection's window and of the backlog. */
  lemma WokenWaiters(objects: map<int, Stream>, woken: map<int, Stream>, waiting: seq<int>, window: int, owed: bool,
                     window1: int, owed1: bool)
    requires WaitersOk(objects, window, owed) && Registered(objects, waiting)
    requires WokenAll(objects, woken, waiting)
    ensures WaitersOk(woken, window1, owed1) && Registered(woken, [])
  {
    forall id | id in woken ensures WillWake(woken[id], window1, owed1) && !woken[id].waiter.waitingConn {
      assert WillWake(objects[id], window, owed);
    }
  }

  lemma WokenRest(v: State, woken: map<int, Stream>)
    requires Ok(v)
    requires WokenAll(v.objects, woken, v.waiting)
    ensures LiveOk(woken, v.live, v.active, v.maxClient) && InflowsOk(woken, v.opts.initialWindow)
    ensures OutflowsOk(woken, v.send) && WiresOk(woken) && ReceiveOk(v.order, woken, v.receive, v.opts.connectionWindow)
    ensures SentOk(v.order, woken, v.send.sent, v.replies)
  {
    forall id | id in woken ensures InflowOk(woken[id], v.opts.initialWindow) && FlagsOk(woken[id].outflow) {
      assert InflowOk(v.objects[id], v.opts.initialWindow) && FlagsOk(v.objects[id].outflow);
    }
    forall id | id in woken ensures OutflowOk(woken[id], v.send) { assert OutflowOk(v.objects[id], v.send); }
    WokenSums(v.order, v.objects, woken, v.waiting);
  }

  lemma WokenSums(order: seq<int>, objects: map<int, Stream>, woken: map<int, Stream>, waiting: seq<int>)
    requires WokenAll(objects, woken, waiting) && forall k :: 0 <= k < |order| ==> order[k] in objects
    ensures SumOf(Unread, order, woken) == SumOf(Unread, order, objects)
    ensures SumOf(Sent, order, woken) == SumOf(Sent, order, objects)
  {
    forall k | 0 <= k < |order|
      ensures order[k] in woken && woken[order[k]].inflow == objects[order[k]].inflow
              && woken[order[k]].outflow == objects[order[k]].outflow
    {
      var id := order[k];
      assert woken[id] == if id in waiting then Woken(objects[id]) else objects[id];
    }
    SumSame(Unread, order, woken, objects);
    SumSame(Sent, order, woken, objects);
  }

  lemma WakeWaitingKeeps(v: State, send: Send, owed: bool)
    requires Ok(v) && SendOk(send) && send.aborted == v.send.aborted && send.peerInitial == v.send.peerInitial
    requires send.prevInitial == v.send.prevInitial && send.sent == v.send.sent
    ensures Ok(WakeWaiting(v.(send := send)).(owed := owed))
  {
    var woken := WakeAll(v.objects, v.waiting);
    WakeAllIs(v.objects, v.waiting);
    WokenWaiters(v.objects, woken, v.waiting, v.send.window, v.owed, send.window, owed);
    WokenRest(v, woken);
  }

  lemma MoveWindowFits(v: State, id: int, inc: int)
    requires Known(v, id) && inc > 0 && v.objects[id].outflow.window + inc <= MAX_WINDOW
    ensures StreamFits(v, id, MoveWindow(v.objects[id], inc, inc))
  {
  }

  lemma ConnUpdateKeeps(v: State, inc: nat)
    requires Ok(v) && v.send.window + inc <= MAX_WINDOW
    ensures Ok(WakeWaiting(v.(send := v.send.(window := v.send.window + inc, increments := v.send.increments + inc))))
  {
    WakeWaitingKeeps(v, v.send.(window := v.send.window + inc, increments := v.send.increments + inc), v.owed);
  }

  lemma StreamUpdateKeeps(v: State, id: int, inc: nat)
    requires Ok(v) && id in v.objects && inc > 0 && v.objects[id].outflow.window + inc <= MAX_WINDOW
    ensures Ok(WithStream(v, id, MoveWindow(v.objects[id], inc, inc)))
  {
    OkKnown(v, id);
    MoveWindowFits(v, id, inc);
    StreamKeeps(v, id, MoveWindow(v.objects[id], inc, inc));
  }

  lemma WindowUpdateKeeps(v: State, id: int, inc: nat)
    requires Ok(v)
    ensures Ok(HandleWindowUpdate(v, id, inc).state)
  {
    if inc == 0 {
    } else if id == 0 {
      if v.send.window + inc <= MAX_WINDOW { ConnUpdateKeeps(v, inc); }
    } else if id % 2 != 0 && id <= v.maxClient && id in v.live && id in v.objects {
      if v.objects[id].outflow.window + inc > MAX_WINDOW { FailKeeps(v, id); } else { StreamUpdateKeeps(v, id, inc); }
    }
  }

  // ---------------------------------------------------------------- SETTINGS

  /** The stream as it was, or with its window moved. */
  ghost predicate ShiftedStream(s: Stream, s1: Stream, delta: int, moved: bool) {
    if moved then s1 == MoveWindow(s, delta, 0) && s1.outflow.window <= MAX_WINDOW else s1 == s
  }

  ghost predicate ShiftedAll(objects: map<int, Stream>, next: map<int, Stream>, moved: set<int>, delta: int) {
    forall id :: (id in next <==> id in objects)
        && (id in objects ==> ShiftedStream(objects[id], next[id], delta, id in moved))
  }

  ghost predicate CoversLive(objects: map<int, Stream>, moved: set<int>) {
    forall id :: id in objects && objects[id].phase != Closed ==> id in moved
  }

  lemma {:induction false} ShiftIs(objects: map<int, Stream>, visit: seq<int>, delta: int) returns (moved: set<int>)
    requires Distinct(visit) && forall id :: id in visit ==> id in objects
    ensures ShiftedAll(objects, ShiftWindows(objects, visit, delta).objects, moved, delta)
    ensures forall id :: id in moved ==> id in visit
    ensures ShiftWindows(objects, visit, delta).ok ==> forall id :: id in visit ==> id in moved
    decreases |visit|
  {
    moved := {};
    if visit != [] {
      var x, rest := visit[0], visit[1..];
      assert x in visit;
      if objects[x].outflow.window + delta > MAX_WINDOW { return; }
      assert visit == [x] + rest && x !in rest;
      var next := objects[x := MoveWindow(objects[x], delta, 0)];
      var others := ShiftIs(next, rest, delta);
      moved := others + {x};
    }
  }

  lemma ShiftedWaiters(objects: map<int, Stream>, next: map<int, Stream>, moved: set<int>, delta: int,
                       waiting: seq<int>,
                       window: int, owed: bool)
    requires ShiftedAll(objects, next, moved, delta) && WaitersOk(objects, window, owed) && Registered(objects, waiting)
    ensures WaitersOk(next, window, owed) && Registered(next, waiting)
  {
    forall id | id in next
      ensures WillWake(next[id], window, owed) && next[id].waiter.waitingConn == objects[id].waiter.waitingConn
    {
      assert WillWake(objects[id], window, owed) && ShiftedStream(objects[id], next[id], delta, id in moved);
    }
  }

  lemma ShiftedRest(v: State, next: map<int, Stream>, moved: set<int>, delta: int)
    requires Ok(v) && ShiftedAll(v.objects, next, moved, delta)
    ensures LiveOk(next, v.live, v.active, v.maxClient) && InflowsOk(next, v.opts.initialWindow)
    ensures WiresOk(next) && ReceiveOk(v.order, next, v.receive, v.opts.connectionWindow)
    ensures SentOk(v.order, next, v.send.sent, v.replies)
  {
    forall id | id in next
      ensures InflowOk(next[id], v.opts.initialWindow) && FlagsOk(next[id].outflow)
              && next[id].phase == v.objects[id].phase && next[id].inflow == v.objects[id].inflow
              && next[id].outflow.sent == v.objects[id].outflow.sent
    {
      assert InflowOk(v.objects[id], v.opts.initialWindow) && FlagsOk(v.objects[id].outflow);
      assert ShiftedStream(v.objects[id], next[id], delta, id in moved);
    }
    SumSame(Unread, v.order, v.objects, next);
    SumSame(Sent, v.order, v.objects, next);
  }

  lemma ShiftedOutflows(objects: map<int, Stream>, next: map<int, Stream>, moved: set<int>, send: Send, send1: Send)
    requires OutflowsOk(objects, send) && !send.aborted
    requires ShiftedAll(objects, next, moved, send1.peerInitial - send.peerInitial)
    requires send1.prevInitial == send.peerInitial && (!send1.aborted ==> CoversLive(objects, moved))
    ensures OutflowsOk(next, send1)
  {
    forall id | id in next ensures OutflowOk(next[id], send1) {
      assert OutflowOk(objects[id], send);
      assert ShiftedStream(objects[id], next[id], send1.peerInitial - send.peerInitial, id in moved);
    }
  }

  lemma WalkLive(objects: map<int, Stream>, live: set<int>, active: int, maxClient: int, visit: seq<int>)
    requires LiveOk(objects, live, active, maxClient) && Walks(visit, live)
    ensures forall id :: id in visit ==> id in objects
    ensures forall id :: id in objects && objects[id].phase != Closed ==> id in visit
  {
  }

  lemma ShiftKeeps(v: State, next: map<int, Stream>, moved: set<int>, send: Send)
    requires Ok(v) && !v.send.aborted && SendOk(send) && send.window == v.send.window && send.sent == v.send.sent
    requires send.prevInitial == v.send.peerInitial
    requires ShiftedAll(v.objects, next, moved, send.peerInitial - v.send.peerInitial)
    requires !send.aborted ==> CoversLive(v.objects, moved)
    ensures Ok(v.(objects := next, send := send))
  {
    var delta := send.peerInitial - v.send.peerInitial;
    ShiftedWaiters(v.objects, next, moved, delta, v.waiting, v.send.window, v.owed);
    ShiftedRest(v, next, moved, delta);
    ShiftedOutflows(v.objects, next, moved, v.send, send);
  }

  lemma ShiftMoves(objects: map<int, Stream>, live: set<int>, active: int, maxClient: int, visit: seq<int>, delta: int)
    returns (moved: set<int>)
    requires LiveOk(objects, live, active, maxClient) && Walks(visit, live)
    ensures var r := ShiftWindows(objects, visit, delta);
            && ShiftedAll(objects, r.objects, moved, delta)
            && (r.ok ==> CoversLive(objects, moved))
  {
    WalkLive(objects, live, active, maxClient, visit);
    moved := ShiftIs(objects, visit, delta);
  }

  function ShiftedSend(send: Send, value: int, ok: bool): Send {
    send.(peerInitial := value, prevInitial := send.peerInitial, aborted := !ok)
  }

  lemma InitialWindowIs(v: State, value: int, visit: seq<int>)
    requires !v.send.aborted && value <= MAX_WINDOW && value != v.send.peerInitial
    ensures var r := ShiftWindows(v.objects, visit, value - v.send.peerInitial);
            ApplySetting(v, InitialWindow(value, visit)).state
            == v.(objects := r.objects, send := ShiftedSend(v.send, value, r.ok))
  {
  }

  lemma ShiftAllKeeps(v: State, value: int, visit: seq<int>, r: Shifted, moved: set<int>)
    requires Ok(v) && !v.send.aborted && 0 <= value <= MAX_WINDOW
    requires ShiftedAll(v.objects, r.objects, moved, value - v.send.peerInitial)
             && (r.ok ==> CoversLive(v.objects, moved))
    ensures Ok(v.(objects := r.objects, send := ShiftedSend(v.send, value, r.ok)))
  {
    ShiftKeeps(v, r.objects, moved, ShiftedSend(v.send, value, r.ok));
  }

  lemma InitialMovedKeeps(v: State, value: int, visit: seq<int>, moved: set<int>)
    requires Ok(v) && !v.send.aborted && 0 <= value <= MAX_WINDOW && value != v.send.peerInitial
    requires var r := ShiftWindows(v.objects, visit, value - v.send.peerInitial);
             ShiftedAll(v.objects, r.objects, moved, value - v.send.peerInitial)
                 && (r.ok ==> CoversLive(v.objects, moved))
    ensures Ok(ApplySetting(v, InitialWindow(value, visit)).state)
  {
    InitialWindowIs(v, value, visit);
    ShiftAllKeeps(v, value, visit, ShiftWindows(v.objects, visit, value - v.send.peerInitial), moved);
  }

  lemma InitialWindowKeeps(v: State, value: int, visit: seq<int>)
    requires Ok(v) && !v.send.aborted && 0 <= value && Walks(visit, v.live)
    ensures Ok(ApplySetting(v, InitialWindow(value, visit)).state)
  {
    if value <= MAX_WINDOW && value == v.send.peerInitial {
      SameInitialKeeps(v);
    } else if value <= MAX_WINDOW {
      var moved := ShiftMoves(v.objects, v.live, v.active, v.maxClient, visit, value - v.send.peerInitial);
      InitialMovedKeeps(v, value, visit, moved);
    }
  }

  lemma SameInitialKeeps(v: State)
    requires Ok(v) && !v.send.aborted
    ensures Ok(v.(send := ShiftedSend(v.send, v.send.peerInitial, true)))
  {
    forall id | id in v.objects ensures OutflowOk(v.objects[id], ShiftedSend(v.send, v.send.peerInitial, true)) {
      assert OutflowOk(v.objects[id], v.send);
    }
  }

  lemma {:induction false} SettingsKeep(v: State, settings: seq<Setting>)
    requires Ok(v) && !v.send.aborted && forall k :: 0 <= k < |settings| ==> SettingOk(v, settings[k])
    ensures Ok(HandleSettings(v, settings).state)
    decreases |settings|
  {
    if settings != [] {
      var r := ApplySetting(v, settings[0]);
      assert SettingOk(v, settings[0]);
      if settings[0].InitialWindow? { InitialWindowKeeps(v, settings[0].value, settings[0].visit); }
      if r.code == NoError {
        assert forall k :: 0 <= k < |settings| - 1 ==> SettingOk(r.state, settings[1..][k]) by {
          forall k | 0 <= k < |settings| - 1 ensures SettingOk(r.state, settings[1..][k]) {
            assert SettingOk(v, settings[k + 1]);
          }
        }
        SettingsKeep(r.state, settings[1..]);
      }
    }
  }

  // ---------------------------------------------------------------- the handler reads

  /**
   The body after a read: the bytes are the handler's, their share of the window is owed while more may be granted.
   */
  function ReadBuffer(s: Stream, n: int): Inflow
    requires 0 <= n <= s.inflow.Unread() && s.inflow.pos <= |s.inflow.buf|
  {
    var f := s.inflow;
    var f0 := f.(given := f.given + f.buf[f.pos..f.pos + n],
                 unacked := if !f.eof && s.phase != Closed then f.unacked + n else f.unacked);
    if f.pos + n == |f.buf| then f0.(buf := [], pos := 0) else f0.(pos := f.pos + n)
  }

  function ReadInflow(s: Stream, n: int, initial: int): Inflow
    requires 0 <= n <= s.inflow.Unread() && s.inflow.pos <= |s.inflow.buf|
  {
    if !s.inflow.eof && s.phase != Closed then Regrant(ReadBuffer(s, n), initial) else ReadBuffer(s, n)
  }

  /** A read moves bytes from the body to the handler. */
  lemma BodyRead(given: seq<byte>, buf: seq<byte>, pos: nat, n: nat, taken: seq<byte>)
    requires pos + n <= |buf| && given + buf[pos..] == taken
    ensures given + buf[pos..pos + n] + buf[pos + n..] == taken && given + buf[pos..pos + n] <= taken
  {
    assert buf[pos..] == buf[pos..pos + n] + buf[pos + n..];
    assert given + (buf[pos..pos + n] + buf[pos + n..]) == given + buf[pos..pos + n] + buf[pos + n..];
  }

  lemma ReadBufferOk(s: Stream, n: int, initial: int)
    requires InflowOk(s, initial) && 0 < n <= s.inflow.Unread() && !s.inflow.bodyClosed
    ensures InflowOk(s.(inflow := ReadBuffer(s, n)), initial) && ReadBuffer(s, n).Unread() == s.inflow.Unread() - n
  {
    var f, f1 := s.inflow, ReadBuffer(s, n);
    BodyRead(f.given, f.buf, f.pos, n, f.taken);
    assert f1.buf[f1.pos..] == f.buf[f.pos + n..];
  }

  lemma ReadInflowOk(s: Stream, n: int, initial: int)
    requires InflowOk(s, initial) && initial >= 1 && 0 < n <= s.inflow.Unread() && !s.inflow.bodyClosed
    ensures InflowOk(s.(inflow := ReadInflow(s, n, initial)), initial)
    ensures ReadInflow(s, n, initial).Unread() == s.inflow.Unread() - n
  {
    ReadBufferOk(s, n, initial);
    if !s.inflow.eof && s.phase != Closed { RegrantOk(s.(inflow := ReadBuffer(s, n)), initial); }
  }

  function ReadChange(v: State, id: int, n: int): Change
    requires id in v.objects && 0 <= n <= v.objects[id].inflow.Unread()
             && v.objects[id].inflow.pos <= |v.objects[id].inflow.buf|
  {
    var s := v.objects[id];
    Change(s.(inflow := ReadInflow(s, n, v.opts.initialWindow)), v.receive.(unacked := v.receive.unacked + n), v.send,
        v.waiting)
  }

  lemma ReadFits(v: State, id: int, n: int)
    requires Known(v, id) && 0 < n <= v.objects[id].inflow.Unread() && !v.objects[id].inflow.bodyClosed
    ensures Fits(v, id, ReadChange(v, id, n))
  {
    ReadInflowOk(v.objects[id], n, v.opts.initialWindow);
  }

  lemma ReadIs(v: State, id: int, size: nat)
    requires Known(v, id) && !v.objects[id].inflow.bodyClosed && 0 < ReadSize(v.objects[id].inflow, size)
    ensures Read(v, id, size) == Credited(Changed(v, id, ReadChange(v, id, ReadSize(v.objects[id].inflow, size))))
  {
  }

  lemma ReadKeeps(v: State, id: int, size: nat)
    requires Ok(v) && id in v.objects
    ensures Ok(Read(v, id, size))
  {
    OkKnown(v, id);
    var f := v.objects[id].inflow;
    if !f.bodyClosed && ReadSize(f, size) > 0 {
      ReadIs(v, id, size);
      ReadFits(v, id, ReadSize(f, size));
      ReadOneKeeps(v, id, ReadSize(f, size));
    }
  }

  lemma ReadOneKeeps(v: State, id: int, n: int)
    requires Ok(v) && id in v.objects && 0 < n <= v.objects[id].inflow.Unread()
    requires v.objects[id].inflow.pos <= |v.objects[id].inflow.buf| && Fits(v, id, ReadChange(v, id, n))
    ensures Ok(Credited(Changed(v, id, ReadChange(v, id, n))))
  {
    ChangeKeeps(v, id, ReadChange(v, id, n));
    CreditedKeeps(Changed(v, id, ReadChange(v, id, n)));
  }

  function CloseChange(v: State, id: int): Change
    requires id in v.objects
  {
    var s := v.objects[id];
    Change(s.(inflow := s.inflow.(bodyClosed := true, buf := [], pos := 0)),
           v.receive.(unacked := v.receive.unacked + s.inflow.Unread()), v.send, v.waiting)
  }

  lemma CloseFits(v: State, id: int)
    requires Known(v, id)
    ensures Fits(v, id, CloseChange(v, id))
  {
  }

  lemma CloseBodyKeeps(v: State, id: int)
    requires Ok(v) && id in v.objects
    ensures Ok(CloseBody(v, id))
  {
    OkKnown(v, id);
    var s := v.objects[id];
    if !s.inflow.bodyClosed {
      CloseFits(v, id);
      ChangeKeeps(v, id, CloseChange(v, id));
      assert s.phase == Closed ==> v.live - {id} == v.live;
      assert CloseBody(v, id) == Credited(Changed(v, id, CloseChange(v, id)));
      CreditedKeeps(Changed(v, id, CloseChange(v, id)));
    }
  }

  // ---------------------------------------------------------------- the handler writes

  lemma WireSnoc(wire: seq<Frame>, frame: Frame, wroteHeaders: bool)
    requires InOrder(wire, false, wroteHeaders) && (frame.Interim? ==> !wroteHeaders)
    ensures InOrder(wire + [frame], Ends(frame), wroteHeaders || frame.Final?)
  {
    assert forall i :: 0 <= i < |wire| ==> (wire + [frame])[i] == wire[i];
  }

  lemma WireAppend(f: Outflow, frame: Frame)
    requires FlagsOk(f) && !f.sentEnd && (frame.Interim? ==> !f.wroteHeaders)
    ensures FlagsOk(f.(wire := f.wire + [frame], sent := f.sent + FrameLength(frame), sentEnd := Ends(frame),
                       wroteHeaders := f.wroteHeaders || frame.Final?))
  {
    DataSnoc(f.wire, frame);
    WireSnoc(f.wire, frame, f.wroteHeaders);
  }

  lemma EmitFits(v: State, id: int, frame: Frame)
    requires Known(v, id) && v.objects[id].phase != Closed && !v.objects[id].outflow.sentEnd
    requires frame.Interim? ==> !v.objects[id].outflow.wroteHeaders
    requires 0 <= FrameLength(frame) <= v.send.window
             && (FrameLength(frame) > 0 ==> FrameLength(frame) <= v.objects[id].outflow.window)
    ensures Fits(v, id, Change(Emit(v.objects[id], frame), v.receive, Spend(v.send, FrameLength(frame)), v.waiting))
  {
    WireAppend(v.objects[id].outflow, frame);
  }

  lemma EndLocalKeeps(v: State, id: int)
    requires Ok(v) && id in v.objects
    ensures Ok(EndLocal(v, id))
  {
    if v.objects[id].phase == Open {
      MarkResetKeeps(v, id);
      RemoveKeeps(MarkReset(v, id), id, false);
    } else {
      RemoveKeeps(v, id, false);
    }
  }

  /** What `EmitOn` needs: the stream takes frames, and the windows have room for the data. */
  ghost predicate CanEmit(v: State, id: int, frame: Frame) {
    && id in v.objects && v.objects[id].phase != Closed && !v.objects[id].outflow.sentEnd
    && (frame.Interim? ==> !v.objects[id].outflow.wroteHeaders)
    && 0 <= FrameLength(frame) <= v.send.window
        && (FrameLength(frame) > 0 ==> FrameLength(frame) <= v.objects[id].outflow.window)
  }

  lemma EmitKeeps(v: State, id: int, frame: Frame)
    requires Ok(v) && CanEmit(v, id, frame)
    ensures Ok(EmitOn(v, id, frame))
  {
    OkKnown(v, id);
    EmitFits(v, id, frame);
    var c := Change(Emit(v.objects[id], frame), v.receive, Spend(v.send, FrameLength(frame)), v.waiting);
    ChangeKeeps(v, id, c);
    var v1 := WithStream(v, id, Emit(v.objects[id], frame)).(send := Spend(v.send, FrameLength(frame)));
    assert v1 == Changed(v, id, c);
    if Ends(frame) { EndLocalKeeps(v1, id); }
  }

  lemma WriteHeadersKeeps(v: State, id: int, frame: Frame)
    requires Ok(v) && id in v.objects && !frame.Data?
    ensures Ok(WriteHeaders(v, id, frame))
  {
    var s := v.objects[id];
    if !(WriteRefused(v, s) || (frame.Interim? && s.outflow.wroteHeaders)) { EmitKeeps(v, id, frame); }
  }

  lemma WriteHeadersAndBodyKeeps(v: State, id: int, length: nat, writable: bool)
    requires Ok(v) && id in v.objects
    ensures Ok(WriteHeadersAndBody(v, id, length, writable))
  {
    if !WriteRefused(v, v.objects[id]) {
      EmitKeeps(v, id, Final(false));
      var v1 := EmitOn(v, id, Final(false));
      if length <= v.send.window && length <= v.objects[id].outflow.window { EmitKeeps(v1, id, Data(length, true)); }
    }
  }

  lemma WriteEndKeeps(v: State, id: int)
    requires Ok(v) && id in v.objects
    ensures Ok(WriteEnd(v, id))
  {
    if !WriteRefused(v, v.objects[id]) { EmitKeeps(v, id, Data(0, true)); }
  }

  /** The stream off the list of waiting streams. */
  function Off(v: State, id: int): State
    requires id in v.objects
  {
    var s := v.objects[id];
    WithStream(v, id, s.(waiter := s.waiter.(waitingConn := false))).(waiting := Unregister(v.waiting, id, s.waiter))
  }

  lemma OffKeeps(v: State, id: int)
    requires Ok(v) && id in v.objects && !v.objects[id].waiter.parked
    ensures Ok(Off(v, id))
  {
    OkKnown(v, id);
    UnregisterIs(v, id);
    var s := v.objects[id];
    var c := Change(s.(waiter := s.waiter.(waitingConn := false)), v.receive, v.send,
        Unregister(v.waiting, id, s.waiter));
    ChangeKeeps(v, id, c);
    assert s.phase == Closed ==> v.live - {id} == v.live;
    assert Off(v, id) == Changed(v, id, c);
  }

  lemma ListAppend(waiting: seq<int>, id: int)
    requires Distinct(waiting) && id !in waiting
    ensures Listed(waiting, waiting + [id], id, true)
  {
  }

  /** The list with the stream that gets on it. */
  function Entered(v: State, id: int, room: Room): seq<int>
    requires id in v.objects
  {
    if (!room.second || v.send.window <= 0) && !v.objects[id].waiter.waitingConn then v.waiting + [id] else v.waiting
  }

  lemma EnteredIs(v: State, id: int, room: Room)
    requires Known(v, id)
    ensures Listed(v.waiting, Entered(v, id, room), id,
                   v.objects[id].waiter.waitingConn || !room.second || v.send.window <= 0)
    ensures Listed(v.waiting, Without(Entered(v, id, room), id), id, false)
  {
    if !v.objects[id].waiter.waitingConn { ListAppend(v.waiting, id); }
    WithoutIs(Entered(v, id, room), id);
  }

  lemma ParkFits(v: State, id: int, room: Room)
    requires Known(v, id) && v.objects[id].phase != Closed && room.Valid(v.owed)
    requires Blocked(v, v.objects[id], room)
    ensures var q := Park(v, id, room);
            id in q.objects && Fits(v, id, Change(q.objects[id], v.receive, v.send, q.waiting))
  {
    EnteredIs(v, id, room);
    var s := v.objects[id];
    var q := Park(v, id, room);
    var w := s.waiter.waitingConn || !room.second || v.send.window <= 0;
    if room.third && Available(v, s) > 0 {
      assert q.objects[id] == s.(waiter := Waiter(false, true, false, false));
      assert Listed(v.waiting, q.waiting, id, false);
    } else {
      assert q.objects[id] == s.(waiter := Waiter(w, true, false, true)) && q.waiting == Entered(v, id, room);
      assert WillWake(q.objects[id], v.send.window, v.owed);
    }
  }

  lemma ParkKeeps(v: State, id: int, room: Room)
    requires Ok(v) && id in v.objects && v.objects[id].phase != Closed && room.Valid(v.owed)
    requires Blocked(v, v.objects[id], room)
    ensures Ok(Park(v, id, room))
  {
    OkKnown(v, id);
    ParkFits(v, id, room);
    var q := Park(v, id, room);
    var c := Change(q.objects[id], v.receive, v.send, q.waiting);
    ChangeKeeps(v, id, c);
    assert q == Changed(v, id, c);
  }

  lemma WriteDataKeeps(v: State, id: int, length: nat, end: bool, room: Room)
    requires Ok(v) && id in v.objects && length > 0 && !v.objects[id].waiter.parked && room.Valid(v.owed)
    ensures Ok(WriteData(v, id, length, end, room))
  {
    var s := v.objects[id];
    if WriteRefused(v, s) {
      OffKeeps(v, id);
    } else if Blocked(v, s, room) {
      ParkKeeps(v, id, room);
    } else {
      OffKeeps(v, id);
      var n := Chunk(v, s, length);
      EmitKeeps(Off(v, id), id, Data(n, end && n == length));
    }
  }

  lemma UnparkKeeps(v: State, id: int, timeout: bool)
    requires Ok(v) && id in v.objects
    ensures Ok(Unpark(v, id, timeout))
  {
    OkKnown(v, id);
    var s := v.objects[id];
    var w := s.waiter;
    if w.parked && (w.token || timeout) {
      UnparkFits(v, id, if timeout then w.token else false);
      StreamKeeps(v, id, s.(waiter := w.(parked := false, token := if timeout then w.token else false)));
    }
  }

  lemma UnparkFits(v: State, id: int, token: bool)
    requires Known(v, id)
    ensures StreamFits(v, id, v.objects[id].(waiter := v.objects[id].waiter.(parked := false, token := token)))
  {
  }

  lemma ReplyIs(v: State, length: nat)
    ensures WireOk(ReplyFrames(v, length))
    ensures DataBytes(ReplyFrames(v, length)) == if ReplyFits(v, length) then length else 0
  {
    var frames := ReplyFrames(v, length);
    if ReplyFits(v, length) {
      assert frames == [Final(false)] + [Data(length, true)] && [Final(false)] == [] + [Final(false)];
      DataSnoc([Final(false)], Data(length, true));
      DataSnoc([], Final(false));
    } else {
      assert frames == [] + [Final(true)];
      DataSnoc([], Final(true));
    }
  }

  lemma ReplyKeeps(v: State, length: nat)
    requires Ok(v)
    ensures Ok(ReplyError(v, length))
  {
    if !v.closed {
      ReplyIs(v, length);
      ReplySnoc(v.replies, ReplyFrames(v, length));
      var v1 := ReplyError(v, length);
      forall id | id in v.objects
        ensures WillWake(v.objects[id], v1.send.window, v.owed) && OutflowOk(v.objects[id], v1.send)
      {
        assert WillWake(v.objects[id], v.send.window, v.owed) && OutflowOk(v.objects[id], v.send);
      }
    }
  }

  lemma CleanupKeeps(v: State, id: int)
    requires Ok(v) && id in v.objects
    ensures Ok(Cleanup(v, id))
  {
    MarkResetKeeps(v, id);
    RemoveKeeps(v, id, true);
    RemoveKeeps(MarkReset(v, id), id, true);
    CreditedKeeps(Remove(v, id, true));
    CreditedKeeps(Remove(MarkReset(v, id), id, true));
  }

  // ---------------------------------------------------------------- the connection closes

  lemma {:induction false} RemoveAllKeeps(v: State, visit: seq<int>)
    requires Ok(v)
    ensures Ok(RemoveAll(v, visit))
    ensures forall id :: id in RemoveAll(v, visit).live ==> id in v.live && id !in visit
    decreases |visit|
  {
    if visit != [] {
      var x, rest := visit[0], visit[1..];
      assert visit == [x] + rest;
      if x in v.objects {
        RemoveKeeps(v, x, true);
        RemoveAllKeeps(Remove(v, x, true), rest);
      } else {
        RemoveAllKeeps(v, rest);
      }
    }
  }

  lemma CloseKeeps(v: State, visit: seq<int>)
    requires Ok(v) && Walks(visit, v.live)
    ensures Ok(OnClose(v, visit)) && OnClose(v, visit).live == {}
  {
    var v1 := v.(closed := true);
    RemoveAllKeeps(v1, visit);
    var v2 := RemoveAll(v1, visit);
    forall id ensures id !in v2.live { assert id in v2.live ==> id in v.live && id !in visit; }
    AllClosed(v2.objects, v2.live, v2.active, v2.maxClient, v2.waiting, v2.send.window, v2.owed);
  }

  /** Closed streams do not wait. */
  lemma AllClosed(objects: map<int, Stream>, live: set<int>, active: int, maxClient: int, waiting: seq<int>,
                  window: int, owed: bool)
    requires LiveOk(objects, live, active, maxClient) && (forall id :: id !in live)
    requires WaitersOk(objects, window, owed) && Registered(objects, waiting)
    ensures Registered(objects, [])
  {
    forall id | id in objects ensures !objects[id].waiter.waitingConn { assert WillWake(objects[id], window, owed); }
  }

  // ---------------------------------------------------------------- whole runs

  lemma FrameKeeps(v: State, e: Event)
    requires Ok(v) && Enabled(v, e)
    requires e.DataFrame? || e.TrailerBlock? || e.RequestBlock? || e.WindowUpdate? || e.Settings? || e.ResetFrame?
    ensures Ok(Apply(v, e))
  {
    match e
    case DataFrame(id, payload, padded, end, compact) => HandleDataKeeps(v, id, payload, padded, end, compact);
    case TrailerBlock(id, wellFormed) => TrailersKeep(v, id, wellFormed);
    case RequestBlock(id, end, declared, refused) => OpenKeeps(v, id, end, declared, refused);
    case WindowUpdate(id, inc) => WindowUpdateKeeps(v, id, inc);
    case Settings(settings) => SettingsKeep(v, settings);
    case ResetFrame(id) => if id in v.objects { FailKeeps(v, id); }
  }

  lemma WriteKeeps(v: State, e: Event)
    requires Ok(v) && Enabled(v, e)
    requires e.Headers? || e.HeadersAndBody? || e.EndData? || e.DataPass? || e.Unparked? || e.ErrorReply?
    ensures Ok(Apply(v, e))
  {
    match e
    case Headers(id, frame) => WriteHeadersKeeps(v, id, frame);
    case HeadersAndBody(id, length, writable) => WriteHeadersAndBodyKeeps(v, id, length, writable);
    case EndData(id) => WriteEndKeeps(v, id);
    case DataPass(id, length, end, room) => WriteDataKeeps(v, id, length, end, room);
    case Unparked(id, timeout) => UnparkKeeps(v, id, timeout);
    case ErrorReply(length) => ReplyKeeps(v, length);
  }

  /** A backlog is one more reason for a writer to be woken. */
  lemma OverfullKeeps(v: State)
    requires Ok(v)
    ensures Ok(v.(owed := true))
  {
    forall id | id in v.objects ensures WillWake(v.objects[id], v.send.window, true) {
      assert WillWake(v.objects[id], v.send.window, v.owed);
    }
  }

  lemma StepKeeps(v: State, e: Event)
    requires Ok(v) && Enabled(v, e)
    ensures Ok(Apply(v, e))
  {
    match e
    case ReadBody(id, size) => ReadKeeps(v, id, size);
    case BodyClose(id) => CloseBodyKeeps(v, id);
    case StreamReset(id) => FailKeeps(v, id);
    case HandlerDone(id) => CleanupKeeps(v, id);
    case Overfull => OverfullKeeps(v);
    case Writable(still) => WakeWaitingKeeps(v, v.send, still); assert v.(send := v.send) == v;
    case GoAway =>
    case ConnClosed(visit) => CloseKeeps(v, visit);
    case DataFrame(_, _, _, _, _) => FrameKeeps(v, e);
    case TrailerBlock(_, _) => FrameKeeps(v, e);
    case RequestBlock(_, _, _, _) => FrameKeeps(v, e);
    case WindowUpdate(_, _) => FrameKeeps(v, e);
    case Settings(_) => FrameKeeps(v, e);
    case ResetFrame(_) => FrameKeeps(v, e);
    case _ => WriteKeeps(v, e);
  }

  lemma InitOk(opts: Options)
    requires opts.Valid()
    ensures Ok(Init(opts))
  {
  }

  lemma {:induction false} Reachable(opts: Options, states: seq<State>, events: seq<Event>)
    requires opts.Valid() && Run(opts, states, events)
    ensures Ok(states[|events|]) && states[|events|].opts == opts
    decreases |events|
  {
    if events == [] {
      InitOk(opts);
    } else {
      var n := |events| - 1;
      PrefixRun(opts, states, events);
      Reachable(opts, states[..n + 1], events[..n]);
      StepKeeps(states[n], events[n]);
    }
  }

  lemma PrefixRun(opts: Options, states: seq<State>, events: seq<Event>)
    requires Run(opts, states, events) && |events| > 0
    ensures var n := |events| - 1;
            Run(opts, states[..n + 1], events[..n]) && Enabled(states[n], events[n])
                && states[n + 1] == Apply(states[n], events[n])
  {
    var n := |events| - 1;
    var xs, es := states[..n + 1], events[..n];
    forall k | 0 <= k < n ensures Enabled(xs[k], es[k]) && xs[k + 1] == Apply(xs[k], es[k]) {
      assert xs[k] == states[k] && es[k] == events[k] && xs[k + 1] == states[k + 1];
    }
  }

  // ---------------------------------------------------------------- the results

  /** No window is lost, and no int32 overflows: in every run the receive windows are conserved. */
  lemma ReceiveConserved(opts: Options, states: seq<State>, events: seq<Event>)
    requires opts.Valid() && Run(opts, states, events)
    ensures var v := states[|events|];
            && (forall k :: 0 <= k < |v.order| ==> v.order[k] in v.objects)
            && v.receive.window + v.receive.unacked + SumOf(Unread, v.order, v.objects) == opts.connectionWindow
            && 0 <= v.receive.window <= MAX_WINDOW && 0 <= v.receive.unacked <= MAX_WINDOW
            && v.receive.window == opts.connectionWindow - v.receive.accepted + v.receive.credited
    ensures var v := states[|events|];
            forall id :: id in v.objects ==>
              var s := v.objects[id];
              && 0 <= s.inflow.window <= MAX_WINDOW && 0 <= s.inflow.unacked <= MAX_WINDOW
              && s.inflow.window == opts.initialWindow - s.inflow.accepted + s.inflow.credited
              && (Granting(s) ==> s.inflow.window + s.inflow.unacked + s.inflow.Unread() == opts.initialWindow)
  {
    Reachable(opts, states, events);
    var v := states[|events|];
    SumNonNegative(v.order, v.objects, opts.initialWindow);
    forall id | id in v.objects ensures InflowOk(v.objects[id], opts.initialWindow) { }
  }

  /**
   In every run a handler has read the first bytes of the DATA that was taken in for it, and the body holds the rest.
   */
  lemma BodiesInOrder(opts: Options, states: seq<State>, events: seq<Event>, id: int)
    requires opts.Valid() && Run(opts, states, events) && id in states[|events|].objects
    ensures var s := states[|events|].objects[id];
            && s.inflow.given <= s.inflow.taken && s.inflow.pos <= |s.inflow.buf|
            && (!s.inflow.bodyClosed && s.phase != Closed ==>
                s.inflow.given + s.inflow.buf[s.inflow.pos..] == s.inflow.taken)
  {
    Reachable(opts, states, events);
    assert InflowOk(states[|events|].objects[id], opts.initialWindow);
  }

  /**
   Sections 6.9.1 and 6.9.2 of RFC 9113: in every run the send windows are what the peer granted less the DATA on the
   wire. After a SETTINGS frame that was refused half way, a stream's window follows the new initial window or the one
   before.
   */
  lemma SendWindowsExact(opts: Options, states: seq<State>, events: seq<Event>)
    requires opts.Valid() && Run(opts, states, events)
    ensures var v := states[|events|];
            && 0 <= v.send.window <= MAX_WINDOW && v.send.window == DEFAULT_WINDOW + v.send.increments - v.send.sent
            && (forall k :: 0 <= k < |v.order| ==> v.order[k] in v.objects)
            && v.send.sent == SumOf(Sent, v.order, v.objects) + ReplyBytes(v.replies)
    ensures var v := states[|events|];
            forall id :: id in v.objects ==>
              var f := v.objects[id].outflow;
              && f.sent == DataBytes(f.wire)
              && (v.objects[id].phase != Closed ==>
                    && -MAX_WINDOW <= f.window <= MAX_WINDOW
                    && (|| f.window == v.send.peerInitial + f.increments - f.sent
                        || (v.send.aborted && f.window == v.send.prevInitial + f.increments - f.sent)))
  {
    Reachable(opts, states, events);
    var v := states[|events|];
    forall id | id in v.objects ensures OutflowOk(v.objects[id], v.send) && FlagsOk(v.objects[id].outflow) { }
  }

  /**
   A blocked writer is never left asleep: in every run, one that waits on an empty channel waits for its stream's
   window, or is on the list exactly once and waits for the connection's window or for a call of OnWritable that is
   still to come.
   */
  lemma WritersWake(opts: Options, states: seq<State>, events: seq<Event>, id: int)
    requires opts.Valid() && Run(opts, states, events) && id in states[|events|].objects
    requires states[|events|].objects[id].waiter.parked && !states[|events|].objects[id].waiter.token
    ensures var v := states[|events|];
            && v.objects[id].phase != Closed
            && (|| v.objects[id].outflow.window <= 0
                || (Once(v.waiting, id) && (v.send.window <= 0 || v.owed)))
  {
    Reachable(opts, states, events);
    var v := states[|events|];
    assert WillWake(v.objects[id], v.send.window, v.owed);
    if v.objects[id].waiter.waitingConn { InOnce(v.waiting, id); }
  }

  ghost predicate Once(s: seq<int>, x: int) {
    exists i :: 0 <= i < |s| && s[i] == x && x !in s[..i] && x !in s[i + 1..]
  }

  lemma InOnce(s: seq<int>, x: int)
    requires Distinct(s) && x in s
    ensures Once(s, x)
  {
    var i :| 0 <= i < |s| && s[i] == x;
    assert x !in s[..i] && x !in s[i + 1..];
  }

  /** Section 8.1 of RFC 9113: in every run the frames of each stream, and of each error reply, are in order. */
  lemma FramesInOrder(opts: Options, states: seq<State>, events: seq<Event>)
    requires opts.Valid() && Run(opts, states, events)
    ensures var v := states[|events|];
            && (forall id :: id in v.objects ==> WireOk(v.objects[id].outflow.wire))
            && (forall k :: 0 <= k < |v.replies| ==> WireOk(v.replies[k]))
  {
    Reachable(opts, states, events);
    var v := states[|events|];
    forall id | id in v.objects ensures WireOk(v.objects[id].outflow.wire) { assert FlagsOk(v.objects[id].outflow); }
  }

  lemma {:induction false} ReachableAt(opts: Options, states: seq<State>, events: seq<Event>, k: nat)
    requires opts.Valid() && Run(opts, states, events) && k <= |events|
    ensures Ok(states[k])
    decreases |events|
  {
    if k == |events| {
      Reachable(opts, states, events);
    } else {
      PrefixRun(opts, states, events);
      ReachableAt(opts, states[..|events|], events[..|events| - 1], k);
    }
  }

  // ---------------------------------------------------------------- empty increments

  /** Section 6.9 of RFC 9113 forbids a WINDOW_UPDATE of 0. */
  ghost predicate SendsEmpty(v: State) {
    || (exists k :: 0 <= k < |v.receive.updates| && v.receive.updates[k] <= 0)
    || (exists id, k ::
          id in v.objects && 0 <= k < |v.objects[id].inflow.grants| && v.objects[id].inflow.grants[k] <= 0)
  }

  lemma GrantsNotEmpty(opts: Options, states: seq<State>, events: seq<Event>)
    requires opts.Valid() && Run(opts, states, events) && opts.initialWindow >= 2
    ensures !SendsEmpty(states[|events|])
  {
    Reachable(opts, states, events);
    var v := states[|events|];
    forall id | id in v.objects ensures Positive(v.objects[id].inflow.grants) {
      assert InflowOk(v.objects[id], opts.initialWindow);
    }
  }

  /** The state after the first request with a body. */
  function Requested(opts: Options): State {
    var v := Init(opts);
    v.(maxClient := 1, objects := map[1 := NewStream(v, false, -1)], order := [1], live := {1}, active := 1)
  }

  lemma RequestedIs(opts: Options)
    requires opts.Valid()
    ensures OpenStream(Init(opts), 1, false, -1, false).state == Requested(opts)
  {
    var r := OpenStream(Init(opts), 1, false, -1, false).state;
    assert r.objects == Requested(opts).objects && r.order == [1] && r.live == {1};
  }

  /** An empty DATA frame for a stream with a window of 1 is answered by an empty WINDOW_UPDATE. */
  lemma EmptyDataGrants(opts: Options)
    requires opts.Valid() && opts.initialWindow == 1
    ensures SendsEmpty(HandleData(Requested(opts), 1, [], false, false, false).state)
  {
    var v := Requested(opts);
    var q := HandleData(v, 1, [], false, false, false).state;
    assert q == TakeData(v, 1, [], 0, false, false);
    var f := Absorb(v.objects[1].inflow, [], 0, false, false);
    assert f.unacked == 0 && !f.eof && !f.bodyClosed && f.grants == [];
    assert q.objects[1].inflow.grants == f.grants + [0];
    assert q.objects[1].inflow.grants[0] <= 0;
  }

  /** With a window of 1, whatever the other options, an empty DATA frame is answered by a WINDOW_UPDATE of 0. */
  lemma EmptyGrant(opts: Options) returns (states: seq<State>, events: seq<Event>)
    requires opts.Valid() && opts.initialWindow == 1
    ensures Run(opts, states, events) && SendsEmpty(states[|events|])
  {
    var v := Requested(opts);
    events := [RequestBlock(1, false, -1, false), DataFrame(1, [], false, false, false)];
    states := [Init(opts), v, HandleData(v, 1, [], false, false, false).state];
    RequestedIs(opts);
    EmptyDataGrants(opts);
    forall k | 0 <= k < 2 ensures Enabled(states[k], events[k]) && states[k + 1] == Apply(states[k], events[k]) { }
  }

  /** A connection can send an empty WINDOW_UPDATE if and only if its streams have a window of 1. */
  lemma EmptyGrantsExactly(opts: Options)
    requires opts.Valid()
    ensures opts.initialWindow >= 2 <==>
              forall states, events :: Run(opts, states, events) ==> !SendsEmpty(states[|events|])
  {
    if opts.initialWindow >= 2 {
      forall states, events | Run(opts, states, events) ensures !SendsEmpty(states[|events|]) {
        GrantsNotEmpty(opts, states, events);
      }
    } else {
      var states, events := EmptyGrant(opts);
    }
  }
}
