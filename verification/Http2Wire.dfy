/**
 What each critical section of an HTTP/2 connection puts on the wire, and that its DATA respects the windows it found.
 */
module Http2Wire {
  import opened Words
  import opened Http2Model
  import opened Http2Flow

  // ---------------------------------------------------------------- sections that write no frame of a stream

  /**
   What a section may leave alone: a stream's frames, its body, the peer's increments, that it takes no more frames, or
   that it owes the peer less than half of the window.
   */
  datatype Aspect = Frames | Body | Increments | Refusal | Owed(initial: int)

  predicate OwesLittle(s: Stream, initial: int) {
    Granting(s) ==> s.inflow.unacked == 0 || s.inflow.unacked < initial / 2
  }

  predicate Refuses(s: Stream) { s.outflow.failed || s.phase == Closed || s.outflow.sentEnd || s.outflow.sentReset }

  predicate Kept(a: Aspect, s: Stream, t: Stream) {
    match a
    case Frames => t.outflow.wire == s.outflow.wire
    case Body => t.inflow.taken == s.inflow.taken
    case Increments => t.outflow.increments == s.outflow.increments
    case Refusal => Refuses(s) ==> Refuses(t)
    case Owed(initial) => OwesLittle(s, initial) ==> OwesLittle(t, initial)
  }

  /** The streams are the same, and this of each of them as it was. */
  ghost predicate Keeps(a: Aspect, x: map<int, Stream>, y: map<int, Stream>) {
    x.Keys == y.Keys && forall id :: id in x ==> Kept(a, x[id], y[id])
  }

  lemma KeepsTrans(a: Aspect, x: map<int, Stream>, y: map<int, Stream>, z: map<int, Stream>)
    requires Keeps(a, x, y) && Keeps(a, y, z)
    ensures Keeps(a, x, z)
  {
  }

  lemma PutKeeps(a: Aspect, objects: map<int, Stream>, id: int, s: Stream)
    requires id in objects && Kept(a, objects[id], s)
    ensures Keeps(a, objects, objects[id := s])
  {
  }

  lemma RemoveWires(a: Aspect, v: State, id: int, failed: bool)
    requires id in v.objects
    ensures Keeps(a, v.objects, Remove(v, id, failed).objects)
  {
  }

  lemma MarkWires(a: Aspect, v: State, id: int)
    requires id in v.objects
    ensures Keeps(a, v.objects, MarkReset(v, id).objects)
  {
  }

  lemma FailWires(a: Aspect, v: State, id: int)
    requires id in v.objects
    ensures Keeps(a, v.objects, Fail(v, id).objects)
  {
    MarkWires(a, v, id);
    RemoveWires(a, MarkReset(v, id), id, true);
  }

  lemma AbsorbedWires(a: Aspect, v: State, id: int, data: seq<byte>, pad: int, end: bool, compact: bool)
    requires id in v.objects && a != Body && !a.Owed?
    ensures Keeps(a, v.objects, Absorbed(v, id, data, pad, end, compact).objects)
  {
    PutKeeps(a, v.objects, id, AbsorbedStream(v.objects[id], data, pad, end, compact));
  }

  lemma RegrantedWires(a: Aspect, v: State, id: int)
    requires id in v.objects && !a.Owed?
    ensures Keeps(a, v.objects, Regranted(v, id).objects)
  {
    PutKeeps(a, v.objects, id, v.objects[id].(inflow := Regrant(v.objects[id].inflow, v.opts.initialWindow)));
  }

  lemma TakeDataWires(a: Aspect, v: State, id: int, data: seq<byte>, pad: int, end: bool, compact: bool)
    requires id in v.objects && a != Body && !a.Owed?
    ensures Keeps(a, v.objects, TakeData(v, id, data, pad, end, compact).objects)
  {
    var v1 := Absorbed(v, id, data, pad, end, compact);
    AbsorbedWires(a, v, id, data, pad, end, compact);
    RemoveWires(a, v1, id, false);
    var v2 := Credited(if end && v.objects[id].phase == HalfClosedLocal then Remove(v1, id, false) else v1);
    KeepsTrans(a, v.objects, v1.objects, v2.objects);
    RegrantedWires(a, v2, id);
    KeepsTrans(a, v.objects, v2.objects, Regranted(v2, id).objects);
  }

  lemma TakeReplies(v: State, id: int, data: seq<byte>, pad: int, end: bool, compact: bool)
    requires id in v.objects
    ensures TakeData(v, id, data, pad, end, compact).replies == v.replies
  {
    var v1 := Absorbed(v, id, data, pad, end, compact);
    assert v1.replies == v.replies;
    var v2 := Credited(if end && v.objects[id].phase == HalfClosedLocal then Remove(v1, id, false) else v1);
    assert v2.replies == v.replies;
  }

  lemma RefundWires(a: Aspect, v: State, id: int, n: int)
    requires id in v.objects
    ensures Keeps(a, v.objects, Fail(v.(receive := Refund(v.receive, n)), id).objects)
  {
    FailWires(a, v.(receive := Refund(v.receive, n)), id);
  }

  lemma ChargedWires(a: Aspect, v: State, id: int, n: int)
    requires id in v.objects
    ensures Keeps(a, v.objects, Fail(Charged(v, id, n), id).objects)
  {
    var charged := Charged(v, id, n);
    PutKeeps(a, v.objects, id, charged.objects[id]);
    FailWires(a, charged, id);
    KeepsTrans(a, v.objects, charged.objects, Fail(charged, id).objects);
  }

  /** The states that a DATA frame can lead to. */
  ghost predicate DataLeads(v: State, id: int, n: int, q: State) {
    || q == v
    || q == Credited(v.(receive := Refund(v.receive, n)))
    || (id in v.objects && q == Fail(v.(receive := Refund(v.receive, n)), id))
    || (id in v.objects && q == Fail(Charged(v, id, n), id))
  }

  lemma DataCases(v: State, id: int, payload: seq<byte>, padded: bool, end: bool, compact: bool)
    returns (data: seq<byte>, pad: int)
    ensures var q := HandleData(v, id, payload, padded, end, compact).state;
            DataLeads(v, id, |payload|, q) || (id in v.objects && q == TakeData(v, id, data, pad, end, compact))
  {
    var stripped := StripPadding(payload, padded);
    data, pad := [], 0;
    if stripped.Stripped? { data, pad := stripped.data, stripped.pad; }
  }

  lemma LeadsWires(a: Aspect, v: State, id: int, n: int, q: State)
    requires DataLeads(v, id, n, q)
    ensures Keeps(a, v.objects, q.objects) && q.replies == v.replies
  {
    if id in v.objects {
      RefundWires(a, v, id, n);
      ChargedWires(a, v, id, n);
    }
  }

  lemma DataWires(a: Aspect, v: State, id: int, payload: seq<byte>, padded: bool, end: bool, compact: bool)
    requires a != Body && !a.Owed?
    ensures var q := HandleData(v, id, payload, padded, end, compact).state;
            Keeps(a, v.objects, q.objects) && q.replies == v.replies
  {
    var data, pad := DataCases(v, id, payload, padded, end, compact);
    var q := HandleData(v, id, payload, padded, end, compact).state;
    if DataLeads(v, id, |payload|, q) {
      LeadsWires(a, v, id, |payload|, q);
    } else {
      TakeDataWires(a, v, id, data, pad, end, compact);
      TakeReplies(v, id, data, pad, end, compact);
    }
  }

  lemma TrailerWires(a: Aspect, v: State, id: int, wellFormed: bool)
    requires LiveOk(v.objects, v.live, v.active, v.maxClient)
    ensures Keeps(a, v.objects, FinishTrailers(v, id, wellFormed).state.objects)
  {
    if id in v.live {
      FailWires(a, v, id);
      TrailersTaken(a, v, id);
    }
  }

  lemma TrailersTaken(a: Aspect, v: State, id: int)
    requires id in v.objects && v.objects[id].phase != Closed
    ensures var s1 := v.objects[id].(inflow := v.objects[id].inflow.(gotTrailers := true, eof := true));
            && Keeps(a, v.objects, Remove(WithStream(v, id, s1), id, false).objects)
            && Keeps(a, v.objects, WithStream(v, id, s1.(phase := HalfClosedRemote)).objects)
  {
    var s1 := v.objects[id].(inflow := v.objects[id].inflow.(gotTrailers := true, eof := true));
    PutKeeps(a, v.objects, id, s1);
    PutKeeps(a, v.objects, id, s1.(phase := HalfClosedRemote));
    RemoveWires(a, WithStream(v, id, s1), id, false);
    KeepsTrans(a, v.objects, WithStream(v, id, s1).objects, Remove(WithStream(v, id, s1), id, false).objects);
  }

  lemma {:induction false} WakeWires(a: Aspect, objects: map<int, Stream>, waiting: seq<int>)
    ensures Keeps(a, objects, WakeAll(objects, waiting))
    decreases |waiting|
  {
    if waiting != [] {
      var id := waiting[0];
      if id in objects {
        var next := objects[id := Woken(objects[id])];
        PutKeeps(a, objects, id, Woken(objects[id]));
        WakeWires(a, next, waiting[1..]);
        KeepsTrans(a, objects, next, WakeAll(next, waiting[1..]));
      } else {
        WakeWires(a, objects, waiting[1..]);
      }
    }
  }

  lemma UpdateWires(a: Aspect, v: State, id: int, inc: nat)
    requires a != Increments
    ensures Keeps(a, v.objects, HandleWindowUpdate(v, id, inc).state.objects)
  {
    WakeWires(a, v.objects, v.waiting);
    if id in v.objects {
      FailWires(a, v, id);
      PutKeeps(a, v.objects, id, MoveWindow(v.objects[id], inc, inc));
    }
  }

  lemma {:induction false} ShiftWires(a: Aspect, objects: map<int, Stream>, visit: seq<int>, delta: int)
    ensures Keeps(a, objects, ShiftWindows(objects, visit, delta).objects)
    decreases |visit|
  {
    if visit != [] {
      var id := visit[0];
      if id in objects {
        var next := objects[id := MoveWindow(objects[id], delta, 0)];
        PutKeeps(a, objects, id, next[id]);
        ShiftWires(a, next, visit[1..], delta);
        KeepsTrans(a, objects, next, ShiftWindows(next, visit[1..], delta).objects);
      } else {
        ShiftWires(a, objects, visit[1..], delta);
      }
    }
  }

  lemma SettingWires(a: Aspect, v: State, p: Setting)
    ensures Keeps(a, v.objects, ApplySetting(v, p).state.objects)
  {
    if p.InitialWindow? { ShiftWires(a, v.objects, p.visit, p.value - v.send.peerInitial); }
  }

  lemma {:induction false} SettingsWires(a: Aspect, v: State, settings: seq<Setting>)
    ensures Keeps(a, v.objects, HandleSettings(v, settings).state.objects)
    decreases |settings|
  {
    if settings != [] {
      var r := ApplySetting(v, settings[0]);
      SettingWires(a, v, settings[0]);
      SettingsWires(a, r.state, settings[1..]);
      KeepsTrans(a, v.objects, r.state.objects, HandleSettings(r.state, settings[1..]).state.objects);
    }
  }

  lemma CleanupWires(a: Aspect, v: State, id: int)
    requires id in v.objects
    ensures Keeps(a, v.objects, Cleanup(v, id).objects)
  {
    MarkWires(a, v, id);
    RemoveWires(a, v, id, true);
    RemoveWires(a, MarkReset(v, id), id, true);
    KeepsTrans(a, v.objects, MarkReset(v, id).objects, Remove(MarkReset(v, id), id, true).objects);
  }

  lemma {:induction false} RemoveAllWires(a: Aspect, v: State, visit: seq<int>)
    ensures Keeps(a, v.objects, RemoveAll(v, visit).objects)
    decreases |visit|
  {
    if visit != [] {
      if visit[0] in v.objects {
        var next := Remove(v, visit[0], true);
        RemoveWires(a, v, visit[0], true);
        RemoveAllWires(a, next, visit[1..]);
        KeepsTrans(a, v.objects, next.objects, RemoveAll(next, visit[1..]).objects);
      } else {
        RemoveAllWires(a, v, visit[1..]);
      }
    }
  }

  predicate Writes(e: Event) { e.Headers? || e.HeadersAndBody? || e.EndData? || e.DataPass? }

  predicate FromPeer(e: Event) {
    e.DataFrame? || e.TrailerBlock? || e.WindowUpdate? || e.Settings? || e.ResetFrame? || e.RequestBlock?
  }

  /** The events that are about this: they alone change it. */
  predicate Concerns(a: Aspect, e: Event) {
    match a
    case Frames => Writes(e)
    case Body => e.DataFrame?
    case Increments => e.WindowUpdate?
    case Refusal => false
    case Owed(_) => e.DataFrame? || e.ReadBody?
  }

  lemma FrameEvents(a: Aspect, v: State, e: Event)
    requires Enabled(v, e) && FromPeer(e) && !e.RequestBlock? && !Concerns(a, e)
    requires LiveOk(v.objects, v.live, v.active, v.maxClient)
    ensures Keeps(a, v.objects, Apply(v, e).objects)
  {
    match e
    case DataFrame(id, payload, padded, end, compact) => DataWires(a, v, id, payload, padded, end, compact);
    case TrailerBlock(id, wellFormed) => TrailerWires(a, v, id, wellFormed);
    case WindowUpdate(id, inc) => UpdateWires(a, v, id, inc);
    case Settings(settings) => SettingsWires(a, v, settings);
    case ResetFrame(id) => if id in v.objects { FailWires(a, v, id); }
  }

  lemma ReadWires(a: Aspect, v: State, id: int, size: nat)
    requires id in v.objects && !a.Owed?
    ensures Keeps(a, v.objects, Read(v, id, size).objects)
  {
  }

  lemma CloseWires(a: Aspect, v: State, id: int)
    requires id in v.objects
    ensures Keeps(a, v.objects, CloseBody(v, id).objects)
  {
  }

  /** A section that is neither a request nor a write of the handler adds no frame to any stream. */
  lemma OtherEvents(a: Aspect, v: State, e: Event)
    requires Enabled(v, e) && !Writes(e) && !e.RequestBlock? && !Concerns(a, e)
    requires LiveOk(v.objects, v.live, v.active, v.maxClient)
    ensures Keeps(a, v.objects, Apply(v, e).objects)
  {
    if FromPeer(e) {
      FrameEvents(a, v, e);
    } else {
      match e
      case ReadBody(id, size) => ReadWires(a, v, id, size);
      case BodyClose(id) => CloseWires(a, v, id);
      case StreamReset(id) => FailWires(a, v, id);
      case HandlerDone(id) => CleanupWires(a, v, id);
      case Writable(_) => WakeWires(a, v.objects, v.waiting);
      case ConnClosed(visit) => RemoveAllWires(a, v.(closed := true), visit);
      case _ =>
    }
  }

  // ---------------------------------------------------------------- the handler's writes

  /** A DATA frame respects both windows and the peer's frame size. */
  ghost predicate Respects(v: State, streamWindow: int, frame: Frame) {
    frame.Data? ==> 0 <= frame.length <= v.send.window && frame.length <= v.send.peerMaxFrame
                    && (frame.length > 0 ==> frame.length <= streamWindow)
  }

  /** The frames that the section added to the stream respect the windows it found. */
  ghost predicate Adds(v: State, s: Stream, s1: Stream) {
    && s.outflow.wire <= s1.outflow.wire
    && (forall i :: |s.outflow.wire| <= i < |s1.outflow.wire| ==> Respects(v, s.outflow.window, s1.outflow.wire[i]))
  }

  /** The other streams' frames are as they were. */
  ghost predicate KeepsBut(a: Aspect, x: map<int, Stream>, y: map<int, Stream>, id: int) {
    x.Keys == y.Keys && forall other :: other in x && other != id ==> Kept(a, x[other], y[other])
  }

  lemma EndWires(a: Aspect, v: State, id: int)
    requires id in v.objects
    ensures Keeps(a, v.objects, EndLocal(v, id).objects)
  {
    MarkWires(a, v, id);
    RemoveWires(a, v, id, false);
    RemoveWires(a, MarkReset(v, id), id, false);
    KeepsTrans(a, v.objects, MarkReset(v, id).objects, Remove(MarkReset(v, id), id, false).objects);
  }

  lemma EmitWires(v: State, id: int, frame: Frame)
    requires id in v.objects
    ensures var q := EmitOn(v, id, frame);
            KeepsBut(Frames, v.objects, q.objects, id) && id in q.objects
                && q.objects[id].outflow.wire == v.objects[id].outflow.wire + [frame]
  {
    var v1 := WithStream(v, id, Emit(v.objects[id], frame))
      .(send := Spend(v.send, if frame.Data? then frame.length else 0));
    EndWires(Frames, v1, id);
  }

  lemma ParkWires(a: Aspect, v: State, id: int, room: Room)
    requires id in v.objects
    ensures Keeps(a, v.objects, Park(v, id, room).objects)
  {
  }

  lemma ChunkFits(v: State, s: Stream, length: nat, end: bool)
    requires SendOk(v.send) && length > 0 && Available(v, s) > 0
    ensures Respects(v, s.outflow.window, Data(Chunk(v, s, length), end))
  {
  }

  lemma PassWires(v: State, id: int, length: nat, end: bool, room: Room)
    requires SendOk(v.send) && id in v.objects && length > 0
    ensures var q := WriteData(v, id, length, end, room);
            KeepsBut(Frames, v.objects, q.objects, id) && id in q.objects && Adds(v, v.objects[id], q.objects[id])
  {
    var s := v.objects[id];
    PutKeeps(Frames, v.objects, id, s.(waiter := s.waiter.(waitingConn := false)));
    if !WriteRefused(v, s) {
      if Blocked(v, s, room) {
        ParkWires(Frames, v, id, room);
      } else {
        var n := Chunk(v, s, length);
        ChunkFits(v, s, length, end && n == length);
        EmitWires(Off(v, id), id, Data(n, end && n == length));
      }
    }
  }

  lemma WholeWires(v: State, id: int, length: nat, writable: bool)
    requires SendOk(v.send) && id in v.objects
    ensures var q := WriteHeadersAndBody(v, id, length, writable);
            KeepsBut(Frames, v.objects, q.objects, id) && id in q.objects && Adds(v, v.objects[id], q.objects[id])
  {
    EmitWires(v, id, Final(false));
    EmitWires(EmitOn(v, id, Final(false)), id, Data(length, true));
  }

  lemma SmallWires(v: State, id: int, frame: Frame)
    requires SendOk(v.send) && id in v.objects && FrameLength(frame) == 0
    ensures var q := EmitOn(v, id, frame);
            KeepsBut(Frames, v.objects, q.objects, id) && id in q.objects && Adds(v, v.objects[id], q.objects[id])
  {
    EmitWires(v, id, frame);
  }

  lemma WriteEvents(v: State, e: Event)
    requires SendOk(v.send) && Enabled(v, e) && Writes(e)
    ensures var q := Apply(v, e);
            KeepsBut(Frames, v.objects, q.objects, e.id) && e.id in q.objects
                && Adds(v, v.objects[e.id], q.objects[e.id])
  {
    match e
    case Headers(id, frame) => SmallWires(v, id, frame);
    case HeadersAndBody(id, length, writable) => WholeWires(v, id, length, writable);
    case EndData(id) => SmallWires(v, id, Data(0, true));
    case DataPass(id, length, end, room) => PassWires(v, id, length, end, room);
  }

  // ---------------------------------------------------------------- what the writes leave alone

  lemma EmitLeaves(a: Aspect, v: State, id: int, frame: Frame)
    requires id in v.objects && a != Frames
    ensures Keeps(a, v.objects, EmitOn(v, id, frame).objects)
  {
    var v1 := WithStream(v, id, Emit(v.objects[id], frame))
      .(send := Spend(v.send, if frame.Data? then frame.length else 0));
    PutKeeps(a, v.objects, id, Emit(v.objects[id], frame));
    EndWires(a, v1, id);
    KeepsTrans(a, v.objects, v1.objects, EndLocal(v1, id).objects);
  }

  lemma PassLeaves(a: Aspect, v: State, id: int, length: nat, end: bool, room: Room)
    requires id in v.objects && a != Frames
    ensures Keeps(a, v.objects, WriteData(v, id, length, end, room).objects)
  {
    var s := v.objects[id];
    PutKeeps(a, v.objects, id, s.(waiter := s.waiter.(waitingConn := false)));
    ParkWires(a, v, id, room);
    var n := Chunk(v, s, length);
    EmitLeaves(a, Off(v, id), id, Data(n, end && n == length));
    KeepsTrans(a, v.objects, Off(v, id).objects, EmitOn(Off(v, id), id, Data(n, end && n == length)).objects);
  }

  lemma WholeLeaves(a: Aspect, v: State, id: int, length: nat, writable: bool)
    requires id in v.objects && a != Frames
    ensures Keeps(a, v.objects, WriteHeadersAndBody(v, id, length, writable).objects)
  {
    var v1 := EmitOn(v, id, Final(false));
    EmitLeaves(a, v, id, Final(false));
    EmitLeaves(a, v1, id, Data(length, true));
    KeepsTrans(a, v.objects, v1.objects, EmitOn(v1, id, Data(length, true)).objects);
  }

  lemma WritesLeave(a: Aspect, v: State, e: Event)
    requires Enabled(v, e) && Writes(e) && a != Frames
    ensures Keeps(a, v.objects, Apply(v, e).objects)
  {
    match e
    case Headers(id, frame) => EmitLeaves(a, v, id, frame);
    case HeadersAndBody(id, length, writable) => WholeLeaves(a, v, id, length, writable);
    case EndData(id) => EmitLeaves(a, v, id, Data(0, true));
    case DataPass(id, length, end, room) => PassLeaves(a, v, id, length, end, room);
  }

  /** What an event is not about it leaves alone, in every stream. */
  lemma EventLeaves(a: Aspect, v: State, e: Event)
    requires Ok(v) && Enabled(v, e) && !e.RequestBlock? && !Concerns(a, e)
    ensures Keeps(a, v.objects, Apply(v, e).objects)
  {
    if Writes(e) { WritesLeave(a, v, e); } else { OtherEvents(a, v, e); }
  }

  // ---------------------------------------------------------------- error replies

  /** The replies that the section added respect the connection's window, the fresh stream's and the frame size. */
  ghost predicate AddsReplies(v: State, q: State) {
    && v.replies <= q.replies
    && (forall k, i :: |v.replies| <= k < |q.replies| && 0 <= i < |q.replies[k]| ==>
          Respects(v, v.send.peerInitial, q.replies[k][i]))
  }

  lemma ReplyEvents(v: State, e: Event)
    requires SendOk(v.send) && Enabled(v, e)
    ensures AddsReplies(v, Apply(v, e))
  {
    match e
    case ErrorReply(length) =>
    case Settings(settings) => SettingsReplies(v, settings);
    case ConnClosed(visit) => RemoveAllReplies(v.(closed := true), visit);
    case DataFrame(id, payload, padded, end, compact) => DataWires(Frames, v, id, payload, padded, end, compact);
    case _ => SameReplies(v, e);
  }

  lemma SameReplies(v: State, e: Event)
    requires Enabled(v, e) && !e.ErrorReply? && !e.Settings? && !e.ConnClosed? && !e.DataFrame?
    ensures Apply(v, e).replies == v.replies
  {
    if Writes(e) { WriteReplies(v, e); } else if FromPeer(e) { FrameReplies(v, e); }
  }

  lemma FrameReplies(v: State, e: Event)
    requires Enabled(v, e) && FromPeer(e) && !e.Settings? && !e.DataFrame?
    ensures Apply(v, e).replies == v.replies
  {
    match e
    case TrailerBlock(id, wellFormed) => TrailerReplies(v, id, wellFormed);
    case WindowUpdate(id, inc) => UpdateReplies(v, id, inc);
    case _ =>
  }

  lemma TrailerReplies(v: State, id: int, wellFormed: bool)
    ensures FinishTrailers(v, id, wellFormed).state.replies == v.replies
  {
  }

  lemma UpdateReplies(v: State, id: int, inc: int)
    ensures HandleWindowUpdate(v, id, inc).state.replies == v.replies
  {
  }

  lemma WriteReplies(v: State, e: Event)
    requires Enabled(v, e) && Writes(e)
    ensures Apply(v, e).replies == v.replies
  {
  }

  lemma {:induction false} SettingsReplies(v: State, settings: seq<Setting>)
    ensures HandleSettings(v, settings).state.replies == v.replies
    decreases |settings|
  {
    if settings != [] { SettingsReplies(ApplySetting(v, settings[0]).state, settings[1..]); }
  }

  lemma {:induction false} RemoveAllReplies(v: State, visit: seq<int>)
    ensures RemoveAll(v, visit).replies == v.replies
    decreases |visit|
  {
    if visit != [] {
      RemoveAllReplies(v, visit[1..]);
      if visit[0] in v.objects { RemoveAllReplies(Remove(v, visit[0], true), visit[1..]); }
    }
  }

  // ---------------------------------------------------------------- the result

  /** What a step does to stream `id`: its new frames respect the windows, and a new stream has none. */
  ghost predicate StreamAdds(v: State, q: State, id: int) {
    && (id in v.objects ==> id in q.objects && Adds(v, v.objects[id], q.objects[id]))
    && (id !in v.objects && id in q.objects ==> q.objects[id].outflow.wire == [])
  }

  lemma OpenAdds(v: State, number: int, end: bool, declared: int, refused: bool, id: int)
    requires Ok(v)
    ensures StreamAdds(v, OpenStream(v, number, end, declared, refused).state, id)
  {
    if number > v.maxClient { assert number !in v.objects; }
  }

  lemma StepAdds(v: State, e: Event, id: int)
    requires Ok(v) && Enabled(v, e)
    ensures StreamAdds(v, Apply(v, e), id)
  {
    if e.RequestBlock? {
      OpenAdds(v, e.id, e.end, e.declared, e.refused, id);
    } else if Writes(e) {
      WriteEvents(v, e);
    } else {
      OtherEvents(Frames, v, e);
    }
  }

  /**
   No DATA frame exceeds a window or the peer's frame size: in every run, every step adds to every stream only frames
   that respect the connection's window, the stream's and the frame size as the step found them, and to the error
   replies only frames that respect them as well; a stream begins with no frame.
   */
  lemma DataWithinWindows(opts: Options, states: seq<State>, events: seq<Event>, k: nat, id: int)
    requires opts.Valid() && Run(opts, states, events) && k < |events|
    ensures StreamAdds(states[k], states[k + 1], id)
    ensures AddsReplies(states[k], states[k + 1])
  {
    ReachableAt(opts, states, events, k);
    StepAdds(states[k], events[k], id);
    ReplyEvents(states[k], events[k]);
  }
}
