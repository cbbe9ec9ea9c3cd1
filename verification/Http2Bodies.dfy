/**
 What the frames of a run add up to: bodies, windows and bytes written, counted from the events themselves and not from
 what the connection records.
 */
module Http2Bodies {
  import opened Words
  import opened Http2Model
  import opened Http2Flow
  import opened Http2Wire

  // ---------------------------------------------------------------- bodies

  /** The connection counts a DATA frame with this payload, whatever becomes of it. */
  predicate Counts(v: State, id: int, payload: seq<byte>, padded: bool) {
    && id % 2 == 1 && id <= v.maxClient && StripPadding(payload, padded).Stripped? && |payload| <= v.receive.window
  }

  /** The data of the frame is meant for the body: the stream still receives, the windows and the length have room. */
  predicate Fits(s: Stream, payload: seq<byte>, size: nat, end: bool) {
    && (s.phase == Open || s.phase == HalfClosedLocal) && !s.inflow.gotTrailers && |payload| <= s.inflow.window
    && (s.inflow.declared >= 0 ==>
          s.inflow.received + size <= s.inflow.declared && (end ==> s.inflow.received + size == s.inflow.declared))
  }

  /** The frame's data joins the body that the handler reads. */
  predicate Joins(v: State, id: int, payload: seq<byte>, padded: bool, end: bool) {
    && Counts(v, id, payload, padded) && id in v.live && id in v.objects
    && Fits(v.objects[id], payload, |StripPadding(payload, padded).data|, end) && !v.objects[id].inflow.bodyClosed
  }

  /** What the event adds to the body of stream `id`. */
  function Adding(v: State, e: Event, id: int): seq<byte> {
    if e.DataFrame? && e.id == id && Joins(v, id, e.payload, e.padded, e.end) then
      StripPadding(e.payload, e.padded).data
    else []
  }

  lemma TakeDataBody(v: State, id: int, data: seq<byte>, pad: int, end: bool, compact: bool)
    requires id in v.objects
    ensures var q := TakeData(v, id, data, pad, end, compact);
            && KeepsBut(Body, v.objects, q.objects, id) && id in q.objects
            && q.objects[id].inflow.taken
               == v.objects[id].inflow.taken + if v.objects[id].inflow.bodyClosed then [] else data
  {
    var v1 := Absorbed(v, id, data, pad, end, compact);
    RemoveWires(Body, v1, id, false);
    var v2 := Credited(if end && v.objects[id].phase == HalfClosedLocal then Remove(v1, id, false) else v1);
    assert Keeps(Body, v1.objects, v2.objects);
    RegrantedWires(Body, v2, id);
    AbsorbTaken(v.objects[id].inflow, data, pad, end, compact);
  }

  lemma AbsorbTaken(f: Inflow, data: seq<byte>, pad: int, end: bool, compact: bool)
    ensures Absorb(f, data, pad, end, compact).taken == f.taken + if f.bodyClosed then [] else data
  {
    assert f.taken + [] == f.taken;
  }

  /** The frame reaches the stream it is for. */
  predicate Reaches(v: State, id: int, payload: seq<byte>, padded: bool, end: bool) {
    && Counts(v, id, payload, padded) && id in v.live && id in v.objects
    && Fits(v.objects[id], payload, |StripPadding(payload, padded).data|, end)
  }

  /** What becomes of a DATA frame. */
  lemma DataPaths(v: State, id: int, payload: seq<byte>, padded: bool, end: bool, compact: bool)
    ensures var q, stripped := HandleData(v, id, payload, padded, end, compact).state, StripPadding(payload, padded);
            && (Reaches(v, id, payload, padded, end) ==>
                  q == TakeData(v, id, stripped.data, stripped.pad, end, compact))
            && (!Reaches(v, id, payload, padded, end) ==> DataLeads(v, id, |payload|, q))
  {
  }

  lemma DataCode(v: State, id: int, payload: seq<byte>, padded: bool, end: bool, compact: bool)
    ensures HandleData(v, id, payload, padded, end, compact).code == NoError <==> Counts(v, id, payload, padded)
    ensures !Counts(v, id, payload, padded) ==> HandleData(v, id, payload, padded, end, compact).state == v
  {
  }

  /** A DATA frame adds its data to the body it is for, or nothing, and touches no other body. */
  lemma DataJoins(v: State, id: int, payload: seq<byte>, padded: bool, end: bool, compact: bool)
    ensures var q := HandleData(v, id, payload, padded, end, compact).state;
            && KeepsBut(Body, v.objects, q.objects, id)
            && (id in v.objects ==>
                  q.objects[id].inflow.taken
                  == v.objects[id].inflow.taken
                     + if Joins(v, id, payload, padded, end) then StripPadding(payload, padded).data else [])
  {
    var q, stripped := HandleData(v, id, payload, padded, end, compact).state, StripPadding(payload, padded);
    DataPaths(v, id, payload, padded, end, compact);
    if Reaches(v, id, payload, padded, end) {
      TakeDataBody(v, id, stripped.data, stripped.pad, end, compact);
    } else {
      LeadsWires(Body, v, id, |payload|, q);
      if id in v.objects { assert v.objects[id].inflow.taken + [] == v.objects[id].inflow.taken; }
    }
  }

  /**
   When a frame is taken in and the stream goes on, what the handler has read and will read is what it was, followed by
   the data of the frame.
   */
  lemma DataFollows(v: State, id: int, payload: seq<byte>, padded: bool, end: bool, compact: bool)
    requires Ok(v)
    ensures var r := HandleData(v, id, payload, padded, end, compact);
            r.code == NoError && id in v.objects && id in r.state.objects && GoesOn(r.state, id) ==>
              && StripPadding(payload, padded).Stripped?
              && Content(r.state.objects[id].inflow)
                 == Content(v.objects[id].inflow) + StripPadding(payload, padded).data
  {
    var r := HandleData(v, id, payload, padded, end, compact);
    HandleDataKeeps(v, id, payload, padded, end, compact);
    if r.code == NoError && id in v.objects && id in r.state.objects && GoesOn(r.state, id) {
      LiveJoins(v, id, payload, padded, end, compact);
      DataJoins(v, id, payload, padded, end, compact);
      OkContent(v, id);
      OkContent(r.state, id);
    }
  }

  /** The stream is there and its body open. */
  predicate GoesOn(v: State, id: int)
    requires id in v.objects
  {
    id in v.live && !v.objects[id].inflow.bodyClosed
  }

  /** What the handler has read of the body, and what it will. */
  function Content(f: Inflow): seq<byte> { f.given + if f.pos <= |f.buf| then f.buf[f.pos..] else [] }

  lemma OkContent(v: State, id: int)
    requires Ok(v) && id in v.objects && GoesOn(v, id)
    ensures Content(v.objects[id].inflow) == v.objects[id].inflow.taken
  {
    OkKnown(v, id);
  }

  lemma LiveJoins(v: State, id: int, payload: seq<byte>, padded: bool, end: bool, compact: bool)
    requires Ok(v) && id in v.objects
    requires var r := HandleData(v, id, payload, padded, end, compact);
             r.code == NoError && id in r.state.objects && GoesOn(r.state, id)
    ensures Joins(v, id, payload, padded, end) && id in v.live && !v.objects[id].inflow.bodyClosed
  {
    DataPaths(v, id, payload, padded, end, compact);
    DataCode(v, id, payload, padded, end, compact);
    if Reaches(v, id, payload, padded, end) {
      var stripped := StripPadding(payload, padded);
      TakeDataOpen(v, id, stripped.data, stripped.pad, end, compact);
    } else {
      RefusedLeaves(v, id, payload, padded, end, compact);
    }
  }

  lemma FailLeaves(v: State, id: int)
    requires id in v.objects && v.objects[id].phase != Closed
    ensures id !in Fail(v, id).live
  {
  }

  /** A frame that is counted and does not reach its stream ends it. */
  lemma RefusedLeaves(v: State, id: int, payload: seq<byte>, padded: bool, end: bool, compact: bool)
    requires LiveOk(v.objects, v.live, v.active, v.maxClient)
    requires Counts(v, id, payload, padded) && !Reaches(v, id, payload, padded, end)
    ensures id !in HandleData(v, id, payload, padded, end, compact).state.live
  {
    if id in v.live {
      FailLeaves(v.(receive := Refund(v.receive, |payload|)), id);
      FailLeaves(Charged(v, id, |payload|), id);
    }
  }

  lemma TakeDataOpen(v: State, id: int, data: seq<byte>, pad: int, end: bool, compact: bool)
    requires id in v.objects
    ensures var q := TakeData(v, id, data, pad, end, compact);
            id in q.objects && q.objects[id].inflow.bodyClosed == v.objects[id].inflow.bodyClosed
  {
    var v1 := Absorbed(v, id, data, pad, end, compact);
    assert v1.objects[id].inflow.bodyClosed == v.objects[id].inflow.bodyClosed;
    var v2 := Credited(if end && v.objects[id].phase == HalfClosedLocal then Remove(v1, id, false) else v1);
    assert v2.objects[id].inflow.bodyClosed == v.objects[id].inflow.bodyClosed;
  }

  // ---------------------------------------------------------------- bodies over a run

  /** The data of the frames that joined the body of stream `id`, in the order in which they arrived. */
  function Arrived(states: seq<State>, events: seq<Event>, id: int, k: nat): seq<byte>
    requires k <= |events| && |states| == |events| + 1
  {
    if k == 0 then [] else Arrived(states, events, id, k - 1) + Adding(states[k - 1], events[k - 1], id)
  }

  /** What one event does to one body. */
  lemma StepBody(v: State, e: Event, id: int)
    requires Ok(v) && Enabled(v, e)
    ensures id in v.objects ==>
              id in Apply(v, e).objects && Apply(v, e).objects[id].inflow.taken
                  == v.objects[id].inflow.taken + Adding(v, e, id)
    ensures id !in v.objects ==> Adding(v, e, id) == []
    ensures id !in v.objects && id in Apply(v, e).objects ==> Apply(v, e).objects[id].inflow.taken == []
  {
    if id in v.objects { assert v.objects[id].inflow.taken + [] == v.objects[id].inflow.taken; }
    if e.DataFrame? {
      DataJoins(v, e.id, e.payload, e.padded, e.end, e.compact);
    } else if e.RequestBlock? {
      OpenBody(v, e.id, e.end, e.declared, e.refused, id);
    } else {
      EventLeaves(Body, v, e);
    }
  }

  lemma OpenBody(v: State, number: int, end: bool, declared: int, refused: bool, id: int)
    requires Ok(v)
    ensures var q := OpenStream(v, number, end, declared, refused).state;
            && (id in v.objects ==> id in q.objects && q.objects[id] == v.objects[id])
            && (id !in v.objects && id in q.objects ==> q.objects[id] == NewStream(v, end, declared))
  {
    if number > v.maxClient { assert number !in v.objects; }
  }

  lemma {:induction false} TakenIsArrived(opts: Options, states: seq<State>, events: seq<Event>, id: int, k: nat)
    requires opts.Valid() && Run(opts, states, events) && k <= |events|
    ensures if id in states[k].objects then states[k].objects[id].inflow.taken == Arrived(states, events, id, k)
            else Arrived(states, events, id, k) == []
    decreases k
  {
    if k > 0 {
      TakenIsArrived(opts, states, events, id, k - 1);
      ReachableAt(opts, states, events, k - 1);
      StepBody(states[k - 1], events[k - 1], id);
    }
  }

  /**
   In every run a handler has read the first bytes of the data of the DATA frames that were taken in for its stream, as
   the peer sent them and without their padding, and while the body is open it holds exactly the rest.
   */
  lemma BodiesAsSent(opts: Options, states: seq<State>, events: seq<Event>, id: int, k: nat)
    requires opts.Valid() && Run(opts, states, events) && k <= |events| && id in states[k].objects
    ensures var s := states[k].objects[id];
            && s.inflow.given <= Arrived(states, events, id, k)
            && (!s.inflow.bodyClosed && s.phase != Closed ==>
                  Content(s.inflow) == Arrived(states, events, id, k))
  {
    TakenIsArrived(opts, states, events, id, k);
    ReachableAt(opts, states, events, k);
    OkKnown(states[k], id);
  }

  // ---------------------------------------------------------------- the connection's counts

  /** What the peer's frame adds to the bytes received on the connection. */
  function Received(v: State, e: Event): int {
    if e.DataFrame? && Counts(v, e.id, e.payload, e.padded) then |e.payload| else 0
  }

  /** What the peer's frame adds to the connection's send window. */
  function ConnGrant(v: State, e: Event): int {
    if e.WindowUpdate? && e.id == 0 && v.send.window + e.inc <= MAX_WINDOW then e.inc else 0
  }

  /** The counts of the connection move by this much, and a closed connection stays closed. */
  predicate Moves(v: State, q: State, received: int, granted: int) {
    && q.receive.accepted == v.receive.accepted + received && q.send.increments == v.send.increments + granted
    && (v.closed ==> q.closed) && q.active <= Max(v.active, v.opts.maxStreams)
  }

  lemma FailMoves(v: State, id: int)
    requires id in v.objects
    ensures Moves(v, Fail(v, id), 0, 0)
  {
  }

  lemma TakeDataMoves(v: State, id: int, data: seq<byte>, pad: int, end: bool, compact: bool)
    requires id in v.objects
    ensures Moves(v, TakeData(v, id, data, pad, end, compact), |data| + pad, 0)
  {
    var v1 := Absorbed(v, id, data, pad, end, compact);
    assert Moves(v, v1, |data| + pad, 0);
    var v2 := Credited(if end && v.objects[id].phase == HalfClosedLocal then Remove(v1, id, false) else v1);
    assert Moves(v1, v2, 0, 0);
  }

  lemma RefundMoves(v: State, id: int, n: int)
    ensures Moves(v, Credited(v.(receive := Refund(v.receive, n))), n, 0)
    ensures id in v.objects ==> Moves(v, Fail(v.(receive := Refund(v.receive, n)), id), n, 0)
    ensures id in v.objects ==> Moves(v, Fail(Charged(v, id, n), id), n, 0)
  {
    if id in v.objects {
      FailMoves(v.(receive := Refund(v.receive, n)), id);
      FailMoves(Charged(v, id, n), id);
    }
  }

  lemma DataMoves(v: State, id: int, payload: seq<byte>, padded: bool, end: bool, compact: bool)
    ensures Moves(v, HandleData(v, id, payload, padded, end, compact).state,
                  if Counts(v, id, payload, padded) then |payload| else 0, 0)
  {
    DataCode(v, id, payload, padded, end, compact);
    DataPaths(v, id, payload, padded, end, compact);
    if Reaches(v, id, payload, padded, end) {
      var stripped := StripPadding(payload, padded);
      TakeDataMoves(v, id, stripped.data, stripped.pad, end, compact);
    } else if Counts(v, id, payload, padded) {
      RefundMoves(v, id, |payload|);
      CountedLeads(v, id, payload, padded, end, compact);
    }
  }

  /** A frame that is counted and does not reach its stream is refunded. */
  lemma CountedLeads(v: State, id: int, payload: seq<byte>, padded: bool, end: bool, compact: bool)
    requires Counts(v, id, payload, padded) && !Reaches(v, id, payload, padded, end)
    ensures var q, n := HandleData(v, id, payload, padded, end, compact).state, |payload|;
            || q == Credited(v.(receive := Refund(v.receive, n)))
            || (id in v.objects && (q == Fail(v.(receive := Refund(v.receive, n)), id)
                || q == Fail(Charged(v, id, n), id)))
  {
  }

  lemma {:induction false} SettingsMoves(v: State, settings: seq<Setting>)
    ensures var q := HandleSettings(v, settings).state; Moves(v, q, 0, 0) && q.receive == v.receive
    decreases |settings|
  {
    if settings != [] { SettingsMoves(ApplySetting(v, settings[0]).state, settings[1..]); }
  }

  lemma {:induction false} RemoveAllMoves(v: State, visit: seq<int>)
    ensures Moves(v, RemoveAll(v, visit), 0, 0)
    decreases |visit|
  {
    if visit != [] {
      RemoveAllMoves(v, visit[1..]);
      if visit[0] in v.objects { RemoveAllMoves(Remove(v, visit[0], true), visit[1..]); }
    }
  }

  lemma UpdateMoves(v: State, id: int, inc: nat)
    ensures Moves(v, HandleWindowUpdate(v, id, inc).state, 0,
                  if id == 0 && v.send.window + inc <= MAX_WINDOW then inc else 0)
  {
  }

  lemma TrailerMoves(v: State, id: int, wellFormed: bool)
    ensures Moves(v, FinishTrailers(v, id, wellFormed).state, 0, 0)
  {
  }

  lemma EmitMoves(v: State, id: int, frame: Frame)
    requires id in v.objects
    ensures Moves(v, EmitOn(v, id, frame), 0, 0)
  {
  }

  lemma WritesMove(v: State, e: Event)
    requires Enabled(v, e) && Writes(e)
    ensures Moves(v, Apply(v, e), 0, 0)
  {
    match e
    case Headers(id, frame) => EmitMoves(v, id, frame);
    case HeadersAndBody(id, length, writable) =>
      EmitMoves(v, id, Final(false));
      EmitMoves(EmitOn(v, id, Final(false)), id, Data(length, true));
    case EndData(id) => EmitMoves(v, id, Data(0, true));
    case DataPass(id, length, end, room) => PassMoves(v, id, length, end, room);
  }

  lemma PassMoves(v: State, id: int, length: nat, end: bool, room: Room)
    requires id in v.objects
    ensures Moves(v, WriteData(v, id, length, end, room), 0, 0)
  {
    var n := Chunk(v, v.objects[id], length);
    EmitMoves(Off(v, id), id, Data(n, end && n == length));
  }

  lemma StepMoves(v: State, e: Event)
    requires Enabled(v, e)
    ensures Moves(v, Apply(v, e), Received(v, e), ConnGrant(v, e))
  {
    if Writes(e) {
      WritesMove(v, e);
    } else {
      match e
      case DataFrame(id, payload, padded, end, compact) => DataMoves(v, id, payload, padded, end, compact);
      case TrailerBlock(id, wellFormed) => TrailerMoves(v, id, wellFormed);
      case WindowUpdate(id, inc) => UpdateMoves(v, id, inc);
      case Settings(settings) => SettingsMoves(v, settings);
      case ConnClosed(visit) => RemoveAllMoves(v.(closed := true), visit);
      case _ => RestMoves(v, e);
    }
  }

  lemma RestMoves(v: State, e: Event)
    requires Enabled(v, e) && !Writes(e) && !e.DataFrame? && !e.TrailerBlock? && !e.WindowUpdate? && !e.Settings?
    requires !e.ConnClosed?
    ensures Moves(v, Apply(v, e), 0, 0)
  {
    match e
    case ReadBody(id, size) => ReadMoves(v, id, size);
    case BodyClose(id) => CloseMoves(v, id);
    case HandlerDone(id) => CleanupMoves(v, id);
    case ResetFrame(id) => if id in v.objects { FailMoves(v, id); }
    case StreamReset(id) => FailMoves(v, id);
    case _ =>
  }

  lemma ReadMoves(v: State, id: int, size: nat)
    requires id in v.objects
    ensures Moves(v, Read(v, id, size), 0, 0)
  {
  }

  lemma CloseMoves(v: State, id: int)
    requires id in v.objects
    ensures Moves(v, CloseBody(v, id), 0, 0)
  {
  }

  lemma CleanupMoves(v: State, id: int)
    requires id in v.objects
    ensures Moves(v, Cleanup(v, id), 0, 0)
  {
  }

  // ---------------------------------------------------------------- a stream's send window

  /** What the peer's frame adds to the send window of stream `id`. */
  function StreamGrant(v: State, e: Event, id: int): int {
    if e.WindowUpdate? && e.id == id && id % 2 == 1 && id in v.live && id in v.objects && id <= v.maxClient
       && v.objects[id].outflow.window + e.inc <= MAX_WINDOW
    then e.inc else 0
  }

  lemma UpdateGrants(v: State, e: Event, id: int)
    requires e.WindowUpdate? && id in v.objects
    ensures var q := HandleWindowUpdate(v, e.id, e.inc).state;
            id in q.objects
            && q.objects[id].outflow.increments == v.objects[id].outflow.increments + StreamGrant(v, e, id)
  {
    if e.id == 0 {
      WakeWires(Increments, v.objects, v.waiting);
    } else if e.id in v.objects {
      FailWires(Increments, v, e.id);
      MovesOne(v, e.id, e.inc, id);
    }
  }

  lemma MovesOne(v: State, other: int, inc: int, id: int)
    requires id in v.objects && other in v.objects
    ensures var q := WithStream(v, other, MoveWindow(v.objects[other], inc, inc));
            q.objects[id].outflow.increments == v.objects[id].outflow.increments + if id == other then inc else 0
  {
  }

  lemma StepGrants(v: State, e: Event, id: int)
    requires Ok(v) && Enabled(v, e)
    ensures id in v.objects ==>
              id in Apply(v, e).objects
              && Apply(v, e).objects[id].outflow.increments == v.objects[id].outflow.increments + StreamGrant(v, e, id)
    ensures id !in v.objects ==> StreamGrant(v, e, id) == 0
    ensures id !in v.objects && id in Apply(v, e).objects ==> Apply(v, e).objects[id].outflow.increments == 0
  {
    if e.WindowUpdate? {
      if id in v.objects { UpdateGrants(v, e, id); }
      UpdateOpensNone(v, e.id, e.inc);
    } else if e.RequestBlock? {
      OpenBody(v, e.id, e.end, e.declared, e.refused, id);
    } else {
      EventLeaves(Increments, v, e);
    }
  }

  lemma UpdateOpensNone(v: State, id: int, inc: nat)
    ensures HandleWindowUpdate(v, id, inc).state.objects.Keys == v.objects.Keys
  {
    UpdateWires(Frames, v, id, inc);
  }

  /** The sums of what the events of a run added. */
  datatype Account = Bytes | Grants | StreamGrants(id: int)

  function Amount(a: Account, v: State, e: Event): int {
    match a
    case Bytes => Received(v, e)
    case Grants => ConnGrant(v, e)
    case StreamGrants(id) => StreamGrant(v, e, id)
  }

  function Sum(a: Account, states: seq<State>, events: seq<Event>, k: nat): int
    requires k <= |events| && |states| == |events| + 1
  {
    if k == 0 then 0 else Sum(a, states, events, k - 1) + Amount(a, states[k - 1], events[k - 1])
  }

  lemma {:induction false} CountsAreSums(opts: Options, states: seq<State>, events: seq<Event>, id: int, k: nat)
    requires opts.Valid() && Run(opts, states, events) && k <= |events|
    ensures states[k].receive.accepted == Sum(Bytes, states, events, k)
    ensures states[k].send.increments == Sum(Grants, states, events, k)
    ensures if id in states[k].objects
            then states[k].objects[id].outflow.increments == Sum(StreamGrants(id), states, events, k)
            else Sum(StreamGrants(id), states, events, k) == 0
    decreases k
  {
    if k > 0 {
      CountsAreSums(opts, states, events, id, k - 1);
      ReachableAt(opts, states, events, k - 1);
      StepMoves(states[k - 1], events[k - 1]);
      StepGrants(states[k - 1], events[k - 1], id);
    }
  }

  /**
   The windows as the two sides count them: in every run the connection's receive window is the configured one less the
   DATA payloads that arrived plus the increments sent; its send window is the default plus the peer's WINDOW_UPDATE
   frames less the DATA written; and a stream's send window is the peer's initial one plus the WINDOW_UPDATE frames for
   it less its DATA.
   */
  lemma WindowsAsCounted(opts: Options, states: seq<State>, events: seq<Event>, id: int, k: nat)
    requires opts.Valid() && Run(opts, states, events) && k <= |events|
    ensures var v := states[k];
            && v.receive.window == opts.connectionWindow - Sum(Bytes, states, events, k) + Total(v.receive.updates)
            && v.send.window == DEFAULT_WINDOW + Sum(Grants, states, events, k) - v.send.sent
            && (forall j :: 0 <= j < |v.order| ==> v.order[j] in v.objects)
            && v.send.sent == SumOf(Sent, v.order, v.objects) + ReplyBytes(v.replies)
    ensures id in states[k].objects && states[k].objects[id].phase != Closed ==>
              var v, f := states[k], states[k].objects[id].outflow;
              || f.window == v.send.peerInitial + Sum(StreamGrants(id), states, events, k) - DataBytes(f.wire)
              || (v.send.aborted
                  && f.window == v.send.prevInitial + Sum(StreamGrants(id), states, events, k) - DataBytes(f.wire))
  {
    CountsAreSums(opts, states, events, id, k);
    ReachableAt(opts, states, events, k);
    SameOptions(opts, states, events, k);
    OkConnection(states[k]);
    if id in states[k].objects { OkStream(states[k], id); }
  }

  lemma OkConnection(v: State)
    requires Ok(v)
    ensures v.receive.window == v.opts.connectionWindow - v.receive.accepted + Total(v.receive.updates)
    ensures v.send.window == DEFAULT_WINDOW + v.send.increments - v.send.sent
    ensures forall j :: 0 <= j < |v.order| ==> v.order[j] in v.objects
    ensures v.send.sent == SumOf(Sent, v.order, v.objects) + ReplyBytes(v.replies)
  {
  }

  lemma OkStream(v: State, id: int)
    requires Ok(v) && id in v.objects
    ensures var f := v.objects[id].outflow;
            v.objects[id].phase != Closed ==>
              || f.window == v.send.peerInitial + f.increments - DataBytes(f.wire)
              || (v.send.aborted && f.window == v.send.prevInitial + f.increments - DataBytes(f.wire))
  {
    OkKnown(v, id);
  }

  // ---------------------------------------------------------------- settings

  /** The value that the frame leaves for the peer's initial window, or for its frame size. */
  function LastInitial(settings: seq<Setting>, before: int): int {
    if settings == [] then before
    else LastInitial(settings[1..], if settings[0].InitialWindow? then settings[0].value else before)
  }

  function LastFrameSize(settings: seq<Setting>, before: int): int {
    if settings == [] then before
    else LastFrameSize(settings[1..], if settings[0].MaxFrame? then settings[0].value else before)
  }

  ghost predicate AllAllowed(settings: seq<Setting>) { forall k :: 0 <= k < |settings| ==> Allowed(settings[k]) }

  /**
   A SETTINGS frame is taken whole only when every value in it is allowed, and then the last value of each kind holds.
   */
  lemma {:induction false} SettingsTaken(v: State, settings: seq<Setting>)
    ensures var r := HandleSettings(v, settings);
            r.code == NoError ==>
              && r.state.send.peerInitial == LastInitial(settings, v.send.peerInitial)
              && r.state.send.peerMaxFrame == LastFrameSize(settings, v.send.peerMaxFrame)
              && r.state.send.window == v.send.window && AllAllowed(settings)
    decreases |settings|
  {
    if settings != [] {
      var r := ApplySetting(v, settings[0]);
      if r.code == NoError {
        SettingsTaken(r.state, settings[1..]);
        if AllAllowed(settings[1..]) {
          forall k | 0 <= k < |settings| ensures Allowed(settings[k]) {
            if k > 0 { assert settings[k] == settings[1..][k - 1]; }
          }
        }
      }
    }
  }

  predicate Allowed(p: Setting) {
    match p
    case InitialWindow(value, _) => value <= MAX_WINDOW
    case MaxFrame(value) => MIN_FRAME <= value <= MAX_FRAME
    case EnablePush(value) => value <= 1
    case Other => true
  }

  // ---------------------------------------------------------------- credit is given in time

  /** Sections that end a stream without looking at what the connection owes. */
  predicate Defers(e: Event) { e.TrailerBlock? || e.ConnClosed? || Writes(e) }

  /** The connection owes less than half of its window, or no more than before. */
  predicate Timely(v: State, q: State) {
    q.receive.unacked == v.receive.unacked || q.receive.unacked < v.opts.connectionWindow / 2
  }

  lemma CreditedTimely(v: State)
    requires v.opts.Valid()
    ensures Credited(v).receive.unacked < v.opts.connectionWindow / 2
  {
  }

  lemma FailTimely(v: State, id: int)
    requires v.opts.Valid() && id in v.objects
    ensures Fail(v, id).receive.unacked < v.opts.connectionWindow / 2
  {
    CreditedTimely(Remove(MarkReset(v, id), id, true));
  }

  lemma TakeDataTimely(v: State, id: int, data: seq<byte>, pad: int, end: bool, compact: bool)
    requires v.opts.Valid() && id in v.objects
    ensures TakeData(v, id, data, pad, end, compact).receive.unacked < v.opts.connectionWindow / 2
  {
    var v1 := Absorbed(v, id, data, pad, end, compact);
    CreditedTimely(if end && v.objects[id].phase == HalfClosedLocal then Remove(v1, id, false) else v1);
  }

  lemma DataTimely(v: State, id: int, payload: seq<byte>, padded: bool, end: bool, compact: bool)
    requires v.opts.Valid()
    ensures Timely(v, HandleData(v, id, payload, padded, end, compact).state)
  {
    DataCode(v, id, payload, padded, end, compact);
    DataPaths(v, id, payload, padded, end, compact);
    if Reaches(v, id, payload, padded, end) {
      var stripped := StripPadding(payload, padded);
      TakeDataTimely(v, id, stripped.data, stripped.pad, end, compact);
    } else if Counts(v, id, payload, padded) {
      CountedLeads(v, id, payload, padded, end, compact);
      CreditedTimely(v.(receive := Refund(v.receive, |payload|)));
      if id in v.objects {
        FailTimely(v.(receive := Refund(v.receive, |payload|)), id);
        FailTimely(Charged(v, id, |payload|), id);
      }
    }
  }

  lemma UpdateTimely(v: State, id: int, inc: nat)
    requires v.opts.Valid()
    ensures Timely(v, HandleWindowUpdate(v, id, inc).state)
  {
    if id in v.objects { FailTimely(v, id); }
  }

  lemma ReadTimely(v: State, id: int, size: nat)
    requires v.opts.Valid() && id in v.objects
    ensures Timely(v, Read(v, id, size)) && Timely(v, CloseBody(v, id))
  {
  }

  lemma StepTimely(v: State, e: Event)
    requires v.opts.Valid() && Enabled(v, e) && !Defers(e)
    ensures Timely(v, Apply(v, e))
  {
    match e
    case DataFrame(id, payload, padded, end, compact) => DataTimely(v, id, payload, padded, end, compact);
    case WindowUpdate(id, inc) => UpdateTimely(v, id, inc);
    case Settings(settings) => SettingsMoves(v, settings);
    case ResetFrame(id) => if id in v.objects { FailTimely(v, id); }
    case ReadBody(id, size) => ReadTimely(v, id, size);
    case BodyClose(id) => ReadTimely(v, id, 0);
    case StreamReset(id) => FailTimely(v, id);
    case HandlerDone(id) => CleanupTimely(v, id);
    case _ =>
  }

  lemma CleanupTimely(v: State, id: int)
    requires v.opts.Valid() && id in v.objects
    ensures Timely(v, Cleanup(v, id))
  {
  }

  /**
   The peer is never left waiting for the connection's window: in every run, every section leaves less than half of the
   window owed, or no more than it found, but for those that end a stream from the handler's side, with trailers, or
   with the connection.
   */
  lemma ConnCredited(opts: Options, states: seq<State>, events: seq<Event>, k: nat)
    requires opts.Valid() && Run(opts, states, events) && k < |events| && !Defers(events[k])
    ensures Timely(states[k], states[k + 1])
  {
    ReachableAt(opts, states, events, k);
    StepTimely(states[k], events[k]);
  }

  lemma TakeDataLittle(v: State, id: int, data: seq<byte>, pad: int, end: bool, compact: bool, other: int)
    requires id in v.objects && other in v.objects && OwesLittle(v.objects[other], v.opts.initialWindow)
    ensures var q := TakeData(v, id, data, pad, end, compact);
            other in q.objects && OwesLittle(q.objects[other], v.opts.initialWindow)
  {
    var v1 := Absorbed(v, id, data, pad, end, compact);
    var v2 := Credited(if end && v.objects[id].phase == HalfClosedLocal then Remove(v1, id, false) else v1);
    if other != id {
      assert v2.objects[other] == v.objects[other];
    } else {
      RegrantedLittle(v2, id);
    }
  }

  lemma RegrantedLittle(v: State, id: int)
    requires id in v.objects
    ensures OwesLittle(Regranted(v, id).objects[id], v.opts.initialWindow)
  {
  }

  lemma ReadLittle(v: State, id: int, size: nat, other: int)
    requires id in v.objects && other in v.objects && OwesLittle(v.objects[other], v.opts.initialWindow)
    ensures other in Read(v, id, size).objects && OwesLittle(Read(v, id, size).objects[other], v.opts.initialWindow)
  {
  }

  lemma StepLittle(v: State, e: Event, id: int)
    requires Ok(v) && Enabled(v, e) && (id in v.objects ==> OwesLittle(v.objects[id], v.opts.initialWindow))
    ensures id in Apply(v, e).objects ==> OwesLittle(Apply(v, e).objects[id], v.opts.initialWindow)
  {
    if e.RequestBlock? {
      OpenBody(v, e.id, e.end, e.declared, e.refused, id);
    } else if e.DataFrame? {
      DataLittle(v, e.id, e.payload, e.padded, e.end, e.compact, id);
    } else if e.ReadBody? {
      if id in v.objects { ReadLittle(v, e.id, e.size, id); }
      ReadWires(Frames, v, e.id, e.size);
    } else {
      EventLeaves(Owed(v.opts.initialWindow), v, e);
    }
  }

  lemma DataLittle(v: State, id: int, payload: seq<byte>, padded: bool, end: bool, compact: bool, other: int)
    requires other in v.objects ==> OwesLittle(v.objects[other], v.opts.initialWindow)
    ensures var q := HandleData(v, id, payload, padded, end, compact).state;
            other in q.objects ==> OwesLittle(q.objects[other], v.opts.initialWindow)
  {
    var q, stripped := HandleData(v, id, payload, padded, end, compact).state, StripPadding(payload, padded);
    DataPaths(v, id, payload, padded, end, compact);
    DataWires(Frames, v, id, payload, padded, end, compact);
    if Reaches(v, id, payload, padded, end) {
      if other in v.objects { TakeDataLittle(v, id, stripped.data, stripped.pad, end, compact, other); }
    } else {
      LeadsWires(Owed(v.opts.initialWindow), v, id, |payload|, q);
    }
  }

  /** In every run a stream that still receives owes the peer nothing, or less than half of its window. */
  lemma {:induction false} StreamsCredited(opts: Options, states: seq<State>, events: seq<Event>, id: int, k: nat)
    requires opts.Valid() && Run(opts, states, events) && k <= |events|
    ensures id in states[k].objects ==> OwesLittle(states[k].objects[id], opts.initialWindow)
    decreases k
  {
    if k > 0 {
      StreamsCredited(opts, states, events, id, k - 1);
      ReachableAt(opts, states, events, k - 1);
      SameOptions(opts, states, events, k - 1);
      StepLittle(states[k - 1], events[k - 1], id);
    }
  }

  lemma {:induction false} SameOptions(opts: Options, states: seq<State>, events: seq<Event>, k: nat)
    requires Run(opts, states, events) && k <= |events|
    ensures states[k].opts == opts
    decreases k
  {
    if k > 0 { SameOptions(opts, states, events, k - 1); }
  }

  // ---------------------------------------------------------------- streams

  /**
   A stream appears only with a request under a new odd number, on a connection that is neither going away nor closed
   and has fewer streams than allowed; it begins with the configured window, the peer's initial one, and nothing sent or
   received.
   */
  lemma StreamsOpened(v: State, e: Event, id: int)
    requires Ok(v) && Enabled(v, e) && id !in v.objects && id in Apply(v, e).objects
    ensures e.RequestBlock? && e.id == id && id % 2 == 1 && id > v.maxClient && !e.refused
    ensures !v.goingAway && !v.closed && v.active < v.opts.maxStreams
    ensures var s := Apply(v, e).objects[id];
            && s.phase == (if e.end then HalfClosedRemote else Open) && s.inflow.window == v.opts.initialWindow
            && s.outflow.window == v.send.peerInitial && s.outflow.wire == [] && s.inflow.taken == []
  {
    if e.RequestBlock? {
      OpenBody(v, e.id, e.end, e.declared, e.refused, id);
    } else if Writes(e) {
      WritesLeave(Body, v, e);
    } else {
      var a := if e.DataFrame? then Frames else Body;
      OtherEvents(a, v, e);
    }
  }

  /** In every run there are at most as many streams as the configuration allows. */
  lemma {:induction false} StreamsBounded(opts: Options, states: seq<State>, events: seq<Event>, k: nat)
    requires opts.Valid() && Run(opts, states, events) && k <= |events|
    ensures |states[k].live| <= opts.maxStreams && states[k].active <= opts.maxStreams
    decreases k
  {
    if k > 0 {
      StreamsBounded(opts, states, events, k - 1);
      SameOptions(opts, states, events, k - 1);
      StepMoves(states[k - 1], events[k - 1]);
    }
    ReachableAt(opts, states, events, k);
    ActiveIsLive(states[k]);
  }

  lemma ActiveIsLive(v: State)
    requires Ok(v)
    ensures v.active == |v.live|
  {
  }

  // ---------------------------------------------------------------- how streams end

  /** The stream is gone: off the map of streams, closed, its body given back. */
  predicate Gone(v: State, id: int) { id !in v.live && id in v.objects && v.objects[id].phase == Closed }

  lemma RemoveGone(v: State, id: int, failed: bool)
    requires LiveOk(v.objects, v.live, v.active, v.maxClient) && id in v.objects
    ensures Gone(Remove(v, id, failed), id)
  {
  }

  /** RST_STREAM from the peer, and a reset from this side, end a stream at once, and no RST_STREAM follows another. */
  lemma ResetEnds(v: State, id: int)
    requires LiveOk(v.objects, v.live, v.active, v.maxClient) && id in v.objects
    ensures Gone(Fail(v, id), id) && Fail(v, id).objects[id].outflow.sentReset
    ensures v.objects[id].phase != Closed ==> Fail(v, id).objects[id].outflow.failed
    ensures id in v.live ==> Gone(HandleReset(v, id), id)
  {
  }

  /** A stream does not outlive its handler: what the handler left unfinished is reset. */
  lemma HandlerEnds(v: State, id: int)
    requires LiveOk(v.objects, v.live, v.active, v.maxClient) && id in v.objects
    ensures Gone(Cleanup(v, id), id)
    ensures id in v.live && !v.objects[id].outflow.sentEnd ==> Cleanup(v, id).objects[id].outflow.sentReset
  {
  }

  /** A frame with END_STREAM ends the stream; a request that has not ended is reset. */
  lemma ResponseEnds(v: State, id: int, frame: Frame)
    requires LiveOk(v.objects, v.live, v.active, v.maxClient) && id in v.objects && Ends(frame)
    ensures Gone(EmitOn(v, id, frame), id) && EmitOn(v, id, frame).objects[id].outflow.sentEnd
    ensures v.objects[id].phase == Open ==> EmitOn(v, id, frame).objects[id].outflow.sentReset
  {
    var v1 := WithStream(v, id, Emit(v.objects[id], frame))
      .(send := Spend(v.send, if frame.Data? then frame.length else 0));
    if v.objects[id].phase == Open {
      RemoveGone(MarkReset(v1, id), id, false);
    } else {
      RemoveGone(v1, id, false);
    }
  }

  /** A closed body takes and holds nothing more. */
  lemma BodyEnds(v: State, id: int)
    requires Ok(v) && id in v.objects
    ensures CloseBody(v, id).objects[id].inflow.bodyClosed && CloseBody(v, id).objects[id].inflow.Unread() == 0
  {
    OkKnown(v, id);
  }

  /** The last DATA frame ends the request: the body will have no more, and a stream that had answered is gone. */
  lemma RequestEnds(v: State, id: int, payload: seq<byte>, padded: bool, compact: bool)
    requires LiveOk(v.objects, v.live, v.active, v.maxClient) && Reaches(v, id, payload, padded, true)
    ensures var q := HandleData(v, id, payload, padded, true, compact).state;
            && id in q.objects && q.objects[id].inflow.eof
            && (if v.objects[id].phase == Open then q.objects[id].phase == HalfClosedRemote
                && id in q.live else Gone(q, id))
  {
    var stripped := StripPadding(payload, padded);
    DataPaths(v, id, payload, padded, true, compact);
    var v1 := Absorbed(v, id, stripped.data, stripped.pad, true, compact);
    assert v1.objects[id].inflow.eof;
  }

  /** Trailers that are well-formed and come when the body is complete end the request; any others end the stream. */
  lemma TrailersEnd(v: State, id: int, wellFormed: bool)
    requires LiveOk(v.objects, v.live, v.active, v.maxClient) && id in v.live && !v.objects[id].inflow.gotTrailers
    ensures var s, q := v.objects[id], FinishTrailers(v, id, wellFormed).state;
            && id in q.objects
            && if wellFormed && s.phase != HalfClosedRemote
                && (s.inflow.declared < 0 || s.inflow.received == s.inflow.declared)
               then q.objects[id].inflow.eof && q.objects[id].inflow.gotTrailers
                    && (if s.phase == Open then q.objects[id].phase == HalfClosedRemote else Gone(q, id))
               else Gone(q, id) && q.objects[id].outflow.sentReset
  {
    ResetEnds(v, id);
  }
}
