/**
 The connection of http2/conn.go, http2/stream.go and http2/write.go in place: every method is a critical section of the
 lock `mu`, or a part of one, and computes the function of Http2Model that describes it. `Valid()` is the invariant of
 Http2Flow: whoever takes the lock finds it and leaves it.
 */
module Http2Conn {
  import opened Words
  import opened Http2Model
  import Http2Flow
  import Http2Bodies
  import Http2Writes

  class Conn {
    const opts: Options
    var objects: map<int, Stream>
    var streams: set<int>
    var activeStreams: int
    var waitingStreams: seq<int>
    var sendWindow: int
    var receiveWindow: int
    var unackedReceiveBytes: int
    var peerInitialWindowSize: int
    var peerMaxFrameSize: int
    var maxClientStreamId: int
    var goingAway: bool
    var closed: bool

    ghost var order: seq<int>
    ghost var accepted: int
    ghost var credited: int
    ghost var updates: seq<int>
    ghost var increments: int
    ghost var sent: int
    ghost var aborted: bool
    ghost var prevInitial: int
    ghost var replies: seq<seq<Frame>>
    ghost var owed: bool

    ghost function Value(): State
      reads this
    {
      State(opts, objects, order, streams, activeStreams, waitingStreams,
            Receive(receiveWindow, unackedReceiveBytes, accepted, credited, updates),
            Send(sendWindow, increments, sent, peerInitialWindowSize, peerMaxFrameSize, aborted, prevInitial),
            owed, maxClientStreamId, goingAway, closed, replies)
    }

    ghost predicate Valid()
      reads this
    {
      Http2Flow.Ok(Value())
    }

    constructor (opts: Options)
      requires opts.Valid()
      ensures Valid() && Value() == Init(opts)
    {
      this.opts := opts;
      objects, streams, activeStreams, waitingStreams := map[], {}, 0, [];
      sendWindow, receiveWindow, unackedReceiveBytes := DEFAULT_WINDOW, opts.connectionWindow, 0;
      peerInitialWindowSize, peerMaxFrameSize, maxClientStreamId := DEFAULT_WINDOW, MIN_FRAME, 0;
      goingAway, closed := false, false;
      order, accepted, credited, updates, increments, sent := [], 0, 0, [], 0, 0;
      aborted, prevInitial, replies, owed := false, DEFAULT_WINDOW, [], false;
      new;
      Http2Flow.InitOk(opts);
    }

    // -------------------------------------------------------------- windows and waiters

    /** Returns the increment of a WINDOW_UPDATE for the connection, 0 when none is due. */
    method TakeConnWindowUpdate() returns (inc: int)
      modifies this`receiveWindow, this`unackedReceiveBytes, this`credited, this`updates
      ensures Value() == Credited(old(Value()))
      ensures opts.Valid() ==> updates == old(updates) + if inc == 0 then [] else [inc]
      ensures old(Valid()) ==> Valid()
    {
      inc := 0;
      if unackedReceiveBytes >= opts.connectionWindow / 2 {
        inc := unackedReceiveBytes;
        receiveWindow := receiveWindow + inc;
        unackedReceiveBytes, credited, updates := 0, credited + inc, updates + [inc];
      }
      if old(Valid()) { Http2Flow.CreditedKeeps(old(Value())); }
    }

    /** Takes the stream off the list of those that wait for the connection. */
    method UnregisterWaiter(id: int)
      requires id in objects
      modifies this`waitingStreams
      ensures waitingStreams == Unregister(old(waitingStreams), id, objects[id].waiter)
    {
      if !objects[id].waiter.waitingConn { return; }
      var i := 0;
      while i < |waitingStreams| && waitingStreams[i] != id
        invariant 0 <= i <= |waitingStreams| && waitingStreams == old(waitingStreams)
        invariant forall k :: 0 <= k < i ==> waitingStreams[k] != id
      {
        i := i + 1;
      }
      WithoutAt(waitingStreams, id, i);
      if i < |waitingStreams| { waitingStreams := waitingStreams[..i] + waitingStreams[i + 1..]; }
    }

    method WakeWaitingStreams()
      modifies this`objects, this`waitingStreams
      ensures Value() == WakeWaiting(old(Value()))
    {
      var i := 0;
      while i < |waitingStreams|
        invariant 0 <= i <= |waitingStreams| && waitingStreams == old(waitingStreams)
        invariant WakeAll(objects, waitingStreams[i..]) == WakeAll(old(objects), waitingStreams)
      {
        var id := waitingStreams[i];
        assert waitingStreams[i..][1..] == waitingStreams[i + 1..];
        if id in objects {
          objects := objects[id := objects[id].(waiter := Wake(objects[id].waiter).(waitingConn := false))];
        }
        i := i + 1;
      }
      waitingStreams := [];
    }

    // -------------------------------------------------------------- the end of a stream

    method RemoveStream(id: int, failed: bool)
      requires id in objects
      modifies this`objects, this`streams, this`activeStreams, this`waitingStreams, this`unackedReceiveBytes
      ensures Value() == Remove(old(Value()), id, failed)
      ensures id in objects
    {
      var s := objects[id];
      if s.phase == Closed { return; }
      UnregisterWaiter(id);
      unackedReceiveBytes := unackedReceiveBytes + s.inflow.Unread();
      objects := objects[id := ClosedStream(s, failed)];
      streams, activeStreams := streams - {id}, activeStreams - 1;
    }

    /** Resets a stream; the increment is the connection's WINDOW_UPDATE that goes out with RST_STREAM. */
    method FailStream(id: int) returns (inc: int)
      requires id in objects
      modifies this`objects, this`streams, this`activeStreams, this`waitingStreams, this`unackedReceiveBytes
      modifies this`receiveWindow, this`credited, this`updates
      ensures Value() == Fail(old(Value()), id)
      ensures opts.Valid() ==> updates == old(updates) + if inc == 0 then [] else [inc]
      ensures old(Valid()) ==> Valid()
    {
      if Valid() { Http2Flow.FailKeeps(Value(), id); }
      objects := objects[id := objects[id].(outflow := objects[id].outflow.(sentReset := true))];
      RemoveStream(id, true);
      inc := TakeConnWindowUpdate();
    }

    // -------------------------------------------------------------- frames from the peer

    /** A frame comes out of the window that no body takes: it is owed back. */
    method RefundConn(n: int)
      modifies this`receiveWindow, this`accepted, this`unackedReceiveBytes
      ensures Value() == old(Value()).(receive := Refund(old(Value()).receive, n))
    {
      receiveWindow, accepted := receiveWindow - n, accepted + n;
      unackedReceiveBytes := unackedReceiveBytes + n;
    }

    /** A frame is charged to a stream that it does not fit. */
    method ChargeStream(id: int, n: int)
      requires id in objects
      modifies this`objects, this`receiveWindow, this`accepted, this`unackedReceiveBytes
      ensures Value() == Charged(old(Value()), id, n) && id in objects
    {
      var s := objects[id];
      RefundConn(n);
      var f := s.inflow.(window := s.inflow.window - n, accepted := s.inflow.accepted + n);
      objects := objects[id := s.(inflow := f)];
    }

    /** `compact`: whether the body's buffer is short of room, so that its read part is dropped first. */
    method HandleData(id: int, payload: seq<byte>, padded: bool, endStream: bool, compact: bool) returns (code: Code)
      requires Valid()
      modifies this
      ensures Result(Value(), code) == Http2Model.HandleData(old(Value()), id, payload, padded, endStream, compact)
      ensures Valid()
      ensures code == NoError && id in old(objects) && id in objects && Http2Bodies.GoesOn(Value(), id) ==>
                && StripPadding(payload, padded).Stripped?
                && Http2Bodies.Content(objects[id].inflow)
                   == Http2Bodies.Content(old(objects)[id].inflow) + StripPadding(payload, padded).data
    {
      Http2Bodies.DataFollows(Value(), id, payload, padded, endStream, compact);
      code := ApplyData(id, payload, padded, endStream, compact);
      Http2Flow.HandleDataKeeps(old(Value()), id, payload, padded, endStream, compact);
    }

    method ApplyData(id: int, payload: seq<byte>, padded: bool, endStream: bool, compact: bool) returns (code: Code)
      modifies this
      ensures Result(Value(), code) == Http2Model.HandleData(old(Value()), id, payload, padded, endStream, compact)
    {
      code := NoError;
      if id == 0 || id % 2 == 0 || id > maxClientStreamId { return ProtocolError; }
      var stripped := StripPadding(payload, padded);
      if stripped.Bad? { return ProtocolError; }
      var data, pad, n := stripped.data, stripped.pad, |payload|;
      if n > receiveWindow { return FlowControlError; }
      if id !in streams || id !in objects {
        RefundConn(n);
        var _ := TakeConnWindowUpdate();
        return;
      }
      var s := objects[id];
      if s.phase == HalfClosedRemote || s.phase == Closed || s.inflow.gotTrailers || n > s.inflow.window {
        RefundConn(n);
        var _ := FailStream(id);
      } else if RefusesLength(s.inflow, |data|, endStream) {
        ChargeStream(id, n);
        var _ := FailStream(id);
      } else {
        TakeStreamData(id, data, pad, endStream, compact);
      }
    }

    method AbsorbData(id: int, data: seq<byte>, pad: nat, endStream: bool, compact: bool)
      requires id in objects
      modifies this`objects, this`receiveWindow, this`accepted, this`unackedReceiveBytes
      ensures Value() == Absorbed(old(Value()), id, data, pad, endStream, compact) && id in objects
    {
      var s, n := objects[id], |data| + pad;
      receiveWindow, accepted := receiveWindow - n, accepted + n;
      unackedReceiveBytes := unackedReceiveBytes + pad + if s.inflow.bodyClosed then |data| else 0;
      objects := objects[id := AbsorbedStream(s, data, pad, endStream, compact)];
    }

    /** Returns the increment of a WINDOW_UPDATE for the stream. */
    method RegrantStream(id: int) returns (inc: int)
      requires id in objects
      modifies this`objects
      ensures Value() == Regranted(old(Value()), id)
      ensures id in objects && inc == objects[id].inflow.credited - old(objects)[id].inflow.credited
    {
      var f := objects[id].inflow;
      inc := 0;
      if !f.eof && !f.bodyClosed {
        inc := Regrant(f, opts.initialWindow).credited - f.credited;
        objects := objects[id := objects[id].(inflow := Regrant(f, opts.initialWindow))];
      }
    }

    method TakeStreamData(id: int, data: seq<byte>, pad: nat, endStream: bool, compact: bool)
      requires id in objects
      modifies this
      ensures Value() == TakeData(old(Value()), id, data, pad, endStream, compact)
    {
      var phase := objects[id].phase;
      AbsorbData(id, data, pad, endStream, compact);
      if endStream && phase == HalfClosedLocal { RemoveStream(id, false); }
      var _ := TakeConnWindowUpdate();
      var _ := RegrantStream(id);
    }

    /** The connection's window opens, and everybody on the list looks at it again. */
    method GrantConn(inc: nat)
      modifies this`sendWindow, this`increments, this`objects, this`waitingStreams
      ensures var v := old(Value());
              var send := v.send.(window := v.send.window + inc, increments := v.send.increments + inc);
              Value() == WakeWaiting(v.(send := send))
    {
      sendWindow, increments := sendWindow + inc, increments + inc;
      WakeWaitingStreams();
    }

    /** A stream's window opens; one that would grow too large resets the stream. */
    method GrantStream(id: int, inc: nat)
      requires id in objects
      modifies this
      ensures Value() == if old(objects)[id].outflow.window + inc > MAX_WINDOW then Fail(old(Value()), id)
                         else WithStream(old(Value()), id, MoveWindow(old(objects)[id], inc, inc))
    {
      var s := objects[id];
      if s.outflow.window + inc > MAX_WINDOW {
        var _ := FailStream(id);
      } else {
        objects := objects[id := MoveWindow(s, inc, inc)];
      }
    }

    method HandleWindowUpdate(id: int, inc: nat) returns (code: Code)
      requires Valid()
      modifies this
      ensures Result(Value(), code) == Http2Model.HandleWindowUpdate(old(Value()), id, inc)
      ensures Valid()
    {
      Http2Flow.WindowUpdateKeeps(Value(), id, inc);
      code := NoError;
      if inc == 0 {
        if id == 0 { code := ProtocolError; }
      } else if id == 0 {
        if sendWindow + inc > MAX_WINDOW { return FlowControlError; }
        GrantConn(inc);
      } else if id % 2 == 0 || id > maxClientStreamId {
        code := ProtocolError;
      } else if id in streams && id in objects {
        GrantStream(id, inc);
      }
    }

    /** Moves the send window of every stream of `visit`; false when one would grow too large. */
    method ShiftStreams(visit: seq<int>, delta: int) returns (ok: bool)
      modifies this`objects
      ensures Shifted(objects, ok) == ShiftWindows(old(objects), visit, delta)
    {
      var i := 0;
      while i < |visit|
        invariant 0 <= i <= |visit|
        invariant ShiftWindows(objects, visit[i..], delta) == ShiftWindows(old(objects), visit, delta)
      {
        var id := visit[i];
        assert visit[i..][0] == id && visit[i..][1..] == visit[i + 1..];
        if id in objects {
          var s := objects[id];
          if s.outflow.window + delta > MAX_WINDOW { return false; }
          objects := objects[id := MoveWindow(s, delta, 0)];
        }
        i := i + 1;
      }
      ok := true;
    }

    method ChangeInitialWindow(value: int, visit: seq<int>) returns (code: Code)
      modifies this`objects, this`peerInitialWindowSize, this`aborted, this`prevInitial
      ensures Result(Value(), code) == Http2Model.ApplySetting(old(Value()), InitialWindow(value, visit))
    {
      if value > MAX_WINDOW { return FlowControlError; }
      code := NoError;
      var delta := value - peerInitialWindowSize;
      peerInitialWindowSize, prevInitial := value, peerInitialWindowSize;
      if delta == 0 { return; }
      var ok := ShiftStreams(visit, delta);
      aborted := aborted || !ok;
      if !ok { code := FlowControlError; }
    }

    method ApplySetting(p: Setting) returns (code: Code)
      modifies this`objects, this`peerInitialWindowSize, this`peerMaxFrameSize, this`aborted, this`prevInitial
      ensures Result(Value(), code) == Http2Model.ApplySetting(old(Value()), p)
    {
      code := NoError;
      match p
      case InitialWindow(value, visit) => code := ChangeInitialWindow(value, visit);
      case MaxFrame(value) =>
        if value < MIN_FRAME || value > MAX_FRAME { return ProtocolError; }
        peerMaxFrameSize := value;
      case EnablePush(value) => if value > 1 { return ProtocolError; }
      case Other =>
    }

    method HandleSettings(settings: seq<Setting>) returns (code: Code)
      requires Valid() && !aborted && forall k :: 0 <= k < |settings| ==> SettingOk(Value(), settings[k])
      modifies this`objects, this`peerInitialWindowSize, this`peerMaxFrameSize, this`aborted, this`prevInitial
      ensures Result(Value(), code) == Http2Model.HandleSettings(old(Value()), settings)
      ensures Valid()
    {
      Http2Flow.SettingsKeep(Value(), settings);
      var i := 0;
      while i < |settings|
        invariant 0 <= i <= |settings|
        invariant Http2Model.HandleSettings(Value(), settings[i..]) == Http2Model.HandleSettings(old(Value()), settings)
      {
        assert settings[i..][0] == settings[i] && settings[i..][1..] == settings[i + 1..];
        code := ApplySetting(settings[i]);
        if code != NoError { return; }
        i := i + 1;
      }
      code := NoError;
    }

    // -------------------------------------------------------------- the handler

    /** Takes `n` bytes off the body for the handler; their share of the windows is owed to the peer. */
    method CopyBody(id: int, n: nat) returns (p: seq<byte>)
      requires id in objects && objects[id].inflow.pos + n <= |objects[id].inflow.buf|
      modifies this`objects, this`unackedReceiveBytes
      ensures p == old(objects)[id].inflow.buf[old(objects)[id].inflow.pos..old(objects)[id].inflow.pos + n]
      ensures var s := old(objects)[id];
              objects == old(objects)[id := s.(inflow := Http2Flow.ReadInflow(s, n, opts.initialWindow))]
      ensures unackedReceiveBytes == old(unackedReceiveBytes) + n
    {
      var s := objects[id];
      var f := s.inflow;
      p := f.buf[f.pos..f.pos + n];
      f := f.(pos := f.pos + n, given := f.given + p);
      if f.pos == |f.buf| { f := f.(buf := [], pos := 0); }
      unackedReceiveBytes := unackedReceiveBytes + n;
      if !f.eof && s.phase != Closed { f := Regrant(f.(unacked := f.unacked + n), opts.initialWindow); }
      objects := objects[id := s.(inflow := f)];
    }

    method ReadPass(id: int, size: nat) returns (p: seq<byte>)
      requires id in objects && objects[id].inflow.pos <= |objects[id].inflow.buf|
      modifies this`objects, this`unackedReceiveBytes, this`receiveWindow, this`credited, this`updates
      ensures Value() == Read(old(Value()), id, size)
      ensures p == Taken(old(objects)[id].inflow, size)
    {
      p := [];
      var f := objects[id].inflow;
      var n := ReadSize(f, size);
      if f.bodyClosed || n <= 0 { return; }
      ReadIs(Value(), id, size);
      p := CopyBody(id, n);
      var _ := TakeConnWindowUpdate();
    }

    /** One pass of requestBody.Read that finds data: the handler gets the next bytes of the body. */
    method ReadBody(id: int, size: nat) returns (p: seq<byte>)
      requires Valid() && id in objects
      modifies this`objects, this`unackedReceiveBytes, this`receiveWindow, this`credited, this`updates
      ensures Value() == Read(old(Value()), id, size)
      ensures Valid() && id in objects
      ensures objects[id].inflow.given == old(objects)[id].inflow.given + p
      ensures |p| == if old(objects)[id].inflow.bodyClosed then 0 else Min(size, old(objects)[id].inflow.Unread())
    {
      BufferOk(Value(), id);
      ReadGives(Value(), id, size);
      Http2Flow.ReadKeeps(Value(), id, size);
      p := ReadPass(id, size);
    }

    /** The unread bytes of the body are dropped and owed to the peer. */
    method DropBody(id: int)
      requires id in objects
      modifies this`objects, this`unackedReceiveBytes, this`receiveWindow, this`credited, this`updates
      ensures Value() == Http2Model.CloseBody(old(Value()), id)
    {
      var s := objects[id];
      if s.inflow.bodyClosed { return; }
      unackedReceiveBytes := unackedReceiveBytes + s.inflow.Unread();
      objects := objects[id := s.(inflow := s.inflow.(bodyClosed := true, buf := [], pos := 0))];
      var _ := TakeConnWindowUpdate();
    }

    method CloseBody(id: int)
      requires Valid() && id in objects
      modifies this`objects, this`unackedReceiveBytes, this`receiveWindow, this`credited, this`updates
      ensures Value() == Http2Model.CloseBody(old(Value()), id)
      ensures Valid()
    {
      Http2Flow.CloseBodyKeeps(Value(), id);
      DropBody(id);
    }

    method EndStreamLocal(id: int)
      requires id in objects
      modifies this`objects, this`streams, this`activeStreams, this`waitingStreams, this`unackedReceiveBytes
      ensures Value() == EndLocal(old(Value()), id)
      ensures old(Valid()) ==> Valid()
    {
      if Valid() { Http2Flow.EndLocalKeeps(Value(), id); }
      if objects[id].phase == Open {
        objects := objects[id := objects[id].(outflow := objects[id].outflow.(sentReset := true))];
      }
      RemoveStream(id, false);
    }

    /** Puts a frame on the wire; DATA takes its length from both windows. */
    method PutFrame(id: int, frame: Frame)
      requires id in objects
      modifies this`objects, this`sendWindow, this`sent
      ensures Value() == WithStream(old(Value()), id, Emit(old(objects)[id], frame))
                           .(send := Spend(old(Value()).send, if frame.Data? then frame.length else 0))
      ensures id in objects
    {
      var n := if frame.Data? then frame.length else 0;
      objects := objects[id := Emit(objects[id], frame)];
      sendWindow, sent := sendWindow - n, sent + n;
    }

    /** A frame with END_STREAM ends the stream as well. */
    method EmitFrame(id: int, frame: Frame)
      requires id in objects
      modifies this
      ensures Value() == EmitOn(old(Value()), id, frame)
      ensures old(Valid() && Http2Flow.CanEmit(Value(), id, frame)) ==> Valid()
    {
      if Valid() && Http2Flow.CanEmit(Value(), id, frame) { Http2Flow.EmitKeeps(Value(), id, frame); }
      PutFrame(id, frame);
      if Ends(frame) { EndStreamLocal(id); }
    }

    /** Gets on the list when it waits for the connection, and waits: `parked` is false when it need not after all. */
    method ParkWriter(id: int, room: Room) returns (parked: bool)
      requires id in objects
      modifies this`objects, this`waitingStreams
      ensures Value() == Park(old(Value()), id, room)
      ensures parked == !(room.third && Available(old(Value()), old(objects)[id]) > 0)
    {
      var s := objects[id];
      var avail := Min(sendWindow, s.outflow.window);
      var waits := s.waiter.waitingConn;
      if (!room.second || sendWindow <= 0) && !waits {
        waits := true;
        waitingStreams := waitingStreams + [id];
      }
      parked := !(room.third && avail > 0);
      if parked {
        objects := objects[id := s.(waiter := Waiter(waits, true, false, true))];
      } else {
        objects := objects[id := s.(waiter := Waiter(waits, true, false, false))];
        UnregisterWaiter(id);
        objects := objects[id := s.(waiter := Waiter(false, true, false, false))];
      }
    }

    /** The writer no longer waits for the connection. */
    method LeaveList(id: int)
      requires id in objects
      modifies this`objects, this`waitingStreams
      ensures Value() == Http2Flow.Off(old(Value()), id) && id in objects
    {
      UnregisterWaiter(id);
      objects := objects[id := objects[id].(waiter := objects[id].waiter.(waitingConn := false))];
    }

    method ApplyPass(id: int, length: nat, endStream: bool, room: Room) returns (n: int)
      requires id in objects && length > 0
      modifies this
      ensures Value() == WriteData(old(Value()), id, length, endStream, room)
      ensures n == Outcome(old(Value()), id, length, room)
    {
      var s := objects[id];
      if closed || s.outflow.failed || s.phase == Closed || s.outflow.sentEnd || s.outflow.sentReset {
        LeaveList(id);
        return -1;
      }
      var avail := Min(sendWindow, s.outflow.window);
      if !room.first || avail <= 0 {
        var _ := ParkWriter(id, room);
        return 0;
      }
      LeaveList(id);
      n := Min3(length, peerMaxFrameSize, avail);
      EmitFrame(id, Data(n, endStream && n == length));
    }

    /**
     One pass of the loop in writeData over `length` remaining bytes: how many of them went out, in one frame, with
     END_STREAM if and only if they are the last of a write that ends the stream; 0 when the writer waits, -1 on an
     error.
     */
    method WritePass(id: int, length: nat, endStream: bool, room: Room) returns (n: int)
      requires Valid() && id in objects && length > 0 && !objects[id].waiter.parked && room.Valid(owed)
      modifies this
      ensures Value() == WriteData(old(Value()), id, length, endStream, room)
      ensures Valid()
      ensures Told(old(Value()), Value(), id, length, endStream, room, n)
    {
      PassTells(Value(), id, length, endStream, room);
      Http2Flow.WriteDataKeeps(Value(), id, length, endStream, room);
      n := ApplyPass(id, length, endStream, room);
    }

    /** Removes every stream when the connection is gone. */
    method OnClose(visit: seq<int>)
      requires Valid() && Walks(visit, streams)
      modifies this
      ensures Value() == Http2Model.OnClose(old(Value()), visit)
      ensures Valid() && streams == {} && activeStreams == 0
    {
      Http2Flow.CloseKeeps(Value(), visit);
      closed := true;
      ghost var v := Value();
      var i := 0;
      while i < |visit|
        invariant 0 <= i <= |visit|
        invariant RemoveAll(Value(), visit[i..]) == RemoveAll(v, visit)
      {
        assert visit[i..][0] == visit[i] && visit[i..][1..] == visit[i + 1..];
        if visit[i] in objects { RemoveStream(visit[i], true); }
        i := i + 1;
      }
      waitingStreams := [];
    }
  }

  /** The bytes that a read of `size` bytes gets. */
  function Taken(f: Inflow, size: nat): seq<byte>
    requires f.pos <= |f.buf|
  {
    if f.bodyClosed then [] else f.buf[f.pos..f.pos + ReadSize(f, size)]
  }

  lemma ReadIs(v: State, id: int, size: nat)
    requires id in v.objects && v.objects[id].inflow.pos <= |v.objects[id].inflow.buf|
    requires !v.objects[id].inflow.bodyClosed && 0 < ReadSize(v.objects[id].inflow, size)
    ensures var s, n := v.objects[id], ReadSize(v.objects[id].inflow, size);
            Read(v, id, size) ==
            Credited(v.(objects := v.objects[id := s.(inflow := Http2Flow.ReadInflow(s, n, v.opts.initialWindow))],
                        receive := v.receive.(unacked := v.receive.unacked + n)))
  {
  }

  lemma ReadGives(v: State, id: int, size: nat)
    requires id in v.objects && v.objects[id].inflow.pos <= |v.objects[id].inflow.buf|
    ensures var p, q := Taken(v.objects[id].inflow, size), Read(v, id, size);
            && |p| == (if v.objects[id].inflow.bodyClosed then 0 else Min(size, v.objects[id].inflow.Unread()))
            && id in q.objects && q.objects[id].inflow.given == v.objects[id].inflow.given + p
  {
  }

  /** What a pass returns. */
  function Outcome(v: State, id: int, length: nat, room: Room): int
    requires id in v.objects
  {
    if Http2Writes.Refused(v, v.objects[id]) then -1
    else if Http2Writes.Waits(v, v.objects[id], room) then 0
    else Http2Writes.Share(v, v.objects[id], length)
  }

  /**
   A pass that is neither refused nor has to wait puts out one frame of `n` bytes, within both windows and the frame
   size.
   */
  ghost predicate Told(v: State, q: State, id: int, length: nat, end: bool, room: Room, n: int)
    requires id in v.objects
  {
    && (n == -1 <==> Http2Writes.Refused(v, v.objects[id])) && -1 <= n <= length
    && (n > 0 <==> n != -1 && !Http2Writes.Waits(v, v.objects[id], room))
    && (n > 0 ==> n <= v.send.window && n <= v.objects[id].outflow.window && n <= v.send.peerMaxFrame)
    && Http2Writes.WireOf(q, id) == Http2Writes.WireOf(v, id) + if n > 0 then [Data(n, end && n == length)] else []
  }

  lemma PassTells(v: State, id: int, length: nat, end: bool, room: Room)
    requires Http2Flow.Ok(v) && id in v.objects && length > 0
    ensures Told(v, WriteData(v, id, length, end, room), id, length, end, room, Outcome(v, id, length, room))
  {
    SendSound(v);
    PassTold(v, id, length, end, room);
  }

  lemma SendSound(v: State)
    requires Http2Flow.Ok(v)
    ensures Http2Flow.SendOk(v.send)
  {
  }

  lemma PassTold(v: State, id: int, length: nat, end: bool, room: Room)
    requires Http2Flow.SendOk(v.send) && id in v.objects && length > 0
    ensures Told(v, WriteData(v, id, length, end, room), id, length, end, room, Outcome(v, id, length, room))
  {
    Http2Writes.PassSends(v, id, length, end, room);
    assert Http2Writes.WireOf(v, id) + [] == Http2Writes.WireOf(v, id);
  }

  lemma BufferOk(v: State, id: int)
    requires Http2Flow.Ok(v) && id in v.objects
    ensures v.objects[id].inflow.pos <= |v.objects[id].inflow.buf|
  {
    Http2Flow.OkKnown(v, id);
  }

  lemma {:induction false} WithoutAt(s: seq<int>, id: int, i: int)
    requires 0 <= i <= |s| && (forall k :: 0 <= k < i ==> s[k] != id) && (i < |s| ==> s[i] == id)
    ensures Without(s, id) == if i < |s| then s[..i] + s[i + 1..] else s
  {
    if i == 0 {
      if s != [] { assert s[..0] + s[1..] == s[1..]; }
    } else {
      var rest := s[1..];
      WithoutAt(rest, id, i - 1);
      assert s == [s[0]] + rest;
      if i < |s| { assert [s[0]] + (rest[..i - 1] + rest[i..]) == s[..i] + s[i + 1..]; }
    }
  }
}
