/** The endpoint as the program has it: an object whose methods update its counters and buffers in place. */
module ArqEndpoint {
  import opened Wrappers
  import opened Words
  import opened Seqs
  import ArqSending
  import ArqExchange
  import opened ArqModel
  import opened ArqCodec

  class Arq {
    const cfg: Config
    var dead: bool
    var una: int
    var nxt: int
    var rcv: int
    var remoteWindow: int
    var cwnd: int
    var ssthresh: int
    var incr: int
    var srtt: int
    var rttvar: int
    var rto: int
    var ask: bool
    var tell: bool
    var probeTs: int
    var probeWait: int
    var sendQueue: seq<Segment>
    var sendBuf: seq<Segment>
    var receiveBuf: seq<Segment>
    var receiveQueue: seq<Segment>
    var acks: seq<Ack>
    var output: seq<seq<byte>>  // the datagrams handed to the output callback

    /** The value of the endpoint, which the model's functions speak of. */
    function Value(): State
      reads this
    {
      State(cfg, dead, una, nxt, rcv, remoteWindow, cwnd, ssthresh, incr, srtt, rttvar, rto, ask, tell, probeTs,
            probeWait, sendQueue, sendBuf, receiveBuf, receiveQueue, acks)
    }

    constructor (cfg: Config)
      requires cfg.Valid()
      ensures Value() == Init(cfg) && this.cfg == cfg && output == []
    {
      this.cfg := cfg;
      dead, una, nxt, rcv := false, 0, 0, 0;
      remoteWindow, cwnd, ssthresh, incr := cfg.receiveWindow, 0, THRESH_INIT, 0;
      srtt, rttvar, rto := 0, 0, RTO_DEFAULT;
      ask, tell, probeTs, probeWait := false, false, 0, 0;
      sendQueue, sendBuf, receiveBuf, receiveQueue, acks, output := [], [], [], [], [], [];
    }

    // -------------------------------------------------------------- send

    method Send(data: seq<byte>) returns (ok: bool)
      requires cfg.Valid()
      modifies this`sendQueue
      ensures ok == Accepts(old(Value()), data)
      ensures Value() == ArqModel.Send(old(Value()), data)
    {
      var mss := cfg.Mss();
      if cfg.streamMode {
        var rest := data;
        if |sendQueue| > 0 {
          var n := |sendQueue| - 1;
          var room := mss - |sendQueue[n].payload|;
          if room > 0 {
            var take := Min(|data|, room);
            sendQueue := sendQueue[n := sendQueue[n].(payload := sendQueue[n].payload + data[..take])];
            assert sendQueue == old(sendQueue)[..n] + [sendQueue[n]];
            rest := data[take..];
          }
        }
        AppendCut(rest);
        return true;
      }
      var count := FragmentCount(|data|, mss);
      if count - 1 > Min(cfg.receiveWindow - 1, 255) {
        return false;
      }
      AppendFragments(data, if count < 0 then 0 else count);
      return true;
    }

    method AppendCut(data: seq<byte>)
      requires cfg.Mss() > 0
      modifies this`sendQueue
      ensures sendQueue == old(sendQueue) + Cut(data, cfg.Mss())
    {
      var rest := data;
      while |rest| > 0
        invariant sendQueue + Cut(rest, cfg.Mss()) == old(sendQueue) + Cut(data, cfg.Mss())
        decreases |rest|
      {
        var take := Min(|rest|, cfg.Mss());
        var seg := FreshSegment(rest[..take], 0);
        assert sendQueue + Cut(rest, cfg.Mss()) == (sendQueue + [seg]) + Cut(rest[take..], cfg.Mss());
        sendQueue := sendQueue + [seg];
        rest := rest[take..];
      }
    }

    method AppendFragments(data: seq<byte>, count: int)
      requires cfg.Mss() > 0 && count >= 0
      modifies this`sendQueue
      ensures sendQueue == old(sendQueue) + Fragment(data, cfg.Mss(), count)
    {
      var rest, left := data, count;
      while left > 0
        invariant 0 <= left <= count
        invariant sendQueue + Fragment(rest, cfg.Mss(), left) == old(sendQueue) + Fragment(data, cfg.Mss(), count)
      {
        var take := Min(|rest|, cfg.Mss());
        var seg := FreshSegment(rest[..take], left - 1);
        assert sendQueue + Fragment(rest, cfg.Mss(), left)
               == (sendQueue + [seg]) + Fragment(rest[take..], cfg.Mss(), left - 1);
        sendQueue := sendQueue + [seg];
        rest, left := rest[take..], left - 1;
      }
    }

    // -------------------------------------------------------------- pop

    /** The byte length of the next complete message, or -1 when none is ready. */
    method PeekSize() returns (size: int)
      requires forall k :: 0 <= k < |receiveQueue| ==> receiveQueue[k].frg >= 0
      ensures 0 <= Ready(receiveQueue) <= |receiveQueue|
      ensures size == if Ready(receiveQueue) == 0 then -1 else |Bytes(receiveQueue[..Ready(receiveQueue)])|
    {
      if |receiveQueue| == 0 { return -1; }
      var needed := receiveQueue[0].frg + 1;
      if |receiveQueue| < needed { return -1; }
      size := 0;
      var i := needed;
      while i > 0
        invariant 0 <= i <= needed
        invariant size == |Bytes(receiveQueue[i..needed])|
      {
        i := i - 1;
        assert receiveQueue[i..needed][1..] == receiveQueue[i + 1..needed];
        size := size + |receiveQueue[i].payload|;
      }
      assert receiveQueue[0..needed] == receiveQueue[..needed];
    }

    method PopMessage() returns (msg: seq<byte>, ok: bool)
      requires forall k :: 0 <= k < |receiveQueue| ==> receiveQueue[k].frg >= 0
      modifies this`receiveQueue, this`receiveBuf, this`rcv, this`tell
      ensures 0 <= old(Ready(receiveQueue)) <= old(|receiveQueue|)
      ensures ok == (old(Ready(receiveQueue)) > 0)
      ensures ok ==> msg == old(Bytes(receiveQueue[..Ready(receiveQueue)])) && Value() == Pop(Wire, old(Value()))
      ensures !ok ==> msg == [] && Value() == old(Value())
    {
      var size := PeekSize();
      if size < 0 { return [], false; }
      var full := |receiveQueue| >= cfg.receiveWindow;
      var needed := Ready(receiveQueue);
      msg := Join(receiveQueue, needed);
      receiveQueue := receiveQueue[needed..];
      PromoteReceiveBuf();
      if full && |receiveQueue| < cfg.receiveWindow { tell := true; }
      ok := true;
    }

    method PromoteReceiveBuf()
      modifies this`receiveQueue, this`receiveBuf, this`rcv
      ensures Promoted(rcv, receiveQueue, receiveBuf)
           == Promote(Wire, old(rcv), old(receiveQueue), old(receiveBuf), cfg.receiveWindow)
    {
      var promoted := 0;
      while promoted < |receiveBuf| && receiveBuf[promoted].sn == rcv && |receiveQueue| < cfg.receiveWindow
        invariant 0 <= promoted <= |receiveBuf| && receiveBuf == old(receiveBuf)
        invariant Promote(Wire, rcv, receiveQueue, receiveBuf[promoted..], cfg.receiveWindow)
               == Promote(Wire, old(rcv), old(receiveQueue), old(receiveBuf), cfg.receiveWindow)
        decreases |receiveBuf| - promoted
      {
        PromoteStep(rcv, receiveQueue, receiveBuf, promoted, cfg.receiveWindow);
        receiveQueue := receiveQueue + [receiveBuf[promoted]];
        rcv := U32(rcv + 1);
        promoted := promoted + 1;
      }
      PromoteStop(rcv, receiveQueue, receiveBuf, promoted, cfg.receiveWindow);
      receiveBuf := receiveBuf[promoted..];
    }

    // -------------------------------------------------------------- input

    method ParseUnacknowledged(una: int) returns (removedAny: bool)
      modifies this`sendBuf
      ensures sendBuf == DropBefore(Wire, old(sendBuf), una)
      ensures removedAny == (|sendBuf| < |old(sendBuf)|)
    {
      var removed := 0;
      while removed < |sendBuf| && TimeDiff(una, sendBuf[removed].sn) > 0
        invariant 0 <= removed <= |sendBuf|
        invariant DropBefore(Wire, sendBuf, una) == DropBefore(Wire, sendBuf[removed..], una)
      {
        assert sendBuf[removed..][1..] == sendBuf[removed + 1..];
        removed := removed + 1;
      }
      sendBuf := sendBuf[removed..];
      removedAny := removed > 0;
    }

    method RefreshSendUnacknowledged()
      modifies this`una
      ensures Value() == Refresh(old(Value()))
    {
      una := if |sendBuf| > 0 then sendBuf[0].sn else nxt;
    }

    method ParseAck(sn: int)
      modifies this`sendBuf
      ensures Value() == TakeAck(Wire, old(Value()), sn)
    {
      if TimeDiff(sn, una) < 0 || TimeDiff(sn, nxt) >= 0 { return; }
      sendBuf := RemoveAcked(sendBuf, sn);
    }

    method ParseFastAck(sn: int) returns (triggered: bool)
      modifies this`sendBuf
      ensures Value() == TakeFastAck(Wire, old(Value()), sn)
      ensures triggered == FastAckTriggers(Wire, old(Value()), sn)
    {
      if TimeDiff(sn, una) < 0 || TimeDiff(sn, nxt) >= 0 { return false; }
      sendBuf, triggered := MarkSkipped(sendBuf, sn, cfg.FastResend());
    }

    method InsertDataSegment(sn: int, frg: int, payload: seq<byte>)
      modifies this`receiveQueue, this`receiveBuf, this`rcv
      ensures Value() == Insert(Wire, old(Value()), sn, frg, payload)
    {
      var seg := DataSegment(sn, frg, payload);
      if sn == rcv && |receiveBuf| == 0 && |receiveQueue| < cfg.receiveWindow {
        receiveQueue := receiveQueue + [seg];
        rcv := U32(rcv + 1);
        return;
      }
      var at := |receiveBuf|;
      while at > 0 && TimeDiff(sn, receiveBuf[at - 1].sn) <= 0
        invariant 0 <= at <= |receiveBuf|
        invariant forall k :: at <= k < |receiveBuf| ==> receiveBuf[k].sn != sn && Diff(Wire, sn, receiveBuf[k].sn) <= 0
      {
        if receiveBuf[at - 1].sn == sn {
          InsertDuplicate(receiveBuf, at - 1, seg);
          return;
        }
        at := at - 1;
      }
      InsertPlace(receiveBuf, at, seg);
      receiveBuf := receiveBuf[..at] + [seg] + receiveBuf[at..];
      PromoteReceiveBuf();
    }

    method Grow()
      modifies this`cwnd, this`incr
      ensures Value() == ArqModel.Grow(old(Value()))
    {
      var mss := U32(cfg.Mss());
      if cwnd >= remoteWindow || mss == 0 { return; }
      if cwnd < ssthresh {
        cwnd := U32(cwnd + 1);
        incr := U32(incr + mss);
      } else {
        if incr < mss { incr := mss; }
        incr := U32(incr + U32(U32(mss * mss) / incr + mss / 16));
        if U32(U32(cwnd + 1) * mss) <= incr { cwnd := U32(U32(incr + mss) - 1) / mss; }
      }
      if cwnd > remoteWindow {
        cwnd := remoteWindow;
        incr := U32(remoteWindow * mss);
      }
    }

    method UpdateRtt(rtt: int)
      modifies this`srtt, this`rttvar, this`rto
      ensures Value() == ArqModel.UpdateRtt(old(Value()), rtt)
    {
      var r := SmoothRtt(Rtt(srtt, rttvar), rtt);
      srtt, rttvar := r.smoothed, r.variance;
      rto := Timeout(cfg, r);
    }

    method TakeHeader(it: Item) returns (removed: bool)
      modifies this`remoteWindow, this`sendBuf, this`una
      ensures Value() == ArqModel.TakeHeader(Wire, old(Value()), it)
      ensures removed == (|sendBuf| < |old(sendBuf)|)
    {
      remoteWindow := it.wnd;
      removed := ParseUnacknowledged(it.una);
      RefreshSendUnacknowledged();
    }

    method TakeAckItem(sn: int) returns (fast: bool)
      modifies this`sendBuf, this`una
      ensures Value() == TakeFastAck(Wire, Refresh(TakeAck(Wire, old(Value()), sn)), sn)
      ensures fast == FastAckTriggers(Wire, Refresh(TakeAck(Wire, old(Value()), sn)), sn)
    {
      ParseAck(sn);
      RefreshSendUnacknowledged();
      fast := ParseFastAck(sn);
    }

    method TakePushItem(it: Item)
      modifies this`acks, this`receiveQueue, this`receiveBuf, this`rcv
      ensures Value() == TakePush(Wire, old(Value()), it)
    {
      if TimeDiff(it.sn, U32(rcv + cfg.receiveWindow)) < 0 {
        acks := acks + [Ack(it.sn, it.ts)];
        if TimeDiff(it.sn, rcv) >= 0 { InsertDataSegment(it.sn, it.frg, it.payload); }
      }
    }

    method TakeItem(it: Item) returns (trigger: bool)
      modifies this
      ensures Value() == ArqModel.TakeItem(Wire, old(Value()), it)
      ensures trigger == Triggers(Wire, old(Value()), it)
      ensures output == old(output)
    {
      trigger := TakeHeader(it);
      if it.cmd == CMD_ACK {
        var fast := TakeAckItem(it.sn);
        if fast { trigger := true; }
      } else if it.cmd == CMD_PUSH {
        TakePushItem(it);
      } else if it.cmd == CMD_ASK {
        tell := true;
      }
    }

    method Input(data: seq<byte>, now: int) returns (trigger: bool)
      modifies this
      ensures Value() == InputBytes(Wire, old(Value()), data, now)
      ensures trigger == (|data| >= HEADER && !Parse(cfg.conv, data).rejected
                          && AnyTriggers(Wire, old(Value()), Parse(cfg.conv, data).items))
      ensures output == old(output)
      ensures acks == old(acks) + ArqExchange.Owed(Wire, old(Value()), Parse(cfg.conv, data).items)
    {
      ArqExchange.InputAcks(Value(), data, now);
      if |data| < HEADER { return false; }
      var prevUna := una;
      var latest: Option<int> := None;
      trigger := false;
      var rest := data;
      while |rest| >= HEADER
        invariant TakeItems(Wire, Value(), Parse(cfg.conv, rest).items)
               == TakeItems(Wire, old(Value()), Parse(cfg.conv, data).items)
        invariant Parse(cfg.conv, rest).rejected == Parse(cfg.conv, data).rejected
        invariant LatestAck(Parse(cfg.conv, rest).items, latest) == LatestAck(Parse(cfg.conv, data).items, None)
        invariant AnyTriggers(Wire, old(Value()), Parse(cfg.conv, data).items)
               == (trigger || AnyTriggers(Wire, Value(), Parse(cfg.conv, rest).items))
        invariant output == old(output)
        decreases |rest|
      {
        var r := ReadItem(cfg.conv, rest);
        if r.None? {
          return false;
        }
        var it := r.value;
        var after := rest[Size(it)..];
        ParseStep(cfg.conv, rest, it);
        var t := TakeItem(it);
        if t { trigger := true; }
        if it.cmd == CMD_ACK { latest := Some(it.ts); }
        rest := after;
      }
      assert Parse(cfg.conv, rest).items == [];
      if latest.Some? && TimeDiff(now, latest.value) >= 0 { UpdateRtt(TimeDiff(now, latest.value)); }
      if !cfg.noDelay && TimeDiff(una, prevUna) > 0 { Grow(); }
    }

    // -------------------------------------------------------------- flush

    /** Appends one header and its payload to the packet being filled, handing over the packet first when it is full. */
    method Emit(pkt: seq<byte>, it: Item, ghost cur: seq<Item>, ghost rest: seq<Item>)
      returns (pkt': seq<byte>, ghost cur': seq<Item>)
      requires pkt == Encode(cfg.conv, cur)
      modifies this`output
      ensures pkt' == Encode(cfg.conv, cur')
      ensures Eventually(output, cfg, cur', rest) == Eventually(old(output), cfg, cur, [it] + rest)
    {
      pkt', cur' := pkt, cur;
      EmitStep(output, cfg, cur, it, rest);
      if |pkt| + Size(it) > cfg.mtu && |pkt| > 0 {
        output := output + [pkt];
        pkt', cur' := [], [];
      }
      EncodeAppend(cfg.conv, cur', it);
      assert [] + [it] == [it];
      pkt' := pkt' + Header(cfg.conv, it) + it.payload;
      cur' := cur' + [it];
    }

    /** Hands over the last packet unless it is empty. */
    method FinishPacket(pkt: seq<byte>, ghost cur: seq<Item>)
      requires pkt == Encode(cfg.conv, cur)
      modifies this`output
      ensures output == Eventually(old(output), cfg, cur, [])
    {
      if |pkt| > 0 { output := output + [pkt]; }
      assert EncodeAll(cfg.conv, []) == [] && EncodeAll(cfg.conv, [cur]) == [Encode(cfg.conv, cur)];
    }

    method FlushAcks(ghost rest: seq<Item>) returns (pkt: seq<byte>, ghost cur: seq<Item>)
      modifies this`acks, this`output
      ensures acks == [] && pkt == Encode(cfg.conv, cur)
      ensures Eventually(output, cfg, cur, rest)
           == Eventually(old(output), cfg, [], AckItems(Wire, old(Value()), old(acks)) + rest)
    {
      pkt, cur := [], [];
      var i := 0;
      while i < |acks|
        invariant 0 <= i <= |acks| && acks == old(acks) && pkt == Encode(cfg.conv, cur)
        invariant Eventually(output, cfg, cur, AckItems(Wire, old(Value()), acks[i..]) + rest)
               == Eventually(old(output), cfg, [], AckItems(Wire, old(Value()), acks) + rest)
      {
        ghost var after := AckItems(Wire, old(Value()), acks[i + 1..]) + rest;
        assert acks[i..][1..] == acks[i + 1..];
        if TimeDiff(acks[i].sn, rcv) >= 0 || i == |acks| - 1 {
          var it := AckItem(Value(), acks[i]);
          assert AckItem(old(Value()), acks[i]) == it;
          assert AckItems(Wire, old(Value()), acks[i..]) + rest == [it] + after;
          pkt, cur := Emit(pkt, it, cur, after);
        } else {
          assert AckItems(Wire, old(Value()), acks[i..]) + rest == after;
        }
        i := i + 1;
      }
      assert AckItems(Wire, old(Value()), acks[i..]) + rest == rest;
      acks := [];
    }

    method ProbeTimer(now: int)
      modifies this`probeWait, this`probeTs, this`ask
      ensures Value() == Probe(old(Value()), now)
    {
      if remoteWindow == 0 {
        if probeWait == 0 {
          probeWait := PROBE_INIT;
          probeTs := U32(now + probeWait);
        } else if TimeDiff(now, probeTs) >= 0 {
          probeWait := Min(Max(probeWait, PROBE_INIT) + probeWait / 2, PROBE_LIMIT);
          probeTs := U32(now + probeWait);
          ask := true;
        }
      } else {
        probeTs, probeWait := 0, 0;
      }
    }

    /** Moves one segment from the queue to the send buffer. */
    method AdmitNext()
      requires |sendQueue| > 0
      modifies this`sendQueue, this`sendBuf, this`nxt
      ensures Value() == AdmitOne(Wire, old(Value()))
      ensures |sendQueue| == old(|sendQueue|) - 1
    {
      sendQueue, sendBuf, nxt := sendQueue[1..], sendBuf + [sendQueue[0].(sn := nxt)], U32(nxt + 1);
    }

    method AdmitQueued(limit: int)
      modifies this`sendQueue, this`sendBuf, this`nxt
      ensures Value() == Admit(Wire, old(Value()), limit)
    {
      while |sendQueue| > 0 && TimeDiff(nxt, U32(una + limit)) < 0
        invariant Admit(Wire, Value(), limit) == Admit(Wire, old(Value()), limit)
        decreases |sendQueue|
      {
        AdmitUnfolds(Value(), limit);
        AdmitNext();
      }
    }

    /** Decides on one segment of the send buffer and puts it into the packet when it is due. */
    method ResendOne(seg: Segment, now: int, pkt0: seq<byte>, ghost cur0: seq<Item>, ghost rest: seq<Item>,
                     ghost st: State)
      returns (next: Segment, pkt: seq<byte>, ghost cur: seq<Item>)
      requires pkt0 == Encode(cfg.conv, cur0)
      requires st.cfg == cfg && st.rto == rto && st.rcv == rcv && st.receiveQueue == receiveQueue
      modifies this`output, this`dead
      ensures next == Resend(st, seg, now) && pkt == Encode(cfg.conv, cur)
      ensures dead == (old(dead) || Exhausted(st, seg, now))
      ensures Eventually(output, cfg, cur, rest) == Eventually(old(output), cfg, cur0, DueItem(st, seg, now) + rest)
    {
      ResendFrame(st, Value(), seg, now);
      next, pkt, cur := Resend(Value(), seg, now), pkt0, cur0;
      if NeedsSend(cfg, seg, now) {
        pkt, cur := Emit(pkt, PushItem(Value(), seg, now), cur, rest);
        if next.xmits >= DEAD_LINK_LIMIT { dead := true; }
      } else {
        assert [] + rest == rest;
      }
    }

    /** Sends every segment that is new, timed out or skipped often enough. */
    method ResendDue(now: int, pkt0: seq<byte>, ghost cur0: seq<Item>)
      returns (pkt: seq<byte>, ghost cur: seq<Item>, fast: bool, lost: bool)
      requires pkt0 == Encode(cfg.conv, cur0)
      modifies this`sendBuf, this`dead, this`output
      ensures pkt == Encode(cfg.conv, cur)
      ensures sendBuf == ResendAll(old(Value()), old(sendBuf), now)
      ensures dead == (old(dead) || AnyDead(old(Value()), old(sendBuf), now))
      ensures fast == AnySkipped(cfg, old(sendBuf), now) && lost == AnyLost(old(sendBuf), now)
      ensures Eventually(output, cfg, cur, [])
           == Eventually(old(output), cfg, cur0, PushItems(old(Value()), old(sendBuf), now))
    {
      pkt, cur, fast, lost := pkt0, cur0, false, false;
      ghost var st := Value();
      var buf := sendBuf;
      var i := 0;
      while i < |buf|
        invariant 0 <= i <= |buf| == |sendBuf| && pkt == Encode(cfg.conv, cur)
        invariant PartlyResent(st, buf, sendBuf, i, now)
        invariant dead == (st.dead || AnyDead(st, buf[..i], now))
        invariant fast == AnySkipped(cfg, buf[..i], now) && lost == AnyLost(buf[..i], now)
        invariant Eventually(output, cfg, cur, PushItems(st, buf[i..], now))
               == Eventually(old(output), cfg, cur0, PushItems(st, buf, now))
      {
        var seg := buf[i];
        var next;
        next, pkt, cur := ResendOne(seg, now, pkt, cur, PushItems(st, buf[i + 1..], now), st);
        PushStep(st, buf, i, now);
        FlagsStep(st, buf, i, now);
        if TimedOut(seg, now) { lost := true; }
        if Skipped(cfg, seg, now) { fast := true; }
        ResentStep(st, buf, sendBuf, i, now);
        sendBuf := sendBuf[i := next];
        i := i + 1;
      }
      assert buf[..i] == buf;
      ResendAllIs(st, buf, sendBuf, now);
    }

    method ShrinkWindow(limit: int, fast: bool, lost: bool)
      modifies this`ssthresh, this`cwnd, this`incr
      ensures Value() == Shrink(old(Value()), limit, fast, lost)
    {
      if cfg.noDelay { return; }
      var mss := U32(cfg.Mss());
      if fast {
        ssthresh := Max(U32(nxt - una) / 2, THRESH_MIN);
        cwnd := U32(ssthresh + cfg.FastResend());
        incr := U32(cwnd * mss);
      }
      if lost {
        ssthresh, cwnd, incr := Max(limit / 2, THRESH_MIN), 1, mss;
      }
      if cwnd < 1 { cwnd, incr := 1, mss; }
    }

    method Flush(now: int, ackOnly: bool)
      modifies this
      ensures Value() == ArqModel.Flush(Wire, old(Value()), now, ackOnly)
      ensures output == old(output) + EncodeAll(cfg.conv, FlushPackets(Wire, old(Value()), now, ackOnly))
      ensures !ackOnly && ArqSending.Fits(old(Value())) && ArqSending.Pending(old(Value())) && 0 <= now < TWO32 ==>
                ArqSending.FlushedAs(old(Value()), Value(), output[|old(output)|..], now)
    {
      ArqSending.FlushReads(Value(), now);
      if !HasWork(Value()) && remoteWindow > 0 {
        assert EncodeAll(cfg.conv, []) == [];
        return;
      }
      ghost var st := Value();
      ghost var ackItems := AckItems(Wire, st, st.acks);
      if ackOnly {
        var pkt, cur := FlushAcks([]);
        FinishPacket(pkt, cur);
        assert ackItems + [] == ackItems;
        return;
      }
      FullFlush(now);
      FlushIs(st, now);
    }

    method FullFlush(now: int)
      modifies this
      ensures Value() == Finished(old(Value()).(acks := []), now)
      ensures output == Eventually(old(output), cfg, [],
                                   AckItems(Wire, old(Value()), old(acks)) + RestItems(old(Value()).(acks := []), now))
    {
      ghost var st := Value().(acks := []);
      var pkt, cur := FlushAcks(RestItems(st, now));
      assert Value() == st;
      PrepareAndSend(now, pkt, cur);
    }

    method PrepareAndSend(now: int, pkt0: seq<byte>, ghost cur0: seq<Item>)
      requires pkt0 == Encode(cfg.conv, cur0) && acks == []
      modifies this
      ensures Value() == Finished(old(Value()), now)
      ensures output == Eventually(old(output), cfg, cur0, RestItems(old(Value()), now))
    {
      ghost var ready := Prepared(Wire, Value(), now);
      var pkt, limit;
      ghost var cur;
      pkt, cur, limit := PrepareFlush(now, pkt0, cur0, PushItems(ready, ready.sendBuf, now));
      SendDue(now, pkt, cur, limit);
    }

    /** The rest of a flush, once the segments to send are in the send buffer. */
    method SendDue(now: int, pkt0: seq<byte>, ghost cur0: seq<Item>, limit: int)
      requires pkt0 == Encode(cfg.conv, cur0)
      modifies this`sendBuf, this`dead, this`output, this`ssthresh, this`cwnd, this`incr
      ensures Value() == Sent(old(Value()), limit, now)
      ensures output == Eventually(old(output), cfg, cur0, PushItems(old(Value()), old(sendBuf), now))
    {
      ghost var st := Value();
      var pkt, cur, fast, lost := ResendDue(now, pkt0, cur0);
      FinishPacket(pkt, cur);
      assert Value() == Resent(st, now);
      ShrinkWindow(limit, fast, lost);
    }

    /** From the acknowledgements to the point where every segment to send is in the send buffer. */
    method PrepareFlush(now: int, pkt0: seq<byte>, ghost cur0: seq<Item>, ghost rest: seq<Item>)
      returns (pkt: seq<byte>, ghost cur: seq<Item>, limit: int)
      requires pkt0 == Encode(cfg.conv, cur0) && acks == []
      modifies this`probeWait, this`probeTs, this`ask, this`tell, this`output, this`sendQueue, this`sendBuf, this`nxt
      ensures Value() == Prepared(Wire, old(Value()), now) && limit == SendLimit(old(Value()))
      ensures pkt == Encode(cfg.conv, cur)
      ensures Eventually(output, cfg, cur, rest)
           == Eventually(old(output), cfg, cur0, ProbeItems(Probe(old(Value()), now)) + rest)
    {
      ProbeTimer(now);
      pkt, cur := FlushProbes(pkt0, cur0, rest);
      limit := SendLimit(Value());
      AdmitQueued(limit);
      assert old(Value()).(acks := []) == old(Value());
    }

    method FlushProbes(pkt0: seq<byte>, ghost cur0: seq<Item>, ghost rest: seq<Item>)
      returns (pkt: seq<byte>, ghost cur: seq<Item>)
      requires pkt0 == Encode(cfg.conv, cur0)
      modifies this`ask, this`tell, this`output
      ensures pkt == Encode(cfg.conv, cur) && !ask && !tell
      ensures Eventually(output, cfg, cur, rest) == Eventually(old(output), cfg, cur0, ProbeItems(old(Value())) + rest)
    {
      pkt, cur := pkt0, cur0;
      ghost var tells := if tell then [ProbeItem(Value(), CMD_TELL)] else [];
      if ask {
        assert ProbeItems(Value()) + rest == [ProbeItem(Value(), CMD_ASK)] + (tells + rest);
        pkt, cur := Emit(pkt, ProbeItem(Value(), CMD_ASK), cur, tells + rest);
      } else {
        assert ProbeItems(Value()) + rest == tells + rest;
      }
      if tell {
        pkt, cur := Emit(pkt, ProbeItem(Value(), CMD_TELL), cur, rest);
      } else {
        assert tells + rest == rest;
      }
      ask, tell := false, false;
    }
  }

  /** What will have been put out once the packet being filled and the items still to come are handed over. */
  ghost function Eventually(out: seq<seq<byte>>, cfg: Config, cur: seq<Item>, rest: seq<Item>): seq<seq<byte>> {
    out + EncodeAll(cfg.conv, Pack(cfg.mtu, cur, rest))
  }

  lemma EmitStep(out: seq<seq<byte>>, cfg: Config, cur: seq<Item>, it: Item, rest: seq<Item>)
    ensures TotalSize(cur) == 0 <==> cur == []
    ensures Eventually(out, cfg, cur, [it] + rest)
         == if TotalSize(cur) + Size(it) > cfg.mtu && cur != []
            then Eventually(out + [Encode(cfg.conv, cur)], cfg, [it], rest)
            else Eventually(out, cfg, cur + [it], rest)
  {
    assert ([it] + rest)[1..] == rest;
    if cur != [] { SizePositive(cur); }
    EncodeAllCons(cfg.conv, cur, Pack(cfg.mtu, [it], rest));
    Assoc(out, [Encode(cfg.conv, cur)], EncodeAll(cfg.conv, Pack(cfg.mtu, [it], rest)));
  }

  lemma EncodeAllCons(conv: int, cur: seq<Item>, tail: seq<seq<Item>>)
    ensures EncodeAll(conv, [cur] + tail) == [Encode(conv, cur)] + EncodeAll(conv, tail)
  {
  }

  lemma SizePositive(items: seq<Item>)
    ensures TotalSize(items) >= 0 && (items != [] ==> TotalSize(items) > 0)
  {
  }

  lemma {:induction false} EncodeAppend(conv: int, items: seq<Item>, it: Item)
    ensures Encode(conv, items + [it]) == Encode(conv, items) + Header(conv, it) + it.payload
  {
    var h, p := Header(conv, it), it.payload;
    if items == [] {
      assert items + [it] == [it] && [it][1..] == [];
      assert Encode(conv, [it]) == h + p + Encode(conv, []);
      assert h + p + [] == h + p && [] + h + p == h + p;
    } else {
      EncodeAppend(conv, items[1..], it);
      assert (items + [it])[1..] == items[1..] + [it];
      Assoc4(Header(conv, items[0]) + items[0].payload, Encode(conv, items[1..]), h, p);
    }
  }

  lemma ParseStep(conv: int, data: seq<byte>, it: Item)
    requires |data| >= HEADER && ReadItem(conv, data) == Some(it)
    ensures Parse(conv, data).items != [] && Parse(conv, data).items[0] == it
    ensures Parse(conv, data).items[1..] == Parse(conv, data[Size(it)..]).items
    ensures Parse(conv, data).rejected == Parse(conv, data[Size(it)..]).rejected
  {
  }

  /** Where the scan from the back stops is where the segment goes. */
  lemma {:induction false} InsertPlace(buf: seq<Segment>, at: int, seg: Segment)
    requires 0 <= at <= |buf| && (at > 0 ==> Diff(Wire, seg.sn, buf[at - 1].sn) > 0)
    requires forall k :: at <= k < |buf| ==> buf[k].sn != seg.sn && Diff(Wire, seg.sn, buf[k].sn) <= 0
    ensures InsertSorted(Wire, buf, seg) == buf[..at] + [seg] + buf[at..]
    ensures InsertSorted(Wire, buf, seg) != buf
  {
    var n := |buf| - 1;
    if at == |buf| {
      assert buf[..at] + [seg] + buf[at..] == buf + [seg];
    } else {
      InsertPlace(buf[..n], at, seg);
      assert buf == buf[..n] + [buf[n]];
      PlaceBeforeLast(buf[..n], seg, buf[n], at);
    }
    assert |buf[..at] + [seg] + buf[at..]| == |buf| + 1;
  }

  lemma {:induction false} InsertDuplicate(buf: seq<Segment>, at: int, seg: Segment)
    requires 0 <= at < |buf| && buf[at].sn == seg.sn
    requires forall k :: at < k < |buf| ==> buf[k].sn != seg.sn && Diff(Wire, seg.sn, buf[k].sn) <= 0
    ensures InsertSorted(Wire, buf, seg) == buf
  {
    var n := |buf| - 1;
    if at < n {
      InsertDuplicate(buf[..n], at, seg);
      assert buf == buf[..n] + [buf[n]];
    }
  }

  lemma FlagsStep(st: State, buf: seq<Segment>, i: int, now: int)
    requires 0 <= i < |buf|
    ensures AnyLost(buf[..i + 1], now) == (AnyLost(buf[..i], now) || TimedOut(buf[i], now))
    ensures AnySkipped(st.cfg, buf[..i + 1], now) == (AnySkipped(st.cfg, buf[..i], now) || Skipped(st.cfg, buf[i], now))
    ensures AnyDead(st, buf[..i + 1], now) == (AnyDead(st, buf[..i], now) || Exhausted(st, buf[i], now))
  {
    assert buf[..i + 1][..i] == buf[..i];
  }

  /** Deciding on a segment reads only the configuration, the timeout and what every header carries. */
  lemma ResendFrame(st: State, st1: State, seg: Segment, now: int)
    requires st1.cfg == st.cfg && st1.rto == st.rto && st1.rcv == st.rcv && st1.receiveQueue == st.receiveQueue
    ensures Resend(st1, seg, now) == Resend(st, seg, now) && PushItem(st1, seg, now) == PushItem(st, seg, now)
  {
  }

  function DueItem(st: State, seg: Segment, now: int): seq<Item> {
    if NeedsSend(st.cfg, seg, now) then [PushItem(st, seg, now)] else []
  }

  lemma PushStep(st: State, buf: seq<Segment>, i: int, now: int)
    requires 0 <= i < |buf|
    ensures PushItems(st, buf[i..], now) == DueItem(st, buf[i], now) + PushItems(st, buf[i + 1..], now)
  {
    assert buf[i..][1..] == buf[i + 1..];
  }

  /** A prepared state after every segment that is due has been sent. */
  function Sent(st: State, limit: int, now: int): State {
    Shrink(Resent(st, now), limit, AnySkipped(st.cfg, st.sendBuf, now), AnyLost(st.sendBuf, now))
  }

  function Resent(st: State, now: int): State {
    st.(sendBuf := ResendAll(st, st.sendBuf, now), dead := st.dead || AnyDead(st, st.sendBuf, now))
  }

  /** A full flush of a state whose acknowledgements are out already, and the items it sends: probes, then data. */
  function Finished(st: State, now: int): State { Sent(Prepared(Wire, st, now), SendLimit(st), now) }

  function RestItems(st: State, now: int): seq<Item> {
    ProbeItems(Probe(st, now)) + PushItems(Prepared(Wire, st, now), Prepared(Wire, st, now).sendBuf, now)
  }

  lemma FlushIs(st: State, now: int)
    requires HasWork(st) || st.remoteWindow <= 0
    ensures Flush(Wire, st, now, false) == Finished(st.(acks := []), now)
    ensures FlushItems(Wire, st, now, false) == AckItems(Wire, st, st.acks) + RestItems(st.(acks := []), now)
  {
    FlushStateIs(st, now);
    FlushItemsAre(st, now);
  }

  lemma FlushStateIs(st: State, now: int)
    requires HasWork(st) || st.remoteWindow <= 0
    ensures Flush(Wire, st, now, false) == Finished(st.(acks := []), now)
  {
    ProbeSame(st, now);
    PreparedConfig(st, now);
    assert SendLimit(st.(acks := [])) == SendLimit(st);
  }

  lemma FlushItemsAre(st: State, now: int)
    requires HasWork(st) || st.remoteWindow <= 0
    ensures FlushItems(Wire, st, now, false) == AckItems(Wire, st, st.acks) + RestItems(st.(acks := []), now)
  {
    RestSame(st, now);
    Assoc(AckItems(Wire, st, st.acks), ProbeItems(Probe(st, now)),
          PushItems(Prepared(Wire, st, now), Prepared(Wire, st, now).sendBuf, now));
  }

  lemma RestSame(st: State, now: int)
    ensures RestItems(st.(acks := []), now) == RestItems(st, now)
  {
    ProbeSame(st, now);
  }

  lemma PreparedConfig(st: State, now: int)
    ensures Prepared(Wire, st, now).cfg == st.cfg
  {
    var s1 := Probe(st.(acks := []), now);
    AdmitConfig(s1.(ask := false, tell := false), SendLimit(s1));
  }

  lemma PromoteStep(rcv: int, queue: seq<Segment>, buf: seq<Segment>, i: int, window: int)
    requires 0 <= i < |buf| && buf[i].sn == rcv && |queue| < window
    ensures Promote(Wire, rcv, queue, buf[i..], window)
         == Promote(Wire, U32(rcv + 1), queue + [buf[i]], buf[i + 1..], window)
  {
    Seqs.Suffix(buf, i);
  }

  lemma PromoteStop(rcv: int, queue: seq<Segment>, buf: seq<Segment>, i: int, window: int)
    requires 0 <= i <= |buf| && (i == |buf| || buf[i].sn != rcv || |queue| >= window)
    ensures Promote(Wire, rcv, queue, buf[i..], window) == Promoted(rcv, queue, buf[i..])
  {
    if i < |buf| { Seqs.Suffix(buf, i); }
  }

  /** The first `i` segments of the send buffer have been decided on. */
  ghost predicate PartlyResent(st: State, buf: seq<Segment>, part: seq<Segment>, i: int, now: int) {
    |part| == |buf| && forall k :: 0 <= k < |buf| ==> part[k] == if k < i then Resend(st, buf[k], now) else buf[k]
  }

  lemma ResentStep(st: State, buf: seq<Segment>, part: seq<Segment>, i: int, now: int)
    requires PartlyResent(st, buf, part, i, now) && 0 <= i < |buf|
    ensures PartlyResent(st, buf, part[i := Resend(st, buf[i], now)], i + 1, now)
  {
  }

  lemma AdmitUnfolds(st: State, limit: int)
    requires CanAdmit(Wire, st, limit)
    ensures Admit(Wire, st, limit) == Admit(Wire, AdmitOne(Wire, st), limit)
  {
  }

  lemma {:induction false} AdmitConfig(st: State, limit: int)
    ensures Admit(Wire, st, limit).cfg == st.cfg
    decreases |st.sendQueue|
  {
    if CanAdmit(Wire, st, limit) {
      AdmitConfig(AdmitOne(Wire, st), limit);
    }
  }

  lemma ProbeSame(st: State, now: int)
    ensures Probe(st.(acks := []), now) == Probe(st, now).(acks := [])
    ensures ProbeItems(Probe(st.(acks := []), now)) == ProbeItems(Probe(st, now))
    ensures Prepared(Wire, st.(acks := []), now) == Prepared(Wire, st, now)
  {
  }

  /** The payloads of the first segments, one after the other. */
  method Join(queue: seq<Segment>, needed: int) returns (msg: seq<byte>)
    requires 0 <= needed <= |queue|
    ensures msg == Bytes(queue[..needed])
  {
    msg := [];
    var i := 0;
    while i < needed
      invariant 0 <= i <= needed
      invariant msg + Bytes(queue[i..needed]) == Bytes(queue[..needed])
    {
      assert queue[i..needed][1..] == queue[i + 1..needed];
      assert msg + Bytes(queue[i..needed]) == (msg + queue[i].payload) + Bytes(queue[i + 1..needed]);
      msg := msg + queue[i].payload;
      i := i + 1;
    }
    assert msg + [] == msg;
  }

  /** The send buffer without the segment a selective acknowledgement names. */
  method RemoveAcked(buf: seq<Segment>, sn: int) returns (r: seq<Segment>)
    ensures r == DropAcked(Wire, buf, sn)
  {
    var i := 0;
    while i < |buf| && buf[i].sn != sn && TimeDiff(sn, buf[i].sn) >= 0
      invariant 0 <= i <= |buf|
      invariant forall k :: 0 <= k < i ==> buf[k].sn != sn && Diff(Wire, sn, buf[k].sn) >= 0
    {
      i := i + 1;
    }
    DropAckedIs(buf, sn, i);
    r := if i < |buf| && buf[i].sn == sn then buf[..i] + buf[i + 1..] else buf;
  }

  /** Counts an acknowledgement at every older segment, and reports whether one reached the limit. */
  method MarkSkipped(buf: seq<Segment>, sn: int, limit: int) returns (r: seq<Segment>, triggered: bool)
    ensures r == CountSkipped(Wire, buf, sn)
    ensures triggered == SkipTriggers(Wire, buf, sn, limit)
  {
    triggered, r := false, buf;
    var i := 0;
    while i < |buf| && TimeDiff(sn, buf[i].sn) > 0
      invariant 0 <= i <= |buf| == |r|
      invariant forall k :: 0 <= k < i ==> Diff(Wire, sn, buf[k].sn) > 0
      invariant forall k :: 0 <= k < |buf| ==>
                  r[k] == if k < i then buf[k].(fastAcks := U32(buf[k].fastAcks + 1)) else buf[k]
      invariant SkipTriggers(Wire, buf, sn, limit) == (triggered || SkipTriggers(Wire, buf[i..], sn, limit))
    {
      Suffix(buf, i);
      r := r[i := r[i].(fastAcks := U32(r[i].fastAcks + 1))];
      if limit > 0 && r[i].fastAcks >= limit { triggered := true; }
      i := i + 1;
    }
    if i < |buf| { Suffix(buf, i); }
    CountSkippedIs(buf, r, sn, i);
  }

  lemma {:induction false} ResendAllIs(st: State, buf: seq<Segment>, done: seq<Segment>, now: int)
    requires |done| == |buf| && forall k :: 0 <= k < |buf| ==> done[k] == Resend(st, buf[k], now)
    ensures done == ResendAll(st, buf, now)
  {
    if buf != [] {
      ResendAllIs(st, buf[1..], done[1..], now);
    }
  }

  lemma {:induction false} DropAckedIs(buf: seq<Segment>, sn: int, i: int)
    requires 0 <= i <= |buf|
    requires forall k :: 0 <= k < i ==> buf[k].sn != sn && Diff(Wire, sn, buf[k].sn) >= 0
    requires i < |buf| ==> buf[i].sn == sn || Diff(Wire, sn, buf[i].sn) < 0
    ensures DropAcked(Wire, buf, sn) == if i < |buf| && buf[i].sn == sn then buf[..i] + buf[i + 1..] else buf
  {
    if i == 0 {
      assert |buf| > 0 ==> buf[..0] + buf[1..] == buf[1..];
    } else {
      var t := buf[1..];
      DropAckedIs(t, sn, i - 1);
      assert buf == [buf[0]] + t;
      if i < |buf| { DropTail(buf, i); }
    }
  }

  lemma {:induction false} CountSkippedIs(buf: seq<Segment>, r: seq<Segment>, sn: int, i: int)
    requires 0 <= i <= |buf| == |r|
    requires forall k :: 0 <= k < i ==> Diff(Wire, sn, buf[k].sn) > 0
    requires i < |buf| ==> Diff(Wire, sn, buf[i].sn) <= 0
    requires forall k :: 0 <= k < |buf| ==>
               r[k] == if k < i then buf[k].(fastAcks := U32(buf[k].fastAcks + 1)) else buf[k]
    ensures r == CountSkipped(Wire, buf, sn)
  {
    if i > 0 {
      CountSkippedIs(buf[1..], r[1..], sn, i - 1);
      assert r == [r[0]] + r[1..];
    }
  }
}
