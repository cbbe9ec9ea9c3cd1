/** Leaving out acknowledgements that the cumulative one covers changes nothing at the sender. */
module ArqAcks {
  import opened Wrappers
  import opened Words
  import opened ArqModel
  import opened ArqCodec
  import opened ArqIdeal
  import opened ArqWrap
  import opened ArqSafety

  /** The sender has taken a header with this window and cumulative acknowledgement already. */
  ghost predicate Settled(st: State, una: int, wnd: int) {
    && st.remoteWindow == wnd
    && st.una == FirstOr(st.sendBuf, st.nxt)
    && una <= st.una
  }

  ghost predicate IsAck(it: Item, una: int, wnd: int) { it.cmd == CMD_ACK && it.una == una && it.wnd == wnd }

  lemma SettledHeader(st: State, it: Item)
    requires Settled(st, it.una, it.wnd)
    ensures TakeHeader(Ideal, st, it) == st
  {
  }

  /** An acknowledgement the cumulative one covers does nothing. */
  lemma CoveredAck(st: State, it: Item)
    requires Settled(st, it.una, it.wnd) && it.cmd == CMD_ACK && it.sn < it.una
    ensures TakeItem(Ideal, st, it) == st && !Triggers(Ideal, st, it)
  {
    SettledHeader(st, it);
    assert Refresh(TakeAck(Ideal, st, it.sn)) == st;
  }

  lemma HeaderSettles(st: State, log: seq<Chunk>, it: Item)
    requires SenderInv(st, log) && it.una <= st.nxt
    ensures Settled(TakeHeader(Ideal, st, it), it.una, it.wnd)
    ensures SenderInv(TakeHeader(Ideal, st, it), log)
  {
    TakeHeaderKeeps(st, log, it);
    DropBeforeRest(st.sendBuf, it.una);
  }

  lemma {:induction false} DropBeforeRest(buf: seq<Segment>, una: int)
    ensures |DropBefore(Ideal, buf, una)| > 0 ==> DropBefore(Ideal, buf, una)[0].sn >= una
  {
    if buf != [] && una - buf[0].sn > 0 {
      DropBeforeRest(buf[1..], una);
    }
  }

  lemma AckSettles(st: State, log: seq<Chunk>, it: Item)
    requires SenderInv(st, log) && Settled(st, it.una, it.wnd) && it.cmd == CMD_ACK
    ensures Settled(TakeItem(Ideal, st, it), it.una, it.wnd) && SenderInv(TakeItem(Ideal, st, it), log)
  {
    SettledHeader(st, it);
    TakeAckItemKeeps(st, log, it.sn);
    TakeAckFrame(Ideal, st, it.sn);
    UnaForward(st, log, it.sn);
  }

  lemma UnaForward(st: State, log: seq<Chunk>, sn: int)
    requires SenderInv(st, log)
    ensures st.una <= TakeFastAck(Ideal, Refresh(TakeAck(Ideal, st, sn)), sn).una
    ensures TakeFastAck(Ideal, Refresh(TakeAck(Ideal, st, sn)), sn).remoteWindow == st.remoteWindow
  {
    var i := DropAckedAt(st.sendBuf, sn);
    var j := if InFlight(Ideal, st, sn) && i < |st.sendBuf| then i + 1 else i;
    assert st.sendBuf[..i] + st.sendBuf[i..] == st.sendBuf;
    DropKeeps(st.sendBuf, st.una, st.nxt, log, i, j);
  }

  lemma TakeOne(st: State, it: Item, rest: seq<Item>)
    ensures TakeItems(Ideal, st, [it] + rest) == TakeItems(Ideal, TakeItem(Ideal, st, it), rest)
    ensures AnyTriggers(Ideal, st, [it] + rest)
         == (Triggers(Ideal, st, it) || AnyTriggers(Ideal, TakeItem(Ideal, st, it), rest))
  {
    assert ([it] + rest)[1..] == rest;
  }

  /** On a settled sender, all the acknowledgements do what the ones that go out do. */
  lemma {:induction false} SettledCompression(st: State, log: seq<Chunk>, r: State, acks: seq<Ack>)
    requires SenderInv(st, log) && Settled(st, r.rcv, UnusedWindow(r))
    ensures TakeItems(Ideal, st, AllAckItems(r, acks)) == TakeItems(Ideal, st, AckItems(Ideal, r, acks))
    ensures AnyTriggers(Ideal, st, AllAckItems(r, acks)) == AnyTriggers(Ideal, st, AckItems(Ideal, r, acks))
    decreases |acks|
  {
    if acks != [] {
      var it := AckItem(r, acks[0]);
      var all, kept := AllAckItems(r, acks[1..]), AckItems(Ideal, r, acks[1..]);
      AckSettles(st, log, it);
      SettledCompression(TakeItem(Ideal, st, it), log, r, acks[1..]);
      TakeOne(st, it, all);
      TakeOne(st, it, kept);
      if !(acks[0].sn - r.rcv >= 0 || |acks| == 1) {
        CoveredAck(st, it);
        assert [] + kept == kept;
      }
    }
  }

  lemma AckItemsShape(r: State, acks: seq<Ack>)
    requires acks != []
    ensures AckItems(Ideal, r, acks) != []
    ensures forall k :: 0 <= k < |AckItems(Ideal, r, acks)| ==>
              IsAck(AckItems(Ideal, r, acks)[k], r.rcv, UnusedWindow(r))
    decreases |acks|
  {
    if |acks| > 1 { AckItemsShape(r, acks[1..]); }
    else { assert AckItems(Ideal, r, acks[1..]) == []; }
  }

  /** The first header settles the sender; what follows may as well start from there. */
  lemma SettleFirst(st: State, log: seq<Chunk>, items: seq<Item>, una: int, wnd: int)
    requires SenderInv(st, log) && una <= st.nxt && items != [] && IsAck(items[0], una, wnd)
    ensures var s := TakeHeader(Ideal, st, items[0]);
            && TakeItems(Ideal, st, items) == TakeItems(Ideal, s, items)
            && AnyTriggers(Ideal, st, items) == (|s.sendBuf| < |st.sendBuf| || AnyTriggers(Ideal, s, items))
  {
    var s := TakeHeader(Ideal, st, items[0]);
    HeaderSettles(st, log, items[0]);
    SettledHeader(s, items[0]);
    assert TakeItem(Ideal, st, items[0]) == TakeItem(Ideal, s, items[0]);
  }

  lemma SameHeader(st: State, a: Item, b: Item)
    requires a.una == b.una && a.wnd == b.wnd
    ensures TakeHeader(Ideal, st, a) == TakeHeader(Ideal, st, b)
  {
  }

  lemma {:induction false} SameLatest(r: State, acks: seq<Ack>, prev: Option<int>, prev': Option<int>)
    requires acks != [] || prev == prev'
    ensures LatestAck(AllAckItems(r, acks), prev) == LatestAck(AckItems(Ideal, r, acks), prev')
    decreases |acks|
  {
    if acks != [] {
      var it := AckItem(r, acks[0]);
      var all, kept := AllAckItems(r, acks[1..]), AckItems(Ideal, r, acks[1..]);
      assert ([it] + all)[1..] == all && ([it] + kept)[1..] == kept;
      if acks[0].sn - r.rcv >= 0 || |acks| == 1 {
        SameLatest(r, acks[1..], Some(it.ts), Some(it.ts));
      } else {
        assert [] + kept == kept;
        SameLatest(r, acks[1..], Some(it.ts), prev');
      }
    }
  }

  /** With unbounded counters: the same sender state, the same early-flush decision. */
  lemma CompressionIdeal(st: State, log: seq<Chunk>, r: State, acks: seq<Ack>, now: int)
    requires SenderInv(st, log) && r.rcv <= st.nxt
    ensures Input(Ideal, st, AllAckItems(r, acks), now) == Input(Ideal, st, AckItems(Ideal, r, acks), now)
    ensures AnyTriggers(Ideal, st, AllAckItems(r, acks)) == AnyTriggers(Ideal, st, AckItems(Ideal, r, acks))
  {
    if acks != [] {
      var all, kept := AllAckItems(r, acks), AckItems(Ideal, r, acks);
      var wnd := UnusedWindow(r);
      AckItemsShape(r, acks);
      assert all[0] == AckItem(r, acks[0]);
      SettleFirst(st, log, all, r.rcv, wnd);
      assert IsAck(kept[0], r.rcv, wnd);
      SettleFirst(st, log, kept, r.rcv, wnd);
      SameHeader(st, all[0], kept[0]);
      HeaderSettles(st, log, all[0]);
      SettledCompression(TakeHeader(Ideal, st, all[0]), log, r, acks);
      SameLatest(r, acks, None, None);
    }
  }

  // ---------------------------------------------------------------- the 32-bit program

  lemma {:induction false} AllAckItemsWrap(st: State, acks: seq<Ack>)
    ensures AllAckItems(Trunc(st), TAcks(acks)) == TItems(AllAckItems(st, acks))
    decreases |acks|
  {
    if acks != [] {
      assert TAcks(acks)[1..] == TAcks(acks[1..]);
      AllAckItemsWrap(st, acks[1..]);
      TItemsConcat([AckItem(st, acks[0])], AllAckItems(st, acks[1..]));
    }
  }

  lemma {:induction false} AllAckItemsAre(st: State, acks: seq<Ack>, log: seq<Chunk>)
    requires AcksInv(st.rcv, st.receiveBuf, acks) && TidyAcks(acks) && st.cfg.Valid()
    ensures AllAcksOk(AllAckItems(st, acks), st.rcv, st.receiveBuf) && AllDataOk(AllAckItems(st, acks), log)
    ensures TidyItems(AllAckItems(st, acks), st.cfg.Mss())
    decreases |acks|
  {
    if acks != [] {
      assert Received(st.rcv, st.receiveBuf, acks[0].sn);
      AllAckItemsAre(st, acks[1..], log);
    }
  }

  lemma {:induction false} KeptAmongAll(st: State, acks: seq<Ack>)
    ensures forall it :: it in AckItems(Ideal, st, acks) ==> it in AllAckItems(st, acks)
    decreases |acks|
  {
    if acks != [] {
      KeptAmongAll(st, acks[1..]);
    }
  }

  /** Reading one datagram with these items: what the program does with its bytes. */
  lemma BytesInput(me: Node, peer: Node, items: seq<Item>, now: int)
    requires Own(me) && Own(peer) && Linked(me, peer) && Linked(peer, me)
    requires AllDataOk(items, peer.log) && AllAcksOk(items, peer.ideal.rcv, peer.ideal.receiveBuf)
    requires TidyItems(items, peer.ideal.cfg.Mss()) && Young(items, me.ideal, peer.ideal.nxt) && items != []
    ensures InputBytes(Wire, me.wire, Encode(me.wire.cfg.conv, TItems(items)), now)
         == Trunc(Input(Ideal, me.ideal, items, now))
    ensures AnyTriggers(Wire, me.wire, TItems(items)) == AnyTriggers(Ideal, me.ideal, items)
  {
    assert forall i :: 0 <= i < |items| ==> TidyItem(items[i], peer.ideal.cfg.Mss());
    assert forall i :: 0 <= i < |items| ==> Encodable(TItems(items)[i]);
    ParseEncode(me.ideal.cfg.conv, TItems(items));
    NonEmptySize(TItems(items));
    NotAhead(peer, me);
    YoungIsFresh(items, me, peer);
    InputWrap(me.ideal, me.log, peer.log, me.delivered, items, now);
    TakeItemsWrap(me.ideal, me.log, peer.log, me.delivered, items);
  }

  /** Pending acknowledgements are younger than 2^31 sequence numbers. */
  ghost predicate AcksYoung(me: Node, peer: Node) {
    && AcksFresh(peer.ideal)
    && me.ideal.nxt - TWO31 <= peer.ideal.rcv
    && forall k :: 0 <= k < |peer.ideal.acks| ==> me.ideal.nxt - TWO31 <= peer.ideal.acks[k].sn
  }

  lemma {:induction false} AllAcksYoung(st: State, acks: seq<Ack>, me: State, peerNxt: int)
    requires me.nxt - TWO31 <= st.rcv && forall k :: 0 <= k < |acks| ==> me.nxt - TWO31 <= acks[k].sn
    ensures Young(AllAckItems(st, acks), me, peerNxt)
    decreases |acks|
  {
    if acks != [] {
      AllAcksYoung(st, acks[1..], me, peerNxt);
    }
  }

  /**
   For the acknowledgements pending at the peer, a datagram with only those that `flush` keeps leaves this side in
   exactly the state, and with the same early-flush decision, that a datagram with all of them would.
   */
  ghost predicate Compresses(me: State, peer: State, now: int) {
    var all, kept := AllAckItems(peer, peer.acks), AckItems(Wire, peer, peer.acks);
    && InputBytes(Wire, me, Encode(me.cfg.conv, kept), now) == InputBytes(Wire, me, Encode(me.cfg.conv, all), now)
    && AnyTriggers(Wire, me, kept) == AnyTriggers(Wire, me, all)
  }

  lemma NodesCompress(me: Node, peer: Node, now: int)
    requires Own(me) && Own(peer) && Linked(me, peer) && Linked(peer, me) && AcksYoung(me, peer)
    ensures Compresses(me.wire, peer.wire, now)
  {
    var r, acks := peer.ideal, peer.ideal.acks;
    var all, kept := AllAckItems(r, acks), AckItems(Ideal, r, acks);
    AllAckItemsWrap(r, acks);
    AckItemsWrap(r, acks);
    if acks != [] {
      AllAckItemsAre(r, acks, peer.log);
      AllAcksYoung(r, acks, me.ideal, peer.ideal.nxt);
      BytesInput(me, peer, all, now);
      AckItemsOk(r, acks, peer.log);
      TidyAckItems(r, acks);
      AckItemsShape(r, acks);
      KeptYoung(r, acks, me.ideal, peer.ideal.nxt);
      BytesInput(me, peer, kept, now);
      CompressionIdeal(me.ideal, me.log, r, acks, now);
    }
  }

  lemma KeptYoung(r: State, acks: seq<Ack>, me: State, peerNxt: int)
    requires Young(AllAckItems(r, acks), me, peerNxt)
    ensures Young(AckItems(Ideal, r, acks), me, peerNxt)
  {
    KeptAmongAll(r, acks);
    var kept, all := AckItems(Ideal, r, acks), AllAckItems(r, acks);
    forall k | 0 <= k < |kept|
      ensures me.nxt - TWO31 <= kept[k].una
      ensures kept[k].cmd == CMD_ACK ==> me.nxt - TWO31 <= kept[k].sn
      ensures kept[k].cmd == CMD_PUSH ==> peerNxt + me.cfg.receiveWindow - TWO31 <= kept[k].sn
    {
      assert kept[k] in all;
      var j :| 0 <= j < |all| && all[j] == kept[k];
    }
  }

  /** In every state of every run of the 32-bit system, in both directions. */
  lemma CompressionPreservesMeaning(states: seq<Sys>, events: seq<Event>, i: int, now: int)
    requires Run(states, events) && 0 <= i < |states|
    ensures AcksYoung(states[i].a, states[i].b) ==> Compresses(states[i].a.wire, states[i].b.wire, now)
    ensures AcksYoung(states[i].b, states[i].a) ==> Compresses(states[i].b.wire, states[i].a.wire, now)
  {
    Reachable(states, events, i);
    if AcksYoung(states[i].a, states[i].b) { NodesCompress(states[i].a, states[i].b, now); }
    if AcksYoung(states[i].b, states[i].a) { NodesCompress(states[i].b, states[i].a, now); }
  }
}
