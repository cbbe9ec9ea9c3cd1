/**
 What the two endpoints do for each other in every run: overdue segments are sent again, data that arrived is
 acknowledged and handed on as soon as it is in order, and what was acknowledged leaves the send buffer.
 */
module ArqExchange {
  import opened Wrappers
  import opened Words
  import opened ArqModel
  import opened ArqCodec
  import opened ArqIdeal
  import ArqStream
  import opened ArqWrap
  import opened ArqSafety
  import opened ArqSending

  // ---------------------------------------------------------------- acknowledgements owed

  lemma {:induction false} TakeItemsSnoc(m: Mode, st: State, items: seq<Item>)
    requires items != []
    ensures var n := |items| - 1; TakeItems(m, st, items) == TakeItem(m, TakeItems(m, st, items[..n]), items[n])
    decreases |items|
  {
    var n := |items| - 1;
    if n > 0 {
      TakeItemsSnoc(m, TakeItem(m, st, items[0]), items[1..]);
      assert items[1..][..n - 1] == items[..n][1..];
    }
  }

  /** The item is data that the receiver takes or has taken, when `st` is the state that it finds. */
  predicate InWindow(m: Mode, st: State, it: Item) {
    it.cmd == CMD_PUSH && Diff(m, it.sn, Norm(m, st.rcv + st.cfg.receiveWindow)) < 0
  }

  /** The acknowledgements that the items are owed, each looked at when its turn comes. */
  function Owed(m: Mode, st: State, items: seq<Item>): seq<Ack> {
    if items == [] then []
    else
      var n := |items| - 1;
      var it := items[n];
      Owed(m, st, items[..n]) + if InWindow(m, TakeItems(m, st, items[..n]), it) then [Ack(it.sn, it.ts)] else []
  }

  lemma InsertAcks(m: Mode, st: State, sn: int, frg: int, payload: seq<byte>)
    ensures Insert(m, st, sn, frg, payload).acks == st.acks && Insert(m, st, sn, frg, payload).cfg == st.cfg
  {
  }

  lemma ItemAcks(m: Mode, st: State, it: Item)
    ensures TakeItem(m, st, it).acks == st.acks + if InWindow(m, st, it) then [Ack(it.sn, it.ts)] else []
    ensures TakeItem(m, st, it).cfg == st.cfg
  {
    var s1 := TakeHeader(m, st, it);
    TakeHeaderFrame(m, st, it);
    if it.cmd == CMD_ACK {
      TakeAckFrame(m, s1, it.sn);
    } else if it.cmd == CMD_PUSH {
      InsertAcks(m, Acked(s1, it.sn, it.ts), it.sn, it.frg, it.payload);
    }
  }

  lemma {:induction false} ItemsAcks(m: Mode, st: State, items: seq<Item>)
    ensures TakeItems(m, st, items).acks == st.acks + Owed(m, st, items) && TakeItems(m, st, items).cfg == st.cfg
    decreases |items|
  {
    if items == [] {
      assert st.acks + [] == st.acks;
    } else {
      var n := |items| - 1;
      TakeItemsSnoc(m, st, items);
      ItemsAcks(m, st, items[..n]);
      ItemAcks(m, TakeItems(m, st, items[..n]), items[n]);
      var a := if InWindow(m, TakeItems(m, st, items[..n]), items[n]) then [Ack(items[n].sn, items[n].ts)] else [];
      assert st.acks + Owed(m, st, items[..n]) + a == st.acks + (Owed(m, st, items[..n]) + a);
    }
  }

  /**
   After any datagram, the pending acknowledgements are the old ones and those of its data, in order, duplicates
   included.
   */
  lemma InputAcks(st: State, data: seq<byte>, now: int)
    ensures InputBytes(Wire, st, data, now).acks == st.acks + Owed(Wire, st, Parse(st.cfg.conv, data).items)
  {
    var items := Parse(st.cfg.conv, data).items;
    ItemsAcks(Wire, st, items);
    if |data| < HEADER { assert st.acks + [] == st.acks; }
    FinishFrame(Wire, TakeItems(Wire, st, items), st.una, LatestAck(items, None), now);
  }

  lemma {:induction false} OwedHas(m: Mode, st: State, items: seq<Item>, q: nat)
    requires q < |items| && InWindow(m, TakeItems(m, st, items[..q]), items[q])
    ensures Ack(items[q].sn, items[q].ts) in Owed(m, st, items)
    decreases |items|
  {
    var n := |items| - 1;
    if q < n {
      assert items[..n][..q] == items[..q];
      OwedHas(m, st, items[..n], q);
    }
  }

  // ---------------------------------------------------------------- every acknowledgement is sent

  function Me(s: Sys, atA: bool): Node { if atA then s.a else s.b }

  /** The item acknowledges `a`: by name, or by saying that everything up to it was received. */
  predicate Acknowledges(it: Item, a: Ack) { it.una > a.sn || (it.cmd == CMD_ACK && it.sn == a.sn && it.ts == a.ts) }

  /** One of the node's datagrams from number `from` on, as its bytes parse, acknowledges `a`. */
  ghost predicate AckSent(n: Node, from: nat, a: Ack) {
    exists k, q :: from <= k < |n.packets| && 0 <= q < |n.packets[k]| && ReadsAs(n, k)
        && Acknowledges(n.packets[k][q], a)
  }

  /** The bytes of datagram `k` parse as its items, the numbers truncated to 32 bits. */
  ghost predicate ReadsAs(n: Node, k: int) {
    && 0 <= k < |n.packets| && k < |n.datagrams|
    && Parse(n.wire.cfg.conv, n.datagrams[k]) == Parsed(TItems(n.packets[k]), false)
  }

  lemma {:induction false} InConcat(packets: seq<seq<Item>>, j: nat) returns (k: nat, q: nat)
    requires j < |Concat(packets)|
    ensures k < |packets| && q < |packets[k]| && packets[k][q] == Concat(packets)[j]
  {
    if j < |packets[0]| {
      k, q := 0, j;
    } else {
      var k1, q1 := InConcat(packets[1..], j - |packets[0]|);
      k, q := k1 + 1, q1;
    }
  }

  lemma {:induction false} AckItemsAnswer(st: State, acks: seq<Ack>, a: Ack) returns (j: nat)
    requires a in acks
    ensures j < |AckItems(Ideal, st, acks)| && Acknowledges(AckItems(Ideal, st, acks)[j], a)
    decreases |acks|
  {
    var rest := AckItems(Ideal, st, acks[1..]);
    if acks[0] == a && (a.sn >= st.rcv || |acks| == 1) {
      j := 0;
    } else if |acks| > 1 {
      var b := if a in acks[1..] then a else acks[|acks| - 1];
      assert acks[|acks| - 1] == acks[1..][|acks| - 2];
      var i := AckItemsAnswer(st, acks[1..], b);
      AckItemsSayRcv(st, acks[1..]);
      j := i + |AckItems(Ideal, st, acks)| - |rest|;
    }
  }

  lemma {:induction false} AckItemsSayRcv(st: State, acks: seq<Ack>)
    ensures forall k :: 0 <= k < |AckItems(Ideal, st, acks)| ==> AckItems(Ideal, st, acks)[k].una == st.rcv
    decreases |acks|
  {
    if acks != [] { AckItemsSayRcv(st, acks[1..]); }
  }

  lemma FlushAcknowledges(me: Node, now: int, ackOnly: bool, a: Ack)
    requires Own(me) && Own(FlushNode(me, now, ackOnly)) && a in me.ideal.acks
    ensures AckSent(FlushNode(me, now, ackOnly), |me.packets|, a)
  {
    var j := FlushItemAnswers(me.ideal, now, ackOnly, a);
    FlushConcat(me, now, ackOnly);
    var k, q := InConcat(FlushPackets(Ideal, me.ideal, now, ackOnly), j);
    SentIn(me, FlushNode(me, now, ackOnly), FlushPackets(Ideal, me.ideal, now, ackOnly), k, q, a);
  }

  lemma FlushItemAnswers(st: State, now: int, ackOnly: bool, a: Ack) returns (j: nat)
    requires a in st.acks
    ensures j < |FlushItems(Ideal, st, now, ackOnly)| && Acknowledges(FlushItems(Ideal, st, now, ackOnly)[j], a)
  {
    j := AckItemsAnswer(st, st.acks, a);
    AcksFirst(st, now, ackOnly, j);
  }

  lemma AcksFirst(st: State, now: int, ackOnly: bool, j: nat)
    requires st.acks != [] && j < |AckItems(Ideal, st, st.acks)|
    ensures j < |FlushItems(Ideal, st, now, ackOnly)|
    ensures FlushItems(Ideal, st, now, ackOnly)[j] == AckItems(Ideal, st, st.acks)[j]
  {
  }

  lemma SentIn(n: Node, n': Node, packets: seq<seq<Item>>, k: nat, q: nat, a: Ack)
    requires Own(n') && n'.packets == n.packets + packets && k < |packets| && q < |packets[k]|
    requires Acknowledges(packets[k][q], a)
    ensures AckSent(n', |n.packets|, a)
  {
    NodeParses(n', |n.packets| + k);
    assert n'.packets[|n.packets| + k] == packets[k];
    assert ReadsAs(n', |n.packets| + k);
  }

  lemma FlushConcat(me: Node, now: int, ackOnly: bool)
    requires Own(me) && Own(FlushNode(me, now, ackOnly))
    ensures Concat(FlushPackets(Ideal, me.ideal, now, ackOnly)) == FlushItems(Ideal, me.ideal, now, ackOnly)
  {
    PackConcat(me.ideal.cfg.mtu, [], FlushItems(Ideal, me.ideal, now, ackOnly));
    assert [] + FlushItems(Ideal, me.ideal, now, ackOnly) == FlushItems(Ideal, me.ideal, now, ackOnly);
  }

  lemma {:induction false} PackConcat(mtu: int, cur: seq<Item>, items: seq<Item>)
    ensures Concat(Pack(mtu, cur, items)) == cur + items
    decreases |items|
  {
    if items == [] {
      assert Concat([cur]) == cur + Concat([]);
      assert cur + items == cur;
    } else if TotalSize(cur) + Size(items[0]) > mtu && cur != [] {
      PackConcat(mtu, [items[0]], items[1..]);
      assert [items[0]] + items[1..] == items;
    } else {
      PackConcat(mtu, cur + [items[0]], items[1..]);
      assert (cur + [items[0]]) + items[1..] == cur + items;
    }
  }

  /** Packets and datagrams stay where they are. */
  lemma StepSends(me: Node, peer: Node, op: Op, me': Node)
    requires NodeStep(me, peer, op, me')
    ensures me.packets <= me'.packets && me.datagrams <= me'.datagrams && me'.wire.cfg == me.wire.cfg
  {
    match op
    case Write(data) =>
    case Read =>
    case Flushed(now, ackOnly) => FlushConfig(me.wire, now, ackOnly);
    case Arrival(k, now) => InputConfig(me.wire, peer.datagrams[k], now);
  }

  lemma FlushConfig(st: State, now: int, ackOnly: bool)
    ensures Flush(Wire, st, now, ackOnly).cfg == st.cfg
  {
    PreparedIs(Wire, st, now);
  }

  lemma InputConfig(st: State, data: seq<byte>, now: int)
    ensures InputBytes(Wire, st, data, now).cfg == st.cfg
  {
    var items := Parse(st.cfg.conv, data).items;
    ItemsAcks(Wire, st, items);
    FinishFrame(Wire, TakeItems(Wire, st, items), st.una, LatestAck(items, None), now);
  }

  lemma AckStaysSent(n: Node, n': Node, from: nat, a: Ack)
    requires AckSent(n, from, a) && n.packets <= n'.packets && n.datagrams <= n'.datagrams && n'.wire.cfg == n.wire.cfg
    ensures AckSent(n', from, a)
  {
    var k, q :| from <= k < |n.packets| && 0 <= q < |n.packets[k]| && ReadsAs(n, k) && Acknowledges(n.packets[k][q], a);
    assert n'.packets[k] == n.packets[k] && n'.datagrams[k] == n.datagrams[k];
    assert ReadsAs(n', k);
  }

  /** A pending acknowledgement stays pending until a datagram carries it. */
  lemma StepAnswers(me: Node, peer: Node, op: Op, me': Node, a: Ack)
    requires Own(me) && Own(me') && NodeStep(me, peer, op, me') && a in me.ideal.acks
    ensures a in me'.ideal.acks || AckSent(me', |me.packets|, a)
  {
    match op
    case Write(data) =>
    case Read => PopAcks(me.ideal);
    case Flushed(now, ackOnly) => FlushAcknowledges(me, now, ackOnly, a);
    case Arrival(k, now) =>
      var items := peer.packets[k];
      ItemsAcks(Ideal, me.ideal, items);
      FinishFrame(Ideal, TakeItems(Ideal, me.ideal, items), me.ideal.una, LatestAck(items, None), now);
  }

  lemma PopAcks(st: State)
    requires 0 < Ready(st.receiveQueue) <= |st.receiveQueue|
    ensures Pop(Ideal, st).acks == st.acks
  {
  }

  lemma NodeStepAt(states: seq<Sys>, events: seq<Event>, i: nat, atA: bool)
    requires Run(states, events) && i < |events|
    ensures Inv(states[i]) && Inv(states[i + 1])
    ensures events[i].atA == atA ==>
              NodeStep(Me(states[i], atA), Me(states[i], !atA), events[i].op, Me(states[i + 1], atA))
    ensures events[i].atA != atA ==> Me(states[i + 1], atA) == Me(states[i], atA)
  {
    Reachable(states, events, i);
    Reachable(states, events, i + 1);
    assert Step(states[i], events[i], states[i + 1]);
  }

  /** The acknowledgement is pending, or was sent from datagram `from` on. */
  ghost predicate Settles(n: Node, from: nat, a: Ack) { a in n.ideal.acks || AckSent(n, from, a) }

  lemma StepSettles(me: Node, peer: Node, op: Op, me': Node, from: nat, a: Ack)
    requires Own(me) && Own(me') && NodeStep(me, peer, op, me') && Settles(me, from, a) && from <= |me.packets|
    ensures Settles(me', from, a) && me.packets <= me'.packets
  {
    StepSends(me, peer, op, me');
    if a in me.ideal.acks {
      StepAnswers(me, peer, op, me', a);
      if AckSent(me', |me.packets|, a) { SentEarlier(me', from, |me.packets|, a); }
    } else {
      AckStaysSent(me, me', from, a);
    }
  }

  lemma {:induction false} StaysAnswered(states: seq<Sys>, events: seq<Event>, i: nat, j: nat, atA: bool, from: nat,
                                         a: Ack)
    requires Run(states, events) && i <= j < |states| && from <= |Me(states[i], atA).packets|
    requires Settles(Me(states[i], atA), from, a)
    ensures Settles(Me(states[j], atA), from, a) && from <= |Me(states[j], atA).packets|
    decreases j
  {
    if i < j {
      StaysAnswered(states, events, i, j - 1, atA, from, a);
      AnsweredAt(states, events, j - 1, atA, from, a);
    }
  }

  lemma AnsweredAt(states: seq<Sys>, events: seq<Event>, j: nat, atA: bool, from: nat, a: Ack)
    requires Run(states, events) && j < |events| && from <= |Me(states[j], atA).packets|
    requires Settles(Me(states[j], atA), from, a)
    ensures Settles(Me(states[j + 1], atA), from, a) && from <= |Me(states[j + 1], atA).packets|
  {
    NodeStepAt(states, events, j, atA);
    if events[j].atA == atA {
      StepSettles(Me(states[j], atA), Me(states[j], !atA), events[j].op, Me(states[j + 1], atA), from, a);
    }
  }

  lemma SentEarlier(n: Node, from: nat, later: nat, a: Ack)
    requires AckSent(n, later, a) && from <= later
    ensures AckSent(n, from, a)
  {
    var k, q :| later <= k < |n.packets| && 0 <= q < |n.packets[k]| && ReadsAs(n, k)
        && Acknowledges(n.packets[k][q], a);
  }

  /**
   Data is always acknowledged: in every run, a PUSH that arrived within the window, a duplicate included, is among the
   pending acknowledgements ever after, or a datagram sent since acknowledges it.
   */
  lemma DataAcknowledged(states: seq<Sys>, events: seq<Event>, i: nat, j: nat, q: nat)
    requires Run(states, events) && i < j < |states| && events[i].op.Arrival?
    requires var me, peer := Me(states[i], events[i].atA), Me(states[i], !events[i].atA);
             var k := events[i].op.k;
             && 0 <= k < |peer.packets| && q < |peer.packets[k]|
             && InWindow(Ideal, TakeItems(Ideal, me.ideal, peer.packets[k][..q]), peer.packets[k][q])
    ensures var me, peer, now := Me(states[i], events[i].atA), Me(states[i], !events[i].atA),
            Me(states[j], events[i].atA);
            var it := peer.packets[events[i].op.k][q];
            Settles(now, |me.packets|, Ack(it.sn, it.ts))
  {
    var atA := events[i].atA;
    var me, peer := Me(states[i], atA), Me(states[i], !atA);
    var items := peer.packets[events[i].op.k];
    NodeStepAt(states, events, i, atA);
    OwedHas(Ideal, me.ideal, items, q);
    ItemsAcks(Ideal, me.ideal, items);
    FinishFrame(Ideal, TakeItems(Ideal, me.ideal, items), me.ideal.una, LatestAck(items, None), events[i].op.now);
    StepSends(me, peer, events[i].op, Me(states[i + 1], atA));
    StaysAnswered(states, events, i + 1, j, atA, |me.packets|, Ack(items[q].sn, items[q].ts));
  }

  // ---------------------------------------------------------------- what was acknowledged leaves the send buffer

  /** The item acknowledges number n. */
  predicate Covers(it: Item, n: int) { n < it.una || (it.cmd == CMD_ACK && it.sn == n) }

  lemma {:induction false} DropBeforeHolds(buf: seq<Segment>, una: int, n: int)
    requires Sorted(buf) && Holds(DropBefore(Ideal, buf, una), n)
    ensures Holds(buf, n) && n >= una
  {
    if buf != [] && una - buf[0].sn > 0 {
      DropBeforeHolds(buf[1..], una, n);
      HoldsTail(buf, n);
    } else {
      var k :| 0 <= k < |buf| && buf[k].sn == n;
      assert buf[0].sn <= buf[k].sn;
    }
  }

  lemma HoldsTail(buf: seq<Segment>, n: int)
    requires buf != [] && Holds(buf[1..], n)
    ensures Holds(buf, n)
  {
    var k :| 0 <= k < |buf[1..]| && buf[1..][k].sn == n;
    assert buf[k + 1].sn == n;
  }

  lemma DropAckedHolds(buf: seq<Segment>, sn: int, n: int)
    requires Sorted(buf) && Holds(DropAcked(Ideal, buf, sn), n)
    ensures Holds(buf, n) && n != sn
  {
    var i := DropAckedAt(buf, sn);
    var r := DropAcked(Ideal, buf, sn);
    var k :| 0 <= k < |r| && r[k].sn == n;
    if i < |buf| {
      assert r[k] == buf[if k < i then k else k + 1];
    } else {
      assert buf[k].sn == n;
      AbsentStays(buf, sn, k);
    }
  }

  /** A number that DropAcked does not find in a sorted buffer is not there. */
  lemma {:induction false} AbsentStays(buf: seq<Segment>, sn: int, k: nat)
    requires Sorted(buf) && |DropAcked(Ideal, buf, sn)| == |buf| && k < |buf|
    ensures buf[k].sn != sn
  {
    if sn - buf[0].sn < 0 {
      assert k > 0 ==> buf[0].sn < buf[k].sn;
    } else if k > 0 {
      AbsentStays(buf[1..], sn, k - 1);
    }
  }

  /** An item takes off the send buffer exactly what it acknowledges. */
  lemma ItemDrops(st: State, log: seq<Chunk>, it: Item, n: int)
    requires SenderInv(st, log)
    ensures Holds(TakeItem(Ideal, st, it).sendBuf, n) <==> Holds(st.sendBuf, n) && !Covers(it, n)
    ensures SenderInv(TakeItem(Ideal, st, it), log) && TakeItem(Ideal, st, it).nxt == st.nxt
  {
    var s1 := TakeHeader(Ideal, st, it);
    TakeHeaderKeeps(st, log, it);
    TakeHeaderFrame(Ideal, st, it);
    if Holds(s1.sendBuf, n) { DropBeforeHolds(st.sendBuf, it.una, n); }
    if it.cmd == CMD_ACK {
      AckDrops(s1, log, it.sn, n);
    } else if it.cmd == CMD_PUSH {
      TakePushSender(Ideal, s1, it);
    }
  }

  lemma AckDrops(st: State, log: seq<Chunk>, sn: int, n: int)
    requires SenderInv(st, log)
    ensures var st1 := TakeFastAck(Ideal, Refresh(TakeAck(Ideal, st, sn)), sn);
            && (Holds(st1.sendBuf, n) <==> Holds(st.sendBuf, n) && n != sn)
            && SenderInv(st1, log) && st1.nxt == st.nxt
  {
    var mid := Refresh(TakeAck(Ideal, st, sn));
    TakeAckItemKeeps(st, log, sn);
    TakeAckFrame(Ideal, st, sn);
    var st1 := TakeFastAck(Ideal, mid, sn);
    if Holds(st1.sendBuf, n) {
      var k :| 0 <= k < |st1.sendBuf| && st1.sendBuf[k].sn == n;
      CountSkippedKeeps(Ideal, mid.sendBuf, sn);
      assert mid.sendBuf[k].sn == n;
      if InFlight(Ideal, st, sn) { DropAckedHolds(st.sendBuf, sn, n); }
    }
  }

  lemma {:induction false} ItemsDrop(st: State, log: seq<Chunk>, items: seq<Item>, n: int)
    requires SenderInv(st, log)
    ensures Holds(TakeItems(Ideal, st, items).sendBuf, n) <==>
            Holds(st.sendBuf, n) && forall q :: 0 <= q < |items| ==> !Covers(items[q], n)
    decreases |items|
  {
    if items != [] {
      ItemDrops(st, log, items[0], n);
      ItemsDrop(TakeItem(Ideal, st, items[0]), log, items[1..], n);
      assert forall q :: 1 <= q < |items| ==> items[q] == items[1..][q - 1];
    }
  }

  /**
   In every run a datagram takes exactly what it acknowledges off the send buffer: the numbers below a cumulative
   acknowledgement and those named by a selective one.
   */
  lemma AcknowledgedLeaves(states: seq<Sys>, events: seq<Event>, i: nat, n: int)
    requires Run(states, events) && i < |events| && events[i].op.Arrival?
    ensures var atA := events[i].atA;
            var me, peer, me' := Me(states[i], atA), Me(states[i], !atA), Me(states[i + 1], atA);
            0 <= events[i].op.k < |peer.packets| && me'.wire == Trunc(me'.ideal)
            && (Holds(me'.ideal.sendBuf, n) <==>
                Holds(me.ideal.sendBuf, n)
                && forall q :: 0 <= q < |peer.packets[events[i].op.k]| ==> !Covers(peer.packets[events[i].op.k][q], n))
  {
    var atA := events[i].atA;
    NodeStepAt(states, events, i, atA);
    var me, peer := Me(states[i], atA), Me(states[i], !atA);
    var items := peer.packets[events[i].op.k];
    ItemsDrop(me.ideal, me.log, items, n);
    FinishFrame(Ideal, TakeItems(Ideal, me.ideal, items), me.ideal.una, LatestAck(items, None), events[i].op.now);
  }

  // ---------------------------------------------------------------- data in order is handed on

  /** The next number is not left in the buffer while the queue has room. */
  predicate HandedOn(st: State) {
    |st.receiveBuf| == 0 || st.receiveBuf[0].sn != st.rcv || |st.receiveQueue| >= st.cfg.receiveWindow
  }

  lemma {:induction false} PromoteHands(m: Mode, rcv: int, queue: seq<Segment>, buf: seq<Segment>, window: int)
    ensures var p := Promote(m, rcv, queue, buf, window); |p.buf| == 0 || p.buf[0].sn != p.rcv || |p.queue| >= window
    decreases |buf|
  {
    if !(|buf| == 0 || buf[0].sn != rcv || |queue| >= window) {
      PromoteHands(m, Norm(m, rcv + 1), queue + [buf[0]], buf[1..], window);
    }
  }

  lemma PushHands(m: Mode, st: State, it: Item)
    requires HandedOn(st)
    ensures HandedOn(TakePush(m, st, it))
  {
    var seg := DataSegment(it.sn, it.frg, it.payload);
    PromoteHands(m, st.rcv, st.receiveQueue, InsertSorted(m, st.receiveBuf, seg), st.cfg.receiveWindow);
  }

  lemma {:induction false} ItemsHand(m: Mode, st: State, items: seq<Item>)
    requires HandedOn(st)
    ensures HandedOn(TakeItems(m, st, items))
    decreases |items|
  {
    if items != [] {
      var s1 := TakeHeader(m, st, items[0]);
      TakeHeaderFrame(m, st, items[0]);
      if items[0].cmd == CMD_ACK { TakeAckFrame(m, s1, items[0].sn); }
      else if items[0].cmd == CMD_PUSH { PushHands(m, s1, items[0]); }
      ItemsHand(m, TakeItem(m, st, items[0]), items[1..]);
    }
  }

  lemma InputHands(st: State, data: seq<byte>, now: int)
    requires HandedOn(st)
    ensures HandedOn(InputBytes(Wire, st, data, now))
  {
    var items := Parse(st.cfg.conv, data).items;
    ItemsHand(Wire, st, items);
    FinishFrame(Wire, TakeItems(Wire, st, items), st.una, LatestAck(items, None), now);
  }

  lemma PopHands(m: Mode, st: State)
    requires 0 < Ready(st.receiveQueue) <= |st.receiveQueue|
    ensures HandedOn(Pop(m, st))
  {
    PromoteHands(m, st.rcv, st.receiveQueue[Ready(st.receiveQueue)..], st.receiveBuf, st.cfg.receiveWindow);
  }

  lemma FlushHands(st: State, now: int, ackOnly: bool)
    requires HandedOn(st)
    ensures HandedOn(Flush(Wire, st, now, ackOnly))
  {
    PreparedIs(Wire, st, now);
  }

  /** What waits in the send queue was never sent. */
  ghost predicate FreshQueue(queue: seq<Segment>) { forall k :: 0 <= k < |queue| ==> queue[k].xmits == 0 }

  lemma {:induction false} CutFresh(data: seq<byte>, mss: int)
    requires mss > 0
    ensures FreshQueue(Cut(data, mss))
    decreases |data|
  {
    if data != [] { CutFresh(data[Min(|data|, mss)..], mss); }
  }

  lemma {:induction false} FragmentFresh(data: seq<byte>, mss: int, count: int)
    requires mss > 0 && count >= 0
    ensures FreshQueue(Fragment(data, mss, count))
    decreases count
  {
    if count > 0 { FragmentFresh(data[Min(|data|, mss)..], mss, count - 1); }
  }

  lemma StreamFresh(q: seq<Segment>, data: seq<byte>, mss: int)
    requires mss > 0 && FreshQueue(q)
    ensures FreshQueue(StreamQueue(q, data, mss))
  {
    if |q| > 0 && mss - |q[|q| - 1].payload| > 0 {
      CutFresh(data[Min(|data|, mss - |q[|q| - 1].payload|)..], mss);
    } else {
      CutFresh(data, mss);
    }
  }

  lemma MessageFresh(data: seq<byte>, mss: int)
    requires mss > 0
    ensures FragmentCount(|data|, mss) >= 0 && FreshQueue(Fragment(data, mss, FragmentCount(|data|, mss)))
  {
    ArqStream.CountCovers(|data|, mss);
    FragmentFresh(data, mss, FragmentCount(|data|, mss));
  }

  lemma SendFresh(st: State, data: seq<byte>)
    requires st.cfg.Mss() > 0 && FreshQueue(st.sendQueue)
    ensures FreshQueue(Send(st, data).sendQueue)
  {
    if st.cfg.streamMode { StreamFresh(st.sendQueue, data, st.cfg.Mss()); } else { MessageFresh(data, st.cfg.Mss()); }
  }

  lemma {:induction false} AdmitQueue(m: Mode, st: State, limit: int)
    requires FreshQueue(st.sendQueue)
    ensures FreshQueue(Admit(m, st, limit).sendQueue)
    decreases |st.sendQueue|
  {
    if CanAdmit(m, st, limit) { AdmitQueue(m, AdmitOne(m, st), limit); }
  }

  lemma FlushFresh(st: State, now: int, ackOnly: bool)
    requires FreshQueue(st.sendQueue)
    ensures FreshQueue(Flush(Wire, st, now, ackOnly).sendQueue)
    ensures 0 <= st.probeWait ==> 0 <= Flush(Wire, st, now, ackOnly).probeWait
  {
    PreparedFresh(st, now);
  }

  lemma PreparedFresh(st: State, now: int)
    requires FreshQueue(st.sendQueue)
    ensures FreshQueue(Prepared(Wire, st, now).sendQueue)
    ensures 0 <= st.probeWait ==> 0 <= Prepared(Wire, st, now).probeWait
  {
    var s1 := Probe(st.(acks := []), now);
    AdmitQueue(Wire, s1.(ask := false, tell := false), SendLimit(s1));
    AdmitSame(s1.(ask := false, tell := false), SendLimit(s1));
  }

  lemma {:induction false} ItemsQueue(m: Mode, st: State, items: seq<Item>)
    ensures TakeItems(m, st, items).sendQueue == st.sendQueue && TakeItems(m, st, items).probeWait == st.probeWait
    decreases |items|
  {
    if items != [] {
      var s1 := TakeHeader(m, st, items[0]);
      TakeHeaderFrame(m, st, items[0]);
      if items[0].cmd == CMD_ACK { TakeAckFrame(m, s1, items[0].sn); }
      else if items[0].cmd == CMD_PUSH { TakePushSender(m, s1, items[0]); PushWait(m, s1, items[0]); }
      ItemsQueue(m, TakeItem(m, st, items[0]), items[1..]);
    }
  }

  lemma PushWait(m: Mode, st: State, it: Item)
    ensures TakePush(m, st, it).probeWait == st.probeWait
  {
    InsertWait(m, Acked(st, it.sn, it.ts), it.sn, it.frg, it.payload);
  }

  lemma InsertWait(m: Mode, st: State, sn: int, frg: int, payload: seq<byte>)
    ensures Insert(m, st, sn, frg, payload).probeWait == st.probeWait
  {
  }

  ghost predicate Ordered(st: State) { HandedOn(st) && FreshQueue(st.sendQueue) && 0 <= st.probeWait }

  lemma StepOrders(me: Node, peer: Node, op: Op, me': Node)
    requires NodeStep(me, peer, op, me') && Ordered(me.wire)
    ensures Ordered(me'.wire)
  {
    match op
    case Write(data) => SendFresh(me.wire, data);
    case Read => PopHands(Wire, me.wire);
    case Flushed(now, ackOnly) => FlushHands(me.wire, now, ackOnly); FlushFresh(me.wire, now, ackOnly);
    case Arrival(k, now) =>
      var items := Parse(me.wire.cfg.conv, peer.datagrams[k]).items;
      InputHands(me.wire, peer.datagrams[k], now);
      ItemsQueue(Wire, me.wire, items);
      FinishFrame(Wire, TakeItems(Wire, me.wire, items), me.wire.una, LatestAck(items, None), now);
  }

  /** In every run the receiver hands on what is in order as soon as its queue has room. */
  lemma {:induction false} InOrderHandedOn(states: seq<Sys>, events: seq<Event>, i: nat, atA: bool)
    requires Run(states, events) && i < |states|
    ensures Ordered(Me(states[i], atA).wire)
  {
    if i > 0 {
      InOrderHandedOn(states, events, i - 1, atA);
      OrderedAt(states, events, i - 1, atA);
    }
  }

  lemma OrderedAt(states: seq<Sys>, events: seq<Event>, i: nat, atA: bool)
    requires Run(states, events) && i < |events| && Ordered(Me(states[i], atA).wire)
    ensures Ordered(Me(states[i + 1], atA).wire)
  {
    assert Step(states[i], events[i], states[i + 1]);
    if events[i].atA == atA {
      StepOrders(Me(states[i], atA), Me(states[i], !atA), events[i].op, Me(states[i + 1], atA));
    }
  }

  // ---------------------------------------------------------------- overdue segments are sent

  lemma NodeFits(n: Node)
    requires Own(n) && Ordered(n.wire)
    ensures Fits(n.wire)
  {
    var st, mss := n.wire, n.ideal.cfg.Mss();
    forall k | 0 <= k < |st.sendBuf| ensures SegmentFits(st.sendBuf[k], mss) && 0 <= st.sendBuf[k].sn < TWO32 {
      assert ChunkOf(n.ideal.sendBuf[k]) == n.log[n.ideal.sendBuf[k].sn];
      assert TidyChunk(n.log[n.ideal.sendBuf[k].sn], mss);
    }
    forall k | 0 <= k < |st.sendQueue| ensures SegmentFits(st.sendQueue[k], mss) {
      assert TidyChunk(Chunks(n.ideal.sendQueue)[k], mss);
    }
    forall k | 0 <= k < |st.acks| ensures 0 <= st.acks[k].sn < TWO32 && 0 <= st.acks[k].ts < TWO32 {
      assert 0 <= n.ideal.acks[k].ts < TWO32;
    }
  }

  ghost predicate Distinct(buf: seq<Segment>) { forall i, j :: 0 <= i < j < |buf| ==> buf[i].sn != buf[j].sn }

  lemma BufferDistinct(n: Node)
    requires Own(n)
    ensures Distinct(n.wire.sendBuf)
  {
    var buf := n.ideal.sendBuf;
    forall i, j | 0 <= i < j < |buf| ensures n.wire.sendBuf[i].sn != n.wire.sendBuf[j].sn {
      assert buf[i].sn < buf[j].sn;
      assert n.ideal.una <= buf[i].sn && buf[j].sn < n.ideal.nxt;
      DistinctWords(buf[i].sn, buf[j].sn);
    }
  }

  lemma DistinctWords(x: int, y: int)
    requires x < y < x + TWO31
    ensures U32(x) != U32(y)
  {
  }

  /** No data with this number is among the items. */
  ghost predicate Silent(items: seq<Item>, sn: int) {
    forall i :: 0 <= i < |items| && items[i].cmd == CMD_PUSH ==> items[i].sn != sn
  }

  ghost predicate SameNumbers(buf: seq<Segment>, buf1: seq<Segment>) {
    |buf1| == |buf| && forall j :: 0 <= j < |buf| ==> buf1[j].sn == buf[j].sn
  }

  lemma DueNumbers(st: State, buf: seq<Segment>, buf1: seq<Segment>, items: seq<Item>, now: int)
    requires SendsDue(st, buf, buf1, items, now)
    ensures SameNumbers(buf, buf1)
  {
    forall j | 0 <= j < |buf| ensures buf1[j].sn == buf[j].sn { assert Restarted(st, buf[j], buf1[j], now); }
  }

  lemma OtherNumber(cfg: Config, buf: seq<Segment>, buf1: seq<Segment>, it: Item, now: int, j: nat)
    requires SameNumbers(buf, buf1) && Distinct(buf1) && j < |buf| && !Overdue(cfg, buf[j], now)
    requires FromBuffer(cfg, buf, it, now)
    ensures it.sn != buf[j].sn
  {
    var k :| 0 <= k < |buf| && IsPush(it, buf[k]) && Overdue(cfg, buf[k], now);
    assert k != j && buf1[k].sn != buf1[j].sn;
  }

  lemma NotDueSilent(st: State, buf: seq<Segment>, buf1: seq<Segment>, items: seq<Item>, now: int, j: nat)
    requires SendsDue(st, buf, buf1, items, now) && Distinct(buf1) && j < |buf| && !Overdue(st.cfg, buf[j], now)
    ensures Silent(items, buf[j].sn)
  {
    DueNumbers(st, buf, buf1, items, now);
    forall i | 0 <= i < |items| && items[i].cmd == CMD_PUSH ensures items[i].sn != buf[j].sn {
      OtherNumber(st.cfg, buf, buf1, items[i], now, j);
    }
  }

  /** What the full flush of a node does: see Flushes; a segment that is not due does not go out. */
  ghost predicate NodeFlushes(me: Node, me': Node, now: int) {
    |me.datagrams| <= |me'.datagrams| &&
    var items := ReadAll(me.wire.cfg.conv, me'.datagrams[|me.datagrams|..]);
    if Pending(me.wire) then
      && FlushedAs(me.wire, me'.wire, me'.datagrams[|me.datagrams|..], now)
      && (forall j :: 0 <= j < |me.wire.sendBuf| && !Overdue(me.wire.cfg, me.wire.sendBuf[j], now) ==>
            Silent(items, me.wire.sendBuf[j].sn))
    else me'.wire == me.wire && items == []
  }

  lemma FlushNodeSends(me: Node, now: int)
    requires Own(me) && Ordered(me.wire) && 0 <= now < TWO32 && Own(FlushNode(me, now, false))
    ensures NodeFlushes(me, FlushNode(me, now, false), now)
  {
    var me' := FlushNode(me, now, false);
    NodeFits(me);
    assert me'.datagrams[|me.datagrams|..] == Datagrams(me.wire, now, false);
    if Pending(me.wire) {
      var k := FlushSends(me.wire, now);
      BufferDistinct(me');
      var items := ReadAll(me.wire.cfg.conv, Datagrams(me.wire, now, false));
      forall j | 0 <= j < |me.wire.sendBuf| && !Overdue(me.wire.cfg, me.wire.sendBuf[j], now)
        ensures Silent(items, me.wire.sendBuf[j].sn)
      {
        NotDueSilent(me.wire, Filled(me.wire, k), me'.wire.sendBuf, items, now, j);
      }
    } else {
      FlushAnswers(me.wire, now);
    }
  }

  /**
   In every run, a full flush sends again every segment whose timer has run out or that was skipped often enough,
   numbers as many queued segments as there is room for and sends them, and sends no other data.
   */
  lemma OverdueResent(states: seq<Sys>, events: seq<Event>, i: nat)
    requires Run(states, events) && i < |events| && events[i].op.Flushed? && !events[i].op.ackOnly
    ensures NodeFlushes(Me(states[i], events[i].atA), Me(states[i + 1], events[i].atA), events[i].op.now)
  {
    NodeStepAt(states, events, i, events[i].atA);
    InOrderHandedOn(states, events, i, events[i].atA);
    FlushNodeSends(Me(states[i], events[i].atA), events[i].op.now);
  }

  // ---------------------------------------------------------------- counting skipped segments

  /** How many of the items acknowledge a later segment by name. */
  function Skips(items: seq<Item>, n: int, nxt: int): nat {
    if items == [] then 0
    else Skips(items[1..], n, nxt) + if items[0].cmd == CMD_ACK && n < items[0].sn < nxt then 1 else 0
  }

  function Counted(seg: Segment, skips: nat): Segment {
    if skips == 0 then seg else seg.(fastAcks := U32(seg.fastAcks + skips))
  }

  /** What is left of the buffer is as before but for the counts. */
  ghost predicate Counts(buf: seq<Segment>, buf1: seq<Segment>, items: seq<Item>, nxt: int) {
    forall seg1 :: seg1 in buf1 ==> CountedFrom(buf, seg1, items, nxt)
  }

  ghost predicate CountedFrom(buf: seq<Segment>, seg1: Segment, items: seq<Item>, nxt: int) {
    exists seg :: seg in buf && seg.sn == seg1.sn && seg1 == Counted(seg, Skips(items, seg.sn, nxt))
  }

  lemma {:induction false} CountSkippedIs(buf: seq<Segment>, sn: int)
    requires Sorted(buf)
    ensures |CountSkipped(Ideal, buf, sn)| == |buf|
    ensures forall k :: 0 <= k < |buf| ==>
              CountSkipped(Ideal, buf, sn)[k] == if buf[k].sn < sn then buf[k].(fastAcks := U32(buf[k].fastAcks + 1))
                  else buf[k]
  {
    if buf != [] {
      if sn - buf[0].sn <= 0 {
        assert forall k :: 0 < k < |buf| ==> buf[0].sn < buf[k].sn;
      } else {
        CountSkippedIs(buf[1..], sn);
      }
    }
  }

  /** Segments that are only dropped count nothing. */
  ghost predicate Among(buf: seq<Segment>, buf1: seq<Segment>) {
    forall seg :: seg in buf1 ==> seg in buf
  }

  lemma DropsAmong(buf: seq<Segment>, una: int)
    ensures Among(buf, DropBefore(Ideal, buf, una))
  {
    var _ := DropBeforeAt(buf, una);
  }

  lemma DropAckedAmong(buf: seq<Segment>, sn: int)
    ensures Among(buf, DropAcked(Ideal, buf, sn))
  {
    var _ := DropAckedAt(buf, sn);
  }

  lemma FastAckCounts(st: State, log: seq<Chunk>, sn: int)
    requires SenderInv(st, log)
    ensures var buf1 := TakeFastAck(Ideal, st, sn).sendBuf;
            && |buf1| == |st.sendBuf|
            && forall k :: 0 <= k < |buf1| ==>
                 buf1[k] == if st.sendBuf[k].sn < sn < st.nxt then Counted(st.sendBuf[k], 1) else st.sendBuf[k]
  {
    CountSkippedIs(st.sendBuf, sn);
    forall k | 0 <= k < |st.sendBuf| ensures st.una <= st.sendBuf[k].sn { }
  }

  lemma ItemCounts(st: State, log: seq<Chunk>, it: Item)
    requires SenderInv(st, log)
    ensures Counts(st.sendBuf, TakeItem(Ideal, st, it).sendBuf, [it], st.nxt)
  {
    var s1 := TakeHeader(Ideal, st, it);
    TakeHeaderKeeps(st, log, it);
    TakeHeaderFrame(Ideal, st, it);
    DropsAmong(st.sendBuf, it.una);
    var st1 := TakeItem(Ideal, st, it);
    if it.cmd == CMD_ACK {
      var mid := Refresh(TakeAck(Ideal, s1, it.sn));
      TakeAckKeeps(s1, log, it.sn);
      DropAckedAmong(s1.sendBuf, it.sn);
      FastAckCounts(mid, log, it.sn);
      OneCounts(st.sendBuf, mid.sendBuf, st1.sendBuf, it, st.nxt);
    } else {
      if it.cmd == CMD_PUSH { TakePushSender(Ideal, s1, it); }
      OneCounts(st.sendBuf, s1.sendBuf, st1.sendBuf, it, st.nxt);
    }
  }

  lemma OneCounts(buf: seq<Segment>, mid: seq<Segment>, buf1: seq<Segment>, it: Item, nxt: int)
    requires Among(buf, mid) && |buf1| == |mid|
    requires forall k :: 0 <= k < |mid| ==>
               buf1[k] == if it.cmd == CMD_ACK && mid[k].sn < it.sn < nxt then Counted(mid[k], 1) else mid[k]
    ensures Counts(buf, buf1, [it], nxt)
  {
    forall seg1 | seg1 in buf1 ensures CountedFrom(buf, seg1, [it], nxt) {
      var k :| 0 <= k < |buf1| && buf1[k] == seg1;
      assert mid[k] in mid && mid[k] in buf;
      assert [it][1..] == [];
      assert Skips([it], mid[k].sn, nxt) == if it.cmd == CMD_ACK && mid[k].sn < it.sn < nxt then 1 else 0;
    }
  }

  lemma CountedTwice(seg: Segment, a: nat, b: nat)
    ensures Counted(Counted(seg, a), b) == Counted(seg, a + b)
  {
  }

  lemma CountsTrans(a: seq<Segment>, b: seq<Segment>, c: seq<Segment>, items: seq<Item>, nxt: int)
    requires items != [] && Counts(a, b, [items[0]], nxt) && Counts(b, c, items[1..], nxt)
    ensures Counts(a, c, items, nxt)
  {
    forall seg2 | seg2 in c ensures CountedFrom(a, seg2, items, nxt) {
      assert CountedFrom(b, seg2, items[1..], nxt);
      var seg1 :| seg1 in b && seg1.sn == seg2.sn && seg2 == Counted(seg1, Skips(items[1..], seg1.sn, nxt));
      assert CountedFrom(a, seg1, [items[0]], nxt);
      var seg :| seg in a && seg.sn == seg1.sn && seg1 == Counted(seg, Skips([items[0]], seg.sn, nxt));
      assert [items[0]][1..] == [];
      CountedTwice(seg, Skips([items[0]], seg.sn, nxt), Skips(items[1..], seg.sn, nxt));
      assert Skips([items[0]], seg.sn, nxt) + Skips(items[1..], seg.sn, nxt) == Skips(items, seg.sn, nxt);
    }
  }

  lemma {:induction false} ItemsCount(st: State, log: seq<Chunk>, items: seq<Item>)
    requires SenderInv(st, log)
    ensures Counts(st.sendBuf, TakeItems(Ideal, st, items).sendBuf, items, st.nxt)
    decreases |items|
  {
    if items != [] {
      var st1 := TakeItem(Ideal, st, items[0]);
      ItemCounts(st, log, items[0]);
      ItemDrops(st, log, items[0], 0);
      ItemsCount(st1, log, items[1..]);
      CountsTrans(st.sendBuf, st1.sendBuf, TakeItems(Ideal, st1, items[1..]).sendBuf, items, st.nxt);
    }
  }

  /** In every run a segment that stays counts exactly the later segments that the datagram acknowledges by name. */
  lemma SkippedCounted(states: seq<Sys>, events: seq<Event>, i: nat)
    requires Run(states, events) && i < |events| && events[i].op.Arrival?
    ensures var atA := events[i].atA;
            var me, peer, me' := Me(states[i], atA), Me(states[i], !atA), Me(states[i + 1], atA);
            0 <= events[i].op.k < |peer.packets| && me'.wire == Trunc(me'.ideal)
            && Counts(me.ideal.sendBuf, me'.ideal.sendBuf, peer.packets[events[i].op.k], me.ideal.nxt)
  {
    var atA := events[i].atA;
    NodeStepAt(states, events, i, atA);
    var me, peer := Me(states[i], atA), Me(states[i], !atA);
    var items := peer.packets[events[i].op.k];
    ItemsCount(me.ideal, me.log, items);
    FinishFrame(Ideal, TakeItems(Ideal, me.ideal, items), me.ideal.una, LatestAck(items, None), events[i].op.now);
  }

  // ---------------------------------------------------------------- the round-trip sample

  /** The last acknowledgement of the datagram, if it has one. */
  ghost predicate LastAck(items: seq<Item>, q: int) {
    0 <= q < |items| && items[q].cmd == CMD_ACK && forall r :: q < r < |items| ==> items[r].cmd != CMD_ACK
  }

  lemma {:induction false} LatestAckIs(items: seq<Item>, prev: Option<int>, q: int)
    ensures LastAck(items, q) ==> LatestAck(items, prev) == Some(items[q].ts)
    ensures (forall r :: 0 <= r < |items| ==> items[r].cmd != CMD_ACK) ==> LatestAck(items, prev) == prev
    decreases |items|
  {
    if items != [] {
      var prev1 := if items[0].cmd == CMD_ACK then Some(items[0].ts) else prev;
      LatestAckIs(items[1..], prev1, q - 1);
      if LastAck(items, q) && q > 0 { assert LastAck(items[1..], q - 1); }
      if q == 0 { assert LastAck(items, 0) ==> forall r :: 0 <= r < |items[1..]| ==> items[1..][r].cmd != CMD_ACK; }
    }
  }

  /** The estimate of a datagram is taken from its last acknowledgement, and from nothing else. */
  lemma SampleTaken(st: State, data: seq<byte>, now: int, q: int)
    requires |data| >= HEADER && !Parse(st.cfg.conv, data).rejected
    ensures var items, st1 := Parse(st.cfg.conv, data).items, InputBytes(Wire, st, data, now);
            && (LastAck(items, q) && TimeDiff(now, items[q].ts) >= 0 ==>
                  Rtt(st1.srtt, st1.rttvar) == SmoothRtt(Rtt(st.srtt, st.rttvar), TimeDiff(now, items[q].ts))
                  && st1.rto == Timeout(st.cfg, Rtt(st1.srtt, st1.rttvar)))
            && ((forall r :: 0 <= r < |items| ==> items[r].cmd != CMD_ACK)
                || (LastAck(items, q) && TimeDiff(now, items[q].ts) < 0) ==>
                  st1.srtt == st.srtt && st1.rttvar == st.rttvar && st1.rto == st.rto)
  {
    var items := Parse(st.cfg.conv, data).items;
    LatestAckIs(items, None, q);
    ItemsTimers(Wire, st, items);
  }

  lemma {:induction false} ItemsTimers(m: Mode, st: State, items: seq<Item>)
    ensures SameTimers(st, TakeItems(m, st, items))
    decreases |items|
  {
    if items != [] {
      ItemTimers(m, st, items[0]);
      ItemsTimers(m, TakeItem(m, st, items[0]), items[1..]);
    }
  }

  predicate SameTimers(st: State, st1: State) {
    st1.cfg == st.cfg && st1.srtt == st.srtt && st1.rttvar == st.rttvar && st1.rto == st.rto
  }

  lemma ItemTimers(m: Mode, st: State, it: Item)
    ensures SameTimers(st, TakeItem(m, st, it))
  {
    var s1 := TakeHeader(m, st, it);
    assert SameTimers(st, s1);
    if it.cmd == CMD_PUSH { InsertTimers(m, Acked(s1, it.sn, it.ts), it.sn, it.frg, it.payload); }
  }

  lemma InsertTimers(m: Mode, st: State, sn: int, frg: int, payload: seq<byte>)
    ensures SameTimers(st, Insert(m, st, sn, frg, payload))
  {
  }

  // ---------------------------------------------------------------- the peer's window and its questions

  lemma ItemAnswersProbe(m: Mode, st: State, it: Item)
    ensures var st1 := TakeItem(m, st, it);
            st1.remoteWindow == it.wnd && st1.tell == (st.tell || it.cmd == CMD_ASK) && st1.ask == st.ask
  {
    if it.cmd == CMD_PUSH { InsertProbe(m, Acked(TakeHeader(m, st, it), it.sn, it.ts), it.sn, it.frg, it.payload); }
  }

  lemma InsertProbe(m: Mode, st: State, sn: int, frg: int, payload: seq<byte>)
    ensures var st1 := Insert(m, st, sn, frg, payload);
            st1.remoteWindow == st.remoteWindow && st1.tell == st.tell && st1.ask == st.ask
  {
  }

  lemma {:induction false} ItemsAnswerProbes(m: Mode, st: State, items: seq<Item>)
    ensures var st1 := TakeItems(m, st, items);
            && st1.remoteWindow == (if items == [] then st.remoteWindow else items[|items| - 1].wnd)
            && st1.tell == (st.tell || HasCmd(items, CMD_ASK)) && st1.ask == st.ask
    decreases |items|
  {
    if items != [] {
      ItemAnswersProbe(m, st, items[0]);
      ItemsAnswerProbes(m, TakeItem(m, st, items[0]), items[1..]);
      if HasCmd(items[1..], CMD_ASK) {
        var k :| 0 <= k < |items[1..]| && items[1..][k].cmd == CMD_ASK;
        assert items[k + 1].cmd == CMD_ASK;
      }
      if HasCmd(items, CMD_ASK) && items[0].cmd != CMD_ASK {
        var k :| 0 <= k < |items| && items[k].cmd == CMD_ASK;
        assert items[1..][k - 1].cmd == CMD_ASK;
      }
    }
  }

  /** After any datagram the peer's window is the one announced last, and a question for ours will be answered. */
  lemma WindowHeard(st: State, data: seq<byte>, now: int)
    ensures var items, st1 := Parse(st.cfg.conv, data).items, InputBytes(Wire, st, data, now);
            && st1.remoteWindow == (if items == [] then st.remoteWindow else items[|items| - 1].wnd)
            && st1.tell == (st.tell || HasCmd(items, CMD_ASK))
  {
    var items := Parse(st.cfg.conv, data).items;
    ItemsAnswerProbes(Wire, st, items);
    FinishProbes(TakeItems(Wire, st, items), st.una, LatestAck(items, None), now);
  }

  lemma FinishProbes(st: State, prevUna: int, latest: Option<int>, now: int)
    ensures var st1 := FinishInput(Wire, st, prevUna, latest, now);
    st1.remoteWindow == st.remoteWindow && st1.tell == st.tell
  {
  }

  /** A pop that makes room in a full queue has the peer told, by the next full flush. */
  lemma RoomTold(st: State, now: int)
    requires 0 < Ready(st.receiveQueue) <= |st.receiveQueue|
    ensures |st.receiveQueue| >= st.cfg.receiveWindow && |Pop(Wire, st).receiveQueue| < st.cfg.receiveWindow ==>
              Pop(Wire, st).tell
    ensures st.tell ==> Pop(Wire, st).tell
    ensures Fits(Pop(Wire, st)) && Pop(Wire, st).tell && 0 <= now < TWO32 ==>
              HasCmd(ReadAll(Pop(Wire, st).cfg.conv, Datagrams(Pop(Wire, st), now, false)), CMD_TELL)
  {
    var st1 := Pop(Wire, st);
    if Fits(st1) && st1.tell && 0 <= now < TWO32 { var _ := FlushSends(st1, now); }
  }

  // ---------------------------------------------------------------- the early flush

  /** A segment that stays and that the acknowledgement of `sn` brings to the limit of skips. */
  ghost predicate Reached(st: State, seg: Segment, sn: int) {
    st.cfg.noDelay && seg.sn < sn < st.nxt && U32(seg.fastAcks + 1) >= FAST_RESEND_LIMIT
  }

  lemma {:induction false} SkipTriggersIs(buf: seq<Segment>, sn: int, limit: int)
    requires Sorted(buf)
    ensures SkipTriggers(Ideal, buf, sn, limit) <==>
            limit > 0 && exists seg :: seg in buf && seg.sn < sn && U32(seg.fastAcks + 1) >= limit
  {
    if buf != [] {
      if sn - buf[0].sn <= 0 {
        forall seg | seg in buf ensures seg.sn >= sn { }
      } else {
        SkipTriggersIs(buf[1..], sn, limit);
        assert buf == [buf[0]] + buf[1..];
      }
    }
  }

  lemma {:induction false} DropsShorter(buf: seq<Segment>, una: int)
    ensures |DropBefore(Ideal, buf, una)| < |buf| <==> |buf| > 0 && buf[0].sn < una
  {
    if buf != [] && una - buf[0].sn > 0 { DropsNoLonger(buf[1..], una); }
  }

  lemma {:induction false} DropsNoLonger(buf: seq<Segment>, una: int)
    ensures |DropBefore(Ideal, buf, una)| <= |buf|
  {
    if buf != [] && una - buf[0].sn > 0 { DropsNoLonger(buf[1..], una); }
  }

  /**
   An item asks for an early flush if and only if its cumulative acknowledgement takes a segment off the buffer, or its
   selective one brings a segment that stays to the limit of skips.
   */
  lemma EarlyFlush(st: State, log: seq<Chunk>, it: Item)
    requires SenderInv(st, log)
    ensures Triggers(Ideal, st, it) <==>
            || (|st.sendBuf| > 0 && st.sendBuf[0].sn < it.una)
            || (it.cmd == CMD_ACK
                && exists seg :: seg in Refresh(TakeAck(Ideal, TakeHeader(Ideal, st, it), it.sn)).sendBuf
                                 && Reached(st, seg, it.sn))
  {
    var s1 := TakeHeader(Ideal, st, it);
    DropsShorter(st.sendBuf, it.una);
    TakeHeaderKeeps(st, log, it);
    if it.cmd == CMD_ACK {
      var s2 := Refresh(TakeAck(Ideal, s1, it.sn));
      TakeAckKeeps(s1, log, it.sn);
      SkipTriggersIs(s2.sendBuf, it.sn, st.cfg.FastResend());
      if seg :| seg in s2.sendBuf && Reached(st, seg, it.sn) { assert s2.una <= seg.sn; }
    }
  }
}
