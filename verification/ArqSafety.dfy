/**
 Two KCP endpoints over a network that may drop, duplicate and reorder datagrams.

 A node pairs the state the program has (`wire`, 32-bit counters) with the ideal one, and keeps what happened: the
 chunks that were assigned sequence numbers, the messages accepted and popped, and every datagram it sent, as bytes
 and, for the proof, as the items with unbounded numbers that the bytes stand for.
 */
module ArqSafety {
  import opened Wrappers
  import opened Words
  import opened Seqs
  import opened ArqModel
  import opened ArqCodec
  import opened ArqIdeal
  import opened ArqStream
  import opened ArqWrap

  datatype Node = Node(
    wire: State,
    ideal: State,
    log: seq<Chunk>,
    accepted: seq<seq<byte>>,
    popped: seq<seq<byte>>,
    delivered: int,
    packets: seq<seq<Item>>,
    datagrams: seq<seq<byte>>)

  datatype Sys = Sys(a: Node, b: Node)

  datatype Op =
    | Write(data: seq<byte>)
    | Read
    | Flushed(now: int, ackOnly: bool)
    | Arrival(k: int, now: int)

  datatype Event = Event(atA: bool, op: Op)

  // ---------------------------------------------------------------- steps

  function InitNode(cfg: Config): Node { Node(Init(cfg), Init(cfg), [], [], [], 0, [], []) }

  function WriteNode(n: Node, data: seq<byte>): Node
    requires n.wire.cfg.Mss() > 0 && n.ideal.cfg.Mss() > 0
  {
    n.(wire := Send(n.wire, data), ideal := Send(n.ideal, data),
       accepted := if Accepts(n.wire, data) then n.accepted + [data] else n.accepted)
  }

  /** The message that popMessage hands over. */
  function PoppedMessage(n: Node): seq<byte>
    requires 0 <= Ready(n.wire.receiveQueue) <= |n.wire.receiveQueue|
  {
    Bytes(n.wire.receiveQueue[..Ready(n.wire.receiveQueue)])
  }

  ghost predicate CanRead(n: Node) {
    && 0 < Ready(n.wire.receiveQueue) <= |n.wire.receiveQueue|
    && 0 < Ready(n.ideal.receiveQueue) <= |n.ideal.receiveQueue|
  }

  function ReadNode(n: Node): Node
    requires 0 < Ready(n.wire.receiveQueue) <= |n.wire.receiveQueue|
    requires 0 < Ready(n.ideal.receiveQueue) <= |n.ideal.receiveQueue|
  {
    n.(wire := Pop(Wire, n.wire), ideal := Pop(Ideal, n.ideal), popped := n.popped + [PoppedMessage(n)],
       delivered := n.delivered + Ready(n.wire.receiveQueue))
  }

  /** The chunks a flush gives numbers to: what has left the front of the queue. */
  function Assigned(n: Node, now: int, ackOnly: bool): seq<Chunk> {
    var left := |Flush(Ideal, n.ideal, now, ackOnly).sendQueue|;
    if left <= |n.ideal.sendQueue| then Chunks(n.ideal.sendQueue[..|n.ideal.sendQueue| - left]) else []
  }

  function FlushNode(n: Node, now: int, ackOnly: bool): Node {
    n.(wire := Flush(Wire, n.wire, now, ackOnly),
       ideal := Flush(Ideal, n.ideal, now, ackOnly),
       log := n.log + Assigned(n, now, ackOnly),
       packets := n.packets + FlushPackets(Ideal, n.ideal, now, ackOnly),
       datagrams := n.datagrams + EncodeAll(n.wire.cfg.conv, FlushPackets(Wire, n.wire, now, ackOnly)))
  }

  function ArriveNode(n: Node, data: seq<byte>, items: seq<Item>, now: int): Node {
    n.(wire := InputBytes(Wire, n.wire, data, now), ideal := Input(Ideal, n.ideal, items, now))
  }

  /** The datagram is not 2^31 sequence numbers old, less a window: the assumption about the network. */
  ghost predicate Young(items: seq<Item>, me: State, peerNxt: int) {
    forall k :: 0 <= k < |items| ==>
      && me.nxt - TWO31 <= items[k].una
      && (items[k].cmd == CMD_ACK ==> me.nxt - TWO31 <= items[k].sn)
      && (items[k].cmd == CMD_PUSH ==> peerNxt + me.cfg.receiveWindow - TWO31 <= items[k].sn)
  }

  /** One step of `me`; only an arrival reads anything of the peer, namely a datagram it sent at some time. */
  ghost predicate NodeStep(me: Node, peer: Node, op: Op, me': Node) {
    match op
    case Write(data) => me.wire.cfg.Mss() > 0 && me.ideal.cfg.Mss() > 0 && me' == WriteNode(me, data)
    case Read => CanRead(me) && me' == ReadNode(me)
    case Flushed(now, ackOnly) => 0 <= now < TWO32 && AcksFresh(me.ideal) && me' == FlushNode(me, now, ackOnly)
    case Arrival(k, now) =>
      && 0 <= now < TWO32
      && 0 <= k < |peer.datagrams| && k < |peer.packets|
      && Young(peer.packets[k], me.ideal, peer.ideal.nxt)
      && me' == ArriveNode(me, peer.datagrams[k], peer.packets[k], now)
  }

  ghost predicate Step(s: Sys, e: Event, s': Sys) {
    if e.atA then NodeStep(s.a, s.b, e.op, s'.a) && s'.b == s.b
    else NodeStep(s.b, s.a, e.op, s'.b) && s'.a == s.a
  }

  ghost predicate Matched(c: Config, d: Config) {
    && c.Valid() && d.Valid() && c.conv == d.conv
    && SmallWindows(c) && SmallWindows(d)
    && c.sendWindow + d.receiveWindow < TWO31 && d.sendWindow + c.receiveWindow < TWO31
  }

  ghost predicate Initial(s: Sys) {
    exists c, d :: Matched(c, d) && s == Sys(InitNode(c), InitNode(d))
  }

  ghost predicate Run(states: seq<Sys>, events: seq<Event>) {
    && |states| == |events| + 1
    && Initial(states[0])
    && forall i :: 0 <= i < |events| ==> Step(states[i], events[i], states[i + 1])
  }

  // ---------------------------------------------------------------- invariant

  ghost predicate TidyChunk(c: Chunk, mss: int) { 0 <= c.frg < 256 && |c.payload| <= mss }

  ghost predicate TidyChunks(chunks: seq<Chunk>, mss: int) {
    forall k :: 0 <= k < |chunks| ==> TidyChunk(chunks[k], mss)
  }

  ghost predicate TidyAcks(acks: seq<Ack>) { forall k :: 0 <= k < |acks| ==> 0 <= acks[k].ts < TWO32 }

  ghost predicate TidyItem(it: Item, mss: int) { Encodable(TItem(it)) && |it.payload| <= mss }

  ghost predicate TidyItems(items: seq<Item>, mss: int) {
    forall k :: 0 <= k < |items| ==> TidyItem(items[k], mss)
  }

  ghost predicate PacketOk(n: Node, k: int)
    requires 0 <= k < |n.packets| && |n.datagrams| == |n.packets|
  {
    && AllDataOk(n.packets[k], n.log)
    && AllAcksOk(n.packets[k], n.ideal.rcv, n.ideal.receiveBuf)
    && TidyItems(n.packets[k], n.ideal.cfg.Mss())
    && n.packets[k] != []
    && n.datagrams[k] == Encode(n.ideal.cfg.conv, TItems(n.packets[k]))
    && |n.datagrams[k]| <= n.ideal.cfg.mtu
  }

  ghost predicate PacketsInv(n: Node) {
    && |n.datagrams| == |n.packets|
    && forall k :: 0 <= k < |n.packets| ==> PacketOk(n, k)
  }

  /** What holds of a node on its own. */
  ghost predicate Own(n: Node) {
    && n.ideal.cfg.Valid() && SmallWindows(n.ideal.cfg)
    && n.wire == Trunc(n.ideal)
    && SenderInv(n.ideal, n.log)
    && Says(n.ideal.cfg, n.log + Chunks(n.ideal.sendQueue), n.accepted)
    && (n.ideal.cfg.streamMode ==> Whole(n.ideal.sendQueue, n.ideal.cfg.Mss()))
    && TidyChunks(n.log, n.ideal.cfg.Mss()) && TidyChunks(Chunks(n.ideal.sendQueue), n.ideal.cfg.Mss())
    && TidyAcks(n.ideal.acks) && Windows(n.ideal)
    && PacketsInv(n)
  }

  /** What `me` has received of the peer, and what the peer has received of `me`. */
  ghost predicate Linked(me: Node, peer: Node) {
    && Matched(me.ideal.cfg, peer.ideal.cfg)
    && ReceiverInv(me.ideal, peer.log, me.delivered)
    && NoLoss(me.ideal.sendBuf, me.ideal.nxt, peer.ideal.rcv, peer.ideal.receiveBuf)
    && Delivered(peer.ideal.cfg, peer.log, me.delivered, me.popped, peer.accepted)
  }

  ghost predicate Inv(s: Sys) { Own(s.a) && Own(s.b) && Linked(s.a, s.b) && Linked(s.b, s.a) }

  lemma InitOwn(c: Config)
    requires c.Valid() && SmallWindows(c)
    ensures Own(InitNode(c))
  {
    assert Chunks([]) == [];
    assert TBuf([]) == [] && TAcks([]) == [];
    assert [] + Chunks([]) == [];
  }

  lemma InitLinked(c: Config, d: Config)
    requires Matched(c, d)
    ensures Linked(InitNode(c), InitNode(d))
  {
    assert Chunks([]) == [];
  }

  lemma InitialInv(s: Sys)
    requires Initial(s)
    ensures Inv(s)
  {
    var c, d :| Matched(c, d) && s == Sys(InitNode(c), InitNode(d));
    InitOwn(c);
    InitOwn(d);
    InitLinked(c, d);
    InitLinked(d, c);
  }

  /** The peer's view survives a step of `me` that extends its log and gives up nothing it received. */
  lemma PeerKeeps(peer: Node, me: Node, me': Node)
    requires Linked(peer, me) && me'.ideal.cfg == me.ideal.cfg
    requires me.log <= me'.log && me.accepted <= me'.accepted
    requires Grows(me.ideal.rcv, me.ideal.receiveBuf, me'.ideal.rcv, me'.ideal.receiveBuf)
    ensures Linked(peer, me')
  {
    LogGrows(peer.ideal, me.log, me'.log, peer.delivered);
    assert me'.log == me.log + me'.log[|me.log|..];
    DeliveredGrows(me.ideal.cfg, me.log, me'.log[|me.log|..], peer.delivered, peer.popped, me.accepted, me'.accepted);
  }

  lemma LogGrows(st: State, log: seq<Chunk>, log1: seq<Chunk>, delivered: int)
    requires ReceiverInv(st, log, delivered) && log <= log1
    ensures ReceiverInv(st, log1, delivered)
  {
    assert log1[delivered..st.rcv] == log[delivered..st.rcv];
    assert Faithful(st.receiveBuf, log1);
  }

  // ---------------------------------------------------------------- Write

  lemma TidyFragments(data: seq<byte>, mss: int, count: int)
    requires mss > 0 && 0 <= count <= 256 && |data| <= count * mss
    ensures TidyChunks(Chunks(Fragment(data, mss, count)), mss)
  {
    FragmentExact(data, mss, count);
  }

  lemma TidySend(st: State, data: seq<byte>)
    requires st.cfg.Valid() && TidyChunks(Chunks(st.sendQueue), st.cfg.Mss())
    requires st.cfg.streamMode ==> Whole(st.sendQueue, st.cfg.Mss())
    ensures TidyChunks(Chunks(Send(st, data).sendQueue), st.cfg.Mss())
  {
    var mss := st.cfg.Mss();
    if st.cfg.streamMode {
      StreamQueueExact(st.sendQueue, data, mss);
    } else if Accepts(st, data) {
      CountCovers(|data|, mss);
      TidyFragments(data, mss, FragmentCount(|data|, mss));
      ChunksConcat(st.sendQueue, Fragment(data, mss, FragmentCount(|data|, mss)));
    }
  }

  lemma WriteKeeps(me: Node, data: seq<byte>)
    requires Own(me)
    ensures Own(WriteNode(me, data))
    ensures SameReceiver(me.ideal, WriteNode(me, data).ideal)
  {
    SendWrap(me.ideal, data);
    TidySend(me.ideal, data);
    var me' := WriteNode(me, data);
    if Accepts(me.ideal, data) {
      SendSays(me.ideal, me.log, data, me.accepted);
    } else {
      assert me'.ideal == me.ideal;
    }
    PacketsSame(me, me');
  }

  lemma PacketsSame(n: Node, n': Node)
    requires PacketsInv(n) && n'.packets == n.packets && n'.datagrams == n.datagrams && n'.ideal.cfg == n.ideal.cfg
    requires n.log <= n'.log && Grows(n.ideal.rcv, n.ideal.receiveBuf, n'.ideal.rcv, n'.ideal.receiveBuf)
    requires n.ideal.rcv <= n'.ideal.rcv
    ensures PacketsInv(n')
  {
    forall k | 0 <= k < |n'.packets| ensures PacketOk(n', k) {
      assert PacketOk(n, k);
      assert AllDataOk(n.packets[k], n'.log);
      ItemsGrow(n.packets[k], n.ideal.rcv, n.ideal.receiveBuf, n'.ideal.rcv, n'.ideal.receiveBuf);
    }
  }

  lemma ItemsGrow(items: seq<Item>, rcv: int, buf: seq<Segment>, rcv1: int, buf1: seq<Segment>)
    requires AllAcksOk(items, rcv, buf) && Grows(rcv, buf, rcv1, buf1) && rcv <= rcv1
    ensures AllAcksOk(items, rcv1, buf1)
  {
  }

  // ---------------------------------------------------------------- Read

  lemma PopKeeps(st: State, log: seq<Chunk>, delivered: int)
    requires ReceiverInv(st, log, delivered) && 0 < Ready(st.receiveQueue) <= |st.receiveQueue|
    ensures ReceiverInv(Pop(Ideal, st), log, delivered + Ready(st.receiveQueue))
    ensures Grows(st.rcv, st.receiveBuf, Pop(Ideal, st).rcv, Pop(Ideal, st).receiveBuf) && st.rcv <= Pop(Ideal, st).rcv
    ensures SameSender(st, Pop(Ideal, st)) && Pop(Ideal, st).acks == st.acks
    ensures delivered + |st.receiveQueue| <= |log|
            && Chunks(st.receiveQueue) == log[delivered..delivered + |st.receiveQueue|]
  {
    var n := Ready(st.receiveQueue);
    var st1 := st.(receiveQueue := st.receiveQueue[n..]);
    assert Chunks(st1.receiveQueue) == log[delivered + n..st.rcv] by {
      assert |Chunks(st.receiveQueue)| == st.rcv - delivered;
      assert Chunks(st1.receiveQueue) == Chunks(st.receiveQueue)[n..];
      assert log[delivered..st.rcv][n..] == log[delivered + n..st.rcv];
    }
    PromoteKeeps(st1, log, delivered + n);
  }

  lemma ReadDelivers(me: Node, peer: Node)
    requires Own(peer) && CanRead(me) && Delivered(peer.ideal.cfg, peer.log, me.delivered, me.popped, peer.accepted)
    requires me.delivered + |me.ideal.receiveQueue| <= |peer.log|
    requires Chunks(me.ideal.receiveQueue) == peer.log[me.delivered..me.delivered + |me.ideal.receiveQueue|]
    ensures var n := Ready(me.ideal.receiveQueue);
            Delivered(peer.ideal.cfg, peer.log, me.delivered + n,
                      me.popped + [Bytes(me.ideal.receiveQueue[..n])], peer.accepted)
  {
    var cfg, queue, rest := peer.ideal.cfg, me.ideal.receiveQueue, Chunks(peer.ideal.sendQueue);
    var all := peer.log + rest;
    DeliveredGrows(cfg, peer.log, rest, me.delivered, me.popped, peer.accepted, peer.accepted);
    assert Chunks(queue) == all[me.delivered..me.delivered + |queue|];
    if cfg.streamMode {
      PopStream(cfg, all, me.delivered, me.popped, peer.accepted, queue);
    } else {
      PopMessage(cfg, all, me.delivered, me.popped, peer.accepted, queue);
    }
    var d := me.delivered + Ready(queue);
    assert all[..d] == peer.log[..d];
  }

  lemma ReadWired(me: Node)
    requires Own(me) && CanRead(me)
    requires Sorted(me.ideal.receiveBuf)
    requires Within(me.ideal.receiveBuf, me.ideal.rcv, me.ideal.rcv + me.ideal.cfg.receiveWindow)
    ensures Ready(me.wire.receiveQueue) == Ready(me.ideal.receiveQueue)
    ensures ReadNode(me).wire == Trunc(ReadNode(me).ideal)
    ensures PoppedMessage(me) == Bytes(me.ideal.receiveQueue[..Ready(me.ideal.receiveQueue)])
  {
    PopWrap(me.ideal);
    var n := Ready(me.ideal.receiveQueue);
    TBufParts(me.ideal.receiveQueue, n);
    BytesWrap(me.ideal.receiveQueue[..n]);
  }

  lemma ReadKeeps(me: Node, peer: Node)
    requires Own(me) && Own(peer) && Linked(me, peer) && CanRead(me)
    ensures Own(ReadNode(me)) && Linked(ReadNode(me), peer)
    ensures Grows(me.ideal.rcv, me.ideal.receiveBuf, ReadNode(me).ideal.rcv, ReadNode(me).ideal.receiveBuf)
  {
    var me' := ReadNode(me);
    ReadWired(me);
    PopKeeps(me.ideal, peer.log, me.delivered);
    ReadDelivers(me, peer);
    PacketsSame(me, me');
  }

  // ---------------------------------------------------------------- Flush

  lemma {:induction false} PackWrap(mtu: int, cur: seq<Item>, items: seq<Item>)
    ensures |Pack(mtu, TItems(cur), TItems(items))| == |Pack(mtu, cur, items)|
    ensures forall k :: 0 <= k < |Pack(mtu, cur, items)| ==>
              Pack(mtu, TItems(cur), TItems(items))[k] == TItems(Pack(mtu, cur, items)[k])
    decreases |items|
  {
    SizeWrap(cur);
    if items != [] {
      TItemsTail(items);
      TItemsConcat(cur, [items[0]]);
      assert TItems([items[0]]) == [TItem(items[0])];
      if TotalSize(cur) + Size(items[0]) > mtu && cur != [] {
        PackWrap(mtu, [items[0]], items[1..]);
      } else {
        PackWrap(mtu, cur + [items[0]], items[1..]);
      }
    }
  }

  lemma {:induction false} SizeWrap(items: seq<Item>)
    ensures TotalSize(TItems(items)) == TotalSize(items)
  {
    if items != [] {
      TItemsTail(items);
      SizeWrap(items[1..]);
    }
  }

  /** Every packet is a run of the items. */
  lemma {:induction false} PackFrom(mtu: int, cur: seq<Item>, items: seq<Item>, all: seq<Item>)
    requires forall it :: it in cur || it in items ==> it in all
    ensures forall k, it :: 0 <= k < |Pack(mtu, cur, items)| && it in Pack(mtu, cur, items)[k] ==> it in all
    decreases |items|
  {
    if items != [] {
      if TotalSize(cur) + Size(items[0]) > mtu && cur != [] {
        PackFrom(mtu, [items[0]], items[1..], all);
      } else {
        PackFrom(mtu, cur + [items[0]], items[1..], all);
      }
    }
  }

  lemma TidyFlush(st: State, log: seq<Chunk>, now: int, ackOnly: bool)
    requires st.cfg.Valid() && 0 <= now < TWO32 && TidyAcks(st.acks) && 0 <= st.rcv
    requires !ackOnly ==> Faithful(Prepared(Ideal, st, now).sendBuf, log) && TidyChunks(log, st.cfg.Mss())
    ensures TidyItems(FlushItems(Ideal, st, now, ackOnly), st.cfg.Mss())
  {
    TidyAckItems(st, st.acks);
    if !ackOnly {
      PreparedIs(Ideal, st, now);
      TidyPushItems(Prepared(Ideal, st, now), Prepared(Ideal, st, now).sendBuf, now, log);
      ProbeFrame(st, now);
    }
  }

  lemma {:induction false} TidyAckItems(st: State, acks: seq<Ack>)
    requires st.cfg.Valid() && TidyAcks(acks)
    ensures TidyItems(AckItems(Ideal, st, acks), st.cfg.Mss())
    decreases |acks|
  {
    if acks != [] {
      TidyAckItems(st, acks[1..]);
    }
  }

  lemma {:induction false} TidyPushItems(st: State, buf: seq<Segment>, now: int, log: seq<Chunk>)
    requires st.cfg.Valid() && 0 <= now < TWO32 && Faithful(buf, log) && TidyChunks(log, st.cfg.Mss())
    ensures TidyItems(PushItems(st, buf, now), st.cfg.Mss())
  {
    if buf != [] {
      assert TidyChunk(log[buf[0].sn], st.cfg.Mss());
      assert Faithful(buf[1..], log);
      TidyPushItems(st, buf[1..], now, log);
    }
  }

  /** The packets of a flush are fit to be sent, and their bytes are what the 32-bit program puts out. */
  lemma NewPackets(st: State, log: seq<Chunk>, now: int, ackOnly: bool, rcv: int, buf: seq<Segment>)
    requires st.cfg.Valid() && AllDataOk(FlushItems(Ideal, st, now, ackOnly), log)
    requires AllAcksOk(FlushItems(Ideal, st, now, ackOnly), rcv, buf)
    requires TidyItems(FlushItems(Ideal, st, now, ackOnly), st.cfg.Mss())
    ensures forall k :: 0 <= k < |FlushPackets(Ideal, st, now, ackOnly)| ==>
              var p := FlushPackets(Ideal, st, now, ackOnly)[k];
              && AllDataOk(p, log) && AllAcksOk(p, rcv, buf) && TidyItems(p, st.cfg.Mss())
              && p != [] && TotalSize(p) <= st.cfg.mtu
  {
    var items := FlushItems(Ideal, st, now, ackOnly);
    PackExact(st.cfg.mtu, [], items);
    PackFrom(st.cfg.mtu, [], items, items);
    var packets := FlushPackets(Ideal, st, now, ackOnly);
    forall k | 0 <= k < |packets|
      ensures AllDataOk(packets[k], log) && AllAcksOk(packets[k], rcv, buf) && TidyItems(packets[k], st.cfg.Mss())
    {
      forall i | 0 <= i < |packets[k]|
        ensures DataOk(packets[k][i], log) && AcksOk(packets[k][i], rcv, buf) && TidyItem(packets[k][i], st.cfg.Mss())
      {
        assert packets[k][i] in items;
        var j :| 0 <= j < |items| && items[j] == packets[k][i];
        assert DataOk(items[j], log) && AcksOk(items[j], rcv, buf) && TidyItem(items[j], st.cfg.Mss());
      }
    }
  }

  lemma FlushPacketsInv(me: Node, now: int, ackOnly: bool)
    requires Own(me) && 0 <= now < TWO32 && AcksFresh(me.ideal) && me.ideal.rcv >= 0
    requires AcksInv(me.ideal.rcv, me.ideal.receiveBuf, me.ideal.acks)
    requires var me' := FlushNode(me, now, ackOnly);
             && SameReceiver(me.ideal, me'.ideal.(acks := me.ideal.acks))
             && TidyChunks(me'.log, me.ideal.cfg.Mss())
             && (!ackOnly ==> Faithful(Prepared(Ideal, me.ideal, now).sendBuf, me'.log))
    ensures PacketsInv(FlushNode(me, now, ackOnly))
  {
    var me', st := FlushNode(me, now, ackOnly), me.ideal;
    FlushItemsOk(st, me'.log, now, ackOnly);
    TidyFlush(st, me'.log, now, ackOnly);
    NewPackets(st, me'.log, now, ackOnly, st.rcv, st.receiveBuf);
    NewDatagrams(st, now, ackOnly);
    PacketsAppend(me, me', FlushPackets(Ideal, st, now, ackOnly));
  }

  lemma NewDatagrams(st: State, now: int, ackOnly: bool)
    requires SmallWindows(st.cfg) && Windows(st) && 0 <= st.una <= st.nxt <= st.una + st.cfg.sendWindow && AcksFresh(st)
    ensures var packets := FlushPackets(Ideal, st, now, ackOnly);
            var bytes := EncodeAll(st.cfg.conv, FlushPackets(Wire, Trunc(st), now, ackOnly));
            && |bytes| == |packets|
            && forall k :: 0 <= k < |packets| ==> bytes[k] == Encode(st.cfg.conv, TItems(packets[k]))
  {
    FlushWrap(st, now, ackOnly);
    PackWrap(st.cfg.mtu, [], FlushItems(Ideal, st, now, ackOnly));
    assert TItems([]) == [];
  }

  lemma PacketsAppend(n: Node, n': Node, packets: seq<seq<Item>>)
    requires PacketsInv(n) && n'.packets == n.packets + packets && |n'.datagrams| == |n'.packets|
    requires n'.datagrams[..|n.datagrams|] == n.datagrams && n'.ideal.cfg == n.ideal.cfg && n.log <= n'.log
    requires n'.ideal.rcv == n.ideal.rcv && n'.ideal.receiveBuf == n.ideal.receiveBuf
    requires forall k :: 0 <= k < |packets| ==>
               && AllDataOk(packets[k], n'.log) && AllAcksOk(packets[k], n.ideal.rcv, n.ideal.receiveBuf)
               && TidyItems(packets[k], n.ideal.cfg.Mss())
               && packets[k] != [] && TotalSize(packets[k]) <= n.ideal.cfg.mtu
               && n'.datagrams[|n.datagrams| + k] == Encode(n.ideal.cfg.conv, TItems(packets[k]))
    ensures PacketsInv(n')
  {
    forall k | 0 <= k < |n'.packets| ensures PacketOk(n', k) {
      var m := |n.packets|;
      if k < m {
        assert PacketOk(n, k);
        assert n'.datagrams[..m][k] == n.datagrams[k];
        assert AllDataOk(n.packets[k], n'.log);
      } else {
        assert n'.packets[k] == packets[k - m]
               && n'.datagrams[m + (k - m)] == Encode(n.ideal.cfg.conv, TItems(packets[k - m]));
        SizeWrap(packets[k - m]);
      }
    }
  }

  lemma FlushWindows(st: State, now: int, ackOnly: bool)
    requires Windows(st)
    ensures Windows(Flush(Ideal, st, now, ackOnly))
  {
    var s0 := st.(acks := []);
    ProbeFrame(s0, now);
    AdmitWindows(Ideal, Probe(s0, now).(ask := false, tell := false), SendLimit(Probe(s0, now)));
  }

  lemma {:induction false} AdmitWindows(m: Mode, st: State, limit: int)
    ensures Admit(m, st, limit).cwnd == st.cwnd && Admit(m, st, limit).remoteWindow == st.remoteWindow
    decreases |st.sendQueue|
  {
    if CanAdmit(m, st, limit) {
      AdmitWindows(m, AdmitOne(m, st), limit);
    }
  }

  /** The sender's side of any flush. */
  lemma FlushSender(me: Node, now: int, ackOnly: bool, peerRcv: int, peerBuf: seq<Segment>)
    requires SenderInv(me.ideal, me.log) && NoLoss(me.ideal.sendBuf, me.ideal.nxt, peerRcv, peerBuf)
    ensures var me' := FlushNode(me, now, ackOnly);
            && SenderInv(me'.ideal, me'.log)
            && NoLoss(me'.ideal.sendBuf, me'.ideal.nxt, peerRcv, peerBuf)
            && me'.log + Chunks(me'.ideal.sendQueue) == me.log + Chunks(me.ideal.sendQueue)
            && me'.ideal.sendQueue == me.ideal.sendQueue[|me'.log| - |me.log|..]
            && SameReceiver(me.ideal, me'.ideal.(acks := me.ideal.acks))
            && (me'.ideal.acks == [] || me'.ideal.acks == me.ideal.acks)
            && (!ackOnly && (HasWork(me.ideal) || me.ideal.remoteWindow <= 0) ==>
                  Faithful(Prepared(Ideal, me.ideal, now).sendBuf, me'.log))
  {
    if !ackOnly && (HasWork(me.ideal) || me.ideal.remoteWindow <= 0) {
      FullFlushSender(me, now, peerRcv, peerBuf);
    } else {
      IdleFlush(me, now, ackOnly);
    }
  }

  lemma IdleFlush(me: Node, now: int, ackOnly: bool)
    requires ackOnly || !(HasWork(me.ideal) || me.ideal.remoteWindow <= 0)
    ensures var me' := FlushNode(me, now, ackOnly);
            me'.log == me.log && (me'.ideal == me.ideal || me'.ideal == me.ideal.(acks := []))
  {
    var st1 := Flush(Ideal, me.ideal, now, ackOnly);
    assert st1 == me.ideal || st1 == me.ideal.(acks := []);
    assert me.ideal.sendQueue[..0] == [] && Chunks([]) == [];
    assert Assigned(me, now, ackOnly) == [];
  }

  lemma FullFlushSender(me: Node, now: int, peerRcv: int, peerBuf: seq<Segment>)
    requires SenderInv(me.ideal, me.log) && NoLoss(me.ideal.sendBuf, me.ideal.nxt, peerRcv, peerBuf)
    requires HasWork(me.ideal) || me.ideal.remoteWindow <= 0
    ensures var me' := FlushNode(me, now, false);
            && SenderInv(me'.ideal, me'.log)
            && NoLoss(me'.ideal.sendBuf, me'.ideal.nxt, peerRcv, peerBuf)
            && me'.log + Chunks(me'.ideal.sendQueue) == me.log + Chunks(me.ideal.sendQueue)
            && me'.ideal.sendQueue == me.ideal.sendQueue[|me'.log| - |me.log|..]
            && SameReceiver(me.ideal, me'.ideal.(acks := me.ideal.acks)) && me'.ideal.acks == []
            && Faithful(Prepared(Ideal, me.ideal, now).sendBuf, me'.log)
  {
    var q := me.ideal.sendQueue;
    var k := FullFlushKeeps(me.ideal, me.log, now, peerRcv, peerBuf);
    var st1 := Flush(Ideal, me.ideal, now, false);
    assert |st1.sendQueue| == |q| - k;
    assert Assigned(me, now, false) == Chunks(q[..k]);
    SplitQueue(me.log, q, k);
  }

  lemma SplitQueue(log: seq<Chunk>, q: seq<Segment>, k: int)
    requires 0 <= k <= |q|
    ensures (log + Chunks(q[..k])) + Chunks(q[k..]) == log + Chunks(q)
  {
    SplitAt(q, k);
    ChunksConcat(q[..k], q[k..]);
    Assoc(log, Chunks(q[..k]), Chunks(q[k..]));
  }

  lemma FlushKeeps(me: Node, peer: Node, now: int, ackOnly: bool)
    requires Own(me) && Linked(me, peer) && 0 <= now < TWO32 && AcksFresh(me.ideal)
    ensures Own(FlushNode(me, now, ackOnly)) && Linked(FlushNode(me, now, ackOnly), peer)
    ensures var me' := FlushNode(me, now, ackOnly);
            me.log <= me'.log && me'.accepted == me.accepted
                && SameReceiver(me.ideal, me'.ideal.(acks := me.ideal.acks))
  {
    var me' := FlushNode(me, now, ackOnly);
    FlushSender(me, now, ackOnly, peer.ideal.rcv, peer.ideal.receiveBuf);
    FlushWrap(me.ideal, now, ackOnly);
    FlushWindows(me.ideal, now, ackOnly);
    TidySplit(me, me');
    FlushPacketsAny(me, now, ackOnly);
    AcksLinked(me, me', peer);
  }

  lemma AcksLinked(me: Node, me': Node, peer: Node)
    requires Linked(me, peer) && SameReceiver(me.ideal, me'.ideal.(acks := me.ideal.acks))
    requires me'.ideal.acks == [] || me'.ideal.acks == me.ideal.acks
    requires NoLoss(me'.ideal.sendBuf, me'.ideal.nxt, peer.ideal.rcv, peer.ideal.receiveBuf)
    requires me'.delivered == me.delivered && me'.popped == me.popped
    ensures Linked(me', peer)
  {
  }

  lemma TidySplit(me: Node, me': Node)
    requires TidyChunks(me.log, me.ideal.cfg.Mss()) && TidyChunks(Chunks(me.ideal.sendQueue), me.ideal.cfg.Mss())
    requires me'.log + Chunks(me'.ideal.sendQueue) == me.log + Chunks(me.ideal.sendQueue)
    requires me'.ideal.cfg == me.ideal.cfg
    ensures TidyChunks(me'.log, me.ideal.cfg.Mss()) && TidyChunks(Chunks(me'.ideal.sendQueue), me.ideal.cfg.Mss())
  {
    var all, mss := me.log + Chunks(me.ideal.sendQueue), me.ideal.cfg.Mss();
    assert TidyChunks(all, mss);
    assert forall k :: 0 <= k < |me'.log| ==> me'.log[k] == all[k];
    assert forall k :: 0 <= k < |me'.ideal.sendQueue| ==> Chunks(me'.ideal.sendQueue)[k] == all[|me'.log| + k];
  }

  lemma FlushPacketsAny(me: Node, now: int, ackOnly: bool)
    requires Own(me) && 0 <= now < TWO32 && AcksFresh(me.ideal) && me.ideal.rcv >= 0
    requires AcksInv(me.ideal.rcv, me.ideal.receiveBuf, me.ideal.acks)
    requires var me' := FlushNode(me, now, ackOnly);
             && SameReceiver(me.ideal, me'.ideal.(acks := me.ideal.acks))
             && TidyChunks(me'.log, me.ideal.cfg.Mss())
             && (!ackOnly && (HasWork(me.ideal) || me.ideal.remoteWindow <= 0) ==>
                   Faithful(Prepared(Ideal, me.ideal, now).sendBuf, me'.log))
    ensures PacketsInv(FlushNode(me, now, ackOnly))
  {
    if HasWork(me.ideal) || me.ideal.remoteWindow <= 0 {
      FlushPacketsInv(me, now, ackOnly);
    } else {
      var me' := FlushNode(me, now, ackOnly);
      assert me'.packets == me.packets && me'.datagrams == me.datagrams by {
        FlushWrap(me.ideal, now, ackOnly);
        assert TItems([]) == [];
      }
      PacketsSame(me, me');
    }
  }

  // ---------------------------------------------------------------- Arrival

  /** A sender is never 2^31 ahead of the receiver it sends to. */
  lemma NotAhead(peer: Node, me: Node)
    requires SenderInv(peer.ideal, peer.log) && Linked(peer, me) && Linked(me, peer)
    ensures |peer.log| < me.ideal.rcv + TWO31
  {
    var una := peer.ideal.una;
    if una > 0 {
      assert !Holds(peer.ideal.sendBuf, una - 1);
      assert Received(me.ideal.rcv, me.ideal.receiveBuf, una - 1);
    }
  }

  lemma YoungIsFresh(items: seq<Item>, me: Node, peer: Node)
    requires Young(items, me.ideal, peer.ideal.nxt) && Linked(peer, me)
    requires SenderInv(me.ideal, me.log) && SenderInv(peer.ideal, peer.log)
    requires AllDataOk(items, peer.log) && AllAcksOk(items, peer.ideal.rcv, peer.ideal.receiveBuf)
    ensures AllFresh(items, me.ideal, |peer.log|)
  {
    forall k | 0 <= k < |items| ensures Fresh(items[k], me.ideal, |peer.log|) {
      assert AcksOk(items[k], peer.ideal.rcv, peer.ideal.receiveBuf);
      assert DataOk(items[k], peer.log);
    }
  }

  lemma {:induction false} ItemsTidy(st: State, items: seq<Item>, mss: int)
    requires TidyItems(items, mss) && TidyAcks(st.acks) && Windows(st)
    ensures TidyAcks(TakeItems(Ideal, st, items).acks) && Windows(TakeItems(Ideal, st, items))
    decreases |items|
  {
    if items != [] {
      assert TidyItem(items[0], mss);
      ItemTidy(st, items[0]);
      ItemsTidy(TakeItem(Ideal, st, items[0]), items[1..], mss);
    }
  }

  lemma PushTidy(st: State, it: Item)
    requires 0 <= it.ts < TWO32 && TidyAcks(st.acks)
    ensures TidyAcks(TakePush(Ideal, st, it).acks)
    ensures TakePush(Ideal, st, it).cwnd == st.cwnd && TakePush(Ideal, st, it).remoteWindow == st.remoteWindow
  {
    InsertFrame(st, st.acks + [Ack(it.sn, it.ts)], it.sn, it.frg, it.payload);
    InsertWindows(st, it.sn, it.frg, it.payload);
  }

  lemma InsertWindows(st: State, sn: int, frg: int, payload: seq<byte>)
    ensures Insert(Ideal, st, sn, frg, payload).cwnd == st.cwnd
    ensures Insert(Ideal, st, sn, frg, payload).remoteWindow == st.remoteWindow
  {
  }

  lemma ItemTidy(st: State, it: Item)
    requires 0 <= it.ts < TWO32 && 0 <= it.wnd && TidyAcks(st.acks) && Windows(st)
    ensures TidyAcks(TakeItem(Ideal, st, it).acks) && Windows(TakeItem(Ideal, st, it))
  {
    var s1 := TakeHeader(Ideal, st, it);
    TakeHeaderFrame(Ideal, st, it);
    assert Windows(s1);
    if it.cmd == CMD_ACK {
      TakeAckFrame(Ideal, s1, it.sn);
    } else if it.cmd == CMD_PUSH {
      PushTidy(s1, it);
    }
  }

  lemma FinishWindows(m: Mode, st: State, prevUna: int, latest: Option<int>, now: int)
    requires Windows(st)
    ensures Windows(FinishInput(m, st, prevUna, latest, now))
  {
    var s1 := st;
    if latest.Some? && TimeDiff(now, latest.value) >= 0 {
      s1 := UpdateRtt(st, TimeDiff(now, latest.value));
      assert Windows(s1);
    }
    GrowWindows(s1);
  }

  lemma GrowWindows(st: State)
    requires Windows(st)
    ensures Windows(Grow(st))
  {
    var mss := U32(st.cfg.Mss());
    if mss > 0 {
      GrowWindowPositive(Congestion(st.cwnd, st.incr), st.ssthresh, st.remoteWindow, mss);
    }
  }

  lemma GrowWindowPositive(c: Congestion, ssthresh: int, remoteWindow: int, mss: int)
    requires mss > 0 && 0 <= c.cwnd && 0 <= remoteWindow
    ensures 0 <= GrowWindow(c, ssthresh, remoteWindow, mss).cwnd
  {
    if !(c.cwnd >= remoteWindow) && !(c.cwnd < ssthresh) {
      QuotientPositive(U32(U32(NextIncr(c.incr, mss) + mss) - 1), mss);
    }
  }

  lemma QuotientPositive(x: int, d: int)
    requires 0 <= x && 0 < d
    ensures 0 <= x / d
  {
  }

  /** The 32-bit program, fed the bytes, ends in the truncation of the ideal state. */
  lemma ArrivalWired(me: Node, peer: Node, k: int, now: int)
    requires Own(me) && Own(peer) && Linked(me, peer) && Linked(peer, me)
    requires 0 <= k < |peer.packets| && Young(peer.packets[k], me.ideal, peer.ideal.nxt)
    ensures InputBytes(Wire, me.wire, peer.datagrams[k], now) == Trunc(Input(Ideal, me.ideal, peer.packets[k], now))
  {
    var items, data := peer.packets[k], peer.datagrams[k];
    assert PacketOk(peer, k);
    assert forall i :: 0 <= i < |items| ==> TidyItem(items[i], peer.ideal.cfg.Mss());
    assert forall i :: 0 <= i < |items| ==> Encodable(TItems(items)[i]);
    ParseEncode(peer.ideal.cfg.conv, TItems(items));
    NonEmptySize(TItems(items));
    NotAhead(peer, me);
    YoungIsFresh(items, me, peer);
    InputWrap(me.ideal, me.log, peer.log, me.delivered, items, now);
  }

  lemma NonEmptySize(items: seq<Item>)
    requires items != []
    ensures TotalSize(items) >= HEADER
  {
    if |items| > 1 { NonEmptySize(items[1..]); }
  }

  lemma ArrivalIdeal(me: Node, peer: Node, items: seq<Item>, now: int)
    requires Own(me) && Own(peer) && Linked(me, peer) && Linked(peer, me)
    requires AllDataOk(items, peer.log) && AllAcksOk(items, peer.ideal.rcv, peer.ideal.receiveBuf)
    requires TidyItems(items, peer.ideal.cfg.Mss())
    ensures var st1 := Input(Ideal, me.ideal, items, now);
            && SenderInv(st1, me.log) && ReceiverInv(st1, peer.log, me.delivered)
            && NoLoss(st1.sendBuf, st1.nxt, peer.ideal.rcv, peer.ideal.receiveBuf)
            && Grows(me.ideal.rcv, me.ideal.receiveBuf, st1.rcv, st1.receiveBuf) && me.ideal.rcv <= st1.rcv
            && st1.cfg == me.ideal.cfg && st1.sendQueue == me.ideal.sendQueue
            && TidyAcks(st1.acks) && Windows(st1)
  {
    var st0 := TakeItems(Ideal, me.ideal, items);
    TakeItemsKeeps(me.ideal, me.log, peer.log, me.delivered, items, peer.ideal.rcv, peer.ideal.receiveBuf);
    ItemsTidy(me.ideal, items, peer.ideal.cfg.Mss());
    FinishFrame(Ideal, st0, me.ideal.una, LatestAck(items, None), now);
    FinishWindows(Ideal, st0, me.ideal.una, LatestAck(items, None), now);
  }

  lemma ArrivalKeeps(me: Node, peer: Node, k: int, now: int)
    requires Own(me) && Own(peer) && Linked(me, peer) && Linked(peer, me)
    requires 0 <= k < |peer.packets| && Young(peer.packets[k], me.ideal, peer.ideal.nxt)
    ensures var me' := ArriveNode(me, peer.datagrams[k], peer.packets[k], now);
            && Own(me') && Linked(me', peer)
            && Grows(me.ideal.rcv, me.ideal.receiveBuf, me'.ideal.rcv, me'.ideal.receiveBuf)
            && me'.ideal.cfg == me.ideal.cfg
  {
    var me' := ArriveNode(me, peer.datagrams[k], peer.packets[k], now);
    assert PacketOk(peer, k);
    ArrivalWired(me, peer, k, now);
    ArrivalIdeal(me, peer, peer.packets[k], now);
    PacketsSame(me, me');
  }

  // ---------------------------------------------------------------- the theorems

  lemma NodeStepKeeps(me: Node, peer: Node, op: Op, me': Node)
    requires Own(me) && Own(peer) && Linked(me, peer) && Linked(peer, me) && NodeStep(me, peer, op, me')
    ensures Own(me') && Linked(me', peer) && Linked(peer, me')
  {
    match op {
      case Write(data) =>
        WriteKeeps(me, data);
      case Read =>
        ReadKeeps(me, peer);
      case Flushed(now, ackOnly) =>
        FlushKeeps(me, peer, now, ackOnly);
      case Arrival(k, now) =>
        ArrivalKeeps(me, peer, k, now);
    }
    PeerKeeps(peer, me, me');
  }

  lemma StepKeeps(s: Sys, e: Event, s': Sys)
    requires Inv(s) && Step(s, e, s')
    ensures Inv(s')
  {
    if e.atA {
      NodeStepKeeps(s.a, s.b, e.op, s'.a);
    } else {
      NodeStepKeeps(s.b, s.a, e.op, s'.b);
    }
  }

  lemma {:induction false} Reachable(states: seq<Sys>, events: seq<Event>, i: int)
    requires Run(states, events) && 0 <= i < |states|
    ensures Inv(states[i])
  {
    if i == 0 {
      InitialInv(states[0]);
    } else {
      Reachable(states, events, i - 1);
      StepKeeps(states[i - 1], events[i - 1], states[i]);
    }
  }

  /** What one side popped is a prefix of what the other side's send accepted. */
  ghost predicate PopsPrefix(sender: Node, receiver: Node) {
    if sender.wire.cfg.streamMode then Flat(receiver.popped) <= Flat(sender.accepted)
    else receiver.popped <= sender.accepted
  }

  /**
   End-to-end safety of the 32-bit program: over every run, whatever the network drops, duplicates or reorders, each
   side hands over a prefix of what the other side accepted, message by message or, in stream mode, byte by byte.
   */
  lemma EndToEnd(states: seq<Sys>, events: seq<Event>, i: int)
    requires Run(states, events) && 0 <= i < |states|
    ensures PopsPrefix(states[i].a, states[i].b) && PopsPrefix(states[i].b, states[i].a)
  {
    Reachable(states, events, i);
    var s := states[i];
    PrefixOf(s.a, s.b);
    PrefixOf(s.b, s.a);
  }

  lemma PrefixOf(sender: Node, receiver: Node)
    requires Own(sender) && Linked(receiver, sender)
    ensures PopsPrefix(sender, receiver)
  {
    var all := sender.log + Chunks(sender.ideal.sendQueue);
    DeliveredGrows(sender.ideal.cfg, sender.log, Chunks(sender.ideal.sendQueue), receiver.delivered, receiver.popped,
                   sender.accepted, sender.accepted);
    DeliveredIsPrefix(sender.ideal.cfg, all, receiver.delivered, receiver.popped, sender.accepted);
  }

  /** The 32-bit counter n is buffered by the sender, or has been queued or buffered by the receiver. */
  ghost predicate Accounted(sender: Node, receiver: Node, n: int) {
    || Holds(sender.wire.sendBuf, U32(n))
    || n < receiver.ideal.rcv
    || Holds(receiver.wire.receiveBuf, U32(n))
  }

  lemma HoldsWrap(buf: seq<Segment>, n: int)
    requires Holds(buf, n)
    ensures Holds(TBuf(buf), U32(n))
  {
    var k :| 0 <= k < |buf| && buf[k].sn == n;
    assert TBuf(buf)[k].sn == U32(n);
  }

  /** No segment is ever lost: each number assigned so far is still held for retransmission or has been received. */
  lemma NeverLost(states: seq<Sys>, events: seq<Event>, i: int, n: int)
    requires Run(states, events) && 0 <= i < |states|
    ensures 0 <= n < |states[i].a.log| ==> Accounted(states[i].a, states[i].b, n)
    ensures 0 <= n < |states[i].b.log| ==> Accounted(states[i].b, states[i].a, n)
  {
    Reachable(states, events, i);
    AccountedFor(states[i].a, states[i].b, n);
    AccountedFor(states[i].b, states[i].a, n);
  }

  lemma AccountedFor(sender: Node, receiver: Node, n: int)
    requires Own(sender) && Own(receiver) && Linked(sender, receiver)
    ensures 0 <= n < |sender.log| ==> Accounted(sender, receiver, n)
  {
    if 0 <= n < |sender.log| {
      if Holds(sender.ideal.sendBuf, n) {
        HoldsWrap(sender.ideal.sendBuf, n);
      } else if Holds(receiver.ideal.receiveBuf, n) {
        HoldsWrap(receiver.ideal.receiveBuf, n);
      }
    }
  }

  /** Datagram k of the node is non-empty, within the MTU, and parses back to exactly the items it was made of. */
  ghost predicate ParsesBack(n: Node, k: int)
    requires 0 <= k < |n.datagrams|
  {
    && k < |n.packets|
    && HEADER <= |n.datagrams[k]| <= n.wire.cfg.mtu
    && Parse(n.wire.cfg.conv, n.datagrams[k]) == Parsed(TItems(n.packets[k]), false)
  }

  lemma DatagramsParse(states: seq<Sys>, events: seq<Event>, i: int, k: int)
    requires Run(states, events) && 0 <= i < |states|
    ensures 0 <= k < |states[i].a.datagrams| ==> ParsesBack(states[i].a, k)
    ensures 0 <= k < |states[i].b.datagrams| ==> ParsesBack(states[i].b, k)
  {
    Reachable(states, events, i);
    if 0 <= k < |states[i].a.datagrams| { NodeParses(states[i].a, k); }
    if 0 <= k < |states[i].b.datagrams| { NodeParses(states[i].b, k); }
  }

  lemma NodeParses(n: Node, k: int)
    requires Own(n) && 0 <= k < |n.datagrams|
    ensures ParsesBack(n, k)
  {
    assert PacketOk(n, k);
    var items := n.packets[k];
    assert forall j :: 0 <= j < |items| ==> TidyItem(items[j], n.ideal.cfg.Mss());
    assert forall j :: 0 <= j < |items| ==> Encodable(TItems(items)[j]);
    NonEmptySize(TItems(items));
    ParseEncode(n.ideal.cfg.conv, TItems(items));
  }
}
