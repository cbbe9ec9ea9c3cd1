/**
 What a flush puts on the network, read back from its bytes: which segments go out, under which numbers, and what every
 header says.
 */
module ArqSending {
  import opened Wrappers
  import opened Words
  import opened Seqs
  import opened ArqModel
  import opened ArqCodec

  // ---------------------------------------------------------------- reading the datagrams back

  /** The items that a receiver finds in the datagrams. */
  function ReadAll(conv: int, datagrams: seq<seq<byte>>): seq<Item> {
    if datagrams == [] then [] else Parse(conv, datagrams[0]).items + ReadAll(conv, datagrams[1..])
  }

  ghost predicate AllEncodable(items: seq<Item>) { forall k :: 0 <= k < |items| ==> Encodable(items[k]) }

  lemma {:induction false} ReadEncoded(conv: int, packets: seq<seq<Item>>)
    requires 0 <= conv < TWO32 && AllEncodable(Concat(packets))
    ensures ReadAll(conv, EncodeAll(conv, packets)) == Concat(packets)
  {
    if packets != [] {
      var first, rest := packets[0], packets[1..];
      assert EncodeAll(conv, packets)[1..] == EncodeAll(conv, rest);
      assert forall k :: 0 <= k < |first| ==> first[k] == Concat(packets)[k];
      assert forall k :: 0 <= k < |Concat(rest)| ==> Concat(rest)[k] == Concat(packets)[|first| + k];
      ParseEncode(conv, first);
      ReadEncoded(conv, rest);
    }
  }

  ghost predicate SegmentFits(seg: Segment, mss: int) { 0 <= seg.frg < 256 && |seg.payload| <= mss }

  /** The fields of a state fit the places that a header has for them; what waits in the queue was never sent. */
  ghost predicate Fits(st: State) {
    && st.cfg.Valid() && 0 <= st.rcv < TWO32 && 0 <= st.nxt < TWO32 && 0 <= st.cwnd && 0 <= st.probeWait
    && (forall k :: 0 <= k < |st.sendBuf| ==> SegmentFits(st.sendBuf[k], st.cfg.Mss()) && 0 <= st.sendBuf[k].sn < TWO32)
    && (forall k :: 0 <= k < |st.sendQueue| ==>
        SegmentFits(st.sendQueue[k], st.cfg.Mss()) && st.sendQueue[k].xmits == 0)
    && (forall k :: 0 <= k < |st.acks| ==> 0 <= st.acks[k].sn < TWO32 && 0 <= st.acks[k].ts < TWO32)
  }

  /** An item that goes out: encodable, small enough, and with the header that says what was received. */
  ghost predicate Proper(st: State, it: Item) {
    && Encodable(it) && Size(it) <= st.cfg.mtu && it.una == st.rcv
    && it.wnd == Max(0, Min(st.cfg.receiveWindow - |st.receiveQueue|, 0xFFFF))
  }

  ghost predicate AllProper(st: State, items: seq<Item>) { forall k :: 0 <= k < |items| ==> Proper(st, items[k]) }

  lemma ProperConcat(st: State, a: seq<Item>, b: seq<Item>)
    requires AllProper(st, a) && AllProper(st, b)
    ensures AllProper(st, a + b)
  {
  }

  // ---------------------------------------------------------------- acknowledgements and probes

  ghost predicate HasAck(items: seq<Item>, a: Ack) {
    exists k :: 0 <= k < |items| && items[k].cmd == CMD_ACK && items[k].sn == a.sn && items[k].ts == a.ts
  }

  ghost predicate HasCmd(items: seq<Item>, cmd: int) { exists k :: 0 <= k < |items| && items[k].cmd == cmd }

  /**
   Every pending acknowledgement that the cumulative one does not cover is among the items, and the last one always is.
   */
  ghost predicate Answered(rcv: int, acks: seq<Ack>, items: seq<Item>) {
    forall k :: 0 <= k < |acks| && (TimeDiff(acks[k].sn, rcv) >= 0 || k == |acks| - 1) ==> HasAck(items, acks[k])
  }

  ghost predicate Answers(st: State, items: seq<Item>) { Answered(st.rcv, st.acks, items) }

  ghost predicate AllOf(cmds: set<int>, items: seq<Item>) { forall k :: 0 <= k < |items| ==> items[k].cmd in cmds }

  lemma HasAckMore(a: seq<Item>, b: seq<Item>, c: seq<Item>, ack: Ack)
    requires HasAck(b, ack)
    ensures HasAck(a + b + c, ack)
  {
    var k :| 0 <= k < |b| && b[k].cmd == CMD_ACK && b[k].sn == ack.sn && b[k].ts == ack.ts;
    assert (a + b + c)[|a| + k] == b[k];
  }

  lemma {:induction false} AckItemsRead(st: State, acks: seq<Ack>)
    requires Fits(st) && forall k :: 0 <= k < |acks| ==> 0 <= acks[k].sn < TWO32 && 0 <= acks[k].ts < TWO32
    ensures AllProper(st, AckItems(Wire, st, acks))
    ensures Answered(st.rcv, acks, AckItems(Wire, st, acks)) && AllOf({CMD_ACK}, AckItems(Wire, st, acks))
    decreases |acks|
  {
    if acks != [] {
      var rest := AckItems(Wire, st, acks[1..]);
      AckItemsRead(st, acks[1..]);
      var head := if TimeDiff(acks[0].sn, st.rcv) >= 0 || |acks| == 1 then [AckItem(st, acks[0])] else [];
      assert AckItems(Wire, st, acks) == head + rest;
      ProperConcat(st, head, rest);
      forall k | 0 <= k < |acks| && (TimeDiff(acks[k].sn, st.rcv) >= 0 || k == |acks| - 1)
        ensures HasAck(head + rest, acks[k])
      {
        if k == 0 {
          assert (head + rest)[0] == AckItem(st, acks[0]);
        } else {
          assert acks[k] == acks[1..][k - 1];
          HasAckMore(head, rest, [], acks[k]);
          assert head + rest + [] == head + rest;
        }
      }
    }
  }

  /** Whether the flush asks for the peer's window. */
  predicate Asks(st: State, now: int) {
    st.ask || (st.remoteWindow == 0 && st.probeWait != 0 && TimeDiff(now, st.probeTs) >= 0)
  }

  lemma ProbeItemsRead(st: State, now: int)
    requires Fits(st)
    ensures var items := ProbeItems(Probe(st, now));
            && AllProper(st, items)
            && (HasCmd(items, CMD_ASK) <==> Asks(st, now)) && (HasCmd(items, CMD_TELL) <==> st.tell)
            && AllOf({CMD_ASK, CMD_TELL}, items)
  {
    var p := Probe(st, now);
    var items := ProbeItems(p);
    if p.ask { assert items[0].cmd == CMD_ASK; }
    if p.tell { assert items[|items| - 1].cmd == CMD_TELL; }
  }

  // ---------------------------------------------------------------- segments

  /** A segment that a flush has to send: new, its timer run out, or acknowledged past often enough. */
  predicate Overdue(cfg: Config, seg: Segment, now: int) {
    seg.xmits == 0 || TimeDiff(now, seg.resendTs) >= 0 || (cfg.noDelay && seg.fastAcks >= FAST_RESEND_LIMIT)
  }

  predicate IsPush(it: Item, seg: Segment) {
    it.cmd == CMD_PUSH && it.sn == seg.sn && it.frg == seg.frg && it.payload == seg.payload
  }

  ghost predicate Carries(items: seq<Item>, seg: Segment) { exists k :: 0 <= k < |items| && IsPush(items[k], seg) }

  /** The item is the data of a segment of the buffer that had to be sent. */
  ghost predicate FromBuffer(cfg: Config, buf: seq<Segment>, it: Item, now: int) {
    exists j :: 0 <= j < |buf| && IsPush(it, buf[j]) && Overdue(cfg, buf[j], now)
  }

  lemma CarriesMore(a: seq<Item>, b: seq<Item>, seg: Segment)
    requires Carries(b, seg)
    ensures Carries(a + b, seg)
  {
    var k :| 0 <= k < |b| && IsPush(b[k], seg);
    assert (a + b)[|a| + k] == b[k];
  }

  lemma {:induction false} PushItemsRead(st: State, buf: seq<Segment>, now: int)
    requires st.cfg.Valid() && 0 <= st.rcv < TWO32 && 0 <= now < TWO32
    requires forall k :: 0 <= k < |buf| ==> SegmentFits(buf[k], st.cfg.Mss()) && 0 <= buf[k].sn < TWO32
    ensures AllProper(st, PushItems(st, buf, now))
    ensures forall k :: 0 <= k < |buf| && Overdue(st.cfg, buf[k], now) ==> Carries(PushItems(st, buf, now), buf[k])
    ensures forall k :: 0 <= k < |PushItems(st, buf, now)| ==> FromBuffer(st.cfg, buf, PushItems(st, buf, now)[k], now)
  {
    if buf != [] {
      var rest := PushItems(st, buf[1..], now);
      PushItemsRead(st, buf[1..], now);
      var head := if NeedsSend(st.cfg, buf[0], now) then [PushItem(st, buf[0], now)] else [];
      ProperConcat(st, head, rest);
      forall k | 0 <= k < |buf| && Overdue(st.cfg, buf[k], now) ensures Carries(head + rest, buf[k]) {
        if k == 0 {
          assert IsPush((head + rest)[0], buf[0]);
        } else {
          assert buf[k] == buf[1..][k - 1];
          CarriesMore(head, rest, buf[k]);
        }
      }
      forall k | 0 <= k < |head + rest| ensures FromBuffer(st.cfg, buf, (head + rest)[k], now) {
        if k < |head| {
          assert IsPush(head[0], buf[0]);
        } else {
          var it := rest[k - |head|];
          var j :| 0 <= j < |buf[1..]| && IsPush(it, buf[1..][j]) && Overdue(st.cfg, buf[1..][j], now);
          assert buf[1..][j] == buf[j + 1];
        }
      }
    }
  }

  /**
   The segment of the buffer after the flush: one that was sent counts it and starts its timer, any other is as before.
   */
  ghost predicate Restarted(st: State, seg: Segment, seg1: Segment, now: int) {
    && seg1.sn == seg.sn && seg1.frg == seg.frg && seg1.payload == seg.payload
    && (!Overdue(st.cfg, seg, now) ==> seg1 == seg)
    && (Overdue(st.cfg, seg, now) ==>
          seg1.xmits == U32(seg.xmits + 1) && seg1.ts == now && seg1.resendTs == U32(now + seg1.rto))
    && (seg.xmits == 0 ==> seg1.rto == st.rto)
    && (seg.xmits != 0 && TimeDiff(now, seg.resendTs) < 0 && Overdue(st.cfg, seg, now) ==>
          seg1.rto == seg.rto && seg1.fastAcks == 0)
    && (seg.xmits != 0 && TimeDiff(now, seg.resendTs) >= 0 && 0 <= seg.rto <= RTO_MAX && 0 <= st.rto <= RTO_MAX ==>
          seg1.fastAcks == seg.fastAcks && BacksOff(st, seg.rto, seg1.rto))
  }

  /**
   A timeout that ran out is longer the next time: by the current one or by half of it, and a least step, up to a
   minute.
   */
  predicate BacksOff(st: State, rto: int, rto1: int) {
    var step := if st.cfg.noDelay then Max(RTO_NO_DELAY, st.rto / 2) else Max(st.cfg.interval, st.rto);
    if rto + step <= RTO_MAX then rto1 == rto + step else rto1 == RTO_MAX
  }

  lemma {:induction false} ResendAllRead(st: State, buf: seq<Segment>, now: int)
    requires st.cfg.Valid()
    ensures |ResendAll(st, buf, now)| == |buf|
    ensures forall k :: 0 <= k < |buf| ==> Restarted(st, buf[k], ResendAll(st, buf, now)[k], now)
  {
    if buf != [] {
      ResendAllRead(st, buf[1..], now);
      ResendRead(st, buf[0], now);
    }
  }

  lemma ResendRead(st: State, seg: Segment, now: int)
    requires st.cfg.Valid()
    ensures Restarted(st, seg, Resend(st, seg, now), now)
  {
  }

  // ---------------------------------------------------------------- numbering

  /** How many segments may be in flight. */
  function Room(st: State): int {
    if st.cfg.noDelay then Min(st.cfg.sendWindow, st.remoteWindow)
    else Min(Min(st.cfg.sendWindow, st.remoteWindow), st.cwnd)
  }

  /** The number `j` places after the next one. */
  function Number(st: State, j: int): int { U32(st.nxt + j) }

  /** The first `k` segments of the queue get the next numbers, as many as there is room for. */
  ghost predicate Admits(st: State, st1: State, limit: int, k: nat) {
    && k <= |st.sendQueue| && st1.sendQueue == st.sendQueue[k..] && st1.nxt == Number(st, k)
    && |st1.sendBuf| == |st.sendBuf| + k && st1.sendBuf[..|st.sendBuf|] == st.sendBuf
    && (forall j :: 0 <= j < k ==> st1.sendBuf[|st.sendBuf| + j] == st.sendQueue[j].(sn := Number(st, j)))
    && (forall j :: 0 <= j < k ==> TimeDiff(Number(st, j), U32(st.una + limit)) < 0)
    && (k < |st.sendQueue| ==> TimeDiff(Number(st, k), U32(st.una + limit)) >= 0)
  }

  lemma NumberShifts(st: State, mid: State)
    requires mid.nxt == U32(st.nxt + 1)
    ensures forall j :: 0 <= j ==> Number(mid, j) == Number(st, j + 1)
  {
  }

  lemma AdmitStep(st: State, st1: State, limit: int, k: nat)
    requires 0 <= st.nxt < TWO32 && |st.sendQueue| > 0 && TimeDiff(st.nxt, U32(st.una + limit)) < 0
    requires Admits(AdmitOne(Wire, st), st1, limit, k)
    ensures Admits(st, st1, limit, k + 1)
  {
    var mid, n := AdmitOne(Wire, st), |st.sendBuf|;
    NumberShifts(st, mid);
    assert st1.sendBuf[..n] == st1.sendBuf[..n + 1][..n];
    assert st1.sendBuf[n] == st1.sendBuf[..n + 1][n];
    forall j | 0 <= j < k + 1
      ensures st1.sendBuf[n + j] == st.sendQueue[j].(sn := Number(st, j))
      ensures TimeDiff(Number(st, j), U32(st.una + limit)) < 0
    {
      if j > 0 {
        var i := j - 1;
        assert Number(mid, i) == Number(st, j) && mid.sendQueue[i] == st.sendQueue[j];
        assert st1.sendBuf[|mid.sendBuf| + i] == mid.sendQueue[i].(sn := Number(mid, i));
      }
    }
  }

  lemma {:induction false} AdmitRead(st: State, limit: int) returns (k: nat)
    requires 0 <= st.nxt < TWO32
    ensures Admits(st, Admit(Wire, st, limit), limit, k)
    decreases |st.sendQueue|
  {
    if CanAdmit(Wire, st, limit) {
      var j := AdmitRead(AdmitOne(Wire, st), limit);
      AdmitStep(st, Admit(Wire, st, limit), limit, j);
      k := j + 1;
    } else {
      k := 0;
    }
  }

  /** The send buffer with the first `k` segments of the queue under their numbers. */
  function Filled(st: State, k: nat): seq<Segment>
    requires k <= |st.sendQueue|
  {
    st.sendBuf + seq(k, j requires 0 <= j < k => st.sendQueue[j].(sn := Number(st, j)))
  }

  lemma {:induction false} AdmitSame(st: State, limit: int)
    ensures var p := Admit(Wire, st, limit);
            p == st.(sendQueue := p.sendQueue, sendBuf := p.sendBuf, nxt := p.nxt)
    decreases |st.sendQueue|
  {
    if CanAdmit(Wire, st, limit) { AdmitSame(AdmitOne(Wire, st), limit); }
  }

  lemma ProbeShows(st: State, now: int)
    ensures var s1 := Probe(st.(acks := []), now);
            && Shows(st, s1) && s1.sendBuf == st.sendBuf && s1.sendQueue == st.sendQueue && s1.nxt == st.nxt
            && SendLimit(s1) == Room(st)
  {
  }

  lemma AdmitsFills(st: State, p: State, k: nat)
    requires Admits(st, p, Room(st), k)
    ensures Numbers(st, p, k) && p.sendBuf == Filled(st, k)
  {
    assert p.sendBuf == p.sendBuf[..|st.sendBuf|] + p.sendBuf[|st.sendBuf|..];
  }

  lemma AdmitsFrom(st: State, s2: State, p: State, limit: int, k: nat)
    requires Admits(s2, p, limit, k)
    requires s2.sendBuf == st.sendBuf && s2.sendQueue == st.sendQueue && s2.nxt == st.nxt && s2.una == st.una
    ensures Admits(st, p, limit, k)
  {
    assert forall j :: Number(s2, j) == Number(st, j);
  }

  /** What a flush prepares: as many segments numbered as there is room for, and nothing else that a header shows. */
  lemma PreparedRead(st: State, now: int) returns (k: nat)
    requires Fits(st)
    ensures Numbers(st, Prepared(Wire, st, now), k) && Prepared(Wire, st, now).sendBuf == Filled(st, k)
    ensures Shows(st, Prepared(Wire, st, now))
  {
    var s1 := Probe(st.(acks := []), now);
    var s2 := s1.(ask := false, tell := false);
    ProbeShows(st, now);
    k := AdmitRead(s2, SendLimit(s1));
    AdmitSame(s2, SendLimit(s1));
    AdmitsFrom(st, s2, Prepared(Wire, st, now), Room(st), k);
    AdmitsFills(st, Prepared(Wire, st, now), k);
  }

  /** The two states put the same into a header and into a segment's timer. */
  predicate Shows(st: State, p: State) {
    p.cfg == st.cfg && p.rcv == st.rcv && p.receiveQueue == st.receiveQueue && p.rto == st.rto && p.dead == st.dead
    && p.una == st.una && p.cwnd == st.cwnd && p.ssthresh == st.ssthresh && p.acks == []
  }

  /** `k` segments leave the queue, exactly as many as there is room for. */
  ghost predicate Numbers(st: State, st1: State, k: nat) {
    && k <= |st.sendQueue| && st1.sendQueue == st.sendQueue[k..] && st1.nxt == Number(st, k)
    && (forall j :: 0 <= j < k ==> TimeDiff(Number(st, j), U32(st.una + Room(st))) < 0)
    && (k < |st.sendQueue| ==> TimeDiff(Number(st, k), U32(st.una + Room(st))) >= 0)
  }

  /** Every segment that is due goes out and starts its timer; nothing else goes out. */
  ghost predicate SendsDue(st: State, buf: seq<Segment>, buf1: seq<Segment>, items: seq<Item>, now: int) {
    && |buf1| == |buf|
    && (forall j :: 0 <= j < |buf| ==> Restarted(st, buf[j], buf1[j], now))
    && (forall j :: 0 <= j < |buf| && Overdue(st.cfg, buf[j], now) ==> Carries(items, buf[j]))
    && (forall i :: 0 <= i < |items| && items[i].cmd == CMD_PUSH ==> FromBuffer(st.cfg, buf, items[i], now))
  }

  /** The link is dead once a segment has been sent twenty times. */
  ghost predicate Dies(st: State, st1: State, buf: seq<Segment>, now: int)
    requires |st1.sendBuf| == |buf|
  {
    st1.dead <==> st.dead || exists j ::
        0 <= j < |buf| && Overdue(st.cfg, buf[j], now) && st1.sendBuf[j].xmits >= DEAD_LINK_LIMIT
  }

  ghost predicate Lost(buf: seq<Segment>, now: int) {
    exists j :: 0 <= j < |buf| && buf[j].xmits != 0 && TimeDiff(now, buf[j].resendTs) >= 0
  }

  /** A timeout takes the congestion window down to one segment. */
  predicate Slows(st: State, st1: State, lost: bool) {
    if st.cfg.noDelay then st1.cwnd == st.cwnd && st1.ssthresh == st.ssthresh
    else if lost then st1.cwnd == 1 && st1.ssthresh == Max(Room(st) / 2, THRESH_MIN)
    else st1.cwnd == Max(st.cwnd, 1) && st1.ssthresh == st.ssthresh
  }

  /** All that a full flush at `now` does with the segments: `items` is what the peer reads. */
  ghost predicate Sends(st: State, st1: State, items: seq<Item>, now: int, k: nat) {
    && Numbers(st, st1, k) && SendsDue(st, Filled(st, k), st1.sendBuf, items, now)
    && Dies(st, st1, Filled(st, k), now) && Slows(st, st1, Lost(st.sendBuf, now))
  }

  lemma {:induction false} AnyLostIs(buf: seq<Segment>, now: int)
    ensures AnyLost(buf, now) <==> Lost(buf, now)
  {
    if buf != [] {
      var n := |buf| - 1;
      AnyLostIs(buf[..n], now);
      if Lost(buf, now) && !TimedOut(buf[n], now) {
        var j :| 0 <= j < |buf| && buf[j].xmits != 0 && TimeDiff(now, buf[j].resendTs) >= 0;
        assert buf[..n][j] == buf[j];
      }
      if Lost(buf[..n], now) {
        var j :| 0 <= j < n && buf[..n][j].xmits != 0 && TimeDiff(now, buf[..n][j].resendTs) >= 0;
        assert buf[..n][j] == buf[j];
      }
    }
  }

  ghost predicate Worn(st: State, buf: seq<Segment>, now: int) {
    exists j :: 0 <= j < |buf| && Exhausted(st, buf[j], now)
  }

  lemma {:induction false} AnyDeadIs(st: State, buf: seq<Segment>, now: int)
    ensures AnyDead(st, buf, now) <==> Worn(st, buf, now)
  {
    if buf != [] {
      var n := |buf| - 1;
      AnyDeadIs(st, buf[..n], now);
      if Worn(st, buf, now) && !Exhausted(st, buf[n], now) {
        var j :| 0 <= j < |buf| && Exhausted(st, buf[j], now);
        assert buf[..n][j] == buf[j];
      }
      if Worn(st, buf[..n], now) {
        var j :| 0 <= j < n && Exhausted(st, buf[..n][j], now);
        assert buf[..n][j] == buf[j];
      }
    }
  }

  lemma {:induction false} ResendAllAt(st: State, buf: seq<Segment>, now: int)
    ensures |ResendAll(st, buf, now)| == |buf|
    ensures forall k :: 0 <= k < |buf| ==> ResendAll(st, buf, now)[k] == Resend(st, buf[k], now)
  {
    if buf != [] { ResendAllAt(st, buf[1..], now); }
  }

  /** New segments have not timed out. */
  lemma LostFilled(st: State, k: nat, now: int)
    requires Fits(st) && k <= |st.sendQueue|
    ensures Lost(Filled(st, k), now) <==> Lost(st.sendBuf, now)
  {
    var buf := Filled(st, k);
    if Lost(buf, now) {
      var j :| 0 <= j < |buf| && buf[j].xmits != 0 && TimeDiff(now, buf[j].resendTs) >= 0;
      assert j < |st.sendBuf|;
      assert buf[j] == st.sendBuf[j];
    }
    if Lost(st.sendBuf, now) {
      var j :| 0 <= j < |st.sendBuf| && st.sendBuf[j].xmits != 0 && TimeDiff(now, st.sendBuf[j].resendTs) >= 0;
      assert buf[j] == st.sendBuf[j];
    }
  }

  lemma FilledFits(st: State, k: nat)
    requires Fits(st) && k <= |st.sendQueue|
    ensures forall j :: 0 <= j < |Filled(st, k)| ==>
              SegmentFits(Filled(st, k)[j], st.cfg.Mss()) && 0 <= Filled(st, k)[j].sn < TWO32
  {
  }

  /** The segments of a full flush. */
  lemma SegmentsRead(st: State, now: int) returns (k: nat)
    requires Fits(st) && 0 <= now < TWO32
    ensures k <= |st.sendQueue| && Numbers(st, Prepared(Wire, st, now), k) && Shows(st, Prepared(Wire, st, now))
    ensures Prepared(Wire, st, now).sendBuf == Filled(st, k)
    ensures var p := Prepared(Wire, st, now);
            SendsDue(st, Filled(st, k), ResendAll(p, p.sendBuf, now), PushItems(p, p.sendBuf, now), now)
    ensures AllProper(st, PushItems(Prepared(Wire, st, now), Prepared(Wire, st, now).sendBuf, now))
  {
    k := PreparedRead(st, now);
    var p := Prepared(Wire, st, now);
    FilledFits(st, k);
    PushItemsRead(p, p.sendBuf, now);
    ResendAllRead(p, p.sendBuf, now);
    SameRestarts(st, p, now);
    SameProper(st, p, PushItems(p, p.sendBuf, now));
  }

  lemma SameRestarts(st: State, p: State, now: int)
    requires p.cfg == st.cfg && p.rto == st.rto
    ensures forall seg, seg1 :: Restarted(p, seg, seg1, now) <==> Restarted(st, seg, seg1, now)
  {
  }

  lemma SameProper(st: State, p: State, items: seq<Item>)
    requires Shows(st, p) && AllProper(p, items)
    ensures AllProper(st, items)
  {
  }

  lemma DiesIs(st: State, p: State, st1: State, now: int)
    requires p.cfg == st.cfg && p.dead == st.dead
    requires st1.sendBuf == ResendAll(p, p.sendBuf, now) && st1.dead == (p.dead || AnyDead(p, p.sendBuf, now))
    ensures |st1.sendBuf| == |p.sendBuf| && Dies(st, st1, p.sendBuf, now)
  {
    ResendAllAt(p, p.sendBuf, now);
    AnyDeadIs(p, p.sendBuf, now);
    if AnyDead(p, p.sendBuf, now) {
      var j :| 0 <= j < |p.sendBuf| && Exhausted(p, p.sendBuf[j], now);
      assert st1.sendBuf[j].xmits >= DEAD_LINK_LIMIT;
    }
  }

  lemma SlowsIs(st: State, p: State, s2: State, limit: int, skipped: bool, lost: bool)
    requires Shows(st, p) && s2 == p.(sendBuf := s2.sendBuf, dead := s2.dead) && limit == Room(st)
    requires !st.cfg.noDelay ==> !skipped
    requires 0 <= st.cwnd
    ensures Slows(st, Shrink(s2, limit, skipped, lost), lost)
    ensures var st1 := Shrink(s2, limit, skipped, lost);
            st1 == s2.(cwnd := st1.cwnd, ssthresh := st1.ssthresh, incr := st1.incr)
  {
  }

  lemma {:induction false} NoneSkipped(cfg: Config, buf: seq<Segment>, now: int)
    ensures !cfg.noDelay ==> !AnySkipped(cfg, buf, now)
  {
    if buf != [] { NoneSkipped(cfg, buf[..|buf| - 1], now); }
  }

  // ---------------------------------------------------------------- the flush

  /** The datagrams of a flush. */
  function Datagrams(st: State, now: int, ackOnly: bool): seq<seq<byte>> {
    EncodeAll(st.cfg.conv, FlushPackets(Wire, st, now, ackOnly))
  }

  /** The datagrams read back as what the flush meant to send. */
  lemma DatagramsRead(st: State, now: int, ackOnly: bool)
    requires st.cfg.Valid() && AllProper(st, FlushItems(Wire, st, now, ackOnly))
    ensures ReadAll(st.cfg.conv, Datagrams(st, now, ackOnly)) == FlushItems(Wire, st, now, ackOnly)
  {
    var items := FlushItems(Wire, st, now, ackOnly);
    PackExact(st.cfg.mtu, [], items);
    assert [] + items == items;
    ReadEncoded(st.cfg.conv, FlushPackets(Wire, st, now, ackOnly));
  }

  predicate Pending(st: State) {
    |st.acks| > 0 || |st.sendQueue| > 0 || |st.sendBuf| > 0 || st.ask || st.tell || st.remoteWindow <= 0
  }

  /** The peer is asked for its window when the timer of the probe runs out, and told ours when it asked. */
  ghost predicate Probes(st: State, st1: State, items: seq<Item>, now: int) {
    && (HasCmd(items, CMD_ASK) <==> Asks(st, now)) && (HasCmd(items, CMD_TELL) <==> st.tell) && !st1.ask && !st1.tell
    && (st.remoteWindow != 0 ==> st1.probeWait == 0)
    && (st.remoteWindow == 0 && (st.probeWait == 0 || TimeDiff(now, st.probeTs) >= 0) ==>
          PROBE_INIT <= st1.probeWait <= PROBE_LIMIT && st1.probeTs == U32(now + st1.probeWait))
    && (st.remoteWindow == 0 && st.probeWait != 0 && TimeDiff(now, st.probeTs) < 0 ==>
          st1.probeWait == st.probeWait && st1.probeTs == st.probeTs)
  }

  /** A full flush: the segments, the acknowledgements and the probes; `items` is what the peer reads. */
  ghost predicate Flushes(st: State, st1: State, items: seq<Item>, now: int, k: nat) {
    && Sends(st, st1, items, now, k) && Answers(st, items) && st1.acks == [] && Probes(st, st1, items, now)
    && AllProper(st, items)
  }

  lemma JoinItems(st: State, acks: seq<Item>, probes: seq<Item>, pushes: seq<Item>, buf: seq<Segment>,
                  buf1: seq<Segment>, now: int)
    requires AllOf({CMD_ACK}, acks) && AllOf({CMD_ASK, CMD_TELL}, probes) && SendsDue(st, buf, buf1, pushes, now)
    ensures SendsDue(st, buf, buf1, acks + probes + pushes, now)
  {
    var items := acks + probes + pushes;
    forall j | 0 <= j < |buf| && Overdue(st.cfg, buf[j], now) ensures Carries(items, buf[j]) {
      CarriesMore(acks + probes, pushes, buf[j]);
    }
  }

  lemma JoinProbes(acks: seq<Item>, probes: seq<Item>, pushes: seq<Item>, cmd: int)
    requires AllOf({CMD_ACK}, acks) && AllOf({CMD_PUSH}, pushes) && (cmd == CMD_ASK || cmd == CMD_TELL)
    ensures HasCmd(acks + probes + pushes, cmd) <==> HasCmd(probes, cmd)
  {
    var items := acks + probes + pushes;
    if HasCmd(probes, cmd) {
      var k :| 0 <= k < |probes| && probes[k].cmd == cmd;
      assert items[|acks| + k] == probes[k];
    }
  }

  lemma JoinAnswers(st: State, acks: seq<Item>, probes: seq<Item>, pushes: seq<Item>)
    requires Answers(st, acks)
    ensures Answers(st, acks + probes + pushes)
  {
    forall k | 0 <= k < |st.acks| && (TimeDiff(st.acks[k].sn, st.rcv) >= 0 || k == |st.acks| - 1)
      ensures HasAck(acks + probes + pushes, st.acks[k])
    {
      HasAckMore([], acks, probes + pushes, st.acks[k]);
      assert [] + acks + (probes + pushes) == acks + probes + pushes;
    }
  }

  lemma JoinProper(st: State, acks: seq<Item>, probes: seq<Item>, pushes: seq<Item>)
    requires AllProper(st, acks) && AllProper(st, probes) && AllProper(st, pushes)
    ensures AllProper(st, acks + probes + pushes)
  {
    ProperConcat(st, acks, probes);
    ProperConcat(st, acks + probes, pushes);
  }

  lemma {:induction false} PushesOnly(st: State, buf: seq<Segment>, now: int)
    ensures AllOf({CMD_PUSH}, PushItems(st, buf, now))
  {
    if buf != [] { PushesOnly(st, buf[1..], now); }
  }

  /** The state after a full flush. */
  lemma FlushedState(st: State, now: int, k: nat)
    requires Fits(st) && Pending(st) && k <= |st.sendQueue|
    requires Shows(st, Prepared(Wire, st, now)) && Prepared(Wire, st, now).sendBuf == Filled(st, k)
    ensures var p, st1 := Prepared(Wire, st, now), Flush(Wire, st, now, false);
            && st1.sendBuf == ResendAll(p, p.sendBuf, now) && st1.sendQueue == p.sendQueue && st1.nxt == p.nxt
            && |st1.sendBuf| == |Filled(st, k)| && Dies(st, st1, Filled(st, k), now)
            && Slows(st, st1, Lost(st.sendBuf, now)) && st1.acks == [] && !st1.ask && !st1.tell
            && st1.probeWait == Probe(st, now).probeWait && st1.probeTs == Probe(st, now).probeTs
  {
    var p := Prepared(Wire, st, now);
    var s2 := p.(sendBuf := ResendAll(p, p.sendBuf, now), dead := p.dead || AnyDead(p, p.sendBuf, now));
    var skipped, lost := AnySkipped(st.cfg, p.sendBuf, now), AnyLost(p.sendBuf, now);
    DiesIs(st, p, s2, now);
    NoneSkipped(st.cfg, p.sendBuf, now);
    AnyLostIs(p.sendBuf, now);
    LostFilled(st, k, now);
    SlowsIs(st, p, s2, SendLimit(st), skipped, lost);
    PreparedProbe(st, now);
  }

  lemma PreparedProbe(st: State, now: int)
    ensures var p := Prepared(Wire, st, now);
            p.probeWait == Probe(st, now).probeWait && p.probeTs == Probe(st, now).probeTs && !p.ask && !p.tell
  {
    var s1 := Probe(st.(acks := []), now);
    AdmitSame(s1.(ask := false, tell := false), SendLimit(s1));
  }

  function Acks(st: State): seq<Item> { AckItems(Wire, st, st.acks) }

  function Asked(st: State, now: int): seq<Item> { ProbeItems(Probe(st, now)) }

  function Pushes(st: State, now: int): seq<Item> {
    PushItems(Prepared(Wire, st, now), Prepared(Wire, st, now).sendBuf, now)
  }

  /** The items of a full flush together. */
  lemma FlushProper(st: State, now: int)
    requires Fits(st) && AllProper(st, Pushes(st, now))
    ensures AllProper(st, Acks(st) + Asked(st, now) + Pushes(st, now))
  {
    AckItemsRead(st, st.acks);
    ProbeItemsRead(st, now);
    JoinProper(st, Acks(st), Asked(st, now), Pushes(st, now));
  }

  lemma FlushAnswered(st: State, now: int)
    requires Fits(st)
    ensures Answers(st, Acks(st) + Asked(st, now) + Pushes(st, now))
  {
    AckItemsRead(st, st.acks);
    JoinAnswers(st, Acks(st), Asked(st, now), Pushes(st, now));
  }

  lemma FlushProbed(st: State, now: int)
    requires Fits(st)
    ensures var items := Acks(st) + Asked(st, now) + Pushes(st, now);
            (HasCmd(items, CMD_ASK) <==> Asks(st, now)) && (HasCmd(items, CMD_TELL) <==> st.tell)
  {
    AckItemsRead(st, st.acks);
    ProbeItemsRead(st, now);
    PushesOnly(Prepared(Wire, st, now), Prepared(Wire, st, now).sendBuf, now);
    JoinProbes(Acks(st), Asked(st, now), Pushes(st, now), CMD_ASK);
    JoinProbes(Acks(st), Asked(st, now), Pushes(st, now), CMD_TELL);
  }

  lemma FlushPushed(st: State, now: int, buf: seq<Segment>, buf1: seq<Segment>)
    requires Fits(st) && SendsDue(st, buf, buf1, Pushes(st, now), now)
    ensures SendsDue(st, buf, buf1, Acks(st) + Asked(st, now) + Pushes(st, now), now)
  {
    AckItemsRead(st, st.acks);
    ProbeItemsRead(st, now);
    JoinItems(st, Acks(st), Asked(st, now), Pushes(st, now), buf, buf1, now);
  }

  lemma FlushItemsAre(st: State, now: int)
    requires Pending(st)
    ensures FlushItems(Wire, st, now, false) == Acks(st) + Asked(st, now) + Pushes(st, now)
  {
  }

  lemma ProbesIs(st: State, st1: State, items: seq<Item>, now: int)
    requires (HasCmd(items, CMD_ASK) <==> Asks(st, now)) && (HasCmd(items, CMD_TELL) <==> st.tell) && !st1.ask
             && !st1.tell
    requires st1.probeWait == Probe(st, now).probeWait && st1.probeTs == Probe(st, now).probeTs && 0 <= st.probeWait
    ensures Probes(st, st1, items, now)
  {
  }

  /**
   What a full flush does, read back from its datagrams: every segment that is new, timed out or skipped often enough
   goes out whole and starts its timer, and no other; as many queued segments get the next numbers as there is room for;
   every acknowledgement and probe that is due goes out, and every header says what was received and how much room there
   is.
   */
  lemma FlushSends(st: State, now: int) returns (k: nat)
    requires Fits(st) && Pending(st) && 0 <= now < TWO32
    ensures Flushes(st, Flush(Wire, st, now, false), ReadAll(st.cfg.conv, Datagrams(st, now, false)), now, k)
  {
    k := SegmentsRead(st, now);
    FlushItemsAre(st, now);
    FlushProper(st, now);
    FlushAnswered(st, now);
    FlushProbed(st, now);
    FlushPushed(st, now, Filled(st, k), ResendAll(Prepared(Wire, st, now), Filled(st, k), now));
    DatagramsRead(st, now, false);
    FlushedState(st, now, k);
    ProbesIs(st, Flush(Wire, st, now, false), FlushItems(Wire, st, now, false), now);
    FlushesIs(st, Prepared(Wire, st, now), Flush(Wire, st, now, false), FlushItems(Wire, st, now, false), now, k);
  }

  lemma FlushesIs(st: State, p: State, st1: State, items: seq<Item>, now: int, k: nat)
    requires k <= |st.sendQueue| && Numbers(st, p, k) && st1.sendQueue == p.sendQueue && st1.nxt == p.nxt
    requires SendsDue(st, Filled(st, k), st1.sendBuf, items, now) && Dies(st, st1, Filled(st, k), now)
    requires Slows(st, st1, Lost(st.sendBuf, now)) && Answers(st, items) && st1.acks == []
             && Probes(st, st1, items, now)
    requires AllProper(st, items)
    ensures Flushes(st, st1, items, now, k)
  {
  }

  /** The datagrams are those of a full flush from `st` to `st1`. */
  ghost predicate FlushedAs(st: State, st1: State, datagrams: seq<seq<byte>>, now: int) {
    exists k :: 0 <= k && Flushes(st, st1, ReadAll(st.cfg.conv, datagrams), now, k)
  }

  lemma FlushReads(st: State, now: int)
    ensures Fits(st) && Pending(st) && 0 <= now < TWO32 ==>
              FlushedAs(st, Flush(Wire, st, now, false), Datagrams(st, now, false), now)
  {
    if Fits(st) && Pending(st) && 0 <= now < TWO32 {
      var k := FlushSends(st, now);
    }
  }

  /** A flush of the acknowledgements alone sends them and nothing else; with nothing to do a flush does nothing. */
  lemma FlushAnswers(st: State, now: int)
    requires Fits(st)
    ensures Pending(st) ==>
              var items := ReadAll(st.cfg.conv, Datagrams(st, now, true));
              && Answers(st, items) && AllProper(st, items) && Flush(Wire, st, now, true) == st.(acks := [])
              && AllOf({CMD_ACK}, items)
    ensures !Pending(st) ==> forall ackOnly :: Flush(Wire, st, now, ackOnly) == st && Datagrams(st, now, ackOnly) == []
  {
    if Pending(st) {
      AckItemsRead(st, st.acks);
      assert FlushItems(Wire, st, now, true) == AckItems(Wire, st, st.acks);
      DatagramsRead(st, now, true);
    }
  }
}
