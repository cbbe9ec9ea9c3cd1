/** The congestion window: its 32-bit arithmetic never wraps, whatever arrives and whatever is lost. */
module ArqCongestion {
  import opened Wrappers
  import opened Words
  import opened ArqModel
  import opened ArqCodec
  import opened ArqIdeal
  import opened ArqSafety

  function NextIncrExact(incr: int, mss: int): int
    requires mss > 0
  {
    var inc0 := Max(incr, mss);
    inc0 + mss * mss / inc0 + mss / 16
  }

  /** Growth as it would be with unbounded integers. */
  function GrowExact(c: Congestion, ssthresh: int, remoteWindow: int, mss: int): Congestion
    requires mss > 0
  {
    if c.cwnd >= remoteWindow then c
    else
      var c1 :=
        if c.cwnd < ssthresh then Congestion(c.cwnd + 1, c.incr + mss)
        else
          var inc1 := NextIncrExact(c.incr, mss);
          if (c.cwnd + 1) * mss <= inc1 then Congestion((inc1 + mss - 1) / mss, inc1) else Congestion(c.cwnd, inc1);
      if c1.cwnd > remoteWindow then Congestion(remoteWindow, remoteWindow * mss) else c1
  }

  ghost predicate CongestionOk(c: Congestion, mss: int) {
    0 <= c.cwnd < TWO16 && 0 <= c.incr < (c.cwnd + 1) * mss
  }

  lemma MulLe(a: int, b: int, c: int, d: int)
    requires 0 <= a <= b && 0 <= c <= d
    ensures a * c <= b * d
  {
    assert a * c <= b * c;
    assert b * c <= b * d;
  }

  lemma SquareQuotient(mss: int, inc0: int)
    requires 0 < mss <= inc0
    ensures 0 <= mss * mss / inc0 <= mss
  {
    var q, r := mss * mss / inc0, mss * mss % inc0;
    assert mss * mss == q * inc0 + r;
    assert (mss + 1) * mss == mss * mss + mss;
    if q > mss {
      MulLe(mss + 1, q, mss, inc0);
    }
  }

  /** The window that covers a byte count rounds it up. */
  lemma CeilingCovers(inc: int, mss: int)
    requires 0 < mss && 0 <= inc
    ensures var w := (inc + mss - 1) / mss;
            0 <= w && inc <= w * mss < inc + mss
  {
    var w, r := (inc + mss - 1) / mss, (inc + mss - 1) % mss;
    assert inc + mss - 1 == w * mss + r;
    if w < 0 { MulLe(1, -w, mss, mss); }
  }

  /** The values of the slow-growth branch stay far from 2^32. */
  lemma GrowthFits(c: Congestion, remoteWindow: int, mss: int)
    requires 0 < mss <= 65476 && CongestionOk(c, mss) && c.cwnd < remoteWindow < TWO16
    ensures mss * mss < TWO32 && c.incr + 4 * mss < TWO32
    ensures (c.cwnd + 1) * mss < TWO32 && remoteWindow * mss < TWO32
  {
    MulLe(mss, 65476, mss, 65476);
    MulLe(c.cwnd + 1, 65535, mss, 65476);
    MulLe(remoteWindow, 65535, mss, 65476);
  }

  lemma NextIncrFits(incr: int, mss: int)
    requires 0 < mss <= 65476 && 0 <= incr && mss * mss < TWO32 && incr + 4 * mss < TWO32
    ensures NextIncr(incr, mss) == NextIncrExact(incr, mss)
    ensures mss <= NextIncrExact(incr, mss) && NextIncrExact(incr, mss) + mss < TWO32
  {
    var inc0 := Max(incr, mss);
    SquareQuotient(mss, inc0);
    MulLe(mss, 65476, mss, 65476);
  }

  /** Growth is exact, keeps the byte count below one segment past the window, and respects the peer's window. */
  lemma GrowIsExact(c: Congestion, ssthresh: int, remoteWindow: int, mss: int)
    requires 0 < mss <= 65476 && CongestionOk(c, mss) && 0 <= remoteWindow < TWO16 && THRESH_MIN <= ssthresh
    ensures GrowWindow(c, ssthresh, remoteWindow, mss) == GrowExact(c, ssthresh, remoteWindow, mss)
    ensures CongestionOk(GrowWindow(c, ssthresh, remoteWindow, mss), mss)
    ensures GrowWindow(c, ssthresh, remoteWindow, mss).cwnd <= Max(c.cwnd, remoteWindow)
  {
    if c.cwnd < remoteWindow {
      GrowthFits(c, remoteWindow, mss);
      assert (remoteWindow + 1) * mss == remoteWindow * mss + mss;
      if c.cwnd < ssthresh {
        assert (c.cwnd + 2) * mss == (c.cwnd + 1) * mss + mss;
      } else {
        SlowGrowth(c, ssthresh, remoteWindow, mss);
      }
    }
  }

  lemma SlowGrowth(c: Congestion, ssthresh: int, remoteWindow: int, mss: int)
    requires 0 < mss <= 65476 && CongestionOk(c, mss) && c.cwnd < remoteWindow < TWO16
    requires THRESH_MIN <= ssthresh <= c.cwnd
    ensures GrowWindow(c, ssthresh, remoteWindow, mss) == GrowExact(c, ssthresh, remoteWindow, mss)
    ensures CongestionOk(GrowExact(c, ssthresh, remoteWindow, mss), mss)
    ensures GrowExact(c, ssthresh, remoteWindow, mss).cwnd <= remoteWindow
  {
    GrowthFits(c, remoteWindow, mss);
    NextIncrFits(c.incr, mss);
    CoverFits(c.cwnd, NextIncrExact(c.incr, mss), mss);
    SlowBound(c, remoteWindow, mss, NextIncrExact(c.incr, mss));
  }

  /** Whatever the new byte count, the window chosen for it covers it. */
  lemma SlowBound(c: Congestion, remoteWindow: int, mss: int, inc1: int)
    requires 0 < mss && 0 <= c.cwnd < remoteWindow < TWO16 && 0 <= inc1
    ensures var c1 := if (c.cwnd + 1) * mss <= inc1 then Congestion((inc1 + mss - 1) / mss, inc1)
            else Congestion(c.cwnd, inc1);
            var c2 := if c1.cwnd > remoteWindow then Congestion(remoteWindow, remoteWindow * mss) else c1;
            CongestionOk(c2, mss) && c2.cwnd <= remoteWindow
  {
    CeilingCovers(inc1, mss);
    var w := (inc1 + mss - 1) / mss;
    assert (w + 1) * mss == w * mss + mss;
    assert (remoteWindow + 1) * mss == remoteWindow * mss + mss;
    MulLe(0, remoteWindow, 0, mss);
  }

  lemma CoverFits(cwnd: int, inc1: int, mss: int)
    requires 0 < mss && 0 <= cwnd < TWO16 && (cwnd + 1) * mss < TWO32 && 0 <= inc1 && inc1 + mss < TWO32
    ensures U32(U32(cwnd + 1) * mss) == (cwnd + 1) * mss
    ensures U32(U32(inc1 + mss) - 1) / mss == (inc1 + mss - 1) / mss
  {
    MulLe(0, cwnd + 1, 0, mss);
  }

  // ---------------------------------------------------------------- every history

  ghost predicate CongestionInv(st: State) {
    && st.cfg.Valid()
    && 0 <= st.remoteWindow && THRESH_MIN <= st.ssthresh
    && CongestionOk(Congestion(st.cwnd, st.incr), st.cfg.Mss())
  }

  /** Anything that can be done to one endpoint; the bytes of a datagram are arbitrary. */
  datatype Call = Write(data: seq<byte>) | Read | Flushed(now: int, ackOnly: bool) | Datagram(data: seq<byte>, now: int)

  function Apply(st: State, call: Call): State
    requires st.cfg.Mss() > 0
  {
    match call
    case Write(data) => Send(st, data)
    case Read => if 0 < Ready(st.receiveQueue) <= |st.receiveQueue| then Pop(Wire, st) else st
    case Flushed(now, ackOnly) => Flush(Wire, st, now, ackOnly)
    case Datagram(data, now) => InputBytes(Wire, st, data, now)
  }

  /** The fields that congestion control reads and writes stay as they were. */
  ghost predicate SameCongestion(st: State, st1: State) {
    st1.cfg == st.cfg && st1.cwnd == st.cwnd && st1.incr == st.incr && st1.ssthresh == st.ssthresh
  }

  lemma PushCongestion(m: Mode, st: State, it: Item)
    ensures SameCongestion(st, TakePush(m, st, it)) && TakePush(m, st, it).remoteWindow == st.remoteWindow
  {
    var st1 := st.(acks := st.acks + [Ack(it.sn, it.ts)]);
    InsertCongestion(m, st1, it.sn, it.frg, it.payload);
  }

  lemma InsertCongestion(m: Mode, st: State, sn: int, frg: int, payload: seq<byte>)
    ensures SameCongestion(st, Insert(m, st, sn, frg, payload))
    ensures Insert(m, st, sn, frg, payload).remoteWindow == st.remoteWindow
  {
  }

  lemma ItemCongestion(m: Mode, st: State, it: Item)
    ensures SameCongestion(st, TakeItem(m, st, it)) && TakeItem(m, st, it).remoteWindow == it.wnd
  {
    var s1 := TakeHeader(m, st, it);
    assert SameCongestion(st, s1) && s1.remoteWindow == it.wnd;
    if it.cmd == CMD_PUSH {
      PushCongestion(m, s1, it);
    } else if it.cmd == CMD_ACK {
      AckCongestion(m, s1, it.sn);
    }
  }

  lemma AckCongestion(m: Mode, st: State, sn: int)
    ensures var st1 := TakeFastAck(m, Refresh(TakeAck(m, st, sn)), sn);
            SameCongestion(st, st1) && st1.remoteWindow == st.remoteWindow
  {
  }

  lemma {:induction false} ItemsCongestion(m: Mode, st: State, items: seq<Item>)
    requires forall k :: 0 <= k < |items| ==> 0 <= items[k].wnd < TWO16
    ensures SameCongestion(st, TakeItems(m, st, items))
    ensures items != [] ==> 0 <= TakeItems(m, st, items).remoteWindow < TWO16
    ensures items == [] ==> TakeItems(m, st, items).remoteWindow == st.remoteWindow
    decreases |items|
  {
    if items != [] {
      ItemCongestion(m, st, items[0]);
      ItemsCongestion(m, TakeItem(m, st, items[0]), items[1..]);
    }
  }

  lemma {:induction false} ParsedWindows(conv: int, data: seq<byte>)
    ensures forall k :: 0 <= k < |Parse(conv, data).items| ==> 0 <= Parse(conv, data).items[k].wnd < TWO16
    ensures |data| >= HEADER && !Parse(conv, data).rejected ==> Parse(conv, data).items != []
    decreases |data|
  {
    if |data| >= HEADER {
      var r := ReadItem(conv, data);
      if r.Some? {
        ParsedWindows(conv, data[Size(r.value)..]);
      }
    }
  }

  lemma FinishCongestion(st: State, prevUna: int, latest: Option<int>, now: int)
    requires CongestionInv(st) && st.remoteWindow < TWO16
    ensures CongestionInv(FinishInput(Wire, st, prevUna, latest, now))
  {
    var s1 := st;
    if latest.Some? && TimeDiff(now, latest.value) >= 0 {
      s1 := UpdateRtt(st, TimeDiff(now, latest.value));
      assert SameCongestion(st, s1) && s1.remoteWindow == st.remoteWindow;
    }
    GrowIsExact(Congestion(s1.cwnd, s1.incr), s1.ssthresh, s1.remoteWindow, s1.cfg.Mss());
  }

  lemma InputCongestion(st: State, data: seq<byte>, now: int)
    requires CongestionInv(st)
    ensures CongestionInv(InputBytes(Wire, st, data, now))
  {
    var p := Parse(st.cfg.conv, data);
    ParsedWindows(st.cfg.conv, data);
    ItemsCongestion(Wire, st, p.items);
    if |data| >= HEADER && !p.rejected {
      FinishCongestion(TakeItems(Wire, st, p.items), st.una, LatestAck(p.items, None), now);
    }
  }

  lemma ShrinkCongestion(st: State, limit: int, lost: bool)
    requires CongestionInv(st)
    ensures CongestionInv(Shrink(st, limit, false, lost))
  {
    var mss := st.cfg.Mss();
    assert (1 + 1) * mss == mss + mss;
  }

  /** Without fast resend no segment is resent for having been skipped. */
  lemma {:induction false} NoneSkipped(cfg: Config, buf: seq<Segment>, now: int)
    ensures !cfg.noDelay ==> !AnySkipped(cfg, buf, now)
  {
    if buf != [] {
      NoneSkipped(cfg, buf[..|buf| - 1], now);
    }
  }

  lemma {:induction false} AdmitCongestion(m: Mode, st: State, limit: int)
    ensures SameCongestion(st, Admit(m, st, limit)) && Admit(m, st, limit).remoteWindow == st.remoteWindow
    decreases |st.sendQueue|
  {
    if CanAdmit(m, st, limit) {
      AdmitCongestion(m, AdmitOne(m, st), limit);
    }
  }

  lemma FlushCongestion(st: State, now: int, ackOnly: bool)
    requires CongestionInv(st)
    ensures CongestionInv(Flush(Wire, st, now, ackOnly))
  {
    if !ackOnly && (HasWork(st) || st.remoteWindow <= 0) {
      var s0 := Probe(st.(acks := []), now);
      assert SameCongestion(st, s0) && s0.remoteWindow == st.remoteWindow;
      AdmitCongestion(Wire, s0.(ask := false, tell := false), SendLimit(s0));
      var p := Prepared(Wire, st, now);
      NoneSkipped(st.cfg, p.sendBuf, now);
      var s2 := p.(sendBuf := ResendAll(p, p.sendBuf, now), dead := p.dead || AnyDead(p, p.sendBuf, now));
      ShrinkCongestion(s2, SendLimit(st), AnyLost(p.sendBuf, now));
    }
  }

  lemma ApplyCongestion(st: State, call: Call)
    requires CongestionInv(st)
    ensures CongestionInv(Apply(st, call))
  {
    match call {
      case Write(data) =>
      case Read =>
      case Flushed(now, ackOnly) => FlushCongestion(st, now, ackOnly);
      case Datagram(data, now) => InputCongestion(st, data, now);
    }
  }

  ghost predicate History(states: seq<State>, calls: seq<Call>) {
    && |states| == |calls| + 1
    && (exists cfg: Config :: cfg.Valid() && states[0] == Init(cfg))
    && forall i :: 0 <= i < |calls| ==> states[i].cfg.Mss() > 0 && states[i + 1] == Apply(states[i], calls[i])
  }

  /**
   What the congestion window is after a datagram, with unbounded integers: it grows once if something was acknowledged.
   */
  function AfterDatagram(s: State, t: State, accepted: bool): Congestion
    requires s.cfg.Mss() > 0
  {
    var c := Congestion(s.cwnd, s.incr);
    if accepted && !s.cfg.noDelay && Diff(Wire, t.una, s.una) > 0 then
      GrowExact(c, s.ssthresh, t.remoteWindow, s.cfg.Mss())
    else c
  }

  predicate Accepted(conv: int, data: seq<byte>) { |data| >= HEADER && !Parse(conv, data).rejected }

  lemma FinishGrows(st: State, prevUna: int, latest: Option<int>, now: int)
    requires CongestionInv(st) && st.remoteWindow < TWO16
    ensures var t := FinishInput(Wire, st, prevUna, latest, now);
            && t.una == st.una && t.remoteWindow == st.remoteWindow
            && Congestion(t.cwnd, t.incr) == AfterDatagram(st.(una := prevUna), t, true)
            && t.cwnd <= Max(st.cwnd, st.remoteWindow)
  {
    var s1 := st;
    if latest.Some? && TimeDiff(now, latest.value) >= 0 { s1 := UpdateRtt(st, TimeDiff(now, latest.value)); }
    assert SameCongestion(st, s1) && s1.remoteWindow == st.remoteWindow && s1.una == st.una;
    GrowIsExact(Congestion(s1.cwnd, s1.incr), s1.ssthresh, s1.remoteWindow, s1.cfg.Mss());
  }

  lemma DatagramGrows(st: State, data: seq<byte>, now: int)
    requires CongestionInv(st)
    ensures var t := InputBytes(Wire, st, data, now);
            && Congestion(t.cwnd, t.incr) == AfterDatagram(st, t, Accepted(st.cfg.conv, data))
            && t.cwnd <= Max(st.cwnd, t.remoteWindow)
  {
    var p := Parse(st.cfg.conv, data);
    ParsedWindows(st.cfg.conv, data);
    ItemsCongestion(Wire, st, p.items);
    if Accepted(st.cfg.conv, data) {
      FinishGrows(TakeItems(Wire, st, p.items), st.una, LatestAck(p.items, None), now);
    }
  }

  /**
   Over every history of writes, reads, flushes, losses and arbitrary datagrams, the byte count stays below one segment
   past the window. Every datagram that acknowledges something new grows the window by one step, computed without a wrap
   from the window that the peer has just announced and never beyond it; no other datagram changes it.
   */
  lemma {:induction false} CongestionExact(states: seq<State>, calls: seq<Call>, i: int)
    requires History(states, calls) && 0 <= i < |states|
    ensures CongestionInv(states[i])
    ensures i < |calls| && calls[i].Datagram? ==>
              var s, t := states[i], states[i + 1];
              && Congestion(t.cwnd, t.incr) == AfterDatagram(s, t, Accepted(s.cfg.conv, calls[i].data))
              && t.cwnd <= Max(s.cwnd, t.remoteWindow)
  {
    if i > 0 {
      CongestionExact(states, calls, i - 1);
      ApplyCongestion(states[i - 1], calls[i - 1]);
    }
    if i < |calls| && calls[i].Datagram? { DatagramGrows(states[i], calls[i].data, calls[i].now); }
  }

  // ---------------------------------------------------------------- the round-trip estimate

  /**
   The estimate as it would be with unbounded integers: an eighth of the way to the sample, a quarter for the variance.
   */
  function SmoothExact(r: Rtt, rtt: int): Rtt {
    if r.smoothed == 0 then Rtt(rtt, rtt / 2)
    else
      Rtt(Max((7 * r.smoothed + rtt) / 8, 1), (3 * r.variance + Distance(rtt, r.smoothed)) / 4)
  }

  function Distance(x: int, y: int): int { if x < y then y - x else x - y }

  /**
   For every sample that the clock can give, the 32-bit estimate is the exact one if and only if neither weighted sum
   passes 2^31: always for the first sample.
   */
  lemma EstimateExact(r: Rtt, rtt: int)
    requires 0 <= r.smoothed < TWO31 && 0 <= r.variance < TWO31 && 0 <= rtt < TWO31
    ensures SmoothRtt(r, rtt) == SmoothExact(r, rtt) <==>
            r.smoothed == 0 || (7 * r.smoothed + rtt < TWO31 && 3 * r.variance + Distance(rtt, r.smoothed) < TWO31)
  {
    if r.smoothed != 0 {
      var d := rtt - r.smoothed;
      assert S32(d) == d;
      QuotientWraps(7 * r.smoothed + rtt, 8);
      QuotientWraps(3 * r.variance + Distance(rtt, r.smoothed), 4);
    }
  }

  /** A sum that wraps has another quotient. */
  lemma QuotientWraps(x: int, d: int)
    requires x >= 0 && (d == 4 || d == 8)
    ensures QuotTrunc(S32(x), d) == x / d <==> x < TWO31
    ensures x >= TWO31 ==> QuotTrunc(S32(x), d) < x / d && x / d > 1
  {
  }

  /**
   The timeout is the smoothed time plus four times the variance or the interval, within its bounds, without a wrap.
   */
  lemma TimeoutExact(cfg: Config, r: Rtt)
    requires cfg.Valid()
    ensures cfg.MinRto() <= Timeout(cfg, r) <= RTO_MAX
    ensures 0 <= r.smoothed < TWO31 && 0 <= r.variance && 4 * r.variance < TWO31 ==>
              Timeout(cfg, r) == Min(Max(r.smoothed + Max(cfg.interval, 4 * r.variance), cfg.MinRto()), RTO_MAX)
  {
  }

  const RTT_LIMIT: int := 0x1000_0000

  function SmoothAll(samples: seq<int>): Rtt {
    if samples == [] then Rtt(0, 0) else SmoothRtt(SmoothAll(samples[..|samples| - 1]), samples[|samples| - 1])
  }

  function SmoothAllExact(samples: seq<int>): Rtt {
    if samples == [] then Rtt(0, 0) else SmoothExact(SmoothAllExact(samples[..|samples| - 1]), samples[|samples| - 1])
  }

  /** As long as no sample reaches 2^28 milliseconds, three days, the estimate is exact after any number of them. */
  lemma {:induction false} EstimatesExact(samples: seq<int>)
    requires forall k :: 0 <= k < |samples| ==> 0 <= samples[k] < RTT_LIMIT
    ensures SmoothAll(samples) == SmoothAllExact(samples)
    ensures 0 <= SmoothAll(samples).smoothed < RTT_LIMIT && 0 <= SmoothAll(samples).variance < RTT_LIMIT
  {
    if samples != [] {
      var before := samples[..|samples| - 1];
      EstimatesExact(before);
      EstimateExact(SmoothAll(before), samples[|samples| - 1]);
    }
  }
}
