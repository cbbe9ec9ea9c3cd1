/** The steps that hand a worker over, and the theorem that no wakeup is lost. */
module PoolWakeup {
  import opened Wrappers
  import opened PoolModel
  import opened PoolInvariant
  import opened PoolSteps

  // ---------------------------------------------------------------- the starving flag

  /** When every shard is full there is a worker, and it is suspended or has yet to look at the flag. */
  lemma SomeoneClears(p: Pool)
    requires Shape(p) && AllFull(p) && Numbered(p) && Tokens(p.agents)
    ensures IdleAhead(p.agents, 0, 0) || exists j :: 0 <= j < |p.agents| && WillCheck(p.agents[j])
  {
    assert ShardOk(p.shards[0]) && Full(p, 0);
    assert Sum(TokenAt(0, 0), p.agents) == 1;
    var j := SumPositive(TokenAt(0, 0), p.agents);
    if p.agents[j].role == Worker(0, 0) && !WillCheck(p.agents[j]) {
      if p.agents[j].idle {
        assert Ahead(p.agents[j].role, 0, 0);
      } else {
        var i := SumPositive(SendsTo(j), p.agents);
        assert WillCheck(p.agents[i]);
      }
    }
  }

  lemma StarvingSet(p: Pool, a: nat, s: nat, k: Kont)
    requires Inv(p) && a < |p.agents| && p.agents[a].pc == FailStarving(s, k)
    ensures Inv(ToStarving(p, a, SeekShard(0, k), true))
  {
    InvKnown(p, a);
    LocalCounts(p, a, SeekShard(0, k), true);
    SomeoneClears(p);
    StarvingCovered(p, a, s, k);
  }

  lemma StarvingCovered(p: Pool, a: nat, s: nat, k: Kont)
    requires a < |p.agents| && p.agents[a].pc == FailStarving(s, k)
    requires IdleAhead(p.agents, 0, 0) || exists j :: 0 <= j < |p.agents| && WillCheck(p.agents[j])
    ensures Covered(ToStarving(p, a, SeekShard(0, k), true))
  {
    var q := ToStarving(p, a, SeekShard(0, k), true);
    if IdleAhead(p.agents, 0, 0) {
      ScansStay(p.agents, a, q.agents[a], SeekShard(0, k));
      assert Clears(q.agents, q.agents[a]);
    } else {
      var j :| 0 <= j < |p.agents| && WillCheck(p.agents[j]);
      assert Clears(q.agents, q.agents[j]);
    }
  }

  /** Whoever clears the flag notifies every shard. */
  lemma StarvingCleared(p: Pool, a: nat, k: Kont)
    requires Inv(p) && a < |p.agents|
    requires p.agents[a].pc == SeekClear(k) || (p.agents[a].pc.ClearStarving? && k == Rest)
    ensures Inv(ToStarving(p, a, Resume(Sweep(0, k), |p.shards|), false))
  {
    var n := |p.shards|;
    var pc := Resume(Sweep(0, k), n);
    var q := ToStarving(p, a, pc, false);
    InvKnown(p, a);
    assert pc == Ask(0, Sweep(1, k));
    LocalCounts(p, a, pc, false);
    SweepAwake(q, a, k);
  }

  /** An agent about to notify every shard is in charge of all of them. */
  lemma SweepAwake(q: Pool, a: nat, k: Kont)
    requires a < |q.agents| && q.agents[a].pc == Ask(0, Sweep(1, k))
    ensures Awake(q)
  {
    forall s | 0 <= s < |q.shards| ensures InCharge(q.agents, s, q.shards[s].head) {
      assert s == 0 || KontAnswers(Sweep(1, k), q.agents[a].role, s);
      assert Answers(q.agents[a], s, q.shards[s].head);
    }
  }

  // ---------------------------------------------------------------- suspending and waking up

  lemma Registered(p: Pool, a: nat, t: nat)
    requires Inv(p) && a < |p.agents| && p.agents[a].pc == Register(t)
    ensures Inv(To(SetBit(p, a, true), a, Leave(t)))
  {
    var me := p.agents[a];
    var q := To(SetBit(p, a, true), a, Leave(t));
    var b := me.(pc := Leave(t), idle := true);
    assert q == p.(agents := p.agents[a := b]);
    TokenOnce(p.agents, a);
    InvKnown(p, a);
    Changed(p, a, b);
  }

  lemma Received(p: Pool, a: nat, t: nat)
    requires Inv(p) && a < |p.agents| && p.agents[a].pc == Suspended && p.agents[a].inbox == Some(t)
    ensures Inv(To(SetInbox(p, a, None), a, Arrive(t)))
  {
    var me := p.agents[a];
    var q := To(SetInbox(p, a, None), a, Arrive(t));
    var b := me.(pc := Arrive(t), inbox := None);
    assert q == p.(agents := p.agents[a := b]);
    InvKnown(p, a);
    Changed(p, a, b);
  }

  /** A running worker has neither its bit set nor a message. */
  lemma TokenOnce(agents: seq<Agent>, a: nat)
    requires Tokens(agents) && a < |agents| && Serving(agents[a].role, agents[a].pc).Some?
    ensures !agents[a].idle && agents[a].inbox.None? && Sum(SendsTo(a), agents) == 0
  {
  }

  /** One agent changes and holds what it held before. */
  lemma Changed(p: Pool, a: nat, b: Agent)
    requires Inv(p) && Known(p, a) && b.role == p.agents[a].role && AgentOk(p, b)
    requires Plain(p.agents[a].pc) && Plain(b.pc) && Own(b) == Own(p.agents[a]) && (p.agents[a].idle ==> b.idle)
    requires forall s :: Weight(WakingOf(s), b) == Weight(WakingOf(s), p.agents[a])
    requires forall s :: Weight(ServingOf(s), b) == Weight(ServingOf(s), p.agents[a])
    requires forall s :: 0 <= s < |p.shards| && Answers(p.agents[a], s, p.shards[s].head) ==>
               Answers(b, s, p.shards[s].head)
    requires Clears(p.agents, p.agents[a]) ==> Clears(p.agents, b)
    requires !p.agents[a].pc.Store?
    ensures Inv(p.(agents := p.agents[a := b]))
  {
    var q := p.(agents := p.agents[a := b]);
    assert Grows(p, q) && Only(p, q, a);
    AgentStays(p, q, b);
    AgentsStay(p, q, a);
    CountersStay(p, q, a);
    NumberedStays(p, q, a);
    TokensStay(p.agents, a, b);
    ClaimedStays(p, q, a);
    AwakeStays(p, q, a);
    CoveredStays(p, q, a);
  }

  // ---------------------------------------------------------------- taking a suspended worker

  /** The pool with the bit of worker `w` cleared. */
  lemma BitCleared(p: Pool, w: nat)
    requires Inv(p) && w < |p.agents| && p.agents[w].idle
    ensures var q := SetBit(p, w, false);
            Shape(q) && AgentsOk(q) && Counters(q) && Numbered(q) && Claimed(q) && Awake(q)
  {
    var q := SetBit(p, w, false);
    var b := p.agents[w].(idle := false);
    InvKnown(p, w);
    assert Grows(p, q) && Only(p, q, w);
    AgentStays(p, q, b);
    AgentsStay(p, q, w);
    CountersStay(p, q, w);
    BitNumbered(p, w);
    BitClaimed(p, w);
    AwakeStays(p, q, w);
  }

  lemma BitNumbered(p: Pool, w: nat)
    requires Numbered(p) && w < |p.agents|
    ensures Numbered(SetBit(p, w, false))
  {
    var q := SetBit(p, w, false);
    forall i, id | 0 <= i < |q.shards| && 0 <= id
      ensures Sum(TokenAt(i, id), q.agents) == if id < q.shards[i].live then 1 else 0
    {
      SumSame(TokenAt(i, id), p.agents, q.agents);
    }
  }

  lemma BitClaimed(p: Pool, w: nat)
    requires Claimed(p) && w < |p.agents|
    ensures Claimed(SetBit(p, w, false))
  {
    var q := SetBit(p, w, false);
    forall s, pos | 0 <= s < |q.shards| && 0 <= pos < |q.shards[s].written| && !q.shards[s].written[pos]
      ensures exists j :: 0 <= j < |q.agents| && q.agents[j].pc == Store(s, pos)
    {
      var j :| 0 <= j < |p.agents| && p.agents[j].pc == Store(s, pos);
      assert q.agents[j].pc == Store(s, pos);
    }
  }

  lemma TakenOwn(agents: seq<Agent>, a: nat, w: nat, s: nat)
    requires a < |agents| && w < |agents| && agents[w].idle && agents[a].pc.TakeBit?
    ensures var mid := agents[w := agents[w].(idle := false)];
            var next := mid[a := mid[a].(pc := Send(s, w, agents[a].pc.k))];
            forall v :: 0 <= v < |agents| ==>
                next[v].role == agents[v].role && Own(next[v]) + B(v == w) == Own(agents[v])
  {
  }

  lemma TakenTokens(agents: seq<Agent>, a: nat, w: nat, s: nat)
    requires Tokens(agents) && a < |agents| && w < |agents| && agents[w].idle && agents[a].pc.TakeBit?
    ensures var mid := agents[w := agents[w].(idle := false)];
            Tokens(mid[a := mid[a].(pc := Send(s, w, agents[a].pc.k))])
  {
    var mid := agents[w := agents[w].(idle := false)];
    var next := mid[a := mid[a].(pc := Send(s, w, agents[a].pc.k))];
    TakenOwn(agents, a, w, s);
    forall v | 0 <= v < |next| ensures Sum(SendsTo(v), next) == Sum(SendsTo(v), agents) + B(v == w) {
      SumSame(SendsTo(v), agents, mid);
      SumUpdate(SendsTo(v), mid, a, next[a]);
    }
  }

  lemma BitTaken(p: Pool, a: nat, w: nat)
    requires Inv(p) && a < |p.agents| && w < |p.agents| && p.agents[a].pc.TakeBit?
    requires p.agents[w].idle && p.agents[w].role.Worker?
    ensures Inv(To(SetBit(p, w, false), a, Send(p.agents[a].pc.s, w, p.agents[a].pc.k)))
  {
    var s, k := p.agents[a].pc.s, p.agents[a].pc.k;
    InvKnown(p, a);
    BitCleared(p, w);
    TakenTokens(p.agents, a, w, s);
    SendReady(SetBit(p, w, false), a, w);
  }

  /** The taker turns to the worker's channel. */
  lemma SendReady(p: Pool, a: nat, w: nat)
    requires Shape(p) && AgentsOk(p) && Counters(p) && Numbered(p) && Claimed(p) && Awake(p)
    requires a < |p.agents| && w < |p.agents| && p.agents[a].pc.TakeBit? && p.agents[w].role.Worker?
    requires Tokens(To(p, a, Send(p.agents[a].pc.s, w, p.agents[a].pc.k)).agents)
    ensures Inv(To(p, a, Send(p.agents[a].pc.s, w, p.agents[a].pc.k)))
  {
    var q := To(p, a, Send(p.agents[a].pc.s, w, p.agents[a].pc.k));
    SendAgents(p, a, w);
    SendCounts(p, a, w);
    ClaimedStays(p, q, a);
    AwakeStays(p, q, a);
    assert Clears(q.agents, q.agents[a]);
  }

  lemma SendAgents(p: Pool, a: nat, w: nat)
    requires Shape(p) && AgentsOk(p)
    requires a < |p.agents| && w < |p.agents| && p.agents[a].pc.TakeBit? && p.agents[w].role.Worker?
    ensures AgentsOk(To(p, a, Send(p.agents[a].pc.s, w, p.agents[a].pc.k)))
  {
    var pc := Send(p.agents[a].pc.s, w, p.agents[a].pc.k);
    var q := To(p, a, pc);
    GrowsTo(p, a, pc, p.starving);
    assert q == ToStarving(p, a, pc, p.starving);
    AgentStays(p, q, q.agents[a]);
    AgentsStay(p, q, a);
  }

  lemma SendCounts(p: Pool, a: nat, w: nat)
    requires Counters(p) && Numbered(p) && a < |p.agents| && p.agents[a].pc.TakeBit?
    ensures var q := To(p, a, Send(p.agents[a].pc.s, w, p.agents[a].pc.k)); Counters(q) && Numbered(q)
  {
    var next := To(p, a, Send(p.agents[a].pc.s, w, p.agents[a].pc.k)).agents;
    forall m: Measure | !m.SendsTo? ensures Sum(m, next) == Sum(m, p.agents) {
      assert forall j :: 0 <= j < |p.agents| ==> Weight(m, p.agents[j]) == Weight(m, next[j]);
      SumSame(m, p.agents, next);
    }
    SumsKeep(p, next);
  }

  // ---------------------------------------------------------------- waking it

  /** The channel of a worker that is being woken is empty: the send never blocks. */
  lemma SendNeverBlocks(p: Pool, a: nat)
    requires Inv(p) && a < |p.agents| && p.agents[a].pc.Send?
    ensures var w := p.agents[a].pc.worker;
            w < |p.agents| && p.agents[w].role.Worker? && !p.agents[w].idle && p.agents[w].inbox.None?
            && Serving(p.agents[w].role, p.agents[w].pc).None?
  {
    var w := p.agents[a].pc.worker;
    assert AgentOk(p, p.agents[a]);
    SumAtLeast(SendsTo(w), p.agents, a);
  }

  /** The agents after `a` has sent worker `w` the shard `s`. */
  function Sent(agents: seq<Agent>, a: nat, n: nat): seq<Agent>
    requires a < |agents| && agents[a].pc.Send? && agents[a].pc.worker < |agents|
  {
    var Send(s, w, k) := agents[a].pc;
    var back := agents[a := agents[a].(pc := Resume(k, n))];
    back[w := back[w].(inbox := Some(s))]
  }

  lemma SentSum(p: Pool, a: nat, m: Measure)
    requires a < |p.agents| && AgentOk(p, p.agents[a]) && p.agents[a].pc.Send? && p.agents[a].pc.worker < |p.agents|
    requires p.agents[p.agents[a].pc.worker].inbox.None?
    ensures Sum(m, Sent(p.agents, a, |p.shards|)) ==
            Sum(m, p.agents) - B(m.SendsTo? && m.worker == p.agents[a].pc.worker)
  {
    var n := |p.shards|;
    var Send(s, w, k) := p.agents[a].pc;
    assert AgentOk(p, p.agents[a]);
    ResumeKeeps(p, k, p.agents[a].role, n);
    var back := p.agents[a := p.agents[a].(pc := Resume(k, n))];
    SumUpdate(m, p.agents, a, back[a]);
    SumUpdate(m, back, w, back[w].(inbox := Some(s)));
    SentWeights(p.agents[a], s, w, k, n, m);
    InboxWeight(back[w], s, m);
  }

  lemma InboxWeight(b: Agent, s: nat, m: Measure)
    requires b.inbox.None?
    ensures Weight(m, b.(inbox := Some(s))) == Weight(m, b) + B(m == WakingOf(s) || m == ServingOf(s))
  {
  }

  lemma SentWeights(me: Agent, s: nat, w: nat, k: Kont, n: nat, m: Measure)
    requires me.pc == Send(s, w, k)
    requires var pc := Resume(k, n);
             WakingHeld(pc) == None && ServingHeld(pc) == None && !pc.Leave? && !pc.Spawn? && !pc.Send?
                                     && Serving(me.role, pc) == Served(k)
    ensures Weight(m, me) == Weight(m, me.(pc := Resume(k, n)))
                             + B(m == WakingOf(s) || m == ServingOf(s)) + B(m.SendsTo? && m.worker == w)
  {
  }

  lemma SentCounts(p: Pool, a: nat)
    requires Counters(p) && Numbered(p) && a < |p.agents| && AgentOk(p, p.agents[a]) && p.agents[a].pc.Send?
             && p.agents[a].pc.worker < |p.agents|
    requires p.agents[p.agents[a].pc.worker].inbox.None?
    ensures var q := p.(agents := Sent(p.agents, a, |p.shards|)); Counters(q) && Numbered(q)
  {
    var next := Sent(p.agents, a, |p.shards|);
    forall m: Measure | !m.SendsTo? ensures Sum(m, next) == Sum(m, p.agents) { SentSum(p, a, m); }
    SumsKeep(p, next);
  }

  lemma SentTokens(p: Pool, a: nat)
    requires Tokens(p.agents) && a < |p.agents| && AgentOk(p, p.agents[a]) && p.agents[a].pc.Send?
             && p.agents[a].pc.worker < |p.agents|
    requires p.agents[p.agents[a].pc.worker].inbox.None?
    ensures Tokens(Sent(p.agents, a, |p.shards|))
  {
    var next := Sent(p.agents, a, |p.shards|);
    var w := p.agents[a].pc.worker;
    assert AgentOk(p, p.agents[a]);
    ResumeKeeps(p, p.agents[a].pc.k, p.agents[a].role, |p.shards|);
    forall v | 0 <= v < |next|
      ensures Own(next[v]) == Own(p.agents[v]) + B(v == w)
              && Sum(SendsTo(v), next) == Sum(SendsTo(v), p.agents) - B(v == w)
    {
      SentSum(p, a, SendsTo(v));
    }
  }

  lemma SentAgents(p: Pool, a: nat)
    requires Shape(p) && AgentsOk(p) && a < |p.agents| && AgentOk(p, p.agents[a]) && p.agents[a].pc.Send?
             && p.agents[a].pc.worker < |p.agents|
    ensures AgentsOk(p.(agents := Sent(p.agents, a, |p.shards|)))
  {
    var q := p.(agents := Sent(p.agents, a, |p.shards|));
    assert AgentOk(p, p.agents[a]);
    ResumeKeeps(p, p.agents[a].pc.k, p.agents[a].role, |p.shards|);
    assert Grows(p, q);
    forall j | 0 <= j < |q.agents| ensures AgentOk(q, q.agents[j]) {
      assert AgentOk(p, p.agents[j]);
      AgentStays(p, q, q.agents[j]);
    }
  }

  lemma SentAwake(p: Pool, a: nat)
    requires Awake(p) && a < |p.agents| && AgentOk(p, p.agents[a]) && p.agents[a].pc.Send?
             && p.agents[a].pc.worker < |p.agents|
    requires p.agents[p.agents[a].pc.worker].inbox.None?
    ensures Awake(p.(agents := Sent(p.agents, a, |p.shards|)))
  {
    var q := p.(agents := Sent(p.agents, a, |p.shards|));
    var Send(t, w, k) := p.agents[a].pc;
    if !q.goexit && !q.starving {
      forall s | 0 <= s < |q.shards| && q.shards[s].Available() ensures InCharge(q.agents, s, q.shards[s].head) {
        var head := q.shards[s].head;
        var j :| 0 <= j < |p.agents| && Answers(p.agents[j], s, head);
        if j == a && KontAnswers(k, p.agents[a].role, s) { ResumeAnswers(k, p.agents[a].role, |p.shards|, s, head); }
        assert Answers(q.agents[if j == a && t == s then w else j], s, head);
      }
    }
  }

  lemma SentClaimed(p: Pool, a: nat)
    requires Claimed(p) && a < |p.agents| && p.agents[a].pc.Send? && p.agents[a].pc.worker < |p.agents|
    ensures Claimed(p.(agents := Sent(p.agents, a, |p.shards|)))
  {
    var q := p.(agents := Sent(p.agents, a, |p.shards|));
    forall s, pos | 0 <= s < |q.shards| && 0 <= pos < |q.shards[s].written| && !q.shards[s].written[pos]
      ensures exists j :: 0 <= j < |q.agents| && q.agents[j].pc == Store(s, pos)
    {
      var j :| 0 <= j < |p.agents| && p.agents[j].pc == Store(s, pos);
      assert q.agents[j].pc == Store(s, pos);
    }
  }

  lemma Woken(p: Pool, a: nat)
    requires Inv(p) && a < |p.agents| && p.agents[a].pc.Send? && p.agents[a].pc.worker < |p.agents|
    ensures Inv(p.(agents := Sent(p.agents, a, |p.shards|)))
  {
    SendNeverBlocks(p, a);
    SentCounts(p, a);
    SentTokens(p, a);
    SentAgents(p, a);
    SentAwake(p, a);
    SentClaimed(p, a);
    var next := Sent(p.agents, a, |p.shards|);
    assert Clears(next, next[p.agents[a].pc.worker]);
  }

  // ---------------------------------------------------------------- starting a worker

  /** The pool after the number of a new worker has been taken. */
  function Numbering(p: Pool, a: nat): Pool
    requires a < |p.agents| && p.agents[a].pc.StartCas? && p.agents[a].pc.s < |p.shards|
  {
    var StartCas(s, h, live, k) := p.agents[a].pc;
    var i := HuntShard(h, s, |p.shards|);
    ToWith(p, a, Spawn(s, i, live, k), i, p.shards[i].(live := live + 1))
  }

  ghost predicate CanNumber(p: Pool, a: nat) {
    && a < |p.agents| && p.agents[a].pc.StartCas? && p.agents[a].pc.s < |p.shards|
    && var sh := p.shards[HuntShard(p.agents[a].pc.h, p.agents[a].pc.s, |p.shards|)];
       p.agents[a].pc.live == sh.live < sh.max
  }

  lemma NumberGrows(p: Pool, a: nat)
    requires CanNumber(p, a) && Shape(p)
    ensures var q := Numbering(p, a); Shape(q) && Grows(p, q) && Only(p, q, a)
  {
  }

  lemma NumberAgents(p: Pool, a: nat)
    requires CanNumber(p, a) && Shape(p) && AgentsOk(p)
    ensures AgentsOk(Numbering(p, a))
  {
    var q := Numbering(p, a);
    NumberGrows(p, a);
    assert AgentOk(p, p.agents[a]);
    AgentRoleStays(p, q, a);
    AgentsStay(p, q, a);
  }

  lemma NumberCounts(p: Pool, a: nat)
    requires CanNumber(p, a) && Counters(p)
    ensures Counters(Numbering(p, a))
  {
    CountersStay(p, Numbering(p, a), a);
  }

  lemma NumberTokens(p: Pool, a: nat)
    requires CanNumber(p, a) && Tokens(p.agents)
    ensures Tokens(Numbering(p, a).agents)
  {
    TokensStay(p.agents, a, Numbering(p, a).agents[a]);
  }

  lemma NumberNumbered(p: Pool, a: nat)
    requires CanNumber(p, a) && Numbered(p)
    ensures Numbered(Numbering(p, a))
  {
    var q := Numbering(p, a);
    forall i, id | 0 <= i < |q.shards| && 0 <= id
      ensures Sum(TokenAt(i, id), q.agents) == if id < q.shards[i].live then 1 else 0
    {
      SumUpdate(TokenAt(i, id), p.agents, a, q.agents[a]);
    }
  }

  lemma NumberTaken(p: Pool, a: nat)
    requires Inv(p) && CanNumber(p, a)
    ensures Inv(Numbering(p, a))
  {
    var q := Numbering(p, a);
    NumberGrows(p, a);
    NumberAgents(p, a);
    NumberCounts(p, a);
    NumberTokens(p, a);
    NumberNumbered(p, a);
    ClaimedStays(p, q, a);
    AwakeStays(p, q, a);
    assert Clears(q.agents, q.agents[a]);
  }

  /** Nobody sends to a worker that does not exist yet. */
  lemma {:induction false} NoSends(agents: seq<Agent>, w: nat)
    requires forall j :: 0 <= j < |agents| && agents[j].pc.Send? ==> agents[j].pc.worker < w
    ensures Sum(SendsTo(w), agents) == 0
  {
    if agents != [] { NoSends(agents[..|agents| - 1], w); }
  }

  lemma SendsInside(p: Pool)
    requires AgentsOk(p)
    ensures Sum(SendsTo(|p.agents|), p.agents) == 0
  {
    forall j | 0 <= j < |p.agents| && p.agents[j].pc.Send? ensures p.agents[j].pc.worker < |p.agents| {
      assert AgentOk(p, p.agents[j]);
    }
    NoSends(p.agents, |p.agents|);
  }

  /** The agents after the new worker has been started. */
  function Started(agents: seq<Agent>, a: nat, n: nat): seq<Agent>
    requires a < |agents| && agents[a].pc.Spawn?
  {
    var Spawn(s, i, id, k) := agents[a].pc;
    agents[a := agents[a].(pc := Resume(k, n))] + [Agent(Worker(i, id), Arrive(s), false, None)]
  }

  ghost predicate CanStart(p: Pool, a: nat) { a < |p.agents| && AgentOk(p, p.agents[a]) && p.agents[a].pc.Spawn? }

  lemma StartWeights(me: Agent, s: nat, i: nat, id: nat, k: Kont, n: nat, m: Measure)
    requires me.pc == Spawn(s, i, id, k)
    requires var pc := Resume(k, n);
             WakingHeld(pc) == None && ServingHeld(pc) == None && !pc.Leave? && !pc.Spawn? && !pc.Send?
                                     && Serving(me.role, pc) == Served(k)
    ensures Weight(m, me)
            == Weight(m, me.(pc := Resume(k, n))) + Weight(m, Agent(Worker(i, id), Arrive(s), false, None))
  {
  }

  lemma StartSum(p: Pool, a: nat, m: Measure)
    requires CanStart(p, a)
    ensures Sum(m, Started(p.agents, a, |p.shards|)) == Sum(m, p.agents)
  {
    var n := |p.shards|;
    var Spawn(s, i, id, k) := p.agents[a].pc;
    ResumeKeeps(p, k, p.agents[a].role, n);
    var back := p.agents[a := p.agents[a].(pc := Resume(k, n))];
    SumUpdate(m, p.agents, a, back[a]);
    SumJoin(m, back, Agent(Worker(i, id), Arrive(s), false, None));
    StartWeights(p.agents[a], s, i, id, k, n, m);
  }

  lemma StartCounts(p: Pool, a: nat)
    requires CanStart(p, a) && Counters(p) && Numbered(p)
    ensures var q := p.(agents := Started(p.agents, a, |p.shards|)); Counters(q) && Numbered(q)
  {
    var next := Started(p.agents, a, |p.shards|);
    forall m: Measure | !m.SendsTo? ensures Sum(m, next) == Sum(m, p.agents) { StartSum(p, a, m); }
    SumsKeep(p, next);
  }

  lemma StartTokens(p: Pool, a: nat)
    requires CanStart(p, a) && Tokens(p.agents) && Sum(SendsTo(|p.agents|), p.agents) == 0
    ensures Tokens(Started(p.agents, a, |p.shards|))
  {
    var next := Started(p.agents, a, |p.shards|);
    ResumeKeeps(p, p.agents[a].pc.k, p.agents[a].role, |p.shards|);
    StartOwn(p, a);
    forall v | 0 <= v < |next|
      ensures Own(next[v]) + Sum(SendsTo(v), next) == if next[v].role.Worker? then 1 else 0
    {
      StartSum(p, a, SendsTo(v));
      if v == |p.agents| { assert Own(next[v]) == 1 && next[v].role.Worker?; }
    }
  }

  lemma StartOwn(p: Pool, a: nat)
    requires CanStart(p, a)
    ensures var next := Started(p.agents, a, |p.shards|);
            forall v :: 0 <= v < |p.agents| ==> next[v].role == p.agents[v].role && Own(next[v]) == Own(p.agents[v])
  {
    ResumeKeeps(p, p.agents[a].pc.k, p.agents[a].role, |p.shards|);
  }

  lemma StartAgents(p: Pool, a: nat)
    requires CanStart(p, a) && Shape(p) && AgentsOk(p)
    ensures AgentsOk(p.(agents := Started(p.agents, a, |p.shards|)))
  {
    var n := |p.shards|;
    var q := p.(agents := Started(p.agents, a, n));
    var b := p.agents[a].(pc := Resume(p.agents[a].pc.k, n));
    ResumeOk(p, a);
    StartGrows(p, a);
    forall j | 0 <= j < |p.agents| ensures AgentOk(q, q.agents[j]) {
      AgentStays(p, q, if j == a then b else p.agents[j]);
    }
  }

  lemma ResumeOk(p: Pool, a: nat)
    requires CanStart(p, a) && Shape(p) && AgentsOk(p)
    ensures AgentOk(p, p.agents[a].(pc := Resume(p.agents[a].pc.k, |p.shards|)))
  {
    ResumeKeeps(p, p.agents[a].pc.k, p.agents[a].role, |p.shards|);
  }

  lemma StartGrows(p: Pool, a: nat)
    requires CanStart(p, a)
    ensures Grows(p, p.(agents := Started(p.agents, a, |p.shards|)))
  {
  }

  lemma StartAwake(p: Pool, a: nat)
    requires CanStart(p, a) && Awake(p)
    ensures Awake(p.(agents := Started(p.agents, a, |p.shards|)))
  {
    var q := p.(agents := Started(p.agents, a, |p.shards|));
    if !q.goexit && !q.starving {
      forall s | 0 <= s < |q.shards| && q.shards[s].Available() ensures InCharge(q.agents, s, q.shards[s].head) {
        StartInCharge(p, a, s, q.shards[s].head);
      }
    }
  }

  lemma StartInCharge(p: Pool, a: nat, s: nat, head: nat)
    requires CanStart(p, a) && InCharge(p.agents, s, head) && s < |p.shards|
    ensures InCharge(Started(p.agents, a, |p.shards|), s, head)
  {
    var Spawn(t, i, id, k) := p.agents[a].pc;
    var next := Started(p.agents, a, |p.shards|);
    var j :| 0 <= j < |p.agents| && Answers(p.agents[j], s, head);
    if j == a && KontAnswers(k, p.agents[a].role, s) { ResumeAnswers(k, p.agents[a].role, |p.shards|, s, head); }
    assert Answers(next[if j == a && t == s then |p.agents| else j], s, head);
  }

  lemma StartClaimed(p: Pool, a: nat)
    requires CanStart(p, a) && Claimed(p)
    ensures Claimed(p.(agents := Started(p.agents, a, |p.shards|)))
  {
    var q := p.(agents := Started(p.agents, a, |p.shards|));
    forall s, pos | 0 <= s < |q.shards| && 0 <= pos < |q.shards[s].written| && !q.shards[s].written[pos]
      ensures exists j :: 0 <= j < |q.agents| && q.agents[j].pc == Store(s, pos)
    {
      var j :| 0 <= j < |p.agents| && p.agents[j].pc == Store(s, pos);
      assert q.agents[j].pc == Store(s, pos);
    }
  }

  lemma WorkerStarted(p: Pool, a: nat)
    requires Inv(p) && CanStart(p, a)
    ensures Inv(p.(agents := Started(p.agents, a, |p.shards|)))
  {
    StartCounts(p, a);
    SendsInside(p);
    StartTokens(p, a);
    StartAgents(p, a);
    StartAwake(p, a);
    StartClaimed(p, a);
    var next := Started(p.agents, a, |p.shards|);
    assert Clears(next, next[|p.agents|]);
  }

  // ---------------------------------------------------------------- new callers

  predicate Newcomer(b: Agent) {
    b.role == Outside && (b.pc.Claim? || b.pc.BoostServing?) && !b.idle && b.inbox == None
  }

  lemma ArrivalCounts(p: Pool, b: Agent)
    requires Counters(p) && Numbered(p) && Newcomer(b)
    ensures Counters(Join(p, b)) && Numbered(Join(p, b))
  {
    var next := p.agents + [b];
    forall m: Measure | !m.SendsTo? ensures Sum(m, next) == Sum(m, p.agents) { NewcomerSum(m, p.agents, b); }
    SumsKeep(p, next);
  }

  lemma NewcomerSum(m: Measure, agents: seq<Agent>, b: Agent)
    requires Newcomer(b)
    ensures Sum(m, agents + [b]) == Sum(m, agents)
  {
    SumJoin(m, agents, b);
  }

  lemma SumsKeep(p: Pool, next: seq<Agent>)
    requires Counters(p) && Numbered(p) && forall m: Measure :: !m.SendsTo? ==> Sum(m, next) == Sum(m, p.agents)
    ensures Counters(p.(agents := next)) && Numbered(p.(agents := next))
  {
  }

  lemma ArrivalToken(agents: seq<Agent>, b: Agent, w: nat)
    requires w <= |agents| && Newcomer(b)
    requires Own(if w < |agents| then agents[w] else b) + Sum(SendsTo(w), agents)
          == if w < |agents| && agents[w].role.Worker? then 1 else 0
    ensures Own((agents + [b])[w]) + Sum(SendsTo(w), agents + [b]) == if (agents + [b])[w].role.Worker? then 1 else 0
  {
    SumJoin(SendsTo(w), agents, b);
  }

  lemma ArrivalTokens(agents: seq<Agent>, b: Agent)
    requires Tokens(agents) && Newcomer(b) && Sum(SendsTo(|agents|), agents) == 0
    ensures Tokens(agents + [b])
  {
    forall w | 0 <= w < |agents + [b]|
      ensures Own((agents + [b])[w]) + Sum(SendsTo(w), agents + [b]) == if (agents + [b])[w].role.Worker? then 1 else 0
    {
      ArrivalToken(agents, b, w);
    }
  }

  lemma ArrivalAwake(p: Pool, b: Agent)
    requires Awake(p) && Claimed(p)
    ensures Awake(Join(p, b)) && Claimed(Join(p, b))
  {
    var q := Join(p, b);
    forall s | 0 <= s < |q.shards| && InCharge(p.agents, s, q.shards[s].head)
      ensures InCharge(q.agents, s, q.shards[s].head)
    {
      var j :| 0 <= j < |p.agents| && Answers(p.agents[j], s, q.shards[s].head);
      assert Answers(q.agents[j], s, q.shards[s].head);
    }
    forall s, pos | 0 <= s < |q.shards| && 0 <= pos < |q.shards[s].written| && !q.shards[s].written[pos]
      ensures exists j :: 0 <= j < |q.agents| && q.agents[j].pc == Store(s, pos)
    {
      var j :| 0 <= j < |p.agents| && p.agents[j].pc == Store(s, pos);
      assert q.agents[j].pc == Store(s, pos);
    }
  }

  lemma ArrivalKeeps(p: Pool, b: Agent)
    requires Inv(p) && Newcomer(b) && b.pc.s < |p.shards|
    ensures Inv(Join(p, b))
  {
    ArrivalCounts(p, b);
    SendsInside(p);
    ArrivalTokens(p.agents, b);
    ArrivalAgents(p, b);
    ArrivalClears(p, b);
    ArrivalAwake(p, b);
  }

  lemma ArrivalAgents(p: Pool, b: Agent)
    requires Shape(p) && AgentsOk(p) && Newcomer(b) && b.pc.s < |p.shards|
    ensures AgentsOk(Join(p, b))
  {
    var q := Join(p, b);
    assert Grows(p, q);
    forall j | 0 <= j < |p.agents| ensures AgentOk(q, q.agents[j]) { AgentStays(p, q, p.agents[j]); }
  }

  lemma ArrivalClears(p: Pool, b: Agent)
    requires Covered(p)
    ensures Covered(Join(p, b))
  {
    var q := Join(p, b);
    if q.starving {
      var j :| 0 <= j < |p.agents| && Clears(p.agents, p.agents[j]);
      var pc := p.agents[j].pc;
      if WillFind(p.agents, pc) {
        var i, word := pc.i, if pc.SeekShard? then 0 else pc.word;
        var w :| 0 <= w < |p.agents| && p.agents[w].idle && Ahead(p.agents[w].role, i, word);
        assert q.agents[w].idle && Ahead(q.agents[w].role, i, word);
      }
      assert Clears(q.agents, q.agents[j]);
    }
  }

  // ---------------------------------------------------------------- every step

  /** The steps that touch another agent, an idle bit, a channel or the starving flag, or start a worker. */
  ghost predicate Handover(p: Pool, a: nat)
    requires a < |p.agents|
  {
    match p.agents[a].pc
    case TakeBit(_, _, _, _, _) => true
    case Send(_, _, _) => true
    case Spawn(_, _, _, _) => true
    case StartCas(_, _, _, _) => CanNumber(p, a)
    case FailStarving(_, _) => true
    case SeekClear(_) => p.starving
    case ClearStarving(_) => p.starving
    case Register(_) => true
    case Suspended => true
    case _ => false
  }

  lemma SubmitMove(p: Pool, q: Pool, a: nat) returns (m: Move)
    requires Known(p, a) && SubmitStep(p, q, a)
    ensures Fits(p, q, a, m)
  {
    var pc := p.agents[a].pc;
    if pc.Claim? || pc.Store? || pc.Overflow? || pc.Help? { m := SubmitMoves(p, q, a); }
    else if pc.BoostRaise? { m := BoostRaiseMoves(p, q, a); }
    else { m := BoostMoves(p, q, a); }
  }

  lemma HuntMove(p: Pool, q: Pool, a: nat) returns (m: Move)
    requires Known(p, a) && HuntStep(p, q, a) && !Handover(p, a)
    ensures Fits(p, q, a, m)
  {
    var pc := p.agents[a].pc;
    if pc.Hunting? { m := HuntMoves(p, q, a); }
    else if pc.Scan? { m := ScanMoves(p, q, a); }
    else { m := StartMoves(p, q, a); }
  }

  lemma FailMove(p: Pool, q: Pool, a: nat) returns (m: Move)
    requires Known(p, a) && FailStep(p, q, a) && !Handover(p, a)
    ensures Fits(p, q, a, m)
  {
    match p.agents[a].pc
    case FailServing(s, k) =>
      FailServingMoves(p, a, s, k);
      m := SharedTo(FailWaking(s, k), s, p.shards[s].(serving := p.shards[s].serving - 1));
    case FailWaking(s, k) =>
      FailWakingMoves(p, a, s, k);
      m := SharedTo(FailStarving(s, k), s, p.shards[s].(waking := p.shards[s].waking - 1));
    case SeekWord(i, word, words, k) =>
      if word >= words { SeekShardMoves(p, a, i, word, words, k); m := LocalTo(SeekShard(i + 1, k)); }
      else if WordZero(p, i, word) {
        SeekWordMoves(p, a, i, word, words, k);
        m := LocalTo(SeekWord(i, word + 1, words, k));
      }
      else { SeekFoundMoves(p, a, i, word, words, k); m := LocalTo(SeekClear(k)); }
    case _ => m := SeekMoves(p, q, a);
  }

  lemma WorkMove(p: Pool, q: Pool, a: nat) returns (m: Move)
    requires Known(p, a) && WorkStep(p, q, a) && !Handover(p, a)
    ensures Fits(p, q, a, m)
  {
    var pc := p.agents[a].pc;
    if pc.Peek? || pc.PeekLook? { m := PeekMoves(p, q, a); }
    else if pc.Exec? || pc.Drained? { m := ServeMoves(p, q, a); }
    else if pc.Arrive? || pc.ResetLimit? || pc.Leave? { m := CountMoves(p, q, a); }
    else if pc.CheckStarving? || pc.ClearStarving? { m := StarvingMoves(p, q, a); }
    else if pc.TargetLoad? || pc.OwnLoad? { m := LoadMoves(p, q, a); }
    else { m := LastMoves(p, q, a); }
  }

  lemma OrdinaryMove(p: Pool, q: Pool, a: nat) returns (m: Move)
    requires Known(p, a) && AgentStep(p, q, a) && !Handover(p, a)
    ensures Fits(p, q, a, m)
  {
    if SubmitStep(p, q, a) { m := SubmitMove(p, q, a); }
    else if PopStep(p, q, a) { m := PopMoves(p, q, a); }
    else if AskStep(p, q, a) { m := AskMovesAll(p, q, a); }
    else if HuntStep(p, q, a) { m := HuntMove(p, q, a); }
    else if FailStep(p, q, a) { m := FailMove(p, q, a); }
    else { m := WorkMove(p, q, a); }
  }

  lemma TakeKeeps(p: Pool, q: Pool, a: nat)
    requires Inv(p) && a < |p.agents| && HuntStep(p, q, a) && p.agents[a].pc.TakeBit?
    ensures Inv(q)
  {
    var TakeBit(s, h, word, words, k) := p.agents[a].pc;
    InvKnown(p, a);
    if q == To(p, a, Scan(s, h, word, words, k)) {
      HuntOn(p, a, Scan(s, h, word, words, k));
      Local(p, a, Scan(s, h, word, words, k));
    } else {
      var w :| LowestIdle(p, HuntShard(h, s, |p.shards|), word, w) && q == To(SetBit(p, w, false), a, Send(s, w, k));
      BitTaken(p, a, w);
    }
  }

  lemma SendIs(p: Pool, q: Pool, a: nat)
    requires a < |p.agents| && HuntStep(p, q, a) && p.agents[a].pc.Send?
    ensures p.agents[a].pc.worker < |p.agents| && q == p.(agents := Sent(p.agents, a, |p.shards|))
  {
    var w := p.agents[a].pc.worker;
    assert q.agents == Sent(p.agents, a, |p.shards|);
  }

  lemma SpawnIs(p: Pool, q: Pool, a: nat)
    requires a < |p.agents| && HuntStep(p, q, a) && p.agents[a].pc.Spawn?
    ensures q == p.(agents := Started(p.agents, a, |p.shards|))
  {
  }

  lemma NumberIs(p: Pool, q: Pool, a: nat)
    requires a < |p.agents| && HuntStep(p, q, a) && CanNumber(p, a)
    ensures q == Numbering(p, a)
  {
  }

  lemma WorkerHandoverKeeps(p: Pool, q: Pool, a: nat)
    requires Inv(p) && a < |p.agents| && HuntStep(p, q, a) && Handover(p, a)
    ensures Inv(q)
  {
    var pc := p.agents[a].pc;
    if pc.TakeBit? { TakeKeeps(p, q, a); }
    else if pc.Send? { SendIs(p, q, a); Woken(p, a); }
    else if pc.Spawn? { InvKnown(p, a); SpawnIs(p, q, a); WorkerStarted(p, a); }
    else { NumberIs(p, q, a); NumberTaken(p, a); }
  }

  lemma FlagHandoverKeeps(p: Pool, q: Pool, a: nat)
    requires Inv(p) && a < |p.agents| && (FailStep(p, q, a) || WorkStep(p, q, a)) && Handover(p, a)
    ensures Inv(q)
  {
    match p.agents[a].pc
    case FailStarving(s, k) => StarvingSet(p, a, s, k);
    case SeekClear(k) => StarvingCleared(p, a, k);
    case ClearStarving(t) => StarvingCleared(p, a, Rest);
    case Register(t) => Registered(p, a, t);
    case Suspended => Received(p, a, p.agents[a].inbox.value);
  }

  lemma AgentStepKeeps(p: Pool, q: Pool, a: nat)
    requires Inv(p) && a < |p.agents| && AgentStep(p, q, a)
    ensures Inv(q)
  {
    if !Handover(p, a) {
      InvKnown(p, a);
      var m := OrdinaryMove(p, q, a);
      MoveKeeps(p, q, a, m);
    } else if HuntStep(p, q, a) {
      WorkerHandoverKeeps(p, q, a);
    } else {
      FlagHandoverKeeps(p, q, a);
    }
  }

  lemma StepKeeps(p: Pool, q: Pool)
    requires Inv(p) && Step(p, q)
    ensures Inv(q)
  {
    if a :| 0 <= a < |p.agents| && AgentStep(p, q, a) {
      AgentStepKeeps(p, q, a);
    } else {
      var s :| Arrives(p, q, s);
      if q == Join(p, Agent(Outside, Claim(s), false, None)) { ArrivalKeeps(p, Agent(Outside, Claim(s), false, None)); }
      else { ArrivalKeeps(p, Agent(Outside, BoostServing(s), false, None)); }
    }
  }

  // ---------------------------------------------------------------- whole runs

  lemma InitialInv(p: Pool)
    requires Initial(p)
    ensures Inv(p)
  {
  }

  lemma Prefix(run: seq<Pool>)
    requires Execution(run) && |run| > 1
    ensures var before := run[..|run| - 1];
            Execution(before) && before[0] == run[0] && Step(before[|before| - 1], run[|run| - 1])
  {
    var before := run[..|run| - 1];
    forall i | 0 <= i < |before| - 1 ensures Step(before[i], before[i + 1]) {
      assert before[i] == run[i] && before[i + 1] == run[i + 1];
    }
  }

  /** What the pool's tasks may do does not change. */
  lemma SameGoexit(p: Pool, q: Pool)
    requires Step(p, q)
    ensures q.goexit == p.goexit
  {
    if a :| 0 <= a < |p.agents| && AgentStep(p, q, a) { AgentSameGoexit(p, q, a); }
  }

  lemma AgentSameGoexit(p: Pool, q: Pool, a: nat)
    requires a < |p.agents| && AgentStep(p, q, a)
    ensures q.goexit == p.goexit
  {
    if HuntStep(p, q, a) { HuntSameGoexit(p, q, a); }
  }

  lemma HuntSameGoexit(p: Pool, q: Pool, a: nat)
    requires a < |p.agents| && HuntStep(p, q, a)
    ensures q.goexit == p.goexit
  {
  }

  lemma {:induction false} Reachable(run: seq<Pool>)
    requires Execution(run)
    ensures Inv(run[|run| - 1]) && run[|run| - 1].goexit == run[0].goexit
  {
    if |run| == 1 {
      InitialInv(run[0]);
    } else {
      var before := run[..|run| - 1];
      Prefix(run);
      Reachable(before);
      StepKeeps(before[|before| - 1], run[|run| - 1]);
      SameGoexit(before[|before| - 1], run[|run| - 1]);
    }
  }

  /** What a quiet pool looks like. */
  ghost predicate AllServed(p: Pool) {
    && !p.starving
    && (forall s :: 0 <= s < |p.shards| ==>
          p.shards[s].head == |p.shards[s].written| && p.shards[s].waking == 0 && p.shards[s].serving == 0)
    && (forall a :: 0 <= a < |p.agents| && p.agents[a].role.Worker? ==> p.agents[a].idle)
  }

  lemma {:induction false} QuietSum(m: Measure, agents: seq<Agent>)
    requires m.WakingOf? || m.ServingOf? || m.SendsTo?
    requires forall a :: 0 <= a < |agents| ==>
               if agents[a].role.Worker? then agents[a].pc == Suspended && agents[a].inbox == None
               else agents[a].pc == Done && agents[a].inbox == None
    ensures Sum(m, agents) == 0
  {
    if agents != [] { QuietSum(m, agents[..|agents| - 1]); }
  }

  /** Only workers have a channel. */
  lemma OutsideInbox(p: Pool, a: nat)
    requires Tokens(p.agents) && a < |p.agents| && p.agents[a].role.Outside?
    ensures p.agents[a].inbox == None
  {
  }

  /**
   No wakeup is lost, unless a task that a helper popped ends its goroutine: in every run, when every submit and notify
   has returned and every worker is suspended with an empty channel, nothing is queued anywhere, the counters are zero
   and nobody starves.
   */
  lemma NoLostWakeup(run: seq<Pool>)
    requires Execution(run) && !run[0].goexit && Quiet(run[|run| - 1])
    ensures AllServed(run[|run| - 1])
  {
    Reachable(run);
    QuietServed(run[|run| - 1]);
  }

  lemma QuietServed(p: Pool)
    requires Inv(p) && Quiet(p) && !p.goexit
    ensures AllServed(p)
  {
    forall a | 0 <= a < |p.agents| && p.agents[a].role.Outside? ensures p.agents[a].inbox == None {
      OutsideInbox(p, a);
    }
    QuietFlag(p);
    forall s | 0 <= s < |p.shards|
      ensures p.shards[s].head == |p.shards[s].written| && p.shards[s].waking == 0 && p.shards[s].serving == 0
    {
      QuietSum(WakingOf(s), p.agents);
      QuietSum(ServingOf(s), p.agents);
      QuietQueue(p, s);
    }
    forall a | 0 <= a < |p.agents| && p.agents[a].role.Worker? ensures p.agents[a].idle {
      QuietSum(SendsTo(a), p.agents);
    }
  }

  lemma QuietFlag(p: Pool)
    requires Covered(p) && Quiet(p)
    requires forall a :: 0 <= a < |p.agents| ==> p.agents[a].inbox == None
    ensures !p.starving
  {
    forall a | 0 <= a < |p.agents| ensures !Clears(p.agents, p.agents[a]) {
    }
  }

  lemma QuietQueue(p: Pool, s: nat)
    requires Shape(p) && Awake(p) && Claimed(p) && !p.goexit && !p.starving && Quiet(p) && s < |p.shards|
    requires forall a :: 0 <= a < |p.agents| ==> p.agents[a].inbox == None
    ensures p.shards[s].head == |p.shards[s].written|
  {
    var sh := p.shards[s];
    assert ShardOk(sh);
    forall a | 0 <= a < |p.agents| ensures !Answers(p.agents[a], s, sh.head) && !p.agents[a].pc.Store? {
    }
    assert !InCharge(p.agents, s, sh.head);
  }

  /** In every run each worker number is given out once, and each worker is idle, being woken, or running, never two. */
  lemma WorkersAccounted(run: seq<Pool>)
    requires Execution(run)
    ensures var p := run[|run| - 1];
            && Counters(p) && Numbered(p) && Tokens(p.agents)
            && (forall s :: 0 <= s < |p.shards| ==> p.shards[s].live <= p.shards[s].max)
            && (forall a :: 0 <= a < |p.agents| && p.agents[a].pc.Send? ==>
                  p.agents[a].pc.worker < |p.agents| && p.agents[p.agents[a].pc.worker].inbox.None?)
  {
    Reachable(run);
    var p := run[|run| - 1];
    forall s | 0 <= s < |p.shards| ensures p.shards[s].live <= p.shards[s].max { assert ShardOk(p.shards[s]); }
    forall a | 0 <= a < |p.agents| && p.agents[a].pc.Send?
      ensures p.agents[a].pc.worker < |p.agents| && p.agents[p.agents[a].pc.worker].inbox.None?
    {
      SendNeverBlocks(p, a);
    }
  }

  // ---------------------------------------------------------------- a helper that does not come back

  function Caller(pc: Pc): Agent { Agent(Outside, pc, false, None) }

  /** The pool in which only the first shard's queue has been used. */
  function Used(p: Pool, head: nat, written: seq<bool>, agents: seq<Agent>): Pool
    requires |p.shards| > 0
  {
    p.(shards := p.shards[0 := p.shards[0].(head := head, written := written)], agents := agents)
  }

  function Trues(k: nat): seq<bool> { seq(k, _ => true) }

  /** Submitters that have loaded the head of the queue for their `notify`; the first `done` of them have returned. */
  function Askers(k: nat, done: nat): seq<Agent> {
    seq(k, i => if i < done then Caller(Done) else Caller(AskLook(0, 0, Finish)))
  }

  ghost predicate Stepwise(run: seq<Pool>) {
    |run| > 0 && forall i :: 0 <= i < |run| - 1 ==> Step(run[i], run[i + 1])
  }

  /** A run from `p` to `q`. */
  ghost predicate Leads(run: seq<Pool>, p: Pool, q: Pool) { Stepwise(run) && run[0] == p && run[|run| - 1] == q }

  lemma Extend(run: seq<Pool>, p: Pool, q: Pool, r: Pool, a: nat) returns (next: seq<Pool>)
    requires Leads(run, p, q) && a < |q.agents| && AgentStep(q, r, a)
    ensures Leads(next, p, r)
  {
    next := run + [r];
    assert Step(q, r);
  }

  lemma ExtendCall(run: seq<Pool>, p: Pool, q: Pool) returns (next: seq<Pool>)
    requires Leads(run, p, q) && |q.shards| > 0
    ensures Leads(next, p, Join(q, Caller(Claim(0))))
  {
    next := run + [Join(q, Caller(Claim(0)))];
    assert Arrives(q, Join(q, Caller(Claim(0))), 0);
  }

  /** The last agent moves from one place to another, and the queue with it. */
  lemma CallerMoves(p: Pool, agents: seq<Agent>, pc: Pc, next: Pc, head: nat, written: seq<bool>, head1: nat,
                    written1: seq<bool>)
    requires |p.shards| > 0
    ensures var before, after := Used(p, head, written, agents + [Caller(pc)]),
            Used(p, head1, written1, agents + [Caller(next)]);
            && ToWith(before, |agents|, next, 0, before.shards[0].(head := head1, written := written1)) == after
            && (head1 == head && written1 == written ==> To(before, |agents|, next) == after)
  {
    var before, after := Used(p, head, written, agents + [Caller(pc)]),
        Used(p, head1, written1, agents + [Caller(next)]);
    assert before.agents[|agents| := Caller(next)] == after.agents;
    assert before.shards[0 := before.shards[0].(head := head1, written := written1)] == after.shards;
  }

  /** Another submitter stores a task and loads the head of the queue. */
  lemma SubmitOne(run: seq<Pool>, p: Pool, k: nat) returns (next: seq<Pool>)
    requires |p.shards| > 0 && Leads(run, p, Used(p, 0, Trues(k), Askers(k, 0)))
    ensures Leads(next, p, Used(p, 0, Trues(k + 1), Askers(k + 1, 0)))
  {
    var w, agents := Trues(k), Askers(k, 0);
    next := ExtendCall(run, p, Used(p, 0, w, agents));
    var q0 := Used(p, 0, w, agents + [Caller(Claim(0))]);
    var q1 := Used(p, 0, w + [false], agents + [Caller(Store(0, k))]);
    CallerMoves(p, agents, Claim(0), Store(0, k), 0, w, 0, w + [false]);
    next := Extend(next, p, q0, q1, k);
    var q2 := Used(p, 0, Trues(k + 1), agents + [Caller(Ask(0, Finish))]);
    assert (w + [false])[k := true] == Trues(k + 1);
    CallerMoves(p, agents, Store(0, k), Ask(0, Finish), 0, w + [false], 0, Trues(k + 1));
    next := Extend(next, p, q1, q2, k);
    var q3 := Used(p, 0, Trues(k + 1), agents + [Caller(AskLook(0, 0, Finish))]);
    CallerMoves(p, agents, Ask(0, Finish), AskLook(0, 0, Finish), 0, Trues(k + 1), 0, Trues(k + 1));
    next := Extend(next, p, q2, q3, k);
    assert agents + [Caller(AskLook(0, 0, Finish))] == Askers(k + 1, 0);
  }

  lemma {:induction false} SubmitMany(p: Pool, k: nat) returns (run: seq<Pool>)
    requires Initial(p)
    ensures Leads(run, p, Used(p, 0, Trues(k), Askers(k, 0)))
  {
    if k == 0 {
      run := [p];
      assert p.shards[0 := p.shards[0].(head := 0, written := [])] == p.shards;
      assert Trues(0) == [] && Askers(0, 0) == [];
    } else {
      run := SubmitMany(p, k - 1);
      run := SubmitOne(run, p, k - 1);
    }
  }

  /** One submitter more finds the queue full; its helper runs the refused task and takes the first one of the queue. */
  lemma HelperTakes(p: Pool) returns (run: seq<Pool>)
    requires Initial(p)
    ensures Leads(run, p, Used(p, 1, Trues(p.shards[0].size), Askers(p.shards[0].size, 0) + [Caller(Help(0))]))
  {
    var k := p.shards[0].size;
    var w, agents := Trues(k), Askers(k, 0);
    run := SubmitMany(p, k);
    run := ExtendCall(run, p, Used(p, 0, w, agents));
    var q0 := Used(p, 0, w, agents + [Caller(Claim(0))]);
    var q1 := Used(p, 0, w, agents + [Caller(Overflow(0))]);
    CallerMoves(p, agents, Claim(0), Overflow(0), 0, w, 0, w);
    run := Extend(run, p, q0, q1, k);
    var q2 := Used(p, 0, w, agents + [Caller(PopLoad(0))]);
    CallerMoves(p, agents, Overflow(0), PopLoad(0), 0, w, 0, w);
    run := Extend(run, p, q1, q2, k);
    run := HelperPops(run, p, k);
  }

  lemma HelperPops(run0: seq<Pool>, p: Pool, k: nat) returns (run: seq<Pool>)
    requires Initial(p) && k >= 1 && Leads(run0, p, Used(p, 0, Trues(k), Askers(k, 0) + [Caller(PopLoad(0))]))
    ensures Leads(run, p, Used(p, 1, Trues(k), Askers(k, 0) + [Caller(Help(0))]))
  {
    var w, agents := Trues(k), Askers(k, 0);
    var q2 := Used(p, 0, w, agents + [Caller(PopLoad(0))]);
    var q3 := Used(p, 0, w, agents + [Caller(PopLook(0, 0))]);
    CallerMoves(p, agents, PopLoad(0), PopLook(0, 0), 0, w, 0, w);
    run := Extend(run0, p, q2, q3, k);
    var q4 := Used(p, 0, w, agents + [Caller(PopTake(0, 0))]);
    CallerMoves(p, agents, PopLook(0, 0), PopTake(0, 0), 0, w, 0, w);
    run := Extend(run, p, q3, q4, k);
    CallerMoves(p, agents, PopTake(0, 0), Help(0), 0, w, 1, w);
    run := Extend(run, p, q4, Used(p, 1, w, agents + [Caller(Help(0))]), k);
  }

  /** The submitters look at a position that has been taken, and return. */
  lemma {:induction false} SubmittersLeave(p: Pool, done: nat) returns (run: seq<Pool>)
    requires Initial(p) && done <= p.shards[0].size
    ensures Leads(run, p, Used(p, 1, Trues(p.shards[0].size), Askers(p.shards[0].size, done) + [Caller(Help(0))]))
  {
    var k := p.shards[0].size;
    if done == 0 {
      run := HelperTakes(p);
    } else {
      run := SubmittersLeave(p, done - 1);
      var q := Used(p, 1, Trues(k), Askers(k, done - 1) + [Caller(Help(0))]);
      var r := Used(p, 1, Trues(k), Askers(k, done) + [Caller(Help(0))]);
      assert q.agents[done - 1] == Caller(AskLook(0, 0, Finish));
      assert q.agents[done - 1 := Caller(Done)] == r.agents;
      assert To(q, done - 1, Resume(Finish, |p.shards|)) == r;
      assert q.shards[0].head == 1 && Reports(q.shards[0], 0, false);
      assert AskStep(q, r, done - 1);
      run := Extend(run, p, q, r, done - 1);
    }
  }

  /**
   The condition of NoLostWakeup is exact: in every pool, whatever its shards, sizes and limits, in which a task that an
   overflow helper took from the queue may end its goroutine, there is a run after which everything has come to rest and
   a queued task is left to nobody.
   */
  lemma GoexitInHelperLosesWakeup(p: Pool) returns (run: seq<Pool>)
    requires Initial(p) && p.goexit
    ensures Execution(run) && run[0] == p && Quiet(run[|run| - 1]) && !AllServed(run[|run| - 1])
  {
    var k := p.shards[0].size;
    run := SubmittersLeave(p, k);
    CallerMoves(p, Askers(k, k), Help(0), Done, 1, Trues(k), 1, Trues(k));
    var q := Used(p, 1, Trues(k), Askers(k, k) + [Caller(Done)]);
    run := Extend(run, p, Used(p, 1, Trues(k), Askers(k, k) + [Caller(Help(0))]), q, k);
    assert q.shards[0].head != |q.shards[0].written|;
  }

  /**
   A pool loses no wakeup, however its steps interleave, if and only if no task that a helper popped may call Goexit.
   */
  lemma WakeupsLostExactly(p: Pool)
    requires Initial(p)
    ensures !p.goexit <==>
            forall run :: Execution(run) && run[0] == p && Quiet(run[|run| - 1]) ==> AllServed(run[|run| - 1])
  {
    if p.goexit {
      var _ := GoexitInHelperLosesWakeup(p);
    } else {
      forall run | Execution(run) && run[0] == p && Quiet(run[|run| - 1]) ensures AllServed(run[|run| - 1]) {
        NoLostWakeup(run);
      }
    }
  }
}
