/** Every step of the pool keeps the invariant. */
module PoolSteps {
  import opened Wrappers
  import opened PoolModel
  import opened PoolInvariant

  // ---------------------------------------------------------------- one invariant at a time

  /** What no step takes back. */
  ghost predicate Grows(p: Pool, q: Pool) {
    && |p.shards| == |q.shards| && p.goexit == q.goexit && |p.agents| <= |q.agents|
    && (forall s :: 0 <= s < |p.shards| ==> ShardGrows(p.shards[s], q.shards[s]))
    && (forall a :: 0 <= a < |p.agents| ==> q.agents[a].role == p.agents[a].role)
  }

  ghost predicate ShardGrows(x: Shard, y: Shard) {
    && x.head <= y.head && |x.written| <= |y.written| && x.live <= y.live && x.max == y.max
    && (forall i :: 0 <= i < |x.written| && x.written[i] ==> y.written[i])
  }

  lemma FullStays(p: Pool, q: Pool, s: nat)
    requires Grows(p, q) && Shape(q) && Full(p, s)
    ensures Full(q, s)
  {
    assert ShardGrows(p.shards[s], q.shards[s]) && ShardOk(q.shards[s]);
  }

  lemma AllFullStays(p: Pool, q: Pool)
    requires Grows(p, q) && Shape(q) && AllFull(p)
    ensures AllFull(q)
    ensures forall s :: 0 <= s < |p.shards| ==> q.shards[s].live == p.shards[s].live
  {
    forall s | 0 <= s < |p.shards| ensures Full(q, s) && q.shards[s].live == p.shards[s].live {
      FullStays(p, q, s);
      assert Full(p, s) && ShardGrows(p.shards[s], q.shards[s]);
    }
  }

  lemma HuntStays(p: Pool, q: Pool, h: Hunt, s: nat)
    requires Grows(p, q) && Shape(q) && HuntOk(p, h, s)
    ensures HuntOk(q, h, s)
  {
    if h.LendWake? || h.LendStart? { FullStays(p, q, s); }
    if h.LendStart? {
      forall j | 0 <= j < h.done && j < |p.shards| ensures Full(q, Turn(h.first, j, |p.shards|)) {
        FullStays(p, q, Turn(h.first, j, |p.shards|));
      }
    }
  }

  lemma ShardsGrow(p: Pool, q: Pool, s: nat)
    requires Grows(p, q) && s < |p.shards|
    ensures ShardGrows(p.shards[s], q.shards[s])
  {
  }

  /** The places whose knowledge is about one shard. */
  lemma PlaceStays(p: Pool, q: Pool, role: Role, pc: Pc)
    requires Grows(p, q) && PcOk(p, role, pc)
    requires !pc.Hunting? && !pc.Scan? && !pc.TakeBit? && !pc.StartCas? && !pc.FailServing? && !pc.FailWaking?
    requires !pc.FailStarving? && !pc.SeekShard? && !pc.SeekWord?
    ensures PcOk(q, role, pc)
  {
    match pc
    case Store(s, _) => ShardsGrow(p, q, s);
    case PopLook(s, _) => ShardsGrow(p, q, s);
    case PopTake(s, _) => ShardsGrow(p, q, s);
    case AskLook(s, _, _) => ShardsGrow(p, q, s);
    case PeekLook(s, _) => ShardsGrow(p, q, s);
    case TargetLook(s, _) => ShardsGrow(p, q, s);
    case OwnLook(_) => ShardsGrow(p, q, role.shard);
    case Spawn(_, i, _, _) => ShardsGrow(p, q, i);
    case _ =>
  }

  lemma HuntPlaceStays(p: Pool, q: Pool, role: Role, pc: Pc)
    requires Grows(p, q) && Shape(q) && PcOk(p, role, pc) && (pc.Hunting? || pc.Scan? || pc.TakeBit? || pc.StartCas?)
    ensures PcOk(q, role, pc)
  {
    HuntStays(p, q, pc.h, pc.s);
    if pc.StartCas? { ShardsGrow(p, q, HuntShard(pc.h, pc.s, |p.shards|)); }
  }

  lemma FullPlaceStays(p: Pool, q: Pool, role: Role, pc: Pc)
    requires Grows(p, q) && Shape(q) && PcOk(p, role, pc)
    requires pc.FailServing? || pc.FailWaking? || pc.FailStarving? || pc.SeekShard? || pc.SeekWord?
    ensures PcOk(q, role, pc)
  {
    AllFullStays(p, q);
  }

  lemma PcStays(p: Pool, q: Pool, role: Role, pc: Pc)
    requires Grows(p, q) && Shape(q) && PcOk(p, role, pc)
    ensures PcOk(q, role, pc)
  {
    if pc.Hunting? || pc.Scan? || pc.TakeBit? || pc.StartCas? {
      HuntPlaceStays(p, q, role, pc);
    } else if pc.FailServing? || pc.FailWaking? || pc.FailStarving? || pc.SeekShard? || pc.SeekWord? {
      FullPlaceStays(p, q, role, pc);
    } else {
      PlaceStays(p, q, role, pc);
    }
  }

  lemma AgentStays(p: Pool, q: Pool, a: Agent)
    requires Grows(p, q) && Shape(q) && AgentOk(p, a)
    ensures AgentOk(q, a)
  {
    PcStays(p, q, a.role, a.pc);
    if a.role.Worker? { ShardsGrow(p, q, a.role.shard); }
  }

  /** The shards and agents of `q` are those of `p`, but for agent `a`. */
  ghost predicate Only(p: Pool, q: Pool, a: nat) {
    && |p.agents| == |q.agents| && a < |p.agents| && p.goexit == q.goexit
    && q.agents == p.agents[a := q.agents[a]]
  }

  lemma AgentsStay(p: Pool, q: Pool, a: nat)
    requires Only(p, q, a) && Grows(p, q) && Shape(q) && AgentsOk(p) && AgentOk(q, q.agents[a])
    ensures AgentsOk(q)
  {
    forall j | 0 <= j < |q.agents| ensures AgentOk(q, q.agents[j]) {
      if j != a { AgentStays(p, q, p.agents[j]); }
    }
  }

  /** The counters move by what the agent takes and gives. */
  ghost predicate Pays(p: Pool, q: Pool, a: nat)
    requires a < |p.agents| && a < |q.agents| && |p.shards| == |q.shards|
  {
    forall s :: 0 <= s < |p.shards| ==>
      && q.shards[s].waking - p.shards[s].waking == Weight(WakingOf(s), q.agents[a]) - Weight(WakingOf(s), p.agents[a])
      && q.shards[s].serving - p.shards[s].serving
          == Weight(ServingOf(s), q.agents[a]) - Weight(ServingOf(s), p.agents[a])
  }

  lemma CountersStay(p: Pool, q: Pool, a: nat)
    requires Only(p, q, a) && |p.shards| == |q.shards| && Counters(p) && Pays(p, q, a)
    ensures Counters(q)
  {
    forall s | 0 <= s < |q.shards|
      ensures q.shards[s].waking == Sum(WakingOf(s), q.agents) && q.shards[s].serving == Sum(ServingOf(s), q.agents)
    {
      SumUpdate(WakingOf(s), p.agents, a, q.agents[a]);
      SumUpdate(ServingOf(s), p.agents, a, q.agents[a]);
    }
  }

  ghost predicate SameLive(p: Pool, q: Pool) {
    |p.shards| == |q.shards| && forall s :: 0 <= s < |p.shards| ==> q.shards[s].live == p.shards[s].live
  }

  lemma NumberedStays(p: Pool, q: Pool, a: nat)
    requires Only(p, q, a) && SameLive(p, q) && Numbered(p)
    requires !p.agents[a].pc.Spawn? && !q.agents[a].pc.Spawn? && q.agents[a].role == p.agents[a].role
    ensures Numbered(q)
  {
    forall i, id | 0 <= i < |q.shards| && 0 <= id
      ensures Sum(TokenAt(i, id), q.agents) == if id < q.shards[i].live then 1 else 0
    {
      SumUpdate(TokenAt(i, id), p.agents, a, q.agents[a]);
    }
  }

  lemma TokensStay(agents: seq<Agent>, a: nat, b: Agent)
    requires Tokens(agents) && a < |agents|
    requires !agents[a].pc.Send? && !b.pc.Send? && Own(b) == Own(agents[a]) && b.role == agents[a].role
    ensures Tokens(agents[a := b])
  {
    var next := agents[a := b];
    forall w | 0 <= w < |next|
      ensures Own(next[w]) + Sum(SendsTo(w), next) == if next[w].role.Worker? then 1 else 0
    {
      SumUpdate(SendsTo(w), agents, a, b);
    }
  }

  lemma ClaimedStays(p: Pool, q: Pool, a: nat)
    requires Only(p, q, a) && |p.shards| == |q.shards| && Claimed(p)
    requires forall s, pos :: 0 <= s < |q.shards| && 0 <= pos < |q.shards[s].written| && !q.shards[s].written[pos] ==>
               || q.agents[a].pc == Store(s, pos)
               || (pos < |p.shards[s].written| && !p.shards[s].written[pos] && p.agents[a].pc != Store(s, pos))
    ensures Claimed(q)
  {
    forall s, pos | 0 <= s < |q.shards| && 0 <= pos < |q.shards[s].written| && !q.shards[s].written[pos]
      ensures exists j :: 0 <= j < |q.agents| && q.agents[j].pc == Store(s, pos)
    {
      if q.agents[a].pc != Store(s, pos) {
        var j :| 0 <= j < |p.agents| && p.agents[j].pc == Store(s, pos);
        assert q.agents[j].pc == Store(s, pos);
      }
    }
  }

  /** The shard's tasks are looked after when a counter says so. */
  lemma CounterInCharge(q: Pool, s: nat)
    requires Counters(q) && s < |q.shards| && (q.shards[s].waking > 0 || q.shards[s].serving > 0)
    ensures InCharge(q.agents, s, q.shards[s].head)
  {
    var m := if q.shards[s].waking > 0 then WakingOf(s) else ServingOf(s);
    var a := SumPositive(m, q.agents);
    HolderAnswers(q.agents[a], s, q.shards[s].head);
  }

  /** The agent, or whoever holds a counter, is in charge after the step. */
  ghost predicate Answered(q: Pool, a: nat, s: nat)
    requires a < |q.agents| && s < |q.shards|
  {
    Answers(q.agents[a], s, q.shards[s].head) || q.shards[s].waking > 0 || q.shards[s].serving > 0
  }

  /** The shard was looked after by others, and nothing changed for them. */
  ghost predicate Untouched(p: Pool, q: Pool, a: nat, s: nat)
    requires a < |p.agents| && s < |p.shards| && s < |q.shards|
  {
    && !p.starving && p.shards[s].Available() && q.shards[s].head == p.shards[s].head
    && !Answers(p.agents[a], s, p.shards[s].head)
  }

  lemma AwakeStays(p: Pool, q: Pool, a: nat)
    requires Only(p, q, a) && |p.shards| == |q.shards| && Awake(p) && Counters(q)
    requires !q.goexit && !q.starving ==> forall s :: 0 <= s < |q.shards| && q.shards[s].Available() ==>
               Answered(q, a, s) || Untouched(p, q, a, s)
    ensures Awake(q)
  {
    if !q.goexit && !q.starving {
      forall s | 0 <= s < |q.shards| && q.shards[s].Available() ensures InCharge(q.agents, s, q.shards[s].head) {
        if q.shards[s].waking > 0 || q.shards[s].serving > 0 {
          CounterInCharge(q, s);
        } else if Untouched(p, q, a, s) {
          var j :| 0 <= j < |p.agents| && Answers(p.agents[j], s, p.shards[s].head);
          assert Answers(q.agents[j], s, q.shards[s].head);
        }
      }
    }
  }

  /** A change of one agent that leaves the idle bits alone leaves everybody else's scan alone. */
  lemma ScansStay(agents: seq<Agent>, a: nat, b: Agent, pc: Pc)
    requires a < |agents| && b.role == agents[a].role && (agents[a].idle ==> b.idle) && WillFind(agents, pc)
    ensures WillFind(agents[a := b], pc)
  {
    var i := pc.i;
    var word := if pc.SeekShard? then 0 else pc.word;
    var w :| 0 <= w < |agents| && agents[w].idle && Ahead(agents[w].role, i, word);
    assert agents[a := b][w].idle && Ahead(agents[a := b][w].role, i, word);
  }

  lemma CoveredStays(p: Pool, q: Pool, a: nat)
    requires Only(p, q, a) && Covered(p) && (q.starving ==> p.starving)
    requires q.agents[a].role == p.agents[a].role && (p.agents[a].idle ==> q.agents[a].idle)
    requires q.starving && Clears(p.agents, p.agents[a]) ==> Clears(p.agents, q.agents[a])
    ensures Covered(q)
  {
    if q.starving {
      var j :| 0 <= j < |p.agents| && Clears(p.agents, p.agents[j]);
      assert Clears(p.agents, q.agents[j]);
      if !WillCheck(q.agents[j]) {
        ScansStay(p.agents, a, q.agents[a], q.agents[j].pc);
      }
      assert Clears(q.agents, q.agents[j]);
    }
  }

  // ---------------------------------------------------------------- resuming after notify

  lemma {:induction k} ResumeKeeps(p: Pool, k: Kont, role: Role, n: nat)
    requires KontOk(k, role, n) && n == |p.shards|
    ensures var pc := Resume(k, n);
            && PcOk(p, role, pc)
            && WakingHeld(pc) == None && ServingHeld(pc) == None && Serving(role, pc) == Served(k)
            && !pc.Leave? && !pc.Spawn? && !pc.Send? && !pc.Store?
            && (IsNotify(pc) ==> KontOk(KontOf(pc), role, n))
  {
  }

  lemma ResumeAnswers(k: Kont, role: Role, n: nat, s: nat, head: nat)
    requires s < n && KontAnswers(k, role, s)
    ensures PcAnswers(Resume(k, n), role, s, head) || KontAnswers(KontOf(Resume(k, n)), role, s)
  {
  }

  // ---------------------------------------------------------------- kinds of steps

  /** What an agent may rely on when it takes a step. */
  ghost predicate Known(p: Pool, a: nat) {
    && Shape(p) && a < |p.agents| && AgentOk(p, p.agents[a])
    && (forall s :: 0 <= s < |p.shards| ==> p.shards[s].waking >= 0 && p.shards[s].serving >= 0)
    && RolesOk(p)
  }

  ghost predicate RolesOk(p: Pool) { forall w :: 0 <= w < |p.agents| ==> RoleOk(p, p.agents[w].role) }

  ghost predicate RoleOk(p: Pool, role: Role) {
    role.Worker? ==> role.shard < |p.shards| && role.id < p.shards[role.shard].live
  }

  lemma InvKnown(p: Pool, a: nat)
    requires Inv(p) && a < |p.agents|
    ensures Known(p, a)
  {
    forall w | 0 <= w < |p.agents| ensures RoleOk(p, p.agents[w].role) { assert AgentOk(p, p.agents[w]); }
  }

  /** The agent's new place holds what the old one held. */
  predicate HoldsSame(role: Role, x: Pc, y: Pc) {
    && WakingHeld(x) == WakingHeld(y) && ServingHeld(x) == ServingHeld(y) && Serving(role, x) == Serving(role, y)
    && !x.Leave? && !y.Leave?
  }

  predicate Plain(pc: Pc) { !pc.Spawn? && !pc.Send? }

  ghost predicate StillAnswered(p: Pool, a: nat, pc: Pc)
    requires a < |p.agents|
  {
    !p.goexit && !p.starving ==>
      forall s :: 0 <= s < |p.shards| && p.shards[s].Available() && Answers(p.agents[a], s, p.shards[s].head) ==>
        Answers(p.agents[a].(pc := pc), s, p.shards[s].head) || p.shards[s].waking > 0 || p.shards[s].serving > 0
  }

  ghost predicate StillClears(p: Pool, a: nat, pc: Pc)
    requires a < |p.agents|
  {
    p.starving && Clears(p.agents, p.agents[a]) ==> Clears(p.agents, p.agents[a].(pc := pc))
  }

  ghost predicate KontStays(p: Pool, role: Role, pc: Pc) { IsNotify(pc) ==> KontOk(KontOf(pc), role, |p.shards|) }

  ghost predicate LocalPlace(p: Pool, a: nat, pc: Pc)
    requires a < |p.agents|
  {
    var me := p.agents[a];
    && PcOk(p, me.role, pc) && KontStays(p, me.role, pc)
    && HoldsSame(me.role, me.pc, pc) && Plain(me.pc) && Plain(pc) && !me.pc.Store?
  }

  /** A step that changes no shared word. */
  ghost predicate LocalMove(p: Pool, a: nat, pc: Pc)
    requires a < |p.agents|
  {
    LocalPlace(p, a, pc) && StillAnswered(p, a, pc) && StillClears(p, a, pc)
  }

  lemma GrowsTo(p: Pool, a: nat, pc: Pc, st: bool)
    requires a < |p.agents|
    ensures Grows(p, ToStarving(p, a, pc, st)) && Only(p, ToStarving(p, a, pc, st), a)
  {
  }

  /** The part of a local step that does not look at the starving flag. */
  ghost predicate Counted(p: Pool) {
    Shape(p) && AgentsOk(p) && Counters(p) && Numbered(p) && Tokens(p.agents) && Claimed(p)
  }

  lemma LocalAgents(p: Pool, a: nat, pc: Pc, st: bool)
    requires Known(p, a) && AgentsOk(p) && LocalPlace(p, a, pc)
    ensures var q := ToStarving(p, a, pc, st); Shape(q) && AgentsOk(q)
  {
    var q := ToStarving(p, a, pc, st);
    GrowsTo(p, a, pc, st);
    PcStays(p, q, p.agents[a].role, pc);
    AgentRoleStays(p, q, a);
    AgentsStay(p, q, a);
  }

  lemma LocalCounts(p: Pool, a: nat, pc: Pc, st: bool)
    requires Known(p, a) && Counted(p) && LocalPlace(p, a, pc)
    ensures Counted(ToStarving(p, a, pc, st))
  {
    var q := ToStarving(p, a, pc, st);
    GrowsTo(p, a, pc, st);
    LocalAgents(p, a, pc, st);
    CountersStay(p, q, a);
    NumberedStays(p, q, a);
    TokensStay(p.agents, a, q.agents[a]);
    ClaimedStays(p, q, a);
  }

  lemma Local(p: Pool, a: nat, pc: Pc)
    requires Inv(p) && a < |p.agents| && LocalMove(p, a, pc)
    ensures Inv(To(p, a, pc))
  {
    InvKnown(p, a);
    LocalCounts(p, a, pc, p.starving);
    var q := To(p, a, pc);
    assert q == ToStarving(p, a, pc, p.starving);
    AwakeStays(p, q, a);
    CoveredStays(p, q, a);
  }

  lemma AgentRoleStays(p: Pool, q: Pool, a: nat)
    requires Grows(p, q) && a < |p.agents| && AgentOk(p, p.agents[a]) && q.agents[a].inbox == p.agents[a].inbox
    requires PcOk(q, q.agents[a].role, q.agents[a].pc) && KontStays(q, q.agents[a].role, q.agents[a].pc)
    ensures AgentOk(q, q.agents[a])
  {
    var role := p.agents[a].role;
    if role.Worker? { ShardsGrow(p, q, role.shard); }
  }

  /** A step that changes the words of one shard. */
  ghost predicate ShardMove(p: Pool, a: nat, pc: Pc, s: nat, sh: Shard)
    requires a < |p.agents| && s < |p.shards|
  {
    var q := ToWith(p, a, pc, s, sh);
    var me := p.agents[a];
    && ShardGrows(p.shards[s], sh) && ShardOk(sh) && sh.live == p.shards[s].live
    && PcOk(q, me.role, pc) && KontStays(p, me.role, pc)
    && Plain(me.pc) && Plain(pc)
    && Serving(me.role, me.pc).Some? == Serving(me.role, pc).Some?
    && sh.waking - p.shards[s].waking == Change(WakingOf(s), me, pc)
    && sh.serving - p.shards[s].serving == Change(ServingOf(s), me, pc)
    && (forall i :: 0 <= i < |p.shards| && i != s ==>
        Change(WakingOf(i), me, pc) == 0 && Change(ServingOf(i), me, pc) == 0)
  }

  function Change(m: Measure, me: Agent, pc: Pc): int { Weight(m, me.(pc := pc)) - Weight(m, me) }

  /** A claimed position of the shard keeps its submitter. */
  ghost predicate ClaimsMove(p: Pool, a: nat, pc: Pc, s: nat, sh: Shard)
    requires a < |p.agents| && s < |p.shards|
  {
    && (p.agents[a].pc.Store? ==> p.agents[a].pc.s == s)
    && (forall pos :: 0 <= pos < |sh.written| && !sh.written[pos] ==>
          || pc == Store(s, pos)
          || (pos < |p.shards[s].written| && !p.shards[s].written[pos] && p.agents[a].pc != Store(s, pos)))
  }

  /** Others keep whom they had, and the shard itself has the agent or a holder of its counters. */
  ghost predicate AnswersMove(p: Pool, a: nat, pc: Pc, s: nat, sh: Shard)
    requires a < |p.agents| && s < |p.shards|
  {
    var me := p.agents[a];
    && (forall i :: 0 <= i < |p.shards| && i != s && Answers(me, i, p.shards[i].head) ==>
          Answers(me.(pc := pc), i, p.shards[i].head))
    && (sh.Available() ==>
          || Answers(me.(pc := pc), s, sh.head) || sh.waking > 0 || sh.serving > 0
          || (p.shards[s].Available() && sh.head == p.shards[s].head && !Answers(me, s, sh.head)))
  }

  ghost predicate SharedMove(p: Pool, a: nat, pc: Pc, s: nat, sh: Shard)
    requires a < |p.agents| && s < |p.shards|
  {
    ShardMove(p, a, pc, s, sh) && ClaimsMove(p, a, pc, s, sh) && StillClears(p, a, pc) && AnswersMove(p, a, pc, s, sh)
  }

  lemma GrowsWith(p: Pool, a: nat, pc: Pc, s: nat, sh: Shard)
    requires a < |p.agents| && s < |p.shards| && ShardGrows(p.shards[s], sh) && ShardOk(sh) && Shape(p)
    ensures var q := ToWith(p, a, pc, s, sh); Grows(p, q) && Only(p, q, a) && Shape(q)
  {
  }

  lemma SharedAgents(p: Pool, a: nat, pc: Pc, s: nat, sh: Shard)
    requires Known(p, a) && AgentsOk(p) && s < |p.shards| && ShardMove(p, a, pc, s, sh)
    ensures var q := ToWith(p, a, pc, s, sh); Shape(q) && AgentsOk(q)
  {
    var q := ToWith(p, a, pc, s, sh);
    GrowsWith(p, a, pc, s, sh);
    AgentRoleStays(p, q, a);
    AgentsStay(p, q, a);
  }

  lemma SharedCounts(p: Pool, a: nat, pc: Pc, s: nat, sh: Shard)
    requires Known(p, a) && Counters(p) && Numbered(p) && Tokens(p.agents)
    requires s < |p.shards| && ShardMove(p, a, pc, s, sh)
    ensures var q := ToWith(p, a, pc, s, sh); Counters(q) && Numbered(q) && Tokens(q.agents)
  {
    var q := ToWith(p, a, pc, s, sh);
    CountersStay(p, q, a);
    NumberedStays(p, q, a);
    TokensStay(p.agents, a, q.agents[a]);
  }

  lemma SharedAwake(p: Pool, a: nat, pc: Pc, s: nat, sh: Shard)
    requires a < |p.agents| && s < |p.shards| && Awake(p) && AnswersMove(p, a, pc, s, sh)
    requires Counters(ToWith(p, a, pc, s, sh))
    ensures Awake(ToWith(p, a, pc, s, sh))
  {
    var q := ToWith(p, a, pc, s, sh);
    if !q.goexit && !q.starving {
      forall i | 0 <= i < |q.shards| && q.shards[i].Available() ensures Answered(q, a, i) || Untouched(p, q, a, i) {
        if i != s { assert q.shards[i] == p.shards[i]; }
      }
    }
    AwakeStays(p, q, a);
  }

  lemma Shared(p: Pool, a: nat, pc: Pc, s: nat, sh: Shard)
    requires Inv(p) && a < |p.agents| && s < |p.shards| && SharedMove(p, a, pc, s, sh)
    ensures Inv(ToWith(p, a, pc, s, sh))
  {
    InvKnown(p, a);
    SharedAgents(p, a, pc, s, sh);
    SharedCounts(p, a, pc, s, sh);
    SharedAwake(p, a, pc, s, sh);
    var q := ToWith(p, a, pc, s, sh);
    ClaimedStays(p, q, a);
    CoveredStays(p, q, a);
  }

  /** How a step moves the pool. */
  datatype Move = LocalTo(pc: Pc) | SharedTo(pc: Pc, s: nat, sh: Shard)

  ghost predicate Fits(p: Pool, q: Pool, a: nat, m: Move)
    requires a < |p.agents|
  {
    match m
    case LocalTo(pc) => q == To(p, a, pc) && LocalMove(p, a, pc)
    case SharedTo(pc, s, sh) => s < |p.shards| && q == ToWith(p, a, pc, s, sh) && SharedMove(p, a, pc, s, sh)
  }

  lemma MoveKeeps(p: Pool, q: Pool, a: nat, m: Move)
    requires Inv(p) && a < |p.agents| && Fits(p, q, a, m)
    ensures Inv(q)
  {
    match m
    case LocalTo(pc) => Local(p, a, pc);
    case SharedTo(pc, s, sh) => Shared(p, a, pc, s, sh);
  }

  // ---------------------------------------------------------------- notify

  /** A call of `notify` that holds nothing returns. */
  lemma Returns(p: Pool, a: nat)
    requires Known(p, a)
    requires var pc := p.agents[a].pc;
             && IsNotify(pc) && WakingHeld(pc) == None && ServingHeld(pc) == None
             && (p.starving ==> !WillFind(p.agents, pc) && !pc.SeekClear?)
             && (!p.starving ==> forall s :: 0 <= s < |p.shards| && p.shards[s].Available()
                                             && PcAnswers(pc, p.agents[a].role, s, p.shards[s].head) ==>
                                   p.shards[s].waking > 0 || p.shards[s].serving > 0)
    ensures LocalMove(p, a, Resume(KontOf(p.agents[a].pc), |p.shards|))
  {
    var me, n := p.agents[a], |p.shards|;
    var k := KontOf(me.pc);
    ResumeKeeps(p, k, me.role, n);
    forall s | 0 <= s < n && KontAnswers(k, me.role, s)
      ensures Answers(me.(pc := Resume(k, n)), s, p.shards[s].head)
    {
      ResumeAnswers(k, me.role, n, s, p.shards[s].head);
    }
  }

  /** The call returns, with the continuation as the new place. */
  lemma Returned(p: Pool, q: Pool, a: nat) returns (m: Move)
    requires Known(p, a)
    requires LocalMove(p, a, Resume(KontOf(p.agents[a].pc), |p.shards|))
    requires q == To(p, a, Resume(KontOf(p.agents[a].pc), |p.shards|))
    ensures Fits(p, q, a, m)
  {
    m := LocalTo(Resume(KontOf(p.agents[a].pc), |p.shards|));
  }

  lemma AskMoves(p: Pool, q: Pool, a: nat) returns (m: Move)
    requires Known(p, a) && AskStep(p, q, a)
    requires p.agents[a].pc.Ask? || p.agents[a].pc.AskLook? || p.agents[a].pc.AskStarving?
    ensures Fits(p, q, a, m)
  {
    match p.agents[a].pc
    case Ask(s, k) => m := LocalTo(AskLook(s, p.shards[s].head, k));
    case AskLook(s, pos, k) =>
      if q == To(p, a, AskStarving(s, k)) {
        m := LocalTo(AskStarving(s, k));
      } else {
        Returns(p, a);
        m := Returned(p, q, a);
      }
    case AskStarving(s, k) =>
      if p.starving { Returns(p, a); m := Returned(p, q, a); } else { m := LocalTo(AskWaking(s, k)); }
  }

  lemma AskCounterMoves(p: Pool, q: Pool, a: nat) returns (m: Move)
    requires Known(p, a) && AskStep(p, q, a)
    requires p.agents[a].pc.AskWaking? || p.agents[a].pc.AskServing? || p.agents[a].pc.AskLimit?
    ensures Fits(p, q, a, m)
  {
    match p.agents[a].pc
    case AskWaking(s, k) =>
      if p.shards[s].waking != 0 { Returns(p, a); m := Returned(p, q, a); } else { m := LocalTo(AskServing(s, k)); }
    case AskServing(s, k) => m := LocalTo(AskLimit(s, p.shards[s].serving, k));
    case AskLimit(s, serving, k) =>
      if serving >= p.shards[s].limit { Returns(p, a); m := Returned(p, q, a); } else { m := LocalTo(Grab(s, k)); }
  }

  lemma GrabMoves(p: Pool, a: nat, s: nat, k: Kont)
    requires Known(p, a) && p.agents[a].pc == Grab(s, k) && p.shards[s].waking == 0
    ensures SharedMove(p, a, Enter(s, k), s, p.shards[s].(waking := 1))
  {
  }

  lemma EnterMoves(p: Pool, a: nat, s: nat, k: Kont)
    requires Known(p, a) && p.agents[a].pc == Enter(s, k)
    ensures SharedMove(p, a, Hunting(s, OwnWake, k), s, p.shards[s].(serving := p.shards[s].serving + 1))
  {
  }

  lemma AskMovesAll(p: Pool, q: Pool, a: nat) returns (m: Move)
    requires Known(p, a) && AskStep(p, q, a)
    ensures Fits(p, q, a, m)
  {
    match p.agents[a].pc
    case AskWaking(_, _) => m := AskCounterMoves(p, q, a);
    case AskServing(_, _) => m := AskCounterMoves(p, q, a);
    case AskLimit(_, _, _) => m := AskCounterMoves(p, q, a);
    case Grab(s, k) =>
      if p.shards[s].waking == 0 {
        GrabMoves(p, a, s, k);
        m := SharedTo(Enter(s, k), s, p.shards[s].(waking := 1));
      } else {
        Returns(p, a);
        m := Returned(p, q, a);
      }
    case Enter(s, k) =>
      EnterMoves(p, a, s, k);
      m := SharedTo(Hunting(s, OwnWake, k), s, p.shards[s].(serving := p.shards[s].serving + 1));
    case _ => m := AskMoves(p, q, a);
  }

  // ---------------------------------------------------------------- submit, help and boost

  lemma ClaimMoves(p: Pool, a: nat, s: nat)
    requires Known(p, a) && p.agents[a].pc == Claim(s)
    ensures var sh := p.shards[s]; SharedMove(p, a, Store(s, |sh.written|), s, sh.(written := sh.written + [false]))
    ensures LocalMove(p, a, Overflow(s))
  {
  }

  lemma StoreMoves(p: Pool, a: nat, s: nat, pos: nat)
    requires Known(p, a) && p.agents[a].pc == Store(s, pos)
    ensures SharedMove(p, a, Ask(s, Finish), s, p.shards[s].(written := p.shards[s].written[pos := true]))
  {
  }

  lemma RaiseMoves(p: Pool, a: nat, s: nat, serving: int, queued: nat)
    requires Known(p, a) && p.agents[a].pc == BoostRaise(s, serving)
    ensures SharedMove(p, a, Ask(s, Finish), s, p.shards[s].(limit := Raised(serving, queued)))
  {
  }

  lemma SubmitMoves(p: Pool, q: Pool, a: nat) returns (m: Move)
    requires Known(p, a) && SubmitStep(p, q, a)
    requires p.agents[a].pc.Claim? || p.agents[a].pc.Store? || p.agents[a].pc.Overflow?
      || p.agents[a].pc.Help?
    ensures Fits(p, q, a, m)
  {
    match p.agents[a].pc
    case Claim(s) =>
      ClaimMoves(p, a, s);
      var sh := p.shards[s];
      if q == To(p, a, Overflow(s)) { m := LocalTo(Overflow(s)); }
      else { m := SharedTo(Store(s, |sh.written|), s, sh.(written := sh.written + [false])); }
    case Store(s, pos) =>
      StoreMoves(p, a, s, pos);
      m := SharedTo(Ask(s, Finish), s, p.shards[s].(written := p.shards[s].written[pos := true]));
    case Overflow(s) => m := LocalTo(if q == To(p, a, Done) then Done else PopLoad(s));
    case Help(s) => m := LocalTo(if q == To(p, a, PopLoad(s)) then PopLoad(s) else Done);
  }

  lemma BoostMoves(p: Pool, q: Pool, a: nat) returns (m: Move)
    requires Known(p, a) && SubmitStep(p, q, a) && (p.agents[a].pc.BoostServing? || p.agents[a].pc.BoostLimit?)
    ensures Fits(p, q, a, m)
  {
    match p.agents[a].pc
    case BoostServing(s) => m := LocalTo(if q == To(p, a, Done) then Done else BoostLimit(s, p.shards[s].serving));
    case BoostLimit(s, serving) => m := LocalTo(if serving < p.shards[s].limit then Done else BoostRaise(s, serving));
  }

  lemma BoostRaiseMoves(p: Pool, q: Pool, a: nat) returns (m: Move)
    requires Known(p, a) && SubmitStep(p, q, a) && p.agents[a].pc.BoostRaise?
    ensures Fits(p, q, a, m)
  {
    var BoostRaise(s, serving) := p.agents[a].pc;
    if q == To(p, a, Done) {
      m := LocalTo(Done);
    } else {
      var queued: nat :| q == ToWith(p, a, Ask(s, Finish), s, p.shards[s].(limit := Raised(serving, queued)));
      RaiseMoves(p, a, s, serving, queued);
      m := SharedTo(Ask(s, Finish), s, p.shards[s].(limit := Raised(serving, queued)));
    }
  }

  // ---------------------------------------------------------------- pop

  lemma TakeMoves(p: Pool, a: nat, s: nat, pos: nat)
    requires Known(p, a) && p.agents[a].pc == PopTake(s, pos) && pos == p.shards[s].head
    ensures SharedMove(p, a, if p.agents[a].role.Worker? then Peek(s) else Help(s), s, p.shards[s].(head := pos + 1))
  {
  }

  lemma LookMoves(p: Pool, a: nat, s: nat, pos: nat)
    requires Known(p, a) && p.agents[a].pc == PopLook(s, pos)
    ensures (pos == p.shards[s].head ==> p.shards[s].Available()) ==> LocalMove(p, a, PopTake(s, pos))
    ensures LocalMove(p, a, PopLoad(s))
    ensures (pos == p.shards[s].head && !p.shards[s].Available()) ==>
              LocalMove(p, a, if p.agents[a].role.Worker? then Drained(s) else Done)
  {
    assert ShardOk(p.shards[s]);
  }

  lemma PopMoves(p: Pool, q: Pool, a: nat) returns (m: Move)
    requires Known(p, a) && PopStep(p, q, a)
    ensures Fits(p, q, a, m)
  {
    match p.agents[a].pc
    case PopLoad(s) => m := LocalTo(PopLook(s, p.shards[s].head));
    case PopLook(s, pos) =>
      LookMoves(p, a, s, pos);
      m := LocalTo(if pos == p.shards[s].head && !p.shards[s].Available() then
                     if p.agents[a].role.Worker? then Drained(s) else Done
                   else if q == To(p, a, PopTake(s, pos)) then PopTake(s, pos) else PopLoad(s));
    case PopTake(s, pos) =>
      if pos == p.shards[s].head {
        TakeMoves(p, a, s, pos);
        m := SharedTo(if p.agents[a].role.Worker? then Peek(s) else Help(s), s, p.shards[s].(head := pos + 1));
      } else {
        m := LocalTo(PopLoad(s));
      }
  }

  // ---------------------------------------------------------------- work

  lemma ArriveMoves(p: Pool, a: nat, t: nat)
    requires Known(p, a) && p.agents[a].pc == Arrive(t)
    ensures SharedMove(p, a, PopLoad(t), t, p.shards[t].(waking := p.shards[t].waking - 1))
  {
  }

  lemma GoexitMoves(p: Pool, a: nat, t: nat)
    requires Known(p, a) && p.agents[a].pc == Exec(t)
    ensures SharedMove(p, a, Arrive(t), t, p.shards[t].(waking := p.shards[t].waking + 1))
  {
  }

  lemma ResetMoves(p: Pool, a: nat, t: nat)
    requires Known(p, a) && p.agents[a].pc == ResetLimit(t)
    ensures SharedMove(p, a, Register(t), t, p.shards[t].(limit := SOFT_WORKERS))
  {
  }

  lemma LeaveMoves(p: Pool, a: nat, t: nat)
    requires Known(p, a) && p.agents[a].pc == Leave(t)
    ensures SharedMove(p, a, CheckStarving(t), t, p.shards[t].(serving := p.shards[t].serving - 1))
  {
  }

  lemma PeekMoves(p: Pool, q: Pool, a: nat) returns (m: Move)
    requires Known(p, a) && WorkStep(p, q, a) && (p.agents[a].pc.Peek? || p.agents[a].pc.PeekLook?)
    ensures Fits(p, q, a, m)
  {
    match p.agents[a].pc
    case Peek(t) => m := LocalTo(PeekLook(t, p.shards[t].head));
    case PeekLook(t, pos) => m := LocalTo(if q == To(p, a, Exec(t)) then Exec(t) else Ask(t, Execute(t)));
  }

  lemma DrainedMoves(p: Pool, a: nat, t: nat)
    requires Known(p, a) && p.agents[a].pc == Drained(t)
    ensures LocalMove(p, a, ResetLimit(t)) && LocalMove(p, a, Register(t))
  {
  }

  lemma ExecMoves(p: Pool, a: nat, t: nat)
    requires Known(p, a) && p.agents[a].pc == Exec(t)
    ensures LocalMove(p, a, PopLoad(t))
  {
  }

  lemma ServeMoves(p: Pool, q: Pool, a: nat) returns (m: Move)
    requires Known(p, a) && WorkStep(p, q, a) && (p.agents[a].pc.Exec? || p.agents[a].pc.Drained?)
    ensures Fits(p, q, a, m)
  {
    match p.agents[a].pc
    case Exec(t) =>
      ExecMoves(p, a, t);
      GoexitMoves(p, a, t);
      m := if q == To(p, a, PopLoad(t)) then LocalTo(PopLoad(t))
           else SharedTo(Arrive(t), t, p.shards[t].(waking := p.shards[t].waking + 1));
    case Drained(t) =>
      DrainedMoves(p, a, t);
      m := LocalTo(if p.shards[t].limit != SOFT_WORKERS then ResetLimit(t) else Register(t));
  }

  lemma CountMoves(p: Pool, q: Pool, a: nat) returns (m: Move)
    requires Known(p, a) && WorkStep(p, q, a)
    requires var pc := p.agents[a].pc; pc.Arrive? || pc.ResetLimit? || pc.Leave?
    ensures Fits(p, q, a, m)
  {
    match p.agents[a].pc
    case Arrive(t) =>
      ArriveMoves(p, a, t);
      m := SharedTo(PopLoad(t), t, p.shards[t].(waking := p.shards[t].waking - 1));
    case ResetLimit(t) =>
      ResetMoves(p, a, t);
      m := SharedTo(Register(t), t, p.shards[t].(limit := SOFT_WORKERS));
    case Leave(t) =>
      LeaveMoves(p, a, t);
      m := SharedTo(CheckStarving(t), t, p.shards[t].(serving := p.shards[t].serving - 1));
  }

  lemma StarvingMoves(p: Pool, q: Pool, a: nat) returns (m: Move)
    requires Known(p, a) && WorkStep(p, q, a)
    requires p.agents[a].pc.CheckStarving? || (p.agents[a].pc.ClearStarving? && !p.starving)
    ensures Fits(p, q, a, m)
  {
    var me := p.agents[a];
    match me.pc
    case CheckStarving(t) => m := LocalTo(if p.starving then ClearStarving(t) else LastLook(me, t));
    case ClearStarving(t) => m := LocalTo(LastLook(me, t));
  }

  lemma TargetLookMoves(p: Pool, a: nat, t: nat, pos: nat)
    requires Known(p, a) && p.agents[a].pc == TargetLook(t, pos)
    ensures LocalMove(p, a, Ask(t, CheckOwn))
    ensures Reports(p.shards[t], pos, false) ==> LocalMove(p, a, OwnLoad)
  {
  }

  lemma OwnLookMoves(p: Pool, a: nat, pos: nat)
    requires Known(p, a) && p.agents[a].pc == OwnLook(pos)
    ensures LocalMove(p, a, Ask(p.agents[a].role.shard, Rest))
    ensures Reports(p.shards[p.agents[a].role.shard], pos, false) ==> LocalMove(p, a, Suspended)
  {
  }

  lemma LastMoves(p: Pool, q: Pool, a: nat) returns (m: Move)
    requires Known(p, a) && WorkStep(p, q, a)
    requires p.agents[a].pc.TargetLook? || p.agents[a].pc.OwnLook?
    ensures Fits(p, q, a, m)
  {
    var me := p.agents[a];
    match me.pc
    case TargetLook(t, pos) =>
      TargetLookMoves(p, a, t, pos);
      m := LocalTo(if q == To(p, a, Ask(t, CheckOwn)) then Ask(t, CheckOwn) else OwnLoad);
    case OwnLook(pos) =>
      OwnLookMoves(p, a, pos);
      m := LocalTo(if q == To(p, a, Ask(me.role.shard, Rest)) then Ask(me.role.shard, Rest) else Suspended);
  }

  lemma LoadMoves(p: Pool, q: Pool, a: nat) returns (m: Move)
    requires Known(p, a) && WorkStep(p, q, a) && (p.agents[a].pc.TargetLoad? || p.agents[a].pc.OwnLoad?)
    ensures Fits(p, q, a, m)
  {
    var me := p.agents[a];
    match me.pc
    case TargetLoad(t) => m := LocalTo(TargetLook(t, p.shards[t].head));
    case OwnLoad => m := LocalTo(OwnLook(p.shards[me.role.shard].head));
  }

  // ---------------------------------------------------------------- looking for a worker

  lemma TurnReaches(first: nat, n: nat, i: nat) returns (j: nat)
    requires i < n && first < n
    ensures j < n && Turn(first, j, n) == i
  {
    j := if i >= first then i - first else i + n - first;
    SmallMod(first + j, n);
  }

  lemma SmallMod(x: nat, n: nat)
    requires x < 2 * n
    ensures x % n == if x < n then x else x - n
  {
    if x >= n { assert x == n + (x - n); }
  }

  lemma HuntEnds(p: Pool, h: Hunt, s: nat)
    requires HuntOk(p, h, s) && h.LendStart? && h.done >= |p.shards|
    ensures AllFull(p)
  {
    forall i | 0 <= i < |p.shards| ensures Full(p, i) {
      var j := TurnReaches(h.first, |p.shards|, i);
      assert Full(p, Turn(h.first, j, |p.shards|));
    }
  }

  /** A failed start means that the shard is full. */
  lemma HuntGoesOn(p: Pool, h: Hunt, s: nat, first: nat)
    requires HuntOk(p, h, s) && Shape(p) && first < |p.shards|
    requires (h.OwnStart? || h.LendStart?) ==> Full(p, HuntShard(h, s, |p.shards|))
    ensures HuntOk(p, NextHunt(h, first), s)
  {
  }

  /** Going on looking for a worker. */
  lemma HuntOn(p: Pool, a: nat, pc: Pc)
    requires Known(p, a) && IsHunt(p.agents[a].pc) && IsHunt(pc) && PcOk(p, p.agents[a].role, pc)
    requires pc.s == p.agents[a].pc.s && pc.k == p.agents[a].pc.k
    ensures LocalMove(p, a, pc)
  {
  }

  predicate IsHunt(pc: Pc) { pc.Hunting? || pc.Scan? || pc.TakeBit? || pc.StartCas? || pc.FailServing? }

  lemma HuntMoves(p: Pool, q: Pool, a: nat) returns (m: Move)
    requires Known(p, a) && HuntStep(p, q, a) && p.agents[a].pc.Hunting?
    ensures Fits(p, q, a, m)
  {
    var Hunting(s, h, k) := p.agents[a].pc;
    var i, n := HuntShard(h, s, |p.shards|), |p.shards|;
    var pc := match h
      case OwnWake => Scan(s, h, 0, Words(p.shards[i].live), k)
      case OwnStart => StartCas(s, h, p.shards[i].live, k)
      case LendWake(first, done) =>
        if done >= n then Hunting(s, LendStart(first, 0), k)
        else if i == s then Hunting(s, NextHunt(h, 0), k) else Scan(s, h, 0, Words(p.shards[i].live), k)
      case LendStart(_, done) =>
        if done >= n then FailServing(s, k)
        else if i == s then Hunting(s, NextHunt(h, 0), k) else StartCas(s, h, p.shards[i].live, k);
    if h.LendStart? {
      if h.done >= n { HuntEnds(p, h, s); } else if i == s { HuntGoesOn(p, h, s, 0); }
    }
    HuntOn(p, a, pc);
    m := LocalTo(pc);
  }

  lemma ScanMoves(p: Pool, q: Pool, a: nat) returns (m: Move)
    requires Known(p, a) && HuntStep(p, q, a) && p.agents[a].pc.Scan?
    ensures Fits(p, q, a, m)
  {
    var Scan(s, h, word, words, k) := p.agents[a].pc;
    var pc := if word >= words then Hunting(s, NextHunt(h, 0), k)
              else if WordZero(p, HuntShard(h, s, |p.shards|), word) then Scan(s, h, word + 1, words, k)
              else TakeBit(s, h, word, words, k);
    HuntOn(p, a, pc);
    m := LocalTo(pc);
  }

  lemma StartMoves(p: Pool, q: Pool, a: nat) returns (m: Move)
    requires Known(p, a) && HuntStep(p, q, a) && p.agents[a].pc.StartCas?
    requires var pc := p.agents[a].pc; var sh := p.shards[HuntShard(pc.h, pc.s, |p.shards|)];
             pc.live >= sh.max || pc.live != sh.live
    ensures Fits(p, q, a, m)
  {
    var StartCas(s, h, live, k) := p.agents[a].pc;
    var i := HuntShard(h, s, |p.shards|);
    var pc;
    if live >= p.shards[i].max {
      var first :| 0 <= first < |p.shards| && q == To(p, a, Hunting(s, NextHunt(h, first), k));
      assert ShardOk(p.shards[i]);
      HuntGoesOn(p, h, s, first);
      pc := Hunting(s, NextHunt(h, first), k);
    } else {
      pc := Hunting(s, h, k);
    }
    HuntOn(p, a, pc);
    m := LocalTo(pc);
  }

  // ---------------------------------------------------------------- finding none

  lemma FullWith(p: Pool, a: nat, pc: Pc, s: nat, sh: Shard)
    requires Shape(p) && a < |p.agents| && s < |p.shards| && ShardGrows(p.shards[s], sh) && ShardOk(sh) && AllFull(p)
    ensures AllFull(ToWith(p, a, pc, s, sh))
  {
    GrowsWith(p, a, pc, s, sh);
    AllFullStays(p, ToWith(p, a, pc, s, sh));
  }

  lemma FailServingMoves(p: Pool, a: nat, s: nat, k: Kont)
    requires Known(p, a) && p.agents[a].pc == FailServing(s, k)
    ensures SharedMove(p, a, FailWaking(s, k), s, p.shards[s].(serving := p.shards[s].serving - 1))
  {
    FullWith(p, a, FailWaking(s, k), s, p.shards[s].(serving := p.shards[s].serving - 1));
  }

  lemma FailWakingMoves(p: Pool, a: nat, s: nat, k: Kont)
    requires Known(p, a) && p.agents[a].pc == FailWaking(s, k)
    ensures SharedMove(p, a, FailStarving(s, k), s, p.shards[s].(waking := p.shards[s].waking - 1))
  {
    FullWith(p, a, FailStarving(s, k), s, p.shards[s].(waking := p.shards[s].waking - 1));
  }

  lemma NoneAheadOfAll(p: Pool, i: nat)
    requires RolesOk(p) && i >= |p.shards|
    ensures !IdleAhead(p.agents, i, 0)
  {
    forall w | 0 <= w < |p.agents| ensures !Ahead(p.agents[w].role, i, 0) { assert RoleOk(p, p.agents[w].role); }
  }

  lemma AheadNextWord(p: Pool, i: nat, word: nat)
    requires WordZero(p, i, word) && IdleAhead(p.agents, i, word)
    ensures IdleAhead(p.agents, i, word + 1)
  {
    var w :| 0 <= w < |p.agents| && p.agents[w].idle && Ahead(p.agents[w].role, i, word);
    assert !InWord(p.agents[w], i, word);
    assert Ahead(p.agents[w].role, i, word + 1);
  }

  lemma AheadNextShard(p: Pool, i: nat, word: nat)
    requires RolesOk(p) && i < |p.shards| && word >= Words(p.shards[i].live) && IdleAhead(p.agents, i, word)
    ensures IdleAhead(p.agents, i + 1, 0)
  {
    var w :| 0 <= w < |p.agents| && p.agents[w].idle && Ahead(p.agents[w].role, i, word);
    assert RoleOk(p, p.agents[w].role);
    assert Ahead(p.agents[w].role, i + 1, 0);
  }

  lemma SeekMoves(p: Pool, q: Pool, a: nat) returns (m: Move)
    requires Known(p, a) && FailStep(p, q, a)
    requires p.agents[a].pc.SeekShard? || (p.agents[a].pc.SeekClear? && !p.starving)
    ensures Fits(p, q, a, m)
  {
    match p.agents[a].pc
    case SeekShard(i, k) =>
      if i >= |p.shards| { NoneAheadOfAll(p, i); Returns(p, a); m := Returned(p, q, a); }
      else { m := LocalTo(SeekWord(i, 0, Words(p.shards[i].live), k)); }
    case SeekClear(k) => Returns(p, a); m := Returned(p, q, a);
  }

  lemma SeekShardMoves(p: Pool, a: nat, i: nat, word: nat, words: nat, k: Kont)
    requires Known(p, a) && p.agents[a].pc == SeekWord(i, word, words, k) && word >= words
    ensures LocalMove(p, a, SeekShard(i + 1, k))
  {
    if IdleAhead(p.agents, i, word) { AheadNextShard(p, i, word); }
  }

  lemma SeekWordMoves(p: Pool, a: nat, i: nat, word: nat, words: nat, k: Kont)
    requires Known(p, a) && p.agents[a].pc == SeekWord(i, word, words, k) && WordZero(p, i, word)
    ensures LocalMove(p, a, SeekWord(i, word + 1, words, k))
  {
    if IdleAhead(p.agents, i, word) { AheadNextWord(p, i, word); }
  }

  lemma SeekFoundMoves(p: Pool, a: nat, i: nat, word: nat, words: nat, k: Kont)
    requires Known(p, a) && p.agents[a].pc == SeekWord(i, word, words, k)
    ensures LocalMove(p, a, SeekClear(k))
  {
  }
}
