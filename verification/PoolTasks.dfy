/** Every task that a pool accepts is run once: counted over the steps of a run, whatever the interleaving. */
module PoolTasks {
  import opened Wrappers
  import opened PoolModel
  import PoolWakeup

  // ---------------------------------------------------------------- who holds a task

  /** The continuation ends with running a task. */
  predicate Returns(k: Kont) {
    match k
    case Execute(_) => true
    case Sweep(_, after) => Returns(after)
    case _ => false
  }

  /** The agent is running a task. */
  predicate Runs(pc: Pc) { pc.Exec? || pc.Help? || pc.Overflow? }

  /** The agent has a task that is in no queue: it runs it, or will when its call of notify has returned. */
  predicate Holds(pc: Pc) {
    match pc
    case Peek(_) => true
    case PeekLook(_, _) => true
    case Ask(_, k) => Returns(k)
    case AskLook(_, _, k) => Returns(k)
    case AskStarving(_, k) => Returns(k)
    case AskWaking(_, k) => Returns(k)
    case AskServing(_, k) => Returns(k)
    case AskLimit(_, _, k) => Returns(k)
    case Grab(_, k) => Returns(k)
    case Enter(_, k) => Returns(k)
    case Hunting(_, _, k) => Returns(k)
    case Scan(_, _, _, _, k) => Returns(k)
    case TakeBit(_, _, _, _, k) => Returns(k)
    case Send(_, _, k) => Returns(k)
    case StartCas(_, _, _, k) => Returns(k)
    case Spawn(_, _, _, k) => Returns(k)
    case FailServing(_, k) => Returns(k)
    case FailWaking(_, k) => Returns(k)
    case FailStarving(_, k) => Returns(k)
    case SeekShard(_, k) => Returns(k)
    case SeekWord(_, _, _, k) => Returns(k)
    case SeekClear(k) => Returns(k)
    case _ => Runs(pc)
  }

  function One(b: bool): nat { if b then 1 else 0 }

  function Held(agents: seq<Agent>): nat {
    if agents == [] then 0 else Held(agents[..|agents| - 1]) + One(Holds(agents[|agents| - 1].pc))
  }

  /** The tasks in the queues, with those that are being stored. */
  function Queued(shards: seq<Shard>): int {
    if shards == [] then 0
    else Queued(shards[..|shards| - 1]) + |shards[|shards| - 1].written| - shards[|shards| - 1].head
  }

  lemma {:induction false} ResumeHolds(k: Kont, count: nat)
    ensures Holds(Resume(k, count)) == Returns(k)
  {
    match k
    case Sweep(n, after) => ResumeHolds(after, count);
    case _ =>
  }

  lemma {:induction false} HeldSame(agents: seq<Agent>, next: seq<Agent>)
    requires |next| == |agents| && forall j :: 0 <= j < |agents| ==> next[j].pc == agents[j].pc
    ensures Held(next) == Held(agents)
  {
    if agents != [] { HeldSame(agents[..|agents| - 1], next[..|agents| - 1]); }
  }

  lemma {:induction false} HeldUpdate(agents: seq<Agent>, next: seq<Agent>, a: nat)
    requires a < |agents| == |next| && forall j :: 0 <= j < |agents| && j != a ==> next[j].pc == agents[j].pc
    ensures Held(next) + One(Holds(agents[a].pc)) == Held(agents) + One(Holds(next[a].pc))
  {
    var n := |agents| - 1;
    if a == n {
      HeldSame(agents[..n], next[..n]);
    } else {
      HeldUpdate(agents[..n], next[..n], a);
    }
  }

  lemma HeldJoin(agents: seq<Agent>, b: Agent)
    ensures Held(agents + [b]) == Held(agents) + One(Holds(b.pc))
  {
    assert (agents + [b])[..|agents|] == agents;
  }

  lemma {:induction false} QueuedUpdate(shards: seq<Shard>, s: nat, sh: Shard)
    requires s < |shards|
    ensures Queued(shards[s := sh]) - (|sh.written| - sh.head)
            == Queued(shards) - (|shards[s].written| - shards[s].head)
  {
    var n := |shards| - 1;
    var next := shards[s := sh];
    if s == n {
      assert next[..n] == shards[..n];
    } else {
      QueuedUpdate(shards[..n], s, sh);
      assert next[..n] == shards[..n][s := sh];
    }
  }

  // ---------------------------------------------------------------- one step

  /** Agent `a` alone moves; a worker that it may start begins without a task. */
  ghost predicate Alone(p: Pool, q: Pool, a: nat) {
    && a < |p.agents| <= |q.agents| <= |p.agents| + 1
    && (forall j :: 0 <= j < |p.agents| && j != a ==> q.agents[j].pc == p.agents[j].pc)
    && (|q.agents| > |p.agents| ==> !Holds(q.agents[|p.agents|].pc))
  }

  /** A task changes hands: a submit brings it, a run ends it, otherwise the queues and the agent exchange it. */
  ghost predicate Balances(p: Pool, q: Pool, a: nat) {
    && Alone(p, q, a)
    && Queued(q.shards) + One(Holds(q.agents[a].pc)) + One(Runs(p.agents[a].pc))
       == Queued(p.shards) + One(Holds(p.agents[a].pc)) + One(p.agents[a].pc.Claim?)
    && (Runs(p.agents[a].pc) || p.agents[a].pc.Claim? ==> q.agents[a].pc != p.agents[a].pc)
  }

  /** What the move from one place to another says of tasks, when the queues grow by `d`. */
  predicate Fair(pc: Pc, next: Pc, d: int) {
    && d + One(Holds(next)) + One(Runs(pc)) == One(Holds(pc)) + One(pc.Claim?)
    && (Runs(pc) || pc.Claim? ==> next != pc)
  }

  lemma Local(p: Pool, a: nat, next: Pc)
    requires a < |p.agents| && Fair(p.agents[a].pc, next, 0)
    ensures Balances(p, To(p, a, next), a)
  {
  }

  lemma LocalFlag(p: Pool, a: nat, next: Pc, starving: bool)
    requires a < |p.agents| && Fair(p.agents[a].pc, next, 0)
    ensures Balances(p, ToStarving(p, a, next, starving), a)
  {
    Local(p, a, next);
  }

  lemma Shared(p: Pool, a: nat, next: Pc, s: nat, sh: Shard, d: int)
    requires a < |p.agents| && s < |p.shards| && Fair(p.agents[a].pc, next, d)
    requires |sh.written| - sh.head == |p.shards[s].written| - p.shards[s].head + d
    ensures Balances(p, ToWith(p, a, next, s, sh), a)
  {
    QueuedUpdate(p.shards, s, sh);
  }

  lemma SubmitBalances(p: Pool, q: Pool, a: nat)
    requires a < |p.agents| && SubmitStep(p, q, a)
    ensures Balances(p, q, a)
  {
    match p.agents[a].pc
    case Claim(s) =>
      var sh := p.shards[s];
      if q == To(p, a, Overflow(s)) { Local(p, a, Overflow(s)); }
      else { Shared(p, a, Store(s, |sh.written|), s, sh.(written := sh.written + [false]), 1); }
    case Store(s, pos) =>
      Shared(p, a, Ask(s, Finish), s, p.shards[s].(written := p.shards[s].written[pos := true]), 0);
    case Overflow(s) => if q == To(p, a, Done) { Local(p, a, Done); } else { Local(p, a, PopLoad(s)); }
    case Help(s) => if q == To(p, a, Done) { Local(p, a, Done); } else { Local(p, a, PopLoad(s)); }
    case BoostServing(_) => BoostBalances(p, q, a);
    case BoostLimit(_, _) => BoostBalances(p, q, a);
    case BoostRaise(_, _) => BoostBalances(p, q, a);
  }

  lemma BoostBalances(p: Pool, q: Pool, a: nat)
    requires a < |p.agents| && SubmitStep(p, q, a)
    requires p.agents[a].pc.BoostServing? || p.agents[a].pc.BoostLimit? || p.agents[a].pc.BoostRaise?
    ensures Balances(p, q, a)
  {
    if q == To(p, a, Done) {
      Local(p, a, Done);
    } else if p.agents[a].pc.BoostRaise? {
      var s, serving := p.agents[a].pc.s, p.agents[a].pc.serving;
      var queued: nat :| q == ToWith(p, a, Ask(s, Finish), s, p.shards[s].(limit := Raised(serving, queued)));
      Shared(p, a, Ask(s, Finish), s, p.shards[s].(limit := Raised(serving, queued)), 0);
    } else {
      Local(p, a, q.agents[a].pc);
    }
  }

  lemma PopBalances(p: Pool, q: Pool, a: nat)
    requires a < |p.agents| && PopStep(p, q, a)
    ensures Balances(p, q, a)
  {
    match p.agents[a].pc
    case PopLoad(s) => Local(p, a, PopLook(s, p.shards[s].head));
    case PopLook(s, pos) => Local(p, a, q.agents[a].pc);
    case PopTake(s, pos) => TakeBalances(p, q, a);
  }

  lemma TakeBalances(p: Pool, q: Pool, a: nat)
    requires a < |p.agents| && p.agents[a].pc.PopTake? && PopStep(p, q, a)
    ensures Balances(p, q, a)
  {
    var s, pos := p.agents[a].pc.s, p.agents[a].pc.pos;
    if pos == p.shards[s].head {
      Shared(p, a, if p.agents[a].role.Worker? then Peek(s) else Help(s), s, p.shards[s].(head := pos + 1), -1);
    } else {
      Local(p, a, PopLoad(s));
    }
  }

  lemma AskBalances(p: Pool, q: Pool, a: nat)
    requires a < |p.agents| && AskStep(p, q, a)
    ensures Balances(p, q, a)
  {
    match p.agents[a].pc
    case Grab(s, k) => GrabBalances(p, q, a);
    case Enter(s, k) =>
      Shared(p, a, Hunting(s, OwnWake, k), s, p.shards[s].(serving := p.shards[s].serving + 1), 0);
    case _ => AskLooks(p, q, a);
  }

  lemma GrabBalances(p: Pool, q: Pool, a: nat)
    requires a < |p.agents| && p.agents[a].pc.Grab? && AskStep(p, q, a)
    ensures Balances(p, q, a)
  {
    var s, k := p.agents[a].pc.s, p.agents[a].pc.k;
    if p.shards[s].waking != 0 { Back(p, a, k); } else { Shared(p, a, Enter(s, k), s, p.shards[s].(waking := 1), 0); }
  }

  lemma AskLooks(p: Pool, q: Pool, a: nat)
    requires a < |p.agents| && AskStep(p, q, a) && !p.agents[a].pc.Grab? && !p.agents[a].pc.Enter?
    ensures Balances(p, q, a)
  {
    var k := p.agents[a].pc.k;
    if q == To(p, a, Resume(k, |p.shards|)) {
      Back(p, a, k);
    } else {
      AskGoesOn(p, q, a);
      Local(p, a, q.agents[a].pc);
    }
  }

  lemma AskGoesOn(p: Pool, q: Pool, a: nat)
    requires a < |p.agents| && AskStep(p, q, a) && !p.agents[a].pc.Grab? && !p.agents[a].pc.Enter?
    requires q != To(p, a, Resume(p.agents[a].pc.k, |p.shards|))
    ensures a < |q.agents| && q == To(p, a, q.agents[a].pc) && Fair(p.agents[a].pc, q.agents[a].pc, 0)
  {
  }

  /** The call of notify returns. */
  lemma Back(p: Pool, a: nat, k: Kont)
    requires a < |p.agents| && Fair(p.agents[a].pc, Ask(0, k), 0)
    ensures Balances(p, To(p, a, Resume(k, |p.shards|)), a)
  {
    ResumeHolds(k, |p.shards|);
    Local(p, a, Resume(k, |p.shards|));
  }

  lemma HuntBalances(p: Pool, q: Pool, a: nat)
    requires a < |p.agents| && HuntStep(p, q, a)
    ensures Balances(p, q, a)
  {
    match p.agents[a].pc
    case TakeBit(_, _, _, _, _) => TakeBitBalances(p, q, a);
    case Send(s, w, k) => SendBalances(p, a, w, s, k);
    case StartCas(_, _, _, _) => StartBalances(p, q, a);
    case Spawn(s, i, id, k) => SpawnBalances(p, a, s, i, id, k);
    case Hunting(_, _, _) => HuntLooks(p, q, a);
    case Scan(_, _, _, _, _) => HuntLooks(p, q, a);
  }

  lemma HuntLooks(p: Pool, q: Pool, a: nat)
    requires a < |p.agents| && (p.agents[a].pc.Hunting? || p.agents[a].pc.Scan?) && HuntStep(p, q, a)
    ensures Balances(p, q, a)
  {
    Local(p, a, q.agents[a].pc);
  }

  lemma TakeBitBalances(p: Pool, q: Pool, a: nat)
    requires a < |p.agents| && p.agents[a].pc.TakeBit? && HuntStep(p, q, a)
    ensures Balances(p, q, a)
  {
    var pc := p.agents[a].pc;
    if q == To(p, a, Scan(pc.s, pc.h, pc.word, pc.words, pc.k)) {
      Local(p, a, Scan(pc.s, pc.h, pc.word, pc.words, pc.k));
    } else {
      var w :| LowestIdle(p, HuntShard(pc.h, pc.s, |p.shards|), pc.word, w)
               && q == To(SetBit(p, w, false), a, Send(pc.s, w, pc.k));
      BitBalances(p, a, w, Send(pc.s, w, pc.k));
    }
  }

  lemma BitBalances(p: Pool, a: nat, w: nat, next: Pc)
    requires a < |p.agents| && w < |p.agents| && Fair(p.agents[a].pc, next, 0)
    ensures Balances(p, To(SetBit(p, w, false), a, next), a)
  {
  }

  lemma SendBalances(p: Pool, a: nat, w: nat, s: nat, k: Kont)
    requires a < |p.agents| && w < |p.agents| && p.agents[a].pc == Send(s, w, k)
    ensures Balances(p, To(SetInbox(p, w, Some(s)), a, Resume(k, |p.shards|)), a)
  {
    ResumeHolds(k, |p.shards|);
  }

  lemma StartBalances(p: Pool, q: Pool, a: nat)
    requires a < |p.agents| && p.agents[a].pc.StartCas? && HuntStep(p, q, a)
    ensures Balances(p, q, a)
  {
    var pc := p.agents[a].pc;
    var i := HuntShard(pc.h, pc.s, |p.shards|);
    if pc.live < p.shards[i].max && pc.live == p.shards[i].live {
      Shared(p, a, Spawn(pc.s, i, pc.live, pc.k), i, p.shards[i].(live := pc.live + 1), 0);
    } else {
      Local(p, a, q.agents[a].pc);
    }
  }

  lemma SpawnBalances(p: Pool, a: nat, s: nat, i: nat, id: nat, k: Kont)
    requires a < |p.agents| && p.agents[a].pc == Spawn(s, i, id, k)
    ensures Balances(p, Join(To(p, a, Resume(k, |p.shards|)), Agent(Worker(i, id), Arrive(s), false, None)), a)
  {
    ResumeHolds(k, |p.shards|);
  }

  lemma FailBalances(p: Pool, q: Pool, a: nat)
    requires a < |p.agents| && FailStep(p, q, a)
    ensures Balances(p, q, a)
  {
    match p.agents[a].pc
    case FailServing(s, k) =>
      Shared(p, a, FailWaking(s, k), s, p.shards[s].(serving := p.shards[s].serving - 1), 0);
    case FailWaking(s, k) =>
      Shared(p, a, FailStarving(s, k), s, p.shards[s].(waking := p.shards[s].waking - 1), 0);
    case FailStarving(s, k) => LocalFlag(p, a, SeekShard(0, k), true);
    case _ => SeekBalances(p, q, a);
  }

  lemma SeekBalances(p: Pool, q: Pool, a: nat)
    requires a < |p.agents| && FailStep(p, q, a)
    requires p.agents[a].pc.SeekShard? || p.agents[a].pc.SeekWord? || p.agents[a].pc.SeekClear?
    ensures Balances(p, q, a)
  {
    var k := p.agents[a].pc.k;
    if q == To(p, a, Resume(k, |p.shards|)) {
      Back(p, a, k);
    } else if p.agents[a].pc.SeekClear? {
      ResumeHolds(Sweep(0, k), |p.shards|);
      LocalFlag(p, a, Resume(Sweep(0, k), |p.shards|), false);
    } else {
      Local(p, a, q.agents[a].pc);
    }
  }

  lemma WorkBalances(p: Pool, q: Pool, a: nat)
    requires a < |p.agents| && WorkStep(p, q, a)
    ensures Balances(p, q, a)
  {
    match p.agents[a].pc
    case Arrive(_) => CountBalances(p, q, a);
    case Exec(_) => ExecBalances(p, q, a);
    case ResetLimit(_) => CountBalances(p, q, a);
    case Register(t) => BitOnBalances(p, a, Leave(t));
    case Leave(_) => CountBalances(p, q, a);
    case ClearStarving(_) => ClearBalances(p, q, a);
    case Suspended => WakeBalances(p, a);
    case _ => LookBalances(p, q, a);
  }

  lemma CountBalances(p: Pool, q: Pool, a: nat)
    requires a < |p.agents| && WorkStep(p, q, a)
    requires p.agents[a].pc.Arrive? || p.agents[a].pc.ResetLimit? || p.agents[a].pc.Leave?
    ensures Balances(p, q, a)
  {
    match p.agents[a].pc
    case Arrive(t) => Shared(p, a, PopLoad(t), t, p.shards[t].(waking := p.shards[t].waking - 1), 0);
    case ResetLimit(t) => Shared(p, a, Register(t), t, p.shards[t].(limit := SOFT_WORKERS), 0);
    case Leave(t) => Shared(p, a, CheckStarving(t), t, p.shards[t].(serving := p.shards[t].serving - 1), 0);
  }

  lemma ExecBalances(p: Pool, q: Pool, a: nat)
    requires a < |p.agents| && p.agents[a].pc.Exec? && WorkStep(p, q, a)
    ensures Balances(p, q, a)
  {
    var t := p.agents[a].pc.t;
    if q == To(p, a, PopLoad(t)) {
      Local(p, a, PopLoad(t));
    } else {
      Shared(p, a, Arrive(t), t, p.shards[t].(waking := p.shards[t].waking + 1), 0);
    }
  }

  lemma ClearBalances(p: Pool, q: Pool, a: nat)
    requires a < |p.agents| && p.agents[a].pc.ClearStarving? && WorkStep(p, q, a)
    ensures Balances(p, q, a)
  {
    if p.starving {
      ResumeHolds(Sweep(0, Rest), |p.shards|);
      LocalFlag(p, a, Resume(Sweep(0, Rest), |p.shards|), false);
    } else {
      Local(p, a, LastLook(p.agents[a], p.agents[a].pc.t));
    }
  }

  lemma LookBalances(p: Pool, q: Pool, a: nat)
    requires a < |p.agents| && WorkStep(p, q, a) && (FirstLook(p.agents[a].pc) || SecondLook(p.agents[a].pc))
    ensures Balances(p, q, a)
  {
    if FirstLook(p.agents[a].pc) { FirstLooks(p, q, a); } else { SecondLooks(p, q, a); }
    Local(p, a, q.agents[a].pc);
  }

  predicate FirstLook(pc: Pc) { pc.Peek? || pc.PeekLook? || pc.Drained? || pc.CheckStarving? }

  predicate SecondLook(pc: Pc) { pc.TargetLoad? || pc.TargetLook? || pc.OwnLoad? || pc.OwnLook? }

  lemma FirstLooks(p: Pool, q: Pool, a: nat)
    requires a < |p.agents| && WorkStep(p, q, a) && FirstLook(p.agents[a].pc)
    ensures a < |q.agents| && q == To(p, a, q.agents[a].pc) && Fair(p.agents[a].pc, q.agents[a].pc, 0)
  {
  }

  lemma SecondLooks(p: Pool, q: Pool, a: nat)
    requires a < |p.agents| && WorkStep(p, q, a) && SecondLook(p.agents[a].pc)
    ensures a < |q.agents| && q == To(p, a, q.agents[a].pc) && Fair(p.agents[a].pc, q.agents[a].pc, 0)
  {
  }

  lemma BitOnBalances(p: Pool, a: nat, next: Pc)
    requires a < |p.agents| && Fair(p.agents[a].pc, next, 0)
    ensures Balances(p, To(SetBit(p, a, true), a, next), a)
  {
  }

  lemma WakeBalances(p: Pool, a: nat)
    requires a < |p.agents| && p.agents[a].pc == Suspended && p.agents[a].inbox.Some?
    ensures Balances(p, To(SetInbox(p, a, None), a, Arrive(p.agents[a].inbox.value)), a)
  {
  }

  // ---------------------------------------------------------------- every run

  /** An agent leaves the place where it runs a task: the task has been run. */
  ghost predicate Finishes(p: Pool, q: Pool) {
    exists a :: 0 <= a < |p.agents| && a < |q.agents| && Runs(p.agents[a].pc) && q.agents[a].pc != p.agents[a].pc
  }

  /** A submit is accepted: its task gets a position in a queue, or a helper. */
  ghost predicate Accepts(p: Pool, q: Pool) {
    exists a :: 0 <= a < |p.agents| && a < |q.agents| && p.agents[a].pc.Claim? && q.agents[a].pc != p.agents[a].pc
  }

  ghost function Submitted(run: seq<Pool>): nat {
    if |run| <= 1 then 0 else Submitted(run[..|run| - 1]) + One(Accepts(run[|run| - 2], run[|run| - 1]))
  }

  ghost function Ran(run: seq<Pool>): nat {
    if |run| <= 1 then 0 else Ran(run[..|run| - 1]) + One(Finishes(run[|run| - 2], run[|run| - 1]))
  }

  lemma AloneCounts(p: Pool, q: Pool, a: nat)
    requires Balances(p, q, a)
    ensures Finishes(p, q) <==> Runs(p.agents[a].pc)
    ensures Accepts(p, q) <==> p.agents[a].pc.Claim?
    ensures Held(q.agents) + One(Holds(p.agents[a].pc)) == Held(p.agents) + One(Holds(q.agents[a].pc))
  {
    var n := |p.agents|;
    HeldUpdate(p.agents, q.agents[..n], a);
    if |q.agents| > n {
      assert q.agents == q.agents[..n] + [q.agents[n]];
      HeldJoin(q.agents[..n], q.agents[n]);
    } else {
      assert q.agents[..n] == q.agents;
    }
  }

  lemma JoinCounts(p: Pool, b: Agent)
    requires !Holds(b.pc)
    ensures var q := Join(p, b); Held(q.agents) == Held(p.agents) && !Finishes(p, q) && !Accepts(p, q)
  {
    HeldJoin(p.agents, b);
  }

  lemma StepBalances(p: Pool, q: Pool)
    requires Step(p, q)
    ensures Queued(q.shards) + Held(q.agents) + One(Finishes(p, q))
            == Queued(p.shards) + Held(p.agents) + One(Accepts(p, q))
  {
    if s :| Arrives(p, q, s) {
      var b := if q == Join(p, Agent(Outside, Claim(s), false, None)) then Agent(Outside, Claim(s), false, None)
               else Agent(Outside, BoostServing(s), false, None);
      JoinCounts(p, b);
    } else {
      var a :| 0 <= a < |p.agents| && AgentStep(p, q, a);
      AgentBalances(p, q, a);
      AloneCounts(p, q, a);
    }
  }

  lemma AgentBalances(p: Pool, q: Pool, a: nat)
    requires a < |p.agents| && AgentStep(p, q, a)
    ensures Balances(p, q, a)
  {
    if SubmitStep(p, q, a) { SubmitBalances(p, q, a); }
    else if PopStep(p, q, a) { PopBalances(p, q, a); }
    else if AskStep(p, q, a) { AskBalances(p, q, a); }
    else if HuntStep(p, q, a) { HuntBalances(p, q, a); }
    else if FailStep(p, q, a) { FailBalances(p, q, a); }
    else { WorkBalances(p, q, a); }
  }

  /** In every run each accepted task is in a queue, in the hands of one agent, or has been run; none is run twice. */
  lemma {:induction false} TasksAccounted(run: seq<Pool>)
    requires Execution(run)
    ensures var p := run[|run| - 1]; Submitted(run) == Ran(run) + Queued(p.shards) + Held(p.agents)
  {
    if |run| == 1 {
      InitialQueued(run[0].shards);
    } else {
      PoolWakeup.Prefix(run);
      TasksAccounted(run[..|run| - 1]);
      StepBalances(run[|run| - 2], run[|run| - 1]);
    }
  }

  lemma {:induction false} InitialQueued(shards: seq<Shard>)
    requires forall s :: 0 <= s < |shards| ==> shards[s].head == |shards[s].written|
    ensures Queued(shards) == 0
  {
    if shards != [] { InitialQueued(shards[..|shards| - 1]); }
  }

  lemma {:induction false} QuietHeld(agents: seq<Agent>)
    requires forall a :: 0 <= a < |agents| ==> agents[a].pc == Suspended || agents[a].pc == Done
    ensures Held(agents) == 0
  {
    if agents != [] { QuietHeld(agents[..|agents| - 1]); }
  }

  /** When everything has come to rest, every task that was accepted has been run, exactly once. */
  lemma AllTasksRun(run: seq<Pool>)
    requires Execution(run) && !run[0].goexit && Quiet(run[|run| - 1])
    ensures Ran(run) == Submitted(run)
  {
    TasksAccounted(run);
    PoolWakeup.NoLostWakeup(run);
    InitialQueued(run[|run| - 1].shards);
    QuietHeld(run[|run| - 1].agents);
  }
}
