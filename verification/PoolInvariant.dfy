/** What every reachable state of the pool satisfies: counters, tokens, and somebody in charge of every waiting task. */
module PoolInvariant {
  import opened Wrappers
  import opened PoolModel

  function B(b: bool): nat { if b then 1 else 0 }

  // ---------------------------------------------------------------- what an agent holds

  /** The continuation of an agent inside `notify`. */
  function KontOf(pc: Pc): Kont {
    match pc
    case Ask(_, k) => k
    case AskLook(_, _, k) => k
    case AskStarving(_, k) => k
    case AskWaking(_, k) => k
    case AskServing(_, k) => k
    case AskLimit(_, _, k) => k
    case Grab(_, k) => k
    case Enter(_, k) => k
    case Hunting(_, _, k) => k
    case Scan(_, _, _, _, k) => k
    case TakeBit(_, _, _, _, k) => k
    case Send(_, _, k) => k
    case StartCas(_, _, _, k) => k
    case Spawn(_, _, _, k) => k
    case FailServing(_, k) => k
    case FailWaking(_, k) => k
    case FailStarving(_, k) => k
    case SeekShard(_, k) => k
    case SeekWord(_, _, _, k) => k
    case SeekClear(k) => k
    case _ => Finish
  }

  /** The shard a worker serves, once the calls it is in have returned. */
  function Served(k: Kont): Option<nat> {
    match k
    case Execute(t) => Some(t)
    case Sweep(_, k1) => Served(k1)
    case _ => None
  }

  /** The shard whose wakingWorkers the agent holds. */
  function WakingHeld(pc: Pc): Option<nat> {
    match pc
    case Enter(s, _) => Some(s)
    case Hunting(s, _, _) => Some(s)
    case Scan(s, _, _, _, _) => Some(s)
    case TakeBit(s, _, _, _, _) => Some(s)
    case Send(s, _, _) => Some(s)
    case StartCas(s, _, _, _) => Some(s)
    case Spawn(s, _, _, _) => Some(s)
    case FailServing(s, _) => Some(s)
    case FailWaking(s, _) => Some(s)
    case Arrive(t) => Some(t)
    case _ => None
  }

  /** The shard whose servingWorkers the agent holds on behalf of a worker it looks for. */
  function ServingHeld(pc: Pc): Option<nat> {
    match pc
    case Hunting(s, _, _) => Some(s)
    case Scan(s, _, _, _, _) => Some(s)
    case TakeBit(s, _, _, _, _) => Some(s)
    case Send(s, _, _) => Some(s)
    case StartCas(s, _, _, _) => Some(s)
    case Spawn(s, _, _, _) => Some(s)
    case FailServing(s, _) => Some(s)
    case _ => None
  }

  /** The shard a worker takes tasks from, before it registers as suspended. */
  function Serving(role: Role, pc: Pc): Option<nat> {
    match pc
    case PopLoad(s) => if role.Worker? then Some(s) else None
    case PopLook(s, _) => if role.Worker? then Some(s) else None
    case PopTake(s, _) => if role.Worker? then Some(s) else None
    case Arrive(t) => Some(t)
    case Peek(t) => Some(t)
    case PeekLook(t, _) => Some(t)
    case Exec(t) => Some(t)
    case Drained(t) => Some(t)
    case ResetLimit(t) => Some(t)
    case Register(t) => Some(t)
    case _ => Served(KontOf(pc))
  }

  /** A quantity that the agents hold between them. */
  datatype Measure = WakingOf(s: nat) | ServingOf(s: nat) | TokenAt(shard: nat, id: nat) | SendsTo(worker: nat)

  function Weight(m: Measure, a: Agent): nat {
    match m
    case WakingOf(s) => B(WakingHeld(a.pc) == Some(s)) + B(a.inbox == Some(s))
    case ServingOf(s) =>
      B(ServingHeld(a.pc) == Some(s)) + B(Serving(a.role, a.pc) == Some(s)) + B(a.pc == Leave(s))
      + B(a.inbox == Some(s))
    case TokenAt(i, id) => B(a.role == Worker(i, id)) + B(a.pc.Spawn? && a.pc.shard == i && a.pc.id == id)
    case SendsTo(w) => B(a.pc.Send? && a.pc.worker == w)
  }

  function Sum(m: Measure, agents: seq<Agent>): nat {
    if agents == [] then 0 else Sum(m, agents[..|agents| - 1]) + Weight(m, agents[|agents| - 1])
  }

  lemma SumJoin(m: Measure, agents: seq<Agent>, b: Agent)
    ensures Sum(m, agents + [b]) == Sum(m, agents) + Weight(m, b)
  {
    assert (agents + [b])[..|agents|] == agents;
  }

  lemma {:induction false} SumUpdate(m: Measure, agents: seq<Agent>, a: nat, b: Agent)
    requires a < |agents|
    ensures Sum(m, agents[a := b]) + Weight(m, agents[a]) == Sum(m, agents) + Weight(m, b)
  {
    var n := |agents| - 1;
    var r := agents[a := b];
    if a == n {
      assert r[..n] == agents[..n];
    } else {
      SumUpdate(m, agents[..n], a, b);
      assert r[..n] == agents[..n][a := b];
    }
  }

  lemma {:induction false} SumSame(m: Measure, x: seq<Agent>, y: seq<Agent>)
    requires |x| == |y| && forall j :: 0 <= j < |x| ==> Weight(m, x[j]) == Weight(m, y[j])
    ensures Sum(m, x) == Sum(m, y)
  {
    if x != [] { SumSame(m, x[..|x| - 1], y[..|y| - 1]); }
  }

  lemma {:induction false} SumPositive(m: Measure, agents: seq<Agent>) returns (a: nat)
    requires Sum(m, agents) > 0
    ensures a < |agents| && Weight(m, agents[a]) > 0
  {
    var n := |agents| - 1;
    if Weight(m, agents[n]) > 0 { a := n; } else { a := SumPositive(m, agents[..n]); }
  }

  lemma {:induction false} SumAtLeast(m: Measure, agents: seq<Agent>, a: nat)
    requires a < |agents|
    ensures Sum(m, agents) >= Weight(m, agents[a])
  {
    var n := |agents| - 1;
    if a < n { SumAtLeast(m, agents[..n], a); }
  }

  // ---------------------------------------------------------------- who is in charge of a shard

  /** Whether the continuation comes back to the shard's queue. */
  predicate KontAnswers(k: Kont, role: Role, s: nat) {
    match k
    case Finish => false
    case Execute(t) => t == s
    case CheckOwn => role.Worker? && role.shard == s
    case Rest => false
    case Sweep(n, k1) => n <= s || KontAnswers(k1, role, s)
  }

  /** Whether the agent will still look at the queue of the shard, at `head`, or has claimed to find it a worker. */
  predicate PcAnswers(pc: Pc, role: Role, s: nat, head: nat) {
    match pc
    case Help(t) => t == s
    case PopLoad(t) => t == s
    case PopLook(t, _) => t == s
    case PopTake(t, _) => t == s
    case Ask(t, _) => t == s
    case AskLook(t, pos, _) => t == s && pos == head
    case AskStarving(t, _) => t == s
    case AskWaking(t, _) => t == s
    case AskServing(t, _) => t == s
    case AskLimit(t, serving, _) => t == s && serving < SOFT_WORKERS
    case Grab(t, _) => t == s
    case Enter(t, _) => t == s
    case Hunting(t, _, _) => t == s
    case Scan(t, _, _, _, _) => t == s
    case TakeBit(t, _, _, _, _) => t == s
    case Send(t, _, _) => t == s
    case StartCas(t, _, _, _) => t == s
    case Spawn(t, _, _, _) => t == s
    case FailServing(t, _) => t == s
    case FailWaking(t, _) => t == s
    case FailStarving(t, _) => t == s
    case Arrive(t) => t == s
    case Peek(t) => t == s
    case PeekLook(t, _) => t == s
    case Exec(t) => t == s
    case Drained(t) => t == s
    case ResetLimit(t) => t == s
    case Register(t) => t == s
    case Leave(t) => t == s
    case CheckStarving(t) => t == s
    case ClearStarving(t) => t == s
    case TargetLoad(t) => t == s
    case TargetLook(t, pos) => t == s && pos == head
    case OwnLoad => role.Worker? && role.shard == s
    case OwnLook(pos) => role.Worker? && role.shard == s && pos == head
    case _ => false
  }

  predicate Answers(a: Agent, s: nat, head: nat) {
    PcAnswers(a.pc, a.role, s, head) || KontAnswers(KontOf(a.pc), a.role, s) || a.inbox == Some(s)
  }

  /** Whoever holds a counter of the shard is in charge of it. */
  lemma HolderAnswers(a: Agent, s: nat, head: nat)
    requires Weight(WakingOf(s), a) > 0 || Weight(ServingOf(s), a) > 0
    ensures Answers(a, s, head)
  {
    ServedAnswers(KontOf(a.pc), a.role, s);
  }

  lemma ServedAnswers(k: Kont, role: Role, s: nat)
    ensures Served(k) == Some(s) ==> KontAnswers(k, role, s)
  {
  }

  /** Somebody looks after the shard. */
  ghost predicate InCharge(agents: seq<Agent>, s: nat, head: nat) {
    exists a :: 0 <= a < |agents| && Answers(agents[a], s, head)
  }

  ghost predicate Awake(p: Pool) {
    !p.goexit && !p.starving ==>
      forall s :: 0 <= s < |p.shards| && p.shards[s].Available() ==> InCharge(p.agents, s, p.shards[s].head)
  }

  // ---------------------------------------------------------------- who clears the starving flag

  /** Whether the scan of `hasIdleWorker` has yet to come to the bit of this worker. */
  predicate Ahead(role: Role, i: nat, word: nat) {
    role.Worker? && (role.shard > i || (role.shard == i && role.id / 64 >= word))
  }

  ghost predicate IdleAhead(agents: seq<Agent>, i: nat, word: nat) {
    exists w :: 0 <= w < |agents| && agents[w].idle && Ahead(agents[w].role, i, word)
  }

  /** A worker that has yet to look at the flag, or an agent about to make one. */
  predicate WillCheck(a: Agent) {
    || a.inbox.Some?
    || Serving(a.role, a.pc).Some?
    || a.pc.Leave? || a.pc.CheckStarving? || a.pc.ClearStarving?
    || a.pc.Send? || a.pc.Spawn? || a.pc.SeekClear?
  }

  ghost predicate WillFind(agents: seq<Agent>, pc: Pc) {
    match pc
    case SeekShard(i, _) => IdleAhead(agents, i, 0)
    case SeekWord(i, word, _, _) => IdleAhead(agents, i, word)
    case _ => false
  }

  ghost predicate Clears(agents: seq<Agent>, a: Agent) { WillCheck(a) || WillFind(agents, a.pc) }

  ghost predicate Covered(p: Pool) {
    p.starving ==> exists a :: 0 <= a < |p.agents| && Clears(p.agents, p.agents[a])
  }

  // ---------------------------------------------------------------- the invariant

  ghost predicate Full(p: Pool, s: nat) { s < |p.shards| && p.shards[s].live == p.shards[s].max }

  ghost predicate AllFull(p: Pool) { forall s :: 0 <= s < |p.shards| ==> Full(p, s) }

  ghost predicate ShardOk(sh: Shard) {
    && sh.head <= |sh.written| && sh.live <= sh.max && sh.max >= 1 && sh.limit >= SOFT_WORKERS
    && (forall i :: 0 <= i < sh.head ==> sh.written[i])
  }

  ghost predicate Shape(p: Pool) {
    |p.shards| > 0 && forall s :: 0 <= s < |p.shards| ==> ShardOk(p.shards[s])
  }

  predicate KontOk(k: Kont, role: Role, n: nat) {
    match k
    case Finish => role.Outside?
    case Execute(t) => role.Worker? && t < n
    case CheckOwn => role.Worker?
    case Rest => role.Worker?
    case Sweep(_, k1) => KontOk(k1, role, n)
  }

  ghost predicate HuntOk(p: Pool, h: Hunt, s: nat) {
    && s < |p.shards|
    && match h {
         case OwnWake => true
         case OwnStart => true
         case LendWake(first, done) => first < |p.shards| && Full(p, s)
         case LendStart(first, done) =>
           && first < |p.shards| && Full(p, s)
           && forall j :: 0 <= j < done && j < |p.shards| ==> Full(p, Turn(first, j, |p.shards|))
       }
  }

  ghost predicate Seen(p: Pool, s: nat, pos: nat) { s < |p.shards| && pos <= p.shards[s].head }

  ghost predicate At(p: Pool, s: nat) { s < |p.shards| }

  ghost predicate Stored(p: Pool, s: nat, pos: nat) {
    s < |p.shards| && pos < |p.shards[s].written| && p.shards[s].written[pos]
  }

  /** What an agent knows at each of its steps. */
  ghost predicate PcOk(p: Pool, role: Role, pc: Pc) {
    match pc
    case Done => role.Outside?
    case Claim(s) => role.Outside? && At(p, s)
    case Store(s, pos) => role.Outside? && At(p, s) && pos < |p.shards[s].written|
    case Overflow(s) => role.Outside? && At(p, s)
    case Help(s) => role.Outside? && At(p, s)
    case PopLoad(s) => At(p, s)
    case PopLook(s, pos) => Seen(p, s, pos)
    case PopTake(s, pos) => Seen(p, s, pos) && Stored(p, s, pos)
    case BoostServing(s) => role.Outside? && At(p, s)
    case BoostLimit(s, _) => role.Outside? && At(p, s)
    case BoostRaise(s, serving) => role.Outside? && At(p, s) && serving >= SOFT_WORKERS
    case Ask(s, _) => At(p, s)
    case AskLook(s, pos, _) => Seen(p, s, pos)
    case AskStarving(s, _) => At(p, s)
    case AskWaking(s, _) => At(p, s)
    case AskServing(s, _) => At(p, s)
    case AskLimit(s, _, _) => At(p, s)
    case Grab(s, _) => At(p, s)
    case Enter(s, _) => At(p, s)
    case Hunting(s, h, _) => HuntOk(p, h, s)
    case Scan(s, h, _, _, _) => HuntOk(p, h, s) && (h.OwnWake? || h.LendWake?)
    case TakeBit(s, h, _, _, _) => HuntOk(p, h, s) && (h.OwnWake? || h.LendWake?)
    case Send(s, w, _) => At(p, s) && w < |p.agents| && p.agents[w].role.Worker?
    case StartCas(s, h, live, _) =>
      HuntOk(p, h, s) && (h.OwnStart? || h.LendStart?) && live <= p.shards[HuntShard(h, s, |p.shards|)].live
    case Spawn(s, i, id, _) => At(p, s) && At(p, i) && id < p.shards[i].live
    case FailServing(s, _) => At(p, s) && AllFull(p)
    case FailWaking(s, _) => At(p, s) && AllFull(p)
    case FailStarving(s, _) => At(p, s) && AllFull(p)
    case SeekShard(i, _) => AllFull(p)
    case SeekWord(i, word, words, _) => AllFull(p) && At(p, i) && words == Words(p.shards[i].live)
    case SeekClear(_) => true
    case Arrive(t) => role.Worker? && At(p, t)
    case Peek(t) => role.Worker? && At(p, t)
    case PeekLook(t, pos) => role.Worker? && Seen(p, t, pos)
    case Exec(t) => role.Worker? && At(p, t)
    case Drained(t) => role.Worker? && At(p, t)
    case ResetLimit(t) => role.Worker? && At(p, t)
    case Register(t) => role.Worker? && At(p, t)
    case Leave(t) => role.Worker? && At(p, t)
    case CheckStarving(t) => role.Worker? && At(p, t)
    case ClearStarving(t) => role.Worker? && At(p, t)
    case TargetLoad(t) => role.Worker? && At(p, t)
    case TargetLook(t, pos) => role.Worker? && Seen(p, t, pos)
    case OwnLoad => role.Worker?
    case OwnLook(pos) => role.Worker? && Seen(p, role.shard, pos)
    case Suspended => role.Worker?
  }

  predicate IsNotify(pc: Pc) {
    || pc.Ask? || pc.AskLook? || pc.AskStarving? || pc.AskWaking? || pc.AskServing? || pc.AskLimit? || pc.Grab?
    || pc.Enter? || pc.Hunting? || pc.Scan? || pc.TakeBit? || pc.Send? || pc.StartCas? || pc.Spawn? || pc.FailServing?
    || pc.FailWaking? || pc.FailStarving? || pc.SeekShard? || pc.SeekWord? || pc.SeekClear?
  }

  ghost predicate AgentOk(p: Pool, a: Agent) {
    && PcOk(p, a.role, a.pc)
    && (IsNotify(a.pc) ==> KontOk(KontOf(a.pc), a.role, |p.shards|))
    && (a.role.Worker? ==> a.role.shard < |p.shards| && a.role.id < p.shards[a.role.shard].live)
    && (a.inbox.Some? ==> a.inbox.value < |p.shards|)
  }

  ghost predicate AgentsOk(p: Pool) { forall a :: 0 <= a < |p.agents| ==> AgentOk(p, p.agents[a]) }

  /** wakingWorkers and servingWorkers count exactly their holders. */
  ghost predicate Counters(p: Pool) {
    forall s :: 0 <= s < |p.shards| ==>
      p.shards[s].waking == Sum(WakingOf(s), p.agents) && p.shards[s].serving == Sum(ServingOf(s), p.agents)
  }

  /** The worker numbers below liveWorkers, each given out once. */
  ghost predicate Numbered(p: Pool) {
    forall i, id :: 0 <= i < |p.shards| && 0 <= id ==>
      Sum(TokenAt(i, id), p.agents) == if id < p.shards[i].live then 1 else 0
  }

  /** The worker's bit, its pending message, and whether it runs. */
  function Own(a: Agent): nat { B(a.idle) + B(a.inbox.Some?) + B(Serving(a.role, a.pc).Some?) }

  /** Idle bit, message in the channel or about to be sent, and running: a worker has exactly one of them. */
  ghost predicate Tokens(agents: seq<Agent>) {
    forall w :: 0 <= w < |agents| ==>
      Own(agents[w]) + Sum(SendsTo(w), agents) == if agents[w].role.Worker? then 1 else 0
  }

  /** A claimed position that is not written yet has its submitter. */
  ghost predicate Claimed(p: Pool) {
    forall s, pos :: 0 <= s < |p.shards| && 0 <= pos < |p.shards[s].written| && !p.shards[s].written[pos] ==>
      exists a :: 0 <= a < |p.agents| && p.agents[a].pc == Store(s, pos)
  }

  ghost predicate Inv(p: Pool) {
    Shape(p) && AgentsOk(p) && Counters(p) && Numbered(p) && Tokens(p.agents) && Claimed(p) && Covered(p) && Awake(p)
  }
}
