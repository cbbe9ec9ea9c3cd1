/**
 The sharded task pool of taskpool/taskpool.go as a state machine in which every atomic load, store, add and
 compare-and-swap, every channel operation and every start of a goroutine is one step of one agent. The pool is not
 closed: `closed` is false throughout. The queue of a shard is the sequence of its positions; Ring shows that the
 lock-free ring behaves like it.
 */
module PoolModel {
  import opened Wrappers

  const SOFT_WORKERS: nat := 2

  /** Queue positions 0..|written|; those below `head` have been taken, `written` tells whose task is stored. */
  datatype Shard = Shard(head: nat, written: seq<bool>, size: nat,
                         waking: int, serving: int, limit: int, live: nat, max: nat)
  {
    predicate Available() { head < |written| && written[head] }
  }

  /** Who runs the agent: a submitter, an overflow helper or the stall monitor, or worker `id` of a shard. */
  datatype Role = Outside | Worker(shard: nat, id: nat)

  /** What an agent goes on with when a call of `notify` returns. */
  datatype Kont =
    | Finish                              // the caller of submit or the monitor
    | Execute(target: nat)                // a worker holding a task of `target`
    | CheckOwn                            // a worker between its two last looks at the queues
    | Rest                                // a worker about to wait for a wakeup
    | Sweep(next: nat, after: Kont)       // a loop that still notifies the shards from `next` on

  /** Where `notify` looks for a worker: its own shard first, then the others from a random one on. */
  datatype Hunt =
    | OwnWake
    | OwnStart
    | LendWake(first: nat, done: nat)
    | LendStart(first: nat, done: nat)

  datatype Pc =
    | Done
    // submit and help
    | Claim(s: nat)
    | Store(s: nat, pos: nat)
    | Overflow(s: nat)          // a helper with the task that the full queue refused
    | Help(s: nat)              // a helper with a task that it took from the queue
    // pop
    | PopLoad(s: nat)
    | PopLook(s: nat, pos: nat)
    | PopTake(s: nat, pos: nat)
    // boost
    | BoostServing(s: nat)
    | BoostLimit(s: nat, serving: int)
    | BoostRaise(s: nat, serving: int)
    // notify
    | Ask(s: nat, k: Kont)
    | AskLook(s: nat, pos: nat, k: Kont)
    | AskStarving(s: nat, k: Kont)
    | AskWaking(s: nat, k: Kont)
    | AskServing(s: nat, k: Kont)
    | AskLimit(s: nat, serving: int, k: Kont)
    | Grab(s: nat, k: Kont)
    | Enter(s: nat, k: Kont)
    | Hunting(s: nat, h: Hunt, k: Kont)
    | Scan(s: nat, h: Hunt, word: nat, words: nat, k: Kont)
    | TakeBit(s: nat, h: Hunt, word: nat, words: nat, k: Kont)
    | Send(s: nat, worker: nat, k: Kont)
    | StartCas(s: nat, h: Hunt, live: nat, k: Kont)
    | Spawn(s: nat, shard: nat, id: nat, k: Kont)
    | FailServing(s: nat, k: Kont)
    | FailWaking(s: nat, k: Kont)
    | FailStarving(s: nat, k: Kont)
    | SeekShard(i: nat, k: Kont)
    | SeekWord(i: nat, word: nat, words: nat, k: Kont)
    | SeekClear(k: Kont)
    // work
    | Arrive(t: nat)
    | Peek(t: nat)
    | PeekLook(t: nat, pos: nat)
    | Exec(t: nat)
    | Drained(t: nat)
    | ResetLimit(t: nat)
    | Register(t: nat)
    | Leave(t: nat)
    | CheckStarving(t: nat)
    | ClearStarving(t: nat)
    | TargetLoad(t: nat)
    | TargetLook(t: nat, pos: nat)
    | OwnLoad
    | OwnLook(pos: nat)
    | Suspended

  /** `idle` is the worker's bit in the bitmap of its shard, `inbox` the one place of its wakeup channel. */
  datatype Agent = Agent(role: Role, pc: Pc, idle: bool, inbox: Option<nat>)

  /** `goexit` tells whether a task that an overflow helper took from the queue may end its goroutine. */
  datatype Pool = Pool(shards: seq<Shard>, starving: bool, agents: seq<Agent>, goexit: bool)

  ghost predicate Initial(p: Pool) {
    && |p.shards| > 0
    && p.agents == []
    && !p.starving
    && (forall s :: 0 <= s < |p.shards| ==>
          p.shards[s] == Shard(0, [], p.shards[s].size, 0, 0, SOFT_WORKERS, 0, p.shards[s].max)
          && p.shards[s].max >= 1 && p.shards[s].size >= 2)
  }

  /** The number of bitmap words that hold the bits of `live` workers. */
  function Words(live: nat): nat { (live + 63) / 64 }

  /** Where the agent is when the call of `notify` that it is in has returned. */
  function Resume(k: Kont, count: nat): Pc {
    match k
    case Finish => Done
    case Execute(t) => Exec(t)
    case CheckOwn => OwnLoad
    case Rest => Suspended
    case Sweep(n, k1) => if n < count then Ask(n, Sweep(n + 1, k1)) else Resume(k1, count)
  }

  /** The shard that `borrow` comes to after `done` others. */
  function Turn(first: nat, done: nat, count: nat): nat
    requires count > 0
  {
    (first + done) % count
  }

  /** The shard whose workers are tried. */
  function HuntShard(h: Hunt, s: nat, count: nat): nat
    requires count > 0
  {
    match h
    case OwnWake => s
    case OwnStart => s
    case LendWake(first, done) => Turn(first, done, count)
    case LendStart(first, done) => Turn(first, done, count)
  }

  /** The try after a failed one. */
  function NextHunt(h: Hunt, first: nat): Hunt {
    match h
    case OwnWake => OwnStart
    case OwnStart => LendWake(first, 0)
    case LendWake(f, done) => LendWake(f, done + 1)
    case LendStart(f, done) => LendStart(f, done + 1)
  }

  predicate InWord(a: Agent, i: nat, word: nat) { a.role.Worker? && a.role.shard == i && a.role.id / 64 == word }

  /** Whether a word of the bitmap of suspended workers is zero. */
  ghost predicate WordZero(p: Pool, i: nat, word: nat) {
    forall j :: 0 <= j < |p.agents| && p.agents[j].idle ==> !InWord(p.agents[j], i, word)
  }

  /** The worker whose bit is the lowest one set in the word. */
  ghost predicate LowestIdle(p: Pool, i: nat, word: nat, w: nat) {
    && w < |p.agents| && p.agents[w].idle && InWord(p.agents[w], i, word)
    && (forall j :: 0 <= j < |p.agents| && p.agents[j].idle && InWord(p.agents[j], i, word) ==>
          p.agents[w].role.id <= p.agents[j].role.id)
  }

  // ---------------------------------------------------------------- steps

  function To(p: Pool, a: nat, pc: Pc): Pool
    requires a < |p.agents|
  {
    p.(agents := p.agents[a := p.agents[a].(pc := pc)])
  }

  function ToWith(p: Pool, a: nat, pc: Pc, s: nat, sh: Shard): Pool
    requires a < |p.agents| && s < |p.shards|
  {
    To(p, a, pc).(shards := p.shards[s := sh])
  }

  function ToStarving(p: Pool, a: nat, pc: Pc, starving: bool): Pool
    requires a < |p.agents|
  {
    To(p, a, pc).(starving := starving)
  }

  function SetBit(p: Pool, a: nat, idle: bool): Pool
    requires a < |p.agents|
  {
    p.(agents := p.agents[a := p.agents[a].(idle := idle)])
  }

  function SetInbox(p: Pool, a: nat, inbox: Option<nat>): Pool
    requires a < |p.agents|
  {
    p.(agents := p.agents[a := p.agents[a].(inbox := inbox)])
  }

  function Join(p: Pool, a: Agent): Pool { p.(agents := p.agents + [a]) }

  /**
   What `hasTask` may report from a position loaded before: the truth while no task was taken since; a cell passed by
   `head` may or may not have been released by the worker that took its task.
   */
  predicate Reports(sh: Shard, pos: nat, has: bool) { pos == sh.head ==> has == sh.Available() }

  /** A call of submit, or a round of the monitor, begins. */
  ghost predicate Arrives(p: Pool, q: Pool, s: nat) {
    s < |p.shards|
    && (q == Join(p, Agent(Outside, Claim(s), false, None))
        || q == Join(p, Agent(Outside, BoostServing(s), false, None)))
  }

  ghost predicate SubmitStep(p: Pool, q: Pool, a: nat)
    requires a < |p.agents|
  {
    match p.agents[a].pc
    case Claim(s) => s < |p.shards| && var sh := p.shards[s];
      || q == ToWith(p, a, Store(s, |sh.written|), s, sh.(written := sh.written + [false]))
      || (|sh.written| >= sh.size && q == To(p, a, Overflow(s)))
    case Store(s, pos) => s < |p.shards| && pos < |p.shards[s].written|
      && q == ToWith(p, a, Ask(s, Finish), s, p.shards[s].(written := p.shards[s].written[pos := true]))
    case Overflow(s) => q == To(p, a, PopLoad(s)) || q == To(p, a, Done)
    case Help(s) =>
      || q == To(p, a, PopLoad(s))
      || (p.goexit && q == To(p, a, Done))
    case BoostServing(s) => s < |p.shards|
      && (q == To(p, a, BoostLimit(s, p.shards[s].serving)) || q == To(p, a, Done))
    case BoostLimit(s, serving) => s < |p.shards|
      && q == To(p, a, if serving < p.shards[s].limit then Done else BoostRaise(s, serving))
    case BoostRaise(s, serving) => s < |p.shards|
      && (|| q == To(p, a, Done)
          || exists queued: nat :: q == ToWith(p, a, Ask(s, Finish), s, p.shards[s].(limit := Raised(serving, queued))))
    case _ => false
  }

  function Raised(serving: int, queued: int): int { serving + if serving < queued then serving else queued }

  ghost predicate PopStep(p: Pool, q: Pool, a: nat)
    requires a < |p.agents|
  {
    match p.agents[a].pc
    case PopLoad(s) => s < |p.shards| && q == To(p, a, PopLook(s, p.shards[s].head))
    case PopLook(s, pos) => s < |p.shards| && var sh := p.shards[s];
      if pos == sh.head && !sh.Available() then q == To(p, a, if p.agents[a].role.Worker? then Drained(s) else Done)
      else if pos == sh.head then q == To(p, a, PopTake(s, pos))
      else q == To(p, a, PopTake(s, pos)) || q == To(p, a, PopLoad(s))
    case PopTake(s, pos) => s < |p.shards| && var sh := p.shards[s];
      if pos == sh.head
      then q == ToWith(p, a, if p.agents[a].role.Worker? then Peek(s) else Help(s), s, sh.(head := pos + 1))
      else q == To(p, a, PopLoad(s))
    case _ => false
  }

  ghost predicate AskStep(p: Pool, q: Pool, a: nat)
    requires a < |p.agents|
  {
    var n := |p.shards|;
    match p.agents[a].pc
    case Ask(s, k) => s < n && q == To(p, a, AskLook(s, p.shards[s].head, k))
    case AskLook(s, pos, k) => s < n
      && (|| (Reports(p.shards[s], pos, true) && q == To(p, a, AskStarving(s, k)))
          || (Reports(p.shards[s], pos, false) && q == To(p, a, Resume(k, n))))
    case AskStarving(s, k) => s < n && q == To(p, a, if p.starving then Resume(k, n) else AskWaking(s, k))
    case AskWaking(s, k) => s < n && q == To(p, a, if p.shards[s].waking != 0 then Resume(k, n) else AskServing(s, k))
    case AskServing(s, k) => s < n && q == To(p, a, AskLimit(s, p.shards[s].serving, k))
    case AskLimit(s, serving, k) => s < n
      && q == To(p, a, if serving >= p.shards[s].limit then Resume(k, n) else Grab(s, k))
    case Grab(s, k) => s < n
      && if p.shards[s].waking != 0 then q == To(p, a, Resume(k, n))
         else q == ToWith(p, a, Enter(s, k), s, p.shards[s].(waking := 1))
    case Enter(s, k) => s < n
      && q == ToWith(p, a, Hunting(s, OwnWake, k), s, p.shards[s].(serving := p.shards[s].serving + 1))
    case _ => false
  }

  ghost predicate HuntStep(p: Pool, q: Pool, a: nat)
    requires a < |p.agents|
  {
    var n := |p.shards|;
    match p.agents[a].pc
    case Hunting(s, h, k) => s < n && var i := HuntShard(h, s, n);
      match h {
        case OwnWake => q == To(p, a, Scan(s, h, 0, Words(p.shards[i].live), k))
        case LendWake(first, done) =>
          if done >= n then q == To(p, a, Hunting(s, LendStart(first, 0), k))
          else if i == s then q == To(p, a, Hunting(s, NextHunt(h, 0), k))
          else q == To(p, a, Scan(s, h, 0, Words(p.shards[i].live), k))
        case OwnStart => q == To(p, a, StartCas(s, h, p.shards[i].live, k))
        case LendStart(_, done) =>
          if done >= n then q == To(p, a, FailServing(s, k))
          else if i == s then q == To(p, a, Hunting(s, NextHunt(h, 0), k))
          else q == To(p, a, StartCas(s, h, p.shards[i].live, k))
      }
    case Scan(s, h, word, words, k) => s < n
      && if word >= words then q == To(p, a, Hunting(s, NextHunt(h, 0), k))
         else if WordZero(p, HuntShard(h, s, n), word) then q == To(p, a, Scan(s, h, word + 1, words, k))
         else q == To(p, a, TakeBit(s, h, word, words, k))
    case TakeBit(s, h, word, words, k) => s < n
      && (|| q == To(p, a, Scan(s, h, word, words, k))
          || exists w :: LowestIdle(p, HuntShard(h, s, n), word, w) && q == To(SetBit(p, w, false), a, Send(s, w, k)))
    case Send(s, w, k) => w < |p.agents| && p.agents[w].inbox.None?
      && q == To(SetInbox(p, w, Some(s)), a, Resume(k, n))
    case StartCas(s, h, live, k) => s < n && var i := HuntShard(h, s, n);
      if live >= p.shards[i].max then exists first :: 0 <= first < n && q == To(p, a, Hunting(s, NextHunt(h, first), k))
      else if live != p.shards[i].live then q == To(p, a, Hunting(s, h, k))
      else q == ToWith(p, a, Spawn(s, i, live, k), i, p.shards[i].(live := live + 1))
    case Spawn(s, i, id, k) =>
      q == Join(To(p, a, Resume(k, n)), Agent(Worker(i, id), Arrive(s), false, None))
    case _ => false
  }

  ghost predicate FailStep(p: Pool, q: Pool, a: nat)
    requires a < |p.agents|
  {
    var n := |p.shards|;
    match p.agents[a].pc
    case FailServing(s, k) => s < n
      && q == ToWith(p, a, FailWaking(s, k), s, p.shards[s].(serving := p.shards[s].serving - 1))
    case FailWaking(s, k) => s < n
      && q == ToWith(p, a, FailStarving(s, k), s, p.shards[s].(waking := p.shards[s].waking - 1))
    case FailStarving(s, k) => q == ToStarving(p, a, SeekShard(0, k), true)
    case SeekShard(i, k) =>
      if i >= n then q == To(p, a, Resume(k, n))
      else q == To(p, a, SeekWord(i, 0, Words(p.shards[i].live), k))
    case SeekWord(i, word, words, k) =>
      if word >= words then q == To(p, a, SeekShard(i + 1, k))
      else if WordZero(p, i, word) then q == To(p, a, SeekWord(i, word + 1, words, k))
      else q == To(p, a, SeekClear(k))
    case SeekClear(k) =>
      if p.starving then q == ToStarving(p, a, Resume(Sweep(0, k), n), false) else q == To(p, a, Resume(k, n))
    case _ => false
  }

  ghost predicate WorkStep(p: Pool, q: Pool, a: nat)
    requires a < |p.agents|
  {
    var n := |p.shards|;
    var me := p.agents[a];
    match me.pc
    case Arrive(t) => t < n && q == ToWith(p, a, PopLoad(t), t, p.shards[t].(waking := p.shards[t].waking - 1))
    case Peek(t) => t < n && q == To(p, a, PeekLook(t, p.shards[t].head))
    case PeekLook(t, pos) => t < n
      && (|| (Reports(p.shards[t], pos, true) && q == To(p, a, Ask(t, Execute(t))))
          || (Reports(p.shards[t], pos, false) && q == To(p, a, Exec(t))))
    case Exec(t) => t < n
      && (|| q == To(p, a, PopLoad(t))
          || q == ToWith(p, a, Arrive(t), t, p.shards[t].(waking := p.shards[t].waking + 1)))
    case Drained(t) => t < n && q == To(p, a, if p.shards[t].limit != SOFT_WORKERS then ResetLimit(t) else Register(t))
    case ResetLimit(t) => t < n && q == ToWith(p, a, Register(t), t, p.shards[t].(limit := SOFT_WORKERS))
    case Register(t) => q == To(SetBit(p, a, true), a, Leave(t))
    case Leave(t) => t < n && q == ToWith(p, a, CheckStarving(t), t, p.shards[t].(serving := p.shards[t].serving - 1))
    case CheckStarving(t) => me.role.Worker? && q == To(p, a, if p.starving then ClearStarving(t) else LastLook(me, t))
    case ClearStarving(t) => me.role.Worker?
      && if p.starving then q == ToStarving(p, a, Resume(Sweep(0, Rest), n), false) else q == To(p, a, LastLook(me, t))
    case TargetLoad(t) => t < n && q == To(p, a, TargetLook(t, p.shards[t].head))
    case TargetLook(t, pos) => t < n
      && (|| (Reports(p.shards[t], pos, true) && q == To(p, a, Ask(t, CheckOwn)))
          || (Reports(p.shards[t], pos, false) && q == To(p, a, OwnLoad)))
    case OwnLoad => me.role.Worker? && me.role.shard < n && q == To(p, a, OwnLook(p.shards[me.role.shard].head))
    case OwnLook(pos) => me.role.Worker? && me.role.shard < n && var sh := p.shards[me.role.shard];
      || (Reports(sh, pos, true) && q == To(p, a, Ask(me.role.shard, Rest)))
      || (Reports(sh, pos, false) && q == To(p, a, Suspended))
    case Suspended => me.inbox.Some? && q == To(SetInbox(p, a, None), a, Arrive(me.inbox.value))
    case _ => false
  }

  /** The look at the queues after suspending: first the shard served, when it is another one, then the worker's own. */
  function LastLook(me: Agent, t: nat): Pc
    requires me.role.Worker?
  {
    if t != me.role.shard then TargetLoad(t) else OwnLoad
  }

  ghost predicate AgentStep(p: Pool, q: Pool, a: nat)
    requires a < |p.agents|
  {
    SubmitStep(p, q, a) || PopStep(p, q, a) || AskStep(p, q, a) || HuntStep(p, q, a) || FailStep(p, q, a)
        || WorkStep(p, q, a)
  }

  ghost predicate Step(p: Pool, q: Pool) {
    (exists s :: Arrives(p, q, s)) || (exists a :: 0 <= a < |p.agents| && AgentStep(p, q, a))
  }

  /** The states of a run, the first one initial. */
  ghost predicate Execution(run: seq<Pool>) {
    && |run| > 0
    && Initial(run[0])
    && (forall i :: 0 <= i < |run| - 1 ==> Step(run[i], run[i + 1]))
  }

  /** Every submit and notify has returned, and every worker waits on its empty channel. */
  ghost predicate Quiet(p: Pool) {
    forall a :: 0 <= a < |p.agents| ==>
      if p.agents[a].role.Worker? then p.agents[a].pc == Suspended && p.agents[a].inbox == None
      else p.agents[a].pc == Done
  }
}
