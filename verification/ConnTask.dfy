/**
 Who runs the task of a connection (task_unix.go, conn_unix.go): one atomic word holds the pending events and a bit that
 says that a task is queued, running, or in the hands of Detach. Every atomic operation, callback and hand-over to the
 executor is one step of one agent.
 */
module ConnTask {

  /** The pending events of the state word; Open is the first one. */
  datatype Ev = Open | Read | Write | Hup | Close | Expired | Shutdown | Resume

  datatype Call = OnOpen | OnOther | OnClose

  datatype Pc =
    | Done
    | Notify(ev: set<Ev>)       // notify: about to set the events and the bit
    | Schedule                  // about to hand the task to the executor
    | Start                     // run: about to take the events
    | Opening                   // handle: the connection is to be watched and opened
    | Serving                   // handle: between callbacks
    | Closing                   // close, called by the task or because a callback panicked
    | Farewell                  // close: the connection is marked, OnClose is next
    | Return                    // handle has returned
    | Release                   // release: about to clear the bit
    | Kept                      // a closed connection keeps its task
    | TakeOver                  // Detach: about to take the task
    | Owner                     // Detach holds the task
    | Leave                     // Detach has marked the connection
    | Detached                  // Detach succeeded

  /**
   `queued` counts the tasks handed to the executor, `calls` lists the callbacks, `dones` counts the calls of
   openConnsWg.Done; `taken` lists the events that each run of the task took from the word.
   */
  datatype State = State(pending: set<Ev>, scheduled: bool, queued: nat, closed: bool, agents: seq<Pc>,
                         calls: seq<Call>, dones: nat, taken: seq<set<Ev>>)

  /** accept has set the first event, and goes on to hand over the task. */
  function Init(): State { State({Open}, true, 0, false, [Schedule], [], 0, []) }

  function To(s: State, a: nat, pc: Pc): State
    requires a < |s.agents|
  {
    s.(agents := s.agents[a := pc])
  }

  /** Somebody calls notify or Detach, or the executor starts a task. */
  ghost predicate Arrives(s: State, t: State) {
    || (exists ev :: Open !in ev && ev != {} && t == s.(agents := s.agents + [Notify(ev)]))
    || t == s.(agents := s.agents + [TakeOver])
    || (s.queued > 0 && t == s.(queued := s.queued - 1, agents := s.agents + [Start]))
  }

  ghost predicate AgentStep(s: State, t: State, a: nat)
    requires a < |s.agents|
  {
    match s.agents[a]
    case Done => false
    case Notify(ev) =>
      t == To(s, a, if s.scheduled then Done else Schedule).(pending := s.pending + ev, scheduled := true)
    case Schedule => t == To(s, a, Done).(queued := s.queued + 1)
    case Start =>
      t == To(s, a, if Open in s.pending then Opening else Serving)
           .(pending := {}, scheduled := true, taken := s.taken + [s.pending])
    case Opening =>
      || t == To(s, a, Return).(closed := true, dones := s.dones + 1)
      || t == To(s, a, Serving).(calls := s.calls + [OnOpen])
      || t == To(s, a, Closing).(calls := s.calls + [OnOpen])
    case Serving =>
      || t == s.(calls := s.calls + [OnOther])
      || t == To(s, a, Closing)
      || t == To(s, a, Return)
    case Closing => if s.closed then t == To(s, a, Return) else t == To(s, a, Farewell).(closed := true)
    case Farewell => t == To(s, a, Return).(calls := s.calls + [OnClose], dones := s.dones + 1)
    case Return => t == To(s, a, if s.closed then Kept else Release)
    case Release =>
      if s.pending == {} && s.scheduled then t == To(s, a, Done).(scheduled := false) else t == To(s, a, Schedule)
    case Kept => false
    case TakeOver =>
      if s.pending == {} && !s.scheduled then t == To(s, a, Owner).(scheduled := true)
      else t == s || t == To(s, a, Done)
    case Owner => t == To(s, a, Release) || t == To(s, a, Leave).(closed := true)
    case Leave => t == To(s, a, Detached).(dones := s.dones + 1)
    case Detached => false
  }

  ghost predicate Step(s: State, t: State) { Arrives(s, t) || exists a :: 0 <= a < |s.agents| && AgentStep(s, t, a) }

  ghost predicate StepsAt(run: seq<State>, i: int) { 0 <= i < |run| - 1 && Step(run[i], run[i + 1]) }

  ghost predicate Execution(run: seq<State>) {
    |run| > 0 && run[0] == Init() && forall i :: 0 <= i < |run| - 1 ==> StepsAt(run, i)
  }

  // ---------------------------------------------------------------- the invariant

  /** The agent holds the task. */
  predicate Holds(pc: Pc) { !pc.Done? && !pc.Notify? && !pc.TakeOver? }

  function Holders(agents: seq<Pc>): nat {
    if agents == [] then 0
    else Holders(agents[..|agents| - 1]) + if Holds(agents[|agents| - 1]) then 1 else 0
  }

  /** Where the holder of a task is once the connection is closed or detached. */
  predicate Over(pc: Pc) { pc.Farewell? || pc.Return? || pc.Kept? || pc.Leave? || pc.Detached? }

  predicate MustBeOver(pc: Pc) { pc.Farewell? || pc.Kept? || pc.Leave? || pc.Detached? }

  /** Whether the holder has yet to call openConnsWg.Done for a connection that is over. */
  predicate Owes(pc: Pc) { pc.Farewell? || pc.Leave? }

  /** OnOpen comes first and once, OnClose last and once. */
  ghost predicate InOrder(calls: seq<Call>) {
    forall i :: 0 <= i < |calls| ==> (calls[i] == OnOpen <==> i == 0) && (calls[i] == OnClose ==> i == |calls| - 1)
  }

  /** What the holder at each place knows. */
  ghost predicate HolderOk(s: State, pc: Pc) {
    && (s.closed ==> Over(pc)) && (MustBeOver(pc) ==> s.closed)
    && (pc.Opening? ==> s.calls == [])
    && (!pc.Opening? && s.calls == [] && !s.closed ==> Open in s.pending)
    && (s.calls != [] || pc.Opening? || s.closed ==> Open !in s.pending)
    && ((pc.Closing? || pc.Farewell? || pc.Owner? || pc.Leave?) ==> s.calls != [])
    && (pc.Serving? ==> s.calls != [])
    && (OnClose in s.calls ==> s.closed && (pc.Return? || pc.Kept?))
    && s.dones == if s.closed && !Owes(pc) then 1 else 0
  }

  ghost predicate Inv(s: State) {
    && Holders(s.agents) + s.queued == (if s.scheduled then 1 else 0)
    && (s.pending != {} ==> s.scheduled)
    && InOrder(s.calls)
    && (forall a :: 0 <= a < |s.agents| && Holds(s.agents[a]) ==> HolderOk(s, s.agents[a]))
    && (s.queued > 0 ==> HolderOk(s, Start))
    && (!s.scheduled ==> HolderOk(s, TakeOver))
    && (forall a :: 0 <= a < |s.agents| && s.agents[a].Notify? ==> Open !in s.agents[a].ev && s.agents[a].ev != {})
  }

  // ---------------------------------------------------------------- counting holders

  function One(b: bool): nat { if b then 1 else 0 }

  lemma {:induction false} HoldersUpdate(agents: seq<Pc>, a: nat, pc: Pc)
    requires a < |agents|
    ensures Holders(agents[a := pc]) + One(Holds(agents[a])) == Holders(agents) + One(Holds(pc))
  {
    var n := |agents| - 1;
    var r := agents[a := pc];
    if a == n {
      assert r[..n] == agents[..n];
    } else {
      HoldersUpdate(agents[..n], a, pc);
      assert r[..n] == agents[..n][a := pc];
    }
  }

  lemma HoldersJoin(agents: seq<Pc>, pc: Pc)
    ensures Holders(agents + [pc]) == Holders(agents) + One(Holds(pc))
  {
    assert (agents + [pc])[..|agents|] == agents;
  }

  lemma {:induction false} HoldersAtLeast(agents: seq<Pc>, a: nat)
    requires a < |agents| && Holds(agents[a])
    ensures Holders(agents) >= 1
  {
    var n := |agents| - 1;
    if a < n { HoldersAtLeast(agents[..n], a); }
  }

  /** A second holder would count as well. */
  lemma {:induction false} HoldersTwo(agents: seq<Pc>, a: nat, b: nat)
    requires a < b < |agents| && Holds(agents[a]) && Holds(agents[b])
    ensures Holders(agents) >= 2
  {
    var n := |agents| - 1;
    if b < n { HoldersTwo(agents[..n], a, b); } else { HoldersAtLeast(agents[..n], a); }
  }

  lemma OnlyHolder(s: State, a: nat, b: nat)
    requires Inv(s) && a < |s.agents| && b < |s.agents| && Holds(s.agents[a])
    ensures s.scheduled && s.queued == 0 && (b != a ==> !Holds(s.agents[b]))
  {
    HoldersAtLeast(s.agents, a);
    if b != a && Holds(s.agents[b]) { HoldersTwo(s.agents, if a < b then a else b, if a < b then b else a); }
  }

  // ---------------------------------------------------------------- every step

  lemma CallsGrow(calls: seq<Call>, call: Call)
    requires InOrder(calls) && (call == OnOpen <==> calls == []) && OnClose !in calls
    ensures InOrder(calls + [call])
  {
  }

  /** The holder moves on and is the only one. */
  lemma HolderMoves(s: State, t: State, a: nat, pc: Pc)
    requires Inv(s) && a < |s.agents| && Holds(s.agents[a]) && t.agents == s.agents[a := pc]
    requires InOrder(t.calls) && (t.pending != {} ==> t.scheduled)
    requires One(Holds(pc)) + t.queued == One(t.scheduled)
    requires Holds(pc) ==> HolderOk(t, pc)
    requires t.queued > 0 ==> HolderOk(t, Start)
    requires !t.scheduled ==> HolderOk(t, TakeOver)
    requires !pc.Notify?
    ensures Inv(t)
  {
    HoldersUpdate(s.agents, a, pc);
    OnlyHolder(s, a, a);
    forall b | 0 <= b < |t.agents| && Holds(t.agents[b]) ensures HolderOk(t, t.agents[b]) { OnlyHolder(s, a, b); }
  }

  lemma NotifyKeeps(s: State, t: State, a: nat)
    requires Inv(s) && a < |s.agents| && s.agents[a].Notify? && AgentStep(s, t, a)
    ensures Inv(t)
  {
    var pc := if s.scheduled then Done else Schedule;
    HoldersUpdate(s.agents, a, pc);
    assert Open !in s.agents[a].ev && s.agents[a].ev != {};
    forall b | 0 <= b < |t.agents| && Holds(t.agents[b]) ensures HolderOk(t, t.agents[b]) {
      if b == a {
      } else {
        OnlyHolder(s, b, b);
      }
    }
  }

  lemma TakeOverKeeps(s: State, t: State, a: nat)
    requires Inv(s) && a < |s.agents| && s.agents[a].TakeOver? && AgentStep(s, t, a)
    ensures Inv(t)
  {
    if t != s {
      HoldersUpdate(s.agents, a, if s.pending == {} && !s.scheduled then Owner else Done);
      forall b | 0 <= b < |t.agents| && Holds(t.agents[b]) ensures HolderOk(t, t.agents[b]) {
        if b != a { OnlyHolder(s, b, b); }
      }
    }
  }

  lemma ServeKeeps(s: State, t: State, a: nat)
    requires Inv(s) && a < |s.agents| && AgentStep(s, t, a)
    requires s.agents[a].Opening? || s.agents[a].Serving? || s.agents[a].Closing? || s.agents[a].Farewell?
    ensures Inv(t)
  {
    OnlyHolder(s, a, a);
    assert HolderOk(s, s.agents[a]);
    match s.agents[a]
    case Opening =>
      if t == To(s, a, Return).(closed := true, dones := s.dones + 1) { HolderMoves(s, t, a, Return); }
      else { CallsGrow(s.calls, OnOpen); HolderMoves(s, t, a, t.agents[a]); }
    case Serving =>
      if t == s.(calls := s.calls + [OnOther]) {
        CallsGrow(s.calls, OnOther);
        assert s.agents[a := Serving] == s.agents;
        HolderMoves(s, t, a, Serving);
      } else {
        HolderMoves(s, t, a, t.agents[a]);
      }
    case Closing => HolderMoves(s, t, a, t.agents[a]);
    case Farewell => CallsGrow(s.calls, OnClose); HolderMoves(s, t, a, Return);
  }

  lemma HandKeeps(s: State, t: State, a: nat)
    requires Inv(s) && a < |s.agents| && AgentStep(s, t, a) && Holds(s.agents[a])
    requires !s.agents[a].Opening? && !s.agents[a].Serving? && !s.agents[a].Closing? && !s.agents[a].Farewell?
    ensures Inv(t)
  {
    OnlyHolder(s, a, a);
    assert HolderOk(s, s.agents[a]);
    HolderMoves(s, t, a, t.agents[a]);
  }

  lemma JoinKeeps(s: State, pc: Pc)
    requires Inv(s) && (pc.TakeOver? || (pc.Notify? && Open !in pc.ev && pc.ev != {}))
    ensures Inv(s.(agents := s.agents + [pc]))
  {
    HoldersJoin(s.agents, pc);
    var t := s.(agents := s.agents + [pc]);
    forall b | 0 <= b < |t.agents| && Holds(t.agents[b]) ensures HolderOk(t, t.agents[b]) {
      assert b < |s.agents| && HolderOk(s, s.agents[b]);
    }
  }

  lemma StartKeeps(s: State)
    requires Inv(s) && s.queued > 0
    ensures Inv(s.(queued := s.queued - 1, agents := s.agents + [Start]))
  {
    HoldersJoin(s.agents, Start);
    var t := s.(queued := s.queued - 1, agents := s.agents + [Start]);
    forall b | 0 <= b < |t.agents| && Holds(t.agents[b]) ensures HolderOk(t, t.agents[b]) {
      if b < |s.agents| { OnlyHolder(s, b, b); }
    }
  }

  lemma ArrivesKeeps(s: State, t: State)
    requires Inv(s) && Arrives(s, t)
    ensures Inv(t)
  {
    if ev :| Open !in ev && ev != {} && t == s.(agents := s.agents + [Notify(ev)]) {
      JoinKeeps(s, Notify(ev));
    } else if t == s.(agents := s.agents + [TakeOver]) {
      JoinKeeps(s, TakeOver);
    } else {
      StartKeeps(s);
    }
  }

  lemma StepKeeps(s: State, t: State)
    requires Inv(s) && Step(s, t)
    ensures Inv(t)
  {
    if Arrives(s, t) {
      ArrivesKeeps(s, t);
    } else {
      var a :| 0 <= a < |s.agents| && AgentStep(s, t, a);
      match s.agents[a]
      case Notify(_) => NotifyKeeps(s, t, a);
      case TakeOver => TakeOverKeeps(s, t, a);
      case Opening => ServeKeeps(s, t, a);
      case Serving => ServeKeeps(s, t, a);
      case Closing => ServeKeeps(s, t, a);
      case Farewell => ServeKeeps(s, t, a);
      case _ => HandKeeps(s, t, a);
    }
  }

  lemma PrefixRuns(run: seq<State>, n: nat)
    requires Execution(run) && 0 < n <= |run|
    ensures Execution(run[..n])
  {
    var p := run[..n];
    forall i | 0 <= i < |p| - 1 ensures StepsAt(p, i) { assert StepsAt(run, i); }
  }

  lemma {:induction false} Reachable(run: seq<State>)
    requires Execution(run)
    ensures Inv(run[|run| - 1])
  {
    if |run| > 1 {
      PrefixRuns(run, |run| - 1);
      Reachable(run[..|run| - 1]);
      assert StepsAt(run, |run| - 2);
      StepKeeps(run[|run| - 2], run[|run| - 1]);
    } else {
      assert Init().agents[..0] == [];
    }
  }

  // ---------------------------------------------------------------- the results

  /** In every run at most one task is queued, running, or owned by Detach. */
  lemma OneOwner(run: seq<State>)
    requires Execution(run)
    ensures Holders(run[|run| - 1].agents) + run[|run| - 1].queued <= 1
  {
    Reachable(run);
  }

  /**
   In every run OnOpen is the first callback, OnClose the last one, each at most once; Done is called once at most.
   */
  lemma CallbacksInOrder(run: seq<State>)
    requires Execution(run)
    ensures InOrder(run[|run| - 1].calls) && run[|run| - 1].dones <= 1
  {
    Reachable(run);
    var s := run[|run| - 1];
    if s.scheduled { SomeHolder(s); }
  }

  lemma {:induction false} SomeHolderIn(agents: seq<Pc>) returns (a: nat)
    requires Holders(agents) >= 1
    ensures a < |agents| && Holds(agents[a])
  {
    var n := |agents| - 1;
    if Holds(agents[n]) { a := n; } else { a := SomeHolderIn(agents[..n]); }
  }

  /** Somebody answers for a scheduled task. */
  lemma SomeHolder(s: State)
    requires Inv(s) && s.scheduled
    ensures s.queued > 0 || exists a :: 0 <= a < |s.agents| && Holds(s.agents[a])
    ensures s.dones <= 1
  {
    if s.queued == 0 {
      var a := SomeHolderIn(s.agents);
      assert HolderOk(s, s.agents[a]);
    }
  }

  /** A connection whose Detach succeeded gets no OnClose, and one that is over has called Done exactly once. */
  lemma OverForGood(run: seq<State>, a: nat)
    requires Execution(run) && a < |run[|run| - 1].agents|
             && (run[|run| - 1].agents[a].Kept? || run[|run| - 1].agents[a].Detached?)
    ensures var s := run[|run| - 1];
            && s.closed && s.dones == 1 && s.queued == 0
            && (s.agents[a].Detached? ==> OnClose !in s.calls)
            && (forall b :: 0 <= b < |s.agents| && b != a ==> !Holds(s.agents[b]))
  {
    Reachable(run);
    var s := run[|run| - 1];
    OnlyHolder(s, a, a);
    forall b | 0 <= b < |s.agents| && b != a ensures !Holds(s.agents[b]) { OnlyHolder(s, a, b); }
    assert HolderOk(s, s.agents[a]);
  }

  /** Nothing is left to do: every call has returned, no task is queued or running. */
  ghost predicate Quiet(s: State) {
    s.queued == 0 && forall a :: 0 <= a < |s.agents| ==> s.agents[a].Done? || s.agents[a].Kept? || s.agents[a].Detached?
  }

  /** Agent `a` moves on from its notify. */
  ghost predicate Sets(s: State, t: State, a: int) {
    0 <= a < |s.agents| && s.agents[a].Notify? && a < |t.agents| && t.agents[a] != s.agents[a]
  }

  /** Step `i` of the run is the notify of the events `ev`. */
  ghost predicate Notified(run: seq<State>, i: int, ev: set<Ev>) {
    0 <= i < |run| - 1 && exists a :: Sets(run[i], run[i + 1], a) && run[i].agents[a].ev == ev
  }

  /** Step `j` of the run starts a task, which takes the events `ev`. */
  ghost predicate Took(run: seq<State>, j: int, ev: set<Ev>) {
    0 <= j < |run| - 1 && run[j + 1].taken == run[j].taken + [ev]
  }

  /** A run that starts after step `i` and before state `k` takes all of `ev`. */
  ghost predicate TookAll(run: seq<State>, i: int, k: int, ev: set<Ev>) {
    exists j, w :: i < j < k && Took(run, j, w) && ev <= w
  }

  /** What a step does to the word: a start takes all events, anything else leaves them. */
  lemma StepTakes(s: State, t: State)
    requires Step(s, t)
    ensures (s.pending <= t.pending && t.taken == s.taken) || (t.pending == {} && t.taken == s.taken + [s.pending])
  {
  }

  /** Whatever a step adds is a notify's. */
  lemma StepSets(s: State, t: State, e: Ev) returns (a: int)
    requires Step(s, t) && e in t.pending && e !in s.pending
    ensures Sets(s, t, a) && e in s.agents[a].ev
  {
    a :| 0 <= a < |s.agents| && AgentStep(s, t, a);
  }

  lemma NotifyEvents(s: State, t: State, a: nat)
    requires Step(s, t) && Sets(s, t, a)
    ensures s.agents[a].ev <= t.pending
  {
    assert !Arrives(s, t);
    var b :| 0 <= b < |s.agents| && AgentStep(s, t, b);
    if b != a {
      OthersStay(s, t, b, a);
    }
  }

  lemma OthersStay(s: State, t: State, b: nat, a: nat)
    requires b < |s.agents| && AgentStep(s, t, b) && a < |s.agents| && a != b
    ensures |t.agents| == |s.agents| && t.agents[a] == s.agents[a]
  {
  }

  lemma NotifiedWaits(run: seq<State>, i: nat, ev: set<Ev>)
    requires Execution(run) && Notified(run, i, ev)
    ensures ev <= run[i + 1].pending
  {
    assert StepsAt(run, i);
    var a :| Sets(run[i], run[i + 1], a) && run[i].agents[a].ev == ev;
    NotifyEvents(run[i], run[i + 1], a);
  }

  /** Events wait in the word until a run takes them: the step that does, or -1. */
  lemma {:induction false} EventsWait(run: seq<State>, i: nat, k: nat, ev: set<Ev>) returns (j: int)
    requires Execution(run) && i <= k < |run| && ev <= run[i].pending
    ensures if j == -1 then ev <= run[k].pending else i <= j < k && ev <= run[j].pending && Took(run, j, run[j].pending)
    decreases k
  {
    j := -1;
    if k > i {
      j := EventsWait(run, i, k - 1, ev);
      assert StepsAt(run, k - 1);
      StepTakes(run[k - 1], run[k]);
      if j == -1 && run[k].taken != run[k - 1].taken { j := k - 1; }
    }
  }

  /**
   No event is lost: once everything has come to rest on a connection that is not over, the events of every notify were
   taken, all of them together, by a run that started after it. Events are left in the word only when the connection is
   over.
   */
  lemma NoLostEvent(run: seq<State>)
    requires Execution(run) && Quiet(run[|run| - 1])
    ensures var s := run[|run| - 1]; s.pending != {} ==> s.closed && s.dones == 1
    ensures var s := run[|run| - 1];
            !s.closed ==> s.pending == {} && !s.scheduled && s.calls != [] && s.calls[0] == OnOpen
    ensures !run[|run| - 1].closed ==>
              forall i, ev :: Notified(run, i, ev) ==> TookAll(run, i, |run| - 1, ev)
  {
    AtRest(run);
    if !run[|run| - 1].closed {
      forall i, ev | Notified(run, i, ev) ensures TookAll(run, i, |run| - 1, ev) {
        NotEmpty(run, i, ev);
        NotifiedWaits(run, i, ev);
        var j := EventsWait(run, i + 1, |run| - 1, ev);
        assert j != -1;
      }
    }
  }

  lemma AtRest(run: seq<State>)
    requires Execution(run) && Quiet(run[|run| - 1])
    ensures var s := run[|run| - 1]; s.pending != {} ==> s.closed && s.dones == 1
    ensures var s := run[|run| - 1];
            !s.closed ==> s.pending == {} && !s.scheduled && s.calls != [] && s.calls[0] == OnOpen
  {
    Reachable(run);
    var s := run[|run| - 1];
    if s.scheduled {
      var a := SomeHolderIn(s.agents);
      assert HolderOk(s, s.agents[a]);
    } else {
      assert HolderOk(s, TakeOver);
    }
  }

  lemma NotEmpty(run: seq<State>, i: nat, ev: set<Ev>)
    requires Execution(run) && Notified(run, i, ev)
    ensures ev != {}
  {
    PrefixRuns(run, i + 1);
    Reachable(run[..i + 1]);
    assert Inv(run[i]);
  }

  /** Event `e` was set by step `i`: a notify, or accept before the first one. */
  ghost predicate SetAt(run: seq<State>, i: int, e: Ev) {
    (i == -1 && e == Open) || exists ev :: e in ev && Notified(run, i, ev)
  }

  ghost predicate Starts(run: seq<State>, k: int) { exists w :: Took(run, k, w) }

  ghost predicate NoneStarts(run: seq<State>, i: int, j: int) { forall k :: i < k < j ==> !Starts(run, k) }

  lemma {:induction false} PendingWasSet(run: seq<State>, k: nat, e: Ev)
    requires Execution(run) && k < |run| && e in run[k].pending
    ensures exists i :: -1 <= i < k && SetAt(run, i, e) && NoneStarts(run, i, k)
    decreases k
  {
    if k == 0 {
      assert SetAt(run, -1, e) && NoneStarts(run, -1, 0);
    } else {
      var s, t := run[k - 1], run[k];
      assert StepsAt(run, k - 1);
      StepTakes(s, t);
      if e in s.pending {
        PendingWasSet(run, k - 1, e);
        var i :| -1 <= i < k - 1 && SetAt(run, i, e) && NoneStarts(run, i, k - 1);
        assert t.pending != {} && !Starts(run, k - 1);
        assert NoneStarts(run, i, k);
      } else {
        var a := StepSets(s, t, e);
        assert Notified(run, k - 1, s.agents[a].ev);
        assert SetAt(run, k - 1, e) && NoneStarts(run, k - 1, k);
      }
    }
  }

  /**
   No event is made up or taken twice: whatever a run takes was set by a notify before it, or by accept, and no other
   run has started in between.
   */
  lemma EventsWereSet(run: seq<State>, j: nat, w: set<Ev>, e: Ev)
    requires Execution(run) && Took(run, j, w) && e in w
    ensures exists i :: -1 <= i < j && SetAt(run, i, e) && NoneStarts(run, i, j)
  {
    assert StepsAt(run, j);
    StepTakes(run[j], run[j + 1]);
    assert run[j].taken + [w] != run[j].taken;
    assert (run[j].taken + [w])[|run[j].taken|] == w
           && (run[j].taken + [run[j].pending])[|run[j].taken|] == run[j].pending;
    PendingWasSet(run, j, e);
  }
}
