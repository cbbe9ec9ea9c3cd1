/**
 The deadline index of the connection table (fdtable_unix.go, conn_unix.go): per page of the table, the earliest
 deadline of its connections. Every atomic load, store and compare-and-swap of setters and scanners is one step of one
 agent.
 */
module Deadlines {
  import opened Wrappers

  const PAGE: nat := 4096

  /**
   A connection with its fd; `version` counts the times its deadline was set, `notified` is the version that a scanner
   told it about.
   */
  datatype Conn = Conn(fd: nat, deadline: int, version: nat, notified: int)

  /** The page and the slot of an fd. */
  function PageOf(fd: nat): nat { fd / PAGE }

  function SlotOf(fd: nat): nat { fd % PAGE }

  datatype Pc =
    | Done
    // SetDeadline
    | Store(c: nat, d: nat)
    // lowerDeadline, by a setter or at the end of a scanner's page; `resume` is what the scanner does next
    | LowerLoad(page: nat, d: nat, resume: Option<Scan>)
    | LowerCas(page: nat, d: nat, cur: int, resume: Option<Scan>)
    // checkDeadlines
    | Look(scan: Scan)
    | Reset(scan: Scan)
    | Slot(scan: Scan, slot: nat, next: nat)
    | Deadline(scan: Scan, slot: nat, next: nat, c: nat)
    | Notify(scan: Scan, slot: nat, next: nat, c: nat, version: nat)

  /** A scan at time `now`, on its way through the pages. */
  datatype Scan = Scan(now: int, page: nat)

  /** `table` maps the fds in use to connections, `mins` holds the page minimums, 0 where there is none. */
  datatype State = State(conns: seq<Conn>, table: map<nat, nat>, mins: seq<int>, agents: seq<Pc>)

  function To(s: State, a: nat, pc: Pc): State
    requires a < |s.agents|
  {
    s.(agents := s.agents[a := pc])
  }

  ghost predicate Initial(s: State) {
    s.conns == [] && s.table == map[] && s.agents == [] && forall p :: 0 <= p < |s.mins| ==> s.mins[p] == 0
  }

  /** A connection enters the table without a deadline, or leaves it; somebody sets a deadline, or a scan begins. */
  ghost predicate Arrives(s: State, t: State) {
    || (exists fd: nat :: fd !in s.table && PageOf(fd) < |s.mins|
          && t == s.(conns := s.conns + [Conn(fd, 0, 0, -1)], table := s.table[fd := |s.conns|]))
    || (exists fd :: fd in s.table && t == s.(table := s.table - {fd}))
    || (exists c, d: nat :: 0 <= c < |s.conns| && t == s.(agents := s.agents + [Store(c, d)]))
    || (exists now :: t == s.(agents := s.agents + [Look(Scan(now, 0))]))
  }

  /** Where a scanner goes after a page. */
  function NextPage(scan: Scan): Pc { Look(scan.(page := scan.page + 1)) }

  function Resume(r: Option<Scan>): Pc { if r.None? then Done else NextPage(r.value) }

  /** The connection has been told about this version of its deadline. */
  function Told(k: Conn, version: nat): Conn { if k.notified < version then k.(notified := version) else k }

  ghost predicate SetStep(s: State, t: State, a: nat)
    requires a < |s.agents|
  {
    match s.agents[a]
    case Store(c, d) => c < |s.conns|
      && var k := s.conns[c].(deadline := d, version := s.conns[c].version + 1);
         t == To(s, a, if d == 0 then Done else LowerLoad(PageOf(k.fd), d, None)).(conns := s.conns[c := k])
    case LowerLoad(page, d, resume) => page < |s.mins|
      && var cur := s.mins[page];
         t == To(s, a, if cur != 0 && cur <= d then Resume(resume) else LowerCas(page, d, cur, resume))
    case LowerCas(page, d, cur, resume) => page < |s.mins|
      && if s.mins[page] == cur then t == To(s, a, Resume(resume)).(mins := s.mins[page := d])
         else t == To(s, a, LowerLoad(page, d, resume))
    case _ => false
  }

  ghost predicate ScanStep(s: State, t: State, a: nat)
    requires a < |s.agents|
  {
    match s.agents[a]
    case Look(scan) =>
      if scan.page >= |s.mins| then t == To(s, a, Done)
      else if s.mins[scan.page] == 0 || s.mins[scan.page] > scan.now then t == To(s, a, NextPage(scan))
      else t == To(s, a, Reset(scan))
    case Reset(scan) => scan.page < |s.mins| && t == To(s, a, Slot(scan, 0, 0)).(mins := s.mins[scan.page := 0])
    case Slot(scan, slot, next) =>
      if slot >= PAGE then t == To(s, a, if next > 0 then LowerLoad(scan.page, next, Some(scan)) else NextPage(scan))
      else
        var fd := scan.page * PAGE + slot;
        t == To(s, a, if fd in s.table then Deadline(scan, slot, next, s.table[fd]) else Slot(scan, slot + 1, next))
    case Deadline(scan, slot, next, c) => c < |s.conns|
      && var d := s.conns[c].deadline;
         if d <= 0 then t == To(s, a, Slot(scan, slot + 1, next))
         else if d <= scan.now then t == To(s, a, Notify(scan, slot, next, c, s.conns[c].version))
         else t == To(s, a, Slot(scan, slot + 1, if next == 0 || d < next then d else next))
    case Notify(scan, slot, next, c, version) => c < |s.conns|
      && t == To(s, a, Slot(scan, slot + 1, next)).(conns := s.conns[c := Told(s.conns[c], version)])
    case _ => false
  }

  ghost predicate Step(s: State, t: State) {
    Arrives(s, t) || exists a :: 0 <= a < |s.agents| && (SetStep(s, t, a) || ScanStep(s, t, a))
  }

  ghost predicate Execution(run: seq<State>) {
    |run| > 0 && Initial(run[0]) && forall i :: 0 <= i < |run| - 1 ==> Step(run[i], run[i + 1])
  }

  // ---------------------------------------------------------------- who takes care of a connection

  /** A connection of the table with a deadline that no scanner has told it about. */
  ghost predicate Waits(s: State, c: nat) {
    c < |s.conns| && s.conns[c].fd in s.table && s.table[s.conns[c].fd] == c && s.conns[c].deadline > 0
    && s.conns[c].notified != s.conns[c].version
  }

  /** The agent will lower the page's minimum to the deadline or below, or come to the connection. */
  predicate Cares(pc: Pc, c: nat, k: Conn) {
    match pc
    case LowerLoad(page, d, _) => page == PageOf(k.fd) && 0 < d <= k.deadline
    case LowerCas(page, d, _, _) => page == PageOf(k.fd) && 0 < d <= k.deadline
    case Slot(scan, slot, next) => scan.page == PageOf(k.fd) && (slot <= SlotOf(k.fd) || 0 < next <= k.deadline)
    case Deadline(scan, slot, next, c1) =>
      scan.page == PageOf(k.fd) && (slot < SlotOf(k.fd) || c1 == c || 0 < next <= k.deadline)
    case Notify(scan, slot, next, c1, version) =>
      scan.page == PageOf(k.fd)
      && (slot < SlotOf(k.fd) || (c1 == c && version == k.version) || 0 < next <= k.deadline)
    case _ => false
  }

  ghost predicate Covered(s: State, c: nat)
    requires c < |s.conns|
  {
    var k := s.conns[c];
    || (PageOf(k.fd) < |s.mins| && 0 < s.mins[PageOf(k.fd)] <= k.deadline)
    || exists a :: 0 <= a < |s.agents| && Cares(s.agents[a], c, k)
  }

  ghost predicate Inv(s: State) {
    && (forall p :: 0 <= p < |s.mins| ==> s.mins[p] >= 0)
    && (forall c :: 0 <= c < |s.conns| ==>
        PageOf(s.conns[c].fd) < |s.mins| && s.conns[c].notified <= s.conns[c].version)
    && (forall fd :: fd in s.table ==> s.table[fd] < |s.conns| && s.conns[s.table[fd]].fd == fd)
    && (forall a :: 0 <= a < |s.agents| ==> AgentOk(s, s.agents[a]))
    && (forall c :: 0 <= c < |s.conns| && Waits(s, c) ==> Covered(s, c))
  }

  /** A scanner that holds a connection found it in its slot. */
  ghost predicate AgentOk(s: State, pc: Pc) {
    match pc
    case Store(c, _) => c < |s.conns|
    case LowerLoad(page, d, _) => page < |s.mins| && d > 0
    case LowerCas(page, d, cur, _) => page < |s.mins| && d > 0 && (cur == 0 || cur > d)
    case Reset(scan) => scan.page < |s.mins|
    case Slot(scan, _, _) => scan.page < |s.mins|
    case Deadline(scan, slot, _, c) => scan.page < |s.mins| && c < |s.conns| && slot < PAGE
    case Notify(scan, slot, _, c, version) =>
      scan.page < |s.mins| && c < |s.conns| && slot < PAGE && version <= s.conns[c].version
    case _ => true
  }

  // ---------------------------------------------------------------- every step

  /** An agent other than `a` goes on caring. */
  lemma OthersCare(s: State, t: State, a: nat, c: nat)
    requires a < |s.agents| && |t.agents| == |s.agents| && t.agents == s.agents[a := t.agents[a]]
    requires c < |s.conns| && c < |t.conns| && t.conns[c] == s.conns[c] && Covered(s, c)
    requires |t.mins| == |s.mins| && PageOf(s.conns[c].fd) < |s.mins|
    requires var p := PageOf(s.conns[c].fd); 0 < s.mins[p] <= s.conns[c].deadline ==> Covered(t, c)
    requires Cares(s.agents[a], c, s.conns[c]) ==> Covered(t, c)
    ensures Covered(t, c)
  {
    var k := s.conns[c];
    if !(0 < s.mins[PageOf(k.fd)] <= k.deadline) {
      var j :| 0 <= j < |s.agents| && Cares(s.agents[j], c, k);
      if j != a { assert Cares(t.agents[j], c, t.conns[c]); }
    }
  }

  /** The agent itself cares after the step. */
  lemma ICare(t: State, a: nat, c: nat)
    requires a < |t.agents| && c < |t.conns| && Cares(t.agents[a], c, t.conns[c])
    ensures Covered(t, c)
  {
  }

  lemma AgentsStay(s: State, t: State, a: nat)
    requires Inv(s) && a < |s.agents| && |t.agents| == |s.agents| && t.agents == s.agents[a := t.agents[a]]
    requires |t.conns| == |s.conns| && |t.mins| == |s.mins| && AgentOk(t, t.agents[a])
    requires forall c :: 0 <= c < |s.conns| ==> s.conns[c].version <= t.conns[c].version
    ensures forall b :: 0 <= b < |t.agents| ==> AgentOk(t, t.agents[b])
  {
    forall b | 0 <= b < |t.agents| ensures AgentOk(t, t.agents[b]) { assert AgentOk(s, s.agents[b]); }
  }

  lemma StoreKeeps(s: State, t: State, a: nat)
    requires Inv(s) && a < |s.agents| && s.agents[a].Store? && SetStep(s, t, a)
    ensures Inv(t)
  {
    var x, d := s.agents[a].c, s.agents[a].d;
    AgentsStay(s, t, a);
    forall c | 0 <= c < |t.conns| && Waits(t, c) ensures Covered(t, c) {
      if c == x {
        ICare(t, a, c);
      } else {
        assert Waits(s, c);
        OthersCare(s, t, a, c);
      }
    }
  }

  lemma LowerKeeps(s: State, t: State, a: nat)
    requires Inv(s) && a < |s.agents| && SetStep(s, t, a) && (s.agents[a].LowerLoad? || s.agents[a].LowerCas?)
    ensures Inv(t)
  {
    assert AgentOk(s, s.agents[a]);
    AgentsStay(s, t, a);
    forall c | 0 <= c < |t.conns| && Waits(t, c) ensures Covered(t, c) {
      assert Waits(s, c);
      OthersCare(s, t, a, c);
    }
  }

  lemma LookKeeps(s: State, t: State, a: nat)
    requires Inv(s) && a < |s.agents| && ScanStep(s, t, a) && s.agents[a].Look?
    ensures Inv(t)
  {
    AgentsStay(s, t, a);
    forall c | 0 <= c < |t.conns| && Waits(t, c) ensures Covered(t, c) {
      assert Waits(s, c);
      OthersCare(s, t, a, c);
    }
  }

  /** From here on the scanner takes care of every connection of the page. */
  lemma ResetKeeps(s: State, t: State, a: nat)
    requires Inv(s) && a < |s.agents| && ScanStep(s, t, a) && s.agents[a].Reset?
    ensures Inv(t)
  {
    AgentsStay(s, t, a);
    forall c | 0 <= c < |t.conns| && Waits(t, c) ensures Covered(t, c) {
      assert Waits(s, c);
      if PageOf(s.conns[c].fd) == s.agents[a].scan.page { ICare(t, a, c); } else { OthersCare(s, t, a, c); }
    }
  }

  lemma FdParts(fd: nat)
    ensures fd == PageOf(fd) * PAGE + SlotOf(fd) && SlotOf(fd) < PAGE
  {
  }

  lemma SlotKeeps(s: State, t: State, a: nat)
    requires Inv(s) && a < |s.agents| && ScanStep(s, t, a) && s.agents[a].Slot?
    ensures Inv(t)
  {
    AgentsStay(s, t, a);
    forall c | 0 <= c < |t.conns| && Waits(t, c) ensures Covered(t, c) {
      assert Waits(s, c);
      FdParts(s.conns[c].fd);
      if Cares(s.agents[a], c, s.conns[c]) { ICare(t, a, c); }
      OthersCare(s, t, a, c);
    }
  }

  lemma DeadlineKeeps(s: State, t: State, a: nat)
    requires Inv(s) && a < |s.agents| && ScanStep(s, t, a) && s.agents[a].Deadline?
    ensures Inv(t)
  {
    AgentsStay(s, t, a);
    forall c | 0 <= c < |t.conns| && Waits(t, c) ensures Covered(t, c) {
      assert Waits(s, c);
      if Cares(s.agents[a], c, s.conns[c]) { ICare(t, a, c); }
      OthersCare(s, t, a, c);
    }
  }

  lemma NotifyKeeps(s: State, t: State, a: nat)
    requires Inv(s) && a < |s.agents| && ScanStep(s, t, a) && s.agents[a].Notify?
    ensures Inv(t)
  {
    var x := s.agents[a].c;
    assert AgentOk(s, s.agents[a]);
    AgentsStay(s, t, a);
    forall c | 0 <= c < |t.conns| && Waits(t, c) ensures Covered(t, c) {
      assert Waits(s, c);
      if t.conns[c] == s.conns[c] {
        if Cares(s.agents[a], c, s.conns[c]) { ICare(t, a, c); }
        OthersCare(s, t, a, c);
      } else {
        ToldCare(s, t, a, c);
      }
    }
  }

  /** Being told about an older deadline changes nothing for the present one. */
  lemma ToldCare(s: State, t: State, a: nat, c: nat)
    requires a < |s.agents| && |t.agents| == |s.agents| && t.agents == s.agents[a := t.agents[a]] && t.mins == s.mins
    requires c < |s.conns| && c < |t.conns| && Covered(s, c) && Waits(s, c) && Waits(t, c)
    requires s.agents[a].Notify? && s.agents[a].c == c && t.conns[c] == Told(s.conns[c], s.agents[a].version)
    requires s.agents[a].version <= s.conns[c].version
             && t.agents[a] == Slot(s.agents[a].scan, s.agents[a].slot + 1, s.agents[a].next)
    requires t.conns[c] != s.conns[c]
    ensures Covered(t, c)
  {
    var k := s.conns[c];
    if !(PageOf(k.fd) < |s.mins| && 0 < s.mins[PageOf(k.fd)] <= k.deadline) {
      var j :| 0 <= j < |s.agents| && Cares(s.agents[j], c, k);
      assert Cares(t.agents[j], c, t.conns[c]);
    }
  }

  lemma EnterKeeps(s: State, fd: nat)
    requires Inv(s) && fd !in s.table && PageOf(fd) < |s.mins|
    ensures Inv(s.(conns := s.conns + [Conn(fd, 0, 0, -1)], table := s.table[fd := |s.conns|]))
  {
    var t := s.(conns := s.conns + [Conn(fd, 0, 0, -1)], table := s.table[fd := |s.conns|]);
    forall b | 0 <= b < |t.agents| ensures AgentOk(t, t.agents[b]) { assert AgentOk(s, s.agents[b]); }
    forall c | 0 <= c < |t.conns| && Waits(t, c) ensures Covered(t, c) {
      assert c < |s.conns| && t.conns[c] == s.conns[c];
      assert Waits(s, c);
      CoveredStays(s, t, c);
    }
  }

  lemma CoveredStays(s: State, t: State, c: nat)
    requires c < |s.conns| && c < |t.conns| && t.conns[c] == s.conns[c] && t.mins == s.mins && s.agents <= t.agents
    requires Covered(s, c)
    ensures Covered(t, c)
  {
    var k := s.conns[c];
    if !(PageOf(k.fd) < |s.mins| && 0 < s.mins[PageOf(k.fd)] <= k.deadline) {
      var j :| 0 <= j < |s.agents| && Cares(s.agents[j], c, k);
      assert Cares(t.agents[j], c, t.conns[c]);
    }
  }

  lemma LeaveKeeps(s: State, fd: nat)
    requires Inv(s) && fd in s.table
    ensures Inv(s.(table := s.table - {fd}))
  {
    var t := s.(table := s.table - {fd});
    forall b | 0 <= b < |t.agents| ensures AgentOk(t, t.agents[b]) { assert AgentOk(s, s.agents[b]); }
    forall c | 0 <= c < |t.conns| && Waits(t, c) ensures Covered(t, c) {
      assert Waits(s, c);
      CoveredStays(s, t, c);
    }
  }

  lemma JoinKeeps(s: State, pc: Pc)
    requires Inv(s) && AgentOk(s, pc)
    ensures Inv(s.(agents := s.agents + [pc]))
  {
    var t := s.(agents := s.agents + [pc]);
    forall b | 0 <= b < |t.agents| ensures AgentOk(t, t.agents[b]) {
      if b < |s.agents| { assert AgentOk(s, s.agents[b]); }
    }
    forall c | 0 <= c < |t.conns| && Waits(t, c) ensures Covered(t, c) {
      assert Waits(s, c);
      CoveredStays(s, t, c);
    }
  }

  lemma ArrivesKeeps(s: State, t: State)
    requires Inv(s) && Arrives(s, t)
    ensures Inv(t)
  {
    if fd: nat :| fd !in s.table && PageOf(fd) < |s.mins|
                  && t == s.(conns := s.conns + [Conn(fd, 0, 0, -1)], table := s.table[fd := |s.conns|]) {
      EnterKeeps(s, fd);
    } else if fd :| fd in s.table && t == s.(table := s.table - {fd}) {
      LeaveKeeps(s, fd);
    } else if c, d: nat :| 0 <= c < |s.conns| && t == s.(agents := s.agents + [Store(c, d)]) {
      JoinKeeps(s, Store(c, d));
    } else {
      var now :| t == s.(agents := s.agents + [Look(Scan(now, 0))]);
      JoinKeeps(s, Look(Scan(now, 0)));
    }
  }

  lemma StepKeeps(s: State, t: State)
    requires Inv(s) && Step(s, t)
    ensures Inv(t)
  {
    if Arrives(s, t) {
      ArrivesKeeps(s, t);
    } else {
      var a :| 0 <= a < |s.agents| && (SetStep(s, t, a) || ScanStep(s, t, a));
      match s.agents[a]
      case Store(_, _) => StoreKeeps(s, t, a);
      case LowerLoad(_, _, _) => LowerKeeps(s, t, a);
      case LowerCas(_, _, _, _) => LowerKeeps(s, t, a);
      case Look(_) => LookKeeps(s, t, a);
      case Reset(_) => ResetKeeps(s, t, a);
      case Slot(_, _, _) => SlotKeeps(s, t, a);
      case Deadline(_, _, _, _) => DeadlineKeeps(s, t, a);
      case Notify(_, _, _, _, _) => NotifyKeeps(s, t, a);
    }
  }

  lemma {:induction false} Reachable(run: seq<State>)
    requires Execution(run)
    ensures Inv(run[|run| - 1])
  {
    if |run| > 1 {
      var before := run[..|run| - 1];
      assert forall i :: 0 <= i < |before| ==> before[i] == run[i];
      Reachable(before);
      StepKeeps(run[|run| - 2], run[|run| - 1]);
    }
  }

  // ---------------------------------------------------------------- the results

  /**
   In every run, a connection of the table whose deadline no scanner has told it about is covered: by its page's
   minimum, which is not after the deadline, or by a setter or a scanner that is not done yet.
   */
  lemma DeadlinesCovered(run: seq<State>, c: nat)
    requires Execution(run) && Waits(run[|run| - 1], c)
    ensures Covered(run[|run| - 1], c)
  {
    Reachable(run);
  }

  /** When no setter or scanner is in the middle of something, the minimums alone cover every connection. */
  ghost predicate Indexed(conns: seq<Conn>, table: map<nat, nat>, mins: seq<int>) {
    forall c :: 0 <= c < |conns| && Pending(conns, table, c) ==>
      PageOf(conns[c].fd) < |mins| && 0 < mins[PageOf(conns[c].fd)] <= conns[c].deadline
  }

  ghost predicate Pending(conns: seq<Conn>, table: map<nat, nat>, c: nat)
    requires c < |conns|
  {
    conns[c].fd in table && table[conns[c].fd] == c && conns[c].deadline > 0 && conns[c].notified != conns[c].version
  }

  ghost predicate Consistent(conns: seq<Conn>, table: map<nat, nat>, mins: seq<int>) {
    && (forall c :: 0 <= c < |conns| ==> PageOf(conns[c].fd) < |mins| && conns[c].notified <= conns[c].version)
    && (forall fd :: fd in table ==> table[fd] < |conns| && conns[table[fd]].fd == fd)
    && (forall p :: 0 <= p < |mins| ==> mins[p] >= 0)
  }

  ghost predicate AllDone(agents: seq<Pc>) { forall a :: 0 <= a < |agents| ==> agents[a] == Done }

  lemma QuietIsIndexed(run: seq<State>)
    requires Execution(run) && AllDone(run[|run| - 1].agents)
    ensures var s := run[|run| - 1]; Indexed(s.conns, s.table, s.mins) && Consistent(s.conns, s.table, s.mins)
  {
    Reachable(run);
    var s := run[|run| - 1];
    forall c | 0 <= c < |s.conns| && Pending(s.conns, s.table, c)
      ensures PageOf(s.conns[c].fd) < |s.mins| && 0 < s.mins[PageOf(s.conns[c].fd)] <= s.conns[c].deadline
    {
      assert Waits(s, c);
      assert Covered(s, c);
    }
  }
}
