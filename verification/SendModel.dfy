/**
 Sending and closing on a connection (conn_unix.go, task_unix.go) as functions on a value, one for each critical section
 of the connection's lock, and the runs that they make: writers, callers of Close and the connection's task take the
 lock in any order. What the kernel does with a write enters as a parameter.
 */
module SendModel {
  import opened Words
  import opened Wrappers

  const MAX_BACKLOG: int := 65536

  /** The result of a write to the socket: a prefix taken, or nothing. */
  datatype Sys = Wrote(n: nat) | Again | Interrupted | Failed(code: int)

  /** The close reason: nil, io.EOF, another error, or that a callback panicked. */
  datatype Reason = Local | Eof | Hard(code: int) | Panicked

  /** Whether a close for this reason is carried out without sending what is buffered. */
  predicate ClosesNow(r: Reason) { r.Hard? || r.Panicked? }

  /**
   `unsent` waits in the buffer; `kernel` is what the kernel has taken, `accepted` what writers were told was accepted.
   */
  datatype Path = Path(unsent: seq<byte>, closing: bool, closed: bool, closeErr: Reason, kernel: seq<byte>,
                       accepted: seq<byte>)

  // ---------------------------------------------------------------- the critical sections

  datatype Writing = Writing(path: Path, ok: bool, notify: bool)

  function Taken(r: Sys): nat { if r.Wrote? then r.n else 0 }

  /** A write accepts all of `b` or nothing; `direct` is what the socket does when nothing waits before it. */
  function Write(p: Path, b: seq<byte>, direct: Sys): Writing
    requires Taken(direct) <= |b|
  {
    if p.closed || p.closing then Writing(p, false, false)
    else if b == [] then Writing(p, true, false)
    else if p.unsent != [] then Writing(p.(unsent := p.unsent + b, accepted := p.accepted + b), true, true)
    else if direct.Failed? then Writing(p, false, false)
    else
      var n := Taken(direct);
      Writing(p.(unsent := b[n..], kernel := p.kernel + b[..n], accepted := p.accepted + b), true, n < |b|)
  }

  /** The task sends what waits, once. */
  function Flush(p: Path, r: Sys): Path
    requires Taken(r) <= |p.unsent|
  {
    p.(unsent := p.unsent[Taken(r)..], kernel := p.kernel + p.unsent[..Taken(r)])
  }

  function Request(p: Path, reason: Reason): Path {
    if reason.Eof? then if p.closing then p else p.(closing := true, closeErr := Eof)
    else p.(closing := true, closeErr := if ClosesNow(reason) && !ClosesNow(p.closeErr) then reason else p.closeErr)
  }

  predicate Due(p: Path) { p.closing && (ClosesNow(p.closeErr) || p.unsent == []) }

  function Close(p: Path): Path { p.(closed := true, unsent := []) }

  // ---------------------------------------------------------------- runs

  /** Where the task is; `check`: the round will end with closeIfRequested. */
  datatype Pc =
    | Idle
    | Round(write: bool, check: bool)      // the events are taken, OnOpen may be called
    | Flushing(check: bool)                // there is a backlog to send
    | Failing(code: int, check: bool)      // the flush failed
    | Serving(check: bool)                 // callbacks, reading
    | Closing(reason: Reason)              // the close was decided on, and the lock released
    | Detaching                            // Detach owns the task
    | Over

  /**
   `writeEv` and `closeEv` are the pending events evWrite and evClose, `writers` and `closers` count the callers between
   the lock and their notify; `armed`: the kernel will report the socket writable. `asked` lists the requests to close,
   `ended` the reason that OnClose gets, `handed` what Detach took out of the buffer.
   */
  datatype State = State(path: Path, pc: Pc, writeEv: bool, closeEv: bool, writers: nat, closers: nat, armed: bool,
                         asked: seq<Reason>, ended: Option<Reason>, handed: seq<byte>)

  function Init(): State { State(Path([], false, false, Local, [], []), Idle, false, false, 0, 0, false, [], None, []) }

  function Asks(s: State, reason: Reason): State {
    s.(path := Request(s.path, reason), asked := s.asked + [reason], closers := s.closers + 1)
  }

  /** A step of a writer, of somebody who closes the connection, of a notify, or of the kernel. */
  ghost predicate OthersStep(s: State, t: State) {
    || (exists b, direct :: Taken(direct) <= |b| && Writes(s, t, b, direct))
    || (exists reason: Reason :: !reason.Panicked? && t == Asks(s, reason))
    || (s.writers > 0 && t == s.(writers := s.writers - 1, writeEv := true))
    || (s.closers > 0 && t == s.(closers := s.closers - 1, closeEv := true))
    || t == s.(armed := false, writeEv := true)
  }

  ghost predicate Writes(s: State, t: State, b: seq<byte>, direct: Sys)
    requires Taken(direct) <= |b|
  {
    var w := Write(s.path, b, direct);
    t == s.(path := w.path, writers := s.writers + One(w.notify))
  }

  function One(b: bool): nat { if b then 1 else 0 }

  /** The flush of a round: an error asks for the close, an interrupted write for another round. */
  ghost predicate Flushes(s: State, t: State, check: bool, r: Sys)
    requires Taken(r) <= |s.path.unsent|
  {
    var p := Flush(s.path, r);
    match r
    case Interrupted => t == s.(pc := Serving(check), writers := s.writers + 1)
    case Failed(code) => t == s.(pc := Failing(code, check))
    case _ => t == s.(path := p, pc := Serving(check || p.unsent == []), armed := s.armed || p.unsent != [])
  }

  ghost predicate TaskStep(s: State, t: State) {
    match s.pc
    case Idle =>
      || ((s.writeEv || s.closeEv) && t == s.(pc := Round(s.writeEv, s.closeEv), writeEv := false, closeEv := false))
      || (!s.writeEv && !s.closeEv && t == s.(pc := Round(false, false)))
      || (!s.writeEv && !s.closeEv && t == s.(pc := Detaching))
    case Round(write, check) =>
      || t == s.(pc := if write && s.path.unsent != [] then Flushing(check) else Serving(check))
      || t == s.(pc := Closing(Panicked))
    case Flushing(check) => exists r :: Taken(r) <= |s.path.unsent| && Flushes(s, t, check, r)
    case Failing(code, check) => t == Asks(s, Hard(code)).(pc := Serving(check))
    case Serving(check) =>
      || t == s.(pc := if !check then Idle else if Due(s.path) then Closing(s.path.closeErr) else Idle)
      || t == s.(pc := Closing(Panicked))
    case Closing(reason) => t == s.(path := Close(s.path), pc := Over, ended := Some(reason))
    case Detaching =>
      if s.path.closing then t == s.(pc := Idle)
      else t == s.(path := Close(s.path), pc := Over, handed := s.path.unsent)
    case Over => false
  }

  ghost predicate StepsAt(run: seq<State>, i: int) {
    0 <= i < |run| - 1 && (OthersStep(run[i], run[i + 1]) || TaskStep(run[i], run[i + 1]))
  }

  ghost predicate Execution(run: seq<State>) {
    |run| > 0 && run[0] == Init() && forall i :: 0 <= i < |run| - 1 ==> StepsAt(run, i)
  }

  // ---------------------------------------------------------------- which reason counts

  function FirstHard(asked: seq<Reason>): Option<Reason> {
    if asked == [] then None else if ClosesNow(asked[0]) then Some(asked[0]) else FirstHard(asked[1..])
  }

  /** The first hard error that was asked for, or else the first request of all. */
  function Verdict(asked: seq<Reason>): Reason {
    if FirstHard(asked).Some? then FirstHard(asked).value else if asked == [] then Local else asked[0]
  }

  lemma {:induction false} FirstHardSnoc(asked: seq<Reason>, reason: Reason)
    ensures FirstHard(asked + [reason]) ==
            if FirstHard(asked).Some? then FirstHard(asked) else if ClosesNow(reason) then Some(reason) else None
    ensures FirstHard(asked).Some? ==> ClosesNow(FirstHard(asked).value)
  {
    if asked != [] {
      FirstHardSnoc(asked[1..], reason);
      assert (asked + [reason])[1..] == asked[1..] + [reason];
    } else {
      assert (asked + [reason])[1..] == [];
    }
  }

  /** A request moves the reason as the list of requests says. */
  lemma RequestIs(p: Path, asked: seq<Reason>, reason: Reason)
    requires p.closing == (asked != []) && p.closeErr == Verdict(asked)
    ensures Request(p, reason).closing && Request(p, reason).closeErr == Verdict(asked + [reason])
  {
    FirstHardSnoc(asked, reason);
  }

  // ---------------------------------------------------------------- the invariant

  /** Nothing is lost, repeated or reordered. */
  ghost predicate PathOk(p: Path) {
    && p.kernel <= p.accepted && (!p.closed ==> p.kernel + p.unsent == p.accepted) && (p.closed ==> p.unsent == [])
  }

  ghost predicate EndOk(s: State) {
    && (s.path.closed <==> s.pc.Over?) && (s.ended.Some? ==> s.path.closed)
    && (s.path.closed && s.ended.None? ==> s.path.kernel + s.handed == s.path.accepted)
    && (s.path.closed && s.ended.Some? && !ClosesNow(s.ended.value) ==> s.path.kernel == s.path.accepted)
    && (s.pc.Closing? && !ClosesNow(s.pc.reason) ==> s.path.closing && s.path.unsent == [])
  }

  /** The reason is the one that had been asked for at some time, or a panic. */
  ghost predicate Asked(asked: seq<Reason>, reason: Reason) {
    reason.Panicked? || exists k :: 0 < k <= |asked| && reason == Verdict(asked[..k])
  }

  ghost predicate ReasonOk(s: State) {
    && s.path.closing == (s.asked != []) && s.path.closeErr == Verdict(s.asked) && Panicked !in s.asked
    && (s.pc.Closing? ==> Asked(s.asked, s.pc.reason)) && (s.ended.Some? ==> Asked(s.asked, s.ended.value))
  }

  predicate Checks(pc: Pc) {
    match pc
    case Round(_, check) => check
    case Flushing(check) => check
    case Failing(_, check) => check
    case Serving(check) => check
    case Closing(_) => true
    case _ => false
  }

  predicate Sends(pc: Pc) {
    match pc
    case Round(write, _) => write
    case Flushing(_) => true
    case Failing(_, _) => true
    case Closing(_) => true
    case _ => false
  }

  /** Somebody will look at a close that is due, and at bytes that wait. */
  ghost predicate Attended(s: State) {
    && (!s.path.closed && Due(s.path) ==> s.closeEv || s.closers > 0 || Checks(s.pc))
    && (!s.path.closed && s.path.unsent != [] ==>
          s.writeEv || s.writers > 0 || s.armed || Sends(s.pc) || (s.path.closing && ClosesNow(s.path.closeErr)))
  }

  ghost predicate Inv(s: State) { PathOk(s.path) && EndOk(s) && ReasonOk(s) && Attended(s) }

  // ---------------------------------------------------------------- every step

  lemma WriteOk(p: Path, b: seq<byte>, direct: Sys)
    requires PathOk(p) && Taken(direct) <= |b|
    ensures var w := Write(p, b, direct); PathOk(w.path) && (p.closing ==> w.path == p)
    ensures var w := Write(p, b, direct); w.path.accepted == if w.ok then p.accepted + b else p.accepted
    ensures var w := Write(p, b, direct);
            w.ok <==> !p.closed && !p.closing && (b == [] || p.unsent != [] || !direct.Failed?)
    ensures var w := Write(p, b, direct); w.notify <==> w.ok && b != [] && w.path.unsent != []
  {
    if b == [] { assert p.accepted + b == p.accepted; }
    if !p.closed && !p.closing && b != [] {
      if p.unsent != [] {
        assert p.kernel + (p.unsent + b) == (p.kernel + p.unsent) + b;
      } else if !direct.Failed? {
        var n := Taken(direct);
        assert p.kernel == p.accepted;
        assert p.kernel + b[..n] + b[n..] == p.kernel + b;
      }
    }
  }

  lemma FlushOk(p: Path, r: Sys)
    requires PathOk(p) && Taken(r) <= |p.unsent| && !p.closed
    ensures PathOk(Flush(p, r)) && p.kernel <= Flush(p, r).kernel && |Flush(p, r).kernel| == |p.kernel| + Taken(r)
  {
    var n := Taken(r);
    assert p.kernel + p.unsent[..n] + p.unsent[n..] == p.kernel + p.unsent;
  }

  lemma WritesKeep(s: State, t: State, b: seq<byte>, direct: Sys)
    requires Inv(s) && Taken(direct) <= |b| && Writes(s, t, b, direct)
    ensures Inv(t)
  {
    WriteOk(s.path, b, direct);
  }

  lemma AskedMore(asked: seq<Reason>, reason: Reason, more: Reason)
    requires Asked(asked, reason)
    ensures Asked(asked + [more], reason)
  {
    if !reason.Panicked? {
      var k :| 0 < k <= |asked| && reason == Verdict(asked[..k]);
      assert (asked + [more])[..k] == asked[..k];
    }
  }

  lemma AsksKeep(s: State, reason: Reason)
    requires Inv(s) && !reason.Panicked?
    ensures Inv(Asks(s, reason))
  {
    RequestIs(s.path, s.asked, reason);
    if s.pc.Closing? { AskedMore(s.asked, s.pc.reason, reason); }
    if s.ended.Some? { AskedMore(s.asked, s.ended.value, reason); }
  }

  lemma OthersKeep(s: State, t: State)
    requires Inv(s) && OthersStep(s, t)
    ensures Inv(t)
  {
    if b, direct :| Taken(direct) <= |b| && Writes(s, t, b, direct) {
      WritesKeep(s, t, b, direct);
    } else if reason: Reason :| !reason.Panicked? && t == Asks(s, reason) {
      AsksKeep(s, reason);
    }
  }

  lemma FlushesKeep(s: State, t: State, check: bool, r: Sys)
    requires Inv(s) && s.pc == Flushing(check) && Taken(r) <= |s.path.unsent| && Flushes(s, t, check, r)
    ensures Inv(t)
  {
    FlushOk(s.path, r);
  }

  lemma ServingKeeps(s: State, t: State)
    requires Inv(s) && s.pc.Serving? && TaskStep(s, t)
    ensures Inv(t)
  {
    if t.pc.Closing? && !t.pc.reason.Panicked? { assert s.asked[..|s.asked|] == s.asked; }
  }

  lemma EndKeeps(s: State, t: State)
    requires Inv(s) && (s.pc.Closing? || s.pc.Detaching?) && TaskStep(s, t)
    ensures Inv(t)
  {
  }

  lemma TaskKeeps(s: State, t: State)
    requires Inv(s) && TaskStep(s, t)
    ensures Inv(t)
  {
    match s.pc
    case Flushing(check) =>
      var r :| Taken(r) <= |s.path.unsent| && Flushes(s, t, check, r);
      FlushesKeep(s, t, check, r);
    case Failing(code, check) => AsksKeep(s, Hard(code));
    case Serving(check) => ServingKeeps(s, t);
    case Closing(_) => EndKeeps(s, t);
    case Detaching => EndKeeps(s, t);
    case _ =>
  }

  lemma PrefixRuns(run: seq<State>, n: nat)
    requires Execution(run) && 0 < n <= |run|
    ensures Execution(run[..n])
  {
    var p := run[..n];
    forall i | 0 <= i < |p| - 1 ensures StepsAt(p, i) { assert StepsAt(run, i); }
  }

  lemma {:induction false} Reachable(run: seq<State>)
    requires Execution(run)
    ensures Inv(run[|run| - 1])
  {
    if |run| > 1 {
      var n := |run| - 1;
      PrefixRuns(run, n);
      Reachable(run[..n]);
      assert StepsAt(run, n - 1);
      if OthersStep(run[n - 1], run[n]) { OthersKeep(run[n - 1], run[n]); } else { TaskKeeps(run[n - 1], run[n]); }
    }
  }

  // ---------------------------------------------------------------- the results

  /**
   In every run the kernel has taken the accepted bytes in order and without a gap. A connection that ended with a local
   close or the peer's EOF has sent them all, whoever wrote or asked between the task's decision and its close; one that
   was detached has sent or handed over all of them.
   */
  lemma SoftCloseSendsAll(run: seq<State>)
    requires Execution(run)
    ensures var s := run[|run| - 1];
            && s.path.kernel <= s.path.accepted
            && (!s.path.closed ==> s.path.kernel + s.path.unsent == s.path.accepted)
            && (s.ended.Some? && !ClosesNow(s.ended.value) ==> s.path.kernel == s.path.accepted)
            && (s.path.closed && s.ended.None? ==> s.path.kernel + s.handed == s.path.accepted)
  {
    Reachable(run);
  }

  /**
   In every run the close reason is the first hard error that anybody asked for, or else the first request; OnClose gets
   what it was when the task decided to close, unless a callback panicked.
   */
  lemma ReasonAsAsked(run: seq<State>)
    requires Execution(run)
    ensures var s := run[|run| - 1];
            && s.path.closing == (s.asked != []) && s.path.closeErr == Verdict(s.asked)
            && (s.ended.Some? ==> Asked(s.asked, s.ended.value))
  {
    Reachable(run);
  }

  /** Nothing is left to do for anybody, and the kernel will report nothing. */
  ghost predicate Quiet(s: State) {
    (s.pc.Idle? || s.pc.Over?) && !s.writeEv && !s.closeEv && s.writers == 0 && s.closers == 0 && !s.armed
  }

  /**
   No close is forgotten and no byte is left behind: in a run that has come to rest, a connection that anybody asked to
   close is closed, and one that nobody did has sent everything.
   */
  lemma NothingForgotten(run: seq<State>)
    requires Execution(run) && Quiet(run[|run| - 1])
    ensures var s := run[|run| - 1]; !s.path.closed ==> s.asked == [] && s.path.kernel == s.path.accepted
  {
    Reachable(run);
    var s := run[|run| - 1];
    if !s.path.closed { assert s.path.unsent == []; }
  }

  /** Requests join the list at its end, a write after the first request is refused, and OnClose is called once. */
  ghost predicate Grows(s: State, t: State) {
    && s.asked <= t.asked && (s.path.closing ==> t.path.closing && t.path.accepted == s.path.accepted)
    && (s.ended.Some? ==> t.ended == s.ended)
  }

  lemma OthersGrow(s: State, t: State)
    requires PathOk(s.path) && OthersStep(s, t)
    ensures Grows(s, t)
  {
    if b, direct :| Taken(direct) <= |b| && Writes(s, t, b, direct) { WriteOk(s.path, b, direct); }
  }

  lemma TaskGrows(s: State, t: State)
    requires EndOk(s) && TaskStep(s, t)
    ensures Grows(s, t)
  {
  }

  lemma {:induction false} FirstHardGrows(asked: seq<Reason>, more: seq<Reason>)
    requires asked <= more && FirstHard(asked).Some?
    ensures FirstHard(more) == FirstHard(asked) && ClosesNow(FirstHard(asked).value)
  {
    if !ClosesNow(asked[0]) { FirstHardGrows(asked[1..], more[1..]); }
  }

  lemma {:induction false} RunGrows(run: seq<State>, i: nat, k: nat)
    requires Execution(run) && i <= k < |run|
    ensures Grows(run[i], run[k])
    decreases k
  {
    if i < k {
      RunGrows(run, i, k - 1);
      InvAt(run, k - 1);
      assert StepsAt(run, k - 1);
      var s, t := run[k - 1], run[k];
      if OthersStep(s, t) { OthersGrow(s, t); } else { TaskGrows(s, t); }
      GrowsTrans(run[i], s, t);
    }
  }

  lemma GrowsTrans(r: State, s: State, t: State)
    requires Grows(r, s) && Grows(s, t)
    ensures Grows(r, t)
  {
  }

  /**
   Between any two states of a run: nothing is accepted once a close was asked for, OnClose is called once, a hard
   reason is never replaced, and a soft one only by a hard error that was asked for.
   */
  lemma ReasonSettles(run: seq<State>, i: nat, k: nat)
    requires Execution(run) && i <= k < |run|
    ensures Grows(run[i], run[k])
    ensures run[i].path.closing ==>
              var r, r1 := run[i].path.closeErr, run[k].path.closeErr;
              r1 == r || (!ClosesNow(r) && r1.Hard? && r1 in run[k].asked)
  {
    RunGrows(run, i, k);
    InvAt(run, i);
    InvAt(run, k);
    if run[i].path.closing { VerdictGrows(run[i].asked, run[k].asked); }
  }

  lemma InvAt(run: seq<State>, k: nat)
    requires Execution(run) && k < |run|
    ensures Inv(run[k])
  {
    PrefixRuns(run, k + 1);
    Reachable(run[..k + 1]);
  }

  lemma {:induction false} FirstHardIn(asked: seq<Reason>)
    requires FirstHard(asked).Some?
    ensures FirstHard(asked).value in asked && ClosesNow(FirstHard(asked).value)
  {
    if !ClosesNow(asked[0]) { FirstHardIn(asked[1..]); }
  }

  lemma VerdictGrows(asked: seq<Reason>, more: seq<Reason>)
    requires asked <= more && asked != []
    ensures var r, r1 := Verdict(asked), Verdict(more); r1 == r || (!ClosesNow(r) && ClosesNow(r1) && r1 in more)
  {
    if FirstHard(asked).Some? {
      FirstHardGrows(asked, more);
    } else if FirstHard(more).Some? {
      FirstHardIn(more);
    }
  }
}
