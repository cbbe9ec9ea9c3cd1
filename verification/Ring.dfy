/**
 The lock-free queue of a shard (taskpool/taskpool.go): a ring of cells, each with a sequence number, used by any number
 of threads whose atomic operations interleave. Positions are unbounded here.
 */
module Ring {
  import opened Wrappers
  import PoolModel

  /** What a queue holds: the function values of the program, known by a name. */
  datatype Task = Task(name: int)

  datatype Slot = Slot(sequence: nat, task: Option<Task>)

  /** Where a thread is in push, pop or hasTask. */
  datatype Pc =
    | Idle
    | PushLoad(task: Task)
    | PushLook(task: Task, pos: nat)
    | PushCas(task: Task, pos: nat)
    | PushWrite(task: Task, pos: nat)
    | PushPublish(task: Task, pos: nat)
    | PopLoad
    | PopLook(pos: nat)
    | PopCas(pos: nat)
    | PopRead(pos: nat)
    | PopClear(pos: nat, taken: Option<Task>)
    | PopRelease(pos: nat, taken: Option<Task>)
    | HasLoad
    | HasLook(pos: nat)

  /**
   `pushed` records the task of every claimed position, in the order of the claims, and `popped` what the pop of each
   position returned.
   */
  datatype Queue = Queue(size: nat, head: nat, tail: nat, slots: seq<Slot>, threads: seq<Pc>,
                         pushed: seq<Task>, popped: map<nat, Option<Task>>)

  /** New makes every cell ready for the first lap; the capacity is at least 2. */
  ghost predicate Initial(r: Queue) {
    && r.size >= 2 && r.head == r.tail == 0 && |r.slots| == r.size && r.threads == [] && r.pushed == []
        && r.popped == map[]
    && (forall j :: 0 <= j < r.size ==> r.slots[j] == Slot(j, None))
  }

  /** The cell of a position: pos & mask, the remainder of the position by the size of the ring. */
  function Cell(pos: nat, size: nat): (j: nat)
    requires size > 0
    ensures j < size
  {
    if pos < size then pos else Cell(pos - size, size)
  }

  function At(r: Queue, pos: nat): Slot
    requires |r.slots| == r.size > 0
  {
    r.slots[Cell(pos, r.size)]
  }

  function Go(r: Queue, i: nat, pc: Pc): Queue
    requires i < |r.threads|
  {
    r.(threads := r.threads[i := pc])
  }

  function Put(r: Queue, pos: nat, slot: Slot): Queue
    requires |r.slots| == r.size > 0
  {
    r.(slots := r.slots[Cell(pos, r.size) := slot])
  }

  ghost predicate PushStep(r: Queue, q: Queue, i: nat)
    requires i < |r.threads| && |r.slots| == r.size > 0
  {
    match r.threads[i]
    case PushLoad(t) => q == Go(r, i, PushLook(t, r.tail))
    case PushLook(t, pos) =>
      var sequence := At(r, pos).sequence;
      if sequence == pos then q == Go(r, i, PushCas(t, pos))
      else if sequence < pos then q == Go(r, i, Idle)
      else q == Go(r, i, PushLoad(t))
    case PushCas(t, pos) =>
      if r.tail == pos then q == Go(r, i, PushWrite(t, pos)).(tail := pos + 1, pushed := r.pushed + [t])
      else q == Go(r, i, PushLoad(t))
    case PushWrite(t, pos) => q == Go(Put(r, pos, At(r, pos).(task := Some(t))), i, PushPublish(t, pos))
    case PushPublish(t, pos) => q == Go(Put(r, pos, At(r, pos).(sequence := pos + 1)), i, Idle)
    case _ => false
  }

  ghost predicate PopStep(r: Queue, q: Queue, i: nat)
    requires i < |r.threads| && |r.slots| == r.size > 0
  {
    match r.threads[i]
    case PopLoad => q == Go(r, i, PopLook(r.head))
    case PopLook(pos) =>
      var sequence := At(r, pos).sequence;
      if sequence == pos + 1 then q == Go(r, i, PopCas(pos))
      else if sequence < pos + 1 then q == Go(r, i, Idle)
      else q == Go(r, i, PopLoad)
    case PopCas(pos) =>
      if r.head == pos then q == Go(r, i, PopRead(pos)).(head := pos + 1) else q == Go(r, i, PopLoad)
    case PopRead(pos) => q == Go(r, i, PopClear(pos, At(r, pos).task))
    case PopClear(pos, taken) => q == Go(Put(r, pos, At(r, pos).(task := None)), i, PopRelease(pos, taken))
    case PopRelease(pos, taken) =>
      q == Go(Put(r, pos, At(r, pos).(sequence := pos + r.size)), i, Idle).(popped := r.popped[pos := taken])
    case HasLoad => q == Go(r, i, HasLook(r.head))
    case HasLook(_) => q == Go(r, i, Idle)
    case _ => false
  }

  /** An idle thread begins a call, or another thread appears. */
  ghost predicate CallStep(r: Queue, q: Queue, i: nat) {
    || q == r.(threads := r.threads + [Idle])
    || (i < |r.threads| && r.threads[i] == Idle
        && (q == Go(r, i, PopLoad) || q == Go(r, i, HasLoad) || exists t: Task :: q == Go(r, i, PushLoad(t))))
  }

  ghost predicate Step(r: Queue, q: Queue) {
    && |r.slots| == r.size > 0
    && exists i: nat :: CallStep(r, q, i) || (i < |r.threads| && (PushStep(r, q, i) || PopStep(r, q, i)))
  }

  ghost predicate Execution(run: seq<Queue>) {
    |run| > 0 && Initial(run[0]) && forall i :: 0 <= i < |run| - 1 ==> Step(run[i], run[i + 1])
  }

  // ---------------------------------------------------------------- arithmetic of cells

  lemma NextLap(pos: nat, size: nat)
    requires size > 0
    ensures Cell(pos + size, size) == Cell(pos, size)
  {
  }

  /** Positions less than a lap apart have different cells. */
  lemma {:induction false} Apart(x: nat, y: nat, size: nat)
    requires x < y < x + size
    ensures Cell(x, size) != Cell(y, size)
    decreases x
  {
    if x >= size { Apart(x - size, y - size, size); }
  }

  // ---------------------------------------------------------------- the invariant

  ghost predicate Base(r: Queue) {
    r.size >= 2 && |r.slots| == r.size && |r.pushed| == r.tail && r.head <= r.tail <= r.head + r.size
  }

  /**
   The cell that position `next` of the coming lap will use: it is free for that position, or the position of the lap
   before is still being written, waits to be taken, or is being taken.
   */
  ghost predicate CellOk(r: Queue, next: nat)
    requires Base(r) && r.tail <= next < r.tail + r.size
  {
    var cell := At(r, next);
    || (cell == Slot(next, None) && next < r.head + r.size)
    || (next >= r.head + r.size && cell.sequence == next - r.size)
    || (next >= r.head + r.size && cell == Slot(next - r.size + 1, Some(r.pushed[next - r.size])))
    || (r.size <= next < r.head + r.size && cell.sequence == next - r.size + 1 && next - r.size !in r.popped)
  }

  ghost predicate ThreadOk(r: Queue, pc: Pc)
    requires Base(r)
  {
    match pc
    case PushLook(_, pos) => pos <= r.tail
    case PushCas(_, pos) => pos <= r.tail && (pos == r.tail ==> At(r, pos).sequence == pos)
    case PushWrite(t, pos) => r.head <= pos < r.tail && At(r, pos) == Slot(pos, None) && r.pushed[pos] == t
    case PushPublish(t, pos) => r.head <= pos < r.tail && At(r, pos) == Slot(pos, Some(t)) && r.pushed[pos] == t
    case PopLook(pos) => pos <= r.head
    case PopCas(pos) => pos <= r.head && (pos == r.head ==> pos < r.tail && At(r, pos).sequence == pos + 1)
    case PopRead(pos) => Held(r, pos) && At(r, pos) == Slot(pos + 1, Some(r.pushed[pos]))
    case PopClear(pos, taken) => Held(r, pos) && At(r, pos).sequence == pos + 1 && taken == Some(r.pushed[pos])
    case PopRelease(pos, taken) => Held(r, pos) && At(r, pos) == Slot(pos + 1, None) && taken == Some(r.pushed[pos])
    case HasLook(pos) => pos <= r.head
    case _ => true
  }

  /** A position taken but not released: its cell has not come round again. */
  ghost predicate Held(r: Queue, pos: nat) { pos < r.head && r.tail <= pos + r.size }

  ghost predicate CellsOk(r: Queue)
    requires Base(r)
  {
    forall next :: r.tail <= next < r.tail + r.size ==> CellOk(r, next)
  }

  ghost predicate ThreadsOk(r: Queue)
    requires Base(r)
  {
    forall i :: 0 <= i < |r.threads| ==> ThreadOk(r, r.threads[i])
  }

  /** No two threads own the same position. */
  ghost predicate Owned(r: Queue) {
    forall i, j ::
      0 <= i < |r.threads| && 0 <= j < |r.threads| && i != j && Owns(r.threads[i]) && Owns(r.threads[j]) ==>
      r.threads[i].pos != r.threads[j].pos
  }

  predicate Owns(pc: Pc) { Pushes(pc) || Pops(pc) }

  predicate Pushes(pc: Pc) { pc.PushWrite? || pc.PushPublish? }

  predicate Pops(pc: Pc) { pc.PopRead? || pc.PopClear? || pc.PopRelease? }

  /** A position below head is being taken by one thread, or its task has been returned: never both. */
  ghost predicate Returned(r: Queue)
    requires Base(r)
  {
    && (forall pos :: pos in r.popped ==> pos < r.head && r.popped[pos] == Some(r.pushed[pos]))
    && (forall i :: 0 <= i < |r.threads| && Pops(r.threads[i]) ==> r.threads[i].pos !in r.popped)
    && (forall pos :: 0 <= pos < r.head && pos !in r.popped ==> Taking(r.threads, pos))
  }

  ghost predicate Taking(threads: seq<Pc>, pos: nat) {
    exists i :: 0 <= i < |threads| && Pops(threads[i]) && threads[i].pos == pos
  }

  ghost predicate Inv(r: Queue) { Base(r) && CellsOk(r) && ThreadsOk(r) && Owned(r) && Returned(r) }

  // ---------------------------------------------------------------- a thread moves

  /** The thread owns after the step what it owned before. */
  predicate SameHold(x: Pc, y: Pc) {
    Pushes(x) == Pushes(y) && Pops(x) == Pops(y) && (Owns(x) ==> x.pos == y.pos)
  }

  lemma MoveKeeps(r: Queue, i: nat, pc: Pc)
    requires Inv(r) && i < |r.threads| && ThreadOk(r, pc) && SameHold(r.threads[i], pc)
    ensures Inv(Go(r, i, pc))
  {
    var q := Go(r, i, pc);
    forall next | q.tail <= next < q.tail + q.size ensures CellOk(q, next) { assert CellOk(r, next); }
    forall j | 0 <= j < |q.threads| ensures ThreadOk(q, q.threads[j]) { ThreadSame(r, q, q.threads[j]); }
    HoldKeeps(r, q, i);
  }

  /** A thread relies on the words of the queue only. */
  lemma ThreadSame(r: Queue, q: Queue, pc: Pc)
    requires Base(r) && Base(q) && q == r.(threads := q.threads) && ThreadOk(r, pc)
    ensures ThreadOk(q, pc)
  {
  }

  lemma HoldKeeps(r: Queue, q: Queue, i: nat)
    requires Base(r) && Base(q) && Owned(r) && Returned(r) && i < |r.threads| == |q.threads|
    requires q.threads == r.threads[i := q.threads[i]] && SameHold(r.threads[i], q.threads[i])
    requires q.head == r.head && q.popped == r.popped && |r.pushed| <= |q.pushed|
    requires forall k :: 0 <= k < |r.pushed| ==> q.pushed[k] == r.pushed[k]
    ensures Owned(q) && Returned(q)
  {
    forall pos | 0 <= pos < q.head && pos !in q.popped ensures Taking(q.threads, pos) {
      var j :| 0 <= j < |r.threads| && Pops(r.threads[j]) && r.threads[j].pos == pos;
      assert Pops(q.threads[j]) && q.threads[j].pos == pos;
    }
  }

  // ---------------------------------------------------------------- an owner changes its cell

  lemma OtherCell(r: Queue, pos: nat, other: nat, slot: Slot)
    requires |r.slots| == r.size > 0 && pos != other && pos < other + r.size && other < pos + r.size
    ensures At(Put(r, pos, slot), other) == At(r, other)
  {
    if pos < other { Apart(pos, other, r.size); } else { Apart(other, pos, r.size); }
  }

  /** The position of the lap before uses the same cell. */
  lemma SameCell(r: Queue, pos: nat)
    requires |r.slots| == r.size > 0
    ensures At(r, pos + r.size) == At(r, pos)
  {
    NextLap(pos, r.size);
  }

  /** A position in the last lap that a thread owns. */
  ghost predicate Busy(r: Queue, pos: nat)
    requires Base(r)
  {
    pos < r.tail <= pos + r.size && (At(r, pos).sequence == pos || At(r, pos).sequence == pos + 1)
    && (At(r, pos).sequence == pos + 1 ==> pos < r.head)
  }

  lemma OwnerBusy(r: Queue, pc: Pc)
    requires Base(r) && ThreadOk(r, pc) && Owns(pc)
    ensures Busy(r, pc.pos)
  {
  }

  lemma OtherThread(r: Queue, pos: nat, slot: Slot, pc: Pc)
    requires Base(r) && Busy(r, pos) && ThreadOk(r, pc) && (Owns(pc) ==> pc.pos != pos)
    ensures ThreadOk(Put(r, pos, slot), pc)
  {
    if Owns(pc) {
      OtherCell(r, pos, pc.pos, slot);
    } else if pc.PushCas? && pc.pos == r.tail {
      if pos + r.size == r.tail { SameCell(r, pos); }
      OtherCell(r, pos, r.tail, slot);
    } else if pc.PopCas? && pc.pos == r.head {
      OtherCell(r, pos, r.head, slot);
    }
  }

  lemma OtherCells(r: Queue, pos: nat, slot: Slot)
    requires Base(r) && CellsOk(r) && pos < r.tail <= pos + r.size
    requires CellOk(Put(r, pos, slot), pos + r.size)
    ensures CellsOk(Put(r, pos, slot))
  {
    var q := Put(r, pos, slot);
    forall next | q.tail <= next < q.tail + q.size ensures CellOk(q, next) {
      if next != pos + r.size {
        NextLap(pos, r.size);
        OtherCell(r, pos + r.size, next, slot);
        assert CellOk(r, next);
      }
    }
  }

  /** An owner changes its cell and moves on. */
  lemma PutKeeps(r: Queue, i: nat, slot: Slot, pc: Pc)
    requires Inv(r) && i < |r.threads| && Owns(r.threads[i])
    requires var q := Put(r, r.threads[i].pos, slot);
             ThreadOk(q, pc) && CellOk(q, r.threads[i].pos + r.size) && SameHold(r.threads[i], pc)
    ensures Inv(Go(Put(r, r.threads[i].pos, slot), i, pc))
  {
    var pos := r.threads[i].pos;
    var mid := Put(r, pos, slot);
    var q := Go(mid, i, pc);
    OwnerBusy(r, r.threads[i]);
    OtherCells(r, pos, slot);
    forall next | q.tail <= next < q.tail + q.size ensures CellOk(q, next) { assert CellOk(mid, next); }
    forall j | 0 <= j < |q.threads| ensures ThreadOk(q, q.threads[j]) {
      if j != i { OtherThread(r, pos, slot, r.threads[j]); }
      ThreadSame(mid, q, q.threads[j]);
    }
    HoldKeeps(r, q, i);
  }

  lemma FreeReturned(r: Queue, q: Queue, i: nat)
    requires Base(r) && Base(q) && Owned(r) && Returned(r) && i < |r.threads| && Pushes(r.threads[i])
    requires q.head == r.head && q.popped == r.popped && q.pushed == r.pushed && q.threads == r.threads[i := Idle]
    ensures Owned(q) && Returned(q)
  {
    forall p | 0 <= p < q.head && p !in q.popped ensures Taking(q.threads, p) {
      var j :| 0 <= j < |r.threads| && Pops(r.threads[j]) && r.threads[j].pos == p;
      assert Pops(q.threads[j]) && q.threads[j].pos == p;
    }
  }

  lemma CellsSame(r: Queue, q: Queue)
    requires Base(r) && Base(q) && CellsOk(r) && q == r.(threads := q.threads)
    ensures CellsOk(q)
  {
    forall next | q.tail <= next < q.tail + q.size ensures CellOk(q, next) { assert CellOk(r, next); }
  }

  /** A submitter gives its cell up. */
  lemma FreeKeeps(r: Queue, i: nat, slot: Slot)
    requires Inv(r) && i < |r.threads| && Pushes(r.threads[i])
    requires CellOk(Put(r, r.threads[i].pos, slot), r.threads[i].pos + r.size)
    ensures Inv(Go(Put(r, r.threads[i].pos, slot), i, Idle))
  {
    var pos := r.threads[i].pos;
    var mid := Put(r, pos, slot);
    var q := Go(mid, i, Idle);
    OwnerBusy(r, r.threads[i]);
    OtherCells(r, pos, slot);
    CellsSame(mid, q);
    forall j | 0 <= j < |q.threads| ensures ThreadOk(q, q.threads[j]) {
      if j != i { OtherThread(r, pos, slot, r.threads[j]); ThreadSame(mid, q, q.threads[j]); }
    }
    FreeReturned(r, q, i);
  }

  /** The ring after the thread that took a task has released the cell and returned the task. */
  function Release(r: Queue, i: nat): Queue
    requires i < |r.threads| && r.threads[i].PopRelease? && |r.slots| == r.size > 0
  {
    var PopRelease(pos, taken) := r.threads[i];
    Go(Put(r, pos, At(r, pos).(sequence := pos + r.size)), i, Idle).(popped := r.popped[pos := taken])
  }

  lemma ReleaseCells(r: Queue, i: nat)
    requires Base(r) && CellsOk(r) && i < |r.threads| && r.threads[i].PopRelease? && ThreadOk(r, r.threads[i])
    ensures Base(Release(r, i)) && CellsOk(Release(r, i))
  {
    var pos := r.threads[i].pos;
    var slot := At(r, pos).(sequence := pos + r.size);
    var mid, q := Put(r, pos, slot), Release(r, i);
    SameCell(mid, pos);
    OtherCells(r, pos, slot);
    forall next | q.tail <= next < q.tail + q.size ensures CellOk(q, next) {
      assert CellOk(mid, next);
      if next == pos + r.size { SameCell(q, pos); }
    }
  }

  lemma ReleaseKeeps(r: Queue, i: nat)
    requires Inv(r) && i < |r.threads| && r.threads[i].PopRelease?
    ensures Inv(Release(r, i))
  {
    var PopRelease(pos, taken) := r.threads[i];
    var slot := At(r, pos).(sequence := pos + r.size);
    var q := Release(r, i);
    assert ThreadOk(r, r.threads[i]);
    OwnerBusy(r, r.threads[i]);
    ReleaseCells(r, i);
    forall j | 0 <= j < |q.threads| ensures ThreadOk(q, q.threads[j]) {
      if j != i { OtherThread(r, pos, slot, r.threads[j]); ReturnSame(Put(r, pos, slot), q, q.threads[j]); }
    }
    ReleaseReturns(r, q, i, pos, taken);
  }

  lemma ReturnSame(r: Queue, q: Queue, pc: Pc)
    requires Base(r) && Base(q) && q == r.(threads := q.threads, popped := q.popped) && ThreadOk(r, pc)
    ensures ThreadOk(q, pc)
  {
  }

  lemma ReleaseReturns(r: Queue, q: Queue, i: nat, pos: nat, taken: Option<Task>)
    requires Base(r) && Base(q) && Owned(r) && Returned(r) && i < |r.threads| && r.threads[i] == PopRelease(pos, taken)
    requires pos < r.head && taken == Some(r.pushed[pos])
    requires q.head == r.head && q.pushed == r.pushed && q.threads == r.threads[i := Idle]
    requires q.popped == r.popped[pos := taken]
    ensures Owned(q) && Returned(q)
  {
    forall p | 0 <= p < q.head && p !in q.popped ensures Taking(q.threads, p) {
      var j :| 0 <= j < |r.threads| && Pops(r.threads[j]) && r.threads[j].pos == p;
      assert Pops(q.threads[j]) && q.threads[j].pos == p;
    }
  }

  // ---------------------------------------------------------------- a claim

  function Claim(r: Queue, i: nat): Queue
    requires i < |r.threads| && r.threads[i].PushCas?
  {
    Go(r, i, PushWrite(r.threads[i].task, r.tail)).(tail := r.tail + 1, pushed := r.pushed + [r.threads[i].task])
  }

  /** The cell claimed is free, so the ring has room for the position. */
  lemma ClaimFree(r: Queue, i: nat)
    requires Inv(r) && i < |r.threads| && r.threads[i].PushCas? && r.threads[i].pos == r.tail
    ensures At(r, r.tail) == Slot(r.tail, None) && r.tail < r.head + r.size && Base(Claim(r, i))
  {
    assert ThreadOk(r, r.threads[i]);
    assert CellOk(r, r.tail);
  }

  lemma ClaimCells(r: Queue, i: nat)
    requires Inv(r) && i < |r.threads| && r.threads[i].PushCas? && r.threads[i].pos == r.tail
    requires Base(Claim(r, i)) && At(r, r.tail) == Slot(r.tail, None)
    ensures CellsOk(Claim(r, i))
  {
    var q := Claim(r, i);
    forall next | q.tail <= next < q.tail + q.size ensures CellOk(q, next) {
      if next == r.tail + r.size { SameCell(q, r.tail); } else { assert CellOk(r, next); }
    }
  }

  lemma ClaimThread(r: Queue, i: nat, pc: Pc)
    requires Base(r) && i < |r.threads| && r.threads[i].PushCas? && Base(Claim(r, i)) && ThreadOk(r, pc)
    requires At(r, r.tail) == Slot(r.tail, None)
    ensures ThreadOk(Claim(r, i), pc)
  {
    if Pops(pc) && r.tail == pc.pos + r.size { SameCell(r, pc.pos); }
  }

  lemma ClaimKeeps(r: Queue, i: nat)
    requires Inv(r) && i < |r.threads| && r.threads[i].PushCas? && r.threads[i].pos == r.tail
    ensures Inv(Claim(r, i))
  {
    var q := Claim(r, i);
    ClaimFree(r, i);
    ClaimCells(r, i);
    forall j | 0 <= j < |q.threads| ensures ThreadOk(q, q.threads[j]) {
      if j != i { ClaimThread(r, i, r.threads[j]); }
    }
    ClaimOwned(r, i);
  }

  lemma ClaimOwned(r: Queue, i: nat)
    requires Inv(r) && i < |r.threads| && r.threads[i].PushCas? && Base(Claim(r, i))
    ensures Owned(Claim(r, i)) && Returned(Claim(r, i))
  {
    var q := Claim(r, i);
    forall j | 0 <= j < |r.threads| && Owns(r.threads[j]) ensures r.threads[j].pos < r.tail {
      assert ThreadOk(r, r.threads[j]);
    }
    forall p | 0 <= p < q.head && p !in q.popped ensures Taking(q.threads, p) {
      var j :| 0 <= j < |r.threads| && Pops(r.threads[j]) && r.threads[j].pos == p;
      assert Pops(q.threads[j]) && q.threads[j].pos == p;
    }
  }

  // ---------------------------------------------------------------- a take

  function Take(r: Queue, i: nat): Queue
    requires i < |r.threads|
  {
    Go(r, i, PopRead(r.head)).(head := r.head + 1)
  }

  /** The position at head is published, and its cell holds the task pushed there. */
  lemma TakePublished(r: Queue, i: nat)
    requires Inv(r) && i < |r.threads| && r.threads[i] == PopCas(r.head)
    ensures r.head < r.tail && At(r, r.head) == Slot(r.head + 1, Some(r.pushed[r.head])) && Base(Take(r, i))
  {
    assert ThreadOk(r, r.threads[i]);
    SameCell(r, r.head);
    assert CellOk(r, r.head + r.size);
  }

  lemma TakeCells(r: Queue, i: nat)
    requires Inv(r) && i < |r.threads| && Base(Take(r, i)) && r.head < r.tail
    requires At(r, r.head).sequence == r.head + 1
    ensures CellsOk(Take(r, i))
  {
    var q := Take(r, i);
    forall next | q.tail <= next < q.tail + q.size ensures CellOk(q, next) {
      assert CellOk(r, next);
      if next == r.head + r.size { SameCell(r, r.head); }
    }
  }

  lemma TakeThread(r: Queue, i: nat, pc: Pc)
    requires Base(r) && i < |r.threads| && Base(Take(r, i)) && ThreadOk(r, pc) && At(r, r.head).sequence == r.head + 1
    ensures ThreadOk(Take(r, i), pc)
  {
  }

  lemma TakeKeeps(r: Queue, i: nat)
    requires Inv(r) && i < |r.threads| && r.threads[i] == PopCas(r.head)
    ensures Inv(Take(r, i))
  {
    var q := Take(r, i);
    TakePublished(r, i);
    TakeCells(r, i);
    forall j | 0 <= j < |q.threads| ensures ThreadOk(q, q.threads[j]) {
      if j != i { TakeThread(r, i, r.threads[j]); }
    }
    TakeOwned(r, i);
  }

  lemma TakeOwned(r: Queue, i: nat)
    requires Inv(r) && i < |r.threads| && r.threads[i].PopCas? && Base(Take(r, i))
             && At(r, r.head).sequence == r.head + 1
    ensures Owned(Take(r, i)) && Returned(Take(r, i))
  {
    var q := Take(r, i);
    forall j | 0 <= j < |r.threads| && Owns(r.threads[j]) ensures r.threads[j].pos != r.head {
      assert ThreadOk(r, r.threads[j]);
    }
    assert Taking(q.threads, r.head) by { assert Pops(q.threads[i]) && q.threads[i].pos == r.head; }
    forall p | 0 <= p < r.head && p !in q.popped ensures Taking(q.threads, p) {
      var j :| 0 <= j < |r.threads| && Pops(r.threads[j]) && r.threads[j].pos == p;
      assert Pops(q.threads[j]) && q.threads[j].pos == p;
    }
  }

  // ---------------------------------------------------------------- every step

  lemma PushKeeps(r: Queue, q: Queue, i: nat)
    requires Inv(r) && i < |r.threads| && PushStep(r, q, i)
    ensures Inv(q)
  {
    assert ThreadOk(r, r.threads[i]);
    match r.threads[i]
    case PushLoad(t) => MoveKeeps(r, i, PushLook(t, r.tail));
    case PushLook(t, pos) =>
      var sequence := At(r, pos).sequence;
      MoveKeeps(r, i, if sequence == pos then PushCas(t, pos) else if sequence < pos then Idle else PushLoad(t));
    case PushCas(t, pos) => if r.tail == pos { ClaimKeeps(r, i); } else { MoveKeeps(r, i, PushLoad(t)); }
    case PushWrite(t, pos) =>
      SameCell(Put(r, pos, Slot(pos, Some(t))), pos);
      PutKeeps(r, i, Slot(pos, Some(t)), PushPublish(t, pos));
    case PushPublish(t, pos) =>
      SameCell(Put(r, pos, Slot(pos + 1, Some(t))), pos);
      FreeKeeps(r, i, Slot(pos + 1, Some(t)));
  }

  lemma TakenKeeps(r: Queue, q: Queue, i: nat)
    requires Inv(r) && i < |r.threads| && PopStep(r, q, i) && Pops(r.threads[i])
    ensures Inv(q)
  {
    assert ThreadOk(r, r.threads[i]);
    match r.threads[i]
    case PopRead(pos) => MoveKeeps(r, i, PopClear(pos, At(r, pos).task));
    case PopClear(pos, taken) =>
      SameCell(Put(r, pos, Slot(pos + 1, None)), pos);
      PutKeeps(r, i, Slot(pos + 1, None), PopRelease(pos, taken));
    case PopRelease(_, _) => ReleaseKeeps(r, i);
  }

  lemma PopKeeps(r: Queue, q: Queue, i: nat)
    requires Inv(r) && i < |r.threads| && PopStep(r, q, i) && !Pops(r.threads[i])
    ensures Inv(q)
  {
    assert ThreadOk(r, r.threads[i]);
    match r.threads[i]
    case PopLoad => MoveKeeps(r, i, PopLook(r.head));
    case PopLook(pos) => LookKeeps(r, q, i);
    case PopCas(pos) => if r.head == pos { TakeKeeps(r, i); } else { MoveKeeps(r, i, PopLoad); }
    case HasLoad => MoveKeeps(r, i, HasLook(r.head));
    case HasLook(_) => MoveKeeps(r, i, Idle);
  }

  /** Nothing at or after tail looks published. */
  lemma UnclaimedLook(r: Queue, pos: nat)
    requires Inv(r) && pos == r.tail
    ensures At(r, pos).sequence <= pos
  {
    assert CellOk(r, pos);
  }

  lemma LookKeeps(r: Queue, q: Queue, i: nat)
    requires Inv(r) && i < |r.threads| && PopStep(r, q, i) && r.threads[i].PopLook?
    ensures Inv(q)
  {
    var pos := r.threads[i].pos;
    assert ThreadOk(r, r.threads[i]);
    if pos == r.tail { UnclaimedLook(r, pos); }
    var sequence := At(r, pos).sequence;
    MoveKeeps(r, i, if sequence == pos + 1 then PopCas(pos) else if sequence < pos + 1 then Idle else PopLoad);
  }

  lemma JoinKeeps(r: Queue)
    requires Inv(r)
    ensures Inv(r.(threads := r.threads + [Idle]))
  {
    var q := r.(threads := r.threads + [Idle]);
    forall next | q.tail <= next < q.tail + q.size ensures CellOk(q, next) { assert CellOk(r, next); }
    forall j | 0 <= j < |q.threads| ensures ThreadOk(q, q.threads[j]) {
      if j < |r.threads| { ThreadSame(r, q, r.threads[j]); }
    }
    JoinReturned(r, q);
  }

  lemma JoinReturned(r: Queue, q: Queue)
    requires Base(r) && Base(q) && Owned(r) && Returned(r) && q == r.(threads := r.threads + [Idle])
    ensures Owned(q) && Returned(q)
  {
    forall p | 0 <= p < q.head && p !in q.popped ensures Taking(q.threads, p) {
      var j :| 0 <= j < |r.threads| && Pops(r.threads[j]) && r.threads[j].pos == p;
      assert Pops(q.threads[j]) && q.threads[j].pos == p;
    }
  }

  lemma CallKeeps(r: Queue, q: Queue, i: nat)
    requires Inv(r) && CallStep(r, q, i)
    ensures Inv(q)
  {
    if q == r.(threads := r.threads + [Idle]) {
      JoinKeeps(r);
    } else if q == Go(r, i, PopLoad) {
      MoveKeeps(r, i, PopLoad);
    } else if q == Go(r, i, HasLoad) {
      MoveKeeps(r, i, HasLoad);
    } else {
      var t :| q == Go(r, i, PushLoad(t));
      MoveKeeps(r, i, PushLoad(t));
    }
  }

  lemma StepKeeps(r: Queue, q: Queue)
    requires Inv(r) && Step(r, q)
    ensures Inv(q)
  {
    var i: nat :| CallStep(r, q, i) || (i < |r.threads| && (PushStep(r, q, i) || PopStep(r, q, i)));
    if CallStep(r, q, i) { CallKeeps(r, q, i); }
    else if PushStep(r, q, i) { PushKeeps(r, q, i); }
    else if Pops(r.threads[i]) { TakenKeeps(r, q, i); }
    else { PopKeeps(r, q, i); }
  }

  // ---------------------------------------------------------------- whole runs

  lemma InitialInv(r: Queue)
    requires Initial(r)
    ensures Inv(r)
  {
    forall next | r.tail <= next < r.tail + r.size ensures CellOk(r, next) { assert Cell(next, r.size) == next; }
  }

  lemma {:induction false} Reachable(run: seq<Queue>)
    requires Execution(run)
    ensures Inv(run[|run| - 1])
  {
    if |run| == 1 {
      InitialInv(run[0]);
    } else {
      var before := run[..|run| - 1];
      assert forall i :: 0 <= i < |before| ==> before[i] == run[i];
      Reachable(before);
      StepKeeps(run[|run| - 2], run[|run| - 1]);
    }
  }

  /**
   The ring is a bounded FIFO queue: in every run, at most `size` positions are claimed and not taken; the pop of a
   position has returned exactly the task of the push of that position, and a position is in the hands of at most one
   pop, which has not returned yet; no task is lost, and a cell that is written to holds no task.
   */
  lemma BoundedFifo(run: seq<Queue>)
    requires Execution(run)
    ensures var r := run[|run| - 1];
            && r.head <= r.tail <= r.head + r.size && |r.pushed| == r.tail && |r.slots| == r.size > 0
            && (forall pos :: pos in r.popped ==> pos < r.head && r.popped[pos] == Some(r.pushed[pos]))
            && (forall pos :: 0 <= pos < r.head && pos !in r.popped ==> Taking(r.threads, pos))
            && Owned(r)
            && (forall i :: 0 <= i < |r.threads| && Pops(r.threads[i]) ==> r.threads[i].pos !in r.popped)
            && (forall i :: 0 <= i < |r.threads| && r.threads[i].PushWrite? ==> At(r, r.threads[i].pos).task == None)
  {
    Reachable(run);
    var r := run[|run| - 1];
    forall i | 0 <= i < |r.threads| && r.threads[i].PushWrite? ensures At(r, r.threads[i].pos).task == None {
      assert ThreadOk(r, r.threads[i]);
    }
  }

  // ---------------------------------------------------------------- the queue of the pool model

  /** Whether the task of a position can be or has been taken. */
  ghost predicate Published(r: Queue, pos: nat)
    requires |r.slots| == r.size > 0
  {
    pos < r.head || At(r, pos).sequence == pos + 1
  }

  /** The ring as the pool model sees it. */
  ghost function View(r: Queue): PoolModel.Shard
    requires |r.slots| == r.size > 0
  {
    PoolModel.Shard(r.head, seq(r.tail, pos requires 0 <= pos < r.tail => Published(r, pos)), r.size, 0, 0, 0, 0, 0)
  }

  /**
   The changes of the queue that the pool model allows: a claim, a store at a claimed position, a take of a stored task.
   */
  ghost predicate Refines(x: PoolModel.Shard, y: PoolModel.Shard) {
    || y == x
    || y == x.(written := x.written + [false])
    || (exists pos :: 0 <= pos < |x.written| && !x.written[pos] && y == x.(written := x.written[pos := true]))
    || (x.Available() && y == x.(head := x.head + 1))
  }

  lemma ViewSame(r: Queue, q: Queue)
    requires Base(r) && Base(q) && q.size == r.size && q.head == r.head && q.tail == r.tail
    requires forall pos :: r.head <= pos < r.tail ==>
               (At(q, pos).sequence == pos + 1 <==> At(r, pos).sequence == pos + 1)
    ensures View(q) == View(r)
  {
    assert View(q).written == View(r).written;
  }

  lemma ClaimView(r: Queue, i: nat)
    requires Inv(r) && i < |r.threads| && r.threads[i].PushCas? && r.threads[i].pos == r.tail
    ensures Base(Claim(r, i)) && View(Claim(r, i)) == View(r).(written := View(r).written + [false])
  {
    ClaimFree(r, i);
    assert View(Claim(r, i)).written == View(r).written + [false];
  }

  lemma TakeView(r: Queue, i: nat)
    requires Inv(r) && i < |r.threads| && r.threads[i] == PopCas(r.head)
    ensures View(r).Available() && View(Take(r, i)) == View(r).(head := r.head + 1)
  {
    TakePublished(r, i);
    assert View(Take(r, i)).written == View(r).written;
  }

  lemma PutView(r: Queue, pos: nat, slot: Slot)
    requires Base(r) && pos < r.tail <= pos + r.size
    ensures View(Put(r, pos, slot)) ==
            if pos < r.head then View(r) else View(r).(written := View(r).written[pos := slot.sequence == pos + 1])
  {
    var q := Put(r, pos, slot);
    forall p | r.head <= p < r.tail && p != pos ensures At(q, p) == At(r, p) { OtherCell(r, pos, p, slot); }
    if pos < r.head { ViewSame(r, q); }
    else { assert View(q).written == View(r).written[pos := slot.sequence == pos + 1]; }
  }

  lemma PublishView(r: Queue, i: nat, q: Queue)
    requires Inv(r) && i < |r.threads| && PushStep(r, q, i) && Pushes(r.threads[i])
    ensures Base(q) && Refines(View(r), View(q))
  {
    var pos := r.threads[i].pos;
    assert ThreadOk(r, r.threads[i]);
    var slot := if r.threads[i].PushWrite? then At(r, pos).(task := Some(r.threads[i].task))
                else At(r, pos).(sequence := pos + 1);
    PutView(r, pos, slot);
    assert View(q) == View(Put(r, pos, slot));
    assert !View(r).written[pos];
    if r.threads[i].PushWrite? { assert View(r).written[pos := false] == View(r).written; }
  }

  lemma PopView(r: Queue, i: nat, q: Queue)
    requires Inv(r) && i < |r.threads| && PopStep(r, q, i)
    ensures Base(q) && Refines(View(r), View(q))
  {
    assert ThreadOk(r, r.threads[i]);
    match r.threads[i]
    case PopCas(pos) => if pos == r.head { TakePublished(r, i); TakeView(r, i); } else { ViewSame(r, q); }
    case PopClear(pos, _) =>
      PutView(r, pos, At(r, pos).(task := None));
      assert View(q) == View(Put(r, pos, At(r, pos).(task := None)));
    case PopRelease(pos, _) =>
      PutView(r, pos, At(r, pos).(sequence := pos + r.size));
      assert View(q) == View(Put(r, pos, At(r, pos).(sequence := pos + r.size)));
    case _ => ViewSame(r, q);
  }

  lemma PushView(r: Queue, i: nat, q: Queue)
    requires Inv(r) && i < |r.threads| && PushStep(r, q, i)
    ensures Base(q) && Refines(View(r), View(q))
  {
    if r.threads[i].PushCas? && r.threads[i].pos == r.tail {
      ClaimView(r, i);
    } else if Pushes(r.threads[i]) {
      PublishView(r, i, q);
    } else {
      ViewSame(r, q);
    }
  }

  /** Every step of the ring is a step of the queue in the pool model, or leaves it alone. */
  lemma RingRefinesQueue(run: seq<Queue>, q: Queue)
    requires Execution(run) && Step(run[|run| - 1], q)
    ensures |q.slots| == q.size > 0 && Refines(View(run[|run| - 1]), View(q))
  {
    Reachable(run);
    var r := run[|run| - 1];
    var i: nat :| CallStep(r, q, i) || (i < |r.threads| && (PushStep(r, q, i) || PopStep(r, q, i)));
    if CallStep(r, q, i) { assert q.slots == r.slots; ViewSame(r, q); }
    else if PushStep(r, q, i) { PushView(r, i, q); }
    else { PopView(r, i, q); }
  }

  /** What hasTask and pop see is what the pool model lets them see; push is refused only after a full lap. */
  lemma LooksAgree(run: seq<Queue>, i: nat)
    requires Execution(run) && i < |run[|run| - 1].threads|
    ensures var r := run[|run| - 1];
            && |r.slots| == r.size > 0
            && match r.threads[i] {
                 case HasLook(pos) => PoolModel.Reports(View(r), pos, At(r, pos).sequence == pos + 1)
                 case PopLook(pos) =>
                   && (At(r, pos).sequence < pos + 1 ==> pos == r.head && !View(r).Available())
                   && (pos == r.head ==> (At(r, pos).sequence == pos + 1 <==> View(r).Available()))
                 case PushLook(_, pos) =>
                   At(r, pos).sequence < pos ==>
                     pos == r.tail && r.tail >= r.size && (r.tail == r.head + r.size || r.tail - r.size !in r.popped)
                 case _ => true
               }
  {
    Reachable(run);
    var r := run[|run| - 1];
    assert ThreadOk(r, r.threads[i]);
    match r.threads[i]
    case HasLook(pos) => HeadLook(r, pos);
    case PopLook(pos) => HeadLook(r, pos);
    case PushLook(_, pos) => TailLook(r, pos);
    case _ =>
  }

  lemma HeadLook(r: Queue, pos: nat)
    requires Inv(r) && pos <= r.head
    ensures At(r, pos).sequence < pos + 1 ==> pos == r.head && !View(r).Available()
    ensures pos == r.head ==> (At(r, pos).sequence == pos + 1 <==> View(r).Available())
  {
    if pos < r.head {
      PassedCell(r, pos);
    } else if pos == r.tail {
      UnclaimedLook(r, pos);
    }
  }

  /** The cell of a position that has been taken is at least a step ahead of it. */
  lemma {:induction false} PassedCell(r: Queue, pos: nat)
    requires Inv(r) && pos < r.head
    ensures At(r, pos).sequence >= pos + 1
    decreases r.head - pos
  {
    SameCell(r, pos);
    if r.tail <= pos + r.size { assert CellOk(r, pos + r.size); }
    else if pos + r.size < r.head { PassedCell(r, pos + r.size); }
    else { ClaimedCell(r, pos + r.size); }
  }

  lemma ClaimedCell(r: Queue, pos: nat)
    requires Inv(r) && r.head <= pos < r.tail
    ensures At(r, pos).sequence == pos || At(r, pos).sequence == pos + 1
  {
    SameCell(r, pos);
    assert CellOk(r, pos + r.size);
  }

  lemma TailLook(r: Queue, pos: nat)
    requires Inv(r) && pos <= r.tail
    ensures At(r, pos).sequence < pos ==>
              pos == r.tail && r.tail >= r.size && (r.tail == r.head + r.size || r.tail - r.size !in r.popped)
  {
    if pos < r.head { PassedCell(r, pos); }
    else if pos < r.tail { ClaimedCell(r, pos); }
    else { assert CellOk(r, pos); }
  }
}
