/** The loops of the deadline index (fdtable_unix.go), run by one goroutine that nobody disturbs. */
module DeadlineTable {
  import opened Deadlines

  /** The connection is told when its deadline has passed, and left alone otherwise. */
  function Checked(k: Conn, now: int): Conn { if 0 < k.deadline <= now then Told(k, k.version) else k }

  predicate InTable(conns: seq<Conn>, table: map<nat, nat>, c: nat)
    requires c < |conns|
  {
    conns[c].fd in table && table[conns[c].fd] == c
  }

  /** The connection is in one of the first `slots` slots of the page. */
  predicate OnPage(conns: seq<Conn>, table: map<nat, nat>, c: nat, page: nat, slots: nat)
    requires c < |conns|
  {
    InTable(conns, table, c) && PageOf(conns[c].fd) == page && SlotOf(conns[c].fd) < slots
  }

  /** The connections of those slots have been checked, the others not. */
  ghost predicate PageChecked(before: seq<Conn>, conns: seq<Conn>, table: map<nat, nat>, now: int, page: nat,
                              slots: nat) {
    |conns| == |before|
    && forall c :: 0 <= c < |conns| ==>
         conns[c] == if OnPage(before, table, c, page, slots) then Checked(before[c], now) else before[c]
  }

  /** The running minimum of their deadlines that have not passed. */
  ghost predicate MinOf(before: seq<Conn>, table: map<nat, nat>, now: int, page: nat, slots: nat, next: int) {
    next >= 0 && forall c :: 0 <= c < |before| && OnPage(before, table, c, page, slots) && before[c].deadline > now ==>
      0 < next <= before[c].deadline || before[c].deadline <= 0
  }

  /** The minimum is one of those deadlines, or 0. */
  ghost predicate Attained(before: seq<Conn>, table: map<nat, nat>, now: int, page: nat, slots: nat, next: int) {
    next == 0
    || (next > now && exists c ::
          0 <= c < |before| && OnPage(before, table, c, page, slots) && before[c].deadline == next)
  }

  /** The one connection of a slot. */
  lemma OneInSlot(conns: seq<Conn>, table: map<nat, nat>, mins: seq<int>, page: nat, slot: nat)
    requires Consistent(conns, table, mins) && slot < PAGE
    ensures var fd := page * PAGE + slot;
            forall c :: 0 <= c < |conns| ==>
              (OnPage(conns, table, c, page, slot + 1) <==>
                 OnPage(conns, table, c, page, slot) || (fd in table && table[fd] == c))
  {
    var fd := page * PAGE + slot;
    forall c | 0 <= c < |conns|
      ensures OnPage(conns, table, c, page, slot + 1) <==>
                OnPage(conns, table, c, page, slot) || (fd in table && table[fd] == c)
    {
      FdParts(conns[c].fd);
      FdParts(fd);
    }
  }

  /** What a check has done when it has come to this page. */
  ghost predicate Scanned(before: seq<Conn>, conns: seq<Conn>, table: map<nat, nat>, now: int, pages: nat) {
    |conns| == |before|
    && forall c :: 0 <= c < |conns| ==>
         && (conns[c] == before[c] || conns[c] == Checked(before[c], now))
         && (Pending(before, table, c) && before[c].deadline <= now && PageOf(before[c].fd) < pages ==>
             conns[c] == Checked(before[c], now))
         && (PageOf(before[c].fd) >= pages ==> conns[c] == before[c])
  }

  lemma ScanSkips(before: seq<Conn>, conns: seq<Conn>, table: map<nat, nat>, mins: seq<int>, now: int, page: nat)
    requires Scanned(before, conns, table, now, page) && Indexed(conns, table, mins) && page < |mins|
    requires mins[page] == 0 || mins[page] > now
    ensures Scanned(before, conns, table, now, page + 1)
  {
    forall c | 0 <= c < |conns| && PageOf(before[c].fd) == page && Pending(before, table, c)
      ensures before[c].deadline > now
    {
      assert Pending(conns, table, c);
    }
  }

  lemma ScanTakes(before: seq<Conn>, conns: seq<Conn>, next: seq<Conn>, table: map<nat, nat>, now: int, page: nat)
    requires Scanned(before, conns, table, now, page) && PageChecked(conns, next, table, now, page, PAGE)
    ensures Scanned(before, next, table, now, page + 1)
  {
    forall c | 0 <= c < |next|
      ensures (next[c] == before[c] || next[c] == Checked(before[c], now))
              && (Pending(before, table, c) && before[c].deadline <= now && PageOf(before[c].fd) < page + 1 ==>
                    next[c] == Checked(before[c], now))
              && (PageOf(before[c].fd) >= page + 1 ==> next[c] == before[c])
    {
      FdParts(before[c].fd);
    }
  }

  /** The index after a page has been scanned and its minimum found anew. */
  lemma PageIndexed(conns: seq<Conn>, next: seq<Conn>, table: map<nat, nat>, mins: seq<int>, now: int, page: nat,
                    min: int)
    requires Indexed(conns, table, mins) && Consistent(conns, table, mins) && page < |mins|
    requires PageChecked(conns, next, table, now, page, PAGE) && MinOf(conns, table, now, page, PAGE, min)
    ensures Indexed(next, table, mins[page := min]) && Consistent(next, table, mins[page := min])
  {
    forall c | 0 <= c < |next| && Pending(next, table, c)
      ensures PageOf(next[c].fd) < |mins| && 0 < mins[page := min][PageOf(next[c].fd)] <= next[c].deadline
    {
      FdParts(conns[c].fd);
      assert Pending(conns, table, c);
      if PageOf(conns[c].fd) == page { assert OnPage(conns, table, c, page, PAGE); }
    }
  }

  class FdTable {
    var conns: seq<Conn>
    var table: map<nat, nat>
    var mins: seq<int>

    ghost predicate Valid()
      reads this
    {
      Consistent(conns, table, mins)
    }

    constructor (pages: nat)
      ensures Valid() && conns == [] && table == map[] && |mins| == pages && Indexed(conns, table, mins)
    {
      conns, table, mins := [], map[], seq(pages, _ => 0);
    }

    /** Brings a page's minimum down to d. */
    method LowerDeadline(page: nat, d: int)
      requires page < |mins| && d > 0 && mins[page] >= 0
      modifies this`mins
      ensures |mins| == old(|mins|) && 0 < mins[page] <= d
      ensures mins[page] == d || mins[page] == old(mins[page])
      ensures old(mins[page]) > 0 ==> mins[page] <= old(mins[page])
      ensures forall p :: 0 <= p < |mins| && p != page ==> mins[p] == old(mins[p])
    {
      var cur := mins[page];
      if cur != 0 && cur <= d { return; }
      mins := mins[page := d];
    }

    /** A deadline d >= 1, or 0 for none. */
    method SetDeadline(c: nat, d: nat)
      requires Valid() && Indexed(conns, table, mins) && c < |conns|
      modifies this`conns, this`mins
      ensures Valid() && Indexed(conns, table, mins)
      ensures conns == old(conns)[c := old(conns[c]).(deadline := d, version := old(conns[c]).version + 1)]
    {
      conns := conns[c := conns[c].(deadline := d, version := conns[c].version + 1)];
      if d == 0 { return; }
      LowerDeadline(PageOf(conns[c].fd), d);
    }

    /** Checks the connections of a page; the earliest deadline that has not passed, 0 when there is none. */
    method ScanPage(page: nat, now: int) returns (next: int)
      requires Valid()
      modifies this`conns
      ensures PageChecked(old(conns), conns, table, now, page, PAGE)
      ensures MinOf(old(conns), table, now, page, PAGE, next) && Attained(old(conns), table, now, page, PAGE, next)
    {
      ghost var before := conns;
      next := 0;
      var slot := 0;
      while slot < PAGE
        invariant 0 <= slot <= PAGE
        invariant PageChecked(before, conns, table, now, page, slot) && MinOf(before, table, now, page, slot, next)
        invariant Attained(before, table, now, page, slot, next)
      {
        OneInSlot(before, table, mins, page, slot);
        var fd := page * PAGE + slot;
        if fd in table {
          var c := table[fd];
          assert !OnPage(before, table, c, page, slot) by { FdParts(fd); }
          var d := conns[c].deadline;
          if d > 0 {
            if d <= now { conns := conns[c := Told(conns[c], conns[c].version)]; }
            else if next == 0 || d < next { next := d; }
          }
        }
        slot := slot + 1;
      }
    }

    /**
     An undisturbed check at `now`: every connection of the table whose deadline has passed and that was not told is
     told, none whose deadline has not passed is, and the index goes on covering the others.
     */
    method CheckDeadlines(now: int)
      requires Valid() && Indexed(conns, table, mins)
      modifies this`conns, this`mins
      ensures Valid() && Indexed(conns, table, mins) && |conns| == old(|conns|)
      ensures forall c :: 0 <= c < |conns| && Pending(old(conns), table, c) && old(conns)[c].deadline <= now ==>
                conns[c].notified == conns[c].version
      ensures forall c :: 0 <= c < |conns| && !(0 < old(conns)[c].deadline <= now) ==> conns[c] == old(conns)[c]
    {
      ghost var before := conns;
      var page := 0;
      while page < |mins|
        invariant 0 <= page <= |mins| == old(|mins|)
        invariant Valid() && Indexed(conns, table, mins) && Scanned(before, conns, table, now, page)
      {
        var min := mins[page];
        if min == 0 || min > now {
          ScanSkips(before, conns, table, mins, now, page);
        } else {
          ghost var was, index := conns, mins;
          mins := mins[page := 0];
          assert Consistent(conns, table, mins);
          var next := ScanPage(page, now);
          PageIndexed(was, conns, table, index, now, page, next);
          ScanTakes(before, was, conns, table, now, page);
          if next > 0 { LowerDeadline(page, next); }
          assert mins == index[page := next];
        }
        page := page + 1;
      }
    }
  }
}
