/** Facts about sequences that the solver is slow to find on its own. */
module Seqs {

  lemma Assoc<T>(a: seq<T>, b: seq<T>, c: seq<T>)
    ensures a + (b + c) == (a + b) + c
  {
  }

  lemma Assoc4<T>(a: seq<T>, b: seq<T>, c: seq<T>, d: seq<T>)
    ensures a + (b + c + d) == (a + b) + c + d
  {
  }

  lemma ConcatTail<T>(a: seq<T>, b: seq<T>)
    requires a != []
    ensures (a + b)[0] == a[0] && (a + b)[1..] == a[1..] + b
  {
  }

  /** Dropping element i of a sequence, one element at a time from the front. */
  lemma DropTail<T>(s: seq<T>, i: int)
    requires 1 <= i < |s|
    ensures [s[0]] + (s[1..][..i - 1] + s[1..][i..]) == s[..i] + s[i + 1..]
  {
  }

  /** Placing an element before the last one. */
  lemma PlaceBeforeLast<T>(front: seq<T>, x: T, last: T, i: int)
    requires 0 <= i <= |front|
    ensures front[..i] + [x] + front[i..] + [last] == (front + [last])[..i] + [x] + (front + [last])[i..]
  {
    assert (front + [last])[..i] == front[..i];
    assert (front + [last])[i..] == front[i..] + [last];
  }

  lemma SplitAt<T>(s: seq<T>, i: int)
    requires 0 <= i <= |s|
    ensures s[..i] + s[i..] == s
  {
  }

  lemma Suffix<T>(s: seq<T>, i: int)
    requires 0 <= i < |s|
    ensures s[i..][0] == s[i] && s[i..][1..] == s[i + 1..]
  {
  }
}
