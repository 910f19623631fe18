/** Order-preserving de-duplication, as built by the `vistos`/`seen` loops and LINQ `Distinct`. */
module Seqs {
  import opened Wrappers

  predicate NoDup<T(==)>(s: seq<T>)
  {
    forall i, j :: 0 <= i < j < |s| ==> s[i] != s[j]
  }

  /** The index of the first occurrence of `x` in `s`. */
  function FirstIndex<T(==,!new)>(s: seq<T>, x: T): (i: nat)
    requires x in s
    ensures i < |s| && s[i] == x && x !in s[..i]
  {
    if s[0] == x then 0 else 1 + FirstIndex(s[1..], x)
  }

  /** The index of the first `true` in `bs`, or None when there is none. */
  function FirstTrue(bs: seq<bool>): (r: Option<nat>)
    ensures r.None? <==> forall k :: 0 <= k < |bs| ==> !bs[k]
    ensures r.Some? ==> r.value < |bs| && bs[r.value] && forall k :: 0 <= k < r.value ==> !bs[k]
  {
    if bs == [] then None
    else if bs[0] then Some(0)
    else match FirstTrue(bs[1..])
      case None => None
      case Some(k) => Some(k + 1)
  }

  /** Keeps the first occurrence of every element, in input order. */
  function Dedup<T(==,!new)>(s: seq<T>): (r: seq<T>)
    ensures NoDup(r)
    ensures forall x :: x in r <==> x in s
    ensures |r| <= |s|
  {
    if s == [] then []
    else
      var p := Dedup(s[..|s| - 1]);
      var x := s[|s| - 1];
      assert forall y :: y in s <==> y in s[..|s| - 1] || y == x by {
        assert s == s[..|s| - 1] + [x];
      }
      if x in p then p else p + [x]
  }

  /** One more element is appended exactly when it has not been seen. */
  lemma DedupSnoc<T(!new)>(d: seq<T>, c: T)
    ensures Dedup(d + [c]) == if c in Dedup(d) then Dedup(d) else Dedup(d) + [c]
  {
    assert (d + [c])[..|d|] == d;
  }

  lemma {:induction false} FirstIndexAppend<T(!new)>(s: seq<T>, x: T, y: T)
    requires y in s
    ensures y in s + [x] && FirstIndex(s + [x], y) == FirstIndex(s, y)
  {
    if s[0] != y {
      assert (s + [x])[1..] == s[1..] + [x];
      FirstIndexAppend(s[1..], x, y);
    }
  }

  lemma FirstIndexOfNew<T(!new)>(s: seq<T>, x: T)
    requires x !in s
    ensures x in s + [x] && FirstIndex(s + [x], x) == |s|
  {
  }

  /** The de-duplicated sequence lists its elements in the order of their first occurrence in the input. */
  lemma {:induction false} DedupKeepsFirstOccurrenceOrder<T(!new)>(s: seq<T>, x: T, y: T)
    requires x in s && y in s
    ensures x in Dedup(s) && y in Dedup(s)
    ensures FirstIndex(Dedup(s), x) < FirstIndex(Dedup(s), y) <==> FirstIndex(s, x) < FirstIndex(s, y)
  {
    var init := s[..|s| - 1];
    var last := s[|s| - 1];
    assert s == init + [last];
    var p := Dedup(init);
    if x == y {
    } else if x in init && y in init {
      DedupKeepsFirstOccurrenceOrder(init, x, y);
      FirstIndexAppend(init, last, x);
      FirstIndexAppend(init, last, y);
      if last !in p {
        FirstIndexAppend(p, last, x);
        FirstIndexAppend(p, last, y);
      }
    } else if x in init {
      // y is the new last element
      assert y == last && last !in init && last !in p;
      FirstIndexAppend(init, last, x);
      FirstIndexOfNew(init, last);
      FirstIndexAppend(p, last, x);
      FirstIndexOfNew(p, last);
    } else {
      assert x == last && last !in init && last !in p;
      FirstIndexAppend(init, last, y);
      FirstIndexOfNew(init, last);
      FirstIndexAppend(p, last, y);
      FirstIndexOfNew(p, last);
    }
  }

  /** De-duplicating a sequence without duplicates returns it unchanged. */
  lemma {:induction false} DedupOfNoDup<T(!new)>(s: seq<T>)
    requires NoDup(s)
    ensures Dedup(s) == s
  {
    if s != [] {
      var init := s[..|s| - 1];
      assert NoDup(init);
      DedupOfNoDup(init);
      assert s[|s| - 1] !in init;
      assert s == init + [s[|s| - 1]];
    }
  }
}
