/** The orderings the database queries of the core ask for: keep the rows
    that match a filter (`filter(...)`), sort them newest-first by a key
    (`order_by('-timestamp')`, `order_by('-updated_at')`), take the first
    (`.first()`) and reverse (`list(qs)[::-1]`). Rows with equal keys come
    out of the sort in reverse table order; the database leaves their order
    unspecified. */
module Ordering {
  import opened Common

  /** Rows of `s` that satisfy `p`, in table order. */
  function Filter<T>(s: seq<T>, p: T -> bool): (r: seq<T>)
    ensures |r| <= |s|
    ensures forall i :: 0 <= i < |r| ==> r[i] in s && p(r[i])
    ensures forall i :: 0 <= i < |s| && p(s[i]) ==> s[i] in r
  {
    if |s| == 0 then []
    else if p(s[0]) then [s[0]] + Filter(s[1..], p)
    else Filter(s[1..], p)
  }

  /** Every row appears in the filter as often as it appears in the table, when it matches. */
  lemma {:induction false} FilterMultiset<T>(s: seq<T>, p: T -> bool, x: T)
    ensures multiset(Filter(s, p))[x] == if p(x) then multiset(s)[x] else 0
  {
    if |s| > 0 {
      FilterMultiset(s[1..], p, x);
      assert s == [s[0]] + s[1..];
    }
  }

  /** Filtering a table with one more row filters the old rows, then that row. */
  lemma {:induction false} FilterAppend<T>(s: seq<T>, x: T, p: T -> bool)
    ensures Filter(s + [x], p) == Filter(s, p) + (if p(x) then [x] else [])
  {
    if |s| > 0 {
      FilterAppend(s[1..], x, p);
      assert (s + [x])[1..] == s[1..] + [x];
    }
  }

  /** Two tests that agree on every row keep the same rows. */
  lemma {:induction false} FilterCongruent<T>(s: seq<T>, p: T -> bool, q: T -> bool)
    requires forall x :: p(x) == q(x)
    ensures Filter(s, p) == Filter(s, q)
  {
    if |s| > 0 {
      FilterCongruent(s[1..], p, q);
    }
  }

  /** Nothing is kept exactly when no row matches. */
  lemma {:induction false} FilterEmptyIff<T>(s: seq<T>, p: T -> bool)
    ensures |Filter(s, p)| == 0 <==> forall i :: 0 <= i < |s| ==> !p(s[i])
  {
    if |s| > 0 {
      FilterEmptyIff(s[1..], p);
      assert forall i :: 1 <= i < |s| ==> s[i] == s[1..][i - 1];
    }
  }

  ghost predicate SortedDesc<T>(s: seq<T>, key: T -> int) {
    forall i, j :: 0 <= i < j < |s| ==> key(s[i]) >= key(s[j])
  }

  ghost predicate SortedAsc<T>(s: seq<T>, key: T -> int) {
    forall i, j :: 0 <= i < j < |s| ==> key(s[i]) <= key(s[j])
  }

  /** Insert `x` into a newest-first sequence, after every row with a key at least as large. */
  function InsertDesc<T>(x: T, s: seq<T>, key: T -> int): (r: seq<T>)
    ensures multiset(r) == multiset(s) + multiset{x}
    ensures |r| == |s| + 1
  {
    if |s| == 0 then [x]
    else if key(s[0]) >= key(x) then
      assert s == [s[0]] + s[1..];
      [s[0]] + InsertDesc(x, s[1..], key)
    else [x] + s
  }

  lemma {:induction false} InsertDescSorted<T>(x: T, s: seq<T>, key: T -> int)
    requires SortedDesc(s, key)
    ensures SortedDesc(InsertDesc(x, s, key), key)
    ensures |s| > 0 ==> InsertDesc(x, s, key)[0] == s[0] || InsertDesc(x, s, key)[0] == x
  {
    if |s| > 0 && key(s[0]) >= key(x) {
      var tail := InsertDesc(x, s[1..], key);
      InsertDescSorted(x, s[1..], key);
      var r := [s[0]] + tail;
      assert key(tail[0]) <= key(s[0]);
      forall i, j | 0 <= i < j < |r| ensures key(r[i]) >= key(r[j]) {
        if i == 0 {
          assert key(tail[j - 1]) <= key(tail[0]);
        }
      }
    }
  }

  /** `order_by('-key')`: the same rows, newest first. */
  function SortDesc<T>(s: seq<T>, key: T -> int): (r: seq<T>)
    ensures SortedDesc(r, key)
    ensures multiset(r) == multiset(s)
    ensures |r| == |s|
  {
    if |s| == 0 then []
    else
      assert s == [s[0]] + s[1..];
      InsertDescSorted(s[0], SortDesc(s[1..], key), key);
      InsertDesc(s[0], SortDesc(s[1..], key), key)
  }

  /** `list(qs)[::-1]`. */
  function Reverse<T>(s: seq<T>): (r: seq<T>)
    ensures |r| == |s|
    ensures forall i :: 0 <= i < |s| ==> r[i] == s[|s| - 1 - i]
  {
    if |s| == 0 then [] else Reverse(s[1..]) + [s[0]]
  }

  /** Reversing keeps the rows. */
  lemma {:induction false} ReverseMultiset<T>(s: seq<T>)
    ensures multiset(Reverse(s)) == multiset(s)
  {
    if |s| > 0 {
      ReverseMultiset(s[1..]);
      assert s == [s[0]] + s[1..];
    }
  }

  /** Reversing keeps the rows and turns newest-first into oldest-first. */
  lemma ReverseOfDescIsAsc<T>(s: seq<T>, key: T -> int)
    requires SortedDesc(s, key)
    ensures SortedAsc(Reverse(s), key)
    ensures multiset(Reverse(s)) == multiset(s)
  {
    ReverseMultiset(s);
    var r := Reverse(s);
    forall i, j | 0 <= i < j < |r| ensures key(r[i]) <= key(r[j]) {
      assert r[i] == s[|s| - 1 - i] && r[j] == s[|s| - 1 - j];
    }
  }

  /** `.first()`. */
  function First<T>(s: seq<T>): Option<T> {
    if |s| == 0 then None else Some(s[0])
  }

  /** The first row of a newest-first ordering has the largest key of all rows. */
  lemma FirstOfSortedIsLatest<T>(s: seq<T>, key: T -> int)
    ensures First(SortDesc(s, key)).None? <==> |s| == 0
    ensures First(SortDesc(s, key)).Some? ==>
      First(SortDesc(s, key)).value in s &&
      forall y :: y in s ==> key(y) <= key(First(SortDesc(s, key)).value)
  {
    var r := SortDesc(s, key);
    if |s| > 0 {
      assert r[0] in multiset(s);
      forall y | y in s ensures key(y) <= key(r[0]) {
        assert y in multiset(r);
        var j :| 0 <= j < |r| && r[j] == y;
      }
    }
  }
}
