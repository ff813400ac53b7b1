/** The sequence operations the plots borrow from pandas and numpy: boolean-mask
    row selection, `Series.unique()` and `np.max`. */
module Seqs {

  /** `frame[mask]`: the elements satisfying `p`, in their original order. */
  function Filter<T(!new)>(s: seq<T>, p: T -> bool): (r: seq<T>)
    ensures |r| <= |s|
    ensures forall x :: x in r <==> x in s && p(x)
  {
    if |s| == 0 then []
    else if p(s[0]) then [s[0]] + Filter(s[1..], p)
    else Filter(s[1..], p)
  }

  /** Filtering a sequence with one more element at the end. */
  lemma {:induction false} FilterSnoc<T(!new)>(s: seq<T>, x: T, p: T -> bool)
    ensures Filter(s + [x], p) == Filter(s, p) + (if p(x) then [x] else [])
  {
    if |s| > 0 {
      assert (s + [x])[1..] == s[1..] + [x];
      FilterSnoc(s[1..], x, p);
    }
  }

  /** The length of a filter, from that of the filter without the last element. */
  lemma FilterInit<T(!new)>(s: seq<T>, p: T -> bool)
    requires |s| > 0
    ensures |Filter(s, p)| == |Filter(s[..|s| - 1], p)| + if p(s[|s| - 1]) then 1 else 0
  {
    assert s[..|s| - 1] + [s[|s| - 1]] == s;
    FilterSnoc(s[..|s| - 1], s[|s| - 1], p);
  }

  predicate NoDuplicates<T(==)>(s: seq<T>) {
    forall i, j :: 0 <= i < j < |s| ==> s[i] != s[j]
  }

  /** The position where `x` first occurs in `s`. */
  function FirstIndex<T(==)>(s: seq<T>, x: T): (i: nat)
    requires x in s
    ensures i < |s| && s[i] == x
    ensures forall j :: 0 <= j < i ==> s[j] != x
  {
    if s[0] == x then 0 else 1 + FirstIndex(s[1..], x)
  }

  /** Appending an element does not move the first occurrence of a value that
      was already there. */
  lemma FirstIndexInit<T>(s: seq<T>, x: T)
    requires |s| > 0 && x in s[..|s| - 1]
    ensures FirstIndex(s, x) == FirstIndex(s[..|s| - 1], x)
  {
    var init := s[..|s| - 1];
    var i, j := FirstIndex(s, x), FirstIndex(init, x);
    assert s[j] == x;
    assert i <= j;
    assert init[i] == x;
  }

  lemma FirstIndexSnoc<T(!new)>(s: seq<T>)
    requires |s| > 0
    ensures forall x :: x in s[..|s| - 1] ==> FirstIndex(s, x) == FirstIndex(s[..|s| - 1], x)
  {
    forall x | x in s[..|s| - 1]
      ensures FirstIndex(s, x) == FirstIndex(s[..|s| - 1], x)
    {
      FirstIndexInit(s, x);
    }
  }

  /** `Series.unique()`: each distinct value once, in order of first appearance. */
  function Distinct<T(==, !new)>(s: seq<T>): (r: seq<T>)
    ensures NoDuplicates(r)
    ensures forall x :: x in r <==> x in s
    ensures |r| <= |s|
  {
    if |s| == 0 then []
    else
      var d := Distinct(s[..|s| - 1]);
      if s[|s| - 1] in d then d else d + [s[|s| - 1]]
  }

  /** The distinct values come in the order in which they first appear. */
  lemma {:induction false} DistinctFirstAppearance<T(!new)>(s: seq<T>)
    ensures forall i, j :: 0 <= i < j < |Distinct(s)| ==>
              FirstIndex(s, Distinct(s)[i]) < FirstIndex(s, Distinct(s)[j])
  {
    if |s| > 0 {
      var init := s[..|s| - 1];
      DistinctFirstAppearance(init);
      FirstIndexSnoc(s);
    }
  }

  /** `len(unique())`: the number of distinct values is the size of
      the set of values. */
  lemma {:induction false} DistinctCard<T(!new)>(s: seq<T>)
    ensures |Distinct(s)| == |set x | x in s|
  {
    if |s| > 0 {
      var init, last := s[..|s| - 1], s[|s| - 1];
      DistinctCard(init);
      assert s == init + [last];
      if last in Distinct(init) {
        assert (set x | x in s) == (set x | x in init);
      } else {
        assert (set x | x in s) == (set x | x in init) + {last};
      }
    }
  }

  /** In a sequence that starts with `pre + mid`, where the keys of `pre` are
      below `i` and the keys after `mid` are above it, the elements with key
      `i` are the elements of `mid` with key `i`. */
  lemma KeyedSlice<T>(full: seq<T>, pre: seq<T>, mid: seq<T>, key: T -> int, i: int, e: T)
    requires pre + mid <= full
    requires forall j :: 0 <= j < |pre| ==> key(pre[j]) < i
    requires forall j :: |pre| + |mid| <= j < |full| ==> key(full[j]) > i
    ensures e in full && key(e) == i <==> e in mid && key(e) == i
  {
    if e in full && key(e) == i {
      var j :| 0 <= j < |full| && full[j] == e;
      assert j < |pre| ==> full[j] == pre[j] by {
        if j < |pre| {
          assert (pre + mid)[j] == pre[j];
        }
      }
      assert |pre| <= j < |pre| + |mid|;
      assert (pre + mid)[j] == mid[j - |pre|];
    }
    if e in mid {
      var j :| 0 <= j < |mid| && mid[j] == e;
      assert (pre + mid)[|pre| + j] == e;
    }
  }

  /** `np.max` of a non-empty list. */
  function MaxOf(s: seq<int>): (m: int)
    requires |s| > 0
    ensures m in s
    ensures forall i :: 0 <= i < |s| ==> s[i] <= m
  {
    if |s| == 1 then s[0]
    else
      var m := MaxOf(s[..|s| - 1]);
      assert forall i :: 0 <= i < |s| - 1 ==> s[..|s| - 1][i] == s[i];
      if s[|s| - 1] > m then s[|s| - 1] else m
  }
}
