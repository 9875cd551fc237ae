/** The array operations the handlers lean on (findIndex, filter, slice(-n)),
    stated once over Dafny sequences. */
module Seqs {

  /** Array.prototype.findIndex: the position of the first element that
      satisfies `p`, or -1 when none does. */
  function FindIndex<T>(s: seq<T>, p: T -> bool): (r: int)
    ensures -1 <= r < |s|
    ensures r == -1 <==> forall k :: 0 <= k < |s| ==> !p(s[k])
    ensures r != -1 ==> p(s[r]) && forall k :: 0 <= k < r ==> !p(s[k])
  {
    if |s| == 0 then -1
    else if p(s[0]) then 0
    else
      var r := FindIndex(s[1..], p);
      if r == -1 then -1 else r + 1
  }

  /** Array.prototype.filter: the elements that satisfy `p`, each as often
      as it occurs in `s`, in the order of `s`. */
  function Filter<T>(s: seq<T>, p: T -> bool): (r: seq<T>)
    ensures |r| <= |s|
    ensures forall k :: 0 <= k < |r| ==> p(r[k])
  {
    if |s| == 0 then []
    else (if p(s[0]) then [s[0]] else []) + Filter(s[1..], p)
  }

  /** Filtering keeps every element that satisfies `p` exactly as often as
      it occurs in `s`, and drops every other element. */
  lemma {:induction false} FilterCounts<T>(s: seq<T>, p: T -> bool, x: T)
    ensures multiset(Filter(s, p))[x] == if p(x) then multiset(s)[x] else 0
    decreases |s|
  {
    if s != [] {
      FilterCounts(s[1..], p, x);
      assert s == [s[0]] + s[1..];
    }
  }

  /** Array.prototype.slice(-n) for n > 0: the last n elements, or all of
      them when there are fewer. */
  function Recent<T>(s: seq<T>, n: nat): (r: seq<T>)
    requires n > 0
    ensures |r| == if |s| < n then |s| else n
    ensures r == s[|s| - |r|..]
  {
    if |s| <= n then s else s[|s| - n..]
  }

  /** `a` can be obtained from `b` by deleting elements: its elements occur
      in `b` in the same order. */
  predicate IsSubsequence<T(==)>(a: seq<T>, b: seq<T>)
    decreases |b|
  {
    if a == [] then true
    else if b == [] then false
    else (a[0] == b[0] && IsSubsequence(a[1..], b[1..])) || IsSubsequence(a, b[1..])
  }

  lemma {:induction false} FilterAppend<T>(a: seq<T>, b: seq<T>, p: T -> bool)
    ensures Filter(a + b, p) == Filter(a, p) + Filter(b, p)
    decreases |a|
  {
    if a == [] {
      assert a + b == b;
    } else {
      var head := if p(a[0]) then [a[0]] else [];
      assert (a + b)[0] == a[0] && (a + b)[1..] == a[1..] + b;
      assert Filter(a + b, p) == head + Filter(a[1..] + b, p);
      assert Filter(a, p) == head + Filter(a[1..], p);
      FilterAppend(a[1..], b, p);
      assert head + (Filter(a[1..], p) + Filter(b, p)) == (head + Filter(a[1..], p)) + Filter(b, p);
    }
  }

  /** Filtering never reorders: the result is a subsequence of the input. */
  lemma {:induction false} FilterIsSubsequence<T>(s: seq<T>, p: T -> bool)
    ensures IsSubsequence(Filter(s, p), s)
    decreases |s|
  {
    if s != [] {
      FilterIsSubsequence(s[1..], p);
      var rest := Filter(s[1..], p);
      if p(s[0]) {
        assert Filter(s, p) == [s[0]] + rest;
        assert ([s[0]] + rest)[1..] == rest;
      } else {
        assert Filter(s, p) == rest;
        if rest != [] {
          assert IsSubsequence(rest, s[1..]);
        }
      }
    }
  }

  /** A subsequence of `b` can be extended by putting anything in front of `b`. */
  lemma {:induction false} SubsequenceExtend<T>(a: seq<T>, x: T, b: seq<T>)
    requires IsSubsequence(a, b)
    ensures IsSubsequence(a, [x] + b)
  {
    if a != [] {
      assert ([x] + b)[1..] == b;
    }
  }

  /** Dropping the first element of a subsequence keeps it a subsequence. */
  lemma {:induction false} SubsequenceDropFirst<T>(a: seq<T>, b: seq<T>)
    requires a != [] && IsSubsequence(a, b)
    ensures IsSubsequence(a[1..], b)
    decreases |b|
  {
    assert b != [];
    assert b == [b[0]] + b[1..];
    if a[0] == b[0] && IsSubsequence(a[1..], b[1..]) {
      SubsequenceExtend(a[1..], b[0], b[1..]);
    } else {
      SubsequenceDropFirst(a, b[1..]);
      SubsequenceExtend(a[1..], b[0], b[1..]);
    }
  }

  /** Every suffix of a subsequence is a subsequence. */
  lemma {:induction false} SubsequenceSuffix<T>(a: seq<T>, b: seq<T>, k: nat)
    requires k <= |a| && IsSubsequence(a, b)
    ensures IsSubsequence(a[k..], b)
    decreases k
  {
    if k > 0 {
      SubsequenceSuffix(a, b, k - 1);
      assert a[k - 1..][1..] == a[k..];
      SubsequenceDropFirst(a[k - 1..], b);
    }
  }
  /** Array.prototype.splice(i, 1): the sequence without its element at i,
      the others kept in order. */
  function RemoveAt<T>(s: seq<T>, i: int): (r: seq<T>)
    requires 0 <= i < |s|
    ensures |r| == |s| - 1
    ensures forall k :: 0 <= k < i ==> r[k] == s[k]
    ensures forall k :: i <= k < |r| ==> r[k] == s[k + 1]
  {
    s[..i] + s[i + 1..]
  }

  /** Filtering an element put in front. */
  lemma {:induction false} FilterCons<T>(x: T, s: seq<T>, p: T -> bool)
    ensures Filter([x] + s, p) == (if p(x) then [x] else []) + Filter(s, p)
  {
    assert ([x] + s)[0] == x && ([x] + s)[1..] == s;
  }

  /** Filtering around one position: what lies before it, the element
      itself when it passes, and what lies after it. */
  lemma {:induction false} FilterSplitAt<T>(s: seq<T>, i: int, p: T -> bool)
    requires 0 <= i < |s|
    ensures Filter(s, p) ==
      Filter(s[..i], p) + (if p(s[i]) then [s[i]] else []) + Filter(s[i + 1..], p)
  {
    var tail := [s[i]] + s[i + 1..];
    assert s == s[..i] + tail;
    FilterAppend(s[..i], tail, p);
    FilterCons(s[i], s[i + 1..], p);
  }

  /** Removing an element removes it from the filtered view too, and only
      from there when it passes the filter. */
  lemma {:induction false} FilterRemoveAt<T>(s: seq<T>, i: int, p: T -> bool)
    requires 0 <= i < |s|
    ensures Filter(RemoveAt(s, i), p) == Filter(s[..i], p) + Filter(s[i + 1..], p)
    ensures !p(s[i]) ==> Filter(RemoveAt(s, i), p) == Filter(s, p)
    ensures p(s[i]) ==> |Filter(RemoveAt(s, i), p)| == |Filter(s, p)| - 1
  {
    FilterAppend(s[..i], s[i + 1..], p);
    FilterSplitAt(s, i, p);
  }

  /** Replacing an element by one that the filter treats alike changes the
      filtered view at most at that element. */
  lemma {:induction false} FilterUpdate<T>(s: seq<T>, i: int, x: T, p: T -> bool)
    requires 0 <= i < |s| && p(x) == p(s[i])
    ensures Filter(s[i := x], p) ==
      Filter(s[..i], p) + (if p(x) then [x] else []) + Filter(s[i + 1..], p)
    ensures !p(x) ==> Filter(s[i := x], p) == Filter(s, p)
    ensures |Filter(s[i := x], p)| == |Filter(s, p)|
  {
    var t := s[i := x];
    assert t[..i] == s[..i] && t[i + 1..] == s[i + 1..] && t[i] == x;
    FilterSplitAt(t, i, p);
    FilterSplitAt(s, i, p);
  }

  /** Appending passes the new element through the filter on its own. */
  lemma {:induction false} FilterPush<T>(s: seq<T>, x: T, p: T -> bool)
    ensures Filter(s + [x], p) == Filter(s, p) + (if p(x) then [x] else [])
  {
    FilterAppend(s, [x], p);
    assert [x][1..] == [];
  }

  /** The last n elements of a filtered view are a subsequence of the
      unfiltered sequence and all pass the filter. */
  lemma {:induction false} RecentOfFilter<T>(s: seq<T>, p: T -> bool, n: nat)
    requires n > 0
    ensures IsSubsequence(Recent(Filter(s, p), n), s)
    ensures forall k :: 0 <= k < |Recent(Filter(s, p), n)| ==> p(Recent(Filter(s, p), n)[k])
  {
    var f := Filter(s, p);
    var r := Recent(f, n);
    assert r == f[|f| - |r|..];
    FilterIsSubsequence(s, p);
    SubsequenceSuffix(f, s, |f| - |r|);
    forall k | 0 <= k < |r| ensures p(r[k]) {
      assert r[k] == f[|f| - |r| + k];
    }
    assert IsSubsequence(r, s);
  }

  /** Filtering loses no passing element and keeps the input's order. */
  lemma FilterKeepsPassing<T>(s: seq<T>, p: T -> bool)
    ensures forall k :: 0 <= k < |s| && p(s[k]) ==> s[k] in Filter(s, p)
    ensures IsSubsequence(Filter(s, p), s)
  {
    forall k | 0 <= k < |s| && p(s[k]) ensures s[k] in Filter(s, p) {
      FilterCounts(s, p, s[k]);
    }
    FilterIsSubsequence(s, p);
  }
}
