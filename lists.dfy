/**
 * `Array.prototype.filter` and the order facts the list pages rely on: a
 * filtered list keeps exactly the elements that pass, as a subsequence of
 * the original in the original order.
 */
module Lists {

  /** `s.filter(p)` */
  function Filter<T>(s: seq<T>, p: T -> bool): (r: seq<T>)
    ensures |r| <= |s|
    ensures forall x :: x in r ==> x in s && p(x)
    ensures forall x :: x in s && p(x) ==> x in r
  {
    if s == [] then [] else if p(s[0]) then [s[0]] + Filter(s[1..], p) else Filter(s[1..], p)
  }

  /** `a` can be obtained from `b` by deleting elements: `a` keeps `b`'s order. */
  predicate IsSubseq<T(==)>(a: seq<T>, b: seq<T>)
    decreases |b|
  {
    if a == [] then true
    else if b == [] then false
    else (a[0] == b[0] && IsSubseq(a[1..], b[1..])) || IsSubseq(a, b[1..])
  }

  lemma {:induction false} FilterIsSubseq<T>(s: seq<T>, p: T -> bool)
    ensures IsSubseq(Filter(s, p), s)
  {
    if s != [] {
      FilterIsSubseq(s[1..], p);
      if p(s[0]) {
        var r := Filter(s, p);
        assert r[0] == s[0] && r[1..] == Filter(s[1..], p);
      }
    }
  }

  /** A subsequence of a subsequence is a subsequence. */
  lemma {:induction false} SubseqTrans<T>(a: seq<T>, b: seq<T>, c: seq<T>)
    requires IsSubseq(a, b) && IsSubseq(b, c)
    ensures IsSubseq(a, c)
    decreases |c|
  {
    if a != [] {
      if b[0] == c[0] && IsSubseq(b[1..], c[1..]) {
        if a[0] == b[0] && IsSubseq(a[1..], b[1..]) {
          SubseqTrans(a[1..], b[1..], c[1..]);
        } else {
          SubseqTrans(a, b[1..], c[1..]);
        }
      } else {
        SubseqTrans(a, b, c[1..]);
      }
    }
  }

  /** A filter every element passes changes nothing. */
  lemma {:induction false} FilterAllPass<T>(s: seq<T>, p: T -> bool)
    requires forall i :: 0 <= i < |s| ==> p(s[i])
    ensures Filter(s, p) == s
  {
    if s != [] {
      assert forall i :: 0 <= i < |s[1..]| ==> p(s[1..][i]) by {
        forall i | 0 <= i < |s[1..]| ensures p(s[1..][i]) { assert s[1..][i] == s[i + 1]; }
      }
      FilterAllPass(s[1..], p);
    }
  }

  /** Two filters in a row keep what passes both (`pq` is the conjunction of `p` and `q`). */
  lemma {:induction false} FilterFilter<T>(s: seq<T>, p: T -> bool, q: T -> bool, pq: T -> bool)
    requires forall x :: pq(x) == (p(x) && q(x))
    ensures Filter(Filter(s, p), q) == Filter(s, pq)
  {
    if s != [] {
      FilterFilter(s[1..], p, q, pq);
      if p(s[0]) {
        assert Filter(s, p) == [s[0]] + Filter(s[1..], p);
        assert Filter(s, p)[1..] == Filter(s[1..], p);
      }
    }
  }

  /** Number of elements of `s` that pass `p`. */
  function CountIf<T>(s: seq<T>, p: T -> bool): (n: nat)
    ensures n <= |s|
  {
    if s == [] then 0 else (if p(s[0]) then 1 else 0) + CountIf(s[1..], p)
  }

  lemma {:induction false} FilterLength<T>(s: seq<T>, p: T -> bool)
    ensures |Filter(s, p)| == CountIf(s, p)
  {
    if s != [] { FilterLength(s[1..], p); }
  }

  /** A subsequence of `s` whose elements all pass `p` holds at most `CountIf(s, p)` elements. */
  lemma {:induction false} SubseqOfPassingBound<T>(r: seq<T>, s: seq<T>, p: T -> bool)
    requires IsSubseq(r, s)
    requires forall i :: 0 <= i < |r| ==> p(r[i])
    ensures |r| <= CountIf(s, p)
    decreases |s|
  {
    if r != [] {
      assert forall i :: 0 <= i < |r[1..]| ==> p(r[1..][i]) by {
        forall i | 0 <= i < |r[1..]| ensures p(r[1..][i]) { assert r[1..][i] == r[i + 1]; }
      }
      if r[0] == s[0] && IsSubseq(r[1..], s[1..]) {
        SubseqOfPassingBound(r[1..], s[1..], p);
      } else {
        SubseqOfPassingBound(r, s[1..], p);
      }
    }
  }

  /**
   * `Filter` is characterised by three facts: a subsequence of `s` whose
   * elements all pass `p`, and which holds as many elements as pass, is
   * `Filter(s, p)`. So order, membership and count together fix a filter,
   * repeated elements included.
   */
  lemma {:induction false} FilterCharacterised<T>(r: seq<T>, s: seq<T>, p: T -> bool)
    requires IsSubseq(r, s)
    requires forall i :: 0 <= i < |r| ==> p(r[i])
    requires |r| == CountIf(s, p)
    ensures r == Filter(s, p)
    decreases |s|
  {
    if s != [] {
      if r != [] && r[0] == s[0] && IsSubseq(r[1..], s[1..]) {
        assert forall i :: 0 <= i < |r[1..]| ==> p(r[1..][i]) by {
          forall i | 0 <= i < |r[1..]| ensures p(r[1..][i]) { assert r[1..][i] == r[i + 1]; }
        }
        FilterCharacterised(r[1..], s[1..], p);
        assert r == [r[0]] + r[1..];
      } else {
        assert IsSubseq(r, s[1..]);
        SubseqOfPassingBound(r, s[1..], p);
        if p(s[0]) {
          assert false;
        }
        FilterCharacterised(r, s[1..], p);
      }
    }
  }

  /** Two disjoint filters never keep more than the list holds. */
  lemma {:induction false} DisjointFilters<T>(s: seq<T>, p: T -> bool, q: T -> bool)
    requires forall x :: !(p(x) && q(x))
    ensures |Filter(s, p)| + |Filter(s, q)| <= |s|
  {
    if s != [] { DisjointFilters(s[1..], p, q); }
  }
}
