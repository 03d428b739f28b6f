/** The array operations the source uses as library calls: `find` and `filter`. */
module Seqs {
  import opened Wrappers

  /** Index of the first element satisfying `p` (what `Array.prototype.find` returns the element of). */
  function FindFirst<T>(s: seq<T>, p: T -> bool): (r: Option<nat>)
    ensures r.None? <==> forall i :: 0 <= i < |s| ==> !p(s[i])
    ensures r.Some? ==> r.value < |s| && p(s[r.value]) && forall j :: 0 <= j < r.value ==> !p(s[j])
  {
    if |s| == 0 then None
    else if p(s[0]) then Some(0)
    else match FindFirst(s[1..], p)
      case None => None
      case Some(k) => Some(k + 1)
  }

  /** Whether some element satisfies `p` (`Array.prototype.some`, or a one-class regular
      expression's `test`). */
  function Any<T>(s: seq<T>, p: T -> bool): bool {
    s != [] && (p(s[0]) || Any(s[1..], p))
  }

  lemma {:induction false} AnyMeaning<T>(s: seq<T>, p: T -> bool)
    ensures Any(s, p) <==> exists i :: 0 <= i < |s| && p(s[i])
  {
    if s != [] {
      AnyMeaning(s[1..], p);
      if exists i :: 0 <= i < |s| && p(s[i]) {
        var i :| 0 <= i < |s| && p(s[i]);
        if i > 0 {
          assert s[1..][i - 1] == s[i];
        }
      }
    }
  }

  /** `Array.prototype.filter`: the elements satisfying `p`, in their original order. */
  function Filter<T>(s: seq<T>, p: T -> bool): (r: seq<T>)
    ensures |r| <= |s|
  {
    if s == [] then [] else (if p(s[0]) then [s[0]] else []) + Filter(s[1..], p)
  }

  /** What filtering keeps: exactly the elements satisfying `p`. */
  lemma {:induction false} FilterMembers<T>(s: seq<T>, p: T -> bool)
    ensures forall i :: 0 <= i < |Filter(s, p)| ==> Filter(s, p)[i] in s && p(Filter(s, p)[i])
    ensures forall i :: 0 <= i < |s| && p(s[i]) ==> s[i] in Filter(s, p)
  {
    if s != [] {
      FilterMembers(s[1..], p);
      var r := Filter(s, p);
      var t := Filter(s[1..], p);
      var h := if p(s[0]) then [s[0]] else [];
      assert r == h + t;
      forall i | 0 <= i < |r| ensures r[i] in s && p(r[i]) {
        if i >= |h| {
          assert r[i] == t[i - |h|];
          assert t[i - |h|] in s[1..];
        }
      }
      forall i | 0 <= i < |s| && p(s[i]) ensures s[i] in r {
        if i > 0 {
          assert s[i] == s[1..][i - 1];
        }
      }
    }
  }

  /** Filtering distributes over concatenation, so it keeps relative order. */
  lemma {:induction false} FilterAppend<T>(s: seq<T>, t: seq<T>, p: T -> bool)
    ensures Filter(s + t, p) == Filter(s, p) + Filter(t, p)
  {
    if s == [] {
      assert s + t == t;
    } else {
      var st := s + t;
      var h := if p(s[0]) then [s[0]] else [];
      assert st != [] && st[0] == s[0] && st[1..] == s[1..] + t;
      assert Filter(st, p) == h + Filter(s[1..] + t, p);
      FilterAppend(s[1..], t, p);
      assert Filter(s, p) == h + Filter(s[1..], p);
    }
  }

  lemma {:induction false} FilterSingleton<T>(x: T, p: T -> bool)
    ensures Filter([x], p) == if p(x) then [x] else []
  {
    assert [x][1..] == [];
  }

  /** The one-element list holding `x` when it satisfies `p`, else nothing. */
  function Kept<T>(x: T, p: T -> bool): seq<T> {
    if p(x) then [x] else []
  }

  /** Filtering a list that starts with `x`. */
  lemma {:induction false} FilterCons<T>(x: T, s: seq<T>, p: T -> bool)
    ensures Filter([x] + s, p) == Kept(x, p) + Filter(s, p)
  {
    assert ([x] + s)[1..] == s;
  }

  /** Filtering a list that ends with `x`. */
  lemma {:induction false} FilterSnoc<T>(s: seq<T>, x: T, p: T -> bool)
    ensures Filter(s + [x], p) == Filter(s, p) + Kept(x, p)
  {
    FilterAppend(s, [x], p);
    assert [x] == [x] + [];
    FilterCons(x, [], p);
  }

  /** Filtering a five-element sequence, element by element. */
  lemma {:induction false} FilterFive<T>(a: T, b: T, c: T, d: T, e: T, p: T -> bool)
    ensures Filter([a, b, c, d, e], p) == Kept(a, p) + Kept(b, p) + Kept(c, p) + Kept(d, p) + Kept(e, p)
  {
    assert Filter([a], p) == Kept(a, p) by {
      FilterSnoc([], a, p);
      assert [] + [a] == [a];
    }
    assert Filter([a, b], p) == Filter([a], p) + Kept(b, p) by {
      FilterSnoc([a], b, p);
      assert [a] + [b] == [a, b];
    }
    assert Filter([a, b, c], p) == Filter([a, b], p) + Kept(c, p) by {
      FilterSnoc([a, b], c, p);
      assert [a, b] + [c] == [a, b, c];
    }
    assert Filter([a, b, c, d], p) == Filter([a, b, c], p) + Kept(d, p) by {
      FilterSnoc([a, b, c], d, p);
      assert [a, b, c] + [d] == [a, b, c, d];
    }
    assert Filter([a, b, c, d, e], p) == Filter([a, b, c, d], p) + Kept(e, p) by {
      FilterSnoc([a, b, c, d], e, p);
      assert [a, b, c, d] + [e] == [a, b, c, d, e];
    }
  }

  /** Filtering with a predicate every element satisfies changes nothing. */
  lemma {:induction false} FilterAll<T>(s: seq<T>, p: T -> bool)
    requires forall i :: 0 <= i < |s| ==> p(s[i])
    ensures Filter(s, p) == s
  {
    if s != [] {
      FilterAll(s[1..], p);
    }
  }

  /** How many elements satisfy `p`. */
  function Count<T>(s: seq<T>, p: T -> bool): nat {
    if s == [] then 0 else (if p(s[0]) then 1 else 0) + Count(s[1..], p)
  }

  lemma {:induction false} CountZero<T>(s: seq<T>, p: T -> bool)
    ensures Count(s, p) == 0 <==> forall i :: 0 <= i < |s| ==> !p(s[i])
  {
    if s != [] {
      CountZero(s[1..], p);
      if Count(s, p) == 0 {
        forall i | 0 <= i < |s| ensures !p(s[i]) {
          if i > 0 {
            assert s[i] == s[1..][i - 1];
          }
        }
      }
    }
  }

  lemma {:induction false} CountAppend<T>(s: seq<T>, t: seq<T>, p: T -> bool)
    ensures Count(s + t, p) == Count(s, p) + Count(t, p)
  {
    if s == [] {
      assert s + t == t;
    } else {
      assert (s + t)[0] == s[0];
      assert (s + t)[1..] == s[1..] + t;
      CountAppend(s[1..], t, p);
    }
  }

  /** Filtering never adds matches; dropping a match loses one; keeping a match keeps one. */
  lemma {:induction false} FilterCount<T>(s: seq<T>, keep: T -> bool, p: T -> bool)
    ensures Count(Filter(s, keep), p) <= Count(s, p)
    ensures forall i :: 0 <= i < |s| && !keep(s[i]) && p(s[i]) ==> Count(Filter(s, keep), p) < Count(s, p)
    ensures forall i :: 0 <= i < |s| && keep(s[i]) && p(s[i]) ==> Count(Filter(s, keep), p) > 0
  {
    if s != [] {
      FilterCount(s[1..], keep, p);
      var h := if keep(s[0]) then [s[0]] else [];
      var t := Filter(s[1..], keep);
      assert Filter(s, keep) == h + t;
      CountAppend(h, t, p);
      assert Count(h, p) == (if keep(s[0]) && p(s[0]) then 1 else 0) by {
        if keep(s[0]) {
          assert h[1..] == [];
        }
      }
      forall i | 0 < i < |s| ensures s[i] == s[1..][i - 1] {
      }
    }
  }

  /** `rel` holds between every element and each later one. */
  predicate Pairwise<T>(s: seq<T>, rel: (T, T) -> bool) {
    forall i, j :: 0 <= i < j < |s| ==> rel(s[i], s[j])
  }

  /** Filtering keeps a pairwise relation. */
  lemma {:induction false} FilterPairwise<T>(s: seq<T>, keep: T -> bool, rel: (T, T) -> bool)
    requires Pairwise(s, rel)
    ensures Pairwise(Filter(s, keep), rel)
  {
    if s != [] {
      var tail := s[1..];
      assert Pairwise(tail, rel) by {
        forall i, j | 0 <= i < j < |tail| ensures rel(tail[i], tail[j]) {
          assert tail[i] == s[i + 1] && tail[j] == s[j + 1];
        }
      }
      FilterPairwise(tail, keep, rel);
      var t := Filter(tail, keep);
      if keep(s[0]) {
        assert forall x :: x in tail ==> rel(s[0], x) by {
          forall x | x in tail ensures rel(s[0], x) {
            var k :| 0 <= k < |tail| && tail[k] == x;
            assert tail[k] == s[k + 1];
          }
        }
        FilterMembers(tail, keep);
        HeadPairwise(s[0], t, rel);
      }
    }
  }

  lemma {:induction false} HeadPairwise<T>(x: T, t: seq<T>, rel: (T, T) -> bool)
    requires Pairwise(t, rel)
    requires forall i :: 0 <= i < |t| ==> rel(x, t[i])
    ensures Pairwise([x] + t, rel)
  {
    var r := [x] + t;
    forall i, j | 0 <= i < j < |r| ensures rel(r[i], r[j]) {
      assert r[j] == t[j - 1];
      if i > 0 {
        assert r[i] == t[i - 1];
      }
    }
  }

  function NotEqualTo<T(==)>(x: T): T -> bool {
    (y: T) => y != x
  }

  /** `s.filter(y => y !== x)`: every occurrence of `x` dropped, everything else kept. */
  function RemoveAll<T(==)>(s: seq<T>, x: T): (r: seq<T>)
    ensures x !in r
    ensures forall y :: y != x && y in s ==> y in r
    ensures forall i :: 0 <= i < |r| ==> r[i] in s
  {
    FilterMembers(s, NotEqualTo(x));
    Filter(s, NotEqualTo(x))
  }

  /** Removal keeps the count of every other value. */
  lemma {:induction false} RemoveAllMultiset<T>(s: seq<T>, x: T)
    ensures multiset(RemoveAll(s, x)) == multiset(s)[x := 0]
  {
    if s != [] {
      RemoveAllMultiset(s[1..], x);
      assert s == [s[0]] + s[1..];
      assert multiset(s) == multiset{s[0]} + multiset(s[1..]);
    }
  }

  /** Removal keeps the order of what it keeps: an element other than `x` stays between
      what was before it and what was after it. */
  lemma {:induction false} RemoveAllKeepsOrder<T>(s: seq<T>, y: T, t: seq<T>, x: T)
    requires y != x
    ensures RemoveAll(s + [y] + t, x) == RemoveAll(s, x) + [y] + RemoveAll(t, x)
  {
    FilterAppend(s + [y], t, NotEqualTo(x));
    FilterSnoc(s, y, NotEqualTo(x));
    assert Kept(y, NotEqualTo(x)) == [y];
  }

  /** Adding a value that was absent and then removing it restores the sequence. */
  lemma {:induction false} AppendThenRemoveAll<T>(s: seq<T>, x: T)
    requires x !in s
    ensures RemoveAll(s + [x], x) == s
  {
    FilterAppend(s, [x], NotEqualTo(x));
    FilterAll(s, NotEqualTo(x));
    FilterSingleton(x, NotEqualTo(x));
  }

  /** The length of a filtered sequence is the number of elements satisfying the predicate. */
  lemma {:induction false} FilterLength<T>(s: seq<T>, p: T -> bool)
    ensures |Filter(s, p)| == Count(s, p)
  {
    if s != [] {
      FilterLength(s[1..], p);
    }
  }
}
