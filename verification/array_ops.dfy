/** The JavaScript array operations the core relies on (`findIndex`, `filter`,
    `flatMap`), as pure functions over sequences, with the facts about them
    that the rest of the model needs. */
module ArrayOps {

  /** `Array.prototype.findIndex`: the position of the first element that
      satisfies `p`, or -1 when no element does. */
  function FindIndex<T>(s: seq<T>, p: T -> bool): (i: int)
    ensures -1 <= i < |s|
    ensures i == -1 <==> (forall k :: 0 <= k < |s| ==> !p(s[k]))
    ensures 0 <= i ==> p(s[i]) && forall k :: 0 <= k < i ==> !p(s[k])
  {
    if |s| == 0 then -1
    else if p(s[0]) then 0
    else
      var j := FindIndex(s[1..], p);
      if j == -1 then -1 else j + 1
  }

  /** `Array.prototype.filter`: the elements satisfying `p`, in order. */
  function Filter<T>(s: seq<T>, p: T -> bool): (r: seq<T>)
    ensures |r| <= |s|
    ensures forall x :: x in r ==> x in s && p(x)
    ensures forall x :: x in s && p(x) ==> x in r
  {
    if |s| == 0 then []
    else (if p(s[0]) then [s[0]] else []) + Filter(s[1..], p)
  }

  /** `Array.prototype.flatMap`: the concatenation, in order, of `f` applied
      to every element. */
  function FlatMap<T, U>(s: seq<T>, f: T -> seq<U>): seq<U>
  {
    if |s| == 0 then [] else f(s[0]) + FlatMap(s[1..], f)
  }

  /** The positions of `s` whose element satisfies `p`: an independent
      description of what `Filter` keeps. */
  function Indices<T>(s: seq<T>, p: T -> bool): set<int>
  {
    set k | 0 <= k < |s| && p(s[k])
  }

  /** All keys `key(x)` of the elements of `s` are pairwise different. */
  predicate DistinctBy<T>(s: seq<T>, key: T -> string)
  {
    forall i, j :: 0 <= i < j < |s| ==> key(s[i]) != key(s[j])
  }

  /** `after` is `before` with `x` pushed on the end. */
  predicate AppendedWith<T(==)>(before: seq<T>, after: seq<T>, x: T)
  {
    |after| == |before| + 1 && after[..|before|] == before && after[|before|] == x
  }

  /** `after` has the length of `before` and agrees with it everywhere except
      possibly at position `i` (everywhere, when `i` is -1). */
  predicate SameExceptAt<T(==)>(before: seq<T>, after: seq<T>, i: int)
  {
    |after| == |before| && forall k :: 0 <= k < |before| && k != i ==> after[k] == before[k]
  }

  lemma {:induction false} FilterAppend<T>(a: seq<T>, b: seq<T>, p: T -> bool)
    ensures Filter(a + b, p) == Filter(a, p) + Filter(b, p)
  {
    if |a| == 0 {
      assert a + b == b;
    } else {
      assert (a + b)[0] == a[0];
      assert (a + b)[1..] == a[1..] + b;
      FilterAppend(a[1..], b, p);
    }
  }

  lemma {:induction false} FlatMapAppend<T, U>(a: seq<T>, b: seq<T>, f: T -> seq<U>)
    ensures FlatMap(a + b, f) == FlatMap(a, f) + FlatMap(b, f)
  {
    if |a| == 0 {
      assert a + b == b;
    } else {
      assert (a + b)[0] == a[0];
      assert (a + b)[1..] == a[1..] + b;
      FlatMapAppend(a[1..], b, f);
    }
  }

  /** `filter(p).length` counts exactly the positions where `p` holds. */
  lemma {:induction false} FilterCountsIndices<T>(s: seq<T>, p: T -> bool)
    ensures |Filter(s, p)| == |Indices(s, p)|
  {
    if |s| == 0 {
      assert Indices(s, p) == {};
    } else {
      var n := |s| - 1;
      var init := s[..n];
      assert s == init + [s[n]];
      FilterAppend(init, [s[n]], p);
      FilterCountsIndices(init, p);
      var last := Filter([s[n]], p);
      assert |last| == if p(s[n]) then 1 else 0 by {
        assert [s[n]][1..] == [];
      }
      IndicesSnoc(init, s[n], p);
    }
  }

  lemma IndicesSnoc<T>(s: seq<T>, x: T, p: T -> bool)
    ensures |Indices(s + [x], p)| == |Indices(s, p)| + if p(x) then 1 else 0
  {
    var n := |s|;
    var a, b := Indices(s, p), Indices(s + [x], p);
    if p(x) {
      assert b == a + {n} by {
        forall k | k in b ensures k in a + {n} {
          if k < n { assert (s + [x])[k] == s[k]; }
        }
        forall k | k in a + {n} ensures k in b {
          if k < n { assert (s + [x])[k] == s[k]; }
        }
      }
      assert n !in a;
    } else {
      assert b == a by {
        forall k | k in b ensures k in a {
          assert k != n;
          assert (s + [x])[k] == s[k];
        }
        forall k | k in a ensures k in b {
          assert (s + [x])[k] == s[k];
        }
      }
    }
  }

}
