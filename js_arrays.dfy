/** The array built-ins the data layer and the panels use: `filter`,
    `findIndex`, `find` and `some`, on immutable sequences. */
module JsArrays {
  import opened JsValues

  /** r is s with some elements left out, the rest kept in their order. */
  predicate IsSubsequence<T(==)>(r: seq<T>, s: seq<T>)
    decreases |s|
  {
    if r == [] then true
    else if s == [] then false
    else if r[0] == s[0] then IsSubsequence(r[1..], s[1..])
    else IsSubsequence(r, s[1..])
  }

  lemma {:induction false} SubsequenceOfItself<T>(s: seq<T>)
    ensures IsSubsequence(s, s)
    decreases |s|
  {
    if s != [] {
      SubsequenceOfItself(s[1..]);
    }
  }

  /** `s.filter(p)`: exactly the elements that satisfy p, each as often as in s,
      in their original order. */
  function Filter<T(==)>(s: seq<T>, p: T -> bool): (r: seq<T>)
    ensures forall k :: 0 <= k < |r| ==> p(r[k]) && r[k] in s
    ensures forall i :: 0 <= i < |s| && p(s[i]) ==> s[i] in r
    ensures IsSubsequence(r, s)
    ensures |r| <= |s|
  {
    if s == [] then []
    else
      var rest := Filter(s[1..], p);
      assert s == [s[0]] + s[1..];
      if p(s[0]) then [s[0]] + rest else rest
  }

  /** Filtering keeps or drops the first element and filters the rest. */
  lemma FilterCons<T>(x: T, s: seq<T>, p: T -> bool)
    ensures Filter([x] + s, p) == (if p(x) then [x] else []) + Filter(s, p)
  {
    assert ([x] + s)[1..] == s;
  }

  /** Filtering keeps every element that satisfies p as often as it occurs in s,
      and drops every other. */
  lemma {:induction false} FilterCounts<T>(s: seq<T>, p: T -> bool, x: T)
    ensures multiset(Filter(s, p))[x] == if p(x) then multiset(s)[x] else 0
  {
    if s != [] {
      var head := if p(s[0]) then [s[0]] else [];
      FilterCounts(s[1..], p, x);
      assert s == [s[0]] + s[1..];
      FilterCons(s[0], s[1..], p);
      calc {
        multiset(Filter(s, p))[x];
      ==
        multiset(head + Filter(s[1..], p))[x];
      ==
        multiset(head)[x] + multiset(Filter(s[1..], p))[x];
      }
      assert multiset(s)[x] == multiset([s[0]])[x] + multiset(s[1..])[x];
    }
  }

  /** The same for every element at once: the result's multiset is the part
      of the input's multiset that satisfies p. */
  lemma FilterMultiset<T>(s: seq<T>, p: T -> bool)
    ensures forall x :: multiset(Filter(s, p))[x] == if p(x) then multiset(s)[x] else 0
  {
    forall x ensures multiset(Filter(s, p))[x] == if p(x) then multiset(s)[x] else 0 {
      FilterCounts(s, p, x);
    }
  }

  /** The positions of s whose element satisfies p. */
  ghost function Positions<T>(s: seq<T>, p: T -> bool): set<int> {
    set i | 0 <= i < |s| && p(s[i])
  }

  /** Appending an element adds its position exactly when it satisfies p. */
  lemma PositionsOfSnoc<T>(init: seq<T>, x: T, p: T -> bool)
    ensures Positions(init + [x], p) == Positions(init, p) + (if p(x) then {|init|} else {})
    ensures |init| !in Positions(init, p)
  {
    var s := init + [x];
    forall i ensures i in Positions(s, p) <==> i in Positions(init, p) || (i == |init| && p(x)) {
      if 0 <= i < |init| {
        assert s[i] == init[i];
      }
    }
  }

  /** The length of a filter is the number of positions whose element satisfies p. */
  lemma {:induction false} FilterLengthIsIndexCount<T>(s: seq<T>, p: T -> bool)
    ensures |Filter(s, p)| == |Positions(s, p)|
    decreases |s|
  {
    if s != [] {
      var n := |s| - 1;
      var init, x := s[..n], s[n];
      FilterLengthIsIndexCount(init, p);
      assert s == init + [x];
      FilterAppend(init, [x], p);
      assert [x] == [x] + [];
      FilterCons(x, [], p);
      PositionsOfSnoc(init, x, p);
    }
  }

  /** Filtering a concatenation filters each part. */
  lemma {:induction false} FilterAppend<T>(s: seq<T>, t: seq<T>, p: T -> bool)
    ensures Filter(s + t, p) == Filter(s, p) + Filter(t, p)
  {
    if s == [] {
      assert s + t == t;
    } else {
      var head := if p(s[0]) then [s[0]] else [];
      calc {
        Filter(s + t, p);
      == { assert s + t == [s[0]] + (s[1..] + t); FilterCons(s[0], s[1..] + t, p); }
        head + Filter(s[1..] + t, p);
      == { FilterAppend(s[1..], t, p); }
        head + (Filter(s[1..], p) + Filter(t, p));
      ==
        (head + Filter(s[1..], p)) + Filter(t, p);
      == { assert s == [s[0]] + s[1..]; FilterCons(s[0], s[1..], p); }
        Filter(s, p) + Filter(t, p);
      }
    }
  }

  /** Filtering after an append keeps the new element exactly when it satisfies p. */
  lemma FilterSnoc<T>(s: seq<T>, x: T, p: T -> bool)
    ensures Filter(s + [x], p) == Filter(s, p) + (if p(x) then [x] else [])
  {
    FilterAppend(s, [x], p);
    assert [x] == [x] + [];
    FilterCons(x, [], p);
  }

  /** Filtering a short literal sequence, element by element. */
  lemma FilterOfThree<T>(a: T, b: T, c: T, p: T -> bool)
    ensures Filter([a, b, c], p)
            == (if p(a) then [a] else []) + (if p(b) then [b] else []) + (if p(c) then [c] else [])
  {
    var keepA, keepB, keepC := if p(a) then [a] else [], if p(b) then [b] else [], if p(c) then [c] else [];
    calc {
      Filter([a, b, c], p);
    == { assert [a, b, c] == [a] + [b, c]; FilterCons(a, [b, c], p); }
      keepA + Filter([b, c], p);
    == { assert [b, c] == [b] + [c]; FilterCons(b, [c], p); }
      keepA + (keepB + Filter([c], p));
    == { assert [c] == [c] + []; FilterCons(c, [], p); }
      keepA + (keepB + (keepC + []));
    ==
      keepA + keepB + keepC;
    }
  }

  /** When every element satisfies p, filtering keeps the whole sequence. */
  lemma {:induction false} FilterKeepsAll<T>(s: seq<T>, p: T -> bool)
    requires forall i :: 0 <= i < |s| ==> p(s[i])
    ensures Filter(s, p) == s
  {
    if s != [] {
      FilterKeepsAll(s[1..], p);
    }
  }

  /** When no element satisfies p, filtering keeps nothing. */
  lemma {:induction false} FilterKeepsNone<T>(s: seq<T>, p: T -> bool)
    requires forall i :: 0 <= i < |s| ==> !p(s[i])
    ensures Filter(s, p) == []
  {
    if s != [] {
      FilterKeepsNone(s[1..], p);
    }
  }

  /** If pq holds of exactly the elements satisfying p or q, and no element
      satisfies both, then pq keeps exactly as many elements as p and q together. */
  lemma {:induction false} FilterDisjointCount<T>(s: seq<T>, p: T -> bool, q: T -> bool, pq: T -> bool)
    requires forall i :: 0 <= i < |s| ==> (pq(s[i]) <==> p(s[i]) || q(s[i]))
    requires forall i :: 0 <= i < |s| ==> !(p(s[i]) && q(s[i]))
    ensures |Filter(s, pq)| == |Filter(s, p)| + |Filter(s, q)|
  {
    if s != [] {
      FilterDisjointCount(s[1..], p, q, pq);
    }
  }

  /** `s.findIndex(p)`, with None for JavaScript's -1: the first index whose
      element satisfies p. */
  function FindIndex<T>(s: seq<T>, p: T -> bool): (r: Option<nat>)
    ensures r.None? <==> forall i :: 0 <= i < |s| ==> !p(s[i])
    ensures r.Some? ==> r.value < |s| && p(s[r.value])
    ensures r.Some? ==> forall j :: 0 <= j < r.value ==> !p(s[j])
  {
    if s == [] then None
    else if p(s[0]) then Some(0)
    else match FindIndex(s[1..], p)
      case None => None
      case Some(i) => Some(i + 1)
  }

  /** `s.find(p)`: the first element that satisfies p. */
  function Find<T>(s: seq<T>, p: T -> bool): (r: Option<T>)
    ensures r.None? <==> forall i :: 0 <= i < |s| ==> !p(s[i])
    ensures r.Some? ==> exists i :: 0 <= i < |s| && s[i] == r.value && p(s[i])
                                    && forall j :: 0 <= j < i ==> !p(s[j])
  {
    match FindIndex(s, p)
    case None => None
    case Some(i) => Some(s[i])
  }

  /** `s.some(p)`. */
  function Any<T>(s: seq<T>, p: T -> bool): (r: bool)
    ensures r <==> exists i :: 0 <= i < |s| && p(s[i])
  {
    FindIndex(s, p).Some?
  }
}
