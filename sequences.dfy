/** `Array.prototype.filter` with a predicate of the form `key(x) === v`,
    on sequences, with an independent description of what it keeps: the
    strictly increasing list of the positions whose element has that key. */
module Sequences {

  /** The elements of `s` whose key is `v`, in their order in `s`. */
  function FilterBy<T(!new), K(==)>(s: seq<T>, key: T -> K, v: K): (r: seq<T>)
    ensures |r| <= |s|
    ensures forall x :: x in r <==> x in s && key(x) == v
    decreases |s|
  {
    if s == [] then []
    else
      var init := FilterBy(s[..|s| - 1], key, v);
      assert s == s[..|s| - 1] + [s[|s| - 1]];
      if key(s[|s| - 1]) == v then init + [s[|s| - 1]] else init
  }

  /** Filtering the sequence extended by one element `x`. */
  lemma FilterSnoc<T(!new), K>(s: seq<T>, x: T, key: T -> K, v: K)
    ensures FilterBy(s + [x], key, v) == FilterBy(s, key, v) + (if key(x) == v then [x] else [])
  {
    assert (s + [x])[..|s|] == s;
  }

  /** `FilterBy` keeps every occurrence of a matching element and no other. */
  lemma {:induction false} FilterCount<T(!new), K>(s: seq<T>, key: T -> K, v: K)
    ensures forall x :: multiset(FilterBy(s, key, v))[x] == if key(x) == v then multiset(s)[x] else 0
    decreases |s|
  {
    if s != [] {
      var n := |s| - 1;
      FilterCount(s[..n], key, v);
      assert s == s[..n] + [s[n]];
    }
  }

  /** `idx` is strictly increasing and lists positions of `s`. */
  ghost predicate Positions<T>(idx: seq<int>, s: seq<T>)
  {
    && (forall j :: 0 <= j < |idx| ==> 0 <= idx[j] < |s|)
    && (forall i, j :: 0 <= i < j < |idx| ==> idx[i] < idx[j])
  }

  /** The positions of `s` whose element has key `v`, in increasing order,
      and the proof that `FilterBy` keeps exactly the elements at them: the
      filtered sequence is `s` read at these positions and at no others. */
  function KeptPositions<T(!new), K(==)>(s: seq<T>, key: T -> K, v: K): (idx: seq<int>)
    ensures Positions(idx, s)
    ensures forall i :: 0 <= i < |s| ==> (i in idx <==> key(s[i]) == v)
    ensures |idx| == |FilterBy(s, key, v)|
    ensures forall j :: 0 <= j < |idx| ==> FilterBy(s, key, v)[j] == s[idx[j]]
    decreases |s|
  {
    if s == [] then []
    else
      var n := |s| - 1;
      var init := KeptPositions(s[..n], key, v);
      if key(s[n]) == v then KeptPositionsKeep(s, key, v, init); init + [n]
      else KeptPositionsSkip(s, key, v, init); init
  }

  /** The step of `KeptPositions` when the last element is kept. */
  lemma KeptPositionsKeep<T(!new), K>(s: seq<T>, key: T -> K, v: K, init: seq<int>)
    requires |s| > 0 && key(s[|s| - 1]) == v
    requires Positions(init, s[..|s| - 1])
    requires forall i :: 0 <= i < |s| - 1 ==> (i in init <==> key(s[i]) == v)
    requires |init| == |FilterBy(s[..|s| - 1], key, v)|
    requires forall j :: 0 <= j < |init| ==> FilterBy(s[..|s| - 1], key, v)[j] == s[init[j]]
    ensures Positions(init + [|s| - 1], s)
    ensures forall i :: 0 <= i < |s| ==> (i in init + [|s| - 1] <==> key(s[i]) == v)
    ensures |init + [|s| - 1]| == |FilterBy(s, key, v)|
    ensures forall j :: 0 <= j < |init| + 1 ==> FilterBy(s, key, v)[j] == s[(init + [|s| - 1])[j]]
  {
    var n := |s| - 1;
    AppendPosition(init, s);
    AppendPositionMembers(s, key, v, init);
    assert FilterBy(s, key, v) == FilterBy(s[..n], key, v) + [s[n]];
    AppendPositionElements(FilterBy(s[..n], key, v), s, init, FilterBy(s, key, v), init + [n]);
  }

  /** Adding the last position keeps the list strictly increasing. */
  lemma AppendPosition<T>(init: seq<int>, s: seq<T>)
    requires |s| > 0 && Positions(init, s[..|s| - 1])
    ensures Positions(init + [|s| - 1], s)
  {
    var idx := init + [|s| - 1];
    forall j | 0 <= j < |idx| ensures 0 <= idx[j] < |s| && (j < |init| ==> idx[j] < |s| - 1) {
      if j < |init| { assert idx[j] == init[j]; }
    }
  }

  lemma AppendPositionMembers<T(!new), K>(s: seq<T>, key: T -> K, v: K, init: seq<int>)
    requires |s| > 0 && key(s[|s| - 1]) == v
    requires Positions(init, s[..|s| - 1])
    requires forall i :: 0 <= i < |s| - 1 ==> (i in init <==> key(s[i]) == v)
    ensures forall i :: 0 <= i < |s| ==> (i in init + [|s| - 1] <==> key(s[i]) == v)
  {
    var n := |s| - 1;
    forall i | 0 <= i < |s| ensures (i in init + [n] <==> key(s[i]) == v) {
      if i < n {
        assert s[..n][i] == s[i];
        assert i in init + [n] <==> i in init;
      }
    }
  }

  lemma AppendPositionElements<T>(f: seq<T>, s: seq<T>, init: seq<int>, fx: seq<T>, idx: seq<int>)
    requires |s| > 0 && |init| == |f|
    requires Positions(init, s[..|s| - 1])
    requires forall j :: 0 <= j < |init| ==> f[j] == s[init[j]]
    requires fx == f + [s[|s| - 1]] && idx == init + [|s| - 1]
    ensures forall j :: 0 <= j < |idx| ==> fx[j] == s[idx[j]]
  {
    forall j | 0 <= j < |idx| ensures fx[j] == s[idx[j]] {
      if j < |init| {
        assert fx[j] == f[j];
        assert idx[j] == init[j];
      }
    }
  }

  /** The step of `KeptPositions` when the last element is dropped. */
  lemma KeptPositionsSkip<T(!new), K>(s: seq<T>, key: T -> K, v: K, init: seq<int>)
    requires |s| > 0 && key(s[|s| - 1]) != v
    requires Positions(init, s[..|s| - 1])
    requires forall i :: 0 <= i < |s| - 1 ==> (i in init <==> key(s[i]) == v)
    requires |init| == |FilterBy(s[..|s| - 1], key, v)|
    requires forall j :: 0 <= j < |init| ==> FilterBy(s[..|s| - 1], key, v)[j] == s[init[j]]
    ensures Positions(init, s)
    ensures forall i :: 0 <= i < |s| ==> (i in init <==> key(s[i]) == v)
    ensures |init| == |FilterBy(s, key, v)|
    ensures forall j :: 0 <= j < |init| ==> FilterBy(s, key, v)[j] == s[init[j]]
  {
    var n := |s| - 1;
    var pre := s[..n];
    assert n !in init by {
      forall j | 0 <= j < |init| ensures init[j] != n { }
    }
    forall i | 0 <= i < |s| ensures (i in init <==> key(s[i]) == v) {
      if i < n { assert pre[i] == s[i]; }
    }
  }
}
