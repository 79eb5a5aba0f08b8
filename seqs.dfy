/** Order-preserving filtering, the shape of every `WHERE` clause and list comprehension in the ledger. */
module Seqs {
  import opened Wrappers

  /** The elements of `s` satisfying `p`, in their original order. */
  function Filter<T>(s: seq<T>, p: T -> bool): (r: seq<T>)
    ensures |r| <= |s|
    ensures forall k :: 0 <= k < |r| ==> p(r[k]) && r[k] in s
    ensures forall k :: 0 <= k < |s| && p(s[k]) ==> s[k] in r
  {
    if s == [] then [] else (if p(s[0]) then [s[0]] else []) + Filter(s[1..], p)
  }

  lemma {:induction false} FilterAppend<T>(a: seq<T>, b: seq<T>, p: T -> bool)
    ensures Filter(a + b, p) == Filter(a, p) + Filter(b, p)
  {
    if a == [] {
      assert a + b == b;
    } else {
      assert (a + b)[1..] == a[1..] + b;
      FilterAppend(a[1..], b, p);
    }
  }

  /** Two filters in a row are one filter on the conjunction. */
  lemma {:induction false} FilterFilter<T>(s: seq<T>, p: T -> bool, q: T -> bool, pq: T -> bool)
    requires forall x :: pq(x) == (p(x) && q(x))
    ensures Filter(Filter(s, p), q) == Filter(s, pq)
  {
    if s != [] {
      FilterFilter(s[1..], p, q, pq);
      var head := if p(s[0]) then [s[0]] else [];
      FilterAppend(head, Filter(s[1..], p), q);
    }
  }

  /** A filter every element passes keeps the whole sequence. */
  lemma {:induction false} FilterAll<T>(s: seq<T>, p: T -> bool)
    requires forall k :: 0 <= k < |s| ==> p(s[k])
    ensures Filter(s, p) == s
  {
    if s != [] {
      FilterAll(s[1..], p);
      assert s == [s[0]] + s[1..];
    }
  }

  /** The keys of the elements of `s` satisfying `p`. */
  function KeysWhere<T, K>(s: seq<T>, p: T -> bool, key: T -> K): set<K> {
    set k | 0 <= k < |s| && p(s[k]) :: key(s[k])
  }

  lemma KeysWhereSnoc<T, K>(s: seq<T>, p: T -> bool, key: T -> K)
    requires s != []
    ensures var last := s[|s| - 1];
            KeysWhere(s, p, key) == KeysWhere(s[..|s| - 1], p, key) + (if p(last) then {key(last)} else {})
  {
    var init := s[..|s| - 1];
    var last := s[|s| - 1];
    forall x | x in KeysWhere(s, p, key) ensures x in KeysWhere(init, p, key) + (if p(last) then {key(last)} else {}) {
      var k :| 0 <= k < |s| && p(s[k]) && key(s[k]) == x;
      if k < |init| { assert init[k] == s[k]; }
    }
    forall x | x in KeysWhere(init, p, key) ensures x in KeysWhere(s, p, key) {
      var k :| 0 <= k < |init| && p(init[k]) && key(init[k]) == x;
      assert s[k] == init[k];
    }
  }

  lemma KeysWherePair<T, K>(x: T, y: T, p: T -> bool, key: T -> K)
    requires p(x) && p(y)
    ensures KeysWhere([x, y], p, key) == {key(x), key(y)}
  {
    var s := [x, y];
    assert key(s[0]) in KeysWhere(s, p, key);
    assert key(s[1]) in KeysWhere(s, p, key);
  }

  /** Some element of `s` satisfies `p`. */
  predicate Any<T>(s: seq<T>, p: T -> bool) {
    exists k :: 0 <= k < |s| && p(s[k])
  }

  lemma AnySnoc<T>(s: seq<T>, p: T -> bool)
    requires s != []
    ensures Any(s, p) == (Any(s[..|s| - 1], p) || p(s[|s| - 1]))
  {
    var init := s[..|s| - 1];
    if Any(s, p) && !p(s[|s| - 1]) {
      var k :| 0 <= k < |s| && p(s[k]);
      assert k < |init| && init[k] == s[k];
    }
    if Any(init, p) {
      var k :| 0 <= k < |init| && p(init[k]);
      assert s[k] == init[k];
    }
  }

  /** The first element of `s` satisfying `p`, as `.iloc[0]` or `fetchone()` picks it. */
  function First<T>(s: seq<T>, p: T -> bool): (r: Option<T>)
    ensures r.None? <==> forall k :: 0 <= k < |s| ==> !p(s[k])
    ensures r.Some? ==> p(r.value) && r.value in s
  {
    if s == [] then None
    else if p(s[0]) then Some(s[0])
    else First(s[1..], p)
  }

  /** `First` picks the element at the first index satisfying `p`. */
  lemma {:induction false} FirstAt<T>(s: seq<T>, p: T -> bool, j: nat)
    requires j < |s| && p(s[j])
    requires forall i :: 0 <= i < j ==> !p(s[i])
    ensures First(s, p) == Some(s[j])
  {
    if j > 0 {
      FirstAt(s[1..], p, j - 1);
    }
  }

  /**
   * `r` is `s` with `g` applied to the elements satisfying `p`, and `g` keeps `p`: the first match
   * in `r` is the first match in `s` with `g` applied.
   */
  lemma {:induction false} FirstUpdated<T>(s: seq<T>, r: seq<T>, p: T -> bool, g: T -> T)
    requires |r| == |s|
    requires forall k :: 0 <= k < |s| ==> r[k] == if p(s[k]) then g(s[k]) else s[k]
    requires forall k :: 0 <= k < |s| && p(s[k]) ==> p(g(s[k]))
    requires First(s, p).Some?
    ensures First(r, p) == Some(g(First(s, p).value))
  {
    if !p(s[0]) {
      FirstUpdated(s[1..], r[1..], p, g);
    }
  }

  /** The `Some` images of `s` under `f`, in order (a filter and a projection in one pass). */
  function FilterMap<T, U>(s: seq<T>, f: T -> Option<U>): (r: seq<U>)
    ensures |r| <= |s|
  {
    if s == [] then [] else (if f(s[0]).Some? then [f(s[0]).value] else []) + FilterMap(s[1..], f)
  }

  /** Every element of `s` that `f` keeps shows up in the result. */
  lemma {:induction false} FilterMapKeeps<T, U>(s: seq<T>, f: T -> Option<U>, j: nat)
    requires j < |s| && f(s[j]).Some?
    ensures f(s[j]).value in FilterMap(s, f)
  {
    if j > 0 {
      FilterMapKeeps(s[1..], f, j - 1);
    }
  }

  /** Everything in the result is the image of some element of `s`. */
  lemma {:induction false} FilterMapOrigin<T, U>(s: seq<T>, f: T -> Option<U>, y: U)
    requires y in FilterMap(s, f)
    ensures exists k :: 0 <= k < |s| && f(s[k]) == Some(y)
  {
    var head := if f(s[0]).Some? then [f(s[0]).value] else [];
    if y in head {
      assert f(s[0]) == Some(y);
    } else {
      FilterMapOrigin(s[1..], f, y);
      var k :| 0 <= k < |s[1..]| && f(s[1..][k]) == Some(y);
      assert s[k + 1] == s[1..][k];
    }
  }

  lemma {:induction false} FilterMapAppend<T, U>(a: seq<T>, b: seq<T>, f: T -> Option<U>)
    ensures FilterMap(a + b, f) == FilterMap(a, f) + FilterMap(b, f)
  {
    if a == [] {
      assert a + b == b;
    } else {
      var head := if f(a[0]).Some? then [f(a[0]).value] else [];
      assert (a + b)[0] == a[0];
      assert (a + b)[1..] == a[1..] + b;
      assert FilterMap(a + b, f) == head + FilterMap(a[1..] + b, f);
      FilterMapAppend(a[1..], b, f);
      assert FilterMap(a, f) == head + FilterMap(a[1..], f);
    }
  }

  /** An element that `f` drops can be taken out of the input without changing the result. */
  lemma FilterMapSkip<T, U>(before: seq<T>, x: T, after: seq<T>, f: T -> Option<U>)
    requires f(x).None?
    ensures FilterMap(before + [x] + after, f) == FilterMap(before + after, f)
  {
    FilterMapAppend(before + [x], after, f);
    FilterMapAppend(before, [x], f);
    FilterMapAppend(before, after, f);
    assert FilterMap([x], f) == [];
  }

  lemma FilterMapSingle<T, U>(x: T, f: T -> Option<U>)
    ensures FilterMap([x], f) == if f(x).Some? then [f(x).value] else []
  {
    assert [x][1..] == [];
  }

  /** One more element of a prefix adds its image, if any, at the end. */
  lemma FilterMapPrefixStep<T, U>(s: seq<T>, i: nat, f: T -> Option<U>)
    requires i < |s|
    ensures FilterMap(s[..i + 1], f) == FilterMap(s[..i], f) + (if f(s[i]).Some? then [f(s[i]).value] else [])
  {
    assert s[..i + 1] == s[..i] + [s[i]];
    FilterMapAppend(s[..i], [s[i]], f);
    FilterMapSingle(s[i], f);
  }

  /** When `f` keeps every element as it is, the result is the input. */
  lemma {:induction false} FilterMapIdentity<T>(s: seq<T>, f: T -> Option<T>)
    requires forall k :: 0 <= k < |s| ==> f(s[k]) == Some(s[k])
    ensures FilterMap(s, f) == s
  {
    if s != [] {
      FilterMapIdentity(s[1..], f);
    }
  }

  /** When exactly one of `f` and `g` keeps each element, their results together are as long as the input. */
  lemma {:induction false} FilterMapPartition<T, U, V>(s: seq<T>, f: T -> Option<U>, g: T -> Option<V>)
    requires forall k :: 0 <= k < |s| ==> f(s[k]).Some? != g(s[k]).Some?
    ensures |FilterMap(s, f)| + |FilterMap(s, g)| == |s|
  {
    if s != [] {
      FilterMapPartition(s[1..], f, g);
    }
  }

  /**
   * Searching the kept images for the first one satisfying `p` finds the image of the first
   * element that `f` keeps with an image satisfying `p`.
   */
  lemma {:induction false} FirstOfFilterMap<T, U>(s: seq<T>, f: T -> Option<U>, p: U -> bool)
    ensures First(FilterMap(s, f), p).None? <==> forall j :: 0 <= j < |s| ==> !(f(s[j]).Some? && p(f(s[j]).value))
    ensures forall j :: 0 <= j < |s| && f(s[j]).Some? && p(f(s[j]).value)
                        && (forall i :: 0 <= i < j ==> !(f(s[i]).Some? && p(f(s[i]).value)))
                        ==> First(FilterMap(s, f), p) == f(s[j])
  {
    if s != [] {
      FirstOfFilterMap(s[1..], f, p);
      var head := if f(s[0]).Some? then [f(s[0]).value] else [];
      var rest := FilterMap(s[1..], f);
      assert FilterMap(s, f) == head + rest;
      if head != [] {
        assert (head + rest)[0] == f(s[0]).value;
        assert (head + rest)[1..] == rest;
      } else {
        assert head + rest == rest;
      }
      forall j | 1 <= j < |s| ensures s[j] == s[1..][j - 1] { }
    }
  }
}
