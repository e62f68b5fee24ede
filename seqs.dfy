/**
 * The array primitives the stores rely on, as functions on sequences:
 * `Array.prototype.filter`, `findIndex`, `find` and `includes`, together
 * with what "order-preserving subsequence" means.
 */
module Seqs {
  import opened Optional

  /** `r` can be obtained from `s` by deleting elements (greedy matching is complete). */
  predicate IsSubsequence<T(==)>(r: seq<T>, s: seq<T>)
    decreases |s|
  {
    if r == [] then true
    else if s == [] then false
    else if r[0] == s[0] then IsSubsequence(r[1..], s[1..])
    else IsSubsequence(r, s[1..])
  }

  /** `s.filter(p)`: the elements of `s` satisfying `p`, in their original order. */
  function Filter<T>(s: seq<T>, p: T -> bool): (r: seq<T>)
    ensures |r| <= |s|
    ensures forall i :: 0 <= i < |r| ==> p(r[i])
    ensures forall i :: 0 <= i < |s| && p(s[i]) ==> s[i] in r
  {
    if s == [] then []
    else if p(s[0]) then [s[0]] + Filter(s[1..], p)
    else Filter(s[1..], p)
  }

  /** What a filter keeps is an order-preserving subsequence of its input. */
  lemma {:induction false} FilterIsSubsequence<T>(s: seq<T>, p: T -> bool)
    ensures IsSubsequence(Filter(s, p), s)
  {
    if s != [] {
      FilterIsSubsequence(s[1..], p);
      if !p(s[0]) {
        // whatever the filter keeps passes `p`, so it cannot be matched against s[0]
        var r := Filter(s[1..], p);
        assert r != [] ==> p(r[0]);
      }
    }
  }

  /** Everything a filter keeps comes from its input. */
  lemma {:induction false} FilterMembers<T>(s: seq<T>, p: T -> bool)
    ensures forall i :: 0 <= i < |Filter(s, p)| ==> Filter(s, p)[i] in s
  {
    if s != [] {
      FilterMembers(s[1..], p);
      var rest := Filter(s[1..], p);
      assert forall x :: x in rest ==> x in s;
    }
  }

  /**
   * A filter keeps every occurrence of a passing value and none of a failing
   * one: each value occurs in the result exactly as often as in the input if
   * it passes, and not at all otherwise.
   */
  lemma {:induction false} FilterCounts<T>(s: seq<T>, p: T -> bool)
    ensures forall x :: multiset(Filter(s, p))[x] == if p(x) then multiset(s)[x] else 0
  {
    if s != [] {
      FilterCounts(s[1..], p);
      assert s == [s[0]] + s[1..];
      assert multiset(s) == multiset{s[0]} + multiset(s[1..]);
      if p(s[0]) {
        assert multiset(Filter(s, p)) == multiset{s[0]} + multiset(Filter(s[1..], p));
      }
    }
  }

  lemma {:induction false} SelfSubsequence<T>(s: seq<T>)
    ensures IsSubsequence(s, s)
  {
    if s != [] {
      SelfSubsequence(s[1..]);
    }
  }

  /** Dropping the head of a sequence leaves a subsequence of it. */
  lemma {:induction false} TailIsSubsequence<T>(s: seq<T>)
    requires s != []
    ensures IsSubsequence(s[1..], s)
  {
    if |s| > 1 && s[1] == s[0] {
      TailIsSubsequence(s[1..]);
    } else {
      SelfSubsequence(s[1..]);
    }
  }

  /** `splice(i, 1)`: removing one element leaves a subsequence. */
  lemma {:induction false} SpliceIsSubsequence<T>(s: seq<T>, i: nat)
    requires i < |s|
    ensures IsSubsequence(s[..i] + s[i+1..], s)
  {
    if i == 0 {
      assert s[..0] + s[1..] == s[1..];
      TailIsSubsequence(s);
    } else {
      var r := s[..i] + s[i+1..];
      assert r[0] == s[0];
      assert r[1..] == s[1..][..i-1] + s[1..][i..];
      SpliceIsSubsequence(s[1..], i - 1);
    }
  }

  /** Filtering distributes over concatenation: appended elements are filtered on their own. */
  lemma {:induction false} FilterAppend<T>(a: seq<T>, b: seq<T>, p: T -> bool)
    ensures Filter(a + b, p) == Filter(a, p) + Filter(b, p)
  {
    if a == [] {
      assert a + b == b;
    } else {
      assert (a + b)[0] == a[0];
      assert (a + b)[1..] == a[1..] + b;
      FilterAppend(a[1..], b, p);
    }
  }

  /**
   * The position in `s` of the `k`-th element kept by `Filter(s, p)`: exactly `k`
   * kept elements come before it.  This is how an element of a filtered view
   * (a Vue `computed` filter) aliases an element of the backing array.
   */
  function FilterPosition<T>(s: seq<T>, p: T -> bool, k: nat): (j: nat)
    requires k < |Filter(s, p)|
    ensures j < |s| && p(s[j])
    ensures s[j] == Filter(s, p)[k]
    ensures |Filter(s[..j], p)| == k
  {
    if p(s[0]) && k == 0 then
      assert s[..0] == [];
      0
    else
      var head := if p(s[0]) then [s[0]] else [];
      var rest := Filter(s[1..], p);
      assert Filter(s, p) == head + rest;
      assert Filter(s, p)[k] == rest[k - |head|];
      var j := FilterPosition(s[1..], p, k - |head|);
      FilterPrefixStep(s, p, j);
      assert s[1 + j] == s[1..][j];
      1 + j
  }

  /** Filtering a non-empty prefix: the head is kept or dropped, then the rest is filtered. */
  lemma FilterPrefixStep<T>(s: seq<T>, p: T -> bool, j: nat)
    requires j < |s|
    ensures Filter(s[..j+1], p) == (if p(s[0]) then [s[0]] else []) + Filter(s[1..][..j], p)
  {
    assert s[..j+1] == [s[0]] + s[1..][..j];
    FilterAppend([s[0]], s[1..][..j], p);
    assert Filter([s[0]], p) == (if p(s[0]) then [s[0]] else []) + Filter([], p);
  }

  /** `s.findIndex(p)`, with `None` for JavaScript's `-1`. */
  function FindIndex<T>(s: seq<T>, p: T -> bool): (r: Option<nat>)
    ensures r.None? <==> forall i :: 0 <= i < |s| ==> !p(s[i])
    ensures r.Some? ==> r.value < |s| && p(s[r.value])
    ensures r.Some? ==> forall i :: 0 <= i < r.value ==> !p(s[i])
  {
    if s == [] then None
    else if p(s[0]) then Some(0)
    else
      match FindIndex(s[1..], p)
      case None => None
      case Some(i) => Some(i + 1)
  }

  /** `s.find(p)`: the first element satisfying `p`. */
  function Find<T>(s: seq<T>, p: T -> bool): (r: Option<T>)
    ensures r.None? <==> forall i :: 0 <= i < |s| ==> !p(s[i])
    ensures r.Some? ==> r.value in s && p(r.value)
    ensures r.Some? ==> exists i :: 0 <= i < |s| && s[i] == r.value && forall k :: 0 <= k < i ==> !p(s[k])
  {
    match FindIndex(s, p)
    case None => None
    case Some(i) => Some(s[i])
  }

  /** `s.includes(x)`: a linear scan for `x`. */
  function Includes<T(==)>(s: seq<T>, x: T): (b: bool)
    ensures b <==> x in s
  {
    if s == [] then false
    else s[0] == x || Includes(s[1..], x)
  }

  /** `new Set(s.map(f))` used only for membership tests. */
  function Keys<T, K>(s: seq<T>, f: T -> K): (r: set<K>)
    ensures forall i :: 0 <= i < |s| ==> f(s[i]) in r
    ensures forall k :: k in r ==> exists i :: 0 <= i < |s| && f(s[i]) == k
  {
    set i | 0 <= i < |s| :: f(s[i])
  }

  /** The filter callback `x => !existingIds.has(key(x))`. */
  function KeyNotIn<T, K(==)>(ids: set<K>, key: T -> K): T -> bool {
    x => key(x) !in ids
  }

  /**
   * The import de-duplication `incoming.filter(x => !existingIds.has(x.id))`
   * with `existingIds = new Set(existing.map(x => x.id))`: the incoming
   * records whose key is not already taken, in incoming order.
   */
  function WithNewKeys<T(==,!new), K(==)>(existing: seq<T>, incoming: seq<T>, key: T -> K): (r: seq<T>)
    ensures IsSubsequence(r, incoming)
    ensures forall i, k :: 0 <= i < |r| && 0 <= k < |existing| ==> key(r[i]) != key(existing[k])
    ensures forall i :: 0 <= i < |incoming| && (forall k :: 0 <= k < |existing| ==> key(existing[k]) != key(incoming[i])) ==>
      incoming[i] in r
    ensures forall x :: multiset(r)[x] == if key(x) in Keys(existing, key) then 0 else multiset(incoming)[x]
  {
    var ids := Keys(existing, key);
    FilterIsSubsequence(incoming, KeyNotIn(ids, key));
    FilterCounts(incoming, KeyNotIn(ids, key));
    Filter(incoming, KeyNotIn(ids, key))
  }
}
