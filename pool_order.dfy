/**
 * The ordering of resource pools that the cluster applies before placing
 * nodes (cluster.py:68): `pools.sort(key=lambda p: p.weight, reverse=True)`.
 * Python's sort is stable also with `reverse=True`, so the result lists the
 * pools heaviest first and keeps pools of equal weight in their original
 * order. SortByWeight is that result, and SortInPlace computes it on the
 * array itself.
 */
module PoolOrder {
  import opened Environments

  /** Non-increasing by weight. */
  predicate SortedByWeight(s: seq<ResourcePool>) {
    forall i, j :: 0 <= i < j < |s| ==> s[i].weight >= s[j].weight
  }

  /** The pools of weight `w`, in the order they appear in `s`. */
  function WithWeight(s: seq<ResourcePool>, w: int): seq<ResourcePool> {
    if s == [] then [] else (if s[0].weight == w then [s[0]] else []) + WithWeight(s[1..], w)
  }

  /** Places `x` after every pool at least as heavy as it and before the first lighter one. */
  function Insert(x: ResourcePool, t: seq<ResourcePool>): (r: seq<ResourcePool>)
    ensures |r| == |t| + 1
  {
    if t == [] then [x]
    else if t[0].weight >= x.weight then [t[0]] + Insert(x, t[1..])
    else [x] + t
  }

  /** Stable descending sort by weight: each pool is inserted into the sorted prefix before it. */
  function SortByWeight(s: seq<ResourcePool>): (r: seq<ResourcePool>)
    ensures |r| == |s|
  {
    if s == [] then [] else Insert(s[|s| - 1], SortByWeight(s[..|s| - 1]))
  }

  lemma {:induction false} InsertSorted(x: ResourcePool, t: seq<ResourcePool>)
    requires SortedByWeight(t)
    ensures SortedByWeight(Insert(x, t))
    decreases |t|
  {
    if t == [] {
    } else if t[0].weight >= x.weight {
      var u := t[1..];
      InsertSorted(x, u);
      InsertHead(x, u);
      SortedCons(t[0], Insert(x, u));
    } else {
      SortedCons(x, t);
    }
  }

  /** The head of `Insert(x, t)` is `x` or the head of `t`. */
  lemma InsertHead(x: ResourcePool, t: seq<ResourcePool>)
    ensures Insert(x, t)[0] == x || (t != [] && Insert(x, t)[0] == t[0])
  {
  }

  /** Prepending a pool at least as heavy as the head keeps a list sorted. */
  lemma SortedCons(p: ResourcePool, s: seq<ResourcePool>)
    requires SortedByWeight(s) && (s == [] || p.weight >= s[0].weight)
    ensures SortedByWeight([p] + s)
  {
    var r := [p] + s;
    forall i, j | 0 <= i < j < |r|
      ensures r[i].weight >= r[j].weight
    {
      if i == 0 {
        assert r[j] == s[j - 1] && s[0].weight >= s[j - 1].weight;
      } else {
        assert r[i] == s[i - 1] && r[j] == s[j - 1];
      }
    }
  }

  lemma {:induction false} InsertMultiset(x: ResourcePool, t: seq<ResourcePool>)
    ensures multiset(Insert(x, t)) == multiset(t) + multiset{x}
    decreases |t|
  {
    if t != [] && t[0].weight >= x.weight {
      InsertMultiset(x, t[1..]);
      assert t == [t[0]] + t[1..];
    }
  }

  lemma {:induction false} WithWeightAppend(a: seq<ResourcePool>, b: seq<ResourcePool>, w: int)
    ensures WithWeight(a + b, w) == WithWeight(a, w) + WithWeight(b, w)
    decreases |a|
  {
    if a == [] {
      assert a + b == b;
    } else {
      var head := if a[0].weight == w then [a[0]] else [];
      assert (a + b)[0] == a[0] && (a + b)[1..] == a[1..] + b;
      calc {
        WithWeight(a + b, w);
        head + WithWeight(a[1..] + b, w);
        { WithWeightAppend(a[1..], b, w); }
        head + (WithWeight(a[1..], w) + WithWeight(b, w));
        (head + WithWeight(a[1..], w)) + WithWeight(b, w);
        WithWeight(a, w) + WithWeight(b, w);
      }
    }
  }

  lemma {:induction false} WithWeightMembers(s: seq<ResourcePool>, w: int)
    ensures forall x :: x in WithWeight(s, w) ==> x in s && x.weight == w
    decreases |s|
  {
    if s != [] {
      WithWeightMembers(s[1..], w);
    }
  }

  /** Inserting `x` into a sorted list puts it last among the pools of its own weight. */
  lemma {:induction false} InsertWithWeight(x: ResourcePool, t: seq<ResourcePool>, w: int)
    requires SortedByWeight(t)
    ensures WithWeight(Insert(x, t), w) == WithWeight(t, w) + (if x.weight == w then [x] else [])
    decreases |t|
  {
    var last := if x.weight == w then [x] else [];
    if t == [] {
      WithWeightCons(x, [], w);
      assert [x] + [] == [x];
    } else if t[0].weight >= x.weight {
      var head := if t[0].weight == w then [t[0]] else [];
      assert t == [t[0]] + t[1..];
      calc {
        WithWeight(Insert(x, t), w);
        WithWeight([t[0]] + Insert(x, t[1..]), w);
        { WithWeightCons(t[0], Insert(x, t[1..]), w); }
        head + WithWeight(Insert(x, t[1..]), w);
        { InsertWithWeight(x, t[1..], w); }
        head + (WithWeight(t[1..], w) + last);
        (head + WithWeight(t[1..], w)) + last;
        { WithWeightCons(t[0], t[1..], w); }
        WithWeight(t, w) + last;
      }
    } else {
      WithWeightCons(x, t, w);
      if x.weight == w {
        LighterThanHeadAbsent(t, w);
      }
    }
  }

  lemma WithWeightCons(p: ResourcePool, s: seq<ResourcePool>, w: int)
    ensures WithWeight([p] + s, w) == (if p.weight == w then [p] else []) + WithWeight(s, w)
  {
    assert ([p] + s)[0] == p && ([p] + s)[1..] == s;
  }

  /** In a sorted list whose head is lighter than `w`, no pool has weight `w`. */
  lemma {:induction false} LighterThanHeadAbsent(t: seq<ResourcePool>, w: int)
    requires SortedByWeight(t)
    requires t == [] || t[0].weight < w
    ensures WithWeight(t, w) == []
    decreases |t|
  {
    if t != [] {
      LighterThanHeadAbsent(t[1..], w);
    }
  }

  /** The sort yields a sequence sorted non-increasing by weight. */
  lemma {:induction false} SortSorted(s: seq<ResourcePool>)
    ensures SortedByWeight(SortByWeight(s))
    decreases |s|
  {
    if s != [] {
      SortSorted(s[..|s| - 1]);
      InsertSorted(s[|s| - 1], SortByWeight(s[..|s| - 1]));
    }
  }

  /** The sort yields a permutation of its input. */
  lemma {:induction false} SortPermutation(s: seq<ResourcePool>)
    ensures multiset(SortByWeight(s)) == multiset(s)
    decreases |s|
  {
    if s != [] {
      var init := s[..|s| - 1];
      SortPermutation(init);
      InsertMultiset(s[|s| - 1], SortByWeight(init));
      assert s == init + [s[|s| - 1]];
    }
  }

  /** The sort is stable: the pools of each weight keep their original relative order. */
  lemma {:induction false} SortStable(s: seq<ResourcePool>, w: int)
    ensures WithWeight(SortByWeight(s), w) == WithWeight(s, w)
    decreases |s|
  {
    if s != [] {
      var init, last := s[..|s| - 1], s[|s| - 1];
      SortStable(init, w);
      SortSorted(init);
      InsertWithWeight(last, SortByWeight(init), w);
      assert s == init + [last];
      WithWeightAppend(init, [last], w);
    }
  }

  lemma WithOwnWeight(s: seq<ResourcePool>)
    ensures s != [] ==> WithWeight(s, s[0].weight) != []
  {
  }

  /** Two sorted sequences with the same pools of every weight, in the same order, are equal. */
  lemma {:induction false} SortedWithSameWeightsEqual(r: seq<ResourcePool>, q: seq<ResourcePool>)
    requires SortedByWeight(r) && SortedByWeight(q)
    requires forall w :: WithWeight(r, w) == WithWeight(q, w)
    ensures r == q
    decreases |r|
  {
    if r == [] && q != [] {
      WithOwnWeight(q);
      assert false;
    } else if r != [] && q == [] {
      WithOwnWeight(r);
      assert false;
    } else if r != [] && q != [] {
      var m, n := r[0].weight, q[0].weight;
      assert r == [r[0]] + r[1..] && q == [q[0]] + q[1..];
      WithWeightCons(r[0], r[1..], m);
      WithWeightCons(q[0], q[1..], n);
      WithWeightBound(q, m);
      WithWeightBound(r, n);
      assert r[0] == WithWeight(r, m)[0] == WithWeight(q, m)[0] == q[0];
      forall w
        ensures WithWeight(r[1..], w) == WithWeight(q[1..], w)
      {
        WithWeightCons(r[0], r[1..], w);
        WithWeightCons(q[0], q[1..], w);
        var head := if r[0].weight == w then [r[0]] else [];
        assert (head + WithWeight(r[1..], w))[|head|..] == WithWeight(r[1..], w);
        assert (head + WithWeight(q[1..], w))[|head|..] == WithWeight(q[1..], w);
      }
      SortedWithSameWeightsEqual(r[1..], q[1..]);
    }
  }

  /** A sorted list holds no pool heavier than its head. */
  lemma WithWeightBound(s: seq<ResourcePool>, w: int)
    requires SortedByWeight(s) && WithWeight(s, w) != []
    ensures s != [] && w <= s[0].weight
  {
    WithWeightMembers(s, w);
    var x := WithWeight(s, w)[0];
    assert x in WithWeight(s, w);
    var i :| 0 <= i < |s| && s[i] == x;
    assert s[0].weight >= s[i].weight;
  }

  /**
   * SortByWeight is the only sequence a stable descending sort by weight can
   * produce: any sorted sequence that keeps each weight's pools in their
   * original order is it.
   */
  lemma SortCharacterization(r: seq<ResourcePool>, s: seq<ResourcePool>)
    requires SortedByWeight(r)
    requires forall w :: WithWeight(r, w) == WithWeight(s, w)
    ensures r == SortByWeight(s)
  {
    SortSorted(s);
    forall w
      ensures WithWeight(r, w) == WithWeight(SortByWeight(s), w)
    {
      SortStable(s, w);
    }
    SortedWithSameWeightsEqual(r, SortByWeight(s));
  }

  /** Where Insert places `x`: after the pools before `j`, all at least as heavy, and before the lighter rest. */
  lemma {:induction false} InsertAt(x: ResourcePool, t: seq<ResourcePool>, j: nat)
    requires j <= |t|
    requires forall k :: 0 <= k < j ==> t[k].weight >= x.weight
    requires forall k :: j <= k < |t| ==> t[k].weight < x.weight
    ensures Insert(x, t) == t[..j] + [x] + t[j..]
    decreases j
  {
    if j > 0 {
      var u := t[1..];
      InsertAt(x, u, j - 1);
      assert [t[0]] + u[..j - 1] == t[..j];
      assert u[j - 1..] == t[j..];
    } else if t == [] {
      assert [x] == t[..0] + [x] + t[0..];
    } else {
      assert t[..0] + [x] + t[0..] == [x] + t;
    }
  }

  /**
   * One step of the insertion sort: shifts the pools of `a[..i]` that are
   * lighter than `a[i]` one place right and puts `a[i]` in the gap.
   */
  method InsertLast(a: array<ResourcePool>, i: nat)
    requires i < a.Length && SortedByWeight(a[..i])
    modifies a
    ensures a[..i + 1] == Insert(old(a[i]), old(a[..i]))
    ensures a[i + 1..] == old(a[i + 1..])
  {
    var x := a[i];
    ghost var t := a[..i];
    var j := OpenGap(a, i);
    a[j] := x;
    InsertedAt(x, t, j, a[..i + 1]);
    assert a[i + 1..] == old(a[i + 1..]);
  }

  /**
   * Moves the trailing pools of `a[..i]` lighter than `a[i]` one place
   * right; `j` is the gap left where the first of them was.
   */
  method OpenGap(a: array<ResourcePool>, i: nat) returns (j: nat)
    requires i < a.Length
    modifies a
    ensures j <= i
    ensures j == 0 || old(a[j - 1]).weight >= old(a[i]).weight
    ensures forall k :: j <= k < i ==> old(a[k]).weight < old(a[i]).weight
    ensures forall k :: 0 <= k < j ==> a[k] == old(a[k])
    ensures forall k :: j < k <= i ==> a[k] == old(a[k - 1])
    ensures forall k :: i < k < a.Length ==> a[k] == old(a[k])
  {
    var x := a[i];
    j := i;
    while j > 0 && a[j - 1].weight < x.weight
      invariant 0 <= j <= i
      invariant forall k :: 0 <= k < j ==> a[k] == old(a[k])
      invariant forall k :: j < k <= i ==> a[k] == old(a[k - 1])
      invariant forall k :: j <= k < i ==> old(a[k]).weight < x.weight
      invariant forall k :: i < k < a.Length ==> a[k] == old(a[k])
    {
      a[j] := a[j - 1];
      j := j - 1;
    }
  }

  /**
   * A list that agrees with the sorted `t` before `j`, holds `x` at `j` and
   * `t` shifted by one after it is `Insert(x, t)` when `j` is where `x`
   * belongs.
   */
  lemma InsertedAt(x: ResourcePool, t: seq<ResourcePool>, j: nat, b: seq<ResourcePool>)
    requires SortedByWeight(t) && j <= |t|
    requires j == 0 || t[j - 1].weight >= x.weight
    requires forall k :: j <= k < |t| ==> t[k].weight < x.weight
    requires |b| == |t| + 1 && b[j] == x
    requires forall k :: 0 <= k < j ==> b[k] == t[k]
    requires forall k :: j < k < |b| ==> b[k] == t[k - 1]
    ensures b == Insert(x, t)
  {
    forall k | 0 <= k < j
      ensures t[k].weight >= x.weight
    {
      assert t[k].weight >= t[j - 1].weight;
    }
    InsertAt(x, t, j);
    assert b == t[..j] + [x] + t[j..];
  }

  /** The in-place sort of cluster.py:68, as an insertion sort on the array. */
  method SortInPlace(a: array<ResourcePool>)
    modifies a
    ensures a[..] == SortByWeight(old(a[..]))
    ensures SortedByWeight(a[..]) && multiset(a[..]) == multiset(old(a[..]))
  {
    ghost var s := a[..];
    var i := 0;
    while i < a.Length
      invariant 0 <= i <= a.Length
      invariant a[..i] == SortByWeight(s[..i])
      invariant a[i..] == s[i..]
    {
      SortSorted(s[..i]);
      InsertLast(a, i);
      assert s[..i + 1][..i] == s[..i];
      i := i + 1;
    }
    assert a[..] == a[..a.Length];
    assert s[..a.Length] == s;
    SortSorted(s);
    SortPermutation(s);
  }
}
