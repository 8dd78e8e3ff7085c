/**
 * Sequence scans the inventory and monitoring helpers share: the first
 * element with a property (`for x in xs: if p(x): return x`), the
 * order-keeping filter of a list comprehension, and the order-keeping
 * de-duplication the scripts write with a `seen` set.
 */
module Scan {
  import opened Wrappers

  predicate NoDup<T(==)>(xs: seq<T>) {
    forall i, j | 0 <= i < j < |xs| :: xs[i] != xs[j]
  }

  /** The index of the first element satisfying `p`, scanning in list order. */
  function FirstIndex<T>(xs: seq<T>, p: T -> bool): (r: Option<nat>)
    ensures r.Some? ==> r.value < |xs| && p(xs[r.value])
    ensures r.Some? ==> forall j | 0 <= j < r.value :: !p(xs[j])
    ensures r.None? <==> forall j | 0 <= j < |xs| :: !p(xs[j])
  {
    if xs == [] then None
    else if p(xs[0]) then Some(0)
    else match FirstIndex(xs[1..], p)
      case None => None
      case Some(i) => Some(i + 1)
  }

  /** Whatever the first satisfying index is, `FirstIndex` finds it. */
  lemma FirstIndexUnique<T>(xs: seq<T>, p: T -> bool, k: nat)
    requires FirstIndex(xs, p) == Some(k)
    ensures forall i | 0 <= i < |xs| && p(xs[i]) && (forall j | 0 <= j < i :: !p(xs[j])) :: i == k
  {
  }

  /** `[x for x in xs if p(x)]` */
  function Filter<T>(xs: seq<T>, p: T -> bool): (r: seq<T>)
    ensures |r| <= |xs|
    ensures forall i | 0 <= i < |r| :: p(r[i])
    decreases |xs|
  {
    if xs == [] then []
    else
      var last := xs[|xs| - 1];
      Filter(xs[..|xs| - 1], p) + (if p(last) then [last] else [])
  }

  /** Filtering keeps exactly the elements that satisfy `p`. */
  lemma {:induction false} FilterMembers<T>(xs: seq<T>, p: T -> bool, x: T)
    ensures x in Filter(xs, p) <==> x in xs && p(x)
    decreases |xs|
  {
    if xs != [] {
      var front := xs[..|xs| - 1];
      assert xs == front + [xs[|xs| - 1]];
      FilterMembers(front, p, x);
    }
  }

  /** Filtering by a test and by its negation splits a sequence without losing or adding an element. */
  lemma {:induction false} FilterSplit<T>(xs: seq<T>, p: T -> bool, q: T -> bool)
    requires forall x :: q(x) == !p(x)
    ensures multiset(Filter(xs, q)) + multiset(Filter(xs, p)) == multiset(xs)
    decreases |xs|
  {
    if xs != [] {
      var n := |xs| - 1;
      FilterSplit(xs[..n], p, q);
      FilterSplitStep(xs, p, q);
      assert xs == xs[..n] + [xs[n]];
    }
  }

  /** One more element goes to exactly one of the two filtered sequences. */
  lemma FilterSplitStep<T>(xs: seq<T>, p: T -> bool, q: T -> bool)
    requires xs != [] && q(xs[|xs| - 1]) == !p(xs[|xs| - 1])
    ensures multiset(Filter(xs, q)) + multiset(Filter(xs, p)) ==
            multiset(Filter(xs[..|xs| - 1], q)) + multiset(Filter(xs[..|xs| - 1], p)) + multiset{xs[|xs| - 1]}
  {
    var n := |xs| - 1;
    FilterStep(xs, p, n);
    FilterStep(xs, q, n);
    assert xs[..n + 1] == xs;
  }

  /** Filtering a concatenation filters each part. */
  lemma {:induction false} FilterAppend<T>(a: seq<T>, b: seq<T>, p: T -> bool)
    ensures Filter(a + b, p) == Filter(a, p) + Filter(b, p)
    decreases |b|
  {
    if b == [] {
      assert a + b == a;
    } else {
      var front := b[..|b| - 1];
      assert (a + b)[..|a + b| - 1] == a + front;
      FilterAppend(a, front, p);
    }
  }

  /** Nothing passes the filter when no element satisfies `p`. */
  lemma {:induction false} FilterNone<T>(xs: seq<T>, p: T -> bool)
    requires forall i | 0 <= i < |xs| :: !p(xs[i])
    ensures Filter(xs, p) == []
    decreases |xs|
  {
    if xs != [] {
      FilterNone(xs[..|xs| - 1], p);
    }
  }

  /** The filter of a prefix grows by the next element exactly when it passes. */
  lemma FilterStep<T>(xs: seq<T>, p: T -> bool, i: nat)
    requires i < |xs|
    ensures Filter(xs[..i + 1], p) == Filter(xs[..i], p) + (if p(xs[i]) then [xs[i]] else [])
  {
    assert xs[..i + 1][..i] == xs[..i];
  }

  /** The first position of `x` in `xs`. */
  function Pos<T(==)>(xs: seq<T>, x: T): (r: nat)
    requires x in xs
    ensures r < |xs| && xs[r] == x && x !in xs[..r]
  {
    if xs[0] == x then 0
    else
      var r := Pos(xs[1..], x) + 1;
      assert xs[..r] == [xs[0]] + xs[1..][..r - 1];
      r
  }

  /** Concatenation regroups freely. */
  lemma AppendAssoc<T>(a: seq<T>, b: seq<T>, c: seq<T>)
    ensures a + b + c == a + (b + c)
  {
  }

  /** Two sequences with the same suffix from `i` agree at every index from `i`. */
  lemma SameSuffix<T>(a: seq<T>, b: seq<T>, i: nat)
    requires i <= |a| && i <= |b| && a[i..] == b[i..]
    ensures |a| == |b| && forall k :: i <= k < |a| ==> a[k] == b[k]
  {
    forall k | i <= k < |a|
      ensures a[k] == b[k]
    {
      assert a[k] == a[i..][k - i] && b[k] == b[i..][k - i];
    }
  }

  /**
   * Two results of a map that stops at position `i`: both hold the mapped
   * values before `i`, agree at `i`, and keep the original elements after it.
   */
  lemma StoppedAt<T>(r: seq<T>, xs: seq<T>, items: seq<T>, f: T -> T, i: nat)
    requires |r| == |xs| == |items| && i <= |items|
    requires forall k :: 0 <= k < i ==> xs[k] == f(items[k]) && r[k] == f(items[k])
    requires i < |items| ==> xs[i] == r[i] && r[i + 1..] == items[i + 1..]
    requires forall k :: i < k < |items| ==> xs[k] == items[k]
    ensures xs == r
  {
    if i < |items| {
      SameSuffix(r, items, i + 1);
    }
    assert forall k :: 0 <= k < |xs| ==> xs[k] == r[k];
  }

  /** A prefix one longer is the prefix followed by the next element. */
  lemma TakeStep<T>(xs: seq<T>, i: nat)
    requires i < |xs|
    ensures xs[..i + 1] == xs[..i] + [xs[i]]
  {
  }

  lemma PosSnoc<T>(xs: seq<T>, y: T, x: T)
    requires x in xs
    ensures Pos(xs + [y], x) == Pos(xs, x)
  {
    var p := Pos(xs, x);
    assert (xs + [y])[..p] == xs[..p];
    assert (xs + [y])[p] == x;
  }

  /** `seen = set(); [x for x in xs if not (x in seen or seen.add(x))]` */
  function Dedup<T(==)>(xs: seq<T>): (r: seq<T>)
    ensures NoDup(r)
    ensures forall i | 0 <= i < |r| :: r[i] in xs
    ensures forall i | 0 <= i < |xs| :: xs[i] in r
    decreases |xs|
  {
    if xs == [] then []
    else
      var front := xs[..|xs| - 1];
      var x := xs[|xs| - 1];
      assert xs == front + [x];
      var d := Dedup(front);
      if x in d then d else d + [x]
  }

  lemma DedupStep<T>(xs: seq<T>, i: nat)
    requires i < |xs|
    ensures Dedup(xs[..i + 1]) == if xs[i] in Dedup(xs[..i]) then Dedup(xs[..i]) else Dedup(xs[..i]) + [xs[i]]
  {
    assert xs[..i + 1][..i] == xs[..i];
  }

  lemma DedupSnoc<T>(xs: seq<T>, x: T)
    ensures Dedup(xs + [x]) == if x in Dedup(xs) then Dedup(xs) else Dedup(xs) + [x]
  {
    assert (xs + [x])[..|xs|] == xs;
  }

  /** De-duplication keeps first-occurrence order: earlier in the result means first seen earlier. */
  lemma {:induction false} DedupFirstOccurrence<T>(xs: seq<T>, i: nat, j: nat)
    requires i < j < |Dedup(xs)|
    ensures Pos(xs, Dedup(xs)[i]) < Pos(xs, Dedup(xs)[j])
    decreases |xs|
  {
    var front := xs[..|xs| - 1];
    var x := xs[|xs| - 1];
    assert xs == front + [x];
    var d := Dedup(front);
    var a, b := Dedup(xs)[i], Dedup(xs)[j];
    assert a in d;
    PosSnoc(front, x, a);
    if j < |d| {
      DedupFirstOccurrence(front, i, j);
      PosSnoc(front, x, b);
    } else {
      assert b == x && x !in front;
      assert forall k | 0 <= k < |front| :: xs[k] == front[k];
    }
  }

  /** The `seen`-set loop computes `Dedup`. */
  method DedupLoop<T(==)>(xs: seq<T>) returns (r: seq<T>)
    ensures r == Dedup(xs)
  {
    var seen: set<T> := {};
    r := [];
    var i := 0;
    while i < |xs|
      invariant 0 <= i <= |xs|
      invariant r == Dedup(xs[..i])
      invariant forall x :: x in seen <==> x in r
    {
      DedupStep(xs, i);
      if xs[i] !in seen {
        r := r + [xs[i]];
        seen := seen + {xs[i]};
      }
      i := i + 1;
    }
    assert xs[..i] == xs;
  }

  /** The dict a loop of assignments `m[k] = v` builds, one pair at a time. */
  function Assigned<K, V>(ps: seq<(K, V)>): (m: map<K, V>)
    ensures forall i | 0 <= i < |ps| :: ps[i].0 in m
    ensures forall k | k in m :: exists i | 0 <= i < |ps| :: ps[i].0 == k
    decreases |ps|
  {
    if ps == [] then map[]
    else
      var last := ps[|ps| - 1];
      var m := Assigned(ps[..|ps| - 1]);
      assert forall k | k in m :: exists i | 0 <= i < |ps| :: ps[i].0 == k by {
        forall k | k in m ensures exists i | 0 <= i < |ps| :: ps[i].0 == k {
          var i :| 0 <= i < |ps| - 1 && ps[..|ps| - 1][i].0 == k;
          assert ps[i].0 == k;
        }
      }
      m[last.0 := last.1]
  }

  /** The last assignment to a key wins. */
  lemma {:induction false} LastWins<K, V>(ps: seq<(K, V)>, i: nat)
    requires i < |ps|
    requires forall j | i < j < |ps| :: ps[j].0 != ps[i].0
    ensures Assigned(ps)[ps[i].0] == ps[i].1
    decreases |ps|
  {
    if i < |ps| - 1 {
      LastWins(ps[..|ps| - 1], i);
    }
  }

  lemma AssignedSnoc<K, V>(ps: seq<(K, V)>, p: (K, V))
    ensures Assigned(ps + [p]) == Assigned(ps)[p.0 := p.1]
  {
    assert (ps + [p])[..|ps|] == ps;
  }

  /** A key assigned somewhere in `b`, where every value of `b` is `v`, ends up with `v`. */
  lemma AssignedSuffix<K, V>(a: seq<(K, V)>, b: seq<(K, V)>, k: K, v: V)
    requires exists j | 0 <= j < |b| :: b[j].0 == k
    requires forall j | 0 <= j < |b| :: b[j].1 == v
    ensures k in Assigned(a + b) && Assigned(a + b)[k] == v
  {
    var j :| 0 <= j < |b| && b[j].0 == k;
    assert (a + b)[|a| + j] == b[j];
    assert forall i | |a| <= i < |a + b| :: (a + b)[i] == b[i - |a|];
    AssignedFrom(a + b, |a|, k, v);
  }

  /** A key assigned at or after `lo`, where every value from `lo` on is `v`, ends up with `v`. */
  lemma {:induction false} AssignedFrom<K, V>(ps: seq<(K, V)>, lo: nat, k: K, v: V)
    requires lo <= |ps|
    requires exists j | lo <= j < |ps| :: ps[j].0 == k
    requires forall j | lo <= j < |ps| :: ps[j].1 == v
    ensures k in Assigned(ps) && Assigned(ps)[k] == v
    decreases |ps|
  {
    var j :| lo <= j < |ps| && ps[j].0 == k;
    var front := ps[..|ps| - 1];
    if ps[|ps| - 1].0 != k {
      assert j < |front| && front[j] == ps[j];
      assert forall i | lo <= i < |front| :: front[i] == ps[i];
      AssignedFrom(front, lo, k, v);
    }
  }

  /** Assignments to other keys leave a key alone. */
  lemma {:induction false} AssignedSkip<K, V>(a: seq<(K, V)>, b: seq<(K, V)>, k: K)
    requires forall j | 0 <= j < |b| :: b[j].0 != k
    ensures (k in Assigned(a + b)) == (k in Assigned(a))
    ensures k in Assigned(a) ==> Assigned(a + b)[k] == Assigned(a)[k]
    decreases |b|
  {
    if b != [] {
      var front := b[..|b| - 1];
      var last := b[|b| - 1];
      assert a + b == (a + front) + [last];
      AssignedSnoc(a + front, last);
      AssignedSkip(a, front, k);
    } else {
      assert a + b == a;
    }
  }

  /** Every value the assignments leave satisfies what every assigned value satisfies. */
  lemma {:induction false} AssignedValues<K, V>(ps: seq<(K, V)>, p: V -> bool)
    requires forall i | 0 <= i < |ps| :: p(ps[i].1)
    ensures forall k | k in Assigned(ps) :: p(Assigned(ps)[k])
    decreases |ps|
  {
    if ps != [] {
      AssignedValues(ps[..|ps| - 1], p);
    }
  }
}
