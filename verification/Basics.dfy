/** Options, bytes, ideal digests, sums over finite maps and counts over finite maps. */
module Basics {

  datatype Option<+T> = None | Some(value: T)

  newtype Byte = x: int | 0 <= x < 256
  type Bytes = seq<Byte>

  // Python strings are sequences of code points, lone surrogates included.
  newtype Code = x: int | 0 <= x < 0x11_0000
  type Text = seq<Code>

  // SHA-256 idealised as collision-free: a digest determines what was hashed.
  datatype Digest = Sha256(preimage: Bytes)

  // Microseconds since an arbitrary epoch that falls on a whole second.
  type Time = int

  /** The sum of a measure over the values of a finite map. */
  ghost function Sum<K(!new), V>(m: map<K, V>, f: V -> nat): nat
    decreases |m|
  {
    if m == map[] then 0 else
      var k :| k in m;
      f(m[k]) + Sum(m - {k}, f)
  }

  lemma {:induction false} SumSplit<K(!new), V>(m: map<K, V>, f: V -> nat, k: K)
    requires k in m
    ensures Sum(m, f) == f(m[k]) + Sum(m - {k}, f)
    decreases |m|
  {
    var j :| j in m && Sum(m, f) == f(m[j]) + Sum(m - {j}, f);
    if j != k {
      SumSplit(m - {j}, f, k);
      SumSplit(m - {k}, f, j);
      assert m - {j} - {k} == m - {k} - {j};
    }
  }

  lemma SumUpdate<K(!new), V>(m: map<K, V>, f: V -> nat, k: K, v: V)
    ensures Sum(m[k := v], f) == f(v) + Sum(m - {k}, f)
    ensures k !in m ==> Sum(m[k := v], f) == f(v) + Sum(m, f)
    ensures k in m ==> Sum(m[k := v], f) + f(m[k]) == f(v) + Sum(m, f)
  {
    SumSplit(m[k := v], f, k);
    assert m[k := v] - {k} == m - {k};
    if k in m {
      SumSplit(m, f, k);
    } else {
      assert m - {k} == m;
    }
  }

  /** A map with fewer keys that measure no more has no larger sum. */
  lemma {:induction false} SumMonotone<K(!new), V>(m: map<K, V>, f: V -> nat, n: map<K, V>, g: V -> nat)
    requires forall k :: k in m ==> k in n && f(m[k]) <= g(n[k])
    ensures Sum(m, f) <= Sum(n, g)
    decreases |n|
  {
    if n == map[] {
      assert m == map[];
    } else {
      var k :| k in n;
      SumSplit(n, g, k);
      if k in m {
        SumSplit(m, f, k);
      } else {
        assert m - {k} == m;
      }
      SumMonotone(m - {k}, f, n - {k}, g);
    }
  }

  /** The keys of a finite map whose value satisfies a predicate. */
  ghost function Where<K, V>(m: map<K, V>, p: V -> bool): set<K> {
    set k | k in m && p(m[k])
  }

  ghost function Count<K, V>(m: map<K, V>, p: V -> bool): nat {
    |Where(m, p)|
  }

  lemma CardinalInsert<K>(s: set<K>, k: K)
    requires k !in s
    ensures |s + {k}| == |s| + 1
  {
  }

  /** Re-binding one key moves a count by exactly what that key contributes. */
  lemma CountUpdate<K, V>(m: map<K, V>, k: K, v: V, p: V -> bool)
    requires k in m
    ensures Count(m[k := v], p) + (if p(m[k]) then 1 else 0) == Count(m, p) + (if p(v) then 1 else 0)
  {
    var rest := Where(m, p) - {k};
    CardinalInsert(rest, k);
    assert Where(m, p) == if p(m[k]) then rest + {k} else rest;
    assert Where(m[k := v], p) == if p(v) then rest + {k} else rest;
  }

  lemma CountInsert<K, V>(m: map<K, V>, k: K, v: V, p: V -> bool)
    requires k !in m && !p(v)
    ensures Count(m[k := v], p) == Count(m, p)
  {
    assert Where(m[k := v], p) == Where(m, p);
  }

  /** A listing enumerates the keys of a map when it names each of them once. */
  ghost predicate Enumerates<K(!new), V>(listing: seq<K>, m: map<K, V>) {
    && Distinct(listing)
    && (forall k :: k in listing <==> k in m)
  }

  /** No element occurs twice. */
  ghost predicate Distinct<K>(ids: seq<K>) { ids == [] || (ids[0] !in ids[1..] && Distinct(ids[1..])) }

  function Filter<K>(ids: seq<K>, p: K -> bool): seq<K> {
    if ids == [] then [] else (if p(ids[0]) then [ids[0]] else []) + Filter(ids[1..], p)
  }

  lemma {:induction false} FilterKeeps<K>(ids: seq<K>, p: K -> bool)
    ensures forall k :: k in Filter(ids, p) <==> k in ids && p(k)
  {
    if ids != [] {
      FilterKeeps(ids[1..], p);
      assert ids == [ids[0]] + ids[1..];
    }
  }

  lemma FilterFirst<K>(k: K, ids: seq<K>, p: K -> bool)
    ensures Filter([k] + ids, p) == (if p(k) then [k] else []) + Filter(ids, p)
  {
    assert ([k] + ids)[1..] == ids;
  }

  lemma {:induction false} FilterAppend<K>(a: seq<K>, b: seq<K>, p: K -> bool)
    ensures Filter(a + b, p) == Filter(a, p) + Filter(b, p)
  {
    if a == [] {
      assert a + b == b;
    } else {
      var rest := a[1..];
      FilterAppend(rest, b, p);
      FilterFirst(a[0], rest, p);
      FilterFirst(a[0], rest + b, p);
      assert a == [a[0]] + rest && a + b == [a[0]] + (rest + b);
    }
  }

  lemma {:induction false} FilterDistinct<K>(ids: seq<K>, p: K -> bool)
    requires Distinct(ids)
    ensures Distinct(Filter(ids, p))
  {
    if ids != [] {
      FilterDistinct(ids[1..], p);
      FilterKeeps(ids[1..], p);
      var rest := Filter(ids[1..], p);
      assert ids[0] !in rest;
      assert ([ids[0]] + rest)[1..] == rest && [] + rest == rest;
    }
  }

  /** The sum of a measure along a listing; names that are not bound count for nothing. */
  function SeqSum<K, V>(ids: seq<K>, m: map<K, V>, f: V -> nat): nat {
    if ids == [] then 0 else (if ids[0] in m then f(m[ids[0]]) else 0) + SeqSum(ids[1..], m, f)
  }

  lemma SeqSumFirst<K, V>(k: K, ids: seq<K>, m: map<K, V>, f: V -> nat)
    ensures SeqSum([k] + ids, m, f) == (if k in m then f(m[k]) else 0) + SeqSum(ids, m, f)
  {
    assert ([k] + ids)[1..] == ids;
  }

  lemma {:induction false} SeqSumAppend<K, V>(a: seq<K>, b: seq<K>, m: map<K, V>, f: V -> nat)
    ensures SeqSum(a + b, m, f) == SeqSum(a, m, f) + SeqSum(b, m, f)
  {
    if a == [] {
      assert a + b == b;
    } else {
      var rest := a[1..];
      SeqSumAppend(rest, b, m, f);
      SeqSumFirst(a[0], rest, m, f);
      SeqSumFirst(a[0], rest + b, m, f);
      assert a == [a[0]] + rest && a + b == [a[0]] + (rest + b);
    }
  }

  lemma {:induction false} SeqSumSame<K, V>(ids: seq<K>, m: map<K, V>, n: map<K, V>, f: V -> nat)
    requires forall k :: k in ids ==> (k in m <==> k in n) && (k in m ==> m[k] == n[k])
    ensures SeqSum(ids, m, f) == SeqSum(ids, n, f)
  {
    if ids != [] {
      assert ids[0] in ids;
      assert forall k :: k in ids[1..] ==> k in ids;
      SeqSumSame(ids[1..], m, n, f);
    }
  }

  /** Adding up along a listing is the sum over the map. */
  lemma {:induction false} SeqSumIsSum<K(!new), V>(ids: seq<K>, m: map<K, V>, f: V -> nat)
    requires Enumerates(ids, m)
    ensures SeqSum(ids, m, f) == Sum(m, f)
    decreases |ids|
  {
    if ids == [] {
      assert forall k :: k !in m;
      assert m == map[];
    } else {
      var k := ids[0];
      assert k in ids;
      SumSplit(m, f, k);
      assert forall j :: j in ids[1..] <==> j in ids && j != k;
      SeqSumIsSum(ids[1..], m - {k}, f);
      SeqSumSame(ids[1..], m, m - {k}, f);
    }
  }

  lemma {:induction false} SomeListing<K(!new), V>(m: map<K, V>) returns (ids: seq<K>)
    ensures Enumerates(ids, m)
    decreases |m|
  {
    if m == map[] {
      ids := [];
    } else {
      var k :| k in m;
      var rest := SomeListing(m - {k});
      ids := [k] + rest;
    }
  }

  /** A number above all of a finite set. */
  lemma {:induction false} Above(s: set<nat>) returns (m: nat)
    ensures forall x :: x in s ==> x < m
    decreases |s|
  {
    if s == {} {
      m := 0;
    } else {
      var x :| x in s;
      var rest := Above(s - {x});
      m := if rest > x then rest else x + 1;
      forall y | y in s ensures y < m { if y != x { assert y in s - {x}; } }
    }
  }

  // ---- runs of any transition system ----

  ghost predicate IsPath<S(!new), L(!new)>(states: seq<S>, labels: seq<L>, step: (S, L, S) -> bool) {
    && |states| == |labels| + 1
    && forall i :: 0 <= i < |labels| ==> step(states[i], labels[i], states[i + 1])
  }

  ghost predicate Preserves<S(!new), L(!new)>(step: (S, L, S) -> bool, inv: S -> bool) {
    forall s, l, s' :: inv(s) && step(s, l, s') ==> inv(s')
  }

  lemma {:induction false} PathKeeps<S(!new), L(!new)>(states: seq<S>, labels: seq<L>, step: (S, L, S) -> bool,
                                       inv: S -> bool, i: nat)
    requires IsPath(states, labels, step) && Preserves(step, inv) && inv(states[0]) && i < |states|
    ensures inv(states[i])
  {
    if i > 0 {
      PathKeeps(states, labels, step, inv, i - 1);
      assert step(states[i - 1], labels[i - 1], states[i - 1 + 1]);
    }
  }

  lemma PathPrepends<S(!new), L(!new)>(s: S, l: L, states: seq<S>, labels: seq<L>, step: (S, L, S) -> bool)
    requires IsPath(states, labels, step) && step(s, l, states[0])
    ensures IsPath([s] + states, [l] + labels, step)
  {
    var all, ls := [s] + states, [l] + labels;
    forall i | 0 <= i < |ls| ensures step(all[i], ls[i], all[i + 1]) {
      if i > 0 { assert step(states[i - 1], labels[i - 1], states[i - 1 + 1]); }
    }
  }

  lemma PathAppends<S(!new), L(!new)>(states: seq<S>, labels: seq<L>, l: L, s: S, step: (S, L, S) -> bool)
    requires IsPath(states, labels, step) && step(states[|labels|], l, s)
    ensures IsPath(states + [s], labels + [l], step)
  {
    var all, ls := states + [s], labels + [l];
    forall i | 0 <= i < |ls| ensures step(all[i], ls[i], all[i + 1]) {
      if i < |labels| { assert step(states[i], labels[i], states[i + 1]); }
    }
  }

  lemma PathConcat<S(!new), L(!new)>(a: seq<S>, la: seq<L>, b: seq<S>, lb: seq<L>, step: (S, L, S) -> bool)
    requires IsPath(a, la, step) && IsPath(b, lb, step) && a[|la|] == b[0]
    ensures IsPath(a + b[1..], la + lb, step) && (a + b[1..])[|la| + |lb|] == b[|lb|]
  {
    var all, ls := a + b[1..], la + lb;
    forall i | 0 <= i < |ls| ensures step(all[i], ls[i], all[i + 1]) {
      if i < |la| {
        assert step(a[i], la[i], a[i + 1]);
      } else {
        assert step(b[i - |la|], lb[i - |la|], b[i - |la| + 1]);
        assert all[i] == b[i - |la|];
      }
    }
  }

  /** Where each step that keeps an invariant can lead nearer the ground, a path leads down to it. */
  lemma {:induction false} PathDown<S(!new), L(!new)>(s: S, step: (S, L, S) -> bool, inv: S -> bool, height: S -> nat)
    returns (states: seq<S>, labels: seq<L>)
    requires inv(s)
    requires forall x :: inv(x) && height(x) > 0 ==> exists l, y :: step(x, l, y) && inv(y) && height(y) < height(x)
    ensures IsPath(states, labels, step) && states[0] == s
    ensures inv(states[|labels|]) && height(states[|labels|]) == 0
    decreases height(s)
  {
    if height(s) == 0 {
      states, labels := [s], [];
    } else {
      var l, y :| step(s, l, y) && inv(y) && height(y) < height(s);
      var states', labels' := PathDown(y, step, inv, height);
      states, labels := [s] + states', [l] + labels';
      PathPrepends(s, l, states', labels', step);
    }
  }

  /** What holds at one index and not at a later one stops holding somewhere between. */
  lemma {:induction false} WhereItEnds(p: nat -> bool, i: nat, j: nat) returns (m: nat)
    requires i <= j && p(i) && !p(j)
    ensures i <= m < j && p(m) && !p(m + 1)
    decreases j - i
  {
    if p(i + 1) {
      m := WhereItEnds(p, i + 1, j);
    } else {
      m := i;
    }
  }

  /** What holds at an index and passes from each index to the next holds from there on. */
  lemma {:induction false} Stays(p: nat -> bool, i: nat, j: nat)
    requires i <= j && p(i)
    requires forall m: nat :: i <= m < j && p(m) ==> p(m + 1)
    ensures p(j)
    decreases j
  {
    if i < j { Stays(p, i, j - 1); }
  }
}
