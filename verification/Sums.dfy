/** Sums over sequences and over the values of maps. */
module Sums {
  function SeqSum<V>(s: seq<V>, f: V -> nat): nat {
    if s == [] then 0 else SeqSum(s[..|s| - 1], f) + f(s[|s| - 1])
  }

  lemma {:induction false} SeqSumConcat<V>(a: seq<V>, b: seq<V>, f: V -> nat)
    ensures SeqSum(a + b, f) == SeqSum(a, f) + SeqSum(b, f)
  {
    if b == [] {
      assert a + b == a;
    } else {
      assert (a + b)[..|a + b| - 1] == a + b[..|b| - 1];
      SeqSumConcat(a, b[..|b| - 1], f);
    }
  }

  lemma SeqSumOne<V>(v: V, f: V -> nat)
    ensures SeqSum([v], f) == f(v)
  {
    assert [v][..0] == [];
  }

  /** Taking one element out of a sequence takes its share out of the sum. */
  lemma SeqSumWithout<V>(s: seq<V>, i: nat, f: V -> nat)
    requires i < |s|
    ensures SeqSum(s, f) == SeqSum(s[..i] + s[i + 1..], f) + f(s[i])
  {
    var before, after := s[..i], s[i + 1..];
    SeqSumConcat(before, after, f);
    SeqSumUpTo(s, i, f);
    SeqSumSplit(s, i + 1, f);
  }

  lemma SeqSumSplit<V>(s: seq<V>, i: nat, f: V -> nat)
    requires i <= |s|
    ensures SeqSum(s, f) == SeqSum(s[..i], f) + SeqSum(s[i..], f)
  {
    SeqSumConcat(s[..i], s[i..], f);
    assert s[..i] + s[i..] == s;
  }

  lemma SeqSumUpTo<V>(s: seq<V>, i: nat, f: V -> nat)
    requires i < |s|
    ensures SeqSum(s[..i + 1], f) == SeqSum(s[..i], f) + f(s[i])
  {
    assert s[..i + 1][..i] == s[..i];
  }

  ghost function MapSum<K, V>(m: map<K, V>, f: V -> nat): nat
    decreases |m|
  {
    if m == map[] then 0
    else
      var k :| k in m;
      f(m[k]) + MapSum(m - {k}, f)
  }

  /** Any key may be counted first. */
  lemma {:induction false} MapSumPick<K, V>(m: map<K, V>, f: V -> nat, k: K)
    requires k in m
    ensures MapSum(m, f) == f(m[k]) + MapSum(m - {k}, f)
    decreases |m|
  {
    var first :| first in m && MapSum(m, f) == f(m[first]) + MapSum(m - {first}, f);
    if first != k {
      MapSumPick(m - {first}, f, k);
      MapSumPick(m - {k}, f, first);
      assert m - {first} - {k} == m - {k} - {first};
    }
  }

  lemma MapSumUpdate<K, V>(m: map<K, V>, f: V -> nat, k: K, v: V)
    ensures MapSum(m[k := v], f) + (if k in m then f(m[k]) else 0) == MapSum(m, f) + f(v)
  {
    MapSumPick(m[k := v], f, k);
    assert m[k := v] - {k} == m - {k};
    if k in m {
      MapSumPick(m, f, k);
    } else {
      assert m - {k} == m;
    }
  }

  /** A map is summed in two parts: some keys, and the others. */
  lemma {:induction false} MapSumSplit<K, V>(m: map<K, V>, keys: set<K>, f: V -> nat)
    ensures MapSum(m, f) == MapSum(m - keys, f) + MapSum(map k | k in m && k in keys :: m[k], f)
    decreases |m|
  {
    var part := map k | k in m && k in keys :: m[k];
    if m == map[] {
      assert m - keys == map[] && part == map[];
    } else {
      var k :| k in m;
      var rest := m - {k};
      MapSumSplit(rest, keys, f);
      MapSumPick(m, f, k);
      var restPart := map x | x in rest && x in keys :: rest[x];
      if k in keys {
        MapSumPick(part, f, k);
        assert part - {k} == restPart && rest - keys == m - keys;
      } else {
        MapSumPick(m - keys, f, k);
        assert part == restPart && rest - keys == m - keys - {k};
      }
    }
  }

  /** Maps that agree key by key have the same sum. */
  lemma {:induction false} MapSumSame<K, V, W>(m: map<K, V>, f: V -> nat, n: map<K, W>, g: W -> nat)
    requires m.Keys == n.Keys && forall k | k in m :: f(m[k]) == g(n[k])
    ensures MapSum(m, f) == MapSum(n, g)
    decreases |m|
  {
    if m == map[] {
      assert n.Keys == {};
      assert n == map[];
    } else {
      var k :| k in m;
      MapSumPick(m, f, k);
      MapSumPick(n, g, k);
      assert (m - {k}).Keys == (n - {k}).Keys;
      MapSumSame(m - {k}, f, n - {k}, g);
    }
  }

  lemma {:induction false} SeqSumZero<V>(s: seq<V>, f: V -> nat)
    requires forall v | v in s :: f(v) == 0
    ensures SeqSum(s, f) == 0
  {
    if s != [] {
      SeqSumZero(s[..|s| - 1], f);
    }
  }

  lemma {:induction false} MapSumZero<K, V>(m: map<K, V>, f: V -> nat)
    requires forall k | k in m :: f(m[k]) == 0
    ensures MapSum(m, f) == 0
    decreases |m|
  {
    if m != map[] {
      var k :| k in m;
      MapSumPick(m, f, k);
      MapSumZero(m - {k}, f);
    }
  }
}
