// Finite sums over database tables (maps) and over event lists (sequences).
module Sums {

  /** SUM(f(row)) over all rows of a table. */
  ghost function MapSum<K, V>(m: map<K, V>, f: (K, V) -> int): int
    decreases |m|
  {
    if m == map[] then 0
    else
      var k :| k in m;
      f(k, m[k]) + MapSum(m - {k}, f)
  }

  /** SUM(f(x)) over the elements of a list. */
  function SeqSum<T>(s: seq<T>, f: T -> int): int {
    if s == [] then 0 else SeqSum(s[..|s| - 1], f) + f(s[|s| - 1])
  }

  lemma {:induction false} MapSumSplit<K, V>(m: map<K, V>, f: (K, V) -> int, k: K)
    requires k in m
    ensures MapSum(m, f) == f(k, m[k]) + MapSum(m - {k}, f)
    decreases |m|
  {
    var k0 :| k0 in m && MapSum(m, f) == f(k0, m[k0]) + MapSum(m - {k0}, f);
    if k0 != k {
      MapSumSplit(m - {k0}, f, k);
      MapSumSplit(m - {k}, f, k0);
      assert m - {k0} - {k} == m - {k} - {k0};
    }
  }

  lemma {:induction false} MapSumInsert<K, V>(m: map<K, V>, f: (K, V) -> int, k: K, v: V)
    requires k !in m
    ensures MapSum(m[k := v], f) == MapSum(m, f) + f(k, v)
  {
    MapSumSplit(m[k := v], f, k);
    assert m[k := v] - {k} == m;
  }

  lemma {:induction false} MapSumUpdate<K, V>(m: map<K, V>, f: (K, V) -> int, k: K, v: V)
    requires k in m
    ensures MapSum(m[k := v], f) == MapSum(m, f) - f(k, m[k]) + f(k, v)
  {
    MapSumSplit(m, f, k);
    MapSumSplit(m[k := v], f, k);
    assert m[k := v] - {k} == m - {k};
  }

  lemma {:induction false} MapSumLe<K, V>(m: map<K, V>, f: (K, V) -> int, g: (K, V) -> int)
    requires forall k :: k in m ==> f(k, m[k]) <= g(k, m[k])
    ensures MapSum(m, f) <= MapSum(m, g)
    decreases |m|
  {
    if m != map[] {
      var k :| k in m;
      MapSumSplit(m, f, k);
      MapSumSplit(m, g, k);
      MapSumLe(m - {k}, f, g);
    }
  }

  lemma {:induction false} MapSumCongr<K, V>(m: map<K, V>, f: (K, V) -> int, g: (K, V) -> int)
    requires forall k :: k in m ==> f(k, m[k]) == g(k, m[k])
    ensures MapSum(m, f) == MapSum(m, g)
  {
    MapSumLe(m, f, g);
    MapSumLe(m, g, f);
  }

  lemma {:induction false} MapSumNonneg<K, V>(m: map<K, V>, f: (K, V) -> int)
    requires forall k :: k in m ==> 0 <= f(k, m[k])
    ensures 0 <= MapSum(m, f)
    decreases |m|
  {
    if m != map[] {
      var k :| k in m;
      MapSumSplit(m, f, k);
      MapSumNonneg(m - {k}, f);
    }
  }

  /** Two weights that differ on one row only. */
  lemma {:induction false} MapSumDiffAt<K, V>(m: map<K, V>, f: (K, V) -> int, g: (K, V) -> int, k: K)
    requires k in m
    requires forall i :: i in m && i != k ==> f(i, m[i]) == g(i, m[i])
    ensures MapSum(m, g) == MapSum(m, f) - f(k, m[k]) + g(k, m[k])
  {
    MapSumSplit(m, f, k);
    MapSumSplit(m, g, k);
    MapSumCongr(m - {k}, f, g);
  }

  lemma {:induction false} MapSumPlus<K, V>(m: map<K, V>, f: (K, V) -> int, g: (K, V) -> int, h: (K, V) -> int)
    requires forall k :: k in m ==> h(k, m[k]) == f(k, m[k]) + g(k, m[k])
    ensures MapSum(m, h) == MapSum(m, f) + MapSum(m, g)
    decreases |m|
  {
    if m != map[] {
      var k :| k in m;
      MapSumSplit(m, f, k);
      MapSumSplit(m, g, k);
      MapSumSplit(m, h, k);
      MapSumPlus(m - {k}, f, g, h);
    }
  }

  /** A non-negative sum over a table that only gained rows did not shrink; if it is even
      unchanged, every row gained has weight zero. */
  lemma {:induction false} MapSumGrows<K, V>(m: map<K, V>, n: map<K, V>, f: (K, V) -> int)
    requires forall k :: k in m ==> k in n && n[k] == m[k]
    requires forall k :: k in n ==> 0 <= f(k, n[k])
    ensures MapSum(m, f) <= MapSum(n, f)
    ensures MapSum(m, f) == MapSum(n, f) ==> forall k :: k in n && k !in m ==> f(k, n[k]) == 0
    decreases |m|
  {
    if m == map[] {
      MapSumNonneg(n, f);
      assert MapSum(m, f) == 0;
      forall k | k in n ensures f(k, n[k]) <= MapSum(n, f) {
        MapSumSplit(n, f, k);
        MapSumNonneg(n - {k}, f);
      }
    } else {
      var k :| k in m;
      MapSumSplit(m, f, k);
      MapSumSplit(n, f, k);
      var rest := n - {k};
      MapSumGrows(m - {k}, rest, f);
      assert forall i :: i in n && i !in m ==> i in rest && i !in m - {k} && rest[i] == n[i];
    }
  }

  /** Rows of weight zero do not matter. */
  lemma {:induction false} MapSumExtraZero<K, V>(m: map<K, V>, n: map<K, V>, f: (K, V) -> int)
    requires forall k :: k in m ==> k in n && n[k] == m[k]
    requires forall k :: k in n && k !in m ==> f(k, n[k]) == 0
    ensures MapSum(m, f) == MapSum(n, f)
    decreases |m|
  {
    if m == map[] {
      var zero := (k: K, v: V) => 0;
      MapSumCongr(n, f, zero);
      MapSumZero(n, zero);
    } else {
      var k :| k in m;
      MapSumSplit(m, f, k);
      MapSumSplit(n, f, k);
      MapSumExtraZero(m - {k}, n - {k}, f);
    }
  }

  lemma {:induction false} MapSumZero<K, V>(m: map<K, V>, f: (K, V) -> int)
    requires forall k :: k in m ==> f(k, m[k]) == 0
    ensures MapSum(m, f) == 0
    decreases |m|
  {
    if m != map[] {
      var k :| k in m;
      MapSumSplit(m, f, k);
      MapSumZero(m - {k}, f);
    }
  }

  lemma {:induction false} SeqSumAppend<T>(s: seq<T>, t: seq<T>, f: T -> int)
    ensures SeqSum(s + t, f) == SeqSum(s, f) + SeqSum(t, f)
    decreases |t|
  {
    if t == [] {
      assert s + t == s;
    } else {
      assert (s + t)[..|s + t| - 1] == s + t[..|t| - 1];
      SeqSumAppend(s, t[..|t| - 1], f);
    }
  }

  lemma {:induction false} SeqSumLe<T>(s: seq<T>, f: T -> int, g: T -> int)
    requires forall x :: x in s ==> f(x) <= g(x)
    ensures SeqSum(s, f) <= SeqSum(s, g)
    decreases |s|
  {
    if s != [] {
      SeqSumLe(s[..|s| - 1], f, g);
    }
  }

  lemma {:induction false} SeqSumPlus<T>(s: seq<T>, f: T -> int, g: T -> int, h: T -> int)
    requires forall x :: x in s ==> h(x) == f(x) + g(x)
    ensures SeqSum(s, h) == SeqSum(s, f) + SeqSum(s, g)
    decreases |s|
  {
    if s != [] {
      SeqSumPlus(s[..|s| - 1], f, g, h);
    }
  }

  /** A list injects into a table: every element of positive weight is covered by its own row. */
  lemma {:induction false} SeqIntoMap<T, K, V>(s: seq<T>, f: T -> int, m: map<K, V>, g: (K, V) -> int, key: T -> K)
    requires forall k :: k in m ==> 0 <= g(k, m[k])
    requires forall i :: 0 <= i < |s| && f(s[i]) > 0 ==> key(s[i]) in m && f(s[i]) <= g(key(s[i]), m[key(s[i])])
    requires forall i, j :: 0 <= i < j < |s| && f(s[i]) > 0 && f(s[j]) > 0 ==> key(s[i]) != key(s[j])
    ensures SeqSum(s, f) <= MapSum(m, g)
    decreases |s|
  {
    if s == [] {
      MapSumNonneg(m, g);
    } else {
      var init, last := s[..|s| - 1], s[|s| - 1];
      if f(last) <= 0 {
        SeqIntoMap(init, f, m, g, key);
      } else {
        MapSumSplit(m, g, key(last));
        SeqIntoMap(init, f, m - {key(last)}, g, key);
      }
    }
  }

  /** A table injects into a list: every row of positive weight has an element of at least that weight. */
  lemma {:induction false} MapIntoSeq<T, K, V>(m: map<K, V>, g: (K, V) -> int, s: seq<T>, f: T -> int, key: T -> K)
    requires forall x :: x in s ==> 0 <= f(x)
    requires forall k :: k in m && g(k, m[k]) > 0 ==> exists i :: 0 <= i < |s| && key(s[i]) == k
    requires forall i :: 0 <= i < |s| && key(s[i]) in m ==> g(key(s[i]), m[key(s[i])]) <= f(s[i])
    ensures MapSum(m, g) <= SeqSum(s, f)
    decreases |s|
  {
    if s == [] {
      var zero := (k: K, v: V) => 0;
      MapSumLe(m, g, zero);
      MapSumZero(m, zero);
    } else {
      var init, last := s[..|s| - 1], s[|s| - 1];
      if key(last) in m {
        MapSumSplit(m, g, key(last));
        var rest := m - {key(last)};
        forall k | k in rest && g(k, rest[k]) > 0 ensures exists i :: 0 <= i < |init| && key(init[i]) == k {
          var i :| 0 <= i < |s| && key(s[i]) == k;
          assert init[i] == s[i];
        }
        MapIntoSeq(rest, g, init, f, key);
      } else {
        forall k | k in m && g(k, m[k]) > 0 ensures exists i :: 0 <= i < |init| && key(init[i]) == k {
          var i :| 0 <= i < |s| && key(s[i]) == k;
          assert init[i] == s[i];
        }
        MapIntoSeq(m, g, init, f, key);
      }
    }
  }
}
