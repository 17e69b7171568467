/** The `defaultdict` accumulations of tganalyzer/html_export/__init__.py,
    one row at a time: `d[k] += n` on a `defaultdict(int)`, the nested
    `d[a][b] += n`, and the plain writes `d[a][b] = v` on a
    `defaultdict(dict)`. */
module Tallies {
  import opened Counters

  /** `d[a]` on a `defaultdict` of dicts: the empty dict when absent. */
  function Inner<A, B, V>(m: map<A, map<B, V>>, a: A): map<B, V> {
    if a in m then m[a] else map[]
  }

  /** `d[k] += n` for every row `(k, n)` in turn, from an empty dict. */
  function Tally<K(==)>(rows: seq<(K, int)>): map<K, int>
    decreases |rows|
  {
    if rows == [] then map[]
    else
      var (k, n) := rows[|rows| - 1];
      Bump(Tally(rows[..|rows| - 1]), k, n)
  }

  /** The sum of the counts of the rows under key `k`. */
  ghost function Total<K>(rows: seq<(K, int)>, k: K): int
    decreases |rows|
  {
    if rows == [] then 0
    else Total(rows[..|rows| - 1], k) + (if rows[|rows| - 1].0 == k then rows[|rows| - 1].1 else 0)
  }

  /** The sum of all the counts. */
  ghost function SumAll<K>(rows: seq<(K, int)>): int
    decreases |rows|
  {
    if rows == [] then 0 else SumAll(rows[..|rows| - 1]) + rows[|rows| - 1].1
  }

  /** A tally holds exactly the keys of the rows, each with the sum of its
      counts, and its values add up to all the counts. */
  lemma {:induction false} TallyCounts<K>(rows: seq<(K, int)>)
    ensures forall k :: k in Tally(rows) <==> exists i :: 0 <= i < |rows| && rows[i].0 == k
    ensures forall k :: Get(Tally(rows), k) == Total(rows, k)
    ensures MapSum(Tally(rows)) == SumAll(rows)
    decreases |rows|
  {
    if rows != [] {
      var init := rows[..|rows| - 1];
      var (k, n) := rows[|rows| - 1];
      TallyCounts(init);
      MapSumBump(Tally(init), k, n);
      forall j ensures j in Tally(rows) <==> exists i :: 0 <= i < |rows| && rows[i].0 == j {
        if j in Tally(init) {
          var i :| 0 <= i < |init| && init[i].0 == j;
          assert rows[i] == init[i];
        }
        if exists i :: 0 <= i < |rows| && rows[i].0 == j {
          var i :| 0 <= i < |rows| && rows[i].0 == j;
          if i < |init| { assert init[i] == rows[i]; }
        }
      }
    }
  }

  /** The rows filed under `a`, with `a` dropped, in order. */
  function Under<A(==), B, V>(rows: seq<(A, B, V)>, a: A): seq<(B, V)>
    decreases |rows|
  {
    if rows == [] then []
    else
      var (x, b, v) := rows[|rows| - 1];
      Under(rows[..|rows| - 1], a) + (if x == a then [(b, v)] else [])
  }

  /** `d[a][b] += n` for every row `(a, b, n)` in turn, from an empty
      nested `defaultdict`. */
  function Tally2<A(==), B(==)>(rows: seq<(A, B, int)>): map<A, map<B, int>>
    decreases |rows|
  {
    if rows == [] then map[]
    else
      var (a, b, n) := rows[|rows| - 1];
      var m := Tally2(rows[..|rows| - 1]);
      m[a := Bump(Inner(m, a), b, n)]
  }

  /** The outer keys are the rows' first components, and the dict under
      each is the tally of the rows filed under it. */
  lemma {:induction false} Tally2Counts<A, B>(rows: seq<(A, B, int)>)
    ensures forall a :: a in Tally2(rows) <==> exists i :: 0 <= i < |rows| && rows[i].0 == a
    ensures forall a :: Inner(Tally2(rows), a) == Tally(Under(rows, a))
    decreases |rows|
  {
    if rows != [] {
      var init := rows[..|rows| - 1];
      var (x, b, n) := rows[|rows| - 1];
      Tally2Counts(init);
      forall a ensures Inner(Tally2(rows), a) == Tally(Under(rows, a)) {
        if a == x {
          assert Under(rows, a) == Under(init, a) + [(b, n)];
          assert (Under(init, a) + [(b, n)])[..|Under(init, a)|] == Under(init, a);
        } else {
          assert Under(rows, a) == Under(init, a);
          assert Inner(Tally2(rows), a) == Inner(Tally2(init), a);
        }
      }
      forall a ensures a in Tally2(rows) <==> exists i :: 0 <= i < |rows| && rows[i].0 == a {
        if a in Tally2(init) {
          var i :| 0 <= i < |init| && init[i].0 == a;
          assert rows[i] == init[i];
        }
        if exists i :: 0 <= i < |rows| && rows[i].0 == a {
          var i :| 0 <= i < |rows| && rows[i].0 == a;
          if i < |init| { assert init[i] == rows[i]; }
        }
      }
    }
  }

  /** `d[k] = v` for every row `(k, v)` in turn, from an empty dict. */
  function Writes<K, V>(rows: seq<(K, V)>): map<K, V>
    decreases |rows|
  {
    if rows == [] then map[]
    else
      var (k, v) := rows[|rows| - 1];
      Writes(rows[..|rows| - 1])[k := v]
  }

  /** `d[a][b] = v` for every row `(a, b, v)` in turn, on a
      `defaultdict(dict)`. */
  function Writes2<A, B, V>(rows: seq<(A, B, V)>): map<A, map<B, V>>
    decreases |rows|
  {
    if rows == [] then map[]
    else
      var (a, b, v) := rows[|rows| - 1];
      var m := Writes2(rows[..|rows| - 1]);
      m[a := Inner(m, a)[b := v]]
  }

  /** The dict under each outer key holds the writes filed under it. */
  lemma {:induction false} Writes2Inner<A, B, V>(rows: seq<(A, B, V)>)
    ensures forall a :: a in Writes2(rows) <==> exists i :: 0 <= i < |rows| && rows[i].0 == a
    ensures forall a :: Inner(Writes2(rows), a) == Writes(Under(rows, a))
    decreases |rows|
  {
    if rows != [] {
      var init := rows[..|rows| - 1];
      var (x, b, v) := rows[|rows| - 1];
      Writes2Inner(init);
      forall a ensures Inner(Writes2(rows), a) == Writes(Under(rows, a)) {
        if a == x {
          assert Under(rows, a) == Under(init, a) + [(b, v)];
          assert (Under(init, a) + [(b, v)])[..|Under(init, a)|] == Under(init, a);
        } else {
          assert Under(rows, a) == Under(init, a);
          assert Inner(Writes2(rows), a) == Inner(Writes2(init), a);
        }
      }
      forall a ensures a in Writes2(rows) <==> exists i :: 0 <= i < |rows| && rows[i].0 == a {
        if a in Writes2(init) {
          var i :| 0 <= i < |init| && init[i].0 == a;
          assert rows[i] == init[i];
        }
        if exists i :: 0 <= i < |rows| && rows[i].0 == a {
          var i :| 0 <= i < |rows| && rows[i].0 == a;
          if i < |init| { assert init[i] == rows[i]; }
        }
      }
    }
  }

  /** The written keys are the rows' keys. */
  lemma {:induction false} WritesKeys<K, V>(rows: seq<(K, V)>)
    ensures forall k :: k in Writes(rows) <==> exists i :: 0 <= i < |rows| && rows[i].0 == k
    decreases |rows|
  {
    if rows != [] {
      var init := rows[..|rows| - 1];
      WritesKeys(init);
      forall j ensures j in Writes(rows) <==> exists i :: 0 <= i < |rows| && rows[i].0 == j {
        if j in Writes(init) {
          var i :| 0 <= i < |init| && init[i].0 == j;
          assert rows[i] == init[i];
        }
        if exists i :: 0 <= i < |rows| && rows[i].0 == j {
          var i :| 0 <= i < |rows| && rows[i].0 == j;
          if i < |init| { assert init[i] == rows[i]; }
        }
      }
    }
  }

  /** Nothing is filed under `a` exactly when no row has the key `a`. */
  lemma {:induction false} UnderEmpty<A, B, V>(rows: seq<(A, B, V)>, a: A)
    ensures Under(rows, a) == [] <==> forall i :: 0 <= i < |rows| ==> rows[i].0 != a
    decreases |rows|
  {
    if rows != [] {
      var init := rows[..|rows| - 1];
      UnderEmpty(init, a);
      if Under(init, a) != [] {
        var i :| 0 <= i < |init| && init[i].0 == a;
        assert rows[i] == init[i];
      }
      forall i | 0 <= i < |init| ensures rows[i] == init[i] { }
    }
  }

  /** No key occurs twice. */
  predicate DistinctKeys<K(==), V>(rows: seq<(K, V)>) {
    forall i, j :: 0 <= i < j < |rows| ==> rows[i].0 != rows[j].0
  }

  /** With distinct keys, writing and adding up agree. */
  lemma {:induction false} WritesOfDistinct<K>(rows: seq<(K, int)>)
    requires DistinctKeys(rows)
    ensures Writes(rows) == Tally(rows)
    decreases |rows|
  {
    if rows != [] {
      var init := rows[..|rows| - 1];
      var (k, n) := rows[|rows| - 1];
      WritesOfDistinct(init);
      TallyCounts(init);
      forall i | 0 <= i < |init| ensures init[i].0 != k {
        assert init[i] == rows[i];
      }
    }
  }

  /** A key seen once in distinct rows is seen at most once under it. */
  lemma {:induction false} UnderDistinct<A, B, V>(rows: seq<(A, B, V)>, a: A)
    requires forall i, j :: 0 <= i < j < |rows| && rows[i].0 == rows[j].0 ==> rows[i].1 != rows[j].1
    ensures DistinctKeys(Under(rows, a))
    decreases |rows|
  {
    if rows != [] {
      var init := rows[..|rows| - 1];
      var (x, b, v) := rows[|rows| - 1];
      UnderDistinct(init, a);
      if x == a {
        UnderFrom(init, a);
        var u := Under(init, a);
        forall i | 0 <= i < |u| ensures u[i].0 != b {
          assert (a, u[i].0, u[i].1) in init;
          var k :| 0 <= k < |init| && init[k] == (a, u[i].0, u[i].1);
          assert rows[k] == init[k];
        }
      }
    }
  }

  /** Every row filed under `a` comes from a row of `rows`. */
  lemma {:induction false} UnderFrom<A, B, V>(rows: seq<(A, B, V)>, a: A)
    ensures forall i :: 0 <= i < |Under(rows, a)| ==> (a, Under(rows, a)[i].0, Under(rows, a)[i].1) in rows
    decreases |rows|
  {
    if rows != [] {
      var init := rows[..|rows| - 1];
      var (x, b, v) := rows[|rows| - 1];
      UnderFrom(init, a);
      var u := Under(rows, a);
      assert u == Under(init, a) + (if x == a then [(b, v)] else []);
      forall i | 0 <= i < |u| ensures (a, u[i].0, u[i].1) in rows {
        if i < |Under(init, a)| {
          assert u[i] == Under(init, a)[i];
          assert (a, u[i].0, u[i].1) in init;
        } else {
          assert u[i] == (b, v) && x == a;
          assert rows[|rows| - 1] == (a, b, v);
        }
      }
    }
  }
}
