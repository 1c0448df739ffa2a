/**
 * Insert-if-absent over a feed, the pattern behind every "seen set" and
 * "query by id, add when missing" loop: a key is inserted the first time it
 * appears, rows already present are never replaced.
 */
module Inserts {
  import opened Wrappers

  function InsertNew<K, X, V>(m: map<K, V>, xs: seq<X>, key: X -> Option<K>, row: X -> V): map<K, V>
    decreases |xs|
  {
    if xs == [] then m
    else
      var m' := InsertNew(m, xs[..|xs| - 1], key, row);
      var x := xs[|xs| - 1];
      if key(x).Some? && key(x).value !in m' then m'[key(x).value := row(x)] else m'
  }

  /** Some item of `xs` has key `k`. */
  predicate Mentions<K(==), X>(xs: seq<X>, key: X -> Option<K>, k: K) {
    exists i :: 0 <= i < |xs| && key(xs[i]) == Some(k)
  }

  /** The keys afterwards are the keys before plus every key in the feed. */
  lemma {:induction false} InsertNewKeys<K, X, V>(m: map<K, V>, xs: seq<X>, key: X -> Option<K>, row: X -> V, k: K)
    ensures k in InsertNew(m, xs, key, row) <==> k in m || Mentions(xs, key, k)
    decreases |xs|
  {
    if xs != [] {
      var p := xs[..|xs| - 1];
      InsertNewKeys(m, p, key, row, k);
      if Mentions(p, key, k) {
        var i :| 0 <= i < |p| && key(p[i]) == Some(k);
        assert xs[i] == p[i];
      }
    }
  }

  /** A row present before is never replaced. */
  lemma {:induction false} InsertNewKeeps<K, X, V>(m: map<K, V>, xs: seq<X>, key: X -> Option<K>, row: X -> V, k: K)
    requires k in m
    ensures k in InsertNew(m, xs, key, row) && InsertNew(m, xs, key, row)[k] == m[k]
    decreases |xs|
  {
    if xs != [] {
      InsertNewKeeps(m, xs[..|xs| - 1], key, row, k);
    }
  }

  /** A new key gets the row of its first occurrence in the feed. */
  lemma {:induction false} InsertNewFirst<K, X, V>(m: map<K, V>, xs: seq<X>, key: X -> Option<K>, row: X -> V, i: nat)
    requires i < |xs| && key(xs[i]).Some? && key(xs[i]).value !in m
    requires forall j :: 0 <= j < i ==> key(xs[j]) != key(xs[i])
    ensures var r := InsertNew(m, xs, key, row); key(xs[i]).value in r && r[key(xs[i]).value] == row(xs[i])
    decreases |xs|
  {
    var k := key(xs[i]).value;
    var p := xs[..|xs| - 1];
    if i == |xs| - 1 {
      InsertNewKeys(m, p, key, row, k);
    } else {
      assert p[i] == xs[i];
      forall j | 0 <= j < i ensures key(p[j]) != key(p[i]) {
        assert p[j] == xs[j];
      }
      InsertNewFirst(m, p, key, row, i);
    }
  }

  /** Feeding the same items again inserts nothing. */
  lemma {:induction false} InsertNewIdempotent<K, X, V>(m: map<K, V>, xs: seq<X>, key: X -> Option<K>, row: X -> V)
    ensures InsertNew(InsertNew(m, xs, key, row), xs, key, row) == InsertNew(m, xs, key, row)
  {
    var r := InsertNew(m, xs, key, row);
    forall k | Mentions(xs, key, k) ensures k in r {
      InsertNewKeys(m, xs, key, row, k);
    }
    InsertNewAllPresent(r, xs, key, row);
  }

  /** When every key of the feed is already present the map does not change. */
  lemma {:induction false} InsertNewAllPresent<K, X, V>(m: map<K, V>, xs: seq<X>, key: X -> Option<K>, row: X -> V)
    requires forall k :: Mentions(xs, key, k) ==> k in m
    ensures InsertNew(m, xs, key, row) == m
    decreases |xs|
  {
    if xs != [] {
      var p := xs[..|xs| - 1];
      forall k | Mentions(p, key, k) ensures k in m {
        var i :| 0 <= i < |p| && key(p[i]) == Some(k);
        assert xs[i] == p[i];
      }
      InsertNewAllPresent(m, p, key, row);
      var x := xs[|xs| - 1];
      if key(x).Some? {
        assert Mentions(xs, key, key(x).value);
      }
    }
  }

  /** Inserting only absent keys keeps every row already present. */
  lemma InsertNewKeepsOld<K, X, V>(m: map<K, V>, xs: seq<X>, key: X -> Option<K>, row: X -> V)
    ensures forall k :: k in m ==> k in InsertNew(m, xs, key, row) && InsertNew(m, xs, key, row)[k] == m[k]
  {
    forall k | k in m ensures k in InsertNew(m, xs, key, row) && InsertNew(m, xs, key, row)[k] == m[k] {
      InsertNewKeeps(m, xs, key, row, k);
    }
  }
  /** A property of every (key, row) pair, held by the map and by every new row, holds afterwards. */
  lemma {:induction false} InsertNewKeepsAll<K, X, V>(m: map<K, V>, xs: seq<X>, key: X -> Option<K>, row: X -> V,
                                                      ok: (K, V) -> bool)
    requires forall k :: k in m ==> ok(k, m[k])
    requires forall x :: key(x).Some? ==> ok(key(x).value, row(x))
    ensures forall k :: k in InsertNew(m, xs, key, row) ==> ok(k, InsertNew(m, xs, key, row)[k])
    decreases |xs|
  {
    if xs != [] {
      var p := xs[..|xs| - 1];
      InsertNewKeepsAll(m, p, key, row, ok);
      var m' := InsertNew(m, p, key, row);
      var x := xs[|xs| - 1];
      if key(x).Some? && key(x).value !in m' {
        var r := m'[key(x).value := row(x)];
        assert InsertNew(m, xs, key, row) == r;
        forall k | k in r ensures ok(k, r[k]) {
          if k != key(x).value {
            assert k in m';
            assert ok(k, m'[k]);
          } else {
            assert ok(key(x).value, row(x));
          }
        }
      }
    }
  }

  /** No key is ever removed. */
  lemma InsertNewGrows<K, X, V>(m: map<K, V>, xs: seq<X>, key: X -> Option<K>, row: X -> V)
    ensures m.Keys <= InsertNew(m, xs, key, row).Keys
  {
    forall k | k in m ensures k in InsertNew(m, xs, key, row) {
      InsertNewKeeps(m, xs, key, row, k);
    }
  }
}
