/**
 * Keeping the first element of each key, in order: what filling an
 * insertion-ordered map while skipping keys already present leaves in it.
 */
module Dedup {

  /** The elements of `xs` kept when the keys in `seen` are already taken. */
  function KeptFrom<T, K(==)>(xs: seq<T>, key: T -> K, seen: set<K>): (r: seq<T>)
    ensures |r| <= |xs|
  {
    if xs == [] then []
    else if key(xs[0]) in seen then KeptFrom(xs[1..], key, seen)
    else [xs[0]] + KeptFrom(xs[1..], key, seen + {key(xs[0])})
  }

  /** The index of the first element with key `k`, or `|xs|` when there is none. */
  function FirstIndex<T, K(==)>(xs: seq<T>, key: T -> K, k: K): (i: nat)
    ensures i <= |xs|
    ensures i < |xs| ==> key(xs[i]) == k
    ensures forall j :: 0 <= j < i ==> key(xs[j]) != k
  {
    if xs == [] then 0 else if key(xs[0]) == k then 0 else 1 + FirstIndex(xs[1..], key, k)
  }

  ghost function KeySet<T, K>(xs: seq<T>, key: T -> K): set<K>
  {
    set j | 0 <= j < |xs| :: key(xs[j])
  }

  /** One step of a loop that walks `xs` and skips taken keys. */
  lemma KeptFromAdvance<T, K>(xs: seq<T>, key: T -> K, i: nat, kept: seq<T>, seen: set<K>)
    requires i < |xs|
    ensures var k := key(xs[i]);
      kept + KeptFrom(xs[i..], key, seen) ==
      if k in seen then kept + KeptFrom(xs[i + 1..], key, seen)
      else (kept + [xs[i]]) + KeptFrom(xs[i + 1..], key, seen + {k})
  {
    assert xs[i..][1..] == xs[i + 1..];
  }

  /** No element of `r` has a key in `seen`. */
  ghost predicate AvoidsKeys<T, K>(r: seq<T>, key: T -> K, seen: set<K>)
  {
    forall j :: 0 <= j < |r| ==> key(r[j]) !in seen
  }

  /** The elements of `r` have pairwise distinct keys. */
  ghost predicate DistinctKeys<T, K>(r: seq<T>, key: T -> K)
  {
    forall j1, j2 :: 0 <= j1 < j2 < |r| ==> key(r[j1]) != key(r[j2])
  }

  /** Every key of `xs` is in `seen` or is the key of an element of `r`. */
  ghost predicate CoversKeys<T, K>(xs: seq<T>, key: T -> K, seen: set<K>, r: seq<T>)
  {
    forall i :: 0 <= i < |xs| ==> key(xs[i]) in seen || key(xs[i]) in KeySet(r, key)
  }

  /**
   * The elements kept when the keys in `seen` are taken have new, pairwise
   * distinct keys, and every key of `xs` is either taken or kept.
   */
  lemma {:induction false} KeptFromKeys<T, K>(xs: seq<T>, key: T -> K, seen: set<K>)
    ensures AvoidsKeys(KeptFrom(xs, key, seen), key, seen)
    ensures DistinctKeys(KeptFrom(xs, key, seen), key)
    ensures CoversKeys(xs, key, seen, KeptFrom(xs, key, seen))
    decreases |xs|
  {
    if xs != [] {
      var k0, tail := key(xs[0]), xs[1..];
      var r := KeptFrom(xs, key, seen);
      if k0 in seen {
        KeptFromKeys(tail, key, seen);
        assert r == KeptFrom(tail, key, seen);
        forall i | 0 < i < |xs| ensures key(xs[i]) in seen || key(xs[i]) in KeySet(r, key) {
          assert xs[i] == tail[i - 1];
        }
      } else {
        var seen' := seen + {k0};
        var rest := KeptFrom(tail, key, seen');
        KeptFromKeys(tail, key, seen');
        assert r == [xs[0]] + rest;
        assert AvoidsKeys(rest, key, seen');
        forall j | 0 < j < |r| ensures r[j] == rest[j - 1] && key(r[j]) != k0 && key(r[j]) !in seen {
          assert key(rest[j - 1]) !in seen';
        }
        assert DistinctKeys(rest, key);
        forall j1, j2 | 0 <= j1 < j2 < |r| ensures key(r[j1]) != key(r[j2]) {
          if j1 > 0 {
            assert key(rest[j1 - 1]) != key(rest[j2 - 1]);
          }
        }
        assert CoversKeys(tail, key, seen', rest);
        forall i | 0 <= i < |xs| ensures key(xs[i]) in seen || key(xs[i]) in KeySet(r, key) {
          if i == 0 {
            assert key(r[0]) == k0;
          } else {
            assert xs[i] == tail[i - 1];
            if key(xs[i]) in KeySet(rest, key) {
              var j :| 0 <= j < |rest| && key(rest[j]) == key(xs[i]);
              assert key(r[j + 1]) == key(xs[i]);
            } else if key(xs[i]) !in seen {
              assert key(r[0]) == key(xs[i]);
            }
          }
        }
      }
    }
  }

  /** Each element of `r` is the first element of `xs` with its key. */
  ghost predicate AreFirstOccurrences<T, K>(xs: seq<T>, key: T -> K, r: seq<T>)
  {
    forall j :: 0 <= j < |r| ==>
      FirstIndex(xs, key, key(r[j])) < |xs| && xs[FirstIndex(xs, key, key(r[j]))] == r[j]
  }

  /** The elements of `r` come in the order of their first appearance in `xs`. */
  ghost predicate InFirstAppearanceOrder<T, K>(xs: seq<T>, key: T -> K, r: seq<T>)
  {
    forall j1, j2 :: 0 <= j1 < j2 < |r| ==>
      FirstIndex(xs, key, key(r[j1])) < FirstIndex(xs, key, key(r[j2]))
  }

  /**
   * Each kept element is the first element of `xs` with its key, and they
   * come in the order of those first elements.
   */
  lemma {:induction false} KeptFromFirstOccurrences<T, K>(xs: seq<T>, key: T -> K, seen: set<K>)
    ensures AreFirstOccurrences(xs, key, KeptFrom(xs, key, seen))
    ensures InFirstAppearanceOrder(xs, key, KeptFrom(xs, key, seen))
    decreases |xs|
  {
    if xs != [] {
      var k0, tail := key(xs[0]), xs[1..];
      var r := KeptFrom(xs, key, seen);
      KeptFromKeys(xs, key, seen);
      if k0 in seen {
        KeptFromFirstOccurrences(tail, key, seen);
        assert r == KeptFrom(tail, key, seen);
        forall j | 0 <= j < |r|
          ensures FirstIndex(xs, key, key(r[j])) == 1 + FirstIndex(tail, key, key(r[j]))
        {
        }
      } else {
        var rest := KeptFrom(tail, key, seen + {k0});
        KeptFromFirstOccurrences(tail, key, seen + {k0});
        assert r == [xs[0]] + rest;
        assert FirstIndex(xs, key, key(r[0])) == 0;
        forall j | 0 < j < |r|
          ensures r[j] == rest[j - 1]
          ensures FirstIndex(xs, key, key(r[j])) == 1 + FirstIndex(tail, key, key(rest[j - 1]))
        {
          assert key(r[j]) != key(r[0]);
        }
        forall j | 0 <= j < |r|
          ensures FirstIndex(xs, key, key(r[j])) < |xs| && xs[FirstIndex(xs, key, key(r[j]))] == r[j]
        {
          if j > 0 {
            var f := FirstIndex(tail, key, key(rest[j - 1]));
            assert f < |tail| && tail[f] == rest[j - 1];
            assert xs[1 + f] == tail[f];
          }
        }
        forall j1, j2 | 0 <= j1 < j2 < |r|
          ensures FirstIndex(xs, key, key(r[j1])) < FirstIndex(xs, key, key(r[j2]))
        {
          if j1 > 0 {
            assert FirstIndex(tail, key, key(rest[j1 - 1])) < FirstIndex(tail, key, key(rest[j2 - 1]));
          }
        }
      }
    }
  }

  lemma {:induction false} StrictlyIncreasingBound(idx: seq<nat>, n: nat)
    requires forall j :: 0 <= j < |idx| ==> idx[j] < n
    requires forall j1, j2 :: 0 <= j1 < j2 < |idx| ==> idx[j1] < idx[j2]
    ensures |idx| <= n
    decreases |idx|
  {
    if |idx| > 0 {
      StrictlyIncreasingBound(idx[..|idx| - 1], idx[|idx| - 1]);
    }
  }

  /**
   * Keeping the first element of each key: one element per key, each the
   * first with its key, in the order of first appearance, with no key of
   * the input lost.
   */
  lemma FirstPerKey<T, K>(xs: seq<T>, key: T -> K)
    ensures var r := KeptFrom(xs, key, {});
      && |r| <= |xs|
      && DistinctKeys(r, key)
      && AreFirstOccurrences(xs, key, r)
      && InFirstAppearanceOrder(xs, key, r)
      && KeySet(r, key) == KeySet(xs, key)
  {
    var r := KeptFrom(xs, key, {});
    KeptFromKeys(xs, key, {});
    KeptFromFirstOccurrences(xs, key, {});
    forall j | 0 <= j < |r| ensures key(r[j]) in KeySet(xs, key) {
      assert key(xs[FirstIndex(xs, key, key(r[j]))]) == key(r[j]);
    }
    var idx := seq(|r|, j requires 0 <= j < |r| => FirstIndex(xs, key, key(r[j])));
    StrictlyIncreasingBound(idx, |xs|);
  }
}
