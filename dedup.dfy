/** Streaming `dropDuplicates` on a natural key. The engine keeps, per sink, the
    set of keys it has already emitted; a row is emitted when its key is not in
    that set, and the key is then added. Within a micro-batch the first row for
    a key wins, and a key seen in an earlier micro-batch suppresses every later
    row with that key. */
module Dedup {
  import opened Wrappers
  import opened Seqs

  /** The natural keys of a sequence of rows. */
  function Keys<R(==), K(==)>(rows: seq<R>, key: R -> K): set<K>
  {
    set r | r in rows :: key(r)
  }

  /** One micro-batch against the carried state `seen`. */
  function DropDuplicates<R(==), K(==)>(rows: seq<R>, key: R -> K, seen: set<K>): (out: seq<R>)
    ensures |out| <= |rows|
    ensures forall r :: r in out ==> r in rows && key(r) !in seen
    decreases |rows|
  {
    if rows == [] then []
    else if key(rows[0]) in seen then DropDuplicates(rows[1..], key, seen)
    else [rows[0]] + DropDuplicates(rows[1..], key, seen + {key(rows[0])})
  }

  /** No two rows share a key. */
  predicate DistinctKeys<R(==), K(==)>(rows: seq<R>, key: R -> K)
  {
    forall i, j :: 0 <= i < j < |rows| ==> key(rows[i]) != key(rows[j])
  }

  /** The first row of `rows` whose key is `k`, if any. */
  function FirstWithKey<R(==), K(==)>(rows: seq<R>, key: R -> K, k: K): Option<R>
    decreases |rows|
  {
    if rows == [] then None
    else if key(rows[0]) == k then Some(rows[0])
    else FirstWithKey(rows[1..], key, k)
  }

  lemma KeysCons<R, K>(rows: seq<R>, key: R -> K)
    requires rows != []
    ensures Keys(rows, key) == {key(rows[0])} + Keys(rows[1..], key)
  {
    assert rows == [rows[0]] + rows[1..];
    forall k | k in Keys(rows, key) ensures k in {key(rows[0])} + Keys(rows[1..], key) {
      var r :| r in rows && key(r) == k;
      if r != rows[0] {
        assert r in rows[1..];
      }
    }
  }

  /** At most one output row per key: the output of a micro-batch never repeats a key. */
  lemma {:induction false} DropDuplicatesUnique<R, K>(rows: seq<R>, key: R -> K, seen: set<K>)
    ensures DistinctKeys(DropDuplicates(rows, key, seen), key)
    decreases |rows|
  {
    if rows != [] {
      var k := key(rows[0]);
      if k in seen {
        DropDuplicatesUnique(rows[1..], key, seen);
      } else {
        var rest := DropDuplicates(rows[1..], key, seen + {k});
        DropDuplicatesUnique(rows[1..], key, seen + {k});
        var out := DropDuplicates(rows, key, seen);
        assert out == [rows[0]] + rest;
        forall i, j | 0 <= i < j < |out| ensures key(out[i]) != key(out[j]) {
          assert out[j] == rest[j - 1];
          assert rest[j - 1] in rest;
          if i > 0 {
            assert out[i] == rest[i - 1];
          }
        }
      }
    }
  }

  /** The output is the input with rows deleted, in input order. */
  lemma {:induction false} DropDuplicatesSubsequence<R, K>(rows: seq<R>, key: R -> K, seen: set<K>)
    ensures IsSubsequence(DropDuplicates(rows, key, seen), rows)
    decreases |rows|
  {
    if rows != [] {
      var k := key(rows[0]);
      if k in seen {
        DropDuplicatesSubsequence(rows[1..], key, seen);
      } else {
        DropDuplicatesSubsequence(rows[1..], key, seen + {k});
        var out := DropDuplicates(rows, key, seen);
        assert out[0] == rows[0] && out[1..] == DropDuplicates(rows[1..], key, seen + {k});
      }
    }
  }

  /** Every key of the input that was not seen before is emitted: nothing is lost
      beyond the duplicates themselves. */
  lemma {:induction false} DropDuplicatesKeys<R, K>(rows: seq<R>, key: R -> K, seen: set<K>)
    ensures Keys(DropDuplicates(rows, key, seen), key) == Keys(rows, key) - seen
    decreases |rows|
  {
    if rows != [] {
      var k := key(rows[0]);
      KeysCons(rows, key);
      if k in seen {
        DropDuplicatesKeys(rows[1..], key, seen);
      } else {
        DropDuplicatesKeys(rows[1..], key, seen + {k});
        var out := DropDuplicates(rows, key, seen);
        KeysCons(out, key);
        assert out[1..] == DropDuplicates(rows[1..], key, seen + {k});
      }
    }
  }

  /** The row emitted for a key is the first row of the input with that key. */
  lemma {:induction false} DropDuplicatesKeepsFirst<R, K>(rows: seq<R>, key: R -> K, seen: set<K>)
    ensures forall r :: r in DropDuplicates(rows, key, seen) ==> FirstWithKey(rows, key, key(r)) == Some(r)
    decreases |rows|
  {
    if rows != [] {
      var k := key(rows[0]);
      if k in seen {
        DropDuplicatesKeepsFirst(rows[1..], key, seen);
      } else {
        DropDuplicatesKeepsFirst(rows[1..], key, seen + {k});
      }
    }
  }

  /** Rows whose keys are distinct and unseen pass through unchanged. */
  lemma {:induction false} DropDuplicatesOfDistinct<R, K>(rows: seq<R>, key: R -> K, seen: set<K>)
    requires DistinctKeys(rows, key)
    requires forall r :: r in rows ==> key(r) !in seen
    ensures DropDuplicates(rows, key, seen) == rows
    decreases |rows|
  {
    if rows != [] {
      var k := key(rows[0]);
      assert rows[0] in rows;
      forall r | r in rows[1..] ensures key(r) !in seen + {k} {
        var j :| 0 <= j < |rows[1..]| && rows[1..][j] == r;
        assert rows[j + 1] == r;
      }
      DropDuplicatesOfDistinct(rows[1..], key, seen + {k});
    }
  }

  /** Deduplicating twice against the same state equals deduplicating once. */
  lemma DropDuplicatesIdempotent<R, K>(rows: seq<R>, key: R -> K, seen: set<K>)
    ensures DropDuplicates(DropDuplicates(rows, key, seen), key, seen) == DropDuplicates(rows, key, seen)
  {
    DropDuplicatesUnique(rows, key, seen);
    DropDuplicatesOfDistinct(DropDuplicates(rows, key, seen), key, seen);
  }

  /** Replaying a micro-batch whose keys are all in the state emits nothing. */
  lemma DropDuplicatesReplay<R, K>(rows: seq<R>, key: R -> K, seen: set<K>)
    requires Keys(rows, key) <= seen
    ensures DropDuplicates(rows, key, seen) == []
  {
  }

  /** Splitting the input between two micro-batches, with the keys of the first
      carried into the state of the second, emits the same rows as one batch. */
  lemma {:induction false} DropDuplicatesSplit<R, K>(a: seq<R>, b: seq<R>, key: R -> K, seen: set<K>)
    ensures DropDuplicates(a + b, key, seen)
         == DropDuplicates(a, key, seen) + DropDuplicates(b, key, seen + Keys(a, key))
    decreases |a|
  {
    if a == [] {
      assert a + b == b;
      assert Keys(a, key) == {};
      assert seen + Keys(a, key) == seen;
    } else {
      var k := key(a[0]);
      assert (a + b)[0] == a[0];
      assert (a + b)[1..] == a[1..] + b;
      KeysCons(a, key);
      if k in seen {
        DropDuplicatesSplit(a[1..], b, key, seen);
        assert seen + Keys(a, key) == seen + Keys(a[1..], key);
      } else {
        DropDuplicatesSplit(a[1..], b, key, seen + {k});
        assert seen + {k} + Keys(a[1..], key) == seen + Keys(a, key);
      }
    }
  }

  /** The engine's fold over micro-batches: each batch is deduplicated against
      the keys of all earlier batches. */
  function Stream<R(==), K(==)>(batches: seq<seq<R>>, key: R -> K, seen: set<K>): (outs: seq<seq<R>>)
    ensures |outs| == |batches|
    decreases |batches|
  {
    if batches == [] then []
    else [DropDuplicates(batches[0], key, seen)] + Stream(batches[1..], key, seen + Keys(batches[0], key))
  }

  /** The keys of two row sequences one after the other. */
  lemma KeysConcat<R, K>(a: seq<R>, b: seq<R>, key: R -> K)
    ensures Keys(a + b, key) == Keys(a, key) + Keys(b, key)
  {
    forall k | k in Keys(a + b, key) ensures k in Keys(a, key) + Keys(b, key) {
      var r :| r in a + b && key(r) == k;
      if r in a {
        assert k in Keys(a, key);
      } else {
        assert k in Keys(b, key);
      }
    }
    forall k | k in Keys(a, key) + Keys(b, key) ensures k in Keys(a + b, key) {
      if k in Keys(a, key) {
        var r :| r in a && key(r) == k;
        assert r in a + b;
      } else {
        var r :| r in b && key(r) == k;
        assert r in a + b;
      }
    }
  }

  /** What the sink receives at each trigger: micro-batch `i` deduplicated
      against the starting state and the keys of every earlier micro-batch. */
  lemma {:induction false} StreamBatch<R, K>(batches: seq<seq<R>>, key: R -> K, seen: set<K>, i: nat)
    requires i < |batches|
    ensures Stream(batches, key, seen)[i]
         == DropDuplicates(batches[i], key, seen + Keys(Flatten(batches[..i]), key))
    decreases i
  {
    if i == 0 {
      assert batches[..0] == [];
      assert Keys(Flatten(batches[..0]), key) == {};
      assert seen + {} == seen;
    } else {
      var rest := batches[1..];
      StreamBatch(rest, key, seen + Keys(batches[0], key), i - 1);
      assert batches[..i] == [batches[0]] + rest[..i - 1];
      assert Flatten(batches[..i]) == batches[0] + Flatten(rest[..i - 1]);
      KeysConcat(batches[0], Flatten(rest[..i - 1]), key);
      assert seen + Keys(batches[0], key) + Keys(Flatten(rest[..i - 1]), key)
          == seen + Keys(Flatten(batches[..i]), key);
    }
  }

  /** Micro-batching is invisible: the concatenated outputs of the batches equal
      the output of one batch holding all of the input. */
  lemma {:induction false} StreamMatchesSingleBatch<R, K>(batches: seq<seq<R>>, key: R -> K, seen: set<K>)
    ensures Flatten(Stream(batches, key, seen)) == DropDuplicates(Flatten(batches), key, seen)
    decreases |batches|
  {
    if batches != [] {
      StreamMatchesSingleBatch(batches[1..], key, seen + Keys(batches[0], key));
      DropDuplicatesSplit(batches[0], Flatten(batches[1..]), key, seen);
    }
  }
}
