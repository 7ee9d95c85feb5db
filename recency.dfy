/**
 * `ORDER BY created_at DESC LIMIT n` over a set of row keys, and the counting facts
 * the aggregate queries rely on.
 */
module Recency {

  /** `k` is one of the newest keys among `keys`. */
  ghost predicate IsNewestIn(created: map<string, nat>, keys: set<string>, k: string)
    requires keys <= created.Keys
  {
    k in keys && forall j :: j in keys ==> created[j] <= created[k]
  }

  /** A non-empty set of keys has a newest member. */
  lemma {:induction false} NewestExists(created: map<string, nat>, keys: set<string>)
    requires keys <= created.Keys && keys != {}
    ensures exists k :: IsNewestIn(created, keys, k)
    decreases keys
  {
    var k0 :| k0 in keys;
    var rest := keys - {k0};
    if rest == {} {
      assert keys == rest + {k0};
      assert IsNewestIn(created, keys, k0);
    } else {
      NewestExists(created, rest);
      var k1 :| IsNewestIn(created, rest, k1);
      if created[k0] <= created[k1] {
        assert IsNewestIn(created, keys, k1);
      } else {
        assert IsNewestIn(created, keys, k0);
      }
    }
  }

  /**
   * The keys newest first, cut to `limit`. Among keys created at the same moment the
   * order is left open, as it is for the SQL ordering.
   */
  ghost function NewestFirst(created: map<string, nat>, keys: set<string>, limit: nat): (r: seq<string>)
    requires keys <= created.Keys
    ensures |r| == if limit < |keys| then limit else |keys|
    ensures forall i :: 0 <= i < |r| ==> r[i] in keys
    ensures forall i, j :: 0 <= i < j < |r| ==> r[i] != r[j]
    ensures forall i, j :: 0 <= i < j < |r| ==> created[r[i]] >= created[r[j]]
    ensures forall k, i :: k in keys && k !in r && 0 <= i < |r| ==> created[k] <= created[r[i]]
    decreases keys
  {
    if limit == 0 || keys == {} then []
    else
      NewestExists(created, keys);
      var k :| IsNewestIn(created, keys, k);
      [k] + NewestFirst(created, keys - {k}, limit - 1)
  }

  /** The rows stored under the given keys, in the keys' order. */
  function RowsAt<R>(table: map<string, R>, keys: seq<string>): (rows: seq<R>)
    requires forall i :: 0 <= i < |keys| ==> keys[i] in table
    ensures |rows| == |keys|
    ensures forall i :: 0 <= i < |keys| ==> rows[i] == table[keys[i]]
  {
    if keys == [] then [] else [table[keys[0]]] + RowsAt(table, keys[1..])
  }

  /** A subset is no larger than the set it is drawn from. */
  lemma {:induction false} SubsetNoLarger<T>(a: set<T>, b: set<T>)
    requires a <= b
    ensures |a| <= |b|
    decreases b
  {
    if b != {} {
      var x :| x in b;
      SubsetNoLarger(a - {x}, b - {x});
    }
  }
}
