/**
 * The contract of the ordered score index the store is built on: a keyed
 * map from key to (score, value) that can also be queried by ascending score.
 * Only the operations the store uses are modelled, on map values; the
 * index's internal structure is not part of this model.
 */
module SortedSet {

  datatype Entry<V> = Entry(score: int, value: V)

  type Index<V> = map<string, Entry<V>>

  /** Every entry of `small` is an entry of `big`, with the same score and value. */
  ghost predicate SubIndex<V>(small: Index<V>, big: Index<V>) {
    forall k :: k in small ==> k in big && small[k] == big[k]
  }

  /** No entry removed on the way from `before` to `after` scores above a surviving one. */
  ghost predicate RemovedNotAbove<V>(before: Index<V>, after: Index<V>) {
    forall a, b :: a in before && a !in after && b in after ==> before[a].score <= after[b].score
  }

  /** `after` is `before` with its `n` lowest-scored entries removed (all of them when `n >= |before|`). */
  ghost predicate LowestRemoved<V>(before: Index<V>, after: Index<V>, n: nat) {
    && SubIndex(after, before)
    && |after| == (if n >= |before| then 0 else |before| - n)
    && RemovedNotAbove(before, after)
  }

  /** `RemoveByScore(x)`: delete every entry whose score is at most `x`. */
  function RemoveByScore<V>(m: Index<V>, x: int): (r: Index<V>)
    ensures SubIndex(r, m)
    ensures forall k :: k in m ==> (k in r <==> x < m[k].score)
  {
    map k | k in m && x < m[k].score :: m[k]
  }

  /** A key of lowest score; which one among equal scores is left open. */
  method MinKey<V>(m: Index<V>) returns (k: string)
    requires |m| > 0
    ensures k in m
    ensures forall j :: j in m ==> m[k].score <= m[j].score
  {
    var todo := m.Keys;
    k :| k in todo;
    todo := todo - {k};
    while todo != {}
      invariant todo <= m.Keys
      invariant k in m
      invariant forall j :: j in m && j !in todo ==> m[k].score <= m[j].score
      decreases todo
    {
      var j :| j in todo;
      if m[j].score < m[k].score {
        k := j;
      }
      todo := todo - {j};
    }
  }

  /** `RemoveByRank(0, n)`: delete the `n` lowest-scored entries, one minimum at a time. */
  method RemoveLowest<V>(m: Index<V>, n: nat) returns (r: Index<V>)
    ensures LowestRemoved(m, r, n)
  {
    r := m;
    var i := 0;
    while i < n && |r| > 0
      invariant i <= n
      invariant SubIndex(r, m)
      invariant |r| == |m| - i
      invariant RemovedNotAbove(m, r)
    {
      var k := MinKey(r);
      var rest := map j | j in r && j != k :: r[j];
      assert rest.Keys == r.Keys - {k};
      r := rest;
      i := i + 1;
    }
  }
}
