/**
 * The sampler: a bounded reservoir of records waiting to be collected. Once
 * full, each further record replaces a uniformly chosen slot with probability
 * capacity / offered (reservoir sampling, Algorithm R); `collect` drains it.
 */
module Sampling {
  import opened Wire

  function Min(a: int, b: int): int {
    if a <= b then a else b
  }

  /**
   * `after` is what a reservoir of capacity `limit` holding `before` holds once
   * it has been offered `batch`: as many records as fit, all of them while they
   * fit, and only records it held or was offered.
   */
  ghost predicate Admits(limit: nat, before: seq<Record>, batch: seq<Record>, after: seq<Record>) {
    |after| == Min(limit, |before| + |batch|) &&
    (|before| + |batch| <= limit ==> after == before + batch) &&
    multiset(after) <= multiset(before) + multiset(batch)
  }

  /**
   * One step of Algorithm R: append while there is room; otherwise the record
   * takes slot `draw` when the uniform draw over all offers so far lands inside
   * the reservoir, and is dropped when it does not.
   */
  function Place(items: seq<Record>, limit: nat, x: Record, draw: nat): (r: seq<Record>)
    requires |items| <= limit
    ensures Admits(limit, items, [x], r)
  {
    if |items| < limit then items + [x]
    else if draw < limit then items[draw := x]
    else items
  }

  /** Offering two batches one after the other is offering their concatenation. */
  lemma {:induction false} AdmitsCompose(limit: nat, before: seq<Record>, first: seq<Record>, mid: seq<Record>,
                                         second: seq<Record>, after: seq<Record>)
    requires |before| <= limit
    requires Admits(limit, before, first, mid) && Admits(limit, mid, second, after)
    ensures Admits(limit, before, first + second, after)
  {
    if |before| + |first| + |second| <= limit {
      assert after == before + first + second;
    }
    calc {
      multiset(after);
    <=
      multiset(mid) + multiset(second);
    <=
      multiset(before) + multiset(first) + multiset(second);
    ==
      multiset(before) + multiset(first + second);
    }
  }

  class Sampler {
    /** Capacity of the reservoir. */
    const limit: nat
    /** Records waiting to be collected. */
    var items: seq<Record>
    /** Records offered since the last drain. */
    var seen: nat

    ghost predicate Valid()
      reads this
    {
      |items| <= limit
    }

    /** The reservoir, holding `before`, has since been offered `batch`. */
    ghost predicate Admitted(before: seq<Record>, batch: seq<Record>)
      reads this
    {
      Admits(limit, before, batch, items)
    }

    constructor (limit: nat)
      ensures Valid() && this.limit == limit && items == [] && seen == 0
    {
      this.limit := limit;
      items := [];
      seen := 0;
    }

    method Offer(x: Record)
      requires Valid()
      modifies this
      ensures Valid() && Admitted(old(items), [x]) && seen == old(seen) + 1
    {
      seen := seen + 1;
      var draw :| 0 <= draw < seen;
      items := Place(items, limit, x, draw);
    }

    /** Offers a transaction's records one by one, in order. */
    method OfferAll(batch: seq<Record>)
      requires Valid()
      modifies this
      ensures Valid() && Admitted(old(items), batch) && seen == old(seen) + |batch|
    {
      var i := 0;
      while i < |batch|
        invariant 0 <= i <= |batch|
        invariant Valid() && Admits(limit, old(items), batch[..i], items) && seen == old(seen) + i
      {
        ghost var mid := items;
        Offer(batch[i]);
        AdmitsCompose(limit, old(items), batch[..i], mid, [batch[i]], items);
        assert batch[..i + 1] == batch[..i] + [batch[i]];
        i := i + 1;
      }
      assert batch[..i] == batch;
    }

    /** collect(): hands over every waiting record and empties the reservoir. */
    method Drain() returns (out: seq<Record>)
      requires Valid()
      modifies this
      ensures Valid() && out == old(items) && items == [] && seen == 0
    {
      out := items;
      items := [];
      seen := 0;
    }

    /** size(): the number of records waiting to be collected. */
    method Size() returns (n: nat)
      requires Valid()
      ensures n == |items| && n <= limit
    {
      n := |items|;
    }
  }
}
