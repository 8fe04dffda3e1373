/**
  `ReceiptProcessor`'s in-memory state: the stored receipts by id, and a cache
  of points filled in lazily by the first lookup of each id.
*/
module Store {
  import opened Wrappers
  import opened Schema
  import opened Scoring

  /** `p` is the points total of the valid receipt `r`. */
  predicate IsPointsOf(p: int, r: Receipt)
    requires ValidReceipt(r)
  {
    p == ReceiptPoints(r)
  }

  /** The store's invariant on its two maps. */
  predicate CacheInvariant(receipts: map<string, Receipt>, points: map<string, int>)
  {
    && (forall id :: id in receipts ==> ValidReceipt(receipts[id]))
    && points.Keys <= receipts.Keys
    && (forall id {:trigger IsPointsOf(points[id], receipts[id])} ::
          id in points ==> IsPointsOf(points[id], receipts[id]))
  }

  /** Writing the same value twice under one key is writing it once. */
  lemma UpdateTwice(m: map<string, int>, k: string, v: int)
    ensures m[k := v][k := v] == m[k := v]
  {
  }

  /** Storing a valid receipt under a new id keeps the invariant. */
  lemma StoreKeepsInvariant(receipts: map<string, Receipt>, points: map<string, int>, id: string, r: Receipt)
    requires CacheInvariant(receipts, points) && id !in receipts && ValidReceipt(r)
    ensures CacheInvariant(receipts[id := r], points)
  {
    var rs := receipts[id := r];
    forall k | k in points
      ensures IsPointsOf(points[k], rs[k])
    {
      assert rs[k] == receipts[k];
    }
  }

  /** Caching the points of a stored receipt keeps the invariant. */
  lemma CacheKeepsInvariant(receipts: map<string, Receipt>, points: map<string, int>, id: string, total: int)
    requires CacheInvariant(receipts, points) && id in receipts && total == ReceiptPoints(receipts[id])
    ensures CacheInvariant(receipts, points[id := total])
  {
    var ps := points[id := total];
    forall k | k in ps
      ensures IsPointsOf(ps[k], receipts[k])
    {
      if k != id {
        assert ps[k] == points[k];
      }
    }
  }

  /** A cached value is the points of its stored receipt. */
  lemma CachedIsPoints(receipts: map<string, Receipt>, points: map<string, int>, id: string)
    requires CacheInvariant(receipts, points) && id in points
    ensures id in receipts && ValidReceipt(receipts[id]) && IsPointsOf(points[id], receipts[id])
  {
  }

  class ReceiptProcessor {
    /** `_receipts`: every receipt accepted so far, by id. */
    var receipts: map<string, Receipt>
    /** `_points`: the points cache, by id. */
    var points: map<string, int>

    /**
      Stored receipts passed validation; the cache holds only stored ids, each
      with its receipt's points.
    */
    ghost predicate Valid()
      reads this
    {
      CacheInvariant(receipts, points)
    }

    constructor ()
      ensures Valid()
      ensures receipts == map[] && points == map[]
    {
      receipts := map[];
      points := map[];
    }

    /**
      `process_receipt`: stores the receipt under a new id. The id stands for
      the random UUID the service generates; it is not yet in use and has no
      whitespace.
    */
    method ProcessReceipt(receipt: Receipt, id: string) returns (receiptId: string)
      requires Valid() && ValidReceipt(receipt)
      requires id !in receipts && IsIdResponse(id)
      modifies this
      ensures Valid()
      ensures receiptId == id && IsIdResponse(receiptId)
      ensures receipts == old(receipts)[id := receipt]
      ensures points == old(points)
    {
      StoreKeepsInvariant(receipts, points, id, receipt);
      receipts := receipts[id := receipt];
      receiptId := id;
    }

    /**
      `get_total_points`: None for an id that was never stored; otherwise the
      receipt's points, taken from the cache when it holds a non-zero value and
      computed and cached otherwise (a cached 0 is computed again).
    */
    method GetTotalPoints(id: string) returns (result: Option<int>)
      requires Valid()
      modifies this
      ensures Valid()
      ensures receipts == old(receipts)
      ensures id !in receipts ==> result == None && points == old(points)
      ensures id in receipts ==>
        && result == Some(ReceiptPoints(receipts[id]))
        && points == old(points)[id := result.value]
      ensures result.Some? ==> IsPointsResponse(result.value)
    {
      if id in points && points[id] != 0 {
        CachedIsPoints(receipts, points, id);
        result := Some(points[id]);
        assert points == old(points)[id := result.value];
      } else if id in receipts {
        var total := ComputeAndCache(id);
        result := Some(total);
      } else {
        result := None;
      }
    }

    /** The cache-miss path of `get_total_points`: sum the stored receipt's points and cache them. */
    method ComputeAndCache(id: string) returns (total: int)
      requires Valid() && id in receipts
      modifies this
      ensures Valid()
      ensures receipts == old(receipts)
      ensures total == ReceiptPoints(receipts[id])
      ensures points == old(points)[id := total]
    {
      total := SumOfPoints(receipts[id]);
      CacheKeepsInvariant(receipts, points, id, total);
      points := points[id := total];
    }

    /** Two lookups in a row give the same answer, zero-point receipts included. */
    method LookUpTwice(id: string) returns (first: Option<int>, second: Option<int>)
      requires Valid()
      modifies this
      ensures Valid() && receipts == old(receipts)
      ensures first == second
      ensures first.None? <==> id !in receipts
      ensures id in receipts ==> points == old(points)[id := first.value]
      ensures id !in receipts ==> points == old(points)
    {
      first := GetTotalPoints(id);
      second := GetTotalPoints(id);
      if id in receipts {
        UpdateTwice(old(points), id, first.value);
      }
    }
  }
}
