/** The in-memory vector store: points by id, the hashes of indexed content, and the search for
    the nearest points under any similarity. */
module VectorStore {
  import opened Basics
  import opened Sorting

  type Vector = seq<real>

  /** `hash` is the content hash in the payload, `meta` the rest of the payload. */
  datatype Point = Point(vector: Vector, hash: Option<string>, meta: string)

  type Points = map<string, Point>

  datatype Entry = Entry(id: string, point: Point)

  function Stored(points: Points, batch: seq<Entry>): Points {
    if batch == [] then points
    else Stored(points, batch[..|batch| - 1])[batch[|batch| - 1].id := batch[|batch| - 1].point]
  }

  function Hashes(points: Points): map<string, string> {
    map id | id in points && points[id].hash.Some? && points[id].hash.value != [] :: points[id].hash.value
  }

  /** The ids are `wanted` nearest points, nearest first; ties in any order. */
  ghost predicate Nearest(ids: seq<string>, points: Points, similarity: Vector -> real, wanted: nat) {
    && |ids| == (if 0 < wanted < |points| then wanted else |points|)
    && (forall i, j | 0 <= i < j < |ids| :: ids[i] != ids[j])
    && (forall i | 0 <= i < |ids| :: ids[i] in points)
    && (forall i, j | 0 <= i < j < |ids| :: similarity(points[ids[i]].vector) >= similarity(points[ids[j]].vector))
    && (forall i, id | 0 <= i < |ids| && id in points && id !in ids ::
          similarity(points[ids[i]].vector) >= similarity(points[id].vector))
  }

  class Memory {
    var points: Points

    constructor ()
      ensures points == map[]
    {
      points := map[];
    }

    method Upsert(batch: seq<Entry>)
      modifies this
      ensures points == Stored(old(points), batch)
    {
      for i := 0 to |batch|
        invariant points == Stored(old(points), batch[..i])
      {
        assert batch[..i + 1][..i] == batch[..i];
        points := points[batch[i].id := batch[i].point];
      }
      assert batch[..|batch|] == batch;
    }

    method HashesOf() returns (out: map<string, string>)
      ensures out == Hashes(points)
    {
      out := map[];
      var left := points.Keys;
      while left != {}
        invariant left <= points.Keys
        invariant out == map id | id in points && id !in left && points[id].hash.Some? &&
            points[id].hash.value != [] :: points[id].hash.value
      {
        var id :| id in left;
        if points[id].hash.Some? && points[id].hash.value != [] {
          out := out[id := points[id].hash.value];
        }
        left := left - {id};
      }
    }

    method Search(similarity: Vector -> real, topK: int) returns (found: seq<Scored>)
      ensures Nearest(Ids(found), points, similarity, if topK > 0 then topK else 0)
      ensures ScoredBy(found, points, similarity)
    {
      var scored := ScoreAll(similarity);
      hide Nearest, OnePerId, ScoredBy;
      var sorted := Sort(scored, Higher);
      SortedFacts(scored, sorted, points, similarity);
      found := if 0 < topK < |sorted| then sorted[..topK] else sorted;
      SizeOf(sorted, points.Keys);
      CutIsNearest(sorted, found, points, similarity, if topK > 0 then topK else 0);
    }

    method ScoreAll(similarity: Vector -> real) returns (scored: seq<Scored>)
      ensures OnePerId(scored, points.Keys) && ScoredBy(scored, points, similarity)
    {
      scored := [];
      var left := points.Keys;
      assert OnePerId([], points.Keys - left) && ScoredBy([], points, similarity);
      hide OnePerId, ScoredBy;
      while left != {}
        invariant left <= points.Keys
        invariant OnePerId(scored, points.Keys - left)
        invariant ScoredBy(scored, points, similarity)
      {
        var id :| id in left;
        assert points.Keys - (left - {id}) == (points.Keys - left) + {id};
        OneMoreId(scored, points.Keys - left, Scored(id, similarity(points[id].vector)));
        OneMoreScored(scored, points, similarity, id);
        scored := scored + [Scored(id, similarity(points[id].vector))];
        left := left - {id};
      }
      assert points.Keys - left == points.Keys;
    }
  }

  lemma SizeOf(s: seq<Scored>, ids: set<string>)
    requires OnePerId(s, ids)
    ensures |s| == |ids|
  {
  }

  function Ids(s: seq<Scored>): (ids: seq<string>)
    ensures |ids| == |s| && forall i | 0 <= i < |s| :: ids[i] == s[i].id
  {
    seq(|s|, i requires 0 <= i < |s| => s[i].id)
  }

  /** Every id of the set stands in the sequence, once, and no other does. */
  ghost predicate OnePerId(s: seq<Scored>, ids: set<string>) {
    && |s| == |ids| && DistinctScored(s)
    && (forall x | x in s :: x.id in ids)
    && (forall id | id in ids :: exists x :: x in s && x.id == id)
  }

  ghost predicate ScoredBy(s: seq<Scored>, points: Points, similarity: Vector -> real) {
    forall i | 0 <= i < |s| :: s[i].id in points && s[i].score == similarity(points[s[i].id].vector)
  }

  lemma OneMoreId(s: seq<Scored>, ids: set<string>, x: Scored)
    requires OnePerId(s, ids) && x.id !in ids
    ensures OnePerId(s + [x], ids + {x.id})
  {
  }

  lemma OneMoreScored(s: seq<Scored>, points: Points, similarity: Vector -> real, id: string)
    requires ScoredBy(s, points, similarity) && id in points
    ensures ScoredBy(s + [Scored(id, similarity(points[id].vector))], points, similarity)
  {
  }

  lemma SortedFacts(scored: seq<Scored>, sorted: seq<Scored>, points: Points, similarity: Vector -> real)
    requires sorted == Sort(scored, Higher) && OnePerId(scored, points.Keys) && ScoredBy(scored, points, similarity)
    ensures OnePerId(sorted, points.Keys) && ScoredBy(sorted, points, similarity) && Ordered(sorted, Higher)
  {
    hide Sort, Higher;
    HigherIsOrder();
    SortOrders(scored, Higher);
    hide Ordered;
    forall x ensures x in sorted <==> x in scored { assert x in multiset(sorted) <==> x in multiset(scored); }
    DistinctPermutation(scored, sorted);
  }

  lemma CutIsNearest(sorted: seq<Scored>, found: seq<Scored>, points: Points, similarity: Vector -> real, wanted: nat)
    requires OnePerId(sorted, points.Keys) && ScoredBy(sorted, points, similarity) && Ordered(sorted, Higher)
    requires found <= sorted && |found| == (if 0 < wanted < |points| then wanted else |points|)
    ensures ScoredBy(found, points, similarity) && Nearest(Ids(found), points, similarity, wanted)
  {
    assert forall k | 0 <= k < |found| :: Ids(found)[k] == sorted[k].id;
    forall i, id | 0 <= i < |found| && id in points && id !in Ids(found)
      ensures found[i].score >= similarity(points[id].vector)
    {
      var x :| x in sorted && x.id == id;
      var j :| 0 <= j < |sorted| && sorted[j] == x;
    }
  }
}
