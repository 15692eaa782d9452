/** The incremental index: a chunk whose stored content hash is unchanged is not embedded
    again. Every call to the embedder and to the store may fail, and a failed write may or may
    not have landed. */
module Indexing {
  import opened Basics
  import opened Bm25
  import opened VectorStore

  /** How content is hashed and embedded. */
  datatype Codec = Codec(hash: string -> string, embed: string -> Vector)

  datatype Trouble = Fine | NoVector | WriteRefused | WriteLost

  datatype Outcome = Outcome(points: Points, ok: bool, embedded: seq<string>)

  function Fresh(codec: Codec, c: Chunk): Point {
    Point(codec.embed(c.content), Some(codec.hash(c.content)), c.meta)
  }

  function Lookup(hashes: map<string, string>, id: string): string {
    if id in hashes then hashes[id] else []
  }

  predicate Stale(codec: Codec, hashes: map<string, string>, c: Chunk) {
    Lookup(hashes, c.id) != codec.hash(c.content)
  }

  /** The run from chunk i on; `hashes` was read when the run began. */
  function IndexFrom(codec: Codec, points: Points, hashes: map<string, string>,
                     chunks: seq<Chunk>, i: nat, trouble: nat -> Trouble): Outcome
    requires i <= |chunks|
    decreases |chunks| - i
  {
    if i == |chunks| then Outcome(points, true, [])
    else
      var c := chunks[i];
      if !Stale(codec, hashes, c) then IndexFrom(codec, points, hashes, chunks, i + 1, trouble)
      else
        match trouble(i)
        case NoVector | WriteRefused => Outcome(points, false, [c.id])
        case WriteLost => Outcome(points[c.id := Fresh(codec, c)], false, [c.id])
        case Fine =>
          var rest := IndexFrom(codec, points[c.id := Fresh(codec, c)], hashes, chunks, i + 1, trouble);
          rest.(embedded := [c.id] + rest.embedded)
  }

  function Indexed(codec: Codec, points: Points, chunks: seq<Chunk>, trouble: nat -> Trouble): Outcome {
    IndexFrom(codec, points, Hashes(points), chunks, 0, trouble)
  }

  method Index(vector: Memory, codec: Codec, chunks: seq<Chunk>, hashesFail: bool, trouble: nat -> Trouble)
    returns (ok: bool, embedded: seq<string>)
    modifies vector
    ensures Outcome(vector.points, ok, embedded) ==
            if hashesFail then Outcome(old(vector.points), false, [])
            else Indexed(codec, old(vector.points), chunks, trouble)
  {
    embedded := [];
    if hashesFail {
      return false, embedded;
    }
    var existing := vector.HashesOf();
    ghost var all := Indexed(codec, vector.points, chunks, trouble);
    for i := 0 to |chunks|
      invariant var rest := IndexFrom(codec, vector.points, existing, chunks, i, trouble);
                all == rest.(embedded := embedded + rest.embedded)
    {
      var c := chunks[i];
      var hash := codec.hash(c.content);
      if Lookup(existing, c.id) == hash {
        continue;
      }
      embedded := embedded + [c.id];
      if trouble(i) == NoVector || trouble(i) == WriteRefused {
        return false, embedded;
      }
      StoreOne(vector.points, c.id, Fresh(codec, c));
      vector.Upsert([Entry(c.id, Point(codec.embed(c.content), Some(hash), c.meta))]);
      if trouble(i) == WriteLost {
        return false, embedded;
      }
    }
    ok := true;
  }

  lemma StoreOne(points: Points, id: string, p: Point)
    ensures Stored(points, [Entry(id, p)]) == points[id := p]
  {
  }

  // ---- the cache is coherent ----

  /** A stored hash is always that of the content the stored vector was made from. */
  ghost predicate Coherent(codec: Codec, points: Points) {
    forall id | id in points && points[id].hash.Some? :: IsOfContent(codec, points[id])
  }

  ghost predicate IsOfContent(codec: Codec, p: Point) {
    exists content :: p.hash == Some(codec.hash(content)) && p.vector == codec.embed(content)
  }

  /** Content hashes are never empty and never collide. */
  ghost predicate IsHash(codec: Codec) {
    && (forall x, y | codec.hash(x) == codec.hash(y) :: x == y)
    && (forall x :: codec.hash(x) != [])
  }

  /** Vector and hash of the chunk are what a full rebuild would store. */
  predicate UpToDate(codec: Codec, points: Points, c: Chunk) {
    && c.id in points
    && points[c.id].vector == codec.embed(c.content) && points[c.id].hash == Some(codec.hash(c.content))
  }

  /** In a coherent cache an unchanged hash means an unchanged vector. */
  lemma FreshHashMeansUpToDate(codec: Codec, points: Points, c: Chunk)
    requires IsHash(codec) && Coherent(codec, points)
    ensures Stale(codec, Hashes(points), c) <==> !UpToDate(codec, points, c)
  {
  }

  lemma FreshIsOfContent(codec: Codec, c: Chunk)
    ensures IsOfContent(codec, Fresh(codec, c))
  {
  }

  /** Whatever fails, and wherever the run stops, the cache stays coherent. */
  lemma {:induction false} IndexKeepsCoherent(codec: Codec, points: Points, hashes: map<string, string>,
                                              chunks: seq<Chunk>, i: nat, trouble: nat -> Trouble)
    requires i <= |chunks| && Coherent(codec, points)
    ensures Coherent(codec, IndexFrom(codec, points, hashes, chunks, i, trouble).points)
    decreases |chunks| - i
  {
    hide IsOfContent, Fresh;
    if i < |chunks| {
      FreshIsOfContent(codec, chunks[i]);
      assert Coherent(codec, points[chunks[i].id := Fresh(codec, chunks[i])]);
      IndexKeepsCoherent(codec, points, hashes, chunks, i + 1, trouble);
      IndexKeepsCoherent(codec, points[chunks[i].id := Fresh(codec, chunks[i])], hashes, chunks, i + 1, trouble);
    }
  }

  // ---- what a run embeds and stores ----

  /** The ids of the stale chunks from i up to j, in order. */
  function StaleIds(codec: Codec, hashes: map<string, string>, chunks: seq<Chunk>, i: nat, j: nat): seq<string>
    requires i <= j <= |chunks|
    decreases j - i
  {
    if i == j then []
    else (if Stale(codec, hashes, chunks[i]) then [chunks[i].id] else []) + StaleIds(codec, hashes, chunks, i + 1, j)
  }

  /** The store once every stale chunk from i up to j has been written. */
  function Written(codec: Codec, points: Points, hashes: map<string, string>, chunks: seq<Chunk>, i: nat,
                   j: nat): Points
    requires i <= j <= |chunks|
    decreases j - i
  {
    if i == j then points
    else
      var now := if Stale(codec, hashes, chunks[i]) then points[chunks[i].id := Fresh(codec, chunks[i])] else points;
      Written(codec, now, hashes, chunks, i + 1, j)
  }

  /** A run writes the stale chunks up to some chunk j and embeds exactly these, and when it
      fails possibly one more. */
  lemma {:induction false} IndexStops(codec: Codec, points: Points, hashes: map<string, string>,
                                      chunks: seq<Chunk>, i: nat, trouble: nat -> Trouble)
    returns (j: nat)
    requires i <= |chunks|
    ensures var out := IndexFrom(codec, points, hashes, chunks, i, trouble);
            && i <= j <= |chunks|
            && out.points == Written(codec, points, hashes, chunks, i, j)
            && (out.ok ==> j == |chunks|)
            && (out.embedded == StaleIds(codec, hashes, chunks, i, j)
                || (!out.ok && j < |chunks| && out.embedded == StaleIds(codec, hashes, chunks, i, j) + [chunks[j].id]))
    decreases |chunks| - i
  {
    j := i;
    if i < |chunks| {
      var c := chunks[i];
      var now := if Stale(codec, hashes, c) then points[c.id := Fresh(codec, c)] else points;
      if !Stale(codec, hashes, c) || trouble(i) == Fine {
        j := IndexStops(codec, now, hashes, chunks, i + 1, trouble);
      } else if trouble(i) == WriteLost {
        j := i + 1;
      }
    }
  }

  predicate SameAt(a: Points, b: Points, id: string) {
    (id in a <==> id in b) && (id in a ==> a[id] == b[id])
  }

  /** Writing a range leaves every other id as it was. */
  lemma {:induction false} WrittenElsewhere(codec: Codec, points: Points, hashes: map<string, string>,
                                            chunks: seq<Chunk>, i: nat, j: nat, id: string)
    requires i <= j <= |chunks| && forall k | i <= k < j :: chunks[k].id != id
    ensures SameAt(points, Written(codec, points, hashes, chunks, i, j), id)
    decreases j - i
  {
    hide Stale, Fresh;
    if i < j {
      var now := if Stale(codec, hashes, chunks[i]) then points[chunks[i].id := Fresh(codec, chunks[i])] else points;
      WrittenElsewhere(codec, now, hashes, chunks, i + 1, j, id);
    }
  }

  /** Within the range a stale chunk is stored afresh and any other is left alone. */
  lemma {:induction false} WrittenThere(codec: Codec, points: Points, hashes: map<string, string>,
                                        chunks: seq<Chunk>, i: nat, j: nat, k: nat)
    requires i <= k < j <= |chunks| && DistinctIds(chunks)
    ensures var now, id := Written(codec, points, hashes, chunks, i, j), chunks[k].id;
            if Stale(codec, hashes, chunks[k]) then id in now && now[id] == Fresh(codec, chunks[k])
            else SameAt(points, now, id)
    decreases j - i
  {
    hide Stale, Fresh;
    var now := if Stale(codec, hashes, chunks[i]) then points[chunks[i].id := Fresh(codec, chunks[i])] else points;
    if i == k {
      WrittenElsewhere(codec, now, hashes, chunks, i + 1, j, chunks[k].id);
    } else {
      WrittenThere(codec, now, hashes, chunks, i + 1, j, k);
    }
  }

  lemma SameHashes(points: Points, now: Points, id: string)
    requires SameAt(points, now, id)
    ensures Lookup(Hashes(points), id) == Lookup(Hashes(now), id)
  {
  }

  /** After the stale chunks up to j are written, exactly those from j on are still stale. */
  lemma StaleAfter(codec: Codec, points: Points, chunks: seq<Chunk>, j: nat, k: nat)
    requires j <= |chunks| && k < |chunks| && DistinctIds(chunks) && IsHash(codec)
    ensures var hashes := Hashes(points);
            Stale(codec, Hashes(Written(codec, points, hashes, chunks, 0, j)), chunks[k]) <==>
            k >= j && Stale(codec, hashes, chunks[k])
  {
    var hashes := Hashes(points);
    var now := Written(codec, points, hashes, chunks, 0, j);
    if k < j {
      WrittenThere(codec, points, hashes, chunks, 0, j, k);
      if !Stale(codec, hashes, chunks[k]) {
        SameHashes(points, now, chunks[k].id);
      }
    } else {
      WrittenElsewhere(codec, points, hashes, chunks, 0, j, chunks[k].id);
      SameHashes(points, now, chunks[k].id);
    }
  }

  /** The stale ids depend on the hashes only through which chunks are stale. */
  lemma {:induction false} SameStale(codec: Codec, a: map<string, string>, b: map<string, string>,
                                     chunks: seq<Chunk>, i: nat, j: nat)
    requires i <= j <= |chunks|
    requires forall k | i <= k < j :: Stale(codec, a, chunks[k]) <==> Stale(codec, b, chunks[k])
    ensures StaleIds(codec, a, chunks, i, j) == StaleIds(codec, b, chunks, i, j)
    ensures forall points :: Written(codec, points, a, chunks, i, j) == Written(codec, points, b, chunks, i, j)
    decreases j - i
  {
    hide Stale;
    if i < j {
      SameStale(codec, a, b, chunks, i + 1, j);
    }
  }

  lemma {:induction false} NoneStale(codec: Codec, hashes: map<string, string>, chunks: seq<Chunk>, i: nat, j: nat)
    requires i <= j <= |chunks| && forall k | i <= k < j :: !Stale(codec, hashes, chunks[k])
    ensures StaleIds(codec, hashes, chunks, i, j) == []
    ensures forall points :: Written(codec, points, hashes, chunks, i, j) == points
    decreases j - i
  {
    if i < j {
      NoneStale(codec, hashes, chunks, i + 1, j);
    }
  }

  lemma {:induction false} Split(codec: Codec, points: Points, hashes: map<string, string>,
                                 chunks: seq<Chunk>, i: nat, m: nat, j: nat)
    requires i <= m <= j <= |chunks|
    ensures StaleIds(codec, hashes, chunks, i, j) ==
        StaleIds(codec, hashes, chunks, i, m) + StaleIds(codec, hashes, chunks, m, j)
    ensures Written(codec, points, hashes, chunks, i, j) ==
            Written(codec, Written(codec, points, hashes, chunks, i, m), hashes, chunks, m, j)
    decreases m - i
  {
    hide Stale, Fresh;
    if i < m {
      var now := if Stale(codec, hashes, chunks[i]) then points[chunks[i].id := Fresh(codec, chunks[i])] else points;
      Split(codec, now, hashes, chunks, i + 1, m, j);
    }
  }

  // ---- main results ----

  /** The chunks a run over these points has to embed. */
  function Due(codec: Codec, points: Points, chunks: seq<Chunk>): seq<string> {
    StaleIds(codec, Hashes(points), chunks, 0, |chunks|)
  }

  /** A run that succeeds embeds exactly the chunks that are new or changed, once each and in
      order, leaves the vector and hash of every chunk as a full rebuild would, and touches no
      other point. */
  lemma SuccessEqualsRebuild(codec: Codec, points: Points, chunks: seq<Chunk>, trouble: nat -> Trouble)
    requires IsHash(codec) && Coherent(codec, points) && DistinctIds(chunks)
    requires Indexed(codec, points, chunks, trouble).ok
    ensures var out := Indexed(codec, points, chunks, trouble);
            && out.embedded == Due(codec, points, chunks)
            && (forall k | 0 <= k < |chunks| :: UpToDate(codec, out.points, chunks[k]))
            && (forall id | forall k | 0 <= k < |chunks| :: chunks[k].id != id :: SameAt(points, out.points, id))
  {
    var hashes, n := Hashes(points), |chunks|;
    var j := IndexStops(codec, points, hashes, chunks, 0, trouble);
    var out := Indexed(codec, points, chunks, trouble);
    forall k | 0 <= k < n ensures UpToDate(codec, out.points, chunks[k]) {
      WrittenThere(codec, points, hashes, chunks, 0, n, k);
      FreshHashMeansUpToDate(codec, points, chunks[k]);
    }
    forall id | forall k | 0 <= k < n :: chunks[k].id != id ensures SameAt(points, out.points, id) {
      WrittenElsewhere(codec, points, hashes, chunks, 0, n, id);
    }
  }

  /** Being due and being out of date are the same. */
  lemma {:induction false} DueAreOutOfDate(codec: Codec, points: Points, chunks: seq<Chunk>, i: nat, id: string)
    requires IsHash(codec) && Coherent(codec, points) && i <= |chunks|
    ensures id in StaleIds(codec, Hashes(points), chunks, i, |chunks|) <==>
            exists k :: i <= k < |chunks| && chunks[k].id == id && !UpToDate(codec, points, chunks[k])
    decreases |chunks| - i
  {
    hide Stale, UpToDate, Coherent, IsHash;
    if i < |chunks| {
      DueAreOutOfDate(codec, points, chunks, i + 1, id);
      FreshHashMeansUpToDate(codec, points, chunks[i]);
    }
  }

  /** However a run ends, the chunks it stored are done for good: what is due afterwards is the
      rest of what was due, from the first chunk that was not stored. */
  lemma RunLeavesTheRest(codec: Codec, points: Points, chunks: seq<Chunk>, trouble: nat -> Trouble) returns (j: nat)
    requires IsHash(codec) && DistinctIds(chunks)
    ensures var out := Indexed(codec, points, chunks, trouble);
            var due := Due(codec, points, chunks);
            var left := Due(codec, out.points, chunks);
            && j <= |chunks|
            && out.points == Written(codec, points, Hashes(points), chunks, 0, j)
            && left == StaleIds(codec, Hashes(points), chunks, j, |chunks|)
            && due == StaleIds(codec, Hashes(points), chunks, 0, j) + left
            && (out.ok ==> j == |chunks| && left == [])
            && (out.embedded + left == due
                || (!out.ok && out.embedded != [] && out.embedded[..|out.embedded| - 1] + left == due))
  {
    hide Stale, Written, StaleIds, IsHash;
    var hashes, n := Hashes(points), |chunks|;
    j := IndexStops(codec, points, hashes, chunks, 0, trouble);
    var now := Written(codec, points, hashes, chunks, 0, j);
    forall k | 0 <= k < n ensures Stale(codec, Hashes(now), chunks[k]) <==> k >= j && Stale(codec, hashes, chunks[k]) {
      StaleAfter(codec, points, chunks, j, k);
    }
    Split(codec, points, hashes, chunks, 0, j, n);
    Split(codec, now, Hashes(now), chunks, 0, j, n);
    NoneStale(codec, Hashes(now), chunks, 0, j);
    SameStale(codec, Hashes(now), hashes, chunks, j, n);
    if j == n {
      NoneStale(codec, Hashes(now), chunks, n, n);
    }
  }

  /** Running again after a run of any outcome, until one succeeds, ends in the very points one
      undisturbed run would have stored; after a successful run there is nothing to embed. */
  lemma RerunsConverge(codec: Codec, points: Points, chunks: seq<Chunk>, first: nat -> Trouble, second: nat -> Trouble)
    requires IsHash(codec) && DistinctIds(chunks)
    ensures var one := Indexed(codec, points, chunks, first);
            var two := Indexed(codec, one.points, chunks, second);
            && (one.ok ==> two == Outcome(one.points, true, []))
            && (two.ok ==> two.points == Indexed(codec, points, chunks, _ => Fine).points
                           && two.embedded == Due(codec, one.points, chunks))
  {
    hide Stale, StaleIds, Written, IsHash;
    var hashes, n := Hashes(points), |chunks|;
    var one := Indexed(codec, points, chunks, first);
    var two := Indexed(codec, one.points, chunks, second);
    var j := RunLeavesTheRest(codec, points, chunks, first);
    var i := IndexStops(codec, one.points, Hashes(one.points), chunks, 0, second);
    var all := IndexStops(codec, points, hashes, chunks, 0, _ => Fine);
    FineSucceeds(codec, points, hashes, chunks, 0);
    forall k | 0 <= k < n
      ensures Stale(codec, Hashes(one.points), chunks[k]) <==> k >= j && Stale(codec, hashes, chunks[k])
    {
      StaleAfter(codec, points, chunks, j, k);
    }
    Split(codec, points, hashes, chunks, 0, j, n);
    Split(codec, one.points, Hashes(one.points), chunks, 0, j, n);
    NoneStale(codec, Hashes(one.points), chunks, 0, j);
    SameStale(codec, Hashes(one.points), hashes, chunks, j, n);
    if one.ok {
      IdleRun(codec, one.points, Hashes(one.points), chunks, 0, second);
    }
  }

  /** The points after a series of runs. */
  function AfterRuns(codec: Codec, points: Points, chunks: seq<Chunk>, runs: seq<nat -> Trouble>): Points
    decreases |runs|
  {
    if runs == [] then points
    else AfterRuns(codec, Indexed(codec, points, chunks, runs[0]).points, chunks, runs[1..])
  }

  /** Any number of interrupted runs followed by one undisturbed run gives what that run alone
      would have given. */
  lemma {:induction false} InterruptionsLeaveNoTrace(codec: Codec, points: Points, chunks: seq<Chunk>,
                                                     runs: seq<nat -> Trouble>)
    requires IsHash(codec) && DistinctIds(chunks)
    ensures Indexed(codec, AfterRuns(codec, points, chunks, runs), chunks, _ => Fine).points ==
            Indexed(codec, points, chunks, _ => Fine).points
    decreases |runs|
  {
    hide IsHash;
    if runs != [] {
      var one := Indexed(codec, points, chunks, runs[0]);
      RerunsConverge(codec, points, chunks, runs[0], _ => Fine);
      FineSucceeds(codec, one.points, Hashes(one.points), chunks, 0);
      InterruptionsLeaveNoTrace(codec, one.points, chunks, runs[1..]);
    }
  }

  lemma {:induction false} FineSucceeds(codec: Codec, points: Points, hashes: map<string, string>,
                                        chunks: seq<Chunk>, i: nat)
    requires i <= |chunks|
    ensures IndexFrom(codec, points, hashes, chunks, i, _ => Fine).ok
    decreases |chunks| - i
  {
    if i < |chunks| {
      FineSucceeds(codec, points, hashes, chunks, i + 1);
      FineSucceeds(codec, points[chunks[i].id := Fresh(codec, chunks[i])], hashes, chunks, i + 1);
    }
  }

  lemma {:induction false} IdleRun(codec: Codec, points: Points, hashes: map<string, string>,
                                   chunks: seq<Chunk>, i: nat, trouble: nat -> Trouble)
    requires i <= |chunks| && forall k | i <= k < |chunks| :: !Stale(codec, hashes, chunks[k])
    ensures IndexFrom(codec, points, hashes, chunks, i, trouble) == Outcome(points, true, [])
    decreases |chunks| - i
  {
    if i < |chunks| {
      IdleRun(codec, points, hashes, chunks, i + 1, trouble);
    }
  }

  /** The rest of the payload is refreshed with the content only: after a successful run a
      stored point equals the rebuilt one exactly when its chunk was due or its other payload
      had not changed. */
  lemma PayloadMayBeOld(codec: Codec, points: Points, chunks: seq<Chunk>, trouble: nat -> Trouble, k: nat)
    requires IsHash(codec) && Coherent(codec, points) && DistinctIds(chunks) && k < |chunks|
    requires Indexed(codec, points, chunks, trouble).ok
    ensures var c, out := chunks[k], Indexed(codec, points, chunks, trouble);
            c.id in out.points
            && (out.points[c.id] == Fresh(codec, c) <==>
                (UpToDate(codec, points, c) ==> points[c.id].meta == c.meta))
  {
    var hashes := Hashes(points);
    var j := IndexStops(codec, points, hashes, chunks, 0, trouble);
    WrittenThere(codec, points, hashes, chunks, 0, |chunks|, k);
    FreshHashMeansUpToDate(codec, points, chunks[k]);
  }
}
