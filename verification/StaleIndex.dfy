/** The index is never pruned: how many points of removed chunks it may hold before retrieval
    can fall short. */
module StaleIndex {
  import opened Basics
  import opened Sorting
  import opened Tokenizer
  import opened Bm25
  import opened VectorStore
  import opened Retriever

  /** One retrieval: the query, the points of the index, how near they are to the query, and
      what the outside answers. */
  datatype Situation = Situation(
    ln: real -> real, a: Alphabet, query: string,
    points: Points, similarity: Vector -> real, outside: Outside)

  /** The index holds the chunks and the removed ids, and the vector answer is one it can give. */
  ghost predicate Possible(x: Situation, chunks: seq<Chunk>, stale: set<string>, wanted: nat) {
    && IsLog(x.ln) && x.points.Keys == LiveIds(chunks) + stale
    && (x.outside.nearest(wanted).Some? ==>
          Nearest(Ids(x.outside.nearest(wanted).value), x.points, x.similarity, wanted))
  }

  function Answer(x: Situation, chunks: seq<Chunk>, settings: Settings, asked: nat): Result<seq<Hit>, Failure>
    requires settings.rrfK > 0
  {
    Retrieved(chunks, settings, RankMap(Ranking(x.ln, x.a, x.query, chunks)), asked, x.outside)
  }

  /** As many hits as asked for, or one for every chunk. */
  predicate Full(x: Situation, chunks: seq<Chunk>, settings: Settings, asked: nat)
    requires settings.rrfK > 0
  {
    var r := Answer(x, chunks, settings, asked);
    r.Ok? ==> |r.value| == Min(asked, |LiveIds(chunks)|)
  }

  ghost predicate AlwaysFull(chunks: seq<Chunk>, settings: Settings, asked: nat, stale: set<string>)
    requires settings.rrfK > 0
  {
    forall x | Possible(x, chunks, stale, Max(settings.candidateK, asked)) :: Full(x, chunks, settings, asked)
  }

  /** Every answer is full, whatever the query and the vectors, exactly when the removed ids
      leave room for the hits among the candidates of the vector search. */
  lemma FullExactlyWhenRoom(chunks: seq<Chunk>, settings: Settings, asked: nat, stale: set<string>)
    requires settings.rrfK > 0 && asked > 0 && stale !! LiveIds(chunks)
    ensures AlwaysFull(chunks, settings, asked, stale) <==>
            chunks == [] || |stale| + Min(asked, |LiveIds(chunks)|) <= Max(settings.candidateK, asked)
  {
    hide Possible, Full, Short, LiveIds;
    var wanted := Max(settings.candidateK, asked);
    if chunks == [] || |stale| + Min(asked, |LiveIds(chunks)|) <= wanted {
      forall x | Possible(x, chunks, stale, wanted) ensures Full(x, chunks, settings, asked) {
        RoomMeansFull(x, chunks, settings, asked, stale);
      }
    } else {
      var x := CrowdedOut(chunks, settings, asked, stale);
      ShortIsNotFull(x, chunks, settings, asked);
    }
  }

  /** With the default candidate number and top five of at least five chunks, fifteen removed
      ids are tolerated and a sixteenth is not. */
  lemma DefaultToleratesFifteen(chunks: seq<Chunk>, stale: set<string>)
    requires stale !! LiveIds(chunks) && |LiveIds(chunks)| >= 5
    ensures AlwaysFull(chunks, Settings(60, 20, false, 0), Asked(0), stale) <==> |stale| <= 15
  {
    FullExactlyWhenRoom(chunks, Settings(60, 20, false, 0), 5, stale);
    assert chunks == [] ==> LiveIds(chunks) == {};
  }

  /** One chunk in place of a removed one, and a single candidate: the answer can be empty. */
  lemma OneRemovedChunkHidesTheOther() returns (x: Situation)
    ensures var chunks := [Chunk("new", "", "text", "")];
            && Possible(x, chunks, {"old"}, 1)
            && Answer(x, chunks, Settings(60, 1, false, 0), 1) == Ok([])
  {
    var chunks := [Chunk("new", "", "text", "")];
    assert LiveIds(chunks) == {"new"};
    hide LiveIds, Possible, Answer;
    x := CrowdedOut(chunks, Settings(60, 1, false, 0), 1, {"old"});
  }

  // ---- enough room ----

  lemma RoomMeansFull(x: Situation, chunks: seq<Chunk>, settings: Settings, asked: nat, stale: set<string>)
    requires settings.rrfK > 0 && asked > 0 && Possible(x, chunks, stale, Max(settings.candidateK, asked))
    requires chunks == [] || |stale| + Min(asked, |LiveIds(chunks)|) <= Max(settings.candidateK, asked)
    ensures Full(x, chunks, settings, asked)
  {
    hide Retrieved, Ranking, RankMap, Nearest, LiveIds;
    var bm25 := RankMap(Ranking(x.ln, x.a, x.query, chunks));
    var wanted := Max(settings.candidateK, asked);
    if Answer(x, chunks, settings, asked).Ok? {
      ResultCount(chunks, settings, bm25, asked, x.outside);
      var found := x.outside.nearest(wanted).value;
      FoundIds(found, x.points, x.similarity, wanted);
      FoundCount(found, x.points, x.similarity, wanted);
      NoChunksNoIds(chunks);
      EnoughLive(IdSet(found), LiveIds(chunks), stale, wanted, Min(asked, |LiveIds(chunks)|));
      RankedLive(bm25.Keys, IdSet(found), LiveIds(chunks));
    }
  }

  lemma NoChunksNoIds(chunks: seq<Chunk>)
    ensures chunks == [] <==> LiveIds(chunks) == {}
  {
    assert chunks != [] ==> chunks[0].id in LiveIds(chunks);
  }

  lemma FoundCount(found: seq<Scored>, points: Points, similarity: Vector -> real, wanted: nat)
    requires Nearest(Ids(found), points, similarity, wanted)
    ensures |found| == if 0 < wanted < |points.Keys| then wanted else |points.Keys|
  {
    assert |points| == |points.Keys|;
  }

  lemma EnoughLive(ids: set<string>, live: set<string>, stale: set<string>, wanted: nat, m: nat)
    requires ids <= live + stale && wanted > 0
    requires |ids| == if 0 < wanted < |live + stale| then wanted else |live + stale|
    requires m <= |live| && (m == 0 || |stale| + m <= wanted)
    ensures |ids * live| >= m
  {
    if wanted < |live + stale| {
      AtLeastTheRest(ids, live, stale);
    } else {
      Subset(ids, live + stale);
      assert ids * live == live;
    }
  }

  lemma RankedLive(bm25: set<string>, ids: set<string>, live: set<string>)
    ensures |ids * live| <= |(bm25 + ids) * live| <= |live|
  {
    Subset(ids * live, (bm25 + ids) * live);
    Subset((bm25 + ids) * live, live);
  }

  lemma AtLeastTheRest(ids: set<string>, live: set<string>, stale: set<string>)
    requires ids <= live + stale
    ensures |ids * live| + |stale| >= |ids|
  {
    assert ids == ids * live + (ids - live);
    Subset(ids - live, stale);
  }

  // ---- too little room ----

  /** An answer with fewer hits than it should have. */
  predicate Short(x: Situation, chunks: seq<Chunk>, settings: Settings, asked: nat)
    requires settings.rrfK > 0
  {
    var r := Answer(x, chunks, settings, asked);
    r.Ok? && |r.value| < Min(asked, |LiveIds(chunks)|)
  }

  lemma ShortIsNotFull(x: Situation, chunks: seq<Chunk>, settings: Settings, asked: nat)
    requires settings.rrfK > 0 && Short(x, chunks, settings, asked)
    ensures !Full(x, chunks, settings, asked)
  {
    hide Answer;
  }

  /** A query that matches nothing, and removed points nearer than all others. */
  lemma CrowdedOut(chunks: seq<Chunk>, settings: Settings, asked: nat, stale: set<string>) returns (x: Situation)
    requires settings.rrfK > 0 && asked > 0 && stale !! LiveIds(chunks) && chunks != []
    requires |stale| + Min(asked, |LiveIds(chunks)|) > Max(settings.candidateK, asked)
    ensures Possible(x, chunks, stale, Max(settings.candidateK, asked)) && Short(x, chunks, settings, asked)
  {
    hide Possible, Short, IsStaleFirst, LiveIds;
    var found := StaleFirst(stale, LiveIds(chunks), Max(settings.candidateK, asked));
    x := Crowd(LiveIds(chunks), stale, found);
    CrowdIsPossible(chunks, stale, found, Max(settings.candidateK, asked));
    CrowdIsNotFull(chunks, settings, asked, stale, found);
  }

  function StalePoints(live: set<string>, stale: set<string>): Points {
    map id | id in live + stale :: Point(if id in stale then [1.0] else [0.0], None, "")
  }

  function FirstComponent(v: Vector): real {
    if |v| > 0 then v[0] else 0.0
  }

  function Indifferent(texts: seq<string>): Option<seq<real>> {
    Some(seq(|texts|, _ => 0.0))
  }

  function Crowd(live: set<string>, stale: set<string>, found: seq<Scored>): Situation {
    Situation(_ => 1.0, Alphabet(_ => false, _ => false, c => c), [],
              StalePoints(live, stale), FirstComponent, Outside(_ => Some(found), Indifferent))
  }

  lemma CrowdIsPossible(chunks: seq<Chunk>, stale: set<string>, found: seq<Scored>, wanted: nat)
    requires stale !! LiveIds(chunks) && 0 < wanted < |stale| + |LiveIds(chunks)|
    requires IsStaleFirst(found, stale, LiveIds(chunks), wanted)
    ensures Possible(Crowd(LiveIds(chunks), stale, found), chunks, stale, wanted)
  {
    hide LiveIds, Nearest, IsStaleFirst;
    StaleFirstIsNearest(found, stale, LiveIds(chunks), wanted);
  }

  lemma CrowdIsNotFull(chunks: seq<Chunk>, settings: Settings, asked: nat, stale: set<string>, found: seq<Scored>)
    requires settings.rrfK > 0 && asked > 0 && stale !! LiveIds(chunks) && chunks != []
    requires |stale| + Min(asked, |LiveIds(chunks)|) > Max(settings.candidateK, asked)
    requires IsStaleFirst(found, stale, LiveIds(chunks), Max(settings.candidateK, asked))
    ensures Short(Crowd(LiveIds(chunks), stale, found), chunks, settings, asked)
  {
    hide LiveIds, RankMap, Ranking, IsStaleFirst, Retrieved, Nearest;
    var x, wanted := Crowd(LiveIds(chunks), stale, found), Max(settings.candidateK, asked);
    StaleFirstIsNearest(found, stale, LiveIds(chunks), wanted);
    NoTermMatches(x.ln, x.a, chunks);
    NoChunksNoIds(chunks);
    FewLiveFound(found, chunks, stale, x.points, x.similarity, wanted);
    AnswersAreOk(chunks, settings, map[], asked, x.outside);
    ResultCount(chunks, settings, map[], asked, x.outside);
  }

  lemma AnswersAreOk(chunks: seq<Chunk>, settings: Settings, bm25: Ranks, asked: nat, outside: Outside)
    requires settings.rrfK > 0 && outside.nearest(Max(settings.candidateK, asked)).Some?
    requires forall texts :: outside.rerank(texts).Some? && |outside.rerank(texts).value| == |texts|
    ensures Retrieved(chunks, settings, bm25, asked, outside).Ok?
  {
    hide RankMap, Fused, ChunkMap, Reranked;
    var found := outside.nearest(Max(settings.candidateK, asked)).value;
    FusedIdsAreMapped(chunks, bm25, RankMap(found), settings.rrfK);
  }

  lemma NoTermMatches(ln: real -> real, a: Alphabet, chunks: seq<Chunk>)
    ensures RankMap(Ranking(ln, a, [], chunks)) == map[]
  {
    assert Tokens(a, []) == [];
  }

  lemma {:induction false} Listing(ids: set<string>) returns (s: seq<string>)
    ensures |s| == |ids| && (forall i, j | 0 <= i < j < |s| :: s[i] != s[j]) && (forall id :: id in s <==> id in ids)
  {
    s := [];
    if ids != {} {
      var id :| id in ids;
      var rest := Listing(ids - {id});
      s := [id] + rest;
    }
  }

  /** An answer of `wanted` ids with the removed ones first. */
  ghost predicate IsStaleFirst(found: seq<Scored>, stale: set<string>, live: set<string>, wanted: nat) {
    && |found| == wanted && DistinctScored(found)
    && (forall i | 0 <= i < |found| :: found[i].id in (if i < |stale| then stale else live))
  }

  lemma StaleFirst(stale: set<string>, live: set<string>, wanted: nat) returns (found: seq<Scored>)
    requires stale !! live && wanted <= |stale| + |live|
    ensures IsStaleFirst(found, stale, live, wanted)
  {
    var s := Listing(stale);
    var l := Listing(live);
    found := seq(wanted, i requires 0 <= i < wanted => Scored(if i < |s| then s[i] else l[i - |s|], 0.0));
    forall i | 0 <= i < wanted ensures found[i].id == if i < |s| then s[i] else l[i - |s|] {
    }
    forall i | 0 <= i < wanted ensures found[i].id in (if i < |stale| then stale else live) {
    }
  }

  lemma StaleFirstIsNearest(found: seq<Scored>, stale: set<string>, live: set<string>, wanted: nat)
    requires IsStaleFirst(found, stale, live, wanted) && stale !! live && 0 < wanted < |stale| + |live|
    ensures Nearest(Ids(found), StalePoints(live, stale), FirstComponent, wanted)
  {
    FoundScores(found, stale, live, wanted);
    if wanted > |stale| {
      AllStaleFound(found, stale, live, wanted);
    }
    OtherScores(stale, live);
    hide StalePoints, FirstComponent, IsStaleFirst;
    var points := StalePoints(live, stale);
    assert |points| == |points.Keys| == |live| + |stale|;
  }

  lemma FoundScores(found: seq<Scored>, stale: set<string>, live: set<string>, wanted: nat)
    requires IsStaleFirst(found, stale, live, wanted) && stale !! live
    ensures var points := StalePoints(live, stale);
            forall i | 0 <= i < |found| ::
              && Ids(found)[i] == found[i].id && found[i].id in points
              && FirstComponent(points[found[i].id].vector) == if i < |stale| then 1.0 else 0.0
    ensures forall i, j | 0 <= i < j < |found| :: found[i].id != found[j].id
  {
  }

  lemma OtherScores(stale: set<string>, live: set<string>)
    ensures var points := StalePoints(live, stale);
            && points.Keys == live + stale
            && forall id | id in points :: FirstComponent(points[id].vector) == if id in stale then 1.0 else 0.0
  {
  }

  /** Once the removed ids fit, all of them are found. */
  lemma AllStaleFound(found: seq<Scored>, stale: set<string>, live: set<string>, wanted: nat)
    requires IsStaleFirst(found, stale, live, wanted) && wanted >= |stale|
    ensures forall id | id in stale :: id in Ids(found)
  {
    var first := found[..|stale|];
    IdSetSize(first);
    Subset(IdSet(first), stale);
    forall id | id in stale ensures id in Ids(found) {
      var x :| x in first && x.id == id;
      var i :| 0 <= i < |first| && first[i] == x;
      assert Ids(found)[i] == id;
    }
  }

  lemma FewLiveFound(found: seq<Scored>, chunks: seq<Chunk>, stale: set<string>, points: Points,
                     similarity: Vector -> real, wanted: nat)
    requires var live := LiveIds(chunks);
             && IsStaleFirst(found, stale, live, wanted) && stale !! live
             && Nearest(Ids(found), points, similarity, wanted)
    ensures var none: Ranks := map[];
            |(none.Keys + RankMap(found).Keys) * LiveIds(chunks)| ==
            if wanted > |stale| then wanted - |stale| else 0
  {
    hide LiveIds, Nearest;
    var live, ids := LiveIds(chunks), IdSet(found);
    FoundIds(found, points, similarity, wanted);
    var none: Ranks := map[];
    assert none.Keys + RankMap(found).Keys == ids;
    hide RankMap;
    LiveAmongFound(found, stale, live, wanted);
  }

  lemma LiveAmongFound(found: seq<Scored>, stale: set<string>, live: set<string>, wanted: nat)
    requires IsStaleFirst(found, stale, live, wanted) && stale !! live
    ensures |IdSet(found) * live| == if wanted > |stale| then wanted - |stale| else 0
  {
    var ids := IdSet(found);
    IdSetSize(found);
    if wanted > |stale| {
      AllStaleFound(found, stale, live, wanted);
      OfFound(found, stale + live);
      assert ids == stale + ids * live;
    } else {
      OfFound(found, stale);
      assert ids * live == {};
    }
  }

  lemma OfFound(found: seq<Scored>, ids: set<string>)
    requires forall i | 0 <= i < |found| :: found[i].id in ids
    ensures IdSet(found) <= ids && forall i | 0 <= i < |found| :: Ids(found)[i] in IdSet(found)
  {
    forall i | 0 <= i < |found| ensures Ids(found)[i] in IdSet(found) { assert found[i] in found; }
  }
}
