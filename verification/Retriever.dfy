/** Hybrid retrieval: BM25 ranks and vector ranks fused by reciprocal rank, then optionally
    reranked. The embedder, the vector search and the reranker are answers from outside. */
module Retriever {
  import opened Basics
  import opened Sorting
  import opened Tokenizer
  import opened Bm25
  import opened VectorStore

  datatype Hit = Hit(chunk: Chunk, score: real)

  datatype Failure = SearchFailed | RerankFailed | WrongScoreCount

  type Ranks = map<string, nat>

  // ---- reciprocal rank fusion ----

  /** The ranks of an id, in the order of the lists. */
  function RanksIn(bm25: Ranks, vector: Ranks, id: string): (rs: seq<nat>)
    ensures rs == [] <==> id !in bm25 && id !in vector
  {
    (if id in bm25 then [bm25[id]] else []) + (if id in vector then [vector[id]] else [])
  }

  function RrfScore(rs: seq<nat>, k: nat): real
    requires k > 0
  {
    if rs == [] then 0.0 else RrfScore(rs[..|rs| - 1], k) + 1.0 / (k + rs[|rs| - 1]) as real
  }

  // ---- the fused list ----

  function ChunkMap(chunks: seq<Chunk>): map<string, Chunk> {
    if chunks == [] then map[] else ChunkMap(chunks[..|chunks| - 1])[chunks[|chunks| - 1].id := chunks[|chunks| - 1]]
  }

  function LiveIds(chunks: seq<Chunk>): set<string> {
    set c | c in chunks :: c.id
  }

  /** The ranked ids with their scores, each where the chunks first name it. */
  function Candidates(chunks: seq<Chunk>, bm25: Ranks, vector: Ranks, k: nat): seq<Scored>
    requires k > 0
  {
    if chunks == [] then []
    else
      var id := chunks[|chunks| - 1].id;
      var rs := RanksIn(bm25, vector, id);
      var init := chunks[..|chunks| - 1];
      Candidates(init, bm25, vector, k) + if rs == [] || id in LiveIds(init) then [] else [Scored(id, RrfScore(rs, k))]
  }

  function Fused(chunks: seq<Chunk>, bm25: Ranks, vector: Ranks, k: nat): seq<Scored>
    requires k > 0
  {
    Sort(Candidates(chunks, bm25, vector, k), Ahead)
  }

  function Asked(topK: int): nat {
    if topK <= 0 then 5 else topK
  }

  function Cut<T>(s: seq<T>, n: nat): seq<T> {
    if n < |s| then s[..n] else s
  }

  function Rescored(list: seq<Scored>, scores: seq<real>): (r: seq<Scored>)
    requires |list| == |scores|
    ensures |r| == |list|
  {
    seq(|list|, i requires 0 <= i < |list| => Scored(list[i].id, scores[i]))
  }

  function Texts(list: seq<Scored>, chunkMap: map<string, Chunk>): seq<string>
    requires forall x | x in list :: x.id in chunkMap
  {
    seq(|list|, i requires 0 <= i < |list| => assert list[i] in list; Text(chunkMap[list[i].id]))
  }

  function Hits(list: seq<Scored>, chunkMap: map<string, Chunk>): (hits: seq<Hit>)
    requires forall x | x in list :: x.id in chunkMap
    ensures |hits| == |list|
  {
    seq(|list|, i requires 0 <= i < |list| => assert list[i] in list; Hit(chunkMap[list[i].id], list[i].score))
  }

  // ---- retrieval ----

  /** What the outside answers: the nearest points for a wanted number, and relevance scores
      for a list of texts; no answer is an error. */
  datatype Outside = Outside(nearest: nat -> Option<seq<Scored>>, rerank: seq<string> -> Option<seq<real>>)

  datatype Settings = Settings(rrfK: nat, candidateK: nat, reranks: bool, rerankCandidateK: nat)

  function Retrieved(chunks: seq<Chunk>, settings: Settings, bm25: Ranks, asked: nat,
                     outside: Outside): Result<seq<Hit>, Failure>
    requires settings.rrfK > 0
  {
    match outside.nearest(Max(settings.candidateK, asked))
    case None => Err(SearchFailed)
    case Some(found) =>
      FusedIdsAreMapped(chunks, bm25, RankMap(found), settings.rrfK);
      var list, chunkMap := Fused(chunks, bm25, RankMap(found), settings.rrfK), ChunkMap(chunks);
      if settings.reranks && list != [] then
        var first := Cut(list, Max(settings.rerankCandidateK, asked));
        match outside.rerank(Texts(first, chunkMap))
        case None => Err(RerankFailed)
        case Some(scores) =>
          if |scores| != |first| then Err(WrongScoreCount)
          else
            RerankedIds(first, scores);
            Ok(Hits(Cut(Reranked(first, scores), asked), chunkMap))
      else Ok(Hits(Cut(list, asked), chunkMap))
  }

  function Reranked(first: seq<Scored>, scores: seq<real>): seq<Scored>
    requires |first| == |scores|
  {
    Sort(Rescored(first, scores), Higher)
  }

  /** Of two chunks with one id the later counts. */
  lemma {:induction false} ChunkMapIs(chunks: seq<Chunk>)
    ensures ChunkMap(chunks).Keys == LiveIds(chunks)
    ensures forall id | id in ChunkMap(chunks) :: ChunkMap(chunks)[id] in chunks && ChunkMap(chunks)[id].id == id
  {
    if chunks != [] {
      var init, c := chunks[..|chunks| - 1], chunks[|chunks| - 1];
      ChunkMapIs(init);
      assert chunks == init + [c];
      IdsOfOneMore(init, c);
    }
  }

  lemma IdsOfOneMore(init: seq<Chunk>, c: Chunk)
    ensures LiveIds(init + [c]) == LiveIds(init) + {c.id}
  {
  }

  ghost predicate IsCandidate(x: Scored, chunks: seq<Chunk>, bm25: Ranks, vector: Ranks, k: nat)
    requires k > 0
  {
    && x.id in LiveIds(chunks)
    && RanksIn(bm25, vector, x.id) != [] && x.score == RrfScore(RanksIn(bm25, vector, x.id), k)
  }

  /** Every candidate, once, and nothing else. */
  ghost predicate AreCandidates(list: seq<Scored>, chunks: seq<Chunk>, bm25: Ranks, vector: Ranks, k: nat)
    requires k > 0
  {
    DistinctScored(list) && forall x :: x in list <==> IsCandidate(x, chunks, bm25, vector, k)
  }

  lemma {:induction false} CandidatesAre(chunks: seq<Chunk>, bm25: Ranks, vector: Ranks, k: nat)
    requires k > 0
    ensures AreCandidates(Candidates(chunks, bm25, vector, k), chunks, bm25, vector, k)
  {
    if chunks != [] {
      var init, c := chunks[..|chunks| - 1], chunks[|chunks| - 1];
      CandidatesAre(init, bm25, vector, k);
      OneMoreCandidate(init, c, bm25, vector, k);
      assert chunks == init + [c];
    }
  }

  lemma OneMoreCandidate(init: seq<Chunk>, c: Chunk, bm25: Ranks, vector: Ranks, k: nat)
    requires k > 0
    requires AreCandidates(Candidates(init, bm25, vector, k), init, bm25, vector, k)
    ensures AreCandidates(Candidates(init + [c], bm25, vector, k), init + [c], bm25, vector, k)
  {
    hide RrfScore, RanksIn, Candidates, LiveIds;
    CandidatesOfOneMore(init, c, bm25, vector, k);
    IdsOfOneMore(init, c);
    var before := Candidates(init, bm25, vector, k);
    forall i | 0 <= i < |before| ensures before[i].id in LiveIds(init) {
      assert before[i] in before;
    }
  }

  lemma CandidatesOfOneMore(init: seq<Chunk>, c: Chunk, bm25: Ranks, vector: Ranks, k: nat)
    requires k > 0
    ensures var rs := RanksIn(bm25, vector, c.id);
            Candidates(init + [c], bm25, vector, k) ==
            Candidates(init, bm25, vector, k)
            + if rs == [] || c.id in LiveIds(init) then [] else [Scored(c.id, RrfScore(rs, k))]
  {
    assert (init + [c])[..|init|] == init;
  }

  /** The candidates are the ids that some list ranks and some chunk has, each once. */
  lemma CandidateIds(chunks: seq<Chunk>, bm25: Ranks, vector: Ranks, k: nat)
    requires k > 0
    ensures |Candidates(chunks, bm25, vector, k)| == |(bm25.Keys + vector.Keys) * LiveIds(chunks)|
  {
    hide RrfScore, LiveIds, Candidates;
    var candidates := Candidates(chunks, bm25, vector, k);
    CandidatesAre(chunks, bm25, vector, k);
    forall id ensures id in IdSet(candidates) <==> id in (bm25.Keys + vector.Keys) * LiveIds(chunks) {
      var x := Scored(id, RrfScore(RanksIn(bm25, vector, id), k));
      assert x in candidates <==> IsCandidate(x, chunks, bm25, vector, k);
      assert IsCandidate(x, chunks, bm25, vector, k) <==> id in (bm25.Keys + vector.Keys) * LiveIds(chunks);
    }
    assert IdSet(candidates) == (bm25.Keys + vector.Keys) * LiveIds(chunks);
    IdSetSize(candidates);
  }

  lemma SortKeeps(s: seq<Scored>)
    ensures var r := Sort(s, Ahead);
            && multiset(r) == multiset(s) && |r| == |s| && (forall x :: x in r <==> x in s)
            && (DistinctScored(s) ==> DistinctScored(r) && Descending(r))
  {
    hide Ahead;
    AheadIsOrder();
    SortOrders(s, Ahead);
    var r := Sort(s, Ahead);
    forall x ensures x in r <==> x in s { assert x in multiset(r) <==> x in multiset(s); }
    if DistinctScored(s) {
      DistinctPermutation(s, r);
    }
  }

  lemma FusedIdsAreMapped(chunks: seq<Chunk>, bm25: Ranks, vector: Ranks, k: nat)
    requires k > 0
    ensures forall x | x in Fused(chunks, bm25, vector, k) :: x.id in ChunkMap(chunks)
  {
    CandidatesAre(chunks, bm25, vector, k);
    SortKeeps(Candidates(chunks, bm25, vector, k));
    ChunkMapIs(chunks);
  }

  lemma RerankedIds(first: seq<Scored>, scores: seq<real>)
    requires |first| == |scores|
    ensures |Reranked(first, scores)| == |first|
    ensures forall x | x in Reranked(first, scores) ::
              exists i :: 0 <= i < |first| && x == Scored(first[i].id, scores[i])
    ensures forall x | x in Reranked(first, scores) :: exists y :: y in first && y.id == x.id
    ensures DistinctScored(first) ==> DistinctScored(Reranked(first, scores))
    ensures Ordered(Reranked(first, scores), Higher)
  {
    HigherIsOrder();
    var rescored := Rescored(first, scores);
    SortOrders(rescored, Higher);
    var r := Reranked(first, scores);
    forall x | x in r
      ensures exists i :: 0 <= i < |first| && x == Scored(first[i].id, scores[i])
      ensures exists y :: y in first && y.id == x.id
    {
      assert x in multiset(rescored);
      var i :| 0 <= i < |rescored| && rescored[i] == x;
      assert first[i] in first;
    }
    if DistinctScored(first) {
      DistinctPermutation(rescored, r);
    }
  }

  // ---- how many, and which ----

  /** The fused list holds each chunk once that either list ranks, by descending fused score
      and then by id. */
  lemma FusedIsExact(chunks: seq<Chunk>, bm25: Ranks, vector: Ranks, k: nat)
    requires k > 0
    ensures var list := Fused(chunks, bm25, vector, k);
            && DistinctScored(list) && Descending(list)
            && forall x :: x in list <==> IsCandidate(x, chunks, bm25, vector, k)
  {
    CandidatesAre(chunks, bm25, vector, k);
    SortKeeps(Candidates(chunks, bm25, vector, k));
  }

  /** Every answer is `asked` chunks, or all that either list ranks, each once. */
  lemma ResultCount(chunks: seq<Chunk>, settings: Settings, bm25: Ranks, asked: nat, outside: Outside)
    requires settings.rrfK > 0
    requires Retrieved(chunks, settings, bm25, asked, outside).Ok?
    ensures var found := outside.nearest(Max(settings.candidateK, asked));
            var hits := Retrieved(chunks, settings, bm25, asked, outside).value;
            && found.Some?
            && |hits| == Min(asked, |(bm25.Keys + RankMap(found.value).Keys) * LiveIds(chunks)|)
            && (forall i, j | 0 <= i < j < |hits| :: hits[i].chunk.id != hits[j].chunk.id)
            && (forall i | 0 <= i < |hits| :: hits[i].chunk in chunks)
  {
    hide Sort, Candidates, RankMap, RanksIn, RrfScore, ChunkMap, LiveIds;
    var vector := RankMap(outside.nearest(Max(settings.candidateK, asked)).value);
    var list := Fused(chunks, bm25, vector, settings.rrfK);
    FusedIdsAreMapped(chunks, bm25, vector, settings.rrfK);
    FusedIsExact(chunks, bm25, vector, settings.rrfK);
    CandidateIds(chunks, bm25, vector, settings.rrfK);
    SortKeeps(Candidates(chunks, bm25, vector, settings.rrfK));
    if settings.reranks && list != [] {
      var first := Cut(list, Max(settings.rerankCandidateK, asked));
      var scores := outside.rerank(Texts(first, ChunkMap(chunks))).value;
      RerankedIds(first, scores);
      HitsAreChunks(chunks, Cut(Reranked(first, scores), asked));
    } else {
      HitsAreChunks(chunks, Cut(list, asked));
    }
  }

  lemma HitsAreChunks(chunks: seq<Chunk>, list: seq<Scored>)
    requires DistinctScored(list) && forall x | x in list :: x.id in ChunkMap(chunks)
    ensures var hits := Hits(list, ChunkMap(chunks));
            && (forall i | 0 <= i < |hits| :: hits[i].chunk.id == list[i].id && hits[i].chunk in chunks)
            && (forall i, j | 0 <= i < j < |hits| :: hits[i].chunk.id != hits[j].chunk.id)
  {
    ChunkMapIs(chunks);
    forall i | 0 <= i < |list| ensures list[i].id in ChunkMap(chunks) { assert list[i] in list; }
  }

  /** With an index that holds exactly the chunks, retrieval returns as many as asked for, or
      all there are, with or without a reranker. */
  lemma FullIndexFillsTheAnswer(chunks: seq<Chunk>, settings: Settings, bm25: Ranks, asked: nat, outside: Outside,
                                points: Points, similarity: Vector -> real)
    requires settings.rrfK > 0 && asked > 0
    requires Retrieved(chunks, settings, bm25, asked, outside).Ok?
    requires points.Keys == LiveIds(chunks)
    requires var wanted := Max(settings.candidateK, asked);
             outside.nearest(wanted).Some? ==> Nearest(Ids(outside.nearest(wanted).value), points, similarity, wanted)
    ensures |Retrieved(chunks, settings, bm25, asked, outside).value| == Min(asked, |LiveIds(chunks)|)
    ensures DistinctIds(chunks) ==> |LiveIds(chunks)| == |chunks|
  {
    hide LiveIds, Retrieved;
    ResultCount(chunks, settings, bm25, asked, outside);
    var wanted := Max(settings.candidateK, asked);
    var found := outside.nearest(wanted).value;
    FoundIds(found, points, similarity, wanted);
    Subset(IdSet(found), (bm25.Keys + RankMap(found).Keys) * LiveIds(chunks));
    Subset((bm25.Keys + RankMap(found).Keys) * LiveIds(chunks), LiveIds(chunks));
    assert |points| == |points.Keys|;
    if DistinctIds(chunks) {
      IdCount(chunks);
    }
  }

  /** The ids of a vector answer, each ranked, all of them of points. */
  lemma FoundIds(found: seq<Scored>, points: Points, similarity: Vector -> real, wanted: nat)
    requires Nearest(Ids(found), points, similarity, wanted)
    ensures DistinctScored(found) && RankMap(found).Keys == IdSet(found) <= points.Keys && |IdSet(found)| == |found|
  {
    assert forall i | 0 <= i < |found| :: Ids(found)[i] == found[i].id;
    hide RankMap;
    RankedIds(found);
    IdSetSize(found);
  }

  lemma RankedIds(items: seq<Scored>)
    requires DistinctScored(items)
    ensures RankMap(items).Keys == IdSet(items)
  {
    RankMapIs(items);
    hide RankMap, DistinctScored;
    forall id ensures id in RankMap(items) <==> id in IdSet(items) {
      if id in IdSet(items) {
        var x :| x in items && x.id == id;
        var i :| 0 <= i < |items| && items[i] == x;
      }
    }
  }

  lemma {:induction false} IdCount(chunks: seq<Chunk>)
    requires DistinctIds(chunks)
    ensures |LiveIds(chunks)| == |chunks|
  {
    if chunks != [] {
      var init, c := chunks[..|chunks| - 1], chunks[|chunks| - 1];
      IdCount(init);
      assert chunks == init + [c];
      IdsOfOneMore(init, c);
      NewId(init, c);
    }
  }

  lemma NewId(init: seq<Chunk>, c: Chunk)
    requires DistinctIds(init + [c])
    ensures c.id !in LiveIds(init)
  {
    var chunks := init + [c];
    assert chunks[|init|] == c && forall i | 0 <= i < |init| :: chunks[i] == init[i];
  }

  function IdSet(s: seq<Scored>): set<string> {
    set x | x in s :: x.id
  }

  lemma {:induction false} IdSetSize(s: seq<Scored>)
    requires DistinctScored(s)
    ensures |IdSet(s)| == |s|
  {
    if s != [] {
      var init, x := s[..|s| - 1], s[|s| - 1];
      IdSetSize(init);
      assert s == init + [x];
      IdSetOfOneMore(init, x);
    }
  }

  lemma IdSetOfOneMore(init: seq<Scored>, x: Scored)
    requires DistinctScored(init + [x])
    ensures IdSet(init + [x]) == IdSet(init) + {x.id} && x.id !in IdSet(init)
  {
    var s := init + [x];
    assert s[|init|] == x && forall i | 0 <= i < |init| :: s[i] == init[i];
  }

  // ---- dominance ----

  /** `x` ranks no worse than `y` in every list that holds `y`, and better in one of the two
      lists: strictly ahead of it, or listed where it is not. */
  predicate Dominates(bm25: Ranks, vector: Ranks, x: string, y: string) {
    && (y in bm25 ==> x in bm25 && bm25[x] <= bm25[y])
    && (y in vector ==> x in vector && vector[x] <= vector[y])
    && (Better(bm25, x, y) || Better(vector, x, y))
  }

  predicate Better(ranks: Ranks, x: string, y: string) {
    x in ranks && (y in ranks ==> ranks[x] < ranks[y])
  }

  /** The score contributed by one list. */
  function Part(ranks: Ranks, id: string, k: nat): real
    requires k > 0
  {
    if id in ranks then 1.0 / (k + ranks[id]) as real else 0.0
  }

  lemma ScoreIsSum(bm25: Ranks, vector: Ranks, id: string, k: nat)
    requires k > 0
    ensures RrfScore(RanksIn(bm25, vector, id), k) == Part(bm25, id, k) + Part(vector, id, k)
  {
    hide RrfScore;
    var rs := RanksIn(bm25, vector, id);
    RrfAppend([], 0, k);
    if id in bm25 {
      RrfAppend([], bm25[id], k);
      if id in vector {
        RrfAppend([bm25[id]], vector[id], k);
      } else {
        assert rs == [bm25[id]];
      }
    } else if id in vector {
      RrfAppend([], vector[id], k);
      assert rs == [vector[id]];
    } else {
      assert rs == [];
    }
  }

  lemma RrfAppend(rs: seq<nat>, r: nat, k: nat)
    requires k > 0
    ensures RrfScore(rs + [r], k) == RrfScore(rs, k) + 1.0 / (k + r) as real
    ensures rs == [] ==> rs + [r] == [r] && RrfScore(rs, k) == 0.0
  {
  }

  lemma DominatorScoresHigher(bm25: Ranks, vector: Ranks, x: string, y: string, k: nat)
    requires k > 0 && Dominates(bm25, vector, x, y)
    ensures RrfScore(RanksIn(bm25, vector, x), k) > RrfScore(RanksIn(bm25, vector, y), k)
  {
    ScoreIsSum(bm25, vector, x, k);
    ScoreIsSum(bm25, vector, y, k);
    PartFalls(bm25, x, y, k);
    PartFalls(vector, x, y, k);
  }

  lemma PartFalls(ranks: Ranks, x: string, y: string, k: nat)
    requires k > 0 && (y in ranks ==> x in ranks && ranks[x] <= ranks[y])
    ensures Part(ranks, x, k) >= Part(ranks, y, k)
    ensures Better(ranks, x, y) ==> Part(ranks, x, k) > Part(ranks, y, k)
  {
  }

  /** Without a reranker a dominating chunk comes before the one it dominates, and is never
      dropped in its favour. */
  lemma DominanceIsRespected(chunks: seq<Chunk>, settings: Settings, bm25: Ranks, asked: nat, outside: Outside,
                             x: string, j: nat)
    requires settings.rrfK > 0 && !settings.reranks && x in LiveIds(chunks)
    requires outside.nearest(Max(settings.candidateK, asked)).Some?
    requires var hits := Retrieved(chunks, settings, bm25, asked, outside).value;
             var vector := RankMap(outside.nearest(Max(settings.candidateK, asked)).value);
             j < |hits| && Dominates(bm25, vector, x, hits[j].chunk.id)
    ensures var hits := Retrieved(chunks, settings, bm25, asked, outside).value;
            exists i :: 0 <= i < j && hits[i].chunk.id == x
  {
    hide Sort, Candidates, RankMap, RrfScore, Dominates;
    var vector := RankMap(outside.nearest(Max(settings.candidateK, asked)).value);
    var k, list := settings.rrfK, Fused(chunks, bm25, vector, settings.rrfK);
    FusedIdsAreMapped(chunks, bm25, vector, k);
    FusedIsExact(chunks, bm25, vector, k);
    HitsAreChunks(chunks, Cut(list, asked));
    var y := list[j];
    assert y in list;
    DominatorScoresHigher(bm25, vector, x, y.id, k);
    ListedIfDominates(bm25, vector, x, y.id);
    var best := Scored(x, RrfScore(RanksIn(bm25, vector, x), k));
    assert IsCandidate(best, chunks, bm25, vector, k);
    var i :| 0 <= i < |list| && list[i] == best;
    HigherIsFirst(list, i, j);
  }

  lemma ListedIfDominates(bm25: Ranks, vector: Ranks, x: string, y: string)
    requires Dominates(bm25, vector, x, y)
    ensures RanksIn(bm25, vector, x) != []
  {
  }

  lemma HigherIsFirst(list: seq<Scored>, i: nat, j: nat)
    requires Descending(list) && i < |list| && j < |list| && list[i].score > list[j].score
    ensures i < j
  {
  }

  // ---- reranking ----

  /** The reranker only reorders the first candidates of the fused list: every hit is one of
      them with its relevance score, hits stand by descending score, and equal scores keep the
      fused order. */
  lemma RerankOnlyReorders(first: seq<Scored>, scores: seq<real>, asked: nat)
    requires |first| == |scores| && DistinctScored(first)
    ensures var r := Cut(Reranked(first, scores), asked);
            && |r| == Min(asked, |first|)
            && (forall x | x in r :: exists i :: 0 <= i < |first| && x == Scored(first[i].id, scores[i]))
            && (forall i, j | 0 <= i < j < |r| :: r[i].score >= r[j].score)
    ensures forall i, j | 0 <= i < j < |first| && scores[i] >= scores[j] ::
              Precedes(Reranked(first, scores), Scored(first[i].id, scores[i]), Scored(first[j].id, scores[j]))
  {
    RerankedIds(first, scores);
    HigherIsOrder();
    var rescored := Rescored(first, scores);
    forall i, j | 0 <= i < j < |first| && scores[i] >= scores[j]
      ensures Precedes(Reranked(first, scores), Scored(first[i].id, scores[i]), Scored(first[j].id, scores[j]))
    {
      assert rescored[i] == Scored(first[i].id, scores[i]) && rescored[j] == Scored(first[j].id, scores[j]);
      assert Precedes(rescored, rescored[i], rescored[j]);
      SortIsStable(rescored, Higher, rescored[i], rescored[j]);
    }
  }

  // ---- what a hit carries ----

  /** Of the chunks with its id, the last. */
  ghost predicate IsLatest(chunks: seq<Chunk>, c: Chunk) {
    exists i :: 0 <= i < |chunks| && chunks[i] == c && forall j | i < j < |chunks| :: chunks[j].id != c.id
  }

  lemma {:induction false} MappedIsLatest(chunks: seq<Chunk>, id: string)
    requires id in ChunkMap(chunks)
    ensures IsLatest(chunks, ChunkMap(chunks)[id]) && ChunkMap(chunks)[id].id == id
  {
    var init, c := chunks[..|chunks| - 1], chunks[|chunks| - 1];
    if c.id == id {
      assert chunks[|chunks| - 1] == c;
    } else {
      MappedIsLatest(init, id);
      var x := ChunkMap(init)[id];
      var i :| 0 <= i < |init| && init[i] == x && forall j | i < j < |init| :: init[j].id != x.id;
      assert chunks[i] == x;
      forall j | i < j < |chunks| ensures chunks[j].id != id {
        assert j < |init| ==> chunks[j] == init[j];
      }
    }
  }

  /** A hit carries the last chunk of its id, and without a reranker the sum of the reciprocal
      ranks of that id. */
  lemma FusedHitIsScored(chunks: seq<Chunk>, settings: Settings, bm25: Ranks, asked: nat, outside: Outside, i: nat)
    requires settings.rrfK > 0 && !settings.reranks
    requires outside.nearest(Max(settings.candidateK, asked)).Some?
    requires i < |Retrieved(chunks, settings, bm25, asked, outside).value|
    ensures var hit := Retrieved(chunks, settings, bm25, asked, outside).value[i];
            var id, vector := hit.chunk.id, RankMap(outside.nearest(Max(settings.candidateK, asked)).value);
            && IsLatest(chunks, hit.chunk)
            && hit.score == (if id in bm25 then 1.0 / (settings.rrfK + bm25[id]) as real else 0.0)
                            + if id in vector then 1.0 / (settings.rrfK + vector[id]) as real else 0.0
  {
    hide RankMap, Candidates, Sort, RrfScore, RanksIn, IsLatest, LiveIds;
    var vector := RankMap(outside.nearest(Max(settings.candidateK, asked)).value);
    var list := Fused(chunks, bm25, vector, settings.rrfK);
    FusedIdsAreMapped(chunks, bm25, vector, settings.rrfK);
    FusedIsExact(chunks, bm25, vector, settings.rrfK);
    var x := list[i];
    assert x in list;
    MappedIsLatest(chunks, x.id);
    ScoreIsSum(bm25, vector, x.id, settings.rrfK);
  }

  /** With a reranker it carries the relevance the reranker gave to the text of that very chunk:
      its title, a line end and its content. */
  lemma RerankedHitIsScored(chunks: seq<Chunk>, settings: Settings, bm25: Ranks, asked: nat, outside: Outside, i: nat)
    requires settings.rrfK > 0 && settings.reranks
    requires Retrieved(chunks, settings, bm25, asked, outside).Ok?
    requires i < |Retrieved(chunks, settings, bm25, asked, outside).value|
    ensures var hit := Retrieved(chunks, settings, bm25, asked, outside).value[i];
            && IsLatest(chunks, hit.chunk)
            && exists texts, n ::
                 && outside.rerank(texts).Some? && 0 <= n < |texts| == |outside.rerank(texts).value|
                 && texts[n] == hit.chunk.title + ['\n'] + hit.chunk.content
                 && hit.score == outside.rerank(texts).value[n]
  {
    hide RankMap, Candidates, Sort, RrfScore, RanksIn, IsLatest, LiveIds, Reranked, ChunkMap, Fused;
    var vector := RankMap(outside.nearest(Max(settings.candidateK, asked)).value);
    var list, chunkMap := Fused(chunks, bm25, vector, settings.rrfK), ChunkMap(chunks);
    FusedIdsAreMapped(chunks, bm25, vector, settings.rrfK);
    if list != [] {
      var first := Cut(list, Max(settings.rerankCandidateK, asked));
      var texts := Texts(first, chunkMap);
      var scores := outside.rerank(texts).value;
      RerankedIds(first, scores);
      var x := Cut(Reranked(first, scores), asked)[i];
      assert x in Reranked(first, scores);
      var n :| 0 <= n < |first| && x == Scored(first[n].id, scores[n]);
      assert first[n] in first;
      MappedIsLatest(chunks, x.id);
      assert texts[n] == chunkMap[x.id].title + ['\n'] + chunkMap[x.id].content;
    }
  }

  // ---- the loops ----

  method RrfScores(ranks: map<string, seq<nat>>, k: nat) returns (scores: map<string, real>)
    requires k > 0
    ensures scores == map id | id in ranks && ranks[id] != [] :: RrfScore(ranks[id], k)
  {
    scores := map[];
    var left := ranks.Keys;
    while left != {}
      invariant left <= ranks.Keys
      invariant scores == map id | id in ranks && id !in left && ranks[id] != [] :: RrfScore(ranks[id], k)
    {
      var id :| id in left;
      var rs := ranks[id];
      ghost var before := scores;
      for i := 0 to |rs|
        invariant scores == if i == 0 then before else before[id := RrfScore(rs[..i], k)]
      {
        assert rs[..i + 1][..i] == rs[..i];
        scores := scores[id := (if id in scores then scores[id] else 0.0) + 1.0 / (k + rs[i]) as real];
      }
      assert rs[..|rs|] == rs;
      left := left - {id};
    }
  }


  /** Adds a list's rank to every id it holds. */
  method AppendRanks(before: map<string, seq<nat>>, ranks: Ranks) returns (after: map<string, seq<nat>>)
    ensures after == map id | id in before.Keys + ranks.Keys ::
                       (if id in before then before[id] else []) + (if id in ranks then [ranks[id]] else [])
  {
    after := before;
    var left := ranks.Keys;
    assert forall id | id in before :: before[id] + [] == before[id];
    while left != {}
      invariant left <= ranks.Keys
      invariant after == map id | id in before.Keys + (ranks.Keys - left) ::
                           (if id in before then before[id] else [])
                           + (if id in ranks && id !in left then [ranks[id]] else [])
    {
      var id :| id in left;
      after := after[id := (if id in after then after[id] else []) + [ranks[id]]];
      left := left - {id};
    }
  }

  method MapChunks(chunks: seq<Chunk>) returns (chunkMap: map<string, Chunk>)
    ensures chunkMap == ChunkMap(chunks)
  {
    chunkMap := map[];
    for i := 0 to |chunks|
      invariant chunkMap == ChunkMap(chunks[..i])
    {
      assert chunks[..i + 1][..i] == chunks[..i];
      chunkMap := chunkMap[chunks[i].id := chunks[i]];
    }
    assert chunks[..|chunks|] == chunks;
  }

  /** The scored chunks, in whatever order the map of scores is walked. */
  method ScoredChunks(scores: map<string, real>, chunkMap: map<string, Chunk>) returns (list: seq<Scored>)
    ensures DistinctScored(list)
    ensures forall x :: x in list <==> x.id in scores && x.id in chunkMap && x.score == scores[x.id]
  {
    list := [];
    var left := scores.Keys;
    while left != {}
      invariant left <= scores.Keys && DistinctScored(list)
      invariant forall x :: x in list <==>
          x.id in scores && x.id !in left && x.id in chunkMap && x.score == scores[x.id]
    {
      var id :| id in left;
      if id in chunkMap {
        forall i | 0 <= i < |list| ensures list[i].id != id { assert list[i] in list; }
        list := list + [Scored(id, scores[id])];
      }
      left := left - {id};
    }
  }

  /** The order of the walk does not matter: sorting gives the fused list. */
  lemma AnyOrderFuses(list: seq<Scored>, chunks: seq<Chunk>, bm25: Ranks, vector: Ranks, k: nat)
    requires k > 0 && DistinctScored(list)
    requires forall x :: x in list <==> IsCandidate(x, chunks, bm25, vector, k)
    ensures Sort(list, Ahead) == Fused(chunks, bm25, vector, k)
  {
    hide IsCandidate, Ahead;
    var candidates := Candidates(chunks, bm25, vector, k);
    CandidatesAre(chunks, bm25, vector, k);
    SameMembers(list, candidates);
    AheadIsOrder();
    SortOrders(list, Ahead);
    SortOrders(candidates, Ahead);
    OnlyOneOrder(Sort(list, Ahead), Sort(candidates, Ahead), Ahead);
  }

  lemma SameMembers(s: seq<Scored>, t: seq<Scored>)
    requires DistinctScored(s) && DistinctScored(t) && forall x :: x in s <==> x in t
    ensures multiset(s) == multiset(t)
  {
    forall x ensures multiset(s)[x] == multiset(t)[x] {
      Once(s, x);
      Once(t, x);
      assert x in multiset(s) <==> x in s;
      assert x in multiset(t) <==> x in t;
    }
  }

  class Hybrid {
    var chunks: seq<Chunk>
    var settings: Settings

    /** A candidate number that is not positive means 20. */
    constructor (chunks: seq<Chunk>, candidateK: int)
      ensures this.chunks == chunks
      ensures settings == Settings(60, if candidateK <= 0 then 20 else candidateK, false, 0)
    {
      this.chunks := chunks;
      this.settings := Settings(60, if candidateK <= 0 then 20 else candidateK, false, 0);
    }

    method WithReranker(candidateK: int)
      modifies this
      ensures chunks == old(chunks)
      ensures settings == old(settings).(reranks := true,
                            rerankCandidateK := if candidateK <= 0 then old(settings).candidateK else candidateK)
    {
      var wanted := if candidateK <= 0 then settings.candidateK else candidateK;
      settings := settings.(reranks := true, rerankCandidateK := wanted);
    }

    method Retrieve(ln: real -> real, a: Alphabet, query: string, topK: int, outside: Outside)
      returns (r: Result<seq<Hit>, Failure>)
      requires settings.rrfK > 0
      ensures r == Retrieved(chunks, settings, RankMap(Ranking(ln, a, query, chunks)), Asked(topK), outside)
    {
      hide RankMap, Ranking, Fused, ChunkMap, Texts, Reranked, Hits;
      var asked := Asked(topK);
      var bm25 := Bm25Ranks(ln, a, query, chunks);
      var k := settings.candidateK;
      if k < asked {
        k := asked;
      }
      var found := outside.nearest(k);
      if found.None? {
        return Err(SearchFailed);
      }
      var list := Fuse(bm25, found.value);
      var chunkMap := MapChunks(chunks);
      FusedIdsAreMapped(chunks, bm25, RankMap(found.value), settings.rrfK);
      if settings.reranks && |list| > 0 {
        var reranked := Rerank(list, chunkMap, asked, outside);
        if reranked.Err? {
          return Err(reranked.error);
        }
        list := reranked.value;
      }
      if asked < |list| {
        list := list[..asked];
      }
      r := Ok(Hits(list, chunkMap));
    }

    method Rerank(list: seq<Scored>, chunkMap: map<string, Chunk>, asked: nat, outside: Outside)
      returns (r: Result<seq<Scored>, Failure>)
      requires forall x | x in list :: x.id in chunkMap
      ensures var first := Cut(list, Max(settings.rerankCandidateK, asked));
              var scores := outside.rerank(Texts(first, chunkMap));
              r == if scores.None? then Err(RerankFailed)
                   else if |scores.value| != |first| then Err(WrongScoreCount)
                   else Ok(Reranked(first, scores.value))
      ensures r.Ok? ==> forall x | x in r.value :: x.id in chunkMap
    {
      hide Texts;
      var candidateK := settings.rerankCandidateK;
      if candidateK < asked {
        candidateK := asked;
      }
      if candidateK > |list| {
        candidateK := |list|;
      }
      var first := list[..candidateK];
      assert first == Cut(list, Max(settings.rerankCandidateK, asked));
      var scores := outside.rerank(Texts(first, chunkMap));
      if scores.None? {
        return Err(RerankFailed);
      }
      if |scores.value| != |first| {
        return Err(WrongScoreCount);
      }
      RerankedIds(first, scores.value);
      r := Ok(Reranked(first, scores.value));
    }

    method Fuse(bm25: Ranks, found: seq<Scored>) returns (list: seq<Scored>)
      requires settings.rrfK > 0
      ensures list == Fused(chunks, bm25, RankMap(found), settings.rrfK)
    {
      hide RankMap, ChunkMap, RrfScore, DistinctScored, Fused, IsCandidate, Sort, RanksIn;
      var vector := RanksOf(found);
      var ranks := AppendRanks(map[], bm25);
      ranks := AppendRanks(ranks, vector);
      var scores := RrfScores(ranks, settings.rrfK);
      var chunkMap := MapChunks(chunks);
      list := ScoredChunks(scores, chunkMap);
      BothRanked(ranks, bm25, vector);
      ScoredAreCandidates(list, ranks, scores, chunks, bm25, vector, settings.rrfK);
      AnyOrderFuses(list, chunks, bm25, vector, settings.rrfK);
      list := Sort(list, Ahead);
    }
  }

  lemma BothRanked(ranks: map<string, seq<nat>>, bm25: Ranks, vector: Ranks)
    requires ranks.Keys == bm25.Keys + vector.Keys
    requires forall id | id in ranks ::
               ranks[id] == (if id in bm25 then [] + [bm25[id]] else []) + (if id in vector then [vector[id]] else [])
    ensures forall id | id in ranks :: ranks[id] == RanksIn(bm25, vector, id)
  {
  }

  lemma ScoredAreCandidates(list: seq<Scored>, ranks: map<string, seq<nat>>, scores: map<string, real>,
                            chunks: seq<Chunk>, bm25: Ranks, vector: Ranks, k: nat)
    requires k > 0 && ranks.Keys == bm25.Keys + vector.Keys
    requires forall id | id in ranks :: ranks[id] == RanksIn(bm25, vector, id)
    requires scores == map id | id in ranks && ranks[id] != [] :: RrfScore(ranks[id], k)
    requires forall x :: x in list <==> x.id in scores && x.id in ChunkMap(chunks) && x.score == scores[x.id]
    ensures forall x :: x in list <==> IsCandidate(x, chunks, bm25, vector, k)
  {
    hide RrfScore, LiveIds, ChunkMap;
    ChunkMapIs(chunks);
  }
}
