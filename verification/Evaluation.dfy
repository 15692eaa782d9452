/** The evaluation report: metrics summed over the judged queries and averaged. */
module Evaluation {
  import opened Metrics
  import opened Sorting

  datatype Qrel = Qrel(id: string, component: string, relevantIds: seq<string>)

  datatype Report = Report(
    queries: nat,
    recallAt: map<nat, real>,
    mrr: real,
    ndcgAt5: Score,
    componentRecallAt5: map<string, real>,
    missesAt5: seq<string>)

  type Runs = map<string, seq<string>>

  // ---- one query ----

  function Ranked(q: Qrel, runs: Runs): seq<string> {
    Unique(if q.id in runs then runs[q.id] else [])
  }

  function QueryRecall(q: Qrel, runs: Runs, k: nat): real {
    Recall(Ranked(q, runs), StringSet(q.relevantIds), k)
  }

  function QueryRank(q: Qrel, runs: Runs): real {
    Reciprocal(Ranked(q, runs), StringSet(q.relevantIds))
  }

  function QueryNdcg(q: Qrel, runs: Runs, d: nat -> real): Score {
    Ndcg(Ranked(q, runs), StringSet(q.relevantIds), d, 5)
  }

  /** The query has relevant documents, but nothing was retrieved for it. */
  predicate NothingRetrieved(q: Qrel, runs: Runs) {
    q.relevantIds != [] && (q.id in runs ==> runs[q.id] == [])
  }

  // ---- sums over the first n queries ----

  function RecallSum(qrels: seq<Qrel>, runs: Runs, k: nat, n: nat): real
    requires n <= |qrels|
  {
    if n == 0 then 0.0 else RecallSum(qrels, runs, k, n - 1) + QueryRecall(qrels[n - 1], runs, k)
  }

  function RankSum(qrels: seq<Qrel>, runs: Runs, n: nat): real
    requires n <= |qrels|
  {
    if n == 0 then 0.0 else RankSum(qrels, runs, n - 1) + QueryRank(qrels[n - 1], runs)
  }

  function NdcgSum(qrels: seq<Qrel>, runs: Runs, d: nat -> real, n: nat): Score
    requires n <= |qrels|
  {
    if n == 0 then Num(0.0) else Plus(NdcgSum(qrels, runs, d, n - 1), QueryNdcg(qrels[n - 1], runs, d))
  }

  function ComponentSum(qrels: seq<Qrel>, runs: Runs, c: string, n: nat): real
    requires n <= |qrels|
  {
    if n == 0 then 0.0
    else ComponentSum(qrels, runs, c, n - 1)
         + if qrels[n - 1].component == c then QueryRecall(qrels[n - 1], runs, 5) else 0.0
  }

  function ComponentCount(qrels: seq<Qrel>, c: string, n: nat): nat
    requires n <= |qrels|
  {
    if n == 0 then 0 else ComponentCount(qrels, c, n - 1) + if qrels[n - 1].component == c then 1 else 0
  }

  function Misses(qrels: seq<Qrel>, runs: Runs, n: nat): seq<string>
    requires n <= |qrels|
  {
    if n == 0 then []
    else Misses(qrels, runs, n - 1) + if QueryRecall(qrels[n - 1], runs, 5) < 1.0 then [qrels[n - 1].id] else []
  }

  /** How often `k` is among the first n cutoffs. */
  function Listed(ks: seq<nat>, k: nat, n: nat): nat
    requires n <= |ks|
  {
    if n == 0 then 0 else Listed(ks, k, n - 1) + if ks[n - 1] == k then 1 else 0
  }

  function Shared(x: real, n: nat, times: nat): real
    requires n > 0
  {
    if times == 0 then x else Shared(x, n, times - 1) / n as real
  }

  function Times(m: nat, x: real): real {
    m as real * x
  }

  lemma TimesFacts(m: nat, x: real, y: real)
    ensures Times(m + 1, x) == Times(m, x) + x
    ensures Times(m, x) + Times(m, y) == Times(m, x + y)
    ensures Times(0, x) == 0.0 && Times(m, 0.0) == 0.0
  {
  }

  function Cutoffs(ks: seq<nat>): seq<nat> {
    if ks == [] then [3, 5, 8] else ks
  }

  // ---- the report ----

  method Evaluate(qrels: seq<Qrel>, runs: Runs, asked: seq<nat>, d: nat -> real) returns (r: Report)
    ensures r.queries == |qrels|
    ensures qrels == [] ==> r == Report(0, map[], 0.0, Num(0.0), map[], [])
    ensures qrels != [] ==> RecallsAre(r.recallAt, qrels, runs, Cutoffs(asked), |qrels|, |Cutoffs(asked)|)
    ensures qrels != [] ==> r.mrr == RankSum(qrels, runs, |qrels|) / |qrels| as real
    ensures qrels != [] ==>
              match NdcgSum(qrels, runs, d, |qrels|)
              case Num(sum) => r.ndcgAt5 == Num(sum / |qrels| as real)
              case NaN => r.ndcgAt5 == NaN
    ensures MeansAre(r.componentRecallAt5, qrels, runs)
    ensures r.missesAt5 == Sort(Misses(qrels, runs, |qrels|), Less)
  {
    var ks := Cutoffs(asked);
    if |qrels| == 0 {
      return Report(0, map[], 0.0, Num(0.0), map[], []);
    }
    var t := Sums(qrels, runs, ks, d);
    var recallAt := DivideRecalls(t.recallAt, qrels, runs, ks);
    var means := ComponentMeans(t.componentSum, t.componentCount, qrels, runs);
    r := Report(|qrels|, recallAt, t.mrr / |qrels| as real, Mean(t.ndcg, |qrels|), means,
                Sort(t.misses, Less));
  }

  datatype Totals = Totals(
    recallAt: map<nat, real>,
    mrr: real,
    ndcg: Score,
    componentSum: map<string, real>,
    componentCount: map<string, nat>,
    misses: seq<string>)

  ghost predicate TotalsAre(t: Totals, qrels: seq<Qrel>, runs: Runs, ks: seq<nat>, d: nat -> real, i: nat)
    requires i <= |qrels|
  {
    && SumsAre(t.recallAt, qrels, runs, ks, i)
    && t.mrr == RankSum(qrels, runs, i) && t.ndcg == NdcgSum(qrels, runs, d, i)
    && ComponentsAre(t.componentSum, t.componentCount, qrels, runs, i)
    && t.misses == Misses(qrels, runs, i)
  }

  method Sums(qrels: seq<Qrel>, runs: Runs, ks: seq<nat>, d: nat -> real) returns (t: Totals)
    ensures TotalsAre(t, qrels, runs, ks, d, |qrels|)
  {
    t := Totals(map[], 0.0, Num(0.0), map[], map[], []);
    assert TotalsAre(t, qrels, runs, ks, d, 0);
    hide *;
    for i := 0 to |qrels|
      invariant TotalsAre(t, qrels, runs, ks, d, i)
    {
      t := AddQuery(t, qrels, runs, ks, d, i);
    }
  }

  method AddQuery(before: Totals, qrels: seq<Qrel>, runs: Runs, ks: seq<nat>, d: nat -> real, i: nat)
    returns (t: Totals)
    requires i < |qrels| && TotalsAre(before, qrels, runs, ks, d, i)
    ensures TotalsAre(t, qrels, runs, ks, d, i + 1)
  {
    var q := qrels[i];
    NextQuery(qrels, runs, d, i);
    hide SumsAre, ComponentsAre, QueryRecall, Recall, Reciprocal, Ndcg, Unique, StringSet, Plus;
    hide RankSum, NdcgSum, Misses;
    var ranked := UniqueOf(if q.id in runs then runs[q.id] else []);
    var relevant := StringSet(q.relevantIds);
    var recallAt := AddRecalls(before.recallAt, qrels, runs, ks, i, ranked, relevant);
    var recall5 := RecallAt(ranked, relevant, 5);
    var componentSum, componentCount :=
      AddComponent(before.componentSum, before.componentCount, qrels, runs, i, recall5);
    var misses := before.misses;
    if recall5 < 1.0 {
      misses := misses + [q.id];
    }
    var rank := ReciprocalRank(ranked, relevant);
    var gain := NdcgAt(ranked, relevant, d, 5);
    t := Totals(recallAt, before.mrr + rank, Plus(before.ndcg, gain), componentSum, componentCount, misses);
  }

  lemma NextQuery(qrels: seq<Qrel>, runs: Runs, d: nat -> real, i: nat)
    requires i < |qrels|
    ensures var q := qrels[i];
            var found := if q.id in runs then runs[q.id] else [];
            var ranked, relevant := Unique(found), StringSet(q.relevantIds);
            var recall := Recall(ranked, relevant, 5);
            && Ranked(q, runs) == ranked && QueryRecall(q, runs, 5) == recall
            && RankSum(qrels, runs, i + 1) == RankSum(qrels, runs, i) + Reciprocal(ranked, relevant)
            && NdcgSum(qrels, runs, d, i + 1) == Plus(NdcgSum(qrels, runs, d, i), Ndcg(ranked, relevant, d, 5))
            && Misses(qrels, runs, i + 1) == Misses(qrels, runs, i) + if recall < 1.0 then [q.id] else []
  {
  }

  function Mean(sum: Score, n: nat): Score
    requires n > 0
  {
    if sum.Num? then Num(sum.value / n as real) else NaN
  }

  /** After i queries every cutoff holds its sum, once for every time it is listed. */
  ghost predicate SumsAre(recallAt: map<nat, real>, qrels: seq<Qrel>, runs: Runs, ks: seq<nat>, i: nat)
    requires i <= |qrels|
  {
    && (if i > 0 then forall k | k in ks :: k in recallAt else recallAt == map[])
    && (forall k | k in recallAt :: k in ks && recallAt[k] == Times(Listed(ks, k, |ks|), RecallSum(qrels, runs, k, i)))
  }

  /** After j divisions: every cutoff divided once for every time it was passed. */
  ghost predicate RecallsAre(recallAt: map<nat, real>, qrels: seq<Qrel>, runs: Runs, ks: seq<nat>, n: nat, j: nat)
    requires n == |qrels| > 0 && j <= |ks|
  {
    && (forall k :: k in recallAt <==> k in ks)
    && (forall k | k in recallAt ::
          recallAt[k] == Shared(Times(Listed(ks, k, |ks|), RecallSum(qrels, runs, k, n)), n, Listed(ks, k, j)))
  }

  method AddRecalls(before: map<nat, real>, qrels: seq<Qrel>, runs: Runs, ks: seq<nat>, i: nat,
                    ranked: seq<string>, relevant: set<string>) returns (recallAt: map<nat, real>)
    requires i < |qrels| && SumsAre(before, qrels, runs, ks, i)
    requires ranked == Ranked(qrels[i], runs) && relevant == StringSet(qrels[i].relevantIds)
    ensures SumsAre(recallAt, qrels, runs, ks, i + 1)
  {
    recallAt := before;
    ListedAtAll(before, qrels, runs, ks, i);
    hide SumsAre, Partly, Recall, Unique, StringSet;
    for j := 0 to |ks|
      invariant Partly(recallAt, qrels, runs, ks, i, j)
    {
      var k := ks[j];
      var recall := RecallAt(ranked, relevant, k);
      AddOne(recallAt, qrels, runs, ks, i, j, recall);
      recallAt := recallAt[k := (if k in recallAt then recallAt[k] else 0.0) + recall];
    }
    AllAdded(recallAt, qrels, runs, ks, i);
  }

  /** Query i has been added for the first j cutoffs. */
  ghost predicate Partly(recallAt: map<nat, real>, qrels: seq<Qrel>, runs: Runs, ks: seq<nat>, i: nat, j: nat)
    requires i < |qrels| && j <= |ks|
  {
    && (forall k | k in ks :: (i > 0 || k in ks[..j]) ==> k in recallAt)
    && (forall k | k in recallAt ::
          && k in ks && (i > 0 || k in ks[..j])
          && recallAt[k] == Times(Listed(ks, k, |ks|), RecallSum(qrels, runs, k, i))
                            + Times(Listed(ks, k, j), QueryRecall(qrels[i], runs, k)))
  }

  lemma ListedAtAll(before: map<nat, real>, qrels: seq<Qrel>, runs: Runs, ks: seq<nat>, i: nat)
    requires i < |qrels| && SumsAre(before, qrels, runs, ks, i)
    ensures Partly(before, qrels, runs, ks, i, 0)
  {
  }

  lemma AddOne(recallAt: map<nat, real>, qrels: seq<Qrel>, runs: Runs, ks: seq<nat>, i: nat, j: nat, recall: real)
    requires i < |qrels| && j < |ks| && Partly(recallAt, qrels, runs, ks, i, j)
    requires recall == QueryRecall(qrels[i], runs, ks[j])
    ensures var k := ks[j];
            Partly(recallAt[k := (if k in recallAt then recallAt[k] else 0.0) + recall], qrels, runs, ks, i, j + 1)
  {
    hide QueryRecall, Times;
    var k := ks[j];
    var all := Listed(ks, k, |ks|);
    NotListed(ks, k, j);
    TimesFacts(Listed(ks, k, j), recall, 0.0);
    TimesFacts(all, 0.0, 0.0);
    TimesFacts(0, recall, 0.0);
    assert ks[..j + 1] == ks[..j] + [k];
  }

  lemma AllAdded(recallAt: map<nat, real>, qrels: seq<Qrel>, runs: Runs, ks: seq<nat>, i: nat)
    requires i < |qrels| && Partly(recallAt, qrels, runs, ks, i, |ks|)
    ensures SumsAre(recallAt, qrels, runs, ks, i + 1)
  {
    hide QueryRecall, Times;
    assert ks[..|ks|] == ks;
    forall k | k in recallAt ensures recallAt[k] == Times(Listed(ks, k, |ks|), RecallSum(qrels, runs, k, i + 1)) {
      TimesFacts(Listed(ks, k, |ks|), RecallSum(qrels, runs, k, i), QueryRecall(qrels[i], runs, k));
    }
  }

  lemma {:induction false} NotListed(ks: seq<nat>, k: nat, n: nat)
    requires n <= |ks|
    ensures k in ks[..n] <==> Listed(ks, k, n) > 0
  {
    if n > 0 {
      NotListed(ks, k, n - 1);
      assert ks[..n] == ks[..n - 1] + [ks[n - 1]];
    }
  }

  method DivideRecalls(sums: map<nat, real>, qrels: seq<Qrel>, runs: Runs, ks: seq<nat>)
    returns (recallAt: map<nat, real>)
    requires qrels != [] && SumsAre(sums, qrels, runs, ks, |qrels|)
    ensures RecallsAre(recallAt, qrels, runs, ks, |qrels|, |ks|)
  {
    recallAt := sums;
    for j := 0 to |ks|
      invariant RecallsAre(recallAt, qrels, runs, ks, |qrels|, j)
    {
      recallAt := recallAt[ks[j] := recallAt[ks[j]] / |qrels| as real];
    }
  }

  ghost predicate ComponentsAre(sums: map<string, real>, counts: map<string, nat>, qrels: seq<Qrel>, runs: Runs, i: nat)
    requires i <= |qrels|
  {
    && sums.Keys == counts.Keys
    && (forall c :: c in sums <==> exists j :: 0 <= j < i && qrels[j].component == c)
    && (forall c | c in sums :: sums[c] == ComponentSum(qrels, runs, c, i) && counts[c] == ComponentCount(qrels, c, i))
    && (forall c | c !in sums :: ComponentSum(qrels, runs, c, i) == 0.0 && ComponentCount(qrels, c, i) == 0)
  }

  method AddComponent(sums: map<string, real>, counts: map<string, nat>, qrels: seq<Qrel>, runs: Runs, i: nat,
                      recall5: real)
    returns (newSums: map<string, real>, newCounts: map<string, nat>)
    requires i < |qrels| && ComponentsAre(sums, counts, qrels, runs, i)
    requires recall5 == QueryRecall(qrels[i], runs, 5)
    ensures ComponentsAre(newSums, newCounts, qrels, runs, i + 1)
  {
    var c := qrels[i].component;
    newSums := sums[c := (if c in sums then sums[c] else 0.0) + recall5];
    newCounts := counts[c := (if c in counts then counts[c] else 0) + 1];
  }

  /** Every component that occurs, with the mean recall of its queries. */
  ghost predicate MeansAre(means: map<string, real>, qrels: seq<Qrel>, runs: Runs) {
    && means.Keys == (set q | q in qrels :: q.component)
    && forall c | c in means ::
         && ComponentCount(qrels, c, |qrels|) > 0
         && means[c] == ComponentSum(qrels, runs, c, |qrels|) / ComponentCount(qrels, c, |qrels|) as real
  }

  method ComponentMeans(sums: map<string, real>, counts: map<string, nat>, qrels: seq<Qrel>, runs: Runs)
    returns (means: map<string, real>)
    requires ComponentsAre(sums, counts, qrels, runs, |qrels|)
    ensures MeansAre(means, qrels, runs)
  {
    var left := sums.Keys;
    means := map[];
    forall j | 0 <= j < |qrels| ensures ComponentCount(qrels, qrels[j].component, |qrels|) > 0 {
      Counted(qrels, j, |qrels|);
    }
    hide ComponentSum, ComponentCount, QueryRecall;
    while left != {}
      invariant left <= sums.Keys && means.Keys == sums.Keys - left
      invariant forall c | c in means :: counts[c] > 0 && means[c] == sums[c] / counts[c] as real
    {
      var c :| c in left;
      means := means[c := sums[c] / counts[c] as real];
      left := left - {c};
    }
  }

  lemma {:induction false} Counted(qrels: seq<Qrel>, j: nat, n: nat)
    requires j < n <= |qrels|
    ensures ComponentCount(qrels, qrels[j].component, n) > 0
  {
    if j < n - 1 {
      Counted(qrels, j, n - 1);
    }
  }

  // ---- what the averages mean ----

  /** Every query's recall is a fraction. */
  lemma QueryInRange(q: Qrel, runs: Runs, k: nat)
    ensures 0.0 <= QueryRecall(q, runs, k) <= 1.0 && 0.0 <= QueryRank(q, runs) <= 1.0
  {
    UniqueKeepsFirsts(if q.id in runs then runs[q.id] else []);
    RecallIsFraction(Ranked(q, runs), StringSet(q.relevantIds), k);
  }

  lemma {:induction false} SumsInRange(qrels: seq<Qrel>, runs: Runs, k: nat, n: nat)
    requires n <= |qrels|
    ensures 0.0 <= RecallSum(qrels, runs, k, n) <= n as real && 0.0 <= RankSum(qrels, runs, n) <= n as real
    ensures RecallSum(qrels, runs, k, n) == n as real <==>
        forall i | 0 <= i < n :: QueryRecall(qrels[i], runs, k) == 1.0
  {
    if n > 0 {
      SumsInRange(qrels, runs, k, n - 1);
      QueryInRange(qrels[n - 1], runs, k);
    }
  }

  /** The mean recall and the mean reciprocal rank lie between 0 and 1, and the mean recall is
      1 exactly when every query's is. */
  lemma MeansInRange(qrels: seq<Qrel>, runs: Runs, k: nat)
    requires qrels != []
    ensures 0.0 <= RecallSum(qrels, runs, k, |qrels|) / |qrels| as real <= 1.0
    ensures 0.0 <= RankSum(qrels, runs, |qrels|) / |qrels| as real <= 1.0
    ensures RecallSum(qrels, runs, k, |qrels|) / |qrels| as real == 1.0 <==>
            forall q | q in qrels :: QueryRecall(q, runs, k) == 1.0
  {
    SumsInRange(qrels, runs, k, |qrels|);
    Normalized(RecallSum(qrels, runs, k, |qrels|), |qrels| as real);
    Normalized(RankSum(qrels, runs, |qrels|), |qrels| as real);
  }

  /** A query is listed as missed exactly when its first five miss a relevant document or it
      has none. */
  lemma {:induction false} MissesAreIncomplete(qrels: seq<Qrel>, runs: Runs, n: nat)
    requires n <= |qrels|
    ensures forall id :: id in Misses(qrels, runs, n) <==>
        exists i :: 0 <= i < n && qrels[i].id == id && Incomplete(qrels[i], runs)
  {
    hide QueryRecall, Incomplete;
    if n > 0 {
      MissesAreIncomplete(qrels, runs, n - 1);
      MissedIfIncomplete(qrels[n - 1], runs);
    }
  }

  lemma MissedIfIncomplete(q: Qrel, runs: Runs)
    ensures QueryRecall(q, runs, 5) < 1.0 <==> Incomplete(q, runs)
  {
    UniqueKeepsFirsts(if q.id in runs then runs[q.id] else []);
    RecallIsFraction(Ranked(q, runs), StringSet(q.relevantIds), 5);
  }

  /** The report lists the missed queries by id, each as often as it was missed. */
  lemma MissesAreSorted(qrels: seq<Qrel>, runs: Runs)
    ensures var missed := Misses(qrels, runs, |qrels|);
            var listed := Sort(missed, Less);
            && multiset(listed) == multiset(missed)
            && (forall i, j | 0 <= i < j < |listed| :: listed[i] == listed[j] || Less(listed[i], listed[j]))
            && (forall id :: id in listed <==> exists q :: q in qrels && q.id == id && Incomplete(q, runs))
  {
    hide Less, Incomplete, Sort, Misses;
    SortsIds(Misses(qrels, runs, |qrels|));
    MissesAreIncomplete(qrels, runs, |qrels|);
    forall q, id | q in qrels && q.id == id && Incomplete(q, runs) ensures id in Misses(qrels, runs, |qrels|) {
      var i :| 0 <= i < |qrels| && qrels[i] == q;
    }
  }

  ghost predicate Incomplete(q: Qrel, runs: Runs) {
    StringSet(q.relevantIds) == {} || !(StringSet(q.relevantIds) <= Prefix(Ranked(q, runs), 5))
  }

  /** One query for which nothing was retrieved makes the whole mean undefined, and nothing
      else does. */
  lemma {:induction false} NdcgUndefined(qrels: seq<Qrel>, runs: Runs, d: nat -> real, n: nat)
    requires IsDiscount(d) && n <= |qrels|
    ensures NdcgSum(qrels, runs, d, n) == NaN <==> exists i :: 0 <= i < n && NothingRetrieved(qrels[i], runs)
    ensures NdcgSum(qrels, runs, d, n).Num? ==> 0.0 <= NdcgSum(qrels, runs, d, n).value <= n as real
  {
    hide QueryNdcg, NothingRetrieved, IsDiscount;
    if n > 0 {
      NdcgUndefined(qrels, runs, d, n - 1);
      QueryUndefined(qrels[n - 1], runs, d);
    }
  }

  lemma QueryUndefined(q: Qrel, runs: Runs, d: nat -> real)
    requires IsDiscount(d)
    ensures QueryNdcg(q, runs, d) == NaN <==> NothingRetrieved(q, runs)
    ensures QueryNdcg(q, runs, d).Num? ==> 0.0 <= QueryNdcg(q, runs, d).value <= 1.0
  {
    hide IsDiscount, Unique, StringSet, Ndcg, Leading, NoDuplicates;
    var found := if q.id in runs then runs[q.id] else [];
    UniqueKeepsFirsts(found);
    NdcgIsNormalized(Ranked(q, runs), StringSet(q.relevantIds), d, 5);
    EmptySet(q.relevantIds);
    assert Ranked(q, runs) == [] <==> found == [];
  }

  lemma EmptySet(ids: seq<string>)
    ensures StringSet(ids) == {} <==> ids == []
    ensures |StringSet(ids)| == 0 <==> ids == []
  {
    assert ids != [] ==> ids[0] in StringSet(ids);
  }

  // ---- a cutoff listed twice ----

  function Power(n: nat, m: nat): (p: nat)
    ensures n > 0 ==> p > 0
  {
    if m == 0 then 1 else n * Power(n, m - 1)
  }

  lemma {:induction false} SharedTimes(x: real, n: nat, m: nat)
    requires n > 0
    ensures Shared(x, n, m) * Power(n, m) as real == x
  {
    if m > 0 {
      SharedTimes(x, n, m - 1);
      var y, p := Shared(x, n, m - 1), Power(n, m - 1);
      assert y / n as real * n as real == y;
      assert Power(n, m) as real == n as real * p as real;
      assert Shared(x, n, m) * (n as real * p as real) == (Shared(x, n, m) * n as real) * p as real;
    }
  }

  lemma SharedIsMean(sum: real, n: nat, m: nat)
    requires n > 0 && m > 0
    ensures Shared(Times(m, sum), n, m) == sum / n as real <==> sum == 0.0 || m == Power(n, m - 1)
  {
    SharedTimes(Times(m, sum), n, m);
    var p := Power(n, m - 1);
    assert Power(n, m) as real == n as real * p as real;
    SameShare(Shared(Times(m, sum), n, m), sum, n as real, p as real, m as real);
  }

  /** The recall a report gives for a cutoff that is listed m times is the mean exactly when
      the mean is 0 or m = n^(m - 1), n being the number of queries. */
  lemma ReportedRecallIsMean(recallAt: map<nat, real>, qrels: seq<Qrel>, runs: Runs, ks: seq<nat>, k: nat)
    requires qrels != [] && k in ks && RecallsAre(recallAt, qrels, runs, ks, |qrels|, |ks|)
    ensures var sum, m := RecallSum(qrels, runs, k, |qrels|), Listed(ks, k, |ks|);
            && m > 0
            && (recallAt[k] == sum / |qrels| as real <==> sum == 0.0 || m == Power(|qrels|, m - 1))
  {
    assert ks[..|ks|] == ks;
    NotListed(ks, k, |ks|);
    hide Shared, Times, Power, RecallSum;
    SharedIsMean(RecallSum(qrels, runs, k, |qrels|), |qrels|, Listed(ks, k, |ks|));
  }

  /** So a list that names every cutoff once is always right. */
  lemma DistinctCutoffsAreMeans(recallAt: map<nat, real>, qrels: seq<Qrel>, runs: Runs, ks: seq<nat>, k: nat)
    requires qrels != [] && k in ks && RecallsAre(recallAt, qrels, runs, ks, |qrels|, |ks|)
    requires forall i, j | 0 <= i < j < |ks| :: ks[i] != ks[j]
    ensures recallAt[k] == RecallSum(qrels, runs, k, |qrels|) / |qrels| as real
  {
    hide RecallsAre, RecallSum;
    ReportedRecallIsMean(recallAt, qrels, runs, ks, k);
    ListedOnce(ks, k, |ks|);
    assert Power(|qrels|, 0) == 1;
  }

  lemma {:induction false} ListedOnce(ks: seq<nat>, k: nat, n: nat)
    requires n <= |ks| && forall i, j | 0 <= i < j < |ks| :: ks[i] != ks[j]
    ensures Listed(ks, k, n) <= 1
  {
    if n > 0 {
      ListedOnce(ks, k, n - 1);
      NotListed(ks, k, n - 1);
    }
  }

  /** Three queries that find all they should, and the cutoffs [5, 5]: the report says 2/3. */
  lemma TwiceListedCutoffIsWrong(recallAt: map<nat, real>)
    ensures var q := ["a", "b", "c"];
            var qrels := [Qrel(q[0], "", ["d"]), Qrel(q[1], "", ["d"]), Qrel(q[2], "", ["d"])];
            var runs := map["a" := ["d"], "b" := ["d"], "c" := ["d"]];
            && RecallSum(qrels, runs, 5, 3) / 3.0 == 1.0
            && (RecallsAre(recallAt, qrels, runs, [5, 5], 3, 2) ==> 5 in recallAt && recallAt[5] == 2.0 / 3.0)
  {
    var qrels := [Qrel("a", "", ["d"]), Qrel("b", "", ["d"]), Qrel("c", "", ["d"])];
    var runs := map["a" := ["d"], "b" := ["d"], "c" := ["d"]];
    forall i | 0 <= i < 3 ensures QueryRecall(qrels[i], runs, 5) == 1.0 {
      FoundAtOnce(qrels[i], runs, "d");
    }
    hide QueryRecall;
    ThreeOnes(qrels, runs);
    assert Listed([5, 5], 5, 2) == 2 by { assert Listed([5, 5], 5, 1) == 1; }
    SixOverNine();
  }

  lemma FoundAtOnce(q: Qrel, runs: Runs, d: string)
    requires q.relevantIds == [d] && q.id in runs && runs[q.id] == [d]
    ensures QueryRecall(q, runs, 5) == 1.0
  {
    UniqueKeepsFirsts([d]);
    assert Ranked(q, runs) == [d] by { assert Unique([d][..0]) == [] && [d][..0] == []; }
    RecallIsFraction([d], StringSet([d]), 5);
    assert [d][..1] == [d] && d in StringSet([d]);
  }

  lemma ThreeOnes(qrels: seq<Qrel>, runs: Runs)
    requires |qrels| == 3 && forall i | 0 <= i < 3 :: QueryRecall(qrels[i], runs, 5) == 1.0
    ensures RecallSum(qrels, runs, 5, 3) == 3.0
  {
    assert RecallSum(qrels, runs, 5, 1) == 1.0;
    assert RecallSum(qrels, runs, 5, 2) == 2.0;
  }

  lemma SixOverNine()
    ensures Shared(Times(2, 3.0), 3, 2) == 2.0 / 3.0
  {
    assert Shared(6.0, 3, 1) == 2.0;
  }

  lemma SameShare(v: real, sum: real, n: real, p: real, m: real)
    requires n > 0.0 && p > 0.0 && v * (n * p) == m * sum
    ensures v == sum / n <==> sum == 0.0 || m == p
  {
  }

  // ---- components ----

  function Total(qrels: seq<Qrel>, runs: Runs, cs: seq<string>, n: nat): real
    requires n <= |qrels|
  {
    if cs == [] then 0.0 else ComponentSum(qrels, runs, cs[0], n) + Total(qrels, runs, cs[1..], n)
  }

  /** The components share the recall out: over any list that names each of them once, the
      component sums add up to the sum over all queries. */
  lemma {:induction false} ComponentsShareRecall(qrels: seq<Qrel>, runs: Runs, cs: seq<string>, n: nat)
    requires n <= |qrels| && NoDuplicates(cs) && forall i | 0 <= i < n :: qrels[i].component in cs
    ensures Total(qrels, runs, cs, n) == RecallSum(qrels, runs, 5, n)
  {
    if n == 0 {
      NothingYet(qrels, runs, cs);
    } else {
      ComponentsShareRecall(qrels, runs, cs, n - 1);
      OneMore(qrels, runs, cs, n);
    }
  }

  lemma {:induction false} NothingYet(qrels: seq<Qrel>, runs: Runs, cs: seq<string>)
    ensures Total(qrels, runs, cs, 0) == 0.0
  {
    if cs != [] {
      NothingYet(qrels, runs, cs[1..]);
    }
  }

  lemma {:induction false} OneMore(qrels: seq<Qrel>, runs: Runs, cs: seq<string>, n: nat)
    requires 0 < n <= |qrels| && NoDuplicates(cs)
    ensures Total(qrels, runs, cs, n) == Total(qrels, runs, cs, n - 1)
              + if qrels[n - 1].component in cs then QueryRecall(qrels[n - 1], runs, 5) else 0.0
  {
    if cs != [] {
      OneMore(qrels, runs, cs[1..], n);
      assert cs == [cs[0]] + cs[1..];
    }
  }
}
