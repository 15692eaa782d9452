/** Document-level retrieval metrics. A float that the source computes as 0/0 is `NaN`, every
    other number is a real; the discount of position i, 1 / log2(i + 2) in the source, is any
    positive strictly decreasing function. */
module Metrics {
  import opened Basics

  datatype Score = Num(value: real) | NaN

  function Plus(a: Score, b: Score): Score {
    if a.Num? && b.Num? then Num(a.value + b.value) else NaN
  }

  ghost predicate NoDuplicates<T>(s: seq<T>) {
    forall i, j | 0 <= i < j < |s| :: s[i] != s[j]
  }

  // ---- duplicates ----

  /** Every value at its first occurrence. */
  function Unique(values: seq<string>): seq<string> {
    if values == [] then []
    else
      var init, last := values[..|values| - 1], values[|values| - 1];
      Unique(init) + (if last in init then [] else [last])
  }

  lemma {:induction false} UniqueKeepsFirsts(values: seq<string>)
    ensures NoDuplicates(Unique(values))
    ensures forall x :: x in Unique(values) <==> x in values
    ensures |Unique(values)| <= |values| && (values != [] ==> Unique(values) != [])
  {
    if values != [] {
      var init, last := values[..|values| - 1], values[|values| - 1];
      UniqueKeepsFirsts(init);
      assert values == init + [last];
      assert init != [] || Unique(values) == [last];
    }
  }

  method UniqueOf(values: seq<string>) returns (out: seq<string>)
    ensures out == Unique(values)
  {
    var seen: set<string> := {};
    out := [];
    for i := 0 to |values|
      invariant seen == set x | x in values[..i]
      invariant out == Unique(values[..i])
    {
      assert values[..i + 1][..i] == values[..i];
      if values[i] !in seen {
        seen := seen + {values[i]};
        out := out + [values[i]];
      }
    }
    assert values[..|values|] == values;
  }

  function StringSet(values: seq<string>): set<string> {
    set x | x in values
  }

  // ---- recall ----

  function Hits(ranked: seq<string>, relevant: set<string>, k: nat): nat
    requires k <= |ranked|
  {
    if k == 0 then 0 else Hits(ranked, relevant, k - 1) + (if ranked[k - 1] in relevant then 1 else 0)
  }

  function Recall(ranked: seq<string>, relevant: set<string>, k: nat): real {
    if relevant == {} then 0.0
    else Hits(ranked, relevant, Min(k, |ranked|)) as real / |relevant| as real
  }

  function Prefix(ranked: seq<string>, k: nat): set<string> {
    StringSet(ranked[..Min(k, |ranked|)])
  }

  /** Without duplicates the hits are the relevant documents of the prefix. */
  lemma PrefixStep(ranked: seq<string>, k: nat)
    requires NoDuplicates(ranked) && 0 < k <= |ranked|
    ensures StringSet(ranked[..k]) == StringSet(ranked[..k - 1]) + {ranked[k - 1]}
    ensures ranked[k - 1] !in StringSet(ranked[..k - 1])
  {
  }

  lemma {:induction false} HitsCountDocuments(ranked: seq<string>, relevant: set<string>, k: nat)
    requires NoDuplicates(ranked) && k <= |ranked|
    ensures Hits(ranked, relevant, k) == |relevant * StringSet(ranked[..k])|
  {
    if k > 0 {
      HitsCountDocuments(ranked, relevant, k - 1);
      PrefixStep(ranked, k);
      MeetOneMore(relevant, StringSet(ranked[..k - 1]), ranked[k - 1]);
    }
  }

  lemma MeetOneMore<T>(relevant: set<T>, before: set<T>, x: T)
    requires x !in before
    ensures |relevant * (before + {x})| == |relevant * before| + if x in relevant then 1 else 0
  {
    assert relevant * (before + {x}) == if x in relevant then relevant * before + {x} else relevant * before;
  }

  /** Recall lies between 0 and 1 and is 1 exactly when the prefix holds every relevant
      document (and there is one). */
  lemma RecallIsFraction(ranked: seq<string>, relevant: set<string>, k: nat)
    requires NoDuplicates(ranked)
    ensures 0.0 <= Recall(ranked, relevant, k) <= 1.0
    ensures Recall(ranked, relevant, k) == 1.0 <==> relevant != {} && relevant <= Prefix(ranked, k)
    ensures relevant != {} ==>
              Recall(ranked, relevant, k) * |relevant| as real == |relevant * Prefix(ranked, k)| as real
  {
    hide StringSet, NoDuplicates;
    var found := relevant * Prefix(ranked, k);
    HitsCountDocuments(ranked, relevant, Min(k, |ranked|));
    Subset(found, relevant);
    assert found == relevant <==> relevant <= Prefix(ranked, k);
    if relevant != {} {
      Fraction(|found|, |relevant|);
    }
  }

  lemma Fraction(a: nat, b: nat)
    requires a <= b && b > 0
    ensures 0.0 <= a as real / b as real <= 1.0
    ensures a as real / b as real == 1.0 <==> a == b
  {
  }

  lemma {:induction false} HitsGrow(ranked: seq<string>, relevant: set<string>, j: nat, k: nat)
    requires j <= k <= |ranked|
    ensures Hits(ranked, relevant, j) <= Hits(ranked, relevant, k)
    ensures Hits(ranked, relevant, k) <= k
    decreases k
  {
    if j < k {
      HitsGrow(ranked, relevant, j, k - 1);
    } else if k > 0 {
      HitsGrow(ranked, relevant, k - 1, k - 1);
    }
  }

  lemma RecallGrows(ranked: seq<string>, relevant: set<string>, j: nat, k: nat)
    requires j <= k
    ensures Recall(ranked, relevant, j) <= Recall(ranked, relevant, k)
  {
    var a, b := Min(j, |ranked|), Min(k, |ranked|);
    HitsGrow(ranked, relevant, a, b);
    if relevant != {} {
      Divided(Hits(ranked, relevant, a) as real, Hits(ranked, relevant, b) as real, |relevant| as real);
    }
  }

  lemma Divided(a: real, b: real, c: real)
    requires c > 0.0
    ensures a <= b <==> a / c <= b / c
    ensures a < b <==> a / c < b / c
  {
  }

  method RecallAt(ranked: seq<string>, relevant: set<string>, cut: nat) returns (r: real)
    ensures r == Recall(ranked, relevant, cut)
  {
    if |relevant| == 0 {
      return 0.0;
    }
    var k := cut;
    if k > |ranked| {
      k := |ranked|;
    }
    var hits := 0;
    for i := 0 to k
      invariant hits == Hits(ranked, relevant, i)
    {
      if ranked[i] in relevant {
        hits := hits + 1;
      }
    }
    r := hits as real / |relevant| as real;
  }

  // ---- reciprocal rank ----

  function FirstHit(ranked: seq<string>, relevant: set<string>): (i: nat)
    ensures i <= |ranked|
    ensures i < |ranked| ==> ranked[i] in relevant
    ensures forall j | 0 <= j < i :: ranked[j] !in relevant
  {
    if ranked == [] || ranked[0] in relevant then 0
    else 1 + FirstHit(ranked[1..], relevant)
  }

  /** The inverse of the first relevant position, counted from 1; 0 without one. */
  function Reciprocal(ranked: seq<string>, relevant: set<string>): (r: real)
    ensures 0.0 <= r <= 1.0
    ensures r == 0.0 <==> forall j | 0 <= j < |ranked| :: ranked[j] !in relevant
    ensures r == 1.0 <==> ranked != [] && ranked[0] in relevant
    ensures forall i |
              0 <= i < |ranked| && ranked[i] in relevant && (forall j | 0 <= j < i :: ranked[j] !in relevant) ::
              r * (i + 1) as real == 1.0
  {
    var i := FirstHit(ranked, relevant);
    if i == |ranked| then 0.0 else Fraction(1, i + 1); Positive(i + 1); 1.0 / (i + 1) as real
  }

  lemma Positive(n: nat)
    requires n > 0
    ensures 1.0 / n as real > 0.0
  {
  }

  method ReciprocalRank(ranked: seq<string>, relevant: set<string>) returns (r: real)
    ensures r == Reciprocal(ranked, relevant)
  {
    for i := 0 to |ranked|
      invariant forall j | 0 <= j < i :: ranked[j] !in relevant
    {
      if ranked[i] in relevant {
        assert FirstHit(ranked, relevant) == i;
        return 1.0 / (i + 1) as real;
      }
    }
    r := 0.0;
  }

  // ---- discounted gain ----

  ghost predicate IsDiscount(d: nat -> real) {
    (forall i :: d(i) > 0.0) && forall i, j | i < j :: d(i) > d(j)
  }

  function Gain(ranked: seq<string>, relevant: set<string>, d: nat -> real, k: nat): real
    requires k <= |ranked|
  {
    if k == 0 then 0.0 else Gain(ranked, relevant, d, k - 1) + (if ranked[k - 1] in relevant then d(k - 1) else 0.0)
  }

  function IdealGain(d: nat -> real, n: nat): real {
    if n == 0 then 0.0 else IdealGain(d, n - 1) + d(n - 1)
  }

  function Ndcg(ranked: seq<string>, relevant: set<string>, d: nat -> real, cut: nat): Score {
    var k := Min(cut, |ranked|);
    var ideal := IdealGain(d, Min(|relevant|, k));
    if relevant == {} then Num(0.0)
    else if ideal == 0.0 then NaN
    else Num(Gain(ranked, relevant, d, k) / ideal)
  }

  ghost predicate Leading(ranked: seq<string>, relevant: set<string>, n: nat) {
    n <= |ranked| && forall i | 0 <= i < n :: ranked[i] in relevant
  }

  lemma {:induction false} IdealGrows(d: nat -> real, m: nat, n: nat)
    requires IsDiscount(d) && m <= n
    ensures 0.0 <= IdealGain(d, m) <= IdealGain(d, n)
    ensures IdealGain(d, m) == IdealGain(d, n) <==> m == n
    decreases n
  {
    if m < n {
      IdealGrows(d, m, n - 1);
    } else if n > 0 {
      IdealGrows(d, n - 1, n - 1);
    }
  }

  /** Moving the hits to the front cannot lose gain, and gains nothing exactly when they
      already lead. */
  lemma {:induction false} GainAtMostPacked(ranked: seq<string>, relevant: set<string>, d: nat -> real, k: nat)
    requires IsDiscount(d) && k <= |ranked|
    ensures Hits(ranked, relevant, k) <= k
    ensures 0.0 <= Gain(ranked, relevant, d, k) <= IdealGain(d, Hits(ranked, relevant, k))
    ensures Gain(ranked, relevant, d, k) == IdealGain(d, Hits(ranked, relevant, k)) <==>
            Leading(ranked, relevant, Hits(ranked, relevant, k))
  {
    if k > 0 {
      GainAtMostPacked(ranked, relevant, d, k - 1);
      var h := Hits(ranked, relevant, k - 1);
      if ranked[k - 1] in relevant {
        LeadingHits(ranked, relevant, k - 1);
        var last: nat := k - 1;
        assert h < last ==> d(h) > d(last);
        assert Leading(ranked, relevant, h + 1) <==> h == last && Leading(ranked, relevant, h);
      }
    }
  }

  lemma {:induction false} LeadingHits(ranked: seq<string>, relevant: set<string>, k: nat)
    requires k <= |ranked|
    ensures Hits(ranked, relevant, k) <= k
    ensures forall n: nat | n <= k && Leading(ranked, relevant, n) :: n <= Hits(ranked, relevant, k)
    ensures Hits(ranked, relevant, k) == k <==> Leading(ranked, relevant, k)
  {
    if k > 0 {
      LeadingHits(ranked, relevant, k - 1);
    }
  }

  /** NDCG is undefined exactly for an empty prefix of a query that has relevant documents;
      otherwise it lies between 0 and 1, and it is 1 exactly when the prefix starts with as
      many relevant documents as it can hold. */
  lemma NdcgIsNormalized(ranked: seq<string>, relevant: set<string>, d: nat -> real, cut: nat)
    requires IsDiscount(d) && NoDuplicates(ranked)
    ensures var s := Ndcg(ranked, relevant, d, cut);
            var ideal := Min(|relevant|, Min(cut, |ranked|));
            && (s == NaN <==> relevant != {} && ideal == 0)
            && (s.Num? ==> 0.0 <= s.value <= 1.0)
            && (s == Num(1.0) <==> ideal > 0 && Leading(ranked, relevant, ideal))
  {
    var k := Min(cut, |ranked|);
    var ideal, h := Min(|relevant|, k), Hits(ranked, relevant, k);
    HitsCountDocuments(ranked, relevant, k);
    Subset(relevant * StringSet(ranked[..k]), relevant);
    GainAtMostPacked(ranked, relevant, d, k);
    IdealGrows(d, h, ideal);
    IdealGrows(d, 0, ideal);
    LeadingHits(ranked, relevant, k);
    if ideal > 0 {
      Normalized(Gain(ranked, relevant, d, k), IdealGain(d, ideal));
    }
  }

  lemma Normalized(a: real, b: real)
    requires 0.0 <= a <= b && b > 0.0
    ensures 0.0 <= a / b <= 1.0 && (a / b == 1.0 <==> a == b)
  {
  }

  /** Ranking a relevant document above an irrelevant one raises the gain by exactly the
      difference of the two discounts. */
  lemma {:induction false} SwapRaisesGain(ranked: seq<string>, relevant: set<string>, d: nat -> real, k: nat,
                                          i: nat, j: nat)
    requires i < j < k <= |ranked| && ranked[i] !in relevant && ranked[j] in relevant
    ensures Gain(ranked[i := ranked[j]][j := ranked[i]], relevant, d, k) == Gain(ranked, relevant, d, k) + d(i) - d(j)
  {
    var swapped := ranked[i := ranked[j]][j := ranked[i]];
    GainChange(ranked, swapped, relevant, d, 0, i);
    GainChange(ranked, swapped, relevant, d, i + 1, j);
    GainChange(ranked, swapped, relevant, d, j + 1, k);
  }

  lemma {:induction false} GainChange(a: seq<string>, b: seq<string>, relevant: set<string>, d: nat -> real, j: nat,
                                      k: nat)
    requires j <= k <= |a| == |b|
    requires forall i | j <= i < k :: a[i] == b[i]
    ensures Gain(b, relevant, d, k) - Gain(b, relevant, d, j) == Gain(a, relevant, d, k) - Gain(a, relevant, d, j)
  {
    if j < k {
      GainChange(a, b, relevant, d, j, k - 1);
    }
  }

  method NdcgAt(ranked: seq<string>, relevant: set<string>, d: nat -> real, cut: nat) returns (s: Score)
    ensures s == Ndcg(ranked, relevant, d, cut)
  {
    if |relevant| == 0 {
      return Num(0.0);
    }
    var k := cut;
    if k > |ranked| {
      k := |ranked|;
    }
    var dcg := 0.0;
    for i := 0 to k
      invariant dcg == Gain(ranked, relevant, d, i)
    {
      if ranked[i] in relevant {
        dcg := dcg + d(i);
      }
    }
    var ideal := |relevant|;
    if ideal > k {
      ideal := k;
    }
    var idcg := 0.0;
    for i := 0 to ideal
      invariant idcg == IdealGain(d, i)
    {
      idcg := idcg + d(i);
    }
    s := if idcg == 0.0 then NaN else Num(dcg / idcg);
  }
}
