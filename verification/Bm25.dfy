/** Okapi BM25 over exact reals; the logarithm is any function that is positive above 1. */
module Bm25 {
  import opened Sorting
  import opened Tokenizer
  import opened Metrics

  /** A piece of a document; `meta` is everything the index stores beside its content. */
  datatype Chunk = Chunk(id: string, title: string, content: string, meta: string)

  type Document = seq<string>

  ghost predicate DistinctIds(chunks: seq<Chunk>) {
    forall i, j | 0 <= i < j < |chunks| :: chunks[i].id != chunks[j].id
  }

  function Text(c: Chunk): string {
    c.title + ['\n'] + c.content
  }

  function Documents(a: Alphabet, chunks: seq<Chunk>): (docs: seq<Document>)
    ensures |docs| == |chunks|
  {
    seq(|chunks|, i requires 0 <= i < |chunks| => Tokens(a, Text(chunks[i])))
  }

  /** A document's terms are those of its title and then those of its content; the line end
      between them separates. */
  lemma TitleCounts(a: Alphabet, chunks: seq<Chunk>, i: nat)
    requires i < |chunks| && !a.isHan(a.fold('\n')) && !a.isWord(a.fold('\n'))
    ensures Documents(a, chunks)[i] == Tokens(a, chunks[i].title) + Tokens(a, chunks[i].content)
  {
    SeparatorSplits(a, chunks[i].title, '\n', chunks[i].content);
  }

  // ---- frequencies ----

  function Frequency(doc: Document, term: string): (f: nat)
    ensures f > 0 <==> term in doc
    ensures f <= |doc|
  {
    if doc == [] then 0
    else
      var init := doc[..|doc| - 1];
      assert doc == init + [doc[|doc| - 1]];
      Frequency(init, term) + if doc[|doc| - 1] == term then 1 else 0
  }

  /** How many of the first n documents hold the term. */
  function DocumentFrequency(docs: seq<Document>, term: string, n: nat): (f: nat)
    requires n <= |docs|
    ensures f <= n
    ensures f > 0 <==> exists i :: 0 <= i < n && term in docs[i]
  {
    if n == 0 then 0 else DocumentFrequency(docs, term, n - 1) + if term in docs[n - 1] then 1 else 0
  }

  function TotalTerms(docs: seq<Document>, n: nat): nat
    requires n <= |docs|
  {
    if n == 0 then 0 else TotalTerms(docs, n - 1) + |docs[n - 1]|
  }

  // ---- scores ----

  ghost predicate IsLog(ln: real -> real) {
    forall x | x > 1.0 :: ln(x) > 0.0
  }

  function Idf(ln: real -> real, n: nat, df: nat): real {
    ln(1.0 + (n as real - df as real + 0.5) / (df as real + 0.5))
  }

  /** What a term that stands f times in a document adds to its score. */
  function Contribution(idf: real, f: nat, length: nat, average: real): real
    requires f > 0 && average > 0.0
  {
    QuotientNotNegative(length as real, average);
    idf * f as real * (1.2 + 1.0) / (f as real + 1.2 * (1.0 - 0.75 + 0.75 * (length as real / average)))
  }

  function TermScore(ln: real -> real, docs: seq<Document>, d: nat, term: string, average: real): real
    requires d < |docs| && average > 0.0
  {
    var f := Frequency(docs[d], term);
    if f == 0 then 0.0
    else Contribution(Idf(ln, |docs|, DocumentFrequency(docs, term, |docs|)), f, |docs[d]|, average)
  }

  function Score(ln: real -> real, docs: seq<Document>, d: nat, terms: seq<string>, average: real, n: nat): real
    requires d < |docs| && n <= |terms| && average > 0.0
  {
    if n == 0 then 0.0
    else Score(ln, docs, d, terms, average, n - 1) + TermScore(ln, docs, d, terms[n - 1], average)
  }

  /** No term is in more documents than there are, so every idf is positive, and so is every
      denominator: a term adds to the score exactly of the documents that hold it. */
  lemma TermScorePositive(ln: real -> real, docs: seq<Document>, d: nat, term: string, average: real)
    requires IsLog(ln) && d < |docs| && average > 0.0
    ensures TermScore(ln, docs, d, term, average) >= 0.0
    ensures TermScore(ln, docs, d, term, average) > 0.0 <==> term in docs[d]
  {
    var f, df := Frequency(docs[d], term), DocumentFrequency(docs, term, |docs|);
    if f > 0 {
      Quotient(|docs| as real - df as real + 0.5, df as real + 0.5);
      Contributes(Idf(ln, |docs|, df), f, |docs[d]|, average);
    }
  }

  lemma {:induction false} FrequencyIsCount(doc: Document, term: string)
    ensures Frequency(doc, term) == multiset(doc)[term]
  {
    if doc != [] {
      var init := doc[..|doc| - 1];
      assert doc == init + [doc[|doc| - 1]];
      FrequencyIsCount(init, term);
    }
  }

  lemma {:induction false} DocumentFrequencyIsCount(docs: seq<Document>, term: string, n: nat)
    requires n <= |docs|
    ensures DocumentFrequency(docs, term, n) == |set i: nat | i < n && term in docs[i]|
  {
    var holders := set i: nat | i < n && term in docs[i];
    if n > 0 {
      DocumentFrequencyIsCount(docs, term, n - 1);
      var before := set i: nat | i < n - 1 && term in docs[i];
      assert holders == if term in docs[n - 1] then before + {n - 1} else before;
    }
  }

  lemma {:induction false} TotalIsSum(docs: seq<Document>, n: nat)
    requires n <= |docs|
    ensures TotalTerms(docs, n) == |Joined(docs[..n])|
  {
    if n > 0 {
      TotalIsSum(docs, n - 1);
      assert docs[..n][..n - 1] == docs[..n - 1];
    }
  }

  function Joined(docs: seq<Document>): Document {
    if docs == [] then [] else Joined(docs[..|docs| - 1]) + docs[|docs| - 1]
  }

  lemma AverageIsMean(docs: seq<Document>)
    requires |Joined(docs)| > 0
    ensures docs != [] && Average(docs) > 0.0 && Average(docs) * |docs| as real == |Joined(docs)| as real
  {
    TotalIsSum(docs, |docs|);
    assert docs[..|docs|] == docs;
    Quotient(|Joined(docs)| as real, |docs| as real);
    TimesDivisor(|Joined(docs)| as real, |docs| as real);
  }

  /** Okapi's formula with k1 = 1.2 and b = 0.75, cleared of its fractions: with f the number
      of times the term stands in the document, df the number of documents that hold it, and n
      the number of documents, the score times (f + 0.3 + 0.9 * length / average) is
      ln((n + 1) / (df + 0.5)) * 2.2 * f. */
  lemma TermScoreIsOkapi(ln: real -> real, docs: seq<Document>, d: nat, term: string, average: real)
    requires d < |docs| && average > 0.0
    ensures var f, df := multiset(docs[d])[term], |set i: nat | i < |docs| && term in docs[i]|;
            TermScore(ln, docs, d, term, average) * (f as real + 0.3 + 0.9 * (|docs[d]| as real / average))
            == ln((|docs| as real + 1.0) / (df as real + 0.5)) * 2.2 * f as real
  {
    var f, df := Frequency(docs[d], term), DocumentFrequency(docs, term, |docs|);
    FrequencyIsCount(docs[d], term);
    DocumentFrequencyIsCount(docs, term, |docs|);
    IdfIs(ln, |docs|, df);
    if f > 0 {
      Cleared(Idf(ln, |docs|, df), f, |docs[d]|, average);
    }
    hide Idf, Contribution, Frequency, DocumentFrequency;
  }

  lemma IdfIs(ln: real -> real, n: nat, df: nat)
    ensures Idf(ln, n, df) == ln((n as real + 1.0) / (df as real + 0.5))
  {
    var x, y := n as real - df as real + 0.5, df as real + 0.5;
    TimesDivisor(x, y);
    TimesDivisor(n as real + 1.0, y);
    assert (1.0 + x / y) * y == y + x / y * y;
    Scaled(1.0 + x / y, (n as real + 1.0) / y, y);
    Scaled((n as real + 1.0) / y, 1.0 + x / y, y);
  }

  lemma Cleared(idf: real, f: nat, length: nat, average: real)
    requires f > 0 && average > 0.0
    ensures Contribution(idf, f, length, average) * (f as real + 0.3 + 0.9 * (length as real / average))
            == idf * 2.2 * f as real
  {
    ContributionIs(idf, f, length, average);
    assert Damping(length, average) == 0.3 + 0.9 * (length as real / average);
    hide Contribution, Damping;
    TimesDivisor(idf * 2.2 * f as real, f as real + Damping(length, average));
  }

  lemma TimesDivisor(x: real, y: real)
    requires y > 0.0
    ensures x / y * y == x
  {
  }

  lemma Contributes(idf: real, f: nat, length: nat, average: real)
    requires idf > 0.0 && f > 0 && average > 0.0
    ensures Contribution(idf, f, length, average) > 0.0
  {
  }

  lemma Quotient(x: real, y: real)
    requires x > 0.0 && y > 0.0
    ensures x / y > 0.0
  {
  }

  lemma QuotientNotNegative(x: real, y: real)
    requires x >= 0.0 && y > 0.0
    ensures x / y >= 0.0
  {
  }

  lemma Product(x: real, y: real)
    requires x > 0.0 && y > 0.0
    ensures x * y > 0.0
  {
  }

  lemma RatioOrder(a: real, b: real, c: real, d: real)
    requires b > 0.0 && d > 0.0
    ensures a / b < c / d <==> a * d < c * b
  {
    var x, y := a / b, c / d;
    assert x * b == a && y * d == c;
    assert a * d == x * (b * d) && c * b == y * (b * d);
    Product(b, d);
    Scaled(x, y, b * d);
  }

  lemma Scaled(x: real, y: real, z: real)
    requires z > 0.0
    ensures x < y <==> x * z < y * z
  {
    if x < y { Product(y - x, z); }
    if x > y { Product(x - y, z); }
  }

  /** The denominator without the frequency. */
  function Damping(length: nat, average: real): real
    requires average > 0.0
  {
    1.2 * (1.0 - 0.75 + 0.75 * (length as real / average))
  }

  function Saturating(w: real, f: real, c: real): real
    requires f > 0.0 && c > 0.0
  {
    w * f / (f + c)
  }

  /** A term counts more the more often it stands in a document, but never 2.2 times its idf;
      less the longer the document; and exactly its idf when it stands once in a document of
      average length. */
  lemma ContributionShape(idf: real, f: nat, g: nat, length: nat, longer: nat, average: real)
    requires idf > 0.0 && 0 < f < g && length < longer && average > 0.0
    ensures Contribution(idf, f, length, average) < Contribution(idf, g, length, average) < idf * 2.2
    ensures Contribution(idf, f, longer, average) < Contribution(idf, f, length, average)
    ensures length as real == average ==> Contribution(idf, 1, length, average) == idf
  {
    DampingRises(length, longer, average);
    ContributionIs(idf, f, length, average);
    ContributionIs(idf, g, length, average);
    ContributionIs(idf, f, longer, average);
    if length as real == average {
      OnceInAverage(idf, length, average);
    }
    var w, c, e := idf * 2.2, Damping(length, average), Damping(longer, average);
    hide Contribution, Damping, Saturating;
    RisesWithFrequency(w, f as real, g as real, c);
    StaysBelow(w, g as real, c);
    FallsWithDamping(w, f as real, c, e);
  }

  lemma ContributionIs(idf: real, f: nat, length: nat, average: real)
    requires f > 0 && average > 0.0
    ensures Damping(length, average) > 0.0
    ensures Contribution(idf, f, length, average) == Saturating(idf * 2.2, f as real, Damping(length, average))
  {
    QuotientNotNegative(length as real, average);
    assert idf * f as real * (1.2 + 1.0) == idf * 2.2 * f as real;
  }

  lemma DampingRises(length: nat, longer: nat, average: real)
    requires length < longer && average > 0.0
    ensures Damping(length, average) < Damping(longer, average)
  {
    RatioOrder(length as real, average, longer as real, average);
    Scaled(length as real, longer as real, average);
  }

  lemma OnceInAverage(idf: real, length: nat, average: real)
    requires length as real == average > 0.0
    ensures Contribution(idf, 1, length, average) == idf
  {
    assert length as real / average == 1.0;
    assert idf * 1.0 * (1.2 + 1.0) / (1.0 + 1.2 * (1.0 - 0.75 + 0.75 * 1.0)) == idf;
  }

  lemma RisesWithFrequency(w: real, f: real, g: real, c: real)
    requires w > 0.0 && 0.0 < f < g && c > 0.0
    ensures Saturating(w, f, c) < Saturating(w, g, c)
  {
    RatioOrder(w * f, f + c, w * g, g + c);
    Product(w, c);
    Product(w * c, g - f);
    assert w * g * (f + c) - w * f * (g + c) == w * c * (g - f);
  }

  lemma StaysBelow(w: real, g: real, c: real)
    requires w > 0.0 && g > 0.0 && c > 0.0
    ensures Saturating(w, g, c) < w
  {
    RatioOrder(w * g, g + c, w, 1.0);
    Product(w, c);
    assert w * (g + c) - w * g * 1.0 == w * c;
    assert w / 1.0 == w;
  }

  lemma FallsWithDamping(w: real, f: real, c: real, e: real)
    requires w > 0.0 && f > 0.0 && 0.0 < c < e
    ensures Saturating(w, f, e) < Saturating(w, f, c)
  {
    Product(w, f);
    RatioOrder(w * f, f + e, w * f, f + c);
    Product(w * f, e - c);
    assert w * f * (f + e) - w * f * (f + c) == w * f * (e - c);
  }

  /** The rarer a term, the higher its idf. */
  lemma IdfFalls(ln: real -> real, n: nat, df: nat, dg: nat)
    requires forall x, y | 1.0 <= x < y :: ln(x) < ln(y)
    requires df < dg <= n
    ensures Idf(ln, n, dg) < Idf(ln, n, df)
  {
    var a, b := n as real - dg as real + 0.5, dg as real + 0.5;
    var c, d := n as real - df as real + 0.5, df as real + 0.5;
    Quotient(a, b);
    RatioOrder(a, b, c, d);
    Product(n as real + 1.0, b - d);
    assert c * b - a * d == (n as real + 1.0) * (b - d);
  }

  ghost predicate Shares(doc: Document, terms: seq<string>) {
    exists t :: t in terms && t in doc
  }

  lemma {:induction false} ScorePositive(ln: real -> real, docs: seq<Document>, d: nat, terms: seq<string>,
                                         average: real, n: nat)
    requires IsLog(ln) && d < |docs| && average > 0.0 && n <= |terms|
    ensures Score(ln, docs, d, terms, average, n) >= 0.0
    ensures Score(ln, docs, d, terms, average, n) > 0.0 <==> exists j :: 0 <= j < n && terms[j] in docs[d]
  {
    hide TermScore;
    if n > 0 {
      ScorePositive(ln, docs, d, terms, average, n - 1);
      TermScorePositive(ln, docs, d, terms[n - 1], average);
    }
  }

  // ---- the ranking ----

  /** The documents with a positive score, in their order. */
  function Items(ln: real -> real, chunks: seq<Chunk>, docs: seq<Document>, terms: seq<string>, average: real,
                 n: nat): seq<Scored>
    requires n <= |chunks| == |docs| && average > 0.0
  {
    if n == 0 then []
    else
      var s := Score(ln, docs, n - 1, terms, average, |terms|);
      Items(ln, chunks, docs, terms, average, n - 1) + if s > 0.0 then [Scored(chunks[n - 1].id, s)] else []
  }

  function Average(docs: seq<Document>): real
    requires docs != []
  {
    TotalTerms(docs, |docs|) as real / |docs| as real
  }

  function Ranking(ln: real -> real, a: Alphabet, query: string, chunks: seq<Chunk>): seq<Scored> {
    var terms, docs := Unique(Tokens(a, query)), Documents(a, chunks);
    if terms == [] || chunks == [] || TotalTerms(docs, |docs|) == 0 then []
    else
      Quotient(TotalTerms(docs, |docs|) as real, |docs| as real);
      Sort(Items(ln, chunks, docs, terms, Average(docs), |chunks|), Ahead)
  }

  /** Ranks count from 1; of an id listed twice the later place counts. */
  function RankMap(items: seq<Scored>): map<string, nat> {
    if items == [] then map[] else RankMap(items[..|items| - 1])[items[|items| - 1].id := |items|]
  }

  lemma {:induction false} RankOf(items: seq<Scored>, i: nat)
    requires DistinctScored(items) && i < |items|
    ensures items[i].id in RankMap(items) && RankMap(items)[items[i].id] == i + 1
  {
    var last := |items| - 1;
    if i < last {
      assert items[i].id != items[last].id;
      RankOf(items[..last], i);
    }
  }

  lemma {:induction false} RankedAt(items: seq<Scored>, id: string) returns (i: nat)
    requires id in RankMap(items)
    ensures i < |items| && items[i].id == id
  {
    i := |items| - 1;
    if id != items[i].id {
      i := RankedAt(items[..i], id);
    }
  }

  lemma RankMapIs(items: seq<Scored>)
    requires DistinctScored(items)
    ensures forall i | 0 <= i < |items| :: items[i].id in RankMap(items) && RankMap(items)[items[i].id] == i + 1
    ensures forall id | id in RankMap(items) ::
        1 <= RankMap(items)[id] <= |items| && items[RankMap(items)[id] - 1].id == id
  {
    hide RankMap, DistinctScored;
    forall i | 0 <= i < |items| ensures items[i].id in RankMap(items) && RankMap(items)[items[i].id] == i + 1 {
      RankOf(items, i);
    }
    forall id | id in RankMap(items)
      ensures 1 <= RankMap(items)[id] <= |items| && items[RankMap(items)[id] - 1].id == id
    {
      var i := RankedAt(items, id);
    }
  }

  lemma {:induction false} ItemsAre(ln: real -> real, chunks: seq<Chunk>, docs: seq<Document>, terms: seq<string>,
                                    average: real, n: nat)
    requires n <= |chunks| == |docs| && DistinctIds(chunks) && average > 0.0
    ensures var items := Items(ln, chunks, docs, terms, average, n);
            && DistinctScored(items)
            && forall x :: x in items <==> exists i :: 0 <= i < n && IsItem(ln, chunks, docs, terms, average, i, x)
  {
    hide Score;
    if n > 0 {
      ItemsAre(ln, chunks, docs, terms, average, n - 1);
      var before, now := Items(ln, chunks, docs, terms, average, n - 1), Items(ln, chunks, docs, terms, average, n);
      var x := Scored(chunks[n - 1].id, Score(ln, docs, n - 1, terms, average, |terms|));
      forall i | 0 <= i < |before| ensures before[i].id != x.id {
        assert before[i] in before;
      }
      if x.score > 0.0 {
        assert IsItem(ln, chunks, docs, terms, average, n - 1, x);
        assert now == before + [x];
      } else {
        assert now == before;
      }
    }
  }

  ghost predicate IsItem(ln: real -> real, chunks: seq<Chunk>, docs: seq<Document>, terms: seq<string>,
                         average: real, i: nat, x: Scored)
    requires i < |chunks| == |docs| && average > 0.0
  {
    x == Scored(chunks[i].id, Score(ln, docs, i, terms, average, |terms|)) && x.score > 0.0
  }

  /** The chunk shares a term with the query. */
  ghost predicate Matches(a: Alphabet, query: string, c: Chunk) {
    Shares(Tokens(a, Text(c)), Tokens(a, query))
  }

  ghost predicate Descending(r: seq<Scored>) {
    forall i, j | 0 <= i < j < |r| :: Ahead(r[i], r[j])
  }

  /** The scored ids are exactly those of the chunks that match the query. */
  ghost predicate Matching(r: seq<Scored>, a: Alphabet, query: string, chunks: seq<Chunk>) {
    && (forall i | 0 <= i < |chunks| :: (exists s :: Scored(chunks[i].id, s) in r) <==> Matches(a, query, chunks[i]))
    && (forall x | x in r :: exists i :: 0 <= i < |chunks| && chunks[i].id == x.id)
  }

  /** The ranking holds exactly the chunks that share a term with the query, each once, by
      descending score and then by id. */
  lemma RankingIsSound(ln: real -> real, a: Alphabet, query: string, chunks: seq<Chunk>)
    requires IsLog(ln) && DistinctIds(chunks)
    ensures var r := Ranking(ln, a, query, chunks);
            DistinctScored(r) && Descending(r) && Matching(r, a, query, chunks)
  {
    hide Score, Ahead, Matches, Tokens, Text, Items, IsLog, Descending, DistinctScored, Sort, DistinctIds;
    var terms, docs := Unique(Tokens(a, query)), Documents(a, chunks);
    UniqueKeepsFirsts(Tokens(a, query));
    if terms == [] || chunks == [] || TotalTerms(docs, |docs|) == 0 {
      NothingRanked(a, query, chunks);
    } else {
      var average := Average(docs);
      Quotient(TotalTerms(docs, |docs|) as real, |docs| as real);
      ItemsMatch(ln, a, query, chunks, docs, terms, average);
      SortedItems(Items(ln, chunks, docs, terms, average, |chunks|));
    }
  }

  lemma NothingRanked(a: Alphabet, query: string, chunks: seq<Chunk>)
    requires var docs := Documents(a, chunks);
             Unique(Tokens(a, query)) == [] || chunks == [] || TotalTerms(docs, |docs|) == 0
    ensures DistinctScored([]) && Descending([]) && Matching([], a, query, chunks)
  {
    hide Tokens, Text, Ahead;
    var docs := Documents(a, chunks);
    UniqueKeepsFirsts(Tokens(a, query));
    if TotalTerms(docs, |docs|) == 0 {
      NoTerms(docs, |docs|);
    }
    forall i | 0 <= i < |chunks| ensures !Matches(a, query, chunks[i]) {
      assert Tokens(a, query) == [] || docs[i] == [];
      assert docs[i] == Tokens(a, Text(chunks[i]));
    }
  }

  lemma ItemsMatch(ln: real -> real, a: Alphabet, query: string, chunks: seq<Chunk>, docs: seq<Document>,
                   terms: seq<string>, average: real)
    requires IsLog(ln) && DistinctIds(chunks) && average > 0.0 && docs == Documents(a, chunks)
    requires forall t :: t in terms <==> t in Tokens(a, query)
    ensures var items := Items(ln, chunks, docs, terms, average, |chunks|);
            DistinctScored(items) && Matching(items, a, query, chunks)
  {
    hide Score, Matches, Tokens, Text, IsLog;
    ItemsAre(ln, chunks, docs, terms, average, |chunks|);
    var items := Items(ln, chunks, docs, terms, average, |chunks|);
    forall i | 0 <= i < |chunks|
      ensures (exists s :: Scored(chunks[i].id, s) in items) <==> Matches(a, query, chunks[i])
    {
      ItemIffMatch(ln, a, query, chunks, docs, terms, average, i);
    }
    forall x | x in items ensures exists i :: 0 <= i < |chunks| && chunks[i].id == x.id {
      var i :| 0 <= i < |chunks| && IsItem(ln, chunks, docs, terms, average, i, x);
    }
  }

  lemma {:induction false} NoTerms(docs: seq<Document>, n: nat)
    requires n <= |docs| && TotalTerms(docs, n) == 0
    ensures forall i | 0 <= i < n :: docs[i] == []
  {
    if n > 0 {
      NoTerms(docs, n - 1);
    }
  }

  lemma ItemIffMatch(ln: real -> real, a: Alphabet, query: string, chunks: seq<Chunk>, docs: seq<Document>,
                     terms: seq<string>, average: real, i: nat)
    requires IsLog(ln) && DistinctIds(chunks) && average > 0.0 && i < |chunks| && docs == Documents(a, chunks)
    requires forall t :: t in terms <==> t in Tokens(a, query)
    ensures (exists s :: Scored(chunks[i].id, s) in Items(ln, chunks, docs, terms, average, |chunks|)) <==>
        Matches(a, query, chunks[i])
  {
    hide Score, Items, Tokens, Text, DistinctScored, IsLog;
    ItemsAre(ln, chunks, docs, terms, average, |chunks|);
    ScorePositive(ln, docs, i, terms, average, |terms|);
    var s := Score(ln, docs, i, terms, average, |terms|);
    assert IsItem(ln, chunks, docs, terms, average, i, Scored(chunks[i].id, s)) <==> s > 0.0;
  }

  lemma SortedItems(items: seq<Scored>)
    requires DistinctScored(items)
    ensures var r := Sort(items, Ahead);
            && multiset(r) == multiset(items) && DistinctScored(r)
            && (forall x :: x in r <==> x in items)
            && Descending(r)
  {
    hide Ahead;
    AheadIsOrder();
    SortOrders(items, Ahead);
    var r := Sort(items, Ahead);
    forall x ensures x in r <==> x in items { assert x in multiset(r) <==> x in multiset(items); }
    DistinctPermutation(items, r);
  }

  ghost predicate Held(ranks: map<string, nat>, k: nat) {
    exists id :: id in ranks && ranks[id] == k
  }

  /** The ranks are 1 to m, each held by one id. */
  ghost predicate Bijective(ranks: map<string, nat>, m: nat) {
    && (forall id | id in ranks :: 1 <= ranks[id] <= m)
    && (forall x, y | x in ranks && y in ranks && ranks[x] == ranks[y] :: x == y)
    && (forall k | 1 <= k <= m :: Held(ranks, k))
  }

  lemma RankMapIsBijective(items: seq<Scored>)
    requires DistinctScored(items)
    ensures Bijective(RankMap(items), |items|)
    ensures forall id :: id in RankMap(items) <==> exists s :: Scored(id, s) in items
  {
    hide RankMap, DistinctScored;
    RankMapIs(items);
    var ranks := RankMap(items);
    forall k | 1 <= k <= |items| ensures Held(ranks, k) {
      assert items[k - 1].id in ranks;
    }
    forall id ensures id in ranks <==> exists s :: Scored(id, s) in items {
      if id in ranks {
        assert Scored(id, items[ranks[id] - 1].score) == items[ranks[id] - 1];
      }
      if s :| Scored(id, s) in items {
        var i :| 0 <= i < |items| && items[i] == Scored(id, s);
        assert items[i].id in ranks;
      }
    }
  }

  /** BM25 ranks exactly the chunks that share a term with the query, one rank each from 1
      on, and of two ranked chunks the one with the higher score, or the smaller id, is first. */
  lemma RanksAreBijective(ln: real -> real, a: Alphabet, query: string, chunks: seq<Chunk>)
    requires IsLog(ln) && DistinctIds(chunks)
    ensures var r := Ranking(ln, a, query, chunks);
            var ranks := RankMap(r);
            && Bijective(ranks, |r|)
            && (forall i | 0 <= i < |chunks| :: chunks[i].id in ranks <==> Matches(a, query, chunks[i]))
            && (forall id | id in ranks :: exists i :: 0 <= i < |chunks| && chunks[i].id == id)
            && (forall x, y | x in r && y in r ::
              x.id in ranks && y.id in ranks && (ranks[x.id] < ranks[y.id] <==> Ahead(x, y)))
  {
    hide Ranking, Matches, RankMap, Ahead;
    var r := Ranking(ln, a, query, chunks);
    var ranks := RankMap(r);
    RankingIsSound(ln, a, query, chunks);
    RankMapIsBijective(r);
    forall x, y | x in r && y in r
      ensures x.id in ranks && y.id in ranks && (ranks[x.id] < ranks[y.id] <==> Ahead(x, y))
    {
      RanksFollow(r, x, y);
    }
  }

  lemma RanksFollow(r: seq<Scored>, x: Scored, y: Scored)
    requires DistinctScored(r) && Descending(r) && x in r && y in r
    ensures var ranks := RankMap(r);
            x.id in ranks && y.id in ranks && (ranks[x.id] < ranks[y.id] <==> Ahead(x, y))
  {
    var i :| 0 <= i < |r| && r[i] == x;
    var j :| 0 <= j < |r| && r[j] == y;
    RankOf(r, i);
    RankOf(r, j);
    hide Ahead, RankMap, DistinctScored;
    AheadIsOrder();
  }

  // ---- the loops ----

  datatype Counted = Counted(id: string, termFreq: map<string, nat>, termCount: nat)

  ghost predicate CountsOf(freq: map<string, nat>, doc: Document) {
    && (forall t :: t in freq <==> t in doc)
    && (forall t | t in freq :: freq[t] == Frequency(doc, t))
  }

  ghost predicate AllCounted(counted: seq<Counted>, chunks: seq<Chunk>, docs: seq<Document>) {
    && |counted| <= |chunks| == |docs|
    && forall i | 0 <= i < |counted| ::
         && counted[i].id == chunks[i].id && counted[i].termCount == |docs[i]|
         && CountsOf(counted[i].termFreq, docs[i])
  }

  ghost predicate DocFreqOf(docFreq: map<string, nat>, docs: seq<Document>, n: nat)
    requires n <= |docs|
  {
    forall t :: Looked(docFreq, t) == DocumentFrequency(docs, t, n)
  }

  function Looked(freq: map<string, nat>, t: string): nat {
    if t in freq then freq[t] else 0
  }

  method Bm25Ranks(ln: real -> real, a: Alphabet, query: string, chunks: seq<Chunk>) returns (ranks: map<string, nat>)
    ensures ranks == RankMap(Ranking(ln, a, query, chunks))
  {
    hide TotalTerms, Items, RankMap, AllCounted, DocFreqOf, Tokens, Unique;
    var tokens := Tokenize(a, query);
    var queryTerms := UniqueOf(tokens);
    var docs := Documents(a, chunks);
    EmptyRanks();
    if |queryTerms| == 0 || |chunks| == 0 {
      return map[];
    }
    var counted, docFreq, totalTerms := CountDocuments(a, chunks, docs);
    if totalTerms == 0 {
      return map[];
    }
    Quotient(totalTerms as real, |counted| as real);
    var averageLength := totalTerms as real / |counted| as real;
    var items := ScoreDocuments(ln, chunks, docs, counted, docFreq, queryTerms, averageLength);
    items := Sort(items, Ahead);
    ranks := RanksOf(items);
  }

  lemma EmptyRanks()
    ensures RankMap([]) == map[]
  {
  }

  method RanksOf(items: seq<Scored>) returns (ranks: map<string, nat>)
    ensures ranks == RankMap(items)
  {
    ranks := map[];
    for i := 0 to |items|
      invariant ranks == RankMap(items[..i])
    {
      assert items[..i + 1][..i] == items[..i];
      ranks := ranks[items[i].id := i + 1];
    }
    assert items[..|items|] == items;
  }

  method CountDocuments(a: Alphabet, chunks: seq<Chunk>, ghost docs: seq<Document>)
    returns (counted: seq<Counted>, docFreq: map<string, nat>, totalTerms: nat)
    requires docs == Documents(a, chunks)
    ensures |counted| == |chunks| && AllCounted(counted, chunks, docs)
    ensures DocFreqOf(docFreq, docs, |docs|) && totalTerms == TotalTerms(docs, |docs|)
  {
    counted, docFreq, totalTerms := [], map[], 0;
    assert DocFreqOf(docFreq, docs, 0) && AllCounted([], chunks, docs);
    hide CountsOf, DocFreqOf, AllCounted, Tokens, Text;
    for i := 0 to |chunks|
      invariant |counted| == i && AllCounted(counted, chunks, docs)
      invariant DocFreqOf(docFreq, docs, i) && totalTerms == TotalTerms(docs, i)
    {
      var terms := Tokenize(a, Text(chunks[i]));
      var termFreq := CountTerms(terms);
      docFreq := AddDocument(docFreq, termFreq, docs, i);
      CountOneMore(counted, chunks, docs, termFreq);
      counted := counted + [Counted(chunks[i].id, termFreq, |terms|)];
      totalTerms := totalTerms + |terms|;
    }
  }

  lemma CountOneMore(counted: seq<Counted>, chunks: seq<Chunk>, docs: seq<Document>, termFreq: map<string, nat>)
    requires AllCounted(counted, chunks, docs) && |counted| < |chunks| && CountsOf(termFreq, docs[|counted|])
    ensures AllCounted(counted + [Counted(chunks[|counted|].id, termFreq, |docs[|counted|]|)], chunks, docs)
  {
  }

  method CountTerms(terms: seq<string>) returns (freq: map<string, nat>)
    ensures CountsOf(freq, terms)
  {
    freq := map[];
    for i := 0 to |terms|
      invariant CountsOf(freq, terms[..i])
    {
      assert terms[..i + 1][..i] == terms[..i];
      freq := freq[terms[i] := Looked(freq, terms[i]) + 1];
    }
    assert terms[..|terms|] == terms;
  }

  method AddDocument(before: map<string, nat>, termFreq: map<string, nat>, ghost docs: seq<Document>, ghost i: nat)
    returns (docFreq: map<string, nat>)
    requires i < |docs| && CountsOf(termFreq, docs[i]) && DocFreqOf(before, docs, i)
    ensures DocFreqOf(docFreq, docs, i + 1)
  {
    docFreq := before;
    var left := termFreq.Keys;
    hide Frequency;
    while left != {}
      invariant left <= termFreq.Keys
      invariant forall t :: Looked(docFreq, t) == Looked(before, t) + if t in termFreq && t !in left then 1 else 0
    {
      var t :| t in left;
      docFreq := docFreq[t := Looked(docFreq, t) + 1];
      left := left - {t};
    }
  }

  method ScoreDocuments(ln: real -> real, chunks: seq<Chunk>, ghost docs: seq<Document>, counted: seq<Counted>,
                        docFreq: map<string, nat>, queryTerms: seq<string>, averageLength: real)
    returns (items: seq<Scored>)
    requires |counted| == |chunks| && AllCounted(counted, chunks, docs) && DocFreqOf(docFreq, docs, |docs|)
    requires averageLength > 0.0
    ensures items == Items(ln, chunks, docs, queryTerms, averageLength, |chunks|)
  {
    hide DocFreqOf, CountsOf, Score, Items;
    items := [];
    assert items == Items(ln, chunks, docs, queryTerms, averageLength, 0)
      by { NoItems(ln, chunks, docs, queryTerms, averageLength); }
    for d := 0 to |counted|
      invariant items == Items(ln, chunks, docs, queryTerms, averageLength, d)
    {
      var score := ScoreDocument(ln, docs, d, counted[d], |counted|, docFreq, queryTerms, averageLength);
      NextItem(ln, chunks, docs, queryTerms, averageLength, d);
      if score > 0.0 {
        items := items + [Scored(counted[d].id, score)];
      }
    }
  }

  lemma NoItems(ln: real -> real, chunks: seq<Chunk>, docs: seq<Document>, terms: seq<string>, average: real)
    requires |chunks| == |docs| && average > 0.0
    ensures Items(ln, chunks, docs, terms, average, 0) == []
  {
  }

  lemma NextItem(ln: real -> real, chunks: seq<Chunk>, docs: seq<Document>, terms: seq<string>, average: real, d: nat)
    requires d < |chunks| == |docs| && average > 0.0
    ensures var s := Score(ln, docs, d, terms, average, |terms|);
            var before := Items(ln, chunks, docs, terms, average, d);
            Items(ln, chunks, docs, terms, average, d + 1) ==
              if s > 0.0 then before + [Scored(chunks[d].id, s)] else before
  {
  }

  method ScoreDocument(ln: real -> real, ghost docs: seq<Document>, ghost d: nat, document: Counted, n: nat,
                       docFreq: map<string, nat>, queryTerms: seq<string>, averageLength: real)
    returns (score: real)
    requires d < |docs| == n && document.termCount == |docs[d]| && CountsOf(document.termFreq, docs[d])
    requires DocFreqOf(docFreq, docs, n) && averageLength > 0.0
    ensures score == Score(ln, docs, d, queryTerms, averageLength, |queryTerms|)
  {
    hide Contribution, Idf;
    score := 0.0;
    for j := 0 to |queryTerms|
      invariant score == Score(ln, docs, d, queryTerms, averageLength, j)
    {
      var term := queryTerms[j];
      var frequency := Looked(document.termFreq, term);
      assert frequency == Frequency(docs[d], term);
      if frequency != 0 {
        var idf := Idf(ln, n, Looked(docFreq, term));
        score := score + Contribution(idf, frequency, document.termCount, averageLength);
      }
    }
  }
}
