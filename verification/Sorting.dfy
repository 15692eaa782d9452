/** A stable sort over sequences, what it promises for any weak order, and the order of
    scored ids the retriever ranks by. */
module Sorting {
  /** `before` orders the values, possibly with ties. */
  ghost predicate WeakOrder<T(!new)>(before: (T, T) -> bool) {
    && (forall x, y :: before(x, y) ==> !before(y, x))
    && (forall x, y, z :: before(x, y) && !before(z, y) ==> before(x, z))
  }

  ghost predicate Ordered<T>(s: seq<T>, before: (T, T) -> bool) {
    forall i, j | 0 <= i < j < |s| :: !before(s[j], s[i])
  }

  /** An occurrence of `a` stands ahead of one of `b`. */
  ghost predicate Precedes<T>(s: seq<T>, a: T, b: T) {
    exists i, j :: 0 <= i < j < |s| && s[i] == a && s[j] == b
  }

  function Insert<T>(x: T, s: seq<T>, before: (T, T) -> bool): seq<T> {
    if s == [] || !before(s[0], x) then [x] + s else [s[0]] + Insert(x, s[1..], before)
  }

  function Sort<T>(s: seq<T>, before: (T, T) -> bool): seq<T> {
    if s == [] then [] else Insert(s[0], Sort(s[1..], before), before)
  }

  /** Where the value is inserted: after the values that come before it, ahead of the rest. */
  lemma {:induction false} InsertSplits<T(!new)>(x: T, s: seq<T>, before: (T, T) -> bool) returns (k: nat)
    requires WeakOrder(before) && Ordered(s, before)
    ensures k <= |s| && Insert(x, s, before) == s[..k] + [x] + s[k..]
    ensures forall i | 0 <= i < k :: before(s[i], x)
    ensures forall i | k <= i < |s| :: !before(s[i], x)
  {
    if s == [] || !before(s[0], x) {
      k := 0;
    } else {
      assert Ordered(s[1..], before);
      k := InsertSplits(x, s[1..], before);
      k := k + 1;
      assert s[..k] == [s[0]] + s[1..][..k - 1] && s[k..] == s[1..][k - 1..];
    }
  }

  /** The sort rearranges its input into order. */
  lemma {:induction false} SortOrders<T(!new)>(s: seq<T>, before: (T, T) -> bool)
    requires WeakOrder(before)
    ensures multiset(Sort(s, before)) == multiset(s) && |Sort(s, before)| == |s|
    ensures Ordered(Sort(s, before), before)
  {
    if s != [] {
      SortOrders(s[1..], before);
      var t := Sort(s[1..], before);
      var k := InsertSplits(s[0], t, before);
      assert s == [s[0]] + s[1..] && t == t[..k] + t[k..];
      InsertKeepsOrder(s[0], t, k, before);
    }
  }

  lemma InsertKeepsOrder<T(!new)>(x: T, s: seq<T>, k: nat, before: (T, T) -> bool)
    requires WeakOrder(before) && Ordered(s, before) && k <= |s|
    requires forall i | 0 <= i < k :: before(s[i], x)
    requires forall i | k <= i < |s| :: !before(s[i], x)
    ensures Ordered(s[..k] + [x] + s[k..], before)
  {
  }

  /** The sort is stable: of two values it may leave in place, the first stays first. */
  lemma {:induction false} SortIsStable<T(!new)>(s: seq<T>, before: (T, T) -> bool, a: T, b: T)
    requires WeakOrder(before) && Precedes(s, a, b) && !before(b, a)
    ensures Precedes(Sort(s, before), a, b)
  {
    hide WeakOrder, Ordered;
    var i, j :| 0 <= i < j < |s| && s[i] == a && s[j] == b;
    SortOrders(s[1..], before);
    var t := Sort(s[1..], before);
    var k := InsertSplits(s[0], t, before);
    assert b == s[1..][j - 1] && b in multiset(s[1..]) && b in t;
    if i == 0 {
      var m :| 0 <= m < |t| && t[m] == b;
      InsertedAhead(t, k, a, m);
    } else {
      assert s[1..][i - 1] == a && s[1..][j - 1] == b;
      SortIsStable(s[1..], before, a, b);
      InsertKeepsPrecedes(t, k, s[0], a, b);
    }
  }

  lemma InsertedAhead<T(!new)>(s: seq<T>, k: nat, x: T, m: nat)
    requires k <= m < |s|
    ensures Precedes(s[..k] + [x] + s[k..], x, s[m])
  {
    var t := s[..k] + [x] + s[k..];
    assert t[k] == x && t[m + 1] == s[m];
  }

  lemma InsertKeepsPrecedes<T(!new)>(s: seq<T>, k: nat, x: T, a: T, b: T)
    requires k <= |s| && Precedes(s, a, b)
    ensures Precedes(s[..k] + [x] + s[k..], a, b)
  {
    var m, n :| 0 <= m < n < |s| && s[m] == a && s[n] == b;
    var t := s[..k] + [x] + s[k..];
    var p, q := if m < k then m else m + 1, if n < k then n else n + 1;
    assert t[p] == a && t[q] == b;
  }

  /** Without ties between different values there is only one order: any other sort, stable or
      not, gives the same result. */
  lemma {:induction false} OnlyOneOrder<T(!new)>(s: seq<T>, t: seq<T>, before: (T, T) -> bool)
    requires WeakOrder(before) && (forall x, y :: x == y || before(x, y) || before(y, x))
    requires multiset(s) == multiset(t) && Ordered(s, before) && Ordered(t, before)
    ensures s == t
  {
    assert |multiset(s)| == |s| && |multiset(t)| == |t|;
    if s != [] {
      HeadsAgree(s, t, before);
      assert s == [s[0]] + s[1..] && t == [t[0]] + t[1..];
      assert multiset(s[1..]) == multiset(s) - multiset{s[0]} && multiset(t[1..]) == multiset(t) - multiset{t[0]};
      hide WeakOrder;
      OnlyOneOrder(s[1..], t[1..], before);
    }
  }

  lemma HeadsAgree<T(!new)>(s: seq<T>, t: seq<T>, before: (T, T) -> bool)
    requires WeakOrder(before) && (forall x, y :: x == y || before(x, y) || before(y, x))
    requires s != [] && t != [] && multiset(s) == multiset(t) && Ordered(s, before) && Ordered(t, before)
    ensures s[0] == t[0]
  {
    assert s[0] in multiset(t) && t[0] in multiset(s);
    var i :| 0 <= i < |t| && t[i] == s[0];
    var j :| 0 <= j < |s| && s[j] == t[0];
    assert !before(s[0], t[0]) || i == 0;
    assert !before(t[0], s[0]) || j == 0;
  }

  // ---- scored ids ----

  datatype Scored = Scored(id: string, score: real)

  predicate Less(a: string, b: string) {
    b != [] && (a == [] || a[0] < b[0] || (a[0] == b[0] && Less(a[1..], b[1..])))
  }

  lemma {:induction false} LessIsTotal(a: string, b: string)
    ensures a == b || Less(a, b) || Less(b, a)
    ensures !(Less(a, b) && Less(b, a))
  {
    if a != [] && b != [] {
      LessIsTotal(a[1..], b[1..]);
      assert a == [a[0]] + a[1..] && b == [b[0]] + b[1..];
    }
  }

  lemma {:induction false} LessIsTransitive(a: string, b: string, c: string)
    requires Less(a, b) && Less(b, c)
    ensures Less(a, c)
  {
    if a != [] && a[0] == b[0] == c[0] {
      LessIsTransitive(a[1..], b[1..], c[1..]);
    }
  }

  lemma LessIsOrder()
    ensures WeakOrder(Less)
  {
    forall x, y | Less(x, y) ensures !Less(y, x) {
      LessIsTotal(x, y);
    }
    forall x, y, z | Less(x, y) && !Less(z, y) ensures Less(x, z) {
      LessIsTotal(z, y);
      if Less(y, z) {
        LessIsTransitive(x, y, z);
      }
    }
  }

  /** Sorting ids keeps each as often as it was listed, in ascending order. */
  lemma SortsIds(ids: seq<string>)
    ensures var sorted := Sort(ids, Less);
            && multiset(sorted) == multiset(ids) && (forall id :: id in sorted <==> id in ids)
            && (forall i, j | 0 <= i < j < |sorted| :: sorted[i] == sorted[j] || Less(sorted[i], sorted[j]))
  {
    LessIsOrder();
    SortOrders(ids, Less);
    hide Less, Sort;
    var sorted := Sort(ids, Less);
    forall i, j | 0 <= i < j < |sorted| ensures sorted[i] == sorted[j] || Less(sorted[i], sorted[j]) {
      LessIsTotal(sorted[i], sorted[j]);
    }
    forall id ensures id in sorted <==> id in ids {
      assert id in multiset(sorted) <==> id in multiset(ids);
    }
  }

  /** Higher scores first, equal scores by id. */
  predicate Ahead(x: Scored, y: Scored) {
    x.score > y.score || (x.score == y.score && Less(x.id, y.id))
  }

  predicate Higher(x: Scored, y: Scored) {
    x.score > y.score
  }

  lemma HigherIsOrder()
    ensures WeakOrder(Higher)
  {
  }

  lemma AheadIsOrder()
    ensures WeakOrder(Ahead)
    ensures forall x, y :: x == y || Ahead(x, y) || Ahead(y, x)
  {
    forall x, y ensures x == y || Ahead(x, y) || Ahead(y, x) {
      LessIsTotal(x.id, y.id);
    }
    forall x, y | Ahead(x, y) ensures !Ahead(y, x) {
      LessIsTotal(x.id, y.id);
    }
    forall x, y, z | Ahead(x, y) && !Ahead(z, y) ensures Ahead(x, z) {
      LessIsTotal(z.id, y.id);
      if Less(x.id, y.id) && Less(y.id, z.id) {
        LessIsTransitive(x.id, y.id, z.id);
      }
    }
  }

  ghost predicate DistinctScored(items: seq<Scored>) {
    forall i, j | 0 <= i < j < |items| :: items[i].id != items[j].id
  }

  lemma DistinctPermutation(s: seq<Scored>, t: seq<Scored>)
    requires DistinctScored(s) && multiset(s) == multiset(t)
    ensures DistinctScored(t)
  {
    forall i, j | 0 <= i < j < |t| ensures t[i].id != t[j].id {
      assert t[i] in multiset(s) && t[j] in multiset(s);
      if t[i] == t[j] {
        Twice(t, i, j);
        Once(s, t[i]);
      }
    }
  }

  lemma Twice(t: seq<Scored>, i: nat, j: nat)
    requires i < j < |t| && t[i] == t[j]
    ensures multiset(t)[t[i]] >= 2
  {
    assert t == t[..i] + [t[i]] + t[i + 1..j] + [t[j]] + t[j + 1..];
  }

  lemma {:induction false} Once(s: seq<Scored>, x: Scored)
    requires DistinctScored(s)
    ensures multiset(s)[x] <= 1
  {
    if s != [] {
      assert s == [s[0]] + s[1..];
      Once(s[1..], x);
      assert s[0] !in s[1..];
    }
  }
}
