/** Strings as sequences of runes: white space, trimming, splitting. */
module Text {
  /** White space as the Unicode property White_Space lists it. */
  predicate IsSpace(c: char) {
    var n := c as int;
    || 0x09 <= n <= 0x0D || n == 0x20 || n == 0x85 || n == 0xA0 || n == 0x1680
    || 0x2000 <= n <= 0x200A || n == 0x2028 || n == 0x2029 || n == 0x202F || n == 0x205F || n == 0x3000
  }

  predicate Blank(s: string) {
    forall k | 0 <= k < |s| :: IsSpace(s[k])
  }

  function TrimLeft(s: string): string {
    if s != [] && IsSpace(s[0]) then TrimLeft(s[1..]) else s
  }

  function TrimRight(s: string): string {
    if s != [] && IsSpace(s[|s| - 1]) then TrimRight(s[..|s| - 1]) else s
  }

  function TrimSpace(s: string): string {
    TrimRight(TrimLeft(s))
  }

  ghost predicate Trimmed(s: string) {
    s != [] ==> !IsSpace(s[0]) && !IsSpace(s[|s| - 1])
  }

  /** The runes that are not white space, in order. */
  function Squeeze(s: string): string {
    if s == [] then [] else (if IsSpace(s[0]) then [] else [s[0]]) + Squeeze(s[1..])
  }

  function Flatten(parts: seq<string>): string {
    if parts == [] then [] else parts[0] + Flatten(parts[1..])
  }

  /** `s` stands in `t` at position `i`. */
  predicate Occurs(t: string, s: string, i: nat) {
    i + |s| <= |t| && t[i..i + |s|] == s
  }

  ghost predicate Infix(s: string, t: string) {
    exists i: nat :: Occurs(t, s, i)
  }

  lemma {:induction false} SqueezeAppend(s: string, t: string)
    ensures Squeeze(s + t) == Squeeze(s) + Squeeze(t)
  {
    if s == [] {
      assert s + t == t;
    } else {
      assert (s + t)[1..] == s[1..] + t;
      SqueezeAppend(s[1..], t);
    }
  }

  lemma {:induction false} FlattenAppend(a: seq<string>, b: seq<string>)
    ensures Flatten(a + b) == Flatten(a) + Flatten(b)
  {
    if a == [] {
      assert a + b == b;
    } else {
      assert (a + b)[1..] == a[1..] + b;
      FlattenAppend(a[1..], b);
    }
  }

  lemma FlattenOne(s: string)
    ensures Flatten([s]) == s
  {
  }

  lemma {:induction false} BlankSqueezes(s: string)
    ensures Squeeze(s) == [] <==> Blank(s)
  {
    if s != [] {
      BlankSqueezes(s[1..]);
      assert Blank(s) <==> IsSpace(s[0]) && Blank(s[1..]) by {
        assert forall k | 1 <= k < |s| :: s[k] == s[1..][k - 1];
      }
    }
  }

  /** How much is trimmed on the left: white space only, up to the first other rune. */
  lemma {:induction false} TrimLeftCut(s: string) returns (n: nat)
    ensures n <= |s| && TrimLeft(s) == s[n..] && Blank(s[..n])
    ensures n < |s| ==> !IsSpace(s[n])
  {
    if s != [] && IsSpace(s[0]) {
      var m := TrimLeftCut(s[1..]);
      n := m + 1;
      assert s[..n] == [s[0]] + s[1..][..m];
    } else {
      n := 0;
    }
  }

  lemma {:induction false} TrimRightCut(s: string) returns (n: nat)
    ensures n <= |s| && TrimRight(s) == s[..n] && Blank(s[n..])
    ensures n > 0 ==> !IsSpace(s[n - 1])
  {
    if s != [] && IsSpace(s[|s| - 1]) {
      n := TrimRightCut(s[..|s| - 1]);
      assert s[n..] == s[..|s| - 1][n..] + [s[|s| - 1]];
      assert s[..|s| - 1][..n] == s[..n];
    } else {
      n := |s|;
    }
  }

  /** Trimming keeps a stretch of the text between two blank ends. */
  lemma TrimCut(s: string) returns (i: nat, j: nat)
    ensures i <= j <= |s| && TrimSpace(s) == s[i..j] && Blank(s[..i]) && Blank(s[j..])
    ensures i < j ==> !IsSpace(s[i]) && !IsSpace(s[j - 1])
    ensures i == j <==> Blank(s)
  {
    i := TrimLeftCut(s);
    var n := TrimRightCut(s[i..]);
    j := i + n;
    assert s[i..][..n] == s[i..j];
    assert s[i..][n..] == s[j..];
    if i == j {
      assert s == s[..i] + s[j..];
    }
    if n > 0 {
      assert !IsSpace(s[i..][n - 1]);
    }
  }

  lemma TrimProperties(s: string)
    ensures Trimmed(TrimSpace(s)) && |TrimSpace(s)| <= |s|
    ensures TrimSpace(s) == [] <==> Blank(s)
    ensures Squeeze(TrimSpace(s)) == Squeeze(s)
  {
    var i, j := TrimCut(s);
    assert s == s[..i] + s[i..j] + s[j..];
    SqueezeAppend(s[..i] + s[i..j], s[j..]);
    SqueezeAppend(s[..i], s[i..j]);
    BlankSqueezes(s[..i]);
    BlankSqueezes(s[j..]);
  }

  /** The trimmed middle survives the trimming of the whole. */
  lemma TrimKeepsMiddle(x: string, p: string, y: string)
    requires !Blank(p)
    ensures Infix(TrimSpace(p), TrimSpace(x + p + y))
  {
    var s := x + p + y;
    var a, b := TrimCut(p);
    var i, j := TrimCut(s);
    var lo, hi := |x| + a, |x| + b;
    assert s[lo] == p[a] && s[hi - 1] == p[b - 1];
    forall k | 0 <= k < i ensures IsSpace(s[k]) { assert IsSpace(s[..i][k]); }
    forall k | j <= k < |s| ensures IsSpace(s[k]) { assert IsSpace(s[j..][k - j]); }
    assert i <= lo && hi <= j;
    SliceOfSlice(s, i, j, lo, hi);
    SliceOfMiddle(x, p, y, a, b);
    assert Occurs(TrimSpace(s), TrimSpace(p), lo - i);
  }

  lemma SliceOfSlice(s: string, i: nat, j: nat, lo: nat, hi: nat)
    requires i <= lo <= hi <= j <= |s|
    ensures s[i..j][lo - i..hi - i] == s[lo..hi]
  {
    var t, u := s[i..j][lo - i..hi - i], s[lo..hi];
    assert |t| == |u| && forall k | 0 <= k < |u| :: t[k] == s[lo + k] == u[k];
  }

  lemma SliceOfMiddle(x: string, p: string, y: string, a: nat, b: nat)
    requires a <= b <= |p|
    ensures (x + p + y)[|x| + a..|x| + b] == p[a..b]
  {
  }

  // ---- splitting after a separator ----

  /** The first position at or after `start` where `sep` occurs, or the length of the text. */
  function Find(s: string, sep: string, start: nat): (i: nat)
    requires start <= |s|
    ensures start <= i <= |s|
    ensures i < |s| ==> Occurs(s, sep, i)
    ensures forall k: nat | start <= k < i :: !Occurs(s, sep, k)
    decreases |s| - start
  {
    if start == |s| || Occurs(s, sep, start) then start else Find(s, sep, start + 1)
  }

  /** Cuts after every occurrence of the separator; the last piece may be empty. */
  function SplitAfter(s: string, sep: string): seq<string>
    requires sep != []
    decreases |s|
  {
    var i := Find(s, sep, 0);
    if i == |s| then [s] else [s[..i + |sep|]] + SplitAfter(s[i + |sep|..], sep)
  }

  /** A piece ends at its only occurrence of the separator; the last piece has none. */
  ghost predicate EndsAtFirst(piece: string, sep: string, last: bool) {
    if last then forall k: nat | k < |piece| :: !Occurs(piece, sep, k)
    else |sep| <= |piece| && Occurs(piece, sep, |piece| - |sep|)
         && forall k: nat | k < |piece| - |sep| :: !Occurs(piece, sep, k)
  }

  /** The pieces join to the text, and each ends where the separator first occurs in it. */
  lemma {:induction false} SplitAfterPieces(s: string, sep: string)
    requires sep != []
    ensures var parts := SplitAfter(s, sep);
            && parts != [] && Flatten(parts) == s
            && forall k | 0 <= k < |parts| :: EndsAtFirst(parts[k], sep, k == |parts| - 1)
    decreases |s|
  {
    hide Occurs;
    var i := Find(s, sep, 0);
    if i == |s| {
      assert Flatten([s]) == s;
    } else {
      FirstPiece(s, sep, i);
      SplitAfterPieces(s[i + |sep|..], sep);
    }
  }

  lemma FirstPiece(s: string, sep: string, i: nat)
    requires Occurs(s, sep, i) && forall k: nat | k < i :: !Occurs(s, sep, k)
    ensures i + |sep| <= |s| && EndsAtFirst(s[..i + |sep|], sep, false)
  {
    var first := s[..i + |sep|];
    assert first[i..i + |sep|] == s[i..i + |sep|];
    forall k: nat | k < i ensures !Occurs(first, sep, k) {
      assert !Occurs(s, sep, k);
      if k + |sep| <= |first| {
        assert first[k..k + |sep|] == s[k..k + |sep|];
      }
    }
  }

  predicate HasPrefix(s: string, prefix: string) {
    |prefix| <= |s| && s[..|prefix|] == prefix
  }
}
