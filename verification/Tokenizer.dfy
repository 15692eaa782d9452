/** Query and document terms: a word per run of letters and digits, and for a run of Han
    characters every character and every adjacent pair. */
module Tokenizer {
  import opened Basics

  /** What the alphabet says about a rune; `fold` is the lower-case form. */
  datatype Alphabet = Alphabet(isHan: char -> bool, isWord: char -> bool, fold: char -> char)

  datatype Kind = Han | Word | Other

  function KindOf(a: Alphabet, c: char): Kind {
    if a.isHan(c) then Han else if a.isWord(c) then Word else Other
  }

  function Folded(a: Alphabet, s: string): string {
    seq(|s|, i requires 0 <= i < |s| => a.fold(s[i]))
  }

  // ---- the specification: maximal runs ----

  /** The length of the run of one kind a text starts with. */
  function RunLength(a: Alphabet, s: string): (n: nat)
    requires s != []
    ensures 0 < n <= |s|
    ensures forall i | 0 <= i < n :: KindOf(a, s[i]) == KindOf(a, s[0])
    ensures n < |s| ==> KindOf(a, s[n]) != KindOf(a, s[0])
  {
    if |s| > 1 && KindOf(a, s[1]) == KindOf(a, s[0]) then 1 + RunLength(a, s[1..]) else 1
  }

  /** Every character of a run, each but the first followed by its pair with the one before. */
  function HanTerms(run: string): seq<string> {
    if |run| <= 1 then (if run == [] then [] else [run])
    else
      var last := |run| - 1;
      HanTerms(run[..last]) + [[run[last]], [run[last - 1], run[last]]]
  }

  function RunTerms(kind: Kind, run: string): seq<string> {
    match kind
    case Han => HanTerms(run)
    case Word => [run]
    case Other => []
  }

  function Terms(a: Alphabet, s: string): seq<string> {
    if s == [] then []
    else
      var n := RunLength(a, s);
      RunTerms(KindOf(a, s[0]), s[..n]) + Terms(a, s[n..])
  }

  function Tokens(a: Alphabet, s: string): seq<string> {
    Terms(a, Folded(a, s))
  }

  /** Upper and lower case are one: texts that fold alike have the same terms. */
  lemma CaseIsFolded(a: Alphabet, s: string, t: string)
    requires |s| == |t| && forall i | 0 <= i < |s| :: a.fold(s[i]) == a.fold(t[i])
    ensures Tokens(a, s) == Tokens(a, t)
  {
    assert Folded(a, s) == Folded(a, t);
  }

  /** A rune that is neither Han nor part of a word separates: nothing runs across it. */
  lemma SeparatorSplits(a: Alphabet, s: string, c: char, t: string)
    requires !a.isHan(a.fold(c)) && !a.isWord(a.fold(c))
    ensures Tokens(a, s + [c] + t) == Tokens(a, s) + Tokens(a, t)
  {
    assert Folded(a, s + [c] + t) == Folded(a, s) + [a.fold(c)] + Folded(a, t);
    TermsSplit(a, Folded(a, s), a.fold(c), Folded(a, t));
  }

  lemma {:induction false} TermsSplit(a: Alphabet, s: string, c: char, t: string)
    requires KindOf(a, c) == Other
    ensures Terms(a, s + [c] + t) == Terms(a, s) + Terms(a, t)
    decreases |s|
  {
    hide KindOf, RunTerms, Terms, RunLength;
    var whole := s + [c] + t;
    if s == [] {
      assert whole == [c] + t;
      OtherIsSkipped(a, c, t);
      Associate<string>([], [], Terms(a, t));
    } else {
      var n := RunLength(a, s);
      if n < |s| || KindOf(a, s[0]) != Other {
        assert whole[|s|] == c;
        RunIsLocal(a, s, whole);
        TermsSplit(a, s[n..], c, t);
        FirstRun(a, s, whole, n, s[n..] + [c] + t);
        Associate(RunTerms(KindOf(a, s[0]), s[..n]), Terms(a, s[n..]), Terms(a, t));
      } else {
        AllOther(a, s, c, t);
      }
    }
  }

  lemma FirstRun(a: Alphabet, s: string, whole: string, n: nat, rest: string)
    requires s != [] && s <= whole && n == RunLength(a, s) == RunLength(a, whole) && whole[n..] == rest
    ensures Terms(a, whole) == RunTerms(KindOf(a, s[0]), s[..n]) + Terms(a, rest)
    ensures Terms(a, s) == RunTerms(KindOf(a, s[0]), s[..n]) + Terms(a, s[n..])
  {
    hide KindOf, RunTerms, RunLength;
    assert whole[..n] == s[..n];
  }

  lemma AllOther(a: Alphabet, s: string, c: char, t: string)
    requires KindOf(a, c) == Other && forall i | 0 <= i < |s| :: KindOf(a, s[i]) == Other
    ensures Terms(a, s + [c] + t) == Terms(a, t) && Terms(a, s) == []
  {
    SkipOthers(a, s, [c] + t);
    assert s + [c] + t == s + ([c] + t);
    OtherIsSkipped(a, c, t);
    SkipOthers(a, s, []);
    assert s + [] == s;
  }

  lemma {:induction false} OtherIsSkipped(a: Alphabet, c: char, t: string)
    requires KindOf(a, c) == Other
    ensures Terms(a, [c] + t) == Terms(a, t) && Terms(a, []) == []
  {
    var whole := [c] + t;
    assert whole[1..] == t;
    if t != [] && KindOf(a, t[0]) == Other {
      var n := RunLength(a, t);
      assert RunLength(a, whole) == n + 1;
      assert whole[n + 1..] == t[n..];
    }
  }

  lemma {:induction false} SkipOthers(a: Alphabet, s: string, t: string)
    requires forall i | 0 <= i < |s| :: KindOf(a, s[i]) == Other
    ensures Terms(a, s + t) == Terms(a, t)
  {
    if s == [] {
      assert s + t == t;
    } else {
      SkipOthers(a, s[1..], t);
      assert s + t == [s[0]] + (s[1..] + t);
      OtherIsSkipped(a, s[0], s[1..] + t);
    }
  }

  /** A run that ends within `s`, or is of another kind than what follows, stays as it is. */
  lemma {:induction false} RunIsLocal(a: Alphabet, s: string, whole: string)
    requires s != [] && s <= whole
    requires |s| < |whole| && RunLength(a, s) == |s| ==> KindOf(a, whole[|s|]) != KindOf(a, s[0])
    ensures RunLength(a, whole) == RunLength(a, s)
  {
    if |s| > 1 && KindOf(a, s[1]) == KindOf(a, s[0]) {
      assert s[1..] <= whole[1..];
      RunIsLocal(a, s[1..], whole[1..]);
    }
  }

  /** A run of n Han characters yields its n characters and its n - 1 adjacent pairs. */
  lemma {:induction false} HanTermsAre(run: string)
    requires run != []
    ensures |HanTerms(run)| == 2 * |run| - 1
    ensures HanTerms(run)[0] == [run[0]]
    ensures forall i | 0 < i < |run| ::
              HanTerms(run)[2 * i - 1] == [run[i]] && HanTerms(run)[2 * i] == [run[i - 1], run[i]]
  {
    if |run| > 1 {
      var last := |run| - 1;
      HanTermsAre(run[..last]);
      
    }
  }

  // ---- the loop ----

  /** What the loop still yields: with an unfinished word, after a Han character, or afresh. */
  function Pending(a: Alphabet, word: string, han: Option<char>, s: string): seq<string>
    decreases |s|
  {
    if word != [] then Terms(a, word + s)
    else if han.Some? && s != [] && a.isHan(s[0]) then [[s[0]], [han.value, s[0]]] + Pending(a, [], Some(s[0]), s[1..])
    else Terms(a, s)
  }

  method Tokenize(a: Alphabet, text: string) returns (out: seq<string>)
    ensures out == Tokens(a, text)
  {
    var s := Folded(a, text);
    out := [];
    var word, previous := [], None;
    assert s[0..] == s;
    assert Pending(a, word, None, s[0..]) == Tokens(a, text);
    hide *;
    for k := 0 to |s|
      invariant IsWord(a, word) && (previous.Some? ==> word == [])
      invariant out + Pending(a, word, previous, s[k..]) == Tokens(a, text)
    {
      assert s[k..] == [s[k]] + s[k + 1..];
      var terms;
      terms, word, previous := TakeRune(a, word, previous, s[k], s[k + 1..]);
      Associate(out, terms, Pending(a, word, previous, s[k + 1..]));
      out := out + terms;
    }
    assert s[|s|..] == [];
    LastStep(a, word, previous);
    if |word| > 0 {
      out := out + [word];
    }
  }

  /** One rune: the terms it completes, the word it leaves unfinished, the Han character it is. */
  method TakeRune(a: Alphabet, word: string, previous: Option<char>, r: char, ghost rest: string)
    returns (terms: seq<string>, newWord: string, han: Option<char>)
    requires IsWord(a, word) && (previous.Some? ==> word == [])
    ensures IsWord(a, newWord) && (han.Some? ==> newWord == [])
    ensures Pending(a, word, previous, [r] + rest) == terms + Pending(a, newWord, han, rest)
  {
    hide Pending, IsWord;
    terms, newWord, han := [], [], None;
    WordGrows(a, word, r);
    if a.isHan(r) {
      HanStep(a, word, previous, r, rest);
      if |word| > 0 {
        terms := terms + [word];
      }
      terms := terms + [[r]];
      if previous.Some? {
        terms := terms + [[previous.value, r]];
      }
      han := Some(r);
    } else {
      OtherStep(a, word, previous, r, rest);
      if a.isWord(r) {
        newWord := word + [r];
      } else if |word| > 0 {
        terms := [word];
      }
    }
  }

  ghost predicate IsWord(a: Alphabet, word: string) {
    forall i | 0 <= i < |word| :: KindOf(a, word[i]) == Word
  }

  lemma WordGrows(a: Alphabet, word: string, r: char)
    requires IsWord(a, word)
    ensures (!a.isHan(r) && a.isWord(r) ==> IsWord(a, word + [r])) && IsWord(a, [])
  {
  }

  /** The word a Han character ends, the character, and its pair. */
  function HanEmits(word: string, han: Option<char>, r: char): seq<string> {
    (if |word| > 0 then [word] else []) + [[r]] + (if han.None? then [] else [[han.value, r]])
  }

  lemma HanStep(a: Alphabet, word: string, han: Option<char>, r: char, rest: string)
    requires IsWord(a, word) && a.isHan(r) && (han.None? || word == [])
    ensures Pending(a, word, han, [r] + rest) ==
            HanEmits(word, han, r) + Pending(a, [], Some(r), rest)
  {
    HanBegins(a, r, rest);
    if han.Some? {
      HanContinues(a, han.value, r, rest);
    } else if word != [] {
      WordEnds(a, word, [r] + rest);
    }
    hide Pending, Terms;
  }

  lemma OtherStep(a: Alphabet, word: string, han: Option<char>, r: char, rest: string)
    requires IsWord(a, word) && !a.isHan(r) && (han.None? || word == [])
    ensures Pending(a, word, han, [r] + rest) ==
            if a.isWord(r) then Pending(a, word + [r], None, rest)
            else (if word == [] then [] else [word]) + Pending(a, [], None, rest)
  {
    if a.isWord(r) {
      assert word + [r] + rest == word + ([r] + rest);
      assert [] + ([r] + rest) == [r] + rest;
    } else {
      OtherBegins(a, r, rest);
      if word != [] {
        WordEnds(a, word, [r] + rest);
      }
    }
  }

  lemma LastStep(a: Alphabet, word: string, han: Option<char>)
    requires IsWord(a, word)
    ensures Pending(a, word, han, []) == if word == [] then [] else [word]
  {
    if word != [] {
      WordEnds(a, word, []);
    }
  }

  /** A word run ends where the next rune is no word rune. */
  lemma {:induction false} WordEnds(a: Alphabet, word: string, rest: string)
    requires IsWord(a, word) && word != [] && (rest != [] ==> KindOf(a, rest[0]) != Word)
    ensures Terms(a, word + rest) == [word] + Terms(a, rest)
  {
    RunLengthIs(a, word, rest);
    assert (word + rest)[..|word|] == word && (word + rest)[|word|..] == rest;
  }

  lemma {:induction false} RunLengthIs(a: Alphabet, run: string, rest: string)
    requires run != [] && (forall i | 0 <= i < |run| :: KindOf(a, run[i]) == KindOf(a, run[0]))
    requires rest != [] ==> KindOf(a, rest[0]) != KindOf(a, run[0])
    ensures RunLength(a, run + rest) == |run|
  {
    var s := run + rest;
    assert forall i | 0 <= i < |run| :: s[i] == run[i];
    assert rest != [] ==> s[|run|] == rest[0];
    assert rest == [] ==> |s| == |run|;
  }

  lemma OtherBegins(a: Alphabet, r: char, rest: string)
    requires KindOf(a, r) == Other
    ensures Terms(a, [r] + rest) == Terms(a, rest)
  {
    var s := [r] + rest;
    var n := RunLength(a, s);
    if n > 1 {
      assert KindOf(a, rest[0]) == KindOf(a, s[1]) == Other;
      RunShrinks(a, s);
      assert s[1..] == rest && rest[n - 1..] == s[n..];
    } else {
      assert s[1..] == rest;
    }
  }

  lemma RunShrinks(a: Alphabet, s: string)
    requires |s| > 1 && KindOf(a, s[1]) == KindOf(a, s[0])
    ensures RunLength(a, s[1..]) == RunLength(a, s) - 1
  {
  }

  /** A Han run, character by character: after its first, every one comes with its pair. */
  lemma {:induction false} HanBegins(a: Alphabet, r: char, rest: string)
    requires a.isHan(r)
    ensures Terms(a, [r] + rest) == [[r]] + Pending(a, [], Some(r), rest)
    decreases rest
  {
    var s := [r] + rest;
    var n := RunLength(a, s);
    HanRun(a, s, 1);
    assert s[..1] == [r] && s[1..] == rest;
  }

  /** After k characters of a Han run: their terms, then what is pending behind them. */
  lemma {:induction false} HanRun(a: Alphabet, s: string, k: nat)
    requires s != [] && a.isHan(s[0]) && 0 < k <= RunLength(a, s)
    ensures Terms(a, s) == HanTerms(s[..k]) + Pending(a, [], Some(s[k - 1]), s[k..])
    decreases |s| - k
  {
    var n := RunLength(a, s);
    hide Pending, Terms, HanTerms;
    if k < n {
      assert KindOf(a, s[k]) == KindOf(a, s[0]) == Han;
      HanRun(a, s, k + 1);
      assert s[..k + 1] == s[..k] + [s[k]] && s[k..] == [s[k]] + s[k + 1..];
      HanTermsGrow(s[..k], s[k]);
      HanContinues(a, s[k - 1], s[k], s[k + 1..]);
    } else {
      HanStops(a, s[k - 1], s[k..]);
      TermsOfRun(a, s);
    }
  }

  lemma TermsOfRun(a: Alphabet, s: string)
    requires s != [] && a.isHan(s[0])
    ensures var n := RunLength(a, s); Terms(a, s) == HanTerms(s[..n]) + Terms(a, s[n..])
  {
  }

  lemma HanTermsGrow(run: string, c: char)
    requires run != []
    ensures HanTerms(run + [c]) == HanTerms(run) + [[c], [run[|run| - 1], c]]
  {
  }

  lemma HanContinues(a: Alphabet, p: char, c: char, rest: string)
    requires a.isHan(c)
    ensures Pending(a, [], Some(p), [c] + rest) == [[c], [p, c]] + Pending(a, [], Some(c), rest)
  {
  }

  lemma HanStops(a: Alphabet, p: char, s: string)
    requires s == [] || !a.isHan(s[0])
    ensures Pending(a, [], Some(p), s) == Terms(a, s)
  {
  }
}
