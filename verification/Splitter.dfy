/** The recursive splitter: sections, paragraphs, lines, sentences, words, and at last plain
    cuts, each level only for the parts that are still too long. */
module Splitter {
  import opened Basics
  import opened Text
  import opened MarkdownSections

  // ---- one level: a text cut into parts ----

  predicate EndsSentence(text: string, i: nat)
    requires i < |text|
  {
    var c := text[i];
    || c == '\U{3002}' || c == '\U{FF01}' || c == '\U{FF1F}'
    || ((c == '.' || c == '!' || c == '?') && (i + 1 == |text| || IsSpace(text[i + 1])))
  }

  predicate Boundary(text: string, i: nat, level: nat)
    requires i < |text|
  {
    if level == 9 then EndsSentence(text, i) else IsSpace(text[i])
  }

  /** Cuts after every boundary from `i` on; the open part began at `start`. */
  function Cuts(text: string, start: nat, i: nat, level: nat): seq<string>
    requires start <= i <= |text|
    decreases |text| - i
  {
    if i == |text| then [text[start..]]
    else if Boundary(text, i, level) then [text[start..i + 1]] + Cuts(text, i + 1, i + 1, level)
    else Cuts(text, start, i + 1, level)
  }

  function Parts(text: string, level: nat): seq<string> {
    if level <= 6 then Sections(text, level)
    else if level == 7 then SplitAfter(text, "\n\n")
    else if level == 8 then SplitAfter(text, "\n")
    else Cuts(text, 0, 0, level)
  }

  // ---- the recursion ----

  function HardPieces(s: string, size: nat): seq<string>
    requires size > 0
  {
    if s == [] then []
    else
      var n := if size <= |s| then size else |s|;
      var piece := TrimSpace(s[..n]);
      (if piece == [] then [] else [piece]) + HardPieces(s[n..], size)
  }

  function Flushed(buf: string): seq<string> {
    if buf == [] then [] else [TrimSpace(buf)]
  }

  function Chunks(text: string, level: nat, size: nat): seq<string>
    requires size > 0 && 0 < level <= 11
    decreases 11 - level, 1, 0
  {
    if |text| <= size then [text]
    else if level > 10 then HardPieces(text, size)
    else Packed(Parts(text, level), [], level, size)
  }

  /** The parts from here on, packed into chunks; `buf` is the chunk being filled. */
  function Packed(parts: seq<string>, buf: string, level: nat, size: nat): seq<string>
    requires size > 0 && 0 < level <= 10
    decreases 11 - level, 0, |parts|
  {
    if parts == [] then Flushed(buf)
    else
      var p, rest := parts[0], parts[1..];
      if TrimSpace(p) == [] then Packed(rest, buf, level, size)
      else if |p| > size then Flushed(buf) + Chunks(TrimSpace(p), level + 1, size) + Packed(rest, [], level, size)
      else if |buf| + |p| > size then Flushed(buf) + Packed(rest, p, level, size)
      else Packed(rest, buf + p, level, size)
  }

  /** "\r\n" becomes "\n". */
  function UnixLines(s: string): string {
    if |s| >= 2 && s[0] == '\r' && s[1] == '\n' then ['\n'] + UnixLines(s[2..])
    else if s == [] then []
    else [s[0]] + UnixLines(s[1..])
  }

  /** Every "\r\n" becomes "\n", wherever it stands. */
  lemma {:induction false} UnixLinesReplace(x: string, y: string)
    ensures UnixLines(x + ['\r', '\n'] + y) == UnixLines(x) + ['\n'] + UnixLines(y)
  {
    hide UnixLines;
    var s := x + ['\r', '\n'] + y;
    UnixStep(s);
    UnixStep(x);
    if x == [] {
      assert s[2..] == y;
      assert [] + ['\n'] + UnixLines(y) == ['\n'] + UnixLines(y);
    } else if |x| >= 2 && x[0] == '\r' && x[1] == '\n' {
      UnixLinesReplace(x[2..], y);
      assert s[2..] == x[2..] + ['\r', '\n'] + y;
    } else {
      assert |x| == 1 ==> s[1] == '\r';
      UnixLinesReplace(x[1..], y);
      assert s[1..] == x[1..] + ['\r', '\n'] + y;
    }
  }

  lemma UnixStep(s: string)
    ensures UnixLines(s) ==
            if s == [] then []
            else if |s| >= 2 && s[0] == '\r' && s[1] == '\n' then ['\n'] + UnixLines(s[2..])
            else [s[0]] + UnixLines(s[1..])
  {
  }

  /** And nothing else changes. */
  lemma {:induction false} UnixLinesKeeps(s: string)
    requires forall i | 0 <= i < |s| - 1 :: !(s[i] == '\r' && s[i + 1] == '\n')
    ensures UnixLines(s) == s
  {
    if s != [] {
      assert forall i | 0 <= i < |s[1..]| :: s[1..][i] == s[i + 1];
      UnixLinesKeeps(s[1..]);
    }
  }

  /** The size a splitter is built with; 1000 for anything not positive. */
  function ChunkSize(asked: int): (size: nat)
    ensures size == if asked > 0 then asked else 1000
  {
    if asked <= 0 then 1000 else asked
  }

  function Split(text: string, size: nat): seq<string>
    requires size > 0
  {
    var clean := TrimSpace(UnixLines(text));
    if clean == [] then [] else Chunks(clean, 1, size)
  }

  // ---- the size bound, and nothing lost ----

  ghost predicate GoodChunk(c: string, size: nat) {
    c != [] && Trimmed(c) && |c| <= size
  }

  ghost predicate GoodChunks(chunks: seq<string>, size: nat) {
    forall k | 0 <= k < |chunks| :: GoodChunk(chunks[k], size)
  }

  /** Every chunk is non-empty, trimmed and within the size; together they hold every rune of
      the text that is not white space, in the text's order, and nothing else. */
  lemma SplitIsSound(text: string, size: nat)
    requires size > 0
    ensures GoodChunks(Split(text, size), size)
    ensures Squeeze(Flatten(Split(text, size))) == Squeeze(text)
    ensures Split(text, size) == [] <==> Blank(text)
  {
    var unix := UnixLines(text);
    UnixLinesSqueeze(text);
    TrimProperties(unix);
    BlankSqueezes(unix);
    BlankSqueezes(text);
    if TrimSpace(unix) != [] {
      ChunksAreSound(TrimSpace(unix), 1, size);
    }
  }

  lemma {:induction false} UnixLinesSqueeze(s: string)
    ensures Squeeze(UnixLines(s)) == Squeeze(s)
  {
    if |s| >= 2 && s[0] == '\r' && s[1] == '\n' {
      UnixLinesSqueeze(s[2..]);
      assert Squeeze(s) == Squeeze(s[1..]) == Squeeze(s[1..][1..]) && s[1..][1..] == s[2..];
    } else if s != [] {
      UnixLinesSqueeze(s[1..]);
    }
  }

  lemma {:induction false} ChunksAreSound(text: string, level: nat, size: nat)
    requires size > 0 && 0 < level <= 11 && text != [] && Trimmed(text)
    ensures Sound(Chunks(text, level, size), text, size)
    decreases 11 - level, 1, 0
  {
    if |text| <= size {
      assert Flatten([text]) == text;
    } else if level > 10 {
      HardPiecesAreSound(text, size);
    } else {
      PartsJoin(text, level);
      PackedIsSound(Parts(text, level), [], level, size);
      assert [] + text == text;
    }
  }

  ghost predicate GoodBuffer(buf: string, size: nat) {
    |buf| <= size && (buf != [] ==> !Blank(buf))
  }

  /** The chunks are good and hold what the text holds. */
  ghost predicate Sound(chunks: seq<string>, text: string, size: nat) {
    GoodChunks(chunks, size) && Squeeze(Flatten(chunks)) == Squeeze(text)
  }

  lemma {:induction false} PackedIsSound(parts: seq<string>, buf: string, level: nat, size: nat)
    requires size > 0 && 0 < level <= 10 && GoodBuffer(buf, size)
    ensures Sound(Packed(parts, buf, level, size), buf + Flatten(parts), size)
    decreases 11 - level, 0, |parts|
  {
    hide Blank, Trimmed, TrimSpace, Squeeze, Sound, Flushed;
    FlushedIsSound(buf, size);
    if parts == [] {
      assert buf + Flatten([]) == buf;
    } else {
      var p, rest := parts[0], parts[1..];
      var after := Flatten(rest);
      TrimProperties(p);
      assert buf + Flatten(parts) == buf + p + after;
      if TrimSpace(p) == [] {
        PackedIsSound(rest, buf, level, size);
        SkipIsSound(Packed(rest, buf, level, size), buf, p, after, size);
      } else if |p| > size {
        ChunksAreSound(TrimSpace(p), level + 1, size);
        PackedIsSound(rest, [], level, size);
        TrimmedIsSound(Chunks(TrimSpace(p), level + 1, size), p, size);
        assert [] + after == after;
        JoinIsSound(Flushed(buf), Chunks(TrimSpace(p), level + 1, size), Packed(rest, [], level, size), buf, p,
                    after, size);
      } else if |buf| + |p| > size {
        PackedIsSound(rest, p, level, size);
        JoinIsSound(Flushed(buf), [], Packed(rest, p, level, size), buf, [], p + after, size);
        assert buf + [] + (p + after) == buf + p + after;
        assert Flushed(buf) + [] == Flushed(buf);
      } else {
        AppendNotBlank(buf, p);
        PackedIsSound(rest, buf + p, level, size);
      }
    }
  }

  lemma SkipIsSound(chunks: seq<string>, buf: string, p: string, after: string, size: nat)
    requires Sound(chunks, buf + after, size) && Blank(p)
    ensures Sound(chunks, buf + p + after, size)
  {
    BlankSqueezes(p);
    SqueezeAppend(buf, after);
    SqueezeThree(buf, p, after);
  }

  lemma TrimmedIsSound(chunks: seq<string>, p: string, size: nat)
    requires Sound(chunks, TrimSpace(p), size)
    ensures Sound(chunks, p, size)
  {
    TrimProperties(p);
  }

  lemma JoinIsSound(a: seq<string>, b: seq<string>, c: seq<string>, x: string, y: string, z: string, size: nat)
    requires Sound(a, x, size) && ((b == [] && y == []) || Sound(b, y, size)) && Sound(c, z, size)
    ensures Sound(a + b + c, x + y + z, size)
  {
    hide GoodChunk;
    SqueezeThree(x, y, z);
    JoinChunks(a, b, c);
  }

  lemma AppendNotBlank(buf: string, p: string)
    requires !Blank(p)
    ensures !Blank(buf + p)
  {
    var k :| 0 <= k < |p| && !IsSpace(p[k]);
    assert (buf + p)[|buf| + k] == p[k];
  }

  lemma FlushedIsSound(buf: string, size: nat)
    requires GoodBuffer(buf, size)
    ensures Sound(Flushed(buf), buf, size)
  {
    TrimProperties(buf);
    assert Flatten([TrimSpace(buf)]) == TrimSpace(buf);
  }

  lemma SqueezeThree(a: string, b: string, c: string)
    ensures Squeeze(a + b + c) == Squeeze(a) + Squeeze(b) + Squeeze(c)
  {
    SqueezeAppend(a + b, c);
    SqueezeAppend(a, b);
  }

  lemma JoinChunks(a: seq<string>, b: seq<string>, c: seq<string>)
    ensures Squeeze(Flatten(a + b + c)) == Squeeze(Flatten(a)) + Squeeze(Flatten(b)) + Squeeze(Flatten(c))
  {
    FlattenAppend(a + b, c);
    FlattenAppend(a, b);
    SqueezeThree(Flatten(a), Flatten(b), Flatten(c));
  }

  lemma EmptySqueezes()
    ensures Squeeze([]) == [] && Flatten([]) == []
  {
  }

  lemma {:induction false} HardPiecesAreSound(s: string, size: nat)
    requires size > 0
    ensures GoodChunks(HardPieces(s, size), size)
    ensures Squeeze(Flatten(HardPieces(s, size))) == Squeeze(s)
  {
    hide TrimSpace, Squeeze, Blank, Trimmed;
    if s == [] {
      assert Squeeze([]) == [] by { EmptySqueezes(); }
    } else {
      var n := if size <= |s| then size else |s|;
      var piece, rest := TrimSpace(s[..n]), HardPieces(s[n..], size);
      HardPiecesAreSound(s[n..], size);
      TrimProperties(s[..n]);
      BlankSqueezes(s[..n]);
      assert s == s[..n] + s[n..];
      SqueezeAppend(s[..n], s[n..]);
      assert HardPieces(s, size) == (if piece == [] then [] else [piece]) + rest;
      if piece != [] {
        SqueezeAppend(piece, Flatten(rest));
      } else {
        assert HardPieces(s, size) == rest;
      }
    }
  }

  /** At every level the parts join to the text. */
  lemma PartsJoin(text: string, level: nat)
    requires text != [] && level > 0
    ensures Flatten(Parts(text, level)) == text
  {
    if level <= 6 {
      SectionsAreRanges(text, level);
    } else if level == 7 {
      SplitAfterPieces(text, "\n\n");
    } else if level == 8 {
      SplitAfterPieces(text, "\n");
    } else {
      CutsJoin(text, 0, 0, level);
    }
  }

  lemma {:induction false} CutsJoin(text: string, start: nat, i: nat, level: nat)
    requires start <= i <= |text|
    ensures Flatten(Cuts(text, start, i, level)) == text[start..]
    decreases |text| - i
  {
    if i == |text| {
      assert Flatten([text[start..]]) == text[start..];
    } else if Boundary(text, i, level) {
      CutsJoin(text, i + 1, i + 1, level);
      assert text[start..] == text[start..i + 1] + text[i + 1..];
    } else {
      CutsJoin(text, start, i + 1, level);
    }
  }

  /** Where a sentence ends, at level 9: at a full-width mark, or at an ASCII mark before white
      space or the end of the text. At level 10 a word ends at any white space. */
  predicate Stops(text: string, i: nat, level: nat)
    requires i < |text|
  {
    if level != 9 then IsSpace(text[i])
    else
      || text[i] in ['\U{3002}', '\U{FF01}', '\U{FF1F}']
      || (text[i] in ['.', '!', '?'] && (i + 1 < |text| ==> IsSpace(text[i + 1])))
  }

  lemma BoundaryStops(text: string, i: nat, level: nat)
    requires i < |text|
    ensures Boundary(text, i, level) <==> Stops(text, i, level)
  {
  }

  /** From position `o` on, every part but the last ends with the only boundary it holds. */
  ghost predicate EndAtBoundaries(parts: seq<string>, text: string, o: nat, level: nat)
    requires o <= |text|
    decreases |parts|
  {
    && parts != [] && o + |parts[0]| <= |text| && parts[0] == text[o..o + |parts[0]|]
    && var e := o + |parts[0]|;
       if |parts| == 1 then e == |text| && forall j | o <= j < e :: !Stops(text, j, level)
       else && o < e && Stops(text, e - 1, level) && (forall j | o <= j < e - 1 :: !Stops(text, j, level))
            && EndAtBoundaries(parts[1..], text, e, level)
  }

  /** Sentences and words are cut exactly where they end: no part runs over a boundary. */
  lemma {:induction false} CutsAreExact(text: string, start: nat, i: nat, level: nat)
    requires start <= i <= |text| && forall j | start <= j < i :: !Stops(text, j, level)
    ensures EndAtBoundaries(Cuts(text, start, i, level), text, start, level)
    decreases |text| - i
  {
    hide Boundary, Stops;
    if i < |text| {
      BoundaryStops(text, i, level);
      if Boundary(text, i, level) {
        CutsAreExact(text, i + 1, i + 1, level);
      } else {
        CutsAreExact(text, start, i + 1, level);
      }
    }
  }

  /** Each level cuts where it should: paragraphs after every blank line, lines after every line
      end, sentences and words where they stop, and nowhere else. */
  lemma PartsByLevel(text: string, level: nat)
    requires level > 6
    ensures var parts := Parts(text, level);
            if level >= 9 then EndAtBoundaries(parts, text, 0, level)
            else
              forall k | 0 <= k < |parts| ::
                EndsAtFirst(parts[k], if level == 7 then "\n\n" else "\n", k == |parts| - 1)
  {
    hide EndAtBoundaries, SplitAfter;
    if level == 7 {
      SplitAfterPieces(text, "\n\n");
    } else if level == 8 {
      SplitAfterPieces(text, "\n");
    } else {
      CutsAreExact(text, 0, 0, level);
    }
  }

  // ---- units that fit stay whole ----

  /** A stretch the splitter means to keep together: a part that fits at the level that made
      it, reached only through parts that were too long for the levels above. */
  ghost predicate Unit(u: string, text: string, level: nat, size: nat)
    requires size > 0 && 0 < level <= 11
    decreases 11 - level
  {
    && level <= 10 && |text| > size
    && ((u in Parts(text, level) && !Blank(u) && |u| <= size)
        || exists p :: p in Parts(text, level) && |p| > size && Unit(u, TrimSpace(p), level + 1, size))
  }

  /** No section, paragraph, line, sentence or word that fits is ever cut: it stands whole,
      but for white space at its ends, inside one chunk. */
  lemma {:induction false} UnitsStayWhole(u: string, text: string, level: nat, size: nat)
    requires size > 0 && 0 < level <= 11 && Unit(u, text, level, size)
    ensures exists c :: c in Chunks(text, level, size) && Infix(TrimSpace(u), c)
    decreases 11 - level, 1, 0
  {
    hide Parts, Chunks, Packed, Blank, TrimSpace, Infix;
    var parts := Parts(text, level);
    ChunksOfLongText(text, level, size);
    if u in parts && !Blank(u) && |u| <= size {
      var k :| 0 <= k < |parts| && parts[k] == u;
      PackKeeps(parts, [], level, size, k);
    } else {
      var p :| p in parts && |p| > size && Unit(u, TrimSpace(p), level + 1, size);
      UnitsStayWhole(u, TrimSpace(p), level + 1, size);
      var k :| 0 <= k < |parts| && parts[k] == p;
      NotBlankIfUnit(u, TrimSpace(p), level + 1, size);
      PackIncludes(parts, [], level, size, k);
    }
  }

  lemma ChunksOfLongText(text: string, level: nat, size: nat)
    requires size > 0 && 0 < level <= 10 && |text| > size
    ensures Chunks(text, level, size) == Packed(Parts(text, level), [], level, size)
  {
  }

  lemma NotBlankIfUnit(u: string, text: string, level: nat, size: nat)
    requires size > 0 && 0 < level <= 11 && Unit(u, text, level, size)
    ensures text != []
  {
  }

  lemma {:induction false} PackIncludes(parts: seq<string>, buf: string, level: nat, size: nat, k: nat)
    requires size > 0 && 0 < level <= 10 && k < |parts|
    requires |parts[k]| > size && TrimSpace(parts[k]) != []
    ensures forall c | c in Chunks(TrimSpace(parts[k]), level + 1, size) :: c in Packed(parts, buf, level, size)
    decreases |parts|
  {
    if k > 0 {
      var p, rest := parts[0], parts[1..];
      assert rest[k - 1] == parts[k];
      if TrimSpace(p) == [] {
        PackIncludes(rest, buf, level, size, k - 1);
      } else if |p| > size {
        PackIncludes(rest, [], level, size, k - 1);
      } else if |buf| + |p| > size {
        PackIncludes(rest, p, level, size, k - 1);
      } else {
        PackIncludes(rest, buf + p, level, size, k - 1);
      }
    }
  }

  lemma {:induction false} PackKeeps(parts: seq<string>, buf: string, level: nat, size: nat, k: nat)
    requires size > 0 && 0 < level <= 10 && k < |parts|
    requires |parts[k]| <= size && !Blank(parts[k])
    ensures exists c :: c in Packed(parts, buf, level, size) && Infix(TrimSpace(parts[k]), c)
    decreases |parts|
  {
    hide Blank, TrimSpace;
    var p, rest := parts[0], parts[1..];
    TrimProperties(p);
    if k == 0 {
      if |buf| + |p| > size {
        BufferIsKept(rest, [], p, [], level, size);
        assert [] + p + [] == p;
      } else {
        BufferIsKept(rest, buf, p, [], level, size);
        assert buf + p + [] == buf + p;
      }
    } else {
      assert rest[k - 1] == parts[k];
      if TrimSpace(p) == [] {
        PackKeeps(rest, buf, level, size, k - 1);
      } else if |p| > size {
        PackKeeps(rest, [], level, size, k - 1);
      } else if |buf| + |p| > size {
        PackKeeps(rest, p, level, size, k - 1);
      } else {
        PackKeeps(rest, buf + p, level, size, k - 1);
      }
    }
  }

  /** What is in the buffer comes out in one chunk. */
  lemma {:induction false} BufferIsKept(parts: seq<string>, x: string, p: string, y: string, level: nat, size: nat)
    requires size > 0 && 0 < level <= 10 && !Blank(p)
    ensures exists c :: c in Packed(parts, x + p + y, level, size) && Infix(TrimSpace(p), c)
    decreases |parts|
  {
    hide Blank, TrimSpace;
    var buf := x + p + y;
    if parts != [] && TrimSpace(parts[0]) == [] {
      BufferIsKept(parts[1..], x, p, y, level, size);
    } else if parts != [] && |parts[0]| <= size && |buf| + |parts[0]| <= size {
      assert buf + parts[0] == x + p + (y + parts[0]);
      BufferIsKept(parts[1..], x, p, y + parts[0], level, size);
    } else {
      NotBlankNotEmpty(p);
      TrimKeepsMiddle(x, p, y);
      assert Flushed(buf)[0] == TrimSpace(buf) && Flushed(buf)[0] in Packed(parts, buf, level, size);
    }
  }

  lemma NotBlankNotEmpty(p: string)
    requires !Blank(p)
    ensures p != []
  {
  }

  // ---- the loops ----

  function From(s: string, i: nat): string {
    if i <= |s| then s[i..] else []
  }

  method HardSplit(s: string, size: nat) returns (out: seq<string>)
    requires size > 0
    ensures out == HardPieces(s, size)
  {
    hide HardPieces, From, TrimSpace;
    out := [];
    var i := 0;
    HardStart(s);
    while i < |s|
      invariant i >= 0 && out + HardPieces(From(s, i), size) == HardPieces(s, size)
    {
      var end := i + size;
      if end > |s| {
        end := |s|;
      }
      HardStep(s, i, size);
      var piece := TrimSpace(s[i..end]);
      if piece != [] {
        out := out + [piece];
      }
      i := i + size;
    }
    assert HardPieces(From(s, i), size) == [] by { HardEnd(s, i, size); }
  }

  lemma HardStart(s: string)
    ensures From(s, 0) == s
  {
  }

  lemma HardEnd(s: string, i: nat, size: nat)
    requires i >= |s| && size > 0
    ensures HardPieces(From(s, i), size) == []
  {
  }

  lemma HardStep(s: string, i: nat, size: nat)
    requires i < |s| && size > 0
    ensures var end := if i + size > |s| then |s| else i + size;
            var piece := TrimSpace(s[i..end]);
            HardPieces(From(s, i), size) == (if piece == [] then [] else [piece]) + HardPieces(From(s, i + size), size)
  {
    hide TrimSpace;
    var end := if i + size > |s| then |s| else i + size;
    assert s[i..][..end - i] == s[i..end] && s[i..][end - i..] == From(s, i + size);
  }

  method CutAtBoundaries(text: string, level: nat) returns (parts: seq<string>)
    ensures parts == Cuts(text, 0, 0, level)
  {
    parts := [];
    var start := 0;
    for i := 0 to |text|
      invariant 0 <= start <= i
      invariant parts + Cuts(text, start, i, level) == Cuts(text, 0, 0, level)
    {
      if Boundary(text, i, level) {
        parts := parts + [text[start..i + 1]];
        start := i + 1;
      }
    }
    parts := parts + [text[start..]];
  }

  method SplitLevel(text: string, level: nat, size: nat) returns (chunks: seq<string>)
    requires size > 0 && 0 < level <= 11
    ensures chunks == Chunks(text, level, size)
    decreases 11 - level, 2
  {
    if |text| <= size {
      return [text];
    }
    if level > 10 {
      chunks := HardSplit(text, size);
      return;
    }
    var parts := PartsOf(text, level);
    chunks := Pack(parts, level, size);
  }

  method PartsOf(text: string, level: nat) returns (parts: seq<string>)
    requires level > 0
    ensures parts == Parts(text, level)
  {
    if level <= 6 {
      parts := SplitSections(text, level);
    } else if level == 7 {
      parts := SplitAfter(text, "\n\n");
    } else if level == 8 {
      parts := SplitAfter(text, "\n");
    } else {
      parts := CutAtBoundaries(text, level);
    }
  }

  /** The packing loop: parts are gathered in the buffer while they fit, and a part that is
      too long by itself is split at the next level. */
  method Pack(parts: seq<string>, level: nat, size: nat) returns (chunks: seq<string>)
    requires size > 0 && 0 < level <= 10
    ensures chunks == Packed(parts, [], level, size)
    decreases 11 - level, 1
  {
    chunks := [];
    var buf := [];
    assert parts[0..] == parts;
    hide *;
    for k := 0 to |parts|
      invariant chunks + Packed(parts[k..], buf, level, size) == Packed(parts, [], level, size)
    {
      var out;
      assert parts[k..] == [parts[k]] + parts[k + 1..];
      out, buf := PackPart(parts[k], buf, level, size, parts[k + 1..]);
      Associate(chunks, out, Packed(parts[k + 1..], buf, level, size));
      chunks := chunks + out;
    }
    PackedEnd(parts, buf, level, size);
    chunks := chunks + Flushed(buf);
  }

  /** One part: the chunks it completes and the buffer it leaves. */
  method PackPart(p: string, buf: string, level: nat, size: nat, ghost rest: seq<string>)
    returns (out: seq<string>, newBuf: string)
    requires size > 0 && 0 < level <= 10
    ensures Packed([p] + rest, buf, level, size) == out + Packed(rest, newBuf, level, size)
    decreases 11 - level, 0
  {
    hide Chunks, Packed, Flushed, TrimSpace;
    out, newBuf := [], buf;
    PackedStep(p, rest, buf, level, size);
    if TrimSpace(p) != [] {
      if |p| > size {
        var inner := SplitLevel(TrimSpace(p), level + 1, size);
        out, newBuf := Flushed(buf) + inner, [];
      } else {
        if |buf| + |p| > size {
          out, newBuf := Flushed(buf), [];
        }
        newBuf := newBuf + p;
      }
    }
  }

  method SplitText(text: string, asked: int) returns (chunks: seq<string>)
    ensures chunks == Split(text, ChunkSize(asked))
    ensures GoodChunks(chunks, ChunkSize(asked)) && Squeeze(Flatten(chunks)) == Squeeze(text)
  {
    SplitIsSound(text, ChunkSize(asked));
    var clean := TrimSpace(UnixLines(text));
    if clean == [] {
      return [];
    }
    chunks := SplitLevel(clean, 1, ChunkSize(asked));
  }

  lemma PackedEnd(parts: seq<string>, buf: string, level: nat, size: nat)
    requires size > 0 && 0 < level <= 10
    ensures Packed(parts[|parts|..], buf, level, size) == Flushed(buf)
  {
  }

  lemma PackedStep(p: string, rest: seq<string>, buf: string, level: nat, size: nat)
    requires size > 0 && 0 < level <= 10
    ensures Packed([p] + rest, buf, level, size) ==
              if TrimSpace(p) == [] then [] + Packed(rest, buf, level, size)
              else if |p| > size then
                (Flushed(buf) + Chunks(TrimSpace(p), level + 1, size)) + Packed(rest, [], level, size)
              else if |buf| + |p| > size then Flushed(buf) + Packed(rest, [] + p, level, size)
              else [] + Packed(rest, buf + p, level, size)
  {
    hide Chunks, Flushed, TrimSpace;
    assert ([p] + rest)[1..] == rest && [] + p == p;
  }
}
