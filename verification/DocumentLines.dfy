/** What the chunker makes of a text, line by line (graph-rag/src/documents.js):
    its headings, its turns of speech and its paragraphs, and what they mean for
    chunks. */
module DocumentLines {
  import opened Wrappers
  import opened Text
  import opened Documents

  // ---- lines ----

  // A line of text: neither a heading nor blank.
  predicate IsText(lex: Lexer, line: string) { lex.heading(line).None? && !IsBlank(line) }

  // The line that ends where the one starting at `a` begins.
  predicate LineBefore(text: string, c: nat, a: nat) { a > 0 && IsLine(text, c, a - 1) }

  lemma NoBreakInside(text: string, a: nat, b: nat, k: nat)
    requires IsLine(text, a, b) && a <= k < b
    ensures text[k] != '\n'
  {
    assert text[a..b][k - a] == text[k];
  }

  lemma OneLineEndsHere(text: string, a: nat, c: nat, b: nat)
    requires IsLine(text, a, b) && IsLine(text, c, b)
    ensures a == c
  {
    if a < c { NoBreakInside(text, a, b, c - 1); }
    if c < a { NoBreakInside(text, c, b, a - 1); }
  }

  lemma OneLineStartsHere(text: string, a: nat, b: nat, e: nat)
    requires IsLine(text, a, b) && IsLine(text, a, e)
    ensures b == e
  {
    if b < e { NoBreakInside(text, a, e, b); }
    if e < b { NoBreakInside(text, a, b, e); }
  }

  // Two lines are one, or apart.
  lemma LinesApart(text: string, a: nat, b: nat, c: nat, d: nat)
    requires IsLine(text, a, b) && IsLine(text, c, d) && a < c
    ensures b < c
  {
    if c <= b { NoBreakInside(text, a, b, c - 1); }
  }

  // ---- what each line comes to ----

  predicate HasText(bs: seq<Block>, from: nat, upto: nat) {
    exists i :: 0 <= i < |bs| && !bs[i].isHeading && bs[i].start <= from && upto <= bs[i].end
  }

  predicate StartsText(bs: seq<Block>, at: nat) { exists i :: 0 <= i < |bs| && !bs[i].isHeading && bs[i].start == at }

  // No block reaches over this line.
  predicate Clear(bs: seq<Block>, a: nat, b: nat) { forall i :: 0 <= i < |bs| ==> bs[i].end <= a || bs[i].start >= b }

  /** A heading line is a block of its own; a blank line is in none, and none goes
      across it; any other line lies in one block of text, which it starts when a
      speaker's turn does, and which is that of the line before unless it does. */
  ghost predicate LineRight(lex: Lexer, text: string, bs: seq<Block>, a: nat, b: nat)
    requires a <= b <= |text|
  {
    var line := text[a..b];
    if lex.heading(line).Some? then Block(true, lex.heading(line).value, a, b, line) in bs
    else if IsBlank(line) then Clear(bs, a, b)
    else
      && HasText(bs, a, b) && (lex.speaker(line) ==> StartsText(bs, a))
      && (forall c: nat {:trigger LineBefore(text, c, a)} :: LineBefore(text, c, a) && IsText(lex, text[c..a - 1]) && !lex.speaker(line) ==> HasText(bs, c, b))
  }

  ghost predicate LinesRight(lex: Lexer, text: string, bs: seq<Block>, upto: nat) {
    forall a: nat, b: nat {:trigger IsLine(text, a, b)} :: IsLine(text, a, b) && b < upto ==> LineRight(lex, text, bs, a, b)
  }

  // Whether a block is under way is whether the line before is one of text.
  ghost predicate UnderWay(lex: Lexer, text: string, s: Scan, pos: nat) {
    && pos <= |text| + 1
    && (pos == 0 ==> s.cur.None?)
    && (forall c: nat {:trigger LineBefore(text, c, pos)} :: LineBefore(text, c, pos) ==> (s.cur.Some? <==> IsText(lex, text[c..pos - 1])))
    && (s.cur.Some? ==> s.cur.value.end + 1 == pos && s.cur.value.start < s.cur.value.end && text[s.cur.value.end - 1] != '\n')
  }

  // Blocks are whole lines, a heading just one.
  ghost predicate WholeLines(text: string, bs: seq<Block>) { forall i :: 0 <= i < |bs| ==> OfLines(text, bs[i]) }

  ghost predicate OfLines(text: string, b: Block) {
    && b.start <= b.end <= |text| && (b.start == 0 || text[b.start - 1] == '\n') && (b.end == |text| || text[b.end] == '\n')
    && (b.isHeading ==> IsLine(text, b.start, b.end))
  }

  ghost predicate LinesOk(lex: Lexer, text: string, s: Scan, pos: nat) {
    ScanOk(lex, text, s, pos) && UnderWay(lex, text, s, pos) && LinesRight(lex, text, All(s), pos) && WholeLines(text, All(s))
  }

  lemma HasTextStays(bs: seq<Block>, cs: seq<Block>, from: nat, upto: nat)
    requires HasText(bs, from, upto) && |bs| <= |cs|
    requires forall i :: 0 <= i < |bs| ==> cs[i].isHeading == bs[i].isHeading && cs[i].start == bs[i].start && bs[i].end <= cs[i].end
    ensures HasText(cs, from, upto)
  {
    var i :| 0 <= i < |bs| && !bs[i].isHeading && bs[i].start <= from && upto <= bs[i].end;
    assert !cs[i].isHeading && cs[i].start <= from && upto <= cs[i].end;
  }

  // One more block, past every line so far.
  lemma LineStaysRight(lex: Lexer, text: string, bs: seq<Block>, b: Block, a: nat, e: nat)
    requires a <= e <= |text| && e <= b.start && LineRight(lex, text, bs, a, e)
    ensures LineRight(lex, text, bs + [b], a, e)
  {
    var line, cs := text[a..e], bs + [b];
    if IsText(lex, line) {
      HasTextStays(bs, cs, a, e);
      if StartsText(bs, a) {
        var i :| 0 <= i < |bs| && !bs[i].isHeading && bs[i].start == a;
        assert cs[i].start == a && !cs[i].isHeading;
      }
      forall c: nat {:trigger LineBefore(text, c, a)} | LineBefore(text, c, a) && IsText(lex, text[c..a - 1]) && !lex.speaker(line) ensures HasText(cs, c, e) {
        HasTextStays(bs, cs, c, e);
      }
    }
  }

  // The last block, of text, grown by the line at the end.
  lemma LineStaysRightGrown(lex: Lexer, text: string, bs: seq<Block>, b: Block, a: nat, e: nat)
    requires bs != [] && b.start == bs[|bs| - 1].start && !b.isHeading && !bs[|bs| - 1].isHeading && bs[|bs| - 1].end < b.end
    requires a <= e <= |text| && LineRight(lex, text, bs, a, e) && e <= bs[|bs| - 1].end
    requires bs[|bs| - 1].start < bs[|bs| - 1].end <= |text| && text[bs[|bs| - 1].end - 1] != '\n' && IsLine(text, a, e)
    ensures LineRight(lex, text, bs[|bs| - 1 := b], a, e)
  {
    var n := |bs| - 1;
    var line, cs := text[a..e], bs[n := b];
    if lex.heading(line).Some? {
      var i :| 0 <= i < |bs| && bs[i] == Block(true, lex.heading(line).value, a, e, line);
      assert cs[i] == bs[i];
    } else if IsBlank(line) {
      forall i | 0 <= i < |cs| ensures cs[i].end <= a || cs[i].start >= e {}
    } else {
      HasTextStays(bs, cs, a, e);
      if StartsText(bs, a) {
        var i :| 0 <= i < |bs| && !bs[i].isHeading && bs[i].start == a;
        assert cs[i].start == a && !cs[i].isHeading;
      }
      forall c: nat {:trigger LineBefore(text, c, a)} | LineBefore(text, c, a) && IsText(lex, text[c..a - 1]) && !lex.speaker(line) ensures HasText(cs, c, e) {
        HasTextStays(bs, cs, c, e);
      }
    }
  }

  // ---- one line of the scan ----

  lemma FlushKeepsLines(lex: Lexer, text: string, s: Scan, pos: nat)
    requires LinesOk(lex, text, s, pos)
    ensures All(Flushed(s)) == All(s) && LinesRight(lex, text, All(Flushed(s)), pos) && ScanOk(lex, text, Flushed(s), pos)
  {
    FlushKeeps(lex, text, s, pos);
  }

  // The line at `pos` becomes a block of its own.
  lemma NewBlockKeeps(lex: Lexer, text: string, bs: seq<Block>, b: Block, e: nat)
    requires LinesRight(lex, text, bs, b.start) && IsLine(text, b.start, e) && LineRight(lex, text, bs + [b], b.start, e)
    ensures LinesRight(lex, text, bs + [b], e + 1)
  {
    forall x: nat, y: nat {:trigger IsLine(text, x, y)} | IsLine(text, x, y) && y < e + 1 ensures LineRight(lex, text, bs + [b], x, y) {
      if x == b.start {
        OneLineStartsHere(text, x, y, e);
      } else if x < b.start {
        LinesApart(text, x, y, b.start, e);
        LineStaysRight(lex, text, bs, b, x, y);
      } else {
        LinesApart(text, b.start, e, x, y);
      }
    }
  }

  lemma BlankKeeps(lex: Lexer, text: string, bs: seq<Block>, pos: nat, e: nat)
    requires LinesRight(lex, text, bs, pos) && IsLine(text, pos, e) && lex.heading(text[pos..e]).None? && IsBlank(text[pos..e])
    requires forall i :: 0 <= i < |bs| ==> bs[i].end <= pos
    ensures LinesRight(lex, text, bs, e + 1)
  {
    forall x: nat, y: nat {:trigger IsLine(text, x, y)} | IsLine(text, x, y) && y < e + 1 ensures LineRight(lex, text, bs, x, y) {
      if x == pos {
        OneLineStartsHere(text, x, y, e);
      } else if x < pos {
        LinesApart(text, x, y, pos, e);
      } else {
        LinesApart(text, pos, e, x, y);
      }
    }
  }

  lemma GrownKeeps(lex: Lexer, text: string, bs: seq<Block>, b: Block, pos: nat, e: nat)
    requires bs != [] && b.start == bs[|bs| - 1].start && !b.isHeading && !bs[|bs| - 1].isHeading && b.end == e
    requires IsLine(text, pos, e) && pos < e && bs[|bs| - 1].start < bs[|bs| - 1].end && bs[|bs| - 1].end + 1 == pos && text[pos - 2] != '\n'
    requires LinesRight(lex, text, bs, pos) && IsText(lex, text[pos..e]) && !lex.speaker(text[pos..e])
    requires forall c: nat {:trigger LineBefore(text, c, pos)} :: LineBefore(text, c, pos) ==> bs[|bs| - 1].start <= c
    ensures LinesRight(lex, text, bs[|bs| - 1 := b], e + 1)
  {
    var n := |bs| - 1;
    var cs := bs[n := b];
    forall x: nat, y: nat {:trigger IsLine(text, x, y)} | IsLine(text, x, y) && y < e + 1 ensures LineRight(lex, text, cs, x, y) {
      if x == pos {
        OneLineStartsHere(text, x, y, e);
        assert cs[n].start <= x && y <= cs[n].end;
        forall c: nat {:trigger LineBefore(text, c, x)} | LineBefore(text, c, x) ensures HasText(cs, c, y) { assert cs[n].start <= c && y <= cs[n].end; }
      } else if x < pos {
        LinesApart(text, x, y, pos, e);
        LineStaysRightGrown(lex, text, bs, b, x, y);
      } else {
        LinesApart(text, pos, e, x, y);
      }
    }
  }

  // The line before lies in the block under way.
  lemma LastLineIsIn(lex: Lexer, text: string, s: Scan, pos: nat, c: nat)
    requires LinesOk(lex, text, s, pos) && s.cur.Some? && LineBefore(text, c, pos)
    ensures s.cur.value.start <= c
  {
    assert LineRight(lex, text, All(s), c, pos - 1) && IsText(lex, text[c..pos - 1]);
    var i :| 0 <= i < |All(s)| && !All(s)[i].isHeading && All(s)[i].start <= c && pos - 1 <= All(s)[i].end;
    assert All(s)[|s.out|] == s.cur.value;
    assert InOrder(All(s));
  }

  // After a line, a block is under way exactly when it is one of text.
  lemma UnderWayNext(lex: Lexer, text: string, t: Scan, pos: nat, e: nat)
    requires IsLine(text, pos, e) && (t.cur.Some? <==> IsText(lex, text[pos..e]))
    requires t.cur.Some? ==> pos < e && t.cur.value.end == e && t.cur.value.start < e
    ensures UnderWay(lex, text, t, e + 1)
  {
    forall c: nat {:trigger LineBefore(text, c, e + 1)} | LineBefore(text, c, e + 1) ensures t.cur.Some? <==> IsText(lex, text[c..e]) {
      OneLineEndsHere(text, c, pos, e);
    }
    if t.cur.Some? { NoBreakInside(text, pos, e, e - 1); }
  }

  lemma OneMoreWhole(text: string, bs: seq<Block>, b: Block)
    requires WholeLines(text, bs) && OfLines(text, b)
    ensures WholeLines(text, bs + [b])
  {
  }

  lemma HeadingScan(lex: Lexer, s: Scan, line: string, pos: nat, e: nat)
    requires lex.heading(line).Some?
    ensures var b, t := Block(true, lex.heading(line).value, pos, e, line), NextLine(lex, s, line, pos, e);
      t == Scan(Flushed(s).out + [b], None) && All(t) == Flushed(s).out + [b] && All(Flushed(s)) == Flushed(s).out && b in All(t)
  {
    var out, b := Flushed(s).out, Block(true, lex.heading(line).value, pos, e, line);
    assert (out + [b])[|out|] == b;
  }

  lemma HeadingLineKeeps(lex: Lexer, text: string, s: Scan, pos: nat, e: nat)
    requires Sound(lex) && LinesOk(lex, text, s, pos) && IsLine(text, pos, e) && lex.heading(text[pos..e]).Some?
    ensures LinesOk(lex, text, NextLine(lex, s, text[pos..e], pos, e), e + 1)
  {
    var b := Block(true, lex.heading(text[pos..e]).value, pos, e, text[pos..e]);
    FlushKeepsLines(lex, text, s, pos);
    NextLineKeeps(lex, text, s, pos, e);
    HeadingScan(lex, s, text[pos..e], pos, e);
    OneMoreWhole(text, Flushed(s).out, b);
    NewBlockKeeps(lex, text, Flushed(s).out, b, e);
    UnderWayNext(lex, text, NextLine(lex, s, text[pos..e], pos, e), pos, e);
  }

  lemma BlankLineKeeps(lex: Lexer, text: string, s: Scan, pos: nat, e: nat)
    requires Sound(lex) && LinesOk(lex, text, s, pos) && IsLine(text, pos, e) && lex.heading(text[pos..e]).None? && IsBlank(text[pos..e])
    ensures LinesOk(lex, text, NextLine(lex, s, text[pos..e], pos, e), e + 1)
  {
    FlushKeepsLines(lex, text, s, pos);
    NextLineKeeps(lex, text, s, pos, e);
    BlankKeeps(lex, text, All(s), pos, e);
    UnderWayNext(lex, text, NextLine(lex, s, text[pos..e], pos, e), pos, e);
  }

  lemma StartScan(lex: Lexer, s: Scan, line: string, pos: nat, e: nat)
    requires IsText(lex, line) && (lex.speaker(line) || s.cur.None?)
    ensures var b, t := Block(false, "", pos, e, line), NextLine(lex, s, line, pos, e);
      && t.cur == Some(b) && All(t) == Flushed(s).out + [b] && All(Flushed(s)) == Flushed(s).out
      && HasText(All(t), pos, e) && StartsText(All(t), pos)
  {
    var out, b := Flushed(s).out, Block(false, "", pos, e, line);
    assert (out + [b])[|out|] == b;
  }

  lemma StartLineKeeps(lex: Lexer, text: string, s: Scan, pos: nat, e: nat)
    requires Sound(lex) && LinesOk(lex, text, s, pos) && IsLine(text, pos, e) && IsText(lex, text[pos..e])
    requires lex.speaker(text[pos..e]) || s.cur.None?
    ensures LinesOk(lex, text, NextLine(lex, s, text[pos..e], pos, e), e + 1)
  {
    var b, t := Block(false, "", pos, e, text[pos..e]), NextLine(lex, s, text[pos..e], pos, e);
    FlushKeepsLines(lex, text, s, pos);
    NextLineKeeps(lex, text, s, pos, e);
    StartScan(lex, s, text[pos..e], pos, e);
    OneMoreWhole(text, Flushed(s).out, b);
    NewBlockKeeps(lex, text, Flushed(s).out, b, e);
    UnderWayNext(lex, text, t, pos, e);
  }

  lemma JoinedScan(lex: Lexer, s: Scan, line: string, pos: nat, e: nat)
    requires IsText(lex, line) && !lex.speaker(line) && s.cur.Some?
    ensures var t := NextLine(lex, s, line, pos, e);
      && t.cur.Some? && t.cur.value == s.cur.value.(text := s.cur.value.text + "\n" + line, end := e)
      && All(t) == All(s)[|s.out| := t.cur.value] && All(s)[|s.out|] == s.cur.value && |All(s)| == |s.out| + 1
  {
  }

  lemma JoinLineKeeps(lex: Lexer, text: string, s: Scan, pos: nat, e: nat)
    requires Sound(lex) && LinesOk(lex, text, s, pos) && IsLine(text, pos, e) && IsText(lex, text[pos..e])
    requires !lex.speaker(text[pos..e]) && s.cur.Some?
    ensures LinesOk(lex, text, NextLine(lex, s, text[pos..e], pos, e), e + 1)
  {
    var t := NextLine(lex, s, text[pos..e], pos, e);
    NextLineKeeps(lex, text, s, pos, e);
    JoinedScan(lex, s, text[pos..e], pos, e);
    forall c: nat {:trigger LineBefore(text, c, pos)} | LineBefore(text, c, pos) ensures s.cur.value.start <= c { LastLineIsIn(lex, text, s, pos, c); }
    GrownKeeps(lex, text, All(s), t.cur.value, pos, e);
    UnderWayNext(lex, text, t, pos, e);
  }

  lemma NextLineRight(lex: Lexer, text: string, s: Scan, pos: nat, e: nat)
    requires Sound(lex) && LinesOk(lex, text, s, pos) && IsLine(text, pos, e)
    ensures LinesOk(lex, text, NextLine(lex, s, text[pos..e], pos, e), e + 1)
  {
    var line := text[pos..e];
    if lex.heading(line).Some? { HeadingLineKeeps(lex, text, s, pos, e); }
    else if IsBlank(line) { BlankLineKeeps(lex, text, s, pos, e); }
    else if lex.speaker(line) || s.cur.None? { StartLineKeeps(lex, text, s, pos, e); }
    else { JoinLineKeeps(lex, text, s, pos, e); }
  }

  lemma OneLineRight(lex: Lexer, text: string, s: Scan, pos: nat, end: nat, t: Scan)
    requires Sound(lex) && pos <= |text| && AtLine(text, pos) && LinesOk(lex, text, s, pos)
    requires end == LineEnd(text, pos) && t == NextLine(lex, s, text[pos..end], pos, end)
    ensures AtLine(text, end + 1) && LinesOk(lex, text, t, end + 1) && ScanFrom(lex, text, s, pos) == ScanFrom(lex, text, t, end + 1)
  {
    assert IsLine(text, pos, end);
    NextLineRight(lex, text, s, pos, end);
  }

  lemma {:induction false} ScanRight(lex: Lexer, text: string, s: Scan, pos: nat)
    requires Sound(lex) && pos <= |text| + 1 && AtLine(text, pos) && LinesOk(lex, text, s, pos)
    ensures var bs := ScanFrom(lex, text, s, pos);
      LinesRight(lex, text, bs, |text| + 1) && WholeLines(text, bs) && Tiles(text, bs, |text| + 1) && AllSensible(lex, bs)
    decreases |text| + 1 - pos
  {
    if pos > |text| {
      FlushKeepsLines(lex, text, s, pos);
      ScanEnds(lex, text, s);
      assert All(Flushed(s)) == Flushed(s).out;
    } else {
      var end := LineEnd(text, pos);
      var t := NextLine(lex, s, text[pos..end], pos, end);
      OneLineRight(lex, text, s, pos, end, t);
      ScanRight(lex, text, t, end + 1);
    }
  }

  lemma BlocksAre(lex: Lexer, text: string)
    requires Sound(lex)
    ensures var bs := BlocksOf(lex, text);
      LinesRight(lex, text, bs, |text| + 1) && WholeLines(text, bs) && Tiles(text, bs, |text| + 1) && AllSensible(lex, bs)
  {
    ScanStarts(lex, text);
    assert UnderWay(lex, text, Scan([], None), 0);
    ScanRight(lex, text, Scan([], None), 0);
  }

  /** Every line of a text comes to what it should, and its blocks are whole lines:
      exactly its heading lines, its turns of speech and its paragraphs. */
  lemma BlocksFollowTheLines(lex: Lexer, text: string, a: nat, b: nat)
    requires Sound(lex) && IsLine(text, a, b)
    ensures LineRight(lex, text, BlocksOf(lex, text), a, b)
    ensures WholeLines(text, BlocksOf(lex, text))
  {
    BlocksAre(lex, text);
  }

  // ---- headings and chunks ----

  ghost predicate IsHeadingLine(lex: Lexer, text: string, a: nat, b: nat) { IsLine(text, a, b) && lex.heading(text[a..b]).Some? }

  ghost predicate NoHeadingIn(lex: Lexer, text: string, from: nat, upto: nat) {
    forall a: nat, b: nat {:trigger IsHeadingLine(lex, text, a, b)} :: IsHeadingLine(lex, text, a, b) ==> !(from <= a < upto)
  }

  /** This is the heading a reader at `at` is under: the last one before, if any. */
  ghost predicate HeadingBefore(lex: Lexer, text: string, at: nat, h: string) {
    || (h == "" && NoHeadingIn(lex, text, 0, at))
    || (exists a: nat, b: nat {:trigger IsHeadingLine(lex, text, a, b)} ::
          IsHeadingLine(lex, text, a, b) && a < at && lex.heading(text[a..b]) == Some(h) && NoHeadingIn(lex, text, a + 1, at))
  }

  // Pieces as the divider leaves them.
  ghost predicate PiecesOf(lex: Lexer, text: string, ps: seq<Block>) {
    Sound(lex) && Divided(text, BlocksOf(lex, text), ps) && KeepsBlocks(BlocksOf(lex, text), ps)
  }

  lemma HeadingPiece(lex: Lexer, text: string, ps: seq<Block>, a: nat, b: nat) returns (k: nat)
    requires PiecesOf(lex, text, ps) && IsHeadingLine(lex, text, a, b)
    ensures k < |ps| && ps[k] == Block(true, lex.heading(text[a..b]).value, a, b, text[a..b])
  {
    BlocksAre(lex, text);
    assert LineRight(lex, text, BlocksOf(lex, text), a, b);
    var p := Block(true, lex.heading(text[a..b]).value, a, b, text[a..b]);
    assert p in ps;
    k :| 0 <= k < |ps| && ps[k] == p;
  }

  lemma PieceIsHeadingLine(lex: Lexer, text: string, ps: seq<Block>, k: nat)
    requires PiecesOf(lex, text, ps) && k < |ps| && ps[k].isHeading
    ensures IsHeadingLine(lex, text, ps[k].start, ps[k].end) && lex.heading(text[ps[k].start..ps[k].end]) == Some(ps[k].heading)
  {
    BlocksAre(lex, text);
    assert ps[k] in ps && PieceOf(BlocksOf(lex, text), ps[k]);
    var i :| 0 <= i < |BlocksOf(lex, text)| && BlocksOf(lex, text)[i] == ps[k];
    assert OfLines(text, BlocksOf(lex, text)[i]) && Sensible(lex, BlocksOf(lex, text)[i]);
  }

  // No heading line starts between the pieces' headings.
  lemma NoneBetween(lex: Lexer, text: string, ps: seq<Block>, n: nat, from: nat, at: nat)
    requires PiecesOf(lex, text, ps) && Splits(ps, n, at)
    requires forall k :: 0 <= k < n && ps[k].isHeading ==> ps[k].start < from
    ensures NoHeadingIn(lex, text, from, at)
  {
    forall a: nat, b: nat {:trigger IsHeadingLine(lex, text, a, b)} | IsHeadingLine(lex, text, a, b) ensures !(from <= a < at) {
      var k := HeadingPiece(lex, text, ps, a, b);
    }
  }

  // The first n pieces lie before `at`, the others after.
  ghost predicate Splits(ps: seq<Block>, n: nat, at: nat) {
    n <= |ps| && (forall i :: 0 <= i < n ==> ps[i].end <= at) && forall i :: n <= i < |ps| ==> at <= ps[i].start
  }

  lemma StaysBefore(lex: Lexer, text: string, before: nat, at: nat, h: string)
    requires before <= at && HeadingBefore(lex, text, before, h) && NoHeadingIn(lex, text, before, at)
    ensures HeadingBefore(lex, text, at, h)
  {
    if h == "" && NoHeadingIn(lex, text, 0, before) {
      assert NoHeadingIn(lex, text, 0, at);
    } else {
      var a: nat, b: nat {:trigger IsHeadingLine(lex, text, a, b)} :|
        IsHeadingLine(lex, text, a, b) && a < before && lex.heading(text[a..b]) == Some(h) && NoHeadingIn(lex, text, a + 1, before);
      assert NoHeadingIn(lex, text, a + 1, at);
    }
  }

  lemma {:induction false} InForceIs(lex: Lexer, text: string, ps: seq<Block>, n: nat, at: nat)
    requires PiecesOf(lex, text, ps) && Splits(ps, n, at)
    ensures HeadingBefore(lex, text, at, InForce(ps, n))
    decreases n
  {
    if n == 0 {
      NoneBetween(lex, text, ps, 0, 0, at);
    } else if ps[n - 1].isHeading {
      PieceIsHeadingLine(lex, text, ps, n - 1);
      NoneBetween(lex, text, ps, n, ps[n - 1].start + 1, at);
    } else {
      InForceIs(lex, text, ps, n - 1, ps[n - 1].start);
      NoneBetween(lex, text, ps, n, ps[n - 1].start, at);
      StaysBefore(lex, text, ps[n - 1].start, at, InForce(ps, n - 1));
    }
  }

  // Nothing is here but heading lines, line breaks and blank lines.
  ghost predicate OnlyHeadings(lex: Lexer, text: string, from: nat, upto: nat) {
    forall k: nat :: from <= k < upto ==> Skipped(text, k) || InHeading(lex, text, k)
  }

  ghost predicate InHeading(lex: Lexer, text: string, k: nat) {
    exists a: nat, b: nat {:trigger IsHeadingLine(lex, text, a, b)} :: IsHeadingLine(lex, text, a, b) && a <= k < b
  }

  /** A chunk is named by the heading in force where its text begins, past the
      headings it starts with; one without text, where it ends. */
  ghost predicate RightlyNamed(lex: Lexer, text: string, r: Run) { exists at: nat :: NamedAt(lex, text, r, at) }

  ghost predicate NamedAt(lex: Lexer, text: string, r: Run, at: nat) {
    && r.start <= at <= r.end && HeadingBefore(lex, text, at, r.heading) && OnlyHeadings(lex, text, r.start, at)
    && (r.body ==> at < r.end && !InHeading(lex, text, at)) && (!r.body ==> at == r.end)
  }

  lemma {:induction false} FirstTextIs(ps: seq<Block>, a: nat, c: nat)
    requires a <= c <= |ps|
    ensures var f := FirstText(ps, a, c);
      (forall i :: a <= i < f ==> ps[i].isHeading) && (f < c ==> !ps[f].isHeading)
    decreases c - a
  {
    if a < c && ps[a].isHeading { FirstTextIs(ps, a + 1, c); }
  }

  // What is in no piece is skipped.
  lemma OutsideIsSkipped(lex: Lexer, text: string, ps: seq<Block>, k: nat)
    requires PiecesOf(lex, text, ps) && k < |text| && !In(ps, k)
    ensures Skipped(text, k)
  {
    BlocksAre(lex, text);
    assert In(BlocksOf(lex, text), k) || Skipped(text, k);
  }

  lemma HeadingsOnly(lex: Lexer, text: string, ps: seq<Block>, a: nat, f: nat, from: nat, upto: nat)
    requires PiecesOf(lex, text, ps) && a <= f <= |ps| && upto <= |text| && forall i :: a <= i < f ==> ps[i].isHeading
    requires (forall i :: 0 <= i < a ==> ps[i].end <= from) && forall i :: f <= i < |ps| ==> upto <= ps[i].start
    ensures OnlyHeadings(lex, text, from, upto)
  {
    forall k: nat | from <= k < upto ensures Skipped(text, k) || InHeading(lex, text, k) {
      if In(ps, k) {
        var i :| 0 <= i < |ps| && ps[i].start <= k < ps[i].end;
        PieceIsHeadingLine(lex, text, ps, i);
      } else {
        OutsideIsSkipped(lex, text, ps, k);
      }
    }
  }

  lemma TextIsNoHeading(lex: Lexer, text: string, ps: seq<Block>, f: nat)
    requires PiecesOf(lex, text, ps) && f < |ps| && !ps[f].isHeading && ps[f].start < ps[f].end
    ensures !InHeading(lex, text, ps[f].start)
  {
    if InHeading(lex, text, ps[f].start) {
      var a: nat, b: nat {:trigger IsHeadingLine(lex, text, a, b)} :| IsHeadingLine(lex, text, a, b) && a <= ps[f].start < b;
      var k := HeadingPiece(lex, text, ps, a, b);
    }
  }

  lemma PiecesSplit(lex: Lexer, text: string, ps: seq<Block>, n: nat)
    requires PiecesOf(lex, text, ps) && n <= |ps|
    ensures n < |ps| ==> Splits(ps, n, ps[n].start)
    ensures n > 0 ==> Splits(ps, n, ps[n - 1].end) && ps[n - 1].end <= |text|
    ensures forall i :: 0 <= i < |ps| ==> ps[i].start < ps[i].end
  {
    forall i | 0 <= i < |ps| ensures ps[i].start < ps[i].end <= |text| { assert Slice(text, ps[i]); }
  }

  lemma TextRunIsNamed(lex: Lexer, text: string, ps: seq<Block>, a: nat, c: nat, r: Run, f: nat)
    requires PiecesOf(lex, text, ps) && RunOf(ps, a, c, r) && f == FirstText(ps, a, c) < c
    ensures NamedAt(lex, text, r, ps[f].start)
  {
    FirstTextIs(ps, a, c);
    PiecesSplit(lex, text, ps, f);
    PiecesSplit(lex, text, ps, a);
    PiecesSplit(lex, text, ps, c);
    InForceIs(lex, text, ps, f, ps[f].start);
    HeadingsOnly(lex, text, ps, a, f, r.start, ps[f].start);
    TextIsNoHeading(lex, text, ps, f);
  }

  lemma HeadingRunIsNamed(lex: Lexer, text: string, ps: seq<Block>, a: nat, c: nat, r: Run)
    requires PiecesOf(lex, text, ps) && RunOf(ps, a, c, r) && FirstText(ps, a, c) == c
    ensures NamedAt(lex, text, r, r.end)
  {
    FirstTextIs(ps, a, c);
    PiecesSplit(lex, text, ps, a);
    PiecesSplit(lex, text, ps, c);
    InForceIs(lex, text, ps, c, r.end);
    HeadingsOnly(lex, text, ps, a, c, r.start, r.end);
  }

  lemma RunIsRightlyNamed(lex: Lexer, text: string, ps: seq<Block>, a: nat, c: nat, r: Run)
    requires PiecesOf(lex, text, ps) && RunOf(ps, a, c, r)
    ensures RightlyNamed(lex, text, r)
  {
    var f := FirstText(ps, a, c);
    if f < c { TextRunIsNamed(lex, text, ps, a, c, r, f); } else { HeadingRunIsNamed(lex, text, ps, a, c, r); }
  }

  /** A heading line starts a chunk, unless all the text its chunk has before it
      is within the first MIN characters. */
  ghost predicate StartsOrIsEarly(text: string, r: Run, a: nat) {
    r.start == a || forall k: nat :: r.start + 400 <= k < a ==> Skipped(text, k)
  }

  lemma BetweenPieces(lex: Lexer, text: string, ps: seq<Block>, k: nat, from: nat)
    requires PiecesOf(lex, text, ps) && 0 < k < |ps| && ps[k - 1].end <= from
    ensures forall i: nat :: from <= i < ps[k].start ==> Skipped(text, i)
  {
    PiecesSplit(lex, text, ps, k);
    assert Slice(text, ps[k]);
    forall i: nat | from <= i < ps[k].start ensures Skipped(text, i) { OutsideIsSkipped(lex, text, ps, i); }
  }

  lemma HeadingStartsARun(lex: Lexer, text: string, ps: seq<Block>, a: nat, c: nat, r: Run, x: nat, y: nat)
    requires PiecesOf(lex, text, ps) && RunOf(ps, a, c, r) && Together(ps, a, c) && IsHeadingLine(lex, text, x, y) && r.start <= x < r.end
    ensures StartsOrIsEarly(text, r, x)
  {
    var k := HeadingPiece(lex, text, ps, x, y);
    PiecesSplit(lex, text, ps, a);
    PiecesSplit(lex, text, ps, c);
    if k != a {
      assert a < k < c && !Closes(ps, a, k);
      BetweenPieces(lex, text, ps, k, r.start + 400);
    }
  }
}
