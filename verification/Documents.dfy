/** Cutting a document into chunks (graph-rag/src/documents.js): a line scanner,
    a splitter for oversized blocks and a greedy merger, all on offsets. */
module Documents {
  import opened Wrappers
  import opened Text

  const TARGET: nat := 1800
  const MIN: nat := 400
  const MAX: nat := 3200

  // The two patterns a line is tried against. A heading's text is never blank.
  datatype Lexer = Lexer(heading: string -> Option<string>, speaker: string -> bool)

  ghost predicate Sound(lex: Lexer) { forall line :: lex.heading(line).Some? ==> !IsBlank(line) }

  datatype Block = Block(isHeading: bool, heading: string, start: nat, end: nat, text: string)

  function Size(b: Block): (n: int) { b.end - b.start }

  // ---- what a division of the text into blocks must be ----

  predicate IsLine(text: string, a: nat, b: nat) {
    && a <= b <= |text| && (a == 0 || text[a - 1] == '\n') && (b == |text| || text[b] == '\n') && '\n' !in text[a..b]
  }

  // A line break, or a character of a blank line.
  ghost predicate Skipped(text: string, k: nat) {
    k < |text| && (text[k] == '\n' || exists a: nat, b :: a <= k < b && IsLine(text, a, b) && IsBlank(text[a..b]))
  }

  predicate In(bs: seq<Block>, k: int) { exists i :: 0 <= i < |bs| && bs[i].start <= k < bs[i].end }

  predicate Slice(text: string, b: Block) { b.start < b.end <= |text| && b.text == text[b.start..b.end] }

  predicate InOrder(bs: seq<Block>) { forall i, j :: 0 <= i < j < |bs| ==> bs[i].end <= bs[j].start }

  /** These blocks are pieces of the text, in order and apart, that leave out
      nothing before `upto` but line breaks and blank lines. */
  ghost predicate Tiles(text: string, bs: seq<Block>, upto: nat) {
    && (forall i :: 0 <= i < |bs| ==> Slice(text, bs[i]) && bs[i].end <= upto)
    && InOrder(bs)
    && (forall k :: 0 <= k < upto && k < |text| ==> In(bs, k) || Skipped(text, k))
  }

  // ---- lines to blocks ----

  function LineEnd(text: string, pos: nat): (e: nat)
    requires pos <= |text|
    ensures pos <= e <= |text| && (e == |text| || text[e] == '\n') && forall k :: pos <= k < e ==> text[k] != '\n'
    decreases |text| - pos
  {
    if pos == |text| || text[pos] == '\n' then pos else LineEnd(text, pos + 1)
  }

  lemma InStays(bs: seq<Block>, cs: seq<Block>, k: int)
    requires In(bs, k) && |bs| <= |cs|
    requires forall i :: 0 <= i < |bs| ==> cs[i].start == bs[i].start && bs[i].end <= cs[i].end
    ensures In(cs, k)
  {
    var i :| 0 <= i < |bs| && bs[i].start <= k < bs[i].end;
    assert cs[i].start <= k < cs[i].end;
  }

  lemma SkipLine(text: string, bs: seq<Block>, pos: nat, e: nat)
    requires Tiles(text, bs, pos) && IsLine(text, pos, e) && IsBlank(text[pos..e])
    ensures Tiles(text, bs, e + 1)
  {
    forall k | pos <= k < e + 1 && k < |text| ensures Skipped(text, k) {}
  }

  lemma NewBlock(text: string, bs: seq<Block>, pos: nat, e: nat, b: Block)
    requires Tiles(text, bs, pos) && pos < e && IsLine(text, pos, e)
    requires Slice(text, b) && b.start == pos && b.end == e
    ensures Tiles(text, bs + [b], e + 1)
  {
    var cs := bs + [b];
    forall k | 0 <= k < e + 1 && k < |text| ensures In(cs, k) || Skipped(text, k) {
      if k < pos {
        if In(bs, k) { InStays(bs, cs, k); }
      } else if k < e {
        assert cs[|bs|].start <= k < cs[|bs|].end;
      }
    }
  }

  lemma GrowBlock(text: string, bs: seq<Block>, pos: nat, e: nat, b: Block)
    requires Tiles(text, bs, pos) && pos < e && IsLine(text, pos, e) && bs != []
    requires bs[|bs| - 1].end + 1 == pos
    requires Slice(text, b) && b.start == bs[|bs| - 1].start && b.end == e
    ensures Tiles(text, bs[|bs| - 1 := b], e + 1)
  {
    var n := |bs| - 1;
    var cs := bs[n := b];
    forall k | 0 <= k < e + 1 && k < |text| ensures In(cs, k) || Skipped(text, k) {
      if bs[n].start <= k < e {
        assert cs[n].start <= k < cs[n].end;
      } else if k < pos && In(bs, k) {
        InStays(bs, cs, k);
      }
    }
  }

  // The finished blocks and the one under way.
  datatype Scan = Scan(out: seq<Block>, cur: Option<Block>)

  function All(s: Scan): (bs: seq<Block>) { if s.cur.Some? then s.out + [s.cur.value] else s.out }

  function Flushed(s: Scan): (t: Scan) {
    if s.cur.Some? && !IsBlank(s.cur.value.text) then Scan(s.out + [s.cur.value], None) else s.(cur := None)
  }

  // One line, which takes the text from `start` to `end`.
  function NextLine(lex: Lexer, s: Scan, line: string, start: nat, end: nat): (t: Scan) {
    var h := lex.heading(line);
    if h.Some? then Scan(Flushed(s).out + [Block(true, h.value, start, end, line)], None)
    else if IsBlank(line) then Flushed(s)
    else
      var t := if lex.speaker(line) then Flushed(s) else s;
      t.(cur := Some(if t.cur.None? then Block(false, "", start, end, line)
                     else t.cur.value.(text := t.cur.value.text + "\n" + line, end := end)))
  }

  ghost predicate Sensible(lex: Lexer, b: Block) {
    !IsBlank(b.text) && (b.isHeading ==> lex.heading(b.text) == Some(b.heading))
  }

  ghost predicate AllSensible(lex: Lexer, bs: seq<Block>) { forall i :: 0 <= i < |bs| ==> Sensible(lex, bs[i]) }

  ghost predicate ScanOk(lex: Lexer, text: string, s: Scan, pos: nat) {
    && Tiles(text, All(s), pos) && AllSensible(lex, All(s))
    && (s.cur.Some? ==> s.cur.value.end + 1 == pos && !s.cur.value.isHeading)
  }

  lemma FlushKeeps(lex: Lexer, text: string, s: Scan, pos: nat)
    requires ScanOk(lex, text, s, pos)
    ensures All(Flushed(s)) == All(s) && ScanOk(lex, text, Flushed(s), pos)
  {
    if s.cur.Some? { assert All(s)[|s.out|] == s.cur.value; }
  }

  lemma StartBlock(lex: Lexer, text: string, s: Scan, b: Block)
    requires ScanOk(lex, text, s, b.start) && s.cur.None?
    requires Slice(text, b) && IsLine(text, b.start, b.end) && Sensible(lex, b)
    ensures Tiles(text, s.out + [b], b.end + 1) && AllSensible(lex, s.out + [b])
  {
    NewBlock(text, s.out, b.start, b.end, b);
  }

  lemma ExtendBlock(lex: Lexer, text: string, s: Scan, line: string, start: nat, end: nat)
    requires ScanOk(lex, text, s, start) && s.cur.Some?
    requires start < end && IsLine(text, start, end) && line == text[start..end]
    ensures ScanOk(lex, text, s.(cur := Some(s.cur.value.(text := s.cur.value.text + "\n" + line, end := end))), end + 1)
  {
    var was, b := s.cur.value, s.cur.value.(text := s.cur.value.text + "\n" + line, end := end);
    var t := s.(cur := Some(b));
    assert All(s)[|s.out|] == was && Slice(text, was) && Sensible(lex, was);
    assert b.text == text[was.start..end];
    assert forall c :: c in was.text ==> c in b.text;
    GrowBlock(text, All(s), start, end, b);
    assert All(s)[|s.out| := b] == All(t);
  }

  lemma NextLineKeeps(lex: Lexer, text: string, s: Scan, start: nat, end: nat)
    requires Sound(lex) && ScanOk(lex, text, s, start) && IsLine(text, start, end)
    ensures ScanOk(lex, text, NextLine(lex, s, text[start..end], start, end), end + 1)
  {
    var line := text[start..end];
    FlushKeeps(lex, text, s, start);
    if lex.heading(line).Some? {
      StartBlock(lex, text, Flushed(s), Block(true, lex.heading(line).value, start, end, line));
    } else if IsBlank(line) {
      SkipLine(text, All(s), start, end);
    } else if !lex.speaker(line) && s.cur.Some? {
      ExtendBlock(lex, text, s, line, start, end);
    } else {
      StartBlock(lex, text, Flushed(s), Block(false, "", start, end, line));
    }
  }

  // A line starts here, or the text has ended.
  predicate AtLine(text: string, pos: nat) { pos <= |text| + 1 && (0 < pos <= |text| ==> text[pos - 1] == '\n') }

  // The blocks of the text, line after line.
  function ScanFrom(lex: Lexer, text: string, s: Scan, pos: nat): (bs: seq<Block>)
    requires pos <= |text| + 1
    decreases |text| + 1 - pos
  {
    if pos > |text| then Flushed(s).out
    else
      var end := LineEnd(text, pos);
      ScanFrom(lex, text, NextLine(lex, s, text[pos..end], pos, end), end + 1)
  }

  function BlocksOf(lex: Lexer, text: string): (bs: seq<Block>) { ScanFrom(lex, text, Scan([], None), 0) }

  // The lines before this one are scanned, and the others lead to all the blocks.
  ghost predicate Scanned(lex: Lexer, text: string, s: Scan, pos: nat) {
    AtLine(text, pos) && ScanOk(lex, text, s, pos) && ScanFrom(lex, text, s, pos) == BlocksOf(lex, text)
  }

  lemma ScanStep(lex: Lexer, text: string, s: Scan, pos: nat, end: nat, t: Scan)
    requires Sound(lex) && pos <= |text| && Scanned(lex, text, s, pos) && end == LineEnd(text, pos)
    requires t == NextLine(lex, s, text[pos..end], pos, end)
    ensures Scanned(lex, text, t, end + 1)
  {
    NextLineKeeps(lex, text, s, pos, end);
  }

  lemma ScanStarts(lex: Lexer, text: string)
    ensures Scanned(lex, text, Scan([], None), 0)
  {
  }

  lemma ScanEnds(lex: Lexer, text: string, s: Scan)
    requires ScanOk(lex, text, s, |text| + 1)
    ensures ScanFrom(lex, text, s, |text| + 1) == Flushed(s).out
    ensures Tiles(text, Flushed(s).out, |text| + 1) && AllSensible(lex, Flushed(s).out)
  {
    FlushKeeps(lex, text, s, |text| + 1);
  }

  /** Headings, turns of speech and paragraphs, with where they stand. */
  method Blocks(lex: Lexer, text: string) returns (out: seq<Block>)
    requires Sound(lex)
    ensures out == BlocksOf(lex, text)
    ensures Tiles(text, out, |text| + 1) && AllSensible(lex, out)
  {
    var pos, scan := 0, Scan([], None);
    ScanStarts(lex, text);
    while pos <= |text|
      invariant pos <= |text| + 1 && Scanned(lex, text, scan, pos)
      decreases |text| + 1 - pos
    {
      var start, end := pos, LineEnd(text, pos);
      pos := end + 1;
      var next := NextLine(lex, scan, text[start..end], start, end);
      ScanStep(lex, text, scan, start, end, next);
      scan := next;
    }
    ScanEnds(lex, text, scan);
    out := Flushed(scan).out;
  }

  // ---- oversized blocks ----

  // After a full stop that a space follows, or at a line break.
  predicate BreakAt(w: string, c: int) {
    0 <= c < |w| && (w[c] == '\n' || (c + 1 < |w| && w[c] == '.' && w[c + 1] == ' '))
  }

  function LastBreak(w: string, upto: nat): (c: int)
    requires upto <= |w|
    ensures -1 <= c < upto && (c >= 0 ==> BreakAt(w, c)) && forall k :: c < k < upto ==> !BreakAt(w, k)
  {
    if upto == 0 then -1 else if BreakAt(w, upto - 1) then upto - 1 else LastBreak(w, upto - 1)
  }

  function JoinedText(parts: seq<Block>): (s: string) {
    if parts == [] then "" else JoinedText(parts[..|parts| - 1]) + parts[|parts| - 1].text
  }

  // These parts follow one another without a gap.
  predicate Chain(parts: seq<Block>, from: nat, upto: nat) {
    if parts == [] then from == upto
    else
      var last := parts[|parts| - 1];
      last.end == upto && Chain(parts[..|parts| - 1], from, last.start)
  }

  // A piece of the block's text, not empty and not longer than MAX.
  predicate PartOf(p: Block, b: Block) {
    && !p.isHeading && b.start <= p.start < p.end <= b.end && Size(p) <= MAX
    && p.end - b.start <= |b.text| && p.text == b.text[p.start - b.start..p.end - b.start]
  }

  // A sentence or a line ends with the character at k, and the rest can start after it.
  predicate EndsAt(w: string, k: nat)
    requires k < |w|
  {
    w[k..k + 1] == "\n" || (k + 2 <= |w| && w[k..k + 2] == ". ")
  }

  /** How much to cut off a block whose next 3200 characters are these: all up to
      the last end of a sentence or line in them, if that is over 401, or else all. */
  ghost predicate RightLength(w: string, len: nat)
    requires |w| == 3200
  {
    && 401 < len <= 3200 && (forall k :: len <= k < 3200 ==> !EndsAt(w, k))
    && (EndsAt(w, len - 1) || (len == 3200 && forall k :: 400 < k < 3200 ==> !EndsAt(w, k)))
  }

  /** A part of a block is cut off while more than 3200 characters are left. */
  ghost predicate CutRight(p: Block, b: Block) {
    p.end < b.end ==>
      && b.end - p.start > 3200 && b.start <= p.start <= p.end && |b.text| == b.end - b.start
      && RightLength(b.text[p.start - b.start..p.start - b.start + 3200], p.end - p.start)
  }

  // The part of b from `from` to `upto`.
  function Part(b: Block, from: nat, upto: nat): (p: Block)
    requires b.start <= from <= upto <= b.start + |b.text|
  {
    b.(start := from, end := upto, text := b.text[from - b.start..upto - b.start])
  }

  ghost predicate RightPart(p: Block, b: Block) { PartOf(p, b) && CutRight(p, b) }

  ghost predicate AllParts(parts: seq<Block>, b: Block) { forall i :: 0 <= i < |parts| ==> RightPart(parts[i], b) }

  // These parts make up the block as far as `upto`.
  ghost predicate Cut(parts: seq<Block>, b: Block, upto: nat) {
    && b.start <= upto <= b.start + |b.text| && Chain(parts, b.start, upto)
    && AllParts(parts, b) && JoinedText(parts) == b.text[..upto - b.start]
  }

  lemma ChainStep(parts: seq<Block>, p: Block, from: nat)
    requires Chain(parts, from, p.start)
    ensures Chain(parts + [p], from, p.end)
  {
    assert (parts + [p])[..|parts|] == parts;
  }

  lemma PartsStep(parts: seq<Block>, p: Block, b: Block)
    requires AllParts(parts, b) && RightPart(p, b)
    ensures AllParts(parts + [p], b)
  {
  }

  lemma AddPart(parts: seq<Block>, b: Block, s: nat, upto: nat)
    requires Cut(parts, b, s) && !b.isHeading && |b.text| == b.end - b.start
    requires s < upto <= b.end && upto - s <= MAX && CutRight(Part(b, s, upto), b)
    ensures Cut(parts + [Part(b, s, upto)], b, upto)
  {
    var p := Part(b, s, upto);
    ChainStep(parts, p, b.start);
    PartsStep(parts, p, b);
    JoinedTextStep(parts, p, b.text, s - b.start, upto - b.start);
  }

  // How much of the block to cut off next.
  function CutLength(window: string): (len: nat)
    requires |window| == MAX
    ensures MIN < len <= MAX
  {
    var cut := LastBreak(window, |window|);
    if cut > MIN then cut + 1 else MAX
  }

  lemma BreaksAreEnds(w: string, k: nat)
    requires k < |w|
    ensures BreakAt(w, k) <==> EndsAt(w, k)
  {
    assert w[k..k + 1] == [w[k]];
    if k + 2 <= |w| { assert w[k..k + 2] == [w[k], w[k + 1]]; }
  }

  lemma CutsRight(w: string)
    requires |w| == MAX
    ensures RightLength(w, CutLength(w))
  {
    forall k: nat | k < |w| ensures BreakAt(w, k) <==> EndsAt(w, k) { BreaksAreEnds(w, k); }
  }

  /** The parts follow one another from end to end of the block, none empty or
      longer than MAX, their texts together the block's. */
  method SplitLong(b: Block) returns (parts: seq<Block>)
    requires !b.isHeading && b.start < b.end && |b.text| == b.end - b.start
    ensures Chain(parts, b.start, b.end) && AllParts(parts, b) && JoinedText(parts) == b.text
    ensures parts != []
  {
    parts := [];
    var s := b.start;
    while b.end - s > MAX
      invariant b.start <= s < b.end && Cut(parts, b, s)
      decreases b.end - s
    {
      var upto := s + CutLength(b.text[s - b.start..s - b.start + MAX]);
      CutsRight(b.text[s - b.start..s - b.start + MAX]);
      AddPart(parts, b, s, upto);
      parts := parts + [Part(b, s, upto)];
      s := upto;
    }
    AddPart(parts, b, s, b.end);
    parts := parts + [Part(b, s, b.end)];
    assert b.text[..|b.text|] == b.text;
  }

  lemma JoinedTextStep(parts: seq<Block>, p: Block, text: string, a: nat, c: nat)
    requires a <= c <= |text| && JoinedText(parts) == text[..a] && p.text == text[a..c]
    ensures JoinedText(parts + [p]) == text[..c]
  {
    assert (parts + [p])[..|parts|] == parts;
  }

  // Pieces of the text, in order and apart.
  ghost predicate Laid(text: string, ps: seq<Block>, upto: nat) {
    (forall i :: 0 <= i < |ps| ==> Slice(text, ps[i]) && ps[i].end <= upto) && InOrder(ps)
  }

  function EndOf(ps: seq<Block>): (e: nat) { if ps == [] then 0 else ps[|ps| - 1].end }

  function Max(a: int, b: int): (m: int) { if a > b then a else b }

  // The widest gap between a block and the next.
  function MaxGap(ps: seq<Block>): (g: nat) {
    if |ps| < 2 then 0 else Max(MaxGap(ps[..|ps| - 1]), ps[|ps| - 1].start - ps[|ps| - 2].end)
  }

  // What putting `parts` after `ps` makes of it.
  ghost predicate Extended(text: string, ps: seq<Block>, qs: seq<Block>, from: nat, upto: nat) {
    && Laid(text, qs, upto) && (forall k :: In(ps, k) || from <= k < upto ==> In(qs, k))
    && MaxGap(qs) <= Max(MaxGap(ps), if ps == [] then 0 else from - EndOf(ps))
  }

  lemma AddPiece(text: string, ps: seq<Block>, p: Block)
    requires Laid(text, ps, p.start) && Slice(text, p)
    ensures Extended(text, ps, ps + [p], p.start, p.end)
  {
    assert (ps + [p])[..|ps|] == ps;
    InAppended(ps, p);
  }

  lemma InAppended(ps: seq<Block>, p: Block)
    ensures forall k :: In(ps, k) || p.start <= k < p.end ==> In(ps + [p], k)
  {
    var qs := ps + [p];
    forall k | In(ps, k) || p.start <= k < p.end ensures In(qs, k) {
      if In(ps, k) { InStays(ps, qs, k); } else { assert qs[|ps|].start <= k < qs[|ps|].end; }
    }
  }

  lemma ThenExtended(text: string, ps: seq<Block>, qs: seq<Block>, p: Block, from: nat)
    requires from <= p.start && Extended(text, ps, qs, from, p.start) && (qs != [] ==> EndOf(qs) == p.start || qs == ps)
    requires Slice(text, p) && (qs == ps ==> from == p.start)
    ensures Extended(text, ps, qs + [p], from, p.end)
  {
    AddPiece(text, qs, p);
  }

  lemma {:induction false} AddChain(text: string, ps: seq<Block>, parts: seq<Block>, from: nat, upto: nat)
    requires Laid(text, ps, from) && Chain(parts, from, upto)
    requires forall i :: 0 <= i < |parts| ==> Slice(text, parts[i])
    ensures from <= upto && Extended(text, ps, ps + parts, from, upto) && (parts != [] ==> EndOf(ps + parts) == upto)
  {
    if parts == [] {
      assert ps + parts == ps;
    } else {
      var most, last := parts[..|parts| - 1], parts[|parts| - 1];
      AddChain(text, ps, most, from, last.start);
      ThenExtended(text, ps, ps + most, last, from);
      assert ps + most + [last] == ps + parts;
    }
  }

  lemma SliceOfSlice(text: string, a: nat, b: nat, c: nat, d: nat)
    requires a <= b <= |text| && c <= d <= b - a
    ensures text[a..b][c..d] == text[a + c..a + d]
  {
    var s := text[a..b];
    forall i | 0 <= i < d - c ensures s[c..d][i] == text[a + c..a + d][i] {
      assert s[c..d][i] == s[c + i] == text[a + (c + i)];
    }
  }

  lemma PartIsSlice(text: string, p: Block, b: Block)
    requires Slice(text, b) && PartOf(p, b)
    ensures Slice(text, p)
  {
    SliceOfSlice(text, b.start, b.end, p.start - b.start, p.end - b.start);
  }

  predicate TooLong(b: Block) { !b.isHeading && Size(b) > MAX }

  // No longer than MAX, unless it is a heading that was.
  ghost predicate Fits(p: Block, b: Block) { Size(p) <= MAX || (p == b && b.isHeading) }

  ghost predicate FitsOne(p: Block, bs: seq<Block>) { exists j :: 0 <= j < |bs| && Fits(p, bs[j]) }

  ghost predicate AllFit(ps: seq<Block>, bs: seq<Block>) { forall i :: 0 <= i < |ps| ==> FitsOne(ps[i], bs) }

  ghost predicate Covers(bs: seq<Block>, ps: seq<Block>) { forall k :: In(bs, k) ==> In(ps, k) }

  // The pieces of these blocks.
  ghost predicate Divided(text: string, bs: seq<Block>, ps: seq<Block>) {
    && Laid(text, ps, EndOf(bs)) && EndOf(ps) == EndOf(bs) && MaxGap(ps) <= MaxGap(bs)
    && Covers(bs, ps) && (ps == [] <==> bs == [])
  }

  lemma MaxGapStep(bs: seq<Block>, b: Block)
    ensures MaxGap(bs + [b]) == if bs == [] then 0 else Max(MaxGap(bs), b.start - EndOf(bs))
  {
    assert (bs + [b])[..|bs|] == bs;
  }

  lemma LaidBefore(text: string, ps: seq<Block>, a: nat, c: nat)
    requires Laid(text, ps, a) && a <= c
    ensures Laid(text, ps, c)
  {
  }

  lemma GapNext(text: string, bs: seq<Block>, b: Block, ps: seq<Block>, qs: seq<Block>)
    requires MaxGap(ps) <= MaxGap(bs) && EndOf(ps) == EndOf(bs) <= b.start && (ps == [] <==> bs == [])
    requires Extended(text, ps, qs, b.start, b.end)
    ensures MaxGap(qs) <= MaxGap(bs + [b])
  {
    MaxGapStep(bs, b);
  }

  lemma DivideNext(text: string, bs: seq<Block>, b: Block, ps: seq<Block>, parts: seq<Block>)
    requires Divided(text, bs, ps) && EndOf(bs) <= b.start
    requires Chain(parts, b.start, b.end) && parts != []
    requires forall i :: 0 <= i < |parts| ==> Slice(text, parts[i])
    ensures Divided(text, bs + [b], ps + parts)
  {
    LaidBefore(text, ps, EndOf(bs), b.start);
    AddChain(text, ps, parts, b.start, b.end);
    var cs, qs := bs + [b], ps + parts;
    GapNext(text, bs, b, ps, qs);
    CoverNext(text, bs, b, ps, qs);
    assert EndOf(cs) == b.end && Laid(text, qs, b.end);
  }

  lemma CoverNext(text: string, bs: seq<Block>, b: Block, ps: seq<Block>, qs: seq<Block>)
    requires Covers(bs, ps) && Extended(text, ps, qs, b.start, b.end)
    ensures Covers(bs + [b], qs)
  {
    forall k | In(bs + [b], k) ensures In(qs, k) {}
  }

  lemma FitNext(bs: seq<Block>, b: Block, ps: seq<Block>, parts: seq<Block>)
    requires AllFit(ps, bs) && forall i :: 0 <= i < |parts| ==> Fits(parts[i], b)
    ensures AllFit(ps + parts, bs + [b])
  {
    var cs := bs + [b];
    forall i | 0 <= i < |ps + parts| ensures FitsOne((ps + parts)[i], cs) {
      if i < |ps| {
        assert FitsOne(ps[i], bs);
        var j :| 0 <= j < |bs| && Fits(ps[i], bs[j]);
        assert cs[j] == bs[j];
      } else {
        assert Fits(parts[i - |ps|], cs[|bs|]);
      }
    }
  }

  predicate NoneTooLong(bs: seq<Block>) { forall i :: 0 <= i < |bs| ==> !TooLong(bs[i]) }

  // A piece is a block, or a part of one of text that is too long.
  ghost predicate PieceOf(bs: seq<Block>, p: Block) {
    p in bs || exists i :: 0 <= i < |bs| && TooLong(bs[i]) && RightPart(p, bs[i])
  }

  // Every other block is kept as it is.
  ghost predicate KeepsBlocks(bs: seq<Block>, ps: seq<Block>) {
    && (forall p :: p in ps ==> PieceOf(bs, p))
    && (forall b :: b in bs && !TooLong(b) ==> b in ps)
  }

  lemma PieceOfMore(bs: seq<Block>, b: Block, p: Block)
    requires PieceOf(bs, p) || p == b || (RightPart(p, b) && TooLong(b))
    ensures PieceOf(bs + [b], p)
  {
    var cs := bs + [b];
    assert cs[|bs|] == b;
    if PieceOf(bs, p) && p !in bs {
      var i :| 0 <= i < |bs| && TooLong(bs[i]) && RightPart(p, bs[i]);
      assert cs[i] == bs[i];
    }
  }

  lemma BlocksKeptNext(bs: seq<Block>, b: Block, ps: seq<Block>, parts: seq<Block>)
    requires KeepsBlocks(bs, ps) && (if TooLong(b) then AllParts(parts, b) else parts == [b])
    ensures KeepsBlocks(bs + [b], ps + parts)
  {
    forall p | p in ps + parts ensures PieceOf(bs + [b], p) { PieceOfMore(bs, b, p); }
  }

  ghost predicate Pieces(text: string, bs: seq<Block>, ps: seq<Block>) {
    Divided(text, bs, ps) && AllFit(ps, bs) && KeepsBlocks(bs, ps) && (NoneTooLong(bs) ==> ps == bs)
  }

  // What one block becomes: itself, or its parts.
  ghost predicate PartsAre(text: string, b: Block, parts: seq<Block>) {
    && Chain(parts, b.start, b.end) && parts != []
    && (forall i :: 0 <= i < |parts| ==> Slice(text, parts[i]) && Fits(parts[i], b))
    && (if TooLong(b) then AllParts(parts, b) else parts == [b])
  }

  method PartsOf(text: string, b: Block) returns (parts: seq<Block>)
    requires Slice(text, b)
    ensures PartsAre(text, b, parts)
  {
    if !TooLong(b) {
      parts := [] + [b];
      ChainStep([], b, b.start);
    } else {
      parts := SplitLong(b);
      forall i | 0 <= i < |parts| ensures Slice(text, parts[i]) { PartIsSlice(text, parts[i], b); }
    }
  }

  lemma PiecesNext(text: string, bs: seq<Block>, b: Block, ps: seq<Block>, parts: seq<Block>)
    requires Pieces(text, bs, ps) && EndOf(bs) <= b.start && PartsAre(text, b, parts)
    ensures Pieces(text, bs + [b], ps + parts)
  {
    DivideNext(text, bs, b, ps, parts);
    FitNext(bs, b, ps, parts);
    BlocksKeptNext(bs, b, ps, parts);
    if NoneTooLong(bs + [b]) {
      assert (bs + [b])[|bs|] == b && forall i :: 0 <= i < |bs| ==> (bs + [b])[i] == bs[i];
    }
  }

  method Divide(text: string, bs: seq<Block>) returns (ps: seq<Block>)
    requires forall i :: 0 <= i < |bs| ==> Slice(text, bs[i])
    requires InOrder(bs)
    ensures Pieces(text, bs, ps)
  {
    ps := [];
    for i := 0 to |bs|
      invariant Pieces(text, bs[..i], ps)
    {
      var parts := PartsOf(text, bs[i]);
      assert bs[..i + 1] == bs[..i] + [bs[i]];
      PiecesNext(text, bs[..i], bs[i], ps, parts);
      ps := ps + parts;
    }
    assert bs[..|bs|] == bs;
  }

  // ---- pieces to chunks ----

  datatype Run = Run(heading: string, start: nat, end: nat, body: bool)

  // The heading in force after the first n pieces.
  function InForce(ps: seq<Block>, n: nat): (h: string)
    requires n <= |ps|
  {
    if n == 0 then "" else if ps[n - 1].isHeading then ps[n - 1].heading else InForce(ps, n - 1)
  }

  // The first piece from a on that is not a heading, or c when there is none.
  function FirstText(ps: seq<Block>, a: nat, c: nat): (f: nat)
    requires a <= c <= |ps|
    ensures a <= f <= c
    decreases c - a
  {
    if a == c || !ps[a].isHeading then a else FirstText(ps, a + 1, c)
  }

  /** A run of pieces from the first one's start to the last one's end, named by
      the heading its text comes under. */
  predicate RunOf(ps: seq<Block>, a: nat, c: nat, r: Run) {
    && a < c <= |ps| && r.start == ps[a].start && r.end == ps[c - 1].end
    && r.body == (FirstText(ps, a, c) < c) && r.heading == InForce(ps, FirstText(ps, a, c))
  }

  // Piece c starts another run than the one that goes from a up to it.
  predicate Closes(ps: seq<Block>, a: nat, c: nat)
    requires a < c < |ps|
  {
    ps[c - 1].end - ps[a].start >= MIN && (ps[c].isHeading || ps[c].end - ps[a].start > TARGET)
  }

  // Pieces a up to c stay together.
  predicate Together(ps: seq<Block>, a: nat, c: nat)
    requires c <= |ps|
  {
    forall m :: a < m < c ==> !Closes(ps, a, m)
  }

  predicate Cuts(cuts: seq<nat>, n: nat) {
    && cuts != [] && cuts[0] == 0 && (forall i, j :: 0 <= i < j < |cuts| ==> cuts[i] < cuts[j])
    && forall i :: 0 <= i < |cuts| ==> cuts[i] <= n
  }

  /** The runs between the cuts: each goes on as long as it may, and stops only
      where the next piece closes it. */
  predicate Merged(ps: seq<Block>, cuts: seq<nat>, runs: seq<Run>) {
    && |cuts| == |runs| + 1 && Cuts(cuts, |ps|)
    && forall i :: 0 <= i < |runs| ==>
      RunOf(ps, cuts[i], cuts[i + 1], runs[i]) && Together(ps, cuts[i], cuts[i + 1]) && (cuts[i + 1] < |ps| ==> Closes(ps, cuts[i], cuts[i + 1]))
  }

  lemma {:induction false} FirstTextStep(ps: seq<Block>, a: nat, c: nat)
    requires a <= c < |ps|
    ensures var f := FirstText(ps, a, c);
      FirstText(ps, a, c + 1) == if f < c then f else if ps[c].isHeading then c + 1 else c
    decreases c - a
  {
    if a < c && ps[a].isHeading { FirstTextStep(ps, a + 1, c); }
  }

  lemma RunGrows(ps: seq<Block>, a: nat, c: nat, r: Run)
    requires RunOf(ps, a, c, r) && c < |ps|
    ensures RunOf(ps, a, c + 1, Run(if ps[c].isHeading && !r.body then ps[c].heading else r.heading, r.start, ps[c].end, r.body || !ps[c].isHeading))
  {
    FirstTextStep(ps, a, c);
  }

  // The run under way covers the pieces from the last cut up to j.
  predicate UnderWay(ps: seq<Block>, cuts: seq<nat>, runs: seq<Run>, cur: Option<Run>, j: nat) {
    && j <= |ps| && Merged(ps, cuts, runs)
    && (cur.Some? <==> j > 0) && (cur.None? ==> |cuts| == 1)
    && (cur.Some? ==> RunOf(ps, cuts[|cuts| - 1], j, cur.value) && Together(ps, cuts[|cuts| - 1], j))
  }

  lemma CloseKeeps(ps: seq<Block>, cuts: seq<nat>, runs: seq<Run>, cur: Run, j: nat)
    requires UnderWay(ps, cuts, runs, Some(cur), j)
    requires j < |ps| ==> Closes(ps, cuts[|cuts| - 1], j)
    ensures Merged(ps, cuts + [j], runs + [cur])
  {
    var cs, rs := cuts + [j], runs + [cur];
    forall i | 0 <= i < |rs|
      ensures RunOf(ps, cs[i], cs[i + 1], rs[i]) && Together(ps, cs[i], cs[i + 1]) && (cs[i + 1] < |ps| ==> Closes(ps, cs[i], cs[i + 1]))
    {
      if i < |runs| { assert cs[i] == cuts[i] && cs[i + 1] == cuts[i + 1]; }
    }
  }

  // The runs that all the pieces fall into.
  ghost predicate MergeOf(ps: seq<Block>, runs: seq<Run>) {
    exists cuts :: Merged(ps, cuts, runs) && cuts[|cuts| - 1] == |ps|
  }

  method Merge(ps: seq<Block>) returns (runs: seq<Run>, ghost cuts: seq<nat>)
    ensures MergeOf(ps, runs)
    ensures Merged(ps, cuts, runs) && cuts[|cuts| - 1] == |ps|
  {
    runs, cuts := [], [0];
    var heading, cur: Option<Run> := "", None;
    for j := 0 to |ps|
      invariant UnderWay(ps, cuts, runs, cur, j) && heading == InForce(ps, j)
    {
      var b := ps[j];
      if cur.Some? && cur.value.end - cur.value.start >= MIN && (b.isHeading || b.end - cur.value.start > TARGET) {
        CloseKeeps(ps, cuts, runs, cur.value, j);
        runs, cuts := runs + [cur.value], cuts + [j];
        cur := None;
      }
      if b.isHeading { heading := b.heading; }
      if cur.None? {
        cur := Some(Run(heading, b.start, b.end, !b.isHeading));
      } else {
        RunGrows(ps, cuts[|cuts| - 1], j, cur.value);
        cur := Some(Run(if b.isHeading && !cur.value.body then heading else cur.value.heading, cur.value.start, b.end, cur.value.body || !b.isHeading));
      }
    }
    if cur.Some? {
      CloseKeeps(ps, cuts, runs, cur.value, |ps|);
      runs, cuts := runs + [cur.value], cuts + [|ps|];
    }
  }

  // ---- what a chunk is ----

  lemma RunsInOrder(text: string, ps: seq<Block>, cuts: seq<nat>, runs: seq<Run>, i: nat, j: nat)
    requires Laid(text, ps, |text|) && Merged(ps, cuts, runs) && i < j < |runs|
    ensures runs[i].end <= runs[j].start
  {
    assert RunOf(ps, cuts[i], cuts[i + 1], runs[i]) && RunOf(ps, cuts[j], cuts[j + 1], runs[j]);
    assert cuts[i + 1] <= cuts[j];
  }

  lemma {:induction false} CutAround(cuts: seq<nat>, n: nat, k: nat) returns (i: nat)
    requires Cuts(cuts, n) && k < cuts[|cuts| - 1]
    ensures i + 1 < |cuts| && cuts[i] <= k < cuts[i + 1]
    decreases |cuts|
  {
    if k >= cuts[|cuts| - 2] {
      i := |cuts| - 2;
    } else {
      i := CutAround(cuts[..|cuts| - 1], n, k);
    }
  }

  predicate InRuns(runs: seq<Run>, k: int) { exists i :: 0 <= i < |runs| && runs[i].start <= k < runs[i].end }

  lemma RunsCover(text: string, ps: seq<Block>, cuts: seq<nat>, runs: seq<Run>, k: int)
    requires Laid(text, ps, |text|) && Merged(ps, cuts, runs) && cuts[|cuts| - 1] == |ps| && In(ps, k)
    ensures InRuns(runs, k)
  {
    var p :| 0 <= p < |ps| && ps[p].start <= k < ps[p].end;
    var i := CutAround(cuts, |ps|, p);
    assert RunOf(ps, cuts[i], cuts[i + 1], runs[i]);
  }

  lemma RunIsLongEnough(ps: seq<Block>, cuts: seq<nat>, runs: seq<Run>, i: nat)
    requires Merged(ps, cuts, runs) && i + 1 < |runs|
    ensures runs[i].end - runs[i].start >= MIN
  {
    assert RunOf(ps, cuts[i], cuts[i + 1], runs[i]) && RunOf(ps, cuts[i + 1], cuts[i + 2], runs[i + 1]);
  }

  lemma {:induction false} GapAt(ps: seq<Block>, i: nat)
    requires 0 < i < |ps|
    ensures ps[i].start - ps[i - 1].end <= MaxGap(ps)
  {
    if i < |ps| - 1 {
      GapAt(ps[..|ps| - 1], i);
    }
  }

  // No heading line is longer than MAX.
  predicate HeadingsFit(bs: seq<Block>) { forall i :: 0 <= i < |bs| && bs[i].isHeading ==> Size(bs[i]) <= MAX }

  lemma RunIsShortEnough(ps: seq<Block>, bs: seq<Block>, a: nat, c: nat, r: Run)
    requires AllFit(ps, bs) && HeadingsFit(bs) && RunOf(ps, a, c, r) && Together(ps, a, c)
    ensures r.end - r.start <= MIN - 1 + MaxGap(ps) + MAX
  {
    var last := c - 1;
    assert FitsOne(ps[last], bs);
    if a < last {
      GapAt(ps, last);
      assert !Closes(ps, a, last);
    }
  }

  /** A start still short of MIN, the gap after it and the piece that follows
      are more than MAX together. */
  predicate Overfull(ps: seq<Block>, a: nat, c: nat)
    requires a < c <= |ps|
  {
    c - a >= 2 && var short := ps[c - 2].end - ps[a].start;
      short < MIN && short + (ps[c - 1].start - ps[c - 2].end) + Size(ps[c - 1]) > MAX
  }

  /** Exactly then a run is longer than MAX. */
  lemma RunExceedsMaxWhen(ps: seq<Block>, bs: seq<Block>, a: nat, c: nat, r: Run)
    requires AllFit(ps, bs) && HeadingsFit(bs) && RunOf(ps, a, c, r) && Together(ps, a, c)
    ensures r.end - r.start > MAX <==> Overfull(ps, a, c)
  {
    assert FitsOne(ps[c - 1], bs);
    if c - a >= 2 { assert Closes(ps, a, c - 1) || !Closes(ps, a, c - 1); }
  }

  // How the runs of a text come about from its blocks.
  ghost predicate RunsOf(lex: Lexer, text: string, ps: seq<Block>, cuts: seq<nat>, runs: seq<Run>) {
    Pieces(text, BlocksOf(lex, text), ps) && Merged(ps, cuts, runs) && cuts[|cuts| - 1] == |ps|
  }

  method Runs(lex: Lexer, text: string) returns (runs: seq<Run>, ghost ps: seq<Block>, ghost cuts: seq<nat>)
    requires Sound(lex)
    ensures RunsOf(lex, text, ps, cuts, runs)
    ensures forall i :: 0 <= i < |runs| ==> runs[i].start < runs[i].end <= |text|
    ensures forall i, j :: 0 <= i < j < |runs| ==> runs[i].end <= runs[j].start
    ensures forall k :: 0 <= k < |text| ==> InRuns(runs, k) || Skipped(text, k)
    ensures forall i :: 0 <= i < |runs| - 1 ==> runs[i].end - runs[i].start >= MIN
    ensures HeadingsFit(BlocksOf(lex, text)) ==>
      forall i :: 0 <= i < |runs| ==>
        && runs[i].end - runs[i].start <= MIN - 1 + MaxGap(BlocksOf(lex, text)) + MAX
        && (runs[i].end - runs[i].start > MAX <==> Overfull(ps, cuts[i], cuts[i + 1]))
  {
    var bs := Blocks(lex, text);
    var pieces := Divide(text, bs);
    runs, cuts := Merge(pieces);
    ps := pieces;
    forall i | 0 <= i < |runs| ensures runs[i].start < runs[i].end <= |text| {
      assert RunOf(ps, cuts[i], cuts[i + 1], runs[i]);
    }
    forall i, j | 0 <= i < j < |runs| ensures runs[i].end <= runs[j].start { RunsInOrder(text, ps, cuts, runs, i, j); }
    forall k | 0 <= k < |text| ensures InRuns(runs, k) || Skipped(text, k) {
      if !Skipped(text, k) { RunsCover(text, ps, cuts, runs, k); }
    }
    forall i | 0 <= i < |runs| - 1 ensures runs[i].end - runs[i].start >= MIN { RunIsLongEnough(ps, cuts, runs, i); }
    if HeadingsFit(bs) {
      forall i | 0 <= i < |runs|
        ensures runs[i].end - runs[i].start <= MIN - 1 + MaxGap(bs) + MAX
        ensures runs[i].end - runs[i].start > MAX <==> Overfull(ps, cuts[i], cuts[i + 1])
      {
        RunIsShortEnough(ps, bs, cuts[i], cuts[i + 1], runs[i]);
        RunExceedsMaxWhen(ps, bs, cuts[i], cuts[i + 1], runs[i]);
      }
    }
  }

  // ---- a text whose chunk is as long as can be ----

  function Repeated(ch: char, n: nat): (s: string) { seq(n, _ => ch) }

  // Two lines with an empty one between: the first a character short of MIN,
  // the second MAX long.
  function ShortThenLong(): (text: string) { Repeated('a', MIN - 1) + "\n\n" + Repeated('b', MAX) }

  function ShortBlock(): (b: Block) { Block(false, "", 0, MIN - 1, Repeated('a', MIN - 1)) }

  function LongBlock(): (b: Block) { Block(false, "", MIN + 1, MIN + 1 + MAX, Repeated('b', MAX)) }

  ghost predicate TakesThemForText(lex: Lexer) {
    Sound(lex) && lex.heading(Repeated('a', MIN - 1)).None? && lex.heading(Repeated('b', MAX)).None?
  }

  lemma LinesOfShortThenLong()
    ensures var text := ShortThenLong();
      && |text| == MIN + 1 + MAX && '\r' !in text
      && LineEnd(text, 0) == MIN - 1 && text[0..MIN - 1] == Repeated('a', MIN - 1)
      && LineEnd(text, MIN) == MIN && text[MIN..MIN] == ""
      && LineEnd(text, MIN + 1) == |text| && text[MIN + 1..|text|] == Repeated('b', MAX)
  {
    var text := ShortThenLong();
    assert forall k :: 0 <= k < MIN - 1 ==> text[k] == 'a';
    assert text[MIN - 1] == '\n' && text[MIN] == '\n';
    assert forall k :: MIN + 1 <= k < |text| ==> text[k] == 'b';
  }

  lemma NotBlank(ch: char, n: nat)
    requires n > 0 && !IsSpace(ch)
    ensures !IsBlank(Repeated(ch, n))
  {
    assert Repeated(ch, n)[0] in Repeated(ch, n);
  }

  lemma BlocksOfShortThenLong(lex: Lexer)
    requires TakesThemForText(lex)
    ensures BlocksOf(lex, ShortThenLong()) == [ShortBlock(), LongBlock()]
  {
    var text := ShortThenLong();
    LinesOfShortThenLong();
    NotBlank('a', MIN - 1);
    NotBlank('b', MAX);
    var s1 := Scan([], Some(ShortBlock()));
    assert NextLine(lex, Scan([], None), text[0..MIN - 1], 0, MIN - 1) == s1;
    var s2 := Scan([ShortBlock()], None);
    assert IsBlank("") && NextLine(lex, s1, "", MIN, MIN) == s2;
    var s3 := Scan([ShortBlock()], Some(LongBlock()));
    assert NextLine(lex, s2, text[MIN + 1..|text|], MIN + 1, |text|) == s3;
    assert BlocksOf(lex, text) == ScanFrom(lex, text, s1, MIN);
    assert ScanFrom(lex, text, s1, MIN) == ScanFrom(lex, text, s2, MIN + 1);
    assert ScanFrom(lex, text, s2, MIN + 1) == ScanFrom(lex, text, s3, |text| + 1);
  }

  lemma TwoBlocks(bs: seq<Block>)
    requires bs == [ShortBlock(), LongBlock()]
    ensures HeadingsFit(bs) && NoneTooLong(bs)
    ensures |bs| == 2 && !bs[1].isHeading && bs[0].start <= bs[0].end <= bs[1].start && Size(bs[0]) == MIN - 1 && Size(bs[1]) == MAX
  {
  }

  lemma OneRun(ps: seq<Block>, cuts: seq<nat>, runs: seq<Run>)
    requires |ps| == 2 && Merged(ps, cuts, runs) && cuts[|cuts| - 1] == 2
    requires !ps[1].isHeading && ps[0].start <= ps[0].end <= ps[1].start && Size(ps[0]) == MIN - 1 && Size(ps[1]) == MAX
    ensures |runs| == 1 && runs[0].end - runs[0].start == MIN - 1 + MaxGap(ps) + MAX > MAX
  {
    GapAt(ps, 1);
    assert RunOf(ps, cuts[0], cuts[1], runs[0]);
    assert !Closes(ps, 0, 1);
    assert MaxGap(ps[..1]) == 0;
  }

  /** The bound is met by this text, whatever the speaker pattern: it is one
      chunk, longer than MAX by all the bound allows. */
  lemma BoundIsReached(lex: Lexer, ps: seq<Block>, cuts: seq<nat>, runs: seq<Run>)
    requires TakesThemForText(lex) && RunsOf(lex, ShortThenLong(), ps, cuts, runs)
    ensures var bs := BlocksOf(lex, ShortThenLong());
      HeadingsFit(bs) && |runs| == 1 && runs[0].end - runs[0].start == MIN - 1 + MaxGap(bs) + MAX > MAX
  {
    var bs := BlocksOf(lex, ShortThenLong());
    BlocksOfShortThenLong(lex);
    TwoBlocks(bs);
    OneRun(ps, cuts, runs);
  }
}