/** The chunks of a document (graph-rag/src/documents.js): line breaks made one
    kind, then blocks, pieces and runs, each with its slice of the text. */
module DocumentChunks {
  import opened Wrappers
  import opened Text
  import opened Documents
  import opened DocumentLines

  // ---- line breaks ----

  // Line breaks as the chunker wants them.
  function Normalized(s: string): (t: string)
    ensures '\r' !in t
    decreases |s|
  {
    if s == "" then ""
    else if s[0] == '\r' then "\n" + Normalized(s[if |s| > 1 && s[1] == '\n' then 2 else 1..])
    else [s[0]] + Normalized(s[1..])
  }

  lemma {:induction false} NormalStays(s: string)
    requires '\r' !in s
    ensures Normalized(s) == s
    decreases |s|
  {
    if s != "" { NormalStays(s[1..]); }
  }

  // This is not between the two halves of one break.
  predicate Apart(a: string, b: string) { !(a != "" && b != "" && a[|a| - 1] == '\r' && b[0] == '\n') }

  lemma {:induction false} NormalizedApart(a: string, b: string)
    requires Apart(a, b)
    ensures Normalized(a + b) == Normalized(a) + Normalized(b)
    decreases |a|
  {
    if a == "" {
      assert a + b == b;
    } else {
      var n := if a[0] == '\r' && |a| > 1 && a[1] == '\n' then 2 else 1;
      assert (a + b)[n..] == a[n..] + b;
      NormalizedApart(a[n..], b);
    }
  }

  predicate IsBreak(br: string) { br == "\r\n" || br == "\r" || br == "\n" }

  lemma BreakIsOne(br: string)
    requires IsBreak(br)
    ensures Normalized(br) == "\n"
  {
    assert Normalized("") == "";
    if br == "\r\n" { assert br[2..] == ""; } else { assert br[1..] == ""; }
  }

  /** Each line break, of whichever kind, comes to one line feed, and all that is
      between them stays. */
  lemma EveryBreakIsOne(a: string, br: string, b: string)
    requires IsBreak(br) && Apart(a, br) && Apart(br, b)
    ensures Normalized(a + br + b) == Normalized(a) + "\n" + Normalized(b)
    ensures '\r' !in b ==> Normalized(b) == b
  {
    assert (a + br)[|a + br| - 1] == br[|br| - 1];
    NormalizedApart(a + br, b);
    NormalizedApart(a, br);
    BreakIsOne(br);
    if '\r' !in b { NormalStays(b); }
  }

  // ---- chunks ----

  datatype Chunk = Chunk(index: nat, heading: string, start: nat, end: nat, text: string)

  predicate InChunks(cs: seq<Chunk>, k: int) { exists i :: 0 <= i < |cs| && cs[i].start <= k < cs[i].end }

  // The chunk numbered i of these runs.
  predicate ChunkOf(text: string, r: Run, i: nat, c: Chunk) {
    && c.index == i && c.heading == r.heading && c.start == r.start && c.end == r.end
    && c.start < c.end <= |text| && c.text == text[c.start..c.end]
  }

  predicate ChunksOf(text: string, runs: seq<Run>, cs: seq<Chunk>) {
    |cs| == |runs| && forall i :: 0 <= i < |cs| ==> ChunkOf(text, runs[i], i, cs[i])
  }

  /** A run stops only with 400 characters, before a heading or a piece that would
      take it past 1800. */
  predicate StopsBefore(r: Run, next: Block) { r.end - r.start >= 400 && (next.isHeading || next.end - r.start > 1800) }

  ghost predicate StopsRightly(ps: seq<Block>, r: Run, s: Run) {
    exists k :: 0 <= k < |ps| && ps[k].start == s.start && StopsBefore(r, ps[k])
  }

  /** And nowhere it may stop does it go on. */
  ghost predicate GoesOnRightly(ps: seq<Block>, r: Run) {
    forall k :: 0 < k < |ps| && r.start < ps[k].start < r.end ==>
      ps[k - 1].end - r.start < 400 || (!ps[k].isHeading && ps[k].end - r.start <= 1800)
  }

  lemma RunGoesOn(text: string, ps: seq<Block>, a: nat, c: nat, r: Run)
    requires Laid(text, ps, |text|) && RunOf(ps, a, c, r) && Together(ps, a, c)
    ensures GoesOnRightly(ps, r)
  {
    assert forall i :: 0 <= i < |ps| ==> Slice(text, ps[i]);
    forall k | 0 < k < |ps| && r.start < ps[k].start < r.end
      ensures ps[k - 1].end - r.start < 400 || (!ps[k].isHeading && ps[k].end - r.start <= 1800)
    {
      if a < k < c { assert !Closes(ps, a, k); }
    }
  }

  lemma RunsStopAndGoOn(text: string, ps: seq<Block>, cuts: seq<nat>, runs: seq<Run>)
    requires Laid(text, ps, |text|) && Merged(ps, cuts, runs)
    ensures forall i :: 0 <= i < |runs| ==> GoesOnRightly(ps, runs[i])
    ensures forall i :: 0 <= i < |runs| - 1 ==> StopsRightly(ps, runs[i], runs[i + 1])
  {
    forall i | 0 <= i < |runs| ensures GoesOnRightly(ps, runs[i]) { RunGoesOn(text, ps, cuts[i], cuts[i + 1], runs[i]); }
    forall i | 0 <= i < |runs| - 1 ensures StopsRightly(ps, runs[i], runs[i + 1]) {
      assert RunOf(ps, cuts[i], cuts[i + 1], runs[i]) && RunOf(ps, cuts[i + 1], cuts[i + 2], runs[i + 1]);
      assert ps[cuts[i + 1]].start == runs[i + 1].start && StopsBefore(runs[i], ps[cuts[i + 1]]);
    }
  }

  // A heading line in a chunk starts it, or comes early.
  ghost predicate HeadingsStart(lex: Lexer, text: string, r: Run) {
    forall a: nat, b: nat {:trigger IsHeadingLine(lex, text, a, b)} ::
      IsHeadingLine(lex, text, a, b) && r.start <= a < r.end ==> StartsOrIsEarly(text, r, a)
  }

  lemma RunsHaveHeadings(lex: Lexer, text: string, ps: seq<Block>, cuts: seq<nat>, runs: seq<Run>)
    requires PiecesOf(lex, text, ps) && Merged(ps, cuts, runs)
    ensures forall i :: 0 <= i < |runs| ==> RightlyNamed(lex, text, runs[i]) && HeadingsStart(lex, text, runs[i])
  {
    forall i | 0 <= i < |runs| ensures RightlyNamed(lex, text, runs[i]) && HeadingsStart(lex, text, runs[i]) {
      RunIsRightlyNamed(lex, text, ps, cuts[i], cuts[i + 1], runs[i]);
      forall a: nat, b: nat {:trigger IsHeadingLine(lex, text, a, b)} | IsHeadingLine(lex, text, a, b) && runs[i].start <= a < runs[i].end
        ensures StartsOrIsEarly(text, runs[i], a)
      {
        HeadingStartsARun(lex, text, ps, cuts[i], cuts[i + 1], runs[i], a, b);
      }
    }
  }

  // What a reader can rely on: these are the runs of the text's own pieces.
  ghost predicate Chunked(lex: Lexer, text: string, ps: seq<Block>, runs: seq<Run>) {
    && KeepsBlocks(BlocksOf(lex, text), ps)
    && (forall i :: 0 <= i < |runs| ==> RightlyNamed(lex, text, runs[i]) && HeadingsStart(lex, text, runs[i]) && GoesOnRightly(ps, runs[i]))
    && forall i :: 0 <= i < |runs| - 1 ==> StopsRightly(ps, runs[i], runs[i + 1])
  }

  lemma RunsAreChunked(lex: Lexer, text: string, ps: seq<Block>, cuts: seq<nat>, runs: seq<Run>)
    requires Sound(lex) && RunsOf(lex, text, ps, cuts, runs)
    ensures Chunked(lex, text, ps, runs)
  {
    BlocksAre(lex, text);
    LaidBefore(text, ps, EndOf(BlocksOf(lex, text)), |text|);
    RunsStopAndGoOn(text, ps, cuts, runs);
    RunsHaveHeadings(lex, text, ps, cuts, runs);
  }

  /** The chunks of a document: in order, apart, none empty, each with its piece of
      the text and the heading its text comes under. They leave out nothing but
      line breaks and blank lines; each stops where it must and nowhere else; and
      with no heading longer than 3200 none is longer than 399, the widest gap
      between blocks, and 3200 together, nor longer than 3200 but for one that is
      overfull. */
  method Chunks(lex: Lexer, raw: string) returns (cs: seq<Chunk>, ghost runs: seq<Run>, ghost ps: seq<Block>, ghost cuts: seq<nat>)
    requires Sound(lex)
    ensures RunsOf(lex, Normalized(raw), ps, cuts, runs) && Chunked(lex, Normalized(raw), ps, runs)
    ensures ChunksOf(Normalized(raw), runs, cs)
    ensures var text := Normalized(raw);
      && (forall i, j :: 0 <= i < j < |cs| ==> cs[i].end <= cs[j].start)
      && (forall k :: 0 <= k < |text| ==> InChunks(cs, k) || Skipped(text, k))
      && (HeadingsFit(BlocksOf(lex, text)) ==>
            forall i :: 0 <= i < |cs| ==>
              && cs[i].end - cs[i].start <= 399 + MaxGap(BlocksOf(lex, text)) + 3200
              && (cs[i].end - cs[i].start > 3200 <==> Overfull(ps, cuts[i], cuts[i + 1])))
  {
    var text := Normalized(raw);
    var found, pieces, at := Runs(lex, text);
    runs, ps, cuts := found, pieces, at;
    RunsAreChunked(lex, text, ps, cuts, runs);
    cs := [];
    for i := 0 to |found|
      invariant |cs| == i
      invariant forall k :: 0 <= k < i ==> ChunkOf(text, runs[k], k, cs[k])
    {
      cs := cs + [Chunk(i, found[i].heading, found[i].start, found[i].end, text[found[i].start..found[i].end])];
    }
    forall k | 0 <= k < |text| ensures InChunks(cs, k) || Skipped(text, k) {
      if !Skipped(text, k) {
        var i :| 0 <= i < |runs| && runs[i].start <= k < runs[i].end;
        assert ChunkOf(text, runs[i], i, cs[i]);
        assert cs[i].start <= k < cs[i].end;
      }
    }
  }

  // ---- the longest chunk ----

  lemma ShortThenLongIsNormal()
    ensures Normalized(ShortThenLong()) == ShortThenLong()
  {
    LinesOfShortThenLong();
    NormalStays(ShortThenLong());
  }

  // The chunker makes one chunk of that text, longer than 3200.
  method LongestChunk(lex: Lexer) returns (cs: seq<Chunk>)
    requires TakesThemForText(lex)
    ensures |cs| == 1 && cs[0].end - cs[0].start == 3601
  {
    ShortThenLongIsNormal();
    BlocksOfShortThenLong(lex);
    ghost var runs, ps, cuts;
    cs, runs, ps, cuts := Chunks(lex, ShortThenLong());
    BoundIsReached(lex, ps, cuts, runs);
    GapAt([ShortBlock(), LongBlock()], 1);
    assert ChunkOf(ShortThenLong(), runs[0], 0, cs[0]);
  }
}
