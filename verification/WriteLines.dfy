/** A write script's lines as the shell reads them, whatever the path and the
    bytes in it. */
module WriteLines {
  import opened Wrappers
  import opened Base64
  import opened Shell
  import opened ShellRun
  import opened WriteScript

  // ---- the lines as words ----

  function Name(s: string): (i: Item) { Text(s, Letters(s)) }

  function Arg(v: string): (i: Item) { Text(ShQuote(v), Quoted(v)) }

  const TMP: Item := Text("\"$tmp\"", [Param("tmp", false)])

  const CLEAN_UP: string := "rm -f \"$tmp\""

  function TmpWord(path: string): (w: Word) { Letters("tmp=") + Quoted(path) + Letters(".gw-write.") + [Param("$", true)] }

  function SetLine(): (l: seq<Item>) { [Name("set"), Name("-eu")] }

  function DirLine(path: string): (l: seq<Item>) { [Name("mkdir"), Name("-p"), Arg(PosixDirname(path))] }

  function TmpLine(path: string): (l: seq<Item>) { [Text("tmp=" + ShQuote(path) + ".gw-write.$$", TmpWord(path))] }

  function TrapLine(): (l: seq<Item>) { [Name("trap"), Arg(CLEAN_UP), Name("EXIT")] }

  function EmptyLine(): (l: seq<Item>) { [Name(":"), Mark(Into), TMP] }

  function SliceLine(slice: string): (l: seq<Item>) { [Name("printf"), Name("%s"), Arg(slice), Mark(Onto), TMP] }

  function DecodeLine(path: string): (l: seq<Item>) { [Name("base64"), Name("-d"), Mark(From), TMP, Mark(Into), Arg(path)] }

  function CleanLine(): (l: seq<Item>) { [Name("rm"), Name("-f"), TMP] }

  lemma TmpReads()
    ensures ReadsAs(TMP.text, TMP.word)
  {
    QuotedName("tmp");
    assert "\"$" + "tmp" + "\"" == TMP.text;
    YieldsWord(TMP.text, TMP.word);
  }

  lemma NumberText(a: string)
    ensures a + ".gw-write." + "$$" == a + ".gw-write.$$"
  {
  }

  lemma Assigned(path: string)
    requires '\0' !in path
    ensures Yields("tmp=" + ShQuote(path), Letters("tmp=") + Quoted(path))
  {
    PlainYields("tmp=");
    QuoteYields(path);
    YieldsBoth("tmp=", Letters("tmp="), ShQuote(path), Quoted(path));
  }

  lemma TmpWordFor(a: string, b: Word)
    requires Yields(a, b) && a != "" && !EndsWord(a)
    ensures ReadsAs(a + ".gw-write.$$", b + Letters(".gw-write.") + [Param("$", true)])
  {
    SuffixYields();
    NumberedWord(a, b, ".gw-write.", Letters(".gw-write."));
    NumberText(a);
  }

  lemma SuffixYields()
    ensures Yields(".gw-write.", Letters(".gw-write."))
  {
    PlainYields(".gw-write.");
  }

  lemma TmpWordReads(path: string)
    requires '\0' !in path
    ensures ReadsAs("tmp=" + ShQuote(path) + ".gw-write.$$", TmpWord(path))
  {
    Assigned(path);
    TmpWordFor("tmp=" + ShQuote(path), Letters("tmp=") + Quoted(path));
  }

  // Text with the shell's own number after it.
  lemma NumberedWord(a: string, b: Word, c: string, d: Word)
    requires Yields(a, b) && Yields(c, d) && a != "" && !EndsWord(a)
    ensures ReadsAs(a + c + "$$", b + d + [Param("$", true)])
  {
    YieldsBoth(a, b, c, d);
    ShellNumber();
    YieldsBoth(a + c, b + d, "$$", [Param("$", true)]);
    YieldsWord(a + c + "$$", b + d + [Param("$", true)]);
  }

  // ---- each line, read ----

  lemma SetParses()
    ensures Parses("set -eu", TokensOf(SetLine()))
  {
    PlainIsAWord("set");
    PlainIsAWord("-eu");
    LineParses(SetLine());
    LineOfMore(Name("set"), [Name("-eu")]);
    assert "set" + " " + "-eu" == "set -eu";
  }

  lemma DirText(x: string)
    ensures "mkdir" + " " + ("-p" + " " + x) == "mkdir -p " + x
  {
  }

  lemma DirParses(path: string)
    requires '\0' !in PosixDirname(path)
    ensures Parses("mkdir -p " + ShQuote(PosixDirname(path)), TokensOf(DirLine(path)))
  {
    var dir := Arg(PosixDirname(path));
    PlainIsAWord("mkdir");
    PlainIsAWord("-p");
    QuotingIsUndone(PosixDirname(path));
    ThreeParse(Name("mkdir"), Name("-p"), dir);
    DirText(dir.text);
  }

  lemma TmpLineParses(path: string)
    requires '\0' !in path
    ensures Parses("tmp=" + ShQuote(path) + ".gw-write.$$", TokensOf(TmpLine(path)))
  {
    TmpWordReads(path);
    OneParses("tmp=" + ShQuote(path) + ".gw-write.$$", TmpWord(path));
  }

  lemma {:induction false} NoQuotes(v: string)
    requires '\'' !in v
    ensures Escaped(v) == v
    decreases |v|
  {
    if v != "" { NoQuotes(v[1..]); }
  }

  lemma TrapText(v: string)
    ensures "trap" + " " + ("'" + v + "'" + " " + "EXIT") == "trap '" + v + "' EXIT"
  {
  }

  lemma TrapParsesFor(v: string)
    requires '\'' !in v && '\0' !in v
    ensures Parses("trap '" + v + "' EXIT", TokensOf([Name("trap"), Arg(v), Name("EXIT")]))
  {
    PlainIsAWord("trap");
    QuotingIsUndone(v);
    PlainIsAWord("EXIT");
    ThreeParse(Name("trap"), Arg(v), Name("EXIT"));
    NoQuotes(v);
    TrapText(v);
  }

  lemma TrapParses()
    ensures Parses("trap 'rm -f \"$tmp\"' EXIT", TokensOf(TrapLine()))
  {
    TrapParsesFor(CLEAN_UP);
    TrapLiteral();
  }

  lemma TrapLiteral()
    ensures "trap '" + CLEAN_UP + "' EXIT" == "trap 'rm -f \"$tmp\"' EXIT"
  {
  }

  lemma CleanUpParses()
    ensures Parses(CLEAN_UP, TokensOf(CleanLine()))
  {
    PlainIsAWord("rm");
    PlainIsAWord("-f");
    TmpReads();
    ThreeParse(Name("rm"), Name("-f"), TMP);
    CleanUpText();
  }

  lemma CleanUpText()
    ensures "rm" + " " + ("-f" + " " + "\"$tmp\"") == CLEAN_UP
  {
  }

  lemma EmptyParses()
    ensures Parses(": > \"$tmp\"", TokensOf(EmptyLine()))
  {
    PlainIsAWord(":");
    TmpReads();
    ThreeParse(Name(":"), Mark(Into), TMP);
    assert ":" + " " + (">" + " " + "\"$tmp\"") == ": > \"$tmp\"";
  }

  lemma SliceText(x: string)
    ensures "printf" + " " + ("%s" + " " + (x + " " + (">>" + " " + "\"$tmp\""))) == "printf %s " + x + " >> \"$tmp\""
  {
  }

  lemma SliceParses(slice: string)
    requires '\0' !in slice
    ensures Parses(PrintLine(slice), TokensOf(SliceLine(slice)))
  {
    var x := Arg(slice);
    PlainIsAWord("printf");
    PlainIsAWord("%s");
    QuotingIsUndone(slice);
    TmpReads();
    FiveParse(Name("printf"), Name("%s"), x, Mark(Onto), TMP);
    SliceText(x.text);
  }

  lemma LastText(x: string)
    ensures "base64" + " " + ("-d" + " " + ("<" + " " + ("\"$tmp\"" + " " + (">" + " " + x)))) == "base64 -d < \"$tmp\" > " + x
  {
  }

  lemma LastParses(path: string)
    requires '\0' !in path
    ensures Parses(Last(path), TokensOf(DecodeLine(path)))
  {
    var x := Arg(path);
    PlainIsAWord("base64");
    PlainIsAWord("-d");
    QuotingIsUndone(path);
    TmpReads();
    SixParse(Name("base64"), Name("-d"), Mark(From), TMP, Mark(Into), x);
    LastText(x.text);
  }
}
