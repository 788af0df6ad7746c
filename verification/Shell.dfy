/** As much of the shell as a write script uses: words and quoting (section 2.2
    of the POSIX Shell Command Language), redirections, and the few commands it
    runs. Whatever else a text holds is refused. */
module Shell {
  import opened Wrappers
  import opened Base64

  // ---- words ----

  // A character, or a parameter; `bare` when no quotes are around it.
  datatype Piece = Ch(c: char, bare: bool) | Param(name: string, bare: bool)

  type Word = seq<Piece>

  datatype Op = Into | Onto | From

  datatype Token = W(word: Word) | O(op: Op)

  datatype Mode = Bare | Single | Double

  predicate EndsWord(s: string) { s == "" || s[0] in " \t\n<>" }

  // What these mean outside quotes is not covered.
  predicate Refused(c: char) { c in "\0|&;()`*?[#~" }

  predicate NameChar(c: char) { 'a' <= c <= 'z' || 'A' <= c <= 'Z' || '0' <= c <= '9' || c == '_' }

  function NameLength(s: string): (n: nat)
    ensures n <= |s|
  {
    if s != "" && NameChar(s[0]) then 1 + NameLength(s[1..]) else 0
  }

  type Read = Option<(Word, string)>

  function Then(p: Piece, r: Read): (t: Read) { if r.None? then None else Some(([p] + r.value.0, r.value.1)) }

  /** One word from the start of a text, and what follows it. */
  function Scan(s: string, mode: Mode): (r: Read)
    ensures r.Some? ==> |r.value.1| <= |s|
    ensures r.Some? && (mode != Bare || !EndsWord(s)) ==> |r.value.1| < |s|
    decreases |s|
  {
    match mode
    case Bare =>
      if EndsWord(s) then Some(([], s))
      else if s[0] == '\'' then Scan(s[1..], Single)
      else if s[0] == '"' then Scan(s[1..], Double)
      else if s[0] == '\\' then
        if |s| < 2 || s[1] == '\0' then None else if s[1] == '\n' then Scan(s[2..], Bare) else Then(Ch(s[1], false), Scan(s[2..], Bare))
      else if s[0] == '$' then Parameter(s, Bare)
      else if Refused(s[0]) then None
      else Then(Ch(s[0], true), Scan(s[1..], Bare))
    case Single =>
      if s == "" || s[0] == '\0' then None
      else if s[0] == '\'' then Scan(s[1..], Bare)
      else Then(Ch(s[0], false), Scan(s[1..], Single))
    case Double =>
      if s == "" || s[0] in "\0`" then None
      else if s[0] == '"' then Scan(s[1..], Bare)
      else if s[0] == '$' then Parameter(s, Double)
      else if s[0] == '\\' && |s| > 1 && s[1] in "$`\"\\" then Then(Ch(s[1], false), Scan(s[2..], Double))
      else if s[0] == '\\' && |s| > 1 && s[1] == '\n' then Scan(s[2..], Double)
      else Then(Ch(s[0], false), Scan(s[1..], Double))
  }

  // A dollar sign and the name after it; $$ is the shell's own number.
  function Parameter(s: string, mode: Mode): (r: Read)
    requires s != "" && s[0] == '$'
    ensures r.Some? ==> |r.value.1| < |s|
    decreases |s|, 0
  {
    if |s| > 1 && s[1] == '$' then Then(Param("$", mode == Bare), Scan(s[2..], mode))
    else
      var n := NameLength(s[1..]);
      if n == 0 || '0' <= s[1] <= '9' then None
      else Then(Param(s[1..n + 1], mode == Bare), Scan(s[n + 1..], mode))
  }

  // ---- lines ----

  type Line = Option<(seq<Token>, string)>

  function After(t: Token, r: Line): (l: Line) { if r.None? then None else Some(([t] + r.value.0, r.value.1)) }

  /** One line from the start of a text, and what follows its line break. */
  function Tokens(s: string): (l: Line)
    ensures l.Some? ==> |l.value.1| <= |s| && (s != "" ==> |l.value.1| < |s|)
    decreases |s|
  {
    if s == "" then Some(([], ""))
    else if s[0] == '\n' then Some(([], s[1..]))
    else if s[0] in " \t" then Tokens(s[1..])
    else if s[0] == '>' then
      if |s| > 1 && s[1] == '>' then After(O(Onto), Tokens(s[2..])) else After(O(Into), Tokens(s[1..]))
    else if s[0] == '<' then After(O(From), Tokens(s[1..]))
    else
      match Scan(s, Bare)
      case None => None
      case Some((word, rest)) => After(W(word), Tokens(rest))
  }

  // ---- what a text reads as ----

  /** Wherever it stands, this text is this word. */
  ghost predicate ReadsAs(text: string, word: Word) {
    && text != "" && !EndsWord(text)
    && forall rest {:trigger Scan(text + rest, Bare)} :: EndsWord(rest) ==> Scan(text + rest, Bare) == Some((word, rest))
  }

  // Characters with no meaning but themselves.
  predicate PlainChar(c: char) { NameChar(c) || c == '-' || c == '.' || c == '=' || c == ':' || c == '%' }

  predicate Plain(s: string) { forall i :: 0 <= i < |s| ==> PlainChar(s[i]) }

  function Letters(s: string): (w: Word)
    ensures |w| == |s| && forall i :: 0 <= i < |s| ==> w[i] == Ch(s[i], true)
  {
    if s == "" then [] else [Ch(s[0], true)] + Letters(s[1..])
  }

  function Front(w: Word, r: Read): (t: Read) { if r.None? then None else Some((w + r.value.0, r.value.1)) }

  lemma FrontNothing(r: Read)
    ensures Front([], r) == r
  {
    if r.Some? { assert [] + r.value.0 == r.value.0; }
  }

  lemma FrontMore(p: Piece, w: Word, r: Read)
    ensures Then(p, Front(w, r)) == Front([p] + w, r)
  {
    if r.Some? { assert [p] + (w + r.value.0) == ([p] + w) + r.value.0; }
  }

  lemma {:induction false} PlainReads(s: string, rest: string)
    requires Plain(s)
    ensures Scan(s + rest, Bare) == Front(Letters(s), Scan(rest, Bare))
    decreases |s|
  {
    if s == "" {
      assert s + rest == rest;
      FrontNothing(Scan(rest, Bare));
    } else {
      assert (s + rest)[0] == s[0] && (s + rest)[1..] == s[1..] + rest;
      PlainReads(s[1..], rest);
      FrontMore(Ch(s[0], true), Letters(s[1..]), Scan(rest, Bare));
    }
  }

  /** Wherever it stands outside quotes, this text adds these pieces to a word. */
  ghost predicate Yields(text: string, w: Word) {
    forall rest {:trigger Scan(text + rest, Bare)} :: Scan(text + rest, Bare) == Front(w, Scan(rest, Bare))
  }

  lemma PlainYields(s: string)
    requires Plain(s)
    ensures Yields(s, Letters(s))
  {
    forall rest ensures Scan(s + rest, Bare) == Front(Letters(s), Scan(rest, Bare)) { PlainReads(s, rest); }
  }

  lemma FrontTwice(w: Word, v: Word, r: Read)
    ensures Front(w, Front(v, r)) == Front(w + v, r)
  {
    if r.Some? { assert w + (v + r.value.0) == (w + v) + r.value.0; }
  }

  lemma YieldsBoth(a: string, w: Word, b: string, v: Word)
    requires Yields(a, w) && Yields(b, v)
    ensures Yields(a + b, w + v)
  {
    forall rest ensures Scan(a + b + rest, Bare) == Front(w + v, Scan(rest, Bare)) {
      assert a + b + rest == a + (b + rest);
      assert Scan(a + (b + rest), Bare) == Front(w, Scan(b + rest, Bare));
      FrontTwice(w, v, Scan(rest, Bare));
    }
  }

  lemma YieldsWord(text: string, w: Word)
    requires Yields(text, w) && text != "" && !EndsWord(text)
    ensures ReadsAs(text, w)
  {
    forall rest | EndsWord(rest) ensures Scan(text + rest, Bare) == Some((w, rest)) {
      assert Scan(text + rest, Bare) == Front(w, Scan(rest, Bare));
      assert w + [] == w;
    }
  }

  lemma PlainIsAWord(s: string)
    requires Plain(s) && s != ""
    ensures ReadsAs(s, Letters(s))
  {
    PlainYields(s);
    YieldsWord(s, Letters(s));
  }

  // ---- parameters ----

  lemma {:induction false} NameEnds(name: string, rest: string)
    requires (forall c :: c in name ==> NameChar(c)) && (rest == "" || !NameChar(rest[0]))
    ensures NameLength(name + rest) == |name|
    decreases |name|
  {
    if name == "" {
      assert name + rest == rest;
    } else {
      assert name[0] in name && (name + rest)[1..] == name[1..] + rest;
      NameEnds(name[1..], rest);
    }
  }

  lemma NameInQuotes(name: string, rest: string)
    requires name != "" && !('0' <= name[0] <= '9') && (forall c :: c in name ==> NameChar(c)) && (rest == "" || !NameChar(rest[0]))
    ensures Scan("$" + name + rest, Double) == Then(Param(name, false), Scan(rest, Double))
  {
    var s := "$" + name + rest;
    var n := |name|;
    assert s[1..] == name + rest && s[1] == name[0] && name[0] in name;
    NameEnds(name, rest);
    assert s[1..n + 1] == name && s[n + 1..] == rest;
    assert Scan(s, Double) == Parameter(s, Double);
  }

  lemma QuotedName(name: string)
    requires name != "" && !('0' <= name[0] <= '9') && forall c :: c in name ==> NameChar(c)
    ensures Yields("\"$" + name + "\"", [Param(name, false)])
  {
    forall rest ensures Scan("\"$" + name + "\"" + rest, Bare) == Front([Param(name, false)], Scan(rest, Bare)) {
      var closing := "\"" + rest;
      var s := "\"$" + name + "\"" + rest;
      assert s[1..] == "$" + name + closing;
      assert closing[1..] == rest;
      NameInQuotes(name, closing);
      assert Scan(closing, Double) == Scan(rest, Bare);
    }
  }

  lemma ShellNumber()
    ensures Yields("$$", [Param("$", true)])
  {
    forall rest ensures Scan("$$" + rest, Bare) == Front([Param("$", true)], Scan(rest, Bare)) {
      var s := "$$" + rest;
      assert s[2..] == rest;
      assert Scan(s, Bare) == Parameter(s, Bare);
    }
  }

  // A line written as words and operators with a space between.
  datatype Item = Text(text: string, word: Word) | Mark(op: Op)

  function Source(i: Item): (s: string) {
    match i
    case Text(text, _) => text
    case Mark(Into) => ">"
    case Mark(Onto) => ">>"
    case Mark(From) => "<"
  }

  function TokenOf(i: Item): (t: Token) { if i.Text? then W(i.word) else O(i.op) }

  function LineOf(items: seq<Item>): (s: string) {
    if items == [] then "" else if |items| == 1 then Source(items[0]) else Source(items[0]) + " " + LineOf(items[1..])
  }

  function TokensOf(items: seq<Item>): (ts: seq<Token>) {
    if items == [] then [] else [TokenOf(items[0])] + TokensOf(items[1..])
  }

  ghost predicate WellRead(items: seq<Item>) { forall i :: 0 <= i < |items| && items[i].Text? ==> ReadsAs(items[i].text, items[i].word) }

  predicate EndsLine(rest: string) { rest == "" || rest[0] == '\n' }

  function Beyond(rest: string): (s: string) { if rest == "" then "" else rest[1..] }

  /** Wherever it stands at a line's end, this text is these tokens. */
  ghost predicate Parses(line: string, ts: seq<Token>) {
    forall rest {:trigger Tokens(line + rest)} :: EndsLine(rest) ==> Tokens(line + rest) == Some((ts, Beyond(rest)))
  }

  lemma ItemReads(i: Item, rest: string)
    requires i.Text? ==> ReadsAs(i.text, i.word)
    requires EndsWord(rest) && (rest != "" ==> rest[0] !in "<>")
    ensures Tokens(Source(i) + rest) == After(TokenOf(i), Tokens(rest))
  {
    var s := Source(i) + rest;
    match i
    case Text(text, word) => assert s[0] == text[0];
    case Mark(Into) => assert s[1..] == rest;
    case Mark(Onto) => assert s[2..] == rest;
    case Mark(From) => assert s[1..] == rest;
  }

  lemma ItemThenMore(i: Item, tail: string)
    requires i.Text? ==> ReadsAs(i.text, i.word)
    ensures Tokens(Source(i) + " " + tail) == After(TokenOf(i), Tokens(tail))
  {
    ItemReads(i, " " + tail);
    assert Source(i) + " " + tail == Source(i) + (" " + tail);
    assert (" " + tail)[1..] == tail;
  }

  lemma OneItemReads(i: Item, rest: string)
    requires i.Text? ==> ReadsAs(i.text, i.word)
    requires EndsLine(rest)
    ensures Tokens(LineOf([i]) + rest) == Some((TokensOf([i]), Beyond(rest)))
  {
    ItemReads(i, rest);
    assert TokensOf([i]) == [TokenOf(i)] + [];
  }

  lemma LineStep(items: seq<Item>, rest: string)
    requires |items| > 1
    ensures LineOf(items) + rest == Source(items[0]) + " " + (LineOf(items[1..]) + rest)
    ensures TokensOf(items) == [TokenOf(items[0])] + TokensOf(items[1..])
  {
  }

  lemma {:induction false} ItemsRead(items: seq<Item>, rest: string)
    requires items != [] && WellRead(items) && EndsLine(rest)
    ensures Tokens(LineOf(items) + rest) == Some((TokensOf(items), Beyond(rest)))
    decreases |items|
  {
    assert items[0].Text? ==> ReadsAs(items[0].text, items[0].word);
    if |items| == 1 {
      OneItemReads(items[0], rest);
      assert items == [items[0]];
    } else {
      ItemsRead(items[1..], rest);
      ItemThenMore(items[0], LineOf(items[1..]) + rest);
      LineStep(items, rest);
    }
  }

  lemma LineOfMore(i: Item, items: seq<Item>)
    requires items != []
    ensures LineOf([i] + items) == Source(i) + " " + LineOf(items)
    ensures TokensOf([i] + items) == [TokenOf(i)] + TokensOf(items)
  {
    assert ([i] + items)[1..] == items;
  }

  lemma LineOfThree(a: Item, b: Item, c: Item)
    ensures LineOf([a, b, c]) == Source(a) + " " + (Source(b) + " " + Source(c))
  {
    LineOfMore(a, [b, c]);
    LineOfMore(b, [c]);
    assert [a] + [b, c] == [a, b, c] && [b] + [c] == [b, c];
  }

  lemma LineOfFive(a: Item, b: Item, c: Item, d: Item, e: Item)
    ensures LineOf([a, b, c, d, e]) == Source(a) + " " + (Source(b) + " " + (Source(c) + " " + (Source(d) + " " + Source(e))))
  {
    LineOfMore(a, [b, c, d, e]);
    LineOfMore(b, [c, d, e]);
    LineOfThree(c, d, e);
    assert [a] + [b, c, d, e] == [a, b, c, d, e] && [b] + [c, d, e] == [b, c, d, e];
  }

  lemma LineParses(items: seq<Item>)
    requires items != [] && WellRead(items)
    ensures Parses(LineOf(items), TokensOf(items))
  {
    forall rest | EndsLine(rest) ensures Tokens(LineOf(items) + rest) == Some((TokensOf(items), Beyond(rest))) { ItemsRead(items, rest); }
  }

  ghost predicate ItemOk(i: Item) { i.Text? ==> ReadsAs(i.text, i.word) }

  lemma OneParses(text: string, w: Word)
    requires ReadsAs(text, w)
    ensures Parses(text, TokensOf([Text(text, w)]))
  {
    LineParses([Text(text, w)]);
  }

  lemma ThreeParse(a: Item, b: Item, c: Item)
    requires ItemOk(a) && ItemOk(b) && ItemOk(c)
    ensures Parses(Source(a) + " " + (Source(b) + " " + Source(c)), TokensOf([a, b, c]))
  {
    LineOfThree(a, b, c);
    LineParses([a, b, c]);
  }

  lemma FiveParse(a: Item, b: Item, c: Item, d: Item, e: Item)
    requires ItemOk(a) && ItemOk(b) && ItemOk(c) && ItemOk(d) && ItemOk(e)
    ensures Parses(Source(a) + " " + (Source(b) + " " + (Source(c) + " " + (Source(d) + " " + Source(e)))), TokensOf([a, b, c, d, e]))
  {
    LineOfFive(a, b, c, d, e);
    LineParses([a, b, c, d, e]);
  }

  lemma SixParse(a: Item, b: Item, c: Item, d: Item, e: Item, f: Item)
    requires ItemOk(a) && ItemOk(b) && ItemOk(c) && ItemOk(d) && ItemOk(e) && ItemOk(f)
    ensures Parses(Source(a) + " " + (Source(b) + " " + (Source(c) + " " + (Source(d) + " " + (Source(e) + " " + Source(f))))),
                   TokensOf([a, b, c, d, e, f]))
  {
    LineOfFive(b, c, d, e, f);
    LineOfMore(a, [b, c, d, e, f]);
    assert [a] + [b, c, d, e, f] == [a, b, c, d, e, f];
    LineParses([a, b, c, d, e, f]);
  }
}
