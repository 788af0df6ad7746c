/** What each line of a write script asks of the shell: a command, its
    arguments, and where its input and output go. */
module WriteSteps {
  import opened Wrappers
  import opened Base64
  import opened Shell
  import opened ShellRun
  import opened WriteScript
  import opened WriteLines

  // ---- what words come to ----

  lemma {:induction false} ValueOfText(w: Word, s: string, sh: Sh, assigning: bool)
    requires |w| == |s| && forall i :: 0 <= i < |w| ==> w[i].Ch? && w[i].c == s[i]
    ensures Value(w, sh, assigning) == Some(s)
    decreases |w|
  {
    if w != [] {
      ValueOfText(w[1..], s[1..], sh, assigning);
      assert s == [s[0]] + s[1..];
    }
  }

  lemma ValueOfName(s: string, sh: Sh)
    ensures Value(Letters(s), sh, false) == Some(s)
  {
    ValueOfText(Letters(s), s, sh, false);
  }

  lemma ValueOfArg(v: string, sh: Sh)
    ensures Value(Quoted(v), sh, false) == Some(v)
  {
    ValueOfText(Quoted(v), v, sh, false);
  }

  lemma ValueOfTmp(sh: Sh)
    requires "tmp" in sh.vars
    ensures Value(TMP.word, sh, false) == Some(sh.vars["tmp"])
  {
    assert TMP.word[1..] == [];
    assert sh.vars["tmp"] + "" == sh.vars["tmp"];
  }

  lemma {:induction false} ValueOfMore(w: Word, s: string, v: Word, sh: Sh)
    requires |w| == |s| && forall i :: 0 <= i < |w| ==> w[i].Ch? && w[i].c == s[i]
    ensures Value(w + v, sh, true) ==
      if Value(v, sh, true).None? then None else Some(s + Value(v, sh, true).value)
    decreases |w|
  {
    if w == [] {
      assert w + v == v;
      if Value(v, sh, true).Some? { assert s + Value(v, sh, true).value == Value(v, sh, true).value; }
    } else {
      ValueOfMore(w[1..], s[1..], v, sh);
      assert (w + v)[1..] == w[1..] + v;
      if Value(v, sh, true).Some? { assert s + Value(v, sh, true).value == [s[0]] + (s[1..] + Value(v, sh, true).value); }
    }
  }

  function TmpName(path: string, pid: string): (t: string) { path + (".gw-write." + pid) }

  lemma ValueOfTmpName(path: string, sh: Sh)
    ensures Value(TmpValue(path), sh, true) == Some(TmpName(path, sh.pid))
  {
    assert [Param("$", true)][1..] == [];
    assert sh.pid + "" == sh.pid;
    ValueOfMore(Letters(".gw-write."), ".gw-write.", [Param("$", true)], sh);
    ValueOfMore(Quoted(path), path, Letters(".gw-write.") + [Param("$", true)], sh);
  }

  lemma {:induction false} NameLenOf(s: string, w: Word)
    requires (forall i :: 0 <= i < |s| ==> NameChar(s[i])) && (w == [] || !w[0].Ch? || !NameChar(w[0].c))
    ensures NameLen(Letters(s) + w) == |s|
    decreases |s|
  {
    if s == "" {
      assert Letters(s) + w == w;
    } else {
      assert (Letters(s) + w)[1..] == Letters(s[1..]) + w;
      NameLenOf(s[1..], w);
    }
  }

  lemma NotAssigned(name: string)
    requires forall i :: 0 <= i < |name| ==> NameChar(name[i])
    ensures Assignment(Letters(name)) == None
  {
    NameLenOf(name, []);
    assert Letters(name) + [] == Letters(name);
  }

  lemma CharsOfLetters(name: string)
    ensures Chars(Letters(name)) == name
  {
  }

  lemma AssignedTo(name: string, v: Word)
    requires name != "" && !('0' <= name[0] <= '9') && forall i :: 0 <= i < |name| ==> NameChar(name[i])
    ensures Assignment(Letters(name) + ([Ch('=', true)] + v)) == Some((name, v))
  {
    var eq := [Ch('=', true)] + v;
    var w := Letters(name) + eq;
    assert eq[0] == Ch('=', true) && eq[1..] == v;
    NameLenOf(name, eq);
    CharsOfLetters(name);
    assert w[0] == Letters(name)[0] && w[|name|] == eq[0];
    assert w[..|name|] == Letters(name);
    assert w[|name| + 1..] == eq[1..];
  }

  // What the temporary file's name is put together from.
  function TmpValue(path: string): (v: Word) { Quoted(path) + (Letters(".gw-write.") + [Param("$", true)]) }

  lemma Regrouped(a: Word, b: Word, c: Word, d: Word, e: Word)
    ensures a + b + c + d + e == a + (b + (c + (d + e)))
  {
  }

  lemma TmpWordParts(path: string)
    ensures TmpWord(path) == Letters("tmp") + ([Ch('=', true)] + TmpValue(path))
  {
    Regrouped(Letters("tmp"), [Ch('=', true)], Quoted(path), Letters(".gw-write."), [Param("$", true)]);
  }

  lemma TmpIsAssigned(path: string)
    ensures Assignment(TmpWord(path)) == Some(("tmp", TmpValue(path)))
  {
    TmpWordParts(path);
    AssignedTo("tmp", TmpValue(path));
  }

  // ---- what lines do ----

  function Words(ws: seq<Word>, ts: seq<Token>): (all: seq<Token>) { if ws == [] then ts else [W(ws[0])] + Words(ws[1..], ts) }

  function Redirects(rs: seq<Redirect>): (ts: seq<Token>) {
    if rs == [] then [] else [O(rs[0].op), W(rs[0].file)] + Redirects(rs[1..])
  }

  lemma {:induction false} PartsOfRedirects(rs: seq<Redirect>)
    ensures Parts(Redirects(rs)) == Some(([], rs))
    decreases |rs|
  {
    if rs != [] {
      var ts := Redirects(rs);
      assert ts[2..] == Redirects(rs[1..]);
      PartsOfRedirects(rs[1..]);
      assert rs == [Redirect(rs[0].op, rs[0].file)] + rs[1..];
    }
  }

  lemma {:induction false} PartsOfLine(ws: seq<Word>, rs: seq<Redirect>)
    ensures Parts(Words(ws, Redirects(rs))) == Some((ws, rs))
    decreases |ws|
  {
    if ws == [] {
      PartsOfRedirects(rs);
    } else {
      var ts := Words(ws, Redirects(rs));
      assert ts[1..] == Words(ws[1..], Redirects(rs));
      PartsOfLine(ws[1..], rs);
      assert ws == [ws[0]] + ws[1..];
    }
  }

  // A line of a command's name, its words and its redirections.
  lemma StepIsCommand(name: string, ws: seq<Word>, args: seq<string>, rs: seq<Redirect>, sh: Sh)
    requires Assignment(Letters(name)) == None && Args(ws, sh) == Some(args)
    ensures Step(Words([Letters(name)] + ws, Redirects(rs)), sh) == Command([name] + args, rs, sh)
  {
    PartsOfLine([Letters(name)] + ws, rs);
    ValueOfName(name, sh);
    assert ([Letters(name)] + ws)[1..] == ws;
  }

  lemma OneArg(w: Word, a: string, sh: Sh)
    requires Value(w, sh, false) == Some(a)
    ensures Args([w], sh) == Some([a])
  {
    assert [w][1..] == [] && [a] + [] == [a];
  }

  lemma TwoArgs(w: Word, a: string, v: Word, b: string, sh: Sh)
    requires Value(w, sh, false) == Some(a) && Value(v, sh, false) == Some(b)
    ensures Args([w, v], sh) == Some([a, b])
  {
    OneArg(v, b, sh);
    assert [w, v][1..] == [v] && [a] + [b] == [a, b];
  }

  lemma WordsStep(w: Word, ws: seq<Word>, ts: seq<Token>)
    ensures Words([w] + ws, ts) == [W(w)] + Words(ws, ts)
  {
    assert ([w] + ws)[1..] == ws;
  }

  lemma TokensStep(i: Item, items: seq<Item>)
    ensures TokensOf([i] + items) == [TokenOf(i)] + TokensOf(items)
  {
    assert ([i] + items)[1..] == items;
  }

  lemma ThreeTokens(a: Item, b: Item, c: Item)
    requires a.Text? && b.Text? && c.Text?
    ensures TokensOf([a, b, c]) == Words([a.word] + [b.word, c.word], Redirects([]))
  {
    TokensStep(a, [b, c]);
    TokensStep(b, [c]);
    TokensStep(c, []);
    WordsStep(a.word, [b.word, c.word], []);
    WordsStep(b.word, [c.word], []);
    WordsStep(c.word, [], []);
    assert [a] + [b, c] == [a, b, c] && [b] + [c] == [b, c] && [c] + [] == [c];
    assert [b.word] + [c.word] == [b.word, c.word] && [c.word] + [] == [c.word];
  }

  // A command with two arguments.
  lemma StepThree(name: string, b: Item, c: Item, x: string, y: string, sh: Sh)
    requires Assignment(Letters(name)) == None && b.Text? && c.Text?
    requires Value(b.word, sh, false) == Some(x) && Value(c.word, sh, false) == Some(y)
    ensures Step(TokensOf([Name(name), b, c]), sh) == Command([name, x, y], [], sh)
  {
    TwoArgs(b.word, x, c.word, y, sh);
    StepIsCommand(name, [b.word, c.word], [x, y], [], sh);
    ThreeTokens(Name(name), b, c);
    assert [name] + [x, y] == [name, x, y];
  }

  lemma StepTwo(name: string, b: Item, x: string, sh: Sh)
    requires Assignment(Letters(name)) == None && b.Text? && Value(b.word, sh, false) == Some(x)
    ensures Step(TokensOf([Name(name), b]), sh) == Command([name, x], [], sh)
  {
    OneArg(b.word, x, sh);
    StepIsCommand(name, [b.word], [x], [], sh);
    TokensStep(Name(name), [b]);
    TokensStep(b, []);
    WordsStep(Letters(name), [b.word], []);
    WordsStep(b.word, [], []);
    assert [Name(name)] + [b] == [Name(name), b] && [b] + [] == [b] && [b.word] + [] == [b.word];
    assert [name] + [x] == [name, x];
  }

  lemma StepSet(sh: Sh)
    ensures Step(TokensOf(SetLine()), sh) == Command(["set", "-eu"], [], sh)
  {
    NotAssigned("set");
    ValueOfName("-eu", sh);
    StepTwo("set", Name("-eu"), "-eu", sh);
  }

  lemma StepDir(path: string, sh: Sh)
    ensures Step(TokensOf(DirLine(path)), sh) == Command(["mkdir", "-p", PosixDirname(path)], [], sh)
  {
    NotAssigned("mkdir");
    ValueOfName("-p", sh);
    ValueOfArg(PosixDirname(path), sh);
    StepThree("mkdir", Name("-p"), Arg(PosixDirname(path)), "-p", PosixDirname(path), sh);
  }

  lemma StepTmp(path: string, sh: Sh)
    ensures Step(TokensOf(TmpLine(path)), sh) == Outcome(sh.(vars := sh.vars["tmp" := TmpName(path, sh.pid)]), true)
  {
    TmpIsAssigned(path);
    ValueOfTmpName(path, sh);
    StepAssigns("tmp=" + ShQuote(path) + ".gw-write.$$", TmpWord(path), "tmp", TmpValue(path), TmpName(path, sh.pid), sh);
  }

  lemma StepAssigns(text: string, w: Word, name: string, v: Word, x: string, sh: Sh)
    requires Assignment(w) == Some((name, v)) && Value(v, sh, true) == Some(x)
    ensures Step(TokensOf([Text(text, w)]), sh) == Outcome(sh.(vars := sh.vars[name := x]), true)
  {
    PartsOfLine([w], []);
    TokensStep(Text(text, w), []);
    WordsStep(w, [], []);
    assert [Text(text, w)] + [] == [Text(text, w)] && [w] + [] == [w];
  }

  lemma StepTrapFor(v: string, sh: Sh)
    ensures Step(TokensOf([Name("trap"), Arg(v), Name("EXIT")]), sh) == Command(["trap", v, "EXIT"], [], sh)
  {
    NotAssigned("trap");
    ValueOfArg(v, sh);
    ValueOfName("EXIT", sh);
    StepThree("trap", Arg(v), Name("EXIT"), v, "EXIT", sh);
  }

  lemma StepClean(sh: Sh)
    requires "tmp" in sh.vars
    ensures Step(TokensOf(CleanLine()), sh) == Command(["rm", "-f", sh.vars["tmp"]], [], sh)
  {
    NotAssigned("rm");
    ValueOfName("-f", sh);
    ValueOfTmp(sh);
    StepThree("rm", Name("-f"), TMP, "-f", sh.vars["tmp"], sh);
  }

  lemma OneRedirect(op: Op, f: Item)
    requires f.Text?
    ensures TokensOf([Mark(op), f]) == Redirects([Redirect(op, f.word)])
  {
    TokensStep(Mark(op), [f]);
    TokensStep(f, []);
    assert [Mark(op)] + [f] == [Mark(op), f] && [f] + [] == [f];
    assert [Redirect(op, f.word)][1..] == [];
  }

  lemma TwoRedirects(op: Op, f: Item, more: Op, g: Item)
    requires f.Text? && g.Text?
    ensures TokensOf([Mark(op), f, Mark(more), g]) == Redirects([Redirect(op, f.word), Redirect(more, g.word)])
  {
    TokensStep(Mark(op), [f, Mark(more), g]);
    TokensStep(f, [Mark(more), g]);
    OneRedirect(more, g);
    assert [Mark(op)] + [f, Mark(more), g] == [Mark(op), f, Mark(more), g] && [f] + [Mark(more), g] == [f, Mark(more), g];
    assert [Redirect(op, f.word), Redirect(more, g.word)][1..] == [Redirect(more, g.word)];
  }

  lemma StepAlone(name: string, op: Op, f: Item, sh: Sh)
    requires Assignment(Letters(name)) == None && f.Text?
    ensures Step(TokensOf([Name(name), Mark(op), f]), sh) == Command([name], [Redirect(op, f.word)], sh)
  {
    var rs := [Redirect(op, f.word)];
    StepIsCommand(name, [], [], rs, sh);
    TokensStep(Name(name), [Mark(op), f]);
    OneRedirect(op, f);
    WordsStep(Letters(name), [], Redirects(rs));
    assert [Name(name)] + [Mark(op), f] == [Name(name), Mark(op), f];
    assert [name] + [] == [name];
  }

  lemma StepInto(name: string, b: Item, c: Item, x: string, y: string, op: Op, f: Item, sh: Sh)
    requires Assignment(Letters(name)) == None && b.Text? && c.Text? && f.Text?
    requires Value(b.word, sh, false) == Some(x) && Value(c.word, sh, false) == Some(y)
    ensures Step(TokensOf([Name(name), b, c, Mark(op), f]), sh) == Command([name, x, y], [Redirect(op, f.word)], sh)
  {
    var rs, items := [Redirect(op, f.word)], [Mark(op), f];
    TwoArgs(b.word, x, c.word, y, sh);
    StepIsCommand(name, [b.word, c.word], [x, y], rs, sh);
    TokensStep(Name(name), [b, c] + items);
    TokensStep(b, [c] + items);
    TokensStep(c, items);
    OneRedirect(op, f);
    WordsStep(Letters(name), [b.word, c.word], Redirects(rs));
    WordsStep(b.word, [c.word], Redirects(rs));
    WordsStep(c.word, [], Redirects(rs));
    assert [Name(name)] + ([b, c] + items) == [Name(name), b, c, Mark(op), f];
    assert [b] + ([c] + items) == [b, c] + items;
    assert [b.word] + [c.word] == [b.word, c.word] && [c.word] + [] == [c.word] && [name] + [x, y] == [name, x, y];
  }

  lemma StepThrough(name: string, b: Item, x: string, op: Op, f: Item, more: Op, g: Item, sh: Sh)
    requires Assignment(Letters(name)) == None && b.Text? && f.Text? && g.Text? && Value(b.word, sh, false) == Some(x)
    ensures Step(TokensOf([Name(name), b, Mark(op), f, Mark(more), g]), sh) == Command([name, x], [Redirect(op, f.word), Redirect(more, g.word)], sh)
  {
    var rs, items := [Redirect(op, f.word), Redirect(more, g.word)], [Mark(op), f, Mark(more), g];
    OneArg(b.word, x, sh);
    StepIsCommand(name, [b.word], [x], rs, sh);
    TokensStep(Name(name), [b] + items);
    TokensStep(b, items);
    TwoRedirects(op, f, more, g);
    WordsStep(Letters(name), [b.word], Redirects(rs));
    WordsStep(b.word, [], Redirects(rs));
    assert [Name(name)] + ([b] + items) == [Name(name), b, Mark(op), f, Mark(more), g];
    assert [b.word] + [] == [b.word] && [name] + [x] == [name, x];
  }

  lemma NoWordAssigned()
    ensures Assignment(Letters(":")) == None
  {
    assert Letters(":")[0] == Ch(':', true);
  }

  lemma StepEmpty(sh: Sh)
    ensures Step(TokensOf(EmptyLine()), sh) == Command([":"], [Redirect(Into, TMP.word)], sh)
  {
    NoWordAssigned();
    StepAlone(":", Into, TMP, sh);
  }

  lemma StepSlice(slice: string, sh: Sh)
    ensures Step(TokensOf(SliceLine(slice)), sh) == Command(["printf", "%s", slice], [Redirect(Onto, TMP.word)], sh)
  {
    NotAssigned("printf");
    ValueOfName("%s", sh);
    ValueOfArg(slice, sh);
    StepInto("printf", Name("%s"), Arg(slice), "%s", slice, Onto, TMP, sh);
  }

  lemma StepDecode(path: string, sh: Sh)
    ensures Step(TokensOf(DecodeLine(path)), sh) ==
      Command(["base64", "-d"], [Redirect(From, TMP.word), Redirect(Into, Quoted(path))], sh)
  {
    NotAssigned("base64");
    ValueOfName("-d", sh);
    StepThrough("base64", Name("-d"), "-d", From, TMP, Into, Arg(path), sh);
  }
}
