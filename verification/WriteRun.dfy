/** What running a write script leaves: the file's bytes, exactly. */
module WriteRun {
  import opened Wrappers
  import opened Base64
  import opened Shell
  import opened ShellRun
  import opened WriteScript
  import opened WriteLines
  import opened WriteSteps

  // ---- what the commands do ----

  function WithFile(sh: Sh, f: string, text: seq<int>): (t: Sh) { sh.(fs := sh.fs.(files := sh.fs.files[f := text])) }

  lemma DoSet(sh: Sh)
    ensures Command(["set", "-eu"], [], sh) == Outcome(sh.(errexit := true, nounset := true), true)
  {
  }

  lemma DoDir(d: string, sh: Sh)
    ensures Command(["mkdir", "-p", d], [], sh) == Outcome(MakeDirs(sh, d).sh, MakeDirs(sh, d).ok)
  {
  }

  lemma DoTrap(v: string, sh: Sh)
    ensures Command(["trap", v, "EXIT"], [], sh) == Outcome(sh.(trap := Some(v)), true)
  {
  }

  lemma OpenOne(o: Opened, op: Op, w: Word, f: string, sh: Sh)
    requires Value(w, sh, false) == Some(f)
    ensures OpenAll(o, [Redirect(op, w)], sh) == Open(o, op, f)
  {
    assert [Redirect(op, w)][1..] == [];
  }

  lemma DoEmpty(sh: Sh, t: string)
    requires "tmp" in sh.vars && sh.vars["tmp"] == t
    ensures Command([":"], [Redirect(Into, TMP.word)], sh) ==
      if CanWrite(sh.fs, t) then Outcome(WithFile(sh, t, []), true) else Outcome(sh, false)
  {
    ValueOfTmp(sh);
    OpenOne(Opened(sh.fs, None, None), Into, TMP.word, t, sh);
    var empty: seq<int> := [];
    assert empty + [] == empty;
  }

  lemma DoSlice(x: string, sh: Sh, t: string)
    requires "tmp" in sh.vars && sh.vars["tmp"] == t && t in sh.fs.files && CanWrite(sh.fs, t)
    ensures Command(["printf", "%s", x], [Redirect(Onto, TMP.word)], sh) == Outcome(WithFile(sh, t, sh.fs.files[t] + Codes(x)), true)
  {
    ValueOfTmp(sh);
    OpenOne(Opened(sh.fs, None, None), Onto, TMP.word, t, sh);
  }

  lemma OpenBoth(path: string, sh: Sh, t: string)
    requires "tmp" in sh.vars && sh.vars["tmp"] == t && t in sh.fs.files
    ensures OpenAll(Opened(sh.fs, None, None), [Redirect(From, TMP.word), Redirect(Into, Quoted(path))], sh) ==
      Open(Opened(sh.fs, Some(t), None), Into, path)
  {
    var rs := [Redirect(From, TMP.word), Redirect(Into, Quoted(path))];
    ValueOfTmp(sh);
    ValueOfArg(path, sh);
    assert rs[1..] == [Redirect(Into, Quoted(path))];
    OpenOne(Opened(sh.fs, Some(t), None), Into, Quoted(path), path, sh);
  }

  lemma NothingBefore(content: seq<int>)
    ensures [] + content == content
  {
  }

  lemma DoDecode(path: string, sh: Sh, t: string, content: seq<Byte>)
    requires "tmp" in sh.vars && sh.vars["tmp"] == t && t in sh.fs.files && t != path
    requires Decode(sh.fs.files[t]) == Some(content)
    ensures Command(["base64", "-d"], [Redirect(From, TMP.word), Redirect(Into, Quoted(path))], sh) ==
      if CanWrite(sh.fs, path) then Outcome(WithFile(sh, path, content), true) else Outcome(sh, false)
  {
    OpenBoth(path, sh, t);
    DecodeInto(path, sh, t, content, [Redirect(From, TMP.word), Redirect(Into, Quoted(path))]);
  }

  lemma DecodeInto(path: string, sh: Sh, t: string, content: seq<Byte>, rs: seq<Redirect>)
    requires t in sh.fs.files && t != path && Decode(sh.fs.files[t]) == Some(content)
    requires OpenAll(Opened(sh.fs, None, None), rs, sh) == Open(Opened(sh.fs, Some(t), None), Into, path)
    ensures Command(["base64", "-d"], rs, sh) ==
      if CanWrite(sh.fs, path) then Outcome(WithFile(sh, path, content), true) else Outcome(sh, false)
  {
    NothingBefore(content);
  }

  // ---- all the lines ----

  function SliceTokens(slices: seq<string>): (tss: seq<seq<Token>>) {
    if slices == [] then [] else [TokensOf(SliceLine(slices[0]))] + SliceTokens(slices[1..])
  }

  // The lines that print the slices, then the one that decodes them.
  function Tail(path: string, slices: seq<string>): (tss: seq<seq<Token>>) { SliceTokens(slices) + [TokensOf(DecodeLine(path))] }

  function AllTokens(path: string, slices: seq<string>): (tss: seq<seq<Token>>) {
    [TokensOf(SetLine())] + ([TokensOf(DirLine(path))] + ([TokensOf(TmpLine(path))] +
    ([TokensOf(TrapLine())] + ([TokensOf(EmptyLine())] + Tail(path, slices)))))
  }

  lemma MoreSteps(ts: seq<Token>, rest: seq<seq<Token>>, sh: Sh)
    requires rest != []
    ensures Steps([ts] + rest, sh) == if !Step(ts, sh).ok && Step(ts, sh).sh.errexit then Step(ts, sh) else Steps(rest, Step(ts, sh).sh)
  {
    assert ([ts] + rest)[1..] == rest;
  }

  // The temporary file is there, and the shell knows its name.
  predicate HasTmp(sh: Sh, t: string) {
    "tmp" in sh.vars && sh.vars["tmp"] == t && t in sh.fs.files && CanWrite(sh.fs, t)
  }

  lemma TailStep(path: string, x: string, rest: seq<string>)
    ensures Tail(path, [x] + rest) == [TokensOf(SliceLine(x))] + Tail(path, rest)
  {
    assert ([x] + rest)[1..] == rest;
  }

  lemma WrittenTwice(sh: Sh, f: string, a: seq<int>, b: seq<int>)
    ensures WithFile(WithFile(sh, f, a), f, b) == WithFile(sh, f, b)
  {
  }

  lemma Written(sh: Sh, f: string)
    requires f in sh.fs.files
    ensures WithFile(sh, f, sh.fs.files[f] + Codes("")) == sh
  {
    assert sh.fs.files[f] + Codes("") == sh.fs.files[f];
  }

  lemma PrintedBoth(sh: Sh, t: string, was: seq<int>, x: string, more: string)
    ensures WithFile(WithFile(sh, t, was + Codes(x)), t, was + Codes(x) + Codes(more)) == WithFile(sh, t, was + Codes(x + more))
  {
    assert was + Codes(x) + Codes(more) == was + Codes(x + more);
    WrittenTwice(sh, t, was + Codes(x), was + Codes(x + more));
  }

  lemma {:induction false} SlicesRun(path: string, slices: seq<string>, sh: Sh, t: string)
    requires HasTmp(sh, t)
    ensures Steps(Tail(path, slices), sh) == Steps(Tail(path, []), WithFile(sh, t, sh.fs.files[t] + Codes(Concat(slices))))
    decreases |slices|
  {
    if slices == [] {
      Written(sh, t);
    } else {
      var x, rest, was := slices[0], slices[1..], sh.fs.files[t];
      assert slices == [x] + rest;
      SlicesRun(path, rest, WithFile(sh, t, was + Codes(x)), t);
      PrintedBoth(sh, t, was, x, Concat(rest));
      TailStep(path, x, rest);
      MoreSteps(TokensOf(SliceLine(x)), Tail(path, rest), sh);
      StepSlice(x, sh);
      DoSlice(x, sh, t);
    }
  }

  // The shell once the directory is made and the clean-up is set.
  function Prepared(sh: Sh, path: string): (t: Sh) {
    sh.(errexit := true, nounset := true, fs := sh.fs.(dirs := sh.fs.dirs + Prefixes(PosixDirname(path))),
        vars := sh.vars["tmp" := TmpName(path, sh.pid)], trap := Some(CLEAN_UP))
  }

  predicate DirFits(fs: Fs, d: string) { d != "" && !LooksLikeOption(d) && Prefixes(d) !! fs.files.Keys }

  lemma HeadRuns(path: string, slices: seq<string>, sh: Sh)
    ensures var body := [TokensOf(EmptyLine())] + Tail(path, slices);
      Steps(AllTokens(path, slices), sh) ==
        if DirFits(sh.fs, PosixDirname(path)) then Steps(body, Prepared(sh, path)) else Outcome(sh.(errexit := true, nounset := true), false)
  {
    var body := [TokensOf(EmptyLine())] + Tail(path, slices);
    var d := PosixDirname(path);
    var sh1 := sh.(errexit := true, nounset := true);
    StepSet(sh);
    DoSet(sh);
    MoreSteps(TokensOf(SetLine()), [TokensOf(DirLine(path))] + ([TokensOf(TmpLine(path))] + ([TokensOf(TrapLine())] + body)), sh);
    StepDir(path, sh1);
    DoDir(d, sh1);
    MoreSteps(TokensOf(DirLine(path)), [TokensOf(TmpLine(path))] + ([TokensOf(TrapLine())] + body), sh1);
    if DirFits(sh.fs, d) {
      var sh2 := MakeDirs(sh1, d).sh;
      var sh3 := sh2.(vars := sh2.vars["tmp" := TmpName(path, sh.pid)]);
      StepTmp(path, sh2);
      MoreSteps(TokensOf(TmpLine(path)), [TokensOf(TrapLine())] + body, sh2);
      StepTrapFor(CLEAN_UP, sh3);
      DoTrap(CLEAN_UP, sh3);
      MoreSteps(TokensOf(TrapLine()), body, sh3);
      assert sh3.(trap := Some(CLEAN_UP)) == Prepared(sh, path);
    }
  }

  // The file emptied, printed to and decoded.
  lemma BodyRuns(path: string, content: seq<Byte>, size: nat, sh: Sh, t: string)
    requires size > 0 && sh.errexit && "tmp" in sh.vars && sh.vars["tmp"] == t && t != path
    ensures var o := Steps([TokensOf(EmptyLine())] + Tail(path, Slices(Encode(content), size)), sh);
      var printed := WithFile(sh, t, Codes(Encode(content)));
      if !CanWrite(sh.fs, t) then o == Outcome(sh, false)
      else if !CanWrite(sh.fs, path) then o == Outcome(printed, false)
      else o == Outcome(WithFile(printed, path, content), true)
  {
    var text := Encode(content);
    StepEmpty(sh);
    DoEmpty(sh, t);
    MoreSteps(TokensOf(EmptyLine()), Tail(path, Slices(text, size)), sh);
    if CanWrite(sh.fs, t) {
      SlicesRun(path, Slices(text, size), WithFile(sh, t, []), t);
      SlicesAreTheText(text, size);
      NothingBefore(Codes(text));
      WrittenTwice(sh, t, [], Codes(text));
      var printed := WithFile(sh, t, Codes(text));
      DecodeOfEncode(content);
      assert Tail(path, []) == [TokensOf(DecodeLine(path))];
      StepDecode(path, printed);
      DoDecode(path, printed, t, content);
    }
  }

  // ---- the text of the script ----

  lemma ParseMore(l: string, ts: seq<Token>, ls: seq<string>, tss: seq<seq<Token>>)
    requires l != "" && Parses(l, ts) && AllParse(ls, tss)
    ensures AllParse([l] + ls, [ts] + tss)
  {
  }

  lemma {:induction false} NoNulInEncoding(b: seq<Byte>)
    ensures '\0' !in Encode(b)
    decreases |b|
  {
    forall n: Sextet ensures Symbol(n) != '\0' {}
    if |b| > 2 { NoNulInEncoding(b[3..]); }
  }

  // The texts of the lines that print the slices and decode them.
  function TailLines(path: string, slices: seq<string>): (ls: seq<string>) { PrintLines(slices) + [Last(path)] }

  lemma TailLinesStep(path: string, x: string, rest: seq<string>)
    ensures TailLines(path, [x] + rest) == [PrintLine(x)] + TailLines(path, rest)
  {
    assert ([x] + rest)[1..] == rest;
  }

  lemma {:induction false} TailParses(path: string, slices: seq<string>)
    requires '\0' !in path && '\0' !in Concat(slices)
    ensures AllParse(TailLines(path, slices), Tail(path, slices))
    decreases |slices|
  {
    if slices == [] {
      LastParses(path);
      assert TailLines(path, []) == [Last(path)];
      assert Tail(path, []) == [TokensOf(DecodeLine(path))];
    } else {
      var x, rest := slices[0], slices[1..];
      assert slices == [x] + rest;
      TailParses(path, rest);
      SliceParses(x);
      ParseMore(PrintLine(x), TokensOf(SliceLine(x)), TailLines(path, rest), Tail(path, rest));
      TailStep(path, x, rest);
      TailLinesStep(path, x, rest);
    }
  }

  lemma {:induction false} TrimmedHolds(p: string)
    ensures forall c :: c in Trimmed(p) ==> c in p
    decreases |p|
  {
    if p != "" && p[|p| - 1] == '/' { TrimmedHolds(p[..|p| - 1]); }
  }

  lemma DirnameHolds(p: string)
    requires '\0' !in p
    ensures '\0' !in PosixDirname(p)
  {
    TrimmedHolds(p);
  }

  ghost predicate LineOk(l: string, ts: seq<Token>) { l != "" && Parses(l, ts) }

  lemma FiveMore(a: string, b: string, c: string, d: string, e: string, ls: seq<string>,
                 p: seq<Token>, q: seq<Token>, r: seq<Token>, s: seq<Token>, t: seq<Token>, tss: seq<seq<Token>>)
    requires LineOk(a, p) && LineOk(b, q) && LineOk(c, r) && LineOk(d, s) && LineOk(e, t) && AllParse(ls, tss)
    ensures AllParse([a, b, c, d, e] + ls, [p] + ([q] + ([r] + ([s] + ([t] + tss)))))
  {
    ParseMore(e, t, ls, tss);
    ParseMore(d, s, [e] + ls, [t] + tss);
    ParseMore(c, r, [d] + ([e] + ls), [s] + ([t] + tss));
    ParseMore(b, q, [c] + ([d] + ([e] + ls)), [r] + ([s] + ([t] + tss)));
    ParseMore(a, p, [b] + ([c] + ([d] + ([e] + ls))), [q] + ([r] + ([s] + ([t] + tss))));
    assert [a, b, c, d, e] + ls == [a] + ([b] + ([c] + ([d] + ([e] + ls))));
  }

  lemma ScriptParses(path: string, content: seq<Byte>, size: nat)
    requires '\0' !in path && size > 0
    ensures AllParse(ScriptLines(path, content, size), AllTokens(path, Slices(Encode(content), size)))
  {
    var slices, h := Slices(Encode(content), size), Head(path);
    NoNulInEncoding(content);
    SlicesAreTheText(Encode(content), size);
    TailParses(path, slices);
    SetParses();
    DirnameHolds(path);
    DirParses(path);
    TmpLineParses(path);
    TrapParses();
    EmptyParses();
    FiveMore(h[0], h[1], h[2], h[3], h[4], TailLines(path, slices), TokensOf(SetLine()), TokensOf(DirLine(path)), TokensOf(TmpLine(path)),
             TokensOf(TrapLine()), TokensOf(EmptyLine()), Tail(path, slices));
    LinesRegrouped(h, PrintLines(slices), Last(path));
  }

  lemma LinesRegrouped(h: seq<string>, ls: seq<string>, l: string)
    requires |h| == 5
    ensures h + ls + [l] == [h[0], h[1], h[2], h[3], h[4]] + (ls + [l])
  {
  }

  // ---- what a run leaves ----

  predicate IsNumber(s: string) { s != "" && forall c :: c in s ==> '0' <= c <= '9' }

  /** The path names a file that can be made: it is not empty, does not end in a
      slash, and its directory is not taken for an option; nothing on the way to
      it is a file; and neither it nor the temporary file beside it is a
      directory. */
  predicate Fits(fs: Fs, path: string, pid: string) {
    var d := PosixDirname(path);
    && path != "" && path[|path| - 1] != '/' && !LooksLikeOption(d)
    && Prefixes(d) !! fs.files.Keys
    && path !in fs.dirs + Prefixes(d) && TmpName(path, pid) !in fs.dirs + Prefixes(d)
  }

  lemma LastSlashIs(p: string, i: nat)
    requires i <= |p| && (i < |p| ==> p[i] == '/') && forall k :: 0 <= k < |p| && (k > i || i == |p|) ==> p[k] != '/'
    ensures LastSlash(p) == i
  {
  }

  // The temporary file is beside the file.
  lemma TmpIsBeside(path: string, pid: string)
    requires path != "" && path[|path| - 1] != '/' && IsNumber(pid)
    ensures PosixDirname(path) == Parent(path) == Parent(TmpName(path, pid)) != ""
  {
    var t, i := TmpName(path, pid), LastSlash(path);
    assert forall k :: |path| <= k < |t| ==> t[k] != '/' by {
      assert forall k :: 0 <= k < |pid| ==> pid[k] in pid;
    }
    LastSlashIs(t, if i == |path| then |t| else i);
  }

  lemma FitsIsWritable(sh: Sh, path: string)
    requires IsNumber(sh.pid)
    ensures var fs := Prepared(sh, path).fs;
      Fits(sh.fs, path, sh.pid) <==>
        DirFits(sh.fs, PosixDirname(path)) && CanWrite(fs, TmpName(path, sh.pid)) && CanWrite(fs, path)
  {
    if path != "" && path[|path| - 1] != '/' {
      TmpIsBeside(path, sh.pid);
      var t := TmpName(path, sh.pid);
      assert sh.pid[|sh.pid| - 1] in sh.pid;
      assert t[|t| - 1] == sh.pid[|sh.pid| - 1];
    }
  }

  lemma CleanUpRuns(sh: Sh, t: string)
    requires "tmp" in sh.vars && sh.vars["tmp"] == t
    ensures Exec(CLEAN_UP, sh).sh == Remove(sh, t).sh
  {
    CleanUpParses();
    LastLine(CLEAN_UP, TokensOf(CleanLine()), sh);
    StepClean(sh);
  }

  // The files but the temporary one, which a path like an option leaves behind.
  function Cleaned(files: map<string, seq<int>>, path: string, t: string): (m: map<string, seq<int>>) {
    if path != "" && path[0] == '-' then files else files - {t}
  }

  // How the lines end, before the clean-up.
  function Ending(path: string, content: seq<Byte>, sh: Sh): (o: Outcome) {
    var t, ready := TmpName(path, sh.pid), Prepared(sh, path);
    var printed := WithFile(ready, t, Codes(Encode(content)));
    if !DirFits(sh.fs, PosixDirname(path)) then Outcome(sh.(errexit := true, nounset := true), false)
    else if !CanWrite(ready.fs, t) then Outcome(ready, false)
    else if !CanWrite(ready.fs, path) then Outcome(printed, false)
    else Outcome(WithFile(printed, path, content), true)
  }

  lemma LinesEnd(path: string, content: seq<Byte>, size: nat, sh: Sh)
    requires '\0' !in path && size > 0
    ensures Exec(Joined(ScriptLines(path, content, size)), sh) == Ending(path, content, sh)
  {
    ScriptParses(path, content, size);
    ExecIsSteps(ScriptLines(path, content, size), AllTokens(path, Slices(Encode(content), size)), sh);
    HeadRuns(path, Slices(Encode(content), size), sh);
    BodyRuns(path, content, size, Prepared(sh, path), TmpName(path, sh.pid));
  }

  /** Run by a fresh shell, the script succeeds exactly when the path fits, and
      then the file holds exactly the content's bytes, whatever they are and
      however finely the encoding was cut; the temporary file is gone (unless
      the path looks like an option), and every other file is as it was. */
  lemma WritesExactly(path: string, content: seq<Byte>, size: nat, sh: Sh)
    requires '\0' !in path && size > 0 && sh.trap.None? && IsNumber(sh.pid)
    ensures var o, t := Script(Joined(ScriptLines(path, content, size)), sh), TmpName(path, sh.pid);
      && (o.ok <==> Fits(sh.fs, path, sh.pid))
      && (o.ok ==> o.sh.fs.files == Cleaned(sh.fs.files[t := Codes(Encode(content))][path := content], path, t))
  {
    var o := Ending(path, content, sh);
    LinesEnd(path, content, size, sh);
    FitsIsWritable(sh, path);
    if o.ok {
      var t := TmpName(path, sh.pid);
      CleanUpRuns(o.sh.(trap := None), t);
      assert t[0] == path[0] && |t| > 1;
    }
  }

  /** And when it fails, every file but the temporary one is as it was: the
      target is never left half written. */
  lemma FailingWritesNothing(path: string, content: seq<Byte>, size: nat, sh: Sh)
    requires '\0' !in path && size > 0 && sh.trap.None?
    requires !Script(Joined(ScriptLines(path, content, size)), sh).ok
    ensures var t := TmpName(path, sh.pid);
      Script(Joined(ScriptLines(path, content, size)), sh).sh.fs.files - {t} == sh.fs.files - {t}
  {
    var o, t := Ending(path, content, sh), TmpName(path, sh.pid);
    LinesEnd(path, content, size, sh);
    if o.sh.trap.Some? { CleanUpRuns(o.sh.(trap := None), t); }
  }
}
