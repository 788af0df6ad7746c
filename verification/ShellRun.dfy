/** What the lines a write script uses do to the files (POSIX Shell Command
    Language; the utilities as POSIX has them, and base64 -d). Paths are
    compared as they are written: no links, and no two spellings of one file. */
module ShellRun {
  import opened Wrappers
  import opened Base64
  import opened Shell

  datatype Fs = Fs(files: map<string, seq<int>>, dirs: set<string>)

  // `pid` is the shell's own number; `trap` what it runs on its way out.
  datatype Sh = Sh(fs: Fs, vars: map<string, string>, pid: string, trap: Option<string>, errexit: bool, nounset: bool)

  datatype Outcome = Outcome(sh: Sh, ok: bool)

  // ---- paths ----

  // Where the last slash is, or the length when there is none.
  function LastSlash(p: string): (i: nat)
    ensures i <= |p| && (i < |p| ==> p[i] == '/') && forall k :: 0 <= k < |p| && (k > i || i == |p|) ==> p[k] != '/'
    decreases |p|
  {
    if p == "" then 0
    else if p[|p| - 1] == '/' then |p| - 1
    else
      var i := LastSlash(p[..|p| - 1]);
      if i == |p| - 1 then |p| else i
  }

  // The directory a file is in.
  function Parent(p: string): (d: string) {
    var i := LastSlash(p);
    if i == |p| then "." else if i == 0 then "/" else p[..i]
  }

  // The directory itself and those on the way to it.
  function Prefixes(d: string): (ps: set<string>)
    ensures d != "" ==> d in ps
  {
    assert d[..|d|] == d;
    set i | 0 < i <= |d| && (i == |d| || d[i] == '/') :: d[..i]
  }

  predicate CanWrite(fs: Fs, f: string) { f != "" && f[|f| - 1] != '/' && f !in fs.dirs && Parent(f) in fs.dirs }

  // An operand that a utility takes for an option.
  predicate LooksLikeOption(a: string) { |a| > 1 && a[0] == '-' }

  // ---- words to arguments ----

  // A parameter outside quotes would be split into fields: not covered, except
  // in an assignment, where nothing is.
  function Value(w: Word, sh: Sh, assigning: bool): (v: Option<string>) {
    if w == [] then Some("")
    else
      var rest := Value(w[1..], sh, assigning);
      if rest.None? then None
      else match w[0]
        case Ch(c, _) => Some([c] + rest.value)
        case Param(name, bare) =>
          if bare && !assigning then None
          else if name == "$" then Some(sh.pid + rest.value)
          else if name in sh.vars then Some(sh.vars[name] + rest.value)
          else if sh.nounset then None
          else rest
  }

  function NameLen(w: Word): (n: nat)
    ensures n <= |w| && forall i :: 0 <= i < n ==> w[i].Ch?
  {
    if w != [] && w[0].Ch? && w[0].bare && NameChar(w[0].c) then 1 + NameLen(w[1..]) else 0
  }

  function Chars(w: Word): (s: string)
    requires forall i :: 0 <= i < |w| ==> w[i].Ch?
  {
    seq(|w|, i requires 0 <= i < |w| => w[i].c)
  }

  // name=value, the name and the sign without quotes.
  function Assignment(w: Word): (a: Option<(string, Word)>) {
    var n := NameLen(w);
    if n > 0 && n < |w| && w[n] == Ch('=', true) && !('0' <= w[0].c <= '9') then Some((Chars(w[..n]), w[n + 1..])) else None
  }

  datatype Redirect = Redirect(op: Op, file: Word)

  // The words of a line, and where its input and output go.
  function Parts(ts: seq<Token>): (p: Option<(seq<Word>, seq<Redirect>)>) {
    if ts == [] then Some(([], []))
    else if ts[0].W? then
      var rest := Parts(ts[1..]);
      if rest.None? then None else Some(([ts[0].word] + rest.value.0, rest.value.1))
    else if |ts| < 2 || !ts[1].W? then None
    else
      var rest := Parts(ts[2..]);
      if rest.None? then None else Some((rest.value.0, [Redirect(ts[0].op, ts[1].word)] + rest.value.1))
  }

  function Args(ws: seq<Word>, sh: Sh): (args: Option<seq<string>>) {
    if ws == [] then Some([])
    else
      var first, rest := Value(ws[0], sh, false), Args(ws[1..], sh);
      if first.None? || rest.None? then None else Some([first.value] + rest.value)
  }

  // ---- redirections and commands ----

  // The files once io, what is read from and what is written to.
  datatype Opened = Opened(fs: Fs, input: Option<string>, output: Option<string>)

  function Open(o: Opened, op: Op, f: string): (r: Option<Opened>) {
    match op
    case From => if f in o.fs.files then Some(o.(input := Some(f))) else None
    case Into =>
      if CanWrite(o.fs, f) then Some(o.(fs := o.fs.(files := o.fs.files[f := []]), output := Some(f))) else None
    case Onto =>
      if !CanWrite(o.fs, f) then None
      else Some(o.(fs := if f in o.fs.files then o.fs else o.fs.(files := o.fs.files[f := []]), output := Some(f)))
  }

  function OpenAll(o: Opened, rs: seq<Redirect>, sh: Sh): (r: Option<Opened>)
    decreases |rs|
  {
    if rs == [] then Some(o)
    else
      var f := Value(rs[0].file, sh, false);
      if f.None? then None
      else
        var next := Open(o, rs[0].op, f.value);
        if next.None? then None else OpenAll(next.value, rs[1..], sh)
  }

  // What a command changes, what it prints, and whether it succeeded.
  datatype Effect = Effect(sh: Sh, printed: seq<int>, ok: bool)

  function MakeDirs(sh: Sh, d: string): (e: Effect) {
    if d == "" || LooksLikeOption(d) || !(Prefixes(d) !! sh.fs.files.Keys) then Effect(sh, [], false)
    else Effect(sh.(fs := sh.fs.(dirs := sh.fs.dirs + Prefixes(d))), [], true)
  }

  function Remove(sh: Sh, f: string): (e: Effect) {
    if LooksLikeOption(f) || f in sh.fs.dirs then Effect(sh, [], false)
    else Effect(sh.(fs := sh.fs.(files := sh.fs.files - {f})), [], true)
  }

  function Do(args: seq<string>, sh: Sh, input: seq<int>): (e: Effect) {
    if args == [":"] then Effect(sh, [], true)
    else if args == ["set", "-eu"] then Effect(sh.(errexit := true, nounset := true), [], true)
    else if args == ["base64", "-d"] then
      var d := Decode(input);
      if d.Some? then Effect(sh, d.value, true) else Effect(sh, [], false)
    else if |args| == 3 && args[0] == "mkdir" && args[1] == "-p" then MakeDirs(sh, args[2])
    else if |args| == 3 && args[0] == "trap" && args[2] == "EXIT" then Effect(sh.(trap := Some(args[1])), [], true)
    else if |args| == 3 && args[0] == "printf" && args[1] == "%s" then Effect(sh, Codes(args[2]), true)
    else if |args| == 3 && args[0] == "rm" && args[1] == "-f" then Remove(sh, args[2])
    else Effect(sh, [], false)
  }

  function Print(fs: Fs, f: Option<string>, text: seq<int>): (t: Fs) {
    if f.None? then fs else fs.(files := fs.files[f.value := (if f.value in fs.files then fs.files[f.value] else []) + text])
  }

  function Command(args: seq<string>, rs: seq<Redirect>, sh: Sh): (o: Outcome) {
    var io := OpenAll(Opened(sh.fs, None, None), rs, sh);
    if io.None? then Outcome(sh, false)
    else
      var fs := io.value.fs;
      var input := if io.value.input.Some? && io.value.input.value in fs.files then fs.files[io.value.input.value] else [];
      var e := Do(args, sh.(fs := fs), input);
      Outcome(e.sh.(fs := Print(e.sh.fs, io.value.output, e.printed)), e.ok)
  }

  /** One line. */
  function Step(ts: seq<Token>, sh: Sh): (o: Outcome) {
    match Parts(ts)
    case None => Outcome(sh, false)
    case Some((ws, rs)) =>
      if ws == [] then Outcome(sh, rs == [])
      else if Assignment(ws[0]).Some? then
        var a := Assignment(ws[0]).value;
        var v := Value(a.1, sh, true);
        if |ws| > 1 || rs != [] || v.None? then Outcome(sh, false) else Outcome(sh.(vars := sh.vars[a.0 := v.value]), true)
      else
        match Args(ws, sh)
        case None => Outcome(sh, false)
        case Some(args) => Command(args, rs, sh)
  }

  // ---- whole texts ----

  function Exec(s: string, sh: Sh): (o: Outcome)
    decreases |s|
  {
    if s == "" then Outcome(sh, true)
    else
      match Tokens(s)
      case None => Outcome(sh, false)
      case Some((ts, rest)) =>
        var o := Step(ts, sh);
        if rest == "" || (!o.ok && o.sh.errexit) then o else Exec(rest, o.sh)
  }

  /** A script: its lines, then what it left to do on its way out. */
  function Script(s: string, sh: Sh): (o: Outcome) {
    var o := Exec(s, sh);
    if o.sh.trap.None? then o else Outcome(Exec(o.sh.trap.value, o.sh.(trap := None)).sh, o.ok)
  }

  // The same, line by line.
  function Steps(lines: seq<seq<Token>>, sh: Sh): (o: Outcome)
    decreases |lines|
  {
    if lines == [] then Outcome(sh, true)
    else
      var o := Step(lines[0], sh);
      if |lines| == 1 || (!o.ok && o.sh.errexit) then o else Steps(lines[1..], o.sh)
  }

  function Joined(lines: seq<string>): (s: string) {
    if lines == [] then "" else if |lines| == 1 then lines[0] else lines[0] + "\n" + Joined(lines[1..])
  }

  ghost predicate AllParse(lines: seq<string>, tss: seq<seq<Token>>) {
    |lines| == |tss| && forall i :: 0 <= i < |lines| ==> lines[i] != "" && Parses(lines[i], tss[i])
  }

  /** Running the text is running its lines. */
  lemma {:induction false} ExecIsSteps(lines: seq<string>, tss: seq<seq<Token>>, sh: Sh)
    requires AllParse(lines, tss)
    ensures Exec(Joined(lines), sh) == Steps(tss, sh)
    decreases |lines|
  {
    if |lines| == 1 {
      LastLine(lines[0], tss[0], sh);
    } else if |lines| > 1 {
      var rest := Joined(lines[1..]);
      assert lines[1..][0] == lines[1];
      OneLine(lines[0], tss[0], rest, sh);
      ExecIsSteps(lines[1..], tss[1..], Step(tss[0], sh).sh);
    }
  }

  lemma LastLine(line: string, ts: seq<Token>, sh: Sh)
    requires line != "" && Parses(line, ts)
    ensures Exec(line, sh) == Step(ts, sh)
  {
    assert EndsLine("") && line + "" == line;
    assert Tokens(line + "") == Some((ts, ""));
  }

  lemma OneLine(line: string, ts: seq<Token>, rest: string, sh: Sh)
    requires line != "" && Parses(line, ts) && rest != ""
    ensures Exec(line + "\n" + rest, sh) == var o := Step(ts, sh); if !o.ok && o.sh.errexit then o else Exec(rest, o.sh)
  {
    var tail := "\n" + rest;
    assert EndsLine(tail) && line + "\n" + rest == line + tail;
    assert Tokens(line + tail) == Some((ts, Beyond(tail)));
    assert Beyond(tail) == rest;
  }
}
