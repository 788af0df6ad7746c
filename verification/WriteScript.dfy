/** The script that writes a file inside a guest
    (packages/pi-extensions/gondolin-vm/write-script.ts), and what running it
    does. */
module WriteScript {
  import opened Wrappers
  import opened Base64
  import opened Shell
  import opened ShellRun

  // ---- quoting ----

  function Escaped(v: string): (s: string) {
    if v == "" then "" else EscapedChar(v[0]) + Escaped(v[1..])
  }

  function ShQuote(v: string): (s: string) { "'" + Escaped(v) + "'" }

  // The same characters, none of them bare.
  function Quoted(v: string): (w: Word)
    ensures |w| == |v| && forall i :: 0 <= i < |v| ==> w[i] == Ch(v[i], false)
  {
    if v == "" then [] else [Ch(v[0], false)] + Quoted(v[1..])
  }

  lemma QuoteInQuotes(rest: string)
    ensures Scan("'\\''" + rest, Single) == Then(Ch('\'', false), Scan(rest, Single))
  {
    var s := "'\\''" + rest;
    assert s[1..] == "\\''" + rest;
    assert s[1..][2..] == "'" + rest;
    assert ("'" + rest)[1..] == rest;
    assert Scan(s, Single) == Scan(s[1..], Bare);
    assert Scan(s[1..], Bare) == Then(Ch('\'', false), Scan("'" + rest, Bare));
  }

  function EscapedChar(c: char): (s: string) { if c == '\'' then "'\\''" else [c] }

  lemma OneMoreEscaped(c: char, more: string, w: Word, r: Read)
    requires c != '\0' && Scan(more, Single) == Front(w, r)
    ensures Scan(EscapedChar(c) + more, Single) == Front([Ch(c, false)] + w, r)
  {
    FrontMore(Ch(c, false), w, r);
    if c == '\'' { QuoteInQuotes(more); }
  }

  lemma {:induction false} EscapedReads(v: string, rest: string)
    requires '\0' !in v
    ensures Scan(Escaped(v) + ("'" + rest), Single) == Front(Quoted(v), Scan(rest, Bare))
    decreases |v|
  {
    var tail := "'" + rest;
    if v == "" {
      assert Escaped(v) + tail == tail && tail[1..] == rest;
      FrontNothing(Scan(rest, Bare));
    } else {
      EscapedReads(v[1..], rest);
      OneMoreEscaped(v[0], Escaped(v[1..]) + tail, Quoted(v[1..]), Scan(rest, Bare));
      assert Escaped(v) + tail == EscapedChar(v[0]) + (Escaped(v[1..]) + tail);
    }
  }

  lemma QuotedReads(v: string, rest: string)
    requires '\0' !in v
    ensures Scan(ShQuote(v) + rest, Bare) == Front(Quoted(v), Scan(rest, Bare))
  {
    var s := ShQuote(v) + rest;
    assert s[1..] == Escaped(v) + ("'" + rest);
    EscapedReads(v, rest);
  }

  lemma QuoteYields(v: string)
    requires '\0' !in v
    ensures Yields(ShQuote(v), Quoted(v))
  {
    forall rest ensures Scan(ShQuote(v) + rest, Bare) == Front(Quoted(v), Scan(rest, Bare)) { QuotedReads(v, rest); }
  }

  lemma {:induction false} NulEndsReading(v: string, rest: string)
    requires '\0' in v
    ensures Scan(Escaped(v) + rest, Single) == None
    decreases |v|
  {
    var more := Escaped(v[1..]) + rest;
    if v[0] == '\'' {
      NulEndsReading(v[1..], rest);
      QuoteInQuotes(more);
      assert Escaped(v) + rest == "'\\''" + more;
    } else {
      assert Escaped(v) + rest == [v[0]] + more;
      if v[0] != '\0' {
        NulEndsReading(v[1..], rest);
      }
    }
  }

  /** The shell reads a quoted string back as that very string, every character
      of it quoted, exactly when it holds no NUL. */
  lemma QuotingIsUndone(v: string)
    ensures ReadsAs(ShQuote(v), Quoted(v)) <==> '\0' !in v
  {
    if '\0' in v {
      NulEndsReading(v, "'");
      assert (ShQuote(v) + "")[1..] == Escaped(v) + "'";
      assert EndsWord("") && Scan(ShQuote(v) + "", Bare) == None;
    } else {
      QuoteYields(v);
      YieldsWord(ShQuote(v), Quoted(v));
    }
  }

  // ---- the script ----

  function Trimmed(p: string): (t: string) {
    if p != "" && p[|p| - 1] == '/' then Trimmed(p[..|p| - 1]) else p
  }

  function PosixDirname(p: string): (d: string) { Parent(Trimmed(p)) }

  function Slashes(n: nat): (s: string) { if n == 0 then "" else Slashes(n - 1) + "/" }

  lemma {:induction false} SlashesGo(p: string, n: nat)
    requires p != "" && p[|p| - 1] != '/'
    ensures Trimmed(p + Slashes(n)) == p
  {
    if n == 0 {
      assert p + Slashes(0) == p;
    } else {
      var q := p + Slashes(n);
      assert q[..|q| - 1] == p + Slashes(n - 1);
      SlashesGo(p, n - 1);
    }
  }

  /** What is before the last name, or the root, or here; slashes at the end do
      not count. */
  lemma DirnameIs(d: string, name: string, n: nat)
    requires name != "" && '/' !in name
    ensures PosixDirname(d + "/" + name + Slashes(n)) == if d == "" then "/" else d
    ensures PosixDirname(name + Slashes(n)) == "."
  {
    var p := d + "/" + name;
    assert name[|name| - 1] in name && p[|p| - 1] == name[|name| - 1] && p[|d|] == '/';
    assert forall k :: |d| < k < |p| ==> p[k] == name[k - |d| - 1] && p[k] in name;
    SlashesGo(p, n);
    SlashesGo(name, n);
    assert LastSlash(p) == |d| && p[..|d|] == d;
    assert LastSlash(name) == |name| by { assert forall k :: 0 <= k < |name| ==> name[k] in name; }
  }

  function PrintLine(slice: string): (l: string) { "printf %s " + ShQuote(slice) + " >> \"$tmp\"" }

  function PrintLines(slices: seq<string>): (ls: seq<string>) {
    if slices == [] then [] else [PrintLine(slices[0])] + PrintLines(slices[1..])
  }

  function Head(path: string): (ls: seq<string>) {
    ["set -eu", "mkdir -p " + ShQuote(PosixDirname(path)), "tmp=" + ShQuote(path) + ".gw-write.$$",
     "trap 'rm -f \"$tmp\"' EXIT", ": > \"$tmp\""]
  }

  function Last(path: string): (l: string) { "base64 -d < \"$tmp\" > " + ShQuote(path) }

  // The next slice, and what is left after it.
  function Slice(text: string, size: nat): (s: string) { if size < |text| then text[..size] else text }

  function Left(text: string, size: nat): (s: string) { if size < |text| then text[size..] else "" }

  function Slices(text: string, size: nat): (ss: seq<string>)
    requires size > 0
    decreases |text|
  {
    if text == "" then [] else [Slice(text, size)] + Slices(Left(text, size), size)
  }

  function Concat(ss: seq<string>): (s: string) { if ss == [] then "" else ss[0] + Concat(ss[1..]) }

  predicate Sized(ss: seq<string>, size: nat) { ss == [] || (0 < |ss[0]| <= size && Sized(ss[1..], size)) }

  /** The slices are the text, none of them empty or longer than the size. */
  lemma {:induction false} SlicesAreTheText(text: string, size: nat)
    requires size > 0
    ensures Concat(Slices(text, size)) == text && Sized(Slices(text, size), size)
    decreases |text|
  {
    if text != "" {
      var rest := Slices(Left(text, size), size);
      SlicesAreTheText(Left(text, size), size);
      assert ([Slice(text, size)] + rest)[1..] == rest;
      assert Slice(text, size) + Left(text, size) == text;
    }
  }

  function ScriptLines(path: string, content: seq<Byte>, size: nat): (ls: seq<string>)
    requires size > 0
  {
    Head(path) + PrintLines(Slices(Encode(content), size)) + [Last(path)]
  }

  datatype ScriptError = InvalidChunkSize(size: int)

  // The lines so far, then those still to come.
  function Pending(script: seq<string>, text: string, i: nat, size: nat): (ls: seq<string>)
    requires size > 0
  {
    script + PrintLines(Slices(Left(text, i), size))
  }

  method PrintSlices(head: seq<string>, b64: string, chunkSize: nat) returns (script: seq<string>)
    requires chunkSize > 0
    ensures script == head + PrintLines(Slices(b64, chunkSize))
  {
    script := head;
    assert b64[0..] == b64;
    var i := 0;
    while i < |b64|
      invariant 0 <= i && Pending(script, b64, i, chunkSize) == head + PrintLines(Slices(b64, chunkSize))
    {
      var slice := b64[i..if i + chunkSize < |b64| then i + chunkSize else |b64|];
      SliceOff(script, b64, i, chunkSize);
      script := script + [PrintLine(slice)];
      i := i + chunkSize;
    }
  }

  method WriteFileScript(path: string, content: seq<Byte>, chunkSize: int) returns (r: Result<string, ScriptError>)
    ensures r == if chunkSize <= 0 then Err(InvalidChunkSize(chunkSize)) else Ok(Joined(ScriptLines(path, content, chunkSize)))
  {
    if chunkSize <= 0 { return Err(InvalidChunkSize(chunkSize)); }
    var b64 := Encode(content);
    var target := ShQuote(path);
    var script := [
      "set -eu",
      "mkdir -p " + ShQuote(PosixDirname(path)),
      "tmp=" + target + ".gw-write.$$",
      "trap 'rm -f \"$tmp\"' EXIT",
      ": > \"$tmp\""
    ];
    script := PrintSlices(script, b64, chunkSize);
    script := script + ["base64 -d < \"$tmp\" > " + target];
    return Ok(Joined(script));
  }

  // Printing the next slice leaves the rest to print.
  lemma SliceOff(done: seq<string>, text: string, i: nat, size: nat)
    requires size > 0 && i < |text|
    ensures var slice := text[i..if i + size < |text| then i + size else |text|];
      Pending(done, text, i, size) == Pending(done + [PrintLine(slice)], text, i + size, size)
  {
    var slice := text[i..if i + size < |text| then i + size else |text|];
    var now, later := Left(text, i), Slices(Left(text, i + size), size);
    assert i == 0 ==> text[0..] == text;
    assert Slice(now, size) == slice && Left(now, size) == Left(text, i + size);
    assert ([slice] + later)[1..] == later;
    assert PrintLines(Slices(now, size)) == [PrintLine(slice)] + PrintLines(later);
    assert done + ([PrintLine(slice)] + PrintLines(later)) == (done + [PrintLine(slice)]) + PrintLines(later);
  }
}
