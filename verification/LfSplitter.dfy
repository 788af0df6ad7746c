/** Records delimited by line feeds and nothing else
    (packages/server/src/util/lf-splitter.ts), whatever pieces they come in. */
module LfSplitter {
  import opened Text

  // ---- the whole stream at once ----

  // Where the first line feed is, or the length when there is none.
  function IndexOfLf(s: string): (i: nat)
    ensures i <= |s|
  {
    if s == "" || s[0] == '\n' then 0 else 1 + IndexOfLf(s[1..])
  }

  predicate LfFirstAt(s: string, i: nat) {
    i <= |s| && (forall k :: 0 <= k < i ==> s[k] != '\n') && (i < |s| ==> s[i] == '\n')
  }

  lemma {:induction false} FirstLf(s: string, i: nat)
    ensures LfFirstAt(s, i) <==> IndexOfLf(s) == i
  {
    if s == "" || s[0] == '\n' {
      assert LfFirstAt(s, 0);
    } else if i > 0 {
      FirstLf(s[1..], i - 1);
      assert forall k :: 0 < k < |s| ==> s[k] == s[1..][k - 1];
    }
  }

  function DropCr(s: string): (t: string) { if s != "" && s[|s| - 1] == '\r' then s[..|s| - 1] else s }

  // A record is emitted unless it is empty.
  function Record(piece: string): (lines: seq<string>) { if DropCr(piece) == "" then [] else [DropCr(piece)] }

  /** The records that a line feed has ended. */
  function Lines(s: string): (lines: seq<string>)
    decreases |s|
  {
    var i := IndexOfLf(s);
    if i == |s| then [] else Record(s[..i]) + Lines(s[i + 1..])
  }

  // What follows the last line feed.
  function Rest(s: string): (r: string)
    decreases |s|
  {
    var i := IndexOfLf(s);
    if i == |s| then s else Rest(s[i + 1..])
  }

  lemma Cut(s: string, i: nat)
    requires IndexOfLf(s) == i < |s|
    ensures Lines(s) == Record(s[..i]) + Lines(s[i + 1..]) && Rest(s) == Rest(s[i + 1..])
  {
  }

  lemma Uncut(s: string)
    requires IndexOfLf(s) == |s|
    ensures Lines(s) == [] && Rest(s) == s
  {
  }

  // The last record, which nothing ends: emitted unless it is blank.
  function Last(rest: string): (lines: seq<string>) { if IsBlank(DropCr(rest)) then [] else [DropCr(rest)] }

  function OneShot(s: string): (lines: seq<string>) { Lines(s) + Last(Rest(s)) }

  // ---- piece by piece ----

  class Splitter {
    var buffer: string
    var emitted: seq<string>

    constructor ()
      ensures buffer == "" && emitted == []
    {
      buffer, emitted := "", [];
    }

    method Drain(final: bool)
      modifies this
      ensures buffer == if final then "" else Rest(old(buffer))
      ensures emitted == old(emitted) + Lines(old(buffer)) + if final then Last(Rest(old(buffer))) else []
    {
      ghost var was, had := buffer, emitted;
      while IndexOfLf(buffer) < |buffer|
        invariant emitted + Lines(buffer) == had + Lines(was) && Rest(buffer) == Rest(was)
        decreases |buffer|
      {
        var nl := IndexOfLf(buffer);
        var line := buffer[..nl];
        Cut(buffer, nl);
        Moved(emitted, Record(line), Lines(buffer[nl + 1..]));
        buffer := buffer[nl + 1..];
        if line != "" && line[|line| - 1] == '\r' { line := line[..|line| - 1]; }
        if line != "" { emitted := emitted + [line]; }
      }
      Uncut(buffer);
      if final {
        var line := DropCr(buffer);
        buffer := "";
        if !IsBlank(line) { emitted := emitted + [line]; }
      }
    }

    method Feed(chunk: string)
      modifies this
      ensures buffer == Rest(old(buffer) + chunk) && emitted == old(emitted) + Lines(old(buffer) + chunk)
    {
      buffer := buffer + chunk;
      Drain(false);
    }

    method Flush()
      modifies this
      ensures buffer == "" && emitted == old(emitted) + OneShot(old(buffer))
    {
      Drain(true);
    }

    /** A stream's whole life, however it is cut: fed chunk by chunk and flushed,
        it has emitted what the text says in one piece. */
    method FeedAll(chunks: seq<string>)
      modifies this
      ensures buffer == "" && emitted == old(emitted) + OneShot(old(buffer) + Joined(chunks))
    {
      ghost var was, had := buffer, emitted;
      NothingFed(was, chunks);
      for i := 0 to |chunks|
        invariant SoFar(had, TextSoFar(was, chunks, i), emitted, buffer)
      {
        FedOnce(had, TextSoFar(was, chunks, i), emitted, buffer, chunks[i]);
        OneMoreFed(was, chunks, i);
        Feed(chunks[i]);
      }
      AllFed(had, was, chunks, emitted, buffer);
      Flush();
    }
  }

  function TextSoFar(was: string, chunks: seq<string>, i: nat): (s: string)
    requires i <= |chunks|
  {
    was + Joined(chunks[..i])
  }

  lemma NothingFed(was: string, chunks: seq<string>)
    ensures TextSoFar(was, chunks, 0) == was
  {
  }

  lemma OneMoreFed(was: string, chunks: seq<string>, i: nat)
    requires i < |chunks|
    ensures TextSoFar(was, chunks, i + 1) == TextSoFar(was, chunks, i) + chunks[i]
  {
    assert chunks[..i + 1][..i] == chunks[..i];
  }

  lemma AllFed(had: seq<string>, was: string, chunks: seq<string>, emitted: seq<string>, buffer: string)
    requires SoFar(had, TextSoFar(was, chunks, |chunks|), emitted, buffer)
    ensures emitted + OneShot(buffer) == had + OneShot(was + Joined(chunks))
  {
    assert chunks[..|chunks|] == chunks;
    Moved(emitted, Lines(buffer), Last(Rest(buffer)));
    Moved(had, Lines(was + Joined(chunks)), Last(Rest(buffer)));
  }

  // Emitted and buffered together are what the text so far says.
  ghost predicate SoFar(had: seq<string>, text: string, emitted: seq<string>, buffer: string) {
    emitted + Lines(buffer) == had + Lines(text) && Rest(buffer) == Rest(text)
  }

  lemma FedOnce(had: seq<string>, text: string, emitted: seq<string>, buffer: string, chunk: string)
    requires SoFar(had, text, emitted, buffer)
    ensures SoFar(had, text + chunk, emitted + Lines(buffer + chunk), Rest(buffer + chunk))
  {
    var more := Lines(Rest(text) + chunk);
    LinesOfMore(text, chunk);
    LinesOfMore(buffer, chunk);
    RestIsLast(buffer + chunk);
    Moved(emitted, Lines(buffer), more);
    Moved(had, Lines(text), more);
  }

  function Joined(chunks: seq<string>): (s: string) {
    if chunks == [] then "" else Joined(chunks[..|chunks| - 1]) + chunks[|chunks| - 1]
  }

  // What feeding these chunks in turn has emitted and left in the buffer.
  function Fed(chunks: seq<string>): (r: (seq<string>, string)) {
    if chunks == [] then ([], "")
    else
      var before, s := Fed(chunks[..|chunks| - 1]), Fed(chunks[..|chunks| - 1]).1 + chunks[|chunks| - 1];
      (before.0 + Lines(s), Rest(s))
  }

  lemma Moved<T>(a: seq<T>, b: seq<T>, c: seq<T>)
    ensures a + (b + c) == (a + b) + c
  {
  }

  lemma FirstLfOfMore(a: string, b: string, i: nat)
    requires IndexOfLf(a) == i < |a|
    ensures IndexOfLf(a + b) == i
  {
    FirstLf(a, i);
    assert LfFirstAt(a + b, i);
    FirstLf(a + b, i);
  }

  lemma CutOfMore(a: string, b: string, i: nat)
    requires IndexOfLf(a) == i < |a|
    ensures Lines(a + b) == Record(a[..i]) + Lines(a[i + 1..] + b) && Rest(a + b) == Rest(a[i + 1..] + b)
  {
    FirstLfOfMore(a, b, i);
    assert (a + b)[..i] == a[..i];
    assert (a + b)[i + 1..] == a[i + 1..] + b;
    Cut(a + b, i);
  }

  // What more text adds is decided by what the text so far left over.
  ghost predicate Continues(a: string, b: string) {
    Lines(a + b) == Lines(a) + Lines(Rest(a) + b) && Rest(a + b) == Rest(Rest(a) + b)
  }

  lemma {:induction false} LinesOfMore(a: string, b: string)
    ensures Continues(a, b)
    decreases |a|
  {
    var i := IndexOfLf(a);
    if i == |a| {
      Uncut(a);
    } else {
      LinesOfMore(a[i + 1..], b);
      CutContinues(a, b, i);
    }
  }

  lemma CutContinues(a: string, b: string, i: nat)
    requires IndexOfLf(a) == i < |a| && Continues(a[i + 1..], b)
    ensures Continues(a, b)
  {
    var later := a[i + 1..];
    CutOfMore(a, b, i);
    Cut(a, i);
    Moved(Record(a[..i]), Lines(later), Lines(Rest(later) + b));
  }

  lemma {:induction false} RestIsLast(s: string)
    ensures Lines(Rest(s)) == [] && Rest(Rest(s)) == Rest(s)
    decreases |s|
  {
    var i := IndexOfLf(s);
    if i == |s| {
      Uncut(s);
    } else {
      Cut(s, i);
      RestIsLast(s[i + 1..]);
    }
  }

  lemma {:induction false} FedIsJoined(chunks: seq<string>)
    ensures Fed(chunks).0 == Lines(Joined(chunks)) && Fed(chunks).1 == Rest(Joined(chunks))
  {
    if chunks == [] {
      Uncut("");
    } else {
      var most, last := chunks[..|chunks| - 1], chunks[|chunks| - 1];
      FedIsJoined(most);
      LinesOfMore(Joined(most), last);
    }
  }

  lemma OneShotOfRest(s: string)
    ensures OneShot(Rest(s)) == Last(Rest(s))
  {
    RestIsLast(s);
    assert [] + Last(Rest(s)) == Last(Rest(s));
  }

  /** However a stream is cut into chunks, feeding them and flushing emits what
      the whole stream says, in order. */
  lemma ChunksDoNotMatter(chunks: seq<string>)
    ensures Fed(chunks).0 + OneShot(Fed(chunks).1) == OneShot(Joined(chunks))
  {
    FedIsJoined(chunks);
    OneShotOfRest(Joined(chunks));
  }

  // ---- what was written comes back ----

  function Written(records: seq<string>): (s: string) { if records == [] then "" else records[0] + "\n" + Written(records[1..]) }

  predicate Clean(r: string) { r != "" && '\n' !in r && r[|r| - 1] != '\r' }

  lemma WrittenStarts(records: seq<string>)
    requires records != [] && '\n' !in records[0]
    ensures Lines(Written(records)) == Record(records[0]) + Lines(Written(records[1..]))
    ensures Rest(Written(records)) == Rest(Written(records[1..]))
  {
    var r, rest := records[0], Written(records[1..]);
    var s := r + "\n" + rest;
    assert LfFirstAt(s, |r|);
    FirstLf(s, |r|);
    Cut(s, |r|);
    assert s[..|r|] == r && s[|r| + 1..] == rest;
  }

  lemma RecordIsProper(s: string, i: nat)
    requires IndexOfLf(s) == i
    ensures forall l :: l in Record(s[..i]) ==> l != "" && '\n' !in l
  {
    FirstLf(s, i);
    assert forall c :: c in DropCr(s[..i]) ==> c in s[..i];
  }

  lemma {:induction false} LinesAreRecords(s: string)
    ensures forall l :: l in Lines(s) ==> l != "" && '\n' !in l
    decreases |s|
  {
    var i := IndexOfLf(s);
    if i < |s| {
      Cut(s, i);
      RecordIsProper(s, i);
      LinesAreRecords(s[i + 1..]);
    }
  }

  predicate AllClean(records: seq<string>) { forall r :: r in records ==> Clean(r) }

  predicate AllProper(records: seq<string>) { forall r :: r in records ==> '\n' !in r && r != "" }

  lemma {:induction false} ReadBackWhenClean(records: seq<string>)
    requires AllProper(records)
    ensures Rest(Written(records)) == "" && |Lines(Written(records))| <= |records|
    ensures Lines(Written(records)) == records <==> AllClean(records)
  {
    if records != [] {
      var r, rest := records[0], records[1..];
      assert r in records && forall x :: x in rest ==> x in records;
      WrittenStarts(records);
      ReadBackWhenClean(rest);
      assert records == [r] + rest && (AllClean(records) <==> Clean(r) && AllClean(rest));
      if DropCr(r) != "" { OneByOne(DropCr(r), Lines(Written(rest)), r, rest); }
    }
  }

  lemma OneByOne<T>(a: T, later: seq<T>, b: T, rest: seq<T>)
    ensures [a] + later == [b] + rest <==> a == b && later == rest
  {
    assert ([a] + later)[1..] == later && ([b] + rest)[1..] == rest;
    assert ([a] + later)[0] == a && ([b] + rest)[0] == b;
  }

  /** Records written one to a line come back as they were exactly when each is
      nonempty, holds no line feed and does not end in a carriage return. */
  lemma ReadBackWhatWasWritten(records: seq<string>)
    ensures OneShot(Written(records)) == records <==> forall r :: r in records ==> Clean(r)
  {
    if AllProper(records) {
      ReadBackWhenClean(records);
      assert IsBlank(DropCr(""));
    } else {
      WrittenEnds(records);
      LinesAreRecords(Written(records));
    }
  }

  // Everything written ends in a line feed: nothing is left for the flush.
  lemma {:induction false} WrittenEnds(records: seq<string>)
    ensures Rest(Written(records)) == "" && Last("") == []
  {
    assert IsBlank(DropCr(""));
    if records != [] {
      var line, later := records[0] + "\n", Written(records[1..]);
      WrittenEnds(records[1..]);
      EndsInLf(records[0]);
      LinesOfMore(line, later);
      assert Written(records) == line + later && "" + later == later;
    }
  }

  lemma {:induction false} EndsInLf(r: string)
    ensures Rest(r + "\n") == ""
    decreases |r|
  {
    var s := r + "\n";
    var i := IndexOfLf(s);
    FirstLf(s, i);
    assert s[|r|] == '\n';
    Cut(s, i);
    if i < |r| {
      assert s[i + 1..] == r[i + 1..] + "\n";
      EndsInLf(r[i + 1..]);
    } else {
      assert s[i + 1..] == "";
    }
  }

  // Records each ended by a line feed, some with a carriage return before it.
  function Ended(records: seq<string>, crs: seq<bool>): (s: string)
    requires |records| == |crs|
  {
    if records == [] then "" else records[0] + End(crs[0]) + Ended(records[1..], crs[1..])
  }

  function Nonempty(records: seq<string>): (kept: seq<string>) {
    if records == [] then [] else (if records[0] == "" then [] else [records[0]]) + Nonempty(records[1..])
  }

  // One line, with no carriage return at its end.
  predicate Plain(r: string) { '\n' !in r && (r != "" ==> r[|r| - 1] != '\r') }

  function End(cr: bool): (e: string) { if cr then "\r\n" else "\n" }

  lemma EndedRecord(r: string, cr: bool, later: string)
    requires Plain(r)
    ensures OneShot(r + End(cr) + later) == (if r == "" then [] else [r]) + OneShot(later)
  {
    var s, i := r + End(cr) + later, |r| + |End(cr)| - 1;
    assert forall k :: 0 <= k < |r| ==> s[k] == r[k];
    assert s[i] == '\n' && (cr ==> s[|r|] == '\r');
    assert LfFirstAt(s, i);
    FirstLf(s, i);
    Cut(s, i);
    assert s[i + 1..] == later && s[..i] == if cr then r + "\r" else r;
    assert DropCr(s[..i]) == r;
    Moved(Record(s[..i]), Lines(later), Last(Rest(later)));
  }

  lemma UnendedRecord(last: string)
    requires '\n' !in last
    ensures OneShot(last) == if IsBlank(last) then [] else [if last[|last| - 1] == '\r' then last[..|last| - 1] else last]
  {
    assert LfFirstAt(last, |last|);
    FirstLf(last, |last|);
    Uncut(last);
    if last != "" && last[|last| - 1] == '\r' {
      assert last == DropCr(last) + "\r";
      assert forall c :: c in last <==> c in DropCr(last) || c == '\r';
    }
  }

  lemma EndedStarts(records: seq<string>, crs: seq<bool>, last: string)
    requires |records| == |crs| && records != []
    ensures Ended(records, crs) + last == records[0] + End(crs[0]) + (Ended(records[1..], crs[1..]) + last)
  {
  }

  /** Whichever way each was ended, the records come back but for empty ones; and
      so does what follows them without an end, unless it is blank. */
  lemma {:induction false} RecordsComeBack(records: seq<string>, crs: seq<bool>, last: string)
    requires |records| == |crs| && (forall r :: r in records ==> Plain(r)) && '\n' !in last
    ensures OneShot(Ended(records, crs) + last) == Nonempty(records) +
      if IsBlank(last) then [] else [if last[|last| - 1] == '\r' then last[..|last| - 1] else last]
  {
    if records == [] {
      UnendedRecord(last);
      assert Ended(records, crs) + last == last;
    } else {
      var r, later := records[0], Ended(records[1..], crs[1..]) + last;
      assert r in records && forall x :: x in records[1..] ==> x in records;
      RecordsComeBack(records[1..], crs[1..], last);
      EndedRecord(r, crs[0], later);
      EndedStarts(records, crs, last);
      Moved(if r == "" then [] else [r], Nonempty(records[1..]), OneShot(last));
      UnendedRecord(last);
    }
  }
}
