/** The read marks themselves (graph-rag/src/server.js): kept in memory,
    copied to the database now and then, reloaded after a restart. */
module ReadMarks {
  import opened Wrappers
  import opened Positions
  import opened Visibility
  import opened DerivedData

  datatype Mark = Mark(last: Option<Time>, stored: Option<Time>)

  /** One read of one home. */
  function Touch(k: Mark, now: Time): (r: Mark) {
    var last := if k.last.Some? then k.last.value else 0;
    Mark(Some(now), if now - last < PERSIST_AFTER then k.stored else Some(now))
  }

  function Touched(k: Mark, read: bool, now: Time): (r: Mark) { if read then Touch(k, now) else k }

  function Get<K, V>(m: map<K, V>, k: K): (v: Option<V>) { if k in m then Some(m[k]) else None }

  function Kept(at: Option<Time>, cutoff: Time): (r: Option<Time>) { if at.Some? && at.value > cutoff then at else None }

  lemma OneMoreRecorded(mine: map<Id, Time>, homes: seq<Id>, h: Id, now: Time)
    ensures Recorded(mine, homes + [h], now) == Recorded(mine, homes, now)[h := now]
  {
    assert forall x :: x in homes + [h] <==> x in homes || x == h;
  }

  lemma PersistedAt(mine: map<Id, Time>, kept: map<Id, Time>, homes: seq<Id>, h: Id, now: Time)
    ensures Get(Persisted(kept, mine, homes, now), h) == if h in homes && Due(mine, h, now) then Some(now) else Get(kept, h)
  {
  }

  lemma OneMorePersisted(mine: map<Id, Time>, kept: map<Id, Time>, homes: seq<Id>, h: Id, now: Time)
    ensures var before := Persisted(kept, mine, homes, now);
      Persisted(kept, mine, homes + [h], now) == if Due(Recorded(mine, homes, now), h, now) then before[h := now] else before
  {
    var before := Persisted(kept, mine, homes, now);
    var step := if Due(Recorded(mine, homes, now), h, now) then before[h := now] else before;
    forall x ensures Get(Persisted(kept, mine, homes + [h], now), x) == Get(step, x) {
      PersistedAt(mine, kept, homes, x, now);
      PersistedAt(mine, kept, homes + [h], x, now);
      assert x in homes + [h] <==> x in homes || x == h;
    }
    SameMarks(Persisted(kept, mine, homes + [h], now), step);
  }

  lemma SameMarks(a: map<Id, Time>, b: map<Id, Time>)
    requires forall h :: Get(a, h) == Get(b, h)
    ensures a == b
  {
    forall h ensures h in a <==> h in b { assert Get(a, h) == Get(b, h); }
    forall h | h in a ensures a[h] == b[h] { assert Get(a, h) == Get(b, h); }
  }

  predicate ReadSoFar(mine: map<Id, Time>, kept: map<Id, Time>, homes: seq<Id>, now: Time, marked: map<Id, Time>, stored: map<Id, Time>) {
    marked == Recorded(mine, homes, now) && stored == Persisted(kept, mine, homes, now)
  }

  lemma ReadNext(mine: map<Id, Time>, kept: map<Id, Time>, homes: seq<Id>, i: nat, now: Time, marked: map<Id, Time>, stored: map<Id, Time>)
    requires i < |homes| && ReadSoFar(mine, kept, homes[..i], now, marked, stored)
    ensures ReadSoFar(mine, kept, homes[..i + 1], now, marked[homes[i] := now], if Due(marked, homes[i], now) then stored[homes[i] := now] else stored)
  {
    assert homes[..i + 1] == homes[..i] + [homes[i]];
    OneMoreRecorded(mine, homes[..i], homes[i], now);
    OneMorePersisted(mine, kept, homes[..i], homes[i], now);
  }

  lemma ReadAll(mine: map<Id, Time>, kept: map<Id, Time>, homes: seq<Id>, now: Time, marked: map<Id, Time>, stored: map<Id, Time>)
    requires ReadSoFar(mine, kept, homes, now, marked, stored)
    ensures forall h :: Mark(Get(marked, h), Get(stored, h)) == Touched(Mark(Get(mine, h), Get(kept, h)), h in homes, now)
  {
    forall h ensures Mark(Get(marked, h), Get(stored, h)) == Touched(Mark(Get(mine, h), Get(kept, h)), h in homes, now) {
      PersistedAt(mine, kept, homes, h, now);
    }
  }

  predicate IsMarked(marks: Marks, w: Who, h: Id, at: Time) { w in marks && h in marks[w] && marks[w][h] == at }

  lemma SameMineSameMarks(a: Marks, b: Marks, w: Who, h: Id, at: Time)
    requires Mine(a, w) == Mine(b, w)
    ensures IsMarked(a, w, h, at) <==> IsMarked(b, w, h, at)
  {
  }

  class ReadMarks {
    var readMarks: Marks
    var stored: Marks

    constructor ()
      ensures readMarks == map[] && stored == map[]
    {
      readMarks := map[];
      stored := map[];
    }

    function MarkOf(who: Who, h: Id): (k: Mark)
      reads this
    {
      Mark(Get(Mine(readMarks, who), h), Get(Mine(stored, who), h))
    }

    method RecordReads(who: Who, homes: seq<Id>, now: Time)
      modifies this
      ensures readMarks == old(readMarks)[who := Recorded(Mine(old(readMarks), who), homes, now)]
      ensures stored == old(stored)[who := Persisted(Mine(old(stored), who), Mine(old(readMarks), who), homes, now)]
      ensures forall h :: MarkOf(who, h) == Touched(old(MarkOf(who, h)), h in homes, now)
    {
      var mine, kept := Mine(readMarks, who), Mine(stored, who);
      ghost var was, had := mine, kept;
      for i := 0 to |homes|
        invariant readMarks == old(readMarks) && stored == old(stored)
        invariant ReadSoFar(was, had, homes[..i], now, mine, kept)
      {
        var h := homes[i];
        ReadNext(was, had, homes, i, now, mine, kept);
        var last := if h in mine then mine[h] else 0;
        mine := mine[h := now];
        if now - last >= PERSIST_AFTER {
          kept := kept[h := now];
        }
      }
      assert homes[..|homes|] == homes;
      ReadAll(was, had, homes, now, mine, kept);
      readMarks, stored := readMarks[who := mine], stored[who := kept];
    }

    /** The lowest home a write of theirs may get now. */
    method DerivedFloor(m: ProperMap, who: Who, origin: Id, now: Time, window: Time) returns (floor: Id)
      ensures floor == Floor(m, origin, InWindow(readMarks, who, now - window))
    {
      var list := [origin];
      var todo := InWindow(readMarks, who, now - window);
      ghost var all := todo;
      while todo != {}
        invariant todo <= all
        invariant |list| > 0 && forall h :: h in list <==> h == origin || h in all - todo
        decreases todo
      {
        var h :| h in todo;
        list := list + [h];
        todo := todo - {h};
      }
      FloorOfListing(m, origin, all, list);
      floor := ComputeCommonAncestor(m, list);
    }

    /** A restart keeps exactly what was stored inside the window, and reloads it. */
    method Restart(now: Time, window: Time)
      modifies this
      ensures stored == Recent(old(stored), now - window) && forall w :: Mine(readMarks, w) == Mine(stored, w)
      ensures forall w, h, at {:trigger IsMarked(stored, w, h, at)} :: IsMarked(stored, w, h, at) <==> IsMarked(old(stored), w, h, at) && at > now - window
      ensures forall w, h, at {:trigger IsMarked(readMarks, w, h, at)} :: IsMarked(readMarks, w, h, at) <==> IsMarked(stored, w, h, at)
    {
      var cutoff := now - window;
      var recent := Recent(stored, cutoff);
      var rows := set w, h | w in recent && h in recent[w] :: (w, h);
      var todo := rows;
      var marks: Marks := map[];
      while todo != {}
        invariant todo <= rows && HoldsRows(marks, recent, rows - todo)
        decreases todo
      {
        var row :| row in todo;
        LoadOne(marks, recent, rows - todo, row.0, row.1);
        assert rows - (todo - {row}) == rows - todo + {(row.0, row.1)};
        marks := Loaded(marks, row.0, row.1, recent[row.0][row.1]);
        todo := todo - {row};
      }
      AllLoaded(marks, recent, rows);
      readMarks, stored := marks, recent;
      forall w, h, at {:trigger IsMarked(readMarks, w, h, at)} ensures IsMarked(readMarks, w, h, at) <==> IsMarked(stored, w, h, at) {
        SameMineSameMarks(readMarks, stored, w, h, at);
      }
    }
  }

  // What is left is what was stored inside the window, as it was.
  lemma RecentIsTheWindow(stored: Marks, cutoff: Time, w: Who, h: Id)
    ensures Get(Mine(Recent(stored, cutoff), w), h) == Kept(Get(Mine(stored, w), h), cutoff)
  {
  }

  function Loaded(marks: Marks, who: Who, h: Id, at: Time): (r: Marks) { marks[who := Mine(marks, who)[h := at]] }

  // These rows, and no others, are loaded as they are stored.
  ghost predicate HoldsRows(marks: Marks, stored: Marks, rows: set<(Who, Id)>) {
    forall w, h {:trigger h in Mine(marks, w)} {:trigger (w, h) in rows} ::
      && (h in Mine(marks, w) <==> (w, h) in rows)
      && (h in Mine(marks, w) ==> h in Mine(stored, w) && Mine(marks, w)[h] == Mine(stored, w)[h])
  }

  lemma LoadOne(marks: Marks, stored: Marks, rows: set<(Who, Id)>, who: Who, h: Id)
    requires HoldsRows(marks, stored, rows) && who in stored && h in stored[who]
    ensures HoldsRows(Loaded(marks, who, h, stored[who][h]), stored, rows + {(who, h)})
  {
  }

  lemma AllLoaded(marks: Marks, stored: Marks, rows: set<(Who, Id)>)
    requires HoldsRows(marks, stored, rows) && forall w, h :: h in Mine(stored, w) ==> (w, h) in rows
    ensures forall w :: Mine(marks, w) == Mine(stored, w)
  {
    forall w ensures Mine(marks, w) == Mine(stored, w) {
      assert forall h :: h in Mine(marks, w) <==> h in Mine(stored, w);
    }
  }

  // ---- what a restart forgets ----

  /** The mark left by reading a home at these times. */
  function After(times: seq<Time>): (k: Mark) {
    if times == [] then Mark(None, None) else Touch(After(times[..|times| - 1]), times[|times| - 1])
  }

  // A read that follows a pause: the first, or one long after the one before.
  predicate AfterAPause(times: seq<Time>, i: nat)
    requires i < |times|
  {
    times[i] - (if i == 0 then 0 else times[i - 1]) >= 600000
  }

  ghost predicate PausedSince(times: seq<Time>, cutoff: Time) {
    exists i :: 0 <= i < |times| && AfterAPause(times, i) && times[i] > cutoff
  }

  lemma PausedSinceStep(times: seq<Time>, cutoff: Time)
    requires times != []
    ensures var n := |times| - 1;
      PausedSince(times, cutoff) <==> PausedSince(times[..n], cutoff) || (AfterAPause(times, n) && times[n] > cutoff)
  {
    var n := |times| - 1;
    var front := times[..n];
    if PausedSince(front, cutoff) {
      var i :| 0 <= i < n && AfterAPause(front, i) && front[i] > cutoff;
      assert AfterAPause(times, i);
    }
    if PausedSince(times, cutoff) {
      var i :| 0 <= i < |times| && AfterAPause(times, i) && times[i] > cutoff;
      if i < n { assert AfterAPause(front, i); }
    }
  }

  /** A mark survives a restart exactly when some read inside the window
      followed a pause; steady reading alone does not keep it. */
  lemma {:induction false} RestartKeepsWhen(times: seq<Time>, cutoff: Time)
    requires forall i, j :: 0 <= i < j < |times| ==> times[i] <= times[j]
    ensures (After(times).stored.Some? && After(times).stored.value > cutoff) <==> PausedSince(times, cutoff)
    ensures times != [] ==> After(times).last == Some(times[|times| - 1])
    decreases |times|
  {
    if times != [] {
      var n := |times| - 1;
      RestartKeepsWhen(times[..n], cutoff);
      PausedSinceStep(times, cutoff);
      if AfterAPause(times, n) && PausedSince(times[..n], cutoff) {
        var i :| 0 <= i < n && AfterAPause(times[..n], i) && times[..n][i] > cutoff;
      }
    }
  }

  /** So a mark is stored as it is, which is what a restart needs to forget
      nothing later either, exactly when a read no earlier followed a pause. */
  lemma StoredAsItIsWhen(times: seq<Time>)
    requires times != [] && forall i, j :: 0 <= i < j < |times| ==> times[i] <= times[j]
    ensures After(times).stored == After(times).last <==> PausedSince(times, times[|times| - 1] - 1)
  {
    var last := times[|times| - 1];
    RestartKeepsWhen(times, last - 1);
    StoredIsARead(times);
  }

  lemma {:induction false} StoredIsARead(times: seq<Time>)
    ensures After(times).stored.Some? ==> After(times).stored.value in times
    decreases |times|
  {
    if times != [] {
      StoredIsARead(times[..|times| - 1]);
    }
  }

  const NINE_MINUTES: Time := 540000

  function EveryNineMinutes(start: Time, n: nat): (times: seq<Time>) {
    seq(n + 1, i requires 0 <= i <= n => start + i * NINE_MINUTES)
  }

  /** However long the window, reading every nine minutes for that long leaves
      a mark a restart drops, though the home was read at that very moment. */
  lemma SteadyReadingIsForgotten(start: Time, window: nat)
    requires start >= 600000
    ensures var times := EveryNineMinutes(start, window);
      var now := times[window];
      After(times).last == Some(now) && !(After(times).stored.Some? && After(times).stored.value > now - window)
  {
    var times := EveryNineMinutes(start, window);
    assert forall i, j :: 0 <= i < j < |times| ==> times[j] - times[i] == (j - i) * NINE_MINUTES;
    assert forall i :: 0 < i < |times| ==> !AfterAPause(times, i);
    RestartKeepsWhen(times, times[window] - window);
    assert times[window] - times[0] == window * NINE_MINUTES >= window;
  }
}
