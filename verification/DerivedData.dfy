/** Derived data (graph-rag/src/server.js): what an identity read bounds where
    its writes land. One write, regrade or move up at a time, from the look at
    the row it is placed by to the row it is stored over. */
module DerivedData {
  import opened Wrappers
  import opened Positions
  import opened Visibility
  import opened Placement

  type Who = string
  type Time = int

  // Fixed for a run: the tree, the window in ms, the confidence required.
  datatype Config = Config(tree: ProperMap, window: Time, threshold: real)

  // What an entry awaiting grading keeps: its first write's floor and where it was held.
  datatype Awaiting = Awaiting(floor: Id, held: Id)

  // `basis` is history: every home read, inside the window, by a writer of the entry.
  datatype Entry = Entry(home: Id, awaiting: Option<Awaiting>, basis: set<Id>)

  datatype Key = Key(name: string, origin: Id)

  // A write as fixed when it was asked for; it may be placed and stored later.
  datatype Write = Write(key: Key, floor: Id, basis: set<Id>, worker: bool)

  // The row as a write is placed by: looked at before the grading model is asked.
  datatype Seen = Seen(home: Id, awaiting: bool)

  // The grading model is off, cannot be reached, or answers (None: unusable).
  datatype Grader = Off | Unreached | Answered(verdict: Option<Verdict>)

  // ---- read marks ----

  type Marks = map<Who, map<Id, Time>>

  // A mark is written to the database when the one before it is this old.
  const PERSIST_AFTER: Time := 600000

  function Mine(marks: Marks, who: Who): (mine: map<Id, Time>) {
    if who in marks then marks[who] else map[]
  }

  // What reading these homes now makes of a reader's marks.
  function Recorded(mine: map<Id, Time>, homes: seq<Id>, now: Time): (r: map<Id, Time>) {
    map h | h in mine.Keys + (set x | x in homes) :: if h in homes then now else mine[h]
  }

  predicate Due(mine: map<Id, Time>, h: Id, now: Time) {
    now - (if h in mine then mine[h] else 0) >= PERSIST_AFTER
  }

  // What it makes of this reader's marks in the database.
  function Persisted(stored: map<Id, Time>, mine: map<Id, Time>, homes: seq<Id>, now: Time): (r: map<Id, Time>) {
    map h | h in stored.Keys + (set x | x in homes && Due(mine, x, now)) :: if h in homes && Due(mine, h, now) then now else stored[h]
  }

  function InWindow(marks: Marks, who: Who, cutoff: Time): (r: set<Id>) {
    set h | h in Mine(marks, who) && Mine(marks, who)[h] > cutoff
  }

  // What a restart leaves in the database, and reloads.
  function Recent(stored: Marks, cutoff: Time): (marks: Marks) {
    map w | w in stored :: map h | h in stored[w] && stored[w][h] > cutoff :: stored[w][h]
  }

  // ---- floors ----

  ghost predicate Lists(homes: seq<Id>, origin: Id, basis: set<Id>) {
    |homes| > 0 && forall h :: h in homes <==> h == origin || h in basis
  }

  lemma {:induction false} SomeListing(origin: Id, basis: set<Id>)
    ensures exists homes :: Lists(homes, origin, basis)
  {
    if basis == {} {
      assert Lists([origin], origin, basis);
    } else {
      var h :| h in basis;
      SomeListing(origin, basis - {h});
      var homes :| Lists(homes, origin, basis - {h});
      assert Lists(homes + [h], origin, basis);
    }
  }

  ghost function Listing(origin: Id, basis: set<Id>): (homes: seq<Id>)
    ensures Lists(homes, origin, basis)
  {
    SomeListing(origin, basis);
    var homes :| Lists(homes, origin, basis);
    homes
  }

  /** The lowest home a write may get: the lowest position above its origin
      and everything read. */
  ghost function Floor(m: TreeMap, origin: Id, basis: set<Id>): (floor: Id) {
    CommonAncestor(m, Listing(origin, basis))
  }

  // In whatever order the reads are taken.
  lemma FloorOfListing(m: ProperMap, origin: Id, basis: set<Id>, homes: seq<Id>)
    requires Lists(homes, origin, basis)
    ensures CommonAncestor(m, homes) == Floor(m, origin, basis)
  {
    CommonAncestorOfASet(m, homes, Listing(origin, basis));
  }

  lemma FloorBounds(m: ProperMap, origin: Id, basis: set<Id>)
    requires IsHome(m, origin)
    ensures IsHome(m, Floor(m, origin, basis)) && AtOrAbove(m, Floor(m, origin, basis), origin)
    ensures Covers(m, Floor(m, origin, basis), basis)
  {
    var homes := Listing(origin, basis);
    CommonAncestorBounds(m, homes, origin);
    forall h | h in basis ensures AtOrAbove(m, Floor(m, origin, basis), EffectiveHome(m, h)) {
      CommonAncestorBounds(m, homes, h);
    }
  }

  /** And it is the lowest such home: whatever is at or above all of these is at
      or above it. */
  lemma FloorIsLowest(m: ProperMap, origin: Id, basis: set<Id>, p: Id)
    requires IsHome(m, origin) && p in m.positions
    ensures AtOrAbove(m, p, Floor(m, origin, basis)) <==> AtOrAbove(m, p, origin) && Covers(m, p, basis)
  {
    var homes := Listing(origin, basis);
    CommonAncestorIsLeast(m, homes);
    assert origin in homes && EffectiveHome(m, origin) == origin;
  }

  // Everything read is visible from `at`.
  ghost predicate Covers(m: TreeMap, at: Id, basis: set<Id>) {
    forall h :: h in basis ==> AtOrAbove(m, at, EffectiveHome(m, h))
  }

  lemma CoversFromAbove(m: TreeMap, a: Id, b: Id, basis: set<Id>)
    requires IsHome(m, b) && AtOrAbove(m, a, b) && Covers(m, b, basis)
    ensures Covers(m, a, basis)
  {
    forall h | h in basis ensures AtOrAbove(m, a, EffectiveHome(m, h)) {
      AboveTransitive(m, a, b, EffectiveHome(m, h));
    }
  }

  lemma CoversTwo(m: TreeMap, at: Id, a: set<Id>, b: set<Id>)
    requires Covers(m, at, a) && Covers(m, at, b)
    ensures Covers(m, at, a + b)
  {
  }

  // ---- one write ----

  // Written for everyone or at the root: there is nothing to grade its home against.
  predicate Ungradable(m: PositionMap, origin: Id, grader: Grader) {
    grader.Off? || origin == EVERYONE || origin == m.root
  }

  ghost predicate GraderIsAdmissible(c: Config, origin: Id, grader: Grader) {
    grader.Answered? ==> Admissible(c.tree, origin, grader.verdict)
  }

  function Looked(at: Option<Entry>): (seen: Option<Seen>) {
    if at.Some? then Some(Seen(at.value.home, at.value.awaiting.Some?)) else None
  }

  function PlaceWrite(c: Config, seen: Option<Seen>, origin: Id, floor: Id, grader: Grader): (p: Placed)
  {
    var home := if seen.Some? then Some(seen.value.home) else None;
    if Ungradable(c.tree, origin, grader) then
      ApplyFloor(c.tree, Placed(if home.Some? then home.value else origin, None, None, None, false), origin, Some(floor))
    else
      Place(c.tree, origin, if grader.Answered? then grader.verdict else None, grader.Answered?, home,
            seen.Some? && seen.value.awaiting && grader.Answered?, Some(floor), c.threshold)
  }

  /** The row after a write that was placed by what it had `seen` is stored over
      what is there now. A worker's write is never hidden by grading. */
  function Landed(c: Config, at: Option<Entry>, seen: Option<Seen>, w: Write, grader: Grader): (e: Entry)
  {
    var p := PlaceWrite(c, seen, w.key.origin, w.floor, grader);
    var home := if w.worker && p.restrictedFrom.Some? then p.restrictedFrom.value else p.home;
    var awaiting :=
      if p.ungraded then Some(Awaiting(w.floor, home))
      else if !Ungradable(c.tree, w.key.origin, grader) && grader.Answered? then None
      else if at.Some? then at.value.awaiting else None;
    Entry(home, awaiting, w.basis + if at.Some? then at.value.basis else {})
  }

  // A write nothing comes between: what it saw is what it is stored over.
  function Written(c: Config, at: Option<Entry>, w: Write, grader: Grader): (e: Entry) {
    Landed(c, at, Looked(at), w, grader)
  }

  /** The row after a regrade that had seen this home and this record. */
  function RegradeLanded(c: Config, at: Entry, home: Id, a: Awaiting, origin: Id, verdict: Option<Verdict>): (r: Entry)
  {
    if origin !in c.tree.positions || home != a.held then at.(awaiting := None)
    else at.(home := Place(c.tree, origin, verdict, true, None, false, Some(a.floor), c.threshold).home, awaiting := None)
  }

  function Regraded(c: Config, e: Entry, origin: Id, verdict: Option<Verdict>): (r: Entry)
    requires e.awaiting.Some?
  {
    RegradeLanded(c, e, e.home, e.awaiting.value, origin, verdict)
  }

  // ---- what an entry must stay above ----

  /** The lowest home a row is sure to be above: its own, or, while it waits
      where it was held, the floor a regrade may let it down to. */
  function Bound(e: Entry): (b: Id) {
    if e.awaiting.Some? && e.home == e.awaiting.value.held then e.awaiting.value.floor else e.home
  }

  ghost predicate EntryOk(m: TreeMap, origin: Id, e: Entry) {
    && IsHome(m, origin) && IsHome(m, e.home) && IsHome(m, Bound(e))
    && AtOrAbove(m, e.home, Bound(e)) && AtOrAbove(m, Bound(e), origin) && Covers(m, Bound(e), e.basis)
    && (e.awaiting.Some? ==> origin in m.positions && AtOrAbove(m, e.home, e.awaiting.value.held) && RecordOk(m, origin, e.awaiting.value))
  }

  ghost predicate RecordOk(m: TreeMap, origin: Id, a: Awaiting) {
    && IsHome(m, a.floor) && IsHome(m, a.held) && AtOrAbove(m, a.floor, origin) && AtOrAbove(m, a.held, a.floor)
  }

  ghost predicate WriteOk(m: TreeMap, w: Write) {
    IsHome(m, w.key.origin) && IsHome(m, w.floor) && AtOrAbove(m, w.floor, w.key.origin) && Covers(m, w.floor, w.basis)
  }

  ghost predicate SeenOk(m: TreeMap, origin: Id, seen: Option<Seen>) {
    seen.Some? ==>
      && IsHome(m, seen.value.home) && AtOrAbove(m, seen.value.home, origin)
      && (seen.value.awaiting ==> origin in m.positions)
  }

  lemma LooksOk(m: TreeMap, origin: Id, at: Option<Entry>)
    requires at.Some? ==> EntryOk(m, origin, at.value)
    ensures SeenOk(m, origin, Looked(at))
  {
    if at.Some? { AboveTransitive(m, at.value.home, Bound(at.value), origin); }
  }

  /** When it is safe to store a row: what is about to be stored is
      bound at or above what the row there now is bound by, and at or above the
      write's floor; and it is not below where a record says it is held. */
  ghost predicate Safe(m: TreeMap, at: Option<Entry>, floor: Option<Id>, e: Entry) {
    && (at.Some? ==> AtOrAbove(m, Bound(e), Bound(at.value)))
    && (floor.Some? ==> AtOrAbove(m, Bound(e), floor.value))
    && (e.awaiting.Some? ==> AtOrAbove(m, e.home, e.awaiting.value.held))
  }

  // A row as writes, regrades and moves make it, whatever they had seen.
  ghost predicate Fits(m: TreeMap, origin: Id, at: Option<Entry>, floor: Option<Id>, e: Entry) {
    && IsHome(m, e.home)
    && (e.awaiting.Some? ==>
          || (at.Some? && at.value.awaiting == e.awaiting)
          || (floor.Some? && e.awaiting == Some(Awaiting(floor.value, e.home)) && AtOrAbove(m, e.home, floor.value) && origin in m.positions))
  }

  // What may have been read for the row there now, and by this write's writer.
  ghost predicate MayRest(m: TreeMap, at: Option<Entry>, floor: Option<Id>, basis: set<Id>) {
    forall h :: h in basis ==>
      || (at.Some? && AtOrAbove(m, Bound(at.value), EffectiveHome(m, h)))
      || (floor.Some? && AtOrAbove(m, floor.value, EffectiveHome(m, h)))
  }

  ghost predicate FloorOk(m: TreeMap, origin: Id, floor: Option<Id>) {
    floor.Some? ==> IsHome(m, floor.value) && AtOrAbove(m, floor.value, origin)
  }

  lemma SafeKeeps(m: ProperMap, origin: Id, at: Option<Entry>, floor: Option<Id>, e: Entry)
    requires IsHome(m, origin) && (at.Some? || floor.Some?) && FloorOk(m, origin, floor)
    requires at.Some? ==> EntryOk(m, origin, at.value)
    requires Fits(m, origin, at, floor, e) && Safe(m, at, floor, e) && MayRest(m, at, floor, e.basis)
    ensures EntryOk(m, origin, e)
  {
    var below := if at.Some? then Bound(at.value) else floor.value;
    AboveTransitive(m, Bound(e), below, origin);
    forall h | h in e.basis ensures AtOrAbove(m, Bound(e), EffectiveHome(m, h)) {
      if at.Some? && AtOrAbove(m, Bound(at.value), EffectiveHome(m, h)) {
        AboveTransitive(m, Bound(e), Bound(at.value), EffectiveHome(m, h));
      } else {
        AboveTransitive(m, Bound(e), floor.value, EffectiveHome(m, h));
      }
    }
  }

  /** That is: if and only if, whatever was read for what is there now and for the
      write, the row keeps its bound. */
  lemma SafeExactly(m: ProperMap, origin: Id, at: Option<Entry>, floor: Option<Id>, e: Entry)
    requires IsHome(m, origin) && (at.Some? || floor.Some?) && FloorOk(m, origin, floor)
    requires at.Some? ==> EntryOk(m, origin, at.value)
    requires Fits(m, origin, at, floor, e)
    ensures Safe(m, at, floor, e) <==> forall basis :: MayRest(m, at, floor, basis) ==> EntryOk(m, origin, e.(basis := basis))
  {
    if Safe(m, at, floor, e) {
      forall basis | MayRest(m, at, floor, basis) ensures EntryOk(m, origin, e.(basis := basis)) {
        SafeKeeps(m, origin, at, floor, e.(basis := basis));
      }
    }
    if forall basis :: MayRest(m, at, floor, basis) ==> EntryOk(m, origin, e.(basis := basis)) {
      var all := (if at.Some? then {Bound(at.value)} else {}) + if floor.Some? then {floor.value} else {};
      assert MayRest(m, at, floor, all);
      var f := e.(basis := all);
      assert EntryOk(m, origin, f) && Bound(f) == Bound(e);
      assert at.Some? ==> Bound(at.value) in all;
      assert floor.Some? ==> floor.value in all;
    }
  }

  // ---- what a write, a regrade and a move come to ----

  // Wherever it was placed from, a write's home is one, at or above its origin.
  lemma PlacedFits(c: Config, seen: Option<Seen>, origin: Id, floor: Id, grader: Grader)
    requires IsHome(c.tree, origin) && SeenOk(c.tree, origin, seen) && GraderIsAdmissible(c, origin, grader)
    requires IsHome(c.tree, floor) && AtOrAbove(c.tree, floor, origin)
    ensures var p := PlaceWrite(c, seen, origin, floor, grader);
      && IsHome(c.tree, p.home) && AtOrAbove(c.tree, p.home, origin)
      && (p.restrictedFrom.Some? ==> seen.Some? && p.restrictedFrom.value == seen.value.home && !p.ungraded)
      && (p.ungraded ==> seen.None? && origin in c.tree.positions)
      && (origin in c.tree.positions ==> AtOrAbove(c.tree, p.home, floor))
  {
    var m := c.tree;
    var home := if seen.Some? then seen.value.home else origin;
    assert AtOrAbove(m, origin, origin);
    if Ungradable(m, origin, grader) {
      FloorIsRespectedOnOneLine(m, Placed(home, None, None, None, false), origin, floor);
      if origin in m.positions { FloorIsRespectedAtAPosition(m, Placed(home, None, None, None, false), origin, floor); }
    } else if seen.None? || (seen.value.awaiting && grader.Answered?) {
      var verdict := if grader.Answered? then grader.verdict else None;
      var existing := if seen.Some? then Some(seen.value.home) else None;
      NewEntryRespectsOriginAndFloor(m, origin, verdict, grader.Answered?, existing, seen.Some?, floor, c.threshold);
    } else {
      var verdict := if grader.Answered? then grader.verdict else None;
      SettledEntryMovesUp(m, origin, verdict, grader.Answered?, home, floor, c.threshold);
      SettledEntryShowsNobodyNew(m, origin, verdict, grader.Answered?, home, floor, c.threshold);
      AboveTransitive(m, PlaceWrite(c, seen, origin, floor, grader).home, home, origin);
    }
  }

  lemma LandedFits(c: Config, at: Option<Entry>, seen: Option<Seen>, w: Write, grader: Grader)
    requires WriteOk(c.tree, w) && SeenOk(c.tree, w.key.origin, seen) && GraderIsAdmissible(c, w.key.origin, grader)
    ensures Fits(c.tree, w.key.origin, at, Some(w.floor), Landed(c, at, seen, w, grader))
  {
    PlacedFits(c, seen, w.key.origin, w.floor, grader);
  }

  lemma RegradeFits(c: Config, at: Entry, home: Id, a: Awaiting, origin: Id, verdict: Option<Verdict>)
    requires EntryOk(c.tree, origin, at) && RecordOk(c.tree, origin, a) && Admissible(c.tree, origin, verdict)
    ensures Fits(c.tree, origin, Some(at), None, RegradeLanded(c, at, home, a, origin, verdict))
  {
    if origin in c.tree.positions {
      NewEntryRespectsOriginAndFloor(c.tree, origin, verdict, true, None, false, a.floor, c.threshold);
    }
  }

  // ---- when what is stored is safe ----

  predicate Graded(c: Config, origin: Id, grader: Grader) { !Ungradable(c.tree, origin, grader) && grader.Answered? }

  // Placed as new: nothing was seen there, or what was seen is graded afresh.
  predicate PlacedAsNew(c: Config, seen: Option<Seen>, origin: Id, grader: Grader) {
    !Ungradable(c.tree, origin, grader) && (seen.None? || (seen.value.awaiting && grader.Answered?))
  }

  function Base(seen: Option<Seen>, origin: Id): (h: Id) { if seen.Some? then seen.value.home else origin }

  // a and b are on one line, and the higher of them is at or above x.
  ghost predicate HigherCovers(m: TreeMap, a: Id, b: Id, x: Id) {
    (AtOrAbove(m, a, b) && AtOrAbove(m, a, x)) || (AtOrAbove(m, b, a) && AtOrAbove(m, b, x))
  }

  // A record left standing still bounds a row that goes to the higher of these:
  // its floor does, or the row goes above the held place.
  ghost predicate RecordBinds(m: TreeMap, a: Awaiting, floor: Id, base: Id) {
    AtOrAbove(m, a.floor, floor) || !(AtOrAbove(m, a.held, base) && AtOrAbove(m, a.held, floor))
  }

  /** The guard on storing a write, in what is known before the grading model is
      asked: its floor, the row it saw, the row there now. Placed as new, a write
      may go down to its floor; else it goes to the higher of its floor and the
      home it saw, a worker's no higher than that home once graded. */
  ghost predicate MayLand(c: Config, at: Option<Entry>, seen: Option<Seen>, w: Write, grader: Grader) {
    var m, base := c.tree, Base(seen, w.key.origin);
    if PlacedAsNew(c, seen, w.key.origin, grader) then at.Some? ==> AtOrAbove(m, w.floor, Bound(at.value))
    else if Graded(c, w.key.origin, grader) then
      if w.worker then AtOrAbove(m, base, w.floor) && (at.Some? ==> AtOrAbove(m, base, Bound(at.value)))
      else at.Some? ==> HigherCovers(m, w.floor, base, Bound(at.value))
    else
      && Comparable(m, w.floor, base)
      && (at.Some? ==> HigherCovers(m, w.floor, base, at.value.home))
      && (at.Some? && at.value.awaiting.Some? ==> RecordBinds(m, at.value.awaiting.value, w.floor, base))
  }

  // What is asked of a write, and of the rows it sees and meets.
  ghost predicate WriteFits(c: Config, at: Option<Entry>, seen: Option<Seen>, w: Write) {
    && WriteOk(c.tree, w) && SeenOk(c.tree, w.key.origin, seen)
    && (at.Some? ==> EntryOk(c.tree, w.key.origin, at.value))
  }

  function WithVerdict(grader: Grader, v: Option<Verdict>): (g: Grader) { if grader.Answered? then Answered(v) else grader }

  // The verdict that lets an entry down furthest: sure, and at its origin.
  function AtItsOrigin(origin: Id): (v: Option<Verdict>) { Some(Verdict(origin, None, 1.0, None)) }

  // And the one that hides it furthest.
  function AtTheRoot(m: PositionMap): (v: Option<Verdict>) { Some(Verdict(m.root, Some(""), 1.0, None)) }

  // Not graded, a row that was seen goes to the higher of its home and the floor.
  lemma KeptHome(c: Config, at: Option<Entry>, seen: Option<Seen>, w: Write, grader: Grader)
    requires WriteFits(c, at, seen, w) && !PlacedAsNew(c, seen, w.key.origin, grader) && !Graded(c, w.key.origin, grader)
    ensures var e, base := Landed(c, at, seen, w, grader), Base(seen, w.key.origin);
      && e.home == (if AtOrAbove(c.tree, w.floor, base) then w.floor else base)
      && e.awaiting == if at.Some? then at.value.awaiting else None
  {
    var m, base := c.tree, Base(seen, w.key.origin);
    AncestorsAreAbove(m, w.floor, base);
    if w.floor == w.key.origin && AtOrAbove(m, w.floor, base) { AboveAntisymmetric(m, w.floor, base); }
  }

  lemma KeptIsSafeWhen(c: Config, at: Option<Entry>, seen: Option<Seen>, w: Write, grader: Grader)
    requires WriteFits(c, at, seen, w) && !PlacedAsNew(c, seen, w.key.origin, grader) && !Graded(c, w.key.origin, grader)
    ensures Safe(c.tree, at, Some(w.floor), Landed(c, at, seen, w, grader)) <==> MayLand(c, at, seen, w, grader)
  {
    var m, base, e := c.tree, Base(seen, w.key.origin), Landed(c, at, seen, w, grader);
    KeptHome(c, at, seen, w, grader);
    if AtOrAbove(m, w.floor, base) && AtOrAbove(m, base, w.floor) { AboveAntisymmetric(m, w.floor, base); }
    if at.Some? && at.value.awaiting.Some? {
      assert AtOrAbove(m, base, w.key.origin);
      AboveIsALine(m, w.floor, base, w.key.origin);
      KeptRecord(m, w.key.origin, at.value, w.floor, base, e.home);
    }
  }

  lemma HigherIsTheOne(m: ProperMap, x: Id, a: Id, b: Id, home: Id)
    requires IsHome(m, a) && IsHome(m, b) && IsHome(m, x) && Comparable(m, a, b) && home == if AtOrAbove(m, a, b) then a else b
    ensures AtOrAbove(m, x, home) <==> AtOrAbove(m, x, a) && AtOrAbove(m, x, b)
  {
    if AtOrAbove(m, x, home) {
      if home == a { AboveTransitive(m, x, a, b); } else { AboveTransitive(m, x, b, a); }
    }
  }

  // A record left standing, and where the row then goes.
  lemma KeptRecord(m: ProperMap, origin: Id, at: Entry, floor: Id, base: Id, home: Id)
    requires EntryOk(m, origin, at) && at.awaiting.Some?
    requires IsHome(m, floor) && IsHome(m, base) && AtOrAbove(m, floor, origin) && AtOrAbove(m, base, origin)
    requires home == if AtOrAbove(m, floor, base) then floor else base
    ensures Safe(m, Some(at), Some(floor), at.(home := home)) <==>
      AtOrAbove(m, home, at.home) && RecordBinds(m, at.awaiting.value, floor, base)
  {
    var a, e := at.awaiting.value, at.(home := home);
    AboveIsALine(m, floor, base, origin);
    if AtOrAbove(m, home, at.home) {
      AboveTransitive(m, home, at.home, a.held);
      AboveTransitive(m, home, at.home, Bound(at));
      if home == a.held { AboveAntisymmetric(m, home, at.home); }
      if AtOrAbove(m, a.held, home) { AboveAntisymmetric(m, home, a.held); }
      HigherIsTheOne(m, a.held, floor, base, home);
    } else if Safe(m, Some(at), Some(floor), e) && home == a.held {
      AboveTransitive(m, a.held, a.floor, at.home);
    }
  }

  lemma NewIsSafe(c: Config, at: Option<Entry>, seen: Option<Seen>, w: Write, grader: Grader)
    requires WriteFits(c, at, seen, w) && GraderIsAdmissible(c, w.key.origin, grader) && PlacedAsNew(c, seen, w.key.origin, grader)
    ensures MayLand(c, at, seen, w, grader) ==> Safe(c.tree, at, Some(w.floor), Landed(c, at, seen, w, grader))
    ensures !grader.Answered? && Safe(c.tree, at, Some(w.floor), Landed(c, at, seen, w, grader)) ==> MayLand(c, at, seen, w, grader)
  {
    PlacedFits(c, seen, w.key.origin, w.floor, grader);
    var e := Landed(c, at, seen, w, grader);
    if at.Some? && AtOrAbove(c.tree, w.floor, Bound(at.value)) { AboveTransitive(c.tree, e.home, w.floor, Bound(at.value)); }
  }

  // Graded, a row seen settled goes to the higher of its home and the floor, or
  // above both; a worker's stays where it was seen when grading would hide it.
  lemma GradedIsSafe(c: Config, at: Option<Entry>, seen: Option<Seen>, w: Write, grader: Grader)
    requires WriteFits(c, at, seen, w) && GraderIsAdmissible(c, w.key.origin, grader)
    requires Graded(c, w.key.origin, grader) && !PlacedAsNew(c, seen, w.key.origin, grader) && MayLand(c, at, seen, w, grader)
    ensures Safe(c.tree, at, Some(w.floor), Landed(c, at, seen, w, grader))
  {
    var m, base, e := c.tree, seen.value.home, Landed(c, at, seen, w, grader);
    PlacedFits(c, seen, w.key.origin, w.floor, grader);
    SettledEntryMovesUp(m, w.key.origin, grader.verdict, true, base, w.floor, c.threshold);
    var p := PlaceWrite(c, seen, w.key.origin, w.floor, grader);
    if at.Some? && e.home == p.home {
      AboveTransitive(m, p.home, if AtOrAbove(m, base, Bound(at.value)) then base else w.floor, Bound(at.value));
    }
  }

  // What the furthest verdicts come to.
  lemma FurthestVerdicts(c: Config, at: Option<Entry>, seen: Option<Seen>, w: Write)
    requires WriteFits(c, at, seen, w) && c.threshold <= 1.0 && w.key.origin != c.tree.root && w.key.origin != EVERYONE
    ensures var m, down, up := c.tree, Answered(AtItsOrigin(w.key.origin)), Answered(AtTheRoot(c.tree));
      && GraderIsAdmissible(c, w.key.origin, down) && GraderIsAdmissible(c, w.key.origin, up)
      && (PlacedAsNew(c, seen, w.key.origin, down) ==> Landed(c, at, seen, w, down).home == w.floor)
      && (seen.Some? && !seen.value.awaiting ==>
            && Landed(c, at, seen, w, down).home == (if AtOrAbove(m, w.floor, seen.value.home) then w.floor else seen.value.home)
            && (w.worker && seen.value.home != m.root ==> Landed(c, at, seen, w, up).home == seen.value.home))
  {
    var m, origin := c.tree, w.key.origin;
    assert AtOrAbove(m, origin, origin);
    RootIsAbove(m, origin);
    AncestorsAreAbove(m, w.floor, origin);
    if seen.Some? {
      AncestorsAreAbove(m, w.floor, seen.value.home);
      RootIsAbove(m, seen.value.home);
      AncestorsAreAbove(m, m.root, seen.value.home);
      if w.floor == origin && AtOrAbove(m, w.floor, seen.value.home) { AboveAntisymmetric(m, w.floor, seen.value.home); }
    }
  }

  lemma LosingWrite(c: Config, at: Option<Entry>, seen: Option<Seen>, w: Write)
    requires WriteFits(c, at, seen, w) && c.threshold <= 1.0 && Graded(c, w.key.origin, Answered(None))
    requires Safe(c.tree, at, Some(w.floor), Landed(c, at, seen, w, Answered(AtItsOrigin(w.key.origin))))
    requires Safe(c.tree, at, Some(w.floor), Landed(c, at, seen, w, Answered(AtTheRoot(c.tree))))
    ensures MayLand(c, at, seen, w, Answered(None))
  {
    var m := c.tree;
    FurthestVerdicts(c, at, seen, w);
    if seen.Some? && !seen.value.awaiting {
      AboveIsALine(m, w.floor, seen.value.home, w.key.origin);
      if seen.value.home == m.root {
        RootIsAbove(m, w.floor);
        if at.Some? { RootIsAbove(m, Bound(at.value)); }
      }
    }
  }

  ghost predicate AlwaysSafe(c: Config, at: Option<Entry>, seen: Option<Seen>, w: Write, grader: Grader) {
    forall v :: Admissible(c.tree, w.key.origin, v) ==> Safe(c.tree, at, Some(w.floor), Landed(c, at, seen, w, WithVerdict(grader, v)))
  }

  /** The guard is enough for whatever the grading model says. */
  lemma LandingIsSafe(c: Config, at: Option<Entry>, seen: Option<Seen>, w: Write, grader: Grader)
    requires WriteFits(c, at, seen, w) && GraderIsAdmissible(c, w.key.origin, grader) && MayLand(c, at, seen, w, grader)
    ensures Safe(c.tree, at, Some(w.floor), Landed(c, at, seen, w, grader))
  {
    if PlacedAsNew(c, seen, w.key.origin, grader) {
      NewIsSafe(c, at, seen, w, grader);
    } else if Graded(c, w.key.origin, grader) {
      GradedIsSafe(c, at, seen, w, grader);
    } else {
      KeptIsSafeWhen(c, at, seen, w, grader);
    }
  }

  /** And exact: a write placed by any earlier look, or by none, is safe over any
      row whatever the verdict, if and only if it holds. */
  lemma LandingIsSafeWhen(c: Config, at: Option<Entry>, seen: Option<Seen>, w: Write, grader: Grader)
    requires WriteFits(c, at, seen, w) && c.threshold <= 1.0
    ensures AlwaysSafe(c, at, seen, w, grader) <==> MayLand(c, at, seen, w, grader)
  {
    var origin := w.key.origin;
    if MayLand(c, at, seen, w, grader) {
      forall v | Admissible(c.tree, origin, v) ensures Safe(c.tree, at, Some(w.floor), Landed(c, at, seen, w, WithVerdict(grader, v))) {
        LandingIsSafe(c, at, seen, w, WithVerdict(grader, v));
      }
    }
    if AlwaysSafe(c, at, seen, w, grader) {
      if Graded(c, origin, grader) {
        FurthestVerdicts(c, at, seen, w);
        LosingWrite(c, at, seen, w);
      } else {
        assert Admissible(c.tree, origin, None) && WithVerdict(grader, None) == if grader.Answered? then Answered(None) else grader;
        if PlacedAsNew(c, seen, origin, grader) {
          NewIsSafe(c, at, seen, w, grader);
        } else {
          KeptIsSafeWhen(c, at, seen, w, WithVerdict(grader, None));
        }
      }
    }
  }

  /** Over a settled row of a position: the write's floor, or the home it saw
      unless that is graded afresh, must be at or above the home there now. */
  lemma OverSettledIsSafeWhen(c: Config, at: Entry, seen: Option<Seen>, w: Write, grader: Grader)
    requires WriteFits(c, Some(at), seen, w) && at.awaiting.None? && !w.worker && w.key.origin in c.tree.positions && c.threshold <= 1.0
    ensures AlwaysSafe(c, Some(at), seen, w, grader) <==>
      || AtOrAbove(c.tree, w.floor, at.home)
      || (seen.Some? && !(seen.value.awaiting && Graded(c, w.key.origin, grader)) && AtOrAbove(c.tree, seen.value.home, at.home))
  {
    var m, origin, base := c.tree, w.key.origin, Base(seen, w.key.origin);
    LandingIsSafeWhen(c, Some(at), seen, w, grader);
    assert AtOrAbove(m, origin, origin);
    AboveIsALine(m, w.floor, base, origin);
    if AtOrAbove(m, w.floor, base) && AtOrAbove(m, base, at.home) { AboveTransitive(m, w.floor, base, at.home); }
    if AtOrAbove(m, base, w.floor) && AtOrAbove(m, w.floor, at.home) { AboveTransitive(m, base, w.floor, at.home); }
    if seen.None? && AtOrAbove(m, base, at.home) { AboveTransitive(m, w.floor, origin, at.home); }
  }

  /** A regrade, whatever it had seen: it must find the row no longer where it was
      held, or its record's floor at or above what bounds the row now. */
  ghost predicate MayRegrade(m: TreeMap, at: Entry, home: Id, a: Awaiting) {
    home != a.held || AtOrAbove(m, a.floor, Bound(at))
  }

  lemma RegradeIsSafe(c: Config, at: Entry, home: Id, a: Awaiting, origin: Id, verdict: Option<Verdict>)
    requires EntryOk(c.tree, origin, at) && RecordOk(c.tree, origin, a) && origin in c.tree.positions && Admissible(c.tree, origin, verdict)
    requires MayRegrade(c.tree, at, home, a)
    ensures Safe(c.tree, Some(at), None, RegradeLanded(c, at, home, a, origin, verdict))
  {
    NewEntryRespectsOriginAndFloor(c.tree, origin, verdict, true, None, false, a.floor, c.threshold);
    if home == a.held { AboveTransitive(c.tree, RegradeLanded(c, at, home, a, origin, verdict).home, a.floor, Bound(at)); }
  }

  lemma RegradeIsSafeWhen(c: Config, at: Entry, home: Id, a: Awaiting, origin: Id)
    requires EntryOk(c.tree, origin, at) && RecordOk(c.tree, origin, a) && origin in c.tree.positions && c.threshold <= 1.0
    ensures (forall v :: Admissible(c.tree, origin, v) ==> Safe(c.tree, Some(at), None, RegradeLanded(c, at, home, a, origin, v)))
            <==> MayRegrade(c.tree, at, home, a)
  {
    if MayRegrade(c.tree, at, home, a) {
      forall v | Admissible(c.tree, origin, v) ensures Safe(c.tree, Some(at), None, RegradeLanded(c, at, home, a, origin, v)) {
        RegradeIsSafe(c, at, home, a, origin, v);
      }
    }
    var v := AtItsOrigin(origin);
    assert Admissible(c.tree, origin, v);
    AncestorsAreAbove(c.tree, a.floor, origin);
    assert home == a.held ==> RegradeLanded(c, at, home, a, origin, v).home == a.floor;
  }

  /** A move up, whatever it had seen, must not be to below the home there now. */
  lemma MoveIsSafeWhen(m: ProperMap, origin: Id, at: Entry, to: Id)
    requires EntryOk(m, origin, at) && IsHome(m, to)
    ensures Safe(m, Some(at), None, at.(home := to)) <==> AtOrAbove(m, to, at.home)
  {
    if AtOrAbove(m, to, at.home) {
      AboveTransitive(m, to, at.home, Bound(at));
      if at.awaiting.Some? {
        AboveTransitive(m, to, at.home, at.awaiting.value.held);
        if to == at.awaiting.value.held { AboveAntisymmetric(m, to, at.home); }
      }
    } else if at.awaiting.Some? && Safe(m, Some(at), None, at.(home := to)) && to == at.awaiting.value.held && at.home != to {
      AboveTransitive(m, to, at.awaiting.value.floor, at.home);
    }
  }

  // ---- when nothing came between ----

  /** Stored over the row it was placed by, a write can still lose what was read:
      one to an entry made for everyone, one to an entry that still awaits
      grading, and a worker's that grading would have hidden. These do not. */
  ghost predicate KeepsReads(c: Config, at: Option<Entry>, w: Write, grader: Grader) {
    var graded := Graded(c, w.key.origin, grader);
    at.Some? ==>
      && (w.key.origin == EVERYONE ==> Comparable(c.tree, w.floor, at.value.home))
      && (if at.value.awaiting.None? then graded && w.worker ==> AtOrAbove(c.tree, at.value.home, w.floor)
          else if graded then AtOrAbove(c.tree, w.floor, Bound(at.value))
          else LeavesRecordRight(c.tree, at.value, w.floor))
  }

  // The record left standing still bounds the row: the row is not where it was
  // held, or its floor is at or above this one, or this one raises the row.
  ghost predicate LeavesRecordRight(m: TreeMap, e: Entry, floor: Id)
    requires e.awaiting.Some?
  {
    var a := e.awaiting.value;
    e.home != a.held || AtOrAbove(m, a.floor, floor) || !AtOrAbove(m, e.home, floor)
  }

  lemma HeldRecordBinds(m: ProperMap, origin: Id, e: Entry, floor: Id)
    requires EntryOk(m, origin, e) && e.awaiting.Some?
    ensures RecordBinds(m, e.awaiting.value, floor, e.home) <==> LeavesRecordRight(m, e, floor)
  {
    if AtOrAbove(m, e.awaiting.value.held, e.home) { AboveAntisymmetric(m, e.awaiting.value.held, e.home); }
  }

  /** That is what the guard comes to for a row as it was seen. */
  lemma UndisturbedWriteMayLand(c: Config, at: Option<Entry>, w: Write, grader: Grader)
    requires WriteOk(c.tree, w) && (at.Some? ==> EntryOk(c.tree, w.key.origin, at.value))
    ensures MayLand(c, at, Looked(at), w, grader) <==> KeepsReads(c, at, w, grader)
  {
    var m, origin := c.tree, w.key.origin;
    LooksOk(m, origin, at);
    if at.None? {
      assert AtOrAbove(m, w.floor, origin);
    } else {
      var home := at.value.home;
      assert AtOrAbove(m, home, home);
      if origin in m.positions { AboveIsALine(m, w.floor, home, origin); }
      if AtOrAbove(m, w.floor, home) { AboveTransitive(m, w.floor, home, Bound(at.value)); }
      if at.value.awaiting.Some? { HeldRecordBinds(m, origin, at.value, w.floor); }
    }
  }

  /** `KeepsReads` is exact: whatever the verdict, the write is safe if and only
      if it holds. */
  lemma KeepsReadsExactly(c: Config, at: Option<Entry>, w: Write, grader: Grader)
    requires WriteOk(c.tree, w) && (at.Some? ==> EntryOk(c.tree, w.key.origin, at.value)) && c.threshold <= 1.0
    ensures AlwaysSafe(c, at, Looked(at), w, grader) <==> KeepsReads(c, at, w, grader)
  {
    LooksOk(c.tree, w.key.origin, at);
    UndisturbedWriteMayLand(c, at, w, grader);
    LandingIsSafeWhen(c, at, Looked(at), w, grader);
  }

  // ---- writing to an entry that still awaits grading ----

  ghost predicate Awaits(m: ProperMap, origin: Id, e: Entry) {
    EntryOk(m, origin, e) && origin != m.root && e.awaiting.Some?
  }

  /** A graded write treats an awaiting entry as new. Whatever the verdict, the
      entry stays at or above its bound exactly when the write's floor is. */
  lemma GradedRewriteIsSafeWhen(c: Config, e: Entry, w: Write)
    requires Awaits(c.tree, w.key.origin, e) && WriteOk(c.tree, w) && c.threshold <= 1.0
    ensures (forall v :: Admissible(c.tree, w.key.origin, v) ==> AtOrAbove(c.tree, Written(c, Some(e), w, Answered(v)).home, Bound(e)))
            <==> AtOrAbove(c.tree, w.floor, Bound(e))
  {
    var m, origin := c.tree, w.key.origin;
    if AtOrAbove(m, w.floor, Bound(e)) {
      forall v | Admissible(m, origin, v) ensures AtOrAbove(m, Written(c, Some(e), w, Answered(v)).home, Bound(e)) {
        LooksOk(m, origin, Some(e));
        NewIsSafe(c, Some(e), Looked(Some(e)), w, Answered(v));
      }
    }
    var v := AtItsOrigin(origin);
    assert Admissible(m, origin, v);
    AncestorsAreAbove(m, w.floor, origin);
    assert Written(c, Some(e), w, Answered(v)).home == w.floor;
  }

  /** A write while the grading model is out leaves the record as it is. Whatever
      the regrade then says, the entry stays at or above the write's floor
      exactly when the entry is no longer where it was held, when the record's
      floor is at or above the write's, or when the write's floor raises it. */
  lemma UngradedRewriteIsSafeWhen(c: Config, e: Entry, w: Write)
    requires Awaits(c.tree, w.key.origin, e) && WriteOk(c.tree, w) && c.threshold <= 1.0
    ensures (forall v :: Admissible(c.tree, w.key.origin, v) ==>
               AtOrAbove(c.tree, Regraded(c, Written(c, Some(e), w, Unreached), w.key.origin, v).home, w.floor))
            <==> LeavesRecordRight(c.tree, e, w.floor)
  {
    var m, origin := c.tree, w.key.origin;
    var a, u := e.awaiting.value, Written(c, Some(e), w, Unreached);
    LooksOk(m, origin, Some(e));
    KeptHome(c, Some(e), Looked(Some(e)), w, Unreached);
    AboveIsALine(m, w.floor, e.home, origin);
    if u.home == a.held { AboveAntisymmetric(m, u.home, e.home); }
    if LeavesRecordRight(m, e, w.floor) {
      forall v | Admissible(m, origin, v) ensures AtOrAbove(m, Regraded(c, u, origin, v).home, w.floor) {
        if u.home == a.held {
          NewEntryRespectsOriginAndFloor(m, origin, v, true, None, false, a.floor, c.threshold);
          AboveTransitive(m, Regraded(c, u, origin, v).home, a.floor, w.floor);
        }
      }
    }
    if e.home == a.held && AtOrAbove(m, e.home, w.floor) {
      if AtOrAbove(m, w.floor, e.home) { AboveAntisymmetric(m, w.floor, e.home); }
      var v := AtItsOrigin(origin);
      assert Admissible(m, origin, v);
      AncestorsAreAbove(m, a.floor, origin);
      assert u.home == e.home && Regraded(c, u, origin, v).home == a.floor;
    }
  }

  // ---- what was decided is what is stored ----

  /** A write placed as new, graded and sure: the row goes to the home the verdict
      names, or to the write's floor above that, settled, with what its writer
      read added to what was read for it; whoever sees it sees both homes. */
  lemma SureWriteFollowsItsVerdict(c: Config, at: Option<Entry>, seen: Option<Seen>, w: Write, v: Verdict)
    requires WriteFits(c, at, seen, w) && Admissible(c.tree, w.key.origin, Some(v)) && v.confidence >= c.threshold
    requires w.key.origin in c.tree.positions && w.key.origin != c.tree.root
    requires seen.None? || seen.value.awaiting
    ensures var e := Landed(c, at, seen, w, Answered(Some(v)));
      && IsHigher(c.tree, e.home, v.home, w.floor) && e.awaiting.None?
      && e.basis == w.basis + (if at.Some? then at.value.basis else {})
    ensures forall held :: Sees(c.tree, held, Landed(c, at, seen, w, Answered(Some(v))).home) ==> Sees(c.tree, held, v.home)
  {
    SureVerdictPlacesTheEntry(c.tree, w.key.origin, v, if seen.Some? then Some(seen.value.home) else None, seen.Some?, w.floor, c.threshold);
  }

  /** Not sure: it is held at the origin's parent or the floor above. Not reached:
      there too, and a record is kept of where, and of the floor. */
  lemma OtherWritesAreHeldAbove(c: Config, at: Option<Entry>, seen: Option<Seen>, w: Write, grader: Grader)
    requires WriteFits(c, at, seen, w) && PlacedAsNew(c, seen, w.key.origin, grader) && w.key.origin in c.tree.positions
    requires grader.Answered? && grader.verdict.Some? ==> grader.verdict.value.confidence < c.threshold
    ensures var e, up := Landed(c, at, seen, w, grader), Up(c.tree, w.key.origin);
      && up.Some? && IsHigher(c.tree, e.home, up.value, w.floor)
      && e.awaiting == if grader.Answered? then None else Some(Awaiting(w.floor, e.home))
  {
    OthersAreHeldAbove(c.tree, w.key.origin, if grader.Answered? then grader.verdict else None, grader.Answered?,
                       if seen.Some? then Some(seen.value.home) else None, seen.Some? && grader.Answered?, w.floor, c.threshold);
  }

  /** A graded write to a settled row hides it where a sure verdict above its home
      says, or at the floor above that; a worker's leaves it where it was seen. */
  lemma RestrictingWriteHides(c: Config, at: Option<Entry>, seen: Seen, w: Write, v: Verdict)
    requires WriteFits(c, at, Some(seen), w) && Admissible(c.tree, w.key.origin, Some(v)) && !seen.awaiting
    requires w.key.origin in c.tree.positions && w.key.origin != c.tree.root
    requires Restricts(c.tree, w.key.origin, v, seen.home, c.threshold)
    ensures var e := Landed(c, at, Some(seen), w, Answered(Some(v)));
      e.awaiting.None? && if w.worker then e.home == seen.home else IsHigher(c.tree, e.home, v.home, w.floor)
  {
    RestrictingVerdictHides(c.tree, w.key.origin, v, seen.home, w.floor, c.threshold);
  }

  /** Any other write leaves the row at the home it saw, or lifts it to its floor. */
  lemma OtherWritesLeaveIt(c: Config, at: Option<Entry>, seen: Seen, w: Write, grader: Grader)
    requires WriteFits(c, at, Some(seen), w) && !PlacedAsNew(c, Some(seen), w.key.origin, grader)
    requires Graded(c, w.key.origin, grader) && grader.verdict.Some? ==>
      !Restricts(c.tree, w.key.origin, grader.verdict.value, seen.home, c.threshold)
    ensures var e := Landed(c, at, Some(seen), w, grader);
      && e.home == (if w.floor != w.key.origin && AtOrAbove(c.tree, w.floor, seen.home) then w.floor else seen.home)
      && e.awaiting == if Graded(c, w.key.origin, grader) || at.None? then None else at.value.awaiting
  {
    if Graded(c, w.key.origin, grader) || grader.Unreached? {
      OtherVerdictsLeaveIt(c.tree, w.key.origin, if grader.Answered? then grader.verdict else None, grader.Answered?, seen.home, w.floor, c.threshold);
    }
    AncestorsAreAbove(c.tree, w.floor, seen.home);
  }

  // Written for everyone, at the root, or with grading off, a new row goes to its
  // origin, or to the floor above that.
  lemma UngradedWriteStays(c: Config, at: Option<Entry>, w: Write, grader: Grader)
    requires WriteFits(c, at, None, w) && Ungradable(c.tree, w.key.origin, grader)
    ensures Landed(c, at, None, w, grader).home == w.floor
  {
    AncestorsAreAbove(c.tree, w.floor, w.key.origin);
  }

  /** A regrade settles the row: where it was held still, at the home the verdict
      names or the first write's floor above that, or above its origin when
      unsure; where it was moved meanwhile, it stays. */
  lemma RegradeFollowsItsVerdict(c: Config, at: Entry, home: Id, a: Awaiting, origin: Id, verdict: Option<Verdict>)
    requires origin in c.tree.positions && RecordOk(c.tree, origin, a) && Admissible(c.tree, origin, verdict)
    ensures var e := RegradeLanded(c, at, home, a, origin, verdict);
      && e.awaiting.None? && e.basis == at.basis
      && (home != a.held ==> e.home == at.home)
      && (home == a.held && verdict.Some? && verdict.value.confidence >= c.threshold ==> IsHigher(c.tree, e.home, verdict.value.home, a.floor))
      && (home == a.held && (verdict.Some? ==> verdict.value.confidence < c.threshold) ==>
            IsHigher(c.tree, e.home, if Up(c.tree, origin).Some? then Up(c.tree, origin).value else origin, a.floor))
  {
    if verdict.Some? && verdict.value.confidence >= c.threshold {
      SureVerdictPlacesTheEntry(c.tree, origin, verdict.value, None, false, a.floor, c.threshold);
    } else {
      OthersAreHeldAbove(c.tree, origin, verdict, true, None, false, a.floor, c.threshold);
    }
  }
}
