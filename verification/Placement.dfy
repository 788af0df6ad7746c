/** Where an entry is seen from: the grading model's verdict (graph-rag/src/grading.js)
    and the derived-data floor (graph-rag/src/placement.js) meet here. */
module Placement {
  import opened Wrappers
  import opened Positions
  import opened Visibility

  // One answer of the grading model for one entity. `topic` is the listed topic its
  // answer names, if any; a confidence that is not a finite number is None.
  datatype RawItem = RawItem(name: Option<string>, visibleFrom: string, topic: Option<string>,
                             confidence: Option<real>, releaseTo: Option<string>)

  datatype Verdict = Verdict(home: Id, topic: Option<string>, confidence: real, release: Option<Id>)

  // review and release carry the home proposed to a person.
  datatype Placed = Placed(home: Id, review: Option<Id>, release: Option<Id>, restrictedFrom: Option<Id>, ungraded: bool)

  // ---- reading the grading model's answer ----

  function FirstNamed(items: seq<Option<RawItem>>, name: string): (it: Option<RawItem>) {
    if items == [] then None
    else if items[0].Some? && items[0].value.name == Some(name) then items[0]
    else FirstNamed(items[1..], name)
  }

  function ItemFor(items: seq<Option<RawItem>>, i: nat, name: string): (it: Option<RawItem>) {
    var named := FirstNamed(items, name);
    if named.Some? then named else if i < |items| then items[i] else None
  }

  function Label(byLabel: map<string, Id>, tag: string): (id: Option<Id>) {
    if tag in byLabel then Some(byLabel[tag]) else None
  }

  function Clamp(c: real): (r: real) { if c < 0.0 then 0.0 else if c > 1.0 then 1.0 else c }

  /** The verdict for the i-th name, or None where the answer is unusable. */
  function ParseVerdict(items: seq<Option<RawItem>>, i: nat, name: string, byLabel: map<string, Id>,
                        m: TreeMap, origin: Id): (v: Option<Verdict>)
  {
    match ItemFor(items, i, name)
    case None => None
    case Some(it) =>
      var up := [origin] + Ancestors(m, origin);
      match Label(byLabel, it.visibleFrom)
      case None => None
      case Some(home) =>
        if home == "" || home !in up || it.confidence.None? then None
        else
          var unlisted := home != origin && it.topic.None?;
          var rel := if it.releaseTo.Some? then Label(byLabel, it.releaseTo.value) else None;
          var down := Subtree(m, origin) - {origin};
          Some(Verdict(if unlisted then origin else home,
                       if unlisted then None else it.topic,
                       Clamp(it.confidence.value),
                       if rel.Some? && rel.value in down then rel else None))
  }

  function ParseVerdicts(items: seq<Option<RawItem>>, names: seq<string>, byLabel: map<string, Id>,
                         m: TreeMap, origin: Id): (vs: seq<Option<Verdict>>)
  {
    seq(|names|, i requires 0 <= i < |names| => ParseVerdict(items, i, names[i], byLabel, m, origin))
  }

  /** What a verdict may say, whatever the grading model answered. */
  ghost predicate Admissible(m: TreeMap, origin: Id, v: Option<Verdict>) {
    v.Some? ==>
      && IsHome(m, v.value.home) && AtOrAbove(m, v.value.home, origin)
      && (v.value.home != origin ==> v.value.topic.Some?)
      && 0.0 <= v.value.confidence <= 1.0
      && (v.value.release.Some? ==>
            v.value.release.value in m.positions && v.value.release.value != origin && AtOrAbove(m, origin, v.value.release.value))
  }

  /** No answer grades an entity below its origin, or above it without naming
      a listed topic; a release may only be proposed strictly below. */
  lemma VerdictsAreAdmissible(items: seq<Option<RawItem>>, names: seq<string>, byLabel: map<string, Id>,
                              m: ProperMap, origin: Id)
    requires IsHome(m, origin)
    ensures |ParseVerdicts(items, names, byLabel, m, origin)| == |names|
    ensures forall v :: v in ParseVerdicts(items, names, byLabel, m, origin) ==> Admissible(m, origin, v)
  {
    forall v | v in ParseVerdicts(items, names, byLabel, m, origin) ensures Admissible(m, origin, v) {
      if v.Some? {
        AncestorsAreAbove(m, v.value.home, origin);
        if v.value.release.Some? {
          AncestorsAreAbove(m, origin, v.value.release.value);
        }
      }
    }
  }

  // ---- deciding ----

  function OneUp(m: PositionMap, origin: Id): (up: Id) {
    match Up(m, origin) case Some(p) => p case None => origin
  }

  function Decide(m: TreeMap, origin: Id, verdict: Option<Verdict>, current: Option<Id>, threshold: real): (p: Placed)
  {
    var sure := verdict.Some? && verdict.value.confidence >= threshold;
    if current.Some? then
      var cur := current.value;
      if sure && verdict.value.home != origin && verdict.value.home != cur && verdict.value.home in Ancestors(m, cur)
      then Placed(verdict.value.home, None, None, Some(cur), false)
      else Placed(cur, None, None, None, false)
    else if !sure then
      var up := OneUp(m, origin);
      Placed(up, if up != origin then Some(origin) else None, None, None, false)
    else Placed(verdict.value.home, None, verdict.value.release, None, false)
  }

  function ApplyFloor(m: TreeMap, place: Placed, origin: Id, floor: Option<Id>): (p: Placed)
  {
    if floor.None? || floor.value == "" || floor.value == origin then place
    else
      var rest := place.(review := None, release := None);
      if floor.value != place.home && floor.value in Ancestors(m, place.home) then rest.(home := floor.value) else rest
  }

  function Place(m: TreeMap, origin: Id, verdict: Option<Verdict>, graded: bool, existing: Option<Id>,
                 awaiting: bool, floor: Option<Id>, threshold: real): (p: Placed)
  {
    var current := if awaiting then None else existing;
    if !graded && current.None? then
      ApplyFloor(m, Placed(OneUp(m, origin), None, None, None, true), origin, floor)
    else
      ApplyFloor(m, Decide(m, origin, if graded then verdict else None, current, threshold), origin, floor)
  }

  function FloorLifts(m: TreeMap, at: Id, floor: Option<Id>): (b: bool)
  {
    floor.Some? && floor.value != "" && floor.value != at && at != EVERYONE && floor.value in Ancestors(m, at)
  }

  // ---- the floor ----

  ghost predicate Comparable(m: TreeMap, a: Id, b: Id) {
    AtOrAbove(m, a, b) || AtOrAbove(m, b, a)
  }

  /** With home and floor both at or above the origin, the floor is respected
      exactly when the two are on one line; either way nothing is lowered. */
  lemma FloorIsRespectedOnOneLine(m: ProperMap, place: Placed, origin: Id, floor: Id)
    requires IsHome(m, origin) && IsHome(m, place.home) && IsHome(m, floor)
    requires AtOrAbove(m, place.home, origin) && AtOrAbove(m, floor, origin)
    ensures var p := ApplyFloor(m, place, origin, Some(floor));
      && IsHome(m, p.home) && AtOrAbove(m, p.home, place.home) && AtOrAbove(m, p.home, origin)
      && (AtOrAbove(m, p.home, floor) <==> Comparable(m, floor, place.home))
  {
    AncestorsAreAbove(m, floor, place.home);
    var p := ApplyFloor(m, place, origin, Some(floor));
    assert AtOrAbove(m, p.home, place.home);
    AboveTransitive(m, p.home, place.home, origin);
    if AtOrAbove(m, p.home, floor) && p.home != place.home { assert p.home == floor; }
  }

  // Above a position everything is on one line, so the floor always holds.
  lemma FloorIsRespectedAtAPosition(m: ProperMap, place: Placed, origin: Id, floor: Id)
    requires origin in m.positions && IsHome(m, place.home) && IsHome(m, floor)
    requires AtOrAbove(m, place.home, origin) && AtOrAbove(m, floor, origin)
    ensures var p := ApplyFloor(m, place, origin, Some(floor));
      && IsHome(m, p.home) && AtOrAbove(m, p.home, place.home)
      && AtOrAbove(m, p.home, origin) && AtOrAbove(m, p.home, floor)
  {
    AboveIsALine(m, floor, place.home, origin);
    FloorIsRespectedOnOneLine(m, place, origin, floor);
  }

  // Two teams side by side under the root.
  function TwoTeams(): (m: PositionMap) {
    PositionMap("org", ["org", "a", "b"],
      map["org" := Position("org", None), "a" := Position("a", Some("org")), "b" := Position("b", Some("org"))])
  }

  lemma TwoTeamsIsProper()
    ensures Proper(TwoTeams())
    ensures !Comparable(TwoTeams(), "a", "b")
  {
    var m := TwoTeams();
    assert m.order[0] == "org" && m.order[1] == "a" && m.order[2] == "b";
    assert Climb(m, "org", 0) == Some("org");
    assert Climb(m, "a", 1) == Some("org");
    assert Climb(m, "b", 1) == Some("org");
    assert Tree(m);
    assert !AtOrAbove(m, "a", "org") && !AtOrAbove(m, "b", "org");
  }

  /** An entry written for everyone and since held at one team is not moved by
      a floor at the other: its writer read what the first team cannot see. */
  lemma EveryonesEntryMissesItsFloor()
    ensures var m := TwoTeams();
      Proper(m) &&
      var p := ApplyFloor(m, Placed("a", None, None, None, false), EVERYONE, Some("b"));
      p.home == "a" && Sees(m, ["a"], p.home) && !Sees(m, ["a"], "b")
  {
    var m := TwoTeams();
    TwoTeamsIsProper();
    AncestorsAreAbove(m, "b", "a");
    assert AtOrAbove(m, "a", "a") && "a" in ["a"];
    forall p | p in ["a"] ensures !AtOrAbove(m, p, "b") { assert p == "a"; }
  }

  // ---- placing ----

  lemma DecideIsAtOrAboveOrigin(m: ProperMap, origin: Id, verdict: Option<Verdict>, threshold: real)
    requires origin in m.positions && Admissible(m, origin, verdict)
    ensures var p := Decide(m, origin, verdict, None, threshold);
      IsHome(m, p.home) && AtOrAbove(m, p.home, origin)
    ensures OneUp(m, origin) in m.positions && AtOrAbove(m, OneUp(m, origin), origin)
  {
    if Up(m, origin).Some? { ParentIsHigher(m, origin); }
  }

  /** A new entry lands at or above both its origin and its floor. */
  lemma NewEntryRespectsOriginAndFloor(m: ProperMap, origin: Id, verdict: Option<Verdict>, graded: bool,
                                       existing: Option<Id>, awaiting: bool, floor: Id, threshold: real)
    requires origin in m.positions && Admissible(m, origin, verdict)
    requires existing.None? || awaiting
    requires IsHome(m, floor) && AtOrAbove(m, floor, origin)
    ensures var p := Place(m, origin, verdict, graded, existing, awaiting, Some(floor), threshold);
      && IsHome(m, p.home) && AtOrAbove(m, p.home, origin) && AtOrAbove(m, p.home, floor)
      && (p.ungraded <==> !graded)
  {
    DecideIsAtOrAboveOrigin(m, origin, verdict, threshold);
    DecideIsAtOrAboveOrigin(m, origin, None, threshold);
    if graded {
      FloorIsRespectedAtAPosition(m, Decide(m, origin, verdict, None, threshold), origin, floor);
    } else {
      FloorIsRespectedAtAPosition(m, Placed(OneUp(m, origin), None, None, None, true), origin, floor);
    }
  }

  // An update only moves an entry up, and proposes nothing.
  lemma SettledEntryMovesUp(m: ProperMap, origin: Id, verdict: Option<Verdict>, graded: bool,
                            existing: Id, floor: Id, threshold: real)
    requires IsHome(m, existing) && IsHome(m, floor)
    ensures var p := Place(m, origin, verdict, graded, Some(existing), false, Some(floor), threshold);
      && IsHome(m, p.home) && AtOrAbove(m, p.home, existing) && !p.ungraded
      && p.review.None? && p.release.None?
      && (p.restrictedFrom.Some? ==> p.restrictedFrom.value == existing)
  {
    var d := Decide(m, origin, if graded then verdict else None, Some(existing), threshold);
    AncestorsAreAbove(m, d.home, existing);
    AncestorsAreAbove(m, floor, d.home);
    var p := Place(m, origin, verdict, graded, Some(existing), false, Some(floor), threshold);
    AboveTransitive(m, p.home, d.home, existing);
  }

  /** A settled entry is never shown to anybody new, and ends at or above the
      floor too when it was at or above its origin. */
  lemma SettledEntryShowsNobodyNew(m: ProperMap, origin: Id, verdict: Option<Verdict>, graded: bool,
                                   existing: Id, floor: Id, threshold: real)
    requires origin in m.positions && IsHome(m, existing) && IsHome(m, floor) && AtOrAbove(m, floor, origin)
    ensures var p := Place(m, origin, verdict, graded, Some(existing), false, Some(floor), threshold);
      && (forall held :: Sees(m, held, p.home) ==> Sees(m, held, existing))
      && (AtOrAbove(m, existing, origin) ==> AtOrAbove(m, p.home, floor))
  {
    SettledEntryMovesUp(m, origin, verdict, graded, existing, floor, threshold);
    var p := Place(m, origin, verdict, graded, Some(existing), false, Some(floor), threshold);
    SeeingFollowsTheOrder(m, p.home, existing);
    if AtOrAbove(m, existing, origin) {
      var d := Decide(m, origin, if graded then verdict else None, Some(existing), threshold);
      AncestorsAreAbove(m, d.home, existing);
      AboveTransitive(m, d.home, existing, origin);
      FloorIsRespectedAtAPosition(m, d, origin, floor);
    }
  }

  /** A proposal to show an entry lower survives only when nothing its writer
      read lies above the origin. */
  lemma ProposalsNeedAnUnraisedFloor(m: ProperMap, origin: Id, verdict: Option<Verdict>, graded: bool,
                                     existing: Option<Id>, awaiting: bool, floor: Id, threshold: real)
    requires origin in m.positions && IsHome(m, floor)
    ensures var p := Place(m, origin, verdict, graded, existing, awaiting, Some(floor), threshold);
      var current := if awaiting then None else existing;
      p.review.Some? || p.release.Some? <==>
        && floor == origin && graded && current.None?
        && (if verdict.Some? && verdict.value.confidence >= threshold then verdict.value.release.Some? else origin != m.root)
  {
    if origin != m.root { ParentIsHigher(m, origin); }
  }

  // ---- what was decided is what happens ----

  // The higher of two homes on one line.
  ghost predicate IsHigher(m: TreeMap, h: Id, a: Id, b: Id) {
    (h == a || h == b) && AtOrAbove(m, h, a) && AtOrAbove(m, h, b)
  }

  // Whoever sees it sees both.
  lemma HigherShowsNoMore(m: TreeMap, h: Id, a: Id, b: Id, held: seq<Id>)
    requires IsHome(m, a) && IsHome(m, b) && IsHigher(m, h, a, b) && Sees(m, held, h)
    ensures Sees(m, held, a) && Sees(m, held, b)
  {
    SeeingFollowsTheOrder(m, h, a);
    SeeingFollowsTheOrder(m, h, b);
  }

  // The floor lifts a placement to the higher of the two.
  lemma FloorGoesHigher(m: ProperMap, place: Placed, origin: Id, floor: Id)
    requires origin in m.positions && IsHome(m, place.home) && IsHome(m, floor)
    requires AtOrAbove(m, place.home, origin) && AtOrAbove(m, floor, origin)
    ensures var p := ApplyFloor(m, place, origin, Some(floor));
      && IsHigher(m, p.home, place.home, floor) && p.restrictedFrom == place.restrictedFrom && p.ungraded == place.ungraded
      && p.review == (if floor == origin then place.review else None) && p.release == (if floor == origin then place.release else None)
  {
    FloorIsRespectedAtAPosition(m, place, origin, floor);
    AncestorsAreAbove(m, floor, place.home);
  }

  /** A new or awaiting entry the grading model is sure of goes to the home its
      verdict names, or to the floor above that: whoever sees it sees both. */
  lemma SureVerdictPlacesTheEntry(m: ProperMap, origin: Id, v: Verdict, existing: Option<Id>, awaiting: bool, floor: Id, threshold: real)
    requires origin in m.positions && Admissible(m, origin, Some(v)) && v.confidence >= threshold
    requires existing.None? || awaiting
    requires IsHome(m, floor) && AtOrAbove(m, floor, origin)
    ensures var p := Place(m, origin, Some(v), true, existing, awaiting, Some(floor), threshold);
      && IsHigher(m, p.home, v.home, floor) && p.restrictedFrom.None? && !p.ungraded && p.review.None?
      && p.release == if floor == origin then v.release else None
    ensures forall held :: Sees(m, held, Place(m, origin, Some(v), true, existing, awaiting, Some(floor), threshold).home) ==>
      Sees(m, held, v.home)
  {
    FloorGoesHigher(m, Placed(v.home, None, v.release, None, false), origin, floor);
    var h := Place(m, origin, Some(v), true, existing, awaiting, Some(floor), threshold).home;
    forall held | Sees(m, held, h) ensures Sees(m, held, v.home) { HigherShowsNoMore(m, h, v.home, floor, held); }
  }

  /** One it is not sure of, or could not be asked about, is held at the parent
      of its origin, or at the floor above that; only the unsure is reviewed. */
  lemma OthersAreHeldAbove(m: ProperMap, origin: Id, verdict: Option<Verdict>, graded: bool, existing: Option<Id>, awaiting: bool, floor: Id, threshold: real)
    requires origin in m.positions && IsHome(m, floor) && AtOrAbove(m, floor, origin)
    requires graded && verdict.Some? ==> verdict.value.confidence < threshold
    requires existing.None? || (awaiting && graded)
    ensures var p, up := Place(m, origin, verdict, graded, existing, awaiting, Some(floor), threshold), if Up(m, origin).Some? then Up(m, origin).value else origin;
      && IsHigher(m, p.home, up, floor) && AtOrAbove(m, p.home, up)
      && p.ungraded == !graded && p.restrictedFrom.None? && p.release.None?
      && p.review == if graded && floor == origin && Up(m, origin).Some? then Some(origin) else None
  {
    var up := if Up(m, origin).Some? then Up(m, origin).value else origin;
    if Up(m, origin).Some? { ParentIsHigher(m, origin); }
    assert AtOrAbove(m, up, up) && AtOrAbove(m, up, origin);
    assert Up(m, origin).Some? ==> up != origin;
    FloorGoesHigher(m, Placed(up, if up != origin then Some(origin) else None, None, None, false), origin, floor);
    FloorGoesHigher(m, Placed(up, None, None, None, true), origin, floor);
  }

  // A verdict that would hide a settled entry from people who see it.
  ghost predicate Restricts(m: TreeMap, origin: Id, v: Verdict, current: Id, threshold: real) {
    v.confidence >= threshold && v.home != origin && v.home != current && AtOrAbove(m, v.home, current)
  }

  /** A settled entry goes up where a sure verdict above its home says, or to the
      floor above that, and it is known from where. */
  lemma RestrictingVerdictHides(m: ProperMap, origin: Id, v: Verdict, current: Id, floor: Id, threshold: real)
    requires origin in m.positions && Admissible(m, origin, Some(v)) && Restricts(m, origin, v, current, threshold)
    requires IsHome(m, current) && IsHome(m, floor) && AtOrAbove(m, floor, origin)
    ensures var p := Place(m, origin, Some(v), true, Some(current), false, Some(floor), threshold);
      IsHigher(m, p.home, v.home, floor) && p.restrictedFrom == Some(current)
  {
    AncestorsAreAbove(m, v.home, current);
    FloorGoesHigher(m, Placed(v.home, None, None, Some(current), false), origin, floor);
  }

  /** Any other verdict, or none, leaves it where it is, unless its floor is above. */
  lemma OtherVerdictsLeaveIt(m: ProperMap, origin: Id, verdict: Option<Verdict>, graded: bool, current: Id, floor: Id, threshold: real)
    requires IsHome(m, current) && IsHome(m, floor)
    requires graded && verdict.Some? ==> !Restricts(m, origin, verdict.value, current, threshold)
    ensures var p := Place(m, origin, verdict, graded, Some(current), false, Some(floor), threshold);
      && p.home == (if floor != origin && AtOrAbove(m, floor, current) then floor else current)
      && p.restrictedFrom.None? && !p.ungraded && p.review.None? && p.release.None?
  {
    if verdict.Some? { AncestorsAreAbove(m, verdict.value.home, current); }
    AncestorsAreAbove(m, floor, current);
    assert "" !in m.positions;
  }

  /** A worker's write is lifted exactly when its floor is strictly above where
      the entry lives, and that is not everyone's. */
  lemma FloorLiftsWhen(m: ProperMap, at: Id, floor: Id)
    requires IsHome(m, at) && IsHome(m, floor)
    ensures FloorLifts(m, at, Some(floor)) <==> at != EVERYONE && floor != at && AtOrAbove(m, floor, at)
    ensures !FloorLifts(m, at, None)
  {
    AncestorsAreAbove(m, floor, at);
  }

  // ---- what was answered is what is decided ----

  // The answer's item for an entity: the first that names it, else the one in its place.
  ghost predicate ItemOf(items: seq<Option<RawItem>>, i: nat, name: string, it: RawItem) {
    (exists k :: 0 <= k < |items| && FirstToName(items, k, name) && items[k] == Some(it))
    || (NobodyNames(items, name) && i < |items| && items[i] == Some(it))
  }

  ghost predicate Names(items: seq<Option<RawItem>>, k: nat, name: string)
    requires k < |items|
  {
    items[k].Some? && items[k].value.name == Some(name)
  }

  ghost predicate FirstToName(items: seq<Option<RawItem>>, k: nat, name: string) {
    k < |items| && Names(items, k, name) && forall j :: 0 <= j < k ==> !Names(items, j, name)
  }

  ghost predicate NobodyNames(items: seq<Option<RawItem>>, name: string) { forall j :: 0 <= j < |items| ==> !Names(items, j, name) }

  lemma {:induction false} FirstNamedIs(items: seq<Option<RawItem>>, name: string) returns (k: nat)
    ensures FirstNamed(items, name).None? <==> NobodyNames(items, name)
    ensures FirstNamed(items, name).Some? ==> FirstToName(items, k, name) && items[k] == FirstNamed(items, name)
  {
    k := 0;
    if items != [] {
      if Names(items, 0, name) {
        assert FirstToName(items, 0, name);
      } else {
        var j := FirstNamedIs(items[1..], name);
        k := j + 1;
        forall i | 0 < i < |items| ensures Names(items, i, name) <==> Names(items[1..], i - 1, name) {}
        if !NobodyNames(items[1..], name) {
          var l :| 0 <= l < |items[1..]| && Names(items[1..], l, name);
          assert Names(items, l + 1, name);
        }
        if !NobodyNames(items, name) {
          var l :| 0 <= l < |items| && Names(items, l, name);
          assert Names(items[1..], l - 1, name);
        }
      }
    }
  }

  lemma ItemForIs(items: seq<Option<RawItem>>, i: nat, name: string, it: RawItem)
    ensures ItemFor(items, i, name) == Some(it) <==> ItemOf(items, i, name, it)
  {
    var k := FirstNamedIs(items, name);
    if exists j :: 0 <= j < |items| && FirstToName(items, j, name) && items[j] == Some(it) {
      var j :| 0 <= j < |items| && FirstToName(items, j, name) && items[j] == Some(it);
      assert !NobodyNames(items, name) && j == k;
    }
  }

  // An item that can be used: it names a listed home at or above the origin, and
  // says how sure it is.
  ghost predicate Usable(it: RawItem, byLabel: map<string, Id>, m: TreeMap, origin: Id) {
    it.visibleFrom in byLabel && byLabel[it.visibleFrom] != "" && AtOrAbove(m, byLabel[it.visibleFrom], origin) && it.confidence.Some?
  }

  /** The verdict says what the answer says: the home it names, or the origin
      when it names one above without a listed topic; how sure it is, between 0
      and 1; and a release to strictly below the origin. Nothing else is dropped,
      and an item that cannot be used gives no verdict. */
  lemma VerdictFollowsTheAnswer(items: seq<Option<RawItem>>, i: nat, name: string, byLabel: map<string, Id>, m: ProperMap, origin: Id, it: RawItem)
    requires IsHome(m, origin) && ItemOf(items, i, name, it)
    ensures var v := ParseVerdict(items, i, name, byLabel, m, origin);
      && (v.Some? <==> Usable(it, byLabel, m, origin))
      && (v.Some? ==>
            var home := byLabel[it.visibleFrom];
            && v.value.home == (if home == origin || it.topic.Some? then home else origin)
            && v.value.topic == (if home == origin || it.topic.Some? then it.topic else None)
            && v.value.confidence == (if it.confidence.value < 0.0 then 0.0 else if it.confidence.value > 1.0 then 1.0 else it.confidence.value)
            && (forall r :: v.value.release == Some(r) <==>
                  it.releaseTo.Some? && it.releaseTo.value in byLabel && byLabel[it.releaseTo.value] == r
                  && r in m.positions && r != origin && origin in m.positions && AtOrAbove(m, origin, r)))
  {
    ItemForIs(items, i, name, it);
    if it.visibleFrom in byLabel { AncestorsAreAbove(m, byLabel[it.visibleFrom], origin); }
    if it.releaseTo.Some? && it.releaseTo.value in byLabel && byLabel[it.releaseTo.value] in m.positions {
      AncestorsAreAbove(m, origin, byLabel[it.releaseTo.value]);
    }
  }
}
