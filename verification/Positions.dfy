/** The position tree (graph-rag/src/positions.js): parsing and validating it,
    walking up from a position, and the order "at or above" on homes. */
module Positions {
  import opened Wrappers

  type Id = string

  // The one home that is not a position: everyone sees what is homed there.
  const EVERYONE: Id := "everyone"

  // A JSON value found under `positions`; Null stands for anything falsy.
  datatype RawPosition = Null | RawPosition(name: Option<string>, parent: Option<Id>)

  // An object with its keys in the order they are enumerated.
  datatype RawPositions = RawPositions(order: seq<Id>, at: map<Id, RawPosition>) {
    ghost predicate IsObject() {
      && (forall i, j :: 0 <= i < j < |order| ==> order[i] != order[j])
      && (forall id :: id in order <==> id in at)
    }

    predicate Has(id: Id) { id in at && at[id] != Null }
  }

  datatype RawDoc = NotAnObject | RawDoc(root: Option<Id>, positions: Option<RawPositions>) {
    ghost predicate IsJson() {
      RawDoc? && positions.Some? ==> positions.value.IsObject()
    }
  }

  datatype Position = Position(name: string, parent: Option<Id>)

  datatype PositionMap = PositionMap(root: Id, order: seq<Id>, positions: map<Id, Position>)

  datatype ParseError =
    | MustBeObject | NeedsRoot | RootMissing | ReservedId | NeedsName(id: Id) | CycleThrough(id: Id)

  // ---- walking up ----

  /** The parent of a position; none for the root or an unknown id. */
  function Up(m: PositionMap, id: Id): (p: Option<Id>) {
    if id in m.positions then m.positions[id].parent else None
  }

  /** The position n parents above id, if the walk gets that far. */
  ghost function Climb(m: PositionMap, id: Id, n: nat): (r: Option<Id>)
    decreases n
  {
    if n == 0 then Some(id)
    else match Up(m, id)
      case Some(p) => Climb(m, p, n - 1)
      case None => None
  }

  ghost predicate Reaches(m: PositionMap, id: Id, top: Id) {
    exists n: nat :: Climb(m, id, n) == Some(top)
  }

  // Rooted, closed under parents, only the root without one, EVERYONE reserved.
  ghost predicate Shaped(m: PositionMap) {
    && m.root != ""
    && m.root in m.positions
    && EVERYONE !in m.positions
    && (forall i, j :: 0 <= i < j < |m.order| ==> m.order[i] != m.order[j])
    && (forall i :: 0 <= i < |m.order| ==> m.order[i] in m.positions)
    && (forall id {:trigger id in m.order} :: id in m.positions ==> id in m.order)
    && (forall id {:trigger Up(m, id)} :: id in m.positions ==>
          match Up(m, id)
          case None => id == m.root
          case Some(p) => id != m.root && p in m.positions)
  }

  /** What an accepted map is: shaped, and every chain reaches the root. */
  ghost predicate Tree(m: PositionMap) {
    Shaped(m) && forall id {:trigger Reaches(m, id, m.root)} :: id in m.positions ==> Reaches(m, id, m.root)
  }

  function JustTheRoot(): (m: PositionMap)
    ensures Tree(m)
  {
    var m := PositionMap("org", ["org"], map["org" := Position("org", None)]);
    assert m.order[0] == "org";
    assert Climb(m, "org", 0) == Some("org");
    m
  }

  type TreeMap = m: PositionMap | Tree(m) ghost witness JustTheRoot()

  lemma {:induction false} ClimbAdd(m: PositionMap, id: Id, a: nat, b: nat)
    ensures Climb(m, id, a + b) ==
            (match Climb(m, id, a) case Some(mid) => Climb(m, mid, b) case None => None)
    decreases a
  {
    if a != 0 && Up(m, id).Some? {
      ClimbAdd(m, Up(m, id).value, a - 1, b);
    }
  }

  // Nothing is above the root, so there is only one way to reach it.
  lemma {:induction false} ClimbToRootOnce(m: PositionMap, id: Id, a: nat, b: nat)
    requires Shaped(m) && Climb(m, id, a) == Some(m.root) && Climb(m, id, b) == Some(m.root)
    ensures a == b
    decreases a
  {
    if a != 0 && b != 0 {
      ClimbToRootOnce(m, Up(m, id).value, a - 1, b - 1);
    }
  }

  ghost function Depth(m: PositionMap, id: Id): (d: nat)
    requires Reaches(m, id, m.root)
    ensures Climb(m, id, d) == Some(m.root)
  {
    var n: nat :| Climb(m, id, n) == Some(m.root); n
  }

  lemma DepthOfParent(m: PositionMap, id: Id)
    requires Shaped(m) && id in m.positions && Reaches(m, id, m.root) && id != m.root
    ensures Up(m, id).Some? && Reaches(m, Up(m, id).value, m.root)
    ensures Depth(m, id) == Depth(m, Up(m, id).value) + 1
  {
    var p := Up(m, id).value;
    var d := Depth(m, id);
    assert Climb(m, p, d - 1) == Some(m.root);
    ClimbToRootOnce(m, p, Depth(m, p), d - 1);
  }

  // ---- parsing ----

  /** The tree a document describes: unknown parents are sent to the root. */
  function Normalized(root: Id, raw: RawPositions): (m: PositionMap) {
    PositionMap(root, raw.order,
      map id | id in raw.at && raw.at[id] != Null && raw.at[id].name.Some? ::
        Position(raw.at[id].name.value, ParentOf(root, raw, id)))
  }

  function ParentOf(root: Id, raw: RawPositions, id: Id): (p: Option<Id>)
    requires raw.Has(id)
  {
    if id == root then None
    else match raw.at[id].parent
      case Some(p) => if raw.Has(p) then Some(p) else Some(root)
      case None => Some(root)
  }

  ghost predicate Named(raw: RawPositions, id: Id) {
    id != EVERYONE && raw.Has(id) && raw.at[id].name.Some?
  }

  ghost predicate AllNamed(raw: RawPositions) {
    forall id :: id in raw.at ==> Named(raw, id)
  }

  /** The document names a root among its positions, every position has a name,
      and none takes the reserved id. */
  ghost predicate Described(doc: RawDoc) {
    && doc.RawDoc? && doc.root.Some? && doc.root.value != ""
    && doc.positions.Some? && doc.positions.value.Has(doc.root.value)
    && AllNamed(doc.positions.value)
  }

  ghost predicate OnCycle(m: PositionMap, id: Id) { Below(m, id, id) }

  // The state of one walk: `cur` was reached from `id`, and every position
  // passed so far is strictly below `cur`.
  ghost predicate Trail(m: PositionMap, id: Id, cur: Id, seen: set<Id>) {
    && cur in m.positions && seen <= m.positions.Keys
    && Reaches(m, id, cur)
    && (forall x :: x in seen ==> Below(m, x, cur))
  }

  ghost predicate Below(m: PositionMap, x: Id, p: Id) {
    exists k: nat :: k > 0 && Climb(m, x, k) == Some(p)
  }

  lemma TrailStep(m: PositionMap, id: Id, cur: Id, seen: set<Id>)
    requires Shaped(m) && Trail(m, id, cur, seen) && cur != m.root
    ensures Up(m, cur).Some? && Trail(m, id, Up(m, cur).value, seen + {cur})
  {
    var up := Up(m, cur).value;
    assert Climb(m, cur, 1) == Some(up) by { assert Climb(m, up, 0) == Some(up); }
    var n: nat :| Climb(m, id, n) == Some(cur);
    ClimbAdd(m, id, n, 1);
    forall x | x in seen ensures Below(m, x, up) {
      var k: nat :| k > 0 && Climb(m, x, k) == Some(cur);
      ClimbAdd(m, x, k, 1);
    }
  }

  // A position on a cycle never reaches the root, nor does what leads to it.
  lemma CycleBlocks(m: PositionMap, id: Id, cur: Id)
    requires Shaped(m) && cur in m.positions && Reaches(m, id, cur) && Below(m, cur, cur) && cur != m.root
    ensures !Reaches(m, id, m.root)
  {
    if Reaches(m, id, m.root) {
      var d := Depth(m, id);
      var n: nat :| Climb(m, id, n) == Some(cur);
      var k: nat :| k > 0 && Climb(m, cur, k) == Some(cur);
      if n <= d {
        ClimbAdd(m, id, n, d - n);
        ClimbAdd(m, cur, k, d - n);
        ClimbToRootOnce(m, cur, d - n, k + (d - n));
      } else {
        ClimbAdd(m, id, d, n - d);
      }
    }
  }

  /** Walks up from every position; a chain that meets itself is a cycle. */
  method FindCycle(m: PositionMap) returns (at: Option<Id>)
    requires Shaped(m)
    ensures at.None? <==> Tree(m)
    ensures at.Some? ==> OnCycle(m, at.value)
  {
    for i := 0 to |m.order|
      invariant forall j :: 0 <= j < i ==> Reaches(m, m.order[j], m.root)
    {
      var id := m.order[i];
      var seen: set<Id> := {};
      var cur := id;
      assert Climb(m, id, 0) == Some(id);
      while cur != m.root
        invariant Trail(m, id, cur, seen)
        decreases m.positions.Keys - seen
      {
        if cur in seen {
          CycleBlocks(m, id, cur);
          return Some(cur);
        }
        TrailStep(m, id, cur, seen);
        assert cur in m.positions.Keys - seen;
        seen := seen + {cur};
        cur := Up(m, cur).value;
      }
    }
    forall id | id in m.positions ensures Reaches(m, id, m.root) { assert id in m.order; }
    return None;
  }

  // The first position of the document that is not as it should be.
  ghost predicate FirstWrong(raw: RawPositions, i: nat, e: ParseError) {
    && i < |raw.order| && (forall j :: 0 <= j < i ==> Named(raw, raw.order[j])) && !Named(raw, raw.order[i])
    && e == if raw.order[i] == EVERYONE then ReservedId else NeedsName(raw.order[i])
  }

  method ReadPositions(root: Id, raw: RawPositions) returns (r: Result<PositionMap, ParseError>)
    requires raw.IsObject()
    ensures r.Ok? <==> AllNamed(raw)
    ensures r.Ok? ==> r.value == Normalized(root, raw)
    ensures r.Err? ==> exists i: nat :: FirstWrong(raw, i, r.error)
  {
    var out: map<Id, Position> := map[];
    for i := 0 to |raw.order|
      invariant forall j :: 0 <= j < i ==> Named(raw, raw.order[j])
      invariant forall id :: id in out <==> id in raw.order[..i]
      invariant forall id :: id in out ==>
        Named(raw, id) && out[id] == Position(raw.at[id].name.value, ParentOf(root, raw, id))
    {
      var id := raw.order[i];
      assert id in raw.at;
      if id == EVERYONE {
        assert FirstWrong(raw, i, ReservedId);
        return Err(ReservedId);
      }
      if raw.at[id] == Null || raw.at[id].name.None? {
        assert FirstWrong(raw, i, NeedsName(id));
        return Err(NeedsName(id));
      }
      out := out[id := Position(raw.at[id].name.value, ParentOf(root, raw, id))];
    }
    assert raw.order[..|raw.order|] == raw.order;
    return Ok(PositionMap(root, raw.order, out));
  }

  // ---- what a document says ----

  /** p is what the document hangs this position under: the parent it names, if
      that is a position too, and else the root. Nothing hangs the root. */
  ghost predicate Hangs(root: Id, raw: RawPositions, id: Id, p: Id) {
    && id != root && id in raw.at && raw.at[id] != Null
    && (raw.at[id].parent == Some(p) || (p == root && forall q :: raw.at[id].parent == Some(q) ==> q !in raw.at || raw.at[q] == Null))
    && p in raw.at && raw.at[p] != Null
  }

  // Each of these hangs under the next.
  ghost predicate Path(root: Id, raw: RawPositions, ids: seq<Id>) {
    ids != [] && (|ids| > 1 ==> Hangs(root, raw, ids[0], ids[1]) && Path(root, raw, ids[1..]))
  }

  ghost predicate Leads(root: Id, raw: RawPositions, id: Id, p: Id) {
    exists ids :: Path(root, raw, ids) && ids[0] == id && ids[|ids| - 1] == p
  }

  // A walk over the document from this position comes back to it.
  ghost predicate Circles(root: Id, raw: RawPositions, id: Id) {
    exists ids :: |ids| > 1 && Path(root, raw, ids) && ids[0] == id && ids[|ids| - 1] == id
  }

  /** The map holds what the document says: its positions in order, with their
      names, each under what it hangs under. */
  ghost predicate Holds(root: Id, raw: RawPositions, m: PositionMap) {
    && m.root == root && m.order == raw.order && m.positions.Keys == raw.at.Keys
    && (forall id :: id in m.positions ==> raw.at[id] != Null && raw.at[id].name == Some(m.positions[id].name))
    && (forall id {:trigger UpHangs(root, raw, m, id)} :: id in m.positions ==> UpHangs(root, raw, m, id))
  }

  ghost predicate UpHangs(root: Id, raw: RawPositions, m: PositionMap, id: Id) {
    if id == root then Up(m, id).None? else Up(m, id).Some? && Hangs(root, raw, id, Up(m, id).value)
  }

  lemma NormalizedHolds(root: Id, raw: RawPositions)
    requires raw.IsObject() && raw.Has(root) && AllNamed(raw)
    ensures Holds(root, raw, Normalized(root, raw))
  {
    var m := Normalized(root, raw);
    forall id ensures id in m.positions <==> id in raw.at { if id in raw.at { assert Named(raw, id); } }
  }

  lemma HangsOnce(root: Id, raw: RawPositions, id: Id, p: Id, q: Id)
    requires Hangs(root, raw, id, p) && Hangs(root, raw, id, q)
    ensures p == q
  {
  }

  lemma UpIsHangs(root: Id, raw: RawPositions, m: PositionMap, id: Id, p: Id)
    requires Holds(root, raw, m)
    ensures Up(m, id) == Some(p) <==> Hangs(root, raw, id, p)
  {
    if id in m.positions { assert UpHangs(root, raw, m, id); }
    if Hangs(root, raw, id, p) { HangsOnce(root, raw, id, p, Up(m, id).value); }
  }

  lemma {:induction false} PathClimbs(root: Id, raw: RawPositions, m: PositionMap, ids: seq<Id>)
    requires Holds(root, raw, m) && Path(root, raw, ids)
    ensures Climb(m, ids[0], |ids| - 1) == Some(ids[|ids| - 1])
    decreases |ids|
  {
    if |ids| > 1 {
      UpIsHangs(root, raw, m, ids[0], ids[1]);
      PathClimbs(root, raw, m, ids[1..]);
    }
  }

  lemma {:induction false} ClimbPath(root: Id, raw: RawPositions, m: PositionMap, id: Id, n: nat, p: Id) returns (ids: seq<Id>)
    requires Holds(root, raw, m) && Climb(m, id, n) == Some(p)
    ensures |ids| == n + 1 && Path(root, raw, ids) && ids[0] == id && ids[n] == p
    decreases n
  {
    if n == 0 {
      ids := [id];
    } else {
      var up := Up(m, id).value;
      UpIsHangs(root, raw, m, id, up);
      var rest := ClimbPath(root, raw, m, up, n - 1, p);
      ids := [id] + rest;
      assert ids[1..] == rest;
    }
  }

  lemma LeadsIsReaches(root: Id, raw: RawPositions, m: PositionMap, id: Id, p: Id)
    requires Holds(root, raw, m)
    ensures Leads(root, raw, id, p) <==> Reaches(m, id, p)
  {
    if Leads(root, raw, id, p) {
      var ids :| Path(root, raw, ids) && ids[0] == id && ids[|ids| - 1] == p;
      PathClimbs(root, raw, m, ids);
    }
    if Reaches(m, id, p) {
      var n: nat :| Climb(m, id, n) == Some(p);
      var ids := ClimbPath(root, raw, m, id, n, p);
    }
  }

  lemma CycleCircles(root: Id, raw: RawPositions, m: PositionMap, id: Id)
    requires Holds(root, raw, m) && OnCycle(m, id)
    ensures Circles(root, raw, id)
  {
    var k: nat :| k > 0 && Climb(m, id, k) == Some(id);
    var ids := ClimbPath(root, raw, m, id, k, id);
  }

  ghost predicate AllLead(root: Id, raw: RawPositions) {
    forall id {:trigger Leads(root, raw, id, root)} :: id in raw.at ==> Leads(root, raw, id, root)
  }

  lemma AcceptedWhen(root: Id, raw: RawPositions, m: PositionMap)
    requires Holds(root, raw, m) && Shaped(m)
    ensures Tree(m) <==> AllLead(root, raw)
  {
    forall id ensures Leads(root, raw, id, root) <==> Reaches(m, id, m.root) { LeadsIsReaches(root, raw, m, id, root); }
  }

  /** Accepts exactly the described documents in which every walk up leads to the
      root, and then returns what the document says. */
  method ParsePositionMap(doc: RawDoc) returns (r: Result<PositionMap, ParseError>)
    requires doc.IsJson()
    ensures r.Ok? <==> Described(doc) && AllLead(doc.root.value, doc.positions.value)
    ensures r.Ok? ==> Tree(r.value) && Holds(doc.root.value, doc.positions.value, r.value)
    ensures r == Err(MustBeObject) <==> doc.NotAnObject?
    ensures r == Err(NeedsRoot) <==> doc.RawDoc? && (doc.root.None? || doc.root.value == "")
    ensures r == Err(RootMissing) <==>
      && doc.RawDoc? && doc.root.Some? && doc.root.value != ""
      && (doc.positions.None? || doc.root.value !in doc.positions.value.at || doc.positions.value.at[doc.root.value] == Null)
    ensures r.Err? && (r.error.ReservedId? || r.error.NeedsName?) ==>
      doc.RawDoc? && doc.positions.Some? && exists i: nat :: FirstWrong(doc.positions.value, i, r.error)
    ensures r.Err? && r.error.CycleThrough? ==> Described(doc) && Circles(doc.root.value, doc.positions.value, r.error.id)
  {
    if doc.NotAnObject? { return Err(MustBeObject); }
    if doc.root.None? || doc.root.value == "" { return Err(NeedsRoot); }
    var root := doc.root.value;
    if doc.positions.None? || !doc.positions.value.Has(root) { return Err(RootMissing); }
    r := ReadPositions(root, doc.positions.value);
    if r.Ok? {
      NormalizedHolds(root, doc.positions.value);
      assert Shaped(r.value);
      AcceptedWhen(root, doc.positions.value, r.value);
      var cycle := FindCycle(r.value);
      if cycle.Some? {
        CycleCircles(root, doc.positions.value, r.value, cycle.value);
        return Err(CycleThrough(cycle.value));
      }
    }
  }

  // The document that lists a map's positions, with their names and parents.
  function Listed(m: PositionMap): (doc: RawDoc) {
    RawDoc(Some(m.root), Some(RawPositions(m.order, map id | id in m.positions :: RawPosition(Some(m.positions[id].name), m.positions[id].parent))))
  }

  lemma ListedHolds(m: TreeMap)
    ensures Listed(m).IsJson() && Described(Listed(m)) && Holds(m.root, Listed(m).positions.value, m)
    ensures AllLead(m.root, Listed(m).positions.value)
  {
    var raw := Listed(m).positions.value;
    forall id ensures id in raw.order <==> id in raw.at { if id in raw.order { var i :| 0 <= i < |m.order| && m.order[i] == id; } }
    forall id | id in m.positions ensures UpHangs(m.root, raw, m, id) { assert Up(m, id).Some? || id == m.root; }
    AcceptedWhen(m.root, raw, m);
  }

  // A document says one thing only.
  lemma HoldsOnce(root: Id, raw: RawPositions, a: PositionMap, b: PositionMap)
    requires Holds(root, raw, a) && Holds(root, raw, b)
    ensures a == b
  {
    forall id | id in a.positions ensures a.positions[id] == b.positions[id] {
      assert UpHangs(root, raw, a, id) && UpHangs(root, raw, b, id);
      if id != root { HangsOnce(root, raw, id, Up(a, id).value, Up(b, id).value); }
    }
  }

  /** Written out and read back, a map is what it was. */
  method ReadBack(m: TreeMap) returns (r: Result<PositionMap, ParseError>)
    ensures r == Ok(m)
  {
    ListedHolds(m);
    r := ParsePositionMap(Listed(m));
    HoldsOnce(m.root, Listed(m).positions.value, m, r.value);
  }

  // ---- ancestors ----

  ghost function Rank(m: PositionMap, id: Id): nat {
    if Reaches(m, id, m.root) then Depth(m, id) else 0
  }

  /** The ancestors of a position, nearest first. The walk stops at a missing
      parent and, as in the source, at an empty id. */
  function Chain(m: TreeMap, id: Id): (up: seq<Id>)
    decreases Rank(m, id)
  {
    match Up(m, id)
    case None => []
    case Some(p) =>
      if p == "" then []
      else
        assert Depth(m, p) < Depth(m, id) by { assert Reaches(m, id, m.root); DepthOfParent(m, id); }
        [p] + Chain(m, p)
  }

  /** The positions, deepest first; a stable sort by the length of the chain. */
  function DeepestFirst(m: TreeMap, ids: seq<Id>): (sorted: seq<Id>)
  {
    if ids == [] then [] else InsertByDepth(m, DeepestFirst(m, ids[..|ids| - 1]), ids[|ids| - 1])
  }

  function InsertByDepth(m: TreeMap, sorted: seq<Id>, id: Id): (r: seq<Id>)
  {
    if sorted != [] && |Chain(m, sorted[0])| >= |Chain(m, id)|
    then [sorted[0]] + InsertByDepth(m, sorted[1..], id)
    else [id] + sorted
  }

  function Depths(m: TreeMap, ids: seq<Id>): (ns: seq<nat>) { seq(|ids|, i requires 0 <= i < |ids| => |Chain(m, ids[i])|) }

  predicate Falling(ns: seq<nat>) { forall i, j :: 0 <= i < j < |ns| ==> ns[i] >= ns[j] }

  ghost predicate ByDepth(m: TreeMap, ids: seq<Id>) { Falling(Depths(m, ids)) }

  lemma {:induction false} InsertKeepsAll(m: TreeMap, sorted: seq<Id>, id: Id)
    ensures multiset(InsertByDepth(m, sorted, id)) == multiset(sorted) + multiset{id}
    decreases |sorted|
  {
    if sorted != [] && |Chain(m, sorted[0])| >= |Chain(m, id)| {
      InsertKeepsAll(m, sorted[1..], id);
      assert sorted == [sorted[0]] + sorted[1..];
    }
  }

  lemma HighestInFront(n: nat, ns: seq<nat>)
    requires Falling(ns) && forall x :: x in ns ==> n >= x
    ensures Falling([n] + ns)
  {
    var all := [n] + ns;
    forall i, j | 0 <= i < j < |all| ensures all[i] >= all[j] {
      assert all[j] == ns[j - 1] && ns[j - 1] in ns;
      if i > 0 { assert all[i] == ns[i - 1]; }
    }
  }

  lemma DeeperInFront(m: TreeMap, head: Id, rest: seq<Id>)
    requires ByDepth(m, rest) && forall id :: id in rest ==> |Chain(m, head)| >= |Chain(m, id)|
    ensures ByDepth(m, [head] + rest)
  {
    HighestInFront(|Chain(m, head)|, Depths(m, rest));
    assert Depths(m, [head] + rest) == [|Chain(m, head)|] + Depths(m, rest);
  }

  lemma FirstIsDeepest(m: TreeMap, sorted: seq<Id>)
    requires ByDepth(m, sorted) && sorted != []
    ensures forall id :: id in sorted ==> |Chain(m, sorted[0])| >= |Chain(m, id)|
  {
    forall id | id in sorted ensures |Chain(m, sorted[0])| >= |Chain(m, id)| {
      var i :| 0 <= i < |sorted| && sorted[i] == id;
      assert Depths(m, sorted)[i] == |Chain(m, id)| && Depths(m, sorted)[0] == |Chain(m, sorted[0])|;
    }
  }

  lemma {:induction false} InsertKeepsOrder(m: TreeMap, sorted: seq<Id>, id: Id)
    requires ByDepth(m, sorted)
    ensures ByDepth(m, InsertByDepth(m, sorted, id))
    decreases |sorted|
  {
    if sorted == [] {
    } else if |Chain(m, sorted[0])| < |Chain(m, id)| {
      FirstIsDeepest(m, sorted);
      DeeperInFront(m, id, sorted);
    } else {
      FirstIsDeepest(m, sorted);
      assert Depths(m, sorted[1..]) == Depths(m, sorted)[1..];
      var rest := InsertByDepth(m, sorted[1..], id);
      InsertKeepsOrder(m, sorted[1..], id);
      InsertKeepsAll(m, sorted[1..], id);
      forall x | x in rest ensures |Chain(m, sorted[0])| >= |Chain(m, x)| {
        assert x in multiset(rest) && (x == id || (x in multiset(sorted[1..]) && x in sorted));
      }
      DeeperInFront(m, sorted[0], rest);
    }
  }

  lemma {:induction false} DeepestFirstSorts(m: TreeMap, ids: seq<Id>)
    ensures ByDepth(m, DeepestFirst(m, ids))
    ensures multiset(DeepestFirst(m, ids)) == multiset(ids)
    decreases |ids|
  {
    if ids != [] {
      var front, last := ids[..|ids| - 1], ids[|ids| - 1];
      DeepestFirstSorts(m, front);
      InsertKeepsOrder(m, DeepestFirst(m, front), last);
      InsertKeepsAll(m, DeepestFirst(m, front), last);
      assert ids == front + [last];
    }
  }

  // Those of this depth, in the order they come.
  function OfDepth(m: TreeMap, ids: seq<Id>, d: nat): (some: seq<Id>) {
    if ids == [] then [] else (if |Chain(m, ids[0])| == d then [ids[0]] else []) + OfDepth(m, ids[1..], d)
  }

  lemma {:induction false} OfDepthThen(m: TreeMap, ids: seq<Id>, id: Id, d: nat)
    ensures OfDepth(m, ids + [id], d) == OfDepth(m, ids, d) + if |Chain(m, id)| == d then [id] else []
    decreases |ids|
  {
    if ids == [] {
      assert [] + [id] == [id] && [id][1..] == [];
    } else {
      assert (ids + [id])[1..] == ids[1..] + [id];
      OfDepthThen(m, ids[1..], id, d);
    }
  }

  lemma {:induction false} NoneOfDepth(m: TreeMap, ids: seq<Id>, d: nat)
    requires forall i :: 0 <= i < |ids| ==> |Chain(m, ids[i])| != d
    ensures OfDepth(m, ids, d) == []
    decreases |ids|
  {
    if ids != [] { NoneOfDepth(m, ids[1..], d); }
  }

  lemma {:induction false} InsertedLast(m: TreeMap, sorted: seq<Id>, id: Id, d: nat)
    requires ByDepth(m, sorted)
    ensures OfDepth(m, InsertByDepth(m, sorted, id), d) == OfDepth(m, sorted, d) + if |Chain(m, id)| == d then [id] else []
    decreases |sorted|
  {
    if sorted != [] && |Chain(m, sorted[0])| >= |Chain(m, id)| {
      assert Depths(m, sorted[1..]) == Depths(m, sorted)[1..];
      InsertedLast(m, sorted[1..], id, d);
      var rest := InsertByDepth(m, sorted[1..], id);
      assert ([sorted[0]] + rest)[1..] == rest;
    } else {
      assert ([id] + sorted)[1..] == sorted;
      if |Chain(m, id)| == d {
        forall i | 0 <= i < |sorted| ensures |Chain(m, sorted[i])| != d { assert Depths(m, sorted)[i] <= Depths(m, sorted)[0]; }
        NoneOfDepth(m, sorted, d);
      }
    }
  }

  /** Positions of one depth stay in the order they were in. */
  lemma {:induction false} DeepestFirstIsStable(m: TreeMap, ids: seq<Id>, d: nat)
    ensures OfDepth(m, DeepestFirst(m, ids), d) == OfDepth(m, ids, d)
    decreases |ids|
  {
    if ids != [] {
      var front, last := ids[..|ids| - 1], ids[|ids| - 1];
      DeepestFirstSorts(m, front);
      DeepestFirstIsStable(m, front, d);
      InsertedLast(m, DeepestFirst(m, front), last, d);
      OfDepthThen(m, front, last, d);
      assert ids == front + [last];
    }
  }

  /** ancestors(map, id): everyone's are all positions, deepest first. */
  function Ancestors(m: TreeMap, id: Id): (up: seq<Id>)
  {
    if id == EVERYONE then DeepestFirst(m, m.order) else Chain(m, id)
  }

  method ComputeAncestors(m: TreeMap, id: Id) returns (out: seq<Id>)
    ensures out == Ancestors(m, id)
  {
    if id == EVERYONE {
      return DeepestFirst(m, m.order);
    }
    out := [];
    var cur := Up(m, id);
    ghost var at := id;
    while cur.Some? && cur.value != ""
      invariant cur == Up(m, at)
      invariant out + Chain(m, at) == Chain(m, id)
      decreases Rank(m, at)
    {
      var up := cur.value;
      out := out + [up];
      assert Chain(m, at) == [up] + Chain(m, up);
      assert Reaches(m, at, m.root);
      DepthOfParent(m, at);
      at := up;
      cur := Up(m, up);
    }
  }

  // ---- the order on homes ----

  predicate IsHome(m: PositionMap, h: Id) { h == EVERYONE || h in m.positions }

  /** p is at or above h: it is h, or it is at or above h's parent; everyone
      is below every position. */
  ghost predicate AtOrAbove(m: TreeMap, p: Id, h: Id)
    decreases Rank(m, h)
  {
    || p == h
    || (h == EVERYONE && p in m.positions)
    || (Up(m, h).Some? &&
        (assert Rank(m, Up(m, h).value) < Rank(m, h) by { assert Reaches(m, h, m.root); DepthOfParent(m, h); }
         AtOrAbove(m, p, Up(m, h).value)))
  }

  /** At or above a position is what its walk up comes to. */
  lemma {:induction false} AboveIsClimbing(m: TreeMap, p: Id, h: Id)
    requires h in m.positions
    ensures AtOrAbove(m, p, h) <==> Reaches(m, h, p)
    decreases Rank(m, h)
  {
    assert Climb(m, h, 0) == Some(h);
    if p != h {
      if Up(m, h).Some? {
        ParentIsHigher(m, h);
        AboveIsClimbing(m, p, Up(m, h).value);
      }
      if Reaches(m, h, p) {
        var n: nat :| Climb(m, h, n) == Some(p);
        assert Climb(m, Up(m, h).value, n - 1) == Some(p);
      }
      if AtOrAbove(m, p, h) {
        var n: nat :| Climb(m, Up(m, h).value, n) == Some(p);
        assert Climb(m, h, n + 1) == Some(p);
      }
    }
  }

  // A tree where no position is called "", so no walk is cut short.
  ghost predicate Proper(m: PositionMap) {
    Tree(m) && "" !in m.positions
  }

  type ProperMap = m: TreeMap | "" !in m.positions ghost witness JustTheRoot()

  ghost predicate NoEmptyParent(m: PositionMap) {
    forall id {:trigger Up(m, id)} :: Up(m, id) != Some("")
  }

  lemma ParentIsHigher(m: TreeMap, h: Id)
    requires Up(m, h).Some?
    ensures Up(m, h).value in m.positions && Rank(m, Up(m, h).value) < Rank(m, h)
  {
    assert Reaches(m, h, m.root);
    DepthOfParent(m, h);
  }

  // Above a position there are only positions, none deeper.
  lemma {:induction false} AboveAPosition(m: TreeMap, p: Id, h: Id)
    requires h in m.positions && AtOrAbove(m, p, h)
    ensures p in m.positions && Rank(m, p) <= Rank(m, h)
    ensures p != h ==> Rank(m, p) < Rank(m, h)
    decreases Rank(m, h)
  {
    if p != h {
      ParentIsHigher(m, h);
      AboveAPosition(m, p, Up(m, h).value);
    }
  }

  /** The upward walk is the order, where it is not cut short. */
  lemma {:induction false} ChainIsAbove(m: TreeMap, p: Id, h: Id)
    requires NoEmptyParent(m) && h in m.positions
    ensures p in Chain(m, h) <==> p != h && AtOrAbove(m, p, h)
    decreases Rank(m, h)
  {
    if Up(m, h).Some? {
      var q := Up(m, h).value;
      ParentIsHigher(m, h);
      ChainIsAbove(m, p, q);
      assert p in Chain(m, h) <==> p == q || p in Chain(m, q);
      if AtOrAbove(m, p, q) { AboveAPosition(m, p, q); }
    }
  }

  /** The computed ancestors are exactly what is strictly above. */
  lemma AncestorsAreAbove(m: ProperMap, p: Id, h: Id)
    requires IsHome(m, h)
    ensures (p == h || p in Ancestors(m, h)) <==> AtOrAbove(m, p, h)
    ensures p in Ancestors(m, h) ==> p in m.positions && p != h
  {
    if h == EVERYONE {
      DeepestFirstSorts(m, m.order);
      assert p in Ancestors(m, h) <==> p in multiset(m.order);
      assert p in m.order <==> p in m.positions;
    } else {
      ChainIsAbove(m, p, h);
      if AtOrAbove(m, p, h) { AboveAPosition(m, p, h); }
    }
  }

  lemma {:induction false} AboveTransitive(m: TreeMap, a: Id, b: Id, c: Id)
    requires IsHome(m, b) && IsHome(m, c) && AtOrAbove(m, a, b) && AtOrAbove(m, b, c)
    ensures AtOrAbove(m, a, c)
    decreases Rank(m, c)
  {
    if b != c {
      if c == EVERYONE {
        AboveAPosition(m, a, b);
      } else {
        ParentIsHigher(m, c);
        AboveTransitive(m, a, b, Up(m, c).value);
      }
    }
  }

  lemma AboveAntisymmetric(m: TreeMap, a: Id, b: Id)
    requires IsHome(m, a) && IsHome(m, b) && AtOrAbove(m, a, b) && AtOrAbove(m, b, a)
    ensures a == b
  {
    if a in m.positions { AboveAPosition(m, b, a); }
    if b in m.positions { AboveAPosition(m, a, b); }
  }

  /** What is at or above a position lies on one line. */
  lemma {:induction false} AboveIsALine(m: TreeMap, a: Id, b: Id, h: Id)
    requires h in m.positions && AtOrAbove(m, a, h) && AtOrAbove(m, b, h)
    ensures AtOrAbove(m, a, b) || AtOrAbove(m, b, a)
    decreases Rank(m, h)
  {
    if a != h && b != h {
      ParentIsHigher(m, h);
      AboveIsALine(m, a, b, Up(m, h).value);
    }
  }

  lemma {:induction false} RootIsAbove(m: TreeMap, h: Id)
    requires IsHome(m, h)
    ensures AtOrAbove(m, m.root, h)
    decreases Rank(m, h)
  {
    if h in m.positions && h != m.root {
      ParentIsHigher(m, h);
      RootIsAbove(m, Up(m, h).value);
    }
  }
}
