/** Who sees which home (graph-rag/src/positions.js, graph-rag/src/grants.js):
    the downward search behind visibleHomes, moves between homes, and the
    lowest position above several homes. */
module Visibility {
  import opened Wrappers
  import opened Positions

  // A stored home counts as itself, an unknown or missing one as the root.
  function EffectiveHome(m: PositionMap, home: Id): (h: Id) {
    if home == EVERYONE then EVERYONE else if home in m.positions then home else m.root
  }

  function HeldPositions(m: PositionMap, held: seq<Id>): (mine: seq<Id>)
    ensures forall p :: p in mine <==> p in held && p in m.positions
  {
    if held == [] then []
    else (if held[0] in m.positions then [held[0]] else []) + HeldPositions(m, held[1..])
  }

  /** The rule itself: some position held is at or above the home. */
  ghost predicate Sees(m: TreeMap, held: seq<Id>, home: Id) {
    var h := EffectiveHome(m, home);
    h == EVERYONE || exists p :: p in held && p in m.positions && AtOrAbove(m, p, h)
  }

  ghost function SeenHomes(m: TreeMap, held: seq<Id>): set<Id> {
    {EVERYONE} + set h | h in m.positions && Sees(m, held, h)
  }

  // ---- the search ----

  method ChildIndex(m: PositionMap) returns (kids: map<Id, seq<Id>>)
    requires Shaped(m)
    ensures IndexesChildren(m, kids) && EVERYONE !in kids
  {
    kids := map[];
    for i := 0 to |m.order|
      invariant EVERYONE !in kids
      invariant forall c, p :: p in kids && c in kids[p] ==> Up(m, c) == Some(p)
      invariant forall j :: 0 <= j < i && Up(m, m.order[j]).Some? ==>
        Up(m, m.order[j]).value in kids && m.order[j] in kids[Up(m, m.order[j]).value]
    {
      var id := m.order[i];
      match Up(m, id) {
        case None =>
        case Some(p) =>
          if p !in kids { kids := kids[p := []]; }
          kids := kids[p := kids[p] + [id]];
      }
    }
    forall c | Up(m, c).Some? ensures c in m.order {}
  }

  // Every child of a position found is found, or still on the stack.
  ghost predicate Followed(kids: map<Id, seq<Id>>, out: set<Id>, stack: seq<Id>) {
    forall v :: v in out && v in kids ==> Listed(kids[v], out, stack)
  }

  ghost predicate Listed(below: seq<Id>, out: set<Id>, stack: seq<Id>) {
    forall c :: c in below ==> c in out || c in stack
  }

  /** Depth first from the positions held. What it finds is closed downward,
      and within any set that is closed downward and holds the start. */
  method Search(kids: map<Id, seq<Id>>, mine: seq<Id>, ghost within: set<Id>) returns (out: set<Id>)
    requires EVERYONE in within && EVERYONE !in kids && Followed(kids, within, [])
    requires forall p :: p in mine ==> p in within
    ensures EVERYONE in out && out <= within && Followed(kids, out, [])
    ensures forall p :: p in mine ==> p in out
  {
    out := {EVERYONE};
    var stack := mine;
    while stack != []
      invariant EVERYONE in out && out <= within
      invariant forall x :: x in stack ==> x in within
      invariant forall p :: p in mine ==> p in out || p in stack
      invariant Followed(kids, out, stack)
      decreases within - out, |stack|
    {
      var id := stack[|stack| - 1];
      var rest := stack[..|stack| - 1];
      assert stack == rest + [id];
      if id in out {
        stack := rest;
      } else {
        assert id in within - out;
        out := out + {id};
        stack := rest + if id in kids then kids[id] else [];
      }
    }
  }

  ghost predicate ClosedDown(m: PositionMap, out: set<Id>) {
    forall c {:trigger Up(m, c)} :: Up(m, c).Some? && Up(m, c).value in out ==> c in out
  }

  /** Null (None) when the root is held: everything; else the homes seen. */
  method VisibleHomes(m: TreeMap, held: seq<Id>) returns (vis: Option<set<Id>>)
    ensures vis == if m.root in held then None else Some(SeenHomes(m, held))
    ensures vis.None? ==> forall home :: Sees(m, held, home)
  {
    var mine := HeldPositions(m, held);
    if m.root in mine {
      RootSeesAll(m, held);
      return None;
    }
    var kids := ChildIndex(m);
    FollowedIsClosed(m, kids, SeenHomes(m, held));
    var out := Search(kids, mine, SeenHomes(m, held));
    FollowedIsClosed(m, kids, out);
    AllFound(m, held, out);
    return Some(out);
  }

  ghost predicate IndexesChildren(m: PositionMap, kids: map<Id, seq<Id>>) {
    forall c, p :: Up(m, c) == Some(p) <==> p in kids && c in kids[p]
  }

  lemma FollowedIsClosed(m: PositionMap, kids: map<Id, seq<Id>>, out: set<Id>)
    requires IndexesChildren(m, kids)
    ensures Followed(kids, out, []) <==> ClosedDown(m, out)
  {
    if ClosedDown(m, out) {
      forall v | v in out && v in kids ensures Listed(kids[v], out, []) {
        forall c | c in kids[v] ensures c in out { assert Up(m, c) == Some(v); }
      }
    }
    if Followed(kids, out, []) {
      forall c | Up(m, c).Some? && Up(m, c).value in out ensures c in out {
        assert Listed(kids[Up(m, c).value], out, []);
      }
    }
  }

  lemma RootSeesAll(m: TreeMap, held: seq<Id>)
    requires m.root in held
    ensures forall home :: Sees(m, held, home)
  {
    forall home ensures Sees(m, held, home) {
      RootIsAbove(m, EffectiveHome(m, home));
    }
  }

  // Nothing else is at or above the root.
  lemma UnknownIsForTheRoot(m: TreeMap, held: seq<Id>, home: Id)
    ensures home in m.positions ==> (Sees(m, held, home) <==> exists p :: p in held && p in m.positions && AtOrAbove(m, p, home))
    ensures !IsHome(m, home) ==> (Sees(m, held, home) <==> m.root in held)
    ensures Sees(m, held, EVERYONE)
  {
    assert Up(m, m.root).None? && AtOrAbove(m, m.root, m.root);
  }

  lemma {:induction false} DownFrom(m: TreeMap, out: set<Id>, p: Id, h: Id)
    requires ClosedDown(m, out) && p in out && h in m.positions && AtOrAbove(m, p, h)
    ensures h in out
    decreases Rank(m, h)
  {
    if p != h {
      ParentIsHigher(m, h);
      DownFrom(m, out, p, Up(m, h).value);
    }
  }

  lemma AllFound(m: TreeMap, held: seq<Id>, out: set<Id>)
    requires EVERYONE in out && out <= SeenHomes(m, held) && ClosedDown(m, out)
    requires forall p :: p in held && p in m.positions ==> p in out
    ensures out == SeenHomes(m, held)
  {
    forall h | h in SeenHomes(m, held) ensures h in out {
      if h != EVERYONE {
        var p :| p in held && p in m.positions && AtOrAbove(m, p, h);
        DownFrom(m, out, p, h);
      }
    }
  }

  /** Everyone's is for all; what is homed at a position is for holders of it or
      of one above; a missing home or a position that is gone leaves it to
      holders of the root. */
  method CanSee(m: TreeMap, held: seq<Id>, home: Id) returns (b: bool)
    ensures b <==> Sees(m, held, home)
    ensures home == EVERYONE ==> b
    ensures home in m.positions ==> (b <==> exists p :: p in held && p in m.positions && AtOrAbove(m, p, home))
    ensures !IsHome(m, home) ==> (b <==> m.root in held)
  {
    UnknownIsForTheRoot(m, held, home);
    var vis := VisibleHomes(m, held);
    b := vis.None? || EffectiveHome(m, home) in vis.value;
  }

  // ---- the search against the upward walk ----

  ghost function SeenByAncestors(m: TreeMap, held: seq<Id>): set<Id>
  {
    {EVERYONE} + set h | h in m.positions && exists p :: p in held && p in m.positions && (p == h || p in Ancestors(m, h))
  }

  /** The downward search and the upward walk describe the same homes, for
      every caller, exactly when no position has the empty id as its parent:
      the upward walk stops there, the search does not. */
  lemma SearchMatchesAncestors(m: TreeMap)
    ensures (forall held :: SeenHomes(m, held) == SeenByAncestors(m, held)) <==> NoEmptyParent(m)
  {
    if NoEmptyParent(m) {
      forall held ensures SeenHomes(m, held) == SeenByAncestors(m, held) {
        forall h | h in m.positions
          ensures h in SeenHomes(m, held) <==> h in SeenByAncestors(m, held)
        {
          forall p | p in m.positions ensures AtOrAbove(m, p, h) <==> p == h || p in Ancestors(m, h) {
            ChainIsAbove(m, p, h);
          }
        }
      }
    } else {
      var x :| Up(m, x) == Some("");
      assert x != EVERYONE && Ancestors(m, x) == [];
      ParentIsHigher(m, x);
      assert AtOrAbove(m, "", x);
      assert "" in [""] && Sees(m, [""], x);
      assert x in SeenHomes(m, [""]) && x !in SeenByAncestors(m, [""]);
    }
  }

  // ---- grants' subtree ----

  function Subtree(m: TreeMap, id: Id): (out: set<Id>)
  {
    if id !in m.positions then {}
    else set p | p in m.positions && (p == id || id in Ancestors(m, p))
  }

  method ComputeSubtree(m: TreeMap, id: Id) returns (out: set<Id>)
    ensures out == Subtree(m, id)
  {
    out := {};
    if id !in m.positions { return; }
    for i := 0 to |m.order|
      invariant forall p :: p in out <==> p in m.order[..i] && (p == id || id in Ancestors(m, p))
    {
      var p := m.order[i];
      var up := ComputeAncestors(m, p);
      if p == id || id in up { out := out + {p}; }
    }
    assert m.order[..|m.order|] == m.order;
  }

  /** Holding one position below the root shows its subtree, and everyone's. */
  lemma OnePositionSeesItsSubtree(m: ProperMap, id: Id)
    requires id in m.positions
    ensures SeenHomes(m, [id]) == Subtree(m, id) + {EVERYONE}
  {
    forall h | h in m.positions ensures Sees(m, [id], h) <==> h in Subtree(m, id) {
      AncestorsAreAbove(m, id, h);
      assert id in [id];
    }
  }

  // ---- seeing more and seeing less ----

  /** Everyone who sees a also sees b exactly when a is at or above b. */
  lemma SeeingFollowsTheOrder(m: TreeMap, a: Id, b: Id)
    requires IsHome(m, a) && IsHome(m, b)
    ensures AtOrAbove(m, a, b) <==> forall held :: Sees(m, held, a) ==> Sees(m, held, b)
  {
    if AtOrAbove(m, a, b) {
      forall held | Sees(m, held, a) ensures Sees(m, held, b) {
        if b != EVERYONE {
          AboveAPosition(m, a, b);
          var p :| p in held && p in m.positions && AtOrAbove(m, p, a);
          AboveTransitive(m, p, a, b);
        }
      }
    }
    if forall held :: Sees(m, held, a) ==> Sees(m, held, b) {
      if a == EVERYONE {
        assert Sees(m, [], a);
      } else {
        assert AtOrAbove(m, a, a) && a in [a];
        assert Sees(m, [a], a);
      }
    }
  }

  datatype Move = Restrict | Widen

  function MoveKind(m: TreeMap, from: Id, to: Id): (k: Move)
  {
    var f := EffectiveHome(m, from);
    if to == EVERYONE then (if f == EVERYONE then Restrict else Widen)
    else if to == f || to in Ancestors(m, f) then Restrict
    else Widen
  }

  /** A move is called a restriction exactly when nobody new sees the entry. */
  lemma RestrictShowsNobodyNew(m: ProperMap, from: Id, to: Id)
    requires IsHome(m, to)
    ensures MoveKind(m, from, to) == Restrict <==> forall held :: Sees(m, held, to) ==> Sees(m, held, from)
  {
    var f := EffectiveHome(m, from);
    SeeingFollowsTheOrder(m, to, f);
    AncestorsAreAbove(m, to, f);
    assert forall held :: Sees(m, held, from) <==> Sees(m, held, f);
  }

  // ---- where a caller may home a write ----

  ghost predicate Answers(m: TreeMap, mine: seq<Id>, h: Id) {
    exists p :: p in mine && AtOrAbove(m, h, p)
  }

  ghost predicate AnswersExactly(m: TreeMap, out: set<Id>, mine: seq<Id>) {
    forall h {:trigger h in out} {:trigger Answers(m, mine, h)} :: h in out <==> h in m.positions && Answers(m, mine, h)
  }

  lemma OneMoreHeld(m: ProperMap, out: set<Id>, mine: seq<Id>, p: Id)
    requires p in m.positions && AnswersExactly(m, out, mine)
    ensures AnswersExactly(m, out + {p} + (set a | a in Ancestors(m, p)), mine + [p])
  {
    forall h ensures h in out + {p} + (set a | a in Ancestors(m, p)) <==> h in m.positions && Answers(m, mine + [p], h) {
      AncestorsAreAbove(m, h, p);
      assert p in mine + [p];
      assert forall q :: q in mine + [p] <==> q in mine || q == p;
    }
  }

  /** A caller writes at a position held or above one: nobody is shown data
      the writer's own position could not see. */
  method WritableHomes(m: ProperMap, held: seq<Id>) returns (out: set<Id>)
    ensures forall h :: h in out <==> h in m.positions && Answers(m, HeldPositions(m, held), h)
  {
    out := {};
    var mine := HeldPositions(m, held);
    for i := 0 to |mine|
      invariant AnswersExactly(m, out, mine[..i])
    {
      var up := ComputeAncestors(m, mine[i]);
      assert mine[..i + 1] == mine[..i] + [mine[i]];
      OneMoreHeld(m, out, mine[..i], mine[i]);
      out := out + {mine[i]} + set a | a in up;
    }
    assert mine[..|mine|] == mine;
  }

  // ---- the lowest position above several homes ----

  function EffectiveHomes(m: PositionMap, homes: seq<Id>): (all: seq<Id>)
    ensures |all| == |homes|
    ensures forall i :: 0 <= i < |homes| ==> all[i] == EffectiveHome(m, homes[i])
  {
    seq(|homes|, i requires 0 <= i < |homes| => EffectiveHome(m, homes[i]))
  }

  function NotEveryone(all: seq<Id>): (list: seq<Id>)
    ensures forall h :: h in list <==> h in all && h != EVERYONE
  {
    if all == [] then []
    else (if all[0] != EVERYONE then [all[0]] else []) + NotEveryone(all[1..])
  }

  function Keep(chain: seq<Id>, up: seq<Id>): (kept: seq<Id>)
    ensures forall p :: p in kept <==> p in chain && p in up
  {
    if chain == [] then []
    else (if chain[0] in up then [chain[0]] else []) + Keep(chain[1..], up)
  }

  function Narrow(m: TreeMap, chain: seq<Id>, rest: seq<Id>): (r: seq<Id>)
    decreases |rest|
  {
    if rest == [] then chain
    else Narrow(m, Keep(chain, [rest[0]] + Ancestors(m, rest[0])), rest[1..])
  }

  function CommonAncestor(m: TreeMap, homes: seq<Id>): (at: Id)
  {
    var all := EffectiveHomes(m, homes);
    var list := NotEveryone(all);
    if list == [] then (if all != [] then EVERYONE else m.root)
    else
      var chain := Narrow(m, [list[0]] + Ancestors(m, list[0]), list[1..]);
      if chain != [] then chain[0] else m.root
  }

  method ComputeCommonAncestor(m: TreeMap, homes: seq<Id>) returns (at: Id)
    ensures at == CommonAncestor(m, homes)
  {
    var all := EffectiveHomes(m, homes);
    var list := NotEveryone(all);
    if list == [] { return if all != [] then EVERYONE else m.root; }
    var first := ComputeAncestors(m, list[0]);
    var chain := [list[0]] + first;
    for i := 1 to |list|
      invariant Narrow(m, chain, list[i..]) == Narrow(m, [list[0]] + first, list[1..])
    {
      var up := ComputeAncestors(m, list[i]);
      chain := Keep(chain, [list[i]] + up);
      assert list[i..][1..] == list[i + 1..];
    }
    assert list[|list|..] == [];
    return if chain != [] then chain[0] else m.root;
  }

  // Lowest first, each above the ones before it.
  ghost predicate Line(m: TreeMap, chain: seq<Id>) {
    forall i, j :: 0 <= i < j < |chain| ==> AtOrAbove(m, chain[j], chain[i])
  }

  ghost predicate AboveAll(m: TreeMap, p: Id, homes: seq<Id>) {
    forall h :: h in homes ==> AtOrAbove(m, p, h)
  }

  // The chain holds exactly what is above every home looked at so far.
  ghost predicate Common(m: TreeMap, chain: seq<Id>, homes: seq<Id>) {
    && Line(m, chain)
    && forall p {:trigger p in chain} {:trigger AboveAll(m, p, homes)} :: p in chain <==> p in m.positions && AboveAll(m, p, homes)
  }

  lemma {:induction false} ChainIsALine(m: ProperMap, h: Id)
    requires h in m.positions
    ensures Line(m, [h] + Chain(m, h))
    decreases Rank(m, h)
  {
    var up := [h] + Chain(m, h);
    if h != m.root {
      ParentIsHigher(m, h);
      var p := Up(m, h).value;
      ChainIsALine(m, p);
      assert up == [h] + ([p] + Chain(m, p));
    }
    forall i, j | 0 <= i < j < |up| ensures AtOrAbove(m, up[j], up[i]) {
      if i == 0 {
        assert up[j] in Chain(m, h);
        AncestorsAreAbove(m, up[j], h);
      }
    }
  }

  lemma {:induction false} KeepIsALine(m: TreeMap, chain: seq<Id>, up: seq<Id>)
    requires Line(m, chain)
    ensures Line(m, Keep(chain, up))
    decreases |chain|
  {
    if chain != [] {
      assert Line(m, chain[1..]);
      KeepIsALine(m, chain[1..], up);
      var kept := Keep(chain[1..], up);
      forall k | 0 <= k < |kept| ensures AtOrAbove(m, kept[k], chain[0]) {
        assert kept[k] in chain[1..];
      }
    }
  }

  lemma KeepIsCommon(m: ProperMap, chain: seq<Id>, done: seq<Id>, h: Id)
    requires Common(m, chain, done) && h in m.positions
    ensures Common(m, Keep(chain, [h] + Ancestors(m, h)), done + [h])
  {
    var up := [h] + Ancestors(m, h);
    KeepIsALine(m, chain, up);
    forall p ensures p in Keep(chain, up) <==> p in m.positions && AboveAll(m, p, done + [h]) {
      AncestorsAreAbove(m, p, h);
      assert AboveAll(m, p, done + [h]) <==> AboveAll(m, p, done) && AtOrAbove(m, p, h) by {
        assert h in done + [h];
        assert forall x :: x in done + [h] <==> x in done || x == h;
      }
    }
  }

  lemma {:induction false} NarrowIsCommon(m: ProperMap, chain: seq<Id>, done: seq<Id>, rest: seq<Id>)
    requires Common(m, chain, done)
    requires forall h :: h in rest ==> h in m.positions
    ensures Common(m, Narrow(m, chain, rest), done + rest)
    decreases |rest|
  {
    if rest == [] {
      assert done + rest == done;
    } else {
      var h := rest[0];
      KeepIsCommon(m, chain, done, h);
      NarrowIsCommon(m, Keep(chain, [h] + Ancestors(m, h)), done + [h], rest[1..]);
      assert done + [h] + rest[1..] == done + rest;
    }
  }

  ghost predicate IsLeastUpperBound(m: TreeMap, at: Id, homes: seq<Id>) {
    && IsHome(m, at)
    && (at == EVERYONE <==> forall h :: h in homes ==> EffectiveHome(m, h) == EVERYONE)
    && forall p {:trigger AtOrAbove(m, p, at)} :: p in m.positions ==>
         (AtOrAbove(m, p, at) <==> forall h :: h in homes ==> AtOrAbove(m, p, EffectiveHome(m, h)))
  }

  lemma ChainOfPositions(m: ProperMap, list: seq<Id>)
    requires list != [] && forall h :: h in list ==> h in m.positions
    ensures Common(m, Narrow(m, [list[0]] + Ancestors(m, list[0]), list[1..]), list)
  {
    var h := list[0];
    var first := [h] + Ancestors(m, h);
    ChainIsALine(m, h);
    forall p ensures p in first <==> p in m.positions && AboveAll(m, p, [h]) {
      AncestorsAreAbove(m, p, h);
      assert h in [h];
    }
    NarrowIsCommon(m, first, [h], list[1..]);
    assert [h] + list[1..] == list;
  }

  lemma LowestOfCommon(m: ProperMap, chain: seq<Id>, list: seq<Id>)
    requires Common(m, chain, list) && forall h :: h in list ==> h in m.positions
    ensures chain != [] && chain[0] in m.positions
    ensures forall p {:trigger AtOrAbove(m, p, chain[0])} {:trigger AboveAll(m, p, list)} :: p in m.positions ==> (AtOrAbove(m, p, chain[0]) <==> AboveAll(m, p, list))
  {
    forall x | x in list ensures AtOrAbove(m, m.root, x) { RootIsAbove(m, x); }
    assert m.root in chain;
    assert chain[0] in chain;
    forall p | p in m.positions && AtOrAbove(m, p, chain[0]) ensures AboveAll(m, p, list) {
      forall x | x in list ensures AtOrAbove(m, p, x) { AboveTransitive(m, p, chain[0], x); }
    }
    forall p | p in m.positions && AboveAll(m, p, list) ensures AtOrAbove(m, p, chain[0]) {
      var j :| 0 <= j < |chain| && chain[j] == p;
    }
  }

  lemma CommonOfPositions(m: ProperMap, list: seq<Id>)
    requires list != [] && forall h :: h in list ==> h in m.positions
    ensures var chain := Narrow(m, [list[0]] + Ancestors(m, list[0]), list[1..]);
      chain != [] && chain[0] in m.positions &&
      forall p {:trigger AtOrAbove(m, p, chain[0])} {:trigger AboveAll(m, p, list)} :: p in m.positions ==> (AtOrAbove(m, p, chain[0]) <==> AboveAll(m, p, list))
  {
    ChainOfPositions(m, list);
    LowestOfCommon(m, Narrow(m, [list[0]] + Ancestors(m, list[0]), list[1..]), list);
  }

  /** commonAncestor is the least upper bound of the homes it is given. */
  lemma CommonAncestorIsLeast(m: ProperMap, homes: seq<Id>)
    requires homes != []
    ensures IsLeastUpperBound(m, CommonAncestor(m, homes), homes)
  {
    var all := EffectiveHomes(m, homes);
    var list := NotEveryone(all);
    var at := CommonAncestor(m, homes);
    forall h | h in homes ensures EffectiveHome(m, h) in all {
      var i :| 0 <= i < |homes| && homes[i] == h;
      assert all[i] == EffectiveHome(m, h);
    }
    assert all != [] && all[0] in all;
    if list != [] {
      forall h | h in list ensures h in m.positions {}
      CommonOfPositions(m, list);
      forall p | p in m.positions
        ensures AboveAll(m, p, list) <==> forall h :: h in homes ==> AtOrAbove(m, p, EffectiveHome(m, h))
      {
        if forall h :: h in homes ==> AtOrAbove(m, p, EffectiveHome(m, h)) {
          forall x | x in list ensures AtOrAbove(m, p, x) {
            var i :| 0 <= i < |all| && all[i] == x;
            assert homes[i] in homes;
          }
        }
      }
      assert list[0] in list;
      var i :| 0 <= i < |all| && all[i] == list[0];
      assert homes[i] in homes;
    }
  }

  lemma LeastUpperBoundUnique(m: TreeMap, a: Id, b: Id, homes: seq<Id>)
    requires IsLeastUpperBound(m, a, homes) && IsLeastUpperBound(m, b, homes)
    ensures a == b
  {
    if a != EVERYONE && b != EVERYONE {
      assert AtOrAbove(m, a, a) && AtOrAbove(m, b, b);
      AboveAntisymmetric(m, a, b);
    }
  }

  /** Neither the order nor repeats matter. */
  lemma CommonAncestorOfASet(m: ProperMap, homes: seq<Id>, others: seq<Id>)
    requires homes != [] && forall h :: h in homes <==> h in others
    ensures CommonAncestor(m, homes) == CommonAncestor(m, others)
  {
    assert homes[0] in others;
    CommonAncestorIsLeast(m, homes);
    CommonAncestorIsLeast(m, others);
    assert IsLeastUpperBound(m, CommonAncestor(m, others), homes);
    LeastUpperBoundUnique(m, CommonAncestor(m, homes), CommonAncestor(m, others), homes);
  }

  /** Adding a home is joining it with what the others gave. */
  lemma CommonAncestorExtends(m: ProperMap, homes: seq<Id>, h: Id)
    requires homes != []
    ensures CommonAncestor(m, homes + [h]) == CommonAncestor(m, [CommonAncestor(m, homes), h])
  {
    var at := CommonAncestor(m, homes);
    var pair := [at, h];
    CommonAncestorIsLeast(m, homes);
    CommonAncestorIsLeast(m, pair);
    CommonAncestorIsLeast(m, homes + [h]);
    var r := CommonAncestor(m, pair);
    assert EffectiveHome(m, at) == at && at in pair && h in pair;
    assert h in homes + [h];
    assert forall x :: x in homes ==> x in homes + [h];
    assert IsLeastUpperBound(m, r, homes + [h]);
    LeastUpperBoundUnique(m, CommonAncestor(m, homes + [h]), r, homes + [h]);
  }

  /** What a common ancestor hides: whoever sees it sees every home. */
  lemma CommonAncestorBounds(m: ProperMap, homes: seq<Id>, h: Id)
    requires h in homes
    ensures IsHome(m, CommonAncestor(m, homes))
    ensures AtOrAbove(m, CommonAncestor(m, homes), EffectiveHome(m, h))
  {
    CommonAncestorIsLeast(m, homes);
    var at := CommonAncestor(m, homes);
    if at != EVERYONE { assert AtOrAbove(m, at, at); }
  }

  /** A home nobody knows, or none at all, counts as the root: whatever else is
      given, the lowest position above it is the root. */
  lemma UnknownMeansTheRoot(m: ProperMap, homes: seq<Id>, h: Id)
    requires h in homes && !IsHome(m, h)
    ensures CommonAncestor(m, homes) == m.root
  {
    var at := CommonAncestor(m, homes);
    CommonAncestorIsLeast(m, homes);
    CommonAncestorBounds(m, homes, h);
    assert AtOrAbove(m, at, EffectiveHome(m, h));
    RootIsAbove(m, m.root);
    assert EffectiveHome(m, h) == m.root && Up(m, m.root).None?;
  }

  /** A move from such a home is one from the root: only to it no wider. */
  lemma UnknownMovesFromTheRoot(m: ProperMap, from: Id, to: Id)
    requires !IsHome(m, from) && IsHome(m, to)
    ensures MoveKind(m, from, to) == Restrict <==> to == m.root
  {
    AncestorsAreAbove(m, to, m.root);
    assert Up(m, m.root).None?;
  }
}
