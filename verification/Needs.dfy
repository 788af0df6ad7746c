/** Questions put to the people who may know (graph-rag/src/needs.js): who owns
    an entry, how linked questions are grouped, what a group shows. */
module Needs {
  import opened Wrappers
  import opened Positions
  import opened Visibility

  type Person = string
  type Qid = string

  // ---- who owns what a question meets ----

  // The people but the asker who hold this position.
  function People(holders: map<Person, seq<Id>>, asker: Person, pos: Id): (ps: set<Person>) {
    set p | p in holders && p != asker && pos in holders[p]
  }

  // The first of these positions that someone holds.
  function FirstHeld(holders: map<Person, seq<Id>>, asker: Person, line: seq<Id>): (ps: set<Person>) {
    if line == [] then {}
    else if People(holders, asker, line[0]) != {} then People(holders, asker, line[0])
    else FirstHeld(holders, asker, line[1..])
  }

  function Owners(m: TreeMap, home: Id, holders: map<Person, seq<Id>>, asker: Person): (ps: set<Person>) {
    FirstHeld(holders, asker, Upward(m, home))
  }

  // The home and what is above it, nearest first.
  function Upward(m: TreeMap, home: Id): (line: seq<Id>) { [home] + Ancestors(m, home) }

  method OwnersFor(m: TreeMap, home: Id, holders: map<Person, seq<Id>>, asker: Person) returns (people: set<Person>)
    ensures people == Owners(m, home, holders, asker)
  {
    var up := ComputeAncestors(m, home);
    var line := [home] + up;
    for i := 0 to |line|
      invariant FirstHeld(holders, asker, line[i..]) == FirstHeld(holders, asker, line)
    {
      people := set p | p in holders && p != asker && line[i] in holders[p];
      if people != {} { return; }
    }
    people := {};
  }

  // Only positions that exist count as held.
  ghost predicate HoldPositions(m: TreeMap, holders: map<Person, seq<Id>>) {
    forall p, pos :: p in holders && pos in holders[p] ==> pos in m.positions
  }

  lemma {:induction false} FirstHeldIs(holders: map<Person, seq<Id>>, asker: Person, line: seq<Id>) returns (k: nat)
    ensures k <= |line| && forall i :: 0 <= i < k ==> People(holders, asker, line[i]) == {}
    ensures FirstHeld(holders, asker, line) == if k < |line| then People(holders, asker, line[k]) else {}
    ensures k < |line| ==> People(holders, asker, line[k]) != {}
  {
    if line == [] || People(holders, asker, line[0]) != {} {
      k := 0;
    } else {
      var j := FirstHeldIs(holders, asker, line[1..]);
      k := j + 1;
      forall i | 0 <= i < k ensures People(holders, asker, line[i]) == {} {
        if i > 0 { assert line[i] == line[1..][i - 1]; }
      }
    }
  }

  lemma UpwardIsAbove(m: ProperMap, home: Id, pos: Id)
    requires IsHome(m, home)
    ensures pos in Upward(m, home) <==> AtOrAbove(m, pos, home)
  {
    AncestorsAreAbove(m, pos, home);
  }

  // Somebody but the asker holds this position, and it is at or above the home.
  ghost predicate Above(m: TreeMap, home: Id, holders: map<Person, seq<Id>>, asker: Person, p: Person, pos: Id) {
    p in holders && p != asker && pos in holders[p] && AtOrAbove(m, pos, home)
  }

  /** Whoever a question is shown to is not its asker, and can see the entry it
      met by a position they hold. */
  lemma OwnersCanSee(m: ProperMap, home: Id, holders: map<Person, seq<Id>>, asker: Person)
    requires IsHome(m, home) && HoldPositions(m, holders)
    ensures asker !in Owners(m, home, holders, asker)
    ensures forall p :: p in Owners(m, home, holders, asker) ==> p in holders && Sees(m, holders[p], home)
  {
    var line := Upward(m, home);
    var k := FirstHeldIs(holders, asker, line);
    if k < |line| {
      var pos := line[k];
      assert pos in line;
      UpwardIsAbove(m, home, pos);
      forall p | p in People(holders, asker, pos) ensures Sees(m, holders[p], home) { assert pos in holders[p]; }
    }
  }

  /** It is shown to somebody exactly when anybody but the asker holds a
      position at or above the entry. */
  lemma SomebodyIsAsked(m: ProperMap, home: Id, holders: map<Person, seq<Id>>, asker: Person)
    requires IsHome(m, home)
    ensures Owners(m, home, holders, asker) != {} <==> exists p, pos :: Above(m, home, holders, asker, p, pos)
  {
    var line := Upward(m, home);
    var k := FirstHeldIs(holders, asker, line);
    if k < |line| {
      assert line[k] in line;
      UpwardIsAbove(m, home, line[k]);
      var p :| p in People(holders, asker, line[k]);
      assert Above(m, home, holders, asker, p, line[k]);
    } else {
      forall p, pos ensures !Above(m, home, holders, asker, p, pos) {
        UpwardIsAbove(m, home, pos);
        assert pos in line ==> p !in People(holders, asker, pos);
      }
    }
  }

  /** They are the nearest: every position at or above the entry that anybody
      but the asker holds is at or above the one its owners hold. */
  lemma OwnersAreNearest(m: ProperMap, home: Id, holders: map<Person, seq<Id>>, asker: Person) returns (at: Id)
    requires home in m.positions && Owners(m, home, holders, asker) != {}
    ensures AtOrAbove(m, at, home)
    ensures forall p :: p in Owners(m, home, holders, asker) <==> p in holders && p != asker && at in holders[p]
    ensures forall p, pos :: Above(m, home, holders, asker, p, pos) ==> AtOrAbove(m, pos, at)
  {
    var line := Upward(m, home);
    var k := FirstHeldIs(holders, asker, line);
    at := line[k];
    assert at in line;
    UpwardIsAbove(m, home, at);
    ChainIsALine(m, home);
    forall p, pos | Above(m, home, holders, asker, p, pos) ensures AtOrAbove(m, pos, at) {
      UpwardIsAbove(m, home, pos);
      var i :| 0 <= i < |line| && line[i] == pos;
      assert p in People(holders, asker, line[i]);
    }
  }

}
