/** Shares outside the tree (graph-rag/src/grants.js): what a caller sees beyond
    the positions it holds. */
module Grants {
  import opened Wrappers
  import opened Positions
  import opened Visibility

  type Person = string
  type Time = int

  // An end date that does not parse is no date.
  datatype Ends = Never | At(time: Time) | Garbled

  datatype Kind = Subtree(top: Id) | Entity(rid: string, name: string, origin: Option<Id>)

  datatype Grant = Grant(kind: Kind, to: Id, toUser: Option<Person>, active: bool, ends: Ends)

  // The entity a grant was made for.
  type Shown = (string, string, Option<Id>)

  predicate IsActive(g: Grant, now: Time) {
    g.active && match g.ends
                case Never => true
                case At(t) => now < t
                case Garbled => false
  }

  predicate Reaches(g: Grant, vis: set<Id>, person: Option<Person>) {
    if g.toUser.Some? then person == g.toUser else g.to in vis
  }

  /** In force: not revoked, and never to end or to end later than now; an end
      that does not parse has passed. */
  ghost predicate InForce(g: Grant, now: Time) {
    g.active && (g.ends == Never || exists t :: g.ends == At(t) && now < t)
  }

  // The rule: in force, and made to this person or to a position within view.
  ghost predicate Applies(m: TreeMap, held: seq<Id>, g: Grant, now: Time, person: Option<Person>) {
    InForce(g, now) && if g.toUser.Some? then person == g.toUser else g.to in SeenHomes(m, held)
  }

  // The homes, and the entity, that a grant which applies shows.
  function HomesOf(m: TreeMap, g: Grant): (homes: set<Id>) {
    if g.kind.Subtree? then Visibility.Subtree(m, g.kind.top) else {}
  }

  function EntityOf(g: Grant): (e: set<Shown>) {
    if g.kind.Entity? && g.kind.rid != "" && g.kind.name != "" then {(g.kind.rid, g.kind.name, g.kind.origin)} else {}
  }

  ghost predicate SomeShowsHome(m: TreeMap, held: seq<Id>, grants: seq<Grant>, now: Time, person: Option<Person>, h: Id) {
    exists i :: 0 <= i < |grants| && Applies(m, held, grants[i], now, person) && h in HomesOf(m, grants[i])
  }

  ghost predicate SomeShowsEntity(m: TreeMap, held: seq<Id>, grants: seq<Grant>, now: Time, person: Option<Person>, e: Shown) {
    exists i :: 0 <= i < |grants| && Applies(m, held, grants[i], now, person) && e in EntityOf(grants[i])
  }

  lemma OneMoreGrant(m: TreeMap, held: seq<Id>, grants: seq<Grant>, g: Grant, now: Time, person: Option<Person>)
    ensures forall h :: SomeShowsHome(m, held, grants + [g], now, person, h) <==>
      SomeShowsHome(m, held, grants, now, person, h) || (Applies(m, held, g, now, person) && h in HomesOf(m, g))
    ensures forall e :: SomeShowsEntity(m, held, grants + [g], now, person, e) <==>
      SomeShowsEntity(m, held, grants, now, person, e) || (Applies(m, held, g, now, person) && e in EntityOf(g))
  {
    var all := grants + [g];
    assert all[|grants|] == g && forall i :: 0 <= i < |grants| ==> all[i] == grants[i];
  }

  /** What the grants show beyond the caller's own view: nothing to one who sees
      everything; else exactly what the grants that apply are for. */
  method GrantedView(m: TreeMap, held: seq<Id>, grants: seq<Grant>, now: Time, person: Option<Person>)
    returns (homes: set<Id>, entities: set<Shown>)
    ensures m.root in held ==> homes == {} && entities == {}
    ensures m.root !in held ==> forall h :: h in homes <==> SomeShowsHome(m, held, grants, now, person, h)
    ensures m.root !in held ==> forall e :: e in entities <==> SomeShowsEntity(m, held, grants, now, person, e)
  {
    homes, entities := {}, {};
    var vis := VisibleHomes(m, held);
    if vis.None? { return; }
    for i := 0 to |grants|
      invariant forall h :: h in homes <==> SomeShowsHome(m, held, grants[..i], now, person, h)
      invariant forall e :: e in entities <==> SomeShowsEntity(m, held, grants[..i], now, person, e)
    {
      var g := grants[i];
      assert grants[..i + 1] == grants[..i] + [g];
      OneMoreGrant(m, held, grants[..i], g, now, person);
      if IsActive(g, now) && Reaches(g, vis.value, person) {
        match g.kind {
          case Subtree(top) =>
            var below := ComputeSubtree(m, top);
            homes := homes + below;
          case Entity(rid, name, origin) =>
            if rid != "" && name != "" { entities := entities + {(rid, name, origin)}; }
        }
      }
    }
    assert grants[..|grants|] == grants;
  }

  /** A position's share works as if what is at or below `top` were also homed
      at that position: it shows a home to exactly those who see the position,
      when `top` is at or above the home. */
  lemma ShareIsAnotherHome(m: ProperMap, held: seq<Id>, g: Grant, now: Time, person: Option<Person>, h: Id)
    requires g.kind.Subtree? && g.toUser.None? && InForce(g, now) && IsHome(m, g.to)
    requires g.kind.top in m.positions && h in m.positions
    ensures SomeShowsHome(m, held, [g], now, person, h) <==> Sees(m, held, g.to) && AtOrAbove(m, g.kind.top, h)
  {
    AncestorsAreAbove(m, g.kind.top, h);
    assert h in HomesOf(m, g) <==> AtOrAbove(m, g.kind.top, h);
    assert Applies(m, held, g, now, person) <==> Sees(m, held, g.to);
    assert [g][0] == g;
  }
}
