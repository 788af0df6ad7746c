/** Linked questions shown to one owner, as groups (graph-rag/src/needs.js):
    a parent map joined link by link, and what one group shows. */
module LinkedQuestions {
  import opened Wrappers

  type Qid = string
  type Link = (Qid, Qid)

  // ---- what belongs together ----

  predicate Linked(links: seq<Link>, a: Qid, b: Qid) { (a, b) in links || (b, a) in links }

  // A path of links among the shown questions.
  predicate Path(shown: set<Qid>, links: seq<Link>, p: seq<Qid>) {
    && p != [] && (forall i :: 0 <= i < |p| ==> p[i] in shown)
    && (forall i :: 0 < i < |p| ==> Linked(links, p[i - 1], p[i]))
  }

  predicate Joins(shown: set<Qid>, links: seq<Link>, p: seq<Qid>, a: Qid, b: Qid) {
    Path(shown, links, p) && p[0] == a && p[|p| - 1] == b
  }

  ghost predicate Connected(shown: set<Qid>, links: seq<Link>, a: Qid, b: Qid) {
    exists p :: Joins(shown, links, p, a, b)
  }

  lemma ConnectedToItself(shown: set<Qid>, links: seq<Link>, a: Qid)
    requires a in shown
    ensures Connected(shown, links, a, a)
  {
    assert Joins(shown, links, [a], a, a);
  }

  lemma ConnectedByLink(shown: set<Qid>, links: seq<Link>, a: Qid, b: Qid)
    requires a in shown && b in shown && Linked(links, a, b)
    ensures Connected(shown, links, a, b)
  {
    assert Joins(shown, links, [a, b], a, b);
  }

  lemma ConnectedThrough(shown: set<Qid>, links: seq<Link>, a: Qid, b: Qid, c: Qid)
    requires Connected(shown, links, a, b) && Connected(shown, links, b, c)
    ensures Connected(shown, links, a, c)
  {
    var p :| Joins(shown, links, p, a, b);
    var q :| Joins(shown, links, q, b, c);
    var r := p + q[1..];
    forall i | 0 < i < |r| ensures Linked(links, r[i - 1], r[i]) {
      if i == |p| { assert r[i - 1] == q[0]; }
    }
    assert Joins(shown, links, r, a, c);
  }

  lemma ConnectedBack(shown: set<Qid>, links: seq<Link>, a: Qid, b: Qid)
    requires Connected(shown, links, a, b)
    ensures Connected(shown, links, b, a)
  {
    var p :| Joins(shown, links, p, a, b);
    var r := seq(|p|, i requires 0 <= i < |p| => p[|p| - 1 - i]);
    forall i | 0 < i < |r| ensures Linked(links, r[i - 1], r[i]) {
      assert Linked(links, p[|p| - 1 - i], p[|p| - i]);
    }
    assert Joins(shown, links, r, b, a);
  }

  lemma ConnectedStays(shown: set<Qid>, links: seq<Link>, more: seq<Link>, a: Qid, b: Qid)
    requires Connected(shown, links, a, b)
    ensures Connected(shown, links + more, a, b)
  {
    var p :| Joins(shown, links, p, a, b);
    forall i | 0 < i < |p| ensures Linked(links + more, p[i - 1], p[i]) { assert Linked(links, p[i - 1], p[i]); }
    assert Joins(shown, links + more, p, a, b);
  }

  // ---- the parent map ----

  type Parents = map<Qid, Qid>

  // A step towards a root goes down a level.
  ghost predicate Steps(parent: Parents, level: map<Qid, nat>, q: Qid) {
    q in parent && parent[q] in parent && q in level && parent[q] in level && (parent[q] != q ==> level[parent[q]] < level[q])
  }

  ghost predicate Leveled(parent: Parents, level: map<Qid, nat>) {
    forall q {:trigger Steps(parent, level, q)} :: q in parent ==> Steps(parent, level, q)
  }

  ghost predicate Forest(parent: Parents) { exists level :: Leveled(parent, level) }

  ghost function LevelOf(parent: Parents): (level: map<Qid, nat>)
    requires Forest(parent)
    ensures Leveled(parent, level)
  {
    var level :| Leveled(parent, level);
    level
  }

  ghost function Level(parent: Parents, q: Qid): (n: nat)
    requires Forest(parent) && q in parent
    ensures Steps(parent, LevelOf(parent), q)
  {
    assert Steps(parent, LevelOf(parent), q);
    LevelOf(parent)[q]
  }

  predicate Root(parent: Parents, r: Qid) { r in parent && parent[r] == r }

  function Find(parent: Parents, q: Qid): (r: Qid)
    requires Forest(parent) && q in parent
    ensures Root(parent, r)
    decreases Level(parent, q)
  {
    assert Level(parent, q) >= 0;
    if parent[q] == q then q else assert Level(parent, parent[q]) < Level(parent, q); Find(parent, parent[q])
  }

  // One tree is hung under the root of another, or under its own root.
  lemma UnionStaysAForest(parent: Parents, a: Qid, b: Qid)
    requires Forest(parent) && Root(parent, a) && Root(parent, b)
    ensures Forest(parent[a := b])
  {
    if a != b {
      var t := parent[a := b];
      var higher := map q | q in parent :: Level(parent, q) + if Find(parent, q) == a then Level(parent, b) + 1 else 0;
      forall q | q in t ensures Steps(t, higher, q) {
        assert Level(parent, q) >= 0;
        if q != a && parent[q] != q { assert Find(parent, q) == Find(parent, parent[q]); }
      }
      assert Leveled(t, higher);
    } else {
      assert parent[a := b] == parent;
    }
  }

  lemma {:induction false} UnionFinds(parent: Parents, a: Qid, b: Qid, q: Qid)
    requires Forest(parent) && Root(parent, a) && Root(parent, b) && q in parent
    ensures Forest(parent[a := b])
    ensures Find(parent[a := b], q) == if Find(parent, q) == a then b else Find(parent, q)
    decreases Level(parent, q)
  {
    UnionStaysAForest(parent, a, b);
    assert Level(parent, q) >= 0;
    if parent[q] != q {
      assert Level(parent, parent[q]) < Level(parent, q);
      UnionFinds(parent, a, b, parent[q]);
    } else if q == a && a != b {
      assert Find(parent[a := b], b) == b;
    }
  }

  // A question is joined to its root by links.
  ghost predicate Reaches(shown: set<Qid>, links: seq<Link>, parent: Parents, q: Qid)
    requires Forest(parent)
  {
    q in parent && Connected(shown, links, q, Find(parent, q))
  }

  ghost predicate Agrees(parent: Parents, l: Link)
    requires Forest(parent)
  {
    l.0 in parent && l.1 in parent ==> Find(parent, l.0) == Find(parent, l.1)
  }

  // The roots so far are the groups that the links so far make.
  ghost predicate Grouped(shown: set<Qid>, links: seq<Link>, parent: Parents) {
    && parent.Keys == shown && Forest(parent)
    && (forall q {:trigger Reaches(shown, links, parent, q)} :: q in shown ==> Reaches(shown, links, parent, q))
    && (forall l {:trigger Agrees(parent, l)} :: l in links ==> Agrees(parent, l))
  }

  // How hanging root a under root b changes one question's path to its root.
  lemma JoinReaches(shown: set<Qid>, links: seq<Link>, parent: Parents, l: Link, q: Qid)
    requires Grouped(shown, links, parent) && l.0 in shown && l.1 in shown && q in shown
    requires Forest(parent[Find(parent, l.0) := Find(parent, l.1)])
    ensures Reaches(shown, links + [l], parent[Find(parent, l.0) := Find(parent, l.1)], q)
  {
    var a, b, more := Find(parent, l.0), Find(parent, l.1), links + [l];
    UnionFinds(parent, a, b, q);
    assert Reaches(shown, links, parent, q);
    ConnectedStays(shown, links, [l], q, Find(parent, q));
    if Find(parent, q) == a {
      assert Reaches(shown, links, parent, l.0) && Reaches(shown, links, parent, l.1);
      ConnectedStays(shown, links, [l], l.0, a);
      ConnectedStays(shown, links, [l], l.1, b);
      ConnectedBack(shown, more, l.0, a);
      ConnectedThrough(shown, more, q, a, l.0);
      ConnectedByLink(shown, more, l.0, l.1);
      ConnectedThrough(shown, more, q, l.0, l.1);
      ConnectedThrough(shown, more, q, l.1, b);
    }
  }

  lemma JoinKeeps(shown: set<Qid>, links: seq<Link>, parent: Parents, l: Link)
    requires Grouped(shown, links, parent) && l.0 in shown && l.1 in shown
    ensures Grouped(shown, links + [l], parent[Find(parent, l.0) := Find(parent, l.1)])
  {
    var a, b, more := Find(parent, l.0), Find(parent, l.1), links + [l];
    var t := parent[a := b];
    UnionStaysAForest(parent, a, b);
    forall q | q in shown ensures Reaches(shown, more, t, q) { JoinReaches(shown, links, parent, l, q); }
    forall k | k in more ensures Agrees(t, k) {
      if k.0 in parent && k.1 in parent {
        UnionFinds(parent, a, b, k.0);
        UnionFinds(parent, a, b, k.1);
        if k in links { assert Agrees(parent, k); }
      }
    }
  }

  lemma SkipKeeps(shown: set<Qid>, links: seq<Link>, parent: Parents, l: Link)
    requires Grouped(shown, links, parent) && !(l.0 in shown && l.1 in shown)
    ensures Grouped(shown, links + [l], parent)
  {
    forall q | q in shown ensures Reaches(shown, links + [l], parent, q) {
      assert Reaches(shown, links, parent, q);
      ConnectedStays(shown, links, [l], q, Find(parent, q));
    }
    forall k | k in links + [l] ensures Agrees(parent, k) { if k in links { assert Agrees(parent, k); } }
  }

  lemma LinkedAgree(shown: set<Qid>, links: seq<Link>, parent: Parents, a: Qid, b: Qid)
    requires Grouped(shown, links, parent) && a in shown && b in shown && Linked(links, a, b)
    ensures Find(parent, a) == Find(parent, b)
  {
    if (a, b) in links { assert Agrees(parent, (a, b)); } else { assert Agrees(parent, (b, a)); }
  }

  lemma {:induction false} PathStaysInAGroup(shown: set<Qid>, links: seq<Link>, parent: Parents, p: seq<Qid>)
    requires Grouped(shown, links, parent) && Path(shown, links, p)
    ensures Find(parent, p[0]) == Find(parent, p[|p| - 1])
    decreases |p|
  {
    if |p| > 1 {
      var most := p[..|p| - 1];
      assert Path(shown, links, most);
      PathStaysInAGroup(shown, links, parent, most);
      LinkedAgree(shown, links, parent, p[|p| - 2], p[|p| - 1]);
    }
  }

  /** Two shown questions have one root exactly when links among the shown ones
      join them. */
  lemma RootsAreGroups(shown: set<Qid>, links: seq<Link>, parent: Parents, a: Qid, b: Qid)
    requires Grouped(shown, links, parent) && a in shown && b in shown
    ensures Find(parent, a) == Find(parent, b) <==> Connected(shown, links, a, b)
  {
    if Find(parent, a) == Find(parent, b) {
      assert Reaches(shown, links, parent, a) && Reaches(shown, links, parent, b);
      ConnectedBack(shown, links, b, Find(parent, b));
      ConnectedThrough(shown, links, a, Find(parent, a), b);
    }
    if Connected(shown, links, a, b) {
      var p :| Joins(shown, links, p, a, b);
      PathStaysInAGroup(shown, links, parent, p);
    }
  }

  // ---- the groups ----

  function All(qids: seq<Qid>): (shown: set<Qid>) { set q | q in qids }

  // The ones of these that are in the group, in order.
  function Among(qids: seq<Qid>, group: seq<Qid>): (r: seq<Qid>) {
    if qids == [] then []
    else Among(qids[..|qids| - 1], group) + if qids[|qids| - 1] in group then [qids[|qids| - 1]] else []
  }

  // The ones of these with this root, in order.
  function WithRoot(parent: Parents, qids: seq<Qid>, root: Qid): (r: seq<Qid>)
    requires Forest(parent) && All(qids) <= parent.Keys
  {
    if qids == [] then []
    else
      var most, last := qids[..|qids| - 1], qids[|qids| - 1];
      assert last in All(qids) && forall q :: q in most ==> q in All(qids);
      WithRoot(parent, most, root) + if Find(parent, last) == root then [last] else []
  }

  lemma AllStep(qids: seq<Qid>, k: nat)
    requires k < |qids|
    ensures qids[..k + 1] == qids[..k] + [qids[k]]
    ensures All(qids[..k + 1]) == All(qids[..k]) + {qids[k]} && All(qids[..k + 1]) <= All(qids)
  {
  }

  lemma {:induction false} WithRootHolds(parent: Parents, qids: seq<Qid>, root: Qid, q: Qid)
    requires Forest(parent) && All(qids) <= parent.Keys
    ensures q in WithRoot(parent, qids, root) <==> q in qids && (q in All(qids)) && Find(parent, q) == root
  {
    if qids != [] {
      var most, last := qids[..|qids| - 1], qids[|qids| - 1];
      assert qids == most + [last];
      WithRootHolds(parent, most, root, q);
    }
  }

  lemma {:induction false} WithRootIsAmong(parent: Parents, qids: seq<Qid>, part: seq<Qid>, root: Qid)
    requires Forest(parent) && All(qids) <= parent.Keys && All(part) <= All(qids)
    ensures WithRoot(parent, part, root) == Among(part, WithRoot(parent, qids, root))
    decreases |part|
  {
    if part != [] {
      var most, last := part[..|part| - 1], part[|part| - 1];
      assert part == most + [last];
      assert last in All(part) && All(most) <= All(part);
      WithRootIsAmong(parent, qids, most, root);
      WithRootHolds(parent, qids, root, last);
    }
  }

  method ParentMap(qids: seq<Qid>, links: seq<Link>) returns (parent: Parents)
    ensures Grouped(All(qids), links, parent)
  {
    parent := map q | q in qids :: q;
    Alone(qids, parent);
    for i := 0 to |links|
      invariant Grouped(All(qids), links[..i], parent)
    {
      var l := links[i];
      assert links[..i + 1] == links[..i] + [l];
      if l.0 in parent && l.1 in parent {
        JoinKeeps(All(qids), links[..i], parent, l);
        parent := parent[Find(parent, l.0) := Find(parent, l.1)];
      } else {
        SkipKeeps(All(qids), links[..i], parent, l);
      }
    }
    assert links[..|links|] == links;
  }

  lemma Alone(qids: seq<Qid>, parent: Parents)
    requires parent.Keys == All(qids) && forall q :: q in parent ==> parent[q] == q
    ensures Grouped(All(qids), [], parent)
  {
    var level := map q | q in parent :: 0;
    assert Leveled(parent, level);
    forall q | q in All(qids) ensures Reaches(All(qids), [], parent, q) { ConnectedToItself(All(qids), [], q); }
  }

  // This root's group so far.
  ghost predicate Bucket(parent: Parents, qids: seq<Qid>, byRoot: map<Qid, seq<Qid>>, r: Qid)
    requires Forest(parent) && All(qids) <= parent.Keys
  {
    r in byRoot && byRoot[r] == WithRoot(parent, qids, r) && byRoot[r] != []
  }

  ghost predicate Met(parent: Parents, byRoot: map<Qid, seq<Qid>>, q: Qid)
    requires Forest(parent)
  {
    q in parent && Find(parent, q) in byRoot
  }

  // The groups so far: one for each root met.
  ghost predicate Sorted(parent: Parents, qids: seq<Qid>, byRoot: map<Qid, seq<Qid>>)
    requires Forest(parent) && All(qids) <= parent.Keys
  {
    && (forall r {:trigger Bucket(parent, qids, byRoot, r)} :: r in byRoot ==> Bucket(parent, qids, byRoot, r))
    && (forall q {:trigger Met(parent, byRoot, q)} :: q in qids ==> Met(parent, byRoot, q))
  }

  lemma FoundMeansMet(parent: Parents, qids: seq<Qid>, byRoot: map<Qid, seq<Qid>>, r: Qid)
    requires Forest(parent) && All(qids) <= parent.Keys && Sorted(parent, qids, byRoot)
    ensures WithRoot(parent, qids, r) != [] ==> r in byRoot
  {
    var found := WithRoot(parent, qids, r);
    if found != [] {
      WithRootHolds(parent, qids, r, found[0]);
      assert Met(parent, byRoot, found[0]);
    }
  }

  // The groups with one more question sorted in.
  function Placed(byRoot: map<Qid, seq<Qid>>, r: Qid, q: Qid): (t: map<Qid, seq<Qid>>) {
    byRoot[r := (if r in byRoot then byRoot[r] else []) + [q]]
  }

  lemma SortNext(parent: Parents, qids: seq<Qid>, byRoot: map<Qid, seq<Qid>>, q: Qid)
    requires Forest(parent) && All(qids + [q]) <= parent.Keys && All(qids) <= parent.Keys && q in parent
    requires Sorted(parent, qids, byRoot)
    ensures Sorted(parent, qids + [q], Placed(byRoot, Find(parent, q), q))
  {
    var r := Find(parent, q);
    var t := Placed(byRoot, r, q);
    forall x | x in t ensures Bucket(parent, qids + [q], t, x) {
      FoundMeansMet(parent, qids, byRoot, x);
      if x in byRoot { assert Bucket(parent, qids, byRoot, x); }
    }
    forall x | x in qids + [q] ensures Met(parent, t, x) {
      if x in qids { assert Met(parent, byRoot, x); }
    }
  }

  // The roots in the order they were met.
  ghost predicate Lists(roots: seq<Qid>, byRoot: map<Qid, seq<Qid>>) {
    && (forall i, j :: 0 <= i < j < |roots| ==> roots[i] != roots[j])
    && (forall r :: r in roots <==> r in byRoot)
  }

  method SortByRoot(qids: seq<Qid>, parent: Parents) returns (roots: seq<Qid>, byRoot: map<Qid, seq<Qid>>)
    requires Forest(parent) && All(qids) <= parent.Keys
    ensures Lists(roots, byRoot) && Sorted(parent, qids, byRoot)
  {
    roots, byRoot := [], map[];
    for k := 0 to |qids|
      invariant Lists(roots, byRoot) && All(qids[..k]) <= parent.Keys && Sorted(parent, qids[..k], byRoot)
    {
      AllStep(qids, k);
      assert qids[k] in All(qids);
      var root := Find(parent, qids[k]);
      SortNext(parent, qids[..k], byRoot, qids[k]);
      ghost var was := byRoot;
      if root !in byRoot { roots, byRoot := roots + [root], byRoot[root := []]; }
      byRoot := byRoot[root := byRoot[root] + [qids[k]]];
      assert byRoot == Placed(was, root, qids[k]);
    }
    assert qids[..|qids|] == qids;
  }

  method GroupByRoot(qids: seq<Qid>, parent: Parents) returns (roots: seq<Qid>, groups: seq<seq<Qid>>)
    requires Forest(parent) && All(qids) <= parent.Keys
    ensures |roots| == |groups| && (forall i, j :: 0 <= i < j < |roots| ==> roots[i] != roots[j])
    ensures forall i :: 0 <= i < |roots| ==> groups[i] == WithRoot(parent, qids, roots[i]) && groups[i] != []
    ensures forall q :: q in qids ==> q in All(qids) && Find(parent, q) in roots
  {
    var byRoot;
    roots, byRoot := SortByRoot(qids, parent);
    groups := [];
    for i := 0 to |roots|
      invariant |groups| == i && forall j :: 0 <= j < i ==> groups[j] == WithRoot(parent, qids, roots[j]) && groups[j] != []
    {
      assert roots[i] in roots && Bucket(parent, qids, byRoot, roots[i]);
      groups := groups + [byRoot[roots[i]]];
    }
    forall q | q in qids ensures q in All(qids) && Find(parent, q) in roots { assert Met(parent, byRoot, q); }
  }

  /** A partition of the questions shown: none left out, each group listing its
      own in the order shown, and two of them together exactly when a path of
      links among the shown ones joins them. */
  method GroupLinked(qids: seq<Qid>, links: seq<Link>) returns (groups: seq<seq<Qid>>)
    ensures forall i :: 0 <= i < |groups| ==> groups[i] != [] && groups[i] == Among(qids, groups[i])
    ensures forall q :: q in qids ==> exists i :: 0 <= i < |groups| && q in groups[i]
    ensures forall i, j, a, b :: 0 <= i < |groups| && 0 <= j < |groups| && a in groups[i] && b in groups[j] ==>
      (i == j <==> Connected(All(qids), links, a, b))
  {
    var parent := ParentMap(qids, links);
    var roots;
    roots, groups := GroupByRoot(qids, parent);
    forall i | 0 <= i < |groups| ensures groups[i] == Among(qids, groups[i]) { WithRootIsAmong(parent, qids, qids, roots[i]); }
    forall q | q in qids ensures exists i :: 0 <= i < |groups| && q in groups[i] {
      assert q in All(qids);
      var i :| 0 <= i < |roots| && roots[i] == Find(parent, q);
      WithRootHolds(parent, qids, roots[i], q);
      assert q in groups[i];
    }
    forall i, j, a, b | 0 <= i < |groups| && 0 <= j < |groups| && a in groups[i] && b in groups[j]
      ensures i == j <==> Connected(All(qids), links, a, b)
    {
      WithRootHolds(parent, qids, roots[i], a);
      WithRootHolds(parent, qids, roots[j], b);
      RootsAreGroups(All(qids), links, parent, a, b);
    }
  }

  // ---- what a group shows ----

  type Key = string

  datatype Entry = Entry(key: Key, shared: bool, score: int)

  datatype Status = Open | Shared | Dismissed | Expired

  type Time = int

  // One owner's view of one question.
  datatype View = View(id: Qid, question: string, asker: string, asked: nat, status: Status, entries: seq<Entry>,
                       posted: bool, expiresAt: Option<Time>)

  // What is shown of a group: of one question as it is, of several put together.
  datatype Item = Item(ids: seq<Qid>, questions: seq<string>, askers: seq<string>, asked: nat, status: Status,
                       entries: seq<Entry>, posted: bool, expiresAt: Option<Time>)

  // What a list names, each once, in the order first named.
  function Firsts(xs: seq<string>): (ys: seq<string>) {
    if xs == [] then []
    else
      var before, x := Firsts(xs[..|xs| - 1]), xs[|xs| - 1];
      if x in before then before else before + [x]
  }

  ghost predicate OnceEach(ys: seq<string>, xs: seq<string>) {
    && (forall y :: y in ys <==> y in xs)
    && forall i, j :: 0 <= i < j < |ys| ==> NamedBefore(xs, ys[i], ys[j])
  }

  // a is named somewhere before b first is.
  ghost predicate NamedBefore(xs: seq<string>, a: string, b: string) {
    exists p :: 0 <= p < |xs| && xs[p] == a && b !in xs[..p + 1]
  }

  lemma NamedBeforeStays(xs: seq<string>, x: string, a: string, b: string)
    requires NamedBefore(xs, a, b)
    ensures NamedBefore(xs + [x], a, b)
  {
    var p :| 0 <= p < |xs| && xs[p] == a && b !in xs[..p + 1];
    assert (xs + [x])[..p + 1] == xs[..p + 1];
  }

  lemma NewIsNamedLast(xs: seq<string>, a: string, x: string)
    requires a in xs && x !in xs
    ensures NamedBefore(xs + [x], a, x)
  {
    var p :| 0 <= p < |xs| && xs[p] == a;
    assert (xs + [x])[..p + 1] == xs[..p + 1];
  }

  lemma {:induction false} FirstsAreOnceEach(xs: seq<string>)
    ensures OnceEach(Firsts(xs), xs)
  {
    if xs != [] {
      var most, x := xs[..|xs| - 1], xs[|xs| - 1];
      var before, ys := Firsts(most), Firsts(xs);
      FirstsAreOnceEach(most);
      assert most + [x] == xs && forall y :: y in xs <==> y in most || y == x;
      forall i, j | 0 <= i < j < |ys| ensures NamedBefore(xs, ys[i], ys[j]) {
        if j < |before| {
          assert NamedBefore(most, before[i], before[j]);
          NamedBeforeStays(most, x, ys[i], ys[j]);
        } else {
          assert before[i] in before;
          NewIsNamedLast(most, ys[i], x);
        }
      }
    }
  }

  function AskedInAll(views: seq<View>): (n: nat) {
    if views == [] then 0 else AskedInAll(views[..|views| - 1]) + views[|views| - 1].asked
  }

  /** Whoever asked each question, the group's count is the sum over its parts. */
  lemma {:induction false} AskedAddsUp(a: seq<View>, b: seq<View>)
    ensures AskedInAll(a + b) == AskedInAll(a) + AskedInAll(b)
    ensures forall v :: AskedInAll([v]) == v.asked
  {
    if b == [] {
      assert a + b == a;
    } else {
      assert (a + b)[..|a + b| - 1] == a + b[..|b| - 1];
      AskedAddsUp(a, b[..|b| - 1]);
    }
    forall v: View ensures AskedInAll([v]) == v.asked { assert [v][..0] == []; }
  }

  function Latest(views: seq<View>): (at: Option<Time>)
    ensures at.None? <==> forall i :: 0 <= i < |views| ==> views[i].expiresAt.None?
    ensures at.Some? ==> forall i :: 0 <= i < |views| && views[i].expiresAt.Some? ==> views[i].expiresAt.value <= at.value
    ensures at.Some? ==> exists i :: 0 <= i < |views| && views[i].expiresAt == at
  {
    if views == [] then None
    else
      var before, last := Latest(views[..|views| - 1]), views[|views| - 1].expiresAt;
      assert views[..|views| - 1] + [views[|views| - 1]] == views;
      if before.None? || (last.Some? && last.value >= before.value) then last else before
  }

  function AllEntries(views: seq<View>): (es: seq<Entry>) {
    if views == [] then [] else AllEntries(views[..|views| - 1]) + views[|views| - 1].entries
  }

  predicate Has(es: seq<Entry>, key: Key) { exists i :: 0 <= i < |es| && es[i].key == key }

  predicate AlwaysShared(es: seq<Entry>, key: Key) { forall i :: 0 <= i < |es| && es[i].key == key ==> es[i].shared }

  predicate BestScore(es: seq<Entry>, key: Key, score: int) {
    && (forall i :: 0 <= i < |es| && es[i].key == key ==> es[i].score <= score)
    && exists i :: 0 <= i < |es| && es[i].key == key && es[i].score == score
  }

  // What is said of one entry by all of these.
  predicate Sums(es: seq<Entry>, key: Key, e: Entry) {
    e.key == key && (e.shared <==> AlwaysShared(es, key)) && BestScore(es, key, e.score)
  }

  ghost predicate Collected(es: seq<Entry>, entries: map<Key, Entry>) {
    && (forall key :: key in entries <==> Has(es, key))
    && (forall key :: key in entries ==> Sums(es, key, entries[key]))
  }

  function With(entries: map<Key, Entry>, e: Entry): (t: map<Key, Entry>) {
    if e.key !in entries then entries[e.key := e]
    else
      var prev := entries[e.key];
      entries[e.key := prev.(shared := prev.shared && e.shared, score := if prev.score > e.score then prev.score else e.score)]
  }

  lemma CollectNext(es: seq<Entry>, entries: map<Key, Entry>, e: Entry)
    requires Collected(es, entries)
    ensures Collected(es + [e], With(entries, e))
  {
    var t, fs := With(entries, e), es + [e];
    forall key ensures Has(fs, key) <==> Has(es, key) || key == e.key {
      if Has(es, key) {
        var i :| 0 <= i < |es| && es[i].key == key;
        assert fs[i].key == key;
      }
      assert fs[|es|] == e;
    }
    forall key | key in t ensures Sums(fs, key, t[key]) {
      if key in entries { SumsNext(es, key, entries[key], e); } else { assert !Has(es, key) && fs[|es|] == e; }
    }
  }

  lemma SumsNext(es: seq<Entry>, key: Key, was: Entry, e: Entry)
    requires Sums(es, key, was)
    ensures e.key != key ==> Sums(es + [e], key, was)
    ensures e.key == key ==> Sums(es + [e], key, was.(shared := was.shared && e.shared, score := if was.score > e.score then was.score else e.score))
  {
    var fs := es + [e];
    var i :| 0 <= i < |es| && es[i].key == key && es[i].score == was.score;
    assert fs[i] == es[i] && fs[|es|] == e;
    assert AlwaysShared(fs, key) <==> AlwaysShared(es, key) && (e.key == key ==> e.shared) by {
      if AlwaysShared(fs, key) { forall j | 0 <= j < |es| && es[j].key == key ensures es[j].shared { assert fs[j].shared; } }
    }
  }

  method Collect(views: seq<View>) returns (entries: map<Key, Entry>)
    ensures Collected(AllEntries(views), entries)
  {
    entries := map[];
    for i := 0 to |views|
      invariant Collected(AllEntries(views[..i]), entries)
    {
      var es := views[i].entries;
      ghost var before := AllEntries(views[..i]);
      assert before + es[..0] == before;
      for j := 0 to |es|
        invariant Collected(before + es[..j], entries)
      {
        assert before + es[..j + 1] == before + es[..j] + [es[j]];
        CollectNext(before + es[..j], entries, es[j]);
        entries := With(entries, es[j]);
      }
      assert es[..|es|] == es && views[..i + 1][..i] == views[..i];
    }
    assert views[..|views|] == views;
  }

  predicate SomeIs(views: seq<View>, status: Status) { exists i :: 0 <= i < |views| && views[i].status == status }

  // Every one of the questions met this entry.
  predicate MetByAll(views: seq<View>, key: Key) { forall i :: 0 <= i < |views| ==> Has(views[i].entries, key) }

  function Keys(es: seq<Entry>): (keys: seq<Key>) { seq(|es|, i requires 0 <= i < |es| => es[i].key) }

  // This question met the entry, and its asker was given it.
  ghost predicate GivenIn(v: View, key: Key) {
    && (exists i :: 0 <= i < |v.entries| && v.entries[i].key == key)
    && forall i :: 0 <= i < |v.entries| && v.entries[i].key == key ==> v.entries[i].shared
  }

  // Every entry any of them met, once, in the order first met, with its best
  // score; shared only once each asker has been given it.
  ghost predicate Gathered(views: seq<View>, entries: seq<Entry>) {
    var es := AllEntries(views);
    && OnceEach(Keys(entries), Keys(es))
    && (forall i :: 0 <= i < |entries| ==> BestScore(es, entries[i].key, entries[i].score))
    && forall i :: 0 <= i < |entries| ==> (entries[i].shared <==> forall k :: 0 <= k < |views| ==> GivenIn(views[k], entries[i].key))
  }

  lemma {:induction false} AlwaysSharedInAll(views: seq<View>, key: Key)
    ensures AlwaysShared(AllEntries(views), key) <==> forall k :: 0 <= k < |views| ==> AlwaysShared(views[k].entries, key)
  {
    if views != [] {
      var most, last := views[..|views| - 1], views[|views| - 1];
      AlwaysSharedInAll(most, key);
      AlwaysSharedInBoth(AllEntries(most), last.entries, key);
      assert forall k :: 0 <= k < |most| ==> views[k] == most[k];
    }
  }

  lemma AlwaysSharedInBoth(es: seq<Entry>, fs: seq<Entry>, key: Key)
    ensures AlwaysShared(es + fs, key) <==> AlwaysShared(es, key) && AlwaysShared(fs, key)
  {
    var all := es + fs;
    if AlwaysShared(all, key) {
      forall i | 0 <= i < |es| && es[i].key == key ensures es[i].shared { assert all[i].shared; }
      forall i | 0 <= i < |fs| && fs[i].key == key ensures fs[i].shared { assert all[|es| + i].shared; }
    }
  }

  lemma GivenInAll(views: seq<View>, key: Key)
    ensures MetByAll(views, key) && AlwaysShared(AllEntries(views), key) <==> forall k :: 0 <= k < |views| ==> GivenIn(views[k], key)
  {
    AlwaysSharedInAll(views, key);
    forall k | 0 <= k < |views| ensures GivenIn(views[k], key) <==> Has(views[k].entries, key) && AlwaysShared(views[k].entries, key) {}
  }

  lemma KeysAreHeld(es: seq<Entry>, key: Key)
    ensures key in Keys(es) <==> Has(es, key)
  {
    if Has(es, key) {
      var i :| 0 <= i < |es| && es[i].key == key;
      assert Keys(es)[i] == key;
    }
  }

  method GatherEntries(views: seq<View>) returns (entries: seq<Entry>)
    ensures Gathered(views, entries)
  {
    var es := AllEntries(views);
    var found := Collect(views);
    var order := Firsts(Keys(es));
    FirstsAreOnceEach(Keys(es));
    entries := [];
    for i := 0 to |order|
      invariant Keys(entries) == order[..i]
      invariant forall k :: 0 <= k < i ==> BestScore(es, entries[k].key, entries[k].score)
      invariant forall k :: 0 <= k < i ==> (entries[k].shared <==> MetByAll(views, entries[k].key) && AlwaysShared(es, entries[k].key))
    {
      var key := order[i];
      assert key in order;
      KeysAreHeld(es, key);
      assert Sums(es, key, found[key]);
      var e := found[key].(shared := found[key].shared && MetByAll(views, key));
      assert Keys(entries + [e]) == Keys(entries) + [key] == order[..i + 1];
      entries := entries + [e];
    }
    assert order[..|order|] == order;
    forall k | 0 <= k < |entries| ensures entries[k].shared <==> forall v :: 0 <= v < |views| ==> GivenIn(views[v], entries[k].key) {
      GivenInAll(views, entries[k].key);
    }
  }

  /** One item for a group of linked questions, oldest first: every asker and
      question, and every entry any of them met; open while any of them is. */
  method GroupView(views: seq<View>) returns (item: Item)
    requires views != []
    ensures item.ids == seq(|views|, i requires 0 <= i < |views| => views[i].id)
    ensures item.questions == seq(|views|, i requires 0 <= i < |views| => views[i].question)
    ensures OnceEach(item.askers, seq(|views|, i requires 0 <= i < |views| => views[i].asker))
    ensures item.asked == AskedInAll(views) && item.expiresAt == Latest(views)
    ensures item.status == Open <==> exists i :: 0 <= i < |views| && views[i].status == Open
    ensures item.status != Open ==> (item.status == Shared <==> exists i :: 0 <= i < |views| && views[i].status == Shared)
    ensures item.status !in {Open, Shared} ==> item.status == views[0].status
    ensures |views| == 1 ==> item.entries == views[0].entries && item.posted == views[0].posted
    ensures |views| > 1 ==> Gathered(views, item.entries) && (item.posted <==> AllEntries(views) == [])
  {
    var askers := seq(|views|, i requires 0 <= i < |views| => views[i].asker);
    FirstsAreOnceEach(askers);
    var v := views[0];
    if |views| == 1 {
      assert views[..0] == [] && AskedInAll([]) == 0 && Latest([]).None?;
      assert askers == [v.asker] && [v.asker][..0] == [] && Firsts([v.asker]) == [v.asker];
      return Item([v.id], [v.question], [v.asker], v.asked, v.status, v.entries, v.posted, v.expiresAt);
    }
    var entries := GatherEntries(views);
    ghost var es := AllEntries(views);
    assert entries == [] <==> es == [] by {
      if entries != [] { assert Keys(entries)[0] in Keys(es); }
      if es != [] { assert Keys(es)[0] in Keys(es); }
    }
    item := Item(seq(|views|, i requires 0 <= i < |views| => views[i].id),
                 seq(|views|, i requires 0 <= i < |views| => views[i].question),
                 Firsts(askers), AskedInAll(views),
                 if SomeIs(views, Open) then Open else if SomeIs(views, Shared) then Shared else v.status,
                 entries, entries == [], Latest(views));
  }
}
