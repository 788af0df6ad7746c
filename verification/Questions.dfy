/** A question's life (graph-rag/src/needs.js, graph-rag/src/server.js): what it
    meets, whom it is shown to, who answers it, and what its asker can tell of
    all that. Each call is one step. */
module Questions {
  import opened Wrappers
  import opened Positions
  import opened Visibility
  import opened Needs

  type Rid = string
  type Time = int

  datatype Entry = Entry(name: string, home: Id)

  // What does not change while questions come and go.
  datatype Org = Org(m: ProperMap, holders: map<Person, seq<Id>>, entries: map<Rid, Entry>)

  ghost predicate Sound(org: Org) {
    && HoldPositions(org.m, org.holders)
    && forall r {:trigger org.entries[r]} :: r in org.entries ==> IsHome(org.m, org.entries[r].home)
  }

  datatype MeetState = Hidden | Visible | Shared | Declined

  datatype Status = Proposed | Open | Joined | Withdrawn | Expired

  // `meetings` holds one meeting for each entry met; `sharedBy` is history.
  datatype Need = Need(asker: Person, status: Status, openUntil: Option<Time>, meetings: map<Rid, MeetState>,
                       shownTo: set<Person>, dismissed: set<Person>, sharedBy: map<Rid, Person>)

  type State = map<Qid, Need>

  datatype Event =
    | Ask(q: Qid, asker: Person)
    | Begin(q: Qid, until: Time, found: set<Rid>)
    | Meet(q: Qid, rid: Rid, sees: bool)
    | Answer(person: Person, group: set<Qid>, chosen: set<Rid>, granted: set<(Qid, Rid)>)
    | Dismiss(person: Person, group: set<Qid>)
    | Close(q: Qid, status: Status)

  // ---- the steps ----

  function OwnersOf(org: Org, rid: Rid, asker: Person): (ps: set<Person>) {
    if rid in org.entries then Owners(org.m, org.entries[rid].home, org.holders, asker) else {}
  }

  // A meeting is recorded once for each entry; its owners are shown the question.
  function Met(org: Org, n: Need, rid: Rid): (t: Need) {
    if rid in n.meetings then n
    else n.(meetings := n.meetings[rid := Hidden], shownTo := n.shownTo + OwnersOf(org, rid, n.asker))
  }

  function MetAll(org: Org, n: Need, found: set<Rid>): (t: Need) {
    n.(meetings := map r | r in n.meetings.Keys + found :: if r in n.meetings then n.meetings[r] else Hidden,
       shownTo := n.shownTo + set r, p | r in found && p in OwnersOf(org, r, n.asker) :: p)
  }

  // The meetings this person is asked about.
  predicate Theirs(org: Org, n: Need, person: Person, rid: Rid) {
    rid in n.meetings && n.meetings[rid] != Visible && person in OwnersOf(org, rid, n.asker)
  }

  predicate Shows(n: Need, person: Person) { n.status == Open && n.asker != person && person !in n.dismissed }

  // The entries this person may share in answer to any of these questions.
  predicate Offered(org: Org, s: State, person: Person, group: set<Qid>, rid: Rid) {
    exists q :: q in group && q in s && Shows(s[q], person) && Theirs(org, s[q], person, rid) && s[q].meetings[rid] == Hidden
  }

  function Gets(org: Org, s: State, e: Event, q: Qid): (rids: set<Rid>)
    requires e.Answer? && q in s
  {
    set r | r in e.chosen && (q, r) in e.granted && Offered(org, s, e.person, e.group, r)
            && !(r in s[q].meetings && s[q].meetings[r] in {Shared, Visible})
  }

  function Answered(org: Org, s: State, e: Event, q: Qid): (t: Need)
    requires e.Answer? && q in s
  {
    if q !in e.group || !Shows(s[q], e.person) then s[q]
    else
      var n, given := s[q], Gets(org, s, e, q);
      n.(meetings := map r | r in n.meetings.Keys + given :: if r in given then Shared else n.meetings[r],
         sharedBy := map r | r in n.sharedBy.Keys + given :: if r in given then e.person else n.sharedBy[r])
  }

  function Dismissed(org: Org, n: Need, person: Person): (t: Need) {
    if !Shows(n, person) then n
    else n.(meetings := map r | r in n.meetings :: if Theirs(org, n, person, r) && n.meetings[r] == Hidden then Declined else n.meetings[r],
            dismissed := n.dismissed + {person})
  }

  function Next(org: Org, s: State, e: Event): (t: State) {
    match e
    case Ask(q, asker) => if q in s then s else s[q := Need(asker, Proposed, None, map[], {}, {}, map[])]
    case Begin(q, until, found) =>
      if q !in s || s[q].status != Proposed then s
      else s[q := MetAll(org, s[q].(status := Open, openUntil := Some(until)), found)]
    case Meet(q, rid, sees) =>
      if q !in s || s[q].status != Open then s
      else if !sees then s[q := Met(org, s[q], rid)]
      else if rid in s[q].meetings then s else s[q := s[q].(meetings := s[q].meetings[rid := Visible])]
    case Answer(_, _, _, _) => map q | q in s :: Answered(org, s, e, q)
    case Dismiss(person, group) => map q | q in s :: if q in group then Dismissed(org, s[q], person) else s[q]
    case Close(q, status) => if q !in s then s else s[q := s[q].(status := status)]
  }

  function Run(org: Org, s: State, es: seq<Event>): (t: State)
    decreases |es|
  {
    if es == [] then s else Run(org, Next(org, s, es[0]), es[1..])
  }

  // ---- how the meetings change ----

  function StateOf(n: Need, rid: Rid): (st: Option<MeetState>) { if rid in n.meetings then Some(n.meetings[rid]) else None }

  /** Questions come about only by being asked, with nothing met and nobody shown. */
  lemma QuestionsAreAsked(org: Org, s: State, e: Event, q: Qid)
    ensures q in Next(org, s, e) <==> q in s || (e.Ask? && e.q == q)
    ensures q in Next(org, s, e) && q !in s ==>
      Next(org, s, e)[q] == Need(e.asker, Proposed, None, map[], {}, {}, map[])
  {
    if e.Answer? || e.Dismiss? { assert Next(org, s, e).Keys == s.Keys; }
  }

  // This person owns the entry, as far as this question goes.
  predicate IsOwner(org: Org, n: Need, person: Person, rid: Rid) {
    rid in org.entries && person in Owners(org.m, org.entries[rid].home, org.holders, n.asker)
  }

  // An open question of somebody else that this person has not declined.
  predicate Put(n: Need, person: Person) { n.status == Open && n.asker != person && !(person in n.dismissed) }

  // The question has met this entry out of its asker's sight, and waits for this owner.
  predicate AsksFor(org: Org, n: Need, person: Person, rid: Rid) {
    Put(n, person) && StateOf(n, rid) == Some(Hidden) && IsOwner(org, n, person, rid)
  }

  /** This answer gives the question's asker this entry: its owner, asked about it
      by one of the group's questions, chose it, and the share was granted. */
  predicate GivenBy(org: Org, s: State, e: Event, q: Qid, rid: Rid)
    requires q in s
  {
    && e.Answer? && q in e.group && Put(s[q], e.person) && rid in e.chosen && (q, rid) in e.granted
    && StateOf(s[q], rid) != Some(Visible) && exists p :: p in e.group && p in s && AsksFor(org, s[p], e.person, rid)
  }

  predicate DeclinedBy(org: Org, s: State, e: Event, q: Qid, rid: Rid)
    requires q in s
  {
    e.Dismiss? && q in e.group && AsksFor(org, s[q], e.person, rid)
  }

  // The question meets this entry for the first time, in its asker's sight or not.
  predicate MetBy(s: State, e: Event, q: Qid, rid: Rid, sees: bool)
    requires q in s
  {
    && (e.Meet? || e.Begin?) && e.q == q && StateOf(s[q], rid) == None
    && if e.Meet? then s[q].status == Open && e.rid == rid && e.sees == sees else s[q].status == Proposed && rid in e.found && !sees
  }

  lemma OfferedIs(org: Org, s: State, e: Event, rid: Rid)
    requires e.Answer?
    ensures Offered(org, s, e.person, e.group, rid) <==> exists p :: p in e.group && p in s && AsksFor(org, s[p], e.person, rid)
  {
    forall p | p in e.group && p in s
      ensures AsksFor(org, s[p], e.person, rid) <==> Shows(s[p], e.person) && Theirs(org, s[p], e.person, rid) && s[p].meetings[rid] == Hidden
    {
    }
  }

  /** Whatever happens, these are the only ways a meeting comes about or changes. */
  lemma HowMeetingsChange(org: Org, s: State, e: Event, q: Qid, rid: Rid)
    requires q in s
    ensures q in Next(org, s, e)
    ensures var was, now := StateOf(s[q], rid), StateOf(Next(org, s, e)[q], rid);
      && (now == Some(Shared) <==> was == Some(Shared) || GivenBy(org, s, e, q, rid))
      && (now == Some(Declined) <==> (was == Some(Declined) && !GivenBy(org, s, e, q, rid)) || DeclinedBy(org, s, e, q, rid))
      && (now == Some(Visible) <==> was == Some(Visible) || MetBy(s, e, q, rid, true))
      && (now == None <==> was == None && !GivenBy(org, s, e, q, rid) && !MetBy(s, e, q, rid, true) && !MetBy(s, e, q, rid, false))
  {
    if e.Answer? { OfferedIs(org, s, e, rid); }
  }

  // What begins to ask finds this entry, or it is met unseen later on.
  predicate Finds(s: State, e: Event, q: Qid, rid: Rid)
    requires q in s
  {
    (e.Begin? && e.q == q && s[q].status == Proposed && rid in e.found) || (e.Meet? && MetBy(s, e, q, rid, false))
  }

  ghost predicate ShownBy(org: Org, s: State, e: Event, q: Qid, person: Person)
    requires q in s
  {
    exists rid :: Finds(s, e, q, rid) && IsOwner(org, s[q], person, rid)
  }

  /** A question that meets entries unseen is then shown to exactly their owners;
      and declined, it is shown to one person less. */
  lemma HowShowingChanges(org: Org, s: State, e: Event, q: Qid, person: Person)
    requires q in s
    ensures q in Next(org, s, e)
    ensures var n, t := s[q], Next(org, s, e)[q];
      && (person in t.shownTo <==> person in n.shownTo || ShownBy(org, s, e, q, person))
      && (person in t.dismissed <==> person in n.dismissed || (e.Dismiss? && e.person == person && q in e.group && Put(n, person)))
  {
    var n, t := s[q], Next(org, s, e)[q];
    if person in t.shownTo && person !in n.shownTo {
      if e.Begin? {
        var rid :| rid in e.found && person in OwnersOf(org, rid, n.asker);
        assert Finds(s, e, q, rid) && IsOwner(org, n, person, rid);
      } else {
        assert Finds(s, e, q, e.rid) && IsOwner(org, n, person, e.rid);
      }
    }
    if ShownBy(org, s, e, q, person) {
      var rid :| Finds(s, e, q, rid) && IsOwner(org, n, person, rid);
      assert person in OwnersOf(org, rid, n.asker);
    }
  }

  // Some answer of this run gives the question's asker the entry.
  predicate EverGiven(org: Org, s: State, es: seq<Event>, q: Qid, rid: Rid)
    requires q in s
    decreases |es|
  {
    es != [] && (GivenBy(org, s, es[0], q, rid) || (q in Next(org, s, es[0]) && EverGiven(org, Next(org, s, es[0]), es[1..], q, rid)))
  }

  /** Over every run, an entry has been shared with a question's asker if and only
      if one of its owners, asked about it, chose it and the share was granted. */
  lemma {:induction false} SharedExactlyWhenGiven(org: Org, s: State, es: seq<Event>, q: Qid, rid: Rid)
    requires q in s
    ensures q in Run(org, s, es)
    ensures StateOf(Run(org, s, es)[q], rid) == Some(Shared) <==> StateOf(s[q], rid) == Some(Shared) || EverGiven(org, s, es, q, rid)
    decreases |es|
  {
    if es != [] {
      HowMeetingsChange(org, s, es[0], q, rid);
      SharedExactlyWhenGiven(org, Next(org, s, es[0]), es[1..], q, rid);
    }
  }

  // ---- what the asker is told ----

  datatype Answering = Own(status: Status) | Over | Given | Waiting

  datatype View = View(status: Answering, stillOpen: bool, shared: set<string>, expiresAt: Option<Time>)

  // The entries shared in answer, or that the asker can see.
  function Shown(n: Need): (rids: set<Rid>) { set r | r in n.meetings && n.meetings[r] in {Shared, Visible} }

  function Names(org: Org, rids: set<Rid>): (names: set<string>) {
    set r | r in rids && r in org.entries :: org.entries[r].name
  }

  function Told(org: Org, n: Need): (names: set<string>) { Names(org, Shown(n)) }

  function AskerView(org: Org, n: Need, now: Time): (v: View) {
    var ended := n.openUntil.Some? && n.openUntil.value <= now;
    var shared := Told(org, n);
    View(if n.status in {Proposed, Joined, Withdrawn} then Own(n.status)
         else if ended then Over else if shared != {} then Given else Waiting,
         n.status == Open && !ended, shared, n.openUntil)
  }

  /** What an asker sees of a question: it is open until its date; the names are
      those of the entries shared or in sight; and whether there are any is all
      an asker learns of an open question before that date. */
  lemma WhatAnAskerSees(org: Org, n: Need, now: Time)
    ensures var v := AskerView(org, n, now);
      var over := exists until :: n.openUntil == Some(until) && until <= now;
      && (v.stillOpen <==> n.status == Open && !over) && v.expiresAt == n.openUntil
      && (forall x :: x in v.shared <==> exists r :: StateOf(n, r) in {Some(Shared), Some(Visible)} && r in org.entries && org.entries[r].name == x)
      && (n.status in {Proposed, Joined, Withdrawn} ==> v.status == Own(n.status))
      && (n.status in {Open, Expired} ==> (v.status == Over <==> over) && (v.status == Given <==> !over && v.shared != {}) && (v.status == Waiting <==> !over && v.shared == {}))
  {
    forall x ensures x in AskerView(org, n, now).shared <==> exists r :: StateOf(n, r) in {Some(Shared), Some(Visible)} && r in org.entries && org.entries[r].name == x {
      if x in Told(org, n) {
        var r :| r in Shown(n) && r in org.entries && org.entries[r].name == x;
        assert StateOf(n, r) in {Some(Shared), Some(Visible)};
      }
      if r :| StateOf(n, r) in {Some(Shared), Some(Visible)} && r in org.entries && org.entries[r].name == x { assert r in Shown(n); }
    }
  }

  /** The entries an event lets a question's asker know of: one that is met in
      the asker's sight and was not met before, and those an answer gives. */
  function Tells(org: Org, s: State, e: Event, q: Qid): (rids: set<Rid>)
    requires q in s
  {
    match e
    case Meet(p, rid, sees) => if p == q && sees && s[q].status == Open && rid !in s[q].meetings then {rid} else {}
    case Answer(person, group, _, _) => if q in group && Shows(s[q], person) then Gets(org, s, e, q) else {}
    case _ => {}
  }

  lemma NamesAdd(org: Org, a: set<Rid>, b: set<Rid>)
    ensures Names(org, a + b) == Names(org, a) + Names(org, b)
  {
    forall x | x in Names(org, a) + Names(org, b) ensures x in Names(org, a + b) {
      var r :| r in a + b && r in org.entries && org.entries[r].name == x;
    }
  }

  lemma ShownGrows(org: Org, s: State, e: Event, q: Qid)
    requires q in s
    ensures q in Next(org, s, e) && Shown(Next(org, s, e)[q]) == Shown(s[q]) + Tells(org, s, e, q)
  {
    var n, t := s[q], Next(org, s, e)[q];
    forall r ensures r in Shown(t) <==> r in Shown(n) + Tells(org, s, e, q) {}
  }

  /** What an asker has been told of grows by exactly that, whatever happens. */
  lemma ToldGrows(org: Org, s: State, e: Event, q: Qid)
    requires q in s
    ensures q in Next(org, s, e) && Told(org, Next(org, s, e)[q]) == Told(org, s[q]) + Names(org, Tells(org, s, e, q))
  {
    ShownGrows(org, s, e, q);
    NamesAdd(org, Shown(s[q]), Tells(org, s, e, q));
  }

  // What an asker can tell apart.
  predicate SameToAsker(org: Org, a: Need, b: Need) {
    a.asker == b.asker && a.status == b.status && a.openUntil == b.openUntil && Told(org, a) == Told(org, b)
  }

  ghost predicate SameToAskers(org: Org, s: State, t: State) {
    s.Keys == t.Keys && forall q {:trigger SameToAsker(org, s[q], t[q])} :: q in s ==> SameToAsker(org, s[q], t[q])
  }

  // Entries met that the asker cannot see, whom the question is shown to, and
  // who declines.
  predicate Behind(e: Event) { (e.Meet? && !e.sees) || e.Dismiss? }

  lemma BehindTellsNothing(org: Org, s: State, e: Event)
    requires Behind(e)
    ensures SameToAskers(org, s, Next(org, s, e))
  {
    var t := Next(org, s, e);
    forall q | q in s ensures SameToAsker(org, s[q], t[q]) { ToldGrows(org, s, e, q); }
  }

  // ---- two runs side by side ----

  predicate Visibly(e: Event) { e.Meet? && e.sees }

  // The same visible meeting in both: the entry was met before in both or in
  // neither, or its name is told already, or nothing comes of it.
  predicate MeetsAlike(org: Org, s: State, t: State, q: Qid, rid: Rid)
    requires s.Keys == t.Keys
  {
    q in s && s[q].status == Open && rid in org.entries ==>
      (rid in s[q].meetings <==> rid in t[q].meetings) || org.entries[rid].name in Told(org, s[q])
  }

  // Two answers that give every question the same entries.
  predicate GiveAlike(org: Org, s: State, t: State, e: Event, f: Event)
    requires s.Keys == t.Keys
  {
    e.Answer? && f.Answer? && forall q :: q in s ==> Tells(org, s, e, q) == Tells(org, t, f, q)
  }

  predicate OwnCall(e: Event, f: Event) {
    || (e.Begin? && f.Begin? && e.q == f.q && e.until == f.until)
    || (e == f && (e.Ask? || e.Close?))
  }

  // Behind the askers' backs, or an answer that gives nobody anything.
  predicate Quiet(org: Org, s: State, e: Event) {
    Behind(e) || (e.Answer? && forall q :: q in s ==> Tells(org, s, e, q) == {})
  }

  /** What happens in one run and in the other: both behind the askers' backs,
      the same meeting in the asker's sight, answers that give the same, or the
      same call of the asker, whatever a question that begins then finds. */
  predicate Paired(org: Org, s: State, t: State, e: Event, f: Event)
    requires s.Keys == t.Keys
  {
    (Quiet(org, s, e) && Quiet(org, t, f)) || (e == f && Visibly(e)) || GiveAlike(org, s, t, e, f) || OwnCall(e, f)
  }

  lemma KeysAlike(org: Org, s: State, t: State, e: Event, f: Event)
    requires s.Keys == t.Keys && Paired(org, s, t, e, f)
    ensures Next(org, s, e).Keys == Next(org, t, f).Keys
    ensures forall q :: q in Next(org, s, e) && q !in s ==> SameToAsker(org, Next(org, s, e)[q], Next(org, t, f)[q])
  {
  }

  // Only a call of the asker changes more than what is told.
  lemma RestAfter(org: Org, s: State, e: Event, q: Qid)
    requires q in s
    ensures q in Next(org, s, e) && Next(org, s, e)[q].asker == s[q].asker
    ensures var n, t := s[q], Next(org, s, e)[q];
      if e.Begin? && e.q == q && n.status == Proposed then t.status == Open && t.openUntil == Some(e.until)
      else t.openUntil == n.openUntil && t.status == if e.Close? && e.q == q then e.status else n.status
  {
  }

  lemma RestStaysAlike(org: Org, s: State, t: State, e: Event, f: Event, q: Qid)
    requires s.Keys == t.Keys && q in s && SameToAsker(org, s[q], t[q]) && Paired(org, s, t, e, f)
    ensures q in Next(org, s, e) && q in Next(org, t, f)
    ensures var a, b := Next(org, s, e)[q], Next(org, t, f)[q];
      a.asker == b.asker && a.status == b.status && a.openUntil == b.openUntil
  {
    RestAfter(org, s, e, q);
    RestAfter(org, t, f, q);
  }

  lemma TellsNothing(org: Org, s: State, e: Event, q: Qid)
    requires q in s && (Quiet(org, s, e) || e.Begin? || e.Ask? || e.Close?)
    ensures Tells(org, s, e, q) == {}
  {
  }

  lemma MeetingTells(org: Org, s: State, t: State, e: Event, q: Qid)
    requires s.Keys == t.Keys && q in s && SameToAsker(org, s[q], t[q]) && Visibly(e)
    ensures Told(org, s[q]) + Names(org, Tells(org, s, e, q)) == Told(org, t[q]) + Names(org, Tells(org, t, e, q)) <==>
      (e.q == q ==> MeetsAlike(org, s, t, q, e.rid))
  {
    OneName(org, e.rid);
  }

  lemma OthersTell(org: Org, s: State, t: State, e: Event, f: Event, q: Qid)
    requires s.Keys == t.Keys && q in s && Paired(org, s, t, e, f) && !Visibly(e)
    ensures Tells(org, s, e, q) == Tells(org, t, f, q)
  {
    if !GiveAlike(org, s, t, e, f) {
      TellsNothing(org, s, e, q);
      TellsNothing(org, t, f, q);
    }
  }

  lemma PairedForOne(org: Org, s: State, t: State, e: Event, f: Event, q: Qid)
    requires s.Keys == t.Keys && q in s && SameToAsker(org, s[q], t[q]) && Paired(org, s, t, e, f)
    ensures q in Next(org, s, e) && q in Next(org, t, f)
    ensures SameToAsker(org, Next(org, s, e)[q], Next(org, t, f)[q]) <==> (Visibly(e) && e.q == q ==> MeetsAlike(org, s, t, q, e.rid))
  {
    RestStaysAlike(org, s, t, e, f, q);
    ToldGrows(org, s, e, q);
    ToldGrows(org, t, f, q);
    if Visibly(e) { MeetingTells(org, s, t, e, q); } else { OthersTell(org, s, t, e, f, q); }
  }

  lemma OneName(org: Org, rid: Rid)
    ensures Names(org, {}) == {} && Names(org, {rid}) == if rid in org.entries then {org.entries[rid].name} else {}
  {
  }

  /** Where askers could not tell two states apart they still cannot, exactly
      when a meeting in the asker's sight, if it is one, meets alike. */
  lemma PairedStepsLookAlike(org: Org, s: State, t: State, e: Event, f: Event)
    requires SameToAskers(org, s, t) && Paired(org, s, t, e, f)
    ensures SameToAskers(org, Next(org, s, e), Next(org, t, f)) <==> (Visibly(e) ==> MeetsAlike(org, s, t, e.q, e.rid))
  {
    var s', t' := Next(org, s, e), Next(org, t, f);
    KeysAlike(org, s, t, e, f);
    forall q | q in s
      ensures q in s' && (SameToAsker(org, s'[q], t'[q]) <==> (Visibly(e) && e.q == q ==> MeetsAlike(org, s, t, q, e.rid)))
    {
      assert SameToAsker(org, s[q], t[q]);
      PairedForOne(org, s, t, e, f, q);
    }
    if Visibly(e) && e.q in s { assert SameToAskers(org, s', t') ==> SameToAsker(org, s'[e.q], t'[e.q]); }
  }

  /** One visible meeting in both runs leaves the askers alike if and only if its
      entry was met before in both or in neither, or its name is told already. */
  lemma VisibleMeetingsAreAlikeWhen(org: Org, s: State, t: State, q: Qid, rid: Rid)
    requires SameToAskers(org, s, t) && q in s && s[q].status == Open && rid in org.entries
    ensures SameToAskers(org, Next(org, s, Meet(q, rid, true)), Next(org, t, Meet(q, rid, true))) <==>
      (rid in s[q].meetings <==> rid in t[q].meetings) || org.entries[rid].name in Told(org, s[q])
  {
    PairedStepsLookAlike(org, s, t, Meet(q, rid, true), Meet(q, rid, true));
  }

  ghost predicate AllPaired(org: Org, s: State, t: State, es: seq<Event>, fs: seq<Event>)
    requires |es| == |fs|
    decreases |es|
  {
    && s.Keys == t.Keys
    && (es != [] ==> Paired(org, s, t, es[0], fs[0]) && AllPaired(org, Next(org, s, es[0]), Next(org, t, fs[0]), es[1..], fs[1..]))
  }

  // Every meeting in the asker's sight meets alike when it comes.
  ghost predicate AllMeetAlike(org: Org, s: State, t: State, es: seq<Event>, fs: seq<Event>)
    requires |es| == |fs|
    decreases |es|
  {
    es != [] ==>
      && s.Keys == t.Keys && (Visibly(es[0]) ==> MeetsAlike(org, s, t, es[0].q, es[0].rid))
      && AllMeetAlike(org, Next(org, s, es[0]), Next(org, t, fs[0]), es[1..], fs[1..])
  }

  ghost predicate AlwaysSame(org: Org, s: State, t: State, es: seq<Event>, fs: seq<Event>)
    requires |es| == |fs|
    decreases |es|
  {
    && SameToAskers(org, s, t)
    && (es != [] ==> AlwaysSame(org, Next(org, s, es[0]), Next(org, t, fs[0]), es[1..], fs[1..]))
  }

  lemma {:induction false} PairedRunsLookAlike(org: Org, s: State, t: State, es: seq<Event>, fs: seq<Event>)
    requires |es| == |fs| && SameToAskers(org, s, t) && AllPaired(org, s, t, es, fs)
    ensures AlwaysSame(org, s, t, es, fs) <==> AllMeetAlike(org, s, t, es, fs)
    ensures AllMeetAlike(org, s, t, es, fs) ==> SameToAskers(org, Run(org, s, es), Run(org, t, fs))
    decreases |es|
  {
    if es != [] {
      var s', t' := Next(org, s, es[0]), Next(org, t, fs[0]);
      PairedStepsLookAlike(org, s, t, es[0], fs[0]);
      if SameToAskers(org, s', t') { PairedRunsLookAlike(org, s', t', es[1..], fs[1..]); }
    }
  }

  /** Two runs that differ only in what questions meet out of the asker's sight,
      whom they are shown to, who declines, and who gives an answer: every asker
      sees the same of every question at all times, if and only if no entry met
      in the asker's sight was met before in just one of them, its name untold. */
  lemma AskersCannotTell(org: Org, s: State, es: seq<Event>, fs: seq<Event>, q: Qid, now: Time)
    requires |es| == |fs| && AllPaired(org, s, s, es, fs)
    ensures AlwaysSame(org, s, s, es, fs) <==> AllMeetAlike(org, s, s, es, fs)
    ensures AllMeetAlike(org, s, s, es, fs) && q in Run(org, s, es) ==>
      q in Run(org, s, fs) && AskerView(org, Run(org, s, es)[q], now) == AskerView(org, Run(org, s, fs)[q], now)
  {
    PairedRunsLookAlike(org, s, s, es, fs);
    if AllMeetAlike(org, s, s, es, fs) && q in Run(org, s, es) {
      assert SameToAsker(org, Run(org, s, es)[q], Run(org, s, fs)[q]);
    }
  }

  // Nothing but what happens behind the askers' backs differs, and nobody meets
  // anything in sight: then there is no condition at all.
  lemma {:induction false} UnseenRunsMeetAlike(org: Org, s: State, t: State, es: seq<Event>, fs: seq<Event>)
    requires |es| == |fs| && AllPaired(org, s, t, es, fs) && forall e :: e in es ==> !Visibly(e)
    ensures AllMeetAlike(org, s, t, es, fs)
    decreases |es|
  {
    if es != [] {
      assert es[0] in es && forall e :: e in es[1..] ==> e in es;
      UnseenRunsMeetAlike(org, Next(org, s, es[0]), Next(org, t, fs[0]), es[1..], fs[1..]);
    }
  }

  /** An entry the asker can see is told of exactly when the question had not
      met it before and no entry of that name was told of already. */
  lemma VisibleMeetingIsToldWhen(org: Org, s: State, q: Qid, rid: Rid)
    requires q in s && s[q].status == Open && rid in org.entries
    ensures Told(org, Next(org, s, Meet(q, rid, true))[q]) != Told(org, s[q]) <==>
      rid !in s[q].meetings && org.entries[rid].name !in Told(org, s[q])
  {
    ToldGrows(org, s, Meet(q, rid, true), q);
    assert Names(org, {rid}) == {org.entries[rid].name} && Names(org, {}) == {};
  }

  /** So a meeting behind the asker's back can show after all: the same entry,
      met again once the asker can see it, is then not told of. */
  lemma HiddenMeetingSilencesVisible(org: Org, q: Qid, asker: Person, rid: Rid, until: Time)
    requires rid in org.entries
    ensures var s := Next(org, Next(org, map[], Ask(q, asker)), Begin(q, until, {}));
      var met, unmet := Meet(q, rid, true), Meet(q, rid, false);
      && Told(org, Next(org, s, met)[q]) == {org.entries[rid].name}
      && Told(org, Next(org, Next(org, s, unmet), met)[q]) == {}
  {
    var s := Next(org, Next(org, map[], Ask(q, asker)), Begin(q, until, {}));
    assert s[q].meetings == map[] && Shown(s[q]) == {};
    var unmet := Next(org, s, Meet(q, rid, false));
    ToldGrows(org, s, Meet(q, rid, true), q);
    ToldGrows(org, s, Meet(q, rid, false), q);
    ToldGrows(org, unmet, Meet(q, rid, true), q);
    assert Names(org, {rid}) == {org.entries[rid].name} && Names(org, {}) == {};
  }

  /** What an asker has been told of is never taken back. */
  lemma {:induction false} ToldIsForGood(org: Org, s: State, es: seq<Event>, q: Qid)
    requires q in s
    ensures q in Run(org, s, es) && Told(org, s[q]) <= Told(org, Run(org, s, es)[q])
    decreases |es|
  {
    if es != [] {
      ToldGrows(org, s, es[0], q);
      ToldIsForGood(org, Next(org, s, es[0]), es[1..], q);
    }
  }

  // ---- whom questions reach ----

  // This person owns an entry the question met.
  ghost predicate OwnsOne(org: Org, n: Need, person: Person) {
    exists r {:trigger OwnersOf(org, r, n.asker)} :: r in n.meetings && person in OwnersOf(org, r, n.asker)
  }

  ghost predicate NeedOk(org: Org, n: Need) {
    && (forall p :: p in n.shownTo ==> OwnsOne(org, n, p))
    && (forall r :: r in n.meetings && n.meetings[r] == Shared ==> r in n.sharedBy)
    && (forall r :: r in n.sharedBy ==> SharedRightly(org, n.asker, r, n.sharedBy[r]))
  }

  // Whoever shared it is not the asker, and sees the entry by a position held.
  ghost predicate SharedRightly(org: Org, asker: Person, rid: Rid, person: Person) {
    rid in org.entries && person != asker && person in org.holders && Sees(org.m, org.holders[person], org.entries[rid].home)
  }

  ghost predicate AllOk(org: Org, s: State) { forall q {:trigger NeedOk(org, s[q])} :: q in s ==> NeedOk(org, s[q]) }

  lemma OwnersSee(org: Org, rid: Rid, asker: Person, person: Person)
    requires Sound(org) && person in OwnersOf(org, rid, asker)
    ensures rid in org.entries && person != asker && person in org.holders && Sees(org.m, org.holders[person], org.entries[rid].home)
  {
    OwnersCanSee(org.m, org.entries[rid].home, org.holders, asker);
  }

  lemma OwnsOneStays(org: Org, n: Need, t: Need, person: Person)
    requires OwnsOne(org, n, person) && t.asker == n.asker && n.meetings.Keys <= t.meetings.Keys
    ensures OwnsOne(org, t, person)
  {
    var r {:trigger OwnersOf(org, r, n.asker)} :| r in n.meetings && person in OwnersOf(org, r, n.asker);
    assert r in t.meetings;
  }

  lemma MetAllOk(org: Org, n: Need, found: set<Rid>)
    requires NeedOk(org, n)
    ensures NeedOk(org, MetAll(org, n, found))
  {
    var t := MetAll(org, n, found);
    forall p | p in t.shownTo ensures OwnsOne(org, t, p) {
      if p in n.shownTo {
        OwnsOneStays(org, n, t, p);
      } else {
        var r :| r in found && p in OwnersOf(org, r, n.asker);
        assert r in t.meetings;
      }
    }
  }

  lemma MetOk(org: Org, n: Need, rid: Rid)
    requires NeedOk(org, n)
    ensures NeedOk(org, Met(org, n, rid))
  {
    MetAllOk(org, n, {rid});
    var t, u := Met(org, n, rid), MetAll(org, n, {rid});
    if rid !in n.meetings {
      assert t.meetings == u.meetings;
      forall p | p in t.shownTo ensures OwnsOne(org, t, p) {
        if p in n.shownTo { OwnsOneStays(org, n, t, p); } else { assert rid in t.meetings && p in OwnersOf(org, rid, t.asker); }
      }
    }
  }

  lemma AnsweredOk(org: Org, s: State, e: Event, q: Qid)
    requires Sound(org) && e.Answer? && q in s && NeedOk(org, s[q])
    ensures NeedOk(org, Answered(org, s, e, q))
  {
    var n, t := s[q], Answered(org, s, e, q);
    forall p | p in t.shownTo ensures OwnsOne(org, t, p) { OwnsOneStays(org, n, t, p); }
    forall r | r in t.sharedBy ensures SharedRightly(org, t.asker, r, t.sharedBy[r]) {
      if q in e.group && Shows(n, e.person) && r in Gets(org, s, e, q) {
        var p :| p in e.group && p in s && Shows(s[p], e.person) && Theirs(org, s[p], e.person, r) && s[p].meetings[r] == Hidden;
        OwnersSee(org, r, s[p].asker, e.person);
      } else {
        assert SharedRightly(org, n.asker, r, n.sharedBy[r]);
      }
    }
  }

  lemma DismissedOk(org: Org, n: Need, person: Person)
    requires NeedOk(org, n)
    ensures NeedOk(org, Dismissed(org, n, person))
  {
    var t := Dismissed(org, n, person);
    forall p | p in t.shownTo ensures OwnsOne(org, t, p) { OwnsOneStays(org, n, t, p); }
  }

  lemma SeenOk(org: Org, n: Need, rid: Rid)
    requires NeedOk(org, n) && rid !in n.meetings
    ensures NeedOk(org, n.(meetings := n.meetings[rid := Visible]))
  {
    var t := n.(meetings := n.meetings[rid := Visible]);
    forall p | p in t.shownTo ensures OwnsOne(org, t, p) { OwnsOneStays(org, n, t, p); }
  }

  lemma RelabelledOk(org: Org, n: Need, status: Status, until: Option<Time>)
    requires NeedOk(org, n)
    ensures NeedOk(org, n.(status := status, openUntil := until))
  {
    var t := n.(status := status, openUntil := until);
    forall p | p in t.shownTo ensures OwnsOne(org, t, p) { OwnsOneStays(org, n, t, p); }
  }

  lemma StepKeeps(org: Org, s: State, e: Event)
    requires Sound(org) && AllOk(org, s)
    ensures AllOk(org, Next(org, s, e))
  {
    var t := Next(org, s, e);
    forall q | q in t ensures NeedOk(org, t[q]) {
      if q in s {
        assert NeedOk(org, s[q]);
        match e {
          case Ask(_, _) =>
          case Begin(_, until, found) =>
            RelabelledOk(org, s[q], Open, Some(until));
            MetAllOk(org, s[q].(status := Open, openUntil := Some(until)), found);
          case Meet(_, rid, sees) =>
            MetOk(org, s[q], rid);
            if rid !in s[q].meetings { SeenOk(org, s[q], rid); }
          case Answer(_, _, _, _) => AnsweredOk(org, s, e, q);
          case Dismiss(person, _) => DismissedOk(org, s[q], person);
          case Close(_, status) => RelabelledOk(org, s[q], status, s[q].openUntil);
        }
      }
    }
  }

  lemma {:induction false} RunKeeps(org: Org, s: State, es: seq<Event>)
    requires Sound(org) && AllOk(org, s)
    ensures AllOk(org, Run(org, s, es))
    decreases |es|
  {
    if es != [] {
      StepKeeps(org, s, es[0]);
      RunKeeps(org, Next(org, s, es[0]), es[1..]);
    }
  }

  /** Over every run, whoever a question is shown to is not its asker and can
      see, by a position they hold, an entry that it met. */
  lemma ShownOnlyToOwners(org: Org, es: seq<Event>, q: Qid, person: Person) returns (rid: Rid)
    requires Sound(org) && q in Run(org, map[], es) && person in Run(org, map[], es)[q].shownTo
    ensures rid in Run(org, map[], es)[q].meetings && rid in org.entries
    ensures person != Run(org, map[], es)[q].asker && person in org.holders && Sees(org.m, org.holders[person], org.entries[rid].home)
  {
    RunKeeps(org, map[], es);
    var n := Run(org, map[], es)[q];
    assert NeedOk(org, n) && OwnsOne(org, n, person);
    rid :| rid in n.meetings && person in OwnersOf(org, rid, n.asker);
    OwnersSee(org, rid, n.asker, person);
  }

  /** And an entry given in answer was shared by somebody, not the asker, who
      can see it by a position they hold. */
  lemma SharedOnlyByOwners(org: Org, es: seq<Event>, q: Qid, rid: Rid)
    requires Sound(org) && q in Run(org, map[], es)
    requires var n := Run(org, map[], es)[q]; rid in n.meetings && n.meetings[rid] == Shared
    ensures var n := Run(org, map[], es)[q]; rid in n.sharedBy && SharedRightly(org, n.asker, rid, n.sharedBy[rid])
  {
    RunKeeps(org, map[], es);
    assert NeedOk(org, Run(org, map[], es)[q]);
  }
}
