/** Derived data over whole runs (graph-rag/src/server.js): reads, requests and
    restarts, with writes, regrades and moves in flight between the look they
    are placed by and the moment they are stored. */
module DerivedRuns {
  import opened Wrappers
  import opened Positions
  import opened Visibility
  import opened Placement
  import opened DerivedData

  datatype ReadEvent = ReadEvent(who: Who, home: Id, at: Time)

  // Placed by what was looked at, not stored yet.
  datatype Flight =
    | Writing(w: Write, seen: Option<Seen>)
    | Regrading(key: Key, home: Id, record: Awaiting)
    | Moving(key: Key, to: Id)

  // `log` is history: every read there was.
  datatype State = State(now: Time, log: seq<ReadEvent>, marks: Marks, stored: Marks,
                         entries: map<Key, Entry>, requests: seq<Write>, flights: seq<Flight>)

  datatype Step =
    | Wait(ms: nat)
    | Read(who: Who, homes: seq<Id>)
    | Ask(who: Who, key: Key)
    | WorkerAsk(who: Who, key: Key, lives: Id)
    | LookToWrite(i: nat)
    | LookToRegrade(key: Key)
    | LookToMove(key: Key, to: Id)
    | Commit(i: nat, grader: Grader)
    | Restart

  ghost function ReadSince(log: seq<ReadEvent>, who: Who, cutoff: Time): set<Id> {
    set i | 0 <= i < |log| && log[i].who == who && log[i].at > cutoff :: log[i].home
  }

  function At(s: State, key: Key): (e: Option<Entry>) {
    if key in s.entries then Some(s.entries[key]) else None
  }

  // ---- a run ----

  function Cutoff(c: Config, s: State): (t: Time) { s.now - c.window }

  ghost function FloorNow(c: Config, s: State, who: Who, at: Id): (floor: Id) {
    Floor(c.tree, at, InWindow(s.marks, who, Cutoff(c, s)))
  }

  // The request, fixed now: what the writer has read, not whoever runs it later.
  ghost function Asked(c: Config, s: State, who: Who, key: Key, at: Id, worker: bool): (w: Write) {
    Write(key, FloorNow(c, s, who, at), ReadSince(s.log, who, Cutoff(c, s)), worker)
  }

  function KeyOf(f: Flight): (key: Key) { if f.Writing? then f.w.key else f.key }

  function FloorOf(f: Flight): (floor: Option<Id>) { if f.Writing? then Some(f.w.floor) else None }

  /** What is stored over the row there now; None when nothing is. */
  function Outcome(c: Config, at: Option<Entry>, f: Flight, grader: Grader): (e: Option<Entry>) {
    match f
    case Writing(w, seen) => Some(Landed(c, at, seen, w, grader))
    case Regrading(key, home, record) =>
      if at.None? || !grader.Answered? then None else Some(RegradeLanded(c, at.value, home, record, key.origin, grader.verdict))
    case Moving(_, to) => if at.None? then None else Some(at.value.(home := to))
  }

  function Without<T>(q: seq<T>, i: nat): (r: seq<T>)
    requires i < |q|
  {
    q[..i] + q[i + 1..]
  }

  function Looking(s: State, f: Flight): (t: State) { s.(flights := s.flights + [f]) }

  ghost function Next(c: Config, s: State, step: Step): (t: State)
  {
    match step
    case Wait(ms) => s.(now := s.now + ms)
    case Read(who, homes) =>
      s.(marks := s.marks[who := Recorded(Mine(s.marks, who), homes, s.now)],
         stored := s.stored[who := Persisted(Mine(s.stored, who), Mine(s.marks, who), homes, s.now)],
         log := s.log + seq(|homes|, i requires 0 <= i < |homes| => ReadEvent(who, homes[i], s.now)))
    case Ask(who, key) =>
      s.(requests := s.requests + [Asked(c, s, who, key, key.origin, false)])
    case WorkerAsk(who, key, lives) =>
      if FloorLifts(c.tree, lives, Some(FloorNow(c, s, who, lives))) then s
      else s.(requests := s.requests + [Asked(c, s, who, key, lives, true)])
    case LookToWrite(i) =>
      if i >= |s.requests| then s
      else Looking(s.(requests := Without(s.requests, i)), Writing(s.requests[i], Looked(At(s, s.requests[i].key))))
    case LookToRegrade(key) =>
      if key !in s.entries || s.entries[key].awaiting.None? then s
      else Looking(s, Regrading(key, s.entries[key].home, s.entries[key].awaiting.value))
    case LookToMove(key, to) =>
      if key !in s.entries || MoveKind(c.tree, s.entries[key].home, to) != Restrict then s
      else Looking(s, Moving(key, to))
    case Commit(i, grader) =>
      if i >= |s.flights| then s
      else
        var f := s.flights[i];
        var e := Outcome(c, At(s, KeyOf(f)), f, grader);
        s.(flights := Without(s.flights, i), entries := if e.Some? then s.entries[KeyOf(f) := e.value] else s.entries)
    case Restart =>
      s.(marks := Recent(s.stored, Cutoff(c, s)), stored := Recent(s.stored, Cutoff(c, s)), flights := [])
  }

  /** The guard on a commit: on the row there now, what was seen, the floor and
      whether grading is on, never on what the grading model will say. */
  ghost predicate MayCommit(c: Config, at: Option<Entry>, f: Flight, grader: Grader) {
    match f
    case Writing(w, seen) => MayLand(c, at, seen, w, grader)
    case Regrading(_, home, record) => at.Some? && grader.Answered? ==> MayRegrade(c.tree, at.value, home, record)
    case Moving(_, to) => at.Some? ==> AtOrAbove(c.tree, to, at.value.home)
  }

  /** What the code needs of a run and does not check: the guard on each commit,
      and a restart that finds every mark inside the window stored as it is. A
      worker's entry lived somewhere at or above its origin. */
  ghost predicate Allowed(c: Config, s: State, step: Step)
  {
    match step
    case Ask(who, key) => IsHome(c.tree, key.origin)
    case WorkerAsk(who, key, lives) => IsHome(c.tree, key.origin) && IsHome(c.tree, lives) && AtOrAbove(c.tree, lives, key.origin)
    case LookToMove(key, to) => IsHome(c.tree, to)
    case Commit(i, grader) =>
      i < |s.flights| ==>
        GraderIsAdmissible(c, KeyOf(s.flights[i]).origin, grader) && MayCommit(c, At(s, KeyOf(s.flights[i])), s.flights[i], grader)
    case Restart => AllStored(s.marks, s.stored, Cutoff(c, s))
    case _ => true
  }

  ghost predicate AllStored(marks: Marks, stored: Marks, cutoff: Time) {
    forall who, h :: h in InWindow(marks, who, cutoff) ==> h in Mine(stored, who) && Mine(stored, who)[h] >= Mine(marks, who)[h]
  }

  ghost function Run(c: Config, s: State, steps: seq<Step>): (t: State)
    decreases |steps|
  {
    if steps == [] then s else Run(c, Next(c, s, steps[0]), steps[1..])
  }

  ghost predicate AllAllowed(c: Config, s: State, steps: seq<Step>)
    decreases |steps|
  {
    steps != [] ==> Allowed(c, s, steps[0]) && AllAllowed(c, Next(c, s, steps[0]), steps[1..])
  }

  function Start(now: Time): (s: State) { State(now, [], map[], map[], map[], [], []) }

  // ---- the invariant ----

  ghost predicate Marked(marks: Marks, r: ReadEvent) {
    r.home in Mine(marks, r.who) && Mine(marks, r.who)[r.home] >= r.at
  }

  // Marks are times of reads, and no read inside the window is without one as late.
  ghost predicate MarksOk(c: Config, s: State) {
    && (forall i :: 0 <= i < |s.log| ==> s.log[i].at <= s.now)
    && (forall i {:trigger Marked(s.marks, s.log[i])} :: 0 <= i < |s.log| && s.log[i].at > Cutoff(c, s) ==> Marked(s.marks, s.log[i]))
    && WereRead(s.marks, s.log) && WereRead(s.stored, s.log)
  }

  ghost predicate WereRead(marks: Marks, log: seq<ReadEvent>) {
    forall who, h :: h in Mine(marks, who) ==> ReadEvent(who, h, Mine(marks, who)[h]) in log
  }

  ghost predicate FlightOk(m: TreeMap, f: Flight) {
    match f
    case Writing(w, seen) => WriteOk(m, w) && SeenOk(m, w.key.origin, seen)
    case Regrading(key, _, record) => key.origin in m.positions && RecordOk(m, key.origin, record)
    case Moving(key, to) => IsHome(m, key.origin) && IsHome(m, to)
  }

  ghost predicate EntriesOk(c: Config, s: State) { forall k :: k in s.entries ==> EntryOk(c.tree, k.origin, s.entries[k]) }

  ghost predicate RequestsOk(c: Config, s: State) { forall i :: 0 <= i < |s.requests| ==> WriteOk(c.tree, s.requests[i]) }

  ghost predicate FlightsOk(c: Config, s: State) { forall i :: 0 <= i < |s.flights| ==> FlightOk(c.tree, s.flights[i]) }

  ghost predicate Inv(c: Config, s: State) {
    MarksOk(c, s) && EntriesOk(c, s) && RequestsOk(c, s) && FlightsOk(c, s)
  }

  lemma WindowIsWhatWasRead(c: Config, s: State, who: Who)
    requires MarksOk(c, s)
    ensures InWindow(s.marks, who, Cutoff(c, s)) == ReadSince(s.log, who, Cutoff(c, s))
  {
    var cutoff := Cutoff(c, s);
    forall h | h in InWindow(s.marks, who, cutoff) ensures h in ReadSince(s.log, who, cutoff) {
      var i :| 0 <= i < |s.log| && s.log[i] == ReadEvent(who, h, Mine(s.marks, who)[h]);
    }
    forall h | h in ReadSince(s.log, who, cutoff) ensures h in InWindow(s.marks, who, cutoff) {
      var i :| 0 <= i < |s.log| && s.log[i].who == who && s.log[i].at > cutoff && s.log[i].home == h;
      assert Marked(s.marks, s.log[i]);
    }
  }

  // A read is logged, and each home is marked now.
  lemma ReadIsLogged(c: Config, s: State, who: Who, homes: seq<Id>)
    ensures var t := Next(c, s, Read(who, homes));
      && s.log <= t.log && (forall h :: h in homes ==> ReadEvent(who, h, s.now) in t.log)
      && (forall i :: |s.log| <= i < |t.log| ==> t.log[i].at == s.now && t.log[i].who == who && t.log[i].home in homes)
  {
    var t := Next(c, s, Read(who, homes));
    var added := seq(|homes|, i requires 0 <= i < |homes| => ReadEvent(who, homes[i], s.now));
    forall h | h in homes ensures ReadEvent(who, h, s.now) in t.log {
      var j :| 0 <= j < |homes| && homes[j] == h;
      assert t.log[|s.log| + j] == added[j];
    }
    forall i | |s.log| <= i < |t.log| ensures t.log[i].at == s.now && t.log[i].who == who && t.log[i].home in homes {
      assert t.log[i] == added[i - |s.log|];
    }
  }

  lemma ReadIsMarked(c: Config, s: State, who: Who, homes: seq<Id>, r: ReadEvent)
    requires r.at <= s.now && (Marked(s.marks, r) || (r.who == who && r.home in homes))
    ensures Marked(Next(c, s, Read(who, homes)).marks, r)
  {
  }

  lemma ReadKeepsMarks(c: Config, s: State, who: Who, homes: seq<Id>)
    requires MarksOk(c, s)
    ensures MarksOk(c, Next(c, s, Read(who, homes)))
  {
    var t := Next(c, s, Read(who, homes));
    ReadIsLogged(c, s, who, homes);
    forall i | 0 <= i < |t.log| ensures t.log[i].at <= t.now && (t.log[i].at > Cutoff(c, t) ==> Marked(t.marks, t.log[i])) {
      if i < |s.log| { assert t.log[i] == s.log[i]; }
      if t.log[i].at > Cutoff(c, t) { ReadIsMarked(c, s, who, homes, t.log[i]); }
    }
    forall x, h | h in Mine(t.marks, x) ensures ReadEvent(x, h, Mine(t.marks, x)[h]) in t.log {
      if x != who || h !in homes { assert ReadEvent(x, h, Mine(s.marks, x)[h]) in s.log; }
    }
    forall x, h | h in Mine(t.stored, x) ensures ReadEvent(x, h, Mine(t.stored, x)[h]) in t.log {
      if x != who || h !in homes || !Due(Mine(s.marks, who), h, s.now) { assert ReadEvent(x, h, Mine(s.stored, x)[h]) in s.log; }
    }
  }

  // ---- restarts ----

  lemma RestartKeepsMarks(c: Config, s: State)
    requires MarksOk(c, s) && AllStored(s.marks, s.stored, Cutoff(c, s))
    ensures MarksOk(c, Next(c, s, Restart))
  {
    var t := Next(c, s, Restart);
    forall i | 0 <= i < |s.log| && s.log[i].at > Cutoff(c, s) ensures Marked(t.marks, s.log[i]) {
      assert Marked(s.marks, s.log[i]) && s.log[i].home in InWindow(s.marks, s.log[i].who, Cutoff(c, s));
    }
    forall who, h | h in Mine(t.marks, who) ensures ReadEvent(who, h, Mine(t.marks, who)[h]) in s.log {
      assert h in Mine(s.stored, who);
    }
  }

  // This long after a restart the marks inside the window are what was read.
  ghost predicate RemembersAfter(c: Config, s: State, ms: nat) {
    var t := Next(c, Next(c, s, Restart), Wait(ms));
    forall who :: InWindow(t.marks, who, Cutoff(c, t)) == ReadSince(t.log, who, Cutoff(c, t))
  }

  lemma RestartRemembers(c: Config, s: State, ms: nat)
    requires MarksOk(c, s) && AllStored(s.marks, s.stored, Cutoff(c, s))
    ensures RemembersAfter(c, s, ms)
  {
    RestartKeepsMarks(c, s);
    var t := Next(c, Next(c, s, Restart), Wait(ms));
    forall who ensures InWindow(t.marks, who, Cutoff(c, t)) == ReadSince(t.log, who, Cutoff(c, t)) { WindowIsWhatWasRead(c, t, who); }
  }

  // Just before the last read leaves the window.
  lemma MarkIsForgotten(c: Config, s: State, who: Who, h: Id)
    requires MarksOk(c, s) && h in InWindow(s.marks, who, Cutoff(c, s))
    requires h in Mine(s.stored, who) ==> Mine(s.stored, who)[h] < Mine(s.marks, who)[h]
    ensures exists ms: nat :: !RemembersAfter(c, s, ms)
  {
    var ms: nat := Mine(s.marks, who)[h] - 1 - Cutoff(c, s);
    var t := Next(c, Next(c, s, Restart), Wait(ms));
    var i :| 0 <= i < |s.log| && s.log[i] == ReadEvent(who, h, Mine(s.marks, who)[h]);
    assert h in ReadSince(t.log, who, Cutoff(c, t));
    assert h !in InWindow(t.marks, who, Cutoff(c, t));
    assert !RemembersAfter(c, s, ms);
  }

  /** A restart forgets nothing, then or later, exactly when every mark inside
      the window is in the database with the time of its last read. */
  lemma RestartForgetsNothingWhen(c: Config, s: State)
    requires MarksOk(c, s)
    ensures (forall ms: nat :: RemembersAfter(c, s, ms)) <==> Allowed(c, s, Restart)
  {
    if AllStored(s.marks, s.stored, Cutoff(c, s)) {
      forall ms: nat ensures RemembersAfter(c, s, ms) { RestartRemembers(c, s, ms); }
    } else {
      var who, h :| h in InWindow(s.marks, who, Cutoff(c, s)) && !(h in Mine(s.stored, who) && Mine(s.stored, who)[h] >= Mine(s.marks, who)[h]);
      MarkIsForgotten(c, s, who, h);
    }
  }

  // ---- every step keeps the invariant ----

  ghost predicate OnlyRaises(m: TreeMap, s: State, t: State) {
    forall k :: k in s.entries && s.entries[k].awaiting.None? ==>
      k in t.entries && AtOrAbove(m, t.entries[k].home, s.entries[k].home)
  }

  // What a request fixes: a floor that covers what its writer had really read.
  lemma AskedOk(c: Config, s: State, who: Who, key: Key, at: Id, worker: bool)
    requires MarksOk(c, s) && IsHome(c.tree, key.origin) && IsHome(c.tree, at) && AtOrAbove(c.tree, at, key.origin)
    ensures WriteOk(c.tree, Asked(c, s, who, key, at, worker))
    ensures AtOrAbove(c.tree, FloorNow(c, s, who, at), at)
  {
    WindowIsWhatWasRead(c, s, who);
    FloorBounds(c.tree, at, ReadSince(s.log, who, Cutoff(c, s)));
    AboveTransitive(c.tree, FloorNow(c, s, who, at), at, key.origin);
  }

  /** A worker's request goes ahead exactly where its floor is where the entry
      lives, or the entry is everyone's: nothing it read is hidden there. */
  lemma WorkerAskFits(c: Config, s: State, who: Who, key: Key, lives: Id)
    requires MarksOk(c, s) && IsHome(c.tree, lives)
    ensures Next(c, s, WorkerAsk(who, key, lives)) != s <==> lives == EVERYONE || FloorNow(c, s, who, lives) == lives
    ensures lives != EVERYONE ==>
      (FloorNow(c, s, who, lives) == lives <==> Covers(c.tree, lives, ReadSince(s.log, who, Cutoff(c, s))))
  {
    var basis := ReadSince(s.log, who, Cutoff(c, s));
    WindowIsWhatWasRead(c, s, who);
    FloorBounds(c.tree, lives, basis);
    AncestorsAreAbove(c.tree, Floor(c.tree, lives, basis), lives);
    assert "" !in c.tree.positions;
    if lives != EVERYONE && Covers(c.tree, lives, basis) { FloorIsTheHighest(c.tree, lives, lives, basis); }
  }

  // The floor is the highest of what was read, when that covers all of it.
  lemma FloorIsTheHighest(m: ProperMap, at: Id, origin: Id, basis: set<Id>)
    requires at in m.positions && IsHome(m, origin) && AtOrAbove(m, at, origin) && Covers(m, at, basis)
    requires at == origin || at in basis
    ensures Floor(m, origin, basis) == at
  {
    var homes := Listing(origin, basis);
    assert at in homes && EffectiveHome(m, at) == at;
    CommonAncestorIsLeast(m, homes);
    CommonAncestorBounds(m, homes, at);
    assert AtOrAbove(m, at, CommonAncestor(m, homes));
    AboveAntisymmetric(m, at, CommonAncestor(m, homes));
  }

  lemma WithoutHolds<T>(q: seq<T>, i: nat)
    requires i < |q|
    ensures forall x :: x in Without(q, i) ==> x in q
  {
  }

  lemma LookToWriteKeeps(c: Config, s: State, i: nat)
    requires Inv(c, s) && i < |s.requests|
    ensures Inv(c, Next(c, s, LookToWrite(i)))
  {
    var w := s.requests[i];
    assert WriteOk(c.tree, w);
    LooksOk(c.tree, w.key.origin, At(s, w.key));
    assert FlightOk(c.tree, Writing(w, Looked(At(s, w.key))));
    WithoutHolds(s.requests, i);
    var t := Next(c, s, LookToWrite(i));
    forall j | 0 <= j < |t.requests| ensures WriteOk(c.tree, t.requests[j]) { assert t.requests[j] in s.requests; }
  }

  lemma AskKeeps(c: Config, s: State, w: Write, who: Who, at: Id)
    requires Inv(c, s) && IsHome(c.tree, w.key.origin) && IsHome(c.tree, at) && AtOrAbove(c.tree, at, w.key.origin)
    requires w == Asked(c, s, who, w.key, at, w.worker)
    ensures Inv(c, s.(requests := s.requests + [w]))
  {
    AskedOk(c, s, who, w.key, at, w.worker);
  }

  lemma LookToRegradeKeeps(c: Config, s: State, key: Key)
    requires Inv(c, s)
    ensures Inv(c, Next(c, s, LookToRegrade(key)))
  {
    if key in s.entries { assert EntryOk(c.tree, key.origin, s.entries[key]); }
  }

  lemma LookToMoveKeeps(c: Config, s: State, key: Key, to: Id)
    requires Inv(c, s) && IsHome(c.tree, to)
    ensures Inv(c, Next(c, s, LookToMove(key, to)))
  {
    if key in s.entries { assert EntryOk(c.tree, key.origin, s.entries[key]); }
  }

  // Whatever it had seen, what a flight stores is a row of the right form.
  lemma OutcomeFits(c: Config, at: Option<Entry>, f: Flight, grader: Grader)
    requires FlightOk(c.tree, f) && GraderIsAdmissible(c, KeyOf(f).origin, grader)
    requires at.Some? ==> EntryOk(c.tree, KeyOf(f).origin, at.value)
    ensures Outcome(c, at, f, grader).Some? ==>
      var e := Outcome(c, at, f, grader).value;
      && (at.Some? || FloorOf(f).Some?) && Fits(c.tree, KeyOf(f).origin, at, FloorOf(f), e) && MayRest(c.tree, at, FloorOf(f), e.basis)
  {
    match f
    case Writing(w, seen) => LandedFits(c, at, seen, w, grader);
    case Regrading(key, home, record) =>
      if at.Some? && grader.Answered? { RegradeFits(c, at.value, home, record, key.origin, grader.verdict); }
    case Moving(_, _) =>
  }

  // Under the guard it is safe too, whatever the verdict.
  lemma OutcomeIsSafe(c: Config, at: Option<Entry>, f: Flight, grader: Grader)
    requires FlightOk(c.tree, f) && GraderIsAdmissible(c, KeyOf(f).origin, grader) && MayCommit(c, at, f, grader)
    requires at.Some? ==> EntryOk(c.tree, KeyOf(f).origin, at.value)
    ensures Outcome(c, at, f, grader).Some? ==> Safe(c.tree, at, FloorOf(f), Outcome(c, at, f, grader).value)
  {
    match f
    case Writing(w, seen) => LandingIsSafe(c, at, seen, w, grader);
    case Regrading(key, home, record) =>
      if at.Some? && grader.Answered? { RegradeIsSafe(c, at.value, home, record, key.origin, grader.verdict); }
    case Moving(key, to) => if at.Some? { MoveIsSafeWhen(c.tree, key.origin, at.value, to); }
  }

  ghost predicate OutcomesSafe(c: Config, at: Option<Entry>, f: Flight, grader: Grader) {
    forall v :: Admissible(c.tree, KeyOf(f).origin, v) ==> OneSafe(c, at, f, WithVerdict(grader, v))
  }

  ghost predicate OneSafe(c: Config, at: Option<Entry>, f: Flight, grader: Grader) {
    Outcome(c, at, f, grader).Some? ==> Safe(c.tree, at, FloorOf(f), Outcome(c, at, f, grader).value)
  }

  /** The guard is exact: what a flight stores is safe over the row there now,
      whatever the verdict, if and only if it holds. */
  lemma MayCommitExactly(c: Config, at: Option<Entry>, f: Flight, grader: Grader)
    requires FlightOk(c.tree, f) && c.threshold <= 1.0
    requires at.Some? ==> EntryOk(c.tree, KeyOf(f).origin, at.value)
    ensures OutcomesSafe(c, at, f, grader) <==> MayCommit(c, at, f, grader)
  {
    match f
    case Writing(w, seen) =>
      LandingIsSafeWhen(c, at, seen, w, grader);
      assert forall v :: OneSafe(c, at, f, WithVerdict(grader, v)) <==> Safe(c.tree, at, Some(w.floor), Landed(c, at, seen, w, WithVerdict(grader, v)));
    case Regrading(key, home, record) =>
      if at.Some? && grader.Answered? {
        RegradeIsSafeWhen(c, at.value, home, record, key.origin);
        assert forall v :: OneSafe(c, at, f, WithVerdict(grader, v)) <==> Safe(c.tree, at, None, RegradeLanded(c, at.value, home, record, key.origin, v));
      }
    case Moving(key, to) =>
      assert Admissible(c.tree, key.origin, None) && (OneSafe(c, at, f, WithVerdict(grader, None)) <==> OneSafe(c, at, f, grader));
      if at.Some? { MoveIsSafeWhen(c.tree, key.origin, at.value, to); }
  }

  lemma CommitKeeps(c: Config, s: State, i: nat, grader: Grader)
    requires Inv(c, s) && i < |s.flights| && Allowed(c, s, Commit(i, grader))
    ensures Inv(c, Next(c, s, Commit(i, grader))) && OnlyRaises(c.tree, s, Next(c, s, Commit(i, grader)))
  {
    var f := s.flights[i];
    var key, at, t := KeyOf(f), At(s, KeyOf(f)), Next(c, s, Commit(i, grader));
    assert FlightOk(c.tree, f);
    OutcomeFits(c, at, f, grader);
    OutcomeIsSafe(c, at, f, grader);
    var e := Outcome(c, at, f, grader);
    if e.Some? {
      SafeKeeps(c.tree, key.origin, at, FloorOf(f), e.value);
      if at.Some? { AboveTransitive(c.tree, e.value.home, Bound(e.value), Bound(at.value)); }
    }
    WithoutHolds(s.flights, i);
    forall j | 0 <= j < |t.flights| ensures FlightOk(c.tree, t.flights[j]) { assert t.flights[j] in s.flights; }
  }

  lemma StepKeeps(c: Config, s: State, step: Step)
    requires Inv(c, s) && Allowed(c, s, step)
    ensures Inv(c, Next(c, s, step))
    ensures OnlyRaises(c.tree, s, Next(c, s, step))
  {
    match step
    case Wait(ms) =>
    case Read(who, homes) => ReadKeepsMarks(c, s, who, homes);
    case Ask(who, key) => AskKeeps(c, s, Asked(c, s, who, key, key.origin, false), who, key.origin);
    case WorkerAsk(who, key, lives) => AskKeeps(c, s, Asked(c, s, who, key, lives, true), who, lives);
    case LookToWrite(i) => if i < |s.requests| { LookToWriteKeeps(c, s, i); }
    case LookToRegrade(key) => LookToRegradeKeeps(c, s, key);
    case LookToMove(key, to) => LookToMoveKeeps(c, s, key, to);
    case Commit(i, grader) => if i < |s.flights| { CommitKeeps(c, s, i, grader); }
    case Restart => RestartKeepsMarks(c, s);
  }

  lemma {:induction false} RunKeeps(c: Config, s: State, steps: seq<Step>)
    requires Inv(c, s) && AllAllowed(c, s, steps)
    ensures Inv(c, Run(c, s, steps))
    decreases |steps|
  {
    if steps != [] {
      StepKeeps(c, s, steps[0]);
      RunKeeps(c, Next(c, s, steps[0]), steps[1..]);
    }
  }

  // Whoever can see the entry can see all that was read for it.
  ghost predicate ShowsNoMore(m: TreeMap, e: Entry) {
    forall held, h :: Sees(m, held, e.home) && h in e.basis ==> Sees(m, held, h)
  }

  lemma CoveredShowsNoMore(m: ProperMap, origin: Id, e: Entry)
    requires EntryOk(m, origin, e)
    ensures ShowsNoMore(m, e)
  {
    CoversFromAbove(m, e.home, Bound(e), e.basis);
    forall held, h | h in e.basis && Sees(m, held, e.home) ensures Sees(m, held, h) {
      SeeingFollowsTheOrder(m, e.home, EffectiveHome(m, h));
      assert Sees(m, held, EffectiveHome(m, h));
    }
  }

  /** Over every allowed run: whoever can see an entry can see every home that
      any of its writers had read, inside the window, when they asked. */
  lemma NobodySeesPastTheWriters(c: Config, now: Time, steps: seq<Step>, key: Key)
    requires AllAllowed(c, Start(now), steps)
    requires key in Run(c, Start(now), steps).entries
    ensures ShowsNoMore(c.tree, Run(c, Start(now), steps).entries[key])
  {
    RunKeeps(c, Start(now), steps);
    CoveredShowsNoMore(c.tree, key.origin, Run(c, Start(now), steps).entries[key]);
  }

  /** Once graded, an entry is only ever shown to fewer people. */
  lemma {:induction false} SettledEntriesOnlyShrink(c: Config, s: State, step: Step, key: Key, held: seq<Id>)
    requires Inv(c, s) && Allowed(c, s, step)
    requires key in s.entries && s.entries[key].awaiting.None?
    ensures key in Next(c, s, step).entries
    ensures Sees(c.tree, held, Next(c, s, step).entries[key].home) ==> Sees(c.tree, held, s.entries[key].home)
  {
    StepKeeps(c, s, step);
    var t := Next(c, s, step);
    assert EntryOk(c.tree, key.origin, s.entries[key]) && EntryOk(c.tree, key.origin, t.entries[key]);
    SeeingFollowsTheOrder(c.tree, t.entries[key].home, s.entries[key].home);
  }

  // ---- runs in which nothing comes between a look and its commit ----

  // The row is as it was looked at.
  ghost predicate AsSeen(c: Config, at: Option<Entry>, f: Flight) {
    match f
    case Writing(w, seen) => seen == Looked(at)
    case Regrading(_, home, record) => at.Some? && at.value.home == home && at.value.awaiting == Some(record)
    case Moving(_, to) => at.Some? && MoveKind(c.tree, at.value.home, to) == Restrict
  }

  ghost predicate Undisturbed(c: Config, at: Option<Entry>, f: Flight, grader: Grader) {
    AsSeen(c, at, f) && (f.Writing? ==> KeepsReads(c, at, f.w, grader))
  }

  /** Stored over the row it was placed by, a regrade or a move up meets the
      guard, and a write does under `KeepsReads`. */
  lemma UndisturbedMayCommit(c: Config, at: Option<Entry>, f: Flight, grader: Grader)
    requires FlightOk(c.tree, f) && Undisturbed(c, at, f, grader)
    requires at.Some? ==> EntryOk(c.tree, KeyOf(f).origin, at.value)
    ensures MayCommit(c, at, f, grader)
  {
    match f
    case Writing(w, seen) => UndisturbedWriteMayLand(c, at, w, grader);
    case Regrading(_, _, record) => assert AtOrAbove(c.tree, record.floor, record.floor);
    case Moving(_, to) =>
      RestrictShowsNobodyNew(c.tree, at.value.home, to);
      SeeingFollowsTheOrder(c.tree, to, at.value.home);
  }

  // As allowed, but that each commit finds its row as it was looked at.
  ghost predicate Checked(c: Config, s: State, step: Step) {
    match step
    case Commit(i, grader) =>
      i < |s.flights| ==>
        GraderIsAdmissible(c, KeyOf(s.flights[i]).origin, grader) && Undisturbed(c, At(s, KeyOf(s.flights[i])), s.flights[i], grader)
    case _ => Allowed(c, s, step)
  }

  ghost predicate AllChecked(c: Config, s: State, steps: seq<Step>)
    decreases |steps|
  {
    steps != [] ==> Checked(c, s, steps[0]) && AllChecked(c, Next(c, s, steps[0]), steps[1..])
  }

  lemma CheckedIsAllowed(c: Config, s: State, step: Step)
    requires Inv(c, s) && Checked(c, s, step)
    ensures Allowed(c, s, step)
  {
    if step.Commit? && step.i < |s.flights| {
      var f := s.flights[step.i];
      assert FlightOk(c.tree, f);
      UndisturbedMayCommit(c, At(s, KeyOf(f)), f, step.grader);
    }
  }

  lemma {:induction false} CheckedRunsAreAllowed(c: Config, s: State, steps: seq<Step>)
    requires Inv(c, s) && AllChecked(c, s, steps)
    ensures AllAllowed(c, s, steps)
    decreases |steps|
  {
    if steps != [] {
      CheckedIsAllowed(c, s, steps[0]);
      StepKeeps(c, s, steps[0]);
      CheckedRunsAreAllowed(c, Next(c, s, steps[0]), steps[1..]);
    }
  }

  /** So the code keeps its promise over every run in which each row is stored
      over what was looked at, and writes meet `KeepsReads`. */
  lemma NobodySeesPastUndisturbedWriters(c: Config, now: Time, steps: seq<Step>, key: Key)
    requires AllChecked(c, Start(now), steps)
    requires key in Run(c, Start(now), steps).entries
    ensures ShowsNoMore(c.tree, Run(c, Start(now), steps).entries[key])
  {
    CheckedRunsAreAllowed(c, Start(now), steps);
    NobodySeesPastTheWriters(c, now, steps, key);
  }

  // ---- runs that take one request for an entry at a time ----

  ghost predicate Free(s: State, key: Key) { forall i :: 0 <= i < |s.flights| ==> KeyOf(s.flights[i]) != key }

  // A look waits for the entry's last commit.
  ghost predicate InTurn(c: Config, s: State, step: Step) {
    match step
    case LookToWrite(i) => i < |s.requests| ==> Free(s, s.requests[i].key)
    case LookToRegrade(key) => Free(s, key)
    case LookToMove(key, to) => IsHome(c.tree, to) && Free(s, key)
    case Commit(i, grader) =>
      i < |s.flights| ==>
        var f := s.flights[i];
        GraderIsAdmissible(c, KeyOf(f).origin, grader) && (f.Writing? ==> KeepsReads(c, At(s, KeyOf(f)), f.w, grader))
    case _ => Allowed(c, s, step)
  }

  ghost predicate AllInTurn(c: Config, s: State, steps: seq<Step>)
    decreases |steps|
  {
    steps != [] ==> InTurn(c, s, steps[0]) && AllInTurn(c, Next(c, s, steps[0]), steps[1..])
  }

  ghost predicate Apart(fs: seq<Flight>) { forall i, j :: 0 <= i < j < |fs| ==> KeyOf(fs[i]) != KeyOf(fs[j]) }

  ghost predicate OneEach(c: Config, s: State) {
    Apart(s.flights) && forall f :: f in s.flights ==> AsSeen(c, At(s, KeyOf(f)), f)
  }

  lemma LookIsSeen(c: Config, s: State, f: Flight)
    requires OneEach(c, s) && Free(s, KeyOf(f)) && AsSeen(c, At(s, KeyOf(f)), f)
    ensures OneEach(c, Looking(s, f))
  {
  }

  lemma OneLessIsApart(fs: seq<Flight>, i: nat)
    requires Apart(fs) && i < |fs|
    ensures Apart(Without(fs, i)) && forall f :: f in Without(fs, i) ==> f in fs && KeyOf(f) != KeyOf(fs[i])
  {
    var gs := Without(fs, i);
    forall a | 0 <= a < |gs| ensures gs[a] == fs[if a < i then a else a + 1] {}
  }

  lemma CommitLeavesOthers(c: Config, s: State, i: nat, grader: Grader)
    requires OneEach(c, s) && i < |s.flights|
    ensures OneEach(c, Next(c, s, Commit(i, grader)))
  {
    var t := Next(c, s, Commit(i, grader));
    OneLessIsApart(s.flights, i);
    forall f | f in t.flights ensures AsSeen(c, At(t, KeyOf(f)), f) { assert f in s.flights; }
  }

  lemma InTurnKeepsOneEach(c: Config, s: State, step: Step)
    requires OneEach(c, s) && InTurn(c, s, step)
    ensures OneEach(c, Next(c, s, step))
  {
    match step
    case LookToWrite(i) =>
      if i < |s.requests| {
        var w := s.requests[i];
        LookIsSeen(c, s.(requests := Without(s.requests, i)), Writing(w, Looked(At(s, w.key))));
      }
    case LookToRegrade(key) =>
      if key in s.entries && s.entries[key].awaiting.Some? {
        LookIsSeen(c, s, Regrading(key, s.entries[key].home, s.entries[key].awaiting.value));
      }
    case LookToMove(key, to) =>
      if key in s.entries && MoveKind(c.tree, s.entries[key].home, to) == Restrict { LookIsSeen(c, s, Moving(key, to)); }
    case Commit(i, grader) => if i < |s.flights| { CommitLeavesOthers(c, s, i, grader); }
    case _ =>
  }

  lemma InTurnIsChecked(c: Config, s: State, step: Step)
    requires OneEach(c, s) && InTurn(c, s, step)
    ensures Checked(c, s, step)
  {
  }

  /** With one request for each entry between its look and its commit at a time,
      every commit finds its row as it was looked at. */
  lemma {:induction false} InTurnIsUndisturbed(c: Config, s: State, steps: seq<Step>)
    requires OneEach(c, s) && AllInTurn(c, s, steps)
    ensures AllChecked(c, s, steps)
    decreases |steps|
  {
    if steps != [] {
      InTurnIsChecked(c, s, steps[0]);
      InTurnKeepsOneEach(c, s, steps[0]);
      InTurnIsUndisturbed(c, Next(c, s, steps[0]), steps[1..]);
    }
  }

  /** So the promise is kept over every run that does: but for restarts, a lock on
      the entry from look to commit and `KeepsReads` for its writes are enough. */
  lemma NobodySeesPastWritersInTurn(c: Config, now: Time, steps: seq<Step>, key: Key)
    requires AllInTurn(c, Start(now), steps)
    requires key in Run(c, Start(now), steps).entries
    ensures ShowsNoMore(c.tree, Run(c, Start(now), steps).entries[key])
  {
    InTurnIsUndisturbed(c, Start(now), steps);
    NobodySeesPastUndisturbedWriters(c, now, steps, key);
  }

  // ---- two writes at once ----

  ghost function BothLooked(c: Config, s: State): (t: State) { Next(c, Next(c, s, LookToWrite(0)), LookToWrite(0)) }

  // Two requests for one settled entry: the first writer read something above
  // it, the second read nothing.
  ghost predicate TwoRequests(m: TreeMap, s: State, key: Key, above: Id) {
    && key.origin in m.positions && above != key.origin && AtOrAbove(m, above, key.origin)
    && s.entries == map[key := Entry(key.origin, None, {})] && s.flights == []
    && s.requests == [Write(key, above, {above}, false), Write(key, key.origin, {}, false)]
  }

  lemma BothLookedAt(c: Config, s: State, key: Key, above: Id)
    requires TwoRequests(c.tree, s, key, above)
    ensures var seen, t := Some(Seen(key.origin, false)), BothLooked(c, s);
      t.flights == [Writing(s.requests[0], seen), Writing(s.requests[1], seen)] && t.entries == s.entries
  {
    var t := Next(c, s, LookToWrite(0));
    assert t.requests == [s.requests[1]];
  }

  // With the grading model off, a write that saw the entry at its origin goes
  // to its floor, wherever the entry is by now.
  lemma OffLands(c: Config, key: Key, home: Id, had: set<Id>, w: Write)
    requires w.key == key && !w.worker && AtOrAbove(c.tree, w.floor, key.origin) && key.origin in c.tree.positions
    ensures Landed(c, Some(Entry(home, None, had)), Some(Seen(key.origin, false)), w, Off) == Entry(w.floor, None, w.basis + had)
  {
    AncestorsAreAbove(c.tree, w.floor, key.origin);
  }

  lemma CommitOff(c: Config, s: State, key: Key, home: Id, had: set<Id>, w: Write, later: seq<Flight>)
    requires w.key == key && !w.worker && AtOrAbove(c.tree, w.floor, key.origin) && key.origin in c.tree.positions
    requires s.entries == map[key := Entry(home, None, had)] && s.flights == [Writing(w, Some(Seen(key.origin, false)))] + later
    ensures Next(c, s, Commit(0, Off)).entries == map[key := Entry(w.floor, None, w.basis + had)]
    ensures Next(c, s, Commit(0, Off)).flights == later
    ensures Allowed(c, s, Commit(0, Off)) <==> AtOrAbove(c.tree, w.floor, home)
  {
    OffLands(c, key, home, had, w);
    if AtOrAbove(c.tree, key.origin, w.floor) { AboveAPosition(c.tree, w.floor, key.origin); AboveAntisymmetric(c.tree, key.origin, w.floor); }
    assert Outcome(c, At(s, key), s.flights[0], Off) == Some(Entry(w.floor, None, w.basis + had));
  }

  lemma NotSeenBelow(m: ProperMap, p: Id, above: Id)
    requires p in m.positions && above != p && AtOrAbove(m, above, p)
    ensures Sees(m, [p], p) && !Sees(m, [p], above) && !AtOrAbove(m, p, above)
  {
    AboveAPosition(m, above, p);
    if AtOrAbove(m, p, above) { AboveAntisymmetric(m, p, above); }
    assert AtOrAbove(m, p, p) && p in [p];
  }

  /** Two writes at once to one settled entry, on any map: both look, the one
      that read more is stored and raises the entry, the other lowers it again,
      and whoever holds the entry's position sees what was written from above.
      Of these steps only the last is not allowed. */
  lemma OverlappingWritesLower(c: Config, s: State, key: Key, above: Id)
    requires TwoRequests(c.tree, s, key, above)
    ensures var t := BothLooked(c, s);
      var u := Next(c, t, Commit(0, Off));
      var v := Next(c, u, Commit(0, Off));
      && Allowed(c, t, Commit(0, Off)) && u.entries == map[key := Entry(above, None, {above})]
      && !Allowed(c, u, Commit(0, Off)) && v.entries == map[key := Entry(key.origin, None, {above})]
      && Sees(c.tree, [key.origin], key.origin) && !Sees(c.tree, [key.origin], above)
  {
    var first, second := s.requests[0], s.requests[1];
    var t := BothLooked(c, s);
    BothLookedAt(c, s, key, above);
    assert first.basis + {} == {above} && second.basis + {above} == {above};
    CommitOff(c, t, key, key.origin, {}, first, [Writing(second, Some(Seen(key.origin, false)))]);
    CommitOff(c, Next(c, t, Commit(0, Off)), key, above, {above}, second, []);
    NotSeenBelow(c.tree, key.origin, above);
  }

  // ---- such a state comes about ----

  ghost predicate Reached(c: Config, s: State) {
    exists now, steps :: AllAllowed(c, Start(now), steps) && Run(c, Start(now), steps) == s
  }

  lemma {:induction false} RunOneMore(c: Config, s: State, steps: seq<Step>, step: Step)
    requires AllAllowed(c, s, steps) && Allowed(c, Run(c, s, steps), step)
    ensures AllAllowed(c, s, steps + [step]) && Run(c, s, steps + [step]) == Next(c, Run(c, s, steps), step)
    decreases |steps|
  {
    if steps == [] {
      assert [step][1..] == [];
    } else {
      RunOneMore(c, Next(c, s, steps[0]), steps[1..], step);
      assert (steps + [step])[1..] == steps[1..] + [step];
    }
  }

  lemma ReachOneMore(c: Config, s: State, step: Step)
    requires Reached(c, s) && Allowed(c, s, step)
    ensures Reached(c, Next(c, s, step))
  {
    var now, steps :| AllAllowed(c, Start(now), steps) && Run(c, Start(now), steps) == s;
    RunOneMore(c, Start(now), steps, step);
  }

  // What somebody asks for who has read only this, all of it above the origin.
  lemma AskedAfter(c: Config, s: State, who: Who, key: Key, basis: set<Id>, floor: Id)
    requires key.origin in c.tree.positions && floor in c.tree.positions && AtOrAbove(c.tree, floor, key.origin)
    requires MarksOk(c, s) && ReadSince(s.log, who, Cutoff(c, s)) == basis
    requires (basis == {} && floor == key.origin) || basis == {floor}
    ensures Asked(c, s, who, key, key.origin, false) == Write(key, floor, basis, false)
  {
    WindowIsWhatWasRead(c, s, who);
    assert AtOrAbove(c.tree, floor, floor);
    FloorIsTheHighest(c.tree, floor, key.origin, basis);
  }

  lemma FirstLands(c: Config, key: Key)
    requires key.origin in c.tree.positions
    ensures Landed(c, None, None, Write(key, key.origin, {}, false), Off) == Entry(key.origin, None, {})
  {
  }

  ghost function WithEntry(key: Key): (s: State) { Start(0).(entries := map[key := Entry(key.origin, None, {})]) }

  // The first write of an entry, by somebody who has read nothing.
  lemma FirstWrite(c: Config, y: Who, key: Key)
    requires key.origin in c.tree.positions
    ensures Reached(c, WithEntry(key))
  {
    var s0, w := Start(0), Write(key, key.origin, {}, false);
    assert AllAllowed(c, s0, []) && Run(c, s0, []) == s0;
    assert ReadSince(s0.log, y, Cutoff(c, s0)) == {} && AtOrAbove(c.tree, key.origin, key.origin);
    AskedAfter(c, s0, y, key, {}, key.origin);
    ReachOneMore(c, s0, Ask(y, key));
    var s1 := s0.(requests := [w]);
    assert Next(c, s0, Ask(y, key)) == s1;
    ReachOneMore(c, s1, LookToWrite(0));
    var s2 := s0.(flights := [Writing(w, None)]);
    assert Next(c, s1, LookToWrite(0)) == s2;
    FirstLands(c, key);
    assert Outcome(c, None, s2.flights[0], Off) == Some(Entry(key.origin, None, {}));
    assert Allowed(c, s2, Commit(0, Off));
    ReachOneMore(c, s2, Commit(0, Off));
    assert Next(c, s2, Commit(0, Off)) == WithEntry(key);
  }

  // What x has read, and y has not.
  lemma OneReads(c: Config, s: State, x: Who, y: Who, above: Id)
    requires c.window > 0 && x != y && s.log == [] && s.marks == map[] && s.stored == map[] && s.now == 0
    ensures var t := Next(c, s, Read(x, [above]));
      MarksOk(c, t) && ReadSince(t.log, x, Cutoff(c, t)) == {above} && ReadSince(t.log, y, Cutoff(c, t)) == {}
  {
    ReadKeepsMarks(c, s, x, [above]);
    var t := Next(c, s, Read(x, [above]));
    assert t.log == [ReadEvent(x, above, 0)];
    assert t.log[0].home in ReadSince(t.log, x, Cutoff(c, t));
  }

  /** An allowed run leads to two such requests, on any map. */
  lemma TwoRequestsComeAbout(c: Config, key: Key, above: Id, x: Who, y: Who)
    requires c.window > 0 && x != y && key.origin in c.tree.positions && above != key.origin && AtOrAbove(c.tree, above, key.origin)
    ensures exists s :: Reached(c, s) && TwoRequests(c.tree, s, key, above)
  {
    var s0 := WithEntry(key);
    FirstWrite(c, y, key);
    ReachOneMore(c, s0, Read(x, [above]));
    OneReads(c, s0, x, y, above);
    AboveAPosition(c.tree, above, key.origin);
    assert AtOrAbove(c.tree, key.origin, key.origin);
    var s1 := Next(c, s0, Read(x, [above]));
    AskedAfter(c, s1, x, key, {above}, above);
    ReachOneMore(c, s1, Ask(x, key));
    var s2 := s1.(requests := [Write(key, above, {above}, false)]);
    assert Next(c, s1, Ask(x, key)) == s2;
    AskedAfter(c, s2, y, key, {}, key.origin);
    ReachOneMore(c, s2, Ask(y, key));
    var s3 := s2.(requests := s2.requests + [Write(key, key.origin, {}, false)]);
    assert Next(c, s2, Ask(y, key)) == s3;
    assert TwoRequests(c.tree, s3, key, above);
  }

  // ---- what the steps do ----

  lemma LastOut<T>(q: seq<T>, x: T)
    ensures Without(q + [x], |q|) == q
  {
  }

  /** Asked for, looked at and stored with nothing between, a write is placed by
      the row it finds, and what its writer had read since the window began is
      added to what was read for the row. */
  lemma WriteAlone(c: Config, s: State, who: Who, key: Key, grader: Grader)
    ensures var w := Asked(c, s, who, key, key.origin, false);
      var t := Next(c, Next(c, Next(c, s, Ask(who, key)), LookToWrite(|s.requests|)), Commit(|s.flights|, grader));
      && t == s.(entries := s.entries[key := Written(c, At(s, key), w, grader)])
      && t.entries[key].basis == (if key in s.entries then s.entries[key].basis else {})
           + set i | 0 <= i < |s.log| && s.log[i].who == who && s.log[i].at > s.now - c.window :: s.log[i].home
  {
    var w := Asked(c, s, who, key, key.origin, false);
    var f := Writing(w, Looked(At(s, key)));
    var s1 := s.(requests := s.requests + [w]);
    assert Next(c, s, Ask(who, key)) == s1;
    LastOut(s.requests, w);
    assert Next(c, s1, LookToWrite(|s.requests|)) == Looking(s, f);
    CommitAlone(c, s, f, grader);
  }

  // The last look is committed: the others stay as they are.
  lemma CommitAlone(c: Config, s: State, f: Flight, grader: Grader)
    ensures var e := Outcome(c, At(s, KeyOf(f)), f, grader);
      Next(c, Looking(s, f), Commit(|s.flights|, grader)) == s.(entries := if e.Some? then s.entries[KeyOf(f) := e.value] else s.entries)
  {
    LastOut(s.flights, f);
    assert At(Looking(s, f), KeyOf(f)) == At(s, KeyOf(f));
  }

  /** A worker's request is refused, or goes the same way, at its own floor. */
  lemma WorkerWriteAlone(c: Config, s: State, who: Who, key: Key, lives: Id, grader: Grader)
    requires !FloorLifts(c.tree, lives, Some(FloorNow(c, s, who, lives)))
    ensures var w := Asked(c, s, who, key, lives, true);
      Next(c, Next(c, Next(c, s, WorkerAsk(who, key, lives)), LookToWrite(|s.requests|)), Commit(|s.flights|, grader))
        == s.(entries := s.entries[key := Written(c, At(s, key), w, grader)])
  {
    var w := Asked(c, s, who, key, lives, true);
    LastOut(s.requests, w);
    CommitAlone(c, s, Writing(w, Looked(At(s, key))), grader);
  }

  /** A row that awaits grading is regraded once the grading model answers. */
  lemma RegradeAlone(c: Config, s: State, key: Key, grader: Grader)
    requires key in s.entries && s.entries[key].awaiting.Some?
    ensures Next(c, Next(c, s, LookToRegrade(key)), Commit(|s.flights|, grader))
      == if grader.Answered? then s.(entries := s.entries[key := Regraded(c, s.entries[key], key.origin, grader.verdict)]) else s
  {
    var e := s.entries[key];
    CommitAlone(c, s, Regrading(key, e.home, e.awaiting.value), grader);
  }

  /** An entry is moved to any home at or above its own, and to no other. */
  lemma MoveAlone(c: Config, s: State, key: Key, to: Id, grader: Grader)
    requires key in s.entries && IsHome(c.tree, s.entries[key].home) && IsHome(c.tree, to)
    ensures Next(c, Next(c, s, LookToMove(key, to)), Commit(|s.flights|, grader)).entries[key].home
      == if AtOrAbove(c.tree, to, s.entries[key].home) then to else s.entries[key].home
  {
    RestrictShowsNobodyNew(c.tree, s.entries[key].home, to);
    SeeingFollowsTheOrder(c.tree, to, s.entries[key].home);
    if MoveKind(c.tree, s.entries[key].home, to) == Restrict { CommitAlone(c, s, Moving(key, to), grader); }
  }

  /** What was read for an entry is never forgotten, and each commit of a write
      adds what its writer had read. */
  lemma BasisOnlyGrows(c: Config, s: State, step: Step, key: Key)
    requires key in s.entries
    ensures key in Next(c, s, step).entries && s.entries[key].basis <= Next(c, s, step).entries[key].basis
    ensures step.Commit? && step.i < |s.flights| && s.flights[step.i].Writing? && s.flights[step.i].w.key == key ==>
      s.flights[step.i].w.basis <= Next(c, s, step).entries[key].basis
  {
  }
}
