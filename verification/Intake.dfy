/** From a saved entry to the master's prompt (graph-rag/src/server.js,
    packages/server/src/agents/graph-pool.ts): intake jobs, batches, signals
    and their acknowledgement, one step per statement or call, with requests on
    either side free to stop between any two. */
module Intake {
  import opened Wrappers

  type Rid = string
  type Jid = string
  type Sid = string
  type Pid = nat

  datatype Job = Job(rid: Rid, done: bool)

  datatype Signal = Signal(entries: set<Rid>, delivered: bool)

  datatype Pc =
    | Reading(rows: seq<Jid>, i: nat, entries: set<Rid>) // a batch: looking its records up
    | Storing(rows: seq<Jid>, entries: set<Rid>)         // about to store the batch
    | Emitting(rows: seq<Jid>, entries: set<Rid>)        // about to emit its signal
    | Closing(rows: seq<Jid>, i: nat)                    // taking the jobs out of the intake
    | Prompting(sids: seq<Sid>, entries: set<Rid>)       // the workspace: about to prompt the master
    | Acking(sids: seq<Sid>, i: nat)                     // acknowledging what the master accepted

  // `entered`, `accepted` and `unreadable` are history.
  datatype State = State(jobs: map<Jid, Job>, signals: map<Sid, Signal>, procs: map<Pid, Pc>,
                         entered: set<Rid>, accepted: set<Rid>, unreadable: set<Rid>)

  datatype Event =
    | Insert(jid: Jid, rid: Rid)
    | Reuse(jid: Jid)
    | Stop(p: Pid)
    | TakeRows(p: Pid, rows: seq<Jid>)
    | LookUp(p: Pid, readable: bool)
    | StoreBatch(p: Pid)
    | Emit(p: Pid, sid: Sid)
    | CloseJob(p: Pid)
    | Fetch(p: Pid, sids: seq<Sid>)
    | MasterAccepts(p: Pid)
    | Ack(p: Pid)

  ghost function EntriesOf(signals: map<Sid, Signal>, sids: seq<Sid>): set<Rid> {
    set sid, r | sid in sids && sid in signals && r in signals[sid].entries :: r
  }

  function Go(s: State, p: Pid, pc: Pc): (t: State) { s.(procs := s.procs[p := pc]) }

  predicate Pending(s: State, jid: Jid) { jid in s.jobs && !s.jobs[jid].done }

  ghost function Next(s: State, e: Event): (t: State) {
    match e
    // an entry is queued once: a pending job for it is reused
    case Insert(jid, rid) =>
      if jid in s.jobs then s else s.(jobs := s.jobs[jid := Job(rid, false)], entered := s.entered + {rid})
    case Reuse(jid) => if Pending(s, jid) then s.(entered := s.entered + {s.jobs[jid].rid}) else s
    case Stop(p) => s.(procs := s.procs - {p})
    case TakeRows(p, rows) =>
      if p in s.procs || exists j :: j in rows && !Pending(s, j) then s else Go(s, p, Reading(rows, 0, {}))
    case Fetch(p, sids) =>
      if p in s.procs || exists x :: x in sids && (x !in s.signals || s.signals[x].delivered) then s
      else Go(s, p, Prompting(sids, EntriesOf(s.signals, sids)))
    case _ => if e.p in s.procs then NextOf(s, e, s.procs[e.p]) else s
  }

  ghost function NextOf(s: State, e: Event, pc: Pc): (t: State)
    requires !e.Insert? && !e.Reuse?
  {
    var p := e.p;
    match (e, pc)
    case (LookUp(_, readable), Reading(rows, i, entries)) =>
      if i >= |rows| || rows[i] !in s.jobs then s
      else
        var rid := s.jobs[rows[i]].rid;
        if readable then Go(s, p, Reading(rows, i + 1, entries + {rid}))
        else Go(s.(unreadable := s.unreadable + {rid}), p, Reading(rows, i + 1, entries))
    case (StoreBatch(_), Reading(rows, i, entries)) =>
      if i < |rows| then s else if entries == {} then Go(s, p, Closing(rows, 0)) else Go(s, p, Storing(rows, entries))
    case (StoreBatch(_), Storing(rows, entries)) => Go(s, p, Emitting(rows, entries))
    case (Emit(_, sid), Emitting(rows, entries)) =>
      if sid in s.signals then s
      else Go(s.(signals := s.signals[sid := Signal(entries, false)]), p, Closing(rows, 0))
    case (CloseJob(_), Closing(rows, i)) =>
      if i >= |rows| then s.(procs := s.procs - {p})
      else if rows[i] !in s.jobs then s
      else Go(s.(jobs := s.jobs[rows[i] := s.jobs[rows[i]].(done := true)]), p, Closing(rows, i + 1))
    case (MasterAccepts(_), Prompting(sids, entries)) =>
      Go(s.(accepted := s.accepted + entries), p, Acking(sids, 0))
    case (Ack(_), Acking(sids, i)) =>
      if i >= |sids| then s.(procs := s.procs - {p})
      else if sids[i] !in s.signals then s
      else Go(s.(signals := s.signals[sids[i] := s.signals[sids[i]].(delivered := true)]), p, Acking(sids, i + 1))
    case _ => s
  }

  ghost function Run(s: State, es: seq<Event>): (t: State)
    decreases |es|
  {
    if es == [] then s else Run(Next(s, es[0]), es[1..])
  }

  const START := State(map[], map[], map[], {}, {}, {})

  // ---- where an entry is ----

  ghost predicate InIntake(s: State, rid: Rid) {
    exists jid :: Pending(s, jid) && s.jobs[jid].rid == rid
  }

  ghost predicate Signalled(s: State, rid: Rid) {
    exists sid :: sid in s.signals && !s.signals[sid].delivered && rid in s.signals[sid].entries
  }

  /** The promise: it waits in the intake, or in a signal not yet acknowledged,
      or the master accepted a prompt with it, or its record was gone. */
  ghost predicate NotLost(s: State, rid: Rid) {
    InIntake(s, rid) || Signalled(s, rid) || rid in s.accepted || rid in s.unreadable
  }

  // Past the intake for good: no later step can undo this.
  ghost predicate Sent(s: State, rid: Rid) {
    rid in s.accepted || rid in s.unreadable || exists sid :: sid in s.signals && rid in s.signals[sid].entries
  }

  ghost predicate SignalOk(s: State, sid: Sid)
    requires sid in s.signals
  {
    s.signals[sid].delivered ==> s.signals[sid].entries <= s.accepted
  }

  ghost predicate RowsKnown(s: State, rows: seq<Jid>) {
    forall j :: j in rows ==> j in s.jobs
  }

  ghost predicate RowsCovered(s: State, rows: seq<Jid>, entries: set<Rid>) {
    forall j :: j in rows ==> j in s.jobs && (s.jobs[j].rid in entries || s.jobs[j].rid in s.unreadable)
  }

  ghost predicate PcOk(s: State, pc: Pc) {
    match pc
    case Reading(rows, i, entries) => i <= |rows| && RowsKnown(s, rows) && RowsCovered(s, rows[..i], entries)
    case Storing(rows, entries) => RowsCovered(s, rows, entries)
    case Emitting(rows, entries) => RowsCovered(s, rows, entries)
    case Closing(rows, _) => forall j :: j in rows ==> j in s.jobs && Sent(s, s.jobs[j].rid)
    case Prompting(sids, entries) => forall x :: x in sids ==> x in s.signals && s.signals[x].entries <= entries
    case Acking(sids, _) => forall x :: x in sids ==> x in s.signals && s.signals[x].entries <= s.accepted
  }

  ghost predicate Inv(s: State) {
    && (forall rid :: rid in s.entered ==> NotLost(s, rid))
    && (forall sid :: sid in s.signals ==> SignalOk(s, sid))
    && (forall p {:trigger PcOk(s, s.procs[p])} :: p in s.procs ==> PcOk(s, s.procs[p]))
  }

  // What only grows from one state to the next.
  ghost predicate Grows(s: State, t: State) {
    && (forall j :: j in s.jobs ==> j in t.jobs && t.jobs[j].rid == s.jobs[j].rid)
    && (forall x :: x in s.signals ==> x in t.signals && t.signals[x].entries == s.signals[x].entries)
    && s.accepted <= t.accepted && s.unreadable <= t.unreadable
  }

  lemma SentStays(s: State, t: State, rid: Rid)
    requires Grows(s, t) && Sent(s, rid)
    ensures Sent(t, rid)
  {
    if rid !in s.accepted && rid !in s.unreadable {
      var sid :| sid in s.signals && rid in s.signals[sid].entries;
      assert sid in t.signals;
    }
  }

  lemma PcStays(s: State, t: State, pc: Pc)
    requires Grows(s, t) && PcOk(s, pc)
    ensures PcOk(t, pc)
  {
    if pc.Closing? {
      forall j | j in pc.rows ensures j in t.jobs && Sent(t, t.jobs[j].rid) { SentStays(s, t, s.jobs[j].rid); }
    }
  }

  lemma SentIsNotLost(s: State, rid: Rid)
    requires Sent(s, rid) && forall sid :: sid in s.signals ==> SignalOk(s, sid)
    ensures NotLost(s, rid)
  {
    if rid !in s.accepted && rid !in s.unreadable {
      var sid :| sid in s.signals && rid in s.signals[sid].entries;
      assert SignalOk(s, sid);
    }
  }

  // A step that closes no job and delivers no signal loses nothing.
  lemma QuietKeeps(s: State, t: State, rid: Rid)
    requires Grows(s, t) && NotLost(s, rid)
    requires forall j :: Pending(s, j) ==> Pending(t, j)
    requires forall x :: x in s.signals && !s.signals[x].delivered ==> !t.signals[x].delivered
    ensures NotLost(t, rid)
  {
    if InIntake(s, rid) {
      var j :| Pending(s, j) && s.jobs[j].rid == rid;
      assert Pending(t, j);
    } else if Signalled(s, rid) {
      var x :| x in s.signals && !s.signals[x].delivered && rid in s.signals[x].entries;
      assert x in t.signals;
    }
  }

  lemma QuietStep(s: State, t: State, p: Pid)
    requires Inv(s) && Grows(s, t) && t.entered == s.entered
    requires forall j :: Pending(s, j) ==> Pending(t, j)
    requires forall x :: x in s.signals ==> t.signals[x].delivered == s.signals[x].delivered
    requires forall x :: x in t.signals && x !in s.signals ==> !t.signals[x].delivered
    requires forall q :: q in t.procs ==> q == p || (q in s.procs && t.procs[q] == s.procs[q])
    requires p in t.procs ==> PcOk(t, t.procs[p])
    ensures Inv(t)
  {
    forall rid | rid in t.entered ensures NotLost(t, rid) { QuietKeeps(s, t, rid); }
    forall x | x in t.signals ensures SignalOk(t, x) { if x in s.signals { assert SignalOk(s, x); } }
    forall q | q in t.procs ensures PcOk(t, t.procs[q]) {
      if q != p { assert PcOk(s, s.procs[q]); PcStays(s, t, s.procs[q]); }
    }
  }

  lemma LookUpKeeps(s: State, p: Pid, readable: bool)
    requires Inv(s) && p in s.procs && s.procs[p].Reading?
    ensures Inv(NextOf(s, LookUp(p, readable), s.procs[p]))
  {
    var Reading(rows, i, entries) := s.procs[p];
    assert PcOk(s, s.procs[p]);
    var t := NextOf(s, LookUp(p, readable), s.procs[p]);
    if i < |rows| && rows[i] in s.jobs {
      assert rows[..i + 1] == rows[..i] + [rows[i]];
      QuietStep(s, t, p);
    }
  }

  lemma EmitKeeps(s: State, p: Pid, sid: Sid)
    requires Inv(s) && p in s.procs && s.procs[p].Emitting? && sid !in s.signals
    ensures Inv(NextOf(s, Emit(p, sid), s.procs[p]))
  {
    var Emitting(rows, entries) := s.procs[p];
    assert PcOk(s, s.procs[p]);
    var t := NextOf(s, Emit(p, sid), s.procs[p]);
    forall j | j in rows ensures j in t.jobs && Sent(t, t.jobs[j].rid) {
      if t.jobs[j].rid in entries { assert sid in t.signals && t.jobs[j].rid in t.signals[sid].entries; }
    }
    QuietStep(s, t, p);
  }

  /** A job leaves the intake only after its entry was sent on. */
  lemma CloseKeeps(s: State, p: Pid)
    requires Inv(s) && p in s.procs && s.procs[p].Closing? && s.procs[p].i < |s.procs[p].rows|
    ensures Inv(NextOf(s, CloseJob(p), s.procs[p]))
  {
    var Closing(rows, i) := s.procs[p];
    assert PcOk(s, s.procs[p]);
    var jid := rows[i];
    var t := NextOf(s, CloseJob(p), s.procs[p]);
    assert Grows(s, t) && Sent(s, s.jobs[jid].rid);
    forall q | q in t.procs ensures PcOk(t, t.procs[q]) {
      if q != p { assert PcOk(s, s.procs[q]); PcStays(s, t, s.procs[q]); } else { PcStays(s, t, s.procs[p]); }
    }
    forall x | x in t.signals ensures SignalOk(t, x) { assert SignalOk(s, x); }
    forall rid | rid in t.entered ensures NotLost(t, rid) {
      assert NotLost(s, rid);
      if rid == s.jobs[jid].rid {
        SentStays(s, t, rid);
        SentIsNotLost(t, rid);
      } else if InIntake(s, rid) {
        var j :| Pending(s, j) && s.jobs[j].rid == rid;
        assert Pending(t, j);
      } else if Signalled(s, rid) {
        var x :| x in s.signals && !s.signals[x].delivered && rid in s.signals[x].entries;
        assert x in t.signals;
      }
    }
  }

  /** A signal is acknowledged only after the master accepted it. */
  lemma AckKeeps(s: State, p: Pid)
    requires Inv(s) && p in s.procs && s.procs[p].Acking? && s.procs[p].i < |s.procs[p].sids|
    ensures Inv(NextOf(s, Ack(p), s.procs[p]))
  {
    var Acking(sids, i) := s.procs[p];
    assert PcOk(s, s.procs[p]);
    var sid := sids[i];
    assert sid in sids;
    var t := NextOf(s, Ack(p), s.procs[p]);
    assert Grows(s, t) && s.signals[sid].entries <= s.accepted;
    forall q | q in t.procs ensures PcOk(t, t.procs[q]) {
      if q != p { assert PcOk(s, s.procs[q]); PcStays(s, t, s.procs[q]); } else { PcStays(s, t, s.procs[p]); }
    }
    forall x | x in t.signals ensures SignalOk(t, x) { if x != sid { assert SignalOk(s, x); } }
    forall rid | rid in t.entered ensures NotLost(t, rid) {
      assert NotLost(s, rid);
      if InIntake(s, rid) {
        var j :| Pending(s, j) && s.jobs[j].rid == rid;
        assert Pending(t, j);
      } else if Signalled(s, rid) {
        var x :| x in s.signals && !s.signals[x].delivered && rid in s.signals[x].entries;
        assert x in t.signals;
        if x == sid { assert rid in t.accepted; }
      }
    }
  }

  lemma InsertKeeps(s: State, jid: Jid, rid: Rid)
    requires Inv(s) && jid !in s.jobs
    ensures Inv(Next(s, Insert(jid, rid)))
  {
    var t := Next(s, Insert(jid, rid));
    forall q | q in t.procs ensures PcOk(t, t.procs[q]) { assert PcOk(s, s.procs[q]); PcStays(s, t, s.procs[q]); }
    forall x | x in t.signals ensures SignalOk(t, x) { assert SignalOk(s, x); }
    forall r | r in t.entered ensures NotLost(t, r) {
      if r == rid { assert Pending(t, jid); } else { QuietKeeps(s, t, r); }
    }
  }

  lemma ReuseKeeps(s: State, jid: Jid)
    requires Inv(s) && Pending(s, jid)
    ensures Inv(Next(s, Reuse(jid)))
  {
    var t := Next(s, Reuse(jid));
    forall q | q in t.procs ensures PcOk(t, t.procs[q]) { assert PcOk(s, s.procs[q]); PcStays(s, t, s.procs[q]); }
    forall x | x in t.signals ensures SignalOk(t, x) { assert SignalOk(s, x); }
    forall r | r in t.entered ensures NotLost(t, r) {
      if r == s.jobs[jid].rid { assert Pending(t, jid); } else { QuietKeeps(s, t, r); }
    }
  }

  lemma FetchKeeps(s: State, p: Pid, sids: seq<Sid>)
    requires Inv(s) && forall x :: x in sids ==> x in s.signals
    ensures Inv(Go(s, p, Prompting(sids, EntriesOf(s.signals, sids))))
  {
    QuietStep(s, Go(s, p, Prompting(sids, EntriesOf(s.signals, sids))), p);
  }

  predicate BatchEvent(e: Event) { e.LookUp? || e.StoreBatch? || e.Emit? || e.CloseJob? }

  predicate MasterEvent(e: Event) { e.MasterAccepts? || e.Ack? }

  lemma BatchKeeps(s: State, e: Event)
    requires Inv(s) && BatchEvent(e) && e.p in s.procs
    ensures Inv(NextOf(s, e, s.procs[e.p]))
  {
    var p := e.p;
    var pc := s.procs[p];
    assert PcOk(s, pc);
    match (e, pc)
    case (LookUp(_, readable), Reading(_, _, _)) => LookUpKeeps(s, p, readable);
    case (StoreBatch(_), Reading(rows, i, entries)) =>
      assert i == |rows| ==> rows[..i] == rows;
      QuietStep(s, NextOf(s, e, pc), p);
    case (StoreBatch(_), Storing(rows, entries)) => QuietStep(s, NextOf(s, e, pc), p);
    case (Emit(_, sid), Emitting(_, _)) => if sid !in s.signals { EmitKeeps(s, p, sid); }
    case (CloseJob(_), Closing(rows, i)) =>
      if i < |rows| { CloseKeeps(s, p); } else { QuietStep(s, NextOf(s, e, pc), p); }
    case _ =>
  }

  lemma MasterKeeps(s: State, e: Event)
    requires Inv(s) && MasterEvent(e) && e.p in s.procs
    ensures Inv(NextOf(s, e, s.procs[e.p]))
  {
    var p := e.p;
    var pc := s.procs[p];
    assert PcOk(s, pc);
    match (e, pc)
    case (MasterAccepts(_), Prompting(_, _)) => QuietStep(s, NextOf(s, e, pc), p);
    case (Ack(_), Acking(sids, i)) =>
      if i < |sids| { AckKeeps(s, p); } else { QuietStep(s, NextOf(s, e, pc), p); }
    case _ =>
  }

  lemma UnderWayKeeps(s: State, e: Event)
    requires Inv(s) && !e.Insert? && !e.Reuse? && e.p in s.procs
    ensures Inv(NextOf(s, e, s.procs[e.p]))
  {
    if BatchEvent(e) { BatchKeeps(s, e); } else if MasterEvent(e) { MasterKeeps(s, e); }
  }

  lemma StepKeeps(s: State, e: Event)
    requires Inv(s)
    ensures Inv(Next(s, e))
  {
    match e
    case Insert(jid, rid) => if jid !in s.jobs { InsertKeeps(s, jid, rid); }
    case Reuse(jid) => if Pending(s, jid) { ReuseKeeps(s, jid); }
    case Stop(p) => QuietStep(s, Next(s, e), p);
    case TakeRows(p, rows) => QuietStep(s, Next(s, e), p);
    case Fetch(p, sids) => if Next(s, e) != s { FetchKeeps(s, p, sids); }
    case _ => if e.p in s.procs { UnderWayKeeps(s, e); }
  }

  lemma {:induction false} RunKeeps(s: State, es: seq<Event>)
    requires Inv(s)
    ensures Inv(Run(s, es))
    decreases |es|
  {
    if es != [] {
      StepKeeps(s, es[0]);
      RunKeeps(Next(s, es[0]), es[1..]);
    }
  }

  /** At every moment of every run, no entry that entered the intake is lost. */
  lemma NoEntryIsLost(es: seq<Event>, rid: Rid)
    requires rid in Run(START, es).entered
    ensures NotLost(Run(START, es), rid)
  {
    RunKeeps(START, es);
  }

  /** Once the intake is empty and every signal acknowledged, the master has
      accepted every entry whose record could be read. */
  lemma AllHandedOver(es: seq<Event>)
    requires var s := Run(START, es);
      (forall j :: j in s.jobs ==> s.jobs[j].done) && (forall x :: x in s.signals ==> s.signals[x].delivered)
    ensures var s := Run(START, es); s.entered <= s.accepted + s.unreadable
  {
    var s := Run(START, es);
    forall rid | rid in s.entered ensures rid in s.accepted + s.unreadable { NoEntryIsLost(es, rid); }
  }

  // ---- a batch and a prompt that nothing stops ----

  lemma {:induction false} RunThen(s: State, a: seq<Event>, b: seq<Event>)
    ensures Run(s, a + b) == Run(Run(s, a), b)
    decreases |a|
  {
    if a == [] {
      assert a + b == b;
    } else {
      assert (a + b)[1..] == a[1..] + b;
      RunThen(Next(s, a[0]), a[1..], b);
    }
  }

  lemma RunFirst(s: State, e: Event, es: seq<Event>)
    ensures Run(s, [e] + es) == Run(Next(s, e), es)
  {
    assert ([e] + es)[1..] == es;
  }

  function LookUps(p: Pid, readable: seq<bool>): (es: seq<Event>) {
    if readable == [] then [] else [LookUp(p, readable[0])] + LookUps(p, readable[1..])
  }

  // The entries of these jobs whose records could be read, or those that could not.
  ghost function Found(s: State, rows: seq<Jid>, readable: seq<bool>, which: bool): (rids: set<Rid>)
    requires RowsKnown(s, rows) && |rows| == |readable|
  {
    if rows == [] then {}
    else Found(s, rows[1..], readable[1..], which) + if readable[0] == which then {s.jobs[rows[0]].rid} else {}
  }

  ghost predicate LookedUp(s: State, t: State, p: Pid, rows: seq<Jid>, entries: set<Rid>, lost: set<Rid>) {
    && t.unreadable == s.unreadable + lost && t.procs == s.procs[p := Reading(rows, |rows|, entries)]
    && t == s.(unreadable := t.unreadable, procs := t.procs)
  }

  lemma {:induction false} LookUpsFind(s: State, p: Pid, rows: seq<Jid>, i: nat, entries: set<Rid>, readable: seq<bool>)
    requires p in s.procs && s.procs[p] == Reading(rows, i, entries) && RowsKnown(s, rows) && i + |readable| == |rows|
    ensures LookedUp(s, Run(s, LookUps(p, readable)), p, rows,
                     entries + Found(s, rows[i..], readable, true), Found(s, rows[i..], readable, false))
    decreases |readable|
  {
    if readable == [] {
      assert rows[i..] == [] && entries + {} == entries && s.unreadable + {} == s.unreadable;
      assert s.procs[p := s.procs[p]] == s.procs;
    } else {
      var t, rid := Next(s, LookUp(p, readable[0])), s.jobs[rows[i]].rid;
      assert LookUps(p, readable)[1..] == LookUps(p, readable[1..]) && rows[i..][1..] == rows[i + 1..];
      var more := if readable[0] then entries + {rid} else entries;
      LookUpsFind(t, p, rows, i + 1, more, readable[1..]);
      FoundAlike(s, t, rows[i + 1..], readable[1..], true);
      FoundAlike(s, t, rows[i + 1..], readable[1..], false);
      var read, lost := Found(s, rows[i + 1..], readable[1..], true), Found(s, rows[i + 1..], readable[1..], false);
      assert more + read == entries + Found(s, rows[i..], readable, true);
      assert t.unreadable + lost == s.unreadable + Found(s, rows[i..], readable, false);
      assert t.procs[p := Reading(rows, |rows|, more + read)] == s.procs[p := Reading(rows, |rows|, more + read)];
    }
  }

  lemma {:induction false} FoundAlike(s: State, t: State, rows: seq<Jid>, readable: seq<bool>, which: bool)
    requires RowsKnown(s, rows) && |rows| == |readable| && t.jobs == s.jobs
    ensures Found(t, rows, readable, which) == Found(s, rows, readable, which)
  {
    if rows != [] { FoundAlike(s, t, rows[1..], readable[1..], which); }
  }

  function CloseJobs(p: Pid, n: nat): (es: seq<Event>) { if n == 0 then [] else [CloseJob(p)] + CloseJobs(p, n - 1) }

  // These jobs are done, the others as they were.
  ghost predicate JobsClosed(was: map<Jid, Job>, now: map<Jid, Job>, rows: seq<Jid>) {
    now.Keys == was.Keys && forall j :: j in was ==> now[j] == if j in rows then was[j].(done := true) else was[j]
  }

  lemma OneClosedFirst(was: map<Jid, Job>, mid: map<Jid, Job>, now: map<Jid, Job>, j: Jid, rows: seq<Jid>)
    requires j in was && mid == was[j := was[j].(done := true)] && JobsClosed(mid, now, rows)
    ensures JobsClosed(was, now, [j] + rows)
  {
  }

  // The closing of these jobs has come to its end.
  ghost predicate ClosedBy(s: State, t: State, p: Pid, rows: seq<Jid>) {
    JobsClosed(s.jobs, t.jobs, rows) && t == s.(jobs := t.jobs, procs := s.procs - {p})
  }

  lemma ClosedByMore(s: State, mid: State, t: State, p: Pid, j: Jid, rows: seq<Jid>)
    requires j in s.jobs && mid.jobs == s.jobs[j := s.jobs[j].(done := true)] && mid.procs - {p} == s.procs - {p}
    requires mid == s.(jobs := mid.jobs, procs := mid.procs) && ClosedBy(mid, t, p, rows)
    ensures ClosedBy(s, t, p, [j] + rows)
  {
    OneClosedFirst(s.jobs, mid.jobs, t.jobs, j, rows);
  }

  lemma {:induction false} JobsClose(s: State, p: Pid, rows: seq<Jid>, i: nat)
    requires p in s.procs && s.procs[p] == Closing(rows, i) && i <= |rows| && RowsKnown(s, rows)
    ensures ClosedBy(s, Run(s, CloseJobs(p, |rows| - i + 1)), p, rows[i..])
    decreases |rows| - i
  {
    var mid, rest := Next(s, CloseJob(p)), CloseJobs(p, |rows| - i);
    RunFirst(s, CloseJob(p), rest);
    if i < |rows| {
      assert rows[i] in rows && mid.procs - {p} == s.procs - {p};
      JobsClose(mid, p, rows, i + 1);
      ClosedByMore(s, mid, Run(mid, rest), p, rows[i], rows[i + 1..]);
      assert rows[i..] == [rows[i]] + rows[i + 1..];
    } else {
      assert rows[i..] == [];
    }
  }

  // A batch from taking its rows to closing them.
  function Batch(p: Pid, rows: seq<Jid>, readable: seq<bool>, sid: Sid): (es: seq<Event>) {
    [TakeRows(p, rows)] + (LookUps(p, readable) + ([StoreBatch(p), StoreBatch(p), Emit(p, sid)] + CloseJobs(p, |rows| + 1)))
  }

  lemma StoreAndEmit(s: State, p: Pid, rows: seq<Jid>, entries: set<Rid>, sid: Sid)
    requires p in s.procs && s.procs[p] == Reading(rows, |rows|, entries) && sid !in s.signals
    ensures Run(s, [StoreBatch(p), StoreBatch(p), Emit(p, sid)]) ==
      Go(if entries == {} then s else s.(signals := s.signals[sid := Signal(entries, false)]), p, Closing(rows, 0))
  {
    var a := Next(s, StoreBatch(p));
    var b := Next(a, StoreBatch(p));
    var c := Next(b, Emit(p, sid));
    var es := [StoreBatch(p), StoreBatch(p), Emit(p, sid)];
    assert es[1..] == [StoreBatch(p), Emit(p, sid)] && es[1..][1..] == [Emit(p, sid)] && es[1..][1..][1..] == [];
    assert Run(b, [Emit(p, sid)]) == Run(c, []) == c;
    assert Run(a, es[1..]) == Run(b, [Emit(p, sid)]);
    assert c.procs == s.procs[p := Closing(rows, 0)];
  }

  lemma BatchLooksUp(s: State, p: Pid, rows: seq<Jid>, readable: seq<bool>)
    requires p !in s.procs && (forall j :: j in rows ==> Pending(s, j)) && |rows| == |readable|
    ensures LookedUp(s, Run(Next(s, TakeRows(p, rows)), LookUps(p, readable)), p, rows, Found(s, rows, readable, true), Found(s, rows, readable, false))
  {
    var a := Next(s, TakeRows(p, rows));
    LookUpsFind(a, p, rows, 0, {}, readable);
    assert rows[0..] == rows;
    FoundAlike(s, a, rows, readable, true);
    FoundAlike(s, a, rows, readable, false);
    var read := Found(s, rows, readable, true);
    assert {} + read == read && a.procs[p := Reading(rows, |rows|, read)] == s.procs[p := Reading(rows, |rows|, read)];
  }

  lemma BatchEnds(s: State, p: Pid, rows: seq<Jid>, entries: set<Rid>, sid: Sid)
    requires p in s.procs && s.procs[p] == Reading(rows, |rows|, entries) && RowsKnown(s, rows) && sid !in s.signals
    ensures var t := Run(s, [StoreBatch(p), StoreBatch(p), Emit(p, sid)] + CloseJobs(p, |rows| + 1));
      && JobsClosed(s.jobs, t.jobs, rows)
      && t.signals == (if entries == {} then s.signals else s.signals[sid := Signal(entries, false)])
      && t == s.(jobs := t.jobs, signals := t.signals, procs := s.procs - {p})
  {
    var mid, close := [StoreBatch(p), StoreBatch(p), Emit(p, sid)], CloseJobs(p, |rows| + 1);
    RunThen(s, mid, close);
    StoreAndEmit(s, p, rows, entries, sid);
    JobsClose(Run(s, mid), p, rows, 0);
    assert rows[0..] == rows && s.procs[p := Closing(rows, 0)] - {p} == s.procs - {p};
  }

  /** A batch that nothing stops takes its jobs out of the intake, and puts the
      entries it could read, all of them and no others, into one new signal. */
  lemma BatchHandsOn(s: State, p: Pid, rows: seq<Jid>, readable: seq<bool>, sid: Sid)
    requires p !in s.procs && (forall j :: j in rows ==> Pending(s, j)) && |rows| == |readable| && sid !in s.signals
    ensures var t, read := Run(s, Batch(p, rows, readable, sid)), Found(s, rows, readable, true);
      && JobsClosed(s.jobs, t.jobs, rows)
      && t.signals == (if read == {} then s.signals else s.signals[sid := Signal(read, false)])
      && t.unreadable == s.unreadable + Found(s, rows, readable, false)
      && t.procs == s.procs && t.entered == s.entered && t.accepted == s.accepted
  {
    var looks, rest := LookUps(p, readable), [StoreBatch(p), StoreBatch(p), Emit(p, sid)] + CloseJobs(p, |rows| + 1);
    var a := Next(s, TakeRows(p, rows));
    assert Batch(p, rows, readable, sid)[1..] == looks + rest;
    RunThen(a, looks, rest);
    BatchLooksUp(s, p, rows, readable);
    var b := Run(a, looks);
    BatchEnds(b, p, rows, Found(s, rows, readable, true), sid);
    assert b.procs - {p} == s.procs;
  }

  function Acks(p: Pid, n: nat): (es: seq<Event>) { if n == 0 then [] else [Ack(p)] + Acks(p, n - 1) }

  ghost predicate AllDelivered(was: map<Sid, Signal>, now: map<Sid, Signal>, sids: seq<Sid>) {
    now.Keys == was.Keys && forall x :: x in was ==> now[x] == if x in sids then was[x].(delivered := true) else was[x]
  }

  lemma OneDeliveredFirst(was: map<Sid, Signal>, mid: map<Sid, Signal>, now: map<Sid, Signal>, x: Sid, sids: seq<Sid>)
    requires x in was && mid == was[x := was[x].(delivered := true)] && AllDelivered(mid, now, sids)
    ensures AllDelivered(was, now, [x] + sids)
  {
  }

  ghost predicate AckedBy(s: State, t: State, p: Pid, sids: seq<Sid>) {
    AllDelivered(s.signals, t.signals, sids) && t == s.(signals := t.signals, procs := s.procs - {p})
  }

  lemma AckedByMore(s: State, mid: State, t: State, p: Pid, x: Sid, sids: seq<Sid>)
    requires x in s.signals && mid.signals == s.signals[x := s.signals[x].(delivered := true)] && mid.procs - {p} == s.procs - {p}
    requires mid == s.(signals := mid.signals, procs := mid.procs) && AckedBy(mid, t, p, sids)
    ensures AckedBy(s, t, p, [x] + sids)
  {
    OneDeliveredFirst(s.signals, mid.signals, t.signals, x, sids);
  }

  lemma {:induction false} AcksDeliver(s: State, p: Pid, sids: seq<Sid>, i: nat)
    requires p in s.procs && s.procs[p] == Acking(sids, i) && i <= |sids| && forall x :: x in sids ==> x in s.signals
    ensures AckedBy(s, Run(s, Acks(p, |sids| - i + 1)), p, sids[i..])
    decreases |sids| - i
  {
    var mid, rest := Next(s, Ack(p)), Acks(p, |sids| - i);
    RunFirst(s, Ack(p), rest);
    if i < |sids| {
      assert sids[i] in sids && mid.procs - {p} == s.procs - {p};
      AcksDeliver(mid, p, sids, i + 1);
      AckedByMore(s, mid, Run(mid, rest), p, sids[i], sids[i + 1..]);
      assert sids[i..] == [sids[i]] + sids[i + 1..];
    } else {
      assert sids[i..] == [];
    }
  }

  lemma AllAcked(s: State, p: Pid, sids: seq<Sid>)
    requires p in s.procs && s.procs[p] == Acking(sids, 0) && forall x :: x in sids ==> x in s.signals
    ensures AckedBy(s, Run(s, Acks(p, |sids| + 1)), p, sids)
  {
    AcksDeliver(s, p, sids, 0);
    assert sids[0..] == sids;
  }

  function Accepted(s: State, p: Pid, sids: seq<Sid>, entries: set<Rid>): (t: State) {
    Go(s.(accepted := s.accepted + entries), p, Acking(sids, 0))
  }

  lemma FetchAndAccept(s: State, p: Pid, sids: seq<Sid>, es: seq<Event>)
    requires p !in s.procs && forall x :: x in sids ==> x in s.signals && !s.signals[x].delivered
    ensures Run(s, [Fetch(p, sids)] + ([MasterAccepts(p)] + es)) == Run(Accepted(s, p, sids, EntriesOf(s.signals, sids)), es)
  {
    var a := Go(s, p, Prompting(sids, EntriesOf(s.signals, sids)));
    RunFirst(s, Fetch(p, sids), [MasterAccepts(p)] + es);
    RunFirst(a, MasterAccepts(p), es);
    assert a.procs[p := Acking(sids, 0)] == s.procs[p := Acking(sids, 0)];
  }

  /** A prompt with these signals that the master accepts, and nothing stops, has
      told the master of every entry in them and closes them all. */
  lemma PromptHandsOver(s: State, p: Pid, sids: seq<Sid>)
    requires p !in s.procs && forall x :: x in sids ==> x in s.signals && !s.signals[x].delivered
    ensures var t := Run(s, [Fetch(p, sids)] + ([MasterAccepts(p)] + Acks(p, |sids| + 1)));
      && (forall r :: r in t.accepted <==> r in s.accepted || exists x :: x in sids && r in s.signals[x].entries)
      && AllDelivered(s.signals, t.signals, sids)
      && t == s.(signals := t.signals, accepted := t.accepted)
  {
    var a := Accepted(s, p, sids, EntriesOf(s.signals, sids));
    FetchAndAccept(s, p, sids, Acks(p, |sids| + 1));
    AllAcked(a, p, sids);
    assert a.procs - {p} == s.procs;
  }

  /** An entry enters by a pending job of its own, made for it or already there;
      a stop takes nothing with it but what was under way. */
  lemma HowEntriesEnter(s: State, e: Event, rid: Rid)
    ensures rid in Next(s, e).entered <==>
      || rid in s.entered || (e.Insert? && e.rid == rid && e.jid !in s.jobs)
      || (e.Reuse? && Pending(s, e.jid) && s.jobs[e.jid].rid == rid)
    ensures e.Insert? && e.jid !in s.jobs ==> Next(s, e).jobs == s.jobs[e.jid := Job(e.rid, false)]
    ensures e.Stop? ==> Next(s, e) == s.(procs := s.procs - {e.p})
  {
  }
}
