/** Queued writes and shares (graph-rag/src/server.js), one step per database
    statement, any number of requests in flight, each free to stop anywhere. */
module PendingWrites {
  import opened Wrappers

  type Id = string
  type Pid = nat

  datatype Kind = Upsert | Grant | Other

  datatype Status = Pending | Waiting | Confirmed | Executing | Approved | Failed | Rejected

  // `after` is the write a share waits on, as its payload says now. The rest is
  // history: what it waited on when queued, how often its effect ran, whether it
  // was rejected or declined while pending, whether the approval of the write it
  // waits on has dealt with it, whether its own approval dealt with the shares
  // waiting on it, and whether somebody who may has said yes to it.
  datatype Row = Row(kind: Kind, status: Status, after: Option<Id>,
                     waitsOn: Option<Id>, ran: nat, dead: bool, handled: bool, resolved: bool, agreed: bool)

  datatype Snap = Snap(id: Id, status: Status)

  // Where a request stands between two statements.
  datatype Pc =
    | Approving(id: Id)
    | Running(id: Id)
    | Ran(id: Id, ok: bool)
    | Resolving(id: Id)
    | Shares(id: Id, todo: seq<Snap>)
    | ShareRan(id: Id, share: Id, ok: bool, todo: seq<Snap>)
    | Rejecting(id: Id)
    | Dropping(id: Id)
    | Confirming(id: Id, seen: Status, seenAfter: Option<Id>)
    | ConfirmRunning(id: Id)
    | ConfirmRan(id: Id, ok: bool)
    | Declining(id: Id)

  datatype State = State(db: map<Id, Row>, procs: map<Pid, Pc>)

  // What happens to one waiting share: not its person's to share, sent to
  // review, or made at once (successfully or not).
  datatype Fate = NotTheirs | ToReview | MadeNow(ok: bool)

  datatype Event =
    | Queue(id: Id, kind: Kind, status: Status, after: Option<Id>)
    | Stop(p: Pid)
    | ReadToApprove(p: Pid, id: Id) | ClaimToApprove(p: Pid) | RunApproved(p: Pid, ok: bool) | RecordApproved(p: Pid)
    | ReadShares(p: Pid, todo: seq<Snap>) | HandleShare(p: Pid, fate: Fate) | RecordShare(p: Pid, lost: bool)
    | ReadToReject(p: Pid, id: Id) | ClaimToReject(p: Pid) | DropShares(p: Pid)
    | ReadToConfirm(p: Pid, id: Id) | ConfirmForReview(p: Pid) | ConfirmWaiting(p: Pid)
    | ClaimToConfirm(p: Pid) | RunConfirmed(p: Pid, ok: bool) | RecordConfirmed(p: Pid)
    | ReadToDecline(p: Pid, id: Id) | Decline(p: Pid)

  // ---- the steps ----

  predicate Idle(s: State, p: Pid) { p !in s.procs }

  function Go(s: State, p: Pid, pc: Pc): (t: State) { s.(procs := s.procs[p := pc]) }

  function End(s: State, p: Pid): (t: State) { s.(procs := s.procs - {p}) }

  function Put(s: State, id: Id, r: Row): (t: State) { s.(db := s.db[id := r]) }

  predicate WaitsOn(r: Row, w: Id) {
    r.kind == Grant && (r.status == Waiting || r.status == Confirmed) && r.after == Some(w)
  }

  // A result set: every row that waits on w, each once, in some order.
  ghost predicate Selects(db: map<Id, Row>, w: Id, todo: seq<Snap>) {
    && (forall i, j :: 0 <= i < j < |todo| ==> todo[i].id != todo[j].id)
    && (forall i :: 0 <= i < |todo| ==> todo[i].id in db && WaitsOn(db[todo[i].id], w) && todo[i].status == db[todo[i].id].status)
    && (forall id :: id in db && WaitsOn(db[id], w) ==> Snap(id, db[id].status) in todo)
  }

  function NewRow(kind: Kind, status: Status, after: Option<Id>): (r: Row) {
    Row(kind, status, after, after, 0, false, false, false, status == Confirmed)
  }

  // A write is queued pending; a share on a write still pending is queued
  // waiting on it (or confirmed, when its person needs no asking).
  predicate MayQueue(s: State, kind: Kind, status: Status, after: Option<Id>) {
    match after
    case None => status == Pending
    case Some(w) => kind == Grant && (status == Waiting || status == Confirmed) && w in s.db && s.db[w].kind == Upsert
  }

  function TurnedDown(r: Row): (t: Row) { r.(status := Rejected, dead := r.dead || r.status == Pending) }

  function Dropped(db: map<Id, Row>, w: Id): (t: map<Id, Row>) {
    map id | id in db :: if WaitsOn(db[id], w) then db[id].(status := Rejected) else db[id]
  }

  ghost function Next(s: State, e: Event): (t: State) {
    match e
    case Queue(id, kind, status, after) =>
      if id !in s.db && MayQueue(s, kind, status, after) then Put(s, id, NewRow(kind, status, after)) else s
    case Stop(p) => End(s, p)
    case ReadToApprove(p, id) =>
      if Idle(s, p) && id in s.db && s.db[id].status == Pending then Go(s, p, Approving(id)) else s
    case ReadToReject(p, id) =>
      if Idle(s, p) && id in s.db && s.db[id].status == Pending then Go(s, p, Rejecting(id)) else s
    case ReadToConfirm(p, id) =>
      if Idle(s, p) && id in s.db && s.db[id].kind == Grant && s.db[id].status in {Pending, Waiting}
      then Go(s, p, Confirming(id, s.db[id].status, s.db[id].after)) else s
    case ReadToDecline(p, id) =>
      if Idle(s, p) && id in s.db && s.db[id].kind == Grant && s.db[id].status in {Pending, Waiting, Confirmed}
      then Go(s, p, Declining(id)) else s
    case _ => if e.p in s.procs && s.procs[e.p].id in s.db then NextOf(s, e, s.procs[e.p], s.db[s.procs[e.p].id]) else s
  }

  // The statements of a request under way; `r` is the row it is about.
  ghost function NextOf(s: State, e: Event, pc: Pc, r: Row): (t: State)
    requires !e.Queue?
  {
    var p := e.p;
    match (e, pc)
    case (ClaimToApprove(_), Approving(id)) =>
      if r.status == Pending then Go(Put(s, id, r.(status := Executing, agreed := true)), p, Running(id)) else End(s, p)
    case (RunApproved(_, ok), Running(id)) =>
      Go(Put(s, id, r.(ran := r.ran + 1)), p, Ran(id, ok))
    case (RecordApproved(_), Ran(id, ok)) =>
      var t := Put(s, id, r.(status := if ok then Approved else Failed));
      if ok && r.kind == Upsert then Go(t, p, Resolving(id)) else End(t, p)
    case (ReadShares(_, todo), Resolving(w)) =>
      if Selects(s.db, w, todo) then Go(Put(s, w, r.(resolved := true)), p, Shares(w, todo)) else s
    case (HandleShare(_, fate), Shares(w, todo)) =>
      if todo == [] then End(s, p)
      else if todo[0].id !in s.db then s
      else
        var share := s.db[todo[0].id];
        var go := (q: State) => Go(q, p, Shares(w, todo[1..]));
        if fate.NotTheirs? then go(Put(s, todo[0].id, share.(status := Failed, handled := true)))
        else if todo[0].status == Confirmed && fate.MadeNow?
        then Go(Put(s, todo[0].id, share.(ran := share.ran + 1)), p, ShareRan(w, todo[0].id, fate.ok, todo[1..]))
        else go(Put(s, todo[0].id, share.(status := Pending, after := None, handled := true)))
    case (RecordShare(_, lost), ShareRan(w, id, ok, todo)) =>
      if id !in s.db then s
      else if !ok && lost then Go(s, p, Shares(w, todo))
      else
        var share := s.db[id];
        Go(Put(s, id, if ok then share.(status := Approved, after := None, handled := true)
                      else share.(status := Failed, handled := true)), p, Shares(w, todo))
    case (ClaimToReject(_), Rejecting(id)) =>
      if r.status != Pending then End(s, p)
      else
        var t := Put(s, id, TurnedDown(r));
        if r.kind == Upsert then Go(t, p, Dropping(id)) else End(t, p)
    case (DropShares(_), Dropping(w)) => End(s.(db := Dropped(s.db, w)), p)
    case (ConfirmForReview(_), Confirming(id, _, after)) =>
      End(if r.status in {Pending, Waiting} then Put(s, id, r.(after := after)) else s, p)
    case (ConfirmWaiting(_), Confirming(id, seen, after)) =>
      if seen != Waiting then s
      else End(if r.status == Waiting then Put(s, id, r.(status := Confirmed, after := after, agreed := true)) else s, p)
    case (ClaimToConfirm(_), Confirming(id, seen, _)) =>
      if seen != Pending then s
      else if r.status == Pending then Go(Put(s, id, r.(status := Executing, agreed := true)), p, ConfirmRunning(id))
      else End(s, p)
    case (RunConfirmed(_, ok), ConfirmRunning(id)) =>
      Go(Put(s, id, r.(ran := r.ran + 1)), p, ConfirmRan(id, ok))
    case (RecordConfirmed(_), ConfirmRan(id, ok)) =>
      End(Put(s, id, r.(status := if ok then Approved else Failed)), p)
    case (Decline(_), Declining(id)) =>
      End(if r.status in {Pending, Waiting, Confirmed} then Put(s, id, TurnedDown(r)) else s, p)
    case _ => s
  }

  ghost function Run(s: State, es: seq<Event>): (t: State)
    decreases |es|
  {
    if es == [] then s else Run(Next(s, es[0]), es[1..])
  }

  const START := State(map[], map[])

  // ---- the invariant ----

  ghost predicate RowOk(db: map<Id, Row>, r: Row) {
    && (r.after == None || r.after == r.waitsOn)
    && (match r.waitsOn
        case Some(w) =>
          && r.kind == Grant && w in db && db[w].kind == Upsert
          && (r.handled || r.ran > 0 ==> db[w].resolved)
          && (!r.handled ==> r.status in {Waiting, Confirmed, Rejected})
        case None => !r.handled && r.status !in {Waiting, Confirmed})
    && r.ran <= 1
    && (r.status == Pending ==> r.ran == 0 && !r.resolved)
    && (r.resolved ==> r.ran == 1 && r.status == Approved)
    && (r.handled ==> r.status !in {Waiting, Confirmed})
    && (r.status in {Confirmed, Executing, Approved} || r.ran > 0 ==> r.agreed)
    && (r.dead ==> r.status == Rejected && r.ran == 0 && (r.waitsOn.Some? ==> r.handled))
  }

  // The write whose outcome a request holds in its hands.
  function Carries(pc: Pc): (id: Option<Id>) {
    if pc.Running? || pc.Ran? || pc.Resolving? || pc.Shares? || pc.ShareRan? || pc.ConfirmRunning? || pc.ConfirmRan?
    then Some(pc.id) else None
  }

  // Shares still to be dealt with: each waits on w, untouched, and once only.
  ghost predicate TodoOk(db: map<Id, Row>, w: Id, todo: seq<Snap>) {
    && (forall i, j :: 0 <= i < j < |todo| ==> todo[i].id != todo[j].id)
    && (forall i :: 0 <= i < |todo| ==> Untouched(db, w, todo[i].id) && (todo[i].status == Confirmed ==> db[todo[i].id].agreed))
  }

  ghost predicate Untouched(db: map<Id, Row>, w: Id, id: Id) {
    id in db && db[id].waitsOn == Some(w) && !db[id].handled && db[id].ran == 0
  }

  ghost predicate PcOk(db: map<Id, Row>, pc: Pc) {
    pc.id in db &&
    var r := db[pc.id];
    match pc
    case Running(_) => r.status == Executing && r.ran == 0 && !r.resolved
    case ConfirmRunning(_) => r.status == Executing && r.ran == 0 && !r.resolved
    case Ran(_, _) => r.status == Executing && r.ran == 1 && !r.resolved
    case ConfirmRan(_, _) => r.status == Executing && r.ran == 1 && !r.resolved
    case Resolving(_) => r.status == Approved && r.ran == 1 && r.kind == Upsert && !r.resolved
    case Shares(w, todo) => r.resolved && TodoOk(db, w, todo)
    case ShareRan(w, id, _, todo) =>
      && r.resolved && TodoOk(db, w, todo)
      && id in db && db[id].waitsOn == Some(w) && !db[id].handled && db[id].ran == 1 && db[id].agreed
      && (forall i :: 0 <= i < |todo| ==> todo[i].id != id)
    case Confirming(_, _, after) => after == None || after == r.waitsOn
    case _ => true
  }

  ghost predicate Apart(procs: map<Pid, Pc>) {
    forall p, q :: p in procs && q in procs && p != q && Carries(procs[p]).Some? ==> Carries(procs[p]) != Carries(procs[q])
  }

  ghost predicate Inv(s: State) {
    && (forall p :: p in s.procs ==> s.procs[p].id in s.db)
    && (forall id {:trigger RowOk(s.db, s.db[id])} :: id in s.db ==> RowOk(s.db, s.db[id]))
    && (forall p {:trigger PcOk(s.db, s.procs[p])} :: p in s.procs ==> PcOk(s.db, s.procs[p]))
    && Apart(s.procs)
  }

  // ---- what a change to one row leaves alone ----

  // Same row but for its status, what its payload says and that it was agreed to.
  ghost predicate SameHistory(a: Row, b: Row) {
    && a.kind == b.kind && a.waitsOn == b.waitsOn && a.ran == b.ran && a.handled == b.handled && a.resolved == b.resolved
    && (a.agreed ==> b.agreed)
  }

  // A request keeps its footing when the rows it does not carry change status.
  lemma StatusFrame(db: map<Id, Row>, db': map<Id, Row>, pc: Pc)
    requires PcOk(db, pc) && db'.Keys == db.Keys
    requires forall x :: x in db ==> SameHistory(db[x], db'[x])
    requires Carries(pc).Some? ==> db'[pc.id].status == db[pc.id].status
    ensures PcOk(db', pc)
  {
    if pc.Shares? || pc.ShareRan? {
      assert forall i :: 0 <= i < |pc.todo| ==> Untouched(db, pc.id, pc.todo[i].id);
      assert TodoOk(db', pc.id, pc.todo);
    }
  }

  // Nor when a row changes that it neither carries nor has still to deal with.
  lemma OtherFrame(db: map<Id, Row>, id: Id, r: Row, pc: Pc)
    requires PcOk(db, pc) && id in db && r.kind == db[id].kind && r.waitsOn == db[id].waitsOn
    requires Carries(pc) != Some(id)
    requires db[id].waitsOn.None? || db[id].handled || Carries(pc) != db[id].waitsOn
    ensures PcOk(db[id := r], pc)
  {
    var db' := db[id := r];
    if pc.Shares? || pc.ShareRan? {
      forall i | 0 <= i < |pc.todo| ensures Untouched(db', pc.id, pc.todo[i].id) {
        assert Untouched(db, pc.id, pc.todo[i].id);
      }
    }
  }

  lemma RowFrame(db: map<Id, Row>, id: Id, r: Row, x: Row)
    requires RowOk(db, x) && id in db && r.kind == db[id].kind && (db[id].resolved ==> r.resolved)
    ensures RowOk(db[id := r], x)
  {
  }

  lemma PutKeeps(s: State, p: Pid, id: Id, r: Row, t: State)
    requires Inv(s) && id in s.db && t.db == s.db[id := r] && (t.procs == s.procs || t.procs == s.procs - {p} || (p in t.procs && t.procs == s.procs[p := t.procs[p]]))
    requires r.kind == s.db[id].kind && (s.db[id].resolved ==> r.resolved) && RowOk(t.db, r)
    requires forall q {:trigger PcOk(t.db, t.procs[q])} :: q in t.procs ==> PcOk(t.db, t.procs[q])
    requires p in t.procs && Carries(t.procs[p]).Some? ==>
      forall q :: q in s.procs && q != p ==> Carries(s.procs[q]) != Carries(t.procs[p])
    ensures Inv(t)
  {
    forall x | x in t.db ensures RowOk(t.db, t.db[x]) {
      if x != id { RowFrame(s.db, id, r, s.db[x]); }
    }
    forall q | q in t.procs ensures t.procs[q].id in t.db { assert PcOk(t.db, t.procs[q]); }
  }

  // A change of status and payload only.
  lemma SetStatusKeeps(s: State, p: Pid, id: Id, r: Row, t: State)
    requires Inv(s) && id in s.db && SameHistory(s.db[id], r) && RowOk(s.db[id := r], r)
    requires t == End(Put(s, id, r), p) || t == Put(s, id, r)
    requires forall q :: q in t.procs ==> Carries(s.procs[q]) != Some(id)
    ensures Inv(t)
  {
    forall q | q in t.procs ensures PcOk(t.db, t.procs[q]) { StatusFrame(s.db, t.db, s.procs[q]); }
    PutKeeps(s, p, id, r, t);
  }

  // Whoever carries a row finds it executing or approved.
  lemma CarriedIsTaken(s: State, id: Id)
    requires Inv(s) && id in s.db && s.db[id].status !in {Executing, Approved}
    ensures forall q :: q in s.procs ==> Carries(s.procs[q]) != Some(id)
  {
    forall q | q in s.procs ensures Carries(s.procs[q]) != Some(id) {
      assert PcOk(s.db, s.procs[q]);
      assert RowOk(s.db, s.db[id]);
    }
  }

  // A claim: the row was pending, so nobody carries it.
  lemma ClaimKeeps(s: State, p: Pid, id: Id, pc: Pc)
    requires Inv(s) && p in s.procs && id in s.db && s.db[id].status == Pending
    requires pc == Running(id) || pc == ConfirmRunning(id)
    ensures Inv(Go(Put(s, id, s.db[id].(status := Executing, agreed := true)), p, pc))
  {
    var r := s.db[id].(status := Executing, agreed := true);
    var t := Go(Put(s, id, r), p, pc);
    CarriedIsTaken(s, id);
    assert RowOk(s.db, s.db[id]);
    RowFrame(s.db, id, r, s.db[id]);
    forall q | q in t.procs ensures PcOk(t.db, t.procs[q]) {
      if q != p { StatusFrame(s.db, t.db, s.procs[q]); }
    }
    PutKeeps(s, p, id, r, t);
  }

  // A step of the request that carries the row: nobody else looks at it.
  lemma CarrierKeeps(s: State, p: Pid, r: Row, t: State)
    requires Inv(s) && p in s.procs && Carries(s.procs[p]).Some?
    requires var id := s.procs[p].id;
      && t.db == s.db[id := r] && r.kind == s.db[id].kind && r.waitsOn == s.db[id].waitsOn
      && (s.db[id].resolved ==> r.resolved) && RowOk(t.db, r)
      && (s.db[id].waitsOn.None? || s.db[id].handled)
      && (t.procs == s.procs - {p} || (p in t.procs && t.procs == s.procs[p := t.procs[p]] && PcOk(t.db, t.procs[p])
            && (Carries(t.procs[p]).Some? ==> Carries(t.procs[p]) == Some(id))))
    ensures Inv(t)
  {
    var id := s.procs[p].id;
    forall q | q in t.procs ensures PcOk(t.db, t.procs[q]) {
      if q != p { OtherFrame(s.db, id, r, s.procs[q]); }
    }
    PutKeeps(s, p, id, r, t);
  }

  // A step on a share by the request resolving the write it waits on.
  lemma SharerKeeps(s: State, p: Pid, share: Id, r: Row, pc: Pc, t: State)
    requires Inv(s) && p in s.procs && Carries(s.procs[p]).Some? && share in s.db
    requires s.db[share].waitsOn == Carries(s.procs[p]) && !s.db[share].handled
    requires t == Go(Put(s, share, r), p, pc) && Carries(pc) == Carries(s.procs[p])
    requires r.kind == s.db[share].kind && r.waitsOn == s.db[share].waitsOn && (s.db[share].resolved ==> r.resolved)
    requires RowOk(t.db, r) && PcOk(t.db, pc)
    ensures Inv(t)
  {
    assert RowOk(s.db, s.db[share]);
    CarriedIsTaken(s, share);
    forall q | q in t.procs ensures PcOk(t.db, t.procs[q]) {
      if q != p { OtherFrame(s.db, share, r, s.procs[q]); }
    }
    PutKeeps(s, p, share, r, t);
  }

  // ---- each kind of step ----

  lemma EndKeeps(s: State, p: Pid)
    requires Inv(s)
    ensures Inv(End(s, p))
  {
  }

  lemma GoKeeps(s: State, p: Pid, pc: Pc)
    requires Inv(s) && PcOk(s.db, pc) && Carries(pc).None?
    ensures Inv(Go(s, p, pc))
  {
  }

  lemma QueueKeeps(s: State, id: Id, kind: Kind, status: Status, after: Option<Id>)
    requires Inv(s) && id !in s.db && MayQueue(s, kind, status, after)
    ensures Inv(Put(s, id, NewRow(kind, status, after)))
  {
    var t := Put(s, id, NewRow(kind, status, after));
    forall x | x in t.db ensures RowOk(t.db, t.db[x]) {
      if x != id { assert RowOk(s.db, s.db[x]); }
    }
    forall q | q in t.procs ensures PcOk(t.db, t.procs[q]) {
      var pc := s.procs[q];
      assert PcOk(s.db, pc);
      if pc.Shares? || pc.ShareRan? {
        forall i | 0 <= i < |pc.todo| ensures Untouched(t.db, pc.id, pc.todo[i].id) {
          assert Untouched(s.db, pc.id, pc.todo[i].id);
        }
      }
    }
  }

  lemma RunKeeps(s: State, p: Pid, id: Id, pc: Pc)
    requires Inv(s) && p in s.procs && (s.procs[p] == Running(id) || s.procs[p] == ConfirmRunning(id))
    requires (pc.Ran? || pc.ConfirmRan?) && pc.id == id
    ensures Inv(Go(Put(s, id, s.db[id].(ran := s.db[id].ran + 1)), p, pc))
  {
    assert PcOk(s.db, s.procs[p]);
    var row := s.db[id];
    assert RowOk(s.db, row) && row.ran == 0 && row.status == Executing;
    RunOnce(s, p, id, row, pc);
  }

  lemma RunOnce(s: State, p: Pid, id: Id, row: Row, pc: Pc)
    requires Inv(s) && p in s.procs && Carries(s.procs[p]) == Some(id) && id in s.db && s.db[id] == row
    requires RowOk(s.db, row) && row.ran == 0 && row.status == Executing && !row.resolved
    requires (pc.Ran? || pc.ConfirmRan?) && pc.id == id
    ensures Inv(Go(Put(s, id, row.(ran := row.ran + 1)), p, pc))
  {
    var r := row.(ran := 1);
    var t := Go(Put(s, id, r), p, pc);
    assert PcOk(t.db, pc);
    CarrierKeeps(s, p, r, t);
  }

  lemma RecordKeeps(s: State, p: Pid, status: Status, t: State)
    requires Inv(s) && p in s.procs && (s.procs[p].Ran? || s.procs[p].ConfirmRan?) && status in {Approved, Failed}
    requires var id := s.procs[p].id;
      && var u := Put(s, id, s.db[id].(status := status));
      t == End(u, p) || (t == Go(u, p, Resolving(id)) && status == Approved && s.db[id].kind == Upsert)
    ensures Inv(t)
  {
    var id := s.procs[p].id;
    assert PcOk(s.db, s.procs[p]) && RowOk(s.db, s.db[id]);
    var r := s.db[id].(status := status);
    CarrierKeeps(s, p, r, t);
  }

  lemma SelectedIsUntouched(s: State, w: Id, id: Id)
    requires Inv(s) && w in s.db && s.db[w].kind == Upsert && !s.db[w].resolved && id in s.db && WaitsOn(s.db[id], w)
    ensures Untouched(s.db[w := s.db[w].(resolved := true)], w, id)
    ensures s.db[id].status == Confirmed ==> s.db[w := s.db[w].(resolved := true)][id].agreed
  {
    assert RowOk(s.db, s.db[id]);
  }

  // Before its own approval deals with them, no share of a write was touched.
  lemma ReadSharesKeeps(s: State, p: Pid, todo: seq<Snap>)
    requires Inv(s) && p in s.procs && s.procs[p].Resolving? && Selects(s.db, s.procs[p].id, todo)
    ensures var w := s.procs[p].id; Inv(Go(Put(s, w, s.db[w].(resolved := true)), p, Shares(w, todo)))
  {
    var w := s.procs[p].id;
    assert PcOk(s.db, s.procs[p]) && RowOk(s.db, s.db[w]);
    var r := s.db[w].(resolved := true);
    forall i | 0 <= i < |todo|
      ensures Untouched(s.db[w := r], w, todo[i].id) && (todo[i].status == Confirmed ==> s.db[w := r][todo[i].id].agreed)
    {
      SelectedIsUntouched(s, w, todo[i].id);
    }
    assert PcOk(s.db[w := r], Shares(w, todo));
    CarrierKeeps(s, p, r, Go(Put(s, w, r), p, Shares(w, todo)));
  }

  lemma TodoShrinks(db: map<Id, Row>, w: Id, todo: seq<Snap>, r: Row)
    requires todo != [] && TodoOk(db, w, todo)
    ensures TodoOk(db[todo[0].id := r], w, todo[1..])
    ensures forall i :: 0 <= i < |todo[1..]| ==> todo[1..][i].id != todo[0].id
  {
    forall i | 0 <= i < |todo| - 1 ensures Untouched(db[todo[0].id := r], w, todo[1..][i].id) {
      assert todo[1..][i] == todo[i + 1] && Untouched(db, w, todo[i + 1].id);
    }
  }

  lemma HandleShareKeeps(s: State, p: Pid, fate: Fate)
    requires Inv(s) && p in s.procs && s.procs[p].Shares? && s.procs[p].todo != []
    ensures Inv(Next(s, HandleShare(p, fate)))
  {
    var Shares(w, todo) := s.procs[p];
    assert PcOk(s.db, s.procs[p]);
    assert Untouched(s.db, w, todo[0].id);
    var id := todo[0].id;
    var share := s.db[id];
    assert RowOk(s.db, share) && RowOk(s.db, s.db[w]);
    var r := Next(s, HandleShare(p, fate)).db[id];
    TodoShrinks(s.db, w, todo, r);
    SharerKeeps(s, p, id, r, Next(s, HandleShare(p, fate)).procs[p], Next(s, HandleShare(p, fate)));
  }

  // That a share failed may not be recorded: the loop goes on without.
  lemma LostRecordKeeps(s: State, p: Pid)
    requires Inv(s) && p in s.procs && s.procs[p].ShareRan?
    ensures var pc := s.procs[p]; Inv(Go(s, p, Shares(pc.id, pc.todo)))
  {
    var ShareRan(w, id, ok, todo) := s.procs[p];
    assert PcOk(s.db, s.procs[p]);
    assert RowOk(s.db, s.db[id]) && RowOk(s.db, s.db[w]);
    assert s.db[w := s.db[w]] == s.db;
    CarrierKeeps(s, p, s.db[w], Go(s, p, Shares(w, todo)));
  }

  lemma RecordShareKeeps(s: State, p: Pid)
    requires Inv(s) && p in s.procs && s.procs[p].ShareRan?
    ensures Inv(Next(s, RecordShare(p, false)))
  {
    var ShareRan(w, id, ok, todo) := s.procs[p];
    assert PcOk(s.db, s.procs[p]);
    assert RowOk(s.db, s.db[id]) && RowOk(s.db, s.db[w]);
    var t := Next(s, RecordShare(p, false));
    forall i | 0 <= i < |todo| ensures Untouched(t.db, w, todo[i].id) {
      assert Untouched(s.db, w, todo[i].id);
    }
    SharerKeeps(s, p, id, t.db[id], Shares(w, todo), t);
  }

  // Rejected, by whichever route: nobody carries a row in these states.
  lemma RejectKeeps(s: State, p: Pid, id: Id)
    requires Inv(s) && id in s.db && s.db[id].status in {Pending, Waiting, Confirmed}
    ensures Inv(Put(s, id, TurnedDown(s.db[id]))) && Inv(End(Put(s, id, TurnedDown(s.db[id])), p))
  {
    var r := TurnedDown(s.db[id]);
    assert RowOk(s.db, s.db[id]);
    RowFrame(s.db, id, r, s.db[id]);
    CarriedIsTaken(s, id);
    SetStatusKeeps(s, p, id, r, Put(s, id, r));
    EndKeeps(Put(s, id, r), p);
  }

  lemma RejectAndDropKeeps(s: State, p: Pid, id: Id)
    requires Inv(s) && p in s.procs && id in s.db && s.db[id].status == Pending
    ensures Inv(Go(Put(s, id, TurnedDown(s.db[id])), p, Dropping(id)))
  {
    RejectKeeps(s, p, id);
    GoKeeps(Put(s, id, TurnedDown(s.db[id])), p, Dropping(id));
  }

  lemma DroppedRowOk(db: map<Id, Row>, w: Id, x: Id)
    requires x in db && RowOk(db, db[x])
    ensures RowOk(Dropped(db, w), Dropped(db, w)[x])
  {
  }

  lemma DropLeavesFooting(s: State, w: Id, q: Pid)
    requires Inv(s) && q in s.procs
    ensures PcOk(Dropped(s.db, w), s.procs[q])
  {
    assert PcOk(s.db, s.procs[q]) && RowOk(s.db, s.db[s.procs[q].id]);
    StatusFrame(s.db, Dropped(s.db, w), s.procs[q]);
  }

  lemma DropKeeps(s: State, p: Pid, w: Id)
    requires Inv(s)
    ensures Inv(End(s.(db := Dropped(s.db, w)), p))
  {
    var t := s.(db := Dropped(s.db, w));
    forall x | x in t.db ensures RowOk(t.db, t.db[x]) {
      assert RowOk(s.db, s.db[x]);
      DroppedRowOk(s.db, w, x);
    }
    forall q | q in t.procs ensures PcOk(t.db, t.procs[q]) { DropLeavesFooting(s, w, q); }
    EndKeeps(t, p);
  }

  lemma ConfirmPayloadKeeps(s: State, p: Pid, status: Status)
    requires Inv(s) && p in s.procs && s.procs[p].Confirming?
    requires var r := s.db[s.procs[p].id]; r.status in {Pending, Waiting} && (status == r.status || (r.status == Waiting && status == Confirmed))
    ensures var id := s.procs[p].id;
      Inv(End(Put(s, id, s.db[id].(status := status, after := s.procs[p].seenAfter, agreed := s.db[id].agreed || status == Confirmed)), p))
  {
    var id := s.procs[p].id;
    assert PcOk(s.db, s.procs[p]) && RowOk(s.db, s.db[id]);
    var r := s.db[id].(status := status, after := s.procs[p].seenAfter, agreed := s.db[id].agreed || status == Confirmed);
    RowFrame(s.db, id, r, s.db[id]);
    CarriedIsTaken(s, id);
    SetStatusKeeps(s, p, id, r, End(Put(s, id, r), p));
  }

  predicate ApproverEvent(e: Event) { e.ClaimToApprove? || e.RunApproved? || e.RecordApproved? }

  predicate SharerEvent(e: Event) { e.ReadShares? || e.HandleShare? || e.RecordShare? }

  predicate RejecterEvent(e: Event) { e.ClaimToReject? || e.DropShares? || e.Decline? }

  predicate ConfirmerEvent(e: Event) { e.ClaimToConfirm? || e.RunConfirmed? || e.RecordConfirmed? }

  predicate PayloadEvent(e: Event) { e.ConfirmForReview? || e.ConfirmWaiting? }

  lemma ApproverKeeps(s: State, e: Event)
    requires Inv(s) && ApproverEvent(e) && e.p in s.procs
    ensures Inv(NextOf(s, e, s.procs[e.p], s.db[s.procs[e.p].id]))
  {
    var p := e.p;
    var pc := s.procs[p];
    EndKeeps(s, p);
    match (e, pc)
    case (ClaimToApprove(_), Approving(id)) => if s.db[id].status == Pending { ClaimKeeps(s, p, id, Running(id)); }
    case (RunApproved(_, ok), Running(id)) => RunKeeps(s, p, id, Ran(id, ok));
    case (RecordApproved(_), Ran(id, ok)) =>
      RecordKeeps(s, p, if ok then Approved else Failed, NextOf(s, e, pc, s.db[pc.id]));
    case _ =>
  }

  lemma SharerKeepsAll(s: State, e: Event)
    requires Inv(s) && SharerEvent(e) && e.p in s.procs
    ensures Inv(NextOf(s, e, s.procs[e.p], s.db[s.procs[e.p].id]))
  {
    var p := e.p;
    var pc := s.procs[p];
    EndKeeps(s, p);
    match (e, pc)
    case (ReadShares(_, todo), Resolving(w)) => if Selects(s.db, w, todo) { ReadSharesKeeps(s, p, todo); }
    case (HandleShare(_, fate), Shares(w, todo)) => if todo != [] { HandleShareKeeps(s, p, fate); }
    case (RecordShare(_, lost), ShareRan(_, _, _, _)) =>
      LostRecordKeeps(s, p);
      RecordShareKeeps(s, p);
    case _ =>
  }

  lemma RejecterKeeps(s: State, e: Event)
    requires Inv(s) && RejecterEvent(e) && e.p in s.procs
    ensures Inv(NextOf(s, e, s.procs[e.p], s.db[s.procs[e.p].id]))
  {
    var p := e.p;
    var pc := s.procs[p];
    EndKeeps(s, p);
    match (e, pc)
    case (ClaimToReject(_), Rejecting(id)) =>
      if s.db[id].status == Pending { RejectKeeps(s, p, id); RejectAndDropKeeps(s, p, id); }
    case (DropShares(_), Dropping(w)) => DropKeeps(s, p, w);
    case (Decline(_), Declining(id)) =>
      if s.db[id].status in {Pending, Waiting, Confirmed} { RejectKeeps(s, p, id); }
    case _ =>
  }

  lemma ConfirmerKeeps(s: State, e: Event)
    requires Inv(s) && ConfirmerEvent(e) && e.p in s.procs
    ensures Inv(NextOf(s, e, s.procs[e.p], s.db[s.procs[e.p].id]))
  {
    var p := e.p;
    var pc := s.procs[p];
    EndKeeps(s, p);
    match (e, pc)
    case (ClaimToConfirm(_), Confirming(id, seen, after)) =>
      if s.db[id].status == Pending { ClaimKeeps(s, p, id, ConfirmRunning(id)); }
    case (RunConfirmed(_, ok), ConfirmRunning(id)) => RunKeeps(s, p, id, ConfirmRan(id, ok));
    case (RecordConfirmed(_), ConfirmRan(id, ok)) =>
      RecordKeeps(s, p, if ok then Approved else Failed, NextOf(s, e, pc, s.db[pc.id]));
    case _ =>
  }

  lemma PayloadKeeps(s: State, e: Event)
    requires Inv(s) && PayloadEvent(e) && e.p in s.procs
    ensures Inv(NextOf(s, e, s.procs[e.p], s.db[s.procs[e.p].id]))
  {
    var p := e.p;
    var pc := s.procs[p];
    EndKeeps(s, p);
    match (e, pc)
    case (ConfirmForReview(_), Confirming(id, seen, after)) =>
      if s.db[id].status in {Pending, Waiting} { ConfirmPayloadKeeps(s, p, s.db[id].status); }
    case (ConfirmWaiting(_), Confirming(id, seen, after)) =>
      if s.db[id].status == Waiting { ConfirmPayloadKeeps(s, p, Confirmed); }
    case _ =>
  }

  lemma UnderWayKeeps(s: State, e: Event)
    requires Inv(s) && !e.Queue? && e.p in s.procs
    ensures Inv(NextOf(s, e, s.procs[e.p], s.db[s.procs[e.p].id]))
  {
    if ApproverEvent(e) { ApproverKeeps(s, e); }
    else if SharerEvent(e) { SharerKeepsAll(s, e); }
    else if RejecterEvent(e) { RejecterKeeps(s, e); }
    else if ConfirmerEvent(e) { ConfirmerKeeps(s, e); }
    else if PayloadEvent(e) { PayloadKeeps(s, e); }
  }

  lemma StepKeeps(s: State, e: Event)
    requires Inv(s)
    ensures Inv(Next(s, e))
  {
    match e
    case Queue(id, kind, status, after) =>
      if id !in s.db && MayQueue(s, kind, status, after) { QueueKeeps(s, id, kind, status, after); }
    case Stop(p) => EndKeeps(s, p);
    case ReadToApprove(p, id) => if Idle(s, p) && id in s.db { GoKeeps(s, p, Approving(id)); }
    case ReadToReject(p, id) => if Idle(s, p) && id in s.db { GoKeeps(s, p, Rejecting(id)); }
    case ReadToConfirm(p, id) =>
      if Idle(s, p) && id in s.db {
        assert RowOk(s.db, s.db[id]);
        GoKeeps(s, p, Confirming(id, s.db[id].status, s.db[id].after));
      }
    case ReadToDecline(p, id) => if Idle(s, p) && id in s.db { GoKeeps(s, p, Declining(id)); }
    case _ => if e.p in s.procs { UnderWayKeeps(s, e); }
  }

  lemma {:induction false} RunsKeep(s: State, es: seq<Event>)
    requires Inv(s)
    ensures Inv(Run(s, es))
    decreases |es|
  {
    if es != [] {
      StepKeeps(s, es[0]);
      RunsKeep(Next(s, es[0]), es[1..]);
    }
  }

  // ---- the results ----

  /** However approvals, rejections, confirmations and declines interleave,
      each queued write's effect runs at most once, and never after the write
      was rejected or declined while pending. */
  lemma EachWriteRunsAtMostOnce(es: seq<Event>, id: Id)
    requires id in Run(START, es).db
    ensures var r := Run(START, es).db[id];
      r.ran <= 1 && (r.dead ==> r.ran == 0 && r.status == Rejected) && (r.status == Pending ==> r.ran == 0)
  {
    RunsKeep(START, es);
    assert RowOk(Run(START, es).db, Run(START, es).db[id]);
  }

  /** A share queued on a write runs only once that write itself was approved. */
  lemma SharesFollowTheirWrite(es: seq<Event>, id: Id)
    requires id in Run(START, es).db && Run(START, es).db[id].waitsOn.Some? && Run(START, es).db[id].ran > 0
    ensures var db := Run(START, es).db;
      db[id].waitsOn.value in db && db[db[id].waitsOn.value].ran == 1 && db[db[id].waitsOn.value].status == Approved
  {
    RunsKeep(START, es);
    var db := Run(START, es).db;
    assert RowOk(db, db[id]);
    assert RowOk(db, db[db[id].waitsOn.value]);
  }

  /** And nothing runs that nobody said yes to: a share its person was asked about
      and has not answered is never made. */
  lemma NothingRunsUnasked(es: seq<Event>, id: Id)
    requires id in Run(START, es).db && Run(START, es).db[id].ran > 0
    ensures Run(START, es).db[id].agreed
  {
    RunsKeep(START, es);
    assert RowOk(Run(START, es).db, Run(START, es).db[id]);
  }

  // Saying yes: queueing a share that needs no asking, claiming a pending write
  // to approve or confirm it, and confirming a share that waits.
  predicate SaysYes(s: State, e: Event, id: Id) {
    match e
    case Queue(q, _, status, _) => q == id && status == Confirmed
    case ClaimToApprove(p) => p in s.procs && s.procs[p] == Approving(id)
    case ClaimToConfirm(p) => p in s.procs && s.procs[p].Confirming? && s.procs[p].id == id
    case ConfirmWaiting(p) => p in s.procs && s.procs[p].Confirming? && s.procs[p].id == id
    case _ => false
  }

  /** Only that makes a write agreed to. */
  lemma AgreedComesFromAYes(s: State, e: Event, id: Id)
    requires id in Next(s, e).db && Next(s, e).db[id].agreed
    ensures (id in s.db && s.db[id].agreed) || SaysYes(s, e, id)
  {
  }

  /** A share read as waiting is not made: it becomes an ordinary proposal, or
      fails when it is not its person's to share. One read as confirmed is made
      where shares need no review, and else becomes a proposal too. */
  lemma ShareIsHandledAs(s: State, p: Pid, fate: Fate)
    requires Inv(s) && p in s.procs && s.procs[p].Shares? && s.procs[p].todo != []
    ensures var snap, t := s.procs[p].todo[0], Next(s, HandleShare(p, fate));
      snap.id in s.db && HandledAs(s.db[snap.id], snap.status, fate, t.db[snap.id])
    ensures var snap, t := s.procs[p].todo[0], Next(s, HandleShare(p, fate));
      t.procs == s.procs[p := if fate.MadeNow? && snap.status == Confirmed then ShareRan(s.procs[p].id, snap.id, fate.ok, s.procs[p].todo[1..])
                              else Shares(s.procs[p].id, s.procs[p].todo[1..])]
  {
    assert PcOk(s.db, s.procs[p]);
    assert Untouched(s.db, s.procs[p].id, s.procs[p].todo[0].id);
  }

  predicate HandledAs(was: Row, seen: Status, fate: Fate, now: Row) {
    if fate.NotTheirs? then now == was.(status := Failed, handled := true)
    else if fate.MadeNow? && seen == Confirmed then now == was.(ran := was.ran + 1)
    else now == was.(status := Pending, after := None, handled := true)
  }

  // ---- what each statement does ----

  // A write is queued alone as pending; a share on a queued upsert waits for it,
  // confirmed by its person already or not.
  predicate CanBeQueued(s: State, kind: Kind, status: Status, after: Option<Id>) {
    || (after == None && status == Pending)
    || (kind == Grant && status in {Waiting, Confirmed} && after.Some? && after.value in s.db && s.db[after.value].kind == Upsert)
  }

  /** Queued under a new id, a row has nothing done to it, and nobody's yes but
      its person's; a stop takes nothing but the request under way. */
  lemma QueueStep(s: State, id: Id, kind: Kind, status: Status, after: Option<Id>, p: Pid)
    ensures var t := Next(s, Queue(id, kind, status, after));
      if id in s.db || !CanBeQueued(s, kind, status, after) then t == s
      else
        && t.db.Keys == s.db.Keys + {id} && t.procs == s.procs && (forall i :: i in s.db ==> t.db[i] == s.db[i])
        && t.db[id] == Row(kind, status, after, after, 0, false, false, false, status == Confirmed)
    ensures Next(s, Stop(p)).db == s.db && Next(s, Stop(p)).procs == s.procs - {p}
  {
  }

  /** A request starts on a write it finds in a state that allows it. */
  lemma StartStep(s: State, p: Pid, id: Id)
    requires Idle(s, p) && id in s.db
    ensures var r := s.db[id];
      && Next(s, ReadToApprove(p, id)) == (if r.status == Pending then s.(procs := s.procs[p := Approving(id)]) else s)
      && Next(s, ReadToReject(p, id)) == (if r.status == Pending then Go(s, p, Rejecting(id)) else s)
      && Next(s, ReadToConfirm(p, id)) == (if r.kind == Grant && r.status in {Pending, Waiting} then Go(s, p, Confirming(id, r.status, r.after)) else s)
      && Next(s, ReadToDecline(p, id)) == if r.kind == Grant && r.status in {Pending, Waiting, Confirmed} then Go(s, p, Declining(id)) else s
  {
  }

  /** It takes the write only if that is still pending, and then alone: it is
      executing, or rejected for good. Else the request ends with nothing done. */
  lemma ClaimStep(s: State, p: Pid, id: Id)
    requires p in s.procs && id in s.db
    ensures var r, pc := s.db[id], s.procs[p];
      var taken := Put(s, id, r.(status := Executing, agreed := true));
      && (pc == Approving(id) ==> Next(s, ClaimToApprove(p)) == if r.status == Pending then Go(taken, p, Running(id)) else End(s, p))
      && (pc.Confirming? && pc.id == id && pc.seen == Pending ==>
            Next(s, ClaimToConfirm(p)) == if r.status == Pending then Go(taken, p, ConfirmRunning(id)) else End(s, p))
      && (pc == Rejecting(id) ==>
            var u := Put(s, id, r.(status := Rejected, dead := true));
            Next(s, ClaimToReject(p)) == if r.status != Pending then End(s, p) else if r.kind == Upsert then Go(u, p, Dropping(id)) else End(u, p))
  {
  }

  /** A write taken runs, once, and what came of it is recorded; an approved
      upsert goes on to the shares that wait on it. */
  lemma RunStep(s: State, p: Pid, id: Id, ok: bool)
    requires p in s.procs && id in s.db
    ensures var r := s.db[id].(ran := s.db[id].ran + 1);
      && (s.procs[p] == Running(id) ==> Next(s, RunApproved(p, ok)) == Go(Put(s, id, r), p, Ran(id, ok)))
      && (s.procs[p] == ConfirmRunning(id) ==> Next(s, RunConfirmed(p, ok)) == Go(Put(s, id, r), p, ConfirmRan(id, ok)))
  {
  }

  lemma RecordStep(s: State, p: Pid, id: Id, ok: bool)
    requires p in s.procs && id in s.db
    ensures var t := Put(s, id, s.db[id].(status := if ok then Approved else Failed));
      && (s.procs[p] == Ran(id, ok) ==>
            Next(s, RecordApproved(p)) == if ok && s.db[id].kind == Upsert then Go(t, p, Resolving(id)) else End(t, p))
      && (s.procs[p] == ConfirmRan(id, ok) ==> Next(s, RecordConfirmed(p)) == End(t, p))
  {
  }

  /** A share made is recorded, or that it failed; unless that record is lost. */
  lemma ShareRecordStep(s: State, p: Pid, id: Id, lost: bool)
    requires p in s.procs && s.procs[p].ShareRan? && s.procs[p].id in s.db && id == s.procs[p].share && id in s.db
    ensures var pc, r := s.procs[p], s.db[id];
      Next(s, RecordShare(p, lost)) == Go(if pc.ok then Put(s, id, r.(status := Approved, after := None, handled := true))
                                          else if lost then s else Put(s, id, r.(status := Failed, handled := true)),
                                          p, Shares(pc.id, pc.todo))
  {
  }

  /** A waiting share is confirmed and waits on; sent to review, it stays as it is;
      declined, it is turned down wherever it still waits or is pending. */
  lemma ShareSteps(s: State, p: Pid, id: Id)
    requires p in s.procs && s.procs[p].id == id && id in s.db && (s.procs[p].Confirming? || s.procs[p].Declining?)
    ensures var r, pc := s.db[id], s.procs[p];
      (pc.Confirming? ==> ConfirmSteps(s, p, id, r, pc)) && (pc.Declining? ==> DeclineStep(s, p, id, r))
  {
  }

  ghost predicate ConfirmSteps(s: State, p: Pid, id: Id, r: Row, pc: Pc)
    requires pc.Confirming?
  {
    var yes, review := r.(status := Confirmed, after := pc.seenAfter, agreed := true), r.(after := pc.seenAfter);
    && (pc.seen == Waiting ==> Next(s, ConfirmWaiting(p)) == End(if r.status == Waiting then Put(s, id, yes) else s, p))
    && Next(s, ConfirmForReview(p)) == End(if r.status in {Pending, Waiting} then Put(s, id, review) else s, p)
  }

  ghost predicate DeclineStep(s: State, p: Pid, id: Id, r: Row) {
    var no := r.(status := Rejected, dead := r.dead || r.status == Pending);
    Next(s, Decline(p)) == End(if r.status in {Pending, Waiting, Confirmed} then Put(s, id, no) else s, p)
  }

  /** With a rejected upsert goes every share that waits on it, confirmed or not,
      and nothing else. */
  lemma DroppedAreItsShares(db: map<Id, Row>, w: Id, id: Id)
    requires id in db
    ensures Dropped(db, w)[id] ==
      if db[id].kind == Grant && db[id].status in {Waiting, Confirmed} && db[id].after == Some(w) then db[id].(status := Rejected) else db[id]
  {
  }

  // History only grows: a write that is dead stays dead, one that ran has run.
  ghost predicate Grows(a: map<Id, Row>, b: map<Id, Row>) {
    forall id :: id in a ==> id in b && b[id].ran >= a[id].ran && (a[id].dead ==> b[id].dead) && b[id].waitsOn == a[id].waitsOn
  }

  lemma PutGrows(s: State, id: Id, r: Row)
    requires id in s.db && r.ran >= s.db[id].ran && (s.db[id].dead ==> r.dead) && r.waitsOn == s.db[id].waitsOn
    ensures Grows(s.db, Put(s, id, r).db)
  {
  }

  lemma ApproverGrows(s: State, e: Event)
    requires ApproverEvent(e) && e.p in s.procs && s.procs[e.p].id in s.db
    ensures Grows(s.db, NextOf(s, e, s.procs[e.p], s.db[s.procs[e.p].id]).db)
  {
    match (e, s.procs[e.p])
    case (ClaimToApprove(_), Approving(id)) => PutGrows(s, id, s.db[id].(status := Executing, agreed := true));
    case (RunApproved(_, ok), Running(id)) => PutGrows(s, id, s.db[id].(ran := s.db[id].ran + 1));
    case (RecordApproved(_), Ran(id, ok)) => PutGrows(s, id, s.db[id].(status := if ok then Approved else Failed));
    case _ =>
  }

  lemma ReadSharesGrows(s: State, e: Event)
    requires (e.ReadShares? || e.RecordShare?) && e.p in s.procs && s.procs[e.p].id in s.db
    ensures Grows(s.db, NextOf(s, e, s.procs[e.p], s.db[s.procs[e.p].id]).db)
  {
    match (e, s.procs[e.p])
    case (ReadShares(_, todo), Resolving(w)) => PutGrows(s, w, s.db[w].(resolved := true));
    case (RecordShare(_, lost), ShareRan(_, id, ok, _)) =>
      if id in s.db && ok { PutGrows(s, id, s.db[id].(status := Approved, after := None, handled := true)); }
      if id in s.db && !ok { PutGrows(s, id, s.db[id].(status := Failed, handled := true)); }
    case _ =>
  }

  // Whatever becomes of a share.
  lemma ShareGrows(s: State, id: Id)
    requires id in s.db
    ensures var share := s.db[id];
      && Grows(s.db, Put(s, id, share.(status := Failed, handled := true)).db)
      && Grows(s.db, Put(s, id, share.(ran := share.ran + 1)).db)
      && Grows(s.db, Put(s, id, share.(status := Pending, after := None, handled := true)).db)
  {
  }

  lemma HandleShareGrows(s: State, e: Event)
    requires e.HandleShare? && e.p in s.procs && s.procs[e.p].id in s.db
    ensures Grows(s.db, NextOf(s, e, s.procs[e.p], s.db[s.procs[e.p].id]).db)
  {
    match (e, s.procs[e.p])
    case (HandleShare(_, fate), Shares(w, todo)) => if todo != [] && todo[0].id in s.db { ShareGrows(s, todo[0].id); }
    case _ =>
  }

  lemma OthersGrow(s: State, e: Event)
    requires !e.Queue? && !ApproverEvent(e) && !SharerEvent(e) && e.p in s.procs && s.procs[e.p].id in s.db
    ensures Grows(s.db, NextOf(s, e, s.procs[e.p], s.db[s.procs[e.p].id]).db)
  {
  }

  lemma HistoryGrows(s: State, e: Event)
    ensures Grows(s.db, Next(s, e).db)
  {
    if !e.Queue? && e.p in s.procs && s.procs[e.p].id in s.db {
      if ApproverEvent(e) { ApproverGrows(s, e); }
      else if e.HandleShare? { HandleShareGrows(s, e); }
      else if SharerEvent(e) { ReadSharesGrows(s, e); }
      else { OthersGrow(s, e); }
    }
  }

  lemma {:induction false} DeadStaysDead(s: State, es: seq<Event>, id: Id)
    requires Inv(s) && id in s.db && s.db[id].dead
    ensures id in Run(s, es).db && Run(s, es).db[id].dead && Run(s, es).db[id].ran == 0
    decreases |es|
  {
    if es == [] {
      assert RowOk(s.db, s.db[id]);
    } else {
      StepKeeps(s, es[0]);
      HistoryGrows(s, es[0]);
      DeadStaysDead(Next(s, es[0]), es[1..], id);
    }
  }
}
