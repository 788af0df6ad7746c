/** Requests to an agent process and its stdin queue
    (packages/server/src/agents/pi-process.ts): every send, response, timeout,
    finished write and exit is one step, in any order. */
module PiProcess {
  import opened Wrappers

  // A request's id is "srv-" and this number.
  type Id = nat

  datatype Outcome = Resolved(answer: string) | TimedOut | ProcessGone

  datatype Settlement = Settlement(id: Id, outcome: Outcome)

  // A line for stdin, and how many came before it.
  datatype Item = Item(serial: nat, line: string)

  // `settled` is history: every call that settled a request.
  datatype Requests = Requests(pending: seq<Id>, timers: set<Id>, nextId: Id, settled: seq<Settlement>)

  // `enqueued` and `written` are history: every line queued, every line handed
  // to the transport.
  datatype Stdin = Stdin(queue: seq<Item>, busy: bool, enqueued: seq<string>, written: seq<Item>)

  datatype State = State(reqs: Requests, stdin: Stdin, exited: bool)

  // A line on stdout: a response to a request, or anything else.
  datatype Message = Response(id: Id, answer: string) | Other

  // `writable` is what the transport says when its queue is next looked at.
  datatype Event =
    | Send(line: string, writable: bool)
    | WriteRaw(line: string, writable: bool)
    | Line(msg: Message)
    | Timeout(id: Id)
    | WriteDone(writable: bool)
    | WriteFailed
    | Exit

  // ---- requests ----

  function Without(ids: seq<Id>, id: Id): (r: seq<Id>) {
    if ids == [] then [] else (if ids[0] == id then [] else [ids[0]]) + Without(ids[1..], id)
  }

  function Opened(r: Requests): (t: Requests) {
    r.(pending := r.pending + [r.nextId], timers := r.timers + {r.nextId}, nextId := r.nextId + 1)
  }

  // One pending request settles; its timer is cleared or has fired.
  function SettleOne(r: Requests, id: Id, outcome: Outcome): (t: Requests) {
    r.(pending := Without(r.pending, id), timers := r.timers - {id}, settled := r.settled + [Settlement(id, outcome)])
  }

  function Answered(r: Requests, id: Id, answer: string): (t: Requests) {
    if id in r.pending then SettleOne(r, id, Resolved(answer)) else r
  }

  function Expired(r: Requests, id: Id): (t: Requests) { if id in r.timers then SettleOne(r, id, TimedOut) else r }

  function IdSet(ids: seq<Id>): (s: set<Id>) { set id | id in ids }

  function AllGone(ids: seq<Id>): (ss: seq<Settlement>) {
    if ids == [] then [] else AllGone(ids[..|ids| - 1]) + [Settlement(ids[|ids| - 1], ProcessGone)]
  }

  function Gone(r: Requests): (t: Requests) {
    r.(pending := [], timers := r.timers - IdSet(r.pending), settled := r.settled + AllGone(r.pending))
  }

  // ---- stdin ----

  function Queued(s: Stdin, line: string): (t: Stdin) {
    s.(queue := s.queue + [Item(|s.enqueued|, line)], enqueued := s.enqueued + [line])
  }

  // The queue is looked at: its first line is handed to the transport, or
  // everything in it is dropped when nothing can be written any more.
  function Looked(s: Stdin, exited: bool, writable: bool): (t: Stdin) {
    if s.queue == [] then s.(busy := false)
    else if exited || !writable then s.(queue := [], busy := false)
    else s.(busy := true, written := s.written + [s.queue[0]])
  }

  function Pushed(s: Stdin, line: string, exited: bool, writable: bool): (t: Stdin) {
    if s.busy then Queued(s, line) else Looked(Queued(s, line), exited, writable)
  }

  function Next(s: State, e: Event): (t: State) {
    match e
    case Send(line, writable) =>
      if s.exited then s else State(Opened(s.reqs), Pushed(s.stdin, line, s.exited, writable), s.exited)
    case WriteRaw(line, writable) => s.(stdin := Pushed(s.stdin, line, s.exited, writable))
    case Line(msg) => if msg.Response? then s.(reqs := Answered(s.reqs, msg.id, msg.answer)) else s
    case Timeout(id) => s.(reqs := Expired(s.reqs, id))
    case WriteDone(writable) =>
      if !s.stdin.busy || s.stdin.queue == [] then s
      else s.(stdin := Looked(s.stdin.(queue := s.stdin.queue[1..]), s.exited, writable))
    case WriteFailed => if !s.stdin.busy then s else s.(stdin := s.stdin.(queue := [], busy := false))
    case Exit => if s.exited then s else State(Gone(s.reqs), s.stdin, true)
  }

  function Run(s: State, es: seq<Event>): (t: State)
    decreases |es|
  {
    if es == [] then s else Run(Next(s, es[0]), es[1..])
  }

  const START: State := State(Requests([], {}, 1, []), Stdin([], false, [], []), false)

  // ---- the object ----

  lemma AllGoneStep(ids: seq<Id>, i: nat)
    requires i < |ids|
    ensures AllGone(ids[..i + 1]) == AllGone(ids[..i]) + [Settlement(ids[i], ProcessGone)]
    ensures IdSet(ids[..i + 1]) == IdSet(ids[..i]) + {ids[i]}
  {
    assert ids[..i + 1] == ids[..i] + [ids[i]];
  }

  class PiProcess {
    var pending: seq<Id>
    var timers: set<Id>
    var nextId: Id
    var stdinQueue: seq<Item>
    var stdinBusy: bool
    var exited: bool
    var settled: seq<Settlement>
    var enqueued: seq<string>
    var written: seq<Item>

    function Now(): (s: State)
      reads this
    {
      State(Requests(pending, timers, nextId, settled), Stdin(stdinQueue, stdinBusy, enqueued, written), exited)
    }

    constructor ()
      ensures Now() == START
    {
      pending, timers, nextId, settled := [], {}, 1, [];
      stdinQueue, stdinBusy, enqueued, written := [], false, [], [];
      exited := false;
    }

    // The queue up to the next write it has to wait for.
    method LookAtQueue(writable: bool)
      modifies this
      ensures Now() == old(Now()).(stdin := Looked(old(Now()).stdin, exited, writable))
    {
      stdinBusy := true;
      if stdinQueue == [] {
        stdinBusy := false;
      } else if exited || !writable {
        stdinQueue := [];
        stdinBusy := false;
      } else {
        written := written + [stdinQueue[0]];
      }
    }

    method WriteLine(line: string, writable: bool)
      modifies this
      ensures Now() == old(Now()).(stdin := Pushed(old(Now()).stdin, line, exited, writable))
    {
      stdinQueue := stdinQueue + [Item(|enqueued|, line)];
      enqueued := enqueued + [line];
      if stdinBusy { return; }
      LookAtQueue(writable);
    }

    method Send(line: string, writable: bool) returns (id: Option<Id>)
      modifies this
      ensures Now() == Next(old(Now()), Event.Send(line, writable))
      ensures id == if old(exited) then None else Some(old(nextId))
    {
      if exited { return None; }
      id := Some(nextId);
      pending := pending + [nextId];
      timers := timers + {nextId};
      nextId := nextId + 1;
      WriteLine(line, writable);
    }

    method WriteRaw(line: string, writable: bool)
      modifies this
      ensures Now() == Next(old(Now()), Event.WriteRaw(line, writable))
    {
      WriteLine(line, writable);
    }

    method WriteDone(writable: bool)
      requires stdinBusy && stdinQueue != []
      modifies this
      ensures Now() == Next(old(Now()), Event.WriteDone(writable))
    {
      stdinQueue := stdinQueue[1..];
      LookAtQueue(writable);
    }

    method WriteFailed()
      requires stdinBusy
      modifies this
      ensures Now() == Next(old(Now()), Event.WriteFailed)
    {
      stdinQueue := [];
      stdinBusy := false;
    }

    method HandleLine(msg: Message)
      modifies this
      ensures Now() == Next(old(Now()), Line(msg))
    {
      if msg.Response? && msg.id in pending {
        pending := Without(pending, msg.id);
        timers := timers - {msg.id};
        settled := settled + [Settlement(msg.id, Resolved(msg.answer))];
      }
    }

    method TimerFires(id: Id)
      requires id in timers
      modifies this
      ensures Now() == Next(old(Now()), Timeout(id))
    {
      timers := timers - {id};
      pending := Without(pending, id);
      settled := settled + [Settlement(id, TimedOut)];
    }

    method SetExited()
      modifies this
      ensures Now() == Next(old(Now()), Exit)
    {
      if exited { return; }
      exited := true;
      ghost var was := settled;
      for i := 0 to |pending|
        invariant Now() == old(Now()).(exited := true, reqs := Requests(old(pending), timers, old(nextId), settled))
        invariant timers == old(timers) - IdSet(pending[..i]) && settled == was + AllGone(pending[..i])
      {
        AllGoneStep(pending, i);
        timers := timers - {pending[i]};
        settled := settled + [Settlement(pending[i], ProcessGone)];
      }
      assert pending[..|pending|] == pending;
      pending := [];
    }
  }

  // ---- every request settles once ----

  function SettledIds(r: Requests): (ids: seq<Id>) { seq(|r.settled|, i requires 0 <= i < |r.settled| => r.settled[i].id) }

  predicate Distinct(ids: seq<Id>) { forall i, j :: 0 <= i < j < |ids| ==> ids[i] != ids[j] }

  /** The requests sent so far are those pending, each with its timer, and
      those settled, each once. */
  ghost predicate RequestsOk(r: Requests) {
    && Distinct(r.pending + SettledIds(r))
    && (forall id :: 1 <= id < r.nextId <==> id in r.pending + SettledIds(r))
    && (forall id :: id in r.timers <==> id in r.pending)
    && r.nextId >= 1
  }

  predicate Apart(a: seq<Id>, b: seq<Id>) { forall x :: x in a ==> x !in b }

  lemma DistinctJoin(a: seq<Id>, b: seq<Id>)
    ensures Distinct(a + b) <==> Distinct(a) && Distinct(b) && Apart(a, b)
  {
    if Distinct(a + b) {
      forall i, j | 0 <= i < j < |a| ensures a[i] != a[j] { assert (a + b)[i] != (a + b)[j]; }
      forall i, j | 0 <= i < j < |b| ensures b[i] != b[j] { assert (a + b)[|a| + i] != (a + b)[|a| + j]; }
      forall i, j | 0 <= i < |a| && 0 <= j < |b| ensures a[i] != b[j] { assert (a + b)[i] != (a + b)[|a| + j]; }
    }
    if Distinct(a) && Distinct(b) && Apart(a, b) {
      forall i, j | 0 <= i < j < |a + b| ensures (a + b)[i] != (a + b)[j] {
        if i < |a| <= j { assert a[i] in a; }
      }
    }
  }

  lemma {:induction false} WithoutOne(ids: seq<Id>, id: Id)
    requires Distinct(ids)
    ensures Distinct(Without(ids, id))
    ensures forall x :: x in Without(ids, id) <==> x in ids && x != id
  {
    if ids != [] {
      var first, rest := [ids[0]], ids[1..];
      assert ids == first + rest;
      DistinctJoin(first, rest);
      WithoutOne(rest, id);
      DistinctJoin(first, Without(rest, id));
      assert [] + Without(rest, id) == Without(rest, id);
    }
  }

  lemma OpenedOk(r: Requests)
    requires RequestsOk(r)
    ensures RequestsOk(Opened(r))
  {
    var t, ids := Opened(r), SettledIds(r);
    assert SettledIds(t) == ids;
    DistinctJoin(r.pending, ids);
    assert r.nextId !in r.pending + ids;
    DistinctJoin(r.pending, [r.nextId]);
    DistinctJoin(t.pending, ids);
    forall id ensures 1 <= id < t.nextId <==> id in t.pending + ids {
      assert id in t.pending + ids <==> id in r.pending + ids || id == r.nextId;
    }
  }

  lemma SettleOneOk(r: Requests, id: Id, outcome: Outcome)
    requires RequestsOk(r) && id in r.pending
    ensures RequestsOk(SettleOne(r, id, outcome))
  {
    var t, ids := SettleOne(r, id, outcome), SettledIds(r);
    assert SettledIds(t) == ids + [id];
    DistinctJoin(r.pending, ids);
    WithoutOne(r.pending, id);
    DistinctJoin(ids, [id]);
    DistinctJoin(t.pending, ids + [id]);
    forall x ensures x in t.pending + (ids + [id]) <==> x in r.pending + ids {}
  }

  lemma {:induction false} AllGoneIds(ids: seq<Id>)
    ensures |AllGone(ids)| == |ids| && forall i :: 0 <= i < |ids| ==> AllGone(ids)[i] == Settlement(ids[i], ProcessGone)
  {
    if ids != [] { AllGoneIds(ids[..|ids| - 1]); }
  }

  lemma GoneOk(r: Requests)
    requires RequestsOk(r)
    ensures RequestsOk(Gone(r))
  {
    var t, ids := Gone(r), SettledIds(r);
    AllGoneIds(r.pending);
    assert SettledIds(t) == ids + r.pending;
    DistinctJoin(r.pending, ids);
    DistinctJoin(ids, r.pending);
    assert t.pending + SettledIds(t) == ids + r.pending;
    forall x ensures x in ids + r.pending <==> x in r.pending + ids {}
  }

  lemma {:induction false} RunKeepsRequests(s: State, es: seq<Event>)
    requires RequestsOk(s.reqs) && (s.exited ==> s.reqs.pending == [])
    ensures var t := Run(s, es); RequestsOk(t.reqs) && (t.exited ==> t.reqs.pending == [])
    decreases |es|
  {
    if es != [] {
      match es[0] {
        case Send(_, _) => if !s.exited { OpenedOk(s.reqs); }
        case Line(msg) => if msg.Response? && msg.id in s.reqs.pending { SettleOneOk(s.reqs, msg.id, Resolved(msg.answer)); }
        case Timeout(id) => if id in s.reqs.timers { SettleOneOk(s.reqs, id, TimedOut); }
        case Exit => GoneOk(s.reqs);
        case _ =>
      }
      RunKeepsRequests(Next(s, es[0]), es[1..]);
    }
  }

  /** In every interleaving each request sent settles at most once, is pending
      exactly until it does, and none is pending once the process has exited. */
  lemma EachSettlesOnce(es: seq<Event>)
    ensures var t := Run(START, es);
      && (forall i, j :: 0 <= i < j < |t.reqs.settled| ==> t.reqs.settled[i].id != t.reqs.settled[j].id)
      && (forall id :: 1 <= id < t.reqs.nextId ==> (id in t.reqs.pending <==> id !in SettledIds(t.reqs)))
      && (t.exited ==> t.reqs.pending == [] && t.reqs.timers == {})
  {
    RunKeepsRequests(START, es);
    var r := Run(START, es).reqs;
    var ids := SettledIds(r);
    DistinctJoin(r.pending, ids);
    forall i, j | 0 <= i < j < |r.settled| ensures r.settled[i].id != r.settled[j].id { assert ids[i] != ids[j]; }
    forall id | 1 <= id < r.nextId ensures id in r.pending <==> id !in ids { assert id in r.pending + ids; }
  }

  // ---- what settles a request, and how ----

  /** A pending request settles with its own response's answer, with a timeout
      when its own timer fires, and as gone at the first exit. */
  predicate Settles(s: State, e: Event, id: Id, outcome: Outcome) {
    id in s.reqs.pending &&
    match outcome
    case Resolved(answer) => e == Line(Response(id, answer))
    case TimedOut => e == Timeout(id)
    case ProcessGone => e == Exit && !s.exited
  }

  lemma SettlementAdded(ss: seq<Settlement>, x: Settlement, y: Settlement)
    ensures y in ss + [x] <==> y in ss || y == x
  {
  }

  /** Nothing else settles one, and no request but those is touched. */
  lemma HowRequestsSettle(s: State, e: Event, id: Id, outcome: Outcome)
    requires RequestsOk(s.reqs)
    ensures var t := Next(s, e).reqs;
      && (Settlement(id, outcome) in t.settled <==> Settlement(id, outcome) in s.reqs.settled || Settles(s, e, id, outcome))
      && (id in t.pending <==> (id in s.reqs.pending && !exists o :: Settles(s, e, id, o)) || (e.Send? && !s.exited && id == s.reqs.nextId))
  {
    var r, x := s.reqs, Settlement(id, outcome);
    DistinctJoin(r.pending, SettledIds(r));
    match e {
      case Line(msg) =>
        if msg.Response? && msg.id in r.pending {
          WithoutOne(r.pending, msg.id);
          SettlementAdded(r.settled, Settlement(msg.id, Resolved(msg.answer)), x);
          assert id == msg.id ==> Settles(s, e, id, Resolved(msg.answer));
        }
      case Timeout(late) =>
        if late in r.timers {
          WithoutOne(r.pending, late);
          SettlementAdded(r.settled, Settlement(late, TimedOut), x);
          assert id == late ==> Settles(s, e, id, TimedOut);
        }
      case Exit =>
        if !s.exited {
          AllGoneIds(r.pending);
          assert x in r.settled + AllGone(r.pending) <==> x in r.settled || x in AllGone(r.pending);
          assert id in r.pending ==> Settles(s, e, id, ProcessGone);
          if id in r.pending {
            var i :| 0 <= i < |r.pending| && r.pending[i] == id;
            assert AllGone(r.pending)[i] == Settlement(id, ProcessGone);
          }
        }
      case _ =>
    }
  }

  predicate EverSettles(s: State, es: seq<Event>, id: Id, outcome: Outcome)
    decreases |es|
  {
    es != [] && (Settles(s, es[0], id, outcome) || EverSettles(Next(s, es[0]), es[1..], id, outcome))
  }

  lemma {:induction false} SettledInARun(s: State, es: seq<Event>, id: Id, outcome: Outcome)
    requires RequestsOk(s.reqs) && (s.exited ==> s.reqs.pending == [])
    ensures Settlement(id, outcome) in Run(s, es).reqs.settled <==> Settlement(id, outcome) in s.reqs.settled || EverSettles(s, es, id, outcome)
    decreases |es|
  {
    if es != [] {
      HowRequestsSettle(s, es[0], id, outcome);
      RunKeepsRequests(s, [es[0]]);
      assert [es[0]][1..] == [] && Run(s, [es[0]]) == Next(s, es[0]);
      SettledInARun(Next(s, es[0]), es[1..], id, outcome);
    }
  }

  /** In every run a request has settled with an outcome if and only if, while it
      was pending, what settles it so came about. */
  lemma SettlesAsItShould(es: seq<Event>, id: Id, outcome: Outcome)
    ensures Settlement(id, outcome) in Run(START, es).reqs.settled <==> EverSettles(START, es, id, outcome)
  {
    SettledInARun(START, es, id, outcome);
  }

  // ---- lines reach the transport in order ----

  // The queue is the end of what was queued.
  ghost predicate QueueOk(s: Stdin) {
    && |s.queue| <= |s.enqueued|
    && forall i :: 0 <= i < |s.queue| ==> s.queue[i] == Item(|s.enqueued| - |s.queue| + i, s.enqueued[|s.enqueued| - |s.queue| + i])
  }

  // How many lines are behind the transport: handed over or dropped.
  function Behind(s: Stdin): (n: int) { |s.enqueued| - |s.queue| + if s.busy then 1 else 0 }

  ghost predicate StdinOk(s: Stdin) {
    && QueueOk(s)
    && (s.busy ==> s.queue != [])
    && (forall i :: 0 <= i < |s.written| ==> s.written[i].serial < Behind(s) && s.written[i].line == s.enqueued[s.written[i].serial])
    && (forall i, j :: 0 <= i < j < |s.written| ==> s.written[i].serial < s.written[j].serial)
  }

  lemma LookedOk(s: Stdin, exited: bool, writable: bool)
    requires StdinOk(s.(busy := false))
    ensures StdinOk(Looked(s, exited, writable))
  {
  }

  lemma PushedOk(s: Stdin, line: string, exited: bool, writable: bool)
    requires StdinOk(s)
    ensures StdinOk(Pushed(s, line, exited, writable))
  {
    var t := Queued(s, line);
    assert forall i :: 0 <= i < |s.enqueued| ==> t.enqueued[i] == s.enqueued[i];
    if !s.busy { LookedOk(t, exited, writable); }
  }

  lemma WriteDoneOk(s: Stdin, exited: bool, writable: bool)
    requires StdinOk(s) && s.busy
    ensures StdinOk(Looked(s.(queue := s.queue[1..]), exited, writable))
  {
    LookedOk(s.(queue := s.queue[1..]), exited, writable);
  }

  lemma {:induction false} RunKeepsStdin(s: State, es: seq<Event>)
    requires StdinOk(s.stdin)
    ensures StdinOk(Run(s, es).stdin)
    decreases |es|
  {
    if es != [] {
      match es[0] {
        case Send(line, writable) => PushedOk(s.stdin, line, s.exited, writable);
        case WriteRaw(line, writable) => PushedOk(s.stdin, line, s.exited, writable);
        case WriteDone(writable) => if s.stdin.busy { WriteDoneOk(s.stdin, s.exited, writable); }
        case _ =>
      }
      RunKeepsStdin(Next(s, es[0]), es[1..]);
    }
  }

  /** The transport is handed lines as they were queued, in that order, none of
      them twice. */
  lemma LinesGoOutInOrder(es: seq<Event>)
    ensures var t := Run(START, es).stdin;
      && (forall i :: 0 <= i < |t.written| ==> t.written[i].serial < |t.enqueued| && t.written[i].line == t.enqueued[t.written[i].serial])
      && (forall i, j :: 0 <= i < j < |t.written| ==> t.written[i].serial < t.written[j].serial)
  {
    RunKeepsStdin(START, es);
  }

  predicate Healthy(es: seq<Event>) {
    forall e :: e in es ==> !e.WriteFailed? && !e.Exit? && (e.Send? || e.WriteRaw? || e.WriteDone? ==> e.writable)
  }

  function Items(lines: seq<string>): (items: seq<Item>) { seq(|lines|, i requires 0 <= i < |lines| => Item(i, lines[i])) }

  // The lines that wait behind the one being written.
  function Waiting(s: Stdin): (items: seq<Item>) { if s.busy && s.queue != [] then s.queue[1..] else [] }

  // Handed over, then still to be handed over: everything queued.
  ghost predicate NoneDropped(s: Stdin) {
    && (s.busy <==> s.queue != [])
    && s.written + Waiting(s) == Items(s.enqueued)
    && (s.busy ==> s.written != [] && s.written[|s.written| - 1] == s.queue[0])
  }

  lemma HealthyStepKeeps(s: State, e: Event)
    requires NoneDropped(s.stdin) && !s.exited && Healthy([e])
    ensures NoneDropped(Next(s, e).stdin) && !Next(s, e).exited
  {
    assert [e][0] == e;
    var q := s.stdin;
    match e {
      case Send(line, _) => assert Items(q.enqueued + [line]) == Items(q.enqueued) + [Item(|q.enqueued|, line)];
      case WriteRaw(line, _) => assert Items(q.enqueued + [line]) == Items(q.enqueued) + [Item(|q.enqueued|, line)];
      case WriteDone(_) => if q.busy && q.queue[1..] != [] { assert q.queue[1..] == [q.queue[1]] + q.queue[2..]; }
      case _ =>
    }
  }

  lemma {:induction false} HealthyRunKeeps(s: State, es: seq<Event>)
    requires NoneDropped(s.stdin) && !s.exited && Healthy(es)
    ensures NoneDropped(Run(s, es).stdin)
    decreases |es|
  {
    if es != [] {
      assert es[0] in es;
      HealthyStepKeeps(s, es[0]);
      HealthyRunKeeps(Next(s, es[0]), es[1..]);
    }
  }

  /** While the transport works, no line is dropped: what it was handed is
      exactly the lines queued, up to those that still wait behind a write. */
  lemma NoLineIsDropped(es: seq<Event>)
    requires Healthy(es)
    ensures var t := Run(START, es).stdin; t.written + Waiting(t) == Items(t.enqueued)
  {
    HealthyRunKeeps(START, es);
  }

  /** After the exit nothing more is handed over and no new request is made,
      whatever comes. */
  lemma {:induction false} ExitIsFinal(s: State, es: seq<Event>)
    requires s.exited && s.reqs.pending == [] && s.reqs.timers == {}
    ensures var t := Run(s, es); t.reqs == s.reqs && t.stdin.written == s.stdin.written && t.exited
    decreases |es|
  {
    if es != [] { ExitIsFinal(Next(s, es[0]), es[1..]); }
  }
}
