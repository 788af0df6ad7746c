/** One worker thread's row in the job queue (graph-rag/src/server.js): what
    each call makes of it, how queued messages reach it, and how often it may
    end badly. */
module Threads {
  import opened Wrappers

  // A message given to resumeThread, known by when it arrived.
  type Msg = nat

  datatype Status = Pending | Running | Waiting | Done | Failed

  datatype Row = Row(status: Status, attempts: nat, outages: nat, resume: Option<Msg>, next: seq<Msg>, level: int)

  const MAX_OUTAGE_DEFERRALS: nat := 6
  const MAX_ATTEMPTS: nat := 3
  const MAX_QUEUED: nat := 5

  // How a turn ended, as its workspace reports it.
  datatype Ending = Good | Bad | Outage

  function Claimed(r: Row): (t: Row) { r.(status := Running) }

  // The entry the thread is about is gone when it is claimed.
  function EntryGone(r: Row): (t: Row) { r.(status := Done) }

  function Finished(r: Row, ending: Ending, open: nat): (t: Row) {
    if ending == Outage && r.outages < MAX_OUTAGE_DEFERRALS then r.(status := Pending, outages := r.outages + 1)
    else
      var failed := ending != Good;
      var attempts := r.attempts + if failed then 1 else 0;
      var queued := if !failed && r.next != [] then Some(r.next[0]) else None;
      r.(status := if failed then (if attempts >= MAX_ATTEMPTS then Failed else Pending)
                   else if queued.Some? then Pending else if open > 0 then Waiting else Done,
         attempts := attempts,
         outages := if failed then r.outages else 0,
         resume := queued,
         next := if queued.Some? then r.next[1..] else r.next)
  }

  function LastFive(q: seq<Msg>): (t: seq<Msg>) { if |q| > MAX_QUEUED then q[|q| - MAX_QUEUED..] else q }

  function Resumed(r: Row, msg: Msg): (t: Row) {
    if r.status == Running || r.status == Pending then r.(next := LastFive(r.next + [msg]))
    else if r.status == Waiting || r.status == Done then r.(resume := Some(msg), status := Pending)
    else r
  }

  // Its lease ran out: its workspace went quiet.
  function Expired(r: Row): (t: Row) {
    if r.status != Running then r
    else if r.attempts >= MAX_ATTEMPTS - 1 then r.(status := Failed)
    else r.(status := Pending, attempts := r.attempts + 1)
  }

  function Released(r: Row): (t: Row) { if r.status == Running then r.(status := Pending) else r }

  function Dismissed(r: Row): (t: Row) { if r.status == Waiting then r.(status := Done) else r }

  // ---- a thread's life ----

  datatype Event =
    | Claim(gone: bool)
    | Finish(ending: Ending, open: nat)
    | Resume
    | Expire
    | Release
    | Dismiss

  // `turns` is what each claimed turn was handed; `given` how many messages
  // came; `badEnds` and `deferrals` how its turns ended.
  datatype Life = Life(row: Row, given: nat, turns: seq<Option<Msg>>, badEnds: nat, deferrals: nat)

  // Only the run that holds the thread reports on it; each call is one step.
  function Next(l: Life, e: Event): (t: Life) {
    var r := l.row;
    match e
    case Claim(gone) =>
      if r.status != Pending then l
      else if gone then l.(row := EntryGone(r))
      else l.(row := Claimed(r), turns := l.turns + [r.resume])
    case Finish(ending, open) =>
      if r.status != Running then l
      else
        var deferred := ending == Outage && r.outages < MAX_OUTAGE_DEFERRALS;
        l.(row := Finished(r, ending, open),
           badEnds := l.badEnds + (if ending != Good && !deferred then 1 else 0),
           deferrals := if ending == Good then 0 else l.deferrals + if deferred then 1 else 0)
    case Resume => l.(row := Resumed(r, l.given), given := l.given + 1)
    case Expire =>
      if r.status != Running then l else l.(row := Expired(r), badEnds := l.badEnds + 1)
    case Release => l.(row := Released(r))
    case Dismiss => l.(row := Dismissed(r))
  }

  function Run(l: Life, es: seq<Event>): (t: Life)
    decreases |es|
  {
    if es == [] then l else Run(Next(l, es[0]), es[1..])
  }

  function Born(level: int): (l: Life) { Life(Row(Pending, 0, 0, None, [], level), 0, [], 0, 0) }

  // A good end, one put off for an outage, and one that counts as a try.
  predicate EndsWell(e: Event) { e.Finish? && e.ending == Good }

  predicate PutOff(r: Row, e: Event) { e.Finish? && e.ending == Outage && r.outages < 6 }

  predicate Counts(r: Row, e: Event) { e.Expire? || (e.Finish? && e.ending != Good && !PutOff(r, e)) }

  /** Every way a thread's status changes: which call takes it where, from what. */
  lemma HowAThreadMoves(l: Life, e: Event)
    ensures var r, to := l.row, Next(l, e).row.status;
      to != r.status ==>
        && (to == Running <==> r.status == Pending && e == Claim(false))
        && (to == Failed <==> r.status == Running && Counts(r, e) && r.attempts >= 2)
        && (to == Waiting <==> r.status == Running && EndsWell(e) && r.next == [] && e.open > 0)
        && (to == Done <==> (r.status == Running && EndsWell(e) && r.next == [] && e.open == 0)
                            || (r.status == Pending && e == Claim(true)) || (r.status == Waiting && e == Dismiss))
        && (to == Pending <==> (r.status == Running && (e == Release || PutOff(r, e) || (Counts(r, e) && r.attempts < 2) || (EndsWell(e) && r.next != [])))
                               || (r.status in {Waiting, Done} && e == Resume))
    ensures var r, to := l.row, Next(l, e).row.status;
      to == r.status ==>
        match r.status
        case Pending => !e.Claim?
        case Running => !e.Finish? && !e.Expire? && !e.Release?
        case Waiting => e != Resume && e != Dismiss
        case Done => e != Resume
        case Failed => true
  {
  }

  /** And the count of tries and of outages goes up by one with each bad end of
      its kind; only a good end forgets the outages. */
  lemma HowTriesAreCounted(l: Life, e: Event)
    requires l.row.status == Running
    ensures var r, t := l.row, Next(l, e).row;
      && (t.attempts == r.attempts + 1 <==> Counts(r, e) && !(e.Expire? && r.attempts >= 2))
      && (t.attempts == r.attempts || t.attempts == r.attempts + 1)
      && t.outages == if EndsWell(e) then 0 else if PutOff(r, e) then r.outages + 1 else r.outages
  {
  }

  // ---- messages ----

  function Upto(n: nat): (ms: seq<Msg>) { seq(n, i => i) }

  // The messages in the order they were first handed to a turn.
  function Firsts(turns: seq<Option<Msg>>): (ms: seq<Msg>) {
    if turns == [] then []
    else
      var before := Firsts(turns[..|turns| - 1]);
      var last := turns[|turns| - 1];
      if last.Some? && last.value !in before then before + [last.value] else before
  }

  // The message waiting in `resume`, unless a turn already had it.
  function Undelivered(l: Life): (ms: seq<Msg>) {
    if l.row.resume.Some? && l.row.resume.value !in Firsts(l.turns) then [l.row.resume.value] else []
  }

  /** Nothing given is lost or overtaken: what turns were first handed, then
      what waits to be handed, is exactly what came, in the order it came. */
  ghost predicate InOrder(l: Life) {
    && Firsts(l.turns) + Undelivered(l) + l.row.next == Upto(l.given)
    && (l.row.status == Running ==> Undelivered(l) == [])
    && (l.row.status in {Waiting, Done} ==> Undelivered(l) == [] && l.row.next == [])
  }

  /** What a call must find for nothing to be lost or overtaken: no message
      waits for a thread claimed when its entry is gone; no message comes to a
      failed thread, nor while five wait behind a turn. */
  predicate Harmless(l: Life, e: Event) {
    match e
    case Claim(gone) => gone && l.row.status == Pending ==> Undelivered(l) == [] && l.row.next == []
    case Resume => l.row.status != Failed && (l.row.status in {Running, Pending} ==> |l.row.next| < 5)
    case _ => true
  }

  ghost predicate AllHarmless(l: Life, es: seq<Event>)
    decreases |es|
  {
    es != [] ==> Harmless(l, es[0]) && AllHarmless(Next(l, es[0]), es[1..])
  }

  lemma ResumeKeepsOrder(l: Life)
    requires InOrder(l) && Harmless(l, Resume)
    ensures InOrder(Next(l, Resume))
  {
    var r := l.row;
    if r.status == Running || r.status == Pending {
      assert Firsts(l.turns) + Undelivered(l) + (r.next + [l.given]) == Firsts(l.turns) + Undelivered(l) + r.next + [l.given];
    } else {
      assert Firsts(l.turns) == Upto(l.given);
      assert Undelivered(Next(l, Resume)) == [l.given];
    }
  }

  lemma FinishKeepsOrder(l: Life, ending: Ending, open: nat)
    requires InOrder(l) && l.row.status == Running
    ensures InOrder(Next(l, Finish(ending, open)))
  {
    if ending == Good && l.row.next != [] {
      NextIsNew(l);
      assert l.row.next == [l.row.next[0]] + l.row.next[1..];
    }
  }

  // Every message is accounted for, so one left out shows in the length.
  lemma OneIsMissing(l: Life)
    requires InOrder(l) && (l.row.status == Failed || (l.row.status in {Running, Pending} && |l.row.next| >= 5))
    ensures !InOrder(Next(l, Resume))
  {
    var t := Next(l, Resume);
    assert |Firsts(l.turns) + Undelivered(l) + l.row.next| == l.given;
    assert |Firsts(t.turns) + Undelivered(t) + t.row.next| <= |Firsts(l.turns) + Undelivered(l) + l.row.next|;
    assert |Upto(t.given)| == l.given + 1;
  }

  /** Exactly the harmless calls keep what was delivered, then what waits,
      equal to what came, in order. */
  lemma StepKeepsOrder(l: Life, e: Event)
    requires InOrder(l)
    ensures InOrder(Next(l, e)) <==> Harmless(l, e)
  {
    match e
    case Resume => if Harmless(l, Resume) { ResumeKeepsOrder(l); } else { OneIsMissing(l); }
    case Finish(ending, open) => if l.row.status == Running { FinishKeepsOrder(l, ending, open); }
    case _ =>
  }

  lemma NextIsNew(l: Life)
    requires InOrder(l) && Undelivered(l) == [] && l.row.next != []
    ensures l.row.next[0] !in Firsts(l.turns)
  {
    var f := Firsts(l.turns);
    var all := f + l.row.next;
    assert all == f + Undelivered(l) + l.row.next == Upto(l.given);
    assert all[|f|] == |f| == l.row.next[0];
    assert forall i :: 0 <= i < |f| ==> f[i] == all[i] == i;
  }

  // What order asks for holds after every call.
  ghost predicate AlwaysInOrder(l: Life, es: seq<Event>)
    decreases |es|
  {
    InOrder(l) && (es != [] ==> AlwaysInOrder(Next(l, es[0]), es[1..]))
  }

  lemma {:induction false} RunKeepsOrder(l: Life, es: seq<Event>)
    requires InOrder(l)
    ensures AlwaysInOrder(l, es) <==> AllHarmless(l, es)
    ensures AllHarmless(l, es) ==> InOrder(Run(l, es))
    decreases |es|
  {
    if es != [] {
      StepKeepsOrder(l, es[0]);
      if Harmless(l, es[0]) { RunKeepsOrder(Next(l, es[0]), es[1..]); }
    }
  }

  /** Messages reach the thread in the order they came, none lost, through
      good, failed, put-off, released and expired turns, and a waiting or done
      thread has been handed every message given to it, at all times of a run,
      if and only if every call in it is harmless. */
  lemma MessagesArriveInOrder(level: int, es: seq<Event>)
    ensures AlwaysInOrder(Born(level), es) <==> AllHarmless(Born(level), es)
    ensures AllHarmless(Born(level), es) ==>
      var l := Run(Born(level), es);
      && Firsts(l.turns) + Undelivered(l) + l.row.next == Upto(l.given)
      && (l.row.status in {Waiting, Done} ==> l.row.next == [] && Firsts(l.turns) == Upto(l.given))
  {
    RunKeepsOrder(Born(level), es);
  }

  // Claim and good end, n times over.
  function GoodTurns(n: nat, open: nat): (es: seq<Event>) {
    if n == 0 then [] else [Claim(false), Finish(Good, open)] + GoodTurns(n - 1, open)
  }

  function GoodTurn(l: Life, open: nat): (t: Life) { Next(Next(l, Claim(false)), Finish(Good, open)) }

  lemma GoodTurnKeepsOrder(l: Life, open: nat)
    requires InOrder(l) && l.row.status == Pending
    ensures var t := GoodTurn(l, open);
      && InOrder(t) && t.given == l.given
      && (if l.row.next == [] then t.row.status == (if open > 0 then Waiting else Done)
          else t.row.status == Pending && t.row.next == l.row.next[1..])
  {
    StepKeepsOrder(l, Claim(false));
    StepKeepsOrder(Next(l, Claim(false)), Finish(Good, open));
  }

  lemma RunGoodTurn(l: Life, n: nat, open: nat)
    ensures Run(l, GoodTurns(n + 1, open)) == Run(GoodTurn(l, open), GoodTurns(n, open))
  {
    var es := GoodTurns(n + 1, open);
    assert es[1..][1..] == GoodTurns(n, open);
    assert Run(l, es) == Run(Next(l, es[0]), es[1..]);
  }

  /** A pending thread that keeps ending well is handed everything that waits:
      the first turn takes what it resumes with, each later one a queued message. */
  lemma {:induction false} GoodTurnsDeliverAll(l: Life, open: nat)
    requires InOrder(l) && l.row.status == Pending
    ensures var t := Run(l, GoodTurns(|l.row.next| + 1, open));
      Firsts(t.turns) == Upto(l.given) && t.row.status == (if open > 0 then Waiting else Done)
    decreases |l.row.next|
  {
    GoodTurnKeepsOrder(l, open);
    RunGoodTurn(l, |l.row.next|, open);
    if l.row.next == [] {
      assert GoodTurns(0, open) == [];
    } else {
      GoodTurnsDeliverAll(GoodTurn(l, open), open);
    }
  }

  /** One more message pushes the oldest out exactly when five already wait. */
  lemma QueueHoldsFive(r: Row, msg: Msg)
    requires r.status == Running || r.status == Pending
    ensures r.next + [msg] == Resumed(r, msg).next <==> |r.next| < 5
    ensures |r.next| == 5 ==> Resumed(r, msg).next == r.next[1..] + [msg]
  {
    if |r.next| >= 5 { assert |Resumed(r, msg).next| == 5; }
  }

  /** A pending thread claimed when its entry is gone ends done, having been
      handed everything if and only if nothing was waiting for it. */
  lemma GoneEntryLosesWhatWaits(l: Life)
    requires InOrder(l) && l.row.status == Pending
    ensures var t := Next(l, Claim(true));
      t.row.status == Done && (Firsts(t.turns) == Upto(t.given) <==> Undelivered(l) == [] && l.row.next == [])
  {
    assert |Firsts(l.turns) + Undelivered(l) + l.row.next| == l.given;
    if Undelivered(l) == [] && l.row.next == [] {
      assert Firsts(l.turns) + Undelivered(l) + l.row.next == Firsts(l.turns);
    }
  }

  /** Any message that waits is one of those: the thread ends done without it. */
  lemma GoneEntryLeavesAMessage(l: Life, msg: Msg)
    requires InOrder(l) && l.row.status == Pending && (msg in Undelivered(l) || msg in l.row.next)
    ensures var t := Next(l, Claim(true));
      t.row.status == Done && msg < t.given && msg !in Firsts(t.turns)
  {
    var f := Firsts(l.turns);
    var all := f + Undelivered(l) + l.row.next;
    assert forall k :: 0 <= k < |all| ==> all[k] == k;
    assert forall i :: 0 <= i < |f| ==> all[i] == f[i];
    var later := Undelivered(l) + l.row.next;
    assert msg in later && all == f + later;
    var k :| 0 <= k < |later| && later[k] == msg;
    assert all[|f| + k] == msg == |f| + k;
  }

  // A run that comes to one.
  lemma AMessageComesToWait(level: int)
    ensures var l := Run(Born(level), [Claim(false), Resume, Finish(Good, 0), Claim(true)]);
      l.row.status == Done && l.given == 1 && Firsts(l.turns) == [] && Undelivered(l) == [0]
  {
    var l0 := Born(level);
    var l1 := Next(l0, Claim(false));
    var l2 := Next(l1, Resume);
    var l3 := Next(l2, Finish(Good, 0));
    var l4 := Next(l3, Claim(true));
    assert l4.turns == [None];
    var es := [Claim(false), Resume, Finish(Good, 0), Claim(true)];
    assert es[1..] == [Resume, Finish(Good, 0), Claim(true)];
    assert es[1..][1..] == [Finish(Good, 0), Claim(true)];
    assert es[1..][1..][1..] == [Claim(true)];
    assert Run(l3, [Claim(true)]) == Run(l4, []);
  }

  // ---- tries ----

  /** What the row remembers of how its turns ended. */
  ghost predicate Counted(l: Life) {
    && l.deferrals == l.row.outages && l.row.outages <= MAX_OUTAGE_DEFERRALS
    && (if l.row.status == Failed then l.badEnds == MAX_ATTEMPTS else l.badEnds == l.row.attempts && l.row.attempts < MAX_ATTEMPTS)
  }

  lemma {:induction false} RunKeepsCount(l: Life, es: seq<Event>)
    requires Counted(l)
    ensures Counted(Run(l, es))
    decreases |es|
  {
    if es != [] {
      assert Counted(Next(l, es[0]));
      RunKeepsCount(Next(l, es[0]), es[1..]);
    }
  }

  /** Over its whole life, resumed however often, at most three of a thread's
      turns end in a counted failure or a lost lease, the third for good; and
      since its last good turn at most six were put off for an outage. */
  lemma ThreeBadEndsAtMost(level: int, es: seq<Event>)
    ensures var l := Run(Born(level), es);
      l.badEnds <= 3 && (l.badEnds == 3 <==> l.row.status == Failed) && l.deferrals <= 6
  {
    RunKeepsCount(Born(level), es);
  }

  // (3 - attempts, 6 - outages), compared lexicographically.
  predicate Falls(a: Row, b: Row) {
    b.attempts > a.attempts || (b.attempts == a.attempts && b.outages > a.outages)
  }

  predicate BadEnd(e: Event) { e.Expire? || (e.Finish? && e.ending != Good) }

  /** Every bad end uses up a try or a deferral, except the lost lease that
      ends the thread: that one alone leaves its count where it was. */
  lemma BadEndsUseUpTries(l: Life, e: Event)
    requires Counted(l) && l.row.status == Running && BadEnd(e)
    ensures Falls(l.row, Next(l, e).row) <==> !(e.Expire? && l.row.attempts == 2)
    ensures !Falls(l.row, Next(l, e).row) ==> Next(l, e).row.status == Failed
  {
  }

  /** A failed thread stays failed, whatever comes. */
  lemma {:induction false} FailedIsForGood(l: Life, es: seq<Event>)
    requires l.row.status == Failed
    ensures Run(l, es).row == l.row && Run(l, es).turns == l.turns
    decreases |es|
  {
    if es != [] { FailedIsForGood(Next(l, es[0]), es[1..]); }
  }
}
