/** The job table (graph-rag/src/server.js): the rows of the review queue and
    the calls that change them. Levels of work that run on one limited model
    share one counter while threads are handed out. */
module JobTable {
  import opened Wrappers
  import opened Threads

  type JobId = string

  // What the workspace says of one limited model: the levels that run on it,
  // and how many more threads it takes.
  datatype Group = Group(levels: seq<int>, room: int)

  const MAX_GROUPS: nat := 8

  // One thread handed out.
  datatype Handed = Handed(job: JobId, level: int, message: Option<Msg>)

  class Counter {
    var left: nat

    constructor (left: nat)
      ensures this.left == left
    {
      this.left := left;
    }
  }

  function Room(g: Group): (r: nat) { if g.room > 0 then g.room else 0 }

  // The group whose counter a level uses: the last of the first eight to list it.
  function Owner(groups: seq<Group>, l: int, n: nat): (g: Option<nat>)
    requires n <= |groups|
    ensures g.Some? ==> g.value < n && l in groups[g.value].levels && 0 <= l <= 3
    ensures g.None? ==> !(0 <= l <= 3) || forall i :: 0 <= i < n ==> l !in groups[i].levels
  {
    if n == 0 || !(0 <= l <= 3) then None
    else if l in groups[n - 1].levels then Some(n - 1)
    else Owner(groups, l, n - 1)
  }

  function GroupsUsed(groups: seq<Group>): (n: nat)
    ensures n <= |groups| && n <= 8 && (n == |groups| || n == 8)
  {
    if |groups| > MAX_GROUPS then MAX_GROUPS else |groups|
  }

  function OwnerOf(groups: seq<Group>, l: int): (g: Option<nat>) { Owner(groups, l, GroupsUsed(groups)) }

  // How many of these threads use the counter of group g.
  function HandedTo(out: seq<Handed>, groups: seq<Group>, g: nat): (n: nat) {
    if out == [] then 0
    else HandedTo(out[..|out| - 1], groups, g) + if OwnerOf(groups, out[|out| - 1].level) == Some(g) then 1 else 0
  }

  lemma HandedToStep(out: seq<Handed>, h: Handed, groups: seq<Group>, g: nat)
    ensures HandedTo(out + [h], groups, g) == HandedTo(out, groups, g) + if OwnerOf(groups, h.level) == Some(g) then 1 else 0
  {
    assert (out + [h])[..|out|] == out;
  }

  // Each level's counter is its group's own: levels of one group share one object.
  ghost predicate Shares(room: map<int, Counter>, counters: seq<Counter>, groups: seq<Group>, n: nat)
    requires n <= |groups|
  {
    && |counters| == n
    && (forall i, j :: 0 <= i < j < n ==> counters[i] != counters[j])
    && (forall l :: l in room <==> Owner(groups, l, n).Some?)
    && (forall l :: l in room ==> room[l] == counters[Owner(groups, l, n).value])
  }

  method LevelRoom(groups: seq<Group>) returns (room: map<int, Counter>, ghost counters: seq<Counter>)
    ensures Shares(room, counters, groups, GroupsUsed(groups))
    ensures forall i :: 0 <= i < |counters| ==> fresh(counters[i]) && counters[i].left == Room(groups[i])
  {
    room := map[];
    counters := [];
    for i := 0 to GroupsUsed(groups)
      invariant Shares(room, counters, groups, i)
      invariant forall k :: 0 <= k < i ==> fresh(counters[k]) && counters[k].left == Room(groups[k])
    {
      var counter := new Counter(Room(groups[i]));
      var levels := groups[i].levels;
      ghost var before := room;
      for j := 0 to |levels|
        invariant forall l :: l in room <==> l in before || (0 <= l <= 3 && l in levels[..j])
        invariant forall l :: l in room ==> room[l] == if 0 <= l <= 3 && l in levels[..j] then counter else before[l]
      {
        if 0 <= levels[j] <= 3 { room := room[levels[j] := counter]; }
        assert levels[..j + 1] == levels[..j] + [levels[j]];
      }
      assert levels[..|levels|] == levels;
      counters := counters + [counter];
    }
  }

  lemma NoCounters(room: map<int, Counter>, counters: seq<Counter>, groups: seq<Group>)
    requires Shares(room, counters, groups, GroupsUsed(groups))
    ensures |room| == 0 <==> NoneLimited(groups)
  {
    if |room| == 0 {
      assert room == map[];
      forall l ensures OwnerOf(groups, l).None? { assert l !in room; }
    }
    if NoneLimited(groups) {
      forall l ensures l !in room { assert OwnerOf(groups, l).None?; }
      assert room == map[];
    }
  }

  function TakenRow(r: Row, gone: bool): (t: Row) { if gone then EntryGone(Claimed(r)) else Claimed(r) }

  function JobsOf(taken: seq<Handed>): (ids: set<JobId>) { set h | h in taken :: h.job }

  function JobsIn(due: seq<JobId>): (ids: set<JobId>) { set id | id in due }

  // The rows once these threads were claimed; one whose entry is gone is done.
  function Rows(was: map<JobId, Row>, taken: set<JobId>, gone: set<JobId>): (jobs: map<JobId, Row>) {
    map id | id in was :: if id in taken then TakenRow(was[id], id in gone) else was[id]
  }

  // The claimed threads whose entry is still there, in order.
  function Present(taken: seq<Handed>, gone: set<JobId>): (out: seq<Handed>)
    ensures |out| <= |taken|
  {
    if taken == [] then []
    else
      var last := taken[|taken| - 1];
      Present(taken[..|taken| - 1], gone) + if last.job in gone then [] else [last]
  }

  lemma PresentStep(taken: seq<Handed>, h: Handed, gone: set<JobId>)
    ensures Present(taken + [h], gone) == Present(taken, gone) + if h.job in gone then [] else [h]
  {
    assert (taken + [h])[..|taken|] == taken;
  }

  lemma {:induction false} PresentUseNoMore(taken: seq<Handed>, groups: seq<Group>, gone: set<JobId>, g: nat)
    ensures HandedTo(Present(taken, gone), groups, g) <= HandedTo(taken, groups, g)
  {
    if taken != [] {
      var most, last := taken[..|taken| - 1], taken[|taken| - 1];
      PresentUseNoMore(most, groups, gone, g);
      if last.job in gone { assert Present(taken, gone) == Present(most, gone); }
      else { HandedToStep(Present(most, gone), last, groups, g); }
    }
  }

  // One claim was won for each of these, from a pending row.
  ghost predicate FairlyTaken(h: Handed, was: map<JobId, Row>) {
    h.job in was && was[h.job].status == Pending && h == Handed(h.job, was[h.job].level, was[h.job].resume)
  }

  // A due thread still pending runs on a limited model that is full.
  ghost predicate Full(r: Row, taken: seq<Handed>, groups: seq<Group>) {
    var g := OwnerOf(groups, r.level);
    r.status == Pending ==> g.Some? && HandedTo(taken, groups, g.value) >= groups[g.value].room
  }

  /** What claiming has done so far: each thread taken was won once, from its
      pending row, and no other row changed. */
  ghost predicate ClaimsHold(taken: seq<Handed>, was: map<JobId, Row>, jobs: map<JobId, Row>, gone: set<JobId>) {
    && jobs == Rows(was, JobsOf(taken), gone)
    && (forall h :: h in taken ==> FairlyTaken(h, was))
    && (forall i, j :: 0 <= i < j < |taken| ==> taken[i].job != taken[j].job)
  }

  ghost predicate AllFull(due: seq<JobId>, jobs: map<JobId, Row>, taken: seq<Handed>, groups: seq<Group>) {
    forall k :: 0 <= k < |due| && due[k] in jobs ==> Full(jobs[due[k]], taken, groups)
  }

  // Each group's counter holds the room its claimed threads have left.
  ghost predicate CountersHold(counters: seq<Counter>, taken: seq<Handed>, groups: seq<Group>)
    requires |counters| == GroupsUsed(groups)
    reads counters
  {
    forall k :: 0 <= k < |counters| ==> counters[k].left + HandedTo(taken, groups, k) == Room(groups[k])
  }

  lemma CountersLeft(counters: seq<Counter>, taken: seq<Handed>, groups: seq<Group>)
    requires |counters| == GroupsUsed(groups) && CountersHold(counters, taken, groups)
    ensures forall g :: 0 <= g < |counters| ==> HandedTo(taken, groups, g) <= Room(groups[g])
  {
    forall g | 0 <= g < |counters| ensures HandedTo(taken, groups, g) <= Room(groups[g]) { assert counters[g].left >= 0; }
  }

  lemma ClaimKeeps(taken: seq<Handed>, was: map<JobId, Row>, jobs: map<JobId, Row>, gone: set<JobId>, h: Handed)
    requires ClaimsHold(taken, was, jobs, gone) && FairlyTaken(h, jobs)
    ensures ClaimsHold(taken + [h], was, jobs[h.job := TakenRow(jobs[h.job], h.job in gone)], gone)
  {
    assert forall i :: 0 <= i < |taken| ==> taken[i] in taken && taken[i].job in JobsOf(taken);
    assert h.job !in JobsOf(taken);
    assert JobsOf(taken + [h]) == JobsOf(taken) + {h.job};
  }

  lemma ClaimKeepsFull(due: seq<JobId>, jobs: map<JobId, Row>, taken: seq<Handed>, groups: seq<Group>, h: Handed, gone: set<JobId>)
    requires AllFull(due, jobs, taken, groups) && FairlyTaken(h, jobs)
    requires var g := OwnerOf(groups, h.level); g.Some? ==> HandedTo(taken, groups, g.value) < Room(groups[g.value])
    ensures AllFull(due + [h.job], jobs[h.job := TakenRow(jobs[h.job], h.job in gone)], taken + [h], groups)
  {
    forall k | 0 <= k < |due| && due[k] in jobs && due[k] != h.job && jobs[due[k]].status == Pending
      ensures Full(jobs[due[k]], taken + [h], groups)
    {
      assert Full(jobs[due[k]], taken, groups);
      HandedToStep(taken, h, groups, OwnerOf(groups, jobs[due[k]].level).value);
    }
  }

  lemma AllFullJoin(due: seq<JobId>, id: JobId, jobs: map<JobId, Row>, taken: seq<Handed>, groups: seq<Group>)
    requires AllFull(due, jobs, taken, groups) && AllFull([id], jobs, taken, groups)
    ensures AllFull(due + [id], jobs, taken, groups)
  {
    assert [id][0] == id;
  }

  lemma JobsOfStep(taken: seq<Handed>, h: Handed)
    ensures JobsOf(taken + [h]) == JobsOf(taken) + {h.job}
  {
  }

  function Least(a: int, b: int): (m: int) { if a < b then a else b }

  // How many threads may be handed out: what was asked for, the pool's size
  // and what is left of the day's budget, whichever is least.
  function Allowed(limit: int, poolSize: int, today: int): (n: nat)
    ensures n > 0 ==> n <= limit && n <= poolSize && n <= today && n in {limit, poolSize, today}
    ensures n == 0 ==> limit <= 0 || poolSize <= 0 || today <= 0
  {
    var n := Least(limit, Least(poolSize, today));
    if n > 0 then n else 0
  }

  // No level that can be asked for runs on a limited model.
  ghost predicate NoneLimited(groups: seq<Group>) { forall l :: OwnerOf(groups, l).None? }

  // How many due threads the queue is asked for: with a limited model it
  // looks past that model's threads, but never past two hundred.
  function Window(room: nat, limited: nat): (n: nat) {
    if limited == 0 then room else if room * 10 < 200 then room * 10 else 200
  }

  class JobTable {
    var jobs: map<JobId, Row>

    constructor ()
      ensures jobs == map[]
    {
      jobs := map[];
    }

    method Finish(id: JobId, ending: Ending, open: nat) returns (found: bool)
      modifies this
      ensures found == (id in old(jobs))
      ensures jobs == if found then old(jobs)[id := Finished(old(jobs)[id], ending, open)] else old(jobs)
    {
      if id !in jobs { return false; }
      var row := jobs[id];
      if ending == Outage && row.outages < MAX_OUTAGE_DEFERRALS {
        jobs := jobs[id := row.(status := Pending, outages := row.outages + 1)];
        return true;
      }
      var failed := ending != Good;
      var attempts := row.attempts + if failed then 1 else 0;
      var outages := if failed then row.outages else 0;
      var queued, next := None, row.next;
      if !failed && row.next != [] {
        queued, next := Some(row.next[0]), row.next[1..];
      }
      var status :=
        if failed then (if attempts >= MAX_ATTEMPTS then Failed else Pending)
        else if queued.Some? then Pending else if open > 0 then Waiting else Done;
      jobs := jobs[id := row.(status := status, attempts := attempts, outages := outages, resume := queued, next := next)];
      return true;
    }

    method ResumeThread(id: JobId, msg: Msg)
      modifies this
      ensures jobs == if id in old(jobs) then old(jobs)[id := Resumed(old(jobs)[id], msg)] else old(jobs)
    {
      if id !in jobs { return; }
      var row := jobs[id];
      if row.status == Running || row.status == Pending {
        jobs := jobs[id := row.(next := LastFive(row.next + [msg]))];
      } else if row.status == Waiting || row.status == Done {
        jobs := jobs[id := row.(resume := Some(msg), status := Pending)];
      }
    }

    /** Two updates over every row whose lease ran out: those on their last
        try fail, then the others go again. */
    method ExpireLeases(late: set<JobId>)
      modifies this
      ensures jobs.Keys == old(jobs).Keys
      ensures forall id :: id in jobs ==> jobs[id] == if id in late then Expired(old(jobs)[id]) else old(jobs)[id]
    {
      jobs := map id | id in jobs ::
        if id in late && jobs[id].status == Running && jobs[id].attempts >= MAX_ATTEMPTS - 1
        then jobs[id].(status := Failed) else jobs[id];
      jobs := map id | id in jobs ::
        if id in late && jobs[id].status == Running
        then jobs[id].(status := Pending, attempts := jobs[id].attempts + 1) else jobs[id];
    }

    method Release(id: JobId) returns (released: bool)
      modifies this
      ensures jobs == if id in old(jobs) then old(jobs)[id := Released(old(jobs)[id])] else old(jobs)
      ensures released == (id in old(jobs) && old(jobs)[id].status == Running)
    {
      released := id in jobs && jobs[id].status == Running;
      if released { jobs := jobs[id := jobs[id].(status := Pending)]; }
    }

    // Claims one due thread, if it is still pending and its model has room.
    method ClaimOne(id: JobId, limited: map<int, Counter>, groups: seq<Group>, gone: set<JobId>, ghost counters: seq<Counter>, ghost taken: seq<Handed>)
      returns (claimed: Option<Handed>)
      requires Shares(limited, counters, groups, GroupsUsed(groups)) && CountersHold(counters, taken, groups)
      modifies this, counters
      ensures claimed.None? ==> jobs == old(jobs) && CountersHold(counters, taken, groups) && AllFull([id], jobs, taken, groups)
      ensures claimed.Some? ==>
        var h := claimed.value;
        && h.job == id && FairlyTaken(h, old(jobs))
        && (var g := OwnerOf(groups, h.level); g.Some? ==> HandedTo(taken, groups, g.value) < Room(groups[g.value]))
        && jobs == old(jobs)[id := TakenRow(old(jobs)[id], id in gone)]
        && CountersHold(counters, taken + [h], groups)
    {
      if id !in jobs { return None; }
      var row := jobs[id];
      if row.level in limited && limited[row.level].left == 0 { return None; }
      if row.status != Pending { return None; }
      jobs := jobs[id := Claimed(row)];
      if row.level in limited { limited[row.level].left := limited[row.level].left - 1; }
      if id in gone { jobs := jobs[id := EntryGone(jobs[id])]; }
      ghost var h := Handed(id, row.level, row.resume);
      forall k | 0 <= k < |counters| ensures counters[k].left + HandedTo(taken + [h], groups, k) == Room(groups[k]) {
        HandedToStep(taken, h, groups, k);
      }
      return Some(Handed(id, row.level, row.resume));
    }

    // Goes down the due threads until the room is used up.
    method ClaimDue(due: seq<JobId>, room: nat, limited: map<int, Counter>, groups: seq<Group>, gone: set<JobId>, ghost counters: seq<Counter>)
      returns (out: seq<Handed>, ghost taken: seq<Handed>)
      requires Shares(limited, counters, groups, GroupsUsed(groups)) && CountersHold(counters, [], groups)
      modifies this, counters
      ensures out == Present(taken, gone) && |out| <= room
      ensures ClaimsHold(taken, old(jobs), jobs, gone) && JobsOf(taken) <= JobsIn(due)
      ensures CountersHold(counters, taken, groups)
      ensures |out| == room || AllFull(due, jobs, taken, groups)
    {
      out, taken := [], [];
      ghost var was := jobs;
      assert Rows(jobs, JobsOf([]), gone) == jobs;
      for i := 0 to |due|
        invariant |out| <= room && out == Present(taken, gone)
        invariant CountersHold(counters, taken, groups)
        invariant ClaimsHold(taken, was, jobs, gone) && JobsOf(taken) <= JobsIn(due)
        invariant AllFull(due[..i], jobs, taken, groups)
      {
        if |out| >= room { return; }
        ghost var before := jobs;
        var claimed := ClaimOne(due[i], limited, groups, gone, counters, taken);
        assert due[..i + 1] == due[..i] + [due[i]];
        if claimed.Some? {
          var h := claimed.value;
          ClaimKeeps(taken, was, before, gone, h);
          ClaimKeepsFull(due[..i], before, taken, groups, h, gone);
          PresentStep(taken, h, gone);
          JobsOfStep(taken, h);
          taken := taken + [h];
          if h.job !in gone { out := out + [h]; }
        } else {
          AllFullJoin(due[..i], due[i], jobs, taken, groups);
        }
      }
      assert due[..|due|] == due;
    }

    /** Hands out threads that are due, in order: each at most once, no more
        than asked for, and on a limited model no more than it has room for,
        whichever of its levels they are on. With places left over, one looked
        at is passed over only when its model is full. `ready` is every due
        thread; `gone` those whose entry is no longer there. */
    method ClaimThreads(limit: int, poolSize: int, today: int, groups: seq<Group>, ready: seq<JobId>, gone: set<JobId>)
      returns (out: seq<Handed>, ghost taken: seq<Handed>, ghost looked: nat)
      modifies this
      ensures out == Present(taken, gone) && |out| <= Allowed(limit, poolSize, today)
      ensures ClaimsHold(taken, old(jobs), jobs, gone) && JobsOf(taken) <= JobsIn(ready)
      ensures forall g :: 0 <= g < GroupsUsed(groups) ==> HandedTo(out, groups, g) <= HandedTo(taken, groups, g)
      ensures forall g :: 0 <= g < GroupsUsed(groups) && HandedTo(taken, groups, g) > 0 ==> HandedTo(taken, groups, g) <= groups[g].room
      ensures looked <= |ready|
      ensures 0 < Allowed(limit, poolSize, today) && looked < |ready| ==>
        looked == if NoneLimited(groups) then Allowed(limit, poolSize, today) else Least(10 * Allowed(limit, poolSize, today), 200)
      ensures |out| == Allowed(limit, poolSize, today) || AllFull(ready[..looked], jobs, taken, groups)
    {
      out, taken, looked := [], [], 0;
      var room := Allowed(limit, poolSize, today);
      if room == 0 {
        assert Rows(jobs, JobsOf([]), gone) == jobs;
        return;
      }
      var limited, counters := LevelRoom(groups);
      var due := ready[..Least(|ready|, Window(room, |limited|))];
      looked := |due|;
      NoCounters(limited, counters, groups);
      out, taken := ClaimDue(due, room, limited, groups, gone, counters);
      CountersLeft(counters, taken, groups);
      forall g | 0 <= g < GroupsUsed(groups) ensures HandedTo(out, groups, g) <= HandedTo(taken, groups, g) <= Room(groups[g]) {
        PresentUseNoMore(taken, groups, gone, g);
      }
    }
  }
}
