/** The workspace's thread pool (packages/server/src/agents/graph-pool.ts):
    what a tick asks the queue for, and which threads it lets start. */
module GraphPool {
  import opened Wrappers
  import opened JobTable

  type ModelKey = string

  // The graph worker profile: the model a level's new threads run on where one
  // is named, the model of all others, and the levels' limits.
  datatype Profile = Profile(levelModels: map<int, ModelKey>, fallback: ModelKey, limits: map<int, int>)

  // A thread handed to this workspace; a resumed one keeps its agent's model.
  datatype Thread = Thread(handed: Handed, own: Option<ModelKey>)

  type Active = map<JobId, ModelKey>

  // ---- what each model takes ----

  function LevelModel(p: Profile, l: int): (key: ModelKey) {
    if 1 <= l <= 3 && l in p.levelModels then p.levelModels[l] else p.fallback
  }

  function ThreadModel(p: Profile, t: Thread): (key: ModelKey) {
    if t.own.Some? then t.own.value else LevelModel(p, t.handed.level)
  }

  predicate Limits(p: Profile, l: int, key: ModelKey) {
    l in p.limits && p.limits[l] >= 1 && LevelModel(p, l) == key
  }

  /** Each limited model has the lowest limit among the levels below n that
      run on it; no other model has one. */
  ghost predicate LowestLimits(p: Profile, caps: map<ModelKey, int>, n: int) {
    && (forall key :: key in caps ==> exists l :: 1 <= l < n && Limits(p, l, key) && caps[key] == p.limits[l])
    && (forall l, key :: 1 <= l < n && Limits(p, l, key) ==> key in caps && caps[key] <= p.limits[l])
  }

  lemma OneSetOfLimits(p: Profile, a: map<ModelKey, int>, b: map<ModelKey, int>, n: int)
    requires LowestLimits(p, a, n) && LowestLimits(p, b, n)
    ensures a == b
  {
    forall key ensures key in a <==> key in b {}
    forall key | key in a && key in b ensures a[key] == b[key] {}
  }

  method ModelCaps(p: Profile) returns (caps: map<ModelKey, int>)
    ensures LowestLimits(p, caps, 4)
  {
    caps := map[];
    for l := 1 to 4
      invariant LowestLimits(p, caps, l)
    {
      if l in p.limits && p.limits[l] >= 1 {
        var key := LevelModel(p, l);
        ghost var was := caps;
        caps := caps[key := if key in caps && caps[key] <= p.limits[l] then caps[key] else p.limits[l]];
        assert Limits(p, l, key);
        assert forall k :: k in was && k != key ==> caps[k] == was[k];
      }
    }
  }

  function JobsOn(active: Active, key: ModelKey): (jobs: set<JobId>) { set j | j in active && active[j] == key }

  function BusyOn(active: Active, key: ModelKey): (n: nat) { |JobsOn(active, key)| }

  // ---- what a tick tells the queue ----

  // The levels below n that run on this model.
  ghost predicate LevelsOn(p: Profile, key: ModelKey, levels: seq<int>, n: int) {
    forall l :: l in levels <==> 0 <= l < n && LevelModel(p, l) == key
  }

  // The limited models' levels so far, in the order the models came up.
  ghost predicate ByModel(p: Profile, caps: map<ModelKey, int>, keys: seq<ModelKey>, byModel: map<ModelKey, seq<int>>, n: int) {
    && (forall i, j :: 0 <= i < j < |keys| ==> keys[i] != keys[j])
    && (forall key :: key in keys <==> key in byModel)
    && (forall key :: key in byModel ==> key in caps && LevelsOn(p, key, byModel[key], n))
    && (forall l :: 0 <= l < n && LevelModel(p, l) in caps ==> LevelModel(p, l) in byModel)
  }

  predicate Limited(p: Profile, key: ModelKey) { exists l :: 1 <= l <= 3 && Limits(p, l, key) }

  function Left(limit: int, busy: nat): (n: nat) { if limit > busy then limit - busy else 0 }

  // This much is left of a limit, and never less than nothing.
  predicate IsLeft(limit: int, busy: nat, room: int) { room == limit - busy || (room == 0 && busy >= limit) }

  // What the lowest limit on this model leaves.
  ghost predicate RoomOn(p: Profile, active: Active, key: ModelKey, room: int) {
    && room >= 0
    && (exists l :: 1 <= l <= 3 && Limits(p, l, key) && IsLeft(p.limits[l], BusyOn(active, key), room))
    && (forall l :: 1 <= l <= 3 && Limits(p, l, key) ==> room == 0 || BusyOn(active, key) + room <= p.limits[l])
  }

  /** One group for each limited model some level runs on: exactly its levels,
      and the room it has left. */
  ghost predicate Grouped(p: Profile, active: Active, keys: seq<ModelKey>, groups: seq<Group>) {
    && |keys| == |groups| <= 4
    && (forall i, j :: 0 <= i < j < |keys| ==> keys[i] != keys[j])
    && (forall i :: 0 <= i < |keys| ==> LevelsOn(p, keys[i], groups[i].levels, 4) && RoomOn(p, active, keys[i], groups[i].room))
    && (forall l :: 0 <= l <= 3 && Limited(p, LevelModel(p, l)) ==> LevelModel(p, l) in keys)
  }

  lemma GroupsAreComplete(p: Profile, caps: map<ModelKey, int>, keys: seq<ModelKey>, byModel: map<ModelKey, seq<int>>)
    requires LowestLimits(p, caps, 4) && ByModel(p, caps, keys, byModel, 4)
    ensures forall l :: 0 <= l <= 3 && Limited(p, LevelModel(p, l)) ==> LevelModel(p, l) in keys
  {
    forall l | 0 <= l <= 3 && Limited(p, LevelModel(p, l)) ensures LevelModel(p, l) in keys {}
  }

  method LevelsByModel(p: Profile, limited: map<ModelKey, int>) returns (order: seq<ModelKey>, byModel: map<ModelKey, seq<int>>)
    ensures |order| <= 4 && ByModel(p, limited, order, byModel, 4)
  {
    order, byModel := [], map[];
    for l := 0 to 4
      invariant |order| <= l && ByModel(p, limited, order, byModel, l)
    {
      var key := LevelModel(p, l);
      if key in limited {
        if key in byModel { byModel := byModel[key := byModel[key] + [l]]; }
        else { order, byModel := order + [key], byModel[key := [l]]; }
      }
    }
  }

  ghost predicate GroupsOf(p: Profile, active: Active, groups: seq<Group>) { exists keys :: Grouped(p, active, keys, groups) }

  method LevelGroups(p: Profile, active: Active) returns (groups: seq<Group>, ghost keys: seq<ModelKey>)
    ensures GroupsOf(p, active, groups)
    ensures Grouped(p, active, keys, groups)
  {
    var limited := ModelCaps(p);
    var order, byModel := LevelsByModel(p, limited);
    GroupsAreComplete(p, limited, order, byModel);
    groups, keys := [], order;
    for i := 0 to |order|
      invariant |groups| == i
      invariant forall k :: 0 <= k < i ==> LevelsOn(p, order[k], groups[k].levels, 4) && RoomOn(p, active, order[k], groups[k].room)
    {
      assert order[i] in byModel;
      groups := groups + [Group(byModel[order[i]], Left(limited[order[i]], BusyOn(active, order[i])))];
    }
    assert Grouped(p, active, keys, groups);
  }

  // ---- which threads start ----

  predicate AtLimit(p: Profile, active: Active, key: ModelKey) {
    exists l :: 1 <= l <= 3 && Limits(p, l, key) && BusyOn(active, key) >= p.limits[l]
  }

  // What one thread handed here does to the threads running: started, unless
  // its model is at its limit (then it goes back to the queue).
  function StartOne(p: Profile, active: Active, t: Thread): (a: Active) {
    var key := ThreadModel(p, t);
    if AtLimit(p, active, key) then active else active[t.handed.job := key]
  }

  function StartAll(p: Profile, active: Active, ts: seq<Thread>): (a: Active) {
    if ts == [] then active
    else StartOne(p, StartAll(p, active, ts[..|ts| - 1]), ts[|ts| - 1])
  }

  function SentBack(p: Profile, active: Active, ts: seq<Thread>): (jobs: seq<JobId>) {
    if ts == [] then []
    else
      var most, last := ts[..|ts| - 1], ts[|ts| - 1];
      SentBack(p, active, most) +
      if AtLimit(p, StartAll(p, active, most), ThreadModel(p, last)) then [last.handed.job] else []
  }

  // The model named for a level from 1 to 3, and else the profile's own.
  predicate Names(p: Profile, l: int, key: ModelKey) {
    if l in {1, 2, 3} && l in p.levelModels then key == p.levelModels[l] else key == p.fallback
  }

  // A thread's own model, or its level's.
  predicate RunsOn(p: Profile, t: Thread, key: ModelKey) { t.own == Some(key) || (t.own == None && Names(p, t.handed.level, key)) }

  // As many threads are on this model as one of its levels allows.
  predicate Full(p: Profile, active: Active, key: ModelKey) {
    exists l :: 1 <= l <= 3 && l in p.limits && 1 <= p.limits[l] <= |set j | j in active && active[j] == key| && Names(p, l, key)
  }

  lemma FullIsAtLimit(p: Profile, active: Active, key: ModelKey)
    ensures Full(p, active, key) <==> AtLimit(p, active, key)
  {
    forall l | 1 <= l <= 3 ensures Limits(p, l, key) <==> l in p.limits && p.limits[l] >= 1 && Names(p, l, key) {}
  }

  /** Whatever is handed over: a thread starts on its own model or its level's,
      unless that is full, and no other thread is touched. */
  lemma StartsUnlessFull(p: Profile, active: Active, t: Thread, key: ModelKey)
    requires RunsOn(p, t, key)
    ensures StartOne(p, active, t) == if Full(p, active, key) then active else active[t.handed.job := key]
  {
    FullIsAtLimit(p, active, key);
  }

  // How many more threads a tick may ask for.
  function Asked(active: Active, size: nat, spare: int): (n: int) {
    if size - |active| < spare then size - |active| else spare
  }

  // All that the pool's size and the free slots leave, and no more.
  predicate AllThatIsLeft(active: Active, size: nat, spare: int, n: int) {
    n <= spare && |active| + n <= size && (n == spare || |active| + n == size)
  }

  class GraphPool {
    const profile: Profile
    var active: Active
    var ticking: bool

    constructor (profile: Profile)
      ensures this.profile == profile && active == map[] && !ticking
    {
      this.profile := profile;
      active, ticking := map[], false;
    }

    /** A tick up to its claim: how many threads to ask the queue for, and what
        each limited model has room for. `spare` is the agent slots free. */
    method TickAsk(size: nat, spare: int) returns (asked: Option<nat>, groups: seq<Group>, ghost keys: seq<ModelKey>)
      modifies this`ticking
      ensures asked.Some? <==> !old(ticking) && spare > 0 && |active| < size
      ensures asked.Some? ==> asked.value > 0 && AllThatIsLeft(active, size, spare, asked.value)
      ensures ticking == (old(ticking) || asked.Some?)
      ensures asked.Some? ==> Grouped(profile, active, keys, groups)
    {
      asked, groups, keys := None, [], [];
      if ticking { return; }
      ticking := true;
      var room := if size - |active| < spare then size - |active| else spare;
      if room <= 0 {
        ticking := false;
        return;
      }
      groups, keys := LevelGroups(profile, active);
      asked := Some(room);
    }

    /** The claim's answer: each thread is checked and reserved before the next. */
    method TickAnswer(ts: seq<Thread>) returns (sentBack: seq<JobId>)
      modifies this
      ensures !ticking
      ensures active == StartAll(profile, old(active), ts) && sentBack == SentBack(profile, old(active), ts)
    {
      sentBack := [];
      for i := 0 to |ts|
        invariant active == StartAll(profile, old(active), ts[..i]) && sentBack == SentBack(profile, old(active), ts[..i])
      {
        assert ts[..i + 1][..i] == ts[..i];
        var started := Run(ts[i]);
        if !started { sentBack := sentBack + [ts[i].handed.job]; }
      }
      assert ts[..|ts|] == ts;
      ticking := false;
    }

    method Run(t: Thread) returns (started: bool)
      modifies this`active
      ensures active == StartOne(profile, old(active), t)
      ensures started == !AtLimit(profile, old(active), ThreadModel(profile, t))
    {
      var limits := ModelCaps(profile);
      var model := ThreadModel(profile, t);
      if model in limits && BusyOn(active, model) >= limits[model] { return false; }
      active := active[t.handed.job := model];
      return true;
    }

    method End(job: JobId)
      modifies this`active
      ensures active == old(active) - {job}
    {
      active := active - {job};
    }
  }

  // ---- whole runs ----

  datatype Setup = Setup(profile: Profile, size: nat)

  // `runs` is history: the threads whose turns are under way here.
  datatype Pool = Pool(active: Active, asked: Option<nat>, runs: multiset<JobId>)

  datatype Event = Ask(spare: int) | Answer(ts: seq<Thread>) | End(job: JobId)

  function Admit(s: Setup, pool: Pool, t: Thread): (q: Pool) {
    if AtLimit(s.profile, pool.active, ThreadModel(s.profile, t)) then pool
    else pool.(active := StartOne(s.profile, pool.active, t), runs := pool.runs + multiset{t.handed.job})
  }

  function AdmitAll(s: Setup, pool: Pool, ts: seq<Thread>): (q: Pool)
    ensures q.active == StartAll(s.profile, pool.active, ts) && q.asked == pool.asked
  {
    if ts == [] then pool else Admit(s, AdmitAll(s, pool, ts[..|ts| - 1]), ts[|ts| - 1])
  }

  function Next(s: Setup, pool: Pool, e: Event): (q: Pool) {
    match e
    case Ask(spare) =>
      var n := Asked(pool.active, s.size, spare);
      if pool.asked.Some? || n <= 0 then pool else pool.(asked := Some(n))
    case Answer(ts) =>
      if pool.asked.None? then pool else AdmitAll(s, pool, ts).(asked := None)
    case End(job) =>
      if job !in pool.runs then pool else pool.(active := pool.active - {job}, runs := pool.runs - multiset{job})
  }

  function Run(s: Setup, pool: Pool, es: seq<Event>): (q: Pool)
    decreases |es|
  {
    if es == [] then pool else Run(s, Next(s, pool, es[0]), es[1..])
  }

  const IDLE: Pool := Pool(map[], None, multiset{})

  predicate WithinLimits(p: Profile, active: Active) {
    forall l :: 1 <= l <= 3 && l in p.limits && p.limits[l] >= 1 ==> BusyOn(active, LevelModel(p, l)) <= p.limits[l]
  }

  lemma BusyAfterStart(active: Active, job: JobId, on: ModelKey, key: ModelKey)
    ensures BusyOn(active[job := on], key) <= BusyOn(active, key) + if on == key then 1 else 0
  {
    var was, now := JobsOn(active, key), JobsOn(active[job := on], key);
    if on == key { assert now == was + {job}; } else { assert now == was - {job}; }
  }

  lemma BusyAfterEnd(active: Active, job: JobId, key: ModelKey)
    ensures BusyOn(active - {job}, key) <= BusyOn(active, key)
  {
    assert JobsOn(active - {job}, key) == JobsOn(active, key) - {job};
  }

  lemma StartKeepsLimits(p: Profile, active: Active, t: Thread)
    requires WithinLimits(p, active)
    ensures WithinLimits(p, StartOne(p, active, t))
  {
    var on := ThreadModel(p, t);
    forall l | 1 <= l <= 3 && l in p.limits && p.limits[l] >= 1
      ensures BusyOn(StartOne(p, active, t), LevelModel(p, l)) <= p.limits[l]
    {
      assert Limits(p, l, LevelModel(p, l));
      BusyAfterStart(active, t.handed.job, on, LevelModel(p, l));
    }
  }

  lemma {:induction false} StartsKeepLimits(p: Profile, active: Active, ts: seq<Thread>)
    requires WithinLimits(p, active)
    ensures WithinLimits(p, StartAll(p, active, ts))
  {
    if ts != [] {
      StartsKeepLimits(p, active, ts[..|ts| - 1]);
      StartKeepsLimits(p, StartAll(p, active, ts[..|ts| - 1]), ts[|ts| - 1]);
    }
  }

  lemma {:induction false} RunKeepsLimits(s: Setup, pool: Pool, es: seq<Event>)
    requires WithinLimits(s.profile, pool.active)
    ensures WithinLimits(s.profile, Run(s, pool, es).active)
    decreases |es|
  {
    if es != [] {
      match es[0] {
        case Ask(_) =>
        case Answer(ts) => StartsKeepLimits(s.profile, pool.active, ts);
        case End(job) => forall key ensures BusyOn(pool.active - {job}, key) <= BusyOn(pool.active, key) { BusyAfterEnd(pool.active, job, key); }
      }
      RunKeepsLimits(s, Next(s, pool, es[0]), es[1..]);
    }
  }

  /** No run of ticks, starts and ends puts more threads on a limited model than
      the lowest limit among its levels, whatever the queue hands over. */
  lemma NoModelPastItsLimit(s: Setup, es: seq<Event>, l: int, key: ModelKey)
    requires 1 <= l <= 3 && l in s.profile.limits && s.profile.limits[l] >= 1 && Names(s.profile, l, key)
    ensures var active := Run(s, IDLE, es).active; |set j | j in active && active[j] == key| <= s.profile.limits[l]
  {
    assert LevelModel(s.profile, l) == key;
    forall key ensures BusyOn(map[], key) == 0 { assert JobsOn(map[], key) == {}; }
    RunKeepsLimits(s, IDLE, es);
  }

  // ---- the pool's size ----

  /** The queue hands over no more than a tick asked for. */
  predicate Honest(s: Setup, pool: Pool, es: seq<Event>)
    decreases |es|
  {
    es == [] ||
    ((es[0].Answer? && pool.asked.Some? ==> |es[0].ts| <= pool.asked.value) && Honest(s, Next(s, pool, es[0]), es[1..]))
  }

  /** A tick asks at all when neither the pool nor the slots are full and no other
      is under way; and then for all that is left. */
  lemma TickTakesWhatIsLeft(s: Setup, pool: Pool, spare: int)
    requires pool.asked.None?
    ensures var q := Next(s, pool, Ask(spare));
      q.active == pool.active && (q.asked.Some? <==> spare > 0 && |pool.active| < s.size) &&
      (q.asked.Some? ==> AllThatIsLeft(pool.active, s.size, spare, q.asked.value))
  {
  }

  function Promised(pool: Pool): (n: nat) { if pool.asked.Some? then pool.asked.value else 0 }

  lemma {:induction false} StartsCount(p: Profile, active: Active, ts: seq<Thread>)
    ensures |StartAll(p, active, ts)| <= |active| + |ts|
  {
    if ts != [] {
      var mid, t := StartAll(p, active, ts[..|ts| - 1]), ts[|ts| - 1];
      StartsCount(p, active, ts[..|ts| - 1]);
      assert mid[t.handed.job := ThreadModel(p, t)].Keys == mid.Keys + {t.handed.job};
    }
  }

  lemma {:induction false} RunKeepsSize(s: Setup, pool: Pool, es: seq<Event>)
    requires Honest(s, pool, es) && |pool.active| + Promised(pool) <= s.size
    ensures var q := Run(s, pool, es); |q.active| + Promised(q) <= s.size
    decreases |es|
  {
    if es != [] {
      match es[0] {
        case Ask(_) =>
        case Answer(ts) => StartsCount(s.profile, pool.active, ts);
        case End(job) => assert (pool.active - {job}).Keys == pool.active.Keys - {job};
      }
      RunKeepsSize(s, Next(s, pool, es[0]), es[1..]);
    }
  }

  /** Nor more threads in all than the pool's size, even with those a tick
      under way may still be handed. */
  lemma NeverPastThePoolSize(s: Setup, es: seq<Event>)
    requires Honest(s, IDLE, es)
    ensures var q := Run(s, IDLE, es); |q.active| + Promised(q) <= s.size
  {
    RunKeepsSize(s, IDLE, es);
  }

  // ---- what is counted and what runs ----

  predicate Accounted(pool: Pool) { pool.runs == multiset(pool.active.Keys) }

  /** Starting a thread keeps the pool's count right exactly when it is not
      already running here. */
  lemma StartIsCountedWhen(s: Setup, pool: Pool, t: Thread)
    requires Accounted(pool) && !AtLimit(s.profile, pool.active, ThreadModel(s.profile, t))
    ensures Accounted(Admit(s, pool, t)) <==> t.handed.job !in pool.active
  {
    var j := t.handed.job;
    assert Admit(s, pool, t).active.Keys == pool.active.Keys + {j};
    if j in pool.active {
      assert Admit(s, pool, t).runs[j] == 2;
    } else {
      assert multiset(pool.active.Keys + {j}) == multiset(pool.active.Keys) + multiset{j};
    }
  }

  // None of these that starts is of a thread still running here.
  predicate StartsFresh(s: Setup, pool: Pool, ts: seq<Thread>) {
    ts == [] ||
    var mid, last := AdmitAll(s, pool, ts[..|ts| - 1]), ts[|ts| - 1];
    && StartsFresh(s, pool, ts[..|ts| - 1])
    && (AtLimit(s.profile, mid.active, ThreadModel(s.profile, last)) || last.handed.job !in mid.active)
  }

  predicate AllFresh(s: Setup, pool: Pool, es: seq<Event>)
    decreases |es|
  {
    es == [] || ((es[0].Answer? && pool.asked.Some? ==> StartsFresh(s, pool, es[0].ts)) && AllFresh(s, Next(s, pool, es[0]), es[1..]))
  }

  // Some thread's turns are more than it is counted.
  ghost predicate Doubled(pool: Pool) { exists j :: pool.runs[j] > if j in pool.active then 1 else 0 }

  lemma DoubledIsMiscounted(pool: Pool)
    requires Doubled(pool)
    ensures !Accounted(pool)
  {
    var j :| pool.runs[j] > if j in pool.active then 1 else 0;
    assert multiset(pool.active.Keys)[j] == if j in pool.active then 1 else 0;
  }

  lemma DoubledStays(s: Setup, pool: Pool, t: Thread)
    requires Doubled(pool)
    ensures Doubled(Admit(s, pool, t))
  {
    var j :| pool.runs[j] > if j in pool.active then 1 else 0;
    var q := Admit(s, pool, t);
    assert q.runs[j] > if j in q.active then 1 else 0;
  }

  lemma StartAgainDoubles(s: Setup, pool: Pool, t: Thread)
    requires Accounted(pool) && !AtLimit(s.profile, pool.active, ThreadModel(s.profile, t)) && t.handed.job in pool.active
    ensures Doubled(Admit(s, pool, t))
  {
    assert Admit(s, pool, t).runs[t.handed.job] == 2;
  }

  lemma {:induction false} StartsAreCounted(s: Setup, pool: Pool, ts: seq<Thread>)
    requires Accounted(pool)
    ensures if StartsFresh(s, pool, ts) then Accounted(AdmitAll(s, pool, ts)) else Doubled(AdmitAll(s, pool, ts))
  {
    if ts != [] {
      var most, last := ts[..|ts| - 1], ts[|ts| - 1];
      StartsAreCounted(s, pool, most);
      var mid := AdmitAll(s, pool, most);
      if !StartsFresh(s, pool, most) {
        DoubledStays(s, mid, last);
      } else if !AtLimit(s.profile, mid.active, ThreadModel(s.profile, last)) {
        if last.handed.job in mid.active { StartAgainDoubles(s, mid, last); } else { StartIsCountedWhen(s, mid, last); }
      }
    }
  }

  lemma StepIsCountedWhen(s: Setup, pool: Pool, e: Event)
    requires Accounted(pool)
    ensures Accounted(Next(s, pool, e)) <==> (e.Answer? && pool.asked.Some? ==> StartsFresh(s, pool, e.ts))
  {
    match e
    case Ask(_) =>
    case Answer(ts) =>
      StartsAreCounted(s, pool, ts);
      if Doubled(AdmitAll(s, pool, ts)) { DoubledIsMiscounted(AdmitAll(s, pool, ts)); }
    case End(job) => assert (pool.active - {job}).Keys == pool.active.Keys - {job};
  }

  predicate AlwaysAccounted(s: Setup, pool: Pool, es: seq<Event>)
    decreases |es|
  {
    Accounted(pool) && (es == [] || AlwaysAccounted(s, Next(s, pool, es[0]), es[1..]))
  }

  lemma {:induction false} RunKeepsCount(s: Setup, pool: Pool, es: seq<Event>)
    requires Accounted(pool)
    ensures AlwaysAccounted(s, pool, es) <==> AllFresh(s, pool, es)
    ensures AllFresh(s, pool, es) ==> Accounted(Run(s, pool, es))
    decreases |es|
  {
    if es != [] {
      StepIsCountedWhen(s, pool, es[0]);
      if Accounted(Next(s, pool, es[0])) { RunKeepsCount(s, Next(s, pool, es[0]), es[1..]); }
    }
  }

  /** The turns under way are exactly the threads counted, at all times of a run,
      if and only if no start in it is of a thread still running here; then they
      are never more than the pool's size. */
  lemma TurnsStayWithinThePool(s: Setup, es: seq<Event>)
    ensures AlwaysAccounted(s, IDLE, es) <==> AllFresh(s, IDLE, es)
    ensures AllFresh(s, IDLE, es) && Honest(s, IDLE, es) ==>
      var q := Run(s, IDLE, es); q.runs == multiset(q.active.Keys) && |q.runs| <= s.size
  {
    assert multiset(IDLE.active.Keys) == multiset{};
    RunKeepsCount(s, IDLE, es);
    if Honest(s, IDLE, es) { RunKeepsSize(s, IDLE, es); }
  }

  /** Handed over again while its turn runs (its lease ran out, say), a thread
      is counted once and runs twice; the first end frees a place it did not
      leave. */
  lemma ReclaimedThreadRunsTwice(s: Setup, t: Thread)
    requires s.size >= 2 && s.profile.limits == map[]
    ensures var q := Run(s, IDLE, [Ask(1), Answer([t]), Ask(1), Answer([t])]);
      |q.runs| == 2 && |q.active| == 1 && Next(s, q, End(t.handed.job)).active == map[]
  {
    var j, key := t.handed.job, ThreadModel(s.profile, t);
    var one := Pool(map[j := key], None, multiset{j});
    var asked := Next(s, IDLE, Ask(1));
    assert [t][..0] == [];
    assert AdmitAll(s, asked, [t]) == Admit(s, asked, t);
    assert Next(s, asked, Answer([t])) == one;
    var again := Next(s, one, Ask(1));
    assert AdmitAll(s, again, [t]) == Admit(s, again, t);
    var two := Next(s, again, Answer([t]));
    assert two == Pool(map[j := key], None, multiset{j, j});
    RunFour(s, IDLE, Ask(1), Answer([t]), Ask(1), Answer([t]));
  }

  lemma RunStep(s: Setup, pool: Pool, e: Event, es: seq<Event>)
    ensures Run(s, pool, [e] + es) == Run(s, Next(s, pool, e), es)
  {
    assert ([e] + es)[1..] == es;
  }

  lemma RunFour(s: Setup, pool: Pool, a: Event, b: Event, c: Event, d: Event)
    ensures Run(s, pool, [a, b, c, d]) == Next(s, Next(s, Next(s, Next(s, pool, a), b), c), d)
  {
    assert [a, b, c, d] == [a] + ([b] + ([c] + ([d] + [])));
    var p1 := Next(s, pool, a);
    var p2 := Next(s, p1, b);
    var p3 := Next(s, p2, c);
    RunStep(s, pool, a, [b] + ([c] + ([d] + [])));
    RunStep(s, p1, b, [c] + ([d] + []));
    RunStep(s, p2, c, [d] + []);
    RunStep(s, p3, d, []);
  }

  // ---- the queue's answer ----

  function Handeds(ts: seq<Thread>): (out: seq<Handed>) {
    if ts == [] then [] else Handeds(ts[..|ts| - 1]) + [ts[|ts| - 1].handed]
  }

  // How many of these threads run on this model.
  function CountOn(p: Profile, ts: seq<Thread>, key: ModelKey): (n: nat) {
    if ts == [] then 0 else CountOn(p, ts[..|ts| - 1], key) + if ThreadModel(p, ts[|ts| - 1]) == key then 1 else 0
  }

  // Each thread runs on the model of its level.
  predicate OnTheirLevels(p: Profile, ts: seq<Thread>) {
    forall i :: 0 <= i < |ts| ==> 0 <= ts[i].handed.level <= 3 && ThreadModel(p, ts[i]) == LevelModel(p, ts[i].handed.level)
  }

  /** The counter the queue uses for a level is its own model's. */
  lemma OwnerIsTheModel(p: Profile, active: Active, keys: seq<ModelKey>, groups: seq<Group>, l: int, g: nat)
    requires Grouped(p, active, keys, groups) && 0 <= l <= 3 && g < |keys|
    ensures OwnerOf(groups, l) == Some(g) <==> LevelModel(p, l) == keys[g]
  {
    var o := OwnerOf(groups, l);
    if o.Some? { assert LevelsOn(p, keys[o.value], groups[o.value].levels, 4); }
    assert LevelsOn(p, keys[g], groups[g].levels, 4);
  }

  lemma {:induction false} CountIsHanded(p: Profile, active: Active, keys: seq<ModelKey>, groups: seq<Group>, ts: seq<Thread>, g: nat)
    requires Grouped(p, active, keys, groups) && OnTheirLevels(p, ts) && g < |keys|
    ensures CountOn(p, ts, keys[g]) == HandedTo(Handeds(ts), groups, g)
  {
    if ts != [] {
      var most, last := ts[..|ts| - 1], ts[|ts| - 1];
      CountIsHanded(p, active, keys, groups, most, g);
      OwnerIsTheModel(p, active, keys, groups, last.handed.level, g);
      HandedToStep(Handeds(most), last.handed, groups, g);
    }
  }

  // Room on every limited model for these threads.
  predicate Fits(p: Profile, active: Active, ts: seq<Thread>) {
    forall l :: 1 <= l <= 3 && l in p.limits && p.limits[l] >= 1 ==>
      var n := CountOn(p, ts, LevelModel(p, l)); n == 0 || BusyOn(active, LevelModel(p, l)) + n <= p.limits[l]
  }

  lemma {:induction false} WhatFitsStarts(p: Profile, active: Active, ts: seq<Thread>)
    requires Fits(p, active, ts)
    ensures SentBack(p, active, ts) == []
    ensures forall key :: BusyOn(StartAll(p, active, ts), key) <= BusyOn(active, key) + CountOn(p, ts, key)
  {
    if ts != [] {
      var most, last := ts[..|ts| - 1], ts[|ts| - 1];
      WhatFitsStarts(p, active, most);
      var mid, on := StartAll(p, active, most), ThreadModel(p, last);
      forall key ensures BusyOn(StartOne(p, mid, last), key) <= BusyOn(active, key) + CountOn(p, ts, key) {
        BusyAfterStart(mid, last.handed.job, on, key);
      }
    }
  }

  predicate OnlyEnds(es: seq<Event>) { forall e :: e in es ==> e.End? }

  lemma {:induction false} EndsFreeRoom(s: Setup, pool: Pool, es: seq<Event>, key: ModelKey)
    requires OnlyEnds(es)
    ensures BusyOn(Run(s, pool, es).active, key) <= BusyOn(pool.active, key)
    decreases |es|
  {
    if es != [] {
      var job := es[0].job;
      BusyAfterEnd(pool.active, job, key);
      EndsFreeRoom(s, Next(s, pool, es[0]), es[1..], key);
    }
  }

  /** Both sides of the claim agree: what the queue hands over within the room a
      tick reported starts here in full, whatever turns end meanwhile. Only a
      thread that keeps another model than its level's can be sent back. */
  lemma ClaimedThreadsAllStart(s: Setup, pool: Pool, keys: seq<ModelKey>, groups: seq<Group>, es: seq<Event>, ts: seq<Thread>)
    requires Grouped(s.profile, pool.active, keys, groups) && OnlyEnds(es)
    requires OnTheirLevels(s.profile, ts)
    requires forall g :: 0 <= g < GroupsUsed(groups) ==> HandedTo(Handeds(ts), groups, g) <= Room(groups[g])
    ensures SentBack(s.profile, Run(s, pool, es).active, ts) == []
  {
    var p, later := s.profile, Run(s, pool, es).active;
    forall l | 1 <= l <= 3 && l in p.limits && p.limits[l] >= 1
      ensures var n := CountOn(p, ts, LevelModel(p, l)); n == 0 || BusyOn(later, LevelModel(p, l)) + n <= p.limits[l]
    {
      var key := LevelModel(p, l);
      assert Limits(p, l, key);
      var g :| 0 <= g < |keys| && keys[g] == key;
      CountIsHanded(p, pool.active, keys, groups, ts, g);
      EndsFreeRoom(s, pool, es, key);
    }
    WhatFitsStarts(p, later, ts);
  }
}
