// Lanes with limited concurrency, resources that never run twice at once, and
// tasks that are shared while they are live.
module TaskScheduler {

  // The empty key stands for no key.
  datatype Job = Job(id: nat, lane: string, resourceKey: string, dedupeKey: string)

  datatype Lane = Lane(concurrency: nat, active: nat, queue: seq<Job>)

  // running and started are what the promises of the tasks know: which tasks are
  // going on, and in which order they were begun.
  datatype Sched = Sched(
    lanes: map<string, Lane>,
    activeResources: set<string>,
    deduped: map<string, nat>,
    drainWaiters: seq<nat>,
    running: set<Job>,
    started: seq<Job>,
    nextId: nat)

  predicate Eligible(activeResources: set<string>, job: Job) {
    job.resourceKey == "" || job.resourceKey !in activeResources
  }

  function FirstEligible(queue: seq<Job>, activeResources: set<string>): (i: int)
    ensures -1 <= i < |queue|
    ensures i >= 0 ==> Eligible(activeResources, queue[i])
    ensures forall j :: 0 <= j < (if i < 0 then |queue| else i) ==> !Eligible(activeResources, queue[j])
  {
    if queue == [] then -1
    else if Eligible(activeResources, queue[0]) then 0
    else
      var rest := FirstEligible(queue[1..], activeResources);
      assert forall j :: 0 < j < |queue| ==> queue[j] == queue[1..][j - 1];
      if rest < 0 then -1 else rest + 1
  }

  predicate LaneIdle(lane: Lane) {
    lane.active == 0 && lane.queue == []
  }

  ghost predicate Idle(s: Sched) {
    forall name :: name in s.lanes ==> LaneIdle(s.lanes[name])
  }

  function StartJob(s: Sched, name: string, index: nat): Sched
    requires name in s.lanes && index < |s.lanes[name].queue|
  {
    var lane := s.lanes[name];
    var job := lane.queue[index];
    s.(lanes := s.lanes[name := lane.(active := lane.active + 1,
                                      queue := lane.queue[..index] + lane.queue[index + 1..])],
       activeResources := if job.resourceKey == "" then s.activeResources else s.activeResources + {job.resourceKey},
       running := s.running + {job},
       started := s.started + [job])
  }

  function PumpLane(s: Sched, name: string): Sched
    requires name in s.lanes
    decreases |s.lanes[name].queue|
  {
    var lane := s.lanes[name];
    var index := FirstEligible(lane.queue, s.activeResources);
    if lane.active < lane.concurrency && index >= 0 then PumpLane(StartJob(s, name, index), name) else s
  }

  function PumpLanes(s: Sched, order: seq<string>): Sched
    requires forall i :: 0 <= i < |order| ==> order[i] in s.lanes
    decreases |order|, 0
  {
    if order == [] then s
    else
      var before := PumpLanes(s, order[..|order| - 1]);
      PumpLanesKeys(s, order[..|order| - 1]);
      PumpLane(before, order[|order| - 1])
  }

  ghost function PumpAll(s: Sched, order: seq<string>): Sched
    requires forall i :: 0 <= i < |order| ==> order[i] in s.lanes
  {
    var pumped := PumpLanes(s, order);
    if Idle(pumped) then pumped.(drainWaiters := []) else pumped
  }

  lemma {:induction false} PumpLaneKeys(s: Sched, name: string)
    requires name in s.lanes
    ensures PumpLane(s, name).lanes.Keys == s.lanes.Keys
    decreases |s.lanes[name].queue|
  {
    var index := FirstEligible(s.lanes[name].queue, s.activeResources);
    if s.lanes[name].active < s.lanes[name].concurrency && index >= 0 { PumpLaneKeys(StartJob(s, name, index), name); }
  }

  lemma {:induction false} PumpLanesKeys(s: Sched, order: seq<string>)
    requires forall i :: 0 <= i < |order| ==> order[i] in s.lanes
    ensures PumpLanes(s, order).lanes.Keys == s.lanes.Keys
    decreases |order|, 1
  {
    if order != [] {
      PumpLanesKeys(s, order[..|order| - 1]);
      PumpLaneKeys(PumpLanes(s, order[..|order| - 1]), order[|order| - 1]);
    }
  }

  datatype Scheduled = Promise(id: nat) | UnknownLane

  datatype Options = Options(lane: string, resourceKey: string, dedupeKey: string)

  // Every lane once, in the order they were configured.
  ghost predicate Covers(s: Sched, order: seq<string>) {
    (forall i :: 0 <= i < |order| ==> order[i] in s.lanes) && forall name :: name in s.lanes ==> name in order
  }

  function Queued(s: Sched, options: Options): Sched
    requires options.lane in s.lanes
  {
    var lane := s.lanes[options.lane];
    var job := Job(s.nextId, options.lane, options.resourceKey, options.dedupeKey);
    s.(lanes := s.lanes[options.lane := lane.(queue := lane.queue + [job])],
       deduped := if options.dedupeKey == "" then s.deduped else s.deduped[options.dedupeKey := job.id],
       nextId := s.nextId + 1)
  }

  // A task whose key is live is not queued again.
  predicate Shared(s: Sched, options: Options) {
    options.dedupeKey != "" && options.dedupeKey in s.deduped
  }

  ghost function AfterSchedule(s: Sched, order: seq<string>, options: Options): Sched
    requires Covers(s, order)
  {
    if options.lane !in s.lanes || Shared(s, options) then s else PumpAll(Queued(s, options), order)
  }

  function Ended(s: Sched, job: Job): Sched
    requires job.lane in s.lanes && s.lanes[job.lane].active > 0
  {
    var lane := s.lanes[job.lane];
    s.(lanes := s.lanes[job.lane := lane.(active := lane.active - 1)],
       activeResources := if job.resourceKey == "" then s.activeResources else s.activeResources - {job.resourceKey},
       deduped := if job.dedupeKey == "" then s.deduped else s.deduped - {job.dedupeKey},
       running := s.running - {job})
  }

  ghost function AfterEnd(s: Sched, order: seq<string>, job: Job): Sched
    requires Covers(s, order) && job.lane in s.lanes && s.lanes[job.lane].active > 0
  {
    PumpAll(Ended(s, job), order)
  }

  ghost function AfterDrain(s: Sched, waiter: nat): Sched {
    if Idle(s) then s else s.(drainWaiters := s.drainWaiters + [waiter])
  }

  // --- invariants -----------------------------------------------------------

  ghost predicate Waiting(s: Sched, job: Job) {
    job.lane in s.lanes && job in s.lanes[job.lane].queue
  }

  ghost predicate LiveJob(s: Sched, job: Job) {
    job in s.running || Waiting(s, job)
  }

  function RunningIn(s: Sched, name: string): set<Job> {
    set job | job in s.running && job.lane == name
  }

  ghost predicate OwnJobs(queue: seq<Job>, name: string) {
    forall i :: 0 <= i < |queue| ==> queue[i].lane == name
  }

  ghost predicate LaneOk(s: Sched, name: string)
    requires name in s.lanes
  {
    && s.lanes[name].active == |RunningIn(s, name)| <= s.lanes[name].concurrency
    && s.lanes[name].concurrency >= 1
    && OwnJobs(s.lanes[name].queue, name)
  }

  ghost predicate LanesOk(s: Sched) {
    && (forall name :: name in s.lanes ==> LaneOk(s, name))
    && forall job :: job in s.running ==> job.lane in s.lanes
  }

  // The keys of the running jobs are the active resources, and no two jobs share one.
  ghost predicate ResourcesOk(s: Sched) {
    && (forall job :: job in s.running && job.resourceKey != "" ==> job.resourceKey in s.activeResources)
    && (forall key :: key in s.activeResources ==>
        key != "" && exists job :: job in s.running && job.resourceKey == key)
    && (forall a, b :: a in s.running && b in s.running && a.resourceKey == b.resourceKey != "" ==> a == b)
  }

  // No job waits and runs, live jobs have ids of their own, and each live key stands for one of them.
  ghost predicate KeysOk(s: Sched) {
    && (forall job :: job in s.running ==> !Waiting(s, job))
    && (forall a, b :: LiveJob(s, a) && LiveJob(s, b) && a.id == b.id ==> a == b)
    && (forall job :: LiveJob(s, job) ==> job.id < s.nextId)
    && (forall job :: LiveJob(s, job) && job.dedupeKey != "" ==>
          job.dedupeKey in s.deduped && s.deduped[job.dedupeKey] == job.id)
    && (forall key :: key in s.deduped ==> key != "" && exists job :: LiveJob(s, job) && job.dedupeKey == key)
  }

  ghost predicate SameLine(a: Job, b: Job) {
    a.lane == b.lane && a.resourceKey == b.resourceKey
  }

  ghost predicate Ascending(queue: seq<Job>) {
    forall i, j :: 0 <= i < j < |queue| ==> queue[i].id < queue[j].id
  }

  ghost predicate BegunBefore(started: seq<Job>, job: Job) {
    forall i :: 0 <= i < |started| && SameLine(started[i], job) ==> started[i].id < job.id
  }

  // Jobs of one lane with the same resource are begun in the order they were scheduled.
  ghost predicate BegunInOrder(started: seq<Job>) {
    forall i, j :: 0 <= i < j < |started| && SameLine(started[i], started[j]) ==> started[i].id < started[j].id
  }

  ghost predicate InOrder(s: Sched) {
    && (forall name :: name in s.lanes ==> Ascending(s.lanes[name].queue))
    && (forall job :: Waiting(s, job) ==> BegunBefore(s.started, job))
    && BegunInOrder(s.started)
    && (forall i :: 0 <= i < |s.started| ==> s.started[i].id < s.nextId)
  }

  ghost predicate Base(s: Sched) {
    LanesOk(s) && ResourcesOk(s) && KeysOk(s) && InOrder(s)
  }

  // A lane that is full, or in which nothing can be begun.
  ghost predicate Settled(s: Sched, name: string)
    requires name in s.lanes
  {
    s.lanes[name].active >= s.lanes[name].concurrency || FirstEligible(s.lanes[name].queue, s.activeResources) < 0
  }

  ghost predicate Inv(s: Sched) {
    && Base(s)
    && (forall name :: name in s.lanes ==> Settled(s, name))
    && (s.drainWaiters != [] ==> !Idle(s))
  }

  // --- beginning a job ------------------------------------------------------

  lemma Removed(queue: seq<Job>, index: nat)
    requires index < |queue| && Ascending(queue)
    ensures var rest := queue[..index] + queue[index + 1..];
      (forall job :: job in rest <==> job in queue && job != queue[index]) && Ascending(rest)
  {
  }

  lemma StartLanes(s: Sched, name: string, index: nat)
    requires LanesOk(s) && name in s.lanes && index < |s.lanes[name].queue|
    requires s.lanes[name].active < s.lanes[name].concurrency
    requires s.lanes[name].queue[index] !in s.running
    ensures LanesOk(StartJob(s, name, index))
  {
    var t := StartJob(s, name, index);
    var job := s.lanes[name].queue[index];
    assert LaneOk(s, name);
    assert job.lane == name;
    forall other | other in t.lanes ensures LaneOk(t, other) {
      assert LaneOk(s, other);
      if other == name {
        assert RunningIn(t, name) == RunningIn(s, name) + {job};
      } else {
        assert RunningIn(t, other) == RunningIn(s, other);
      }
    }
  }

  lemma StartWaiting(s: Sched, name: string, index: nat)
    requires LanesOk(s) && InOrder(s) && name in s.lanes && index < |s.lanes[name].queue|
    ensures var t, job := StartJob(s, name, index), s.lanes[name].queue[index];
      && Waiting(s, job)
      && (forall j :: Waiting(t, j) <==> Waiting(s, j) && j != job)
      && (forall j :: LiveJob(t, j) <==> LiveJob(s, j))
  {
  }

  lemma StartKeys(s: Sched, name: string, index: nat)
    requires LanesOk(s) && InOrder(s) && KeysOk(s) && name in s.lanes && index < |s.lanes[name].queue|
    ensures KeysOk(StartJob(s, name, index))
  {
    StartWaiting(s, name, index);
    var t, job := StartJob(s, name, index), s.lanes[name].queue[index];
    forall key | key in t.deduped ensures exists j :: LiveJob(t, j) && j.dedupeKey == key {
      var j :| LiveJob(s, j) && j.dedupeKey == key;
      assert LiveJob(t, j);
    }
  }

  lemma StartResources(s: Sched, name: string, index: nat)
    requires ResourcesOk(s) && name in s.lanes && index < |s.lanes[name].queue|
    requires Eligible(s.activeResources, s.lanes[name].queue[index])
    ensures ResourcesOk(StartJob(s, name, index))
  {
  }

  // The first eligible job is the oldest of its line.
  lemma OldestOfLine(s: Sched, name: string, index: nat, other: Job)
    requires LanesOk(s) && InOrder(s) && name in s.lanes
    requires index == FirstEligible(s.lanes[name].queue, s.activeResources)
    requires Waiting(s, other) && SameLine(other, s.lanes[name].queue[index])
    ensures s.lanes[name].queue[index].id <= other.id
  {
  }

  lemma BegunOne(started: seq<Job>, job: Job, other: Job)
    requires BegunBefore(started, other) && (SameLine(job, other) ==> job.id < other.id)
    ensures BegunBefore(started + [job], other)
  {
  }

  lemma StartBegun(s: Sched, name: string, index: nat, other: Job)
    requires LanesOk(s) && InOrder(s) && KeysOk(s) && name in s.lanes
    requires index == FirstEligible(s.lanes[name].queue, s.activeResources)
    requires Waiting(StartJob(s, name, index), other)
    ensures BegunBefore(StartJob(s, name, index).started, other)
  {
    var job := s.lanes[name].queue[index];
    StartWaiting(s, name, index);
    assert LiveJob(s, job) && LiveJob(s, other);
    if SameLine(job, other) { OldestOfLine(s, name, index, other); }
    BegunOne(s.started, job, other);
  }

  lemma StartOrder(s: Sched, name: string, index: nat)
    requires LanesOk(s) && InOrder(s) && KeysOk(s) && name in s.lanes
    requires index == FirstEligible(s.lanes[name].queue, s.activeResources)
    ensures InOrder(StartJob(s, name, index))
  {
    var t, job := StartJob(s, name, index), s.lanes[name].queue[index];
    assert Waiting(s, job) && LiveJob(s, job) by { StartWaiting(s, name, index); }
    forall j | Waiting(t, j) ensures BegunBefore(t.started, j) { StartBegun(s, name, index, j); }
    Removed(s.lanes[name].queue, index);
    StillInOrder(s.started, job);
    forall i | 0 <= i < |t.started| ensures t.started[i].id < t.nextId {}
  }

  lemma StillInOrder(started: seq<Job>, job: Job)
    requires BegunInOrder(started) && BegunBefore(started, job)
    ensures BegunInOrder(started + [job])
  {
  }

  lemma StartBase(s: Sched, name: string, index: nat)
    requires Base(s) && name in s.lanes && s.lanes[name].active < s.lanes[name].concurrency
    requires index == FirstEligible(s.lanes[name].queue, s.activeResources)
    ensures Base(StartJob(s, name, index))
  {
    StartWaiting(s, name, index);
    StartLanes(s, name, index);
    StartResources(s, name, index);
    StartKeys(s, name, index);
    StartOrder(s, name, index);
  }

  // --- pumping --------------------------------------------------------------

  // What pumping one lane leaves alone.
  ghost predicate PumpedFrom(t: Sched, s: Sched, name: string)
    requires name in s.lanes
  {
    && t.lanes.Keys == s.lanes.Keys
    && (forall other :: other in s.lanes && other != name ==> t.lanes[other] == s.lanes[other])
    && s.activeResources <= t.activeResources
    && t.deduped == s.deduped && t.nextId == s.nextId && t.drainWaiters == s.drainWaiters
    && s.started <= t.started
  }

  lemma StartFrame(s: Sched, name: string, index: nat)
    requires name in s.lanes && index < |s.lanes[name].queue|
    ensures PumpedFrom(StartJob(s, name, index), s, name)
  {
  }

  lemma PumpedTwice(a: Sched, b: Sched, c: Sched, name: string)
    requires name in a.lanes && PumpedFrom(b, a, name) && name in b.lanes && PumpedFrom(c, b, name)
    ensures PumpedFrom(c, a, name)
  {
  }

  lemma {:induction false} PumpLaneFrame(s: Sched, name: string)
    requires name in s.lanes
    ensures var t := PumpLane(s, name); PumpedFrom(t, s, name) && Settled(t, name)
    decreases |s.lanes[name].queue|
  {
    var index := FirstEligible(s.lanes[name].queue, s.activeResources);
    if s.lanes[name].active < s.lanes[name].concurrency && index >= 0 {
      var next := StartJob(s, name, index);
      StartFrame(s, name, index);
      PumpLaneFrame(next, name);
      PumpedTwice(s, next, PumpLane(next, name), name);
    }
  }

  lemma {:induction false} PumpLaneBase(s: Sched, name: string)
    requires Base(s) && name in s.lanes
    ensures Base(PumpLane(s, name))
    decreases |s.lanes[name].queue|
  {
    var index := FirstEligible(s.lanes[name].queue, s.activeResources);
    if s.lanes[name].active < s.lanes[name].concurrency && index >= 0 {
      StartBase(s, name, index);
      PumpLaneBase(StartJob(s, name, index), name);
    }
  }

  lemma StillSettled(s: Sched, t: Sched, name: string, other: string)
    requires name in s.lanes && PumpedFrom(t, s, name) && other in s.lanes && other != name && Settled(s, other)
    ensures Settled(t, other)
  {
  }

  ghost predicate AllSettled(s: Sched, names: seq<string>) {
    forall i :: 0 <= i < |names| ==> names[i] in s.lanes && Settled(s, names[i])
  }

  lemma OneMoreSettled(before: Sched, front: seq<string>, name: string)
    requires name in before.lanes && AllSettled(before, front)
    ensures AllSettled(PumpLane(before, name), front + [name])
  {
    PumpLaneFrame(before, name);
    var t, names := PumpLane(before, name), front + [name];
    forall i | 0 <= i < |names| ensures names[i] in t.lanes && Settled(t, names[i]) {
      if i < |front| && names[i] != name {
        assert names[i] == front[i];
        StillSettled(before, t, name, names[i]);
      }
    }
  }

  lemma {:induction false} PumpLanesFrame(s: Sched, order: seq<string>)
    requires forall i :: 0 <= i < |order| ==> order[i] in s.lanes
    ensures var t := PumpLanes(s, order);
      && t.lanes.Keys == s.lanes.Keys && AllSettled(t, order)
      && t.deduped == s.deduped && t.nextId == s.nextId && t.drainWaiters == s.drainWaiters
    decreases |order|
  {
    if order != [] {
      var front, name := order[..|order| - 1], order[|order| - 1];
      PumpLanesFrame(s, front);
      PumpLaneFrame(PumpLanes(s, front), name);
      OneMoreSettled(PumpLanes(s, front), front, name);
      assert order == front + [name];
    }
  }

  lemma {:induction false} PumpLanesBase(s: Sched, order: seq<string>)
    requires Base(s) && forall i :: 0 <= i < |order| ==> order[i] in s.lanes
    ensures Base(PumpLanes(s, order))
    decreases |order|
  {
    if order != [] {
      PumpLanesBase(s, order[..|order| - 1]);
      PumpLanesFrame(s, order[..|order| - 1]);
      PumpLaneBase(PumpLanes(s, order[..|order| - 1]), order[|order| - 1]);
    }
  }

  lemma PumpAllBase(s: Sched, order: seq<string>)
    requires Base(s) && Covers(s, order)
    ensures Base(PumpAll(s, order))
  {
    PumpLanesBase(s, order);
    SameButWaiters(PumpLanes(s, order), []);
  }

  lemma PumpAllSettles(s: Sched, order: seq<string>)
    requires Covers(s, order)
    ensures var t := PumpAll(s, order);
      && t.lanes.Keys == s.lanes.Keys
      && (forall name :: name in t.lanes ==> Settled(t, name))
      && (t.drainWaiters != [] ==> !Idle(t))
  {
    PumpLanesFrame(s, order);
    var t := PumpLanes(s, order);
    forall name | name in t.lanes ensures Settled(t, name) {
      assert name in order;
      var i :| 0 <= i < |order| && order[i] == name;
    }
  }

  lemma PumpAllKeeps(s: Sched, order: seq<string>)
    requires Base(s) && Covers(s, order)
    ensures Inv(PumpAll(s, order))
  {
    PumpAllBase(s, order);
    PumpAllSettles(s, order);
  }

  lemma SameButWaiters(s: Sched, waiters: seq<nat>)
    requires Base(s)
    ensures Base(s.(drainWaiters := waiters))
  {
    var t := s.(drainWaiters := waiters);
    forall name | name in t.lanes ensures LaneOk(t, name) {
      assert LaneOk(s, name);
      assert RunningIn(t, name) == RunningIn(s, name);
    }
    SameLive(s, t);
  }

  // Live jobs depend on the lanes and the running jobs only.
  lemma SameLive(s: Sched, t: Sched)
    requires t.lanes == s.lanes && t.running == s.running
    ensures forall job :: (Waiting(t, job) <==> Waiting(s, job)) && (LiveJob(t, job) <==> LiveJob(s, job))
  {
  }

  // --- scheduling -----------------------------------------------------------

  function NewJob(s: Sched, options: Options): Job {
    Job(s.nextId, options.lane, options.resourceKey, options.dedupeKey)
  }

  lemma QueuedLive(s: Sched, options: Options)
    requires options.lane in s.lanes
    ensures var t := Queued(s, options);
      && (forall j :: Waiting(t, j) <==> Waiting(s, j) || j == NewJob(s, options))
      && (forall j :: LiveJob(t, j) <==> LiveJob(s, j) || j == NewJob(s, options))
  {
  }

  lemma QueuedLanes(s: Sched, options: Options)
    requires LanesOk(s) && options.lane in s.lanes
    ensures LanesOk(Queued(s, options))
  {
  }

  lemma QueuedKeys(s: Sched, options: Options)
    requires KeysOk(s) && options.lane in s.lanes && !Shared(s, options)
    ensures KeysOk(Queued(s, options))
  {
    var t := Queued(s, options);
    QueuedLive(s, options);
    forall job | job in t.running ensures !Waiting(t, job) { assert LiveJob(s, job); }
    forall key | key in t.deduped ensures key != "" && exists j :: LiveJob(t, j) && j.dedupeKey == key {
      if key == options.dedupeKey {
        assert LiveJob(t, NewJob(s, options));
      } else {
        var j :| LiveJob(s, j) && j.dedupeKey == key;
        assert LiveJob(t, j);
      }
    }
  }

  lemma QueuedOrder(s: Sched, options: Options)
    requires LanesOk(s) && KeysOk(s) && InOrder(s) && options.lane in s.lanes
    ensures InOrder(Queued(s, options))
  {
    var t := Queued(s, options);
    QueuedLive(s, options);
    forall name | name in t.lanes ensures Ascending(t.lanes[name].queue) {
      assert Ascending(s.lanes[name].queue);
      if name == options.lane { LastIsNewest(s, name, NewJob(s, options)); }
    }
  }

  lemma LastIsNewest(s: Sched, name: string, job: Job)
    requires LanesOk(s) && KeysOk(s) && name in s.lanes && Ascending(s.lanes[name].queue) && job.id == s.nextId
    ensures Ascending(s.lanes[name].queue + [job])
  {
  }

  lemma ScheduleKeeps(s: Sched, order: seq<string>, options: Options)
    requires Inv(s) && Covers(s, order)
    ensures Inv(AfterSchedule(s, order, options))
  {
    if options.lane in s.lanes && !Shared(s, options) {
      QueuedLanes(s, options);
      QueuedKeys(s, options);
      QueuedOrder(s, options);
      assert ResourcesOk(Queued(s, options));
      PumpAllKeeps(Queued(s, options), order);
    }
  }

  // --- ending ---------------------------------------------------------------

  lemma RunningActive(s: Sched, job: Job)
    requires LanesOk(s) && job in s.running
    ensures job.lane in s.lanes && s.lanes[job.lane].active > 0
  {
    assert LaneOk(s, job.lane);
    assert job in RunningIn(s, job.lane);
  }

  lemma EndedLanes(s: Sched, job: Job)
    requires LanesOk(s) && job in s.running && job.lane in s.lanes && s.lanes[job.lane].active > 0
    ensures LanesOk(Ended(s, job))
  {
    var t := Ended(s, job);
    forall name | name in t.lanes ensures LaneOk(t, name) {
      assert LaneOk(s, name);
      if name == job.lane {
        assert RunningIn(t, name) == RunningIn(s, name) - {job};
      } else {
        assert RunningIn(t, name) == RunningIn(s, name);
      }
    }
  }

  lemma EndedLive(s: Sched, job: Job)
    requires KeysOk(s) && job in s.running && job.lane in s.lanes && s.lanes[job.lane].active > 0
    ensures var t := Ended(s, job);
      && (forall j :: Waiting(t, j) <==> Waiting(s, j))
      && (forall j :: LiveJob(t, j) <==> LiveJob(s, j) && j != job)
  {
  }

  lemma EndedKeys(s: Sched, job: Job)
    requires KeysOk(s) && job in s.running && job.lane in s.lanes && s.lanes[job.lane].active > 0
    ensures KeysOk(Ended(s, job))
  {
    var t := Ended(s, job);
    EndedLive(s, job);
    assert LiveJob(s, job);
    forall j | LiveJob(t, j) && j.dedupeKey != "" ensures j.dedupeKey in t.deduped && t.deduped[j.dedupeKey] == j.id {
      assert LiveJob(s, j);
    }
    forall key | key in t.deduped ensures key != "" && exists j :: LiveJob(t, j) && j.dedupeKey == key {
      var j :| LiveJob(s, j) && j.dedupeKey == key;
      assert LiveJob(t, j);
    }
  }

  lemma EndedResources(s: Sched, job: Job)
    requires ResourcesOk(s) && job in s.running && job.lane in s.lanes && s.lanes[job.lane].active > 0
    ensures ResourcesOk(Ended(s, job))
  {
  }

  lemma EndedOrder(s: Sched, job: Job)
    requires KeysOk(s) && InOrder(s) && job in s.running && job.lane in s.lanes && s.lanes[job.lane].active > 0
    ensures InOrder(Ended(s, job))
  {
  }

  lemma EndKeeps(s: Sched, order: seq<string>, job: Job)
    requires Inv(s) && Covers(s, order) && job in s.running && job.lane in s.lanes && s.lanes[job.lane].active > 0
    ensures Inv(AfterEnd(s, order, job))
  {
    EndedLanes(s, job);
    EndedKeys(s, job);
    EndedResources(s, job);
    EndedOrder(s, job);
    PumpAllKeeps(Ended(s, job), order);
  }

  lemma DrainKeeps(s: Sched, waiter: nat)
    requires Inv(s)
    ensures Inv(AfterDrain(s, waiter))
  {
    SameButWaiters(s, s.drainWaiters + [waiter]);
  }

  // --- what the invariant says ----------------------------------------------

  // When nothing runs any more, nothing waits either and every drain is over: a
  // scheduler with anything to do has something running.
  lemma QuietMeansDrained(s: Sched)
    requires Inv(s) && s.running == {}
    ensures Idle(s) && s.drainWaiters == []
  {
  }
}
