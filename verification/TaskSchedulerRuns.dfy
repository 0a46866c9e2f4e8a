// The scheduler as an object, and what holds in every state it can reach.
module TaskSchedulerRuns {
  import opened TaskScheduler

  datatype Action = Schedule(options: Options) | End(job: Job) | Drain(waiter: nat)

  function Initial(lanes: map<string, nat>): Sched {
    Sched(map name | name in lanes :: Lane(lanes[name], 0, []), {}, map[], [], {}, [], 0)
  }

  // Only a running task can end.
  ghost function Step(s: Sched, order: seq<string>, a: Action): Sched
    requires Covers(s, order)
  {
    match a
    case Schedule(options) => AfterSchedule(s, order, options)
    case End(job) =>
      if job in s.running && job.lane in s.lanes && s.lanes[job.lane].active > 0 then AfterEnd(s, order, job) else s
    case Drain(waiter) => AfterDrain(s, waiter)
  }

  lemma StepCovers(s: Sched, order: seq<string>, a: Action)
    requires Covers(s, order)
    ensures Covers(Step(s, order, a), order)
  {
    match a {
      case Schedule(options) =>
        if options.lane in s.lanes && !Shared(s, options) { PumpAllSettles(Queued(s, options), order); }
      case End(job) =>
        if job in s.running && job.lane in s.lanes && s.lanes[job.lane].active > 0 {
          PumpAllSettles(Ended(s, job), order);
        }
      case Drain(_) =>
    }
  }

  lemma StepKeeps(s: Sched, order: seq<string>, a: Action)
    requires Inv(s) && Covers(s, order)
    ensures Inv(Step(s, order, a))
  {
    match a {
      case Schedule(options) => ScheduleKeeps(s, order, options);
      case End(job) =>
        if job in s.running && job.lane in s.lanes && s.lanes[job.lane].active > 0 { EndKeeps(s, order, job); }
      case Drain(waiter) => DrainKeeps(s, waiter);
    }
  }

  ghost predicate Reaches(s: Sched, order: seq<string>, actions: seq<Action>, t: Sched)
    decreases |actions|
  {
    if actions == [] then s == t
    else Covers(s, order) && Reaches(Step(s, order, actions[0]), order, actions[1..], t)
  }

  lemma {:induction false} ReachedKeeps(s: Sched, order: seq<string>, actions: seq<Action>, t: Sched)
    requires Inv(s) && Covers(s, order) && Reaches(s, order, actions, t)
    ensures Inv(t)
    decreases |actions|
  {
    if actions != [] {
      StepKeeps(s, order, actions[0]);
      StepCovers(s, order, actions[0]);
      ReachedKeeps(Step(s, order, actions[0]), order, actions[1..], t);
    }
  }

  lemma InitialInv(lanes: map<string, nat>)
    requires forall name :: name in lanes ==> lanes[name] >= 1
    ensures Inv(Initial(lanes))
  {
    var s := Initial(lanes);
    forall name | name in s.lanes ensures LaneOk(s, name) { assert RunningIn(s, name) == {}; }
  }

  // In every reachable state: lanes keep to their concurrency, no two running
  // tasks share a resource, a live key stands for one task, tasks of one lane with
  // the same resource began in the order they came, no lane with room holds a task
  // that could begin, and a scheduler with work has something running.
  lemma AlwaysOrderly(lanes: map<string, nat>, order: seq<string>, actions: seq<Action>, t: Sched)
    requires forall name :: name in lanes ==> lanes[name] >= 1
    requires Covers(Initial(lanes), order) && Reaches(Initial(lanes), order, actions, t)
    ensures forall name :: name in t.lanes ==> |RunningIn(t, name)| <= t.lanes[name].concurrency
    ensures forall a, b :: a in t.running && b in t.running && a.resourceKey == b.resourceKey != "" ==> a == b
    ensures forall key :: key in t.activeResources <==>
      key != "" && exists job :: job in t.running && job.resourceKey == key
    ensures forall a, b :: LiveJob(t, a) && LiveJob(t, b) && a.dedupeKey == b.dedupeKey != "" ==> a == b
    ensures BegunInOrder(t.started)
    ensures forall name, i :: name in t.lanes && 0 <= i < |t.lanes[name].queue| ==>
      |RunningIn(t, name)| == t.lanes[name].concurrency || !Eligible(t.activeResources, t.lanes[name].queue[i])
    ensures t.running == {} ==> Idle(t) && t.drainWaiters == []
  {
    InitialInv(lanes);
    ReachedKeeps(Initial(lanes), order, actions, t);
    if t.running == {} { QuietMeansDrained(t); }
    forall name | name in t.lanes
      ensures |RunningIn(t, name)| <= t.lanes[name].concurrency
      ensures forall i :: 0 <= i < |t.lanes[name].queue| ==>
        |RunningIn(t, name)| == t.lanes[name].concurrency || !Eligible(t.activeResources, t.lanes[name].queue[i])
    {
      assert LaneOk(t, name) && Settled(t, name);
    }
  }

  // --- draining ends --------------------------------------------------------

  lemma {:induction false} PumpLaneLive(s: Sched, name: string)
    requires Base(s) && name in s.lanes
    ensures forall j :: LiveJob(PumpLane(s, name), j) <==> LiveJob(s, j)
    decreases |s.lanes[name].queue|
  {
    var index := FirstEligible(s.lanes[name].queue, s.activeResources);
    if s.lanes[name].active < s.lanes[name].concurrency && index >= 0 {
      StartWaiting(s, name, index);
      StartBase(s, name, index);
      PumpLaneLive(StartJob(s, name, index), name);
    }
  }

  lemma {:induction false} PumpLanesLive(s: Sched, order: seq<string>)
    requires Base(s) && forall i :: 0 <= i < |order| ==> order[i] in s.lanes
    ensures forall j :: LiveJob(PumpLanes(s, order), j) <==> LiveJob(s, j)
    decreases |order|
  {
    if order != [] {
      var front := order[..|order| - 1];
      PumpLanesLive(s, front);
      PumpLanesFrame(s, front);
      PumpLanesBase(s, front);
      PumpLaneLive(PumpLanes(s, front), order[|order| - 1]);
    }
  }

  ghost predicate IdLive(s: Sched, id: nat) {
    exists j :: LiveJob(s, j) && j.id == id
  }

  ghost function LiveIds(s: Sched): set<nat> {
    set id: nat | id < s.nextId && IdLive(s, id)
  }

  lemma OneLess(s: Sched, t: Sched, job: Job)
    requires KeysOk(s) && LiveJob(s, job) && t.nextId == s.nextId
    requires forall j :: LiveJob(t, j) <==> LiveJob(s, j) && j != job
    ensures |LiveIds(t)| == |LiveIds(s)| - 1
  {
    forall id: nat ensures IdLive(t, id) <==> IdLive(s, id) && id != job.id {
      if IdLive(s, id) && id != job.id {
        var j :| LiveJob(s, j) && j.id == id;
        assert LiveJob(t, j);
      }
    }
    assert IdLive(s, job.id);
    assert LiveIds(t) == LiveIds(s) - {job.id};
  }

  lemma PumpAllLive(s: Sched, order: seq<string>)
    requires Base(s) && Covers(s, order)
    ensures PumpAll(s, order).nextId == s.nextId
    ensures forall j :: LiveJob(PumpAll(s, order), j) <==> LiveJob(s, j)
  {
    PumpLanesLive(s, order);
    PumpLanesFrame(s, order);
    SameLive(PumpLanes(s, order), PumpAll(s, order));
  }

  lemma EndLive(s: Sched, order: seq<string>, job: Job)
    requires Inv(s) && Covers(s, order) && job in s.running && job.lane in s.lanes && s.lanes[job.lane].active > 0
    ensures var t := AfterEnd(s, order, job);
      t.nextId == s.nextId && forall j :: LiveJob(t, j) <==> LiveJob(s, j) && j != job
  {
    EndedLive(s, job);
    EndedBase(s, job);
    PumpAllLive(Ended(s, job), order);
  }

  lemma EndShrinks(s: Sched, order: seq<string>, job: Job)
    requires Inv(s) && Covers(s, order) && job in s.running && job.lane in s.lanes && s.lanes[job.lane].active > 0
    ensures |LiveIds(AfterEnd(s, order, job))| == |LiveIds(s)| - 1
  {
    EndLive(s, order, job);
    OneLess(s, AfterEnd(s, order, job), job);
  }

  lemma EndedBase(s: Sched, job: Job)
    requires Inv(s) && job in s.running && job.lane in s.lanes && s.lanes[job.lane].active > 0
    ensures Base(Ended(s, job))
  {
    EndedLanes(s, job);
    EndedKeys(s, job);
    EndedResources(s, job);
    EndedOrder(s, job);
  }

  // A scheduler that is not idle has a task running, so an end is always possible.
  lemma SomethingCanEnd(s: Sched)
    requires Inv(s) && !Idle(s)
    ensures exists job :: job in s.running && job.lane in s.lanes && s.lanes[job.lane].active > 0
  {
    if s.running == {} { QuietMeansDrained(s); }
    var job :| job in s.running;
    RunningActive(s, job);
  }

  // Tasks end one after the other, and no new ones come.
  ghost predicate EndsOnly(s: Sched, order: seq<string>, jobs: seq<Job>, t: Sched)
    decreases |jobs|
  {
    if jobs == [] then s == t
    else
      && Covers(s, order) && jobs[0] in s.running && jobs[0].lane in s.lanes && s.lanes[jobs[0].lane].active > 0
      && EndsOnly(AfterEnd(s, order, jobs[0]), order, jobs[1..], t)
  }

  lemma NobodyLeft(s: Sched)
    requires Inv(s)
    ensures s.running == {} ==> Idle(s) && s.drainWaiters == []
    ensures LiveIds(s) == {} ==> s.running == {}
  {
    if s.running == {} { QuietMeansDrained(s); }
    forall job | job in s.running ensures job.id in LiveIds(s) { assert LiveJob(s, job); }
  }

  lemma EndStep(s: Sched, order: seq<string>, job: Job)
    requires Inv(s) && Covers(s, order) && job in s.running && job.lane in s.lanes && s.lanes[job.lane].active > 0
    ensures |LiveIds(AfterEnd(s, order, job))| == |LiveIds(s)| - 1
    ensures Inv(AfterEnd(s, order, job)) && Covers(AfterEnd(s, order, job), order)
  {
    EndShrinks(s, order, job);
    EndKeeps(s, order, job);
    PumpAllSettles(Ended(s, job), order);
  }

  // With no new tasks, each end leaves one live task less; as long as there is one
  // left something is running, and after the last end every drain is resolved.
  lemma {:induction false} DrainEnds(s: Sched, order: seq<string>, jobs: seq<Job>, t: Sched)
    requires Inv(s) && Covers(s, order) && EndsOnly(s, order, jobs, t)
    ensures |LiveIds(t)| == |LiveIds(s)| - |jobs|
    ensures t.running == {} ==> Idle(t) && t.drainWaiters == []
    ensures LiveIds(t) == {} ==> t.running == {}
    decreases |jobs|
  {
    if jobs == [] {
      NobodyLeft(t);
    } else {
      EndStep(s, order, jobs[0]);
      DrainEnds(AfterEnd(s, order, jobs[0]), order, jobs[1..], t);
    }
  }

  // --- the object -----------------------------------------------------------

  class Scheduler {
    const order: seq<string>
    var lanes: map<string, Lane>
    var activeResources: set<string>
    var deduped: map<string, nat>
    var drainWaiters: seq<nat>
    var running: set<Job>
    ghost var started: seq<Job>
    var nextId: nat

    ghost function State(): Sched
      reads this
    {
      Sched(lanes, activeResources, deduped, drainWaiters, running, started, nextId)
    }

    constructor (config: map<string, nat>, order: seq<string>)
      ensures State() == Initial(config) && this.order == order
    {
      this.order := order;
      lanes := map name | name in config :: Lane(config[name], 0, []);
      activeResources, deduped, drainWaiters, running, started, nextId := {}, map[], [], {}, [], 0;
    }

    method IsIdle() returns (idle: bool)
      requires Covers(State(), order)
      ensures idle <==> Idle(State())
    {
      for i := 0 to |order|
        invariant forall j :: 0 <= j < i ==> LaneIdle(lanes[order[j]])
      {
        if lanes[order[i]].active > 0 || |lanes[order[i]].queue| > 0 { return false; }
      }
      forall name | name in lanes ensures LaneIdle(lanes[name]) {
        assert name in order;
      }
      return true;
    }

    method Begin(name: string, index: nat)
      requires name in lanes && index < |lanes[name].queue|
      modifies this
      ensures State() == StartJob(old(State()), name, index)
    {
      var lane := lanes[name];
      var job := lane.queue[index];
      lanes := lanes[name := lane.(active := lane.active + 1, queue := lane.queue[..index] + lane.queue[index + 1..])];
      if job.resourceKey != "" { activeResources := activeResources + {job.resourceKey}; }
      running := running + {job};
      started := started + [job];
    }

    method PumpOneLane(name: string)
      requires name in lanes
      modifies this
      ensures State() == PumpLane(old(State()), name)
    {
      while lanes[name].active < lanes[name].concurrency
        invariant name in lanes
        invariant PumpLane(old(State()), name) == PumpLane(State(), name)
        decreases |lanes[name].queue|
      {
        var index := FirstEligible(lanes[name].queue, activeResources);
        if index < 0 { return; }
        Begin(name, index);
      }
    }

    method PumpEveryLane()
      requires Covers(State(), order)
      modifies this
      ensures State() == PumpAll(old(State()), order)
    {
      for i := 0 to |order|
        invariant State() == PumpLanes(old(State()), order[..i])
      {
        assert order[..i + 1][..i] == order[..i];
        PumpLanesKeys(old(State()), order[..i]);
        PumpOneLane(order[i]);
      }
      assert order[..|order|] == order;
      PumpLanesKeys(old(State()), order);
      var idle := IsIdle();
      if idle { drainWaiters := []; }
    }

    method ScheduleTask(options: Options) returns (r: Scheduled)
      requires Covers(State(), order)
      modifies this
      ensures State() == AfterSchedule(old(State()), order, options)
      ensures r == if options.lane !in old(lanes) then UnknownLane
                   else if Shared(old(State()), options) then Promise(old(deduped)[options.dedupeKey])
                   else Promise(old(nextId))
    {
      if options.lane !in lanes { return UnknownLane; }
      if options.dedupeKey != "" && options.dedupeKey in deduped { return Promise(deduped[options.dedupeKey]); }
      var lane := lanes[options.lane];
      var job := Job(nextId, options.lane, options.resourceKey, options.dedupeKey);
      lanes := lanes[options.lane := lane.(queue := lane.queue + [job])];
      if options.dedupeKey != "" { deduped := deduped[options.dedupeKey := job.id]; }
      nextId := nextId + 1;
      PumpEveryLane();
      return Promise(job.id);
    }

    // A task has settled, whichever way.
    method TaskSettled(job: Job)
      requires Covers(State(), order) && job.lane in lanes && lanes[job.lane].active > 0
      modifies this
      ensures State() == AfterEnd(old(State()), order, job)
    {
      var lane := lanes[job.lane];
      lanes := lanes[job.lane := lane.(active := lane.active - 1)];
      if job.resourceKey != "" { activeResources := activeResources - {job.resourceKey}; }
      if job.dedupeKey != "" { deduped := deduped - {job.dedupeKey}; }
      running := running - {job};
      PumpEveryLane();
    }

    method WaitUntilDrained(waiter: nat) returns (resolved: bool)
      requires Covers(State(), order)
      modifies this
      ensures State() == AfterDrain(old(State()), waiter)
      ensures resolved <==> Idle(old(State()))
    {
      resolved := IsIdle();
      if !resolved { drainWaiters := drainWaiters + [waiter]; }
    }
  }
}
