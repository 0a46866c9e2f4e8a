// The schedule runtime and delivery coordinator as one object over the durable
// stores. Each operation is a short run of the state machine's steps.
module ScheduleRuntime {
  import opened Prelude
  import opened Text
  import opened Schedule
  import opened ScheduleSafety

  // Which of the three writes of a firing fail.
  datatype Fate = Fate(occurrenceFails: bool, pendingFails: bool, replaceFails: bool)

  function FiringActions(id: string, now: nat, fate: Fate): seq<Action> {
    [BeginFire(id, now), FireStep(fate.occurrenceFails), FireStep(fate.pendingFails), FireStep(fate.replaceFails)]
  }

  lemma RunSnoc(s: State, actions: seq<Action>, a: Action)
    ensures Run(s, actions + [a]) == Step(Run(s, actions), a)
  {
    assert (actions + [a])[..|actions|] == actions;
  }

  lemma RunFour(s: State, a: Action, b: Action, c: Action, d: Action)
    ensures Run(s, [a, b, c, d]) == Step(Step(Step(Step(s, a), b), c), d)
  {
    RunSnoc(s, [], a);
    assert [] + [a] == [a];
    RunSnoc(s, [a], b);
    assert [a] + [b] == [a, b];
    RunSnoc(s, [a, b], c);
    assert [a, b] + [c] == [a, b, c];
    RunSnoc(s, [a, b, c], d);
    assert [a, b, c] + [d] == [a, b, c, d];
  }

  // The active schedules fit the limit and have different names; both record files fit theirs.
  ghost predicate Limits(s: State) {
    && |s.durable.jobs| <= MAX_ACTIVE_SCHEDULES
    && UniqueNames(s.durable.jobs)
    && |s.durable.occurrences| <= MAX_OCCURRENCES
    && |s.durable.pending| <= MAX_PENDING_DELIVERIES
  }

  ghost predicate UniqueNames(jobs: map<string, Job>) {
    forall a, b :: a in jobs && b in jobs && jobs[a].name == jobs[b].name ==> a == b
  }

  lemma SmallerMap<V>(m: map<string, V>, id: string)
    ensures |m - {id}| <= |m|
  {
    assert (m - {id}).Keys == m.Keys - {id};
    var rest := m.Keys - {id};
    if id in m { assert m.Keys == rest + {id}; } else { assert m.Keys == rest; }
    assert |(m - {id}).Keys| == |rest|;
  }

  lemma LargerMap<V>(m: map<string, V>, id: string, v: V)
    requires id !in m
    ensures |m[id := v]| == |m| + 1
  {
    assert m[id := v].Keys == m.Keys + {id};
  }

  lemma FewerJobs(jobs: map<string, Job>, id: string)
    ensures |jobs - {id}| <= |jobs|
    ensures UniqueNames(jobs) ==> UniqueNames(jobs - {id})
  {
    SmallerMap(jobs, id);
  }

  lemma MoreJobs(jobs: map<string, Job>, id: string, job: Job)
    requires id !in jobs && !Named(jobs, job.name)
    ensures |jobs[id := job]| == |jobs| + 1
    ensures UniqueNames(jobs) ==> UniqueNames(jobs[id := job])
  {
    LargerMap(jobs, id, job);
  }

  lemma CreateKeepsLimits(s: State, input: CreateInput, storeFails: bool)
    requires s.process.Up? ==> s.process.jobs == s.durable.jobs && s.process.jobs.Keys <= s.history.persisted.Keys
    requires Limits(s)
    ensures Limits(AfterCreate(s, input, storeFails))
  {
    if s.process.Up? && input.id !in s.history.persisted {
      var outcome := CreateOutcome(s.process.jobs, input, storeFails);
      if outcome.Created? { MoreJobs(s.process.jobs, input.id, outcome.job); }
    }
  }

  lemma FireKeepsLimits(s: State, storeFails: bool)
    requires s.process.Up? ==> s.process.jobs == s.durable.jobs
    requires Limits(s)
    ensures Limits(AfterFireStep(s, storeFails))
  {
    if s.process.Up? && s.process.firing.Some? && !storeFails {
      var job := s.process.firing.value.job;
      match s.process.firing.value.stage {
        case RecordOccurrence =>
        case RecordPending =>
          if job.id !in s.durable.pending { LargerMap(s.durable.pending, job.id, OccurrenceOf(job)); }
        case ReplaceJobs => FewerJobs(s.process.jobs, job.id);
      }
    }
  }

  lemma CancelKeepsLimits(s: State, id: string, storeFails: bool)
    requires s.process.Up? ==> s.process.jobs == s.durable.jobs
    requires Limits(s)
    ensures Limits(AfterCancel(s, id, storeFails))
  {
    if s.process.Up? { FewerJobs(s.process.jobs, id); }
  }

  lemma DeliveryKeepsLimits(s: State, a: Action)
    requires Limits(s) && (a.ReplayStep? || a.CleanStep?)
    ensures Limits(Step(s, a))
  {
    match a {
      case ReplayStep(id, _) => SmallerMap(s.durable.pending, id);
      case CleanStep(_) =>
        if s.process.Up? && s.process.loop.Cleaning? && s.process.loop.ids != [] {
          SmallerMap(s.durable.pending, s.process.loop.ids[0]);
        }
    }
  }

  lemma StepKeepsLimits(s: State, a: Action)
    requires s.process.Up? ==> s.process.jobs == s.durable.jobs && s.process.jobs.Keys <= s.history.persisted.Keys
    requires Limits(s)
    ensures Limits(Step(s, a))
  {
    match a {
      case Create(input, storeFails) => CreateKeepsLimits(s, input, storeFails);
      case Cancel(id, storeFails) => CancelKeepsLimits(s, id, storeFails);
      case FireStep(storeFails) => FireKeepsLimits(s, storeFails);
      case ReplayStep(_, _) => DeliveryKeepsLimits(s, a);
      case CleanStep(_) => DeliveryKeepsLimits(s, a);
      case Start(_) =>
      case Crash =>
      case BeginFire(_, _) =>
      case EndReplay =>
      case Drain =>
      case Commit(_) =>
      case Resync =>
      case RoundAckLost =>
      case EndRound =>
    }
  }

  // In every run the limits of the stored files hold, so every stored file loads again.
  lemma {:induction false} AlwaysWithinLimits(actions: seq<Action>)
    ensures Limits(Run(Initial(), actions))
  {
    if actions != [] {
      AlwaysInv(actions[..|actions| - 1]);
      AlwaysWithinLimits(actions[..|actions| - 1]);
      StepKeepsLimits(Run(Initial(), actions[..|actions| - 1]), actions[|actions| - 1]);
    }
  }

  class Runtime {
    var durable: Durable
    var jobs: map<string, Job>
    var timers: map<string, nat>
    var firing: Option<Firing>
    var queue: seq<Wake>
    var queuedScheduleIds: set<string>
    var replay: Replay
    var loop: Loop
    var synced: bool
    ghost var history: History

    ghost function State(): State
      reads this
    {
      Schedule.State(durable, Up(jobs, firing, queue, queuedScheduleIds, replay, loop, synced), history)
    }

    // One timer for each waiting schedule, and no name twice.
    ghost predicate Valid()
      reads this
    {
      && timers.Keys == jobs.Keys
      && (forall id :: id in jobs ==> timers[id] == jobs[id].at && jobs[id].id == id)
      && UniqueNames(jobs)
    }

    method FindByName(name: string) returns (r: Option<Job>)
      ensures r.None? <==> !Named(jobs, name)
      ensures r.Some? ==> exists id :: id in jobs && jobs[id] == r.value && r.value.name == name
    {
      var remaining := jobs;
      while remaining != map[]
        invariant remaining.Keys <= jobs.Keys
        invariant forall id :: id in remaining ==> remaining[id] == jobs[id]
        invariant forall id :: id in jobs && id !in remaining ==> jobs[id].name != name
        decreases |remaining.Keys|
      {
        var id :| id in remaining;
        if jobs[id].name == name { return Some(jobs[id]); }
        assert id in remaining.Keys;
        assert (remaining - {id}).Keys == remaining.Keys - {id};
        remaining := remaining - {id};
      }
      return None;
    }

    // The checks of create, in order; names are unique, so the one found is the one meant.
    method DecideCreate(input: CreateInput, storeFails: bool) returns (r: CreateResult)
      requires UniqueNames(jobs)
      ensures r == CreateOutcome(jobs, input, storeFails)
    {
      var name, intention := Trim(input.name), Trim(input.intention);
      if !TextOk(name, MAX_NAME_LENGTH) || !TextOk(intention, MAX_INTENTION_LENGTH) { return InvalidInput; }
      if !(MIN_AT_DELAY_MS <= input.at - input.now <= MAX_LIFETIME_MS) { return OutsideWindow; }
      var found := FindByName(name);
      if found.Some? {
        var existing := found.value;
        return if existing.intention == intention && existing.at == input.at then Existing(existing) else NameConflict;
      }
      if |jobs| >= MAX_ACTIVE_SCHEDULES { return ActiveLimitReached; }
      if storeFails { return CreateNotPersisted; }
      return Created(Job(input.id, name, intention, input.at, input.now));
    }

    // A new job is persisted, held and armed.
    method Register(job: Job)
      requires Valid() && job.id !in jobs && !Named(jobs, job.name)
      modifies this`durable, this`jobs, this`timers, this`history
      ensures Valid() && jobs == old(jobs)[job.id := job] && durable == old(durable).(jobs := jobs)
      ensures history == old(history).(persisted := old(history).persisted[job.id := job])
    {
      MoreJobs(jobs, job.id, job);
      durable := durable.(jobs := jobs[job.id := job]);
      jobs := jobs[job.id := job];
      timers := timers[job.id := job.at];
      history := history.(persisted := history.persisted[job.id := job]);
    }

    method Create(input: CreateInput, storeFails: bool) returns (r: CreateResult)
      requires Valid() && firing.None? && input.id !in history.persisted && input.id !in jobs
      modifies this`durable, this`jobs, this`timers, this`history
      ensures r == CreateOutcome(old(jobs), input, storeFails)
      ensures Valid() && State() == AfterCreate(old(State()), input, storeFails)
    {
      r := DecideCreate(input, storeFails);
      if r.Created? {
        assert !Named(jobs, r.job.name) && r.job.id == input.id;
        Register(r.job);
      }
    }

    method Cancel(id: string, storeFails: bool) returns (cancelled: bool)
      requires Valid() && firing.None?
      modifies this
      ensures Valid() && State() == AfterCancel(old(State()), id, storeFails)
      ensures cancelled <==> id in old(jobs) && !storeFails
      ensures cancelled ==> jobs == old(jobs) - {id} && id in history.cancelled
    {
      if id !in jobs || storeFails { return false; }
      Unregister(id);
      history := history.(cancelled := history.cancelled + {id});
      return true;
    }

    // A job is taken out of the store, out of memory, and disarmed.
    method Unregister(id: string)
      requires Valid() && id in jobs
      modifies this`durable, this`jobs, this`timers
      ensures Valid() && jobs == old(jobs) - {id} && durable == old(durable).(jobs := jobs)
    {
      FewerJobs(jobs, id);
      durable := durable.(jobs := jobs - {id});
      jobs := jobs - {id};
      timers := timers - {id};
    }

    // The deduplicating queue in front of the event queue.
    method Enqueue(wake: Wake)
      modifies this`queue, this`queuedScheduleIds
      ensures State().process == Schedule.Enqueue(old(State()).process, wake)
    {
      if wake.scheduleId !in queuedScheduleIds {
        queue := queue + [wake];
        queuedScheduleIds := queuedScheduleIds + {wake.scheduleId};
      }
    }

    // One write of a firing.
    method FireStage(storeFails: bool)
      requires Valid() && firing.Some? && firing.value.job.id in jobs
      modifies this
      ensures Valid() && State() == AfterFireStep(old(State()), storeFails)
      ensures firing.Some? ==> firing.value.job.id in jobs
    {
      var job, stage := firing.value.job, firing.value.stage;
      var occurrence := OccurrenceOf(job);
      firing := None;
      if storeFails { return; }
      match stage {
        case RecordOccurrence =>
          var occurrences := Recorded(durable.occurrences, occurrence);
          if occurrences.None? { return; }
          durable := durable.(occurrences := occurrences.value);
          firing := Some(Firing(job, RecordPending));
        case RecordPending =>
          var pending := WithPending(durable.pending, occurrence);
          if pending.None? { return; }
          durable := durable.(pending := pending.value);
          firing := Some(Firing(job, ReplaceJobs));
        case ReplaceJobs =>
          Unregister(job.id);
          Enqueue(WakeOf(occurrence));
      }
    }

    method BeginFiring(id: string, now: nat)
      requires Valid() && firing.None? && id in jobs
      modifies this`firing
      ensures State() == AfterBeginFire(old(State()), id, now)
      ensures firing.Some? <==> jobs[id].at <= now
    {
      if jobs[id].at <= now { firing := Some(Firing(jobs[id], RecordOccurrence)); }
    }

    // A timer that comes early is armed again; a firing that fails is tried again
    // by its timer; one that succeeds takes its timer with it.
    method ProcessTimer(id: string, now: nat, fate: Fate)
      requires Valid() && firing.None? && id in timers
      modifies this
      ensures Valid() && State() == Run(old(State()), FiringActions(id, now, fate))
    {
      ghost var before := State();
      RunFour(before, BeginFire(id, now), FireStep(fate.occurrenceFails), FireStep(fate.pendingFails),
              FireStep(fate.replaceFails));
      BeginFiring(id, now);
      assert State() == Step(before, BeginFire(id, now));
      StageIfFiring(fate.occurrenceFails);
      assert State() == Step(Step(before, BeginFire(id, now)), FireStep(fate.occurrenceFails));
      StageIfFiring(fate.pendingFails);
      StageIfFiring(fate.replaceFails);
    }

    // A firing that has failed does not go on.
    method StageIfFiring(storeFails: bool)
      requires Valid() && (firing.Some? ==> firing.value.job.id in jobs)
      modifies this
      ensures Valid() && (firing.Some? ==> firing.value.job.id in jobs)
      ensures State() == AfterFireStep(old(State()), storeFails)
    {
      if firing.Some? { FireStage(storeFails); }
    }

    // Replaying one pending delivery.
    method ReplayOne(id: string, storeFails: bool)
      requires replay.Replaying? && id in replay.remaining
      modifies this`replay, this`durable, this`queue, this`queuedScheduleIds
      ensures State() == AfterReplayStep(old(State()), id, storeFails)
    {
      var r := replay;
      var rest := r.remaining - {id};
      var wake := WakeOf(r.remaining[id]);
      if id in r.active {
        replay := r.(remaining := rest);
        return;
      }
      if storeFails {
        replay := ReplayAborted;
        return;
      }
      var known := if r.known.Some? then r.known.value else set w | w in durable.committed;
      replay := Replaying(rest, r.active, Some(known));
      if wake in known {
        durable := durable.(pending := durable.pending - {id});
        queuedScheduleIds := queuedScheduleIds - {id};
      } else {
        Enqueue(wake);
      }
    }

    // Cleaning up one delivery.
    method CleanOne(storeFails: bool)
      requires loop.Cleaning?
      modifies this`durable, this`queuedScheduleIds, this`loop
      ensures State() == AfterCleanStep(old(State()), storeFails)
    {
      if loop.ids == [] || storeFails {
        loop := Rounding;
      } else {
        durable := durable.(pending := durable.pending - {loop.ids[0]});
        queuedScheduleIds := queuedScheduleIds - {loop.ids[0]};
        loop := Cleaning(loop.ids[1..]);
      }
    }

    // Cleaning up after a commit, one delivery after the other, up to the first failure.
    method MarkCommitted(fails: set<string>)
      requires loop.Cleaning?
      modifies this`durable, this`queuedScheduleIds, this`loop
      ensures State() == Run(old(State()), CleanActions(old(loop).ids, fails))
      ensures loop == Rounding && durable == old(durable).(pending := durable.pending)
      ensures forall id :: id in durable.pending <==>
        id in old(durable).pending && !Cleaned(old(loop).ids, fails, id)
      ensures forall id :: id in queuedScheduleIds <==>
        id in old(queuedScheduleIds) && !Cleaned(old(loop).ids, fails, id)
    {
      ghost var start := State();
      while loop.Cleaning?
        invariant State().process.Up? && AfterCleaning(State(), fails) == AfterCleaning(start, fails)
        decreases if loop.Cleaning? then |loop.ids| + 1 else 0
      {
        var storeFails := loop.ids != [] && loop.ids[0] in fails;
        CleanOne(storeFails);
      }
      CleaningIsRun(start, fails);
      CleaningCleans(start, fails);
    }
  }

  // Cleaning ends after the last delivery or at the first failure.
  function CleanActions(ids: seq<string>, fails: set<string>): seq<Action> {
    if ids == [] then [CleanStep(false)]
    else if ids[0] in fails then [CleanStep(true)]
    else [CleanStep(false)] + CleanActions(ids[1..], fails)
  }

  predicate IsCleaning(s: State) {
    s.process.Up? && s.process.loop.Cleaning?
  }

  function NextClean(s: State, fails: set<string>): bool
    requires IsCleaning(s)
  {
    s.process.loop.ids != [] && s.process.loop.ids[0] in fails
  }

  function AfterCleaning(s: State, fails: set<string>): State
    decreases if IsCleaning(s) then |s.process.loop.ids| + 1 else 0
  {
    if IsCleaning(s) then AfterCleaning(AfterCleanStep(s, NextClean(s, fails)), fails) else s
  }

  lemma {:induction false} RunCons(s: State, a: Action, more: seq<Action>)
    ensures Run(s, [a] + more) == Run(Step(s, a), more)
  {
    if more == [] {
      RunSnoc(s, [], a);
      assert [a] + more == [] + [a];
    } else {
      var n := |more| - 1;
      assert ([a] + more)[..|[a] + more| - 1] == [a] + more[..n];
      RunCons(s, a, more[..n]);
    }
  }

  lemma {:induction false} CleaningIsRun(s: State, fails: set<string>)
    requires IsCleaning(s)
    ensures AfterCleaning(s, fails) == Run(s, CleanActions(s.process.loop.ids, fails))
    decreases |s.process.loop.ids|
  {
    var ids := s.process.loop.ids;
    var a := CleanStep(NextClean(s, fails));
    if ids == [] || ids[0] in fails {
      RunSnoc(s, [], a);
      assert [] + [a] == [a];
    } else {
      RunCons(s, a, CleanActions(ids[1..], fails));
      CleaningIsRun(Step(s, a), fails);
    }
  }

  // Cleaning takes away the deliveries up to the first failure, and nothing else.
  lemma {:induction false} CleaningCleans(s: State, fails: set<string>)
    requires IsCleaning(s)
    ensures var t, ids := AfterCleaning(s, fails), s.process.loop.ids;
      && t.process.Up? && t.process == s.process.(loop := Rounding, queued := t.process.queued)
      && t.durable == s.durable.(pending := t.durable.pending)
      && (forall id :: id in t.durable.pending <==> id in s.durable.pending && !Cleaned(ids, fails, id))
      && (forall id :: id in t.process.queued <==> id in s.process.queued && !Cleaned(ids, fails, id))
    decreases |s.process.loop.ids|
  {
    var ids := s.process.loop.ids;
    if ids != [] && ids[0] !in fails {
      var next := AfterCleanStep(s, false);
      CleaningCleans(next, fails);
      forall id ensures Cleaned(ids, fails, id) <==> id == ids[0] || Cleaned(ids[1..], fails, id) {
        CleanedCons(ids, fails, id);
      }
    }
  }

  lemma CleanedCons(ids: seq<string>, fails: set<string>, id: string)
    requires ids != [] && ids[0] !in fails
    ensures Cleaned(ids, fails, id) <==> id == ids[0] || Cleaned(ids[1..], fails, id)
  {
    if Cleaned(ids[1..], fails, id) {
      var k :| 0 <= k < |ids| - 1 && ids[1..][k] == id && forall i :: 0 <= i <= k ==> ids[1..][i] !in fails;
      assert ids[k + 1] == id;
      assert forall i :: 1 <= i <= k + 1 ==> ids[i] == ids[1..][i - 1];
    }
    if Cleaned(ids, fails, id) && id != ids[0] {
      var k :| 0 <= k < |ids| && ids[k] == id && forall i :: 0 <= i <= k ==> ids[i] !in fails;
      assert ids[1..][k - 1] == id;
    }
  }

  // The delivery is cleaned up: nothing before it, nor itself, failed.
  predicate Cleaned(ids: seq<string>, fails: set<string>, id: string) {
    exists k :: 0 <= k < |ids| && ids[k] == id && forall i :: 0 <= i <= k ==> ids[i] !in fails
  }
}
