// Whether a fired schedule goes on towards delivery, and what cancelling stops.
module ScheduleDelivery {
  import opened Prelude
  import opened Text
  import opened Schedule
  import opened ScheduleSafety

  // --- nothing gets stuck ---------------------------------------------------

  ghost predicate OnItsWay(s: State, id: string)
    requires s.process.Up?
  {
    || id in s.durable.jobs
    || id in Ids(Carried(s.process))
    || id in Ids(s.durable.committed)
    || (s.process.replay.Replaying? && id in s.process.replay.remaining && id !in s.process.replay.active)
  }

  // While the process is up and its replay was not given up, every pending
  // delivery of an uncancelled schedule is on its way.
  ghost predicate Moving(s: State) {
    s.process.Up? && !s.process.replay.ReplayAborted? ==>
      forall id :: id in s.durable.pending && id !in s.history.cancelled ==> OnItsWay(s, id)
  }

  lemma EnqueueCarries(p: Process, wake: Wake)
    requires p.Up? && wake.scheduleId !in p.queued
    ensures Ids(Carried(Enqueue(p, wake))) == Ids(Carried(p)) + {wake.scheduleId}
  {
    assert Ids([wake]) == {wake.scheduleId} by { assert [wake][0].scheduleId in Ids([wake]); }
    IdsConcat(p.queue, Batch(p));
    IdsConcat(p.queue + [wake], Batch(p));
    IdsConcat(p.queue, [wake]);
  }

  lemma StartMoves(s: State, loadFails: bool)
    requires Inv(s) && Moving(s)
    ensures Moving(AfterStart(s, loadFails))
  {
  }

  lemma ReplaceMoves(s: State)
    requires Inv(s) && Moving(s) && s.process.Up? && s.process.firing.Some?
    requires s.process.firing.value.stage == ReplaceJobs
    ensures Moving(AfterFireStep(s, false))
  {
    var job := s.process.firing.value.job;
    EnqueueCarries(s.process.(jobs := s.process.jobs - {job.id}, firing := None), WakeOf(OccurrenceOf(job)));
  }

  lemma StoppedMoves(s: State)
    requires Inv(s) && Moving(s) && s.process.Up? && s.process.firing.Some?
    ensures Moving(s.(process := s.process.(firing := None)))
  {
  }

  lemma RecordMoves(s: State)
    requires Inv(s) && Moving(s) && s.process.Up? && s.process.firing.Some?
    requires s.process.firing.value.stage == RecordOccurrence
    ensures Moving(AfterFireStep(s, false))
  {
  }

  lemma PendingMoves(s: State)
    requires Inv(s) && Moving(s) && s.process.Up? && s.process.firing.Some?
    requires s.process.firing.value.stage == RecordPending
    ensures Moving(AfterFireStep(s, false))
  {
    assert s.process.firing.value.job.id in s.durable.jobs;
  }

  lemma FireMoves(s: State, storeFails: bool)
    requires Inv(s) && Moving(s)
    ensures Moving(AfterFireStep(s, storeFails))
  {
    if s.process.Up? && s.process.firing.Some? {
      if storeFails {
        StoppedMoves(s);
      } else {
        match s.process.firing.value.stage {
          case RecordOccurrence => RecordMoves(s);
          case RecordPending => PendingMoves(s);
          case ReplaceJobs => ReplaceMoves(s);
        }
      }
    }
  }

  lemma ReplayMoves(s: State, id: string, storeFails: bool)
    requires Inv(s) && Moving(s)
    ensures Moving(AfterReplayStep(s, id, storeFails))
  {
    if s.process.Up? && s.process.replay.Replaying? && id in s.process.replay.remaining
       && id !in s.process.replay.active && !storeFails {
      var r := s.process.replay;
      var known := if r.known.Some? then r.known.value else set w | w in s.durable.committed;
      EnqueueCarries(s.process.(replay := Replaying(r.remaining - {id}, r.active, Some(known))),
                     WakeOf(r.remaining[id]));
    }
  }

  lemma CommitMoves(s: State, end: CommitEnd)
    requires Inv(s) && Moving(s)
    ensures Moving(AfterCommit(s, end))
  {
    if s.process.Up? && s.process.loop.Draining? {
      IdsConcat(s.process.queue, s.process.loop.batch);
      IdsConcat(s.durable.committed, s.process.loop.batch);
      assert (s.process.queue + s.process.loop.batch) + [] == s.process.queue + s.process.loop.batch;
      assert s.process.queue + [] == s.process.queue;
    }
  }

  lemma DrainMoves(s: State)
    requires Inv(s) && Moving(s)
    ensures Moving(Step(s, Drain))
  {
    if s.process.Up? && s.process.loop == Idle {
      assert s.process.queue + [] == s.process.queue;
      assert [] + s.process.queue == s.process.queue;
    }
  }

  lemma CleanMoves(s: State, storeFails: bool)
    requires Inv(s) && Moving(s)
    ensures Moving(AfterCleanStep(s, storeFails))
  {
  }

  lemma StepMoves(s: State, a: Action)
    requires Inv(s) && Moving(s)
    ensures Moving(Step(s, a))
  {
    match a {
      case Start(loadFails) => StartMoves(s, loadFails);
      case FireStep(storeFails) => FireMoves(s, storeFails);
      case ReplayStep(id, storeFails) => ReplayMoves(s, id, storeFails);
      case Drain => DrainMoves(s);
      case Commit(end) => CommitMoves(s, end);
      case CleanStep(storeFails) => CleanMoves(s, storeFails);
      case _ =>
    }
  }

  lemma {:induction false} AlwaysMoving(actions: seq<Action>)
    ensures Moving(Run(Initial(), actions)) && Inv(Run(Initial(), actions))
  {
    AlwaysInv(actions);
    if actions != [] {
      AlwaysMoving(actions[..|actions| - 1]);
      StepMoves(Run(Initial(), actions[..|actions| - 1]), actions[|actions| - 1]);
    }
  }

  // Once a started process has replayed, each persisted and uncancelled schedule
  // is waiting, carried by the queue or the batch, or delivered.
  lemma NothingStuck(actions: seq<Action>)
    ensures var s := Run(Initial(), actions);
      s.process.Up? && s.process.replay == Replayed ==>
        forall id :: id in s.history.persisted && id !in s.history.cancelled ==>
          id in s.process.jobs || id in Ids(Carried(s.process)) || id in Ids(s.durable.committed)
  {
    AlwaysMoving(actions);
  }

  // --- cancelling -----------------------------------------------------------

  // Known, but nowhere left to be delivered from.
  ghost predicate Silent(s: State, id: string) {
    id in s.history.persisted && id !in s.durable.jobs && id !in s.durable.pending && id !in Ids(s.durable.committed)
  }

  lemma CommitStaysSilent(s: State, id: string, end: CommitEnd)
    requires Inv(s) && Silent(s, id)
    ensures Silent(AfterCommit(s, end), id)
  {
    if s.process.Up? && s.process.loop.Draining? {
      IdsConcat(s.durable.committed, s.process.loop.batch);
      IdsConcat(s.process.queue, s.process.loop.batch);
    }
  }

  lemma FireStaysSilent(s: State, id: string, storeFails: bool)
    requires Inv(s) && Silent(s, id)
    ensures Silent(AfterFireStep(s, storeFails), id)
  {
  }

  lemma ReplayStaysSilent(s: State, id: string, a: Action)
    requires Inv(s) && Silent(s, id) && (a.ReplayStep? || a.CleanStep?)
    ensures Silent(Step(s, a), id)
  {
  }

  lemma StepStaysSilent(s: State, id: string, a: Action)
    requires Inv(s) && Silent(s, id)
    ensures Silent(Step(s, a), id)
  {
    match a {
      case Commit(end) => CommitStaysSilent(s, id, end);
      case FireStep(storeFails) => FireStaysSilent(s, id, storeFails);
      case ReplayStep(_, _) => ReplayStaysSilent(s, id, a);
      case CleanStep(_) => ReplayStaysSilent(s, id, a);
      case _ =>
    }
  }

  lemma {:induction false} StaysSilent(s: State, id: string, actions: seq<Action>)
    requires Inv(s) && Silent(s, id)
    ensures Inv(Run(s, actions)) && Silent(Run(s, actions), id)
  {
    if actions != [] {
      StaysSilent(s, id, actions[..|actions| - 1]);
      StepKeeps(Run(s, actions[..|actions| - 1]), actions[|actions| - 1]);
      StepStaysSilent(Run(s, actions[..|actions| - 1]), id, actions[|actions| - 1]);
    }
  }

  // The way a cancelled wake can still arrive: restart, replay, commit.
  function Resurrection(id: string): seq<Action> {
    [Crash, Start(false), ReplayStep(id, false), Drain, Commit(Committed)]
  }

  lemma RunStep(s: State, actions: seq<Action>, a: Action)
    ensures Run(s, actions + [a]) == Step(Run(s, actions), a)
  {
  }

  lemma RunFour(s: State, a: Action, b: Action, c: Action, d: Action)
    ensures Run(s, [a, b, c, d]) == Step(Step(Step(Step(s, a), b), c), d)
  {
    RunStep(s, [], a);
    assert [] + [a] == [a];
    RunStep(s, [a], b);
    assert [a] + [b] == [a, b];
    RunStep(s, [a, b], c);
    assert [a, b] + [c] == [a, b, c];
    RunStep(s, [a, b, c], d);
    assert [a, b, c] + [d] == [a, b, c, d];
  }

  lemma RunFive(s: State, a: Action, b: Action, c: Action, d: Action, e: Action)
    ensures Run(s, [a, b, c, d, e]) == Step(Step(Step(Step(Step(s, a), b), c), d), e)
  {
    RunFour(s, a, b, c, d);
    RunStep(s, [a, b, c, d], e);
    assert [a, b, c, d] + [e] == [a, b, c, d, e];
  }

  // A restart brings a pending delivery back to the queue.
  lemma RestartQueues(t: State, id: string)
    requires Inv(t) && id in t.durable.pending && id !in t.durable.jobs && id !in Ids(t.durable.committed)
    ensures var r := Step(Step(Step(t, Crash), Start(false)), ReplayStep(id, false));
      && r.process.Up? && r.process.loop == Idle && r.process.synced
      && r.process.queue == [WakeOf(t.durable.pending[id])]
      && r.durable.committed == t.durable.committed
  {
    KnownIsCommitted(t);
    var wake := WakeOf(t.durable.pending[id]);
    assert wake !in (set w | w in t.durable.committed);
    assert [] + [wake] == [wake];
  }

  // A queued wake is committed when the host is in step with the ledger.
  lemma QueuedCommits(r: State, wake: Wake)
    requires r.process.Up? && r.process.loop == Idle && r.process.synced && r.process.queue == [wake]
    ensures wake.scheduleId in Ids(Step(Step(r, Drain), Commit(Committed)).durable.committed)
  {
    IdsConcat(r.durable.committed, [wake]);
    assert [wake][0].scheduleId in Ids([wake]);
  }

  lemma PendingResurrects(t: State, id: string)
    requires Inv(t) && id in t.durable.pending && id !in t.durable.jobs && id !in Ids(t.durable.committed)
    ensures id in Ids(Run(t, Resurrection(id)).durable.committed)
  {
    RunFive(t, Crash, Start(false), ReplayStep(id, false), Drain, Commit(Committed));
    RestartQueues(t, id);
    QueuedCommits(Step(Step(Step(t, Crash), Start(false)), ReplayStep(id, false)), WakeOf(t.durable.pending[id]));
  }

  // A cancelled schedule is never delivered exactly when, at the moment of
  // cancelling, no half-failed firing had left it pending.
  lemma CancelIsFinal(s: State, id: string)
    requires Inv(s) && s.process.Up? && s.process.firing.None? && id in s.process.jobs
    ensures (forall actions :: id !in Ids(Run(AfterCancel(s, id, false), actions).durable.committed))
            <==> id !in s.durable.pending
  {
    var t := AfterCancel(s, id, false);
    CancelKeeps(s, id, false);
    if id in s.durable.pending {
      PendingResurrects(t, id);
    } else {
      forall actions ensures id !in Ids(Run(t, actions).durable.committed) { StaysSilent(t, id, actions); }
    }
  }

  // --- a cancelled wake that arrives ----------------------------------------

  // The delivery is recorded, and then the job store refuses the write.
  function HalfFiring(id: string, now: nat): seq<Action> {
    [BeginFire(id, now), FireStep(false), FireStep(false), FireStep(true)]
  }

  // Such a firing leaves the job waiting and its delivery pending.
  lemma HalfFiringLeavesPending(s: State, id: string, now: nat)
    requires Inv(s) && s.process.Up? && s.process.firing.None? && id in s.process.jobs && s.process.jobs[id].at <= now
    requires |s.durable.pending| < MAX_PENDING_DELIVERIES
    ensures var t := Run(s, HalfFiring(id, now));
      t.process.Up? && t.process.firing.None? && id in t.process.jobs && id in t.durable.pending
  {
    RecordedKeeps(s.history, s.durable.occurrences, OccurrenceOf(s.process.jobs[id]));
    RunFour(s, BeginFire(id, now), FireStep(false), FireStep(false), FireStep(true));
  }

  lemma {:induction false} RunConcat(s: State, a: seq<Action>, b: seq<Action>)
    ensures Run(s, a + b) == Run(Run(s, a), b)
  {
    if b == [] {
      assert a + b == a;
    } else {
      assert (a + b)[..|a + b| - 1] == a + b[..|b| - 1];
      RunConcat(s, a, b[..|b| - 1]);
    }
  }

  lemma {:induction false} RunKeeps(s: State, actions: seq<Action>)
    requires Inv(s)
    ensures Inv(Run(s, actions))
  {
    if actions != [] {
      RunKeeps(s, actions[..|actions| - 1]);
      StepKeeps(Run(s, actions[..|actions| - 1]), actions[|actions| - 1]);
    }
  }

  lemma CancelThenArrives(t: State, id: string)
    requires Inv(t) && t.process.Up? && t.process.firing.None? && id in t.process.jobs && id in t.durable.pending
    ensures var cancelled := Step(t, Cancel(id, false));
      && id in cancelled.history.cancelled && id !in cancelled.durable.jobs
      && id in Ids(Run(cancelled, Resurrection(id)).durable.committed)
  {
    CancelKeeps(t, id, false);
    PendingResurrects(AfterCancel(t, id, false), id);
  }

  // From any state with a due schedule: a half-failed firing, a successful cancel,
  // a restart, and the cancelled wake is in the ledger.
  lemma CancelledWakeArrives(s: State, id: string, now: nat)
    requires Inv(s) && s.process.Up? && s.process.firing.None? && id in s.process.jobs && s.process.jobs[id].at <= now
    requires |s.durable.pending| < MAX_PENDING_DELIVERIES
    ensures var cancelled := Run(s, HalfFiring(id, now) + [Cancel(id, false)]);
      && id in cancelled.history.cancelled && id !in cancelled.durable.jobs
      && id in Ids(Run(cancelled, Resurrection(id)).durable.committed)
  {
    HalfFiringLeavesPending(s, id, now);
    RunKeeps(s, HalfFiring(id, now));
    RunStep(s, HalfFiring(id, now), Cancel(id, false));
    CancelThenArrives(Run(s, HalfFiring(id, now)), id);
  }

  const TEA := CreateInput("tea", "make tea", 60_000, 0, "s1")

  lemma TeaCreated()
    ensures var s := Run(Initial(), [Start(false), Create(TEA, false)]);
      && s.process.Up? && s.process.firing.None? && "s1" in s.process.jobs && s.process.jobs["s1"].at == 60_000
      && s.durable.pending == map[]
  {
    TrimSolid("tea");
    TrimSolid("make tea");
    RunStep(Initial(), [], Start(false));
    assert [] + [Start(false)] == [Start(false)];
    RunStep(Initial(), [Start(false)], Create(TEA, false));
    assert [Start(false)] + [Create(TEA, false)] == [Start(false), Create(TEA, false)];
  }

  // So it does from the very start.
  lemma CancelledTeaArrives()
    ensures var actions := [Start(false), Create(TEA, false)] + (HalfFiring("s1", 60_000) + [Cancel("s1", false)]);
      && "s1" in Run(Initial(), actions).history.cancelled
      && "s1" in Ids(Run(Initial(), actions + Resurrection("s1")).durable.committed)
  {
    var start := [Start(false), Create(TEA, false)];
    var rest := HalfFiring("s1", 60_000) + [Cancel("s1", false)];
    TeaCreated();
    AlwaysInv(start);
    CancelledWakeArrives(Run(Initial(), start), "s1", 60_000);
    RunConcat(Initial(), start, rest);
    RunConcat(Initial(), start + rest, Resurrection("s1"));
  }
}
