// No schedule is lost and no wake is committed twice, whatever fails or crashes.
module ScheduleSafety {
  import opened Prelude
  import opened Schedule

  // --- invariants -----------------------------------------------------------

  ghost predicate IsOccurrence(h: History, occurrence: Occurrence) {
    occurrence.scheduleId in h.persisted && occurrence == OccurrenceOf(h.persisted[occurrence.scheduleId])
  }

  ghost predicate IsWake(h: History, wake: Wake) {
    wake.scheduleId in h.persisted && wake == WakeOf(OccurrenceOf(h.persisted[wake.scheduleId]))
  }

  ghost predicate AreWakes(h: History, wakes: seq<Wake>) {
    forall i :: 0 <= i < |wakes| ==> IsWake(h, wakes[i])
  }

  ghost predicate ArePending(h: History, pending: map<string, Occurrence>) {
    forall id :: id in pending ==> pending[id].scheduleId == id && IsOccurrence(h, pending[id])
  }

  ghost predicate AreRecorded(h: History, occurrences: seq<Occurrence>) {
    forall i :: 0 <= i < |occurrences| ==> IsOccurrence(h, occurrences[i])
  }

  ghost predicate IdsMatch(h: History) {
    forall id :: id in h.persisted ==> h.persisted[id].id == id
  }

  // Every record anywhere is about a schedule that was persisted, and says what it said.
  ghost predicate Records(s: State) {
    && IdsMatch(s.history)
    && (forall id :: id in s.durable.jobs ==>
        id in s.history.persisted && s.durable.jobs[id] == s.history.persisted[id])
    && AreRecorded(s.history, s.durable.occurrences)
    && ArePending(s.history, s.durable.pending)
    && AreWakes(s.history, s.durable.committed)
    && s.history.cancelled <= s.history.persisted.Keys
  }

  function Ids(wakes: seq<Wake>): set<string> {
    set i | 0 <= i < |wakes| :: wakes[i].scheduleId
  }

  // What the queue and the drained batch carry.
  function Batch(p: Process): seq<Wake> {
    if p.Up? && p.loop.Draining? then p.loop.batch else []
  }

  function Carried(p: Process): seq<Wake> {
    if p.Up? then p.queue + Batch(p) else []
  }

  // A persisted schedule that was not cancelled is waiting, pending or delivered.
  ghost predicate Kept(s: State) {
    forall id :: id in s.history.persisted && id !in s.history.cancelled ==>
      id in s.durable.jobs || id in s.durable.pending || id in Ids(s.durable.committed)
  }

  // Delivered at most once, and never while still waiting.
  ghost predicate Once(s: State) {
    && Distinct(IdsOf(s.durable.committed))
    && forall id :: id in s.durable.jobs ==> id !in Ids(s.durable.committed) && id !in s.history.cancelled
  }

  ghost predicate FiringOk(s: State) {
    s.process.Up? && s.process.firing.Some? ==>
      var f := s.process.firing.value;
      && f.job.id in s.process.jobs && s.process.jobs[f.job.id] == f.job
      && (f.stage == ReplaceJobs ==> f.job.id in s.durable.pending)
  }

  // What is being carried is pending, admitted once, and no longer waiting.
  ghost predicate CarriedOk(s: State) {
    s.process.Up? ==>
      && s.process.jobs == s.durable.jobs
      && AreWakes(s.history, Carried(s.process))
      && Distinct(IdsOf(Carried(s.process)))
      && (forall id :: id in Ids(Carried(s.process)) ==> id in s.process.queued && id in s.durable.pending)
      && (forall id :: id in s.process.queued ==> id !in s.durable.jobs && id in s.history.persisted)
  }

  // A wake that is in the ledger and carried again can only be there because the
  // host lost track of the ledger, and then it cannot commit.
  ghost predicate LoopOk(s: State) {
    s.process.Up? ==>
      match s.process.loop
      case Idle => !s.process.synced || Ids(s.process.queue) !! Ids(s.durable.committed)
      case Draining(batch) =>
        && Ids(s.process.queue) !! Ids(s.durable.committed)
        && (!s.process.synced || Ids(batch) !! Ids(s.durable.committed))
      case Cleaning(ids) =>
        && Ids(s.process.queue) !! Ids(s.durable.committed)
        && Distinct(ids)
        && forall i :: 0 <= i < |ids| ==> ids[i] in Ids(s.durable.committed) && ids[i] in s.process.queued
      case Rounding => Ids(s.process.queue) !! Ids(s.durable.committed)
  }

  // Deliveries still to be replayed are not under way by any other road.
  ghost predicate ReplayOk(s: State) {
    s.process.Up? && s.process.replay.Replaying? ==>
      var r := s.process.replay;
      && ArePending(s.history, r.remaining)
      && r.active <= s.history.persisted.Keys
      && forall id :: id in r.remaining && id !in r.active ==>
           && id !in s.durable.jobs && id !in s.process.queued && id in s.durable.pending
           && (r.known.Some? ==> (WakeOf(r.remaining[id]) in r.known.value <==> id in Ids(s.durable.committed)))
  }

  ghost predicate Inv(s: State) {
    Records(s) && Kept(s) && Once(s) && FiringOk(s) && CarriedOk(s) && LoopOk(s) && ReplayOk(s)
  }

  // --- each step keeps them -------------------------------------------------

  lemma IdsConcat(a: seq<Wake>, b: seq<Wake>)
    ensures Ids(a + b) == Ids(a) + Ids(b)
    ensures IdsOf(a + b) == IdsOf(a) + IdsOf(b)
  {
    forall id | id in Ids(a) + Ids(b) ensures id in Ids(a + b) {
      if id in Ids(a) {
        var i :| 0 <= i < |a| && a[i].scheduleId == id;
        assert (a + b)[i].scheduleId == id;
      } else {
        var i :| 0 <= i < |b| && b[i].scheduleId == id;
        assert (a + b)[|a| + i].scheduleId == id;
      }
    }
  }

  lemma IdsDisjoint(a: seq<Wake>, b: seq<Wake>)
    ensures Disjoint(IdsOf(a), IdsOf(b)) <==> Ids(a) !! Ids(b)
  {
    if Disjoint(IdsOf(a), IdsOf(b)) {
      forall id | id in Ids(a) ensures id !in Ids(b) {
        var i :| 0 <= i < |a| && a[i].scheduleId == id;
        forall j | 0 <= j < |b| ensures b[j].scheduleId != id { assert IdsOf(a)[i] != IdsOf(b)[j]; }
      }
    }
    if Ids(a) !! Ids(b) {
      forall i, j | 0 <= i < |a| && 0 <= j < |b| ensures IdsOf(a)[i] != IdsOf(b)[j] {
        assert a[i].scheduleId in Ids(a) && b[j].scheduleId in Ids(b);
      }
    }
  }

  lemma WakesConcat(h: History, a: seq<Wake>, b: seq<Wake>)
    ensures AreWakes(h, a + b) <==> AreWakes(h, a) && AreWakes(h, b)
  {
    if AreWakes(h, a + b) {
      forall i | 0 <= i < |a| ensures IsWake(h, a[i]) { assert (a + b)[i] == a[i]; }
      forall i | 0 <= i < |b| ensures IsWake(h, b[i]) { assert (a + b)[|a| + i] == b[i]; }
    }
  }

  lemma StartKeeps(s: State, loadFails: bool)
    requires Inv(s)
    ensures Inv(AfterStart(s, loadFails))
  {
  }

  lemma CrashKeeps(s: State)
    requires Inv(s)
    ensures Inv(Step(s, Crash))
  {
  }

  // One more job under an id that nothing has been recorded about.
  lemma MoreJobsRecorded(s: State, t: State, job: Job)
    requires Inv(s) && job.id !in s.history.persisted
    requires t.history == s.history.(persisted := s.history.persisted[job.id := job])
    requires t.durable == s.durable.(jobs := s.durable.jobs[job.id := job])
    ensures Records(t) && Kept(t)
  {
  }

  lemma MoreJobsOnce(s: State, t: State, job: Job)
    requires Inv(s) && job.id !in s.history.persisted && t.history.cancelled == s.history.cancelled
    requires t.durable == s.durable.(jobs := s.durable.jobs[job.id := job])
    ensures Once(t)
  {
    forall i | 0 <= i < |s.durable.committed| ensures s.durable.committed[i].scheduleId != job.id {
      assert IsWake(s.history, s.durable.committed[i]);
    }
  }

  lemma MoreJobsKeep(s: State, t: State, job: Job)
    requires Inv(s) && s.process.Up? && job.id !in s.history.persisted
    requires t.history == s.history.(persisted := s.history.persisted[job.id := job])
    requires t.durable == s.durable.(jobs := s.durable.jobs[job.id := job])
    requires t.process == s.process.(jobs := s.process.jobs[job.id := job])
    ensures Inv(t)
  {
    MoreJobsRecorded(s, t, job);
    MoreJobsOnce(s, t, job);
    MoreJobsCarried(s, t, job);
  }

  lemma MoreJobsCarried(s: State, t: State, job: Job)
    requires Inv(s) && s.process.Up? && job.id !in s.history.persisted
    requires t.history == s.history.(persisted := s.history.persisted[job.id := job])
    requires t.durable == s.durable.(jobs := s.durable.jobs[job.id := job])
    requires t.process == s.process.(jobs := s.process.jobs[job.id := job])
    ensures FiringOk(t) && CarriedOk(t) && LoopOk(t) && ReplayOk(t)
  {
  }

  lemma CreateKeeps(s: State, input: CreateInput, storeFails: bool)
    requires Inv(s)
    ensures Inv(AfterCreate(s, input, storeFails))
  {
    var t := AfterCreate(s, input, storeFails);
    if t != s { MoreJobsKeep(s, t, CreateOutcome(s.process.jobs, input, storeFails).job); }
  }

  lemma CancelKeeps(s: State, id: string, storeFails: bool)
    requires Inv(s)
    ensures Inv(AfterCancel(s, id, storeFails))
  {
  }

  lemma BeginFireKeeps(s: State, id: string, now: nat)
    requires Inv(s)
    ensures Inv(AfterBeginFire(s, id, now))
  {
  }

  lemma {:induction false} RecordedKeeps(h: History, occurrences: seq<Occurrence>, occurrence: Occurrence)
    requires AreRecorded(h, occurrences) && IsOccurrence(h, occurrence)
    ensures Recorded(occurrences, occurrence).Some? && AreRecorded(h, Recorded(occurrences, occurrence).value)
  {
    FoundIsRecorded(h, occurrences, occurrence.scheduleId);
  }

  lemma {:induction false} FoundIsRecorded(h: History, occurrences: seq<Occurrence>, id: string)
    requires AreRecorded(h, occurrences)
    ensures var found := FindOccurrence(occurrences, id);
      found.Some? ==> IsOccurrence(h, found.value) && found.value.scheduleId == id
  {
    if occurrences != [] && occurrences[0].scheduleId != id { FoundIsRecorded(h, occurrences[1..], id); }
  }

  // Letting a wake in that is neither carried nor in the ledger.
  lemma EnqueueKeeps(s: State, wake: Wake)
    requires s.process.Up? && CarriedOk(s) && LoopOk(s)
    requires IsWake(s.history, wake) && wake.scheduleId in s.durable.pending && wake.scheduleId !in s.durable.jobs
    requires wake.scheduleId !in s.process.queued && wake.scheduleId !in Ids(s.durable.committed)
    ensures var t := s.(process := Enqueue(s.process, wake)); CarriedOk(t) && LoopOk(t)
  {
    var queue, batch := s.process.queue, Batch(s.process);
    assert Ids([wake]) == {wake.scheduleId} by { assert [wake][0].scheduleId in Ids([wake]); }
    IdsConcat(queue, [wake]);
    IdsConcat(queue, batch);
    IdsConcat(queue + [wake], batch);
    WakesConcat(s.history, queue, batch);
    WakesConcat(s.history, queue, [wake]);
    WakesConcat(s.history, queue + [wake], batch);
    DistinctWakes(queue, batch);
    DistinctWakes(queue, [wake]);
    DistinctWakes(queue + [wake], batch);
  }

  lemma DistinctWakes(a: seq<Wake>, b: seq<Wake>)
    ensures Distinct(IdsOf(a + b)) <==> Distinct(IdsOf(a)) && Distinct(IdsOf(b)) && Ids(a) !! Ids(b)
  {
    IdsConcat(a, b);
    DistinctConcat(IdsOf(a), IdsOf(b));
    IdsDisjoint(a, b);
  }

  lemma OccurrenceStepKeeps(s: State)
    requires Inv(s) && s.process.Up? && s.process.firing.Some? && s.process.firing.value.stage == RecordOccurrence
    ensures Inv(AfterFireStep(s, false))
  {
    RecordedKeeps(s.history, s.durable.occurrences, OccurrenceOf(s.process.firing.value.job));
  }

  // One more pending delivery, of the firing that is under way.
  lemma MorePending(s: State, t: State, occurrence: Occurrence)
    requires Inv(s) && s.process.Up? && t.process.Up? && t.history == s.history && IsOccurrence(s.history, occurrence)
    requires t.durable == s.durable.(pending := s.durable.pending[occurrence.scheduleId := occurrence])
    requires t.process == s.process.(firing := t.process.firing) && FiringOk(t)
    ensures Inv(t)
  {
    assert Records(t) && Kept(t) && Once(t);
    assert CarriedOk(t) && LoopOk(t);
  }

  lemma PendingStepKeeps(s: State)
    requires Inv(s) && s.process.Up? && s.process.firing.Some? && s.process.firing.value.stage == RecordPending
    ensures Inv(AfterFireStep(s, false))
  {
    var occurrence := OccurrenceOf(s.process.firing.value.job);
    if WithPending(s.durable.pending, occurrence).Some? { MorePending(s, AfterFireStep(s, false), occurrence); }
  }

  lemma ReplaceStepKeeps(s: State)
    requires Inv(s) && s.process.Up? && s.process.firing.Some? && s.process.firing.value.stage == ReplaceJobs
    ensures Inv(AfterFireStep(s, false))
  {
    var job := s.process.firing.value.job;
    var jobs := s.process.jobs - {job.id};
    var between := Merge(s, s.durable.(jobs := jobs), s.process.(jobs := jobs, firing := None));
    assert Inv(between);
    EnqueueKeeps(between, WakeOf(OccurrenceOf(job)));
  }

  lemma FireStepKeeps(s: State, storeFails: bool)
    requires Inv(s)
    ensures Inv(AfterFireStep(s, storeFails))
  {
    if s.process.Up? && s.process.firing.Some? && !storeFails {
      match s.process.firing.value.stage {
        case RecordOccurrence => OccurrenceStepKeeps(s);
        case RecordPending => PendingStepKeeps(s);
        case ReplaceJobs => ReplaceStepKeeps(s);
      }
    }
  }

  function KnownTo(s: State, r: Replay): set<Wake>
    requires r.Replaying?
  {
    if r.known.Some? then r.known.value else set w | w in s.durable.committed
  }

  // One delivery less to be replayed.
  function Taken(s: State, id: string): State
    requires s.process.Up? && s.process.replay.Replaying?
  {
    var r := s.process.replay;
    s.(process := s.process.(replay := Replaying(r.remaining - {id}, r.active, Some(KnownTo(s, r)))))
  }

  lemma TakenKeeps(s: State, id: string)
    requires Inv(s) && s.process.Up? && s.process.replay.Replaying? && id in s.process.replay.remaining
    requires id !in s.process.replay.active
    ensures Inv(Taken(s, id))
    ensures var wake := WakeOf(s.process.replay.remaining[id]);
      && IsWake(s.history, wake) && wake.scheduleId == id
      && id in s.durable.pending && id !in s.durable.jobs && id !in s.process.queued
      && (wake in KnownTo(s, s.process.replay) <==> id in Ids(s.durable.committed))
  {
    KnownIsCommitted(s);
  }

  lemma ReplaySkips(s: State, id: string, storeFails: bool)
    requires Inv(s) && s.process.Up? && s.process.replay.Replaying? && id in s.process.replay.remaining
    requires id in s.process.replay.active || storeFails
    ensures Inv(AfterReplayStep(s, id, storeFails))
  {
  }

  lemma ReplayDelivers(s: State, id: string)
    requires Inv(s) && s.process.Up? && s.process.replay.Replaying? && id in s.process.replay.remaining
    requires id !in s.process.replay.active
    ensures Inv(AfterReplayStep(s, id, false))
  {
    var wake := WakeOf(s.process.replay.remaining[id]);
    var taken := Taken(s, id);
    TakenKeeps(s, id);
    if wake in KnownTo(s, s.process.replay) {
      CompleteKeeps(taken, id);
    } else {
      EnqueueKeeps(taken, wake);
      assert AfterReplayStep(s, id, false) == taken.(process := Enqueue(taken.process, wake));
    }
  }

  lemma ReplayStepKeeps(s: State, id: string, storeFails: bool)
    requires Inv(s)
    ensures Inv(AfterReplayStep(s, id, storeFails))
  {
    if s.process.Up? && s.process.replay.Replaying? && id in s.process.replay.remaining {
      if id in s.process.replay.active || storeFails { ReplaySkips(s, id, storeFails); } else { ReplayDelivers(s, id); }
    }
  }

  // A wake is in the ledger exactly when its schedule's id is.
  lemma KnownIsCommitted(s: State)
    requires Records(s)
    ensures forall id, occurrence :: IsOccurrence(s.history, occurrence) && occurrence.scheduleId == id ==>
      (WakeOf(occurrence) in s.durable.committed <==> id in Ids(s.durable.committed))
  {
  }

  // Completing the delivery of a wake that is in the ledger and not carried.
  lemma CompleteKeeps(s: State, id: string)
    requires s.process.Up? && Inv(s) && id in Ids(s.durable.committed)
    requires id !in s.process.queued
    requires s.process.replay.Replaying? ==> id !in s.process.replay.remaining
    ensures Inv(Merge(s, s.durable.(pending := s.durable.pending - {id}),
                      s.process.(queued := s.process.queued - {id})))
  {
  }

  lemma DrainKeeps(s: State)
    requires Inv(s)
    ensures Inv(Step(s, Drain))
  {
    if s.process.Up? && s.process.loop == Idle {
      assert s.process.queue + [] == s.process.queue;
      assert [] + s.process.queue == s.process.queue;
      assert Ids([]) == {};
    }
  }

  lemma RequeueKeeps(s: State)
    requires Inv(s) && s.process.Up? && s.process.loop.Draining?
    ensures var t := s.(process := s.process.(queue := s.process.queue + s.process.loop.batch, loop := Idle));
      Records(t) && Kept(t) && Once(t) && FiringOk(t) && CarriedOk(t) && ReplayOk(t)
      && Ids(t.process.queue) == Ids(s.process.queue) + Ids(s.process.loop.batch)
  {
    var queue := s.process.queue + s.process.loop.batch;
    IdsConcat(s.process.queue, s.process.loop.batch);
    assert queue + [] == queue;
  }

  // A batch that is new to the ledger is added to it.
  lemma CommittedKeeps(s: State)
    requires Inv(s) && s.process.Up? && s.process.loop.Draining? && s.process.synced
    ensures var batch := s.process.loop.batch;
      var d := s.durable.(committed := s.durable.committed + batch);
      && Distinct(IdsOf(d.committed)) && AreWakes(s.history, d.committed)
      && Ids(d.committed) == Ids(s.durable.committed) + Ids(batch)
      && (forall id :: id in s.durable.jobs ==> id !in Ids(d.committed))
      && Ids(s.process.queue) !! Ids(d.committed)
      && (forall id :: id in Ids(batch) ==> id in s.process.queued)
      && AreWakes(s.history, s.process.queue) && Distinct(IdsOf(s.process.queue))
  {
    var batch := s.process.loop.batch;
    DistinctWakes(s.durable.committed, batch);
    IdsConcat(s.durable.committed, batch);
    WakesConcat(s.history, s.durable.committed, batch);
    DistinctWakes(s.process.queue, batch);
    IdsConcat(s.process.queue, batch);
    WakesConcat(s.history, s.process.queue, batch);
  }

  // What is still to be replayed is no part of a batch, so its delivery state does not change.
  lemma ReplayUntouched(s: State, t: State)
    requires Inv(s) && s.process.Up? && s.process.loop.Draining? && s.process.synced && t.process.Up?
    requires t.process.replay == s.process.replay && t.history == s.history
    requires t.durable == s.durable.(committed := s.durable.committed + s.process.loop.batch)
    requires t.process.queued == s.process.queued
    ensures ReplayOk(t)
  {
    CommittedKeeps(s);
  }

  lemma CommitKeeps(s: State, end: CommitEnd)
    requires Inv(s)
    ensures Inv(AfterCommit(s, end))
  {
    if s.process.Up? && s.process.loop.Draining? {
      RequeueKeeps(s);
      if s.process.synced && (end.Committed? || end.AckLost?) {
        CommittedKeeps(s);
        ReplayUntouched(s, AfterCommit(s, end));
        var batch := s.process.loop.batch;
        assert s.process.queue + [] == s.process.queue;
        if end.Committed? { CommittedBatchKeeps(s); } else { AckLostKeeps(s); }
      } else if end.NothingStaged? && s.process.loop.batch == [] {
        assert s.process.queue + [] == s.process.queue;
      }
    }
  }

  lemma CommittedBatchKeeps(s: State)
    requires Inv(s) && s.process.Up? && s.process.loop.Draining? && s.process.synced
    requires ReplayOk(AfterCommit(s, Committed))
    ensures Inv(AfterCommit(s, Committed))
  {
    CommittedKeeps(s);
    UniqueSame(IdsOf(s.process.loop.batch));
    IdsConcat(s.process.queue, s.process.loop.batch);
    assert s.process.queue + [] == s.process.queue;
    BatchIds(s.process.loop.batch);
  }

  lemma BatchIds(batch: seq<Wake>)
    ensures forall id :: id in Unique(IdsOf(batch)) <==> id in Ids(batch)
  {
    UniqueSame(IdsOf(batch));
    forall id | id in Ids(batch) ensures id in IdsOf(batch) {
      var i :| 0 <= i < |batch| && batch[i].scheduleId == id;
      assert IdsOf(batch)[i] == id;
    }
  }

  lemma AckLostKeeps(s: State)
    requires Inv(s) && s.process.Up? && s.process.loop.Draining? && s.process.synced
    requires ReplayOk(AfterCommit(s, AckLost))
    ensures Inv(AfterCommit(s, AckLost))
  {
    CommittedKeeps(s);
    RequeueKeeps(s);
  }

  lemma CleanedRecords(s: State)
    requires Inv(s) && s.process.Up? && s.process.loop.Cleaning? && s.process.loop.ids != []
    ensures var t := AfterCleanStep(s, false); Records(t) && Kept(t) && Once(t) && FiringOk(t)
  {
  }

  lemma CleanedCarried(s: State)
    requires Inv(s) && s.process.Up? && s.process.loop.Cleaning? && s.process.loop.ids != []
    ensures var t := AfterCleanStep(s, false); CarriedOk(t) && LoopOk(t) && ReplayOk(t)
  {
    var ids := s.process.loop.ids;
    assert s.process.queue + [] == s.process.queue;
    forall i | 0 <= i < |ids[1..]| ensures ids[1..][i] != ids[0] {}
  }

  lemma CleanStepKeeps(s: State, storeFails: bool)
    requires Inv(s)
    ensures Inv(AfterCleanStep(s, storeFails))
  {
    if s.process.Up? && s.process.loop.Cleaning? && s.process.loop.ids != [] && !storeFails {
      CleanedRecords(s);
      CleanedCarried(s);
    }
  }

  lemma StepKeeps(s: State, a: Action)
    requires Inv(s)
    ensures Inv(Step(s, a))
  {
    match a {
      case Start(loadFails) => StartKeeps(s, loadFails);
      case Crash => CrashKeeps(s);
      case Create(input, storeFails) => CreateKeeps(s, input, storeFails);
      case Cancel(id, storeFails) => CancelKeeps(s, id, storeFails);
      case BeginFire(id, now) => BeginFireKeeps(s, id, now);
      case FireStep(storeFails) => FireStepKeeps(s, storeFails);
      case ReplayStep(id, storeFails) => ReplayStepKeeps(s, id, storeFails);
      case EndReplay =>
      case Drain => DrainKeeps(s);
      case Commit(end) => CommitKeeps(s, end);
      case CleanStep(storeFails) => CleanStepKeeps(s, storeFails);
      case Resync => RoundKeeps(s, a);
      case RoundAckLost => RoundKeeps(s, a);
      case EndRound => RoundKeeps(s, a);
    }
  }

  lemma RoundKeeps(s: State, a: Action)
    requires Inv(s) && (a.Resync? || a.RoundAckLost? || a.EndRound?)
    ensures Inv(Step(s, a))
  {
  }

  lemma InitialInv()
    ensures Inv(Initial())
  {
  }

  lemma {:induction false} AlwaysInv(actions: seq<Action>)
    ensures Inv(Run(Initial(), actions))
  {
    if actions == [] {
      InitialInv();
    } else {
      AlwaysInv(actions[..|actions| - 1]);
      StepKeeps(Run(Initial(), actions[..|actions| - 1]), actions[|actions| - 1]);
    }
  }

  // Over every run, with a crash or a failed write anywhere: a persisted schedule
  // that was not cancelled is in the job store, pending, or delivered; no wake is
  // in the ledger twice, and none is there while its schedule is still waiting.
  lemma CrashSafety(actions: seq<Action>)
    ensures var s := Run(Initial(), actions);
      && (forall id :: id in s.history.persisted && id !in s.history.cancelled ==>
            id in s.durable.jobs || id in s.durable.pending || id in IdsOf(s.durable.committed))
      && Distinct(IdsOf(s.durable.committed))
      && (forall id :: id in s.durable.jobs ==> id !in IdsOf(s.durable.committed) && id !in s.history.cancelled)
  {
    AlwaysInv(actions);
    var s := Run(Initial(), actions);
    InIds(s.durable.committed);
  }

  lemma InIds(wakes: seq<Wake>)
    ensures forall id :: id in Ids(wakes) <==> id in IdsOf(wakes)
  {
  }
}
