// One-shot schedules as a state machine: three durable writes fire a schedule, a
// volatile queue carries its wake to the ledger, and the process may die between
// any two steps.
module Schedule {
  import opened Prelude
  import opened Text

  const MIN_AT_DELAY_MS := 30_000
  const MAX_LIFETIME_MS := 259_200_000
  const MAX_ACTIVE_SCHEDULES := 20
  const MAX_NAME_LENGTH := 100
  const MAX_INTENTION_LENGTH := 1_000
  const MAX_OCCURRENCES := 200
  const MAX_PENDING_DELIVERIES := 200

  datatype Job = Job(id: string, name: string, intention: string, at: nat, createdAt: nat)

  datatype Occurrence = Occurrence(scheduleId: string, name: string, intention: string, scheduledFor: nat)

  datatype Wake = Wake(scheduleId: string, name: string, scheduledFor: nat)

  function OccurrenceOf(job: Job): Occurrence {
    Occurrence(job.id, job.name, job.intention, job.at)
  }

  function WakeOf(occurrence: Occurrence): Wake {
    Wake(occurrence.scheduleId, occurrence.name, occurrence.scheduledFor)
  }

  // --- state ----------------------------------------------------------------

  // What survives a crash: job store, occurrence records, pending deliveries, and
  // the wakes the ledger holds.
  datatype Durable = Durable(
    jobs: map<string, Job>,
    occurrences: seq<Occurrence>,
    pending: map<string, Occurrence>,
    committed: seq<Wake>)

  // A firing in progress: which write comes next.
  datatype Stage = RecordOccurrence | RecordPending | ReplaceJobs
  datatype Firing = Firing(job: Job, stage: Stage)

  // Replaying the deliveries that were pending at the start, except those whose
  // schedule was still waiting. The ledger is read once, on first need.
  datatype Replay =
    | Replaying(remaining: map<string, Occurrence>, active: set<string>, known: Option<set<Wake>>)
    | Replayed
    | ReplayAborted

  // The bot loop: drain the queue, commit, clean up, run a round.
  datatype Loop = Idle | Draining(batch: seq<Wake>) | Cleaning(ids: seq<string>) | Rounding

  datatype Process =
    | Down
    | Up(jobs: map<string, Job>, firing: Option<Firing>, queue: seq<Wake>, queued: set<string>,
         replay: Replay, loop: Loop, synced: bool)

  // Everything ever persisted, and what was cancelled with success.
  datatype History = History(persisted: map<string, Job>, cancelled: set<string>)

  datatype State = State(durable: Durable, process: Process, history: History)

  function Initial(): State {
    State(Durable(map[], [], map[], []), Down, History(map[], {}))
  }

  // --- operations on the parts ----------------------------------------------

  function FindOccurrence(occurrences: seq<Occurrence>, id: string): Option<Occurrence> {
    if occurrences == [] then None
    else if occurrences[0].scheduleId == id then Some(occurrences[0])
    else FindOccurrence(occurrences[1..], id)
  }

  function LastOf<T>(s: seq<T>, n: nat): seq<T> {
    if |s| <= n then s else s[|s| - n..]
  }

  // None: the id is on record with other content.
  function Recorded(occurrences: seq<Occurrence>, occurrence: Occurrence): Option<seq<Occurrence>> {
    var existing := FindOccurrence(occurrences, occurrence.scheduleId);
    if existing.Some? then (if existing.value == occurrence then Some(occurrences) else None)
    else Some(LastOf(occurrences + [occurrence], MAX_OCCURRENCES))
  }

  // None: conflict, or no room.
  function WithPending(pending: map<string, Occurrence>, occurrence: Occurrence): Option<map<string, Occurrence>> {
    if occurrence.scheduleId in pending then
      (if pending[occurrence.scheduleId] == occurrence then Some(pending) else None)
    else if |pending| + 1 > MAX_PENDING_DELIVERIES then None
    else Some(pending[occurrence.scheduleId := occurrence])
  }

  // The deduplicating queue: an id is let in once until its delivery is complete.
  function Enqueue(p: Process, wake: Wake): Process
    requires p.Up?
  {
    if wake.scheduleId in p.queued then p
    else p.(queue := p.queue + [wake], queued := p.queued + {wake.scheduleId})
  }

  function IdsOf(wakes: seq<Wake>): (ids: seq<string>)
    ensures |ids| == |wakes| && forall i :: 0 <= i < |wakes| ==> ids[i] == wakes[i].scheduleId
  {
    seq(|wakes|, i requires 0 <= i < |wakes| => wakes[i].scheduleId)
  }

  // --- creating and cancelling ----------------------------------------------

  datatype CreateInput = CreateInput(name: string, intention: string, at: nat, now: nat, id: string)

  datatype CreateResult =
    | Created(job: Job)
    | Existing(job: Job)
    | InvalidInput
    | OutsideWindow
    | NameConflict
    | ActiveLimitReached
    | CreateNotPersisted
    | CreateNotStarted

  predicate TextOk(s: string, maxLength: nat) {
    s != "" && |s| <= maxLength
  }

  ghost predicate Named(jobs: map<string, Job>, name: string) {
    exists id :: id in jobs && jobs[id].name == name
  }

  ghost function JobNamed(jobs: map<string, Job>, name: string): Job
    requires Named(jobs, name)
  {
    var id :| id in jobs && jobs[id].name == name;
    jobs[id]
  }

  ghost function CreateOutcome(jobs: map<string, Job>, input: CreateInput, storeFails: bool): CreateResult {
    var name, intention := Trim(input.name), Trim(input.intention);
    if !TextOk(name, MAX_NAME_LENGTH) || !TextOk(intention, MAX_INTENTION_LENGTH) then InvalidInput
    else if !(MIN_AT_DELAY_MS <= input.at - input.now <= MAX_LIFETIME_MS) then OutsideWindow
    else if Named(jobs, name) then
      var existing := JobNamed(jobs, name);
      if existing.intention == intention && existing.at == input.at then Existing(existing) else NameConflict
    else if |jobs| >= MAX_ACTIVE_SCHEDULES then ActiveLimitReached
    else if storeFails then CreateNotPersisted
    else Created(Job(input.id, name, intention, input.at, input.now))
  }

  // --- steps ----------------------------------------------------------------

  datatype CommitEnd = Committed | NotCommitted | AckLost | NothingStaged

  datatype Action =
    | Start(loadFails: bool)
    | Crash
    | Create(input: CreateInput, storeFails: bool)
    | Cancel(id: string, storeFails: bool)
    | BeginFire(id: string, now: nat)
    | FireStep(storeFails: bool)
    | ReplayStep(id: string, storeFails: bool)
    | EndReplay
    | Drain
    | Commit(end: CommitEnd)
    | CleanStep(storeFails: bool)
    | Resync
    | RoundAckLost
    | EndRound

  function Merge(state: State, durable: Durable, process: Process): State {
    state.(durable := durable, process := process)
  }

  // A schedule id is drawn once; a draw that was used before does not happen.
  ghost function AfterCreate(s: State, input: CreateInput, storeFails: bool): State {
    if !s.process.Up? || s.process.firing.Some? || input.id in s.history.persisted then s
    else
      var outcome := CreateOutcome(s.process.jobs, input, storeFails);
      if !outcome.Created? then s
      else
        var jobs := s.process.jobs[input.id := outcome.job];
        State(s.durable.(jobs := jobs), s.process.(jobs := jobs),
              s.history.(persisted := s.history.persisted[input.id := outcome.job]))
  }

  function AfterCancel(s: State, id: string, storeFails: bool): State {
    if !s.process.Up? || s.process.firing.Some? || id !in s.process.jobs || storeFails then s
    else
      var jobs := s.process.jobs - {id};
      State(s.durable.(jobs := jobs), s.process.(jobs := jobs), s.history.(cancelled := s.history.cancelled + {id}))
  }

  function AfterBeginFire(s: State, id: string, now: nat): State {
    if !s.process.Up? || s.process.firing.Some? || id !in s.process.jobs || now < s.process.jobs[id].at then s
    else s.(process := s.process.(firing := Some(Firing(s.process.jobs[id], RecordOccurrence))))
  }

  // One durable write of a firing. A write that fails ends the firing; its timer tries again later.
  function AfterFireStep(s: State, storeFails: bool): State {
    if !s.process.Up? || s.process.firing.None? then s
    else
      var job := s.process.firing.value.job;
      var occurrence := OccurrenceOf(job);
      var given := s.(process := s.process.(firing := None));
      if storeFails then given
      else
        match s.process.firing.value.stage
        case RecordOccurrence =>
          var occurrences := Recorded(s.durable.occurrences, occurrence);
          if occurrences.None? then given
          else Merge(s, s.durable.(occurrences := occurrences.value),
                     s.process.(firing := Some(Firing(job, RecordPending))))
        case RecordPending =>
          var pending := WithPending(s.durable.pending, occurrence);
          if pending.None? then given
          else Merge(s, s.durable.(pending := pending.value), s.process.(firing := Some(Firing(job, ReplaceJobs))))
        case ReplaceJobs =>
          var jobs := s.process.jobs - {job.id};
          Merge(s, s.durable.(jobs := jobs), Enqueue(s.process.(jobs := jobs, firing := None), WakeOf(occurrence)))
  }

  // Active schedules are listed before any timer can fire.
  function AfterStart(s: State, loadFails: bool): State {
    if s.process.Up? then s
    else
      var replay := if loadFails then ReplayAborted else Replaying(s.durable.pending, s.durable.jobs.Keys, None);
      s.(process := Up(s.durable.jobs, None, [], {}, replay, Idle, true))
  }

  function AfterReplayStep(s: State, id: string, storeFails: bool): State {
    if !s.process.Up? || !s.process.replay.Replaying? || id !in s.process.replay.remaining then s
    else
      var r := s.process.replay;
      var rest := r.remaining - {id};
      var wake := WakeOf(r.remaining[id]);
      if id in r.active then s.(process := s.process.(replay := r.(remaining := rest)))
      else if storeFails then s.(process := s.process.(replay := ReplayAborted))
      else
        var known := if r.known.Some? then r.known.value else set w | w in s.durable.committed;
        var p := s.process.(replay := Replaying(rest, r.active, Some(known)));
        if wake in known then
          Merge(s, s.durable.(pending := s.durable.pending - {id}), p.(queued := p.queued - {id}))
        else s.(process := Enqueue(p, wake))
  }

  function AfterEndReplay(s: State): State {
    if s.process.Up? && s.process.replay.Replaying? && s.process.replay.remaining == map[]
    then s.(process := s.process.(replay := Replayed)) else s
  }

  // A commit under a head the host no longer holds is refused.
  function AfterCommit(s: State, end: CommitEnd): State {
    if !s.process.Up? || !s.process.loop.Draining? then s
    else
      var batch := s.process.loop.batch;
      var requeued := s.process.(queue := s.process.queue + batch, loop := Idle);
      match end
      case NothingStaged => if batch == [] then s.(process := s.process.(loop := Rounding)) else s
      case NotCommitted => s.(process := requeued)
      case Committed =>
        if !s.process.synced then s.(process := requeued)
        else Merge(s, s.durable.(committed := s.durable.committed + batch),
                   s.process.(loop := Cleaning(Unique(IdsOf(batch)))))
      case AckLost =>
        if !s.process.synced then s.(process := requeued)
        else Merge(s, s.durable.(committed := s.durable.committed + batch), requeued.(synced := false))
  }

  function AfterCleanStep(s: State, storeFails: bool): State {
    if !s.process.Up? || !s.process.loop.Cleaning? then s
    else
      var ids := s.process.loop.ids;
      if ids == [] || storeFails then s.(process := s.process.(loop := Rounding))
      else Merge(s, s.durable.(pending := s.durable.pending - {ids[0]}),
                 s.process.(queued := s.process.queued - {ids[0]}, loop := Cleaning(ids[1..])))
  }

  ghost function Step(s: State, a: Action): State {
    match a
    case Start(loadFails) => AfterStart(s, loadFails)
    case Crash => s.(process := Down)
    case Create(input, storeFails) => AfterCreate(s, input, storeFails)
    case Cancel(id, storeFails) => AfterCancel(s, id, storeFails)
    case BeginFire(id, now) => AfterBeginFire(s, id, now)
    case FireStep(storeFails) => AfterFireStep(s, storeFails)
    case ReplayStep(id, storeFails) => AfterReplayStep(s, id, storeFails)
    case EndReplay => AfterEndReplay(s)
    case Drain =>
      if s.process.Up? && s.process.loop == Idle
      then s.(process := s.process.(queue := [], loop := Draining(s.process.queue))) else s
    case Commit(end) => AfterCommit(s, end)
    case CleanStep(storeFails) => AfterCleanStep(s, storeFails)
    case Resync =>
      if s.process.Up? && s.process.loop == Rounding then s.(process := s.process.(synced := true)) else s
    case RoundAckLost =>
      if s.process.Up? && s.process.loop == Rounding
      then s.(process := s.process.(synced := false, loop := Idle)) else s
    case EndRound =>
      if s.process.Up? && s.process.loop == Rounding then s.(process := s.process.(loop := Idle)) else s
  }

  ghost function Run(s: State, actions: seq<Action>): State {
    if actions == [] then s else Step(Run(s, actions[..|actions| - 1]), actions[|actions| - 1])
  }
}
