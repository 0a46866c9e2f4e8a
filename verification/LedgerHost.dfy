// The host of one Agent: it commits to the ledger, keeps a live context beside
// it, compacts the ledger and reloads the context from it.
module LedgerHost {
  import opened Prelude
  import opened Messages
  import opened SnapshotIntegrity
  import opened Ledger
  import opened LedgerRepo
  import opened CompactionCut
  import opened CompactionPlan
  import opened CompactionCandidate

  // The durable store, the live context, the runtime state the host holds, and
  // the time before which no threshold compaction is tried.
  datatype Sys = Sys(store: Store, context: Snapshot, held: RuntimeState, nextAttemptAt: nat)

  const NO_PATCH := Patch(None, None, None, None, None)

  // --- committing -----------------------------------------------------------

  datatype Change = Change(messages: seq<Message>, patch: Option<Patch>, gaps: seq<nat>)

  datatype CommitOutcome = CommitOutcome(sys: Sys, result: Result<Option<RuntimeState>, Failure>)

  function WriteOf(change: Change): Write
    requires change.messages != [] || change.patch.Some?
  {
    if change.messages != [] then
      Write.AppendMessages(change.messages, if change.patch.Some? then change.patch.value else NO_PATCH, change.gaps)
    else Write.UpdateRuntime(change.patch.value)
  }

  // The messages are durable before the new context is checked.
  ghost function AfterCommit(sys: Sys, change: Change, storeFails: bool): CommitOutcome {
    if change.messages == [] && change.patch.None? then CommitOutcome(sys, Ok(None))
    else
      var t := Transact(sys.store, sys.held.ledgerHeadEntryId, WriteOf(change));
      if t.Err? then CommitOutcome(sys, Err(t.error))
      else if storeFails then CommitOutcome(sys, Err(StoreFailed))
      else
        var runtime := t.value.runtime;
        var messages := sys.context.messages + change.messages;
        if !WellFormed(messages) then CommitOutcome(sys.(store := t.value), Err(InstallFailed))
        else CommitOutcome(Sys(t.value, Snapshot(messages, runtime.conversationFocus), runtime, sys.nextAttemptAt),
                           Ok(Some(runtime)))
  }

  // --- reloading ------------------------------------------------------------

  datatype ReloadOutcome = ReloadOutcome(sys: Sys, ok: bool)

  ghost function AfterReload(sys: Sys, loadFails: bool): ReloadOutcome {
    var projection := Project(sys.store.entries, sys.store.runtime);
    if loadFails || projection.Err? then ReloadOutcome(sys, false)
    else ReloadOutcome(sys.(context := projection.value.snapshot, held := sys.store.runtime), true)
  }

  // --- compacting -----------------------------------------------------------

  // One attempt: what the estimator says, what hooks and summariser do, what
  // other writers do meanwhile, and what the database does.
  datatype Attempt = Attempt(contextTokens: nat, outside: Outside, meanwhile: seq<Write>, storeFails: bool, gap: nat)

  datatype CompactInput = CompactInput(
    reason: Reason,
    contextTokens: nat,
    hasProviderPrefix: bool,
    contextWindowTokens: nat,
    reserveTokens: nat,
    keepRecentTokens: nat,
    settings: Settings,
    startedAt: nat,
    failedAt: nat,
    failureBackoffMs: nat,
    first: Attempt,
    second: Attempt,
    reloadFails: bool)

  datatype Outcome = Compacted | Declined | Conflict | Threw

  datatype CompactOutcome = CompactOutcome(sys: Sys, outcome: Outcome)

  // Only threshold compactions back off.
  function BackOff(sys: Sys, input: CompactInput): Sys {
    if input.reason != Threshold then sys
    else sys.(nextAttemptAt := input.failedAt + Max(1, input.failureBackoffMs))
  }

  function EffectiveTokens(input: CompactInput, attempt: Attempt): nat {
    if input.reason == BehavioralReset || (input.reason == Threshold && input.hasProviderPrefix)
    then attempt.contextTokens
    else input.contextTokens
  }

  function TriggerTokens(input: CompactInput): nat {
    Max(0, input.contextWindowTokens - input.reserveTokens)
  }

  function InputFor(store: Store, input: CompactInput, attempt: Attempt): PrepareInput {
    PrepareInput(LatestCompaction(store.entries), EffectiveTokens(input, attempt), input.contextWindowTokens,
                 input.reserveTokens, input.keepRecentTokens, input.reason)
  }

  function EpochPatch(runtime: RuntimeState): Patch {
    NO_PATCH.(compactionEpoch := Some(runtime.compactionEpoch + 1))
  }

  // A compaction is recorded in the runtime state it is tried with.
  function Bumped(runtime: RuntimeState): RuntimeState {
    runtime.(compactionEpoch := runtime.compactionEpoch + 1)
  }

  ghost function CandidateOf(sys: Sys, input: CompactInput, attempt: Attempt, plan: Plan): Candidate {
    CandidateFor(input.settings, sys.store.entries, Bumped(sys.store.runtime), plan, attempt.outside)
  }

  // How the append of a candidate ends. Unshown: durable, but the context refused it.
  datatype AppendEnd = HeadMoved | Refused | Unshown(committed: Store) | Shown(committed: Store)

  // The store a successful append leaves behind.
  function AppendedStore(sys: Sys, attempt: Attempt, plan: Plan, payload: Payload): Result<Store, Failure> {
    Transact(Foreign(sys.store, attempt.meanwhile), plan.expectedHeadEntryId,
             Write.AppendCompaction(payload, EpochPatch(sys.store.runtime), attempt.gap))
  }

  ghost function EndOfAppend(sys: Sys, attempt: Attempt, plan: Plan, ready: Candidate): AppendEnd
    requires ready.ReadyCandidate?
  {
    var t := AppendedStore(sys, attempt, plan, ready.payload);
    if t == Err(HeadChanged) then HeadMoved
    else if t.Err? || attempt.storeFails then Refused
    else if !WellFormed(ready.projection.snapshot.messages) then Unshown(t.value)
    else Shown(t.value)
  }

  // The committed candidate is shown, and then replaced by a reload if that works.
  ghost function AfterEnd(after: Sys, input: CompactInput, ready: Candidate, end: AppendEnd): CompactOutcome
    requires ready.ReadyCandidate?
  {
    match end
    case HeadMoved => CompactOutcome(after, Conflict)
    case Refused => CompactOutcome(BackOff(after, input), Declined)
    case Unshown(committed) => CompactOutcome(BackOff(after.(store := committed), input), Declined)
    case Shown(committed) =>
      var installed := after.(store := committed, context := ready.projection.snapshot, held := committed.runtime);
      CompactOutcome(AfterReload(installed, input.reloadFails).sys.(nextAttemptAt := 0), Compacted)
  }

  ghost function AfterAppend(sys: Sys, input: CompactInput, attempt: Attempt, plan: Plan,
                             ready: Candidate): CompactOutcome
    requires ready.ReadyCandidate?
  {
    AfterEnd(sys.(store := Foreign(sys.store, attempt.meanwhile)), input, ready, EndOfAppend(sys, attempt, plan, ready))
  }

  // Whether there is anything to compact, and where to cut.
  datatype Decision = Stop(outcome: Outcome, backOff: bool) | Go(plan: Plan)

  ghost function Decide(store: Store, input: CompactInput, attempt: Attempt, estimate: Estimator): Decision {
    var projection := Project(store.entries, store.runtime);
    if projection.Err? then Stop(Threw, false)
    else if input.reason == Threshold && EffectiveTokens(input, attempt) <= TriggerTokens(input) then
      Stop(Declined, false)
    else
      match Prepare(store.entries, projection.value.throughEntryId, InputFor(store, input, attempt), estimate)
      case NotNeeded => Stop(Declined, false)
      case CannotCompact(InvalidNumbers) => Stop(Threw, false)
      case CannotCompact(_) => Stop(Declined, true)
      case Ready(plan) => Go(plan)
  }

  ghost function AfterCandidate(sys: Sys, input: CompactInput, attempt: Attempt, plan: Plan,
                                candidate: Candidate): CompactOutcome {
    var after := sys.(store := Foreign(sys.store, attempt.meanwhile));
    if candidate.ReadyCandidate? then AfterAppend(sys, input, attempt, plan, candidate)
    else if candidate == Cancelled(ABORTED) then CompactOutcome(after, Declined)
    else CompactOutcome(BackOff(after, input), Declined)
  }

  ghost function AfterAttempt(sys: Sys, input: CompactInput, attempt: Attempt, estimate: Estimator): CompactOutcome {
    match Decide(sys.store, input, attempt, estimate)
    case Stop(outcome, backOff) => CompactOutcome(if backOff then BackOff(sys, input) else sys, outcome)
    case Go(plan) => AfterCandidate(sys, input, attempt, plan, CandidateOf(sys, input, attempt, plan))
  }

  predicate Skipped(sys: Sys, input: CompactInput) {
    input.reason == Threshold
    && (input.startedAt < sys.nextAttemptAt
        || (!input.hasProviderPrefix && input.contextTokens <= TriggerTokens(input)))
  }

  ghost function AfterCompact(sys: Sys, input: CompactInput, estimate: Estimator): CompactOutcome {
    if Skipped(sys, input) then CompactOutcome(sys, Declined)
    else
      var first := AfterAttempt(sys, input, input.first, estimate);
      if first.outcome != Conflict then first
      else
        var second := AfterAttempt(first.sys, input, input.second, estimate);
        if second.outcome != Conflict then second
        else CompactOutcome(BackOff(second.sys, input), Declined)
  }

  // --- the objects ----------------------------------------------------------

  class AgentContext {
    var messages: seq<Message>
    var conversationFocus: Option<string>

    function GetSnapshot(): Snapshot
      reads this
    {
      Snapshot(messages, conversationFocus)
    }

    // Replaces everything, or nothing when the messages are not well formed.
    method InstallProjection(snapshot: Snapshot) returns (ok: bool)
      modifies this
      ensures ok <==> WellFormed(snapshot.messages)
      ensures GetSnapshot() == if ok then snapshot else old(GetSnapshot())
    {
      var errors := ValidateMessages(snapshot.messages);
      if errors != [] { return false; }
      messages := snapshot.messages;
      conversationFocus := snapshot.conversationFocus;
      return true;
    }
  }

  class AgentHost {
    const repo: AgentLedgerRepo
    const context: AgentContext
    var held: RuntimeState
    var nextAttemptAt: nat

    function State(): Sys
      reads this, repo, context
    {
      Sys(repo.State(), context.GetSnapshot(), held, nextAttemptAt)
    }

    constructor (repo: AgentLedgerRepo, context: AgentContext)
      ensures this.repo == repo && this.context == context
      ensures State() == Sys(repo.State(), context.GetSnapshot(), repo.runtime, 0)
    {
      this.repo := repo;
      this.context := context;
      held := repo.runtime;
      nextAttemptAt := 0;
    }

    method Commit(change: Change, storeFails: bool) returns (r: Result<Option<RuntimeState>, Failure>)
      modifies this, repo, context
      ensures CommitOutcome(State(), r) == AfterCommit(old(State()), change, storeFails)
    {
      if change.messages == [] && change.patch.None? { return Ok(None); }
      var runtimeState: RuntimeState;
      if change.messages != [] {
        var patch := if change.patch.Some? then change.patch.value else NO_PATCH;
        var appended := repo.AppendMessages(held.ledgerHeadEntryId, change.messages, patch, change.gaps, storeFails);
        if appended.Err? { return Err(appended.error); }
        runtimeState := repo.runtime;
      } else {
        var updated := repo.UpdateRuntime(held.ledgerHeadEntryId, change.patch.value, storeFails);
        if updated.Err? { return Err(updated.error); }
        runtimeState := updated.value;
      }
      var current := context.GetSnapshot();
      var installed := context.InstallProjection(
        Snapshot(current.messages + change.messages, runtimeState.conversationFocus));
      if !installed { return Err(InstallFailed); }
      held := runtimeState;
      return Ok(Some(runtimeState));
    }

    method ReloadProjectionFromCanonical(loadFails: bool) returns (ok: bool)
      modifies this, context
      ensures ReloadOutcome(State(), ok) == AfterReload(old(State()), loadFails)
    {
      if loadFails { return false; }
      var projection := ProjectAgentLedger(repo.entries, repo.runtime);
      if projection.Err? { return false; }
      ok := context.InstallProjection(projection.value.snapshot);
      held := repo.runtime;
    }

    method RecordThresholdFailure(input: CompactInput)
      modifies this
      ensures State() == BackOff(old(State()), input)
    {
      if input.reason == Threshold { nextAttemptAt := input.failedAt + Max(1, input.failureBackoffMs); }
    }

    // Appending the candidate and showing it.
    method AppendCandidate(input: CompactInput, attempt: Attempt, plan: Plan, candidate: Candidate, epoch: Patch)
      returns (outcome: Outcome)
      requires candidate.ReadyCandidate? && epoch == EpochPatch(repo.runtime)
      modifies this, repo, context
      ensures CompactOutcome(State(), outcome) == AfterAppend(old(State()), input, attempt, plan, candidate)
    {
      repo.OtherWriters(attempt.meanwhile);
      var committed := repo.AppendCompaction(plan.expectedHeadEntryId, candidate.payload, epoch, attempt.gap,
                                             attempt.storeFails);
      if committed == Err(HeadChanged) { return Conflict; }
      if committed.Err? {
        RecordThresholdFailure(input);
        return Declined;
      }
      var installed := context.InstallProjection(candidate.projection.snapshot);
      if !installed {
        RecordThresholdFailure(input);
        return Declined;
      }
      held := repo.runtime;
      var reloaded := ReloadProjectionFromCanonical(input.reloadFails);
      nextAttemptAt := 0;
      return Compacted;
    }

    method DecideCompact(input: CompactInput, attempt: Attempt, estimate: Estimator) returns (decision: Decision)
      ensures decision == Decide(repo.State(), input, attempt, estimate)
    {
      var latestProjection := ProjectAgentLedger(repo.entries, repo.runtime);
      if latestProjection.Err? { return Stop(Threw, false); }
      if input.reason == Threshold && EffectiveTokens(input, attempt) <= TriggerTokens(input) {
        return Stop(Declined, false);
      }
      var preparation := PrepareCompaction(repo.entries, latestProjection.value.throughEntryId,
                                           InputFor(repo.State(), input, attempt), estimate);
      match preparation {
        case NotNeeded => return Stop(Declined, false);
        case CannotCompact(obstacle) =>
          return if obstacle == InvalidNumbers then Stop(Threw, false) else Stop(Declined, true);
        case Ready(plan) => return Go(plan);
      }
    }

    method MakeCandidate(input: CompactInput, attempt: Attempt, plan: Plan) returns (candidate: Candidate)
      ensures candidate == CandidateOf(State(), input, attempt, plan)
    {
      candidate := CreateCompactionCandidate(input.settings, repo.entries,
                                             Bumped(repo.runtime),
                                             plan, attempt.outside);
    }

    method FinishCompact(input: CompactInput, attempt: Attempt, plan: Plan, candidate: Candidate)
      returns (outcome: Outcome)
      modifies this, repo, context
      ensures CompactOutcome(State(), outcome) == AfterCandidate(old(State()), input, attempt, plan, candidate)
    {
      if candidate.ReadyCandidate? {
        outcome := AppendCandidate(input, attempt, plan, candidate, EpochPatch(repo.runtime));
        return;
      }
      repo.OtherWriters(attempt.meanwhile);
      if candidate != Cancelled(ABORTED) { RecordThresholdFailure(input); }
      return Declined;
    }

    method TryCompact(input: CompactInput, attempt: Attempt, estimate: Estimator) returns (outcome: Outcome)
      modifies this, repo, context
      ensures CompactOutcome(State(), outcome) == AfterAttempt(old(State()), input, attempt, estimate)
    {
      var decision := DecideCompact(input, attempt, estimate);
      match decision {
        case Stop(stopped, backOff) =>
          if backOff { RecordThresholdFailure(input); }
          return stopped;
        case Go(plan) =>
          var candidate := MakeCandidate(input, attempt, plan);
          outcome := FinishCompact(input, attempt, plan, candidate);
      }
    }

    method Compact(input: CompactInput, estimate: Estimator) returns (outcome: Outcome)
      modifies this, repo, context
      ensures CompactOutcome(State(), outcome) == AfterCompact(old(State()), input, estimate)
    {
      if Skipped(State(), input) { return Declined; }
      var headAttempt := 0;
      outcome := Conflict;
      while headAttempt < 2
        invariant 0 <= headAttempt <= 2 && outcome == Conflict
        invariant headAttempt == 0 ==> State() == old(State())
        invariant headAttempt == 1 ==>
          CompactOutcome(State(), Conflict) == AfterAttempt(old(State()), input, input.first, estimate)
        invariant headAttempt == 2 ==>
          && AfterAttempt(old(State()), input, input.first, estimate).outcome == Conflict
          && CompactOutcome(State(), Conflict)
               == AfterAttempt(AfterAttempt(old(State()), input, input.first, estimate).sys, input, input.second,
                               estimate)
      {
        outcome := TryCompact(input, if headAttempt == 0 then input.first else input.second, estimate);
        if outcome != Conflict { return; }
        headAttempt := headAttempt + 1;
      }
      RecordThresholdFailure(input);
      return Declined;
    }
  }
}
