// When the ledger can be replayed from the start, and what becomes of its messages.
module LedgerReplay {
  import opened Prelude
  import opened Text
  import opened Messages
  import opened SnapshotIntegrity
  import opened Ledger
  import opened LedgerRepo
  import opened CompactionCut
  import opened CompactionPlan
  import opened CompactionEffect
  import opened CompactionCandidate
  import opened LedgerHost
  import opened LedgerRuns

  ghost predicate Replays(store: Store) {
    Project(store.entries, store.runtime).Ok?
  }

  // Every message ever stored.
  function Permanent(store: Store): seq<Message> {
    Bodies(Stored(store.entries))
  }

  // Whole units whose call ids were never used before in this ledger.
  ghost predicate Fresh(store: Store, messages: seq<Message>) {
    WellFormed(messages) && Disjoint(AllCallIds(Permanent(store)), AllCallIds(messages))
  }

  // --- one commit -----------------------------------------------------------

  // The call ids on display are call ids of the permanent ledger.
  lemma VisibleCallIds(entries: seq<Entry>) returns (hidden: seq<string>)
    requires Increasing(entries)
    ensures AllCallIds(Bodies(Stored(entries))) == hidden + AllCallIds(Rendered(entries))
  {
    var front := ActiveIsSuffix(entries);
    BodiesConcat(front, Active(entries));
    AllCallIdsConcat(Bodies(front), Bodies(Active(entries)));
    hidden := AllCallIds(Bodies(front));
    PreambleHarmless(LatestCompaction(entries), Bodies(Active(entries)));
  }

  lemma DisjointSuffix(hidden: seq<string>, shown: seq<string>, ids: seq<string>)
    requires Disjoint(hidden + shown, ids)
    ensures Disjoint(shown, ids)
  {
    forall i, j | 0 <= i < |shown| && 0 <= j < |ids| ensures shown[i] != ids[j] {
      assert (hidden + shown)[|hidden| + i] == shown[i];
    }
  }

  lemma BoundaryStays(entries: seq<Entry>, rows: seq<Entry>, latest: Option<StoredCompaction>)
    requires BoundaryError(entries, latest) == None
    ensures BoundaryError(entries + rows, latest) == None
  {
    if latest.Some? && latest.value.payload.firstKeptEntryId.Some? {
      FindAppended(entries, rows, latest.value.payload.firstKeptEntryId.value);
    }
  }

  // Messages added to a ledger that replays: it goes on replaying exactly when
  // they are whole units with call ids new to the whole ledger.
  lemma MessagesReplay(store: Store, next: Store, rows: seq<Entry>)
    requires Replays(store) && Sound(next)
    requires next.entries == store.entries + rows && MessagesOnly(rows)
    ensures Replays(next) <==> Fresh(store, Bodies(Stored(rows)))
    ensures Replays(next) ==> WellFormed(Rendered(store.entries) + Bodies(Stored(rows)))
    ensures Rendered(next.entries) == Rendered(store.entries) + Bodies(Stored(rows))
  {
    var messages := Bodies(Stored(rows));
    StoredConcat(store.entries, rows);
    BodiesConcat(Stored(store.entries), Stored(rows));
    WellFormedConcat(Permanent(store), messages);
    LatestAfterMessages(store.entries, rows);
    RenderedAfterMessages(store.entries, rows);
    BoundaryStays(store.entries, rows, LatestCompaction(store.entries));
    if Fresh(store, messages) {
      var hidden := VisibleCallIds(store.entries);
      DisjointSuffix(hidden, AllCallIds(Rendered(store.entries)), AllCallIds(messages));
      WellFormedConcat(Rendered(store.entries), messages);
    }
  }

  lemma RuntimeReplay(store: Store, next: Store)
    requires Replays(store) && Sound(next) && next.entries == store.entries
    ensures Replays(next)
  {
  }

  // A commit that the database takes keeps the ledger replayable exactly when its
  // messages are fresh, which is more than the live context checks: that only
  // looks at the visible call ids, and only after the rows are durable.
  lemma CommitReplays(sys: Sys, change: Change)
    requires Live(sys) && Replays(sys.store) && change.messages != []
    requires Transact(sys.store, sys.held.ledgerHeadEntryId, WriteOf(change)).Ok?
    ensures var o := AfterCommit(sys, change, false);
      && (Replays(o.sys.store) <==> Fresh(sys.store, change.messages))
      && (o.result.Ok? <==> WellFormed(change.messages)
                            && Disjoint(AllCallIds(sys.context.messages), AllCallIds(change.messages)))
      && (Replays(o.sys.store) ==> o.result.Ok?)
      && (o.result == Err(InstallFailed) ==>
          !Replays(o.sys.store) && o.sys.context == sys.context && o.sys.held == sys.held)
  {
    var next := Transact(sys.store, sys.held.ledgerHeadEntryId, WriteOf(change)).value;
    var rows := TransactKeepsSound(sys.store, sys.held.ledgerHeadEntryId, WriteOf(change));
    MessagesReplay(sys.store, next, rows);
    LiveAtHead(sys);
    WellFormedConcat(sys.context.messages, change.messages);
  }

  // --- runs of fresh commits ------------------------------------------------

  // A writer that respects the ledger: its messages are fresh, its compactions prepared.
  ghost predicate Respectful(store: Store, write: Write) {
    && Prepared(store, write)
    && (write.AppendMessages? && Transact(store, store.runtime.ledgerHeadEntryId, write).Ok? ==>
        Fresh(store, write.messages))
  }

  ghost predicate AllRespectful(store: Store, writes: seq<Write>) {
    || writes == []
    || (AllRespectful(store, writes[..|writes| - 1])
        && Respectful(Foreign(store, writes[..|writes| - 1]), writes[|writes| - 1]))
  }

  ghost predicate AttemptRespectful(sys: Sys, attempt: Attempt) {
    AllRespectful(sys.store, attempt.meanwhile)
  }

  ghost predicate Admissible(sys: Sys, step: Step, estimate: Estimator) {
    match step
    case CommitStep(change, _) =>
      (change.messages != [] && Transact(sys.store, sys.held.ledgerHeadEntryId, WriteOf(change)).Ok?)
      ==> Fresh(sys.store, change.messages)
    case CompactStep(input) =>
      && AttemptRespectful(sys, input.first)
      && AttemptRespectful(AfterAttempt(sys, input, input.first, estimate).sys, input.second)
    case ReloadStep(_) => true
    case OtherWriter(write) => AllRespectful(sys.store, [write])
  }

  lemma WriteReplays(store: Store, expected: Option<nat>, write: Write)
    requires Sound(store) && Replays(store) && Transact(store, expected, write).Ok?
    requires Prepared(store, write) && (write.AppendMessages? ==> Fresh(store, write.messages))
    ensures Sound(Transact(store, expected, write).value) && Replays(Transact(store, expected, write).value)
  {
    var rows := TransactKeepsSound(store, expected, write);
    var next := Transact(store, expected, write).value;
    match write {
      case AppendMessages(_, _, _) => MessagesReplay(store, next, rows);
      case AppendCompaction(_, _, _) => CompactionReplays(store, expected, write);
      case UpdateRuntime(_) => RuntimeReplay(store, next);
    }
  }

  lemma CompactionReplays(store: Store, expected: Option<nat>, write: Write)
    requires Sound(store) && Replays(store) && write.AppendCompaction? && Transact(store, expected, write).Ok?
    requires Prepared(store, write)
    ensures Replays(Transact(store, expected, write).value)
  {
    var next := Transact(store, expected, write).value;
    var block :| Records(store.entries, write.payload, block);
    RecordedReplays(store, next, NextId(store.entries, write.gap), write.payload, block);
  }

  lemma RecordedReplays(store: Store, next: Store, id: nat, payload: Payload, block: seq<StoredMessage>)
    requires Replays(store) && Records(store.entries, payload, block) && !Blank(payload.summary)
    requires store.entries != [] ==> store.entries[|store.entries| - 1].Id() < id
    requires next.entries == WithCompaction(store.entries, id, payload) && next.runtime.ledgerHeadEntryId == Some(id)
    ensures Replays(next)
  {
    var front := store.entries;
    var input: PrepareInput, estimate: Estimator, summary: string, tokens: nat :|
      && input.previousCompaction == LatestCompaction(front)
      && Prepare(front, Head(front), input, estimate).Ready?
      && payload == PayloadOf(Prepare(front, Head(front), input, estimate).plan, summary, tokens)
      && block == Prepare(front, Head(front), input, estimate).plan.entriesToSummarize;
    PlanSplits(front, Head(front), input, estimate);
    assert front != [];
    PreparedAlwaysProjects(front, store.runtime, input, estimate, summary, tokens, id, next.runtime);
  }

  lemma {:induction false} ForeignReplays(store: Store, writes: seq<Write>)
    requires Sound(store) && Replays(store) && AllRespectful(store, writes)
    ensures Sound(Foreign(store, writes)) && Replays(Foreign(store, writes))
  {
    if writes != [] {
      var before := Foreign(store, writes[..|writes| - 1]);
      ForeignReplays(store, writes[..|writes| - 1]);
      RespectfulReplays(before, writes[|writes| - 1]);
    }
  }

  lemma RespectfulReplays(store: Store, write: Write)
    requires Sound(store) && Replays(store) && Respectful(store, write)
    ensures var t := Transact(store, store.runtime.ledgerHeadEntryId, write);
      t.Ok? ==> Sound(t.value) && Replays(t.value)
  {
    if Transact(store, store.runtime.ledgerHeadEntryId, write).Ok? {
      WriteReplays(store, store.runtime.ledgerHeadEntryId, write);
    }
  }

  // Once a candidate is ready, its append conflicts, is refused by the database,
  // or goes through and is shown: the context never refuses it.
  lemma AppendReplays(sys: Sys, input: CompactInput, attempt: Attempt, plan: Plan, candidate: Candidate)
    requires Exact(sys, attempt, plan, candidate)
    requires Replays(Foreign(sys.store, attempt.meanwhile))
    ensures !EndOfAppend(sys, attempt, plan, candidate).Unshown?
    ensures Replays(AfterAppend(sys, input, attempt, plan, candidate).sys.store)
  {
  }

  lemma CandidateReplays(sys: Sys, input: CompactInput, attempt: Attempt, plan: Plan, candidate: Candidate)
    requires candidate.ReadyCandidate? ==> Exact(sys, attempt, plan, candidate)
    requires Replays(Foreign(sys.store, attempt.meanwhile))
    ensures Replays(AfterCandidate(sys, input, attempt, plan, candidate).sys.store)
  {
    if candidate.ReadyCandidate? { AppendReplays(sys, input, attempt, plan, candidate); }
  }

  lemma AttemptReplays(sys: Sys, input: CompactInput, attempt: Attempt, estimate: Estimator)
    requires Live(sys) && Replays(sys.store) && AttemptRespectful(sys, attempt)
    ensures Replays(AfterAttempt(sys, input, attempt, estimate).sys.store)
  {
    ForeignReplays(sys.store, attempt.meanwhile);
    match Decide(sys.store, input, attempt, estimate) {
      case Stop(_, _) =>
      case Go(plan) =>
        DecideGo(sys, input, attempt, estimate);
        if CandidateOf(sys, input, attempt, plan).ReadyCandidate? {
          CandidateIsExact(sys, input, attempt, plan, estimate);
        }
        CandidateReplays(sys, input, attempt, plan, CandidateOf(sys, input, attempt, plan));
    }
  }

  lemma CommitStepReplays(sys: Sys, change: Change, storeFails: bool)
    requires Live(sys) && Replays(sys.store)
    requires (change.messages != [] && Transact(sys.store, sys.held.ledgerHeadEntryId, WriteOf(change)).Ok?)
             ==> Fresh(sys.store, change.messages)
    ensures Replays(AfterCommit(sys, change, storeFails).sys.store)
  {
    if (change.messages != [] || change.patch.Some?)
       && Transact(sys.store, sys.held.ledgerHeadEntryId, WriteOf(change)).Ok? {
      WriteReplays(sys.store, sys.held.ledgerHeadEntryId, WriteOf(change));
    }
  }

  lemma CompactReplays(sys: Sys, input: CompactInput, estimate: Estimator)
    requires Live(sys) && Replays(sys.store) && AttemptRespectful(sys, input.first)
    requires AttemptRespectful(AfterAttempt(sys, input, input.first, estimate).sys, input.second)
    ensures Replays(AfterCompact(sys, input, estimate).sys.store)
  {
    if !Skipped(sys, input) {
      AttemptReplays(sys, input, input.first, estimate);
      AttemptKeepsLive(sys, input, input.first, estimate);
      var first := AfterAttempt(sys, input, input.first, estimate);
      if first.outcome == Conflict { AttemptReplays(first.sys, input, input.second, estimate); }
    }
  }

  lemma StepReplays(sys: Sys, step: Step, estimate: Estimator)
    requires Live(sys) && Replays(sys.store) && Admissible(sys, step, estimate)
    ensures Replays(Next(sys, step, estimate).store)
  {
    match step {
      case CommitStep(change, storeFails) => CommitStepReplays(sys, change, storeFails);
      case CompactStep(input) => CompactReplays(sys, input, estimate);
      case ReloadStep(_) =>
      case OtherWriter(write) => ForeignReplays(sys.store, [write]);
    }
  }

  ghost predicate AdmissibleRun(sys: Sys, steps: seq<Step>, estimate: Estimator) {
    || steps == []
    || (AdmissibleRun(sys, steps[..|steps| - 1], estimate)
        && Admissible(Run(sys, steps[..|steps| - 1], estimate), steps[|steps| - 1], estimate))
  }

  // Every run whose commits bring fresh whole units, and whose other writers do too
  // or append compactions prepared from the ledger, keeps the ledger replayable.
  lemma {:induction false} AlwaysReplays(sys: Sys, steps: seq<Step>, estimate: Estimator)
    requires Live(sys) && Replays(sys.store) && AdmissibleRun(sys, steps, estimate)
    ensures Live(Run(sys, steps, estimate)) && Replays(Run(sys, steps, estimate).store)
  {
    if steps != [] {
      var before := Run(sys, steps[..|steps| - 1], estimate);
      AlwaysReplays(sys, steps[..|steps| - 1], estimate);
      StepKeepsLive(before, steps[|steps| - 1], estimate);
      StepReplays(before, steps[|steps| - 1], estimate);
    }
  }

  lemma FreshAgentReplays(runtime: RuntimeState)
    requires runtime.ledgerHeadEntryId == None
    ensures Live(FreshAgent(runtime)) && Replays(FreshAgent(runtime).store)
  {
    FreshAgentLive(runtime);
    UsersWellFormed([]);
    assert Bodies(Active([])) == [] && Bodies(Stored([])) == [];
  }

  // --- the conversation focus -----------------------------------------------

  // No other writer interferes during the step.
  ghost predicate Alone(step: Step) {
    match step
    case CompactStep(input) => input.first.meanwhile == [] && input.second.meanwhile == []
    case OtherWriter(_) => false
    case _ => true
  }

  ghost predicate FocusAgrees(sys: Sys) {
    sys.context.conversationFocus == sys.held.conversationFocus
  }

  lemma AttemptKeepsFocus(sys: Sys, input: CompactInput, attempt: Attempt, estimate: Estimator)
    requires Live(sys) && FocusAgrees(sys) && attempt.meanwhile == []
    ensures FocusAgrees(AfterAttempt(sys, input, attempt, estimate).sys)
  {
    var d := Decide(sys.store, input, attempt, estimate);
    if d.Go? {
      DecideGo(sys, input, attempt, estimate);
      var c := CandidateOf(sys, input, attempt, d.plan);
      if c.ReadyCandidate? {
        var id := Head(sys.store.entries).value + 1;
        CandidateExact(sys, input, attempt, d.plan, estimate, id, sys.store.runtime.(ledgerHeadEntryId := Some(id)));
        AppendKeepsFocus(sys, input, attempt, d.plan, c);
      }
    }
  }

  lemma AppendKeepsFocus(sys: Sys, input: CompactInput, attempt: Attempt, plan: Plan, candidate: Candidate)
    requires FocusAgrees(sys) && attempt.meanwhile == [] && candidate.ReadyCandidate?
    requires candidate.projection.snapshot.conversationFocus == sys.store.runtime.conversationFocus
    ensures FocusAgrees(AfterAppend(sys, input, attempt, plan, candidate).sys)
  {
  }

  // With nobody else writing, one step keeps the focus on display the one the host holds.
  lemma FocusFollows(sys: Sys, step: Step, estimate: Estimator)
    requires Live(sys) && FocusAgrees(sys) && Alone(step)
    ensures FocusAgrees(Next(sys, step, estimate))
  {
    if step.CompactStep? && !Skipped(sys, step.input) {
      AttemptKeepsFocus(sys, step.input, step.input.first, estimate);
      AttemptKeepsLive(sys, step.input, step.input.first, estimate);
      var first := AfterAttempt(sys, step.input, step.input.first, estimate);
      if first.outcome == Conflict { AttemptKeepsFocus(first.sys, step.input, step.input.second, estimate); }
    }
  }

  // So it is in every run in which nobody else writes.
  lemma {:induction false} FocusAlwaysFollows(sys: Sys, steps: seq<Step>, estimate: Estimator)
    requires Live(sys) && FocusAgrees(sys) && forall i :: 0 <= i < |steps| ==> Alone(steps[i])
    ensures FocusAgrees(Run(sys, steps, estimate))
  {
    if steps != [] {
      var before := steps[..|steps| - 1];
      FocusAlwaysFollows(sys, before, estimate);
      AlwaysLive(sys, before, estimate);
      FocusFollows(Run(sys, before, estimate), steps[|steps| - 1], estimate);
    }
  }
}
