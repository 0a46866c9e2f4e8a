// What holds over every run of the host: commits, failed commits, runtime-only
// updates, compactions, reloads that work or fail, and writers elsewhere.
module LedgerRuns {
  import opened Prelude
  import opened Messages
  import opened SnapshotIntegrity
  import opened Ledger
  import opened LedgerRepo
  import opened CompactionCut
  import opened CompactionPlan
  import opened CompactionEffect
  import opened CompactionCandidate
  import opened LedgerHost

  datatype Step =
    | CommitStep(change: Change, storeFails: bool)
    | CompactStep(input: CompactInput)
    | ReloadStep(loadFails: bool)
    | OtherWriter(write: Write)

  ghost function Next(sys: Sys, step: Step, estimate: Estimator): Sys {
    match step
    case CommitStep(change, storeFails) => AfterCommit(sys, change, storeFails).sys
    case CompactStep(input) => AfterCompact(sys, input, estimate).sys
    case ReloadStep(loadFails) => AfterReload(sys, loadFails).sys
    case OtherWriter(write) => sys.(store := Foreign(sys.store, [write]))
  }

  ghost function Run(sys: Sys, steps: seq<Step>, estimate: Estimator): Sys {
    if steps == [] then sys else Next(Run(sys, steps[..|steps| - 1], estimate), steps[|steps| - 1], estimate)
  }

  // --- the live context is a replay of the ledger through the held head -----

  ghost predicate LiveAt(sys: Sys, k: nat) {
    && k <= |sys.store.entries|
    && Head(sys.store.entries[..k]) == sys.held.ledgerHeadEntryId
    && sys.context.messages == Rendered(sys.store.entries[..k])
  }

  ghost predicate Live(sys: Sys) {
    && Sound(sys.store)
    && WellFormed(sys.context.messages)
    && exists k: nat :: LiveAt(sys, k)
  }

  // A head id names one prefix.
  lemma PrefixByHead(entries: seq<Entry>, j: nat, k: nat)
    requires Increasing(entries) && j <= |entries| && k <= |entries|
    requires Head(entries[..j]) == Head(entries[..k])
    ensures j == k
  {
    if j > 0 && k > 0 {
      assert entries[..j][j - 1] == entries[j - 1] && entries[..k][k - 1] == entries[k - 1];
    }
  }

  // When the held head is the ledger's head, the whole ledger is shown.
  lemma LiveAtHead(sys: Sys)
    requires Live(sys) && sys.held.ledgerHeadEntryId == sys.store.runtime.ledgerHeadEntryId
    ensures sys.context.messages == Rendered(sys.store.entries)
  {
    var k: nat :| LiveAt(sys, k);
    var entries := sys.store.entries;
    assert entries[..|entries|] == entries;
    PrefixByHead(entries, k, |entries|);
  }

  lemma LiveGrown(sys: Sys, store: Store, rows: seq<Entry>)
    requires Live(sys) && Sound(store) && store.entries == sys.store.entries + rows
    ensures Live(sys.(store := store))
  {
    var k: nat :| LiveAt(sys, k);
    assert store.entries[..k] == sys.store.entries[..k];
    assert LiveAt(sys.(store := store), k);
  }

  lemma LiveWhole(sys: Sys)
    requires Sound(sys.store) && sys.held.ledgerHeadEntryId == sys.store.runtime.ledgerHeadEntryId
    requires sys.context.messages == Rendered(sys.store.entries) && WellFormed(sys.context.messages)
    ensures Live(sys)
  {
    assert sys.store.entries[..|sys.store.entries|] == sys.store.entries;
    assert LiveAt(sys, |sys.store.entries|);
  }

  // Whether or not it shows, only next-attempt times changed.
  lemma LiveTimes(sys: Sys, at: nat)
    requires Live(sys)
    ensures Live(sys.(nextAttemptAt := at))
  {
    var k: nat :| LiveAt(sys, k);
    assert LiveAt(sys.(nextAttemptAt := at), k);
  }

  // A commit that goes through is shown as the replay of the grown ledger.
  lemma CommittedLive(sys: Sys, next: Store, rows: seq<Entry>, messages: seq<Message>)
    requires Live(sys) && sys.held.ledgerHeadEntryId == sys.store.runtime.ledgerHeadEntryId
    requires Sound(next) && next.entries == sys.store.entries + rows && MessagesOnly(rows)
        && Bodies(Stored(rows)) == messages
    requires WellFormed(sys.context.messages + messages)
    ensures Live(Sys(next, Snapshot(sys.context.messages + messages, next.runtime.conversationFocus), next.runtime,
                     sys.nextAttemptAt))
  {
    LiveAtHead(sys);
    RenderedAfterMessages(sys.store.entries, rows);
    LiveWhole(Sys(next, Snapshot(sys.context.messages + messages, next.runtime.conversationFocus), next.runtime,
                  sys.nextAttemptAt));
  }

  lemma CommitKeepsLive(sys: Sys, change: Change, storeFails: bool)
    requires Live(sys)
    ensures Live(AfterCommit(sys, change, storeFails).sys)
    // a commit that fails shows nothing of it
    ensures var o := AfterCommit(sys, change, storeFails);
      o.result.Err? ==> o.sys.context == sys.context && o.sys.held == sys.held
    ensures var o := AfterCommit(sys, change, storeFails);
      o.result.Err? && o.result != Err(InstallFailed) ==> o.sys == sys
  {
    if change.messages != [] || change.patch.Some? {
      var write := WriteOf(change);
      var t := Transact(sys.store, sys.held.ledgerHeadEntryId, write);
      if t.Ok? && !storeFails {
        var rows := TransactKeepsSound(sys.store, sys.held.ledgerHeadEntryId, write);
        if WellFormed(sys.context.messages + change.messages) {
          CommittedLive(sys, t.value, rows, change.messages);
        } else {
          LiveGrown(sys, t.value, rows);
        }
      }
    }
  }

  lemma ProjectShows(store: Store)
    requires Project(store.entries, store.runtime).Ok?
    ensures var p := Project(store.entries, store.runtime).value;
      && p.snapshot == Snapshot(Rendered(store.entries), store.runtime.conversationFocus)
      && p.throughEntryId == Head(store.entries)
      && WellFormed(p.snapshot.messages)
  {
  }

  lemma ReloadKeepsLive(sys: Sys, loadFails: bool)
    requires Live(sys)
    ensures Live(AfterReload(sys, loadFails).sys)
  {
    var o := AfterReload(sys, loadFails);
    if o.ok {
      ProjectShows(sys.store);
      LiveWhole(o.sys);
    }
  }

  lemma {:induction false} ForeignKeepsSound(store: Store, writes: seq<Write>) returns (rows: seq<Entry>)
    requires Sound(store)
    ensures Sound(Foreign(store, writes)) && Foreign(store, writes).entries == store.entries + rows
  {
    if writes == [] {
      rows := [];
    } else {
      rows := ForeignKeepsSound(store, writes[..|writes| - 1]);
      var before := Foreign(store, writes[..|writes| - 1]);
      var write := writes[|writes| - 1];
      if Transact(before, before.runtime.ledgerHeadEntryId, write).Ok? {
        var more := TransactKeepsSound(before, before.runtime.ledgerHeadEntryId, write);
        assert (store.entries + rows) + more == store.entries + (rows + more);
        rows := rows + more;
      }
    }
  }

  // What an attempt that goes through started from.
  ghost predicate Planned(sys: Sys, input: CompactInput, attempt: Attempt, plan: Plan, estimate: Estimator) {
    && Sound(sys.store)
    && PlannedFrom(sys.store.entries, sys.store.runtime, plan, InputFor(sys.store, input, attempt), estimate)
  }

  lemma DecideGo(sys: Sys, input: CompactInput, attempt: Attempt, estimate: Estimator)
    requires Sound(sys.store) && Decide(sys.store, input, attempt, estimate).Go?
    ensures Planned(sys, input, attempt, Decide(sys.store, input, attempt, estimate).plan, estimate)
  {
    ProjectShows(sys.store);
    var entries := sys.store.entries;
    assert entries == [] ==> Active(entries) == [];
    PlanSplits(entries, Head(entries), InputFor(sys.store, input, attempt), estimate);
  }

  // A compaction is appended to the very ledger it was prepared from.
  lemma AppendedToSame(store: Store, writes: seq<Write>, payload: Payload, patch: Patch, gap: nat)
    requires Sound(store)
    requires Transact(Foreign(store, writes), Head(store.entries), Write.AppendCompaction(payload, patch, gap)).Ok?
    ensures Foreign(store, writes).entries == store.entries
    ensures var t := Transact(Foreign(store, writes), Head(store.entries),
                              Write.AppendCompaction(payload, patch, gap)).value;
      && Sound(t)
      && t.entries == WithCompaction(store.entries, NextId(store.entries, gap), payload)
      && t.runtime.ledgerHeadEntryId == Some(NextId(store.entries, gap))
  {
    var rows := ForeignKeepsSound(store, writes);
    if rows != [] { RowsMoveHead(store, Foreign(store, writes), rows); }
    assert store.entries + [] == store.entries;
    var more := TransactKeepsSound(Foreign(store, writes), Head(store.entries),
                                   Write.AppendCompaction(payload, patch, gap));
  }

  lemma PlannedBumped(sys: Sys, input: CompactInput, attempt: Attempt, plan: Plan, estimate: Estimator)
    requires Planned(sys, input, attempt, plan, estimate)
    ensures PlannedFrom(sys.store.entries, Bumped(sys.store.runtime), plan, InputFor(sys.store, input, attempt),
                        estimate)
  {
    SameProjection(sys.store.entries, sys.store.runtime, Bumped(sys.store.runtime));
  }

  lemma CandidateExact(sys: Sys, input: CompactInput, attempt: Attempt, plan: Plan, estimate: Estimator, id: nat,
                       other: RuntimeState)
    requires Planned(sys, input, attempt, plan, estimate)
    requires CandidateOf(sys, input, attempt, plan).ReadyCandidate?
    requires id > Head(sys.store.entries).value && other.ledgerHeadEntryId == Some(id)
    ensures var candidate := CandidateOf(sys, input, attempt, plan);
      var compacted := WithCompaction(sys.store.entries, id, candidate.payload);
      && Project(compacted, other).Ok?
      && Rendered(compacted) == candidate.projection.snapshot.messages
      && candidate.projection.snapshot.conversationFocus == sys.store.runtime.conversationFocus
      && Active(compacted) == plan.tailEntries
  {
    PlannedBumped(sys, input, attempt, plan, estimate);
    ReadyCandidateIsExact(input.settings, sys.store.entries, Bumped(sys.store.runtime), plan,
                          InputFor(sys.store, input, attempt), estimate, attempt.outside, id, other);
  }

  // The compaction that gets committed, seen from the ledger it was prepared from.
  lemma CommittedCompaction(sys: Sys, input: CompactInput, attempt: Attempt, plan: Plan, estimate: Estimator)
    returns (t: Store)
    requires Planned(sys, input, attempt, plan, estimate)
    requires CandidateOf(sys, input, attempt, plan).ReadyCandidate?
    requires EndOfAppend(sys, attempt, plan, CandidateOf(sys, input, attempt, plan)).Shown?
    ensures var candidate := CandidateOf(sys, input, attempt, plan);
      && AppendedStore(sys, attempt, plan, candidate.payload) == Ok(t)
      && t.entries == WithCompaction(sys.store.entries, NextId(sys.store.entries, attempt.gap), candidate.payload)
      && Sound(t)
      && Project(t.entries, t.runtime).Ok?
      && Rendered(t.entries) == candidate.projection.snapshot.messages
      && Active(t.entries) == plan.tailEntries
  {
    var candidate := CandidateOf(sys, input, attempt, plan);
    PlanSplits(sys.store.entries, Head(sys.store.entries), InputFor(sys.store, input, attempt), estimate);
    AppendedToSame(sys.store, attempt.meanwhile, candidate.payload, EpochPatch(sys.store.runtime), attempt.gap);
    t := AppendedStore(sys, attempt, plan, candidate.payload).value;
    CandidateExact(sys, input, attempt, plan, estimate, NextId(sys.store.entries, attempt.gap), t.runtime);
  }

  // Replay looks at nothing of the runtime state but its head.
  lemma SameProjection(entries: seq<Entry>, a: RuntimeState, b: RuntimeState)
    requires a.ledgerHeadEntryId == b.ledgerHeadEntryId
    ensures Project(entries, a).Ok? <==> Project(entries, b).Ok?
  {
  }

  lemma CandidateShown(sys: Sys, input: CompactInput, attempt: Attempt, plan: Plan, estimate: Estimator)
    requires Planned(sys, input, attempt, plan, estimate)
    requires CandidateOf(sys, input, attempt, plan).ReadyCandidate?
    ensures WellFormed(CandidateOf(sys, input, attempt, plan).projection.snapshot.messages)
  {
    var id := Head(sys.store.entries).value + 1;
    var other := sys.store.runtime.(ledgerHeadEntryId := Some(id));
    CandidateExact(sys, input, attempt, plan, estimate, id, other);
    var compacted := WithCompaction(sys.store.entries, id, CandidateOf(sys, input, attempt, plan).payload);
    ProjectShows(Store(compacted, other));
  }

  ghost predicate Shows(t: Store, candidate: Candidate)
    requires candidate.ReadyCandidate?
  {
    && Sound(t) && Project(t.entries, t.runtime).Ok?
    && Rendered(t.entries) == candidate.projection.snapshot.messages
  }

  lemma EndLive(after: Sys, input: CompactInput, candidate: Candidate, end: AppendEnd)
    requires Live(after) && candidate.ReadyCandidate?
    requires end.Unshown? ==> Live(after.(store := end.committed))
    requires end.Shown? ==> Shows(end.committed, candidate) && WellFormed(candidate.projection.snapshot.messages)
    ensures Live(AfterEnd(after, input, candidate, end).sys)
  {
    match end {
      case HeadMoved =>
      case Refused => LiveTimes(after, BackOff(after, input).nextAttemptAt);
      case Unshown(committed) =>
        LiveTimes(after.(store := committed), BackOff(after.(store := committed), input).nextAttemptAt);
      case Shown(committed) =>
        var installed := after.(store := committed, context := candidate.projection.snapshot,
                                held := committed.runtime);
        LiveWhole(installed);
        ReloadKeepsLive(installed, input.reloadFails);
        LiveTimes(AfterReload(installed, input.reloadFails).sys, 0);
    }
  }

  lemma MeanwhileLive(sys: Sys, attempt: Attempt)
    requires Live(sys)
    ensures Live(sys.(store := Foreign(sys.store, attempt.meanwhile)))
  {
    var rows := ForeignKeepsSound(sys.store, attempt.meanwhile);
    LiveGrown(sys, Foreign(sys.store, attempt.meanwhile), rows);
  }

  // What is known of a ready candidate: the context accepts it, and once appended
  // the ledger replays to exactly what it shows.
  ghost predicate Exact(sys: Sys, attempt: Attempt, plan: Plan, candidate: Candidate) {
    && candidate.ReadyCandidate?
    && WellFormed(candidate.projection.snapshot.messages)
    && var end := EndOfAppend(sys, attempt, plan, candidate); end.Shown? ==> Shows(end.committed, candidate)
  }

  lemma CommittedShows(sys: Sys, input: CompactInput, attempt: Attempt, plan: Plan, estimate: Estimator)
    requires Planned(sys, input, attempt, plan, estimate)
    requires CandidateOf(sys, input, attempt, plan).ReadyCandidate?
    requires EndOfAppend(sys, attempt, plan, CandidateOf(sys, input, attempt, plan)).Shown?
    ensures var candidate := CandidateOf(sys, input, attempt, plan);
      Shows(EndOfAppend(sys, attempt, plan, candidate).committed, candidate)
  {
    var t := CommittedCompaction(sys, input, attempt, plan, estimate);
  }

  lemma CandidateIsExact(sys: Sys, input: CompactInput, attempt: Attempt, plan: Plan, estimate: Estimator)
    requires Planned(sys, input, attempt, plan, estimate)
    requires CandidateOf(sys, input, attempt, plan).ReadyCandidate?
    ensures Exact(sys, attempt, plan, CandidateOf(sys, input, attempt, plan))
  {
    CandidateShown(sys, input, attempt, plan, estimate);
    if EndOfAppend(sys, attempt, plan, CandidateOf(sys, input, attempt, plan)).Shown? {
      CommittedShows(sys, input, attempt, plan, estimate);
    }
  }

  lemma AppendKeepsLive(sys: Sys, input: CompactInput, attempt: Attempt, plan: Plan, candidate: Candidate)
    requires Live(sys) && Exact(sys, attempt, plan, candidate)
    ensures Live(AfterAppend(sys, input, attempt, plan, candidate).sys)
  {
    MeanwhileLive(sys, attempt);
    EndLive(sys.(store := Foreign(sys.store, attempt.meanwhile)), input, candidate,
            EndOfAppend(sys, attempt, plan, candidate));
  }

  lemma CandidateKeepsLive(sys: Sys, input: CompactInput, attempt: Attempt, plan: Plan, candidate: Candidate)
    requires Live(sys) && (candidate.ReadyCandidate? ==> Exact(sys, attempt, plan, candidate))
    ensures Live(AfterCandidate(sys, input, attempt, plan, candidate).sys)
  {
    if candidate.ReadyCandidate? {
      AppendKeepsLive(sys, input, attempt, plan, candidate);
    } else {
      var after := sys.(store := Foreign(sys.store, attempt.meanwhile));
      MeanwhileLive(sys, attempt);
      LiveTimes(after, BackOff(after, input).nextAttemptAt);
    }
  }

  lemma AttemptKeepsLive(sys: Sys, input: CompactInput, attempt: Attempt, estimate: Estimator)
    requires Live(sys)
    ensures Live(AfterAttempt(sys, input, attempt, estimate).sys)
  {
    match Decide(sys.store, input, attempt, estimate) {
      case Stop(_, _) =>
        LiveTimes(sys, BackOff(sys, input).nextAttemptAt);
      case Go(plan) =>
        DecideGo(sys, input, attempt, estimate);
        if CandidateOf(sys, input, attempt, plan).ReadyCandidate? {
          CandidateIsExact(sys, input, attempt, plan, estimate);
        }
        CandidateKeepsLive(sys, input, attempt, plan, CandidateOf(sys, input, attempt, plan));
    }
  }

  lemma CompactKeepsLive(sys: Sys, input: CompactInput, estimate: Estimator)
    requires Live(sys)
    ensures Live(AfterCompact(sys, input, estimate).sys)
  {
    if !Skipped(sys, input) {
      AttemptKeepsLive(sys, input, input.first, estimate);
      var first := AfterAttempt(sys, input, input.first, estimate);
      if first.outcome == Conflict {
        AttemptKeepsLive(first.sys, input, input.second, estimate);
        var second := AfterAttempt(first.sys, input, input.second, estimate);
        LiveTimes(second.sys, BackOff(second.sys, input).nextAttemptAt);
      }
    }
  }

  lemma StepKeepsLive(sys: Sys, step: Step, estimate: Estimator)
    requires Live(sys)
    ensures Live(Next(sys, step, estimate))
  {
    match step {
      case CommitStep(change, storeFails) => CommitKeepsLive(sys, change, storeFails);
      case CompactStep(input) => CompactKeepsLive(sys, input, estimate);
      case ReloadStep(loadFails) => ReloadKeepsLive(sys, loadFails);
      case OtherWriter(write) =>
        var rows := ForeignKeepsSound(sys.store, [write]);
        LiveGrown(sys, Foreign(sys.store, [write]), rows);
    }
  }

  // In every run, whatever fails and whoever else writes, the live messages are
  // exactly what a full replay of the ledger through the held head shows.
  lemma {:induction false} AlwaysLive(sys: Sys, steps: seq<Step>, estimate: Estimator)
    requires Live(sys)
    ensures Live(Run(sys, steps, estimate))
  {
    if steps != [] {
      AlwaysLive(sys, steps[..|steps| - 1], estimate);
      StepKeepsLive(Run(sys, steps[..|steps| - 1], estimate), steps[|steps| - 1], estimate);
    }
  }

  // --- writers elsewhere ----------------------------------------------------

  // The payload records a plan prepared from the ledger before it, under some input
  // and some estimate, and the block is what that plan summarised.
  ghost predicate Records(front: seq<Entry>, payload: Payload, block: seq<StoredMessage>) {
    exists input: PrepareInput, estimate: Estimator, summary: string, tokens: nat ::
      && input.previousCompaction == LatestCompaction(front)
      && Prepare(front, Head(front), input, estimate).Ready?
      && payload == PayloadOf(Prepare(front, Head(front), input, estimate).plan, summary, tokens)
      && block == Prepare(front, Head(front), input, estimate).plan.entriesToSummarize
  }

  // A writer whose compactions, if any, are prepared from the ledger they land on.
  ghost predicate Prepared(store: Store, write: Write) {
    write.AppendCompaction? && Transact(store, store.runtime.ledgerHeadEntryId, write).Ok? ==>
      exists block :: Records(store.entries, write.payload, block)
  }

  ghost predicate AllPrepared(store: Store, writes: seq<Write>) {
    || writes == []
    || (AllPrepared(store, writes[..|writes| - 1])
        && Prepared(Foreign(store, writes[..|writes| - 1]), writes[|writes| - 1]))
  }

  // An Agent that has not done anything yet.
  function FreshAgent(runtime: RuntimeState): Sys {
    Sys(Store([], runtime), Snapshot([], runtime.conversationFocus), runtime, 0)
  }

  lemma FreshAgentLive(runtime: RuntimeState)
    requires runtime.ledgerHeadEntryId == None
    ensures Live(FreshAgent(runtime))
  {
    UsersWellFormed([]);
    assert Bodies(Active([])) == [];
    LiveWhole(FreshAgent(runtime));
  }
}
