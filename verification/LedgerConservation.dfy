// Every stored message is either visible or in exactly one summarised block.
module LedgerConservation {
  import opened Prelude
  import opened Ledger
  import opened LedgerRepo
  import opened CompactionCut
  import opened CompactionPlan
  import opened CompactionEffect
  import opened CompactionCandidate
  import opened LedgerHost
  import opened LedgerRuns

  // A ledger grown by messages and prepared compactions, with their blocks.
  ghost predicate Grown(entries: seq<Entry>, blocks: seq<seq<StoredMessage>>)
    decreases |entries|
  {
    if entries == [] then blocks == []
    else
      var front, last := entries[..|entries| - 1], entries[|entries| - 1];
      match last
      case MessageEntry(_) => Grown(front, blocks)
      case CompactionEntry(compaction) =>
        && blocks != []
        && Grown(front, blocks[..|blocks| - 1])
        && Records(front, compaction.payload, blocks[|blocks| - 1])
  }

  lemma RecordsSplit(front: seq<Entry>, id: nat, payload: Payload, block: seq<StoredMessage>)
    requires Increasing(WithCompaction(front, id, payload)) && Increasing(front)
    requires Records(front, payload, block)
    ensures Active(front) == block + Active(WithCompaction(front, id, payload)) && block != []
  {
    var input: PrepareInput, estimate: Estimator, summary: string, tokens: nat :|
      && input.previousCompaction == LatestCompaction(front)
      && Prepare(front, Head(front), input, estimate).Ready?
      && payload == PayloadOf(Prepare(front, Head(front), input, estimate).plan, summary, tokens)
      && block == Prepare(front, Head(front), input, estimate).plan.entriesToSummarize;
    PlanSplits(front, Head(front), input, estimate);
    var plan := Prepare(front, Head(front), input, estimate).plan;
    if front != [] {
      assert WithCompaction(front, id, payload)[|front| - 1].Id() < WithCompaction(front, id, payload)[|front|].Id();
    }
    CompactedActive(front, id, payload, plan.entriesToSummarize, plan.tailEntries);
  }

  lemma IncreasingFront(entries: seq<Entry>)
    requires Increasing(entries) && entries != []
    ensures Increasing(entries[..|entries| - 1])
  {
  }

  lemma ConservedMessage(front: seq<Entry>, e: Entry, summarised: seq<StoredMessage>)
    requires Increasing(front + [e]) && e.MessageEntry?
    requires summarised + Active(front) == Stored(front)
    ensures summarised + Active(front + [e]) == Stored(front + [e])
  {
    ActiveAfterMessages(front, [e]);
    StoredConcat(front, [e]);
    ConcatAssociative(summarised, Active(front), Stored([e]));
  }

  lemma ConservedCompaction(front: seq<Entry>, c: StoredCompaction, before: seq<seq<StoredMessage>>,
                            block: seq<StoredMessage>)
    requires Increasing(front) && Increasing(WithCompaction(front, c.id, c.payload))
    requires Flatten(before) + Active(front) == Stored(front)
    requires Records(front, c.payload, block)
    ensures Flatten(before + [block]) + Active(WithCompaction(front, c.id, c.payload))
        == Stored(WithCompaction(front, c.id, c.payload))
  {
    RecordsSplit(front, c.id, c.payload, block);
    CompactedLatest(front, c.id, c.payload);
    assert (before + [block])[..|before|] == before;
    ConcatAssociative(Flatten(before), block, Active(WithCompaction(front, c.id, c.payload)));
  }

  // The ledger without its last entry, and the blocks that go with it.
  function BlocksBefore(entries: seq<Entry>, blocks: seq<seq<StoredMessage>>): seq<seq<StoredMessage>>
    requires entries != []
  {
    if entries[|entries| - 1].MessageEntry? || blocks == [] then blocks else blocks[..|blocks| - 1]
  }

  ghost predicate Conserved(entries: seq<Entry>, blocks: seq<seq<StoredMessage>>) {
    Flatten(blocks) + Active(entries) == Stored(entries)
  }

  lemma ConservedStepMessage(entries: seq<Entry>, blocks: seq<seq<StoredMessage>>)
    requires Increasing(entries) && entries != [] && entries[|entries| - 1].MessageEntry?
    requires Conserved(entries[..|entries| - 1], blocks)
    ensures Conserved(entries, blocks)
  {
    var front, last := entries[..|entries| - 1], entries[|entries| - 1];
    assert entries == front + [last];
    ConservedMessage(front, last, Flatten(blocks));
  }

  lemma ConservedStepCompaction(entries: seq<Entry>, before: seq<seq<StoredMessage>>, block: seq<StoredMessage>)
    requires Increasing(entries) && entries != [] && entries[|entries| - 1].CompactionEntry?
    requires Conserved(entries[..|entries| - 1], before)
    requires Records(entries[..|entries| - 1], entries[|entries| - 1].compaction.payload, block)
    ensures Conserved(entries, before + [block])
  {
    var c := entries[|entries| - 1].compaction;
    IncreasingFront(entries);
    assert entries == WithCompaction(entries[..|entries| - 1], c.id, c.payload);
    ConservedCompaction(entries[..|entries| - 1], c, before, block);
  }

  lemma GrownFront(entries: seq<Entry>, blocks: seq<seq<StoredMessage>>)
    requires entries != [] && Grown(entries, blocks)
    ensures Grown(entries[..|entries| - 1], BlocksBefore(entries, blocks))
    ensures entries[|entries| - 1].CompactionEntry? ==>
      && blocks != [] && BlocksBefore(entries, blocks) == blocks[..|blocks| - 1]
      && Records(entries[..|entries| - 1], entries[|entries| - 1].compaction.payload, blocks[|blocks| - 1])
  {
  }

  lemma ConservedNext(entries: seq<Entry>, blocks: seq<seq<StoredMessage>>)
    requires Increasing(entries) && entries != [] && Conserved(entries[..|entries| - 1], BlocksBefore(entries, blocks))
    requires entries[|entries| - 1].CompactionEntry? ==>
      && blocks != [] && BlocksBefore(entries, blocks) == blocks[..|blocks| - 1]
      && Records(entries[..|entries| - 1], entries[|entries| - 1].compaction.payload, blocks[|blocks| - 1])
    ensures Conserved(entries, blocks)
  {
    if entries[|entries| - 1].MessageEntry? {
      ConservedStepMessage(entries, blocks);
    } else {
      var before, block := blocks[..|blocks| - 1], blocks[|blocks| - 1];
      assert blocks == before + [block];
      ConservedStepCompaction(entries, before, block);
    }
  }

  lemma {:induction false} ConservedBlocks(entries: seq<Entry>, blocks: seq<seq<StoredMessage>>)
    requires Increasing(entries) && Grown(entries, blocks)
    ensures Conserved(entries, blocks)
    decreases |entries|
  {
    if entries != [] {
      IncreasingFront(entries);
      GrownFront(entries, blocks);
      ConservedBlocks(entries[..|entries| - 1], BlocksBefore(entries, blocks));
      ConservedNext(entries, blocks);
    }
  }

  // The summarised blocks, in order, and then the visible messages, are the
  // permanent history: nothing is lost, summarised twice or brought back.
  lemma Conservation(entries: seq<Entry>, blocks: seq<seq<StoredMessage>>)
    requires Increasing(entries) && Grown(entries, blocks)
    ensures Flatten(blocks) + Active(entries) == Stored(entries)
    ensures IdsIncrease(Flatten(blocks) + Active(entries))
  {
    StoredIncrease(entries);
    ConservedBlocks(entries, blocks);
  }

  // --- reachable ledgers are grown that way ---------------------------------

  lemma {:induction false} GrownByMessages(entries: seq<Entry>, rows: seq<Entry>, blocks: seq<seq<StoredMessage>>)
    requires Grown(entries, blocks) && MessagesOnly(rows)
    ensures Grown(entries + rows, blocks)
    decreases |rows|
  {
    if rows == [] {
      assert entries + rows == entries;
    } else {
      assert (entries + rows)[..|entries + rows| - 1] == entries + rows[..|rows| - 1];
      GrownByMessages(entries, rows[..|rows| - 1], blocks);
    }
  }

  // Compactions of other writers are prepared from the ledger they land on.
  ghost predicate Ours(sys: Sys, step: Step, estimate: Estimator) {
    match step
    case CompactStep(input) =>
      && AllPrepared(sys.store, input.first.meanwhile)
      && AllPrepared(AfterAttempt(sys, input, input.first, estimate).sys.store, input.second.meanwhile)
    case OtherWriter(write) => AllPrepared(sys.store, [write])
    case _ => true
  }

  ghost predicate OursRun(sys: Sys, steps: seq<Step>, estimate: Estimator) {
    || steps == []
    || (OursRun(sys, steps[..|steps| - 1], estimate)
        && Ours(Run(sys, steps[..|steps| - 1], estimate), steps[|steps| - 1], estimate))
  }

  lemma WriteGrows(store: Store, expected: Option<nat>, write: Write, blocks: seq<seq<StoredMessage>>)
    returns (more: seq<seq<StoredMessage>>)
    requires Sound(store) && Grown(store.entries, blocks)
    requires Transact(store, expected, write).Ok? && Prepared(store, write)
    ensures Grown(Transact(store, expected, write).value.entries, blocks + more)
    ensures !write.AppendCompaction? ==> more == []
  {
    if write.AppendCompaction? {
      var block :| Records(store.entries, write.payload, block);
      more := [block];
      GrownByCompaction(store.entries, NextId(store.entries, write.gap), write.payload, block, blocks);
    } else {
      more := [];
      var rows := TransactKeepsSound(store, expected, write);
      GrownByMessages(store.entries, rows, blocks);
      assert blocks + [] == blocks;
    }
  }

  lemma {:induction false} ForeignGrows(store: Store, writes: seq<Write>, blocks: seq<seq<StoredMessage>>)
    returns (more: seq<seq<StoredMessage>>)
    requires Sound(store) && Grown(store.entries, blocks) && AllPrepared(store, writes)
    ensures Grown(Foreign(store, writes).entries, blocks + more)
  {
    more := [];
    assert blocks + [] == blocks;
    if writes != [] {
      var earlier := writes[..|writes| - 1];
      var rows := ForeignKeepsSound(store, earlier);
      more := ForeignGrows(store, earlier, blocks);
      var before := Foreign(store, earlier);
      if Transact(before, before.runtime.ledgerHeadEntryId, writes[|writes| - 1]).Ok? {
        var last := WriteGrows(before, before.runtime.ledgerHeadEntryId, writes[|writes| - 1], blocks + more);
        ConcatAssociative(blocks, more, last);
        more := more + last;
      }
    }
  }

  lemma CommitGrows(sys: Sys, change: Change, storeFails: bool, blocks: seq<seq<StoredMessage>>)
    requires Live(sys) && Grown(sys.store.entries, blocks)
    ensures Grown(AfterCommit(sys, change, storeFails).sys.store.entries, blocks)
  {
    if (change.messages != [] || change.patch.Some?)
       && Transact(sys.store, sys.held.ledgerHeadEntryId, WriteOf(change)).Ok? {
      var more := WriteGrows(sys.store, sys.held.ledgerHeadEntryId, WriteOf(change), blocks);
      assert blocks + [] == blocks;
    }
  }

  lemma ReadyRecords(sys: Sys, input: CompactInput, attempt: Attempt, plan: Plan, estimate: Estimator)
    requires Planned(sys, input, attempt, plan, estimate)
    requires CandidateOf(sys, input, attempt, plan).ReadyCandidate?
    ensures Records(sys.store.entries, CandidateOf(sys, input, attempt, plan).payload, plan.entriesToSummarize)
  {
    var v := ReadyParts(input.settings, sys.store.entries, Bumped(sys.store.runtime), plan, attempt.outside);
    RecordsFrom(sys.store.entries, InputFor(sys.store, input, attempt), plan, v.summary, v.tokens, estimate);
  }

  lemma RecordsFrom(front: seq<Entry>, input: PrepareInput, plan: Plan, summary: string, tokens: nat,
                    estimate: Estimator)
    requires input.previousCompaction == LatestCompaction(front)
    requires Prepare(front, Head(front), input, estimate) == Ready(plan)
    ensures Records(front, PayloadOf(plan, summary, tokens), plan.entriesToSummarize)
  {
  }

  lemma GrownByCompaction(front: seq<Entry>, id: nat, payload: Payload, block: seq<StoredMessage>,
                          blocks: seq<seq<StoredMessage>>)
    requires Grown(front, blocks) && Records(front, payload, block)
    ensures Grown(WithCompaction(front, id, payload), blocks + [block])
  {
    var entries := WithCompaction(front, id, payload);
    assert entries[..|entries| - 1] == front;
    assert (blocks + [block])[..|blocks|] == blocks;
  }

  // The blocks after an attempt: what was summarised comes after those before it, if
  // the compaction went through; otherwise there are those that others left meanwhile.
  ghost function BlocksAfter(o: CompactOutcome, plan: Plan, before: seq<seq<StoredMessage>>,
                             meanwhile: seq<seq<StoredMessage>>): seq<seq<StoredMessage>> {
    if o.outcome == Compacted then before + [plan.entriesToSummarize] else meanwhile
  }

  lemma EndGrows(after: Sys, input: CompactInput, candidate: Candidate, end: AppendEnd, plan: Plan,
                 blocks: seq<seq<StoredMessage>>, meanwhile: seq<seq<StoredMessage>>)
    requires candidate.ReadyCandidate? && !end.Unshown?
    requires Grown(after.store.entries, meanwhile)
    requires end.Shown? ==> Grown(end.committed.entries, blocks + [plan.entriesToSummarize])
    ensures var o := AfterEnd(after, input, candidate, end);
      Grown(o.sys.store.entries, BlocksAfter(o, plan, blocks, meanwhile))
  {
  }

  lemma AppendGrows(sys: Sys, input: CompactInput, attempt: Attempt, plan: Plan, candidate: Candidate,
                    blocks: seq<seq<StoredMessage>>, meanwhile: seq<seq<StoredMessage>>)
    requires candidate.ReadyCandidate?
    requires Grown(Foreign(sys.store, attempt.meanwhile).entries, meanwhile)
    requires var end := EndOfAppend(sys, attempt, plan, candidate);
      && !end.Unshown?
      && (end.Shown? ==> Grown(end.committed.entries, blocks + [plan.entriesToSummarize]))
    ensures var o := AfterAppend(sys, input, attempt, plan, candidate);
      Grown(o.sys.store.entries, BlocksAfter(o, plan, blocks, meanwhile))
  {
    EndGrows(sys.(store := Foreign(sys.store, attempt.meanwhile)), input, candidate,
             EndOfAppend(sys, attempt, plan, candidate), plan, blocks, meanwhile);
  }

  lemma ShownParts(sys: Sys, input: CompactInput, attempt: Attempt, plan: Plan, estimate: Estimator, end: AppendEnd)
    returns (id: nat, payload: Payload)
    requires Planned(sys, input, attempt, plan, estimate)
    requires CandidateOf(sys, input, attempt, plan).ReadyCandidate?
    requires end == EndOfAppend(sys, attempt, plan, CandidateOf(sys, input, attempt, plan)) && end.Shown?
    ensures end.committed.entries == WithCompaction(sys.store.entries, id, payload)
    ensures Records(sys.store.entries, payload, plan.entriesToSummarize)
  {
    var t := CommittedCompaction(sys, input, attempt, plan, estimate);
    ReadyRecords(sys, input, attempt, plan, estimate);
    payload := CandidateOf(sys, input, attempt, plan).payload;
    id := NextId(sys.store.entries, attempt.gap);
  }

  lemma NeverUnshown(sys: Sys, input: CompactInput, attempt: Attempt, plan: Plan, estimate: Estimator)
    requires Planned(sys, input, attempt, plan, estimate)
    requires CandidateOf(sys, input, attempt, plan).ReadyCandidate?
    ensures !EndOfAppend(sys, attempt, plan, CandidateOf(sys, input, attempt, plan)).Unshown?
  {
    CandidateShown(sys, input, attempt, plan, estimate);
  }

  lemma ShownGrows(sys: Sys, input: CompactInput, attempt: Attempt, plan: Plan, blocks: seq<seq<StoredMessage>>,
                   estimate: Estimator, end: AppendEnd)
    requires Planned(sys, input, attempt, plan, estimate)
    requires CandidateOf(sys, input, attempt, plan).ReadyCandidate?
    requires Grown(sys.store.entries, blocks)
    requires end == EndOfAppend(sys, attempt, plan, CandidateOf(sys, input, attempt, plan)) && end.Shown?
    ensures Grown(end.committed.entries, blocks + [plan.entriesToSummarize])
  {
    var id, payload := ShownParts(sys, input, attempt, plan, estimate, end);
    GrownByCompaction(sys.store.entries, id, payload, plan.entriesToSummarize, blocks);
  }

  lemma CandidateGrows(sys: Sys, input: CompactInput, attempt: Attempt, plan: Plan, candidate: Candidate,
                       blocks: seq<seq<StoredMessage>>, meanwhile: seq<seq<StoredMessage>>)
    requires Grown(Foreign(sys.store, attempt.meanwhile).entries, meanwhile)
    requires candidate.ReadyCandidate? ==>
      var end := EndOfAppend(sys, attempt, plan, candidate);
      && !end.Unshown?
      && (end.Shown? ==> Grown(end.committed.entries, blocks + [plan.entriesToSummarize]))
    ensures var o := AfterCandidate(sys, input, attempt, plan, candidate);
      Grown(o.sys.store.entries, BlocksAfter(o, plan, blocks, meanwhile))
  {
    if candidate.ReadyCandidate? {
      AppendGrows(sys, input, attempt, plan, candidate, blocks, meanwhile);
    }
  }

  lemma GoGrows(sys: Sys, input: CompactInput, attempt: Attempt, plan: Plan, blocks: seq<seq<StoredMessage>>,
                meanwhile: seq<seq<StoredMessage>>, estimate: Estimator)
    requires Planned(sys, input, attempt, plan, estimate)
    requires Grown(sys.store.entries, blocks) && Grown(Foreign(sys.store, attempt.meanwhile).entries, meanwhile)
    ensures var o := AfterCandidate(sys, input, attempt, plan, CandidateOf(sys, input, attempt, plan));
      Grown(o.sys.store.entries, BlocksAfter(o, plan, blocks, meanwhile))
  {
    if CandidateOf(sys, input, attempt, plan).ReadyCandidate? {
      var end := EndOfAppend(sys, attempt, plan, CandidateOf(sys, input, attempt, plan));
      NeverUnshown(sys, input, attempt, plan, estimate);
      if end.Shown? { ShownGrows(sys, input, attempt, plan, blocks, estimate, end); }
    }
    CandidateGrows(sys, input, attempt, plan, CandidateOf(sys, input, attempt, plan), blocks, meanwhile);
  }

  lemma AttemptGrows(sys: Sys, input: CompactInput, attempt: Attempt, blocks: seq<seq<StoredMessage>>,
                     estimate: Estimator)
    returns (more: seq<seq<StoredMessage>>)
    requires Live(sys) && Grown(sys.store.entries, blocks) && AllPrepared(sys.store, attempt.meanwhile)
    ensures Grown(AfterAttempt(sys, input, attempt, estimate).sys.store.entries, blocks + more)
  {
    match Decide(sys.store, input, attempt, estimate) {
      case Stop(_, _) =>
        more := [];
        assert blocks + [] == blocks;
      case Go(plan) =>
        DecideGo(sys, input, attempt, estimate);
        var foreign := ForeignGrows(sys.store, attempt.meanwhile, blocks);
        GoGrows(sys, input, attempt, plan, blocks, blocks + foreign, estimate);
        more := if AfterAttempt(sys, input, attempt, estimate).outcome == Compacted then [plan.entriesToSummarize]
                else foreign;
    }
  }

  lemma CompactGrows(sys: Sys, input: CompactInput, blocks: seq<seq<StoredMessage>>, estimate: Estimator)
    returns (more: seq<seq<StoredMessage>>)
    requires Live(sys) && Grown(sys.store.entries, blocks) && Ours(sys, CompactStep(input), estimate)
    ensures Grown(AfterCompact(sys, input, estimate).sys.store.entries, blocks + more)
  {
    if Skipped(sys, input) {
      more := [];
      assert blocks + [] == blocks;
    } else {
      more := AttemptGrows(sys, input, input.first, blocks, estimate);
      var first := AfterAttempt(sys, input, input.first, estimate);
      if first.outcome == Conflict {
        AttemptKeepsLive(sys, input, input.first, estimate);
        var again := AttemptGrows(first.sys, input, input.second, blocks + more, estimate);
        ConcatAssociative(blocks, more, again);
        more := more + again;
      }
    }
  }

  lemma StepGrows(sys: Sys, step: Step, blocks: seq<seq<StoredMessage>>, estimate: Estimator)
    returns (more: seq<seq<StoredMessage>>)
    requires Live(sys) && Grown(sys.store.entries, blocks) && Ours(sys, step, estimate)
    ensures Grown(Next(sys, step, estimate).store.entries, blocks + more)
  {
    more := [];
    assert blocks + [] == blocks;
    match step {
      case CommitStep(change, storeFails) => CommitGrows(sys, change, storeFails, blocks);
      case CompactStep(input) => more := CompactGrows(sys, input, blocks, estimate);
      case ReloadStep(_) =>
      case OtherWriter(write) => more := ForeignGrows(sys.store, [write], blocks);
    }
  }

  lemma {:induction false} AlwaysGrown(sys: Sys, steps: seq<Step>, blocks: seq<seq<StoredMessage>>, estimate: Estimator)
    returns (more: seq<seq<StoredMessage>>)
    requires Live(sys) && Grown(sys.store.entries, blocks) && OursRun(sys, steps, estimate)
    ensures Grown(Run(sys, steps, estimate).store.entries, blocks + more)
  {
    if steps == [] {
      more := [];
      assert blocks + [] == blocks;
    } else {
      var before := Run(sys, steps[..|steps| - 1], estimate);
      var earlier := AlwaysGrown(sys, steps[..|steps| - 1], blocks, estimate);
      AlwaysLive(sys, steps[..|steps| - 1], estimate);
      var later := StepGrows(before, steps[|steps| - 1], blocks + earlier, estimate);
      ConcatAssociative(blocks, earlier, later);
      more := earlier + later;
    }
  }

  // Every run has such blocks, later ones added after the earlier ones, so at
  // every moment the blocks and the visible messages are the whole history.
  lemma AlwaysConserved(sys: Sys, steps: seq<Step>, blocks: seq<seq<StoredMessage>>, estimate: Estimator)
    returns (more: seq<seq<StoredMessage>>)
    requires Live(sys) && Grown(sys.store.entries, blocks) && OursRun(sys, steps, estimate)
    ensures var entries := Run(sys, steps, estimate).store.entries;
      && Grown(entries, blocks + more)
      && Flatten(blocks + more) + Active(entries) == Stored(entries)
      && IdsIncrease(Flatten(blocks + more) + Active(entries))
  {
    AlwaysLive(sys, steps, estimate);
    more := AlwaysGrown(sys, steps, blocks, estimate);
    Conservation(Run(sys, steps, estimate).store.entries, blocks + more);
  }

  // From an empty ledger on there is nothing else to assume.
  lemma ConservedFromTheStart(runtime: RuntimeState, steps: seq<Step>, estimate: Estimator)
    returns (blocks: seq<seq<StoredMessage>>)
    requires runtime.ledgerHeadEntryId == None && OursRun(FreshAgent(runtime), steps, estimate)
    ensures var sys := Run(FreshAgent(runtime), steps, estimate);
      && Live(sys)
      && Flatten(blocks) + Active(sys.store.entries) == Stored(sys.store.entries)
  {
    FreshAgentLive(runtime);
    AlwaysLive(FreshAgent(runtime), steps, estimate);
    var more := AlwaysConserved(FreshAgent(runtime), steps, [], estimate);
    blocks := [] + more;
  }
}
