// What two compactions in a row do to a mailbox that nobody has handled: a run of
// the host on which it is pending, and then forgotten.
module LedgerAttention {
  import opened Prelude
  import opened Messages
  import opened Attention
  import opened Ledger
  import opened LedgerRepo
  import opened CompactionCut
  import opened CompactionPlan
  import opened CompactionEffect
  import opened CompactionAttention
  import opened SummaryRepair
  import opened LedgerHost
  import opened LedgerRuns
  import opened LedgerReplay
  import opened LedgerReuse

  // The pending row of a mailbox, from the messages on display.
  function Pending(sys: Sys, mailbox: string): Option<int> {
    FindPendingThroughRowId(Capture(sys.context.messages), mailbox)
  }

  lemma CarriedValid(entries: seq<Entry>)
    requires AllReadable(entries)
    ensures ValidState(Carried(entries))
  {
    if LatestCompaction(entries).Some? { LatestIsEntry(entries); }
  }

  // What is on display: what the latest compaction carried over, and what was said since.
  lemma ShownParts(sys: Sys)
    requires Caught(sys)
    ensures Capture(sys.context.messages) == Join(Carried(sys.store.entries), Told(sys.store.entries))
    ensures ValidState(Carried(sys.store.entries))
  {
    LiveAtHead(sys);
    CarriedValid(sys.store.entries);
    KnownParts(sys.store.entries);
  }

  // A reset carries over what the active messages told, and nothing else.
  lemma ResetCarries(sys: Sys, input: CompactInput, summary: string, estimate: Estimator)
    requires Caught(sys) && Unhindered(input, summary) && Active(sys.store.entries) != []
    ensures var next := AfterCompact(sys, input, estimate).sys;
      && Caught(next) && Permanent(next.store) == Permanent(sys.store)
      && Active(next.store.entries) == [] && next.store.entries != []
      && Carried(next.store.entries) == Told(sys.store.entries)
      && Capture(next.context.messages) == Told(sys.store.entries)
  {
    var plan, v := ResetHides(sys, input, summary, estimate);
    var next := AfterCompact(sys, input, estimate).sys;
    AppendedCarries(sys, next.store, input, plan, v, estimate);
    LiveAtHead(next);
  }

  lemma AppendedCarries(sys: Sys, t: Store, input: CompactInput, plan: Plan, v: Validated, estimate: Estimator)
    requires AppendedAs(sys, t, input, plan, v, estimate)
    ensures Active(t.entries) == [] && t.entries != []
    ensures Carried(t.entries) == Told(sys.store.entries) == Known(t.entries)
  {
    var entries := sys.store.entries;
    var prepare := InputFor(sys.store, input, input.first);
    var id := NextId(entries, input.first.gap);
    CarriedValid(entries);
    PlanSplits(entries, Head(entries), prepare, estimate);
    OnlyToldIsKept(entries, prepare, estimate, v.summary, v.tokens, id);
    CompactedLatest(entries, id, PayloadOf(plan, v.summary, v.tokens));
    assert plan.entriesToSummarize + [] == plan.entriesToSummarize;
  }

  lemma RowsTell(entries: seq<Entry>, rows: seq<Entry>)
    requires Increasing(entries + rows) && MessagesOnly(rows)
    ensures Carried(entries + rows) == Carried(entries)
    ensures Told(entries + rows) == Join(Told(entries), Capture(Bodies(Stored(rows))))
  {
    LatestAfterMessages(entries, rows);
    ActiveAfterMessages(entries, rows);
    BodiesConcat(Active(entries), Stored(rows));
    CaptureConcat(Bodies(Active(entries)), Bodies(Stored(rows)));
  }

  // A commit adds what its messages say.
  lemma CommitTells(sys: Sys, change: Change)
    requires MayCommit(sys, change)
    ensures var next := AfterCommit(sys, change, false).sys;
      && Caught(next) && Active(next.store.entries) != []
      && Carried(next.store.entries) == Carried(sys.store.entries)
      && Told(next.store.entries) == Join(Told(sys.store.entries), Capture(change.messages))
  {
    FreshCommit(sys, change);
    CommitReplays(sys, change);
    var rows := TransactKeepsSound(sys.store, sys.held.ledgerHeadEntryId, WriteOf(change));
    RowsTell(sys.store.entries, rows);
  }

  // --- two compactions ------------------------------------------------------

  lemma NothingTold(entries: seq<Entry>)
    requires Active(entries) == []
    ensures Told(entries) == map[]
  {
    assert Bodies(Active(entries)) == [];
  }

  // After messages that do not mention the mailbox it is what the compaction carried
  // over that keeps it pending.
  lemma StillPending(entries: seq<Entry>, b: Sys, later: seq<Message>, mailbox: string)
    requires Caught(b) && Active(entries) == [] && mailbox !in Capture(later)
    requires Carried(b.store.entries) == Carried(entries)
    requires Told(b.store.entries) == Join(Told(entries), Capture(later))
    ensures Pending(b, mailbox) == FindPendingThroughRowId(Carried(entries), mailbox)
    ensures FindPendingThroughRowId(Told(b.store.entries), mailbox) == None
  {
    NothingTold(entries);
    ShownParts(b);
    GetJoin(Carried(entries), Told(b.store.entries), mailbox);
    GetJoin(map[], Capture(later), mailbox);
  }

  // A mailbox is pending by what the active messages say. A reset, some fresh
  // messages that do not mention it, another reset: it is pending until then, and
  // forgotten after, whatever the settings, although nobody has handled it. The
  // ledger replays all along.
  lemma SecondResetForgets(sys: Sys, later: Change, first: CompactInput, second: CompactInput, summary: string,
                           again: string, estimate: Estimator, mailbox: string)
    requires MayCommit(sys, later) && mailbox !in Capture(later.messages)
    requires FindPendingThroughRowId(Told(sys.store.entries), mailbox).Some?
    requires Unhindered(first, summary) && Unhindered(second, again)
    ensures var a := AfterCompact(sys, first, estimate).sys;
      var b := AfterCommit(a, later, false).sys;
      var c := AfterCompact(b, second, estimate).sys;
      && Caught(a) && Caught(b) && Caught(c)
      && Pending(a, mailbox) == Pending(b, mailbox) == FindPendingThroughRowId(Told(sys.store.entries), mailbox)
      && Pending(c, mailbox) == None
  {
    if Active(sys.store.entries) == [] { NothingTold(sys.store.entries); }
    ResetCarries(sys, first, summary, estimate);
    var a := AfterCompact(sys, first, estimate).sys;
    CommitTells(a, later);
    var b := AfterCommit(a, later, false).sys;
    StillPending(a.store.entries, b, later.messages, mailbox);
    ResetCarries(b, second, again, estimate);
  }

  // --- from the start -------------------------------------------------------

  function Say(m: Message): Change {
    Change([m], None, [])
  }

  lemma UserMayCommit(sys: Sys, m: Message)
    requires Caught(sys) && m.User?
    ensures MayCommit(sys, Say(m))
  {
    UsersWellFormed([m]);
  }

  lemma UpdateDisclosed(sys: Sys)
    requires Caught(sys) && Active(sys.store.entries) == []
    ensures var a := AfterCommit(sys, Say(UPDATE), false).sys;
      Caught(a) && FindPendingThroughRowId(Told(a.store.entries), KEY) == Some(3)
  {
    UserMayCommit(sys, UPDATE);
    CommitTells(sys, Say(UPDATE));
    NothingTold(sys.store.entries);
    UpdateTold();
    CaptureNormal([UPDATE]);
    JoinIdentity(Capture([UPDATE]));
  }

  lemma FourSteps(sys: Sys, a: Step, b: Step, c: Step, d: Step, estimate: Estimator)
    ensures Run(sys, [a, b, c], estimate)
        == LedgerRuns.Next(LedgerRuns.Next(LedgerRuns.Next(sys, a, estimate), b, estimate), c, estimate)
    ensures Run(sys, [a, b, c, d], estimate) == LedgerRuns.Next(Run(sys, [a, b, c], estimate), d, estimate)
  {
    ThreeSteps(sys, a, b, c, estimate);
    RunMore(sys, [a, b, c], d, estimate);
    assert [a, b, c] + [d] == [a, b, c, d];
  }

  // An Agent that has not done anything yet: an update is disclosed, a reset carries
  // its cursor over, a message comes in, a second reset drops the cursor.
  lemma SecondCompactionForgetsPending(runtime: RuntimeState, input: CompactInput, summary: string,
                                       estimate: Estimator)
    requires runtime.ledgerHeadEntryId == None && Unhindered(input, summary)
    ensures var update, later, reset := CommitStep(Say(UPDATE), false), CommitStep(Say(LATER),
                                                                                   false), CompactStep(input);
      var third := Run(FreshAgent(runtime), [update, reset, later], estimate);
      var end := Run(FreshAgent(runtime), [update, reset, later, reset], estimate);
      && Caught(third) && Caught(end)
      && Pending(third, KEY) == Some(3) && Pending(end, KEY) == None
  {
    var sys := FreshAgent(runtime);
    FreshAgentReplays(runtime);
    UpdateDisclosed(sys);
    var a := AfterCommit(sys, Say(UPDATE), false).sys;
    UserMayCommit(a, LATER);
    SilentCapture("later");
    SecondResetForgets(a, Say(LATER), input, input, summary, summary, estimate, KEY);
    FourSteps(sys, CommitStep(Say(UPDATE), false), CompactStep(input), CommitStep(Say(LATER), false),
              CompactStep(input), estimate);
  }
}
