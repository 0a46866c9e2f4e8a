// What a compaction does to the attention state the Agent can see: the rendered
// state of the ledger's latest compaction, joined with what the active messages say.
module CompactionAttention {
  import opened Prelude
  import opened Messages
  import opened MailboxKeys
  import opened Attention
  import opened Ledger
  import opened CompactionCut
  import opened CompactionPlan
  import opened CompactionEffect

  // All that is visible, the part a compaction rendered, and the part that the
  // active messages say themselves.
  function Known(entries: seq<Entry>): Attention {
    Capture(Rendered(entries))
  }

  function Carried(entries: seq<Entry>): Attention {
    match LatestCompaction(entries)
    case None => map[]
    case Some(c) => c.payload.attention
  }

  function Told(entries: seq<Entry>): Attention {
    Capture(Bodies(Active(entries)))
  }

  lemma StateShown(state: Attention)
    requires ValidState(state)
    ensures Capture([RenderState(state)]) == Join(map[], state)
  {
    var ms := [RenderState(state)];
    assert ms[..|ms| - 1] == [] && ms[|ms| - 1] == RenderState(state);
  }

  lemma PreambleShown(c: StoredCompaction)
    requires ValidState(c.payload.attention)
    ensures Capture(Preamble(c)) == Join(map[], c.payload.attention)
  {
    SilentCapture(HISTORY_SUMMARY_PREFIX + c.payload.summary);
    CaptureConcat([SummaryMessage(c.payload)], MachineState(c.payload));
    JoinNormal(map[], c.payload.attention);
    JoinIdentity(Join(map[], c.payload.attention));
    if c.payload.attention != map[] { StateShown(c.payload.attention); }
  }

  // Joining onto nothing only drops entries that say nothing.
  lemma JoinThrough(a: Attention, b: Attention)
    ensures Join(Join(map[], a), b) == Join(a, b)
  {
    JoinAssociative(map[], a, b);
    JoinNormal(a, b);
    JoinIdentity(Join(a, b));
  }

  lemma KnownParts(entries: seq<Entry>)
    requires ValidState(Carried(entries))
    ensures Known(entries) == Join(Carried(entries), Told(entries))
  {
    CaptureNormal(Bodies(Active(entries)));
    match LatestCompaction(entries) {
      case None => JoinIdentity(Told(entries));
      case Some(c) =>
        CaptureConcat(Preamble(c), Bodies(Active(entries)));
        PreambleShown(c);
        JoinThrough(c.payload.attention, Told(entries));
    }
  }

  // The ledger after a prepared compaction under some id above its head.
  function Compacted(entries: seq<Entry>, input: PrepareInput, estimate: Estimator, summary: string, tokens: nat,
                     id: nat)
    : seq<Entry>
    requires Prepare(entries, Head(entries), input, estimate).Ready?
  {
    WithCompaction(entries, id, PayloadOf(Prepare(entries, Head(entries), input, estimate).plan, summary, tokens))
  }

  ghost predicate MayCompact(entries: seq<Entry>, input: PrepareInput, estimate: Estimator, id: nat) {
    && Increasing(entries) && ValidState(Carried(entries))
    && (entries != [] ==> entries[|entries| - 1].Id() < id)
    && input.previousCompaction == LatestCompaction(entries)
    && Prepare(entries, Head(entries), input, estimate).Ready?
  }

  // Only the compressed messages are captured: what the previous compaction had
  // rendered is not looked at.
  lemma OnlyToldIsKept(entries: seq<Entry>, input: PrepareInput, estimate: Estimator, summary: string, tokens: nat,
                       id: nat)
    requires MayCompact(entries, input, estimate, id)
    ensures var after := Compacted(entries, input, estimate, summary, tokens, id);
      && Known(after) == Told(entries)
      && ValidState(Carried(after))
      && Active(after) == Prepare(entries, Head(entries), input, estimate).plan.tailEntries
  {
    var plan := Prepare(entries, Head(entries), input, estimate).plan;
    var payload := PayloadOf(plan, summary, tokens);
    PlanSplits(entries, Head(entries), input, estimate);
    CompactedActive(entries, id, payload, plan.entriesToSummarize, plan.tailEntries);
    CompactedLatest(entries, id, payload);
    CaptureValid(Bodies(plan.entriesToSummarize));
    KnownParts(WithCompaction(entries, id, payload));
    BodiesConcat(plan.entriesToSummarize, plan.tailEntries);
    CaptureConcat(Bodies(plan.entriesToSummarize), Bodies(plan.tailEntries));
  }

  // A compaction keeps the whole attention state, and so every answer drawn from
  // it, exactly when the previous compaction's state is below what the active
  // messages say themselves. With no previous compaction that always holds.
  lemma CompactionKeepsAttention(entries: seq<Entry>, input: PrepareInput, estimate: Estimator,
                                 summary: string, tokens: nat, id: nat)
    requires MayCompact(entries, input, estimate, id)
    ensures var after := Compacted(entries, input, estimate, summary, tokens, id);
      && (Known(after) == Known(entries) <==> Below(Carried(entries), Told(entries)))
      && (LatestCompaction(entries).None? ==> Known(after) == Known(entries))
  {
    OnlyToldIsKept(entries, input, estimate, summary, tokens, id);
    KnownParts(entries);
    CaptureNormal(Bodies(Active(entries)));
    JoinAbsorbs(Carried(entries), Told(entries));
  }

  // Mailbox by mailbox: the cursors are kept exactly when the active messages reach
  // as far as the previous compaction did, and then the pending row is the same.
  // When they do for every mailbox, so is the answer whether anything is pending.
  lemma AnswersKept(entries: seq<Entry>, input: PrepareInput, estimate: Estimator, summary: string, tokens: nat,
                    id: nat, mailbox: string, readCursors: map<string, nat>)
    requires MayCompact(entries, input, estimate, id)
    ensures var after := Compacted(entries, input, estimate, summary, tokens, id);
      var kept := CursorsBelow(Get(Carried(entries), mailbox), Get(Told(entries), mailbox));
      && (Get(Known(after), mailbox) == Get(Known(entries), mailbox) <==> kept)
      && (kept ==> FindPendingThroughRowId(Known(after), mailbox) == FindPendingThroughRowId(Known(entries), mailbox))
      && (Below(Carried(entries), Told(entries)) ==>
            (HasPending(Known(after), readCursors) <==> HasPending(Known(entries), readCursors)))
  {
    OnlyToldIsKept(entries, input, estimate, summary, tokens, id);
    KnownParts(entries);
    GetJoin(Carried(entries), Told(entries), mailbox);
    CompactionKeepsAttention(entries, input, estimate, summary, tokens, id);
  }

  // A mailbox that only the previous compaction knew about is pending before a
  // compaction, whatever it summarises, and forgotten after it.
  lemma SilenceForgets(entries: seq<Entry>, input: PrepareInput, estimate: Estimator, summary: string, tokens: nat,
                       id: nat,
                       mailbox: string)
    requires MayCompact(entries, input, estimate, id)
    requires FindPendingThroughRowId(Carried(entries), mailbox).Some? && mailbox !in Told(entries)
    ensures var after := Compacted(entries, input, estimate, summary, tokens, id);
      && FindPendingThroughRowId(Known(entries), mailbox) == FindPendingThroughRowId(Carried(entries), mailbox)
      && FindPendingThroughRowId(Known(after), mailbox) == None
  {
    OnlyToldIsKept(entries, input, estimate, summary, tokens, id);
    KnownParts(entries);
    GetJoin(Carried(entries), Told(entries), mailbox);
  }

  // --- a mailbox update -----------------------------------------------------

  const KEY := "qq_private:7"
  const UPDATE := User(InboxUpdate(KEY, 3))
  const LATER := User(Text("later"))

  lemma OneContribution(m: Message)
    requires Normal(Contribution(m))
    ensures Capture([m]) == Contribution(m)
  {
    assert [m][..0] == [];
    JoinIdentity(Contribution(m));
  }

  lemma OneDisclosure(d: Disclosure)
    requires DisclosureCursors(d) != Zero
    ensures JoinDisclosures([d]) == Single(d.mailbox, DisclosureCursors(d))
    ensures Normal(JoinDisclosures([d]))
  {
    assert [d][..0] == [];
    JoinIdentity(Single(d.mailbox, DisclosureCursors(d)));
  }

  lemma UpdateTold()
    ensures Capture([UPDATE]) == Single(KEY, Cursors(3, 0, 0))
    ensures FindPendingThroughRowId(Single(KEY, Cursors(3, 0, 0)), KEY) == Some(3)
  {
    KeyExample();
    OneDisclosure(Disclosure(KEY, 3, IsPrivateMailbox(KEY)));
    OneContribution(UPDATE);
  }
}
