// The append-only ledger: its entries, the runtime row kept beside it, and the
// projection that turns a whole ledger into the Agent's visible context.
module Ledger {
  import opened Prelude
  import opened Text
  import opened Messages
  import opened AtomicUnits
  import opened SnapshotIntegrity
  import opened Attention

  datatype Reason = Threshold | Overflow | BehavioralReset

  datatype Payload = Payload(
    summary: string,
    firstKeptEntryId: Option<nat>,
    tokensBefore: nat,
    estimatedTokensAfter: nat,
    reason: Reason,
    isSplitTurn: bool,
    previousCompactionEntryId: Option<nat>,
    attention: Attention)

  datatype StoredMessage = StoredMessage(id: nat, message: Message)

  datatype StoredCompaction = StoredCompaction(id: nat, payload: Payload)

  datatype Entry = MessageEntry(stored: StoredMessage) | CompactionEntry(compaction: StoredCompaction) {
    function Id(): nat {
      match this
      case MessageEntry(stored) => stored.id
      case CompactionEntry(compaction) => compaction.id
    }
  }

  datatype RuntimeState = RuntimeState(
    mailboxCursors: map<string, nat>,
    inboxReadCursors: map<string, nat>,
    compactionEpoch: nat,
    conversationFocus: Option<string>,
    lastWakeAt: Option<int>,
    ledgerHeadEntryId: Option<nat>)

  datatype Snapshot = Snapshot(messages: seq<Message>, conversationFocus: Option<string>)

  datatype Projection = Projection(
    throughEntryId: Option<nat>,
    activeEntryCount: nat,
    permanentEntryCount: nat,
    snapshot: Snapshot)

  datatype LedgerError =
    | UnreadableEntry
    | IdsNotIncreasing
    | HeadMismatch
    | PermanentIntegrity
    | BrokenCompactionChain
    | BoundaryMissing
    | BoundaryNotMessage
    | BoundaryIsToolResult
    | ActiveIntegrity

  const HISTORY_SUMMARY_PREFIX := "[历史摘要]\n"

  // The field checks every stored row has to pass to be read back.
  predicate Readable(e: Entry) {
    && e.Id() > 0
    && match e
       case MessageEntry(stored) => FieldsOk(stored.message)
       case CompactionEntry(compaction) =>
         && !Blank(compaction.payload.summary)
         && ValidState(compaction.payload.attention)
         && compaction.payload.tokensBefore <= MAX_SAFE_INTEGER
         && compaction.payload.estimatedTokensAfter <= MAX_SAFE_INTEGER
         && compaction.payload.firstKeptEntryId != Some(0)
         && compaction.payload.previousCompactionEntryId != Some(0)
  }

  predicate AllReadable(entries: seq<Entry>) {
    forall i :: 0 <= i < |entries| ==> Readable(entries[i])
  }

  predicate Increasing(entries: seq<Entry>) {
    forall i, j :: 0 <= i < j < |entries| ==> entries[i].Id() < entries[j].Id()
  }

  function Head(entries: seq<Entry>): Option<nat> {
    if entries == [] then None else Some(entries[|entries| - 1].Id())
  }

  // The message entries, in order.
  function Stored(entries: seq<Entry>): seq<StoredMessage> {
    if entries == [] then []
    else
      var last := entries[|entries| - 1];
      Stored(entries[..|entries| - 1]) + (if last.MessageEntry? then [last.stored] else [])
  }

  function MessageOf(e: StoredMessage): Message { e.message }

  function Bodies(es: seq<StoredMessage>): seq<Message> {
    Mapped(es, MessageOf)
  }

  function LatestCompaction(entries: seq<Entry>): Option<StoredCompaction> {
    if entries == [] then None
    else
      var last := entries[|entries| - 1];
      if last.CompactionEntry? then Some(last.compaction) else LatestCompaction(entries[..|entries| - 1])
  }

  // Each compaction names the one before it.
  predicate ChainLinked(entries: seq<Entry>) {
    || entries == []
    || (var front, last := entries[..|entries| - 1], entries[|entries| - 1];
        && ChainLinked(front)
        && (last.CompactionEntry? ==>
              last.compaction.payload.previousCompactionEntryId == CompactionId(LatestCompaction(front))))
  }

  function CompactionId(compaction: Option<StoredCompaction>): Option<nat> {
    match compaction
    case None => None
    case Some(c) => Some(c.id)
  }

  // Which messages stay visible after a compaction.
  predicate Kept(latest: Option<StoredCompaction>, id: nat) {
    match latest
    case None => true
    case Some(c) => id > c.id || (c.payload.firstKeptEntryId.Some? && id >= c.payload.firstKeptEntryId.value)
  }

  function Select(entries: seq<Entry>, latest: Option<StoredCompaction>): seq<StoredMessage> {
    if entries == [] then []
    else
      var last := entries[|entries| - 1];
      Select(entries[..|entries| - 1], latest)
      + (if last.MessageEntry? && Kept(latest, last.Id()) then [last.stored] else [])
  }

  function Active(entries: seq<Entry>): seq<StoredMessage> {
    Select(entries, LatestCompaction(entries))
  }

  function FindEntry(entries: seq<Entry>, id: nat): Option<Entry> {
    if entries == [] then None
    else if entries[0].Id() == id then Some(entries[0])
    else FindEntry(entries[1..], id)
  }

  function BoundaryError(entries: seq<Entry>, latest: Option<StoredCompaction>): Option<LedgerError> {
    if latest.None? || latest.value.payload.firstKeptEntryId.None? then None
    else
      match FindEntry(entries, latest.value.payload.firstKeptEntryId.value)
      case None => Some(BoundaryMissing)
      case Some(CompactionEntry(_)) => Some(BoundaryNotMessage)
      case Some(MessageEntry(stored)) => if stored.message.Tool? then Some(BoundaryIsToolResult) else None
  }

  function SummaryMessage(payload: Payload): Message {
    User(Text(HISTORY_SUMMARY_PREFIX + payload.summary))
  }

  function MachineState(payload: Payload): seq<Message> {
    if payload.attention == map[] then [] else [RenderState(payload.attention)]
  }

  // The messages a compaction puts in front of the active tail.
  function Preamble(c: StoredCompaction): seq<Message> {
    [SummaryMessage(c.payload)] + MachineState(c.payload)
  }

  function Present(latest: Option<StoredCompaction>, active: seq<Message>): seq<Message> {
    match latest
    case None => active
    case Some(c) => Preamble(c) + active
  }

  // What a ledger shows the Agent, before any check.
  function Rendered(entries: seq<Entry>): seq<Message> {
    Present(LatestCompaction(entries), Bodies(Active(entries)))
  }

  // Full replay: every check, in order, and then the projection.
  ghost function Project(entries: seq<Entry>, runtime: RuntimeState): Result<Projection, LedgerError> {
    var latest := LatestCompaction(entries);
    if !AllReadable(entries) then Err(UnreadableEntry)
    else if !Increasing(entries) then Err(IdsNotIncreasing)
    else if runtime.ledgerHeadEntryId != Head(entries) then Err(HeadMismatch)
    else if !WellFormed(Bodies(Stored(entries))) then Err(PermanentIntegrity)
    else if !ChainLinked(entries) then Err(BrokenCompactionChain)
    else if BoundaryError(entries, latest).Some? then Err(BoundaryError(entries, latest).value)
    else if !WellFormed(Rendered(entries)) then Err(ActiveIntegrity)
    else Ok(Projection(Head(entries), |Active(entries)|, |entries|,
                       Snapshot(Rendered(entries), runtime.conversationFocus)))
  }

  // --- the loop forms -------------------------------------------------------

  method AssertStrictlyIncreasingIds(entries: seq<Entry>) returns (ok: bool)
    ensures ok <==> Increasing(entries)
  {
    var index := 1;
    while index < |entries|
      invariant 1 <= index && (|entries| > 0 ==> index <= |entries|)
      invariant index <= |entries| ==> Increasing(entries[..index])
    {
      if entries[index].Id() <= entries[index - 1].Id() {
        return false;
      }
      forall i, j | 0 <= i < j < index + 1 ensures entries[i].Id() < entries[j].Id() {
        if j == index && i < index - 1 {
          assert entries[..index][i].Id() < entries[..index][index - 1].Id();
        } else if j < index {
          assert entries[..index][i].Id() < entries[..index][j].Id();
        }
      }
      index := index + 1;
    }
    if |entries| > 0 { assert entries[..|entries|] == entries; }
    return true;
  }

  method ValidateCompactionChain(entries: seq<Entry>) returns (r: Result<Option<StoredCompaction>, LedgerError>)
    ensures r == if ChainLinked(entries) then Ok(LatestCompaction(entries)) else Err(BrokenCompactionChain)
  {
    var previous: Option<StoredCompaction> := None;
    for index := 0 to |entries|
      invariant ChainLinked(entries[..index])
      invariant previous == LatestCompaction(entries[..index])
    {
      var entry := entries[index];
      assert entries[..index + 1][..index] == entries[..index];
      if entry.CompactionEntry? {
        if entry.compaction.payload.previousCompactionEntryId != CompactionId(previous) {
          BrokenLink(entries, index);
          return Err(BrokenCompactionChain);
        }
        previous := Some(entry.compaction);
      }
    }
    assert entries[..|entries|] == entries;
    return Ok(previous);
  }

  lemma {:induction false} BrokenLink(entries: seq<Entry>, index: nat)
    requires index < |entries| && !ChainLinked(entries[..index + 1])
    ensures !ChainLinked(entries)
    decreases |entries|
  {
    if index + 1 == |entries| {
      assert entries[..index + 1] == entries;
    } else {
      var front := entries[..|entries| - 1];
      assert front[..index + 1] == entries[..index + 1];
      BrokenLink(front, index);
    }
  }

  method SelectActiveMessages(entries: seq<Entry>, latest: Option<StoredCompaction>)
    returns (r: Result<seq<Message>, LedgerError>)
    ensures r == if BoundaryError(entries, latest).Some? then Err(BoundaryError(entries, latest).value)
                 else Ok(Bodies(Select(entries, latest)))
  {
    var failure := BoundaryError(entries, latest);
    if failure.Some? {
      return Err(failure.value);
    }
    var active: seq<Message> := [];
    for index := 0 to |entries|
      invariant active == Bodies(Select(entries[..index], latest))
    {
      var entry := entries[index];
      assert entries[..index + 1][..index] == entries[..index];
      if entry.MessageEntry? && Kept(latest, entry.Id()) {
        active := active + [entry.stored.message];
      }
    }
    assert entries[..|entries|] == entries;
    return Ok(active);
  }

  method ProjectAgentLedger(entries: seq<Entry>, runtime: RuntimeState) returns (r: Result<Projection, LedgerError>)
    ensures r == Project(entries, runtime)
  {
    if !AllReadable(entries) { return Err(UnreadableEntry); }
    var increasing := AssertStrictlyIncreasingIds(entries);
    if !increasing { return Err(IdsNotIncreasing); }
    var throughEntryId := Head(entries);
    if runtime.ledgerHeadEntryId != throughEntryId { return Err(HeadMismatch); }

    var errors := ValidateMessages(Bodies(Stored(entries)));
    if errors != [] { return Err(PermanentIntegrity); }

    var chain := ValidateCompactionChain(entries);
    if chain.Err? { return Err(chain.error); }
    var active := SelectActiveMessages(entries, chain.value);
    if active.Err? { return Err(active.error); }
    var projected := Present(chain.value, active.value);

    errors := ValidateMessages(projected);
    if errors != [] { return Err(ActiveIntegrity); }
    return Ok(Projection(throughEntryId, |active.value|, |entries|, Snapshot(projected, runtime.conversationFocus)));
  }

  // --- appending ------------------------------------------------------------

  lemma AppendIncreasing(entries: seq<Entry>, e: Entry)
    requires Increasing(entries) && (entries != [] ==> entries[|entries| - 1].Id() < e.Id())
    ensures Increasing(entries + [e])
  {
    var all := entries + [e];
    forall i, j | 0 <= i < j < |all| ensures all[i].Id() < all[j].Id() {
      if j == |entries| && i < |entries| - 1 { assert entries[i].Id() < entries[|entries| - 1].Id(); }
    }
  }

  lemma BodiesConcat(a: seq<StoredMessage>, b: seq<StoredMessage>)
    ensures Bodies(a + b) == Bodies(a) + Bodies(b)
  {
  }

  lemma {:induction false} StoredConcat(a: seq<Entry>, b: seq<Entry>)
    ensures Stored(a + b) == Stored(a) + Stored(b)
  {
    if b == [] {
      assert a + b == a;
    } else {
      assert (a + b)[..|a + b| - 1] == a + b[..|b| - 1];
      StoredConcat(a, b[..|b| - 1]);
    }
  }

  lemma {:induction false} SelectConcat(a: seq<Entry>, b: seq<Entry>, latest: Option<StoredCompaction>)
    ensures Select(a + b, latest) == Select(a, latest) + Select(b, latest)
  {
    if b == [] {
      assert a + b == a;
    } else {
      assert (a + b)[..|a + b| - 1] == a + b[..|b| - 1];
      SelectConcat(a, b[..|b| - 1], latest);
    }
  }

  // Without a compaction, or when every id is kept, nothing is filtered out.
  lemma {:induction false} SelectAll(entries: seq<Entry>, latest: Option<StoredCompaction>)
    requires forall i :: 0 <= i < |entries| ==> Kept(latest, entries[i].Id())
    ensures Select(entries, latest) == Stored(entries)
  {
    if entries != [] { SelectAll(entries[..|entries| - 1], latest); }
  }

  lemma {:induction false} SelectNone(entries: seq<Entry>, latest: Option<StoredCompaction>)
    requires forall i :: 0 <= i < |entries| ==> !Kept(latest, entries[i].Id())
    ensures Select(entries, latest) == []
  {
    if entries != [] { SelectNone(entries[..|entries| - 1], latest); }
  }

  lemma {:induction false} LatestAfterMessages(a: seq<Entry>, b: seq<Entry>)
    requires forall i :: 0 <= i < |b| ==> b[i].MessageEntry?
    ensures LatestCompaction(a + b) == LatestCompaction(a)
    ensures ChainLinked(a + b) <==> ChainLinked(a)
  {
    if b == [] {
      assert a + b == a;
    } else {
      assert (a + b)[..|a + b| - 1] == a + b[..|b| - 1];
      LatestAfterMessages(a, b[..|b| - 1]);
    }
  }

  lemma {:induction false} LatestIsEntry(entries: seq<Entry>)
    requires LatestCompaction(entries).Some?
    ensures exists i :: 0 <= i < |entries| && entries[i] == CompactionEntry(LatestCompaction(entries).value)
  {
    var n := |entries| - 1;
    if entries[n].MessageEntry? {
      LatestIsEntry(entries[..n]);
      var i :| 0 <= i < n && entries[..n][i] == CompactionEntry(LatestCompaction(entries[..n]).value);
      assert entries[i] == CompactionEntry(LatestCompaction(entries).value);
    }
  }

  lemma NewMessagesKept(entries: seq<Entry>, appended: seq<Entry>)
    requires Increasing(entries + appended)
    ensures forall j :: 0 <= j < |appended| ==> Kept(LatestCompaction(entries), appended[j].Id())
  {
    var latest := LatestCompaction(entries);
    if latest.Some? {
      LatestIsEntry(entries);
      var i :| 0 <= i < |entries| && entries[i] == CompactionEntry(latest.value);
      forall j | 0 <= j < |appended| ensures Kept(latest, appended[j].Id()) {
        assert (entries + appended)[i].Id() < (entries + appended)[|entries| + j].Id();
      }
    }
  }

  // New messages always carry ids above the latest compaction, so they are
  // simply added at the end of what stays visible.
  lemma ActiveAfterMessages(entries: seq<Entry>, appended: seq<Entry>)
    requires Increasing(entries + appended)
    requires forall i :: 0 <= i < |appended| ==> appended[i].MessageEntry?
    ensures Active(entries + appended) == Active(entries) + Stored(appended)
  {
    LatestAfterMessages(entries, appended);
    NewMessagesKept(entries, appended);
    SelectAll(appended, LatestCompaction(entries));
    SelectConcat(entries, appended, LatestCompaction(entries));
  }

  lemma RenderedAfterMessages(entries: seq<Entry>, appended: seq<Entry>)
    requires Increasing(entries + appended)
    requires forall i :: 0 <= i < |appended| ==> appended[i].MessageEntry?
    ensures Rendered(entries + appended) == Rendered(entries) + Bodies(Stored(appended))
  {
    LatestAfterMessages(entries, appended);
    ActiveAfterMessages(entries, appended);
    BodiesConcat(Active(entries), Stored(appended));
    PresentConcat(LatestCompaction(entries), Bodies(Active(entries)), Bodies(Stored(appended)));
  }

  lemma ConcatAssociative<T>(a: seq<T>, b: seq<T>, c: seq<T>)
    ensures a + (b + c) == (a + b) + c
  {
  }

  lemma {:induction false} FindPresent(entries: seq<Entry>, i: nat)
    requires i < |entries| && Increasing(entries)
    ensures FindEntry(entries, entries[i].Id()) == Some(entries[i])
  {
    if i > 0 {
      FindPresent(entries[1..], i - 1);
    }
  }

  lemma {:induction false} FindAppended(a: seq<Entry>, b: seq<Entry>, id: nat)
    ensures FindEntry(a + b, id) == if FindEntry(a, id).Some? then FindEntry(a, id) else FindEntry(b, id)
  {
    if a == [] {
      assert a + b == b;
    } else {
      assert (a + b)[1..] == a[1..] + b;
      FindAppended(a[1..], b, id);
    }
  }

  lemma {:induction false} FindOnlyThere(entries: seq<Entry>, id: nat)
    requires FindEntry(entries, id).Some?
    ensures exists i :: 0 <= i < |entries| && entries[i].Id() == id && FindEntry(entries, id) == Some(entries[i])
  {
    if entries[0].Id() != id {
      FindOnlyThere(entries[1..], id);
      var i :| 0 <= i < |entries[1..]| && entries[1..][i].Id() == id
          && FindEntry(entries[1..], id) == Some(entries[1..][i]);
      assert entries[i + 1].Id() == id;
    }
  }

  lemma PresentConcat(latest: Option<StoredCompaction>, a: seq<Message>, b: seq<Message>)
    ensures Present(latest, a + b) == Present(latest, a) + b
  {
    if latest.Some? { ConcatAssociative(Preamble(latest.value), a, b); }
  }

  // The preamble never carries calls, so putting it in front changes nothing about well-formedness.
  lemma PreambleHarmless(latest: Option<StoredCompaction>, ms: seq<Message>)
    ensures WellFormed(Present(latest, ms)) <==> WellFormed(ms)
    ensures AllCallIds(Present(latest, ms)) == AllCallIds(ms)
  {
    if latest.Some? {
      var front := Preamble(latest.value);
      UsersWellFormed(front);
      WellFormedConcat(front, ms);
      AllCallIdsConcat(front, ms);
      assert [] + AllCallIds(ms) == AllCallIds(ms);
    }
  }

  lemma {:induction false} UsersWellFormed(ms: seq<Message>)
    requires forall i :: 0 <= i < |ms| ==> ms[i].User?
    ensures WellFormed(ms) && AllCallIds(ms) == []
  {
    if ms != [] {
      var n := |ms| - 1;
      UsersWellFormed(ms[..n]);
      assert ms == ms[..n] + [ms[n]];
      UnitGrammar([ms[n]]);
      GrammarConcat(ms[..n], [ms[n]]);
    }
  }
}
