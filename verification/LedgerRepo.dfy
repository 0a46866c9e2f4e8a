// The ledger repository: transactions that compare the head, append rows under
// ids the database assigns, and move the head. Each one happens or changes nothing.
module LedgerRepo {
  import opened Prelude
  import opened Messages
  import opened Ledger

  datatype Patch = Patch(
    mailboxCursors: Option<map<string, nat>>,
    inboxReadCursors: Option<map<string, nat>>,
    compactionEpoch: Option<nat>,
    conversationFocus: Option<Option<string>>,
    lastWakeAt: Option<Option<int>>)

  datatype Failure = HeadChanged | Rejected | StoreFailed | InstallFailed

  // What the database holds.
  datatype Store = Store(entries: seq<Entry>, runtime: RuntimeState)

  datatype Write =
    | AppendMessages(messages: seq<Message>, patch: Patch, gaps: seq<nat>)
    | AppendCompaction(payload: Payload, patch: Patch, gap: nat)
    | UpdateRuntime(patch: Patch)

  function ApplyPatch(runtime: RuntimeState, patch: Patch, head: Option<nat>): RuntimeState {
    RuntimeState(
      if patch.mailboxCursors.Some? then patch.mailboxCursors.value else runtime.mailboxCursors,
      if patch.inboxReadCursors.Some? then patch.inboxReadCursors.value else runtime.inboxReadCursors,
      if patch.compactionEpoch.Some? then patch.compactionEpoch.value else runtime.compactionEpoch,
      if patch.conversationFocus.Some? then patch.conversationFocus.value else runtime.conversationFocus,
      if patch.lastWakeAt.Some? then patch.lastWakeAt.value else runtime.lastWakeAt,
      head)
  }

  function NextId(entries: seq<Entry>, gap: nat): nat {
    (if entries == [] then 1 else entries[|entries| - 1].Id() + 1) + gap
  }

  function GapAt(gaps: seq<nat>, i: nat): nat {
    if i < |gaps| then gaps[i] else 0
  }

  // The ledger after n of the messages have been given rows; ids may skip values.
  function Appended(entries: seq<Entry>, messages: seq<Message>, gaps: seq<nat>, n: nat): seq<Entry>
    requires n <= |messages|
  {
    if n == 0 then entries
    else
      var before := Appended(entries, messages, gaps, n - 1);
      before + [MessageEntry(StoredMessage(NextId(before, GapAt(gaps, n - 1)), messages[n - 1]))]
  }

  predicate PayloadOk(payload: Payload) {
    Readable(CompactionEntry(StoredCompaction(1, payload)))
  }

  // The store a write leaves behind, or why it leaves nothing behind.
  function Transact(store: Store, expected: Option<nat>, write: Write): Result<Store, Failure> {
    if expected == Some(0) then Err(Rejected)
    else if write.AppendMessages? && (write.messages == [] || !AllFieldsOk(write.messages)) then Err(Rejected)
    else if write.AppendCompaction? && !PayloadOk(write.payload) then Err(Rejected)
    else if expected != store.runtime.ledgerHeadEntryId then Err(HeadChanged)
    else
      match write
      case AppendMessages(messages, patch, gaps) =>
        var entries := Appended(store.entries, messages, gaps, |messages|);
        Ok(Store(entries, ApplyPatch(store.runtime, patch, Head(entries))))
      case AppendCompaction(payload, patch, gap) =>
        var entries := store.entries + [CompactionEntry(StoredCompaction(NextId(store.entries, gap), payload))];
        Ok(Store(entries, ApplyPatch(store.runtime, patch, Head(entries))))
      case UpdateRuntime(patch) =>
        Ok(Store(store.entries, ApplyPatch(store.runtime, patch, store.runtime.ledgerHeadEntryId)))
  }

  // Other writers of the same ledger.
  function Foreign(store: Store, writes: seq<Write>): Store {
    if writes == [] then store
    else
      var before := Foreign(store, writes[..|writes| - 1]);
      var t := Transact(before, before.runtime.ledgerHeadEntryId, writes[|writes| - 1]);
      if t.Ok? then t.value else before
  }

  class AgentLedgerRepo {
    var entries: seq<Entry>
    var runtime: RuntimeState

    function State(): Store
      reads this
    {
      Store(entries, runtime)
    }

    // storeFails: the database refuses or the transaction rolls back.
    method AppendMessages(expected: Option<nat>, messages: seq<Message>, patch: Patch, gaps: seq<nat>, storeFails: bool)
      returns (r: Result<seq<Entry>, Failure>)
      modifies this
      ensures var t := Transact(old(State()), expected, Write.AppendMessages(messages, patch, gaps));
        if t.Err? then r == Err(t.error) && State() == old(State())
        else if storeFails then r == Err(StoreFailed) && State() == old(State())
        else r.Ok? && State() == t.value && old(entries) + r.value == entries && |r.value| == |messages|
    {
      if expected == Some(0) { return Err(Rejected); }
      if messages == [] || !AllFieldsOk(messages) { return Err(Rejected); }
      if expected != runtime.ledgerHeadEntryId { return Err(HeadChanged); }
      if storeFails { return Err(StoreFailed); }
      var appended: seq<Entry> := [];
      var head := runtime.ledgerHeadEntryId;
      for index := 0 to |messages|
        invariant |appended| == index && entries == old(entries) && runtime == old(runtime)
        invariant entries + appended == Appended(entries, messages, gaps, index)
        invariant head == if index == 0 then runtime.ledgerHeadEntryId else Head(entries + appended)
      {
        var row := MessageEntry(StoredMessage(NextId(entries + appended, GapAt(gaps, index)), messages[index]));
        assert entries + (appended + [row]) == (entries + appended) + [row];
        appended := appended + [row];
        head := Some(row.Id());
      }
      entries := entries + appended;
      runtime := ApplyPatch(runtime, patch, head);
      return Ok(appended);
    }

    method AppendCompaction(expected: Option<nat>, payload: Payload, patch: Patch, gap: nat, storeFails: bool)
      returns (r: Result<Entry, Failure>)
      modifies this
      ensures var t := Transact(old(State()), expected, Write.AppendCompaction(payload, patch, gap));
        if t.Err? then r == Err(t.error) && State() == old(State())
        else if storeFails then r == Err(StoreFailed) && State() == old(State())
        else r.Ok? && State() == t.value && old(entries) + [r.value] == entries
    {
      if expected == Some(0) || !PayloadOk(payload) { return Err(Rejected); }
      if expected != runtime.ledgerHeadEntryId { return Err(HeadChanged); }
      if storeFails { return Err(StoreFailed); }
      var row := CompactionEntry(StoredCompaction(NextId(entries, gap), payload));
      entries := entries + [row];
      runtime := ApplyPatch(runtime, patch, Some(row.Id()));
      return Ok(row);
    }

    method UpdateRuntime(expected: Option<nat>, patch: Patch, storeFails: bool)
      returns (r: Result<RuntimeState, Failure>)
      modifies this
      ensures var t := Transact(old(State()), expected, Write.UpdateRuntime(patch));
        if t.Err? then r == Err(t.error) && State() == old(State())
        else if storeFails then r == Err(StoreFailed) && State() == old(State())
        else r == Ok(runtime) && State() == t.value
    {
      if expected == Some(0) { return Err(Rejected); }
      if expected != runtime.ledgerHeadEntryId { return Err(HeadChanged); }
      if storeFails { return Err(StoreFailed); }
      runtime := ApplyPatch(runtime, patch, runtime.ledgerHeadEntryId);
      return Ok(runtime);
    }

    // Writers elsewhere, each one reading the head right before it writes.
    method OtherWriters(writes: seq<Write>)
      modifies this
      ensures State() == Foreign(old(State()), writes)
    {
      for index := 0 to |writes|
        invariant State() == Foreign(old(State()), writes[..index])
      {
        assert writes[..index + 1][..index] == writes[..index];
        match writes[index] {
          case AppendMessages(messages, patch, gaps) =>
            var appended := AppendMessages(runtime.ledgerHeadEntryId, messages, patch, gaps, false);
          case AppendCompaction(payload, patch, gap) =>
            var row := AppendCompaction(runtime.ledgerHeadEntryId, payload, patch, gap, false);
          case UpdateRuntime(patch) =>
            var updated := UpdateRuntime(runtime.ledgerHeadEntryId, patch, false);
        }
      }
      assert writes[..|writes|] == writes;
    }
  }

  // --- what every transaction keeps -----------------------------------------

  // The head names the last row, ids rise, every row can be read back.
  ghost predicate Sound(store: Store) {
    && Increasing(store.entries)
    && AllReadable(store.entries)
    && store.runtime.ledgerHeadEntryId == Head(store.entries)
  }

  ghost predicate MessagesOnly(rows: seq<Entry>) {
    forall i :: 0 <= i < |rows| ==> rows[i].MessageEntry?
  }

  // The appended rows: messages in order, ids rising.
  lemma {:induction false} AppendedRows(entries: seq<Entry>, messages: seq<Message>, gaps: seq<nat>, n: nat)
    returns (rows: seq<Entry>)
    requires Increasing(entries) && AllReadable(entries) && n <= |messages| && AllFieldsOk(messages)
    ensures Appended(entries, messages, gaps, n) == entries + rows && |rows| == n && MessagesOnly(rows)
    ensures Increasing(entries + rows) && AllReadable(entries + rows)
    ensures Bodies(Stored(rows)) == messages[..n]
    decreases n
  {
    if n == 0 {
      rows := [];
    } else {
      var before := AppendedRows(entries, messages, gaps, n - 1);
      var m := StoredMessage(NextId(entries + before, GapAt(gaps, n - 1)), messages[n - 1]);
      rows := before + [MessageEntry(m)];
      OneMoreRow(entries, before, m);
      RowBodies(before, m);
      assert messages[..n] == messages[..n - 1] + [messages[n - 1]];
    }
  }

  lemma OneMoreRow(entries: seq<Entry>, rows: seq<Entry>, m: StoredMessage)
    requires Increasing(entries + rows) && AllReadable(entries + rows) && MessagesOnly(rows)
    requires entries + rows != [] ==> (entries + rows)[|entries + rows| - 1].Id() < m.id
    requires Readable(MessageEntry(m))
    ensures entries + (rows + [MessageEntry(m)]) == (entries + rows) + [MessageEntry(m)]
    ensures var more := rows + [MessageEntry(m)];
      Increasing(entries + more) && AllReadable(entries + more) && MessagesOnly(more)
  {
    AppendIncreasing(entries + rows, MessageEntry(m));
  }

  lemma RowBodies(rows: seq<Entry>, m: StoredMessage)
    ensures Bodies(Stored(rows + [MessageEntry(m)])) == Bodies(Stored(rows)) + [m.message]
  {
    StoredConcat(rows, [MessageEntry(m)]);
    StoredSingle(m);
    BodiesConcat(Stored(rows), [m]);
    assert Bodies([m]) == [m.message];
  }

  lemma StoredSingle(m: StoredMessage)
    ensures Stored([MessageEntry(m)]) == [m]
  {
    assert [MessageEntry(m)][..0] == [];
  }

  // A transaction that commits only ever adds rows, keeps the store sound, and
  // moves the head exactly when it adds some.
  lemma TransactKeepsSound(store: Store, expected: Option<nat>, write: Write) returns (rows: seq<Entry>)
    requires Sound(store) && Transact(store, expected, write).Ok?
    ensures var next := Transact(store, expected, write).value;
      && Sound(next)
      && next.entries == store.entries + rows
      && (rows == [] <==> write.UpdateRuntime?)
      && (write.AppendMessages? ==> MessagesOnly(rows) && Bodies(Stored(rows)) == write.messages)
  {
    match write {
      case AppendMessages(messages, patch, gaps) =>
        rows := AppendedRows(store.entries, messages, gaps, |messages|);
        assert messages[..|messages|] == messages;
      case AppendCompaction(payload, patch, gap) =>
        var e := CompactionEntry(StoredCompaction(NextId(store.entries, gap), payload));
        rows := [e];
        AppendIncreasing(store.entries, e);
      case UpdateRuntime(patch) =>
        rows := [];
    }
  }

  // Adding rows always moves the head: the same head means the same ledger.
  lemma RowsMoveHead(a: Store, b: Store, rows: seq<Entry>)
    requires Sound(a) && Sound(b) && b.entries == a.entries + rows && rows != []
    ensures a.runtime.ledgerHeadEntryId != b.runtime.ledgerHeadEntryId
  {
    assert b.entries[|b.entries| - 1] == rows[|rows| - 1];
    if a.entries != [] {
      assert b.entries[|a.entries| - 1] == a.entries[|a.entries| - 1];
    }
  }
}
