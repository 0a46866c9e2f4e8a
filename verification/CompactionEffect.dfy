// What appending a prepared compaction does to the visible context.
module CompactionEffect {
  import opened Prelude
  import opened Text
  import opened AtomicUnits
  import opened SnapshotIntegrity
  import opened Attention
  import opened Ledger
  import opened CompactionCut
  import opened CompactionPlan

  // --- the visible messages are a suffix of the stored ones -----------------

  function Filter(ms: seq<StoredMessage>, latest: Option<StoredCompaction>): seq<StoredMessage> {
    if ms == [] then []
    else
      var last := ms[|ms| - 1];
      Filter(ms[..|ms| - 1], latest) + (if Kept(latest, last.id) then [last] else [])
  }

  lemma {:induction false} FilterConcat(a: seq<StoredMessage>, b: seq<StoredMessage>, latest: Option<StoredCompaction>)
    ensures Filter(a + b, latest) == Filter(a, latest) + Filter(b, latest)
  {
    if b == [] {
      assert a + b == a;
    } else {
      assert (a + b)[..|a + b| - 1] == a + b[..|b| - 1];
      FilterConcat(a, b[..|b| - 1], latest);
    }
  }

  lemma FilterSnoc(ms: seq<StoredMessage>, m: StoredMessage, latest: Option<StoredCompaction>)
    ensures Filter(ms + [m], latest) == Filter(ms, latest) + (if Kept(latest, m.id) then [m] else [])
  {
  }

  lemma {:induction false} SelectIsFilter(entries: seq<Entry>, latest: Option<StoredCompaction>)
    ensures Select(entries, latest) == Filter(Stored(entries), latest)
  {
    if entries != [] {
      var last := entries[|entries| - 1];
      var before := Stored(entries[..|entries| - 1]);
      SelectIsFilter(entries[..|entries| - 1], latest);
      if last.MessageEntry? {
        FilterSnoc(before, last.stored, latest);
      } else {
        assert Stored(entries) == before;
      }
    }
  }

  ghost predicate AllKept(ms: seq<StoredMessage>, latest: Option<StoredCompaction>) {
    forall i :: 0 <= i < |ms| ==> Kept(latest, ms[i].id)
  }

  ghost predicate NoneKept(ms: seq<StoredMessage>, latest: Option<StoredCompaction>) {
    forall i :: 0 <= i < |ms| ==> !Kept(latest, ms[i].id)
  }

  lemma {:induction false} FilterAll(ms: seq<StoredMessage>, latest: Option<StoredCompaction>)
    requires AllKept(ms, latest)
    ensures Filter(ms, latest) == ms
  {
    if ms != [] { FilterAll(ms[..|ms| - 1], latest); }
  }

  lemma {:induction false} FilterNone(ms: seq<StoredMessage>, latest: Option<StoredCompaction>)
    requires NoneKept(ms, latest)
    ensures Filter(ms, latest) == []
  {
    if ms != [] { FilterNone(ms[..|ms| - 1], latest); }
  }

  lemma FilterSuffix(hidden: seq<StoredMessage>, shown: seq<StoredMessage>, latest: Option<StoredCompaction>)
    requires NoneKept(hidden, latest) && AllKept(shown, latest)
    ensures Filter(hidden + shown, latest) == shown
  {
    FilterConcat(hidden, shown, latest);
    FilterNone(hidden, latest);
    FilterAll(shown, latest);
  }

  ghost predicate IdsIncrease(ms: seq<StoredMessage>) {
    forall i, j :: 0 <= i < j < |ms| ==> ms[i].id < ms[j].id
  }

  ghost predicate IsEntryOf(m: StoredMessage, entries: seq<Entry>) {
    exists i :: 0 <= i < |entries| && entries[i] == MessageEntry(m)
  }

  lemma {:induction false} StoredIncrease(entries: seq<Entry>)
    requires Increasing(entries)
    ensures IdsIncrease(Stored(entries))
    ensures forall i :: 0 <= i < |Stored(entries)| ==> IsEntryOf(Stored(entries)[i], entries)
  {
    if entries != [] {
      var n := |entries| - 1;
      var front := entries[..n];
      StoredIncrease(front);
      var ms := Stored(entries);
      forall i | 0 <= i < |ms| ensures IsEntryOf(ms[i], entries) {
        if i < |Stored(front)| {
          var j :| 0 <= j < n && front[j] == MessageEntry(Stored(front)[i]);
          assert entries[j] == MessageEntry(ms[i]);
        } else {
          assert entries[n] == MessageEntry(ms[i]);
        }
      }
      forall i, j | 0 <= i < j < |ms| ensures ms[i].id < ms[j].id {
        if j == |Stored(front)| {
          var k :| 0 <= k < n && front[k] == MessageEntry(Stored(front)[i]);
          assert entries[k].Id() < entries[n].Id();
        }
      }
    }
  }

  // A kept id keeps every larger one.
  lemma KeptUpwards(latest: Option<StoredCompaction>, a: nat, b: nat)
    requires Kept(latest, a) && a <= b
    ensures Kept(latest, b)
  {
  }

  // Where the visible suffix starts.
  lemma {:induction false} SuffixPoint(ms: seq<StoredMessage>, latest: Option<StoredCompaction>) returns (k: nat)
    requires IdsIncrease(ms)
    ensures k <= |ms| && NoneKept(ms[..k], latest) && AllKept(ms[k..], latest)
    ensures Filter(ms, latest) == ms[k..]
  {
    k := 0;
    while k < |ms| && !Kept(latest, ms[k].id)
      invariant k <= |ms| && NoneKept(ms[..k], latest)
    {
      k := k + 1;
    }
    forall i | 0 <= i < |ms[k..]| ensures Kept(latest, ms[k..][i].id) {
      KeptUpwards(latest, ms[k].id, ms[k + i].id);
    }
    assert ms == ms[..k] + ms[k..];
    FilterSuffix(ms[..k], ms[k..], latest);
  }

  // The active messages are what is left of the stored ones.
  lemma ActiveIsSuffix(entries: seq<Entry>) returns (hidden: seq<StoredMessage>)
    requires Increasing(entries)
    ensures Stored(entries) == hidden + Active(entries)
    ensures NoneKept(hidden, LatestCompaction(entries)) && AllKept(Active(entries), LatestCompaction(entries))
  {
    StoredIncrease(entries);
    SelectIsFilter(entries, LatestCompaction(entries));
    var k := SuffixPoint(Stored(entries), LatestCompaction(entries));
    hidden := Stored(entries)[..k];
  }

  // The visible-context check follows from the permanent one: it is enough that
  // what stays visible does not start on a tool result.
  lemma ActiveCheckFollows(entries: seq<Entry>)
    requires Increasing(entries) && WellFormed(Bodies(Stored(entries)))
    requires Active(entries) != [] ==> !Active(entries)[0].message.Tool?
    ensures WellFormed(Rendered(entries))
  {
    var hidden := ActiveIsSuffix(entries);
    var ms := Bodies(Stored(entries));
    BodiesConcat(hidden, Active(entries));
    assert ms[|hidden|..] == Bodies(Active(entries));
    WellFormedCut(ms, |hidden|);
    PreambleHarmless(LatestCompaction(entries), Bodies(Active(entries)));
  }

  // --- the payload of a plan ------------------------------------------------

  function SafeTokenSum(a: nat, b: nat): nat {
    if a + b > MAX_SAFE_INTEGER then MAX_SAFE_INTEGER else a + b
  }

  function PayloadOf(plan: Plan, summary: string, summaryTokens: nat): Payload {
    Payload(summary, plan.firstKeptEntryId, plan.tokensBefore,
            SafeTokenSum(plan.estimatedTailTokens, summaryTokens),
            plan.reason, plan.isSplitTurn, CompactionId(plan.previousCompaction),
            Capture(Bodies(plan.entriesToSummarize)))
  }

  function WithCompaction(entries: seq<Entry>, id: nat, payload: Payload): seq<Entry> {
    entries + [CompactionEntry(StoredCompaction(id, payload))]
  }

  lemma CompactedLatest(entries: seq<Entry>, id: nat, payload: Payload)
    ensures var compacted := WithCompaction(entries, id, payload);
      && LatestCompaction(compacted) == Some(StoredCompaction(id, payload))
      && Stored(compacted) == Stored(entries)
      && Head(compacted) == Some(id)
      && compacted[..|entries|] == entries
      && (ChainLinked(compacted) <==>
            ChainLinked(entries) && payload.previousCompactionEntryId == CompactionId(LatestCompaction(entries)))
  {
  }

  lemma StoredBelow(entries: seq<Entry>, id: nat)
    requires Increasing(entries) && (entries != [] ==> entries[|entries| - 1].Id() < id)
    ensures forall i :: 0 <= i < |Stored(entries)| ==> Stored(entries)[i].id < id
  {
    StoredIncrease(entries);
    var ms := Stored(entries);
    forall i | 0 <= i < |ms| ensures ms[i].id < id {
      assert IsEntryOf(ms[i], entries);
    }
  }

  // A compaction whose boundary is the first message of the tail keeps the tail.
  lemma TailKept(front: seq<StoredMessage>, tail: seq<StoredMessage>, c: StoredCompaction)
    requires IdsIncrease(front + tail) && forall i :: 0 <= i < |front + tail| ==> (front + tail)[i].id < c.id
    requires c.payload.firstKeptEntryId == if tail == [] then None else Some(tail[0].id)
    ensures Filter(front + tail, Some(c)) == tail
  {
    var ms := front + tail;
    assert tail != [] ==> ms[|front|] == tail[0];
    forall i | 0 <= i < |front| ensures !Kept(Some(c), front[i].id) { assert ms[i] == front[i]; }
    forall i | 0 <= i < |tail| ensures Kept(Some(c), tail[i].id) { assert ms[|front| + i] == tail[i]; }
    FilterSuffix(front, tail, Some(c));
  }

  // What a compaction leaves visible, for any plan that splits the active messages.
  lemma CompactedActive(entries: seq<Entry>, id: nat, payload: Payload, summarised: seq<StoredMessage>,
                        tail: seq<StoredMessage>)
    requires Increasing(entries) && Active(entries) == summarised + tail
    requires entries != [] ==> entries[|entries| - 1].Id() < id
    requires payload.firstKeptEntryId == if tail == [] then None else Some(tail[0].id)
    ensures Active(WithCompaction(entries, id, payload)) == tail
  {
    var hidden := ActiveIsSuffix(entries);
    var latest := Some(StoredCompaction(id, payload));
    CompactedLatest(entries, id, payload);
    SelectIsFilter(WithCompaction(entries, id, payload), latest);
    StoredIncrease(entries);
    StoredBelow(entries, id);
    assert Stored(entries) == (hidden + summarised) + tail;
    TailKept(hidden + summarised, tail, latest.value);
  }

  // The boundary a plan names is found, and is a message that may start the tail.
  lemma CompactedBoundary(entries: seq<Entry>, id: nat, payload: Payload, first: StoredMessage)
    requires Increasing(entries) && IsEntryOf(first, entries) && !first.message.Tool?
    requires payload.firstKeptEntryId == Some(first.id)
    ensures BoundaryError(WithCompaction(entries, id, payload), Some(StoredCompaction(id, payload))) == None
  {
    var i :| 0 <= i < |entries| && entries[i] == MessageEntry(first);
    FindPresent(entries, i);
    FindAppended(entries, [CompactionEntry(StoredCompaction(id, payload))], first.id);
  }

  lemma ActiveEntry(entries: seq<Entry>, i: nat)
    requires Increasing(entries) && i < |Active(entries)|
    ensures IsEntryOf(Active(entries)[i], entries)
  {
    var hidden := ActiveIsSuffix(entries);
    StoredIncrease(entries);
    assert Stored(entries)[|hidden| + i] == Active(entries)[i];
  }

  lemma PayloadReadable(entries: seq<Entry>, plan: Plan, id: nat, summary: string, summaryTokens: nat)
    requires AllReadable(entries) && !Blank(summary) && id > 0
    requires plan.tokensBefore <= MAX_SAFE_INTEGER
    requires plan.previousCompaction == LatestCompaction(entries)
    requires plan.firstKeptEntryId.Some? ==>
      exists m: StoredMessage :: IsEntryOf(m, entries) && plan.firstKeptEntryId == Some(m.id)
    ensures AllReadable(WithCompaction(entries, id, PayloadOf(plan, summary, summaryTokens)))
  {
    var payload := PayloadOf(plan, summary, summaryTokens);
    CaptureValid(Bodies(plan.entriesToSummarize));
    if plan.firstKeptEntryId.Some? {
      var m: StoredMessage :| IsEntryOf(m, entries) && plan.firstKeptEntryId == Some(m.id);
      var i :| 0 <= i < |entries| && entries[i] == MessageEntry(m);
      assert Readable(entries[i]);
    }
    if plan.previousCompaction.Some? {
      LatestIsEntry(entries);
      var i :| 0 <= i < |entries| && entries[i] == CompactionEntry(LatestCompaction(entries).value);
      assert Readable(entries[i]);
    }
  }

  // The plan's two halves, reset or not.
  lemma PlanSplits(entries: seq<Entry>, throughEntryId: Option<nat>, input: PrepareInput, estimate: Estimator)
    requires Prepare(entries, throughEntryId, input, estimate).Ready?
    requires input.previousCompaction == LatestCompaction(entries)
    ensures var plan := Prepare(entries, throughEntryId, input, estimate).plan;
      && Active(entries) == plan.entriesToSummarize + plan.tailEntries
      && plan.entriesToSummarize != []
      && plan.previousCompaction == LatestCompaction(entries)
      && plan.tokensBefore <= MAX_SAFE_INTEGER
      && plan.expectedHeadEntryId == Head(entries) == throughEntryId
      && plan.firstKeptEntryId == (if plan.tailEntries == [] then None else Some(plan.tailEntries[0].id))
      && (plan.tailEntries != [] ==> !plan.tailEntries[0].message.Tool?)
  {
    if input.reason == BehavioralReset {
      ResetTheorem(entries, throughEntryId, input, estimate);
    } else {
      CutTheorem(entries, throughEntryId, input, estimate);
    }
  }

  // A reset has nothing to refuse as long as something is active.
  lemma ResetIsReady(entries: seq<Entry>, input: PrepareInput, estimate: Estimator)
    requires NumbersOk(input) && input.reason == BehavioralReset
        && input.previousCompaction == LatestCompaction(entries)
    requires Increasing(entries) && Active(entries) != [] && Grammar(Bodies(Active(entries)))
    ensures Prepare(entries, Head(entries), input, estimate).Ready?
  {
    var active := Active(entries);
    SplitUnitsDecomposes(active, MessageOf, TokensBy(estimate));
    NonEmptyItems(SplitUnits(active, MessageOf, TokensBy(estimate)), active, MessageOf, TokensBy(estimate));
    if LatestCompaction(entries).Some? { LatestIsEntry(entries); }
  }

  // A compaction prepared from a ledger that replays, with any summary that is not
  // blank, replays too, whatever id above the head it is given; and what becomes
  // visible does not depend on that id.
  lemma PreparedAlwaysProjects(entries: seq<Entry>, runtime: RuntimeState, input: PrepareInput, estimate: Estimator,
                               summary: string, summaryTokens: nat, id: nat, other: RuntimeState)
    requires Project(entries, runtime).Ok?
    requires Prepare(entries, Head(entries), input, estimate).Ready?
    requires input.previousCompaction == LatestCompaction(entries)
    requires !Blank(summary)
    requires Head(entries).Some? && id > Head(entries).value && other.ledgerHeadEntryId == Some(id)
    ensures var plan := Prepare(entries, Head(entries), input, estimate).plan;
      var payload := PayloadOf(plan, summary, summaryTokens);
      && Project(WithCompaction(entries, id, payload), other)
           == Ok(Projection(Some(id), |plan.tailEntries|, |entries| + 1,
                            Snapshot([SummaryMessage(payload)] + MachineState(payload) + Bodies(plan.tailEntries),
                                     other.conversationFocus)))
      && Active(WithCompaction(entries, id, payload)) == plan.tailEntries
  {
    var plan := Prepare(entries, Head(entries), input, estimate).plan;
    var payload := PayloadOf(plan, summary, summaryTokens);
    var compacted := WithCompaction(entries, id, payload);
    var latest := Some(StoredCompaction(id, payload));
    PlanSplits(entries, Head(entries), input, estimate);
    if plan.tailEntries != [] {
      var first := plan.tailEntries[0];
      assert Active(entries)[|plan.entriesToSummarize|] == first;
      ActiveEntry(entries, |plan.entriesToSummarize|);
      CompactedBoundary(entries, id, payload, first);
    }
    PayloadReadable(entries, plan, id, summary, summaryTokens);
    AppendIncreasing(entries, CompactionEntry(latest.value));
    CompactedLatest(entries, id, payload);
    CompactedActive(entries, id, payload, plan.entriesToSummarize, plan.tailEntries);
    ActiveCheckFollows(compacted);
    assert BoundaryError(compacted, latest) == None;
  }
}
