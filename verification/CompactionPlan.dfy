// The deterministic part of a compaction: what is summarised, what is kept.
module CompactionPlan {
  import opened Prelude
  import opened Messages
  import opened AtomicUnits
  import opened Ledger
  import opened CompactionCut

  datatype Obstacle = NoLegalCut | InvalidAtomicHistory | StaleProjection | InvalidNumbers

  datatype Plan = Plan(
    reason: Reason,
    expectedHeadEntryId: Option<nat>,
    firstKeptEntryId: Option<nat>,
    entriesToSummarize: seq<StoredMessage>,
    historyEntries: seq<StoredMessage>,
    splitTurnPrefixEntries: seq<StoredMessage>,
    tailEntries: seq<StoredMessage>,
    isSplitTurn: bool,
    tokensBefore: nat,
    estimatedTailTokens: nat,
    previousCompaction: Option<StoredCompaction>)

  datatype Preparation = NotNeeded | CannotCompact(obstacle: Obstacle) | Ready(plan: Plan)

  datatype PrepareInput = PrepareInput(
    previousCompaction: Option<StoredCompaction>,
    contextTokens: nat,
    contextWindowTokens: nat,
    reserveTokens: nat,
    keepRecentTokens: nat,
    reason: Reason)

  function TokensBy(estimate: Estimator): StoredMessage -> nat {
    (e: StoredMessage) => estimate(e.message)
  }

  predicate NumbersOk(input: PrepareInput) {
    && input.contextTokens <= MAX_SAFE_INTEGER && input.contextWindowTokens <= MAX_SAFE_INTEGER
    && input.reserveTokens <= MAX_SAFE_INTEGER && input.keepRecentTokens <= MAX_SAFE_INTEGER
    && input.contextWindowTokens > 0
  }

  function Trigger(input: PrepareInput): nat {
    Max(0, input.contextWindowTokens - input.reserveTokens)
  }

  // The previous compaction the caller names has to be the ledger's latest one.
  predicate PreviousIsStale(entries: seq<Entry>, input: PrepareInput) {
    || CompactionId(LatestCompaction(entries)) != CompactionId(Previous(entries, input))
    || (input.previousCompaction.Some?
        && forall i :: 0 <= i < |entries| ==> entries[i].Id() != input.previousCompaction.value.id)
  }

  function Previous(entries: seq<Entry>, input: PrepareInput): Option<StoredCompaction> {
    if input.previousCompaction.Some? then input.previousCompaction else LatestCompaction(entries)
  }

  function Reset(input: PrepareInput, head: Option<nat>, units: seq<Unit<StoredMessage>>,
                 previous: Option<StoredCompaction>): Preparation {
    if units == [] then CannotCompact(NoLegalCut)
    else Ready(Plan(input.reason, head, None, Items(units), Items(units), [], [], false, input.contextTokens, 0,
                    previous))
  }

  function Cut(input: PrepareInput, head: Option<nat>, units: seq<Unit<StoredMessage>>,
               previous: Option<StoredCompaction>): Preparation {
    if |units| < 2 then CannotCompact(NoLegalCut)
    else
      var b := SelectBoundary(units, input.keepRecentTokens);
      var boundary := b.boundaryUnitIndex;
      if boundary <= 0 || boundary >= |units| then CannotCompact(NoLegalCut)
      else
        var entriesToSummarize := Items(Clamp(units, 0, boundary));
        var tailUnits := units[boundary..];
        var tailEntries := Items(tailUnits);
        if entriesToSummarize == [] || tailEntries == [] then CannotCompact(NoLegalCut)
        else
          var firstKept := tailEntries[0];
          var isSplitTurn := !firstKept.message.User?
            && (b.latestTurnStart < 0 || boundary > b.latestTurnStart || b.preferredUserBoundary <= 0);
          var splitTurnStart := if isSplitTurn then Max(0, b.latestTurnStart) else boundary;
          Ready(Plan(input.reason, head, Some(firstKept.id), entriesToSummarize,
                     Items(Clamp(units, 0, splitTurnStart)),
                     if isSplitTurn then Items(Clamp(units, splitTurnStart, boundary)) else [],
                     tailEntries, isSplitTurn, input.contextTokens, SuffixTokens(units, boundary), previous))
  }

  // Specification of the preparation.
  function Prepare(entries: seq<Entry>, throughEntryId: Option<nat>, input: PrepareInput,
                   estimate: Estimator): Preparation {
    if !NumbersOk(input) then CannotCompact(InvalidNumbers)
    else if input.reason == Threshold && input.contextTokens <= Trigger(input) then NotNeeded
    else if Head(entries) != throughEntryId then CannotCompact(StaleProjection)
    else if PreviousIsStale(entries, input) then CannotCompact(StaleProjection)
    else
      var previous := Previous(entries, input);
      var active := Select(entries, previous);
      if !Grammar(Bodies(active)) then CannotCompact(InvalidAtomicHistory)
      else
        var units := SplitUnits(active, MessageOf, TokensBy(estimate));
        if input.reason == BehavioralReset then Reset(input, throughEntryId, units, previous)
        else Cut(input, throughEntryId, units, previous)
  }

  // The implementation, on the loop forms.
  method PrepareCompaction(entries: seq<Entry>, throughEntryId: Option<nat>, input: PrepareInput, estimate: Estimator)
    returns (r: Preparation)
    ensures r == Prepare(entries, throughEntryId, input, estimate)
  {
    if !NumbersOk(input) { return CannotCompact(InvalidNumbers); }
    if input.reason == Threshold && input.contextTokens <= Trigger(input) { return NotNeeded; }
    if Head(entries) != throughEntryId { return CannotCompact(StaleProjection); }
    var previous := Previous(entries, input);
    if PreviousIsStale(entries, input) { return CannotCompact(StaleProjection); }
    var active := Select(entries, previous);
    var built := BuildAtomicUnits(active, MessageOf, TokensBy(estimate));
    if built.None? { return CannotCompact(InvalidAtomicHistory); }
    var units := built.value;
    if input.reason == BehavioralReset { return Reset(input, throughEntryId, units, previous); }
    if |units| < 2 { return CannotCompact(NoLegalCut); }
    var b := SelectAtomicBoundary(units, input.keepRecentTokens);
    var boundary := b.boundaryUnitIndex;
    if boundary <= 0 || boundary >= |units| { return CannotCompact(NoLegalCut); }
    var entriesToSummarize := Items(Clamp(units, 0, boundary));
    var tailUnits := units[boundary..];
    var tailEntries := Items(tailUnits);
    if entriesToSummarize == [] || tailEntries == [] { return CannotCompact(NoLegalCut); }
    var firstKept := tailEntries[0];
    var isSplitTurn := !firstKept.message.User?
      && (b.latestTurnStart < 0 || boundary > b.latestTurnStart || b.preferredUserBoundary <= 0);
    var splitTurnStart := if isSplitTurn then Max(0, b.latestTurnStart) else boundary;
    var historyEntries := Items(Clamp(units, 0, splitTurnStart));
    var splitTurnPrefixEntries := if isSplitTurn then Items(Clamp(units, splitTurnStart, boundary)) else [];
    return Ready(Plan(input.reason, throughEntryId, Some(firstKept.id), entriesToSummarize, historyEntries,
                      splitTurnPrefixEntries, tailEntries, isSplitTurn, input.contextTokens,
                      SuffixTokens(units, boundary), previous));
  }

  // --- units and messages ---------------------------------------------------

  lemma DecomposesSlice<T>(units: seq<Unit<T>>, k: nat, items: seq<T>, getMessage: T -> Message, getTokens: T -> nat)
    requires Decomposes(units, items, getMessage, getTokens) && k <= |units|
    ensures Items(units[..k]) + Items(units[k..]) == items
    ensures Decomposes(units[..k], Items(units[..k]), getMessage, getTokens)
    ensures Decomposes(units[k..], Items(units[k..]), getMessage, getTokens)
    ensures k < |units| ==> Items(units[k..]) != [] && Items(units[k..])[0] == units[k].items[0]
  {
    assert units == units[..k] + units[k..];
    ItemsConcat(units[..k], units[k..]);
    if k < |units| {
      assert Fits(units[k], getMessage, getTokens);
      ItemsFrom(units, k);
    }
  }

  lemma ItemsFrom<T>(units: seq<Unit<T>>, k: nat)
    requires k < |units| && units[k].items != []
    ensures Items(units[k..]) != [] && Items(units[k..])[0] == units[k].items[0]
  {
    assert units[k..] == [units[k]] + units[k + 1..];
    ItemsSingle(units[k]);
    ItemsConcat([units[k]], units[k + 1..]);
  }

  lemma NonEmptyItems<T>(units: seq<Unit<T>>, items: seq<T>, getMessage: T -> Message, getTokens: T -> nat)
    requires Decomposes(units, items, getMessage, getTokens)
    ensures items == [] <==> units == []
  {
  }

  lemma UnitsPositive(units: seq<Unit<StoredMessage>>, active: seq<StoredMessage>, estimate: Estimator)
    requires Decomposes(units, active, MessageOf, TokensBy(estimate))
    ensures PositiveUnits(units)
  {
  }

  // The shape of a ready preparation that is not a reset.
  lemma CutShape(input: PrepareInput, head: Option<nat>, units: seq<Unit<StoredMessage>>,
                 previous: Option<StoredCompaction>, active: seq<StoredMessage>, estimate: Estimator)
    requires Decomposes(units, active, MessageOf, TokensBy(estimate))
    requires Cut(input, head, units, previous).Ready?
    ensures var plan := Cut(input, head, units, previous).plan;
      var boundary := SelectBoundary(units, input.keepRecentTokens).boundaryUnitIndex;
      && 0 < boundary < |units|
      && plan.entriesToSummarize == Items(units[..boundary]) != []
      && plan.tailEntries == Items(units[boundary..]) != []
      && plan.entriesToSummarize + plan.tailEntries == active
      && (plan.isSplitTurn <==> !plan.tailEntries[0].message.User?)
      && !plan.tailEntries[0].message.Tool?
      && plan.historyEntries + plan.splitTurnPrefixEntries == plan.entriesToSummarize
      && (plan.isSplitTurn <==> plan.splitTurnPrefixEntries != [])
  {
    UnitsPositive(units, active, estimate);
    BoundaryFacts(units, input.keepRecentTokens);
    var b := SelectBoundary(units, input.keepRecentTokens);
    var boundary := b.boundaryUnitIndex;
    DecomposesSlice(units, boundary, active, MessageOf, TokensBy(estimate));
    assert Clamp(units, 0, boundary) == units[..boundary];
    assert Fits(units[boundary], MessageOf, TokensBy(estimate));
    assert IsUnit(Bodies(units[boundary].items));
    var plan := Cut(input, head, units, previous).plan;
    assert units[boundary].firstRole == UserRole <==> plan.tailEntries[0].message.User?;
    var start := Max(0, b.latestTurnStart);
    if plan.isSplitTurn {
      SplitPrefix(units, active, start, boundary, estimate);
    }
  }

  lemma SplitPrefix(units: seq<Unit<StoredMessage>>, active: seq<StoredMessage>, start: nat, boundary: nat,
                    estimate: Estimator)
    requires Decomposes(units, active, MessageOf, TokensBy(estimate))
    requires start <= boundary <= |units| && boundary > 0
    ensures Items(Clamp(units, 0, start)) + Items(Clamp(units, start, boundary)) == Items(units[..boundary])
    ensures start < boundary ==> Items(Clamp(units, start, boundary)) != []
  {
    var front := units[..boundary];
    DecomposesSlice(units, boundary, active, MessageOf, TokensBy(estimate));
    DecomposesSlice(front, start, Items(front), MessageOf, TokensBy(estimate));
    assert Clamp(units, 0, start) == front[..start];
    assert Clamp(units, start, boundary) == front[start..];
  }

  // Cut theorem. A ready preparation that is not a reset splits the active
  // messages into two non-empty runs of whole units, never starts the kept part
  // on a tool result, and hands every summarised message to exactly one of the
  // two summaries.
  lemma CutTheorem(entries: seq<Entry>, throughEntryId: Option<nat>, input: PrepareInput, estimate: Estimator)
    requires Prepare(entries, throughEntryId, input, estimate).Ready? && input.reason != BehavioralReset
    ensures var plan := Prepare(entries, throughEntryId, input, estimate).plan;
      && plan.entriesToSummarize != [] && plan.tailEntries != []
      && plan.entriesToSummarize + plan.tailEntries == Select(entries, plan.previousCompaction)
      && Grammar(Bodies(plan.entriesToSummarize)) && Grammar(Bodies(plan.tailEntries))
      && plan.firstKeptEntryId == Some(plan.tailEntries[0].id)
      && !plan.tailEntries[0].message.Tool?
      && (plan.isSplitTurn <==> !plan.tailEntries[0].message.User?)
      && (plan.isSplitTurn <==> plan.splitTurnPrefixEntries != [])
      && plan.historyEntries + plan.splitTurnPrefixEntries == plan.entriesToSummarize
      && plan.estimatedTailTokens == Sum(Mapped(plan.tailEntries, TokensBy(estimate)))
  {
    var previous := Previous(entries, input);
    var active := Select(entries, previous);
    var units := SplitUnits(active, MessageOf, TokensBy(estimate));
    SplitUnitsDecomposes(active, MessageOf, TokensBy(estimate));
    CutShape(input, throughEntryId, units, previous, active, estimate);
    var boundary := SelectBoundary(units, input.keepRecentTokens).boundaryUnitIndex;
    DecomposesSlice(units, boundary, active, MessageOf, TokensBy(estimate));
    DecompositionUnique(units[..boundary], Items(units[..boundary]), MessageOf, TokensBy(estimate));
    DecompositionUnique(units[boundary..], Items(units[boundary..]), MessageOf, TokensBy(estimate));
    SuffixTokensAreSums(units, boundary, active, estimate);
  }

  // A behavioural reset summarises every active message and keeps none.
  lemma ResetTheorem(entries: seq<Entry>, throughEntryId: Option<nat>, input: PrepareInput, estimate: Estimator)
    requires Prepare(entries, throughEntryId, input, estimate).Ready? && input.reason == BehavioralReset
    ensures var plan := Prepare(entries, throughEntryId, input, estimate).plan;
      && plan.entriesToSummarize == plan.historyEntries == Select(entries, plan.previousCompaction) != []
      && plan.tailEntries == [] == plan.splitTurnPrefixEntries
      && plan.firstKeptEntryId == None && !plan.isSplitTurn
  {
    var active := Select(entries, Previous(entries, input));
    SplitUnitsDecomposes(active, MessageOf, TokensBy(estimate));
    NonEmptyItems(SplitUnits(active, MessageOf, TokensBy(estimate)), active, MessageOf, TokensBy(estimate));
  }

  lemma ItemsCons<T>(units: seq<Unit<T>>, k: nat)
    requires k < |units|
    ensures Items(units[k..]) == units[k].items + Items(units[k + 1..])
  {
    assert units[k..] == [units[k]] + units[k + 1..];
    ItemsSingle(units[k]);
    ItemsConcat([units[k]], units[k + 1..]);
  }

  lemma MappedConcat<T>(a: seq<T>, b: seq<T>, getTokens: T -> nat)
    ensures Sum(Mapped(a + b, getTokens)) == Sum(Mapped(a, getTokens)) + Sum(Mapped(b, getTokens))
  {
    assert Mapped(a + b, getTokens) == Mapped(a, getTokens) + Mapped(b, getTokens);
    SumConcat(Mapped(a, getTokens), Mapped(b, getTokens));
  }

  lemma {:induction false} SuffixTokensAreSums(units: seq<Unit<StoredMessage>>, k: nat, active: seq<StoredMessage>,
                                               estimate: Estimator)
    requires Decomposes(units, active, MessageOf, TokensBy(estimate)) && k <= |units|
    ensures SuffixTokens(units, k) == Sum(Mapped(Items(units[k..]), TokensBy(estimate)))
    decreases |units| - k
  {
    if k == |units| {
      assert ItemsOf(units[k..]) == [];
    } else {
      SuffixTokensAreSums(units, k + 1, active, estimate);
      assert Fits(units[k], MessageOf, TokensBy(estimate));
      ItemsCons(units, k);
      MappedConcat(units[k].items, Items(units[k + 1..]), TokensBy(estimate));
    }
  }

  // --- turn protection, stated on messages ----------------------------------

  function LastUserMessage(ms: seq<Message>): int {
    if ms == [] then -1
    else if ms[|ms| - 1].User? then |ms| - 1
    else LastUserMessage(ms[..|ms| - 1])
  }

  lemma {:induction false} LastUserMessageIs(ms: seq<Message>, u: nat)
    requires u < |ms| && ms[u].User? && forall j :: u < j < |ms| ==> !ms[j].User?
    ensures LastUserMessage(ms) == u
  {
    if u < |ms| - 1 { LastUserMessageIs(ms[..|ms| - 1], u); }
  }

  lemma {:induction false} NoUserMessage(ms: seq<Message>)
    requires forall j :: 0 <= j < |ms| ==> !ms[j].User?
    ensures LastUserMessage(ms) == -1
  {
    if ms != [] { NoUserMessage(ms[..|ms| - 1]); }
  }

  lemma {:induction false} NoUsersInside(units: seq<Unit<StoredMessage>>, items: seq<StoredMessage>,
                                         estimate: Estimator)
    requires Decomposes(units, items, MessageOf, TokensBy(estimate))
    requires forall i :: 0 <= i < |units| ==> units[i].firstRole != UserRole
    ensures forall j :: 0 <= j < |items| ==> !items[j].message.User?
    decreases |units|
  {
    NonEmptyItems(units, items, MessageOf, TokensBy(estimate));
    if units != [] {
      HeadUnit(units, items, MessageOf, TokensBy(estimate));
      var head := units[0].items;
      assert Fits(units[0], MessageOf, TokensBy(estimate));
      var ms := Bodies(head);
      NoUsersInside(units[1..], items[|head|..], estimate);
      forall j | 0 <= j < |items| ensures !items[j].message.User? {
        if 0 < j < |head| {
          assert Answers(ms[1 + (j - 1)], ms[0].toolCalls[j - 1]);
          assert items[..|head|][j] == items[j];
        } else if j >= |head| {
          assert items[|head|..][j - |head|] == items[j];
        } else {
          assert items[..|head|][j] == items[j];
        }
      }
    }
  }

  // A user unit is one user message between the items before and after it.
  lemma AroundUserUnit(units: seq<Unit<StoredMessage>>, active: seq<StoredMessage>, k: nat, estimate: Estimator)
    requires Decomposes(units, active, MessageOf, TokensBy(estimate))
    requires k < |units| && units[k].firstRole == UserRole
    ensures |units[k].items| == 1 && units[k].items[0].message.User?
    ensures active == Items(units[..k]) + [units[k].items[0]] + Items(units[k + 1..])
    ensures Decomposes(units[k + 1..], Items(units[k + 1..]), MessageOf, TokensBy(estimate))
  {
    DecomposesSlice(units, k + 1, active, MessageOf, TokensBy(estimate));
    DecomposesSlice(units, k, active, MessageOf, TokensBy(estimate));
    assert Fits(units[k], MessageOf, TokensBy(estimate));
    assert Bodies(units[k].items)[0] == units[k].items[0].message;
    ItemsCons(units, k);
  }

  // Where the last user unit starts is where the last user message is.
  lemma LastUserUnitMessage(units: seq<Unit<StoredMessage>>, active: seq<StoredMessage>, latest: int,
                            estimate: Estimator)
    requires Decomposes(units, active, MessageOf, TokensBy(estimate))
    requires latest == LastUserBelow(units, |units|)
    ensures -1 <= latest < |units|
    ensures LastUserMessage(Bodies(active)) == if latest < 0 then -1 else |Items(units[..latest])|
  {
    LastUserFound(units, |units|);
    if latest < 0 {
      NoUsersInside(units, active, estimate);
      NoUserMessage(Bodies(active));
    } else {
      AroundUserUnit(units, active, latest, estimate);
      var after := Items(units[latest + 1..]);
      NoUsersInside(units[latest + 1..], after, estimate);
      LastUserInMiddle(Items(units[..latest]), units[latest].items[0], after);
    }
  }

  lemma LastUserInMiddle(before: seq<StoredMessage>, user: StoredMessage, after: seq<StoredMessage>)
    requires user.message.User? && forall j :: 0 <= j < |after| ==> !after[j].message.User?
    ensures LastUserMessage(Bodies(before + [user] + after)) == |before|
  {
    var ms := Bodies(before + [user] + after);
    forall j | |before| < j < |ms| ensures !ms[j].User? {
      assert ms[j] == after[j - |before| - 1].message;
    }
    LastUserMessageIs(ms, |before|);
  }

  // Turn protection. If the latest user turn, from its user message to the end,
  // fits the budget, the cut lies at or before that message.
  lemma TurnProtection(entries: seq<Entry>, throughEntryId: Option<nat>, input: PrepareInput, estimate: Estimator)
    requires Prepare(entries, throughEntryId, input, estimate).Ready? && input.reason != BehavioralReset
    ensures var plan := Prepare(entries, throughEntryId, input, estimate).plan;
      var active := plan.entriesToSummarize + plan.tailEntries;
      var turn := LastUserMessage(Bodies(active));
      turn < |active| && ((0 <= turn < |plan.entriesToSummarize|) ==>
        Sum(Mapped(active[turn..], TokensBy(estimate))) > input.keepRecentTokens)
  {
    var previous := Previous(entries, input);
    var active := Select(entries, previous);
    var units := SplitUnits(active, MessageOf, TokensBy(estimate));
    SplitUnitsDecomposes(active, MessageOf, TokensBy(estimate));
    CutShape(input, throughEntryId, units, previous, active, estimate);
    UnitsPositive(units, active, estimate);
    BoundaryFacts(units, input.keepRecentTokens);
    var b := SelectBoundary(units, input.keepRecentTokens);
    var latest := b.latestTurnStart;
    LastUserUnitMessage(units, active, latest, estimate);
    if latest >= 0 {
      DecomposesSlice(units, latest, active, MessageOf, TokensBy(estimate));
      SuffixTokensAreSums(units, latest, active, estimate);
      assert active[|Items(units[..latest])|..] == Items(units[latest..]);
      if b.boundaryUnitIndex <= latest {
        ItemsPrefix(units, b.boundaryUnitIndex, latest);
      }
    }
  }

  lemma ItemsPrefix(units: seq<Unit<StoredMessage>>, a: nat, b: nat)
    requires a <= b <= |units|
    ensures |Items(units[..a])| <= |Items(units[..b])|
  {
    assert units[..b] == units[..a] + units[a..b];
    ItemsConcat(units[..a], units[a..b]);
  }

  function Itself(m: Message): Message { m }

  lemma ItselfMessages(ms: seq<Message>)
    ensures Mapped(ms, Itself) == ms
  {
  }

  // Where the provider cache breakpoint goes: the end of what a cut would summarise.
  ghost function BreakpointOf(messages: seq<Message>, keepRecentTokens: nat, estimate: Estimator): Option<nat> {
    ItselfMessages(messages);
    if !Grammar(messages) then None
    else
      var units := SplitUnits(messages, Itself, estimate);
      if |units| < 2 then None
      else
        var boundary := SelectBoundary(units, keepRecentTokens).boundaryUnitIndex;
        if boundary <= 0 || boundary >= |units| || Items(units[..boundary]) == [] then None
        else Some(|Items(units[..boundary])| - 1)
  }

  method SelectCompactionCacheBreakpointMessageIndex(messages: seq<Message>, keepRecentTokens: nat, estimate: Estimator)
    returns (r: Option<nat>)
    ensures r == BreakpointOf(messages, keepRecentTokens, estimate)
  {
    var built := BuildAtomicUnits(messages, Itself, estimate);
    ItselfMessages(messages);
    if built.None? || |built.value| < 2 { return None; }
    var units := built.value;
    var selection := SelectAtomicBoundary(units, keepRecentTokens);
    var boundary := selection.boundaryUnitIndex;
    if boundary <= 0 || boundary >= |units| { return None; }
    var front := Items(units[..boundary]);
    return if front == [] then None else Some(|front| - 1);
  }

  // The breakpoint never separates a call from its results: whole units before and after it.
  lemma BreakpointCuts(messages: seq<Message>, keepRecentTokens: nat, estimate: Estimator)
    requires BreakpointOf(messages, keepRecentTokens, estimate).Some?
    ensures var at := BreakpointOf(messages, keepRecentTokens, estimate).value;
      && at < |messages| - 1
      && Grammar(messages[..at + 1]) && Grammar(messages[at + 1..])
  {
    var units, boundary := BreakpointUnits(messages, keepRecentTokens, estimate);
    BreakpointSides(messages, units, boundary, estimate);
  }

  lemma BreakpointUnits(messages: seq<Message>, keepRecentTokens: nat, estimate: Estimator)
    returns (units: seq<Unit<Message>>, boundary: nat)
    requires BreakpointOf(messages, keepRecentTokens, estimate).Some?
    ensures Decomposes(units, messages, Itself, estimate) && 0 < boundary < |units|
    ensures BreakpointOf(messages, keepRecentTokens, estimate) == Some(|Items(units[..boundary])| - 1)
  {
    ItselfMessages(messages);
    SplitUnitsDecomposes(messages, Itself, estimate);
    units := SplitUnits(messages, Itself, estimate);
    boundary := SelectBoundary(units, keepRecentTokens).boundaryUnitIndex;
  }

  lemma BreakpointSides(messages: seq<Message>, units: seq<Unit<Message>>, boundary: nat, estimate: Estimator)
    requires Decomposes(units, messages, Itself, estimate) && 0 < boundary < |units|
    ensures var front := Items(units[..boundary]);
      && 0 < |front| < |messages|
      && Grammar(messages[..|front|]) && Grammar(messages[|front|..])
  {
    var front, back := Items(units[..boundary]), Items(units[boundary..]);
    DecomposesSlice(units, boundary, messages, Itself, estimate);
    NonEmptyItems(units[..boundary], front, Itself, estimate);
    DecompositionUnique(units[..boundary], front, Itself, estimate);
    DecompositionUnique(units[boundary..], back, Itself, estimate);
    ItselfMessages(front);
    ItselfMessages(back);
    assert messages[..|front|] == front && messages[|front|..] == back;
  }

  // --- the breakpoint and the cut agree -------------------------------------

  // Two readings of the same messages: equal roles, tokens and lengths.
  ghost predicate Alike(a: seq<Unit<StoredMessage>>, b: seq<Unit<Message>>) {
    |a| == |b| && forall i :: 0 <= i < |a| ==>
      a[i].firstRole == b[i].firstRole && a[i].tokens == b[i].tokens && |a[i].items| == |b[i].items|
  }

  lemma BodiesTokens(items: seq<StoredMessage>, estimate: Estimator)
    ensures Mapped(items, TokensBy(estimate)) == Mapped(Bodies(items), estimate)
  {
  }

  lemma UnitAlike(items: seq<StoredMessage>, estimate: Estimator)
    requires |items| > 0
    ensures var a, b := MakeUnit(items, MessageOf, TokensBy(estimate)), MakeUnit(Bodies(items), Itself, estimate);
      a.firstRole == b.firstRole && a.tokens == b.tokens && |a.items| == |b.items|
  {
    BodiesTokens(items, estimate);
  }

  lemma {:induction false} SplitAlike(items: seq<StoredMessage>, estimate: Estimator)
    requires Grammar(Bodies(items))
    ensures Mapped(Bodies(items), Itself) == Bodies(items)
    ensures Alike(SplitUnits(items, MessageOf, TokensBy(estimate)), SplitUnits(Bodies(items), Itself, estimate))
    decreases |items|
  {
    ItselfMessages(Bodies(items));
    if items != [] {
      var n := Span(items[0].message);
      MessagesSlice(items, n, MessageOf);
      SplitAlike(items[n..], estimate);
      UnitAlike(items[..n], estimate);
      assert Bodies(items)[..n] == Bodies(items[..n]) && Bodies(items)[n..] == Bodies(items[n..]);
    }
  }

  lemma {:induction false} SameSuffix(a: seq<Unit<StoredMessage>>, b: seq<Unit<Message>>, index: nat)
    requires Alike(a, b)
    ensures SuffixTokens(a, index) == SuffixTokens(b, index)
    decreases |a| - index
  {
    if index < |a| { SameSuffix(a, b, index + 1); }
  }

  lemma {:induction false} SameRaw(a: seq<Unit<StoredMessage>>, b: seq<Unit<Message>>, keepRecentTokens: nat,
                                   index: nat)
    requires Alike(a, b) && index <= |a|
    ensures RawBoundaryBelow(a, keepRecentTokens, index) == RawBoundaryBelow(b, keepRecentTokens, index)
  {
    if index > 0 {
      SameSuffix(a, b, index - 1);
      SameRaw(a, b, keepRecentTokens, index - 1);
    }
  }

  lemma {:induction false} SameLastUser(a: seq<Unit<StoredMessage>>, b: seq<Unit<Message>>, index: nat)
    requires Alike(a, b) && index <= |a|
    ensures LastUserBelow(a, index) == LastUserBelow(b, index)
  {
    if index > 0 { SameLastUser(a, b, index - 1); }
  }

  lemma {:induction false} SameFirstUser(a: seq<Unit<StoredMessage>>, b: seq<Unit<Message>>, index: nat)
    requires Alike(a, b)
    ensures FirstUserFrom(a, index) == FirstUserFrom(b, index)
    decreases |a| - index
  {
    if index < |a| { SameFirstUser(a, b, index + 1); }
  }

  lemma SameBoundary(a: seq<Unit<StoredMessage>>, b: seq<Unit<Message>>, keepRecentTokens: nat)
    requires Alike(a, b) && a != []
    ensures SelectBoundary(a, keepRecentTokens) == SelectBoundary(b, keepRecentTokens)
  {
    RawBoundaryRange(a, keepRecentTokens, |a|);
    SameRaw(a, b, keepRecentTokens, |a|);
    SameLastUser(a, b, |a|);
    SameSuffix(a, b, Max(0, LastUserBelow(a, |a|)));
    SameLastUser(a, b, RawBoundary(a, keepRecentTokens) + 1);
    SameFirstUser(a, b, RawBoundary(a, keepRecentTokens) + 1);
  }

  lemma {:induction false} SameLength(a: seq<Unit<StoredMessage>>, b: seq<Unit<Message>>, k: nat)
    requires Alike(a, b) && k <= |a|
    ensures |Items(a[..k])| == |Items(b[..k])|
  {
    if k == 0 {
      assert ItemsOf(a[..0]) == [] && ItemsOf(b[..0]) == [];
    } else {
      SameLength(a, b, k - 1);
      assert a[..k] == a[..k - 1] + [a[k - 1]] && b[..k] == b[..k - 1] + [b[k - 1]];
      ItemsConcat(a[..k - 1], [a[k - 1]]);
      ItemsConcat(b[..k - 1], [b[k - 1]]);
      ItemsSingle(a[k - 1]);
      ItemsSingle(b[k - 1]);
    }
  }

  // A breakpoint read off units that are like the stored ones.
  lemma BreakpointLike(messages: seq<Message>, a: seq<Unit<StoredMessage>>, b: seq<Unit<Message>>,
                       keepRecentTokens: nat, estimate: Estimator)
    requires Alike(a, b) && Grammar(messages) && Mapped(messages, Itself) == messages
    requires b == SplitUnits(messages, Itself, estimate)
    requires |a| >= 2 && 0 < SelectBoundary(a, keepRecentTokens).boundaryUnitIndex < |a|
    requires Items(a[..SelectBoundary(a, keepRecentTokens).boundaryUnitIndex]) != []
    ensures BreakpointOf(messages, keepRecentTokens, estimate)
      == Some(|Items(a[..SelectBoundary(a, keepRecentTokens).boundaryUnitIndex])| - 1)
  {
    SameBoundary(a, b, keepRecentTokens);
    SameLength(a, b, SelectBoundary(a, keepRecentTokens).boundaryUnitIndex);
  }

  // What a ready cut knows of its units.
  ghost predicate CutFrom(plan: Plan, active: seq<StoredMessage>, a: seq<Unit<StoredMessage>>, keepRecentTokens: nat) {
    && Grammar(Bodies(active)) && a != []
    && var boundary := SelectBoundary(a, keepRecentTokens).boundaryUnitIndex;
       0 < boundary < |a| && plan.entriesToSummarize == Items(a[..boundary]) != []
  }

  lemma CutUnits(entries: seq<Entry>, throughEntryId: Option<nat>, input: PrepareInput, estimate: Estimator, plan: Plan)
    requires Prepare(entries, throughEntryId, input, estimate) == Ready(plan) && input.reason != BehavioralReset
    ensures var active := Select(entries, plan.previousCompaction);
      && Grammar(Bodies(active))
      && CutFrom(plan, active, SplitUnits(active, MessageOf, TokensBy(estimate)), input.keepRecentTokens)
  {
    var previous := Previous(entries, input);
    var active := Select(entries, previous);
    var a := SplitUnits(active, MessageOf, TokensBy(estimate));
    SplitUnitsDecomposes(active, MessageOf, TokensBy(estimate));
    CutShape(input, throughEntryId, a, previous, active, estimate);
  }

  lemma BreakpointOfCut(plan: Plan, active: seq<StoredMessage>, keepRecentTokens: nat, estimate: Estimator)
    requires Grammar(Bodies(active))
    requires CutFrom(plan, active, SplitUnits(active, MessageOf, TokensBy(estimate)), keepRecentTokens)
    ensures BreakpointOf(Bodies(active), keepRecentTokens, estimate) == Some(|plan.entriesToSummarize| - 1)
  {
    SplitAlike(active, estimate);
    BreakpointLike(Bodies(active), SplitUnits(active, MessageOf, TokensBy(estimate)),
                   SplitUnits(Bodies(active), Itself, estimate), keepRecentTokens, estimate);
  }

  // Over the same messages, the breakpoint is the last message of what the next
  // compaction would summarise.
  lemma BreakpointIsCut(entries: seq<Entry>, throughEntryId: Option<nat>, input: PrepareInput, estimate: Estimator,
                        plan: Plan)
    requires Prepare(entries, throughEntryId, input, estimate) == Ready(plan) && input.reason != BehavioralReset
    ensures BreakpointOf(Bodies(Select(entries, plan.previousCompaction)), input.keepRecentTokens, estimate)
         == Some(|plan.entriesToSummarize| - 1)
  {
    CutUnits(entries, throughEntryId, input, estimate, plan);
    BreakpointOfCut(plan, Select(entries, plan.previousCompaction), input.keepRecentTokens, estimate);
  }
}
