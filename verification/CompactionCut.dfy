// Where a compaction may cut: token budgets choose a unit boundary, and user
// turns are protected when they fit the budget.
module CompactionCut {
  import opened Prelude
  import opened Messages
  import opened AtomicUnits

  // At least one token per message.
  type Estimator = f: Message -> nat | forall m :: f(m) >= 1 witness (m: Message) => 1

  function SuffixTokens<T>(units: seq<Unit<T>>, index: nat): nat
    decreases |units| - index
  {
    if index >= |units| then 0 else units[index].tokens + SuffixTokens(units, index + 1)
  }

  // Searching backwards from just below `index`.
  function RawBoundaryBelow<T>(units: seq<Unit<T>>, keepRecentTokens: nat, index: nat): nat
    requires index <= |units|
  {
    if index == 0 then 0
    else if SuffixTokens(units, index - 1) >= keepRecentTokens then index - 1
    else RawBoundaryBelow(units, keepRecentTokens, index - 1)
  }

  function RawBoundary<T>(units: seq<Unit<T>>, keepRecentTokens: nat): nat {
    RawBoundaryBelow(units, keepRecentTokens, |units|)
  }

  function LastUserBelow<T>(units: seq<Unit<T>>, index: nat): int
    requires index <= |units|
  {
    if index == 0 then -1
    else if units[index - 1].firstRole == UserRole then index - 1
    else LastUserBelow(units, index - 1)
  }

  function FirstUserFrom<T>(units: seq<Unit<T>>, index: nat): int
    decreases |units| - index
  {
    if index >= |units| then -1
    else if units[index].firstRole == UserRole then index
    else FirstUserFrom(units, index + 1)
  }

  function PreferredUserBoundary<T>(units: seq<Unit<T>>, rawBoundary: nat): int
    requires rawBoundary < |units|
  {
    var below := LastUserBelow(units, rawBoundary + 1);
    if below > 0 then below else FirstUserFrom(units, rawBoundary + 1)
  }

  datatype Boundary = Boundary(boundaryUnitIndex: nat, latestTurnStart: int, preferredUserBoundary: int)

  function SelectBoundary<T>(units: seq<Unit<T>>, keepRecentTokens: nat): Boundary
    requires units != []
  {
    RawBoundaryRange(units, keepRecentTokens, |units|);
    var rawBoundary := RawBoundary(units, keepRecentTokens);
    var latestTurnStart := LastUserBelow(units, |units|);
    var oversized := SuffixTokens(units, Max(0, latestTurnStart)) > keepRecentTokens;
    var preferred := if oversized then -1 else PreferredUserBoundary(units, rawBoundary);
    Boundary(if preferred > 0 then preferred else rawBoundary, latestTurnStart, preferred)
  }

  // --- the loop forms -------------------------------------------------------

  method SelectRawBoundary<T>(units: seq<Unit<T>>, keepRecentTokens: nat) returns (boundary: nat)
    ensures boundary == RawBoundary(units, keepRecentTokens)
  {
    var tokens := 0;
    var index := |units|;
    while index > 0
      invariant 0 <= index <= |units|
      invariant tokens == SuffixTokens(units, index)
      invariant RawBoundary(units, keepRecentTokens) == RawBoundaryBelow(units, keepRecentTokens, index)
    {
      index := index - 1;
      tokens := tokens + units[index].tokens;
      if tokens >= keepRecentTokens { return index; }
    }
    return 0;
  }

  method FindPreferredUserBoundary<T>(units: seq<Unit<T>>, rawBoundary: nat) returns (boundary: int)
    requires rawBoundary < |units|
    ensures boundary == PreferredUserBoundary(units, rawBoundary)
  {
    var index: int := rawBoundary;
    while index >= 0
      invariant -1 <= index <= rawBoundary
      invariant LastUserBelow(units, rawBoundary + 1) == LastUserBelow(units, index + 1)
    {
      if units[index].firstRole == UserRole {
        if index > 0 { return index; }
        break;
      }
      index := index - 1;
    }
    index := rawBoundary + 1;
    while index < |units|
      invariant rawBoundary + 1 <= index <= |units|
      invariant FirstUserFrom(units, rawBoundary + 1) == FirstUserFrom(units, index)
    {
      if units[index].firstRole == UserRole { return index; }
      index := index + 1;
    }
    return -1;
  }

  method FindLatestUserUnitIndex<T>(units: seq<Unit<T>>) returns (latest: int)
    ensures latest == LastUserBelow(units, |units|)
  {
    var index := |units| - 1;
    while index >= 0
      invariant -1 <= index < |units|
      invariant LastUserBelow(units, |units|) == LastUserBelow(units, index + 1)
    {
      if units[index].firstRole == UserRole { return index; }
      index := index - 1;
    }
    return -1;
  }

  method SelectAtomicBoundary<T>(units: seq<Unit<T>>, keepRecentTokens: nat) returns (selection: Boundary)
    requires units != []
    ensures selection == SelectBoundary(units, keepRecentTokens)
  {
    RawBoundaryRange(units, keepRecentTokens, |units|);
    var rawBoundary := SelectRawBoundary(units, keepRecentTokens);
    var latestTurnStart := FindLatestUserUnitIndex(units);
    var preferred := -1;
    if SuffixTokens(units, Max(0, latestTurnStart)) <= keepRecentTokens {
      preferred := FindPreferredUserBoundary(units, rawBoundary);
    }
    return Boundary(if preferred > 0 then preferred else rawBoundary, latestTurnStart, preferred);
  }

  // --- what the searches find -----------------------------------------------

  lemma {:induction false} RawBoundaryRange<T>(units: seq<Unit<T>>, keepRecentTokens: nat, index: nat)
    requires index <= |units|
    ensures index > 0 ==> RawBoundaryBelow(units, keepRecentTokens, index) < index
  {
    if index > 0 { RawBoundaryRange(units, keepRecentTokens, index - 1); }
  }

  // The raw boundary is the largest index whose suffix reaches the budget, or 0.
  lemma {:induction false} RawBoundaryLargest<T>(units: seq<Unit<T>>, keepRecentTokens: nat, index: nat)
    requires index <= |units|
    ensures var raw := RawBoundaryBelow(units, keepRecentTokens, index);
      && (forall j :: raw < j < index ==> SuffixTokens(units, j) < keepRecentTokens)
      && (raw > 0 ==> SuffixTokens(units, raw) >= keepRecentTokens)
  {
    if index > 0 && SuffixTokens(units, index - 1) < keepRecentTokens {
      RawBoundaryLargest(units, keepRecentTokens, index - 1);
    }
  }

  lemma {:induction false} LastUserFound<T>(units: seq<Unit<T>>, index: nat)
    requires index <= |units|
    ensures var last := LastUserBelow(units, index);
      && -1 <= last < index
      && (last >= 0 ==> units[last].firstRole == UserRole)
      && forall j :: last < j < index ==> units[j].firstRole != UserRole
  {
    if index > 0 && units[index - 1].firstRole != UserRole { LastUserFound(units, index - 1); }
  }

  lemma {:induction false} FirstUserFound<T>(units: seq<Unit<T>>, index: nat)
    ensures var first := FirstUserFrom(units, index);
      && (first == -1 || index <= first < |units|)
      && (first >= 0 ==> units[first].firstRole == UserRole)
      && forall j :: index <= j < (if first == -1 then |units| else first) ==> units[j].firstRole != UserRole
    decreases |units| - index
  {
    if index < |units| && units[index].firstRole != UserRole { FirstUserFound(units, index + 1); }
  }

  ghost predicate PositiveUnits<T>(units: seq<Unit<T>>) {
    forall i :: 0 <= i < |units| ==> units[i].tokens >= 1
  }

  lemma {:induction false} SuffixShrinks<T>(units: seq<Unit<T>>, i: nat, j: nat)
    requires PositiveUnits(units) && i < j <= |units|
    ensures SuffixTokens(units, i) > SuffixTokens(units, j)
    decreases j - i
  {
    if i + 1 < j { SuffixShrinks(units, i + 1, j); }
  }

  // Everything the preparation needs to know about the boundary it is given.
  lemma BoundaryFacts<T>(units: seq<Unit<T>>, keepRecentTokens: nat)
    requires units != [] && PositiveUnits(units)
    ensures var b := SelectBoundary(units, keepRecentTokens);
      && b.boundaryUnitIndex < |units|
      && -1 <= b.latestTurnStart < |units|
      && (b.latestTurnStart >= 0 ==> units[b.latestTurnStart].firstRole == UserRole)
      && (forall j :: b.latestTurnStart < j < |units| ==> units[j].firstRole != UserRole)
      // a boundary taken from the preferred search starts a user turn
      && (b.preferredUserBoundary > 0 ==> units[b.boundaryUnitIndex].firstRole == UserRole)
      // the latest turn is protected when it fits
      && ((b.latestTurnStart >= 0 && SuffixTokens(units, b.latestTurnStart) <= keepRecentTokens)
          ==> b.boundaryUnitIndex <= b.latestTurnStart)
      // a cut off a user turn never lies before the turn it splits
      && (b.preferredUserBoundary <= 0 ==> Max(0, b.latestTurnStart) <= b.boundaryUnitIndex)
  {
    var b := SelectBoundary(units, keepRecentTokens);
    var raw := RawBoundary(units, keepRecentTokens);
    var latest := b.latestTurnStart;
    RawBoundaryRange(units, keepRecentTokens, |units|);
    RawBoundaryLargest(units, keepRecentTokens, |units|);
    LastUserFound(units, |units|);
    LastUserFound(units, raw + 1);
    FirstUserFound(units, raw + 1);
    if latest >= 0 {
      if SuffixTokens(units, latest) <= keepRecentTokens && raw > latest {
        SuffixShrinks(units, latest, raw);
      }
    }
  }
}
