// Whether the bot loop goes on after a round, and why it cannot go on for ever
// without anything happening.
module LoopPolicy {
  import opened Prelude

  datatype ToolContinuation = NoContinuation | Immediate | WaitAttention | WaitEvent | Backoff | Stop

  datatype Demand = NoDemand | Continuation | Attention

  datatype Round = Round(
    ranRound: bool,
    stopRequested: bool,
    toolCallCount: nat,
    demand: Demand,
    recoverableToolFailure: bool,
    onlyHelpToolCalls: bool,
    madeToolProgress: bool,
    toolContinuation: ToolContinuation)

  datatype Counters = Counters(recoverableCorrectionRounds: nat, noProgressRounds: nat)

  datatype Limits = Limits(maxRecoverableCorrectionRounds: nat, maxNoProgressRounds: int)

  datatype WaitReason =
    | NoActionableContext
    | ToolExternalStarted
    | ToolDirectionComplete
    | NoProgressLimit
    | DirectionComplete

  datatype ContinueReason =
    | RecoverableToolCorrection | ToolImmediate | ToolProgress | ActionCorrection | ToolNoProgress | AttentionPending

  datatype Action = WaitForEvent(wait: WaitReason) | StopLoop | Continue(reason: ContinueReason) | WaitForAttention

  datatype Decision = Decision(action: Action, counters: Counters)

  function NoProgressLimitOf(limits: Limits): nat {
    Max(1, limits.maxNoProgressRounds)
  }

  // A round without progress: one more, or the limit.
  function CountNoProgress(limits: Limits, correctionRounds: nat, noProgressRounds: nat,
                           reason: ContinueReason): Decision {
    if noProgressRounds + 1 >= NoProgressLimitOf(limits)
    then Decision(WaitForEvent(NoProgressLimit), Counters(correctionRounds, 0))
    else Decision(Continue(reason), Counters(correctionRounds, noProgressRounds + 1))
  }

  function DecideAfterTools(limits: Limits, round: Round, c: Counters): Decision {
    var continuingCorrection :=
      round.recoverableToolFailure || (c.recoverableCorrectionRounds > 0 && round.onlyHelpToolCalls);
    if continuingCorrection && c.recoverableCorrectionRounds < limits.maxRecoverableCorrectionRounds then
      Decision(Continue(RecoverableToolCorrection),
               c.(recoverableCorrectionRounds := c.recoverableCorrectionRounds + 1))
    else
      var correctionRounds :=
        if !round.recoverableToolFailure && !round.onlyHelpToolCalls then 0 else c.recoverableCorrectionRounds;
      if round.toolContinuation == WaitEvent then Decision(WaitForEvent(ToolExternalStarted), Counters(0, 0))
      else if round.toolContinuation == Stop || round.toolContinuation == WaitAttention then
        Decision(WaitForEvent(ToolDirectionComplete), Counters(correctionRounds, 0))
      else if round.toolContinuation == Backoff then
        Decision(WaitForAttention, Counters(correctionRounds, c.noProgressRounds))
      else if round.madeToolProgress then
        Decision(Continue(if round.toolContinuation == Immediate then ToolImmediate else ToolProgress),
                 Counters(correctionRounds, 0))
      else if round.toolContinuation == Immediate then
        CountNoProgress(limits, correctionRounds, c.noProgressRounds, ToolImmediate)
      else if round.demand == Continuation then Decision(Continue(ActionCorrection), Counters(correctionRounds, 0))
      else CountNoProgress(limits, correctionRounds, c.noProgressRounds, ToolNoProgress)
  }

  function DecideLoopPolicy(limits: Limits, round: Round, c: Counters): Decision {
    if !round.ranRound then
      if round.stopRequested then Decision(StopLoop, c)
      else Decision(WaitForEvent(NoActionableContext), c.(noProgressRounds := 0))
    else if round.stopRequested then Decision(StopLoop, c)
    else if round.demand == Attention then Decision(Continue(AttentionPending), c.(noProgressRounds := 0))
    else if round.toolCallCount > 0 then DecideAfterTools(limits, round, c)
    else if round.demand == Continuation then Decision(Continue(ActionCorrection), c.(noProgressRounds := 0))
    else Decision(WaitForEvent(DirectionComplete), Counters(0, 0))
  }

  // --- the counters stay in range -------------------------------------------

  predicate InRange(limits: Limits, c: Counters) {
    c.recoverableCorrectionRounds <= limits.maxRecoverableCorrectionRounds
        && c.noProgressRounds < NoProgressLimitOf(limits)
  }

  function After(limits: Limits, rounds: seq<Round>, c: Counters): Counters {
    if rounds == [] then c
    else DecideLoopPolicy(limits, rounds[|rounds| - 1], After(limits, rounds[..|rounds| - 1], c)).counters
  }

  lemma {:induction false} AlwaysInRange(limits: Limits, rounds: seq<Round>, c: Counters)
    requires InRange(limits, c)
    ensures InRange(limits, After(limits, rounds, c))
  {
    if rounds != [] { AlwaysInRange(limits, rounds[..|rounds| - 1], c); }
  }

  // --- quiet rounds end -----------------------------------------------------

  // Nobody asks for anything, nothing gets done, nobody stops the loop.
  predicate Quiet(round: Round) {
    round.ranRound && !round.stopRequested && round.demand == NoDemand && !round.madeToolProgress
  }

  // The loop goes on after each of these quiet rounds.
  predicate KeepsGoing(limits: Limits, rounds: seq<Round>, c: Counters) {
    rounds == [] ||
      (var d := DecideLoopPolicy(limits, rounds[0], c);
       Quiet(rounds[0]) && d.action.Continue? && KeepsGoing(limits, rounds[1..], d.counters))
  }

  // How many quiet rounds are left: the correction counter may be used up once for
  // every round without progress that is still allowed.
  function Budget(limits: Limits, c: Counters): int {
    (NoProgressLimitOf(limits) - 1 - c.noProgressRounds) * (limits.maxRecoverableCorrectionRounds + 1)
    + (limits.maxRecoverableCorrectionRounds - c.recoverableCorrectionRounds)
  }

  lemma BudgetShrinks(limits: Limits, round: Round, c: Counters)
    requires InRange(limits, c) && Quiet(round) && DecideLoopPolicy(limits, round, c).action.Continue?
    ensures var next := DecideLoopPolicy(limits, round, c).counters;
      InRange(limits, next) && 0 <= Budget(limits, next) < Budget(limits, c)
  {
    var next := DecideLoopPolicy(limits, round, c).counters;
    BudgetNonNegative(limits, next);
    var n, k := NoProgressLimitOf(limits) - 1, limits.maxRecoverableCorrectionRounds + 1;
    if next.noProgressRounds == c.noProgressRounds + 1 {
      Distribute(n - c.noProgressRounds, k);
    }
  }

  lemma BudgetNonNegative(limits: Limits, c: Counters)
    requires InRange(limits, c)
    ensures Budget(limits, c) >= 0
  {
    Product(NoProgressLimitOf(limits) - 1 - c.noProgressRounds, limits.maxRecoverableCorrectionRounds + 1);
  }

  lemma Product(a: nat, k: nat)
    ensures a * k >= 0
  {
  }

  lemma Distribute(a: int, k: int)
    ensures (a - 1) * k == a * k - k
  {
  }

  // No counters in range leave more than the fresh ones do.
  lemma BudgetAtMost(limits: Limits, c: Counters)
    requires InRange(limits, c)
    ensures Budget(limits, c) <= NoProgressLimitOf(limits) * (limits.maxRecoverableCorrectionRounds + 1) - 1
  {
    var n, k := NoProgressLimitOf(limits), limits.maxRecoverableCorrectionRounds + 1;
    Product(c.noProgressRounds, k);
    assert (n - 1 - c.noProgressRounds) * k == n * k - k - c.noProgressRounds * k;
  }

  // At most Budget quiet rounds in a row are followed by another round, which is
  // never more than N * (C + 1) - 1.
  lemma {:induction false} QuietRoundsEnd(limits: Limits, rounds: seq<Round>, c: Counters)
    requires InRange(limits, c) && KeepsGoing(limits, rounds, c)
    ensures |rounds| <= Budget(limits, c)
    ensures |rounds| <= NoProgressLimitOf(limits) * (limits.maxRecoverableCorrectionRounds + 1) - 1
  {
    if rounds == [] {
      BudgetNonNegative(limits, c);
    } else {
      BudgetShrinks(limits, rounds[0], c);
      QuietRoundsEnd(limits, rounds[1..], DecideLoopPolicy(limits, rounds[0], c).counters);
    }
    BudgetAtMost(limits, c);
  }

  // --- and the bound is reached ---------------------------------------------

  const FAILING := Round(true, false, 1, NoDemand, true, false, false, NoContinuation)
  const IDLING := Round(true, false, 1, NoDemand, false, false, false, NoContinuation)

  // Fail while corrections are left, then idle once, and start over.
  function Longest(limits: Limits, c: Counters, n: nat): seq<Round>
    decreases n
  {
    if n == 0 then []
    else
      var round := if c.recoverableCorrectionRounds < limits.maxRecoverableCorrectionRounds then FAILING else IDLING;
      [round] + Longest(limits, DecideLoopPolicy(limits, round, c).counters, n - 1)
  }

  lemma {:induction false} BoundIsReached(limits: Limits, c: Counters, n: nat)
    requires InRange(limits, c) && n == Budget(limits, c)
    ensures |Longest(limits, c, n)| == n && KeepsGoing(limits, Longest(limits, c, n), c)
    decreases n
  {
    if n > 0 {
      var rounds := Longest(limits, c, n);
      var round := rounds[0];
      var left := NoProgressLimitOf(limits) - 1 - c.noProgressRounds;
      if c.recoverableCorrectionRounds == limits.maxRecoverableCorrectionRounds {
        assert left == 0 ==> left * (limits.maxRecoverableCorrectionRounds + 1) == 0;
        Distribute(left, limits.maxRecoverableCorrectionRounds + 1);
      }
      var next := DecideLoopPolicy(limits, round, c).counters;
      assert Budget(limits, next) == n - 1;
      BoundIsReached(limits, next, n - 1);
      assert rounds[1..] == Longest(limits, next, n - 1);
    }
  }
}
