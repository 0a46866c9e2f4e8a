// One tool round: the calls of an assistant message are run in batches, parallel
// where every call allows it, and answered in call order.
module ReactKernel {
  import opened Prelude
  import opened Text
  import opened Messages
  import opened AtomicUnits
  import opened SnapshotIntegrity

  datatype ToolContinuation = Immediate | WaitAttention | WaitEvent | Backoff | Stop

  datatype ToolOutcome = ToolOutcome(
    ok: bool,
    code: Option<string>,
    progress: Option<bool>,
    continuation: Option<ToolContinuation>,
    continuationDetail: Option<string>,
    noveltyKey: Option<string>)

  // What executing a call comes to; a failure brings the text of its JSON report.
  datatype Execution = Returned(answer: Answer) | Thrown(report: string)

  datatype Answer = Answer(content: ToolContent, effects: seq<string>, outcome: Option<ToolOutcome>)

  datatype Effect = Effect(toolCallId: string, toolName: string, effect: string)

  datatype Outcome = Outcome(
    toolCallId: string,
    requestedToolName: string,
    toolName: string,
    ok: bool,
    code: Option<string>,
    progress: bool,
    continuation: Option<ToolContinuation>,
    continuationDetail: Option<string>,
    noveltyKey: Option<string>)

  // The calls start, start + 1, ..., end - 1, run together.
  datatype Batch = Batch(start: nat, end: nat)

  datatype Event = Started(call: nat) | Finished(call: nat)

  // The order in which the calls of a batch finish.
  type FinishOrder = f: Batch -> seq<nat> | forall b :: IsOrder(f(b), b) witness (b: Batch) => Range(b.start, b.end)

  // The tools as the round sees them: which calls may run side by side, which tool
  // an invoke call names, what a call yields given all that happened before it
  // finished, and which call of a batch finishes when.
  datatype Tools = Tools(
    safe: ToolCall -> bool,
    target: ToolCall -> Option<string>,
    execute: (seq<Event>, nat) -> Execution,
    finishOrder: FinishOrder)

  function Range(from: nat, end: nat): (r: seq<nat>)
    ensures |r| == if end <= from then 0 else end - from
    ensures forall k :: 0 <= k < |r| ==> r[k] == from + k
    ensures forall i: nat :: i in r <==> from <= i < end
  {
    var r := seq(if end <= from then 0 else end - from, k requires 0 <= k => from + k);
    RangeHas(r, from, end);
    r
  }

  lemma RangeHas(r: seq<nat>, from: nat, end: nat)
    requires |r| == (if end <= from then 0 else end - from) && forall k :: 0 <= k < |r| ==> r[k] == from + k
    ensures forall i: nat :: i in r <==> from <= i < end
  {
    forall i: nat | from <= i < end ensures i in r { assert r[i - from] == i; }
  }

  ghost predicate IsOrder(order: seq<nat>, b: Batch) {
    Distinct(order) && forall i: nat :: i in order <==> Within(b, i)
  }

  predicate Within(b: Batch, i: nat) {
    b.start <= i < b.end
  }

  // --- batching -------------------------------------------------------------

  // The end of the run of parallel-safe calls that begins at `from`.
  function SafeRunEnd(calls: seq<ToolCall>, safe: ToolCall -> bool, from: nat): (end: nat)
    requires from <= |calls|
    ensures from <= end <= |calls|
    ensures forall i :: from <= i < end ==> safe(calls[i])
    ensures end < |calls| ==> !safe(calls[end])
    decreases |calls| - from
  {
    if from < |calls| && safe(calls[from]) then SafeRunEnd(calls, safe, from + 1) else from
  }

  function BatchAt(calls: seq<ToolCall>, safe: ToolCall -> bool, cursor: nat): (b: Batch)
    requires cursor < |calls|
    ensures b.start == cursor < b.end <= |calls|
  {
    if safe(calls[cursor]) then
      assert SafeRunEnd(calls, safe, cursor) == SafeRunEnd(calls, safe, cursor + 1);
      Batch(cursor, SafeRunEnd(calls, safe, cursor))
    else Batch(cursor, cursor + 1)
  }

  function Batches(calls: seq<ToolCall>, safe: ToolCall -> bool, cursor: nat): seq<Batch>
    requires cursor <= |calls|
    decreases |calls| - cursor
  {
    if cursor == |calls| then []
    else [BatchAt(calls, safe, cursor)] + Batches(calls, safe, BatchAt(calls, safe, cursor).end)
  }

  // The batches follow one another without gap or overlap from `from` to `to`.
  ghost predicate Tiles(batches: seq<Batch>, from: nat, to: nat) {
    if batches == [] then from == to
    else batches[0].start == from < batches[0].end && Tiles(batches[1..], batches[0].end, to)
  }

  // A batch is one call, or a run of parallel-safe calls that could not be longer.
  ghost predicate Allowed(calls: seq<ToolCall>, safe: ToolCall -> bool, b: Batch) {
    && b.start < b.end <= |calls|
    && (b.end == b.start + 1 || forall i :: b.start <= i < b.end ==> safe(calls[i]))
    && (safe(calls[b.start]) && b.end < |calls| ==> !safe(calls[b.end]))
  }

  lemma {:induction false} BatchesTile(calls: seq<ToolCall>, safe: ToolCall -> bool, cursor: nat)
    requires cursor <= |calls|
    ensures var batches := Batches(calls, safe, cursor);
      Tiles(batches, cursor, |calls|) && forall k :: 0 <= k < |batches| ==> Allowed(calls, safe, batches[k])
    decreases |calls| - cursor
  {
    if cursor < |calls| {
      var b := BatchAt(calls, safe, cursor);
      BatchesTile(calls, safe, b.end);
      assert Allowed(calls, safe, b);
    }
  }

  // --- concurrency ----------------------------------------------------------

  function Running(events: seq<Event>): set<nat> {
    if events == [] then {}
    else
      match events[|events| - 1]
      case Started(i) => Running(events[..|events| - 1]) + {i}
      case Finished(i) => Running(events[..|events| - 1]) - {i}
  }

  function Starts(from: nat, to: nat): (events: seq<Event>)
    ensures |events| == if to <= from then 0 else to - from
    ensures forall k :: 0 <= k < |events| ==> events[k] == Started(from + k)
  {
    seq(if to <= from then 0 else to - from, k requires 0 <= k => Started(from + k))
  }

  function Ends(order: seq<nat>): (events: seq<Event>)
    ensures |events| == |order| && forall k :: 0 <= k < |events| ==> events[k] == Finished(order[k])
  {
    seq(|order|, k requires 0 <= k < |order| => Finished(order[k]))
  }

  // Each call of a batch is started once, in call order; then each finishes once,
  // in any order.
  ghost predicate BatchTrace(events: seq<Event>, b: Batch) {
    exists order :: IsOrder(order, b) && events == Starts(b.start, b.end) + Ends(order)
  }

  // The next batch waits for the whole one before it.
  ghost predicate RoundTrace(traces: seq<seq<Event>>, batches: seq<Batch>) {
    |traces| == |batches| && forall k :: 0 <= k < |batches| ==> BatchTrace(traces[k], batches[k])
  }

  // The call is finished, and not started again after that.
  ghost predicate Finishes(events: seq<Event>, i: nat) {
    exists k :: 0 <= k < |events| && FinishesAt(events, i, k)
  }

  ghost predicate FinishesAt(events: seq<Event>, i: nat, k: nat)
    requires k < |events|
  {
    events[k] == Finished(i) && forall j :: k < j < |events| ==> events[j] != Started(i)
  }

  lemma TraceFacts(events: seq<Event>, b: Batch)
    requires BatchTrace(events, b)
    ensures forall k :: 0 <= k < |events| ==> Within(b, events[k].call)
    ensures forall i: nat :: Within(b, i) ==> Finishes(events, i)
  {
    var order :| IsOrder(order, b) && events == Starts(b.start, b.end) + Ends(order);
    var started := |Starts(b.start, b.end)|;
    forall k | 0 <= k < |events| ensures Within(b, events[k].call) {
      if k >= started { assert order[k - started] in order; }
    }
    forall i: nat | Within(b, i) ensures Finishes(events, i) {
      var p :| 0 <= p < |order| && order[p] == i;
      assert FinishesAt(events, i, started + p);
    }
  }

  lemma {:induction false} RunningWithin(before: seq<Event>, events: seq<Event>, b: Batch)
    requires Running(before) == {} && forall k :: 0 <= k < |events| ==> Within(b, events[k].call)
    ensures forall i :: i in Running(before + events) ==> Within(b, i)
  {
    if events == [] {
      assert before + events == before;
    } else {
      var n := |events| - 1;
      assert (before + events)[..|before + events| - 1] == before + events[..n];
      RunningWithin(before, events[..n], b);
    }
  }

  lemma {:induction false} NotRunning(before: seq<Event>, events: seq<Event>, i: nat)
    requires Finishes(events, i)
    ensures i !in Running(before + events)
  {
    var n := |events| - 1;
    assert (before + events)[..|before + events| - 1] == before + events[..n];
    if events[n] != Finished(i) {
      var k :| 0 <= k < |events| && FinishesAt(events, i, k);
      assert FinishesAt(events[..n], i, k);
      assert Finishes(events[..n], i);
      NotRunning(before, events[..n], i);
    }
  }

  // After whole batches nothing is running.
  lemma {:induction false} QuietBetween(traces: seq<seq<Event>>, batches: seq<Batch>)
    requires RoundTrace(traces, batches)
    ensures Running(Flatten(traces)) == {}
  {
    if traces != [] {
      var n := |traces| - 1;
      QuietBetween(traces[..n], batches[..n]);
      TraceFacts(traces[n], batches[n]);
      RunningWithin(Flatten(traces[..n]), traces[n], batches[n]);
      forall i: nat | Within(batches[n], i) ensures i !in Running(Flatten(traces)) {
        NotRunning(Flatten(traces[..n]), traces[n], i);
      }
    }
  }

  // At any moment, only calls of one batch are running.
  lemma RunningInBatch(traces: seq<seq<Event>>, batches: seq<Batch>, k: nat, n: nat)
    requires RoundTrace(traces, batches) && k < |traces| && n <= |traces[k]|
    ensures forall i :: i in Running(Flatten(traces[..k]) + traces[k][..n]) ==> Within(batches[k], i)
  {
    QuietBetween(traces[..k], batches[..k]);
    TraceFacts(traces[k], batches[k]);
    RunningWithin(Flatten(traces[..k]), traces[k][..n], batches[k]);
  }

  lemma AloneInBatch(calls: seq<ToolCall>, safe: ToolCall -> bool, b: Batch, running: set<nat>, i: nat)
    requires Allowed(calls, safe, b) && (forall j :: j in running ==> Within(b, j))
    requires i < |calls| && !safe(calls[i]) && i in running
    ensures running == {i}
  {
    assert Within(b, i);
    assert b.end == b.start + 1;
    forall j | j in running ensures j == i { assert Within(b, j); }
  }

  // At no moment of a round does an exclusive call run beside another call.
  lemma ExclusiveRunsAlone(calls: seq<ToolCall>, safe: ToolCall -> bool, traces: seq<seq<Event>>, k: nat, n: nat,
                           i: nat)
    requires RoundTrace(traces, Batches(calls, safe, 0)) && k < |traces| && n <= |traces[k]|
    requires i < |calls| && !safe(calls[i])
    ensures var running := Running(Flatten(traces[..k]) + traces[k][..n]); i in running ==> running == {i}
  {
    var running := Running(Flatten(traces[..k]) + traces[k][..n]);
    BatchesTile(calls, safe, 0);
    RunningInBatch(traces, Batches(calls, safe, 0), k, n);
    if i in running { AloneInBatch(calls, safe, Batches(calls, safe, 0)[k], running, i); }
  }

  // --- every call runs once -------------------------------------------------

  function StartedCalls(events: seq<Event>): seq<nat> {
    if events == [] then []
    else
      var last := events[|events| - 1];
      StartedCalls(events[..|events| - 1]) + (if last.Started? then [last.call] else [])
  }

  function FinishedCalls(events: seq<Event>): seq<nat> {
    if events == [] then []
    else
      var last := events[|events| - 1];
      FinishedCalls(events[..|events| - 1]) + (if last.Finished? then [last.call] else [])
  }

  lemma {:induction false} CallsConcat(a: seq<Event>, b: seq<Event>)
    ensures StartedCalls(a + b) == StartedCalls(a) + StartedCalls(b)
    ensures FinishedCalls(a + b) == FinishedCalls(a) + FinishedCalls(b)
  {
    if b == [] {
      assert a + b == a;
    } else {
      assert (a + b)[..|a + b| - 1] == a + b[..|b| - 1];
      CallsConcat(a, b[..|b| - 1]);
    }
  }

  lemma {:induction false} StartsCalls(from: nat, end: nat)
    ensures StartedCalls(Starts(from, end)) == Range(from, end) && FinishedCalls(Starts(from, end)) == []
    decreases end
  {
    if from < end {
      StartsCalls(from, end - 1);
      assert Starts(from, end)[..|Starts(from, end)| - 1] == Starts(from, end - 1);
    }
  }

  lemma {:induction false} EndsCalls(order: seq<nat>)
    ensures StartedCalls(Ends(order)) == [] && FinishedCalls(Ends(order)) == order
  {
    if order != [] {
      var n := |order| - 1;
      EndsCalls(order[..n]);
      assert Ends(order)[..n] == Ends(order[..n]);
    }
  }

  lemma TraceCalls(events: seq<Event>, b: Batch)
    requires BatchTrace(events, b)
    ensures StartedCalls(events) == Range(b.start, b.end) && IsOrder(FinishedCalls(events), b)
  {
    var order :| IsOrder(order, b) && events == Starts(b.start, b.end) + Ends(order);
    CallsConcat(Starts(b.start, b.end), Ends(order));
    StartsCalls(b.start, b.end);
    EndsCalls(order);
    assert Range(b.start, b.end) + [] == Range(b.start, b.end) && [] + order == order;
  }

  lemma RangeConcat(from: nat, mid: nat, end: nat)
    requires from <= mid <= end
    ensures Range(from, mid) + Range(mid, end) == Range(from, end)
  {
  }

  // Where batch k ends, the next one starts.
  lemma {:induction false} TilesNext(batches: seq<Batch>, from: nat, to: nat, k: nat)
    requires Tiles(batches, from, to) && k < |batches|
    ensures batches[0].start == from <= batches[k].start < batches[k].end <= to
    ensures batches[k].end == if k + 1 < |batches| then batches[k + 1].start else to
  {
    if k > 0 {
      TilesNext(batches[1..], batches[0].end, to, k - 1);
    } else if |batches| > 1 {
      TilesNext(batches[1..], batches[0].end, to, 0);
    } else {
      assert batches[1..] == [];
    }
  }

  // Up to batch k, every call before it has started and finished once.
  lemma {:induction false} RunsUpTo(traces: seq<seq<Event>>, batches: seq<Batch>, to: nat, k: nat)
    requires RoundTrace(traces, batches) && Tiles(batches, 0, to) && k <= |batches|
    ensures var all, upTo := Flatten(traces[..k]), if k < |batches| then batches[k].start else to;
      StartedCalls(all) == Range(0, upTo) && IsOrder(FinishedCalls(all), Batch(0, upTo))
  {
    if k == 0 {
      if batches != [] { TilesNext(batches, 0, to, 0); }
    } else {
      var b := batches[k - 1];
      RunsUpTo(traces, batches, to, k - 1);
      TilesNext(batches, 0, to, k - 1);
      assert traces[..k][..k - 1] == traces[..k - 1];
      CallsConcat(Flatten(traces[..k - 1]), traces[k - 1]);
      TraceCalls(traces[k - 1], b);
      RangeConcat(0, b.start, b.end);
      OrdersJoin(FinishedCalls(Flatten(traces[..k - 1])), FinishedCalls(traces[k - 1]), b.start, b.end);
    }
  }

  lemma OrdersJoin(front: seq<nat>, back: seq<nat>, mid: nat, to: nat)
    requires IsOrder(front, Batch(0, mid)) && IsOrder(back, Batch(mid, to)) && mid <= to
    ensures IsOrder(front + back, Batch(0, to))
  {
    forall i, j | 0 <= i < |front| && 0 <= j < |back| ensures front[i] != back[j] {
      assert front[i] in front && back[j] in back;
    }
    DistinctConcat(front, back);
  }

  lemma RunsOnce(traces: seq<seq<Event>>, batches: seq<Batch>, count: nat)
    requires RoundTrace(traces, batches) && Tiles(batches, 0, count)
    ensures StartedCalls(Flatten(traces)) == Range(0, count)
    ensures IsOrder(FinishedCalls(Flatten(traces)), Batch(0, count))
  {
    RunsUpTo(traces, batches, count, |batches|);
    assert traces[..|batches|] == traces;
  }

  // Over a round every call is started exactly once, in call order, and finished
  // exactly once.
  lemma EachRunsOnce(calls: seq<ToolCall>, safe: ToolCall -> bool, traces: seq<seq<Event>>)
    requires RoundTrace(traces, Batches(calls, safe, 0))
    ensures StartedCalls(Flatten(traces)) == Range(0, |calls|)
    ensures IsOrder(FinishedCalls(Flatten(traces)), Batch(0, |calls|))
  {
    BatchesTile(calls, safe, 0);
    RunsOnce(traces, Batches(calls, safe, 0), |calls|);
  }

  // Every call belongs to one batch, and to one only.
  lemma {:induction false} OneBatchEach(batches: seq<Batch>, from: nat, to: nat, i: nat) returns (k: nat)
    requires Tiles(batches, from, to) && from <= i < to
    ensures k < |batches| && Within(batches[k], i)
    ensures forall j :: 0 <= j < |batches| && j != k ==> !Within(batches[j], i)
  {
    if i < batches[0].end {
      k := 0;
      forall j | 0 < j < |batches| ensures !Within(batches[j], i) {
        TilesNext(batches[1..], batches[0].end, to, j - 1);
      }
    } else {
      k := OneBatchEach(batches[1..], batches[0].end, to, i);
      forall j | 0 <= j < |batches| && j != k + 1 ensures !Within(batches[j], i) {
        if j > 0 { assert batches[j] == batches[1..][j - 1]; }
      }
      k := k + 1;
    }
  }

  // --- the round ------------------------------------------------------------

  function Settled(execution: Execution): Answer {
    match execution
    case Returned(answer) => answer
    case Thrown(report) => Answer(ToolContent(report, true), [], None)
  }

  // The call invoke stands for is the one its arguments name.
  function EffectiveToolName(tools: Tools, call: ToolCall): string {
    if call.name != "invoke" then call.name
    else
      match tools.target(call)
      case None => call.name
      case Some(target) => if Blank(target) then call.name else target
  }

  function NonEmpty(text: Option<string>): Option<string> {
    if text == Some("") then None else text
  }

  const MAX_CONTINUATION_DETAIL := 1_000

  function OutcomeOf(tools: Tools, call: ToolCall, answer: Answer): Outcome {
    match answer.outcome
    case None =>
      Outcome(call.id, call.name, EffectiveToolName(tools, call), true, None, true, None, None, None)
    case Some(o) =>
      var detail :=
        if o.continuation.None? || NonEmpty(o.continuationDetail).None? then None
        else Some(Clamp(o.continuationDetail.value, 0, MAX_CONTINUATION_DETAIL));
      Outcome(call.id, call.name, EffectiveToolName(tools, call), o.ok, NonEmpty(o.code),
              if o.progress.Some? then o.progress.value else o.ok, o.continuation, detail, NonEmpty(o.noveltyKey))
  }

  // The results of the calls answered so far.
  function ResultMessages(calls: seq<ToolCall>, answers: seq<Answer>): (ms: seq<Message>)
    requires |answers| <= |calls|
    ensures |ms| == |answers| && forall i :: 0 <= i < |answers| ==> ms[i] == Tool(calls[i].id, answers[i].content)
  {
    seq(|answers|, i requires 0 <= i < |answers| => Tool(calls[i].id, answers[i].content))
  }

  function EffectsOf(tools: Tools, call: ToolCall, answer: Answer): seq<Effect> {
    seq(|answer.effects|,
        i requires 0 <= i < |answer.effects| => Effect(call.id, EffectiveToolName(tools, call), answer.effects[i]))
  }

  function AllEffects(tools: Tools, calls: seq<ToolCall>, answers: seq<Answer>, count: nat): seq<Effect>
    requires count <= |answers| <= |calls|
  {
    if count == 0 then []
    else AllEffects(tools, calls, answers, count - 1) + EffectsOf(tools, calls[count - 1], answers[count - 1])
  }

  function Outcomes(tools: Tools, calls: seq<ToolCall>, answers: seq<Answer>): (outcomes: seq<Outcome>)
    requires |answers| <= |calls|
    ensures |outcomes| == |answers|
    ensures forall i :: 0 <= i < |answers| ==> outcomes[i] == OutcomeOf(tools, calls[i], answers[i])
  {
    seq(|answers|, i requires 0 <= i < |answers| => OutcomeOf(tools, calls[i], answers[i]))
  }

  // What the p-th call of a batch to finish answers, given all that happened before it did.
  function AnswerOf(tools: Tools, b: Batch, history: seq<Event>, p: nat): Answer
    requires p < |tools.finishOrder(b)|
  {
    var order := tools.finishOrder(b);
    Settled(tools.execute(history + Starts(b.start, b.end) + Ends(order[..p]), order[p]))
  }

  ghost predicate Answered(tools: Tools, b: Batch, history: seq<Event>, answers: seq<Answer>) {
    var order := tools.finishOrder(b);
    && b.end <= |answers|
    && forall p :: 0 <= p < |order| ==> order[p] < |answers| && answers[order[p]] == AnswerOf(tools, b, history, p)
  }

  // The first calls of a batch to finish have their results, which stand in call order.
  ghost predicate ResultsUpTo(tools: Tools, b: Batch, history: seq<Event>, results: seq<Answer>, count: nat)
    requires b.start <= b.end && |results| == b.end - b.start
  {
    var order := tools.finishOrder(b);
    && count <= |order|
    && forall p :: 0 <= p < count ==>
         Within(b, order[p]) && results[order[p] - b.start] == AnswerOf(tools, b, history, p)
  }

  ghost predicate AllAnswered(tools: Tools, batches: seq<Batch>, traces: seq<seq<Event>>, answers: seq<Answer>) {
    && |traces| == |batches|
    && forall k :: 0 <= k < |batches| ==> Answered(tools, batches[k], Flatten(traces[..k]), answers)
  }

  method TakeParallelSafeBatch(calls: seq<ToolCall>, safe: ToolCall -> bool, start: nat) returns (end: nat)
    requires start <= |calls|
    ensures end == SafeRunEnd(calls, safe, start)
  {
    end := start;
    while end < |calls| && safe(calls[end])
      invariant start <= end <= |calls|
      invariant SafeRunEnd(calls, safe, start) == SafeRunEnd(calls, safe, end)
    {
      end := end + 1;
    }
  }

  // Starts every call of a batch, and waits for all of them.
  method ExecuteBatch(tools: Tools, b: Batch, history: seq<Event>) returns (results: seq<Answer>, trace: seq<Event>)
    requires b.start < b.end
    ensures trace == Starts(b.start, b.end) + Ends(tools.finishOrder(b))
    ensures |results| == b.end - b.start && ResultsUpTo(tools, b, history, results, |tools.finishOrder(b)|)
  {
    trace, results := [], seq(b.end - b.start, _ => Answer(ToolContent("", false), [], None));
    for call := b.start to b.end
      invariant trace == Starts(b.start, call)
    {
      trace := trace + [Started(call)];
    }
    var order := tools.finishOrder(b);
    for p := 0 to |order|
      invariant trace == Starts(b.start, b.end) + Ends(order[..p])
      invariant |results| == b.end - b.start && ResultsUpTo(tools, b, history, results, p)
    {
      assert history + Starts(b.start, b.end) + Ends(order[..p]) == history + trace;
      var settled := Settled(tools.execute(history + trace, order[p]));
      OneMoreResult(tools, b, history, results, p);
      results := results[order[p] - b.start := settled];
      trace := trace + [Finished(order[p])];
    }
    assert order[..|order|] == order;
  }

  lemma OneMoreResult(tools: Tools, b: Batch, history: seq<Event>, results: seq<Answer>, p: nat)
    requires b.start < b.end && |results| == b.end - b.start
    requires p < |tools.finishOrder(b)| && ResultsUpTo(tools, b, history, results, p)
    ensures var order := tools.finishOrder(b);
      && Within(b, order[p])
      && ResultsUpTo(tools, b, history, results[order[p] - b.start := AnswerOf(tools, b, history, p)], p + 1)
      && Ends(order[..p + 1]) == Ends(order[..p]) + [Finished(order[p])]
  {
    var order := tools.finishOrder(b);
    assert order[p] in order && IsOrder(order, b);
    forall q | 0 <= q < p ensures Within(b, order[q]) && order[q] != order[p] {}
    assert order[..p + 1] == order[..p] + [order[p]];
  }

  // What the round has collected so far.
  datatype Collection = Collection(
    answers: seq<Answer>,
    messages: seq<Message>,
    effects: seq<Effect>,
    outcomes: seq<Outcome>)

  ghost predicate Collected(tools: Tools, calls: seq<ToolCall>, c: Collection) {
    && |c.answers| <= |calls|
    && c.messages == ResultMessages(calls, c.answers)
    && c.effects == AllEffects(tools, calls, c.answers, |c.answers|)
    && c.outcomes == Outcomes(tools, calls, c.answers)
  }

  method CollectOne(tools: Tools, calls: seq<ToolCall>, c: Collection, answer: Answer) returns (next: Collection)
    requires |c.answers| < |calls| && Collected(tools, calls, c)
    ensures Collected(tools, calls, next) && next.answers == c.answers + [answer]
  {
    var call := calls[|c.answers|];
    SameEffects(tools, calls, c.answers, answer, |c.answers|);
    next := Collection(c.answers + [answer],
                       c.messages + [Tool(call.id, answer.content)],
                       c.effects + EffectsOf(tools, call, answer),
                       c.outcomes + [OutcomeOf(tools, call, answer)]);
  }

  lemma {:induction false} SameEffects(tools: Tools, calls: seq<ToolCall>, answers: seq<Answer>, answer: Answer,
                                       count: nat)
    requires count <= |answers| < |calls|
    ensures AllEffects(tools, calls, answers + [answer], count) == AllEffects(tools, calls, answers, count)
  {
    if count > 0 { SameEffects(tools, calls, answers, answer, count - 1); }
  }

  lemma SnocSlice<T>(front: seq<T>, s: seq<T>, n: nat)
    requires n < |s|
    ensures front + s[..n + 1] == (front + s[..n]) + [s[n]]
  {
  }

  // Adds what the calls of one batch answered, in call order.
  method CollectBatch(tools: Tools, calls: seq<ToolCall>, b: Batch, results: seq<Answer>, before: Collection)
    returns (c: Collection)
    requires b.start == |before.answers| <= b.end <= |calls| && |results| == b.end - b.start
    requires Collected(tools, calls, before)
    ensures Collected(tools, calls, c) && c.answers == before.answers + results
  {
    c := before;
    for index := 0 to |results|
      invariant Collected(tools, calls, c) && c.answers == before.answers + results[..index]
    {
      SnocSlice(before.answers, results, index);
      c := CollectOne(tools, calls, c, results[index]);
    }
    assert results[..|results|] == results;
  }

  // Executes the calls batch by batch; the assistant's own text is dropped.
  method RunToolCalls(tools: Tools, calls: seq<ToolCall>, nativeBlocks: Option<string>)
    returns (messagesToAppend: seq<Message>, effects: seq<Effect>, toolOutcomes: seq<Outcome>,
             answers: seq<Answer>, traces: seq<seq<Event>>)
    ensures RoundTrace(traces, Batches(calls, tools.safe, 0))
    ensures |answers| == |calls| && AllAnswered(tools, Batches(calls, tools.safe, 0), traces, answers)
    ensures messagesToAppend == if calls == [] then [] else RoundMessages(calls, nativeBlocks, answers)
    ensures effects == AllEffects(tools, calls, answers, |calls|)
    ensures toolOutcomes == Outcomes(tools, calls, answers)
  {
    messagesToAppend := if |calls| > 0 then [Assistant("", calls, nativeBlocks)] else [];
    var c := Collection([], [], [], []);
    ghost var batches: seq<Batch> := [];
    var cursor := 0;
    traces := [];
    while cursor < |calls|
      invariant cursor == |c.answers| <= |calls| && Collected(tools, calls, c)
      invariant batches + Batches(calls, tools.safe, cursor) == Batches(calls, tools.safe, 0)
      invariant RoundTrace(traces, batches) && AllAnswered(tools, batches, traces, c.answers)
    {
      var end := cursor + 1;
      if tools.safe(calls[cursor]) { end := TakeParallelSafeBatch(calls, tools.safe, cursor); }
      var batch := Batch(cursor, end);
      NextBatch(calls, tools.safe, cursor, end, batches);
      var results, trace := ExecuteBatch(tools, batch, Flatten(traces));
      var next := CollectBatch(tools, calls, batch, results, c);
      MoreAnswered(tools, batches, traces, c.answers, batch, results, trace);
      c, traces, batches := next, traces + [trace], batches + [batch];
      cursor := end;
    }
    assert batches + [] == batches;
    answers, effects, toolOutcomes := c.answers, c.effects, c.outcomes;
    messagesToAppend := messagesToAppend + c.messages;
  }

  lemma StillAnswered(tools: Tools, b: Batch, history: seq<Event>, answers: seq<Answer>, results: seq<Answer>)
    requires Answered(tools, b, history, answers)
    ensures Answered(tools, b, history, answers + results)
  {
  }

  lemma NowAnswered(tools: Tools, b: Batch, history: seq<Event>, answers: seq<Answer>, results: seq<Answer>)
    requires b.start == |answers| < b.end && |results| == b.end - b.start
    requires ResultsUpTo(tools, b, history, results, |tools.finishOrder(b)|)
    ensures Answered(tools, b, history, answers + results)
  {
  }

  lemma MoreAnswered(tools: Tools, batches: seq<Batch>, traces: seq<seq<Event>>, answers: seq<Answer>,
                     b: Batch, results: seq<Answer>, trace: seq<Event>)
    requires RoundTrace(traces, batches) && AllAnswered(tools, batches, traces, answers)
    requires b.start == |answers| < b.end && |results| == b.end - b.start
    requires trace == Starts(b.start, b.end) + Ends(tools.finishOrder(b))
    requires ResultsUpTo(tools, b, Flatten(traces), results, |tools.finishOrder(b)|)
    ensures RoundTrace(traces + [trace], batches + [b])
    ensures AllAnswered(tools, batches + [b], traces + [trace], answers + results)
  {
    var allBatches, allTraces := batches + [b], traces + [trace];
    assert BatchTrace(trace, b) by { assert IsOrder(tools.finishOrder(b), b); }
    NowAnswered(tools, b, Flatten(traces), answers, results);
    forall k | 0 <= k < |allBatches|
      ensures Answered(tools, allBatches[k], Flatten(allTraces[..k]), answers + results)
    {
      if k < |batches| {
        StillAnswered(tools, batches[k], Flatten(traces[..k]), answers, results);
        assert allTraces[..k] == traces[..k];
      } else {
        assert allTraces[..k] == traces;
      }
    }
  }

  lemma NextBatch(calls: seq<ToolCall>, safe: ToolCall -> bool, cursor: nat, end: nat, batches: seq<Batch>)
    requires cursor < |calls| && end == if safe(calls[cursor]) then SafeRunEnd(calls, safe, cursor) else cursor + 1
    ensures cursor < end <= |calls|
    ensures batches + Batches(calls, safe, cursor) == (batches + [Batch(cursor, end)]) + Batches(calls, safe, end)
  {
    assert BatchAt(calls, safe, cursor) == Batch(cursor, end);
  }

  function RoundMessages(calls: seq<ToolCall>, nativeBlocks: Option<string>, answers: seq<Answer>): seq<Message>
    requires |answers| == |calls|
  {
    [Assistant("", calls, nativeBlocks)] + ResultMessages(calls, answers)
  }

  lemma ResultFields(calls: seq<ToolCall>, answers: seq<Answer>)
    requires |answers| <= |calls|
    ensures var results := ResultMessages(calls, answers);
      (forall i :: 0 <= i < |results| ==> CallFieldsOk(results[i]))
      <==> forall i :: 0 <= i < |answers| ==> ContentOk(answers[i].content)
  {
    var results := ResultMessages(calls, answers);
    forall i | 0 <= i < |answers| ensures CallFieldsOk(results[i]) <==> ContentOk(answers[i].content) {
      assert results[i] == Tool(calls[i].id, answers[i].content);
    }
  }

  lemma UnitFields(head: Message, results: seq<Message>)
    requires head.Assistant?
    ensures (forall i :: 0 <= i < |[head] + results| ==> CallFieldsOk(([head] + results)[i]))
        <==> FieldsOk(head) && forall i :: 0 <= i < |results| ==> CallFieldsOk(results[i])
  {
    var unit := [head] + results;
    assert unit[0] == head && CallFieldsOk(head) <==> FieldsOk(head);
    forall i | 0 <= i < |results| ensures unit[1 + i] == results[i] {}
  }

  // What a round appends is one complete unit with the results in call order, so a
  // well-formed context stays well formed exactly when the call ids and names are
  // usable, new, and different from one another, and results that open like JSON are JSON.
  lemma RoundIsUnit(context: seq<Message>, calls: seq<ToolCall>, nativeBlocks: Option<string>, answers: seq<Answer>)
    requires |answers| == |calls| > 0 && WellFormed(context)
    ensures var unit := RoundMessages(calls, nativeBlocks, answers);
      && IsUnit(unit)
      && (WellFormed(context + unit) <==>
            && FieldsOk(unit[0]) && Distinct(CallIds(calls)) && Disjoint(AllCallIds(context), CallIds(calls))
            && forall i :: 0 <= i < |answers| ==> ContentOk(answers[i].content))
  {
    var unit := RoundMessages(calls, nativeBlocks, answers);
    UnitFields(unit[0], ResultMessages(calls, answers));
    ResultFields(calls, answers);
    UnitGrammar(unit);
    UnitCallIds(unit);
    WellFormedConcat(context, unit);
  }
}
