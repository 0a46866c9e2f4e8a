// The independent recogniser of the tool-call grammar: one pass that collects
// errors and skips over the results it has already matched.
module SnapshotIntegrity {
  import opened Prelude
  import opened Text
  import opened Messages
  import opened AtomicUnits

  datatype IntegrityError =
    | BlankCallId(index: nat, offset: nat)
    | BlankCallName(index: nat, offset: nat)
    | DuplicateCallId(index: nat, callId: string)
    | MissingResult(index: nat, callId: string)
    | DuplicateResult(index: nat, callId: string)
    | BlankResultId(index: nat)
    | OrphanResult(index: nat, callId: string)
    | NonAdjacentResult(index: nat, callId: string)
    | BadResultJson(index: nat)

  predicate CallFieldsOk(m: Message) {
    (m.Assistant? ==> FieldsOk(m)) && (m.Tool? ==> ContentOk(m.result))
  }

  // What an accepted message sequence is: whole units, call ids never reused,
  // ids and names that do not trim to nothing, readable results.
  ghost predicate WellFormed(ms: seq<Message>) {
    && Grammar(ms)
    && Distinct(AllCallIds(ms))
    && forall i :: 0 <= i < |ms| ==> CallFieldsOk(ms[i])
  }

  lemma WellFormedConcat(a: seq<Message>, b: seq<Message>)
    requires WellFormed(a)
    ensures WellFormed(a + b) <==> WellFormed(b) && Disjoint(AllCallIds(a), AllCallIds(b))
  {
    GrammarConcat(a, b);
    AllCallIdsConcat(a, b);
    DistinctConcat(AllCallIds(a), AllCallIds(b));
    forall i | 0 <= i < |b| ensures (a + b)[|a| + i] == b[i] {}
  }

  // An accepted sequence may be cut before any message that is not a tool result.
  lemma WellFormedCut(ms: seq<Message>, k: nat)
    requires WellFormed(ms) && k <= |ms| && (k < |ms| ==> !ms[k].Tool?)
    ensures WellFormed(ms[..k]) && WellFormed(ms[k..])
    ensures Disjoint(AllCallIds(ms[..k]), AllCallIds(ms[k..]))
  {
    if k < |ms| { GrammarCut(ms, k); } else { assert ms[..k] == ms && ms[k..] == []; }
    assert ms == ms[..k] + ms[k..];
    AllCallIdsConcat(ms[..k], ms[k..]);
    DistinctConcat(AllCallIds(ms[..k]), AllCallIds(ms[k..]));
  }

  // The result that belongs to a call, and it can be read.
  predicate Answered(m: Message, call: ToolCall) {
    Answers(m, call) && ContentOk(m.result)
  }

  // The first n calls of the assistant message at index are new, named and answered.
  ghost predicate CallsMatched(messages: seq<Message>, index: nat, n: nat, seen: set<string>)
    requires index < |messages| && messages[index].Assistant? && n <= |messages[index].toolCalls|
  {
    var calls := messages[index].toolCalls;
    && Distinct(CallIds(calls)[..n])
    && forall k :: 0 <= k < n ==>
         && !Blank(calls[k].id) && !Blank(calls[k].name) && calls[k].id !in seen
         && index + 1 + k < |messages| && Answered(messages[index + 1 + k], calls[k])
  }

  lemma CallsMatchedStep(messages: seq<Message>, index: nat, n: nat, seen: set<string>)
    requires index < |messages| && messages[index].Assistant? && n < |messages[index].toolCalls|
    ensures var call := messages[index].toolCalls[n];
      CallsMatched(messages, index, n + 1, seen) <==>
        && CallsMatched(messages, index, n, seen)
        && !Blank(call.id) && !Blank(call.name) && call.id !in seen
        && call.id !in CallIds(messages[index].toolCalls)[..n]
        && index + 1 + n < |messages| && Answered(messages[index + 1 + n], call)
  {
    var ids := CallIds(messages[index].toolCalls);
    assert ids[..n + 1] == ids[..n] + [ids[n]];
    DistinctConcat(ids[..n], [ids[n]]);
  }

  lemma OneMoreId(front: seq<string>, id: string, ids: seq<string>)
    requires ids == front + [id]
    ensures (set x | x in ids) == (set x | x in front) + {id}
  {
  }

  // The message that should hold the result of a call.
  method ValidateResult(messages: seq<Message>, toolIndex: nat, call: ToolCall, consumed: set<string>)
    returns (errors: seq<IntegrityError>, consumedToolResultIds: set<string>)
    ensures errors == [] <==>
              toolIndex < |messages| && Answered(messages[toolIndex], call) && call.id !in consumed
    ensures consumedToolResultIds <= consumed + {call.id}
  {
    if |messages| <= toolIndex || !Answers(messages[toolIndex], call) {
      return [MissingResult(toolIndex, call.id)], consumed;
    }
    if call.id in consumed { return [DuplicateResult(toolIndex, call.id)], consumed; }
    errors := if ContentOk(messages[toolIndex].result) then [] else [BadResultJson(toolIndex)];
    return errors, consumed + {call.id};
  }

  // A result that stands behind no call of its own.
  method ReportStray(index: nat, toolCallId: string, result: ToolContent, expected: set<string>, consumed: set<string>)
    returns (errors: seq<IntegrityError>, consumedToolResultIds: set<string>)
    requires consumed <= expected
    ensures errors != [] && consumedToolResultIds <= expected
  {
    consumedToolResultIds := consumed;
    if Blank(toolCallId) {
      errors := [BlankResultId(index)];
    } else if toolCallId !in expected {
      errors := [OrphanResult(index, toolCallId)];
    } else if toolCallId in consumed {
      errors := [DuplicateResult(index, toolCallId)];
    } else {
      errors := [NonAdjacentResult(index, toolCallId)];
      consumedToolResultIds := consumed + {toolCallId};
    }
    if !ContentOk(result) { errors := errors + [BadResultJson(index)]; }
  }

  // The calls of one assistant message against the results that follow it.
  method ValidateCalls(messages: seq<Message>, index: nat, seen: set<string>, consumed: set<string>)
    returns (errors: seq<IntegrityError>, expectedToolCallIds: set<string>, consumedToolResultIds: set<string>)
    requires index < |messages| && messages[index].Assistant? && consumed <= seen
    ensures errors == [] <==> CallsMatched(messages, index, |messages[index].toolCalls|, seen)
    ensures errors == [] ==> expectedToolCallIds == seen + (set id | id in CallIds(messages[index].toolCalls))
    ensures consumedToolResultIds <= expectedToolCallIds
  {
    errors, expectedToolCallIds, consumedToolResultIds := [], seen, consumed;
    var toolCalls := messages[index].toolCalls;
    ghost var ids := CallIds(toolCalls);
    for offset := 0 to |toolCalls|
      invariant errors == [] <==> CallsMatched(messages, index, offset, seen)
      invariant errors == [] ==> expectedToolCallIds == seen + (set id | id in ids[..offset])
      invariant consumedToolResultIds <= expectedToolCallIds
    {
      var call := toolCalls[offset];
      CallsMatchedStep(messages, index, offset, seen);
      OneMoreId(ids[..offset], call.id, ids[..offset + 1]);
      if Blank(call.id) {
        errors := errors + [BlankCallId(index, offset)];
        continue;
      }
      if Blank(call.name) {
        errors := errors + [BlankCallName(index, offset)];
      }
      if call.id in expectedToolCallIds {
        errors := errors + [DuplicateCallId(index, call.id)];
      }
      expectedToolCallIds := expectedToolCallIds + {call.id};
      var toolIndex := index + offset + 1;
      var found;
      found, consumedToolResultIds := ValidateResult(messages, toolIndex, call, consumedToolResultIds);
      errors := errors + found;
    }
    assert ids[..|toolCalls|] == ids;
  }

  // The validator finds nothing to report exactly on the well-formed sequences.
  method ValidateMessages(messages: seq<Message>) returns (errors: seq<IntegrityError>)
    ensures errors == [] <==> WellFormed(messages)
  {
    errors := [];
    var expectedToolCallIds: set<string> := {};
    var consumedToolResultIds: set<string> := {};
    var index := 0;
    while index < |messages|
      invariant errors == [] ==> index <= |messages| && WellFormed(messages[..index])
      invariant errors == [] ==> expectedToolCallIds == (set id | id in AllCallIds(messages[..index]))
      invariant consumedToolResultIds <= expectedToolCallIds
      invariant errors != [] ==> !WellFormed(messages)
    {
      match messages[index] {
        case User(_) =>
          if errors == [] { UserStep(messages, index); }
        case Assistant(_, toolCalls, _) =>
          if errors == [] { UnitStep(messages, index, expectedToolCallIds); }
          var found;
          found, expectedToolCallIds, consumedToolResultIds :=
            ValidateCalls(messages, index, expectedToolCallIds, consumedToolResultIds);
          errors := errors + found;
          index := index + |toolCalls|;
        case Tool(toolCallId, result) =>
          if errors == [] { StrayResult(messages, index); }
          var found;
          found, consumedToolResultIds :=
            ReportStray(index, toolCallId, result, expectedToolCallIds, consumedToolResultIds);
          errors := errors + found;
      }
      index := index + 1;
    }
    assert errors == [] ==> messages[..index] == messages;
  }

  lemma UserStep(messages: seq<Message>, index: nat)
    requires index < |messages| && WellFormed(messages[..index]) && messages[index].User?
    ensures WellFormed(messages[..index + 1]) && AllCallIds(messages[..index + 1]) == AllCallIds(messages[..index])
  {
    var head := [messages[index]];
    assert messages[..index + 1] == messages[..index] + head;
    UnitGrammar(head);
    UnitCallIds(head);
    WellFormedConcat(messages[..index], head);
    AllCallIdsConcat(messages[..index], head);
  }

  lemma StrayResult(messages: seq<Message>, index: nat)
    requires index < |messages| && WellFormed(messages[..index]) && messages[index].Tool?
    ensures !WellFormed(messages)
  {
    assert messages == messages[..index] + messages[index..];
    GrammarConcat(messages[..index], messages[index..]);
  }

  lemma UnitStep(messages: seq<Message>, index: nat, seen: set<string>)
    requires index < |messages| && WellFormed(messages[..index]) && messages[index].Assistant?
    requires seen == (set id | id in AllCallIds(messages[..index]))
    ensures var n := |messages[index].toolCalls|;
      if CallsMatched(messages, index, n, seen) then
        && index + 1 + n <= |messages|
        && WellFormed(messages[..index + 1 + n])
        && AllCallIds(messages[..index + 1 + n]) == AllCallIds(messages[..index]) + CallIds(messages[index].toolCalls)
      else !WellFormed(messages)
  {
    if CallsMatched(messages, index, |messages[index].toolCalls|, seen) {
      UnitMatched(messages, index, seen);
    } else if WellFormed(messages) {
      UnitForced(messages, index, seen);
    }
  }

  lemma MatchedIsUnit(messages: seq<Message>, index: nat, seen: set<string>) returns (unit: seq<Message>)
    requires index < |messages| && messages[index].Assistant?
    requires CallsMatched(messages, index, |messages[index].toolCalls|, seen)
    ensures var end := index + 1 + |messages[index].toolCalls|;
      && end <= |messages| && unit == messages[index..end]
      && IsUnit(unit) && forall i :: 0 <= i < |unit| ==> CallFieldsOk(unit[i])
  {
    var calls := messages[index].toolCalls;
    var end := index + 1 + |calls|;
    if |calls| > 0 { assert !Blank(calls[|calls| - 1].id); }
    unit := messages[index..end];
    forall k | 0 <= k < |calls|
      ensures Answered(unit[1 + k], calls[k]) && !Blank(calls[k].id) && !Blank(calls[k].name)
    {
      assert !Blank(calls[k].id);
      assert unit[1 + k] == messages[index + 1 + k];
    }
    UnitOfMatched(unit);
  }

  lemma UnitOfMatched(unit: seq<Message>)
    requires unit != [] && unit[0].Assistant? && |unit| == 1 + |unit[0].toolCalls|
    requires var calls := unit[0].toolCalls;
      forall k :: 0 <= k < |calls| ==> Answered(unit[1 + k], calls[k]) && !Blank(calls[k].id) && !Blank(calls[k].name)
    ensures IsUnit(unit) && forall i :: 0 <= i < |unit| ==> CallFieldsOk(unit[i])
  {
    forall i | 0 <= i < |unit| ensures CallFieldsOk(unit[i]) {
      if i > 0 { assert Answered(unit[1 + (i - 1)], unit[0].toolCalls[i - 1]); }
    }
  }

  lemma UnseenIsDisjoint(before: seq<string>, ids: seq<string>, seen: set<string>)
    requires seen == (set id | id in before) && forall k :: 0 <= k < |ids| ==> ids[k] !in seen
    ensures Disjoint(before, ids)
  {
    forall i, j | 0 <= i < |before| && 0 <= j < |ids| ensures before[i] != ids[j] { assert before[i] in seen; }
  }

  lemma UnitMatched(messages: seq<Message>, index: nat, seen: set<string>)
    requires index < |messages| && WellFormed(messages[..index]) && messages[index].Assistant?
    requires seen == (set id | id in AllCallIds(messages[..index]))
    requires CallsMatched(messages, index, |messages[index].toolCalls|, seen)
    ensures var end := index + 1 + |messages[index].toolCalls|;
      && end <= |messages|
      && WellFormed(messages[..end])
      && AllCallIds(messages[..end]) == AllCallIds(messages[..index]) + CallIds(messages[index].toolCalls)
  {
    var unit := MatchedIsUnit(messages, index, seen);
    var calls := messages[index].toolCalls;
    assert CallIds(calls)[..|calls|] == CallIds(calls);
    UnseenIsDisjoint(AllCallIds(messages[..index]), CallIds(calls), seen);
    UnitAdded(messages[..index], unit);
    assert messages[..index + 1 + |calls|] == messages[..index] + unit;
  }

  lemma UnitAdded(before: seq<Message>, unit: seq<Message>)
    requires WellFormed(before) && IsUnit(unit) && unit[0].Assistant? && Distinct(CallIds(unit[0].toolCalls))
    requires (forall i :: 0 <= i < |unit| ==> CallFieldsOk(unit[i]))
    requires Disjoint(AllCallIds(before), CallIds(unit[0].toolCalls))
    ensures WellFormed(before + unit) && AllCallIds(before + unit) == AllCallIds(before) + CallIds(unit[0].toolCalls)
  {
    UnitGrammar(unit);
    UnitCallIds(unit);
    AllCallIdsConcat(before, unit);
    WellFormedConcat(before, unit);
  }

  lemma HeadForced(rest: seq<Message>)
    requires rest != [] && rest[0].Assistant? && WellFormed(rest)
    ensures var calls := rest[0].toolCalls;
      && 1 + |calls| <= |rest| && Distinct(CallIds(calls)) && FieldsOk(rest[0])
      && forall k :: 0 <= k < |calls| ==> Answered(rest[1 + k], calls[k]) && calls[k].id in AllCallIds(rest)
  {
    var calls := rest[0].toolCalls;
    var unit, more := rest[..Span(rest[0])], rest[Span(rest[0])..];
    assert rest == unit + more;
    UnitCallIds(unit);
    AllCallIdsConcat(unit, more);
    DistinctConcat(AllCallIds(unit), AllCallIds(more));
    assert CallFieldsOk(rest[0]);
    forall k | 0 <= k < |calls| ensures Answered(rest[1 + k], calls[k]) && calls[k].id in AllCallIds(rest) {
      assert CallFieldsOk(rest[1 + k]);
      assert Answers(unit[1 + k], calls[k]);
      assert AllCallIds(rest)[k] == CallIds(calls)[k];
    }
  }

  lemma UnitForced(messages: seq<Message>, index: nat, seen: set<string>)
    requires index < |messages| && WellFormed(messages[..index]) && messages[index].Assistant?
    requires seen == (set id | id in AllCallIds(messages[..index]))
    requires WellFormed(messages)
    ensures CallsMatched(messages, index, |messages[index].toolCalls|, seen)
  {
    var calls := messages[index].toolCalls;
    var front, rest := messages[..index], messages[index..];
    assert messages == front + rest;
    WellFormedConcat(front, rest);
    HeadForced(rest);
    assert CallIds(calls)[..|calls|] == CallIds(calls);
    forall k | 0 <= k < |calls|
      ensures calls[k].id !in seen
      ensures index + 1 + k < |messages| && Answered(messages[index + 1 + k], calls[k])
    {
      assert rest[1 + k] == messages[index + 1 + k];
      UnseenElsewhere(AllCallIds(front), AllCallIds(rest), calls[k].id);
    }
  }

  lemma UnseenElsewhere(a: seq<string>, b: seq<string>, id: string)
    requires Disjoint(a, b) && id in b
    ensures id !in a
  {
    var j :| 0 <= j < |b| && b[j] == id;
    forall i | 0 <= i < |a| ensures a[i] != id { assert a[i] != b[j]; }
  }

  lemma UnitCallIds(unit: seq<Message>)
    requires IsUnit(unit)
    ensures AllCallIds(unit) == if unit[0].Assistant? then CallIds(unit[0].toolCalls) else []
  {
    assert unit == [unit[0]] + unit[1..];
    assert [unit[0]][..0] == [];
    AllCallIdsConcat([unit[0]], unit[1..]);
    forall i | 0 <= i < |unit[1..]| ensures unit[1..][i].Tool? {
      assert Answers(unit[1 + i], unit[0].toolCalls[i]);
    }
    NoCallIds(unit[1..]);
  }

  lemma {:induction false} NoCallIds(ms: seq<Message>)
    requires forall i :: 0 <= i < |ms| ==> ms[i].Tool?
    ensures AllCallIds(ms) == []
  {
    if ms != [] { NoCallIds(ms[..|ms| - 1]); }
  }

  // The two recognisers agree: the validator accepts exactly when the unit
  // builder succeeds, no call id is used twice, and ids and names are usable.
  method CompareRecognisers(messages: seq<Message>) returns (accepted: bool, split: bool)
    ensures accepted <==>
              split && Distinct(AllCallIds(messages)) && forall i :: 0 <= i < |messages| ==> CallFieldsOk(messages[i])
  {
    var errors := ValidateMessages(messages);
    var units := BuildAtomicUnits(messages, (m: Message) => m, (m: Message) => 1);
    assert Mapped(messages, (m: Message) => m) == messages;
    return errors == [], units.Some?;
  }
}
