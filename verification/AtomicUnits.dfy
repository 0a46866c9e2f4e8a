// Atomic units: an assistant message together with its adjacent tool results,
// or any other non-tool message on its own.
module AtomicUnits {
  import opened Prelude
  import opened Messages

  datatype Role = UserRole | AssistantRole | ToolRole

  datatype Unit<T> = Unit(items: seq<T>, firstRole: Role, tokens: nat)

  function RoleOf(m: Message): Role {
    match m
    case User(_) => UserRole
    case Assistant(_, _, _) => AssistantRole
    case Tool(_, _) => ToolRole
  }

  // How many messages a unit headed by m occupies.
  function Span(m: Message): nat {
    if m.Assistant? then 1 + |m.toolCalls| else 1
  }

  predicate Answers(m: Message, call: ToolCall) {
    m.Tool? && m.toolCallId == call.id
  }

  // A complete unit: the head is not a tool result, and the tail answers the
  // head's calls one for one, in call order.
  predicate IsUnit(ms: seq<Message>) {
    && |ms| > 0
    && !ms[0].Tool?
    && |ms| == Span(ms[0])
    && (ms[0].Assistant? ==>
          forall k :: 0 <= k < |ms[0].toolCalls| ==> Answers(ms[1 + k], ms[0].toolCalls[k]))
  }

  // The tool-call grammar: a sequence of complete units.
  predicate Grammar(ms: seq<Message>)
    decreases |ms|
  {
    || ms == []
    || (Span(ms[0]) <= |ms| && IsUnit(ms[..Span(ms[0])]) && Grammar(ms[Span(ms[0])..]))
  }

  function MakeUnit<T>(items: seq<T>, getMessage: T -> Message, getTokens: T -> nat): Unit<T>
    requires |items| > 0
  {
    Unit(items, RoleOf(getMessage(items[0])), Sum(Mapped(items, getTokens)))
  }

  // The one decomposition of a grammatical sequence into units.
  function SplitUnits<T>(items: seq<T>, getMessage: T -> Message, getTokens: T -> nat): seq<Unit<T>>
    requires Grammar(Mapped(items, getMessage))
    decreases |items|
  {
    if items == [] then []
    else
      var n := Span(getMessage(items[0]));
      var ms := Mapped(items, getMessage);
      assert ms[n..] == Mapped(items[n..], getMessage);
      [MakeUnit(items[..n], getMessage, getTokens)] + SplitUnits(items[n..], getMessage, getTokens)
  }

  function ItemsOf<T>(units: seq<Unit<T>>): seq<seq<T>> {
    seq(|units|, i requires 0 <= i < |units| => units[i].items)
  }

  function Items<T>(units: seq<Unit<T>>): seq<T> {
    Flatten(ItemsOf(units))
  }

  lemma ItemsConcat<T>(a: seq<Unit<T>>, b: seq<Unit<T>>)
    ensures Items(a + b) == Items(a) + Items(b)
  {
    assert ItemsOf(a + b) == ItemsOf(a) + ItemsOf(b);
    FlattenConcat(ItemsOf(a), ItemsOf(b));
  }

  lemma ItemsSingle<T>(u: Unit<T>)
    ensures Items([u]) == u.items
  {
    var xss := ItemsOf([u]);
    assert xss[..|xss| - 1] == [] && xss[|xss| - 1] == u.items;
    assert Flatten(xss[..|xss| - 1]) + xss[|xss| - 1] == u.items;
  }

  ghost predicate Fits<T>(unit: Unit<T>, getMessage: T -> Message, getTokens: T -> nat) {
    && IsUnit(Mapped(unit.items, getMessage))
    && unit == MakeUnit(unit.items, getMessage, getTokens)
  }

  // What it means for units to be a faithful reading of items.
  ghost predicate Decomposes<T>(units: seq<Unit<T>>, items: seq<T>, getMessage: T -> Message, getTokens: T -> nat) {
    && Items(units) == items
    && forall i :: 0 <= i < |units| ==> Fits(units[i], getMessage, getTokens)
  }

  lemma DecomposesConcat<T>(a: seq<Unit<T>>, b: seq<Unit<T>>, x: seq<T>, y: seq<T>,
                            getMessage: T -> Message, getTokens: T -> nat)
    requires Decomposes(a, x, getMessage, getTokens) && Decomposes(b, y, getMessage, getTokens)
    ensures Decomposes(a + b, x + y, getMessage, getTokens)
  {
    ItemsConcat(a, b);
  }

  lemma DecomposesSingle<T>(group: seq<T>, getMessage: T -> Message, getTokens: T -> nat)
    requires IsUnit(Mapped(group, getMessage))
    ensures Decomposes([MakeUnit(group, getMessage, getTokens)], group, getMessage, getTokens)
  {
    ItemsSingle(MakeUnit(group, getMessage, getTokens));
  }

  lemma MessagesSlice<T>(items: seq<T>, n: nat, getMessage: T -> Message)
    requires n <= |items|
    ensures Mapped(items, getMessage)[..n] == Mapped(items[..n], getMessage)
    ensures Mapped(items, getMessage)[n..] == Mapped(items[n..], getMessage)
  {
  }

  lemma SplitHead<T>(items: seq<T>, n: nat, getMessage: T -> Message, getTokens: T -> nat)
    requires items != [] && Grammar(Mapped(items, getMessage)) && n == Span(getMessage(items[0]))
    ensures 0 < n <= |items| && IsUnit(Mapped(items[..n], getMessage))
        && Grammar(Mapped(items[n..], getMessage))
    ensures SplitUnits(items, getMessage, getTokens)
         == [MakeUnit(items[..n], getMessage, getTokens)] + SplitUnits(items[n..], getMessage, getTokens)
  {
    MessagesSlice(items, n, getMessage);
  }

  lemma HeadDecomposes<T>(items: seq<T>, n: nat, rest: seq<Unit<T>>, getMessage: T -> Message, getTokens: T -> nat)
    requires 0 < n <= |items| && IsUnit(Mapped(items[..n], getMessage))
    requires Decomposes(rest, items[n..], getMessage, getTokens)
    ensures Decomposes([MakeUnit(items[..n], getMessage, getTokens)] + rest, items, getMessage, getTokens)
  {
    DecomposesSingle(items[..n], getMessage, getTokens);
    DecomposesConcat([MakeUnit(items[..n], getMessage, getTokens)], rest, items[..n], items[n..], getMessage,
                     getTokens);
    assert items == items[..n] + items[n..];
  }

  lemma {:induction false} SplitUnitsDecomposes<T>(items: seq<T>, getMessage: T -> Message, getTokens: T -> nat)
    requires Grammar(Mapped(items, getMessage))
    ensures Decomposes(SplitUnits(items, getMessage, getTokens), items, getMessage, getTokens)
    decreases |items|
  {
    if items != [] {
      var n := Span(getMessage(items[0]));
      SplitHead(items, n, getMessage, getTokens);
      SplitUnitsDecomposes(items[n..], getMessage, getTokens);
      HeadDecomposes(items, n, SplitUnits(items[n..], getMessage, getTokens), getMessage, getTokens);
    }
  }

  lemma HeadUnit<T>(units: seq<Unit<T>>, items: seq<T>, getMessage: T -> Message, getTokens: T -> nat)
    requires Decomposes(units, items, getMessage, getTokens) && units != []
    ensures 0 < |units[0].items| <= |items| && items[..|units[0].items|] == units[0].items
    ensures Decomposes(units[1..], items[|units[0].items|..], getMessage, getTokens)
  {
    assert Fits(units[0], getMessage, getTokens);
    assert units == [units[0]] + units[1..];
    ItemsSingle(units[0]);
    ItemsConcat([units[0]], units[1..]);
  }

  // Any reading of items as units is the one SplitUnits finds, so the items are grammatical.
  lemma {:induction false} DecompositionUnique<T>(units: seq<Unit<T>>, items: seq<T>, getMessage: T -> Message,
                                                  getTokens: T -> nat)
    requires Decomposes(units, items, getMessage, getTokens)
    ensures Grammar(Mapped(items, getMessage))
    ensures units == SplitUnits(items, getMessage, getTokens)
    decreases |units|
  {
    if units == [] {
      assert ItemsOf(units) == [];
    } else {
      HeadUnit(units, items, getMessage, getTokens);
      var n := |units[0].items|;
      assert Fits(units[0], getMessage, getTokens);
      MessagesSlice(items, n, getMessage);
      DecompositionUnique(units[1..], items[n..], getMessage, getTokens);
      assert Mapped(items[..n], getMessage)[0] == getMessage(items[0]);
    }
  }

  lemma {:induction false} GrammarConcat(a: seq<Message>, b: seq<Message>)
    requires Grammar(a)
    ensures Grammar(a + b) <==> Grammar(b)
    decreases |a|
  {
    if a == [] {
      assert a + b == b;
    } else {
      var n := Span(a[0]);
      assert (a + b)[..n] == a[..n];
      assert (a + b)[n..] == a[n..] + b;
      GrammarConcat(a[n..], b);
    }
  }

  lemma DropTwice<T>(s: seq<T>, n: nat, k: nat)
    requires n <= k < |s|
    ensures s[n..][k - n] == s[k] && s[n..][k - n..] == s[k..] && s[..k] == s[..n] + s[n..][..k - n]
  {
  }

  // A grammatical sequence may be cut before any message that is not a tool result.
  lemma {:induction false} GrammarCut(ms: seq<Message>, k: nat)
    requires Grammar(ms) && k < |ms| && !ms[k].Tool?
    ensures Grammar(ms[..k]) && Grammar(ms[k..])
    decreases |ms|
  {
    if k > 0 {
      var n := Span(ms[0]);
      HeadTail(ms);
      DropTwice(ms, n, k);
      GrammarCut(ms[n..], k - n);
      UnitGrammar(ms[..n]);
      GrammarConcat(ms[..n], ms[n..][..k - n]);
    } else {
      assert ms[0..] == ms;
    }
  }

  // Everything after the head of the first unit, up to its end, is a tool result.
  lemma HeadTail(ms: seq<Message>)
    requires Grammar(ms) && ms != []
    ensures forall j :: 1 <= j < Span(ms[0]) ==> ms[j].Tool?
  {
    forall j | 1 <= j < Span(ms[0]) ensures ms[j].Tool? {
      assert Answers(ms[..Span(ms[0])][1 + (j - 1)], ms[0].toolCalls[j - 1]);
    }
  }

  lemma UnitGrammar(ms: seq<Message>)
    requires IsUnit(ms)
    ensures Grammar(ms)
  {
  }

  // Scans left to right, one unit at a time, and gives up at the first
  // misplaced tool result or incomplete unit.
  method BuildAtomicUnits<T>(items: seq<T>, getMessage: T -> Message, getTokens: T -> nat)
    returns (units: Option<seq<Unit<T>>>)
    ensures units.Some? <==> Grammar(Mapped(items, getMessage))
    ensures units.Some? ==> units.value == SplitUnits(items, getMessage, getTokens)
    ensures units.Some? ==> Decomposes(units.value, items, getMessage, getTokens)
  {
    var found: seq<Unit<T>> := [];
    var index := 0;
    while index < |items|
      invariant 0 <= index <= |items|
      invariant Decomposes(found, items[..index], getMessage, getTokens)
    {
      var item := items[index];
      var message := getMessage(item);
      if message.Tool? {
        StrayStops(items, index, getMessage);
        ScanStops(found, items, index, getMessage, getTokens);
        return None;
      }
      if !message.Assistant? || |message.toolCalls| == 0 {
        ScanSingle(found, items, index, getMessage, getTokens);
        found := found + [Unit([item], RoleOf(message), getTokens(item))];
        index := index + 1;
        continue;
      }
      var end := index + 1 + |message.toolCalls|;
      if |items| < end || exists k | 0 <= k < |message.toolCalls| ::
          !Answers(getMessage(items[index + 1 + k]), message.toolCalls[k]) {
        IncompleteUnit(items, index, getMessage);
        ScanStops(found, items, index, getMessage, getTokens);
        return None;
      }
      var atomicItems := items[index..end];
      ScanGroup(found, items, index, atomicItems, getMessage, getTokens);
      found := found + [Unit(atomicItems, RoleOf(message), Sum(Mapped(atomicItems, getTokens)))];
      index := index + |atomicItems|;
    }
    assert items[..index] == items;
    DecompositionUnique(found, items, getMessage, getTokens);
    return Some(found);
  }

  // Once a prefix is read as units, the whole is grammatical iff the rest is.
  lemma PrefixSettled<T>(found: seq<Unit<T>>, items: seq<T>, index: nat, getMessage: T -> Message, getTokens: T -> nat)
    requires index <= |items|
    requires Decomposes(found, items[..index], getMessage, getTokens)
    ensures var ms := Mapped(items, getMessage); Grammar(ms) <==> Grammar(ms[index..])
  {
    var ms := Mapped(items, getMessage);
    DecompositionUnique(found, items[..index], getMessage, getTokens);
    assert ms[..index] == Mapped(items[..index], getMessage);
    assert ms == ms[..index] + ms[index..];
    GrammarConcat(ms[..index], ms[index..]);
  }

  lemma IncompleteUnit<T>(items: seq<T>, index: nat, getMessage: T -> Message)
    requires index < |items| && getMessage(items[index]).Assistant?
    requires var calls := getMessage(items[index]).toolCalls;
      || |items| < index + 1 + |calls|
      || exists k :: 0 <= k < |calls| && !Answers(getMessage(items[index + 1 + k]), calls[k])
    ensures !Grammar(Mapped(items, getMessage)[index..])
  {
  }

  // After a prefix of whole units: what makes the scan stop.
  lemma ScanStops<T>(found: seq<Unit<T>>, items: seq<T>, index: nat, getMessage: T -> Message, getTokens: T -> nat)
    requires index < |items| && Decomposes(found, items[..index], getMessage, getTokens)
    requires !Grammar(Mapped(items, getMessage)[index..])
    ensures !Grammar(Mapped(items, getMessage))
  {
    PrefixSettled(found, items, index, getMessage, getTokens);
  }

  lemma StrayStops<T>(items: seq<T>, index: nat, getMessage: T -> Message)
    requires index < |items| && getMessage(items[index]).Tool?
    ensures !Grammar(Mapped(items, getMessage)[index..])
  {
    assert Mapped(items, getMessage)[index..][0] == getMessage(items[index]);
  }

  // What makes it go on: a message on its own, or one with all its results.
  lemma ScanSingle<T>(found: seq<Unit<T>>, items: seq<T>, index: nat, getMessage: T -> Message, getTokens: T -> nat)
    requires index < |items| && Decomposes(found, items[..index], getMessage, getTokens)
    requires !getMessage(items[index]).Tool? && Span(getMessage(items[index])) == 1
    ensures var item := items[index];
      Decomposes(found + [Unit([item], RoleOf(getMessage(item)), getTokens(item))], items[..index + 1], getMessage,
                 getTokens)
  {
    SingleTokens(items[index], getTokens);
    ExtendDecomposition(found, [items[index]], items, index, getMessage, getTokens);
  }

  lemma ScanGroup<T>(found: seq<Unit<T>>, items: seq<T>, index: nat, group: seq<T>, getMessage: T -> Message,
                     getTokens: T -> nat)
    requires index < |items| && Decomposes(found, items[..index], getMessage, getTokens)
    requires getMessage(items[index]).Assistant? && index + Span(getMessage(items[index])) <= |items|
    requires group == items[index..index + Span(getMessage(items[index]))]
    requires var calls := getMessage(items[index]).toolCalls;
      forall k :: 0 <= k < |calls| ==> Answers(getMessage(items[index + 1 + k]), calls[k])
    ensures Decomposes(found + [MakeUnit(group, getMessage, getTokens)], items[..index + |group|], getMessage,
                       getTokens)
  {
    assert IsUnit(Mapped(group, getMessage));
    ExtendDecomposition(found, group, items, index, getMessage, getTokens);
  }

  lemma SingleTokens<T>(item: T, getTokens: T -> nat)
    ensures Sum(Mapped([item], getTokens)) == getTokens(item)
  {
  }

  lemma ExtendDecomposition<T>(found: seq<Unit<T>>, group: seq<T>, items: seq<T>, index: nat,
                               getMessage: T -> Message, getTokens: T -> nat)
    requires index + |group| <= |items| && group == items[index..index + |group|]
    requires IsUnit(Mapped(group, getMessage))
    requires Decomposes(found, items[..index], getMessage, getTokens)
    ensures Decomposes(found + [MakeUnit(group, getMessage, getTokens)], items[..index + |group|], getMessage,
                       getTokens)
  {
    DecomposesSingle(group, getMessage, getTokens);
    DecomposesConcat(found, [MakeUnit(group, getMessage, getTokens)], items[..index], group, getMessage, getTokens);
    assert items[..index] + group == items[..index + |group|];
  }
}
