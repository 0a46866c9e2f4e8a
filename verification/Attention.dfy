// Mailbox attention: what was disclosed to the Agent and what it has handled,
// per mailbox, joined over the visible messages.
module Attention {
  import opened Prelude
  import opened Text
  import opened Messages
  import opened MailboxKeys

  const Zero: Cursors := Cursors(0, 0, 0)

  type Attention = map<string, Cursors>

  function Later(a: Cursors, b: Cursors): Cursors {
    Cursors(Max(a.disclosed, b.disclosed), Max(a.handled, b.handled), Max(a.highPriority, b.highPriority))
  }

  predicate CursorsBelow(a: Cursors, b: Cursors) {
    a.disclosed <= b.disclosed && a.handled <= b.handled && a.highPriority <= b.highPriority
  }

  function Get(state: Attention, mailbox: string): Cursors {
    if mailbox in state then state[mailbox] else Zero
  }

  // No mailbox is listed with nothing to say.
  predicate Normal(state: Attention) {
    forall mailbox :: mailbox in state ==> state[mailbox] != Zero
  }

  function Join(a: Attention, b: Attention): Attention {
    map mailbox | mailbox in a.Keys + b.Keys && Later(Get(a, mailbox), Get(b, mailbox)) != Zero
      :: Later(Get(a, mailbox), Get(b, mailbox))
  }

  predicate Below(a: Attention, b: Attention) {
    forall mailbox :: mailbox in a ==> CursorsBelow(a[mailbox], Get(b, mailbox))
  }

  predicate PositiveRow(n: int) {
    0 < n <= MAX_SAFE_INTEGER
  }

  predicate SafeCursors(c: Cursors) {
    c.disclosed <= MAX_SAFE_INTEGER && c.handled <= MAX_SAFE_INTEGER && c.highPriority <= MAX_SAFE_INTEGER
  }

  // The states the parsers accept: real mailbox keys, safe cursors.
  predicate ValidState(state: Attention) {
    forall mailbox :: mailbox in state ==> IsMailboxKey(mailbox) && SafeCursors(state[mailbox])
  }

  datatype Disclosure = Disclosure(mailbox: string, throughRowId: nat, high: bool)

  // The disclosures a user message announces; entries with a bad key or row are dropped.
  function ParseDeltas(mailboxes: seq<Delta>): seq<Disclosure> {
    if mailboxes == [] then []
    else
      var value := mailboxes[|mailboxes| - 1];
      ParseDeltas(mailboxes[..|mailboxes| - 1])
      + (if IsMailboxKey(value.mailbox) && PositiveRow(value.throughRowId)
         then [Disclosure(value.mailbox, value.throughRowId, value.high)] else [])
  }

  function ParseDisclosures(content: UserContent): seq<Disclosure> {
    match content
    case ConversationDeltas(mailboxes) => ParseDeltas(mailboxes)
    case InboxUpdate(mailbox, row) =>
      if IsMailboxKey(mailbox) && PositiveRow(row) then [Disclosure(mailbox, row, IsPrivateMailbox(mailbox))] else []
    case InboxNotification(mailbox, row, highInterrupt) =>
      if IsMailboxKey(mailbox) && PositiveRow(row) then [Disclosure(mailbox, row, highInterrupt)] else []
    case _ => []
  }

  predicate ValidDisclosure(d: Disclosure) {
    IsMailboxKey(d.mailbox) && PositiveRow(d.throughRowId)
  }

  function DisclosureCursors(d: Disclosure): Cursors {
    Cursors(d.throughRowId, 0, if d.high && !IsPrivateMailbox(d.mailbox) then d.throughRowId else 0)
  }

  function Single(mailbox: string, cursors: Cursors): Attention {
    map[mailbox := cursors]
  }

  function JoinDisclosures(ds: seq<Disclosure>): Attention {
    if ds == [] then map[]
    else
      var d := ds[|ds| - 1];
      Join(JoinDisclosures(ds[..|ds| - 1]), Single(d.mailbox, DisclosureCursors(d)))
  }

  // What one message contributes to the attention state.
  function Contribution(m: Message): Attention {
    match m
    case User(AttentionState(state)) => if ValidState(state) then state else map[]
    case User(MailboxHandled(mailbox, row)) =>
      if IsMailboxKey(mailbox) && PositiveRow(row) then Single(mailbox, Cursors(0, row, 0)) else map[]
    case User(content) => JoinDisclosures(ParseDisclosures(content))
    case _ => map[]
  }

  function Capture(ms: seq<Message>): Attention {
    if ms == [] then map[] else Join(Capture(ms[..|ms| - 1]), Contribution(ms[|ms| - 1]))
  }

  // --- the join semilattice -------------------------------------------------

  lemma NormalExtensional(a: Attention, b: Attention)
    requires Normal(a) && Normal(b)
    requires forall mailbox :: Get(a, mailbox) == Get(b, mailbox)
    ensures a == b
  {
    forall mailbox ensures mailbox in a <==> mailbox in b {
      assert Get(a, mailbox) == Get(b, mailbox);
    }
    forall mailbox | mailbox in a ensures a[mailbox] == b[mailbox] {
      assert Get(a, mailbox) == Get(b, mailbox);
    }
  }

  lemma GetJoin(a: Attention, b: Attention, mailbox: string)
    ensures Get(Join(a, b), mailbox) == Later(Get(a, mailbox), Get(b, mailbox))
  {
  }

  lemma JoinNormal(a: Attention, b: Attention)
    ensures Normal(Join(a, b))
  {
  }

  lemma GetJoinTwice(a: Attention, b: Attention, c: Attention, mailbox: string)
    ensures Get(Join(Join(a, b), c), mailbox) == Later(Later(Get(a, mailbox), Get(b, mailbox)), Get(c, mailbox))
    ensures Get(Join(a, Join(b, c)), mailbox) == Later(Get(a, mailbox), Later(Get(b, mailbox), Get(c, mailbox)))
  {
    GetJoin(Join(a, b), c, mailbox);
    GetJoin(a, b, mailbox);
    GetJoin(a, Join(b, c), mailbox);
    GetJoin(b, c, mailbox);
  }

  lemma LaterAssociative(a: Cursors, b: Cursors, c: Cursors)
    ensures Later(Later(a, b), c) == Later(a, Later(b, c))
  {
  }

  lemma JoinAssociativeAt(a: Attention, b: Attention, c: Attention, mailbox: string)
    ensures Get(Join(Join(a, b), c), mailbox) == Get(Join(a, Join(b, c)), mailbox)
  {
    GetJoinTwice(a, b, c, mailbox);
    LaterAssociative(Get(a, mailbox), Get(b, mailbox), Get(c, mailbox));
  }

  lemma SameEverywhere(x: Attention, y: Attention)
    requires Normal(x) && Normal(y) && forall mailbox: string :: Get(x, mailbox) == Get(y, mailbox)
    ensures x == y
  {
    NormalExtensional(x, y);
  }

  lemma JoinAssociative(a: Attention, b: Attention, c: Attention)
    ensures Join(Join(a, b), c) == Join(a, Join(b, c))
  {
    var x, y := Join(Join(a, b), c), Join(a, Join(b, c));
    JoinNormal(Join(a, b), c);
    JoinNormal(a, Join(b, c));
    forall mailbox: string ensures Get(x, mailbox) == Get(y, mailbox) { JoinAssociativeAt(a, b, c, mailbox); }
    SameEverywhere(x, y);
  }

  lemma JoinIdentity(a: Attention)
    requires Normal(a)
    ensures Join(a, map[]) == a && Join(map[], a) == a
  {
    forall mailbox
      ensures Get(Join(a, map[]), mailbox) == Get(a, mailbox) && Get(Join(map[], a), mailbox) == Get(a, mailbox)
    {
      GetJoin(a, map[], mailbox);
      GetJoin(map[], a, mailbox);
    }
    NormalExtensional(Join(a, map[]), a);
    NormalExtensional(Join(map[], a), a);
  }

  // Joining a state in changes nothing exactly when it was already below.
  lemma JoinAbsorbs(a: Attention, b: Attention)
    requires Normal(b)
    ensures Join(a, b) == b <==> Below(a, b)
  {
    if Below(a, b) {
      forall mailbox ensures Get(Join(a, b), mailbox) == Get(b, mailbox) { GetJoin(a, b, mailbox); }
      NormalExtensional(Join(a, b), b);
    }
    if Join(a, b) == b {
      forall mailbox | mailbox in a ensures CursorsBelow(a[mailbox], Get(b, mailbox)) { GetJoin(a, b, mailbox); }
    }
  }

  lemma CaptureNormal(ms: seq<Message>)
    ensures Normal(Capture(ms))
  {
  }

  lemma CaptureSnoc(ms: seq<Message>, m: Message)
    ensures Capture(ms + [m]) == Join(Capture(ms), Contribution(m))
  {
    assert (ms + [m])[..|ms|] == ms;
  }

  // One more message after a and b: what it contributes joins what b captured.
  lemma CaptureStep(a: seq<Message>, b: seq<Message>, m: Message)
    requires Capture(a + b) == Join(Capture(a), Capture(b))
    ensures Capture((a + b) + [m]) == Join(Capture(a), Capture(b + [m]))
  {
    CaptureSnoc(a + b, m);
    CaptureSnoc(b, m);
    JoinAssociative(Capture(a), Capture(b), Contribution(m));
  }

  lemma CaptureNothing(a: seq<Message>)
    ensures Capture(a + []) == Join(Capture(a), Capture([]))
  {
    assert a + [] == a;
    CaptureNormal(a);
    JoinIdentity(Capture(a));
  }

  // Capturing a concatenation, whatever way it is written, is joining the captures.
  lemma {:induction false} CaptureParts(whole: seq<Message>, a: seq<Message>, b: seq<Message>)
    requires whole == a + b
    ensures Capture(whole) == Join(Capture(a), Capture(b))
    decreases |b|
  {
    if b == [] {
      CaptureNothing(a);
    } else {
      var front, last := b[..|b| - 1], b[|b| - 1];
      CaptureParts(a + front, a, front);
      CaptureStep(a, front, last);
      assert whole == (a + front) + [last] && b == front + [last];
    }
  }

  lemma CaptureConcat(a: seq<Message>, b: seq<Message>)
    ensures Capture(a + b) == Join(Capture(a), Capture(b))
  {
    CaptureParts(a + b, a, b);
  }

  lemma {:induction false} DisclosuresNormal(ds: seq<Disclosure>)
    requires forall i :: 0 <= i < |ds| ==> ValidDisclosure(ds[i])
    ensures Normal(JoinDisclosures(ds)) && ValidState(JoinDisclosures(ds))
  {
    if ds != [] { DisclosuresNormal(ds[..|ds| - 1]); }
  }

  lemma {:induction false} DeltasValid(mailboxes: seq<Delta>)
    ensures forall i :: 0 <= i < |ParseDeltas(mailboxes)| ==> ValidDisclosure(ParseDeltas(mailboxes)[i])
  {
    if mailboxes != [] { DeltasValid(mailboxes[..|mailboxes| - 1]); }
  }

  lemma ContributionValid(m: Message)
    ensures ValidState(Contribution(m))
  {
    match m {
      case User(ConversationDeltas(mailboxes)) =>
        DeltasValid(mailboxes);
        DisclosuresNormal(ParseDeltas(mailboxes));
      case User(content) =>
        DisclosuresNormal(ParseDisclosures(content));
      case _ =>
    }
  }

  // A captured state is always one the ledger parser and the renderer accept.
  lemma {:induction false} CaptureValid(ms: seq<Message>)
    ensures ValidState(Capture(ms))
  {
    if ms != [] {
      CaptureValid(ms[..|ms| - 1]);
      ContributionValid(ms[|ms| - 1]);
    }
  }

  // --- rendering ------------------------------------------------------------

  function RenderState(state: Attention): Message {
    User(AttentionState(state))
  }

  // Rendering a captured state and capturing the result gives it back.
  lemma RenderCapture(state: Attention)
    requires Normal(state) && ValidState(state)
    ensures Capture([RenderState(state)]) == state
  {
    var ms := [RenderState(state)];
    assert ms[..|ms| - 1] == [] && ms[|ms| - 1] == RenderState(state);
    JoinIdentity(state);
  }

  // --- the loop form --------------------------------------------------------

  method MergeMailboxCursors(merged: Attention, mailbox: string, incoming: Cursors) returns (next: Attention)
    requires Normal(merged)
    ensures next == Join(merged, Single(mailbox, incoming))
  {
    if mailbox !in merged && incoming == Zero {
      SkipZero(merged, mailbox);
      return merged;
    }
    var current := Get(merged, mailbox);
    var latest := Later(current, incoming);
    next := merged[mailbox := latest];
    forall other ensures Get(next, other) == Get(Join(merged, Single(mailbox, incoming)), other) {
      GetJoin(merged, Single(mailbox, incoming), other);
    }
    NormalExtensional(next, Join(merged, Single(mailbox, incoming)));
  }

  lemma SkipZero(merged: Attention, mailbox: string)
    requires Normal(merged)
    ensures Join(merged, Single(mailbox, Zero)) == merged
  {
    forall other ensures Get(Join(merged, Single(mailbox, Zero)), other) == Get(merged, other) {
      GetJoin(merged, Single(mailbox, Zero), other);
    }
    NormalExtensional(Join(merged, Single(mailbox, Zero)), merged);
  }

  lemma MergeOne(merged: Attention, done: Attention, mailbox: string, cursors: Cursors)
    requires mailbox !in done
    ensures Join(Join(merged, done), Single(mailbox, cursors)) == Join(merged, done[mailbox := cursors])
  {
    var left, right := Join(Join(merged, done), Single(mailbox, cursors)), Join(merged, done[mailbox := cursors]);
    forall other ensures Get(left, other) == Get(right, other) {
      GetJoin(merged, done, other);
      GetJoin(Join(merged, done), Single(mailbox, cursors), other);
      GetJoin(merged, done[mailbox := cursors], other);
    }
    NormalExtensional(left, right);
  }

  method MergeState(merged: Attention, state: Attention) returns (next: Attention)
    requires Normal(merged)
    ensures next == Join(merged, state)
  {
    next := merged;
    var pending := state.Keys;
    ghost var done: Attention := map[];
    JoinIdentity(merged);
    while pending != {}
      invariant pending <= state.Keys
      invariant done.Keys == state.Keys - pending
      invariant forall mailbox :: mailbox in done ==> done[mailbox] == state[mailbox]
      invariant next == Join(merged, done)
    {
      var mailbox :| mailbox in pending;
      MergeOne(merged, done, mailbox, state[mailbox]);
      next := MergeMailboxCursors(next, mailbox, state[mailbox]);
      pending := pending - {mailbox};
      done := done[mailbox := state[mailbox]];
    }
    assert done == state;
  }

  lemma JoinOneMore(before: Attention, front: seq<Disclosure>, d: Disclosure)
    ensures Join(Join(before, JoinDisclosures(front)), Single(d.mailbox, DisclosureCursors(d)))
         == Join(before, JoinDisclosures(front + [d]))
  {
    assert (front + [d])[..|front|] == front;
    JoinAssociative(before, JoinDisclosures(front), Single(d.mailbox, DisclosureCursors(d)));
  }

  method MergeDisclosures(merged: Attention, disclosures: seq<Disclosure>) returns (next: Attention)
    requires Normal(merged)
    ensures next == Join(merged, JoinDisclosures(disclosures))
  {
    next := merged;
    JoinIdentity(merged);
    for i := 0 to |disclosures|
      invariant next == Join(merged, JoinDisclosures(disclosures[..i]))
    {
      var disclosure := disclosures[i];
      assert disclosures[..i + 1] == disclosures[..i] + [disclosure];
      JoinNormal(merged, JoinDisclosures(disclosures[..i]));
      JoinOneMore(merged, disclosures[..i], disclosure);
      next := MergeMailboxCursors(next, disclosure.mailbox, DisclosureCursors(disclosure));
    }
    assert disclosures[..|disclosures|] == disclosures;
  }

  // What one message adds.
  method MergeMessage(merged: Attention, message: Message) returns (next: Attention)
    requires Normal(merged)
    ensures next == Join(merged, Contribution(message))
  {
    next := merged;
    JoinIdentity(merged);
    if !message.User? { return; }
    match message.content {
      case AttentionState(state) =>
        if ValidState(state) { next := MergeState(merged, state); }
      case MailboxHandled(mailbox, row) =>
        if IsMailboxKey(mailbox) && PositiveRow(row) {
          next := MergeMailboxCursors(merged, mailbox, Cursors(0, row, 0));
        }
      case _ =>
        next := MergeDisclosures(merged, ParseDisclosures(message.content));
    }
  }

  method CaptureMailboxAttentionState(messages: seq<Message>) returns (state: Attention)
    ensures state == Capture(messages)
  {
    state := map[];
    for index := 0 to |messages|
      invariant state == Capture(messages[..index])
    {
      CaptureNormal(messages[..index]);
      assert messages[..index + 1] == messages[..index] + [messages[index]];
      CaptureSnoc(messages[..index], messages[index]);
      state := MergeMessage(state, messages[index]);
    }
    assert messages[..|messages|] == messages;
  }

  // --- the questions asked of it --------------------------------------------

  function FindPendingThroughRowId(state: Attention, mailbox: string): Option<nat> {
    var cursors := Get(state, mailbox);
    if cursors.disclosed > cursors.handled then Some(cursors.disclosed) else None
  }

  function AttentionRow(mailbox: string, cursors: Cursors): nat {
    if IsPrivateMailbox(mailbox) then cursors.disclosed else cursors.highPriority
  }

  predicate HasPending(state: Attention, inboxReadCursors: map<string, nat>) {
    exists mailbox :: mailbox in state &&
      AttentionRow(mailbox, state[mailbox])
        > Max(state[mailbox].handled, if mailbox in inboxReadCursors then inboxReadCursors[mailbox] else 0)
  }

  // --- examples -------------------------------------------------------------

  lemma SilentCapture(text: string)
    ensures Capture([User(Text(text))]) == map[]
  {
    var ms := [User(Text(text))];
    assert ms[..|ms| - 1] == [];
    JoinIdentity(map[]);
  }

  lemma TwoParts(a: string, b: string, key: string)
    requires ':' !in a && ':' !in b && key == a + [':'] + b
    ensures SplitAt(key, ':') == [a, b]
  {
    SplitOnce(a, b, ':');
    SplitNone(b, ':');
  }

  lemma KeyExample()
    ensures IsMailboxKey("qq_private:7")
  {
    TwoParts("qq_private", "7", "qq_private:7");
  }
}
