// Which queued mailbox rows are shown to the Agent: each at most once, and none
// skipped as long as rows arrive in order.
module Disclosure {

  datatype Event =
    | Direct(tag: string)
    | Message(mailbox: string, rowId: nat)
    | Backlog(mailbox: string, throughRowId: nat)

  type Cursors = map<string, nat>

  datatype Disclosed =
    | DirectEvent(event: Event)
    | MailboxRows(mailbox: string, rows: seq<nat>)
    | BacklogRows(event: Event)

  function Cursor(cursors: Cursors, mailbox: string): nat {
    if mailbox in cursors then cursors[mailbox] else 0
  }

  function Row(e: Event): nat
    requires !e.Direct?
  {
    if e.Message? then e.rowId else e.throughRowId
  }

  // An event of a mailbox counts only when its row is beyond the cursor.
  predicate Counts(cursors: Cursors, e: Event) {
    e.Direct? || Row(e) > Cursor(cursors, e.mailbox)
  }

  function AdvanceOne(cursors: Cursors, e: Event): Cursors {
    if e.Direct? || !Counts(cursors, e) then cursors else cursors[e.mailbox := Row(e)]
  }

  function Advance(cursors: Cursors, events: seq<Event>): Cursors {
    if events == [] then cursors
    else AdvanceOne(Advance(cursors, events[..|events| - 1]), events[|events| - 1])
  }

  // The events that count, in order.
  function Fresh(cursors: Cursors, events: seq<Event>): seq<Event> {
    if events == [] then []
    else
      var front, last := events[..|events| - 1], events[|events| - 1];
      Fresh(cursors, front) + (if Counts(Advance(cursors, front), last) then [last] else [])
  }

  // --- the plan -------------------------------------------------------------

  function FindMailbox(ds: seq<Disclosed>, mailbox: string): (i: int)
    ensures -1 <= i < |ds|
    ensures i >= 0 ==> ds[i].MailboxRows? && ds[i].mailbox == mailbox
    ensures i < 0 ==> forall j :: 0 <= j < |ds| ==> !(ds[j].MailboxRows? && ds[j].mailbox == mailbox)
  {
    if ds == [] then -1
    else if ds[|ds| - 1].MailboxRows? && ds[|ds| - 1].mailbox == mailbox then |ds| - 1
    else FindMailbox(ds[..|ds| - 1], mailbox)
  }

  // Rows of one mailbox are gathered where its first one stood.
  function Gather(ds: seq<Disclosed>, e: Event): seq<Disclosed> {
    match e
    case Direct(_) => ds + [DirectEvent(e)]
    case Backlog(_, _) => ds + [BacklogRows(e)]
    case Message(mailbox, rowId) =>
      var i := FindMailbox(ds, mailbox);
      if i < 0 then ds + [MailboxRows(mailbox, [rowId])]
      else ds[i := MailboxRows(mailbox, ds[i].rows + [rowId])]
  }

  function Gathered(events: seq<Event>): seq<Disclosed> {
    if events == [] then [] else Gather(Gathered(events[..|events| - 1]), events[|events| - 1])
  }

  // places remembers where each mailbox's group stands.
  ghost predicate PlacesOk(places: map<string, nat>, ds: seq<Disclosed>) {
    && OneGroupEach(ds)
    && forall mailbox :: (mailbox in places <==> FindMailbox(ds, mailbox) >= 0)
                         && (mailbox in places ==> places[mailbox] == FindMailbox(ds, mailbox))
  }

  method AddDisclosure(disclosures: seq<Disclosed>, places: map<string, nat>, event: Event)
    returns (added: seq<Disclosed>, nextPlaces: map<string, nat>)
    requires PlacesOk(places, disclosures)
    ensures added == Gather(disclosures, event) && PlacesOk(nextPlaces, added)
  {
    GatherKeepsPlaces(disclosures, event);
    nextPlaces := places;
    match event {
      case Direct(_) =>
        added := disclosures + [DirectEvent(event)];
      case Backlog(mailbox, throughRowId) =>
        added := disclosures + [BacklogRows(event)];
      case Message(mailbox, rowId) =>
        if mailbox in places {
          var i := places[mailbox];
          added := disclosures[i := MailboxRows(mailbox, disclosures[i].rows + [rowId])];
        } else {
          nextPlaces := places[mailbox := |disclosures|];
          added := disclosures + [MailboxRows(mailbox, [rowId])];
        }
    }
  }

  method PlanMailboxDisclosures(events: seq<Event>, currentCursors: Cursors)
    returns (disclosures: seq<Disclosed>, cursors: Cursors)
    ensures disclosures == Gathered(Fresh(currentCursors, events))
    ensures cursors == Advance(currentCursors, events)
  {
    cursors, disclosures := currentCursors, [];
    var places: map<string, nat> := map[];
    ghost var counted: seq<Event> := [];
    for n := 0 to |events|
      invariant cursors == Advance(currentCursors, events[..n])
      invariant counted == Fresh(currentCursors, events[..n]) && disclosures == Gathered(counted)
      invariant PlacesOk(places, disclosures)
    {
      var event := events[n];
      assert events[..n + 1][..n] == events[..n];
      if Counts(cursors, event) {
        assert (counted + [event])[..|counted|] == counted;
        counted := counted + [event];
        disclosures, places := AddDisclosure(disclosures, places, event);
        cursors := AdvanceOne(cursors, event);
      }
    }
    assert events[..|events|] == events;
  }

  ghost predicate OneGroupEach(ds: seq<Disclosed>) {
    forall i, j :: 0 <= i < j < |ds| && ds[i].MailboxRows? && ds[j].MailboxRows? ==> ds[i].mailbox != ds[j].mailbox
  }

  lemma {:induction false} FoundThere(ds: seq<Disclosed>, i: nat)
    requires OneGroupEach(ds) && i < |ds| && ds[i].MailboxRows?
    ensures FindMailbox(ds, ds[i].mailbox) == i
  {
  }

  // Where a mailbox's group stands once e is gathered: a new one comes last.
  function PlaceAfter(ds: seq<Disclosed>, e: Event, mailbox: string): int {
    if e.Message? && e.mailbox == mailbox && FindMailbox(ds, mailbox) < 0 then |ds| else FindMailbox(ds, mailbox)
  }

  lemma GatherKeepsPlaces(ds: seq<Disclosed>, e: Event)
    requires OneGroupEach(ds)
    ensures OneGroupEach(Gather(ds, e))
    ensures forall mailbox :: FindMailbox(Gather(ds, e), mailbox) == PlaceAfter(ds, e, mailbox)
  {
    GatherKeepsGroups(ds, e);
    forall mailbox ensures FindMailbox(Gather(ds, e), mailbox) == PlaceAfter(ds, e, mailbox) {
      GatherKeepsPlace(ds, e, mailbox);
    }
  }

  lemma GatherKeepsGroups(ds: seq<Disclosed>, e: Event)
    requires OneGroupEach(ds)
    ensures OneGroupEach(Gather(ds, e))
  {
  }

  lemma GatherKeepsPlace(ds: seq<Disclosed>, e: Event, mailbox: string)
    requires OneGroupEach(ds) && OneGroupEach(Gather(ds, e))
    ensures FindMailbox(Gather(ds, e), mailbox) == PlaceAfter(ds, e, mailbox)
  {
    var t := Gather(ds, e);
    if e.Message? && e.mailbox == mailbox && FindMailbox(ds, mailbox) < 0 {
      FoundThere(t, |ds|);
    } else if FindMailbox(ds, mailbox) >= 0 {
      FoundThere(t, FindMailbox(ds, mailbox));
    }
  }

  // --- what the plan shows --------------------------------------------------

  // The message rows of one mailbox among events, and among disclosures.
  function MessageRows(events: seq<Event>, mailbox: string): seq<nat> {
    if events == [] then []
    else
      var last := events[|events| - 1];
      MessageRows(events[..|events| - 1], mailbox)
      + (if last.Message? && last.mailbox == mailbox then [last.rowId] else [])
  }

  function ShownRows(ds: seq<Disclosed>, mailbox: string): seq<nat> {
    if FindMailbox(ds, mailbox) < 0 then [] else ds[FindMailbox(ds, mailbox)].rows
  }

  // Direct events and backlog notices are shown one by one, in order.
  function Singles(events: seq<Event>): seq<Event> {
    if events == [] then []
    else
      var last := events[|events| - 1];
      Singles(events[..|events| - 1]) + (if last.Message? then [] else [last])
  }

  function ShownSingles(ds: seq<Disclosed>): seq<Event> {
    if ds == [] then []
    else
      var last := ds[|ds| - 1];
      ShownSingles(ds[..|ds| - 1]) + (if last.MailboxRows? then [] else [last.event])
  }

  lemma {:induction false} SinglesOfChange(ds: seq<Disclosed>, i: nat, mailbox: string, rows: seq<nat>)
    requires i < |ds| && ds[i].MailboxRows?
    ensures ShownSingles(ds[i := MailboxRows(mailbox, rows)]) == ShownSingles(ds)
  {
    var n := |ds| - 1;
    if i < n {
      assert ds[i := MailboxRows(mailbox, rows)][..n] == ds[..n][i := MailboxRows(mailbox, rows)];
      SinglesOfChange(ds[..n], i, mailbox, rows);
    } else {
      assert ds[i := MailboxRows(mailbox, rows)][..n] == ds[..n];
    }
  }

  lemma SinglesSnoc(ds: seq<Disclosed>, d: Disclosed)
    ensures ShownSingles(ds + [d]) == ShownSingles(ds) + (if d.MailboxRows? then [] else [d.event])
  {
  }

  // Gathering loses and reorders nothing that matters: each mailbox's rows come
  // out complete and in order, in one group, and so do the single events.
  lemma {:induction false} GatheredIsComplete(events: seq<Event>, mailbox: string)
    ensures OneGroupEach(Gathered(events))
    ensures ShownRows(Gathered(events), mailbox) == MessageRows(events, mailbox)
    ensures ShownSingles(Gathered(events)) == Singles(events)
  {
    if events != [] {
      var front, last := events[..|events| - 1], events[|events| - 1];
      var ds := Gathered(front);
      GatheredIsComplete(front, mailbox);
      GatherKeepsPlaces(ds, last);
      match last {
        case Direct(_) => SinglesSnoc(ds, DirectEvent(last));
        case Backlog(_, _) => SinglesSnoc(ds, BacklogRows(last));
        case Message(m, rowId) =>
          var i := FindMailbox(ds, m);
          if i < 0 {
            SinglesSnoc(ds, MailboxRows(m, [rowId]));
          } else {
            SinglesOfChange(ds, i, m, ds[i].rows + [rowId]);
          }
      }
    }
  }

  // --- batches --------------------------------------------------------------

  lemma {:induction false} AdvanceConcat(cursors: Cursors, a: seq<Event>, b: seq<Event>)
    ensures Advance(cursors, a + b) == Advance(Advance(cursors, a), b)
    ensures Fresh(cursors, a + b) == Fresh(cursors, a) + Fresh(Advance(cursors, a), b)
  {
    if b == [] {
      assert a + b == a;
    } else {
      assert (a + b)[..|a + b| - 1] == a + b[..|b| - 1];
      AdvanceConcat(cursors, a, b[..|b| - 1]);
    }
  }

  lemma {:induction false} RowsConcat(a: seq<Event>, b: seq<Event>, mailbox: string)
    ensures MessageRows(a + b, mailbox) == MessageRows(a, mailbox) + MessageRows(b, mailbox)
  {
    if b == [] {
      assert a + b == a;
    } else {
      assert (a + b)[..|a + b| - 1] == a + b[..|b| - 1];
      RowsConcat(a, b[..|b| - 1], mailbox);
    }
  }

  // Planning two batches one after the other shows the rows, and reaches the
  // cursors, of planning them at once.
  lemma BatchesCompose(cursors: Cursors, a: seq<Event>, b: seq<Event>, mailbox: string)
    ensures Advance(Advance(cursors, a), b) == Advance(cursors, a + b)
    ensures ShownRows(Gathered(Fresh(cursors, a)), mailbox) + ShownRows(Gathered(Fresh(Advance(cursors, a), b)),
                                                                        mailbox)
         == ShownRows(Gathered(Fresh(cursors, a + b)), mailbox)
  {
    AdvanceConcat(cursors, a, b);
    GatheredIsComplete(Fresh(cursors, a), mailbox);
    GatheredIsComplete(Fresh(Advance(cursors, a), b), mailbox);
    GatheredIsComplete(Fresh(cursors, a + b), mailbox);
    RowsConcat(Fresh(cursors, a), Fresh(Advance(cursors, a), b), mailbox);
  }

  // --- rows rise ------------------------------------------------------------

  ghost predicate SameMailbox(a: Event, b: Event) {
    !a.Direct? && !b.Direct? && a.mailbox == b.mailbox
  }

  // Rows of one mailbox strictly rise.
  ghost predicate Rising(events: seq<Event>) {
    forall i, j :: 0 <= i < j < |events| && SameMailbox(events[i], events[j]) ==> Row(events[i]) < Row(events[j])
  }

  ghost predicate Above(cursors: Cursors, events: seq<Event>) {
    forall i :: 0 <= i < |events| && !events[i].Direct? ==> Row(events[i]) > Cursor(cursors, events[i].mailbox)
  }

  ghost predicate Below(events: seq<Event>, cursors: Cursors) {
    forall i :: 0 <= i < |events| && !events[i].Direct? ==> Row(events[i]) <= Cursor(cursors, events[i].mailbox)
  }

  lemma RisingConcat(a: seq<Event>, b: seq<Event>, cursors: Cursors)
    requires Rising(a) && Rising(b) && Below(a, cursors) && Above(cursors, b)
    ensures Rising(a + b)
  {
  }

  // What counts rises, starts above the old cursors and ends below the new ones.
  lemma {:induction false} FreshRises(cursors: Cursors, events: seq<Event>)
    ensures Rising(Fresh(cursors, events)) && Above(cursors, Fresh(cursors, events))
    ensures Below(Fresh(cursors, events), Advance(cursors, events))
    ensures forall mailbox :: Cursor(cursors, mailbox) <= Cursor(Advance(cursors, events), mailbox)
  {
    if events != [] {
      var front, last := events[..|events| - 1], events[|events| - 1];
      FreshRises(cursors, front);
      if Counts(Advance(cursors, front), last) {
        RisingConcat(Fresh(cursors, front), [last], Advance(cursors, front));
      }
    }
  }

  // Everything queued is shown exactly when rows rise per mailbox, from above the cursors.
  lemma {:induction false} AllShownIff(cursors: Cursors, events: seq<Event>)
    ensures Fresh(cursors, events) == events <==> Rising(events) && Above(cursors, events)
  {
    FreshRises(cursors, events);
    if Rising(events) && Above(cursors, events) { AllShown(cursors, events); }
  }

  predicate IsRow(e: Event, mailbox: string, row: nat) {
    !e.Direct? && e.mailbox == mailbox && Row(e) == row
  }

  ghost predicate RowAmong(events: seq<Event>, mailbox: string, row: nat) {
    exists i :: 0 <= i < |events| && IsRow(events[i], mailbox, row)
  }

  // A cursor is the old one or the row of an event.
  lemma {:induction false} CursorOrigin(cursors: Cursors, events: seq<Event>, mailbox: string)
    ensures var c := Cursor(Advance(cursors, events), mailbox);
      c == Cursor(cursors, mailbox) || RowAmong(events, mailbox, c)
  {
    if events != [] {
      var n := |events| - 1;
      CursorOrigin(cursors, events[..n], mailbox);
      var c := Cursor(Advance(cursors, events[..n]), mailbox);
      if RowAmong(events[..n], mailbox, c) {
        var i :| 0 <= i < n && IsRow(events[..n][i], mailbox, c);
        assert IsRow(events[i], mailbox, c);
      }
    }
  }

  lemma LastCounts(cursors: Cursors, front: seq<Event>, last: Event)
    requires Rising(front + [last]) && Above(cursors, [last])
    ensures Counts(Advance(cursors, front), last)
  {
    if !last.Direct? {
      var c := Cursor(Advance(cursors, front), last.mailbox);
      CursorOrigin(cursors, front, last.mailbox);
      assert [last][0] == last;
      if RowAmong(front, last.mailbox, c) {
        var i :| 0 <= i < |front| && IsRow(front[i], last.mailbox, c);
        var events := front + [last];
        assert events[i] == front[i] && events[|front|] == last;
        assert SameMailbox(events[i], events[|front|]);
      }
    }
  }

  lemma {:induction false} AllShown(cursors: Cursors, events: seq<Event>)
    requires Rising(events) && Above(cursors, events)
    ensures Fresh(cursors, events) == events
  {
    if events != [] {
      var front, last := events[..|events| - 1], events[|events| - 1];
      assert events == front + [last];
      AllShown(cursors, front);
      LastCounts(cursors, front, last);
    }
  }
}
