// Draining, committing, failing, requeueing and restarting: what of the queue ends
// up in the ledger.
module DisclosureRuns {
  import opened Prelude
  import opened Disclosure

  // held are the cursors of the running host, durable those of the database; log is
  // what committed batches disclosed.
  datatype Sys = Sys(queue: seq<Event>, batch: Option<seq<Event>>, held: Cursors, durable: Cursors, log: seq<Event>,
                     synced: bool)

  datatype CommitEnd = Succeeds | Fails | AckLost

  datatype Action = Arrive(event: Event) | Drain | Commit(end: CommitEnd) | Resync | Restart

  const Empty := Sys([], None, map[], map[], [], true)

  // A failed batch goes back to the tail of the queue.
  function Requeued(s: Sys): Sys
    requires s.batch.Some?
  {
    s.(queue := s.queue + s.batch.value, batch := None)
  }

  // The new cursors travel with the messages in one transaction.
  function AfterCommit(s: Sys, end: CommitEnd): Sys {
    if s.batch.None? then s
    else
      var events := s.batch.value;
      var cursors := Advance(s.held, events);
      var log := s.log + Fresh(s.held, events);
      if end.Fails? || !s.synced then Requeued(s)
      else if end.AckLost? then Requeued(s).(durable := cursors, log := log, synced := false)
      else s.(batch := None, held := cursors, durable := cursors, log := log)
  }

  function Step(s: Sys, a: Action): Sys {
    match a
    case Arrive(event) => s.(queue := s.queue + [event])
    case Drain => if s.batch.None? then s.(batch := Some(s.queue), queue := []) else s
    case Commit(end) => AfterCommit(s, end)
    case Resync => if s.batch.None? then s.(held := s.durable, synced := true) else s
    case Restart => s.(queue := [], batch := None, held := s.durable, synced := true)
  }

  function Run(s: Sys, actions: seq<Action>): Sys {
    if actions == [] then s else Step(Run(s, actions[..|actions| - 1]), actions[|actions| - 1])
  }

  // --- at most once ---------------------------------------------------------

  ghost predicate Inv(s: Sys) {
    && Rising(s.log) && Below(s.log, s.durable)
    && (s.synced ==> s.held == s.durable)
  }

  lemma BelowMore(log: seq<Event>, more: seq<Event>, before: Cursors, after: Cursors)
    requires Below(log, before) && Below(more, after)
    requires forall mailbox :: Cursor(before, mailbox) <= Cursor(after, mailbox)
    ensures Below(log + more, after)
  {
  }

  lemma StepKeeps(s: Sys, a: Action)
    requires Inv(s)
    ensures Inv(Step(s, a))
  {
    if a.Commit? && s.batch.Some? && s.synced && !a.end.Fails? {
      var events := s.batch.value;
      FreshRises(s.held, events);
      RisingConcat(s.log, Fresh(s.held, events), s.durable);
      BelowMore(s.log, Fresh(s.held, events), s.durable, Advance(s.held, events));
    }
  }

  // Over every run, with failed commits, lost acknowledgements, duplicates and
  // restarts: the disclosed rows of a mailbox strictly rise, so none is disclosed twice.
  lemma {:induction false} AtMostOnce(actions: seq<Action>)
    ensures Inv(Run(Empty, actions)) && Rising(Run(Empty, actions).log)
  {
    if actions != [] {
      AtMostOnce(actions[..|actions| - 1]);
      StepKeeps(Run(Empty, actions[..|actions| - 1]), actions[|actions| - 1]);
    }
  }

  // --- nothing skipped ------------------------------------------------------

  // On the way to disclosure: the drained batch, then the queue.
  function Pipeline(s: Sys): seq<Event> {
    (if s.batch.Some? then s.batch.value else []) + s.queue
  }

  // The rows of one mailbox, whatever kind of event brings them.
  function AllRows(events: seq<Event>, mailbox: string): seq<nat> {
    if events == [] then []
    else
      var last := events[|events| - 1];
      AllRows(events[..|events| - 1], mailbox)
      + (if !last.Direct? && last.mailbox == mailbox then [Row(last)] else [])
  }

  lemma {:induction false} AllRowsConcat(a: seq<Event>, b: seq<Event>, mailbox: string)
    ensures AllRows(a + b, mailbox) == AllRows(a, mailbox) + AllRows(b, mailbox)
  {
    if b == [] {
      assert a + b == a;
    } else {
      assert (a + b)[..|a + b| - 1] == a + b[..|b| - 1];
      AllRowsConcat(a, b[..|b| - 1], mailbox);
    }
  }

  ghost predicate NoMailboxIn(a: seq<Event>, b: seq<Event>) {
    forall i, j :: 0 <= i < |a| && 0 <= j < |b| ==> !SameMailbox(a[i], b[j])
  }

  // Rows arrive in order, and a commit that fails does so before any newer row of
  // its mailboxes has come in.
  ghost predicate Orderly(s: Sys, a: Action) {
    match a
    case Arrive(event) => Rising(Pipeline(s) + [event]) && Above(s.held, [event])
    case Commit(Succeeds) => true
    case Commit(Fails) => NotOvertaken(s)
    case Drain => true
    case _ => false
  }

  ghost predicate NotOvertaken(s: Sys) {
    s.batch.Some? ==> NoMailboxIn(s.batch.value, s.queue)
  }

  // What is on the way rises from above the cursors.
  ghost predicate OnTrack(s: Sys) {
    s.synced && Rising(Pipeline(s)) && Above(s.held, Pipeline(s))
  }

  lemma RisingParts(a: seq<Event>, b: seq<Event>)
    requires Rising(a + b)
    ensures Rising(a) && Rising(b)
  {
    var c := a + b;
    forall i, j | 0 <= i < j < |a| && SameMailbox(a[i], a[j]) ensures Row(a[i]) < Row(a[j]) {
      assert c[i] == a[i] && c[j] == a[j];
    }
    forall i, j | 0 <= i < j < |b| && SameMailbox(b[i], b[j]) ensures Row(b[i]) < Row(b[j]) {
      assert c[|a| + i] == b[i] && c[|a| + j] == b[j];
    }
  }

  lemma AboveParts(cursors: Cursors, a: seq<Event>, b: seq<Event>)
    ensures Above(cursors, a + b) <==> Above(cursors, a) && Above(cursors, b)
  {
    var c := a + b;
    if Above(cursors, c) {
      forall i | 0 <= i < |a| && !a[i].Direct? ensures Row(a[i]) > Cursor(cursors, a[i].mailbox) {
        assert c[i] == a[i];
      }
      forall i | 0 <= i < |b| && !b[i].Direct? ensures Row(b[i]) > Cursor(cursors, b[i].mailbox) {
        assert c[|a| + i] == b[i];
      }
    }
  }

  // Two runs of events may change places exactly when they have no mailbox in common.
  lemma SwapRises(a: seq<Event>, b: seq<Event>)
    requires Rising(a + b)
    ensures Rising(b + a) <==> NoMailboxIn(a, b)
  {
    RisingParts(a, b);
    var c, d := a + b, b + a;
    if NoMailboxIn(a, b) {
      forall i, j | 0 <= i < j < |d| && SameMailbox(d[i], d[j]) ensures Row(d[i]) < Row(d[j]) {
        assert i < |b| <= j ==> !SameMailbox(a[j - |b|], b[i]);
        if j < |b| {
          assert d[i] == b[i] && d[j] == b[j];
        } else {
          assert d[i] == a[i - |b|] && d[j] == a[j - |b|];
        }
      }
    } else {
      var i, j :| 0 <= i < |a| && 0 <= j < |b| && SameMailbox(a[i], b[j]);
      assert c[i] == a[i] && c[|a| + j] == b[j];
      assert d[j] == b[j] && d[|b| + i] == a[i];
    }
  }

  lemma {:induction false} NoRows(events: seq<Event>, mailbox: string)
    requires forall i :: 0 <= i < |events| && !events[i].Direct? ==> events[i].mailbox != mailbox
    ensures AllRows(events, mailbox) == []
  {
    if events != [] { NoRows(events[..|events| - 1], mailbox); }
  }

  lemma SwapRows(a: seq<Event>, b: seq<Event>, mailbox: string)
    requires NoMailboxIn(a, b)
    ensures AllRows(a + b, mailbox) == AllRows(b + a, mailbox)
  {
    AllRowsConcat(a, b, mailbox);
    AllRowsConcat(b, a, mailbox);
    if exists i :: 0 <= i < |a| && !a[i].Direct? && a[i].mailbox == mailbox {
      var i :| 0 <= i < |a| && !a[i].Direct? && a[i].mailbox == mailbox;
      forall j | 0 <= j < |b| && !b[j].Direct? ensures b[j].mailbox != mailbox { assert !SameMailbox(a[i], b[j]); }
      NoRows(b, mailbox);
    } else {
      NoRows(a, mailbox);
    }
  }

  // The cursors after a batch are still below what follows it.
  lemma RestAbove(cursors: Cursors, batch: seq<Event>, rest: seq<Event>)
    requires Rising(batch + rest) && Above(cursors, rest)
    ensures Above(Advance(cursors, batch), rest)
  {
    forall j | 0 <= j < |rest| && !rest[j].Direct?
      ensures Row(rest[j]) > Cursor(Advance(cursors, batch), rest[j].mailbox)
    {
      var mailbox := rest[j].mailbox;
      var c := Cursor(Advance(cursors, batch), mailbox);
      CursorOrigin(cursors, batch, mailbox);
      if RowAmong(batch, mailbox, c) {
        var i :| 0 <= i < |batch| && IsRow(batch[i], mailbox, c);
        var all := batch + rest;
        assert all[i] == batch[i] && all[|batch| + j] == rest[j];
        assert SameMailbox(all[i], all[|batch| + j]);
      }
    }
  }

  // A batch on track is disclosed whole.
  lemma CommitOnTrack(s: Sys)
    requires OnTrack(s) && s.batch.Some?
    ensures var t := AfterCommit(s, Succeeds); OnTrack(t) && t.log == s.log + s.batch.value
  {
    var batch := s.batch.value;
    RisingParts(batch, s.queue);
    AboveParts(s.held, batch, s.queue);
    AllShown(s.held, batch);
    RestAbove(s.held, batch, s.queue);
    assert [] + s.queue == s.queue;
  }

  lemma RequeuedPipeline(s: Sys)
    requires s.batch.Some?
    ensures Pipeline(s) == s.batch.value + s.queue && Pipeline(Requeued(s)) == s.queue + s.batch.value
  {
  }

  // A failed commit keeps what is on the way on track exactly when nothing newer of
  // its mailboxes is queued.
  lemma FailOnTrack(s: Sys)
    requires OnTrack(s) && s.batch.Some?
    ensures OnTrack(AfterCommit(s, Fails)) <==> NoMailboxIn(s.batch.value, s.queue)
  {
    RequeuedPipeline(s);
    SwapRises(s.batch.value, s.queue);
    AboveParts(s.held, s.batch.value, s.queue);
    AboveParts(s.held, s.queue, s.batch.value);
  }

  // Retried after a failure, the next batch is disclosed whole exactly when nothing
  // newer was queued before the failure.
  lemma RetryShowsAll(s: Sys)
    requires OnTrack(s) && s.batch.Some?
    ensures var t := AfterCommit(s, Fails);
      var u := AfterCommit(Step(t, Drain), Succeeds);
      u.log == s.log + Pipeline(t) <==> NoMailboxIn(s.batch.value, s.queue)
  {
    var all := s.queue + s.batch.value;
    RequeuedPipeline(s);
    RetryLog(s);
    AllShownIff(s.held, all);
    FreshAfter(s.log, Fresh(s.held, all), all);
    FailOnTrack(s);
  }

  lemma RetryLog(s: Sys)
    requires s.synced && s.batch.Some?
    ensures AfterCommit(Step(AfterCommit(s, Fails), Drain), Succeeds).log
        == s.log + Fresh(s.held, s.queue + s.batch.value)
  {
  }

  lemma FreshAfter(log: seq<Event>, shown: seq<Event>, all: seq<Event>)
    ensures log + shown == log + all ==> shown == all
  {
    assert (log + shown)[|log|..] == shown && (log + all)[|log|..] == all;
  }

  // Disclosed rows followed by rows on the way.
  function Account(s: Sys, mailbox: string): seq<nat> {
    AllRows(s.log, mailbox) + AllRows(Pipeline(s), mailbox)
  }

  lemma ArrivePipeline(s: Sys, event: Event)
    ensures Pipeline(Step(s, Arrive(event))) == Pipeline(s) + [event]
  {
  }

  lemma ArriveOnTrack(s: Sys, event: Event)
    requires OnTrack(s) && Rising(Pipeline(s) + [event]) && Above(s.held, [event])
    ensures OnTrack(Step(s, Arrive(event)))
  {
    ArrivePipeline(s, event);
    AboveParts(s.held, Pipeline(s), [event]);
  }

  lemma ArriveAccount(s: Sys, event: Event, mailbox: string)
    ensures Account(Step(s, Arrive(event)), mailbox) == Account(s, mailbox) + AllRows([event], mailbox)
  {
    ArrivePipeline(s, event);
    AllRowsConcat(Pipeline(s), [event], mailbox);
    assert AllRows(s.log, mailbox) + (AllRows(Pipeline(s), mailbox) + AllRows([event], mailbox))
        == (AllRows(s.log, mailbox) + AllRows(Pipeline(s), mailbox)) + AllRows([event], mailbox);
  }

  lemma MovedRows(log: seq<Event>, batch: seq<Event>, queue: seq<Event>, mailbox: string)
    ensures AllRows(log + batch, mailbox) + AllRows(queue, mailbox)
        == AllRows(log, mailbox) + AllRows(batch + queue, mailbox)
  {
    AllRowsConcat(log, batch, mailbox);
    AllRowsConcat(batch, queue, mailbox);
  }

  lemma CommitAccount(s: Sys, mailbox: string)
    requires OnTrack(s) && s.batch.Some?
    ensures Account(AfterCommit(s, Succeeds), mailbox) == Account(s, mailbox)
  {
    var t := AfterCommit(s, Succeeds);
    assert t.log == s.log + s.batch.value by { CommitOnTrack(s); }
    assert Pipeline(t) == s.queue;
    MovedRows(s.log, s.batch.value, s.queue, mailbox);
  }

  lemma FailAccount(s: Sys, mailbox: string)
    requires s.batch.Some? && NoMailboxIn(s.batch.value, s.queue)
    ensures Account(AfterCommit(s, Fails), mailbox) == Account(s, mailbox)
  {
    SwapRows(s.batch.value, s.queue, mailbox);
    assert [] + (s.queue + s.batch.value) == s.queue + s.batch.value;
  }

  lemma DrainOnTrack(s: Sys)
    ensures Pipeline(Step(s, Drain)) == Pipeline(s)
  {
  }

  lemma OrderlyStep(s: Sys, a: Action, mailbox: string)
    requires OnTrack(s) && Orderly(s, a)
    ensures OnTrack(Step(s, a))
    ensures Account(Step(s, a), mailbox)
         == Account(s, mailbox) + (if a.Arrive? then AllRows([a.event], mailbox) else [])
  {
    match a {
      case Arrive(event) =>
        ArriveOnTrack(s, event);
        ArriveAccount(s, event, mailbox);
      case Drain => DrainOnTrack(s);
      case Commit(end) =>
        if s.batch.Some? {
          if end.Succeeds? {
            CommitOnTrack(s);
            CommitAccount(s, mailbox);
          } else {
            FailOnTrack(s);
            FailAccount(s, mailbox);
          }
        }
    }
  }

  function Arrived(actions: seq<Action>): seq<Event> {
    if actions == [] then []
    else
      var last := actions[|actions| - 1];
      Arrived(actions[..|actions| - 1]) + (if last.Arrive? then [last.event] else [])
  }

  // Rows arrive, are drained, and commits succeed or fail.
  predicate Plain(a: Action) {
    a.Arrive? || a.Drain? || (a.Commit? && !a.end.AckLost?)
  }

  // Rows of a mailbox arrive in rising order, from 1 on.
  ghost predicate InOrderRun(actions: seq<Action>) {
    && (forall i :: 0 <= i < |actions| ==> Plain(actions[i]))
    && Rising(Arrived(actions)) && Above(map[], Arrived(actions))
  }

  // No commit fails while a newer row of one of its mailboxes is queued.
  ghost predicate NeverOvertaken(actions: seq<Action>) {
    || actions == []
    || (NeverOvertaken(actions[..|actions| - 1])
        && (actions[|actions| - 1] == Commit(Fails) ==> NotOvertaken(Run(Empty, actions[..|actions| - 1]))))
  }

  lemma InOrderFront(actions: seq<Action>)
    requires InOrderRun(actions) && actions != []
    ensures InOrderRun(actions[..|actions| - 1])
  {
    var front, last := actions[..|actions| - 1], actions[|actions| - 1];
    RisingParts(Arrived(front), if last.Arrive? then [last.event] else []);
    AboveParts(map[], Arrived(front), if last.Arrive? then [last.event] else []);
  }

  ghost predicate Accounted(s: Sys, arrived: seq<Event>) {
    forall mailbox :: Account(s, mailbox) == AllRows(arrived, mailbox)
  }

  lemma {:induction false} RowsAmong(events: seq<Event>, mailbox: string, row: nat)
    ensures row in AllRows(events, mailbox) <==> RowAmong(events, mailbox, row)
  {
    if events != [] {
      var n := |events| - 1;
      RowsAmong(events[..n], mailbox, row);
      if RowAmong(events[..n], mailbox, row) {
        var i :| 0 <= i < n && IsRow(events[..n][i], mailbox, row);
        assert IsRow(events[i], mailbox, row);
      }
      if RowAmong(events, mailbox, row) {
        var i :| 0 <= i <= n && IsRow(events[i], mailbox, row);
        assert i < n ==> IsRow(events[..n][i], mailbox, row);
      }
    }
  }

  // The held cursor of a mailbox is the row of something disclosed.
  ghost predicate CursorsLogged(s: Sys) {
    forall mailbox :: Cursor(s.held, mailbox) > 0 ==> RowAmong(s.log, mailbox, Cursor(s.held, mailbox))
  }

  // The cursors after a batch come from before it or from what it showed.
  lemma {:induction false} CursorShown(cursors: Cursors, events: seq<Event>, mailbox: string)
    ensures var c := Cursor(Advance(cursors, events), mailbox);
      c == Cursor(cursors, mailbox) || RowAmong(Fresh(cursors, events), mailbox, c)
  {
    if events != [] {
      var n := |events| - 1;
      CursorShown(cursors, events[..n], mailbox);
      var front, c := Advance(cursors, events[..n]), Cursor(Advance(cursors, events), mailbox);
      if Counts(front, events[n]) {
        var before := Fresh(cursors, events[..n]);
        assert Fresh(cursors, events) == before + [events[n]];
        if c == Cursor(front, mailbox) {
          RowAmongConcat(before, [events[n]], mailbox, c);
        } else {
          assert IsRow((before + [events[n]])[|before|], mailbox, c);
        }
      } else {
        assert Fresh(cursors, events) == Fresh(cursors, events[..n]);
      }
    }
  }

  lemma RowAmongConcat(a: seq<Event>, b: seq<Event>, mailbox: string, row: nat)
    ensures RowAmong(a + b, mailbox, row) <==> RowAmong(a, mailbox, row) || RowAmong(b, mailbox, row)
  {
    if RowAmong(a, mailbox, row) {
      var i :| 0 <= i < |a| && IsRow(a[i], mailbox, row);
      assert IsRow((a + b)[i], mailbox, row);
    }
    if RowAmong(b, mailbox, row) {
      var i :| 0 <= i < |b| && IsRow(b[i], mailbox, row);
      assert IsRow((a + b)[|a| + i], mailbox, row);
    }
  }

  lemma StepLogs(s: Sys, a: Action)
    requires CursorsLogged(s) && Plain(a)
    ensures CursorsLogged(Step(s, a))
  {
    var t := Step(s, a);
    if a == Commit(Succeeds) && s.batch.Some? && s.synced {
      forall mailbox | Cursor(t.held, mailbox) > 0 ensures RowAmong(t.log, mailbox, Cursor(t.held, mailbox)) {
        CursorShown(s.held, s.batch.value, mailbox);
        RowAmongConcat(s.log, Fresh(s.held, s.batch.value), mailbox, Cursor(t.held, mailbox));
      }
    }
  }

  // Every row seen so far is one that arrived.
  lemma SeenArrived(s: Sys, arrived: seq<Event>, mailbox: string, row: nat)
    requires Accounted(s, arrived)
    ensures RowAmong(arrived, mailbox, row) <==> RowAmong(s.log, mailbox, row) || RowAmong(Pipeline(s), mailbox, row)
  {
    RowsAmong(arrived, mailbox, row);
    RowsAmong(s.log, mailbox, row);
    RowsAmong(Pipeline(s), mailbox, row);
    assert Account(s, mailbox) == AllRows(arrived, mailbox);
  }

  lemma NewestArrives(arrived: seq<Event>, event: Event, row: nat)
    requires Rising(arrived + [event]) && !event.Direct? && RowAmong(arrived, event.mailbox, row)
    ensures row < Row(event)
  {
    var i :| 0 <= i < |arrived| && IsRow(arrived[i], event.mailbox, row);
    assert (arrived + [event])[i] == arrived[i] && (arrived + [event])[|arrived|] == event;
  }

  // A row that arrives in order is beyond everything seen so far.
  lemma ArrivalIsOrderly(s: Sys, arrived: seq<Event>, event: Event)
    requires OnTrack(s) && Accounted(s, arrived) && CursorsLogged(s)
    requires Rising(arrived + [event]) && Above(map[], [event])
    ensures Orderly(s, Arrive(event))
  {
    var line := Pipeline(s) + [event];
    assert [event][0] == event;
    forall i, j | 0 <= i < j < |line| && SameMailbox(line[i], line[j]) ensures Row(line[i]) < Row(line[j]) {
      if j == |Pipeline(s)| {
        assert IsRow(Pipeline(s)[i], event.mailbox, Row(line[i]));
        SeenArrived(s, arrived, event.mailbox, Row(line[i]));
        NewestArrives(arrived, event, Row(line[i]));
      } else {
        assert line[i] == Pipeline(s)[i] && line[j] == Pipeline(s)[j];
      }
    }
    if !event.Direct? && Cursor(s.held, event.mailbox) > 0 {
      SeenArrived(s, arrived, event.mailbox, Cursor(s.held, event.mailbox));
      NewestArrives(arrived, event, Cursor(s.held, event.mailbox));
    }
  }

  lemma AccountedStep(s: Sys, a: Action, arrived: seq<Event>)
    requires OnTrack(s) && Orderly(s, a) && Accounted(s, arrived)
    ensures OnTrack(Step(s, a))
    ensures Accounted(Step(s, a), arrived + (if a.Arrive? then [a.event] else []))
  {
    OrderlyStep(s, a, "");
    forall mailbox ensures
      Account(Step(s, a), mailbox) == AllRows(arrived + (if a.Arrive? then [a.event] else []), mailbox)
    {
      OrderlyStep(s, a, mailbox);
      assert Account(s, mailbox) == AllRows(arrived, mailbox);
      if a.Arrive? { AllRowsConcat(arrived, [a.event], mailbox); } else { assert arrived + [] == arrived; }
    }
  }

  // --- overtaken rows -------------------------------------------------------

  predicate IsNewer(e: Event, mailbox: string, row: nat) {
    !e.Direct? && e.mailbox == mailbox && Row(e) > row
  }

  ghost predicate NewerAmong(events: seq<Event>, mailbox: string, row: nat) {
    exists i :: 0 <= i < |events| && IsNewer(events[i], mailbox, row)
  }

  // The row only ever comes after a newer one.
  ghost predicate Behind(events: seq<Event>, mailbox: string, row: nat) {
    forall i :: 0 <= i < |events| && IsRow(events[i], mailbox, row) ==> NewerAmong(events[..i], mailbox, row)
  }

  // The row was not disclosed, and will not be.
  ghost predicate Lost(s: Sys, mailbox: string, row: nat) {
    && !RowAmong(s.log, mailbox, row)
    && (Cursor(s.held, mailbox) >= row
        || (Behind(s.queue, mailbox, row) && (s.batch.Some? ==> Behind(s.batch.value, mailbox, row))))
  }

  lemma BehindConcat(a: seq<Event>, b: seq<Event>, mailbox: string, row: nat)
    requires Behind(a, mailbox, row)
    requires Behind(b, mailbox, row) || NewerAmong(a, mailbox, row)
    ensures Behind(a + b, mailbox, row)
  {
    var c := a + b;
    forall i | 0 <= i < |c| && IsRow(c[i], mailbox, row) ensures NewerAmong(c[..i], mailbox, row) {
      if i < |a| {
        assert c[..i] == a[..i] && c[i] == a[i];
      } else if NewerAmong(a, mailbox, row) {
        var h :| 0 <= h < |a| && IsNewer(a[h], mailbox, row);
        assert c[..i][h] == a[h];
      } else {
        var k := i - |a|;
        assert b[k] == c[i];
        var h :| 0 <= h < k && IsNewer(b[..k][h], mailbox, row);
        assert c[..i][|a| + h] == b[..k][h];
      }
    }
  }

  lemma {:induction false} CursorPast(cursors: Cursors, events: seq<Event>, mailbox: string, row: nat)
    requires NewerAmong(events, mailbox, row)
    ensures Cursor(Advance(cursors, events), mailbox) > row
  {
    var n := |events| - 1;
    var h :| 0 <= h <= n && IsNewer(events[h], mailbox, row);
    if h < n {
      assert IsNewer(events[..n][h], mailbox, row);
      CursorPast(cursors, events[..n], mailbox, row);
    }
  }

  lemma {:induction false} BehindNotShown(cursors: Cursors, events: seq<Event>, mailbox: string, row: nat)
    requires Cursor(cursors, mailbox) >= row || Behind(events, mailbox, row)
    ensures !RowAmong(Fresh(cursors, events), mailbox, row)
  {
    if events != [] {
      var n := |events| - 1;
      var front, last := events[..n], events[n];
      forall i | 0 <= i < n && IsRow(front[i], mailbox, row) && Behind(events, mailbox, row)
        ensures NewerAmong(front[..i], mailbox, row)
      {
        assert front[i] == events[i] && front[..i] == events[..i];
      }
      BehindNotShown(cursors, front, mailbox, row);
      if Counts(Advance(cursors, front), last) && IsRow(last, mailbox, row) {
        FreshRises(cursors, front);
        assert Cursor(cursors, mailbox) < row;
        CursorPast(cursors, front, mailbox, row);
      }
      RowAmongConcat(Fresh(cursors, front), [last], mailbox, row);
    }
  }

  lemma LostStays(s: Sys, a: Action, mailbox: string, row: nat)
    requires Lost(s, mailbox, row) && Plain(a) && (a.Arrive? ==> !IsRow(a.event, mailbox, row))
    ensures Lost(Step(s, a), mailbox, row)
  {
    match a {
      case Arrive(event) =>
        if Behind(s.queue, mailbox, row) { BehindConcat(s.queue, [event], mailbox, row); }
      case Drain =>
      case Commit(end) =>
        if s.batch.Some? {
          var batch := s.batch.value;
          if end.Fails? || !s.synced {
            if Behind(s.queue, mailbox, row) && Behind(batch, mailbox, row) {
              BehindConcat(s.queue, batch, mailbox, row);
            }
          } else {
            BehindNotShown(s.held, batch, mailbox, row);
            RowAmongConcat(s.log, Fresh(s.held, batch), mailbox, row);
            FreshRises(s.held, batch);
          }
        }
    }
  }

  // A failed commit loses each row of the batch that a newer row now overtakes.
  lemma OvertakenIsLost(s: Sys, i: nat, j: nat)
    requires OnTrack(s) && Inv(s) && s.batch.Some?
    requires i < |s.batch.value| && j < |s.queue| && SameMailbox(s.batch.value[i], s.queue[j])
    ensures Lost(AfterCommit(s, Fails), s.batch.value[i].mailbox, Row(s.batch.value[i]))
  {
    var batch, queue := s.batch.value, s.queue;
    var mailbox, row := batch[i].mailbox, Row(batch[i]);
    var line := batch + queue;
    assert line == Pipeline(s);
    forall k | 0 <= k < |queue| && !queue[k].Direct? && queue[k].mailbox == mailbox
      ensures IsNewer(queue[k], mailbox, row)
    {
      assert line[i] == batch[i] && line[|batch| + k] == queue[k] && SameMailbox(line[i], line[|batch| + k]);
    }
    assert IsNewer(queue[j], mailbox, row);
    BehindConcat(queue, batch, mailbox, row);
    assert line[i] == batch[i];
  }

  lemma {:induction false} RisingRows(events: seq<Event>, mailbox: string)
    requires Rising(events)
    ensures RowsRise(AllRows(events, mailbox))
  {
    if events != [] {
      var n := |events| - 1;
      var front, last := events[..n], events[n];
      assert events == front + [last];
      RisingParts(front, [last]);
      RisingRows(front, mailbox);
      if !last.Direct? && last.mailbox == mailbox {
        forall row | row in AllRows(front, mailbox) ensures row < Row(last) {
          RowsAmong(front, mailbox, row);
          NewestArrives(front, last, row);
        }
        SnocRises(AllRows(front, mailbox), Row(last));
      }
    }
  }

  lemma SnocRises(rows: seq<nat>, row: nat)
    requires RowsRise(rows) && forall r :: r in rows ==> r < row
    ensures RowsRise(rows + [row])
  {
    forall i, j | 0 <= i < j <= |rows| ensures (rows + [row])[i] < (rows + [row])[j] {
      assert rows[i] in rows;
    }
  }

  ghost predicate RowsRise(rows: seq<nat>) {
    forall i, j :: 0 <= i < j < |rows| ==> rows[i] < rows[j]
  }

  // Where rows rise as numbers, a row has only older ones before it.
  lemma OlderBefore(before: seq<Event>, after: seq<Event>, mailbox: string, h: nat, row: nat)
    requires RowsRise(AllRows(before + after, mailbox)) && RowAmong(after, mailbox, row)
    requires h < |before| && !before[h].Direct? && before[h].mailbox == mailbox
    ensures Row(before[h]) < row
  {
    AllRowsConcat(before, after, mailbox);
    assert IsRow(before[h], mailbox, Row(before[h]));
    RowsAmong(before, mailbox, Row(before[h]));
    RowsAmong(after, mailbox, row);
    LowerInFront(AllRows(before, mailbox), AllRows(after, mailbox), Row(before[h]), row);
  }

  lemma LowerInFront(front: seq<nat>, back: seq<nat>, low: nat, high: nat)
    requires RowsRise(front + back) && low in front && high in back
    ensures low < high
  {
    var i :| 0 <= i < |front| && front[i] == low;
    var j :| 0 <= j < |back| && back[j] == high;
    assert (front + back)[i] == front[i] && (front + back)[|front| + j] == back[j];
  }

  // A row past its cursor is not on the way when everything seen rises.
  lemma PastIsNotOnTheWay(s: Sys, mailbox: string, row: nat)
    requires CursorsLogged(s) && 0 < row <= Cursor(s.held, mailbox)
    requires RowsRise(AllRows(s.log + Pipeline(s), mailbox))
    ensures !RowAmong(Pipeline(s), mailbox, row)
  {
    if RowAmong(Pipeline(s), mailbox, row) {
      var i :| 0 <= i < |s.log| && IsRow(s.log[i], mailbox, Cursor(s.held, mailbox));
      OlderBefore(s.log, Pipeline(s), mailbox, i, row);
    }
  }

  lemma BehindIsNotOnTheWay(before: seq<Event>, line: seq<Event>, mailbox: string, row: nat)
    requires Behind(line, mailbox, row) && RowsRise(AllRows(before + line, mailbox))
    ensures !RowAmong(line, mailbox, row)
  {
    if RowAmong(line, mailbox, row) {
      var i :| 0 <= i < |line| && IsRow(line[i], mailbox, row);
      var h :| 0 <= h < i && IsNewer(line[..i][h], mailbox, row);
      var front, back := before + line[..i], line[i..];
      assert before + line == front + back;
      assert IsRow(back[0], mailbox, row) && front[|before| + h] == line[..i][h];
      OlderBefore(front, back, mailbox, |before| + h, row);
    }
  }

  lemma LostIsMissing(s: Sys, arrived: seq<Event>, mailbox: string, row: nat)
    requires Lost(s, mailbox, row) && CursorsLogged(s)
    requires Rising(arrived) && RowAmong(arrived, mailbox, row) && row > 0
    ensures Account(s, mailbox) != AllRows(arrived, mailbox)
  {
    if Account(s, mailbox) == AllRows(arrived, mailbox) {
      RisingRows(arrived, mailbox);
      AllRowsConcat(s.log, Pipeline(s), mailbox);
      if Cursor(s.held, mailbox) >= row {
        PastIsNotOnTheWay(s, mailbox, row);
      } else {
        if s.batch.Some? {
          BehindConcat(s.batch.value, s.queue, mailbox, row);
        } else {
          assert Pipeline(s) == s.queue;
        }
        BehindIsNotOnTheWay(s.log, Pipeline(s), mailbox, row);
      }
      RowsAmong(arrived, mailbox, row);
      RowsAmong(s.log, mailbox, row);
      RowsAmong(Pipeline(s), mailbox, row);
    }
  }

  ghost predicate SomeLost(s: Sys, arrived: seq<Event>) {
    exists mailbox, row :: RowAmong(arrived, mailbox, row) && Lost(s, mailbox, row)
  }

  lemma SomeLostStays(s: Sys, a: Action, arrived: seq<Event>)
    requires SomeLost(s, arrived) && Plain(a)
    requires var more := if a.Arrive? then [a.event] else []; Rising(arrived + more)
    ensures SomeLost(Step(s, a), arrived + (if a.Arrive? then [a.event] else []))
  {
    var mailbox, row :| RowAmong(arrived, mailbox, row) && Lost(s, mailbox, row);
    if a.Arrive? && IsRow(a.event, mailbox, row) { NewestArrives(arrived, a.event, row); }
    LostStays(s, a, mailbox, row);
    RowAmongConcat(arrived, if a.Arrive? then [a.event] else [], mailbox, row);
  }

  lemma OvertakeLoses(s: Sys, arrived: seq<Event>)
    requires OnTrack(s) && Inv(s) && Accounted(s, arrived) && !NotOvertaken(s)
    ensures SomeLost(AfterCommit(s, Fails), arrived)
  {
    var i, j :| 0 <= i < |s.batch.value| && 0 <= j < |s.queue| && SameMailbox(s.batch.value[i], s.queue[j]);
    var e := s.batch.value[i];
    OvertakenIsLost(s, i, j);
    assert IsRow(Pipeline(s)[i], e.mailbox, Row(e));
    SeenArrived(s, arrived, e.mailbox, Row(e));
  }

  // What a run in order comes to, one way or the other.
  ghost predicate Outcome(actions: seq<Action>) {
    var s, arrived := Run(Empty, actions), Arrived(actions);
    && CursorsLogged(s)
    && (NeverOvertaken(actions) ==> OnTrack(s) && Accounted(s, arrived))
    && (!NeverOvertaken(actions) ==> SomeLost(s, arrived))
  }

  lemma OutcomeStep(actions: seq<Action>)
    requires actions != [] && InOrderRun(actions) && Outcome(actions[..|actions| - 1])
    ensures Outcome(actions)
  {
    var front, a := actions[..|actions| - 1], actions[|actions| - 1];
    var s, arrived := Run(Empty, front), Arrived(front);
    var more := if a.Arrive? then [a.event] else [];
    assert Arrived(actions) == arrived + more;
    StepLogs(s, a);
    AtMostOnce(front);
    if !NeverOvertaken(front) {
      SomeLostStays(s, a, arrived);
    } else if a == Commit(Fails) && !NotOvertaken(s) {
      OvertakeLoses(s, arrived);
      assert arrived + [] == arrived;
    } else {
      AboveParts(map[], arrived, more);
      if a.Arrive? { ArrivalIsOrderly(s, arrived, a.event); }
      AccountedStep(s, a, arrived);
    }
  }

  lemma {:induction false} RunOutcome(actions: seq<Action>)
    requires InOrderRun(actions)
    ensures Outcome(actions)
  {
    if actions != [] {
      InOrderFront(actions);
      RunOutcome(actions[..|actions| - 1]);
      OutcomeStep(actions);
    }
  }

  // When rows arrive in order, the rows disclosed and the rows on the way are the
  // rows that arrived, in order, exactly when no failed commit was overtaken. Once
  // nothing is on the way, that decides whether a row was dropped for good.
  lemma NothingSkipped(actions: seq<Action>)
    requires InOrderRun(actions)
    ensures Accounted(Run(Empty, actions), Arrived(actions)) <==> NeverOvertaken(actions)
    ensures Pipeline(Run(Empty, actions)) == [] ==>
      ((forall mailbox :: AllRows(Run(Empty, actions).log, mailbox) == AllRows(Arrived(actions), mailbox))
       <==> NeverOvertaken(actions))
  {
    var s, arrived := Run(Empty, actions), Arrived(actions);
    RunOutcome(actions);
    if !NeverOvertaken(actions) {
      var mailbox, row :| RowAmong(arrived, mailbox, row) && Lost(s, mailbox, row);
      var i :| 0 <= i < |arrived| && IsRow(arrived[i], mailbox, row);
      LostIsMissing(s, arrived, mailbox, row);
    }
    if Pipeline(s) == [] {
      forall mailbox ensures Account(s, mailbox) == AllRows(s.log, mailbox) {
        assert AllRows(s.log, mailbox) + [] == AllRows(s.log, mailbox);
      }
    }
  }

  // Row 5 is drained, its commit fails, row 6 came in meanwhile and is now ahead of
  // it: the next commit discloses row 6 and drops row 5 for good.
  lemma OvertakenRowIsSkipped(mailbox: string)
    ensures var five, six := Message(mailbox, 5), Message(mailbox, 6);
      var actions := [Arrive(five), Drain, Arrive(six), Commit(Fails), Drain, Commit(Succeeds)];
      var t := Run(Empty, actions);
      && InOrderRun(actions) && !NeverOvertaken(actions)
      && t.log == [six] && Pipeline(t) == [] && Cursor(t.durable, mailbox) == 6
  {
    var five, six := Message(mailbox, 5), Message(mailbox, 6);
    DrainedThenArrived(five, six);
    OvertakenRun([Arrive(five), Drain, Arrive(six)], five, six);
    assert [Arrive(five), Drain, Arrive(six)] + [Commit(Fails), Drain, Commit(Succeeds)]
        == [Arrive(five), Drain, Arrive(six), Commit(Fails), Drain, Commit(Succeeds)];
  }

  // A run that goes on with a failure, and then a retry that succeeds.
  lemma OvertakenRun(actions: seq<Action>, older: Event, newer: Event)
    requires newer.Message? && older.Message? && newer.mailbox == older.mailbox && 0 < older.rowId < newer.rowId
    requires Run(Empty, actions) == Sys([newer], Some([older]), map[], map[], [], true)
    ensures var more := actions + [Commit(Fails), Drain, Commit(Succeeds)];
      && Run(Empty, more)
           == Sys([], None, map[newer.mailbox := newer.rowId], map[newer.mailbox := newer.rowId], [newer], true)
      && !NeverOvertaken(more) && Arrived(more) == Arrived(actions)
  {
    RunSnoc(actions, Commit(Fails));
    RunSnoc(actions + [Commit(Fails)], Drain);
    RunSnoc(actions + [Commit(Fails)] + [Drain], Commit(Succeeds));
    assert actions + [Commit(Fails)] + [Drain] + [Commit(Succeeds)]
        == actions + [Commit(Fails), Drain, Commit(Succeeds)];
    assert SameMailbox([older][0], [newer][0]);
    assert [newer] + [older] == [newer, older] && [] + [newer] == [newer];
    NewerOnlyShown(newer, older);
  }

  lemma DrainedThenArrived(first: Event, second: Event)
    ensures Run(Empty, [Arrive(first), Drain, Arrive(second)]) == Sys([second], Some([first]), map[], map[], [], true)
    ensures Arrived([Arrive(first), Drain, Arrive(second)]) == [first, second]
  {
    RunSnoc([], Arrive(first));
    assert [] + [Arrive(first)] == [Arrive(first)] && [] + [first] == [first] && [] + [second] == [second];
    RunSnoc([Arrive(first)], Drain);
    assert [Arrive(first)] + [Drain] == [Arrive(first), Drain];
    RunSnoc([Arrive(first), Drain], Arrive(second));
    assert [Arrive(first), Drain] + [Arrive(second)] == [Arrive(first), Drain, Arrive(second)];
  }

  lemma RunSnoc(actions: seq<Action>, a: Action)
    ensures Run(Empty, actions + [a]) == Step(Run(Empty, actions), a)
    ensures Arrived(actions + [a]) == Arrived(actions) + (if a.Arrive? then [a.event] else [])
    ensures NeverOvertaken(actions + [a])
         == (NeverOvertaken(actions) && (a == Commit(Fails) ==> NotOvertaken(Run(Empty, actions))))
  {
    assert (actions + [a])[..|actions|] == actions;
  }

  lemma NewerOnlyShown(newer: Event, older: Event)
    requires newer.Message? && older.Message? && newer.mailbox == older.mailbox && 0 < older.rowId < newer.rowId
    ensures Fresh(map[], [newer, older]) == [newer]
    ensures Advance(map[], [newer, older]) == map[newer.mailbox := newer.rowId]
  {
    assert [newer, older][..1] == [newer] && [newer][..0] == [];
    assert Advance(map[], [newer]) == map[newer.mailbox := newer.rowId];
    assert Fresh(map[], [newer]) == [newer];
  }
}
