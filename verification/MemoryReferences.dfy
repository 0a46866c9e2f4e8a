// What `supersedes` may refer to, over any sequence of operations, and what
// maintenance does with the evidence behind the entries.
module MemoryReferences {
  import opened Prelude
  import opened MemoryEntries

  // --- the invariant --------------------------------------------------------

  function IdsOf(entries: seq<Entry>): (ids: seq<string>)
    ensures |ids| == |entries| && forall i :: 0 <= i < |entries| ==> ids[i] == entries[i].id
  {
    seq(|entries|, i requires 0 <= i < |entries| => entries[i].id)
  }

  ghost predicate UniqueIds(entries: seq<Entry>) {
    Distinct(IdsOf(entries))
  }

  lemma SameId(entries: seq<Entry>, x: Entry, y: Entry)
    requires UniqueIds(entries) && x in entries && y in entries && x.id == y.id
    ensures x == y
  {
    var i :| 0 <= i < |entries| && entries[i] == x;
    var j :| 0 <= j < |entries| && entries[j] == y;
    assert IdsOf(entries)[i] == IdsOf(entries)[j];
  }

  lemma UniqueConcat(a: seq<Entry>, b: seq<Entry>)
    ensures UniqueIds(a + b) <==> UniqueIds(a) && UniqueIds(b) && forall x, y :: x in a && y in b ==> x.id != y.id
  {
    assert IdsOf(a + b) == IdsOf(a) + IdsOf(b);
    DistinctConcat(IdsOf(a), IdsOf(b));
    if Disjoint(IdsOf(a), IdsOf(b)) {
      forall x, y | x in a && y in b ensures x.id != y.id {
        var i :| 0 <= i < |a| && a[i] == x;
        var j :| 0 <= j < |b| && b[j] == y;
        assert IdsOf(a)[i] != IdsOf(b)[j];
      }
    }
    if forall x, y :: x in a && y in b ==> x.id != y.id {
      forall i, j | 0 <= i < |a| && 0 <= j < |b| ensures IdsOf(a)[i] != IdsOf(b)[j] { assert a[i] in a && b[j] in b; }
    }
  }

  lemma {:induction false} UniqueChange(entries: seq<Entry>, f: Entry -> seq<Entry>)
    requires UniqueIds(entries) && forall e :: e in entries ==> UniqueIds(f(e))
    requires forall a, b :: a in entries && b in entries && a != b ==> Apart(f(a), f(b))
    ensures UniqueIds(Change(entries, f))
  {
    if entries != [] {
      var front, last := entries[..|entries| - 1], entries[|entries| - 1];
      assert entries == front + [last];
      UniqueConcat(front, [last]);
      UniqueChange(front, f);
      forall x, y | x in Change(front, f) && y in f(last) ensures x.id != y.id {
        InChange(front, f, x);
        var e :| e in front && x in f(e);
        assert Apart(f(e), f(last));
      }
      UniqueConcat(Change(front, f), f(last));
    }
  }

  ghost predicate Apart(a: seq<Entry>, b: seq<Entry>) {
    forall x, y :: x in a && y in b ==> x.id != y.id
  }

  lemma UniqueSnoc(entries: seq<Entry>, last: Entry)
    ensures UniqueIds(entries + [last]) <==> UniqueIds(entries) && forall x :: x in entries ==> x.id != last.id
  {
    UniqueConcat(entries, [last]);
    assert last in [last];
  }

  lemma {:induction false} UniqueTier(entries: seq<Entry>, tier: Tier)
    requires UniqueIds(entries)
    ensures UniqueIds(OfTier(entries, tier))
  {
    if entries != [] {
      var front, last := entries[..|entries| - 1], entries[|entries| - 1];
      assert entries == front + [last];
      UniqueSnoc(front, last);
      UniqueTier(front, tier);
      if last.tier == tier {
        forall x | x in OfTier(front, tier) ensures x.id != last.id { InTier(front, tier, x); }
        UniqueSnoc(OfTier(front, tier), last);
      } else {
        assert OfTier(entries, tier) == OfTier(front, tier);
      }
    }
  }

  lemma UniqueFiled(entries: seq<Entry>)
    requires UniqueIds(entries)
    ensures UniqueIds(Filed(entries))
  {
    UniqueTier(entries, Stable);
    UniqueTier(entries, Recent);
    forall x, y | x in OfTier(entries, Stable) && y in OfTier(entries, Recent) ensures x.id != y.id {
      InTier(entries, Stable, x);
      InTier(entries, Recent, y);
      if x.id == y.id { SameId(entries, x, y); }
    }
    UniqueConcat(OfTier(entries, Stable), OfTier(entries, Recent));
  }

  // An entry of that id that is not active.
  ghost predicate Retired(entries: seq<Entry>, id: string) {
    exists x :: x in entries && x.id == id && x.status != Active
  }

  ghost predicate Referenced(entries: seq<Entry>, id: string) {
    exists x :: x in entries && id in x.supersedes
  }

  ghost predicate EntryRefsOk(entries: seq<Entry>, e: Entry) {
    e.id !in e.supersedes && forall id :: id in e.supersedes ==> Retired(entries, id)
  }

  // Every reference names an existing entry that is not active, and never its own.
  ghost predicate RefsOk(entries: seq<Entry>) {
    UniqueIds(entries) && forall e :: e in entries ==> EntryRefsOk(entries, e)
  }

  // --- changes that keep it -------------------------------------------------

  // y is e itself: same id, not active again, references old or among the added.
  ghost predicate Follows(y: Entry, e: Entry, added: set<string>) {
    && y.id == e.id && (y.status == Active ==> e.status == Active)
    && y.id !in y.supersedes
    && forall id :: id in y.supersedes ==> id in e.supersedes || id in added
  }

  // A new entry with an id not used before, and references among the added.
  ghost predicate IsNew(y: Entry, entries: seq<Entry>, added: set<string>) {
    && (forall e :: e in entries ==> e.id != y.id)
    && y.id !in y.supersedes
    && forall id :: id in y.supersedes ==> id in added
  }

  ghost predicate TameAt(entries: seq<Entry>, f: Entry -> seq<Entry>, added: set<string>, e: Entry) {
    && (forall y :: y in f(e) ==> Follows(y, e, added) || IsNew(y, entries, added))
    && (e.status != Active ==> Retired(f(e), e.id) || !Referenced(entries, e.id))
  }

  ghost predicate Tame(entries: seq<Entry>, f: Entry -> seq<Entry>, added: set<string>) {
    && (forall e :: e in entries ==> TameAt(entries, f, added, e))
    && (forall id :: id in added ==> exists e :: e in entries && Retired(f(e), id))
    && (forall e :: e in entries ==> UniqueIds(f(e)))
    && (forall a, b :: a in entries && b in entries && a != b ==> Apart(f(a), f(b)))
  }

  lemma TameKeepsRefs(entries: seq<Entry>, f: Entry -> seq<Entry>, added: set<string>)
    requires RefsOk(entries) && Tame(entries, f, added)
    ensures RefsOk(Change(entries, f))
  {
    var after := Change(entries, f);
    UniqueChange(entries, f);
    forall y | y in after ensures EntryRefsOk(after, y) {
      InChange(entries, f, y);
      var e :| e in entries && y in f(e);
      ChangedRefs(entries, f, added, e, y);
    }
  }

  lemma ChangedRefs(entries: seq<Entry>, f: Entry -> seq<Entry>, added: set<string>, e: Entry, y: Entry)
    requires RefsOk(entries) && Tame(entries, f, added) && e in entries && y in f(e)
    ensures EntryRefsOk(Change(entries, f), y)
  {
    assert TameAt(entries, f, added, e);
    forall id | id in y.supersedes ensures Retired(Change(entries, f), id) {
      if id in added {
        var a :| a in entries && Retired(f(a), id);
        RetiredAfter(entries, f, a, id);
      } else {
        OldReference(entries, f, added, e, id);
      }
    }
  }

  lemma RetiredAfter(entries: seq<Entry>, f: Entry -> seq<Entry>, e: Entry, id: string)
    requires e in entries && Retired(f(e), id)
    ensures Retired(Change(entries, f), id)
  {
    var y :| y in f(e) && y.id == id && y.status != Active;
    InChange(entries, f, y);
  }

  lemma OldReference(entries: seq<Entry>, f: Entry -> seq<Entry>, added: set<string>, e: Entry, id: string)
    requires RefsOk(entries) && Tame(entries, f, added) && e in entries && id in e.supersedes
    ensures Retired(Change(entries, f), id)
  {
    assert EntryRefsOk(entries, e);
    var x :| x in entries && x.id == id && x.status != Active;
    assert TameAt(entries, f, added, x);
    assert Referenced(entries, id);
    RetiredAfter(entries, f, x, id);
  }

  lemma FiledKeeps(entries: seq<Entry>)
    requires RefsOk(entries)
    ensures RefsOk(Filed(entries))
  {
    UniqueFiled(entries);
    forall e ensures e in Filed(entries) <==> e in entries { InFiled(entries, e); }
    forall e | e in Filed(entries) ensures EntryRefsOk(Filed(entries), e) {
      assert EntryRefsOk(entries, e);
      forall id | id in e.supersedes ensures Retired(Filed(entries), id) {
        var x :| x in entries && x.id == id && x.status != Active;
        assert x in Filed(entries);
      }
    }
  }

  // --- operations on one entry ----------------------------------------------

  // Every entry stands for itself, one for one.
  ghost predicate OneForOne(entries: seq<Entry>, f: Entry -> seq<Entry>, added: set<string>) {
    forall e :: e in entries ==> |f(e)| == 1 && Follows(f(e)[0], e, added)
                                 && (e.status != Active ==> f(e)[0].status != Active)
  }

  lemma OneForOneTame(entries: seq<Entry>, f: Entry -> seq<Entry>, added: set<string>)
    requires RefsOk(entries) && OneForOne(entries, f, added)
    requires forall id :: id in added ==> exists e :: e in entries && Retired(f(e), id)
    ensures Tame(entries, f, added)
  {
    forall e | e in entries ensures TameAt(entries, f, added, e) {
      assert f(e)[0] in f(e);
    }
    forall a, b | a in entries && b in entries && a != b ensures Apart(f(a), f(b)) {
      if a.id == b.id { SameId(entries, a, b); }
      assert Follows(f(a)[0], a, added) && Follows(f(b)[0], b, added);
    }
  }

  // An entry as it is, or with a change that touches neither id nor references.
  lemma SameRefs(entries: seq<Entry>, e: Entry, y: Entry)
    requires RefsOk(entries) && e in entries
    requires y.id == e.id && y.supersedes == e.supersedes && (y.status == Active ==> e.status == Active)
    ensures Follows(y, e, {})
  {
    assert EntryRefsOk(entries, e);
  }

  // An operation that leaves ids and references alone and makes nothing active.
  lemma PlainKeeps(entries: seq<Entry>, f: Entry -> seq<Entry>)
    requires RefsOk(entries)
    requires forall e :: e in entries ==>
      |f(e)| == 1 && f(e)[0].id == e.id && f(e)[0].supersedes == e.supersedes
      && (f(e)[0].status == e.status || f(e)[0].status != Active)
    ensures RefsOk(Change(entries, f))
  {
    forall e | e in entries
      ensures |f(e)| == 1 && Follows(f(e)[0], e, {}) && (e.status != Active ==> f(e)[0].status != Active)
    {
      SameRefs(entries, e, f(e)[0]);
    }
    OneForOneTame(entries, f, {});
    TameKeepsRefs(entries, f, {});
  }

  lemma WriteKeeps(entries: seq<Entry>, now: string, op: Operation)
    requires RefsOk(entries) && op.Write? && (forall e :: e in entries ==> e.id != op.newId)
    ensures RefsOk(AfterWrite(entries, now, op).value)
  {
    if op.duplicateOf.Some? {
      PlainKeeps(entries, TakingIn(op.duplicateOf.value, now, op.details));
    } else {
      AddedKeeps(entries, AfterWrite(entries, now, op).value[|entries|]);
      assert AfterWrite(entries, now, op).value == entries + [AfterWrite(entries, now, op).value[|entries|]];
    }
  }

  lemma AddedKeeps(entries: seq<Entry>, y: Entry)
    requires RefsOk(entries) && y.supersedes == [] && forall e :: e in entries ==> e.id != y.id
    ensures RefsOk(entries + [y])
  {
    var after := entries + [y];
    UniqueConcat(entries, [y]);
    forall e | e in after ensures EntryRefsOk(after, e) {
      if e in entries {
        assert EntryRefsOk(entries, e);
        forall id | id in e.supersedes ensures Retired(after, id) {
          var x :| x in entries && x.id == id && x.status != Active;
          assert x in after;
        }
      }
    }
  }

  lemma UpdateKeeps(entries: seq<Entry>, now: string, op: Operation)
    requires RefsOk(entries) && op.Update? && AfterUpdate(entries, now, op).Ok?
    ensures RefsOk(AfterUpdate(entries, now, op).value)
  {
    PlainKeeps(entries, Updating(op.entryId, now, op.details));
  }

  lemma PromoteKeeps(entries: seq<Entry>, now: string, op: Operation)
    requires RefsOk(entries) && op.Promote? && AfterPromote(entries, now, op).Ok?
    ensures RefsOk(AfterPromote(entries, now, op).value)
  {
    PlainKeeps(entries, Promoting(op.entryId, now, op.newContent));
  }

  lemma DisputeKeeps(entries: seq<Entry>, now: string, entryId: string)
    requires RefsOk(entries) && AfterDispute(entries, now, entryId).Ok?
    ensures RefsOk(AfterDispute(entries, now, entryId).value)
  {
    PlainKeeps(entries, Disputing(entryId, now));
  }

  lemma SupersedeKeeps(entries: seq<Entry>, now: string, op: Operation)
    requires RefsOk(entries) && op.Supersede? && AfterSupersede(entries, now, op).Ok?
    ensures RefsOk(AfterSupersede(entries, now, op).value)
  {
    var f, added := Superseding(op.entryId, op.replacementEntryId, now), {op.entryId};
    forall e | e in entries
      ensures |f(e)| == 1 && Follows(f(e)[0], e, added) && (e.status != Active ==> f(e)[0].status != Active)
    {
      SupersedingFollows(entries, now, op.entryId, op.replacementEntryId, e);
    }
    var target := Find(entries, op.entryId).value;
    assert f(target)[0] in f(target);
    assert Retired(f(target), op.entryId);
    OneForOneTame(entries, f, added);
    TameKeepsRefs(entries, f, added);
  }

  lemma SupersedingFollows(entries: seq<Entry>, now: string, id: string, replacementId: string, e: Entry)
    requires RefsOk(entries) && e in entries && id != replacementId
    ensures var f := Superseding(id, replacementId, now);
      |f(e)| == 1 && Follows(f(e)[0], e, {id}) && (e.status != Active ==> f(e)[0].status != Active)
  {
    UniqueSame(e.supersedes + [id]);
    assert EntryRefsOk(entries, e);
  }

  // What an entry becomes is its own; entries with other ids become something else.
  lemma OwnIdsApart(entries: seq<Entry>, f: Entry -> seq<Entry>)
    requires UniqueIds(entries)
    requires forall e, y :: e in entries && y in f(e) ==> y.id == e.id
    ensures forall a, b :: a in entries && b in entries && a != b ==> Apart(f(a), f(b))
  {
    forall a, b | a in entries && b in entries && a != b ensures Apart(f(a), f(b)) {
      if a.id == b.id { SameId(entries, a, b); }
    }
  }

  lemma DeleteKeeps(entries: seq<Entry>, entryId: string)
    requires RefsOk(entries) && AfterDelete(entries, entryId).Ok?
    ensures RefsOk(AfterDelete(entries, entryId).value)
  {
    var f := Deleting(entryId);
    forall e | e in entries ensures TameAt(entries, f, {}, e) {
      assert EntryRefsOk(entries, e);
      if e.id != entryId { assert e in f(e); }
    }
    OwnIdsApart(entries, f);
    TameKeepsRefs(entries, f, {});
  }

  // --- new entries beside old ones ------------------------------------------

  lemma BesideApart(entries: seq<Entry>, f: Entry -> seq<Entry>, n: Entry, place: string)
    requires UniqueIds(entries) && (forall e :: e in entries ==> e.id != n.id)
    requires forall e, y :: e in entries && y in f(e) ==> y.id == e.id || (y == n && e.id == place)
    ensures forall a, b :: a in entries && b in entries && a != b ==> Apart(f(a), f(b))
  {
    forall a, b | a in entries && b in entries && a != b ensures Apart(f(a), f(b)) {
      if a.id == b.id { SameId(entries, a, b); }
    }
  }

  lemma CorrectingTame(entries: seq<Entry>, now: string, id: string, n: Entry, e: Entry)
    requires RefsOk(entries) && e in entries && n.supersedes == [id] && n.id != id
    requires forall x :: x in entries ==> x.id != n.id
    ensures var f := Correcting(id, now, n);
      && TameAt(entries, f, {id}, e) && UniqueIds(f(e))
      && (forall y :: y in f(e) ==> y.id == e.id || (y == n && e.id == id))
      && (e.id == id ==> Retired(f(e), id))
  {
    var f := Correcting(id, now, n);
    assert EntryRefsOk(entries, e);
    assert f(e)[0] in f(e);
    if e.id == id {
      UniqueConcat([f(e)[0]], [n]);
      assert f(e) == [f(e)[0]] + [n];
    }
  }

  lemma CorrectingAll(entries: seq<Entry>, now: string, id: string, n: Entry)
    requires RefsOk(entries) && n.supersedes == [id] && n.id != id && Find(entries, id).Some?
    requires forall x :: x in entries ==> x.id != n.id
    ensures Tame(entries, Correcting(id, now, n), {id})
  {
    var f := Correcting(id, now, n);
    forall e | e in entries
      ensures TameAt(entries, f, {id}, e) && UniqueIds(f(e))
      ensures forall y :: y in f(e) ==> y.id == e.id || (y == n && e.id == id)
      ensures e.id == id ==> Retired(f(e), id)
    {
      CorrectingTame(entries, now, id, n, e);
    }
    BesideApart(entries, f, n, id);
  }

  lemma CorrectKeeps(entries: seq<Entry>, now: string, op: Operation)
    requires RefsOk(entries) && op.Correct? && AfterCorrect(entries, now, op).Ok?
    requires forall e :: e in entries ==> e.id != op.newId
    ensures RefsOk(AfterCorrect(entries, now, op).value)
  {
    var target := Find(entries, op.entryId).value;
    var n := NewEntry(op.newId, now, op.details, target.aliases, [op.entryId]);
    var f, added := Correcting(op.entryId, now, n), {op.entryId};
    CorrectingAll(entries, now, op.entryId, n);
    TameKeepsRefs(entries, f, added);
  }

  // --- compacting -----------------------------------------------------------

  lemma {:induction false} InChosen(entries: seq<Entry>, ids: seq<string>, e: Entry)
    ensures e in Chosen(entries, ids) <==> e in entries && e.id in ids
  {
    if entries != [] {
      InChosen(entries[..|entries| - 1], ids, e);
      assert entries == entries[..|entries| - 1] + [entries[|entries| - 1]];
    }
  }

  lemma {:induction false} ChosenUnique(entries: seq<Entry>, ids: seq<string>)
    requires UniqueIds(entries)
    ensures UniqueIds(Chosen(entries, ids))
  {
    if entries != [] {
      var front, last := entries[..|entries| - 1], entries[|entries| - 1];
      assert entries == front + [last];
      UniqueConcat(front, [last]);
      ChosenUnique(front, ids);
      forall x, y | x in Chosen(front, ids) && y in [last] ensures x.id != y.id { InChosen(front, ids, x); }
      UniqueConcat(Chosen(front, ids), [last]);
      assert Chosen(front, ids) + [] == Chosen(front, ids);
    }
  }

  // As many chosen entries as distinct ids: every id was found.
  lemma AllFound(entries: seq<Entry>, ids: seq<string>, id: string)
    requires UniqueIds(entries) && |Unique(ids)| == |ids| && |Chosen(entries, ids)| == |ids| && id in ids
    ensures exists e :: e in entries && e.id == id
  {
    var chosen := Chosen(entries, ids);
    ChosenUnique(entries, ids);
    UniqueLength(ids);
    UniqueSame(ids);
    DistinctCount(ids);
    DistinctCount(IdsOf(chosen));
    var found, wanted := set x | x in IdsOf(chosen), set x | x in ids;
    forall x | x in found ensures x in wanted {
      var i :| 0 <= i < |chosen| && IdsOf(chosen)[i] == x;
      assert chosen[i] in chosen;
      InChosen(entries, ids, chosen[i]);
    }
    SubsetAll(found, wanted);
    assert id in found;
    var i :| 0 <= i < |chosen| && IdsOf(chosen)[i] == id;
    InChosen(entries, ids, chosen[i]);
    assert chosen[i] in entries;
  }

  lemma SubsetAll<T>(a: set<T>, b: set<T>)
    requires a <= b && |a| == |b|
    ensures a == b
  {
    assert b == a + (b - a);
  }

  lemma CompactingTame(entries: seq<Entry>, now: string, ids: seq<string>, first: Option<string>, n: Entry, e: Entry)
    requires RefsOk(entries) && e in entries && n.supersedes == ids && n.id !in ids
    requires forall x :: x in entries ==> x.id != n.id
    ensures var f := Compacting(ids, now, first, n);
      && TameAt(entries, f, SetOf(ids), e) && UniqueIds(f(e))
      && (forall y :: y in f(e) ==> y.id == e.id || (y == n && first == Some(e.id)))
      && (e.id in ids ==> Retired(f(e), e.id))
  {
    var f := Compacting(ids, now, first, n);
    assert EntryRefsOk(entries, e);
    if e.id in ids {
      var y := e.(updatedAt := now, status := Superseded);
      assert f(e)[|f(e)| - 1] == y;
      if first == Some(e.id) {
        UniqueConcat([n], [y]);
        assert f(e) == [n] + [y];
      } else {
        assert f(e) == [y];
      }
    } else {
      assert e in f(e);
    }
  }

  lemma CompactKeeps(entries: seq<Entry>, now: string, op: Operation)
    requires RefsOk(entries) && op.Compact? && AfterCompact(entries, now, op).Ok?
    requires forall e :: e in entries ==> e.id != op.newId
    ensures RefsOk(AfterCompact(entries, now, op).value)
  {
    var n := MergedEntry(Chosen(entries, op.entryIds), op.newId, now, op.content, [], op.entryIds);
    var first := FirstChosen(entries, op.entryIds);
    var f := Compacting(op.entryIds, now, first, n);
    forall e | e in entries
      ensures TameAt(entries, f, SetOf(op.entryIds), e) && UniqueIds(f(e))
      ensures forall y :: y in f(e) ==> y.id == e.id || (y == n && first == Some(e.id))
      ensures e.id in op.entryIds ==> Retired(f(e), e.id)
    {
      CompactingTame(entries, now, op.entryIds, first, n, e);
    }
    forall id | id in SetOf(op.entryIds) ensures exists e :: e in entries && Retired(f(e), id) {
      AllFound(entries, op.entryIds, id);
    }
    BesideApart(entries, f, n, if first.Some? then first.value else "");
    TameKeepsRefs(entries, f, SetOf(op.entryIds));
  }
}
