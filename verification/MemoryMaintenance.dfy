// A maintenance batch keeps the references sound and the evidence together, and so
// does any sequence of operations on a file.
module MemoryMaintenance {
  import opened Prelude
  import opened MemoryEntries
  import opened MemoryReferences

  // --- what the work in progress has promised -------------------------------

  function NewIds(steps: seq<MaintenanceStep>): seq<string> {
    if steps == [] then []
    else
      var last := steps[|steps| - 1];
      NewIds(steps[..|steps| - 1]) + (if last.MergeStep? then [last.newId] else [])
  }

  // Ids drawn for merged entries are new, each time.
  ghost predicate FreshSteps(entries: seq<Entry>, steps: seq<MaintenanceStep>) {
    Distinct(NewIds(steps)) && forall e :: e in entries ==> e.id !in NewIds(steps)
  }

  // An entry the work replaces, and what by.
  ghost predicate Replaced(work: Work, e: Entry)
    requires e.id in work.replacements
  {
    && e.status != Superseded
    && match work.replacements[e.id]
       case None => e.status == Active && e.tier == Recent
       case Some(r) =>
         && r.id == e.id && r.supersedes == e.supersedes && r.sourceMessageRowIds == e.sourceMessageRowIds
         && (r.status == Active ==> e.status == Active)
         && (r.status == Superseded ==> Absorbed(work, e))
  }

  // Its evidence lives on in an inserted entry.
  ghost predicate Absorbed(work: Work, e: Entry) {
    exists p :: p in work.insertionsBefore && e.id in work.insertionsBefore[p].supersedes
                && forall row :: row in e.sourceMessageRowIds ==> row in work.insertionsBefore[p].sourceMessageRowIds
  }

  ghost predicate RetiredBy(work: Work, id: string) {
    id in work.replacements && work.replacements[id].Some? && work.replacements[id].value.status == Superseded
  }

  // An inserted entry: active, new, retiring what it refers to, with evidence of
  // active entries only.
  ghost predicate Inserted(entries: seq<Entry>, work: Work, n: Entry) {
    && n.status == Active
    && (forall e :: e in entries ==> e.id != n.id)
    && (forall id :: id in n.supersedes ==> RetiredBy(work, id) && Find(entries, id).Some?)
    && forall row :: row in n.sourceMessageRowIds ==>
         exists e :: e in entries && e.id in n.supersedes && e.status == Active && row in e.sourceMessageRowIds
  }

  ghost predicate WorkOk(entries: seq<Entry>, work: Work, newIds: seq<string>) {
    && work.replacements.Keys <= work.consumed
    && (forall e :: e in entries && e.id in work.replacements ==> Replaced(work, e))
    && (forall p :: p in work.insertionsBefore ==>
          Inserted(entries, work, work.insertionsBefore[p]) && work.insertionsBefore[p].id in newIds
              && Find(entries, p).Some?)
    && (forall p, q :: p in work.insertionsBefore && q in work.insertionsBefore && p != q ==>
          work.insertionsBefore[p].id != work.insertionsBefore[q].id)
    && work.insertionsBefore.Keys <= work.consumed
  }

  // --- claiming and restating -----------------------------------------------

  lemma {:induction false} ClaimGives(entries: seq<Entry>, consumed: set<string>, ids: seq<string>)
    requires Claim(entries, consumed, ids).Ok?
    ensures var s := Claim(entries, consumed, ids).value;
      && |s| == |ids|
      && (forall i :: 0 <= i < |ids| ==> s[i] in entries && s[i].id == ids[i] && ids[i] !in consumed)
      && (forall e :: e in s ==> e in entries && e.id in ids && e.id !in consumed)
    ensures Distinct(ids)
  {
    if ids != [] {
      ClaimGives(entries, consumed, ids[..|ids| - 1]);
      assert ids == ids[..|ids| - 1] + [ids[|ids| - 1]];
    }
  }

  lemma {:induction false} RestateKeys(replacements: map<string, Option<Entry>>, selected: seq<Entry>, now: string,
                                       status: Status)
    ensures Restate(replacements, selected, now, status).Keys == replacements.Keys + (set e | e in selected :: e.id)
  {
    if selected != [] {
      var n := |selected| - 1;
      RestateKeys(replacements, selected[..n], now, status);
      assert selected == selected[..n] + [selected[n]];
    }
  }

  lemma {:induction false} RestateElse(replacements: map<string, Option<Entry>>, selected: seq<Entry>, now: string,
                                       status: Status, id: string)
    requires forall e :: e in selected ==> e.id != id
    ensures var t := Restate(replacements, selected, now, status);
      (id in t <==> id in replacements) && (id in t ==> t[id] == replacements[id])
  {
    if selected != [] {
      var n := |selected| - 1;
      assert selected[n] in selected;
      RestateElse(replacements, selected[..n], now, status, id);
    }
  }

  lemma {:induction false} RestateAt(replacements: map<string, Option<Entry>>, selected: seq<Entry>, now: string,
                                     status: Status, e: Entry)
    requires UniqueIds(selected) && e in selected
    ensures var t := Restate(replacements, selected, now, status);
      e.id in t && t[e.id] == Some(e.(updatedAt := now, status := status))
  {
    var front, last := selected[..|selected| - 1], selected[|selected| - 1];
    assert selected == front + [last];
    UniqueConcat(front, [last]);
    if e.id != last.id { RestateAt(replacements, front, now, status, e); } else { SameId(selected, e, last); }
  }

  lemma RestateGives(replacements: map<string, Option<Entry>>, selected: seq<Entry>, now: string, status: Status)
    requires UniqueIds(selected)
    ensures var t := Restate(replacements, selected, now, status);
      && t.Keys == replacements.Keys + (set e | e in selected :: e.id)
      && (forall e :: e in selected ==> t[e.id] == Some(e.(updatedAt := now, status := status)))
      && (forall id :: id in replacements && (forall e :: e in selected ==> e.id != id) ==> t[id] == replacements[id])
  {
    var t := Restate(replacements, selected, now, status);
    RestateKeys(replacements, selected, now, status);
    forall e | e in selected ensures t[e.id] == Some(e.(updatedAt := now, status := status)) {
      RestateAt(replacements, selected, now, status, e);
    }
    forall id | id in replacements && (forall e :: e in selected ==> e.id != id) ensures t[id] == replacements[id] {
      RestateElse(replacements, selected, now, status, id);
    }
  }

  lemma ClaimedUnique(entries: seq<Entry>, consumed: set<string>, ids: seq<string>)
    requires Claim(entries, consumed, ids).Ok?
    ensures UniqueIds(Claim(entries, consumed, ids).value)
  {
    ClaimGives(entries, consumed, ids);
    assert IdsOf(Claim(entries, consumed, ids).value) == ids;
  }

  // Work that only grows: what was replaced or inserted stays so.
  ghost predicate Grows(work: Work, next: Work) {
    && work.replacements.Keys <= next.replacements.Keys
    && (forall id :: id in work.replacements ==> next.replacements[id] == work.replacements[id])
    && work.insertionsBefore.Keys <= next.insertionsBefore.Keys
    && (forall p :: p in work.insertionsBefore ==> next.insertionsBefore[p] == work.insertionsBefore[p])
  }

  lemma ReplacedStays(work: Work, next: Work, e: Entry)
    requires Grows(work, next) && e.id in work.replacements && Replaced(work, e)
    ensures Replaced(next, e)
  {
    if Absorbed(work, e) {
      var p :| p in work.insertionsBefore && e.id in work.insertionsBefore[p].supersedes
               && forall row :: row in e.sourceMessageRowIds ==> row in work.insertionsBefore[p].sourceMessageRowIds;
      assert next.insertionsBefore[p] == work.insertionsBefore[p];
      assert Absorbed(next, e);
    }
  }

  lemma InsertedStays(entries: seq<Entry>, work: Work, next: Work, n: Entry)
    requires Grows(work, next) && Inserted(entries, work, n)
    ensures Inserted(entries, next, n)
  {
    forall id | id in n.supersedes ensures RetiredBy(next, id) && Find(entries, id).Some? {
      assert RetiredBy(work, id);
    }
  }

  // A step that replaces newly claimed entries and inserts nothing.
  lemma NoInsertionKeeps(entries: seq<Entry>, work: Work, next: Work, newIds: seq<string>)
    requires WorkOk(entries, work, newIds) && Grows(work, next)
    requires next.insertionsBefore == work.insertionsBefore && work.consumed <= next.consumed
    requires next.replacements.Keys <= next.consumed
    requires forall e :: e in entries && e.id in next.replacements && e.id !in work.replacements ==> Replaced(next, e)
    ensures WorkOk(entries, next, newIds)
  {
    forall e | e in entries && e.id in next.replacements ensures Replaced(next, e) {
      if e.id in work.replacements { ReplacedStays(work, next, e); }
    }
    forall p | p in next.insertionsBefore
      ensures Inserted(entries, next, next.insertionsBefore[p]) && Find(entries, p).Some?
    {
      InsertedStays(entries, work, next, work.insertionsBefore[p]);
    }
  }

  lemma OneStepKeeps(entries: seq<Entry>, now: string, work: Work, step: MaintenanceStep, newIds: seq<string>)
    requires UniqueIds(entries) && WorkOk(entries, work, newIds)
    requires (step.PromoteStep? || step.DiscardStep?) && ApplyStep(entries, now, work, step).Ok?
    ensures WorkOk(entries, ApplyStep(entries, now, work, step).value, newIds)
  {
    var next := ApplyStep(entries, now, work, step).value;
    ClaimGives(entries, work.consumed, [step.entryId]);
    var e := Claim(entries, work.consumed, [step.entryId]).value[0];
    assert e.id == step.entryId && e.id !in work.replacements;
    forall x | x in entries && x.id in next.replacements && x.id !in work.replacements ensures Replaced(next, x) {
      SameId(entries, x, e);
    }
    NoInsertionKeeps(entries, work, next, newIds);
  }

  lemma RestatedKeeps(entries: seq<Entry>, now: string, work: Work, ids: seq<string>, newIds: seq<string>)
    requires UniqueIds(entries) && WorkOk(entries, work, newIds) && Claim(entries, work.consumed, ids).Ok?
    requires forall e :: e in Claim(entries, work.consumed, ids).value ==> e.status != Superseded
    ensures var selected := Claim(entries, work.consumed, ids).value;
      WorkOk(entries, work.(consumed := work.consumed + SetOf(ids),
                            replacements := Restate(work.replacements, selected, now, Disputed)), newIds)
  {
    var selected := Claim(entries, work.consumed, ids).value;
    var next := work.(consumed := work.consumed + SetOf(ids),
                      replacements := Restate(work.replacements, selected, now, Disputed));
    ClaimGives(entries, work.consumed, ids);
    ClaimedUnique(entries, work.consumed, ids);
    RestateGives(work.replacements, selected, now, Disputed);
    forall x | x in entries && x.id in next.replacements && x.id !in work.replacements ensures Replaced(next, x) {
      var e :| e in selected && e.id == x.id;
      SameId(entries, x, e);
    }
    NoInsertionKeeps(entries, work, next, newIds);
  }

  lemma {:induction false} InSources(entries: seq<Entry>, row: nat)
    ensures row in Sources(entries) <==> exists e :: e in entries && row in e.sourceMessageRowIds
  {
    if entries != [] {
      InSources(entries[..|entries| - 1], row);
      assert entries == entries[..|entries| - 1] + [entries[|entries| - 1]];
    }
  }

  // The merged entry carries the evidence of the selected ones, and nothing else.
  lemma MergedSources(selected: seq<Entry>, id: string, now: string, content: string, aliases: seq<string>,
                      supersedes: seq<string>, row: nat)
    ensures row in MergedEntry(selected, id, now, content, aliases, supersedes).sourceMessageRowIds
            <==> exists e :: e in selected && row in e.sourceMessageRowIds
  {
    UniqueSame(Sources(selected));
    InSources(selected, row);
  }

  function MergeWork(work: Work, selected: seq<Entry>, ids: seq<string>, now: string, n: Entry): Work
    requires selected != []
  {
    Work(work.consumed + SetOf(ids), Restate(work.replacements, selected, now, Superseded),
         work.insertionsBefore[selected[0].id := n])
  }

  // What merging knows of the claimed entries and the new one.
  ghost predicate Mergeable(entries: seq<Entry>, work: Work, selected: seq<Entry>, ids: seq<string>, n: Entry) {
    && selected != [] && UniqueIds(selected)
    && (forall e :: e in selected ==> e in entries && e.id in ids && e.id !in work.consumed && e.status == Active)
    && (forall id :: id in ids ==> exists e :: e in selected && e.id == id)
    && n.status == Active && n.supersedes == ids
    && (forall e :: e in entries ==> e.id != n.id)
    && forall row :: row in n.sourceMessageRowIds <==> exists e :: e in selected && row in e.sourceMessageRowIds
  }

  lemma MergeGrows(entries: seq<Entry>, now: string, work: Work, selected: seq<Entry>, ids: seq<string>, n: Entry,
                   newIds: seq<string>)
    requires WorkOk(entries, work, newIds) && Mergeable(entries, work, selected, ids, n)
    ensures var next := MergeWork(work, selected, ids, now, n);
      && Grows(work, next)
      && next.replacements.Keys <= next.consumed && next.insertionsBefore.Keys <= next.consumed
      && (forall e :: e in selected ==>
            e.id in next.replacements && next.replacements[e.id] == Some(e.(updatedAt := now, status := Superseded)))
      && forall id :: id in next.replacements && id !in work.replacements ==> exists e :: e in selected && e.id == id
  {
    RestateGives(work.replacements, selected, now, Superseded);
    assert selected[0] in selected;
    forall e | e in selected ensures e.id !in work.replacements {}
  }

  lemma MergedAbsorbs(entries: seq<Entry>, now: string, work: Work, selected: seq<Entry>, ids: seq<string>, n: Entry,
                      e: Entry)
    requires Mergeable(entries, work, selected, ids, n) && e in selected
    ensures Absorbed(MergeWork(work, selected, ids, now, n), e)
  {
    var next := MergeWork(work, selected, ids, now, n);
    assert next.insertionsBefore[selected[0].id] == n;
    assert forall row :: row in e.sourceMessageRowIds ==> row in n.sourceMessageRowIds;
  }

  lemma MergedRetires(entries: seq<Entry>, now: string, work: Work, selected: seq<Entry>, ids: seq<string>, n: Entry,
                      newIds: seq<string>, id: string)
    requires WorkOk(entries, work, newIds) && Mergeable(entries, work, selected, ids, n) && id in ids
    ensures RetiredBy(MergeWork(work, selected, ids, now, n), id) && Find(entries, id).Some?
  {
    MergeGrows(entries, now, work, selected, ids, n, newIds);
    var e :| e in selected && e.id == id;
    assert e in entries;
  }

  lemma MergedEvidence(entries: seq<Entry>, work: Work, selected: seq<Entry>, ids: seq<string>, n: Entry, row: nat)
    requires Mergeable(entries, work, selected, ids, n) && row in n.sourceMessageRowIds
    ensures exists e :: e in entries && e.id in n.supersedes && e.status == Active && row in e.sourceMessageRowIds
  {
    var e :| e in selected && row in e.sourceMessageRowIds;
    assert e in entries;
  }

  lemma MergedInserted(entries: seq<Entry>, now: string, work: Work, selected: seq<Entry>, ids: seq<string>, n: Entry,
                       newIds: seq<string>)
    requires WorkOk(entries, work, newIds) && Mergeable(entries, work, selected, ids, n)
    ensures Inserted(entries, MergeWork(work, selected, ids, now, n), n)
  {
    var next := MergeWork(work, selected, ids, now, n);
    forall id | id in n.supersedes ensures RetiredBy(next, id) && Find(entries, id).Some? {
      MergedRetires(entries, now, work, selected, ids, n, newIds, id);
    }
    forall row | row in n.sourceMessageRowIds
      ensures exists e :: e in entries && e.id in n.supersedes && e.status == Active && row in e.sourceMessageRowIds
    {
      MergedEvidence(entries, work, selected, ids, n, row);
    }
  }

  lemma MergeKeeps(entries: seq<Entry>, now: string, work: Work, selected: seq<Entry>, ids: seq<string>, n: Entry,
                   newIds: seq<string>)
    requires UniqueIds(entries) && WorkOk(entries, work, newIds) && Mergeable(entries, work, selected, ids, n)
    requires n.id !in newIds
    ensures WorkOk(entries, MergeWork(work, selected, ids, now, n), newIds + [n.id])
  {
    var next := MergeWork(work, selected, ids, now, n);
    MergeGrows(entries, now, work, selected, ids, n, newIds);
    forall x | x in entries && x.id in next.replacements ensures Replaced(next, x) {
      if x.id in work.replacements {
        ReplacedStays(work, next, x);
      } else {
        var e :| e in selected && e.id == x.id;
        SameId(entries, x, e);
        MergedAbsorbs(entries, now, work, selected, ids, n, e);
      }
    }
    forall p | p in next.insertionsBefore
      ensures Inserted(entries, next, next.insertionsBefore[p]) && next.insertionsBefore[p].id in newIds + [n.id]
      ensures Find(entries, p).Some?
    {
      if p == selected[0].id {
        assert selected[0] in selected;
        MergedInserted(entries, now, work, selected, ids, n, newIds);
      } else {
        InsertedStays(entries, work, next, work.insertionsBefore[p]);
      }
    }
  }

  lemma ContradictionKeeps(entries: seq<Entry>, now: string, work: Work, step: MaintenanceStep, newIds: seq<string>)
    requires UniqueIds(entries) && WorkOk(entries, work, newIds) && step.MergeStep? && step.contradictory
    requires ApplyStep(entries, now, work, step).Ok?
    ensures WorkOk(entries, ApplyStep(entries, now, work, step).value, newIds + [step.newId])
  {
    RestatedKeeps(entries, now, work, step.entryIds, newIds);
    MoreIds(entries, ApplyStep(entries, now, work, step).value, newIds, step.newId);
  }

  lemma MergedIsMergeable(entries: seq<Entry>, now: string, work: Work, step: MaintenanceStep)
    requires UniqueIds(entries) && step.MergeStep? && !step.contradictory && ApplyStep(entries, now, work, step).Ok?
    requires forall e :: e in entries ==> e.id != step.newId
    ensures var ids := step.entryIds;
      var selected := Claim(entries, work.consumed, ids).value;
      var n := MergedEntry(selected, step.newId, now, step.content, Unique(AllAliases(selected)), ids);
      Mergeable(entries, work, selected, ids, n)
  {
    var ids := step.entryIds;
    var selected := Claim(entries, work.consumed, ids).value;
    var n := MergedEntry(selected, step.newId, now, step.content, Unique(AllAliases(selected)), ids);
    ClaimGives(entries, work.consumed, ids);
    ClaimedUnique(entries, work.consumed, ids);
    forall row ensures row in n.sourceMessageRowIds <==> exists e :: e in selected && row in e.sourceMessageRowIds {
      MergedSources(selected, step.newId, now, step.content, Unique(AllAliases(selected)), ids, row);
    }
    forall id | id in ids ensures exists e :: e in selected && e.id == id {
      var i :| 0 <= i < |ids| && ids[i] == id;
      assert selected[i] in selected;
    }
  }

  lemma MergeStepKeeps(entries: seq<Entry>, now: string, work: Work, step: MaintenanceStep, newIds: seq<string>)
    requires UniqueIds(entries) && WorkOk(entries, work, newIds) && step.MergeStep?
        && ApplyStep(entries, now, work, step).Ok?
    requires step.newId !in newIds && forall e :: e in entries ==> e.id != step.newId
    ensures WorkOk(entries, ApplyStep(entries, now, work, step).value, newIds + [step.newId])
  {
    if step.contradictory {
      ContradictionKeeps(entries, now, work, step, newIds);
    } else {
      var ids := step.entryIds;
      var selected := Claim(entries, work.consumed, ids).value;
      var n := MergedEntry(selected, step.newId, now, step.content, Unique(AllAliases(selected)), ids);
      MergedIsMergeable(entries, now, work, step);
      MergeKeeps(entries, now, work, selected, ids, n, newIds);
    }
  }

  lemma MoreIds(entries: seq<Entry>, work: Work, newIds: seq<string>, id: string)
    requires WorkOk(entries, work, newIds)
    ensures WorkOk(entries, work, newIds + [id])
  {
  }

  lemma FreshFront(entries: seq<Entry>, steps: seq<MaintenanceStep>)
    requires steps != [] && FreshSteps(entries, steps)
    ensures FreshSteps(entries, steps[..|steps| - 1])
    ensures steps[|steps| - 1].MergeStep? ==>
      && steps[|steps| - 1].newId !in NewIds(steps[..|steps| - 1])
      && forall e :: e in entries ==> e.id != steps[|steps| - 1].newId
  {
    var front, last := steps[..|steps| - 1], steps[|steps| - 1];
    if last.MergeStep? {
      assert NewIds(steps) == NewIds(front) + [last.newId];
      DistinctSnoc(NewIds(front), last.newId);
    } else {
      assert NewIds(steps) == NewIds(front);
    }
  }

  lemma {:induction false} StepsKeep(entries: seq<Entry>, now: string, steps: seq<MaintenanceStep>)
    requires UniqueIds(entries) && FreshSteps(entries, steps) && ApplySteps(entries, now, steps).Ok?
    ensures WorkOk(entries, ApplySteps(entries, now, steps).value, NewIds(steps))
  {
    if steps != [] {
      var front, last := steps[..|steps| - 1], steps[|steps| - 1];
      FreshFront(entries, steps);
      StepsKeep(entries, now, front);
      var work := ApplySteps(entries, now, front).value;
      match last {
        case PromoteStep(_, _) => OneStepKeeps(entries, now, work, last, NewIds(front));
        case DiscardStep(_) => OneStepKeeps(entries, now, work, last, NewIds(front));
        case DisputeStep(entryIds) => RestatedKeeps(entries, now, work, entryIds, NewIds(front));
        case MergeStep(_, _, _, _) => MergeStepKeeps(entries, now, work, last, NewIds(front));
      }
      assert !last.MergeStep? ==> NewIds(steps) == NewIds(front);
    }
  }

  // --- the new file ---------------------------------------------------------

  function RetiredIds(entries: seq<Entry>, work: Work): set<string> {
    set id | id in work.replacements && work.replacements[id].Some? && work.replacements[id].value.status == Superseded
             && Find(entries, id).Some?
  }

  lemma InsertedIsNew(entries: seq<Entry>, work: Work, n: Entry)
    requires Inserted(entries, work, n)
    ensures IsNew(n, entries, RetiredIds(entries, work))
  {
    assert n.id in n.supersedes ==> Find(entries, n.id).Some?;
    forall id | id in n.supersedes ensures id in RetiredIds(entries, work) { assert RetiredBy(work, id); }
  }

  lemma CarryingTame(entries: seq<Entry>, work: Work, newIds: seq<string>, e: Entry)
    requires RefsOk(entries) && WorkOk(entries, work, newIds) && e in entries
    ensures TameAt(entries, Carrying(work), RetiredIds(entries, work), e)
  {
    var f := Carrying(work);
    assert EntryRefsOk(entries, e);
    forall y | y in f(e)
      ensures Follows(y, e, RetiredIds(entries, work)) || IsNew(y, entries, RetiredIds(entries, work))
    {
      if e.id in work.insertionsBefore && y == work.insertionsBefore[e.id] { InsertedIsNew(entries, work, y); }
    }
    if e.status != Active {
      var y := if e.id in work.replacements then work.replacements[e.id].value else e;
      assert f(e)[|f(e)| - 1] == y;
    }
  }

  lemma CarryingUnique(entries: seq<Entry>, work: Work, newIds: seq<string>, e: Entry)
    requires WorkOk(entries, work, newIds) && e in entries
    ensures UniqueIds(Carrying(work)(e))
    ensures forall y :: y in Carrying(work)(e) ==>
      y.id == e.id || (e.id in work.insertionsBefore && y == work.insertionsBefore[e.id])
  {
    var f := Carrying(work);
    if e.id in work.insertionsBefore {
      var n := work.insertionsBefore[e.id];
      assert Inserted(entries, work, n) && n.id != e.id;
      var rest := f(e)[1..];
      assert f(e) == [n] + rest;
      UniqueConcat([n], rest);
    }
  }

  lemma CarryingApart(entries: seq<Entry>, work: Work, newIds: seq<string>, a: Entry, b: Entry)
    requires UniqueIds(entries) && WorkOk(entries, work, newIds) && a in entries && b in entries && a != b
    ensures Apart(Carrying(work)(a), Carrying(work)(b))
  {
    CarryingUnique(entries, work, newIds, a);
    CarryingUnique(entries, work, newIds, b);
    if a.id == b.id { SameId(entries, a, b); }
    assert a.id in work.insertionsBefore ==> Inserted(entries, work, work.insertionsBefore[a.id]);
    assert b.id in work.insertionsBefore ==> Inserted(entries, work, work.insertionsBefore[b.id]);
  }

  lemma RetiredStands(entries: seq<Entry>, work: Work, newIds: seq<string>, id: string)
    requires WorkOk(entries, work, newIds) && id in RetiredIds(entries, work)
    ensures exists e :: e in entries && Retired(Carrying(work)(e), id)
  {
    var e := Find(entries, id).value;
    var f := Carrying(work);
    assert Replaced(work, e);
    assert f(e)[|f(e)| - 1] == work.replacements[id].value;
    assert Retired(f(e), id);
  }

  lemma CarriedKeeps(entries: seq<Entry>, work: Work, newIds: seq<string>)
    requires RefsOk(entries) && WorkOk(entries, work, newIds)
    ensures RefsOk(Carried(entries, work))
  {
    var f, added := Carrying(work), RetiredIds(entries, work);
    forall e | e in entries ensures TameAt(entries, f, added, e) && UniqueIds(f(e)) {
      CarryingTame(entries, work, newIds, e);
      CarryingUnique(entries, work, newIds, e);
    }
    forall id | id in added ensures exists e :: e in entries && Retired(f(e), id) {
      RetiredStands(entries, work, newIds, id);
    }
    forall a, b | a in entries && b in entries && a != b ensures Apart(f(a), f(b)) {
      CarryingApart(entries, work, newIds, a, b);
    }
    TameKeepsRefs(entries, f, added);
  }

  lemma MaintainKeeps(entries: seq<Entry>, now: string, steps: seq<MaintenanceStep>)
    requires RefsOk(entries) && FreshSteps(entries, steps) && AfterMaintain(entries, now, steps).Ok?
    ensures RefsOk(AfterMaintain(entries, now, steps).value)
  {
    StepsKeep(entries, now, steps);
    CarriedKeeps(entries, ApplySteps(entries, now, steps).value, NewIds(steps));
  }

  // --- evidence -------------------------------------------------------------

  // The row backs an entry that is not superseded.
  ghost predicate Backs(entries: seq<Entry>, row: nat) {
    exists e :: e in entries && e.status != Superseded && row in e.sourceMessageRowIds
  }

  function DiscardedIds(steps: seq<MaintenanceStep>): seq<string> {
    if steps == [] then []
    else
      var last := steps[|steps| - 1];
      DiscardedIds(steps[..|steps| - 1]) + (if last.DiscardStep? then [last.entryId] else [])
  }

  ghost predicate DiscardsOk(work: Work, discarded: seq<string>) {
    && work.replacements.Keys <= work.consumed
    && (forall id :: id in work.replacements && work.replacements[id].None? ==> id in discarded)
    && forall id :: id in discarded ==> id in work.replacements && work.replacements[id].None?
  }

  lemma RestatedDiscards(entries: seq<Entry>, now: string, work: Work, ids: seq<string>, status: Status,
                         discarded: seq<string>)
    requires DiscardsOk(work, discarded) && Claim(entries, work.consumed, ids).Ok?
    ensures var selected := Claim(entries, work.consumed, ids).value;
      DiscardsOk(work.(consumed := work.consumed + SetOf(ids),
                       replacements := Restate(work.replacements, selected, now, status)), discarded)
  {
    var selected := Claim(entries, work.consumed, ids).value;
    ClaimGives(entries, work.consumed, ids);
    ClaimedUnique(entries, work.consumed, ids);
    RestateGives(work.replacements, selected, now, status);
  }

  lemma StepDiscards(entries: seq<Entry>, now: string, work: Work, step: MaintenanceStep, discarded: seq<string>)
    requires DiscardsOk(work, discarded) && ApplyStep(entries, now, work, step).Ok?
    ensures DiscardsOk(ApplyStep(entries, now, work, step).value,
                       discarded + (if step.DiscardStep? then [step.entryId] else []))
  {
    match step {
      case PromoteStep(entryId, _) => ClaimGives(entries, work.consumed, [entryId]);
      case DiscardStep(entryId) => ClaimGives(entries, work.consumed, [entryId]);
      case DisputeStep(entryIds) => RestatedDiscards(entries, now, work, entryIds, Disputed, discarded);
      case MergeStep(entryIds, _, _, contradictory) =>
        RestatedDiscards(entries, now, work, entryIds, if contradictory then Disputed else Superseded, discarded);
    }
    assert discarded + [] == discarded;
  }

  lemma {:induction false} StepsDiscard(entries: seq<Entry>, now: string, steps: seq<MaintenanceStep>)
    requires ApplySteps(entries, now, steps).Ok?
    ensures DiscardsOk(ApplySteps(entries, now, steps).value, DiscardedIds(steps))
  {
    if steps != [] {
      StepsDiscard(entries, now, steps[..|steps| - 1]);
      StepDiscards(entries, now, ApplySteps(entries, now, steps[..|steps| - 1]).value, steps[|steps| - 1],
                   DiscardedIds(steps[..|steps| - 1]));
    }
  }

  // Every row that backed an entry which was not discarded still backs one.
  lemma EvidenceStays(entries: seq<Entry>, work: Work, newIds: seq<string>, e: Entry, row: nat)
    requires UniqueIds(entries) && WorkOk(entries, work, newIds)
    requires e in entries && e.status != Superseded && row in e.sourceMessageRowIds
    requires e.id in work.replacements ==> work.replacements[e.id].Some?
    ensures Backs(Carried(entries, work), row)
  {
    var f := Carrying(work);
    if RetiredBy(work, e.id) {
      assert Replaced(work, e) && Absorbed(work, e);
      AbsorbedBacks(entries, work, newIds, e, row);
    } else {
      var y := if e.id in work.replacements then work.replacements[e.id].value else e;
      assert e.id in work.replacements ==> Replaced(work, e);
      assert f(e)[|f(e)| - 1] == y;
      InChange(entries, f, y);
    }
  }

  lemma AbsorbedBacks(entries: seq<Entry>, work: Work, newIds: seq<string>, e: Entry, row: nat)
    requires UniqueIds(entries) && WorkOk(entries, work, newIds) && Absorbed(work, e) && row in e.sourceMessageRowIds
    ensures Backs(Carried(entries, work), row)
  {
    var p :| p in work.insertionsBefore && e.id in work.insertionsBefore[p].supersedes
             && forall r :: r in e.sourceMessageRowIds ==> r in work.insertionsBefore[p].sourceMessageRowIds;
    var n := work.insertionsBefore[p];
    assert Inserted(entries, work, n);
    var at := Find(entries, p).value;
    assert Carrying(work)(at)[0] == n;
    InChange(entries, Carrying(work), n);
  }

  // An old entry that was not discarded backs the row.
  ghost predicate OldBacks(entries: seq<Entry>, work: Work, row: nat) {
    exists e :: e in entries && e.status != Superseded && row in e.sourceMessageRowIds
                && (e.id in work.replacements ==> work.replacements[e.id].Some?)
  }

  lemma InsertedIsOld(entries: seq<Entry>, work: Work, y: Entry, row: nat)
    requires Inserted(entries, work, y) && row in y.sourceMessageRowIds
    ensures OldBacks(entries, work, row)
  {
    var x :| x in entries && x.id in y.supersedes && x.status == Active && row in x.sourceMessageRowIds;
    assert RetiredBy(work, x.id);
  }

  lemma ReplacedIsOld(entries: seq<Entry>, work: Work, e: Entry, y: Entry, row: nat)
    requires e in entries && e.id in work.replacements && Replaced(work, e) && work.replacements[e.id] == Some(y)
    requires y.status != Superseded && row in y.sourceMessageRowIds
    ensures OldBacks(entries, work, row)
  {
  }

  // Nothing else comes to back an entry.
  lemma EvidenceIsOld(entries: seq<Entry>, work: Work, newIds: seq<string>, row: nat)
    requires UniqueIds(entries) && WorkOk(entries, work, newIds) && Backs(Carried(entries, work), row)
    ensures OldBacks(entries, work, row)
  {
    var y :| y in Carried(entries, work) && y.status != Superseded && row in y.sourceMessageRowIds;
    InChange(entries, Carrying(work), y);
    var e :| e in entries && y in Carrying(work)(e);
    if e.id in work.insertionsBefore && y == work.insertionsBefore[e.id] {
      InsertedIsOld(entries, work, y, row);
    } else if e.id in work.replacements {
      ReplacedIsOld(entries, work, e, y, row);
    }
  }

  // A maintenance batch keeps the evidence: a row backs a live entry afterwards
  // exactly when it backed one before that the batch did not discard.
  lemma MaintenanceKeepsEvidence(entries: seq<Entry>, now: string, steps: seq<MaintenanceStep>, row: nat)
    requires UniqueIds(entries) && FreshSteps(entries, steps) && AfterMaintain(entries, now, steps).Ok?
    ensures Backs(AfterMaintain(entries, now, steps).value, row) <==>
      exists e :: e in entries && e.status != Superseded && row in e.sourceMessageRowIds && e.id !in DiscardedIds(steps)
  {
    StepsKeep(entries, now, steps);
    StepsDiscard(entries, now, steps);
    var work := ApplySteps(entries, now, steps).value;
    if Backs(Carried(entries, work), row) {
      EvidenceIsOld(entries, work, NewIds(steps), row);
    }
    if exists e :: e in entries && e.status != Superseded && row in e.sourceMessageRowIds
        && e.id !in DiscardedIds(steps) {
      var e :| e in entries && e.status != Superseded && row in e.sourceMessageRowIds && e.id !in DiscardedIds(steps);
      EvidenceStays(entries, work, NewIds(steps), e, row);
    }
  }

  // --- any sequence of operations -------------------------------------------

  // Ids drawn for new entries are not in use.
  ghost predicate FreshOperation(entries: seq<Entry>, op: Operation) {
    match op
    case Write(_, _, newId) => forall e :: e in entries ==> e.id != newId
    case Correct(_, _, newId) => forall e :: e in entries ==> e.id != newId
    case Compact(_, _, newId) => forall e :: e in entries ==> e.id != newId
    case Maintain(steps) => FreshSteps(entries, steps)
    case _ => true
  }

  lemma ApplyKeeps(entries: seq<Entry>, now: string, op: Operation)
    requires RefsOk(entries) && FreshOperation(entries, op) && Apply(entries, now, op).Ok?
    ensures RefsOk(Apply(entries, now, op).value)
  {
    match op {
      case Write(_, _, _) => WriteKeeps(entries, now, op);
      case Update(_, _) => UpdateKeeps(entries, now, op);
      case Correct(_, _, _) => CorrectKeeps(entries, now, op);
      case Delete(entryId) => DeleteKeeps(entries, entryId);
      case Promote(_, _) => PromoteKeeps(entries, now, op);
      case Dispute(entryId) => DisputeKeeps(entries, now, entryId);
      case Supersede(_, _) => SupersedeKeeps(entries, now, op);
      case Compact(_, _, _) => CompactKeeps(entries, now, op);
      case Maintain(steps) => MaintainKeeps(entries, now, steps);
    }
  }

  function Run(entries: seq<Entry>, requests: seq<Request>): seq<Entry> {
    if requests == [] then entries else Step(Run(entries, requests[..|requests| - 1]), requests[|requests| - 1])
  }

  ghost predicate FreshRun(entries: seq<Entry>, requests: seq<Request>) {
    || requests == []
    || (FreshRun(entries, requests[..|requests| - 1])
        && FreshOperation(Run(entries, requests[..|requests| - 1]), requests[|requests| - 1].op))
  }

  // Over every sequence of operations, refused or carried out, each reference
  // names an existing entry that is not active, and no two entries share an id.
  lemma {:induction false} ReferencesStaySound(entries: seq<Entry>, requests: seq<Request>)
    requires RefsOk(entries) && FreshRun(entries, requests)
    ensures RefsOk(Run(entries, requests))
  {
    if requests != [] {
      var before, r := Run(entries, requests[..|requests| - 1]), requests[|requests| - 1];
      ReferencesStaySound(entries, requests[..|requests| - 1]);
      if Apply(before, r.now, r.op).Ok? {
        ApplyKeeps(before, r.now, r.op);
        FiledKeeps(Apply(before, r.now, r.op).value);
      }
    }
  }

  // What maintenance may discard is never referred to.
  lemma DiscardNeverDangles(entries: seq<Entry>, e: Entry)
    requires RefsOk(entries) && e in entries && e.status == Active
    ensures !Referenced(entries, e.id)
  {
    if Referenced(entries, e.id) {
      var x :| x in entries && e.id in x.supersedes;
      assert EntryRefsOk(entries, x);
      var y :| y in entries && y.id == e.id && y.status != Active;
      SameId(entries, y, e);
    }
  }
}
