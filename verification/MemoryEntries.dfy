// The entries of one memory file and the operations that change them.
module MemoryEntries {
  import opened Prelude
  import opened Text

  datatype Tier = Stable | Recent

  datatype Status = Active | Disputed | Superseded

  datatype Entry = Entry(
    id: string,
    createdAt: string,
    updatedAt: string,
    content: string,
    sourceMessageRowIds: seq<nat>,
    assertedByIds: seq<string>,
    evidenceKind: Option<string>,
    memoryKind: Option<string>,
    tier: Tier,
    status: Status,
    aliases: seq<string>,
    validUntil: Option<string>,
    supersedes: seq<string>)

  datatype MemoryError = NotFound | InvalidSelection | RevisionConflict

  function Find(entries: seq<Entry>, id: string): (r: Option<Entry>)
    ensures r.Some? ==> r.value in entries && r.value.id == id
    ensures r.None? ==> forall e :: e in entries ==> e.id != id
  {
    if entries == [] then None
    else if entries[0].id == id then Some(entries[0])
    else Find(entries[1..], id)
  }

  // A change of each entry on its own: what stands in its place afterwards.
  function Change(entries: seq<Entry>, f: Entry -> seq<Entry>): seq<Entry> {
    if entries == [] then [] else Change(entries[..|entries| - 1], f) + f(entries[|entries| - 1])
  }

  lemma {:induction false} InChange(entries: seq<Entry>, f: Entry -> seq<Entry>, y: Entry)
    ensures y in Change(entries, f) <==> exists x :: x in entries && y in f(x)
  {
    if entries != [] {
      var n := |entries| - 1;
      InChange(entries[..n], f, y);
      assert entries == entries[..n] + [entries[n]];
    }
  }

  // The file lists stable entries first.
  function OfTier(entries: seq<Entry>, tier: Tier): seq<Entry> {
    if entries == [] then []
    else
      var last := entries[|entries| - 1];
      OfTier(entries[..|entries| - 1], tier) + (if last.tier == tier then [last] else [])
  }

  function Filed(entries: seq<Entry>): seq<Entry> {
    OfTier(entries, Stable) + OfTier(entries, Recent)
  }

  lemma {:induction false} InTier(entries: seq<Entry>, tier: Tier, e: Entry)
    ensures e in OfTier(entries, tier) <==> e in entries && e.tier == tier
  {
    if entries != [] {
      InTier(entries[..|entries| - 1], tier, e);
      assert entries == entries[..|entries| - 1] + [entries[|entries| - 1]];
    }
  }

  lemma InFiled(entries: seq<Entry>, e: Entry)
    ensures e in Filed(entries) <==> e in entries
  {
    InTier(entries, Stable, e);
    InTier(entries, Recent, e);
  }

  // --- the single-entry operations ------------------------------------------

  datatype Details = Details(
    content: string,
    sourceMessageRowIds: seq<nat>,
    assertedByIds: seq<string>,
    aliases: Option<seq<string>>,
    evidenceKind: Option<string>,
    memoryKind: Option<string>)

  datatype Operation =
    | Write(duplicateOf: Option<string>, details: Details, newId: string)
    | Update(entryId: string, details: Details)
    | Correct(entryId: string, details: Details, newId: string)
    | Delete(entryId: string)
    | Promote(entryId: string, newContent: Option<string>)
    | Dispute(entryId: string)
    | Supersede(entryId: string, replacementEntryId: string)
    | Compact(entryIds: seq<string>, content: string, newId: string)
    | Maintain(steps: seq<MaintenanceStep>)

  // newId and contradictory are what the id generator and the contradiction check say.
  datatype MaintenanceStep =
    | PromoteStep(entryId: string, content: string)
    | MergeStep(entryIds: seq<string>, content: string, newId: string, contradictory: bool)
    | DisputeStep(entryIds: seq<string>)
    | DiscardStep(entryId: string)

  function Or<T>(a: Option<T>, b: Option<T>): Option<T> {
    if a.Some? then a else b
  }

  function NewEntry(id: string, now: string, details: Details, aliases: seq<string>, supersedes: seq<string>): Entry {
    Entry(id, now, now, Trim(details.content), Unique(details.sourceMessageRowIds), Unique(details.assertedByIds),
          details.evidenceKind, details.memoryKind, Recent, Active, aliases, None, supersedes)
  }

  function AliasesOf(details: Details): seq<string> {
    if details.aliases.Some? then details.aliases.value else []
  }

  function TakingIn(id: string, now: string, d: Details): Entry -> seq<Entry> {
    (e: Entry) =>
      if e.id != id then [e]
      else [e.(updatedAt := now,
               sourceMessageRowIds := Unique(e.sourceMessageRowIds + d.sourceMessageRowIds),
               assertedByIds := Unique(e.assertedByIds + d.assertedByIds),
               aliases := Unique(e.aliases + AliasesOf(d)),
               evidenceKind := Or(e.evidenceKind, d.evidenceKind),
               memoryKind := Or(e.memoryKind, d.memoryKind))]
  }

  // A duplicate takes in the new evidence; otherwise a recent entry is added.
  function AfterWrite(entries: seq<Entry>, now: string, op: Operation): Result<seq<Entry>, MemoryError>
    requires op.Write?
  {
    var d := op.details;
    if op.duplicateOf.Some? then Ok(Change(entries, TakingIn(op.duplicateOf.value, now, d)))
    else
      Ok(entries + [NewEntry(op.newId, now, d, AliasesOf(d), [])
                      .(sourceMessageRowIds := d.sourceMessageRowIds, assertedByIds := d.assertedByIds)])
  }

  function Updating(id: string, now: string, d: Details): Entry -> seq<Entry> {
    (e: Entry) =>
      if e.id != id then [e]
      else [e.(updatedAt := now, content := Trim(d.content),
               sourceMessageRowIds := Unique(e.sourceMessageRowIds + d.sourceMessageRowIds),
               assertedByIds := Unique(e.assertedByIds + d.assertedByIds),
               aliases := if d.aliases.None? then e.aliases else Unique(d.aliases.value),
               evidenceKind := Or(d.evidenceKind, e.evidenceKind),
               memoryKind := Or(d.memoryKind, e.memoryKind))]
  }

  function AfterUpdate(entries: seq<Entry>, now: string, op: Operation): Result<seq<Entry>, MemoryError>
    requires op.Update?
  {
    if Find(entries, op.entryId).None? then Err(NotFound)
    else Ok(Change(entries, Updating(op.entryId, now, op.details)))
  }

  function Correcting(id: string, now: string, replacement: Entry): Entry -> seq<Entry> {
    (e: Entry) => if e.id != id then [e] else [e.(updatedAt := now, status := Superseded), replacement]
  }

  function AfterCorrect(entries: seq<Entry>, now: string, op: Operation): Result<seq<Entry>, MemoryError>
    requires op.Correct?
  {
    var target := Find(entries, op.entryId);
    if op.newId == op.entryId then Err(InvalidSelection)
    else if target.None? then Err(NotFound)
    else if target.value.status == Superseded then Err(InvalidSelection)
    else
      Ok(Change(entries, Correcting(op.entryId, now,
                                    NewEntry(op.newId, now, op.details, target.value.aliases, [op.entryId]))))
  }

  function Deleting(id: string): Entry -> seq<Entry> {
    (e: Entry) => if e.id == id then [] else [e]
  }

  // An entry that another one refers to cannot be deleted.
  function AfterDelete(entries: seq<Entry>, entryId: string): Result<seq<Entry>, MemoryError> {
    if Find(entries, entryId).None? then Err(NotFound)
    else if exists e :: e in entries && entryId in e.supersedes then Err(InvalidSelection)
    else Ok(Change(entries, Deleting(entryId)))
  }

  function Promoting(id: string, now: string, newContent: Option<string>): Entry -> seq<Entry> {
    (e: Entry) =>
      if e.id != id then [e]
      else [e.(updatedAt := now, tier := Stable,
               content := if newContent.Some? && Trim(newContent.value) != "" then Trim(newContent.value)
                          else e.content)]
  }

  function AfterPromote(entries: seq<Entry>, now: string, op: Operation): Result<seq<Entry>, MemoryError>
    requires op.Promote?
  {
    if Find(entries, op.entryId).None? then Err(NotFound)
    else Ok(Change(entries, Promoting(op.entryId, now, op.newContent)))
  }

  function Disputing(id: string, now: string): Entry -> seq<Entry> {
    (e: Entry) => if e.id != id then [e] else [e.(updatedAt := now, status := Disputed)]
  }

  function AfterDispute(entries: seq<Entry>, now: string, entryId: string): Result<seq<Entry>, MemoryError> {
    if Find(entries, entryId).None? then Err(NotFound) else Ok(Change(entries, Disputing(entryId, now)))
  }

  function Superseding(id: string, replacementId: string, now: string): Entry -> seq<Entry> {
    (e: Entry) =>
      if e.id == id then [e.(updatedAt := now, status := Superseded)]
      else if e.id == replacementId then [e.(updatedAt := now, supersedes := Unique(e.supersedes + [id]))]
      else [e]
  }

  function AfterSupersede(entries: seq<Entry>, now: string, op: Operation): Result<seq<Entry>, MemoryError>
    requires op.Supersede?
  {
    if op.entryId == op.replacementEntryId then Err(InvalidSelection)
    else if Find(entries, op.entryId).None? || Find(entries, op.replacementEntryId).None? then Err(NotFound)
    else Ok(Change(entries, Superseding(op.entryId, op.replacementEntryId, now)))
  }

  // --- several entries at once ----------------------------------------------

  function Chosen(entries: seq<Entry>, ids: seq<string>): seq<Entry> {
    if entries == [] then []
    else
      var last := entries[|entries| - 1];
      Chosen(entries[..|entries| - 1], ids) + (if last.id in ids then [last] else [])
  }

  function Sources(entries: seq<Entry>): seq<nat> {
    if entries == [] then [] else Sources(entries[..|entries| - 1]) + entries[|entries| - 1].sourceMessageRowIds
  }

  function Asserters(entries: seq<Entry>): seq<string> {
    if entries == [] then [] else Asserters(entries[..|entries| - 1]) + entries[|entries| - 1].assertedByIds
  }

  function AllAliases(entries: seq<Entry>): seq<string> {
    if entries == [] then [] else AllAliases(entries[..|entries| - 1]) + entries[|entries| - 1].aliases
  }

  function Present(kinds: seq<Option<string>>): set<string> {
    set k | k in kinds && k.Some? :: k.value
  }

  // The one kind the entries that have a kind agree on.
  function Common(kinds: seq<Option<string>>): Option<string> {
    if exists k :: k in Present(kinds) && Present(kinds) == {k} then
      var k :| k in Present(kinds) && Present(kinds) == {k};
      Some(k)
    else None
  }

  function EvidenceKinds(entries: seq<Entry>): seq<Option<string>> {
    seq(|entries|, i requires 0 <= i < |entries| => entries[i].evidenceKind)
  }

  function MemoryKinds(entries: seq<Entry>): seq<Option<string>> {
    seq(|entries|, i requires 0 <= i < |entries| => entries[i].memoryKind)
  }

  function MergedEntry(selected: seq<Entry>, id: string, now: string, content: string, aliases: seq<string>,
                       supersedes: seq<string>): Entry {
    Entry(id, now, now, Trim(content), Unique(Sources(selected)), Unique(Asserters(selected)),
          Common(EvidenceKinds(selected)), Common(MemoryKinds(selected)), Stable, Active, aliases, None, supersedes)
  }

  function FirstChosen(entries: seq<Entry>, ids: seq<string>): Option<string> {
    if entries == [] then None
    else if entries[0].id in ids then Some(entries[0].id)
    else FirstChosen(entries[1..], ids)
  }

  function Compacting(ids: seq<string>, now: string, first: Option<string>, compacted: Entry): Entry -> seq<Entry> {
    (e: Entry) =>
      if e.id !in ids then [e]
      else (if first == Some(e.id) then [compacted] else []) + [e.(updatedAt := now, status := Superseded)]
  }

  function AfterCompact(entries: seq<Entry>, now: string, op: Operation): Result<seq<Entry>, MemoryError>
    requires op.Compact?
  {
    var selected := Chosen(entries, op.entryIds);
    if |Unique(op.entryIds)| != |op.entryIds| || |op.entryIds| < 2 then Err(InvalidSelection)
    else if op.newId in op.entryIds then Err(InvalidSelection)
    else if |selected| != |op.entryIds| then Err(NotFound)
    else
      var compacted := MergedEntry(selected, op.newId, now, op.content, [], op.entryIds);
      Ok(Change(entries, Compacting(op.entryIds, now, FirstChosen(entries, op.entryIds), compacted)))
  }

  // --- maintenance ----------------------------------------------------------

  // Claimed ids, what replaces them (None: nothing), and what is inserted before them.
  datatype Work = Work(consumed: set<string>, replacements: map<string, Option<Entry>>,
                       insertionsBefore: map<string, Entry>)

  // Claiming: each id names an entry and is claimed once in the whole batch.
  function Claim(entries: seq<Entry>, consumed: set<string>, ids: seq<string>): Result<seq<Entry>, MemoryError> {
    if ids == [] then Ok([])
    else
      var front := Claim(entries, consumed, ids[..|ids| - 1]);
      var id := ids[|ids| - 1];
      var found := Find(entries, id);
      if front.Err? then front
      else if found.None? then Err(NotFound)
      else if id in consumed || id in ids[..|ids| - 1] then Err(InvalidSelection)
      else Ok(front.value + [found.value])
  }

  function SetOf(ids: seq<string>): set<string> {
    set id | id in ids
  }

  // Each selected entry replaced by itself under a new status.
  function Restate(replacements: map<string, Option<Entry>>, selected: seq<Entry>, now: string,
                   status: Status): map<string, Option<Entry>> {
    if selected == [] then replacements
    else
      var e := selected[|selected| - 1];
      Restate(replacements, selected[..|selected| - 1], now,
              status)[e.id := Some(e.(updatedAt := now, status := status))]
  }

  function ApplyStep(entries: seq<Entry>, now: string, work: Work, step: MaintenanceStep): Result<Work, MemoryError> {
    match step
    case PromoteStep(entryId, content) =>
      var claimed := Claim(entries, work.consumed, [entryId]);
      if claimed.Err? then Err(claimed.error)
      else if claimed.value == [] then Err(NotFound)
      else
        var e := claimed.value[0];
        if e.tier == Stable || e.status != Active || |Unique(e.sourceMessageRowIds)| < 2 then Err(InvalidSelection)
        else Ok(work.(consumed := work.consumed + {entryId},
                      replacements := work.replacements[e.id := Some(e.(updatedAt := now, tier := Stable,
                                                                        content := Trim(content)))]))
    case DiscardStep(entryId) =>
      var claimed := Claim(entries, work.consumed, [entryId]);
      if claimed.Err? then Err(claimed.error)
      else if claimed.value == [] then Err(NotFound)
      else
        var e := claimed.value[0];
        if e.tier == Stable || e.status != Active then Err(InvalidSelection)
        else Ok(work.(consumed := work.consumed + {entryId}, replacements := work.replacements[e.id := None]))
    case DisputeStep(entryIds) =>
      var claimed := Claim(entries, work.consumed, entryIds);
      if |Unique(entryIds)| != |entryIds| || |entryIds| < 2 then Err(InvalidSelection)
      else if claimed.Err? then Err(claimed.error)
      else if exists e :: e in claimed.value && e.status == Superseded then Err(InvalidSelection)
      else Ok(work.(consumed := work.consumed + SetOf(entryIds),
                    replacements := Restate(work.replacements, claimed.value, now, Disputed)))
    case MergeStep(entryIds, content, newId, contradictory) =>
      var claimed := Claim(entries, work.consumed, entryIds);
      if |Unique(entryIds)| != |entryIds| || |entryIds| < 2 then Err(InvalidSelection)
      else if claimed.Err? then Err(claimed.error)
      else
        var selected := claimed.value;
        if exists e :: e in selected && e.status != Active then Err(InvalidSelection)
        else if forall e :: e in selected ==> e.tier == Stable then Err(InvalidSelection)
        else if contradictory then
          Ok(work.(consumed := work.consumed + SetOf(entryIds),
                   replacements := Restate(work.replacements, selected, now, Disputed)))
        else if newId in entryIds then Err(InvalidSelection)
        else if selected == [] then Err(NotFound)
        else
          Ok(Work(work.consumed + SetOf(entryIds),
                  Restate(work.replacements, selected, now, Superseded),
                  work.insertionsBefore[selected[0].id :=
                    MergedEntry(selected, newId, now, content, Unique(AllAliases(selected)), entryIds)]))
  }

  function ApplySteps(entries: seq<Entry>, now: string, steps: seq<MaintenanceStep>): Result<Work, MemoryError> {
    if steps == [] then Ok(Work({}, map[], map[]))
    else
      var before := ApplySteps(entries, now, steps[..|steps| - 1]);
      if before.Err? then before else ApplyStep(entries, now, before.value, steps[|steps| - 1])
  }

  function InPlaceOf(work: Work, e: Entry): seq<Entry> {
    (if e.id in work.insertionsBefore then [work.insertionsBefore[e.id]] else [])
    + (if e.id !in work.replacements then [e]
       else if work.replacements[e.id].Some? then [work.replacements[e.id].value]
       else [])
  }

  function Carrying(work: Work): Entry -> seq<Entry> {
    (e: Entry) => InPlaceOf(work, e)
  }

  function Carried(entries: seq<Entry>, work: Work): seq<Entry> {
    Change(entries, Carrying(work))
  }

  function AfterMaintain(entries: seq<Entry>, now: string,
                         steps: seq<MaintenanceStep>): Result<seq<Entry>, MemoryError> {
    if steps == [] then Err(InvalidSelection)
    else
      var work := ApplySteps(entries, now, steps);
      if work.Err? then Err(work.error)
      else if Carried(entries, work.value) == [] then Err(InvalidSelection)
      else Ok(Carried(entries, work.value))
  }

  // The loop that fills consumed, replacements and insertionsBefore.
  method ApplyMemoryMaintenance(entries: seq<Entry>, now: string, operations: seq<MaintenanceStep>)
    returns (r: Result<seq<Entry>, MemoryError>)
    ensures r == AfterMaintain(entries, now, operations)
  {
    if operations == [] { return Err(InvalidSelection); }
    var work := Work({}, map[], map[]);
    for n := 0 to |operations|
      invariant ApplySteps(entries, now, operations[..n]) == Ok(work)
    {
      assert operations[..n + 1][..n] == operations[..n];
      var next := ApplyStep(entries, now, work, operations[n]);
      if next.Err? {
        StepsStop(entries, now, operations, n + 1);
        return Err(next.error);
      }
      work := next.value;
    }
    assert operations[..|operations|] == operations;
    var nextEntries := Carried(entries, work);
    if nextEntries == [] { return Err(InvalidSelection); }
    return Ok(nextEntries);
  }

  lemma {:induction false} StepsStop(entries: seq<Entry>, now: string, steps: seq<MaintenanceStep>, n: nat)
    requires n <= |steps| && ApplySteps(entries, now, steps[..n]).Err?
    ensures ApplySteps(entries, now, steps) == ApplySteps(entries, now, steps[..n])
    decreases |steps|
  {
    if n == |steps| {
      assert steps[..n] == steps;
    } else {
      assert steps[..|steps| - 1][..n] == steps[..n];
      StepsStop(entries, now, steps[..|steps| - 1], n);
    }
  }

  // --- one operation on a file ----------------------------------------------

  function Apply(entries: seq<Entry>, now: string, op: Operation): Result<seq<Entry>, MemoryError> {
    match op
    case Write(_, _, _) => AfterWrite(entries, now, op)
    case Update(_, _) => AfterUpdate(entries, now, op)
    case Correct(_, _, _) => AfterCorrect(entries, now, op)
    case Delete(entryId) => AfterDelete(entries, entryId)
    case Promote(_, _) => AfterPromote(entries, now, op)
    case Dispute(entryId) => AfterDispute(entries, now, entryId)
    case Supersede(_, _) => AfterSupersede(entries, now, op)
    case Compact(_, _, _) => AfterCompact(entries, now, op)
    case Maintain(steps) => AfterMaintain(entries, now, steps)
  }

  // A request: the operation is carried out on the revision it was meant for, or not at all.
  datatype Request = Request(op: Operation, now: string, revisionMatches: bool)

  function Step(entries: seq<Entry>, r: Request): seq<Entry> {
    var result := Apply(entries, r.now, r.op);
    if (!r.revisionMatches && !r.op.Write?) || result.Err? then entries else Filed(result.value)
  }
}
