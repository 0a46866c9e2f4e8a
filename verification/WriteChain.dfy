// The per-key write lock: each call waits for the promise of the call before it,
// and takes its own promise out of the map when nobody queued up behind it.
module WriteChain {
  import opened Prelude

  datatype Phase = Waiting | Writing | Released

  // A call of withWrite; prev is the call whose tail it found in the map.
  datatype Call = Call(key: string, prev: Option<nat>, phase: Phase)

  datatype Chain = Chain(calls: seq<Call>, tails: map<string, nat>)

  // The promise a call leaves behind: settled once it and everything before it released.
  predicate TailSettled(s: Chain, id: nat)
    decreases id
  {
    && id < |s.calls| && s.calls[id].phase == Released
    && match s.calls[id].prev
       case None => true
       case Some(p) => p < id && TailSettled(s, p)
  }

  predicate MayEnter(s: Chain, id: nat) {
    && id < |s.calls| && s.calls[id].phase == Waiting
    && (s.calls[id].prev.Some? ==> TailSettled(s, s.calls[id].prev.value))
  }

  function Arrive(s: Chain, key: string): Chain {
    var prev := if key in s.tails then Some(s.tails[key]) else None;
    Chain(s.calls + [Call(key, prev, Waiting)], s.tails[key := |s.calls|])
  }

  function Enter(s: Chain, id: nat): Chain {
    if MayEnter(s, id) then s.(calls := s.calls[id := s.calls[id].(phase := Writing)]) else s
  }

  // Whether the task returns or throws, the call releases.
  function Leave(s: Chain, id: nat): Chain {
    if id >= |s.calls| || s.calls[id].phase != Writing then s
    else
      var key := s.calls[id].key;
      Chain(s.calls[id := s.calls[id].(phase := Released)],
            if key in s.tails && s.tails[key] == id then s.tails - {key} else s.tails)
  }

  datatype Action = Arrives(key: string) | Enters(id: nat) | Leaves(id: nat)

  function Step(s: Chain, a: Action): Chain {
    match a
    case Arrives(key) => Arrive(s, key)
    case Enters(id) => Enter(s, id)
    case Leaves(id) => Leave(s, id)
  }

  function Run(actions: seq<Action>): Chain {
    if actions == [] then Chain([], map[]) else Step(Run(actions[..|actions| - 1]), actions[|actions| - 1])
  }

  // --- invariants -----------------------------------------------------------

  // Every earlier call for the same key has released.
  ghost predicate EarlierReleased(s: Chain, id: nat)
    requires id < |s.calls|
  {
    forall j :: 0 <= j < id && s.calls[j].key == s.calls[id].key ==> s.calls[j].phase == Released
  }

  // A call waits for the one right before it, or for nobody if all have released.
  ghost predicate Linked(s: Chain, id: nat)
    requires id < |s.calls|
  {
    match s.calls[id].prev
    case None => EarlierReleased(s, id)
    case Some(p) => p < id && s.calls[p].key == s.calls[id].key
                    && forall j :: p < j < id ==> s.calls[j].key != s.calls[id].key
  }

  // The map holds the last call of each key that still has unreleased calls.
  ghost predicate TailsOk(s: Chain) {
    && (forall key :: key in s.tails ==>
          && s.tails[key] < |s.calls| && s.calls[s.tails[key]].key == key
          && s.calls[s.tails[key]].phase != Released
          && forall j :: s.tails[key] < j < |s.calls| ==> s.calls[j].key != key)
    && forall id :: 0 <= id < |s.calls| && s.calls[id].phase != Released ==> s.calls[id].key in s.tails
  }

  ghost predicate Inv(s: Chain) {
    && TailsOk(s)
    && forall id :: 0 <= id < |s.calls| ==> Linked(s, id) && (s.calls[id].phase != Waiting ==> EarlierReleased(s, id))
  }

  lemma SettledIsReleased(s: Chain, id: nat)
    requires Inv(s) && id < |s.calls|
    ensures TailSettled(s, id) <==> s.calls[id].phase == Released
    decreases id
  {
    if s.calls[id].phase == Released && s.calls[id].prev.Some? {
      assert Linked(s, id) && EarlierReleased(s, id);
      SettledIsReleased(s, s.calls[id].prev.value);
    }
  }

  lemma ArriveKeeps(s: Chain, key: string)
    requires Inv(s)
    ensures Inv(Arrive(s, key))
  {
    var t := Arrive(s, key);
    forall id | 0 <= id < |t.calls|
      ensures Linked(t, id) && (t.calls[id].phase != Waiting ==> EarlierReleased(t, id))
    {
      if id < |s.calls| { assert Linked(s, id); }
    }
  }

  lemma StillReleased(s: Chain, t: Chain, id: nat, j: nat)
    requires id < |s.calls| && j < |s.calls| && s.calls[id].phase == Waiting
    requires t == s.(calls := s.calls[id := s.calls[id].(phase := Writing)])
    requires EarlierReleased(s, j)
    ensures EarlierReleased(t, j)
  {
  }

  lemma EnteredLinks(s: Chain, t: Chain, id: nat, j: nat)
    requires Inv(s) && id < |s.calls| && EarlierReleased(s, id) && s.calls[id].phase == Waiting && j < |s.calls|
    requires t == s.(calls := s.calls[id := s.calls[id].(phase := Writing)])
    ensures Linked(t, j) && (t.calls[j].phase != Waiting ==> EarlierReleased(t, j))
  {
    assert Linked(s, j);
    if EarlierReleased(s, j) { StillReleased(s, t, id, j); }
  }

  lemma EnterKeeps(s: Chain, id: nat)
    requires Inv(s)
    ensures Inv(Enter(s, id))
  {
    if MayEnter(s, id) {
      var t := Enter(s, id);
      EnteredAlone(s, id);
      forall j | 0 <= j < |t.calls| ensures Linked(t, j) && (t.calls[j].phase != Waiting ==> EarlierReleased(t, j)) {
        EnteredLinks(s, t, id, j);
      }
    }
  }

  // A call that may enter has no unreleased call before it.
  lemma EnteredAlone(s: Chain, id: nat)
    requires Inv(s) && MayEnter(s, id)
    ensures EarlierReleased(s, id)
  {
    assert Linked(s, id);
    match s.calls[id].prev {
      case None =>
      case Some(p) =>
        SettledIsReleased(s, p);
        assert EarlierReleased(s, p);
    }
  }

  lemma LeaveKeepsTails(s: Chain, id: nat)
    requires Inv(s) && id < |s.calls| && s.calls[id].phase == Writing
    ensures TailsOk(Leave(s, id))
  {
    var t := Leave(s, id);
    assert EarlierReleased(s, id);
    assert forall j :: 0 <= j < |t.calls| ==> t.calls[j].key == s.calls[j].key;
  }

  lemma LeaveKeepsLinks(s: Chain, id: nat, j: nat)
    requires id < |s.calls| && s.calls[id].phase == Writing && j < |s.calls|
    requires Linked(s, j) && (s.calls[j].phase != Waiting ==> EarlierReleased(s, j))
    requires EarlierReleased(s, id)
    ensures var t := Leave(s, id); Linked(t, j) && (t.calls[j].phase != Waiting ==> EarlierReleased(t, j))
  {
  }

  lemma LeaveKeeps(s: Chain, id: nat)
    requires Inv(s)
    ensures Inv(Leave(s, id))
  {
    if id < |s.calls| && s.calls[id].phase == Writing {
      LeaveKeepsTails(s, id);
      assert EarlierReleased(s, id);
      var t := Leave(s, id);
      forall j | 0 <= j < |t.calls| ensures Linked(t, j) && (t.calls[j].phase != Waiting ==> EarlierReleased(t, j)) {
        LeaveKeepsLinks(s, id, j);
      }
    }
  }

  lemma {:induction false} AlwaysInv(actions: seq<Action>)
    ensures Inv(Run(actions))
  {
    if actions != [] {
      var before, a := Run(actions[..|actions| - 1]), actions[|actions| - 1];
      AlwaysInv(actions[..|actions| - 1]);
      match a {
        case Arrives(key) => ArriveKeeps(before, key);
        case Enters(id) => EnterKeeps(before, id);
        case Leaves(id) => LeaveKeeps(before, id);
      }
    }
  }

  // Under every interleaving: at most one call per key is writing, calls of a key
  // write in the order they came even when earlier ones threw, and the map holds
  // exactly the keys with calls that have not released.
  lemma WritesAreSerial(actions: seq<Action>)
    ensures var s := Run(actions);
      && (forall i, j :: 0 <= i < j < |s.calls| && s.calls[i].key == s.calls[j].key && s.calls[j].phase != Waiting ==>
            s.calls[i].phase == Released)
      && (forall key :: key in s.tails <==>
            exists id :: 0 <= id < |s.calls| && s.calls[id].key == key && s.calls[id].phase != Released)
  {
    AlwaysInv(actions);
    var s := Run(actions);
    forall i, j | 0 <= i < j < |s.calls| && s.calls[i].key == s.calls[j].key && s.calls[j].phase != Waiting
      ensures s.calls[i].phase == Released
    {
      assert EarlierReleased(s, j);
    }
  }

  // Nobody waits for ever: of the calls of a key that have not released, the
  // oldest is writing or may enter.
  lemma OldestGoesOn(actions: seq<Action>, id: nat)
    requires id < |Run(actions).calls| && Run(actions).calls[id].phase != Released
    requires EarlierReleased(Run(actions), id)
    ensures Run(actions).calls[id].phase == Writing || MayEnter(Run(actions), id)
  {
    var s := Run(actions);
    AlwaysInv(actions);
    assert Linked(s, id);
    if s.calls[id].prev.Some? { SettledIsReleased(s, s.calls[id].prev.value); }
  }

  // --- the object -----------------------------------------------------------

  class WorkspaceStateCoordinator {
    var tails: map<string, nat>
    ghost var calls: seq<Call>

    ghost function State(): Chain
      reads this
    {
      Chain(calls, tails)
    }

    constructor ()
      ensures State() == Run([])
    {
      tails := map[];
      calls := [];
    }

    method Acquire(resourceKey: string, id: nat) returns (previous: Option<nat>)
      requires id == |calls|
      modifies this
      ensures State() == Arrive(old(State()), resourceKey)
      ensures previous == calls[id].prev
    {
      previous := if resourceKey in tails then Some(tails[resourceKey]) else None;
      tails := tails[resourceKey := id];
      calls := calls + [Call(resourceKey, previous, Waiting)];
    }

    method Release(resourceKey: string, id: nat)
      requires id < |calls| && calls[id].key == resourceKey && calls[id].phase == Writing
      modifies this
      ensures State() == Leave(old(State()), id)
    {
      if resourceKey in tails && tails[resourceKey] == id { tails := tails - {resourceKey}; }
      calls := calls[id := calls[id].(phase := Released)];
    }
  }
}
