// A loop that improves a state until it fits, for a bounded number of rounds.
module BoundedLoop {
  import opened Prelude

  function Improve<S>(state: S, fits: S -> bool, next: S -> Option<S>, attempts: nat): Option<S>
    decreases attempts
  {
    if attempts == 0 then None
    else if fits(state) then Some(state)
    else
      var improved := next(state);
      if improved.None? then None else Improve(improved.value, fits, next, attempts - 1)
  }

  ghost predicate Preserves<S(!new)>(good: S -> bool, fits: S -> bool, next: S -> Option<S>) {
    forall s :: good(s) && !fits(s) && next(s).Some? ==> good(next(s).value)
  }

  // A state that comes out fits, and has every property the rounds preserve.
  lemma {:induction false} ImproveKeeps<S(!new)>(state: S, good: S -> bool, fits: S -> bool, next: S -> Option<S>,
                                                 attempts: nat)
    requires good(state) && Preserves(good, fits, next)
    ensures var r := Improve(state, fits, next, attempts); r.Some? ==> fits(r.value) && good(r.value)
    decreases attempts
  {
    if attempts > 0 && !fits(state) && next(state).Some? {
      ImproveKeeps(next(state).value, good, fits, next, attempts - 1);
    }
  }

  ghost predicate Decreases<S(!new)>(size: S -> nat, good: S -> bool, fits: S -> bool, next: S -> Option<S>) {
    forall s :: good(s) && !fits(s) && next(s).Some? ==> size(next(s).value) < size(s)
  }

  ghost predicate Stuck<S>(last: S, good: S -> bool, fits: S -> bool, next: S -> Option<S>) {
    good(last) && !fits(last) && next(last).None?
  }

  // With more rounds than the state has size, it only fails where no round is left to do.
  lemma {:induction false} ImproveGivesUp<S(!new)>(state: S, size: S -> nat, good: S -> bool, fits: S -> bool,
                                                   next: S -> Option<S>, attempts: nat)
    requires good(state) && Preserves(good, fits, next) && Decreases(size, good, fits, next)
    requires attempts > size(state) && Improve(state, fits, next, attempts).None?
    ensures exists last :: Stuck(last, good, fits, next)
    decreases attempts
  {
    if next(state).None? {
      assert Stuck(state, good, fits, next);
    } else {
      ImproveGivesUp(next(state).value, size, good, fits, next, attempts - 1);
    }
  }
}
