/** Piece identities: the static counter Piece::__idGen, an unsigned int that
    starts at 0 and is pre-incremented by every piece constructor. */
module Ids {

  /** The number of values of an unsigned int; the counter wraps there. */
  const IdLimit: nat := 0x1_0000_0000

  /** Pre-increment of the unsigned 32-bit counter. */
  function NextId(last: nat): nat
  {
    (last + 1) % IdLimit
  }

  /** The counter after k constructions starting from `start`; the k-th
      constructed piece receives exactly this value as its id. */
  function CounterAfter(start: nat, k: nat): nat
  {
    if k == 0 then start else NextId(CounterAfter(start, k - 1))
  }

  /** Until the counter wraps, every construction advances it by exactly one. */
  lemma {:induction false} CounterAdvancesByOne(start: nat, k: nat)
    requires start + k < IdLimit
    ensures CounterAfter(start, k) == start + k
  {
    if k > 0 {
      CounterAdvancesByOne(start, k - 1);
    }
  }

  /** Ids are strictly increasing, hence never reused, as long as fewer than
      2^32 pieces have been made. */
  lemma IdsStrictlyIncrease(start: nat, j1: nat, j2: nat)
    requires j1 < j2 && start + j2 < IdLimit
    ensures CounterAfter(start, j1) < CounterAfter(start, j2)
  {
    CounterAdvancesByOne(start, j1);
    CounterAdvancesByOne(start, j2);
  }

  /** The counter starts at 0, so the first piece ever made has id 1. */
  lemma FirstIdIsOne()
    ensures CounterAfter(0, 1) == 1
  {
  }

  /** The 2^32-th increment wraps the counter back to 0. */
  lemma CounterWraps()
    ensures NextId(IdLimit - 1) == 0
  {
  }

  /** The static counter as an object that every constructor updates in place. */
  class IdGenerator {
    var last: nat

    ghost predicate Valid()
      reads this
    {
      last < IdLimit
    }

    /** The counter starts at 0 before any piece is made. */
    constructor ()
      ensures Valid() && last == 0
    {
      last := 0;
    }

    /** Advance the counter and hand out its new value as the piece's id. */
    method Issue() returns (id: nat)
      requires Valid()
      modifies this
      ensures Valid() && last == NextId(old(last)) && id == last
    {
      last := NextId(last);
      id := last;
    }
  }
}
