/** Resource::age: capacity spoils by a fixed divisor each round and is
    clamped to zero below a small floor. */
module Spoilage {

  /** RESOURCE_SPOIL_FACTOR. */
  const SpoilFactor: real := 1.2
  /** Below this a spoiled capacity becomes exactly zero. */
  const SpoilFloor: real := 0.001

  /** The capacity after one call of age. Whatever the prior capacity (even a
      negative one), the result is exactly 0 or at least the floor; for a
      non-negative capacity it is at most the capacity divided by the factor. */
  function Spoiled(c: real): (r: real)
    ensures r == 0.0 || r >= SpoilFloor
    ensures c >= 0.0 ==> r <= c / SpoilFactor
  {
    if c / SpoilFactor < SpoilFloor then 0.0 else c / SpoilFactor
  }

  /** The capacity after n rounds of aging. */
  function SpoiledAfter(c: real, n: nat): real
  {
    if n == 0 then c else Spoiled(SpoiledAfter(c, n - 1))
  }

  /** Aging never increases a non-negative capacity, and never makes it negative. */
  lemma SpoilageNeverIncreases(c: real, n: nat)
    requires c >= 0.0
    ensures 0.0 <= SpoiledAfter(c, n + 1) <= SpoiledAfter(c, n)
  {
    if n > 0 {
      assert SpoiledAfter(c, n) == Spoiled(SpoiledAfter(c, n - 1));
    }
  }

  /** After n rounds the capacity has shrunk at least as 5 / (5 + n). */
  lemma {:induction false} SpoilageBound(c: real, n: nat)
    requires c >= 0.0
    ensures 0.0 <= SpoiledAfter(c, n)
    ensures SpoiledAfter(c, n) * (5.0 + n as real) <= 5.0 * c
  {
    if n > 0 {
      SpoilageBound(c, n - 1);
      var x := SpoiledAfter(c, n - 1);
      var y := SpoiledAfter(c, n);
      assert y <= x / SpoilFactor;
      var m := (n - 1) as real;
      // x / 1.2 * (6 + m) == x * (6 + m) * 5 / 6 <= x * (5 + m)
      assert y * (6.0 + m) <= x / SpoilFactor * (6.0 + m);
      assert x / SpoilFactor * (6.0 + m) <= x * (5.0 + m);
    }
  }

  /** The number of rounds after which a capacity c has certainly spoiled away. */
  function SpoilRounds(c: real): nat
    requires c >= 0.0
  {
    5000 * (c.Floor as nat + 1)
  }

  /** Every non-negative capacity reaches exactly zero after finitely many rounds. */
  lemma SpoilsAway(c: real)
    requires c >= 0.0
    ensures SpoiledAfter(c, SpoilRounds(c)) == 0.0
  {
    var n := SpoilRounds(c);
    SpoilageBound(c, n);
    var y := SpoiledAfter(c, n);
    assert 5.0 * c < SpoilFloor * (5.0 + n as real);
    assert y < SpoilFloor;
  }
}
