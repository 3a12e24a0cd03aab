/** Small shared vocabulary: an optional value and the game's one source of randomness. */
module Common {

  /** A value that may be absent: the `T | null` fields of the game. */
  datatype Option<T> = None | Some(value: T)

  /** A draw of `Math.random()`: a real in [0, 1). */
  predicate IsRoll(roll: real)
  {
    0.0 <= roll < 1.0
  }

  /** `Math.floor(Math.random() * n)`: a roll scaled to an index below `n`. */
  function RandomIndex(roll: real, n: nat): (i: nat)
    requires IsRoll(roll) && 0 < n
    ensures i < n
  {
    var x := roll * n as real;
    assert 0.0 <= x < n as real by {
      assert roll * n as real < 1.0 * n as real;
    }
    x.Floor
  }

  /** Every index below `n` is the outcome of some roll, namely `i / n`. */
  lemma RandomIndexReaches(i: nat, n: nat)
    requires i < n
    ensures IsRoll(i as real / n as real)
    ensures RandomIndex(i as real / n as real, n) == i
  {
    var r := i as real / n as real;
    assert r * n as real == i as real;
    assert r < 1.0 by {
      assert i as real < n as real;
    }
  }
}
