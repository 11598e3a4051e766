/** `Math.random` as an oracle: an infinite stream of values in [0, 1)
    together with the position of the next unread value. */
module Random {

  /** A value `Math.random()` can return. */
  type Unit = r: real | 0.0 <= r < 1.0

  /** The successive results of `Math.random()`. */
  type Stream = nat -> Unit

  /** `Math.floor(r * n)`: a uniform index into a non-empty list. */
  function FloorIndex(r: Unit, n: nat): (i: nat)
    requires n > 0
    ensures i < n
  {
    var x := r * n as real;
    assert 0.0 <= x < n as real by {
      assert (1.0 - r) * n as real > 0.0;
    }
    x.Floor
  }
}
