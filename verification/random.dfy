/** The randomness the engine consumes: the results of successive Math.random
    calls, supplied from outside so that shuffles and draws are deterministic
    functions of their inputs. */
module Random {

  /** A value Math.random may return. */
  type Unit = u: real | 0.0 <= u < 1.0

  /** An unending stream of Math.random results; `rand(k)` is the k-th call. */
  type Source = nat -> Unit

  /** `Math.floor(Math.random() * bound)`, taken on the exact product: an
      index below `bound`. */
  function Pick(u: Unit, bound: nat): (j: nat)
    requires bound > 0
    ensures j < bound
    ensures u == 0.0 ==> j == 0
  {
    var x := u * (bound as real);
    ScaleBelow(u, bound as real);
    x.Floor
  }

  /** A unit value scales a positive bound to something below it. */
  lemma ScaleBelow(u: real, b: real)
    requires 0.0 <= u < 1.0 && b > 0.0
    ensures 0.0 <= u * b < b
  {
    assert u * b + (1.0 - u) * b == b;
    assert (1.0 - u) * b > 0.0;
  }
}
