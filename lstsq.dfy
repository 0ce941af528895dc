/** The least-squares solve `np.linalg.lstsq(A, b)[0]`, which the model takes as a parameter. */
module LeastSquares {

  /** n zeros. */
  function Zeros(n: nat): (r: seq<real>)
    ensures |r| == n && forall k :: 0 <= k < n ==> r[k] == 0.0
  {
    seq(n, _ => 0.0)
  }

  /**
    What the model assumes of the solver, called with the column count of A: it returns one
    value per column, and the minimum-norm solution of a system whose right-hand side is
    zero is zero.
  */
  ghost predicate IsLstsq(lstsq: (nat, seq<seq<real>>, seq<real>) -> seq<real>) {
    (forall cols, a, b :: |lstsq(cols, a, b)| == cols) &&
    (forall cols, a, m :: lstsq(cols, a, Zeros(m)) == Zeros(cols))
  }
}
