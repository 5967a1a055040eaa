/**
 * The balance type and the fixed-point wrapper of the common prelude.
 *
 * `Balance` is an unsigned 128-bit integer. `FixedWrapper` is abstracted to exact
 * integers: its decimal scaling is not modelled, `/` is integer division, and a
 * division by zero puts the wrapper in its failed state, which every later
 * operation propagates.
 */
module Fixed {

  const BALANCE_LIMIT: nat := 0x1_0000_0000_0000_0000_0000_0000_0000_0000

  /** u128 */
  type Balance = n: nat | n < BALANCE_LIMIT

  datatype FixedWrapper = Exact(n: nat) | Invalid

  /** The integer square root, rounded down. */
  function FloorSqrt(n: nat): (r: nat)
    ensures r * r <= n < (r + 1) * (r + 1)
  {
    if n < 4 then (if n == 0 then 0 else 1)
    else
      var h := FloorSqrt(n / 4);
      SqrtStep(n, h);
      if (2 * h + 1) * (2 * h + 1) <= n then 2 * h + 1 else 2 * h
  }

  /** Doubling the root of n / 4 brackets the root of n. */
  lemma SqrtStep(n: nat, h: nat)
    requires h * h <= n / 4 < (h + 1) * (h + 1)
    ensures (2 * h) * (2 * h) <= n < (2 * h + 2) * (2 * h + 2)
  {
    assert (2 * h) * (2 * h) == 4 * (h * h);
    assert (2 * h + 2) * (2 * h + 2) == 4 * ((h + 1) * (h + 1));
    assert n / 4 + 1 <= (h + 1) * (h + 1);
  }

  lemma MulMono(a: nat, b: nat, c: nat, d: nat)
    requires a <= c && b <= d
    ensures a * b <= c * d
  {
    assert a * b <= c * b;
    assert c * b <= c * d;
  }

  /** The floor square root is the only number that brackets n between consecutive squares. */
  lemma {:induction false} FloorSqrtUnique(n: nat, r: nat)
    requires r * r <= n < (r + 1) * (r + 1)
    ensures FloorSqrt(n) == r
  {
    var q := FloorSqrt(n);
    if q < r {
      MulMono(q + 1, q + 1, r, r);
    } else if r < q {
      MulMono(r + 1, r + 1, q, q);
    }
  }

  /** The root of a product of two balances is again a balance. */
  lemma SqrtOfProductFits(a: Balance, b: Balance)
    ensures FloorSqrt(a * b) < BALANCE_LIMIT
  {
    var r := FloorSqrt(a * b);
    MulMono(a, b, BALANCE_LIMIT - 1, BALANCE_LIMIT - 1);
    if r >= BALANCE_LIMIT {
      MulMono(BALANCE_LIMIT, BALANCE_LIMIT, r, r);
    }
  }

  /** `multiply_and_sqrt`: the root of the product, failing if either side has failed. */
  function MultiplyAndSqrt(a: FixedWrapper, b: FixedWrapper): (r: FixedWrapper)
    ensures r.Exact? <==> a.Exact? && b.Exact?
    ensures r.Exact? ==> r.n * r.n <= a.n * b.n < (r.n + 1) * (r.n + 1)
  {
    if a.Exact? && b.Exact? then Exact(FloorSqrt(a.n * b.n)) else Invalid
  }

  /** `/` on wrappers: truncating division, failing on a zero divisor or a failed operand. */
  function Div(a: FixedWrapper, b: FixedWrapper): (r: FixedWrapper)
    ensures r.Exact? <==> a.Exact? && b.Exact? && b.n != 0
    ensures r.Exact? ==> r.n * b.n <= a.n < (r.n + 1) * b.n
  {
    if a.Exact? && b.Exact? && b.n != 0 then Exact(a.n / b.n) else Invalid
  }

  /** Dividing a balance by a positive amount gives a balance again. */
  lemma DivOfBalance(a: Balance, b: nat)
    requires b > 0
    ensures Div(Exact(a), Exact(b)) == Exact(a / b)
    ensures a / b <= a
  {
    var q := Div(Exact(a), Exact(b)).n;
    MulMono(q, 1, q, b);
  }
}
