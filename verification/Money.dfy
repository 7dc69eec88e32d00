/** Payout arithmetic (`backend/app/settlement/payout.py`).

    Money is an integer number of quanta of 0.0001 and a price an integer number of
    millionths, the two column scales of `backend/app/db/types.py`. A quotient of two such
    numbers is rounded half-up to a whole quantum.
*/
module Money {

  const PRICE_ONE: nat := 1_000_000

  /** `outcomes.current_odds` is CHECKed to lie in [0, 1]; zero is allowed. */
  type Price = p: int | 0 <= p <= 1_000_000

  /** ROUND_HALF_UP of `n / d`: the contract is "nearest, ties upward", and it pins the result. */
  function HalfUp(n: nat, d: nat): (r: nat)
    requires d > 0
    ensures (2 * r - 1) * d <= 2 * n < (2 * r + 1) * d
  {
    var r := (2 * n + d) / (2 * d);
    assert 2 * d * r <= 2 * n + d < 2 * d * r + 2 * d;
    assert (2 * r - 1) * d == 2 * d * r - d;
    assert (2 * r + 1) * d == 2 * d * r + d;
    r
  }

  lemma MulMonotone(a: int, b: int, d: nat)
    requires a <= b
    ensures a * d <= b * d
  {
  }

  /** Two integers that are both "nearest, ties upward" to `n / d` are equal. */
  lemma HalfUpUnique(n: nat, d: nat, r: int)
    requires d > 0
    requires (2 * r - 1) * d <= 2 * n < (2 * r + 1) * d
    ensures r == HalfUp(n, d)
  {
    var q := HalfUp(n, d);
    if r < q {
      MulMonotone(2 * r + 1, 2 * q - 1, d);
    } else if q < r {
      MulMonotone(2 * q + 1, 2 * r - 1, d);
    }
  }

  lemma HalfUpMonotone(n: nat, m: nat, d: nat)
    requires d > 0 && n <= m
    ensures HalfUp(n, d) <= HalfUp(m, d)
  {
    var q, r := HalfUp(n, d), HalfUp(m, d);
    if r < q {
      MulMonotone(2 * r + 1, 2 * q - 1, d);
    }
  }

  lemma HalfUpExact(r: nat, d: nat)
    requires d > 0
    ensures HalfUp(r * d, d) == r
  {
    assert (2 * r - 1) * d == 2 * (r * d) - d;
    assert (2 * r + 1) * d == 2 * (r * d) + d;
    HalfUpUnique(r * d, d, r);
  }

  /** Gross payout of a winning bet, `stake / price` in quanta; 0 stands for "no payout" at price 0. */
  function Payout(stake: nat, price: nat): nat {
    if price == 0 then 0 else HalfUp(stake * PRICE_ONE, price)
  }

  /** Mark-to-market value `stake * current / entry` in quanta. */
  function Cashout(stake: nat, entry: nat, current: nat): nat {
    if entry == 0 then 0 else HalfUp(stake * current, entry)
  }

  /** The guards under which `compute_payout` and `cashout_value` do not raise ValueError. */
  predicate PayoutDefined(stake: int, price: int) {
    stake > 0 && 0 < price <= PRICE_ONE
  }

  /** A winner never gets less than the stake back. */
  lemma PayoutCoversStake(stake: nat, price: nat)
    requires PayoutDefined(stake, price)
    ensures Payout(stake, price) >= stake
  {
  }

  /** The winnings leg is skipped exactly when `2 * stake * (1 - price) < price`, in quanta and
      millionths: it can be skipped below price 1. */
  lemma NoWinningsIff(stake: nat, price: nat)
    requires PayoutDefined(stake, price)
    ensures Payout(stake, price) == stake <==> 2 * stake * (PRICE_ONE - price) < price
  {
    var n := stake * PRICE_ONE;
    assert 2 * stake * (PRICE_ONE - price) == 2 * n - 2 * stake * price;
    assert (2 * stake + 1) * price == 2 * stake * price + price;
    assert (2 * stake - 1) * price == 2 * stake * price - price;
    assert stake * price <= n;
    if 2 * stake * (PRICE_ONE - price) < price {
      HalfUpUnique(n, price, stake);
    }
  }

  /** A minimum stake at 0.999999 wins nothing on top of its stake. */
  lemma NoWinningsBelowOne()
    ensures Payout(10_000, 999_999) == 10_000
  {
  }

  /** Closing at the entry price returns the stake; closing at 1 pays like a win; closing at 0 pays nothing. */
  lemma CashoutEndpoints(stake: nat, price: nat)
    requires PayoutDefined(stake, price)
    ensures Cashout(stake, price, price) == stake
    ensures Cashout(stake, price, PRICE_ONE) == Payout(stake, price)
    ensures Cashout(stake, price, 0) == 0
  {
    HalfUpExact(stake, price);
    HalfUpExact(0, price);
  }

  lemma CashoutMonotone(stake: nat, entry: nat, low: nat, high: nat)
    requires entry > 0 && low <= high
    ensures Cashout(stake, entry, low) <= Cashout(stake, entry, high)
  {
    assert stake * low <= stake * high;
    HalfUpMonotone(stake * low, stake * high, entry);
  }

  /** Cashing out above the entry price never costs the player, below it never pays more than the stake. */
  lemma CashoutAgainstStake(stake: nat, entry: nat, current: nat)
    requires PayoutDefined(stake, entry)
    ensures current >= entry ==> Cashout(stake, entry, current) >= stake
    ensures current <= entry ==> Cashout(stake, entry, current) <= stake
    ensures current <= PRICE_ONE ==> Cashout(stake, entry, current) <= Payout(stake, entry)
  {
    CashoutEndpoints(stake, entry);
    if current >= entry {
      CashoutMonotone(stake, entry, entry, current);
    }
    if current <= entry {
      CashoutMonotone(stake, entry, current, entry);
    }
    if current <= PRICE_ONE {
      CashoutMonotone(stake, entry, current, PRICE_ONE);
    }
  }
}

/** The same quotients as `decimal` computes them: divide to 28 significant digits with
    ROUND_HALF_EVEN, then quantize to the money scale with ROUND_HALF_UP. */
module DecimalMoney {
  import opened Money

  /** `coefficient / 10^scale`, counted in money quanta. */
  datatype Decimal = Decimal(coefficient: nat, scale: nat)

  function Pow10(k: nat): (r: nat)
    ensures r > 0
  {
    if k == 0 then 1 else 10 * Pow10(k - 1)
  }

  /** ROUND_HALF_EVEN of `n / d`. */
  function HalfEven(n: nat, d: nat): (r: nat)
    requires d > 0
    ensures -(d as int) <= 2 * (r * d - n) <= d
  {
    var q, rest := n / d, n % d;
    assert n == q * d + rest;
    assert (q + 1) * d == q * d + d;
    if 2 * rest < d || (2 * rest == d && q % 2 == 0) then q else q + 1
  }

  /** Fewest decimals from `k` on that give the quotient `n / d` 28 significant digits. */
  function ScaleFrom(n: nat, d: nat, k: nat): (r: nat)
    requires n > 0 && d > 0
    ensures k <= r && n * Pow10(r) >= Pow10(27) * d
    ensures r == k || n * Pow10(r - 1) < Pow10(27) * d
    decreases Pow10(27) * d - n * Pow10(k)
  {
    if n * Pow10(k) >= Pow10(27) * d then k
    else
      assert n * Pow10(k + 1) == 10 * (n * Pow10(k));
      ScaleFrom(n, d, k + 1)
  }

  /** Division in the default context: 28 significant digits. */
  function Divide(n: nat, d: nat): Decimal
    requires d > 0
  {
    if n == 0 then Decimal(0, 0)
    else
      var k := ScaleFrom(n, d, 0);
      Decimal(HalfEven(n * Pow10(k), d), k)
  }

  function QuantizeMoney(x: Decimal): nat {
    HalfUp(x.coefficient, Pow10(x.scale))
  }

  lemma {:induction false} Pow10Monotone(a: nat, b: nat)
    requires a <= b
    ensures Pow10(a) <= Pow10(b)
  {
    if a < b {
      Pow10Monotone(a, b - 1);
    }
  }

  lemma {:induction false} Pow10Sum(a: nat, b: nat)
    ensures Pow10(a + b) == Pow10(a) * Pow10(b)
  {
    if b > 0 {
      Pow10Sum(a, b - 1);
      assert Pow10(a) * (10 * Pow10(b - 1)) == 10 * (Pow10(a) * Pow10(b - 1));
    }
  }

  lemma Pow10Six()
    ensures Pow10(6) == PRICE_ONE
  {
  }

  lemma MiddleSwap(x: int, y: int, z: int)
    ensures (x * y) * z == (x * z) * y
  {
  }

  lemma Halves(n: int, h: int)
    ensures n * (2 * h) == 2 * (n * h)
    ensures (2 * n + 1) * h == 2 * (n * h) + h
    ensures (2 * n) * h == 2 * (n * h)
  {
  }

  /** At a lower boundary both sides are even, so rounding cannot fall one short of it. */
  lemma NotBelow(n: nat, d: nat, h: nat, c: nat, low: int)
    requires d > 0 && h > 0 && low * d <= 2 * n
    requires -(d as int) <= 2 * (c * d - n * (2 * h))
    ensures low * h <= c
  {
    Halves(n, h);
    MulMonotone(low * d, 2 * n, h);
    MiddleSwap(low, d, h);
    assert (c + 1) * d == c * d + d;
    if c + 1 <= low * h {
      MulMonotone(c + 1, low * h, d);
    }
  }

  lemma NotAbove(n: nat, d: nat, h: nat, c: nat, up: int)
    requires 0 < d < 2 * h && 2 * n + 1 <= up * d
    requires 2 * (c * d - n * (2 * h)) <= d
    ensures c < up * h
  {
    Halves(n, h);
    MulMonotone(2 * n + 1, up * d, h);
    MiddleSwap(up, d, h);
    if up * h <= c {
      MulMonotone(up * h, c, d);
    }
  }

  /** Rounding first to a nearest multiple of `1 / g` (ties any way) and then half-up gives the
      exact half-up result, when `g` is even and finer than the denominator: a quotient that is
      not a tie is at least `1 / (2 d)` away from a rounding boundary, and a tie is representable. */
  lemma TwoStage(n: nat, d: nat, g: nat, c: nat)
    requires d > 0 && g > d && g % 2 == 0
    requires -(d as int) <= 2 * (c * d - n * g) <= d
    ensures HalfUp(c, g) == HalfUp(n, d)
  {
    var m, h := HalfUp(n, d), g / 2;
    NotBelow(n, d, h, c, 2 * m - 1);
    NotAbove(n, d, h, c, 2 * m + 1);
    assert (2 * m - 1) * g == 2 * ((2 * m - 1) * h);
    assert (2 * m + 1) * g == 2 * ((2 * m + 1) * h);
    HalfUpUnique(c, g, m);
  }

  lemma FineGrid(k: nat)
    requires k >= 7
    ensures Pow10(k) > PRICE_ONE && Pow10(k) % 2 == 0
  {
  }

  lemma CoarseProduct(n: nat, d: nat, x: nat, a: nat, b: nat)
    requires n < a * d && x <= b && b > 0
    ensures n * x < (a * b) * d
  {
  }

  /** A quotient below 10^a reaches a + b + 1 digits only with more than b decimals. */
  lemma EnoughDecimals(n: nat, d: nat, k: nat, a: nat, b: nat)
    requires n < Pow10(a) * d && n * Pow10(k) >= Pow10(a + b) * d
    ensures k > b
  {
    Pow10Sum(a, b);
    if k <= b {
      Pow10Monotone(k, b);
      CoarseProduct(n, d, Pow10(k), Pow10(a), Pow10(b));
    }
  }

  /** Two-stage rounding is harmless for every price and every quotient below 10^21 quanta. */
  lemma QuotientIsExact(n: nat, d: nat)
    requires 0 < d <= PRICE_ONE
    requires n < Pow10(21) * d
    ensures QuantizeMoney(Divide(n, d)) == HalfUp(n, d)
  {
    if n == 0 {
      HalfUpExact(0, d);
      HalfUpExact(0, 1);
    } else {
      var k := ScaleFrom(n, d, 0);
      EnoughDecimals(n, d, k, 21, 6);
      FineGrid(k);
      TwoStage(n, d, Pow10(k), HalfEven(n * Pow10(k), d));
    }
  }

  /** `compute_payout` and `cashout_value` as the code computes them. */
  function DecimalPayout(stake: nat, price: nat): nat
    requires price > 0
  {
    QuantizeMoney(Divide(stake * PRICE_ONE, price))
  }

  function DecimalCashout(stake: nat, entry: nat, current: nat): nat
    requires entry > 0
  {
    QuantizeMoney(Divide(stake * current, entry))
  }

  /** Up to 10^15 quanta, a million times BET_MAX_STAKE, the two-stage payout and cash-out are the exact ones. */
  lemma PayoutIsExact(stake: nat, price: nat, current: nat)
    requires PayoutDefined(stake, price) && current <= PRICE_ONE
    requires stake < Pow10(15)
    ensures DecimalPayout(stake, price) == Payout(stake, price)
    ensures DecimalCashout(stake, price, current) == Cashout(stake, price, current)
  {
    Pow10Six();
    Pow10Sum(15, 6);
    MulMonotone(stake + 1, Pow10(15), PRICE_ONE);
    MulMonotone(1, price, Pow10(21));
    MulMonotone(current, PRICE_ONE, stake);
    QuotientIsExact(stake * PRICE_ONE, price);
    QuotientIsExact(stake * current, price);
  }
}
