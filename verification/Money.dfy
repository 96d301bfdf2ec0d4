/**
 Money. Stored amounts are whole pence (`int`), because every money column is a
 two-decimal number. Amounts arriving with a new claim have no such limit and are
 exact decimals, here a `real` number of pence.
 */
module Money {
  import opened Options

  /** Banker's rounding to whole pence: the nearest penny, ties to the even one. */
  function BankersRound(x: real): (r: int)
    ensures x - 0.5 <= r as real <= x + 0.5
    ensures r as real == x - 0.5 || r as real == x + 0.5 ==> r % 2 == 0
  {
    var below := x.Floor;
    var rest := x - below as real;
    if rest < 0.5 || (rest == 0.5 && below % 2 == 0) then below else below + 1
  }

  /** What a two-decimal column keeps of an exact amount: the nearest penny, ties away from zero. */
  function StoreRound(x: real): (r: int)
    ensures x - 0.5 <= r as real <= x + 0.5
    ensures r as real == x - 0.5 ==> x < 0.0
    ensures r as real == x + 0.5 ==> x > 0.0
  {
    if x >= 0.0 then (x + 0.5).Floor else -((0.5 - x).Floor)
  }

  function Stored(x: Option<real>): Option<int> {
    match x
    case None => None
    case Some(v) => Some(StoreRound(v))
  }

  predicate WholePence(x: real) {
    x.Floor as real == x
  }

  /**
   The total of a claim. Gross already includes any zero-rated amount, so it is the
   total, unless it is absent, or zero while a zero-rated amount was entered.
   */
  function ResolveTotal<T(==)>(gross: Option<T>, vatZero: Option<T>, zero: T): Option<T> {
    if gross.Some? && !(gross.value == zero && vatZero.Some?) then gross else vatZero
  }

  /** Storing and resolving commute on whole pence. */
  lemma ResolveStored(gross: Option<real>, vatZero: Option<real>)
    requires gross.Some? ==> WholePence(gross.value)
    ensures Stored(ResolveTotal(gross, vatZero, 0.0)) == ResolveTotal(Stored(gross), Stored(vatZero), 0)
  {
    if gross.Some? {
      StoreRoundOfWhole(gross.value);
    }
  }

  lemma StoreRoundOfWhole(x: real)
    requires WholePence(x)
    ensures StoreRound(x) as real == x
  {
    var n := x.Floor;
    assert StoreRound(x) - n < 1 && n - StoreRound(x) < 1;
  }

  lemma StoreRoundMonotone(x: real, y: real)
    requires x <= y
    ensures StoreRound(x) <= StoreRound(y)
    ensures 0.0 <= x ==> 0 <= StoreRound(x)
  {
    assert StoreRound(x) as real - StoreRound(y) as real <= x - y + 1.0;
    assert StoreRound(x) - StoreRound(y) <= 1;
  }

  /** Rounding to a column never lifts an exact amount above a whole-penny ceiling. */
  lemma StoreRoundBelow(x: real, ceiling: int)
    requires x <= ceiling as real
    ensures StoreRound(x) <= ceiling
  {
    assert StoreRound(x) as real <= ceiling as real + 0.5;
  }

  /** The bounds in the contract of BankersRound leave exactly one value. */
  lemma BankersRoundUnique(x: real, n: int)
    requires x - 0.5 <= n as real <= x + 0.5
    requires n as real == x - 0.5 || n as real == x + 0.5 ==> n % 2 == 0
    ensures n == BankersRound(x)
  {
    var r := BankersRound(x);
    assert r - n <= 1 && n - r <= 1;
  }

  lemma BankersRoundOdd(x: real)
    ensures BankersRound(-x) == -BankersRound(x)
  {
    BankersRoundUnique(-x, -BankersRound(x));
  }

  lemma BankersRoundMonotone(x: real, y: real)
    requires x <= y
    ensures BankersRound(x) <= BankersRound(y)
  {
    var r, s := BankersRound(x), BankersRound(y);
    assert r as real - s as real <= x - y + 1.0;
    assert r - s <= 1;
  }

  lemma BankersRoundOfWhole(n: int)
    ensures BankersRound(n as real) == n
  {
    BankersRoundUnique(n as real, n);
  }

  /** Quantising an amount that is already whole pence. */
  function Quantize(n: int): (r: int)
    ensures r == n
  {
    BankersRoundOfWhole(n);
    BankersRound(n as real)
  }

  /** 80% of a zero-rated profit cost. */
  function PayZeroRated(vatZero: int): int {
    BankersRound(vatZero as real * 0.8)
  }

  /** 80% of a net profit cost, with 20% VAT added. */
  function PayStandardRated(net: int): int {
    BankersRound(net as real * 0.8 * 1.2)
  }

  /** Neither payment rate ever lands on a tie, so half-even never decides an invoice amount. */
  lemma RatesNeverTie(n: int, k: int)
    ensures n as real * 0.8 != k as real + 0.5
    ensures n as real * 0.8 * 1.2 != k as real + 0.5
  {
    assert 8 * n != 10 * k + 5;
    assert 48 * n != 50 * k + 25;
  }

  /** Rounding one 20% VAT payment is off by at most 12/25 of a penny. */
  lemma StandardRatedError(net: int)
    ensures 25 * PayStandardRated(net) - 24 * net <= 12
    ensures 24 * net - 25 * PayStandardRated(net) <= 12
  {
    var r := PayStandardRated(net);
    var x := net as real * 0.8 * 1.2;
    assert 50.0 * x == 48.0 * net as real;
    assert 50 * r - 48 * net <= 25 && 48 * net - 50 * r <= 25;
  }

  /** Rounding one zero-rated payment is off by at most 2/5 of a penny. */
  lemma ZeroRatedError(vatZero: int)
    ensures -2 <= 5 * PayZeroRated(vatZero) - 4 * vatZero <= 2
  {
    var r := PayZeroRated(vatZero);
    var x := vatZero as real * 0.8;
    assert 5.0 * x == 4.0 * vatZero as real;
    assert 10 * r - 8 * vatZero <= 5 && 8 * vatZero - 10 * r <= 5;
  }

  function Total(amounts: seq<int>): int {
    if amounts == [] then 0 else Total(amounts[..|amounts| - 1]) + amounts[|amounts| - 1]
  }

  lemma {:induction false} TotalConcat(a: seq<int>, b: seq<int>)
    ensures Total(a + b) == Total(a) + Total(b)
  {
    if b == [] {
      assert a + b == a;
    } else {
      var last := |b| - 1;
      assert (a + b)[..|a + b| - 1] == a + b[..last];
      TotalConcat(a, b[..last]);
    }
  }

  function PayAll(nets: seq<int>): seq<int> {
    seq(|nets|, i requires 0 <= i < |nets| => PayStandardRated(nets[i]))
  }

  /**
   Over n payments the rounding drift is at most 12n/25 of a penny: the total of the
   rounded payments against 96% of the summed nets, both sides scaled by 25.
   */
  lemma {:induction false} StandardRatedDrift(nets: seq<int>)
    ensures 25 * Total(PayAll(nets)) - 24 * Total(nets) <= 12 * |nets|
    ensures 24 * Total(nets) - 25 * Total(PayAll(nets)) <= 12 * |nets|
  {
    if nets != [] {
      var last := |nets| - 1;
      StandardRatedDrift(nets[..last]);
      StandardRatedError(nets[last]);
      assert PayAll(nets)[..last] == PayAll(nets[..last]);
    }
  }

  /** A payment of a claimed cost never exceeds the cost. */
  lemma PaymentsBelowCost(cost: int)
    requires 0 <= cost
    ensures 0 <= PayZeroRated(cost) <= cost
    ensures 0 <= PayStandardRated(cost) <= cost
  {
    BankersRoundOfWhole(cost);
    BankersRoundOfWhole(0);
    BankersRoundMonotone(cost as real * 0.8, cost as real);
    BankersRoundMonotone(cost as real * 0.8 * 1.2, cost as real);
    BankersRoundMonotone(0.0, cost as real * 0.8);
    BankersRoundMonotone(0.0, cost as real * 0.8 * 1.2);
  }
}
