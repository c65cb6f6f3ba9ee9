/** The vocabulary the components share, and the decimal rounding they apply. */
module Contracts {
  import opened Wrappers

  datatype Direction = Bullish | Bearish | Neutral

  datatype PriceSource = CompletedDailyClose | Intraday | Unknown

  datatype OptionKind = Call | Put

  datatype Strategy = BullCallDebitSpread | BearPutDebitSpread

  function Opposite(d: Direction): Direction
  {
    if d == Bullish then Bearish else Bullish
  }

  /** A structural invalidation: a level, a direction and the price series it is read from. */
  datatype Invalidation = Invalidation(level: real, direction: Direction, source: PriceSource) {

    /** The direction comes from the rule, never from the position that holds it. */
    predicate Breached(price: real)
    {
      if direction == Bullish then price <= level else price >= level
    }
  }

  function Abs(x: real): real { if x < 0.0 then -x else x }

  function Min(x: real, y: real): real { if x < y then x else y }

  function Max(x: real, y: real): real { if x < y then y else x }

  /** The nearest integer, a tie going to the even one. */
  function HalfEven(x: real): (n: int)
    ensures x - 0.5 <= n as real <= x + 0.5
  {
    var low := x.Floor;
    var rest := x - low as real;
    if rest < 0.5 || (rest == 0.5 && low % 2 == 0) then low else low + 1
  }

  function Ceiling(x: real): (n: int)
    ensures x <= n as real < x + 1.0
  {
    -(-x).Floor
  }

  /** `quantize(Decimal("0.01"))`. */
  function Cents(x: real): real
  {
    HalfEven(x * 100.0) as real / 100.0
  }

  /** The same, rounding up. */
  function CentsUp(x: real): real
  {
    Ceiling(x * 100.0) as real / 100.0
  }

  lemma HalfEvenOfInt(n: int)
    ensures HalfEven(n as real) == n
  {
  }

  lemma HalfEvenMonotone(x: real, y: real)
    requires x <= y
    ensures HalfEven(x) <= HalfEven(y)
  {
  }

  /** Rounding a rounded amount changes nothing. */
  lemma CentsIdempotent(x: real)
    ensures Cents(Cents(x)) == Cents(x)
  {
    var n := HalfEven(x * 100.0);
    assert (n as real / 100.0) * 100.0 == n as real;
    HalfEvenOfInt(n);
  }

  /** Rounding to cents: a whole number of them, the nearest, and of two as near the even one. */
  lemma CentsNearest(x: real) returns (n: int)
    ensures Cents(x) == n as real / 100.0 && -0.005 <= Cents(x) - x <= 0.005
    ensures Cents(x) - x == 0.005 || Cents(x) - x == -0.005 ==> n % 2 == 0
  {
    n := HalfEven(x * 100.0);
  }

  /** Rounding up to cents: the least whole number of them that is not below. */
  lemma CentsUpLeast(x: real) returns (n: int)
    ensures CentsUp(x) == n as real / 100.0 && x <= CentsUp(x) < x + 0.01
  {
    n := Ceiling(x * 100.0);
  }
}
