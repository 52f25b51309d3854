/** Small shared vocabulary: optional values, raised errors and real arithmetic. */
module Prelude {

  datatype Option<+T> = None | Some(value: T)

  /** The exceptions that the modelled code raises, by class. */
  datatype Error =
    | ValueError
    | UnknownProvider(provider: string)
    | UnknownModel(model: string)
    | NoPrice(model: string)
    | NoModelPolicy(project: string, kind: string)
    | NullModel
    | SendError
    | PollTimeout

  /** How a call ends: it returns a value or it raises. */
  datatype Outcome<+T> = Returned(value: T) | Raised(error: Error)

  function Max(a: real, b: real): real {
    if a < b then b else a
  }

  function Min(a: real, b: real): real {
    if b < a then b else a
  }

  /** Multiplying a quotient by its divisor gives the dividend back. */
  lemma TimesQuotient(rate: real, x: real)
    requires rate > 0.0
    ensures rate * (x / rate) == x
  {
  }

  lemma Scale(k: real, a: real, b: real)
    requires k >= 0.0 && a <= b
    ensures k * a <= k * b
  {
  }

  lemma PositiveFactor(k: real, x: real)
    requires k > 0.0 && k * x >= 0.0
    ensures x >= 0.0
  {
  }

  /** Dividing out a positive factor keeps the order, in both directions. */
  lemma Unscale(k: real, a: real, b: real)
    requires k > 0.0
    ensures k * a <= k * b <==> a <= b
  {
    if k * a <= k * b {
      assert k * (b - a) >= 0.0;
      PositiveFactor(k, b - a);
    } else {
      assert k * (a - b) > 0.0;
    }
  }

  lemma RefillIsNonNegative(rate: real, from: real, to: real)
    requires rate >= 0.0 && from <= to
    ensures rate * (to - from) >= 0.0
  {
  }

  /** A span cut at any instant: its parts refill what the whole does. */
  lemma Distribute(rate: real, from: real, mid: real, to: real)
    ensures rate * (to - from) == rate * (mid - from) + rate * (to - mid)
  {
  }

  lemma SameSpan(rate: real, from: real, from': real, to: real, to': real)
    requires from == from' && to == to'
    ensures rate * (to - from) == rate * (to' - from')
  {
  }

  /** How long an amount takes at a rate given per minute. */
  lemma PerMinute(amount: real, perMin: real)
    requires perMin > 0.0
    ensures perMin / 60.0 > 0.0 && amount / (perMin / 60.0) == 60.0 * amount / perMin
  {
    var rate := perMin / 60.0;
    assert perMin == 60.0 * rate;
    TimesQuotient(rate, amount);
    TimesQuotient(perMin, 60.0 * amount);
    SameQuotient(rate, amount / rate, (60.0 * amount) / perMin, amount);
  }

  lemma SameQuotient(rate: real, x: real, y: real, amount: real)
    requires rate > 0.0 && rate * x == amount && (60.0 * rate) * y == 60.0 * amount
    ensures x == y
  {
    assert rate * (x - y) == 0.0;
  }
}
