/** One continuously refilling token bucket (src/llmbus/ratelimit.py:49-91). */
module TokenBuckets {
  import opened Prelude

  /** The value of a bucket: the two constants of its construction and its two mutable fields. */
  datatype Bucket = Bucket(rate: real, capacity: real, tokens: real, updated: real) {

    predicate Valid() {
      rate > 0.0 && capacity > 0.0 && tokens <= capacity
    }

    /** The balance that the lazy refill finds at `now`, before anything is spent. */
    function Refilled(now: real): real {
      Min(capacity, tokens + Max(0.0, now - updated) * rate)
    }

    /** The bucket after `amount` was reserved at `now`. */
    function Charged(now: real, amount: real): Bucket {
      this.(tokens := Refilled(now) - amount, updated := Max(updated, now))
    }

    /** Seconds until the debt is paid back at the refill rate. */
    function Wait(): real
      requires rate > 0.0
    {
      Max(0.0, -tokens) / rate
    }

    /** A reservation as a caller sees it: a negative amount is refused and changes nothing. */
    function Reserved(now: real, amount: real): (Bucket, Outcome<real>)
      requires rate > 0.0
    {
      if amount < 0.0 then (this, Raised(ValueError))
      else (Charged(now, amount), Returned(Charged(now, amount).Wait()))
    }
  }

  /** A bucket starts full. */
  function Fresh(rate: real, capacity: real, start: real): Bucket {
    Bucket(rate, capacity, capacity, start)
  }

  class TokenBucket {
    const rate: real
    const capacity: real
    var tokens: real
    var updated: real

    function View(): Bucket
      reads this
    {
      Bucket(rate, capacity, tokens, updated)
    }

    predicate Valid()
      reads this
    {
      View().Valid()
    }

    constructor (rate: real, capacity: real, now: real)
      requires rate > 0.0 && capacity > 0.0
      ensures Valid() && View() == Fresh(rate, capacity, now)
    {
      this.rate := rate;
      this.capacity := capacity;
      this.tokens := capacity;
      this.updated := now;
    }

    /** Construction as its caller sees it: a rate or capacity that is not positive is refused. */
    static method Make(rate: real, capacity: real, now: real) returns (made: Outcome<TokenBucket>)
      ensures rate <= 0.0 || capacity <= 0.0 ==> made == Raised(ValueError)
      ensures rate > 0.0 && capacity > 0.0 ==>
                && made.Returned?
                && fresh(made.value)
                && made.value.Valid()
                && made.value.View() == Fresh(rate, capacity, now)
    {
      if rate <= 0.0 || capacity <= 0.0 {
        return Raised(ValueError);
      }
      var bucket := new TokenBucket(rate, capacity, now);
      return Returned(bucket);
    }

    method Reserve(now: real, amount: real) returns (wait: Outcome<real>)
      requires Valid()
      modifies this
      ensures Valid()
      ensures (View(), wait) == old(View()).Reserved(now, amount)
    {
      if amount < 0.0 {
        return Raised(ValueError);
      }
      var elapsed := Max(0.0, now - updated);
      tokens := Min(capacity, tokens + elapsed * rate);
      updated := Max(updated, now);
      tokens := tokens - amount;
      var deficit := Max(0.0, -tokens);
      wait := Returned(deficit / rate);
      assert View() == old(View()).Charged(now, amount);
    }
  }
}
