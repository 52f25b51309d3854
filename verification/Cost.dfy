/** Effective-dated pricing (src/llmbus/cost.py). Days are proleptic Gregorian ordinals. */
module Costs {
  import opened Prelude
  import opened Schema

  /** USD per million tokens. */
  datatype ModelPricing = ModelPricing(input: real, output: real)

  /** A rate in force from `effective` on, until the next one. */
  datatype PricePoint = PricePoint(effective: Day, pricing: ModelPricing)

  /** 1 January 2025. */
  const EPOCH: Day := 739252
  /** 1 September 2026. */
  const SONNET_STANDARD: Day := 739860

  function Flat(input: real, output: real): seq<PricePoint> {
    [PricePoint(EPOCH, ModelPricing(input, output))]
  }

  const PRICING: map<string, seq<PricePoint>> := map[
    "gpt-5" := Flat(1.25, 10.0),
    "gpt-5-mini" := Flat(0.25, 2.0),
    "gpt-5-nano" := Flat(0.05, 0.4),
    "gpt-5.4-mini" := Flat(0.75, 4.5),
    "gpt-5.2" := Flat(1.75, 14.0),
    "gpt-5.4" := Flat(2.5, 15.0),
    "gpt-5.5" := Flat(5.0, 30.0),
    "claude-opus-4-8" := Flat(5.0, 25.0),
    "claude-haiku-4-5" := Flat(1.0, 5.0),
    "claude-sonnet-5" := Flat(2.0, 10.0) + [PricePoint(SONNET_STANDARD, ModelPricing(3.0, 15.0))]]

  /** The points in force on a day. */
  function Applicable(points: seq<PricePoint>, on: Day): seq<PricePoint> {
    if points == [] then []
    else (if points[0].effective <= on then [points[0]] else []) + Applicable(points[1..], on)
  }

  /** The first of the points with the latest effective day. */
  function Latest(points: seq<PricePoint>): PricePoint
    requires points != []
  {
    if |points| == 1 then points[0]
    else
      var rest := Latest(points[1..]);
      if points[0].effective >= rest.effective then points[0] else rest
  }

  function PriceFor(model: string, on: Day): Outcome<ModelPricing> {
    if model !in PRICING then Raised(NoPrice(model))
    else
      var applicable := Applicable(PRICING[model], on);
      if applicable == [] then Raised(NoPrice(model)) else Returned(Latest(applicable).pricing)
  }

  /** A usage at a rate. */
  function Bill(rate: ModelPricing, input: int, output: int): real {
    (input as real * rate.input + output as real * rate.output) / 1000000.0
  }

  function CostUsd(model: string, input: int, output: int, on: Day): Outcome<real> {
    if input < 0 || output < 0 then Raised(ValueError)
    else
      var price := PriceFor(model, on);
      if price.Raised? then Raised(price.error)
      else Returned(Bill(price.value, input, output))
  }

  lemma {:induction false} ApplicableExactly(points: seq<PricePoint>, on: Day)
    ensures forall p :: p in Applicable(points, on) <==> p in points && p.effective <= on
  {
    if points != [] {
      ApplicableExactly(points[1..], on);
      assert points == [points[0]] + points[1..];
    }
  }

  lemma {:induction false} LatestIsLatest(points: seq<PricePoint>)
    requires points != []
    ensures Latest(points) in points
    ensures forall p :: p in points ==> p.effective <= Latest(points).effective
  {
    if |points| > 1 {
      LatestIsLatest(points[1..]);
      assert points == [points[0]] + points[1..];
    }
  }

  /** The rate in force is that of the last point not after the day; there is one exactly when some
      point of the model is not after the day. */
  lemma PriceInForce(model: string, on: Day)
    ensures PriceFor(model, on).Returned?
       <==> model in PRICING && exists p :: p in PRICING[model] && p.effective <= on
    ensures PriceFor(model, on).Returned? ==>
              exists p :: && p in PRICING[model] && p.effective <= on && p.pricing == PriceFor(model, on).value
                          && forall q :: q in PRICING[model] && q.effective <= on ==> q.effective <= p.effective
  {
    if model in PRICING {
      var points := PRICING[model];
      var applicable := Applicable(points, on);
      ApplicableExactly(points, on);
      if applicable != [] {
        LatestIsLatest(applicable);
        assert applicable[0] in applicable;
      }
    }
  }

  /** What is routed is priced and what is priced is routed, exactly from the price floor on. */
  lemma RoutedIsPriced(model: string, on: Day)
    ensures Routable(model) <==> model in PRICING
    ensures PriceFor(model, on).Returned? <==> Routable(model) && on >= EPOCH
  {
    PriceInForce(model, on);
    if model in PRICING {
      assert PRICING[model][0].effective == EPOCH;
      assert PRICING[model][0] in PRICING[model];
      NoneBeforeFloor(model);
    }
  }

  lemma NoneBeforeFloor(model: string)
    requires model in PRICING
    ensures forall p :: p in PRICING[model] ==> p.effective >= EPOCH
  {
  }

  /** Two rates bill every usage alike exactly when they are the same rate. */
  lemma SameBillSameRate(a: ModelPricing, b: ModelPricing)
    ensures a == b <==> forall input: nat, output: nat :: Bill(a, input, output) == Bill(b, input, output)
  {
    if forall input: nat, output: nat :: Bill(a, input, output) == Bill(b, input, output) {
      assert Bill(a, 1, 0) == Bill(b, 1, 0);
      assert Bill(a, 0, 1) == Bill(b, 0, 1);
    }
  }

  /** A rate is per million tokens of its kind, and bills add up: a usage that is split is billed the same in all. */
  lemma BillsAddUp(rate: ModelPricing, input: int, output: int, input': int, output': int)
    ensures Bill(rate, 1000000, 0) == rate.input && Bill(rate, 0, 1000000) == rate.output
    ensures Bill(rate, input + input', output + output') == Bill(rate, input, output) + Bill(rate, input', output')
  {
    InputBill(rate, input, input');
    OutputBill(rate, output, output');
    Apart(rate, input + input', output + output');
    Apart(rate, input, output);
    Apart(rate, input', output');
  }

  lemma Apart(rate: ModelPricing, input: int, output: int)
    ensures Bill(rate, input, output) == Bill(rate, input, 0) + Bill(rate, 0, output)
  {
  }

  lemma InputBill(rate: ModelPricing, a: int, b: int)
    ensures Bill(rate, a + b, 0) == Bill(rate, a, 0) + Bill(rate, b, 0)
  {
    assert (a + b) as real == a as real + b as real;
    assert (a as real + b as real) * rate.input == a as real * rate.input + b as real * rate.input;
  }

  lemma OutputBill(rate: ModelPricing, a: int, b: int)
    ensures Bill(rate, 0, a + b) == Bill(rate, 0, a) + Bill(rate, 0, b)
  {
    assert (a + b) as real == a as real + b as real;
    assert (a as real + b as real) * rate.output == a as real * rate.output + b as real * rate.output;
  }

  /** So at the rate in force on a day, a million input tokens cost its input rate, a million output tokens its
      output rate, and the cost of two usages together is the sum of their costs. */
  lemma CostAddsUp(model: string, on: Day, input: nat, output: nat, input': nat, output': nat)
    requires PriceFor(model, on).Returned?
    ensures CostUsd(model, 1000000, 0, on) == Returned(PriceFor(model, on).value.input)
    ensures CostUsd(model, 0, 1000000, on) == Returned(PriceFor(model, on).value.output)
    ensures CostUsd(model, input, output, on).Returned? && CostUsd(model, input', output', on).Returned?
    ensures CostUsd(model, input + input', output + output', on)
         == Returned(CostUsd(model, input, output, on).value + CostUsd(model, input', output', on).value)
  {
    hide PriceFor, Bill;
    BillsAddUp(PriceFor(model, on).value, input, output, input', output');
  }
}
