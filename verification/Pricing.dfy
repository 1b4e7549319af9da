// What metered tokens cost: prices per million tokens, rounded up to whole microdollars.
module Pricing {
  // Token counts of one inference, or the ceilings on them.
  datatype Tokens = Tokens(input: nat, output: nat)

  datatype Rates = Rates(input: nat, output: nat)

  function Cost(rates: Rates, t: Tokens): nat {
    (t.input * rates.input + t.output * rates.output + 999_999) / 1_000_000
  }

  predicate Covers(ceiling: Tokens, t: Tokens) {
    t.input <= ceiling.input && t.output <= ceiling.output
  }

  function Plus(a: Tokens, b: Tokens): Tokens {
    Tokens(a.input + b.input, a.output + b.output)
  }

  function Sum(ts: seq<Tokens>): Tokens {
    if ts == [] then Tokens(0, 0) else Plus(Sum(ts[..|ts| - 1]), ts[|ts| - 1])
  }

  function SumCosts(rates: Rates, ts: seq<Tokens>): nat {
    if ts == [] then 0 else SumCosts(rates, ts[..|ts| - 1]) + Cost(rates, ts[|ts| - 1])
  }

  // The cost is the least number of whole microdollars that covers the exact price.
  lemma CostLeast(rates: Rates, t: Tokens, cost: nat)
    ensures t.input * rates.input + t.output * rates.output <= cost * 1_000_000 <==> Cost(rates, t) <= cost
  {
    var exact := t.input * rates.input + t.output * rates.output;
  }

  lemma CostMonotone(rates: Rates, ceiling: Tokens, t: Tokens)
    requires Covers(ceiling, t)
    ensures Cost(rates, t) <= Cost(rates, ceiling)
  {
    var x, y := t.input * rates.input + t.output * rates.output,
                ceiling.input * rates.input + ceiling.output * rates.output;
    assert x <= y by {
      Scale(t.input, ceiling.input, rates.input);
      Scale(t.output, ceiling.output, rates.output);
    }
    RoundMonotone(x, y);
  }

  lemma Scale(a: nat, b: nat, k: nat)
    requires a <= b
    ensures a * k <= b * k
  {
    assert (b - a) * k >= 0;
  }

  lemma RoundMonotone(x: nat, y: nat)
    requires x <= y
    ensures (x + 999_999) / 1_000_000 <= (y + 999_999) / 1_000_000
  {
  }

  lemma RoundTogether(x: nat, y: nat)
    ensures (x + y + 999_999) / 1_000_000 <= (x + 999_999) / 1_000_000 + (y + 999_999) / 1_000_000
  {
  }

  // Pricing a total costs no more than pricing its parts.
  lemma CostTogether(rates: Rates, a: Tokens, b: Tokens)
    ensures Cost(rates, Plus(a, b)) <= Cost(rates, a) + Cost(rates, b)
  {
    assert (a.input + b.input) * rates.input == a.input * rates.input + b.input * rates.input;
    assert (a.output + b.output) * rates.output == a.output * rates.output + b.output * rates.output;
    RoundTogether(a.input * rates.input + a.output * rates.output, b.input * rates.input + b.output * rates.output);
  }

  // Whatever is used within the ceilings, in one total, costs no more than the ceilings priced one by one.
  lemma {:induction false} AggregateCost(rates: Rates, ceilings: seq<Tokens>, used: seq<Tokens>)
    requires |ceilings| == |used|
    requires forall i | 0 <= i < |used| :: Covers(ceilings[i], used[i])
    ensures Cost(rates, Sum(used)) <= SumCosts(rates, ceilings)
  {
    if used == [] {
      assert Cost(rates, Tokens(0, 0)) == 0;
    } else {
      var n := |used| - 1;
      AggregateCost(rates, ceilings[..n], used[..n]);
      CostTogether(rates, Sum(used[..n]), used[n]);
      CostMonotone(rates, ceilings[n], used[n]);
    }
  }
}
