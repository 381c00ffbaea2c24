/** The cashback amount: amount times rate, capped, rounded half up to cents. Products of cents and
    ten-thousandths are counted in ten-thousandths of a cent. */
module Cashback {
  import opened Domain

  const UNIT: nat := 10000

  function RoundHalfUp(x: nat): (cents: nat) {
    (x + UNIT / 2) / UNIT
  }

  function Capped(x: nat, cap: Option<Cents>): nat {
    if cap.Some? && x > cap.value * UNIT then cap.value * UNIT else x
  }

  function CashbackOf(amount: Cents, rule: Rule): (cents: Cents) {
    RoundHalfUp(Capped(amount * rule.rate, rule.cap))
  }

  /** Half up means: the nearest cent, and the larger one on a tie. */
  lemma RoundingIsNearest(x: nat)
    ensures -(UNIT as int) / 2 <= UNIT * RoundHalfUp(x) - x <= UNIT / 2
    ensures UNIT * RoundHalfUp(x) - x != -(UNIT as int) / 2
  {}

  lemma RoundingIsMonotone(x: nat, y: nat)
    requires x <= y
    ensures RoundHalfUp(x) <= RoundHalfUp(y)
  {}

  lemma RoundingKeepsCents(c: nat)
    ensures RoundHalfUp(c * UNIT) == c
  {}

  lemma ProductIsMonotone(a: nat, b: nat, x: nat, y: nat)
    requires a <= b && x <= y
    ensures a * x <= b * y
  {
    assert b * y == a * x + a * (y - x) + (b - a) * y;
  }

  /** Capping before rounding is the same as rounding before capping. */
  lemma CapAndRoundCommute(amount: Cents, rule: Rule)
    ensures CashbackOf(amount, rule) ==
            var rounded := RoundHalfUp(amount * rule.rate);
            if rule.cap.Some? && rounded > rule.cap.value then rule.cap.value else rounded
  {
    if rule.cap.Some? {
      RoundingKeepsCents(rule.cap.value);
      if amount * rule.rate > rule.cap.value * UNIT {
        RoundingIsMonotone(rule.cap.value * UNIT, amount * rule.rate);
      } else {
        RoundingIsMonotone(amount * rule.rate, rule.cap.value * UNIT);
      }
    }
  }

  /** A credit never exceeds the order amount nor the cap. */
  lemma CashbackIsBounded(amount: Cents, rule: Rule)
    ensures CashbackOf(amount, rule) <= amount
    ensures rule.cap.Some? ==> CashbackOf(amount, rule) <= rule.cap.value
  {
    ProductIsMonotone(amount, amount, rule.rate, UNIT);
    RoundingKeepsCents(amount);
    RoundingIsMonotone(Capped(amount * rule.rate, rule.cap), amount * UNIT);
    if rule.cap.Some? {
      RoundingKeepsCents(rule.cap.value);
      RoundingIsMonotone(Capped(amount * rule.rate, rule.cap), rule.cap.value * UNIT);
    }
  }

  /** A larger amount, a larger rate or a looser cap never lowers the credit. */
  lemma CashbackIsMonotone(a: Cents, r: Rule, b: Cents, q: Rule)
    requires a <= b && r.rate <= q.rate
    requires q.cap.Some? ==> r.cap.Some? && r.cap.value <= q.cap.value
    ensures CashbackOf(a, r) <= CashbackOf(b, q)
  {
    ProductIsMonotone(a, b, r.rate, q.rate);
    if q.cap.Some? {
      ProductIsMonotone(r.cap.value, q.cap.value, UNIT, UNIT);
    }
    RoundingIsMonotone(Capped(a * r.rate, r.cap), Capped(b * q.rate, q.cap));
  }

  /** What a list of credits adds up to, rounded one by one. */
  function TotalCredited(items: seq<(Cents, Rate)>): nat {
    if |items| == 0 then 0
    else TotalCredited(items[..|items| - 1]) + CashbackOf(items[|items| - 1].0, Rule(items[|items| - 1].1, None))
  }

  /** The same cashback without rounding, in ten-thousandths of a cent. */
  function TotalExact(items: seq<(Cents, Rate)>): nat {
    if |items| == 0 then 0
    else TotalExact(items[..|items| - 1]) + Exact(items[|items| - 1])
  }

  function Exact(item: (Cents, Rate)): nat {
    item.0 * item.1
  }

  lemma DriftOfOne(amount: Cents, rate: Rate)
    ensures var credited := CashbackOf(amount, Rule(rate, None));
            -(UNIT as int) / 2 <= UNIT * credited - Exact((amount, rate)) <= UNIT / 2
  {
    RoundingIsNearest(Exact((amount, rate)));
  }

  lemma {:induction false} DriftAddsUp(items: seq<(Cents, Rate)>)
    ensures -5000 * |items| <= 10000 * TotalCredited(items) - TotalExact(items) <= 5000 * |items|
  {
    if |items| > 0 {
      DriftAddsUp(items[..|items| - 1]);
      DriftOfOne(items[|items| - 1].0, items[|items| - 1].1);
    }
  }

  /** Rounding n uncapped credits one by one drifts from exact cashback by at most n half cents. */
  lemma RoundingDrift(items: seq<(Cents, Rate)>)
    ensures -(UNIT / 2 * |items|) <= UNIT * TotalCredited(items) - TotalExact(items) <= UNIT / 2 * |items|
  {
    DriftAddsUp(items);
  }
}
