/** The sidebar risk calculator: how many shares to buy so that hitting the
    stop loses at most the chosen share of capital. */
module RiskCalculator {

  datatype Advice =
    | Sized(amountToRisk: real, riskPerShare: real, quantity: int, tradeValue: real)
    | StopNotBelowEntry  // the "Stop Loss must be below Entry Price" error
    | NoAdvice           // nothing is shown

  /** Python's `int(x)` on a float: truncation toward zero. */
  function Truncate(x: real): (n: int)
    ensures x >= 0.0 ==> 0 <= n && n as real <= x < n as real + 1.0
    ensures x < 0.0 ==> n <= 0 && n as real - 1.0 < x <= n as real
  {
    if x >= 0.0 then x.Floor else -((-x).Floor)
  }

  /** What the calculator shows for the four inputs. */
  function Advise(capital: real, riskPercent: real, entry: real, stop: real): (a: Advice)
    ensures a.Sized? <==> entry > 0.0 && stop > 0.0 && entry > stop
    ensures a.StopNotBelowEntry? <==> 0.0 < entry <= stop
    ensures a.NoAdvice? <==> entry <= 0.0 || (stop <= 0.0 && 0.0 < entry)
    ensures a.Sized? ==>
      && a.amountToRisk == capital * (riskPercent / 100.0)
      && a.riskPerShare == entry - stop
      && a.tradeValue == a.quantity as real * entry
  {
    if entry > 0.0 && stop > 0.0 && entry > stop then
      var amount := capital * (riskPercent / 100.0);
      var perShare := entry - stop;
      var quantity := Truncate(amount / perShare);
      Sized(amount, perShare, quantity, quantity as real * entry)
    else if entry <= stop && entry > 0.0 then StopNotBelowEntry
    else NoAdvice
  }

  /** With a non-negative amount at risk, the quantity is the largest whole
      number of shares whose loss at the stop stays within that amount. */
  lemma QuantityWithinRisk(capital: real, riskPercent: real, entry: real, stop: real)
    requires entry > 0.0 && stop > 0.0 && entry > stop
    requires capital >= 0.0 && riskPercent >= 0.0
    ensures
      var a := Advise(capital, riskPercent, entry, stop);
      && 0 <= a.quantity
      && 0.0 <= a.quantity as real * a.riskPerShare <= a.amountToRisk
      && a.amountToRisk < (a.quantity as real + 1.0) * a.riskPerShare
  {
    var a := Advise(capital, riskPercent, entry, stop);
    BracketByQuotient(a.amountToRisk, a.riskPerShare, a.quantity as real, a.quantity as real + 1.0);
  }

  /** With a negative amount at risk (negative capital), truncation rounds
      toward zero: the quantity is not positive and its loss is at least the amount. */
  lemma QuantityForNegativeAmount(capital: real, riskPercent: real, entry: real, stop: real)
    requires entry > 0.0 && stop > 0.0 && entry > stop
    requires capital * (riskPercent / 100.0) < 0.0
    ensures
      var a := Advise(capital, riskPercent, entry, stop);
      && a.quantity <= 0
      && (a.quantity as real - 1.0) * a.riskPerShare < a.amountToRisk <= a.quantity as real * a.riskPerShare
  {
    var a := Advise(capital, riskPercent, entry, stop);
    BracketByQuotient(a.amountToRisk, a.riskPerShare, a.quantity as real - 1.0, a.quantity as real);
  }

  /** Bounds on a quotient carry over to the dividend. */
  lemma BracketByQuotient(amount: real, d: real, lo: real, hi: real)
    requires d > 0.0
    requires lo <= amount / d <= hi
    ensures lo * d <= amount <= hi * d
    ensures lo < amount / d ==> lo * d < amount
    ensures amount / d < hi ==> amount < hi * d
  {
    var x := amount / d;
    assert x * d == amount;
    ScaleBelow(lo, x, d);
    ScaleBelow(x, hi, d);
    if lo < x {
      ScaleStrictlyBelow(lo, x, d);
    }
    if x < hi {
      ScaleStrictlyBelow(x, hi, d);
    }
  }

  lemma ScaleBelow(u: real, v: real, d: real)
    requires u <= v && d > 0.0
    ensures u * d <= v * d
  {
    assert (v - u) * d >= 0.0;
  }

  lemma ScaleStrictlyBelow(u: real, v: real, d: real)
    requires u < v && d > 0.0
    ensures u * d < v * d
  {
    assert (v - u) * d > 0.0;
  }
}
