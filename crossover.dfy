/** The buy and sell markers of `plot_advanced_chart`: MACD crossing its
    signal line, with NaN comparisons false and `shift(1)` NaN at row 0. */
module Crossover {
  import opened Wrappers
  import opened Frames

  /** `(MACD > signal) & (MACD.shift(1) <= signal.shift(1))`. */
  function BuyMask(macd: Column, signal: Column): (buy: seq<bool>)
    requires |signal| == |macd|
    ensures |buy| == |macd|
    ensures forall i :: 0 <= i < |buy| ==>
      (buy[i] <==>
         1 <= i && macd[i].Some? && signal[i].Some? && macd[i - 1].Some? && signal[i - 1].Some? &&
         macd[i].value > signal[i].value && macd[i - 1].value <= signal[i - 1].value)
  {
    var prevMacd, prevSignal := Shift(macd), Shift(signal);
    seq(|macd|, i requires 0 <= i < |macd| => Gt(macd[i], signal[i]) && Le(prevMacd[i], prevSignal[i]))
  }

  /** `(MACD < signal) & (MACD.shift(1) >= signal.shift(1))`. */
  function SellMask(macd: Column, signal: Column): (sell: seq<bool>)
    requires |signal| == |macd|
    ensures |sell| == |macd|
    ensures forall i :: 0 <= i < |sell| ==>
      (sell[i] <==>
         1 <= i && macd[i].Some? && signal[i].Some? && macd[i - 1].Some? && signal[i - 1].Some? &&
         macd[i].value < signal[i].value && macd[i - 1].value >= signal[i - 1].value)
  {
    var prevMacd, prevSignal := Shift(macd), Shift(signal);
    seq(|macd|, i requires 0 <= i < |macd| => Lt(macd[i], signal[i]) && Ge(prevMacd[i], prevSignal[i]))
  }

  /** No bar carries both markers. */
  lemma NeverBothMarkers(macd: Column, signal: Column, i: nat)
    requires |signal| == |macd| && i < |macd|
    ensures !(BuyMask(macd, signal)[i] && SellMask(macd, signal)[i])
  {
  }

  /** Two buys never fall on consecutive bars. */
  lemma NoConsecutiveBuys(macd: Column, signal: Column, i: nat)
    requires |signal| == |macd| && i + 1 < |macd|
    ensures !(BuyMask(macd, signal)[i] && BuyMask(macd, signal)[i + 1])
  {
  }

  /** Between two buys MACD was at or below the signal on some bar. */
  lemma BuysSeparatedByDip(macd: Column, signal: Column, i: nat, j: nat)
    requires |signal| == |macd| && i < j < |macd|
    requires BuyMask(macd, signal)[i] && BuyMask(macd, signal)[j]
    ensures exists k :: i < k < j && Le(macd[k], signal[k])
  {
    assert Le(macd[j - 1], signal[j - 1]);
  }

  /** The tie rule at work: MACD - signal going -1, +1, 0, +1 gives a buy at
      bars 1 and 3 and no sell at all, since a tie counts as "below" for the
      previous bar but not as "below" for the current one. */
  lemma TieAllowsRepeatedBuy()
    ensures
      var macd := [Some(-1.0), Some(1.0), Some(0.0), Some(1.0)];
      var signal := [Some(0.0), Some(0.0), Some(0.0), Some(0.0)];
      && BuyMask(macd, signal)[1] && BuyMask(macd, signal)[3]
      && forall k :: 0 <= k < 4 ==> !SellMask(macd, signal)[k]
  {
  }

  /** MACD and signal are defined and never equal on bars lo..hi. */
  predicate NoTiesOn(macd: Column, signal: Column, lo: nat, hi: nat)
    requires |signal| == |macd| && hi < |macd|
  {
    forall k :: lo <= k <= hi ==> macd[k].Some? && signal[k].Some? && macd[k].value != signal[k].value
  }

  /** Starting above the signal and ending below it, MACD produces a sell
      marker on the way down. */
  lemma {:induction false} FallProducesSell(macd: Column, signal: Column, a: nat, b: nat)
    requires |signal| == |macd| && a < b < |macd|
    requires NoTiesOn(macd, signal, a, b)
    requires Gt(macd[a], signal[a]) && Lt(macd[b], signal[b])
    ensures exists k :: a < k <= b && SellMask(macd, signal)[k]
    decreases b - a
  {
    if Lt(macd[a + 1], signal[a + 1]) {
      assert SellMask(macd, signal)[a + 1];
    } else {
      assert Gt(macd[a + 1], signal[a + 1]);
      FallProducesSell(macd, signal, a + 1, b);
    }
  }

  /** Without ties the markers alternate: between two buys there is a sell. */
  lemma StrictCrossingsAlternate(macd: Column, signal: Column, i: nat, j: nat)
    requires |signal| == |macd| && i < j < |macd|
    requires NoTiesOn(macd, signal, i, j)
    requires BuyMask(macd, signal)[i] && BuyMask(macd, signal)[j]
    ensures exists k :: i < k < j && SellMask(macd, signal)[k]
  {
    assert Lt(macd[j - 1], signal[j - 1]);
    FallProducesSell(macd, signal, i, j - 1);
  }
}
