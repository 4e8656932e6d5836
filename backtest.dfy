/** The accounting of `BacktestEngine.run_macd_crossover`: a long/flat
    position column, the one-bar lag, and the four summary statistics, all as
    functions of the Close, MACD, MACD_Signal and EMA_200 columns. Rounding to
    two decimals is not modelled. */
module Backtest {
  import opened Wrappers
  import opened Frames

  datatype BacktestResult = BacktestResult(
    totalTrades: nat,
    winRate: real,
    maxDrawdown: Option<real>,  // None when every strategy return is NaN
    totalReturn: real)

  /** What the engine reports for a missing frame or one without `EMA_200`. */
  const NeutralResult := BacktestResult(0, 0.0, Some(0.0), 0.0)

  predicate Aligned(close: seq<real>, macd: Column, signal: Column, ema: Column) {
    |macd| == |close| && |signal| == |close| && |ema| == |close|
  }

  /** `pct_change` divides by the previous close; prices of zero are outside the model. */
  predicate NonZeroPrices(close: seq<real>) {
    forall i :: 0 <= i < |close| ==> close[i] != 0.0
  }

  /** The `Signal` column: 1 where MACD > MACD_Signal and Close > EMA_200, else 0. */
  function Positions(close: seq<real>, macd: Column, signal: Column, ema: Column): (pos: seq<real>)
    requires Aligned(close, macd, signal, ema)
    ensures |pos| == |close|
    ensures forall i :: 0 <= i < |pos| ==> pos[i] == 0.0 || pos[i] == 1.0
    ensures forall i :: 0 <= i < |pos| ==>
      (pos[i] == 1.0 <==>
         macd[i].Some? && signal[i].Some? && ema[i].Some? &&
         macd[i].value > signal[i].value && close[i] > ema[i].value)
  {
    seq(|close|, i requires 0 <= i < |close| =>
      if Gt(macd[i], signal[i]) && Gt(Some(close[i]), ema[i]) then 1.0 else 0.0)
  }

  /** The `Returns` column, `Close.pct_change()`. */
  function PctChange(close: seq<real>): (ret: Column)
    requires NonZeroPrices(close)
    ensures |ret| == |close|
    ensures |ret| > 0 ==> ret[0].None?
  {
    seq(|close|, i requires 0 <= i < |close| =>
      if i == 0 then None else Some(close[i] / close[i - 1] - 1.0))
  }

  /** The percent change recovers the price: row i is row i - 1 grown by it. */
  lemma PctChangeRecoversPrice(close: seq<real>, i: nat)
    requires NonZeroPrices(close) && 1 <= i < |close|
    ensures PctChange(close)[i].Some?
    ensures close[i - 1] * (1.0 + PctChange(close)[i].value) == close[i]
  {
  }

  /** The `Strategy_Returns` column, `Signal.shift(1) * Returns`. */
  function StrategyReturns(pos: seq<real>, ret: Column): (strat: Column)
    requires |ret| == |pos|
    ensures |strat| == |pos|
    ensures |strat| > 0 ==> strat[0].None?
  {
    var held := Shift(Lift(pos));
    seq(|pos|, i requires 0 <= i < |pos| => Mul(held[i], ret[i]))
  }

  /** The strategy returns of a frame. */
  function StrategyColumn(close: seq<real>, macd: Column, signal: Column, ema: Column): (strat: Column)
    requires Aligned(close, macd, signal, ema) && NonZeroPrices(close)
    ensures |strat| == |close|
  {
    StrategyReturns(Positions(close, macd, signal, ema), PctChange(close))
  }

  /** The lag: bar i earns the position held at bar i - 1 times bar i's
      return; row 0 has no previous position and is NaN. */
  lemma StrategyReturnAt(close: seq<real>, macd: Column, signal: Column, ema: Column, i: nat)
    requires Aligned(close, macd, signal, ema) && NonZeroPrices(close)
    requires i < |close|
    ensures StrategyColumn(close, macd, signal, ema)[i] ==
      if i == 0 then None
      else Some(Positions(close, macd, signal, ema)[i - 1] * (close[i] / close[i - 1] - 1.0))
  {
    var pos := Positions(close, macd, signal, ema);
    var ret := PctChange(close);
    var held := Shift(Lift(pos));
    assert StrategyColumn(close, macd, signal, ema) == StrategyReturns(pos, ret);
    if i > 0 {
      assert held[i] == Some(pos[i - 1]);
      assert ret[i] == Some(close[i] / close[i - 1] - 1.0);
    }
  }

  /** The number of rows kept by the filter `col != 0`; NaN rows are kept. */
  function CountNonZero(col: Column): (n: nat)
    ensures n <= |col|
  {
    if col == [] then 0 else (if NonZero(col[0]) then 1 else 0) + CountNonZero(col[1..])
  }

  /** `(col > 0).sum()`: NaN rows do not count. */
  function CountPositive(col: Column): (n: nat)
    ensures n <= CountNonZero(col)
  {
    if col == [] then 0 else (if Gt(col[0], Some(0.0)) then 1 else 0) + CountPositive(col[1..])
  }

  /** Reference count of position changes: the bars i >= 1 whose position
      differs from bar i - 1's. */
  function Changes(pos: seq<real>): nat {
    if |pos| < 2 then 0 else (if pos[1] != pos[0] then 1 else 0) + Changes(pos[1..])
  }

  /** `len(df[df['Signal'].diff() != 0])`. */
  function TotalTrades(pos: seq<real>): (t: nat)
    ensures t <= |pos|
    ensures |pos| > 0 ==> t >= 1
  {
    CountNonZero(Diff(pos))
  }

  lemma {:induction false} ChangesAfterRowZero(pos: seq<real>)
    requires |pos| >= 1
    ensures CountNonZero(Diff(pos)[1..]) == Changes(pos)
    decreases |pos|
  {
    if |pos| >= 2 {
      var d := Diff(pos)[1..];
      assert d[1..] == Diff(pos[1..])[1..];
      ChangesAfterRowZero(pos[1..]);
    }
  }

  /** Row 0 always counts as a trade (its diff is NaN, and NaN != 0), so the
      count is one more than the number of position changes. */
  lemma {:induction false} TradeCountRule(pos: seq<real>)
    ensures TotalTrades(pos) == if |pos| == 0 then 0 else 1 + Changes(pos)
  {
    if |pos| > 0 {
      ChangesAfterRowZero(pos);
      assert Diff(pos) == [None] + Diff(pos)[1..];
    }
  }

  /** A position that never changes gives exactly one trade. */
  lemma {:induction false} ConstantPositionsOneTrade(pos: seq<real>)
    requires |pos| > 0
    requires forall i :: 0 <= i < |pos| ==> pos[i] == pos[0]
    ensures TotalTrades(pos) == 1
  {
    TradeCountRule(pos);
    NoChanges(pos);
  }

  lemma {:induction false} NoChanges(pos: seq<real>)
    requires |pos| > 0
    requires forall i :: 0 <= i < |pos| ==> pos[i] == pos[0]
    ensures Changes(pos) == 0
    decreases |pos|
  {
    if |pos| >= 2 {
      NoChanges(pos[1..]);
    }
  }

  /** A part of a positive whole is at most one whole, and less when it is smaller. */
  lemma FractionOfWhole(k: real, n: real)
    requires 0.0 <= k <= n && n > 0.0
    ensures k / n <= 1.0
    ensures k < n ==> k / n < 1.0
  {
    assert k / n * n == k;
  }

  /** `win_rate`: positive returns among the `!= 0` rows, as a percentage,
      and 0 when no row is kept. */
  function WinRate(strat: Column): (rate: real)
    ensures 0.0 <= rate <= 100.0
    ensures CountNonZero(strat) == 0 ==> rate == 0.0
    ensures CountPositive(strat) == 0 ==> rate == 0.0
    ensures CountPositive(strat) < CountNonZero(strat) ==> rate < 100.0
  {
    var n := CountNonZero(strat);
    if n > 0 then
      var k := CountPositive(strat);
      assert k as real / n as real <= 1.0 && (k < n ==> k as real / n as real < 1.0) by {
        FractionOfWhole(k as real, n as real);
      }
      k as real / n as real * 100.0
    else 0.0
  }

  /** `col.min()`: the smallest non-NaN value, NaN if there is none. */
  function MinDefined(col: Column): (m: Option<real>)
    ensures m.None? <==> forall i :: 0 <= i < |col| ==> col[i].None?
    ensures m.Some? ==> exists i :: 0 <= i < |col| && col[i] == m
    ensures m.Some? ==> forall i :: 0 <= i < |col| && col[i].Some? ==> m.value <= col[i].value
  {
    if col == [] then None
    else
      var rest := MinDefined(col[1..]);
      assert forall i :: 1 <= i < |col| ==> col[i] == col[1..][i - 1];
      if col[0].None? then rest
      else if rest.None? || col[0].value <= rest.value then col[0]
      else rest
  }

  /** Reference compounding: the product of 1 + r over the defined returns. */
  function Growth(col: Column): real {
    if col == [] then 1.0
    else (if col[0].Some? then 1.0 + col[0].value else 1.0) * Growth(col[1..])
  }

  /** `exp(log1p(col).sum())` on exact reals: `sum` skips NaN, including the
      NaN that log1p gives below -1; log1p(-1) = -inf, whose exp is 0. */
  function GrowthViaLog1p(col: Column): (g: real)
    ensures g >= 0.0
  {
    if col == [] then 1.0
    else (if col[0].Some? && col[0].value >= -1.0 then 1.0 + col[0].value else 1.0) * GrowthViaLog1p(col[1..])
  }

  /** The log-sum form and the direct product agree when no return is below -1.
      This is about the model's factor rule, with `exp` and `log1p` taken as
      exact inverses; it says nothing about their floating-point versions. */
  lemma {:induction false} Log1pFormIsProduct(col: Column)
    requires forall i :: 0 <= i < |col| && col[i].Some? ==> col[i].value >= -1.0
    ensures GrowthViaLog1p(col) == Growth(col)
    decreases |col|
  {
    if col != [] {
      assert forall i :: 1 <= i < |col| ==> col[i] == col[1..][i - 1];
      Log1pFormIsProduct(col[1..]);
    }
  }

  /** The whole computation of `run_macd_crossover` on a frame with `EMA_200`. */
  function Run(close: seq<real>, macd: Column, signal: Column, ema: Column): (r: BacktestResult)
    requires Aligned(close, macd, signal, ema) && NonZeroPrices(close)
    ensures r.totalTrades <= |close|
  {
    var strat := StrategyColumn(close, macd, signal, ema);
    BacktestResult(
      TotalTrades(Positions(close, macd, signal, ema)),
      WinRate(strat),
      Mul(MinDefined(strat), Some(100.0)),
      (GrowthViaLog1p(strat) - 1.0) * 100.0)
  }

  /** What every backtest reports: one trade more than the position changes
      (none for an empty frame), a win rate in [0, 100) on a non-empty frame,
      and a NaN drawdown exactly when no bar has a defined return. */
  lemma RunSummary(close: seq<real>, macd: Column, signal: Column, ema: Column)
    requires Aligned(close, macd, signal, ema) && NonZeroPrices(close)
    ensures Run(close, macd, signal, ema).totalTrades ==
      if |close| == 0 then 0 else 1 + Changes(Positions(close, macd, signal, ema))
    ensures 0.0 <= Run(close, macd, signal, ema).winRate <= 100.0
    ensures |close| > 0 ==> Run(close, macd, signal, ema).winRate < 100.0
    ensures Run(close, macd, signal, ema).maxDrawdown.None? <==> |close| <= 1
  {
    var strat := StrategyColumn(close, macd, signal, ema);
    TradeCountRule(Positions(close, macd, signal, ema));
    if |close| > 0 {
      StrategyReturnAt(close, macd, signal, ema, 0);
      RowZeroNeverWins(strat);
    }
    if |close| > 1 {
      StrategyReturnAt(close, macd, signal, ema, 1);
    }
  }

  /** The NaN of row 0 is kept by `!= 0` but is never positive, so it keeps
      the win rate below 100. */
  lemma RowZeroNeverWins(strat: Column)
    requires |strat| > 0 && strat[0].None?
    ensures CountPositive(strat) < CountNonZero(strat)
  {
    assert CountPositive(strat[1..]) <= CountNonZero(strat[1..]);
  }

  predicate AllZero(col: Column) {
    forall i :: 0 <= i < |col| ==> col[i] == Some(0.0)
  }

  lemma {:induction false} ZeroReturnsCount(col: Column)
    requires AllZero(col)
    ensures CountNonZero(col) == 0 && CountPositive(col) == 0 && GrowthViaLog1p(col) == 1.0
    decreases |col|
  {
    if col != [] {
      ZeroReturnsCount(col[1..]);
    }
  }

  /** A frame whose strategy returns are all zero after row 0 reports one
      trade per position change plus one, a 0 win rate, a 0 total return and,
      with two or more bars, a 0 drawdown (one bar leaves only the NaN of row 0,
      so the drawdown is NaN). */
  lemma FlatStrategyResult(close: seq<real>, macd: Column, signal: Column, ema: Column)
    requires Aligned(close, macd, signal, ema) && NonZeroPrices(close)
    requires |close| > 0
    requires AllZero(StrategyColumn(close, macd, signal, ema)[1..])
    ensures Run(close, macd, signal, ema).winRate == 0.0
    ensures Run(close, macd, signal, ema).totalReturn == 0.0
    ensures |close| >= 2 ==> Run(close, macd, signal, ema).maxDrawdown == Some(0.0)
    ensures Run(close, macd, signal, ema).totalTrades == 1 + Changes(Positions(close, macd, signal, ema))
  {
    var strat := StrategyColumn(close, macd, signal, ema);
    TradeCountRule(Positions(close, macd, signal, ema));
    StrategyReturnAt(close, macd, signal, ema, 0);
    ZeroReturnsCount(strat[1..]);
    assert strat == [None] + strat[1..];
    if |close| >= 2 {
      var m := MinDefined(strat);
      assert strat[1] == Some(0.0);
      assert m.Some?;
      assert forall i :: 0 <= i < |strat| && strat[i].Some? ==> strat[i] == Some(0.0) by {
        forall i | 0 <= i < |strat| && strat[i].Some? ensures strat[i] == Some(0.0) {
          assert i != 0;
          assert strat[1..][i - 1] == strat[i];
        }
      }
    }
  }

  /** The total return never reports a loss of more than everything. */
  lemma RunReturnAtLeastTotalLoss(close: seq<real>, macd: Column, signal: Column, ema: Column)
    requires Aligned(close, macd, signal, ema) && NonZeroPrices(close)
    ensures Run(close, macd, signal, ema).totalReturn >= -100.0
  {
  }

  /** A strategy that is never long: one trade (row 0), 0 win rate, 0 total
      return, and 0 drawdown once there are two bars. */
  lemma NeverEnteredResult(close: seq<real>, macd: Column, signal: Column, ema: Column)
    requires Aligned(close, macd, signal, ema) && NonZeroPrices(close)
    requires |close| > 0
    requires forall i :: 0 <= i < |close| ==> Positions(close, macd, signal, ema)[i] == 0.0
    ensures Run(close, macd, signal, ema).totalTrades == 1
    ensures Run(close, macd, signal, ema).winRate == 0.0
    ensures Run(close, macd, signal, ema).totalReturn == 0.0
    ensures |close| >= 2 ==> Run(close, macd, signal, ema).maxDrawdown == Some(0.0)
  {
    var pos := Positions(close, macd, signal, ema);
    var strat := StrategyColumn(close, macd, signal, ema);
    forall i | 0 <= i < |strat| - 1 ensures strat[1..][i] == Some(0.0) {
      StrategyReturnAt(close, macd, signal, ema, i + 1);
      assert pos[i] == 0.0;
      assert strat[i + 1] == Some(0.0);
    }
    FlatStrategyResult(close, macd, signal, ema);
    ConstantPositionsOneTrade(pos);
    assert Run(close, macd, signal, ema).totalTrades == TotalTrades(pos);
  }

  /** A constant price earns nothing whatever the positions: 0 win rate and 0
      total return (the trade count is still 1 + the position changes). */
  lemma ConstantPriceResult(close: seq<real>, macd: Column, signal: Column, ema: Column)
    requires Aligned(close, macd, signal, ema) && NonZeroPrices(close)
    requires |close| > 0
    requires forall i :: 0 <= i < |close| ==> close[i] == close[0]
    ensures Run(close, macd, signal, ema).winRate == 0.0
    ensures Run(close, macd, signal, ema).totalReturn == 0.0
    ensures Run(close, macd, signal, ema).totalTrades >= 1
  {
    var pos := Positions(close, macd, signal, ema);
    var strat := StrategyColumn(close, macd, signal, ema);
    forall i | 0 <= i < |strat| - 1 ensures strat[1..][i] == Some(0.0) {
      StrategyReturnAt(close, macd, signal, ema, i + 1);
      UnchangedPriceZeroReturn(close[i], close[i + 1]);
      assert strat[i + 1] == Some(pos[i] * 0.0);
    }
    FlatStrategyResult(close, macd, signal, ema);
    RunSummary(close, macd, signal, ema);
  }

  lemma UnchangedPriceZeroReturn(prev: real, cur: real)
    requires prev != 0.0 && cur == prev
    ensures cur / prev - 1.0 == 0.0
  {
  }

  /** `max_drawdown` is at most 0 as soon as some bar i >= 1 was entered flat
      (its return is then exactly 0). */
  lemma DrawdownNonPositiveWhenFlat(close: seq<real>, macd: Column, signal: Column, ema: Column, i: nat)
    requires Aligned(close, macd, signal, ema) && NonZeroPrices(close)
    requires 1 <= i < |close|
    requires Positions(close, macd, signal, ema)[i - 1] == 0.0
    ensures Run(close, macd, signal, ema).maxDrawdown.Some?
    ensures Run(close, macd, signal, ema).maxDrawdown.value <= 0.0
  {
    var strat := StrategyColumn(close, macd, signal, ema);
    StrategyReturnAt(close, macd, signal, ema, i);
    assert strat[i] == Some(0.0);
    var m := MinDefined(strat);
    assert m.Some? && m.value <= 0.0;
    assert Run(close, macd, signal, ema).maxDrawdown == Mul(m, Some(100.0));
  }

  /** With positive prices every return exceeds -1, so the source's
      exp/log1p form is exactly the compounded product. */
  lemma PositivePricesCompound(close: seq<real>, macd: Column, signal: Column, ema: Column)
    requires Aligned(close, macd, signal, ema)
    requires forall i :: 0 <= i < |close| ==> close[i] > 0.0
    ensures Run(close, macd, signal, ema).totalReturn ==
      (Growth(StrategyColumn(close, macd, signal, ema)) - 1.0) * 100.0
  {
    var strat := StrategyColumn(close, macd, signal, ema);
    forall i | 0 <= i < |strat| && strat[i].Some? ensures strat[i].value >= -1.0 {
      StrategyReturnAt(close, macd, signal, ema, i);
      assert close[i] / close[i - 1] > 0.0;
    }
    Log1pFormIsProduct(strat);
  }
}
