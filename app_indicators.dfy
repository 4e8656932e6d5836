/** The `TechnicalIndicators` class of app.py: RSI from rolling means of
    gains and losses, MACD from `ewm(adjust=False)` averages, Bollinger bands
    and the volume moving average, each written into the frame it is given.
    The rolling standard deviation is an input. */
module AppIndicators {
  import opened Wrappers
  import opened Frames

  const RsiWindow := 14
  const FastSpan := 12
  const SlowSpan := 26
  const SignalSpan := 9
  const BollingerWindow := 20
  const NumStd := 2.0
  const VolumeWindow := 20

  /** The smoothing factor of `ewm(span=...)`. */
  function Alpha(span: nat): (a: real)
    requires span >= 1
    ensures 0.0 < a <= 1.0
  {
    2.0 / (span as real + 1.0)
  }

  /** `ewm(alpha, adjust=False).mean()` at row i: seeded with the first value,
      then e[i] = alpha * x[i] + (1 - alpha) * e[i - 1]. */
  function EmaAt(x: seq<real>, alpha: real, i: nat): (e: real)
    requires i < |x|
    ensures alpha == 1.0 ==> e == x[i]
    ensures alpha == 0.0 ==> e == x[0]
  {
    if i == 0 then x[0] else alpha * x[i] + (1.0 - alpha) * EmaAt(x, alpha, i - 1)
  }

  /** `x.ewm(span=span, adjust=False).mean()`, row by row. */
  method EwmMean(x: seq<real>, span: nat) returns (e: seq<real>)
    requires span >= 1
    ensures |e| == |x|
    ensures forall i :: 0 <= i < |x| ==> e[i] == EmaAt(x, Alpha(span), i)
  {
    var alpha := Alpha(span);
    e := [];
    var i := 0;
    while i < |x|
      invariant 0 <= i <= |x|
      invariant |e| == i
      invariant forall k :: 0 <= k < i ==> e[k] == EmaAt(x, alpha, k)
    {
      var v := if i == 0 then x[0] else alpha * x[i] + (1.0 - alpha) * e[i - 1];
      e := e + [v];
      i := i + 1;
    }
  }

  /** The EMA of a constant series is that constant. */
  lemma {:induction false} EmaOfConstant(x: seq<real>, alpha: real, c: real, i: nat)
    requires i < |x|
    requires forall k :: 0 <= k < |x| ==> x[k] == c
    ensures EmaAt(x, alpha, i) == c
  {
    if i > 0 {
      EmaOfConstant(x, alpha, c, i - 1);
    }
  }

  /** The EMA stays within the range of the values seen so far. */
  lemma {:induction false} EmaWithinRange(x: seq<real>, alpha: real, lo: real, hi: real, i: nat)
    requires 0.0 < alpha <= 1.0
    requires i < |x|
    requires forall k :: 0 <= k <= i ==> lo <= x[k] <= hi
    ensures lo <= EmaAt(x, alpha, i) <= hi
  {
    if i > 0 {
      EmaWithinRange(x, alpha, lo, hi, i - 1);
      var prev := EmaAt(x, alpha, i - 1);
      ConvexCombination(alpha, x[i], prev, lo, hi);
    }
  }

  /** A weighted average of two values in [lo, hi] stays in [lo, hi]. */
  lemma ConvexCombination(a: real, u: real, v: real, lo: real, hi: real)
    requires 0.0 <= a <= 1.0 && lo <= u <= hi && lo <= v <= hi
    ensures lo <= a * u + (1.0 - a) * v <= hi
  {
    ConvexLow(a, u, v, lo);
    ConvexHigh(a, u, v, hi);
  }

  lemma ConvexLow(a: real, u: real, v: real, lo: real)
    requires 0.0 <= a <= 1.0 && lo <= u && lo <= v
    ensures lo <= a * u + (1.0 - a) * v
  {
    assert a * (u - lo) >= 0.0;
    assert (1.0 - a) * (v - lo) >= 0.0;
    assert a * u + (1.0 - a) * v - lo == a * (u - lo) + (1.0 - a) * (v - lo);
  }

  lemma ConvexHigh(a: real, u: real, v: real, hi: real)
    requires 0.0 <= a <= 1.0 && u <= hi && v <= hi
    ensures a * u + (1.0 - a) * v <= hi
  {
    assert a * (hi - u) >= 0.0;
    assert (1.0 - a) * (hi - v) >= 0.0;
    assert hi - (a * u + (1.0 - a) * v) == a * (hi - u) + (1.0 - a) * (hi - v);
  }

  /** The `MACD` column: EMA(12) - EMA(26) of the close. */
  function MacdLine(close: seq<real>): (m: seq<real>)
    ensures |m| == |close|
  {
    seq(|close|, i requires 0 <= i < |close| =>
      EmaAt(close, Alpha(FastSpan), i) - EmaAt(close, Alpha(SlowSpan), i))
  }

  /** The `Signal_Line` column: EMA(9) of the MACD line. */
  function SignalLine(close: seq<real>): (s: seq<real>)
    ensures |s| == |close|
  {
    var m := MacdLine(close);
    seq(|close|, i requires 0 <= i < |close| => EmaAt(m, Alpha(SignalSpan), i))
  }

  /** A constant close gives a MACD line and a signal line that are both 0 on every row. */
  lemma ConstantCloseFlatMacd(close: seq<real>, c: real)
    requires forall k :: 0 <= k < |close| ==> close[k] == c
    ensures forall i :: 0 <= i < |close| ==> MacdLine(close)[i] == 0.0
    ensures forall i :: 0 <= i < |close| ==> SignalLine(close)[i] == 0.0
  {
    var m := MacdLine(close);
    forall i | 0 <= i < |close| ensures m[i] == 0.0 {
      EmaOfConstant(close, Alpha(FastSpan), c, i);
      EmaOfConstant(close, Alpha(SlowSpan), c, i);
    }
    forall i | 0 <= i < |close| ensures SignalLine(close)[i] == 0.0 {
      EmaOfConstant(m, Alpha(SignalSpan), 0.0, i);
    }
  }

  function Sum(s: seq<real>): real {
    if s == [] then 0.0 else Sum(s[..|s| - 1]) + s[|s| - 1]
  }

  lemma {:induction false} SumFront(s: seq<real>)
    requires |s| > 0
    ensures Sum(s) == s[0] + Sum(s[1..])
    decreases |s|
  {
    if |s| > 1 {
      SumFront(s[..|s| - 1]);
      assert s[..|s| - 1][1..] == s[1..][..|s| - 2];
    }
  }

  lemma {:induction false} SumNonNegative(s: seq<real>)
    requires forall k :: 0 <= k < |s| ==> s[k] >= 0.0
    ensures Sum(s) >= 0.0
    decreases |s|
  {
    if s != [] {
      SumNonNegative(s[..|s| - 1]);
    }
  }

  lemma {:induction false} SumOfConstant(s: seq<real>, c: real)
    requires forall k :: 0 <= k < |s| ==> s[k] == c
    ensures Sum(s) == |s| as real * c
    decreases |s|
  {
    if s != [] {
      SumOfConstant(s[..|s| - 1], c);
    }
  }

  /** `x.rolling(window=w).mean()` at row i: NaN for the first w - 1 rows,
      then the mean of the last w values. */
  function RollingMeanAt(x: seq<real>, w: nat, i: nat): (r: Option<real>)
    requires w >= 1 && i < |x|
    ensures r.Some? <==> i + 1 >= w
  {
    if i + 1 < w then None else Some(Sum(x[i + 1 - w..i + 1]) / w as real)
  }

  /** Over non-negative values the rolling mean is non-negative. */
  lemma RollingMeanNonNegative(x: seq<real>, w: nat, i: nat)
    requires w >= 1 && i < |x|
    requires forall k :: 0 <= k < |x| ==> x[k] >= 0.0
    ensures RollingMeanAt(x, w, i).Some? ==> RollingMeanAt(x, w, i).value >= 0.0
  {
    if i + 1 >= w {
      SumNonNegative(x[i + 1 - w..i + 1]);
    }
  }

  /** Where the window is full, the rolling mean of a constant series is that constant. */
  lemma RollingMeanOfConstant(x: seq<real>, w: nat, c: real, i: nat)
    requires w >= 1 && i < |x| && i + 1 >= w
    requires forall k :: 0 <= k < |x| ==> x[k] == c
    ensures RollingMeanAt(x, w, i) == Some(c)
  {
    SumOfConstant(x[i + 1 - w..i + 1], c);
    assert Sum(x[i + 1 - w..i + 1]) == w as real * c;
    assert (w as real * c) / w as real == c;
  }

  function WindowStart(i: nat, w: nat): nat {
    if i <= w then 0 else i - w
  }

  /** `x.rolling(window=w).mean()` with a running window sum. */
  method RollingMean(x: seq<real>, w: nat) returns (r: Column)
    requires w >= 1
    ensures |r| == |x|
    ensures forall i :: 0 <= i < |x| ==> r[i] == RollingMeanAt(x, w, i)
  {
    r := [];
    var acc := 0.0;
    var i := 0;
    assert x[WindowStart(i, w)..i] == [];
    while i < |x|
      invariant 0 <= i <= |x|
      invariant |r| == i
      invariant forall k :: 0 <= k < i ==> r[k] == RollingMeanAt(x, w, k)
      invariant acc == Sum(x[WindowStart(i, w)..i])
    {
      var dropped := if i >= w then x[i - w] else 0.0;
      acc := acc + x[i] - dropped;
      assert acc == Sum(x[WindowStart(i + 1, w)..i + 1]) by {
        WindowSumStep(x, w, i);
      }
      var mean := if i + 1 < w then None else Some(acc / w as real);
      assert forall k :: 0 <= k < i + 1 ==> (r + [mean])[k] == RollingMeanAt(x, w, k) by {
        MeanOfWindowSum(x, w, i, acc);
        ExtendMeans(r, x, w, i, mean);
      }
      r := r + [mean];
      i := i + 1;
    }
  }

  lemma ExtendMeans(r: Column, x: seq<real>, w: nat, i: nat, mean: Option<real>)
    requires w >= 1 && |r| == i < |x|
    requires forall k :: 0 <= k < i ==> r[k] == RollingMeanAt(x, w, k)
    requires mean == RollingMeanAt(x, w, i)
    ensures forall k :: 0 <= k < i + 1 ==> (r + [mean])[k] == RollingMeanAt(x, w, k)
  {
  }

  lemma MeanOfWindowSum(x: seq<real>, w: nat, i: nat, acc: real)
    requires w >= 1 && i < |x|
    requires acc == Sum(x[WindowStart(i + 1, w)..i + 1])
    ensures (if i + 1 < w then None else Some(acc / w as real)) == RollingMeanAt(x, w, i)
  {
    if i + 1 >= w {
      assert WindowStart(i + 1, w) == i + 1 - w;
    }
  }

  /** Sliding the window one row: add the new value, drop the oldest once full. */
  lemma WindowSumStep(x: seq<real>, w: nat, i: nat)
    requires w >= 1 && i < |x|
    ensures Sum(x[WindowStart(i + 1, w)..i + 1]) ==
      Sum(x[WindowStart(i, w)..i]) + x[i] - (if i >= w then x[i - w] else 0.0)
  {
    var a := WindowStart(i, w);
    var s := x[a..i + 1];
    assert s[..|s| - 1] == x[a..i];
    if i >= w {
      SumFront(s);
      assert s[1..] == x[i + 1 - w..i + 1];
    }
  }

  /** `delta.where(delta > 0, 0)`: the rises, 0 elsewhere (NaN included). */
  function Gains(d: Column): (g: seq<real>)
    ensures |g| == |d|
    ensures forall i :: 0 <= i < |g| ==> g[i] >= 0.0
  {
    seq(|d|, i requires 0 <= i < |d| => if Gt(d[i], Some(0.0)) then d[i].value else 0.0)
  }

  /** `-delta.where(delta < 0, 0)`: the falls as positive numbers, 0 elsewhere. */
  function Losses(d: Column): (l: seq<real>)
    ensures |l| == |d|
    ensures forall i :: 0 <= i < |l| ==> l[i] >= 0.0
  {
    seq(|d|, i requires 0 <= i < |d| => -(if Lt(d[i], Some(0.0)) then d[i].value else 0.0))
  }

  /** `100 - 100 / (1 + gain / loss)` in floating point: gain / 0 is +inf,
      which gives 100; 0 / 0 is NaN. */
  function RsiValue(gain: Option<real>, loss: Option<real>): (r: Option<real>)
    requires gain.Some? ==> gain.value >= 0.0
    requires loss.Some? ==> loss.value >= 0.0
    ensures r.Some? <==> gain.Some? && loss.Some? && (loss.value > 0.0 || gain.value > 0.0)
    ensures r.Some? ==> 0.0 <= r.value <= 100.0
  {
    if gain.None? || loss.None? then None
    else if loss.value > 0.0 then
      var rs := gain.value / loss.value;
      assert 0.0 < 100.0 / (1.0 + rs) <= 100.0;
      Some(100.0 - 100.0 / (1.0 + rs))
    else if gain.value > 0.0 then Some(100.0)
    else None
  }

  /** The average gain and loss over the 14 bars ending at row i. */
  function AverageGain(close: seq<real>, i: nat): (g: Option<real>)
    requires i < |close|
    ensures g.Some? ==> g.value >= 0.0
  {
    RollingMeanNonNegative(Gains(Diff(close)), RsiWindow, i);
    RollingMeanAt(Gains(Diff(close)), RsiWindow, i)
  }

  function AverageLoss(close: seq<real>, i: nat): (l: Option<real>)
    requires i < |close|
    ensures l.Some? ==> l.value >= 0.0
  {
    RollingMeanNonNegative(Losses(Diff(close)), RsiWindow, i);
    RollingMeanAt(Losses(Diff(close)), RsiWindow, i)
  }

  /** The `RSI_14` column. */
  function Rsi(close: seq<real>): (rsi: Column)
    ensures |rsi| == |close|
  {
    seq(|close|, i requires 0 <= i < |close| => RsiValue(AverageGain(close, i), AverageLoss(close, i)))
  }

  /** RSI is NaN for the first 13 rows (row 0's NaN delta is zero-filled, so
      the window is full from row 13); from there it is 100 when only gains
      occurred, NaN when the price did not move, and in [0, 100) otherwise. */
  lemma RsiCases(close: seq<real>, i: nat)
    requires i < |close|
    ensures i < RsiWindow - 1 ==> Rsi(close)[i].None?
    ensures i >= RsiWindow - 1 ==> AverageGain(close, i).Some? && AverageLoss(close, i).Some?
    ensures i >= RsiWindow - 1 && AverageLoss(close, i).value > 0.0 ==>
      Rsi(close)[i].Some? && 0.0 <= Rsi(close)[i].value < 100.0
    ensures i >= RsiWindow - 1 && AverageLoss(close, i).value == 0.0 && AverageGain(close, i).value > 0.0 ==>
      Rsi(close)[i] == Some(100.0)
    ensures i >= RsiWindow - 1 && AverageLoss(close, i).value == 0.0 && AverageGain(close, i).value == 0.0 ==>
      Rsi(close)[i].None?
  {
    if i >= RsiWindow - 1 {
      var g, l := AverageGain(close, i).value, AverageLoss(close, i).value;
      if l > 0.0 {
        var rs := g / l;
        assert rs >= 0.0;
        assert 100.0 / (1.0 + rs) <= 100.0;
        assert 100.0 / (1.0 + rs) > 0.0;
      }
    }
  }

  /** No look-ahead: the EMA at row i reads no row past i, so cutting the
      series after row i leaves it unchanged. */
  lemma {:induction false} EmaPrefix(x: seq<real>, alpha: real, k: nat, i: nat)
    requires i < k <= |x|
    ensures EmaAt(x[..k], alpha, i) == EmaAt(x, alpha, i)
    decreases i
  {
    if i > 0 {
      EmaPrefix(x, alpha, k, i - 1);
    }
  }

  /** The MACD line of the first k closes is the first k rows of the MACD line. */
  lemma MacdPrefix(close: seq<real>, k: nat)
    requires k <= |close|
    ensures MacdLine(close[..k]) == MacdLine(close)[..k]
  {
    forall i | 0 <= i < k
      ensures MacdLine(close[..k])[i] == MacdLine(close)[i]
    {
      EmaPrefix(close, Alpha(FastSpan), k, i);
      EmaPrefix(close, Alpha(SlowSpan), k, i);
    }
  }

  /** The signal line of the first k closes is the first k rows of the signal line. */
  lemma SignalPrefix(close: seq<real>, k: nat)
    requires k <= |close|
    ensures SignalLine(close[..k]) == SignalLine(close)[..k]
  {
    MacdPrefix(close, k);
    forall i | 0 <= i < k
      ensures SignalLine(close[..k])[i] == SignalLine(close)[i]
    {
      EmaPrefix(MacdLine(close), Alpha(SignalSpan), k, i);
    }
  }

  /** The rolling mean at row i reads only rows up to i. */
  lemma RollingMeanPrefix(x: seq<real>, w: nat, k: nat, i: nat)
    requires w >= 1 && i < k <= |x|
    ensures RollingMeanAt(x[..k], w, i) == RollingMeanAt(x, w, i)
  {
    if i + 1 >= w {
      assert x[..k][i + 1 - w..i + 1] == x[i + 1 - w..i + 1];
    }
  }

  /** The RSI of the first k closes is the first k rows of the RSI. */
  lemma RsiPrefix(close: seq<real>, k: nat)
    requires k <= |close|
    ensures Rsi(close[..k]) == Rsi(close)[..k]
  {
    var d, dk := Diff(close), Diff(close[..k]);
    assert dk == d[..k];
    assert Gains(dk) == Gains(d)[..k];
    assert Losses(dk) == Losses(d)[..k];
    forall i | 0 <= i < k
      ensures Rsi(close[..k])[i] == Rsi(close)[i]
    {
      RollingMeanPrefix(Gains(d), RsiWindow, k, i);
      RollingMeanPrefix(Losses(d), RsiWindow, k, i);
    }
  }

  /** The `BB_Upper` column: mean + 2 standard deviations. */
  function UpperBand(mean: Column, std: Column): (u: Column)
    requires |std| == |mean|
    ensures |u| == |mean|
  {
    seq(|mean|, i requires 0 <= i < |mean| => Add(mean[i], Mul(std[i], Some(NumStd))))
  }

  /** The `BB_Lower` column: mean - 2 standard deviations. */
  function LowerBand(mean: Column, std: Column): (l: Column)
    requires |std| == |mean|
    ensures |l| == |mean|
  {
    seq(|mean|, i requires 0 <= i < |mean| => Sub(mean[i], Mul(std[i], Some(NumStd))))
  }

  /** The bands are defined exactly where the mean and the deviation are,
      sit symmetrically around the mean, and enclose it. */
  lemma BandsSymmetric(mean: Column, std: Column, i: nat)
    requires |std| == |mean| && i < |mean|
    requires std[i].Some? ==> std[i].value >= 0.0
    ensures UpperBand(mean, std)[i].Some? <==> mean[i].Some? && std[i].Some?
    ensures LowerBand(mean, std)[i].Some? <==> mean[i].Some? && std[i].Some?
    ensures UpperBand(mean, std)[i].Some? ==>
      UpperBand(mean, std)[i].value - mean[i].value == mean[i].value - LowerBand(mean, std)[i].value
    ensures UpperBand(mean, std)[i].Some? ==>
      LowerBand(mean, std)[i].value <= mean[i].value <= UpperBand(mean, std)[i].value
  {
  }

  function RollingMeanColumn(x: seq<real>, w: nat): (r: Column)
    requires w >= 1
    ensures |r| == |x|
  {
    seq(|x|, i requires 0 <= i < |x| => RollingMeanAt(x, w, i))
  }

  /** What the indicator methods read: a frame whose named column has no NaN. */
  predicate HasDefined(df: Frame, name: string)
    reads df
  {
    name in df.columns && AllDefined(df.columns[name])
  }

  /** `add_rsi`: writes `RSI_14`. */
  method AddRsi(df: Frame) returns (r: Frame)
    requires df.Valid() && HasDefined(df, "Close")
    modifies df
    ensures r == df && df.Valid() && df.rows == old(df.rows)
    ensures df.columns == old(df.columns)["RSI_14" := Rsi(Values(old(df.columns)["Close"]))]
  {
    var close := Values(df.columns["Close"]);
    var delta := Diff(close);
    var gain := RollingMean(Gains(delta), RsiWindow);
    var loss := RollingMean(Losses(delta), RsiWindow);
    forall i | 0 <= i < |close|
      ensures gain[i] == AverageGain(close, i) && loss[i] == AverageLoss(close, i)
    {
    }
    var rsi := seq(|close|, i requires 0 <= i < |close| => RsiValue(gain[i], loss[i]));
    assert rsi == Rsi(close);
    df.SetColumn("RSI_14", rsi);
    r := df;
  }

  /** `add_macd`: writes `MACD` and `Signal_Line`. */
  method AddMacd(df: Frame) returns (r: Frame)
    requires df.Valid() && HasDefined(df, "Close")
    modifies df
    ensures r == df && df.Valid() && df.rows == old(df.rows)
    ensures df.columns == old(df.columns)
      ["MACD" := Lift(MacdLine(Values(old(df.columns)["Close"])))]
      ["Signal_Line" := Lift(SignalLine(Values(old(df.columns)["Close"])))]
  {
    var close := Values(df.columns["Close"]);
    var exp1 := EwmMean(close, FastSpan);
    var exp2 := EwmMean(close, SlowSpan);
    var macd := seq(|close|, i requires 0 <= i < |close| => exp1[i] - exp2[i]);
    assert macd == MacdLine(close);
    var signal := EwmMean(macd, SignalSpan);
    assert signal == SignalLine(close);
    df.SetColumn("MACD", Lift(macd));
    df.SetColumn("Signal_Line", Lift(signal));
    r := df;
  }

  /** `add_bollinger_bands`: writes `BB_Upper` and `BB_Lower`; `rollingStd`
      stands for `Close.rolling(20).std()`. */
  method AddBollingerBands(df: Frame, rollingStd: Column) returns (r: Frame)
    requires df.Valid() && HasDefined(df, "Close")
    requires |rollingStd| == df.rows
    modifies df
    ensures r == df && df.Valid() && df.rows == old(df.rows)
    ensures
      var mean := RollingMeanColumn(Values(old(df.columns)["Close"]), BollingerWindow);
      df.columns == old(df.columns)
        ["BB_Upper" := UpperBand(mean, rollingStd)]
        ["BB_Lower" := LowerBand(mean, rollingStd)]
  {
    var close := Values(df.columns["Close"]);
    var mean := RollingMean(close, BollingerWindow);
    assert mean == RollingMeanColumn(close, BollingerWindow);
    df.SetColumn("BB_Upper", UpperBand(mean, rollingStd));
    df.SetColumn("BB_Lower", LowerBand(mean, rollingStd));
    r := df;
  }

  /** `add_volume_ma`: writes `Vol_MA`. */
  method AddVolumeMa(df: Frame) returns (r: Frame)
    requires df.Valid() && HasDefined(df, "Volume")
    modifies df
    ensures r == df && df.Valid() && df.rows == old(df.rows)
    ensures df.columns == old(df.columns)
      ["Vol_MA" := RollingMeanColumn(Values(old(df.columns)["Volume"]), VolumeWindow)]
  {
    var volume := Values(df.columns["Volume"]);
    var ma := RollingMean(volume, VolumeWindow);
    assert ma == RollingMeanColumn(volume, VolumeWindow);
    df.SetColumn("Vol_MA", ma);
    r := df;
  }

  /** `add_all_indicators`: the four steps in order on the same frame. */
  method AddAllIndicators(df: Frame, rollingStd: Column) returns (r: Frame)
    requires df.Valid() && HasDefined(df, "Close") && HasDefined(df, "Volume")
    requires |rollingStd| == df.rows
    modifies df
    ensures r == df && df.Valid() && df.rows == old(df.rows)
    ensures
      var close := Values(old(df.columns)["Close"]);
      var volume := Values(old(df.columns)["Volume"]);
      var mean := RollingMeanColumn(close, BollingerWindow);
      df.columns == old(df.columns)
        ["RSI_14" := Rsi(close)]
        ["MACD" := Lift(MacdLine(close))]
        ["Signal_Line" := Lift(SignalLine(close))]
        ["BB_Upper" := UpperBand(mean, rollingStd)]
        ["BB_Lower" := LowerBand(mean, rollingStd)]
        ["Vol_MA" := RollingMeanColumn(volume, VolumeWindow)]
  {
    r := AddRsi(df);
    r := AddMacd(r);
    r := AddBollingerBands(r, rollingStd);
    r := AddVolumeMa(r);
  }
}
