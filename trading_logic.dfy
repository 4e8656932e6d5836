/** trading_logic.py: the indicator gate, the backtest run that writes its
    working columns into the caller's frame, and the confidence heuristic
    whose scaler is refitted on every call. The `ta` library's columns and
    StandardScaler's output are inputs. */
module TradingLogic {
  import opened Wrappers
  import opened Frames
  import opened Backtest

  /** Frames shorter than this are returned without indicators. */
  const MinIndicatorRows := 200

  /** The columns `ta` computes from Close: RSI(14), MACD line, signal, diff, EMA(200). */
  datatype TaColumns = TaColumns(rsi: Column, macd: Column, macdSignal: Column, macdDiff: Column, ema200: Column) {
    predicate Fits(rows: nat) {
      |rsi| == rows && |macd| == rows && |macdSignal| == rows && |macdDiff| == rows && |ema200| == rows
    }
  }

  const IndicatorNames: set<string> := {"RSI_14", "MACD", "MACD_Signal", "MACD_Hist", "EMA_200"}

  /** The columns of a frame after `add_all_indicators` has written its five
      columns: the five names added or replaced, every other column kept. */
  function WithIndicators(columns: map<string, Column>, ta: TaColumns): (r: map<string, Column>)
    ensures r.Keys == columns.Keys + IndicatorNames
    ensures forall name :: name in columns && name !in IndicatorNames ==> r[name] == columns[name]
    ensures r["RSI_14"] == ta.rsi && r["MACD"] == ta.macd && r["MACD_Signal"] == ta.macdSignal
    ensures r["MACD_Hist"] == ta.macdDiff && r["EMA_200"] == ta.ema200
  {
    columns["RSI_14" := ta.rsi]["MACD" := ta.macd]["MACD_Signal" := ta.macdSignal]
      ["MACD_Hist" := ta.macdDiff]["EMA_200" := ta.ema200]
  }

  /** `TechnicalIndicators.add_all_indicators`: None, or a frame of fewer than
      200 rows, comes back untouched; otherwise the five columns are written
      into the same frame, which is returned. */
  method AddAllIndicators(df: Frame?, ta: TaColumns) returns (r: Frame?)
    requires df != null ==> df.Valid()
    requires df != null && df.rows >= MinIndicatorRows ==> "Close" in df.columns && ta.Fits(df.rows)
    modifies df
    ensures r == df
    ensures df != null ==> df.Valid() && df.rows == old(df.rows)
    ensures df != null && old(df.rows) < MinIndicatorRows ==> df.columns == old(df.columns)
    ensures df != null && old(df.rows) >= MinIndicatorRows ==> df.columns == WithIndicators(old(df.columns), ta)
  {
    if df == null || df.rows < MinIndicatorRows {
      return df;
    }
    df.SetColumn("RSI_14", ta.rsi);
    df.SetColumn("MACD", ta.macd);
    df.SetColumn("MACD_Signal", ta.macdSignal);
    df.SetColumn("MACD_Hist", ta.macdDiff);
    df.SetColumn("EMA_200", ta.ema200);
    return df;
  }

  /** What `run_macd_crossover` reads from a frame that has `EMA_200`. */
  predicate BacktestReady(columns: map<string, Column>) {
    && "Close" in columns && "MACD" in columns && "MACD_Signal" in columns && "EMA_200" in columns
    && AllDefined(columns["Close"]) && NonZeroPrices(Values(columns["Close"]))
  }

  /** `BacktestEngine.run_macd_crossover`: the neutral result for None or a
      frame without `EMA_200`; otherwise the `Signal`, `Returns` and
      `Strategy_Returns` columns are written into the frame and the summary
      is `Backtest.Run` of its columns. */
  method RunMacdCrossover(df: Frame?) returns (r: BacktestResult)
    requires df != null ==> df.Valid()
    requires df != null && "EMA_200" in df.columns ==> BacktestReady(df.columns)
    modifies df
    ensures df != null ==> df.Valid() && df.rows == old(df.rows)
    ensures df == null || "EMA_200" !in old(df.columns) ==> r == NeutralResult
    ensures df != null && "EMA_200" !in old(df.columns) ==> df.columns == old(df.columns)
    ensures df != null && "EMA_200" in old(df.columns) ==>
      var cols := old(df.columns);
      var close := Values(cols["Close"]);
      && r == Run(close, cols["MACD"], cols["MACD_Signal"], cols["EMA_200"])
      && df.columns == cols
        ["Signal" := Lift(Positions(close, cols["MACD"], cols["MACD_Signal"], cols["EMA_200"]))]
        ["Returns" := PctChange(close)]
        ["Strategy_Returns" := StrategyColumn(close, cols["MACD"], cols["MACD_Signal"], cols["EMA_200"])]
  {
    if df == null || "EMA_200" !in df.columns {
      return NeutralResult;
    }
    var close := Values(df.columns["Close"]);
    var macd, signal, ema := df.columns["MACD"], df.columns["MACD_Signal"], df.columns["EMA_200"];
    var pos := Positions(close, macd, signal, ema);
    df.SetColumn("Signal", Lift(pos));
    df.SetColumn("Returns", PctChange(close));
    df.SetColumn("Strategy_Returns", StrategyReturns(pos, PctChange(close)));
    r := Run(close, macd, signal, ema);
  }

  /** One row of Open, High, Low, Close. */
  datatype FeatureRow = FeatureRow(open: real, high: real, low: real, close: real)

  /** The state of `self.scaler`: what it was last fitted on. */
  datatype ScalerState = Unfitted | FittedOn(rows: seq<FeatureRow>)

  const ConfidenceWindow := 10
  const NeutralConfidence := 50.0

  predicate HasFeatureColumns(columns: map<string, Column>) {
    "Open" in columns && "High" in columns && "Low" in columns && "Close" in columns
  }

  /** Row i of the four feature columns, None if any of them is NaN there. */
  function FeatureRowAt(columns: map<string, Column>, i: nat): Option<FeatureRow>
    requires HasFeatureColumns(columns)
    requires i < |columns["Open"]| && i < |columns["High"]| && i < |columns["Low"]| && i < |columns["Close"]|
  {
    var o, h, l, c := columns["Open"][i], columns["High"][i], columns["Low"][i], columns["Close"][i];
    if o.Some? && h.Some? && l.Some? && c.Some? then Some(FeatureRow(o.value, h.value, l.value, c.value))
    else None
  }

  /** The offsets of complete rows among the first n, in increasing order. */
  function CompleteOffsets(rows: seq<Option<FeatureRow>>, n: nat): (idx: seq<nat>)
    requires n <= |rows|
    ensures |idx| <= n
    ensures forall k :: 0 <= k < |idx| ==> idx[k] < n && rows[idx[k]].Some?
    ensures forall k, l :: 0 <= k < l < |idx| ==> idx[k] < idx[l]
  {
    if n == 0 then []
    else if rows[n - 1].Some? then CompleteOffsets(rows, n - 1) + [n - 1]
    else CompleteOffsets(rows, n - 1)
  }

  /** Every complete row among the first n is listed. */
  lemma {:induction false} CompleteOffsetsCover(rows: seq<Option<FeatureRow>>, n: nat, i: nat)
    requires i < n <= |rows| && rows[i].Some?
    ensures i in CompleteOffsets(rows, n)
    decreases n
  {
    var prev := CompleteOffsets(rows, n - 1);
    assert CompleteOffsets(rows, n) == prev + if rows[n - 1].Some? then [n - 1] else [];
    if i < n - 1 {
      CompleteOffsetsCover(rows, n - 1, i);
    }
  }

  /** The offsets are empty exactly when no row among the first n is complete. */
  lemma CompleteOffsetsEmpty(rows: seq<Option<FeatureRow>>, n: nat)
    requires n <= |rows|
    ensures |CompleteOffsets(rows, n)| == 0 <==> forall i :: 0 <= i < n ==> rows[i].None?
  {
    var idx := CompleteOffsets(rows, n);
    if |idx| == 0 {
      forall i | 0 <= i < n
        ensures rows[i].None?
      {
        if rows[i].Some? {
          CompleteOffsetsCover(rows, n, i);
        }
      }
    } else {
      assert rows[idx[0]].Some?;
    }
  }

  /** With every row among the first n complete, all n offsets are listed. */
  lemma {:induction false} CompleteOffsetsFull(rows: seq<Option<FeatureRow>>, n: nat)
    requires n <= |rows|
    requires forall i :: 0 <= i < n ==> rows[i].Some?
    ensures |CompleteOffsets(rows, n)| == n
    decreases n
  {
    if n > 0 {
      CompleteOffsetsFull(rows, n - 1);
    }
  }

  /** `dropna()` over the first n rows: the complete rows, in order — the
      k-th kept row is the row at the k-th complete offset. */
  function DropNa(rows: seq<Option<FeatureRow>>, n: nat): (kept: seq<FeatureRow>)
    requires n <= |rows|
    ensures |kept| == |CompleteOffsets(rows, n)|
    ensures forall k :: 0 <= k < |kept| ==> rows[CompleteOffsets(rows, n)[k]] == Some(kept[k])
  {
    if n == 0 then []
    else
      var init := DropNa(rows, n - 1);
      assert CompleteOffsets(rows, n) ==
        CompleteOffsets(rows, n - 1) + if rows[n - 1].Some? then [n - 1] else [];
      if rows[n - 1].Some? then init + [rows[n - 1].value] else init
  }

  /** A row value is kept exactly when some row holds it. */
  lemma DropNaMembership(rows: seq<Option<FeatureRow>>, x: FeatureRow)
    ensures x in DropNa(rows, |rows|) <==> Some(x) in rows
  {
    var kept, idx := DropNa(rows, |rows|), CompleteOffsets(rows, |rows|);
    if x in kept {
      var k :| 0 <= k < |kept| && kept[k] == x;
      assert rows[idx[k]] == Some(x);
    }
    if Some(x) in rows {
      var i :| 0 <= i < |rows| && rows[i] == Some(x);
      CompleteOffsetsCover(rows, |rows|, i);
      var k :| 0 <= k < |idx| && idx[k] == i;
      assert kept[k] == x;
    }
  }

  /** `tail(10)` of the four feature columns: the last ten rows, or all of
      them when there are fewer, in order. */
  function LastRows(columns: map<string, Column>, rows: nat): (t: seq<Option<FeatureRow>>)
    requires HasFeatureColumns(columns)
    requires |columns["Open"]| == rows && |columns["High"]| == rows
    requires |columns["Low"]| == rows && |columns["Close"]| == rows
    ensures |t| == if rows < ConfidenceWindow then rows else ConfidenceWindow
    ensures forall k :: 0 <= k < |t| ==> t[k] == FeatureRowAt(columns, rows - |t| + k)
  {
    var n := if rows < ConfidenceWindow then rows else ConfidenceWindow;
    seq(n, k requires 0 <= k < n => FeatureRowAt(columns, rows - n + k))
  }

  /** `df[['Open', 'High', 'Low', 'Close']].tail(10).dropna()`: the complete
      rows among the last ten, in order. Row `rows - |t| + o` of the frame
      is offset `o` of the window `t`. */
  function Features(columns: map<string, Column>, rows: nat): (f: seq<FeatureRow>)
    requires HasFeatureColumns(columns)
    requires |columns["Open"]| == rows && |columns["High"]| == rows
    requires |columns["Low"]| == rows && |columns["Close"]| == rows
    ensures |f| <= ConfidenceWindow
    ensures
      var t := LastRows(columns, rows);
      var idx := CompleteOffsets(t, |t|);
      && |f| == |idx|
      && forall k :: 0 <= k < |f| ==> FeatureRowAt(columns, rows - |t| + idx[k]) == Some(f[k])
    ensures
      (forall i :: 0 <= i < rows ==> FeatureRowAt(columns, i).Some?) ==>
      |f| == if rows < ConfidenceWindow then rows else ConfidenceWindow
  {
    var t := LastRows(columns, rows);
    assert (forall i :: 0 <= i < rows ==> FeatureRowAt(columns, i).Some?) ==> |DropNa(t, |t|)| == |t| by {
      if forall i :: 0 <= i < rows ==> FeatureRowAt(columns, i).Some? {
        CompleteOffsetsFull(t, |t|);
      }
    }
    DropNa(t, |t|)
  }

  /** `min(max(50 + 10 m, 0), 100)` before rounding: the momentum scaled
      around the neutral 50 and clamped to [0, 100]. */
  function ConfidenceFromMomentum(m: real): (c: real)
    ensures 0.0 <= c <= 100.0
    ensures 0.0 <= 50.0 + 10.0 * m <= 100.0 ==> c == 50.0 + 10.0 * m
    ensures 50.0 + 10.0 * m < 0.0 ==> c == 0.0
    ensures 50.0 + 10.0 * m > 100.0 ==> c == 100.0
  {
    var raw := NeutralConfidence + m * 10.0;
    var lower := if raw > 0.0 then raw else 0.0;
    if lower < 100.0 then lower else 100.0
  }

  /** More momentum never lowers the confidence. */
  lemma ConfidenceMonotone(m1: real, m2: real)
    requires m1 <= m2
    ensures ConfidenceFromMomentum(m1) <= ConfidenceFromMomentum(m2)
  {
  }

  /** `scaled[-1][3] - scaled[0][3]`, the change of the scaled close over the
      window; None where indexing an empty result raises. */
  function Momentum(scaled: seq<FeatureRow>): Option<real> {
    if |scaled| == 0 then None else Some(scaled[|scaled| - 1].close - scaled[0].close)
  }

  /** The confidence `predict_confidence` reports for a scaled window: exactly
      the neutral 50 when the scaled close ends where it started (or there is
      no row), above 50 exactly when it rose and below 50 exactly when it fell. */
  lemma ConfidenceFollowsCloseDirection(scaled: seq<FeatureRow>)
    ensures
      var c := match Momentum(scaled)
               case None => NeutralConfidence
               case Some(m) => ConfidenceFromMomentum(m);
      && (c == NeutralConfidence <==> |scaled| == 0 || scaled[|scaled| - 1].close == scaled[0].close)
      && (c > NeutralConfidence <==> |scaled| > 0 && scaled[|scaled| - 1].close > scaled[0].close)
      && (c < NeutralConfidence <==> |scaled| > 0 && scaled[|scaled| - 1].close < scaled[0].close)
  {
  }

  /** `PredictiveModel`: a momentum heuristic over the last ten bars. */
  class PredictiveModel {
    var scaler: ScalerState

    constructor ()
      ensures scaler == Unfitted
    {
      scaler := Unfitted;
    }

    /** `predict_confidence`. `fitTransform` stands for
        `StandardScaler.fit_transform`, None when it raises. Every failure
        (None frame, fewer than ten rows, a missing column, no complete row,
        the scaler raising, an empty result) gives the neutral 50. */
    method PredictConfidence(df: Frame?, fitTransform: seq<FeatureRow> -> Option<seq<FeatureRow>>) returns (c: real)
      requires df != null ==> df.Valid()
      modifies this
      ensures 0.0 <= c <= 100.0
      ensures df == null || df.rows < ConfidenceWindow || !HasFeatureColumns(df.columns) ==>
        c == NeutralConfidence && scaler == old(scaler)
      ensures df != null && df.rows >= ConfidenceWindow && HasFeatureColumns(df.columns) ==>
        var f := Features(df.columns, df.rows);
        if |f| == 0 then c == NeutralConfidence && scaler == old(scaler)
        else match fitTransform(f)
          case None => c == NeutralConfidence && scaler == Unfitted
          case Some(scaled) =>
            && scaler == FittedOn(f)
            && c == match Momentum(scaled)
                    case None => NeutralConfidence
                    case Some(m) => ConfidenceFromMomentum(m)
    {
      if df == null || df.rows < ConfidenceWindow || !HasFeatureColumns(df.columns) {
        return NeutralConfidence;
      }
      var features := Features(df.columns, df.rows);
      if |features| == 0 {
        return NeutralConfidence;
      }
      var scaled := fitTransform(features);
      if scaled.None? {
        // StandardScaler.fit resets the scaler before it validates its input.
        scaler := Unfitted;
        return NeutralConfidence;
      }
      scaler := FittedOn(features);
      var momentum := Momentum(scaled.value);
      if momentum.None? {
        return NeutralConfidence;
      }
      c := ConfidenceFromMomentum(momentum.value);
    }
  }

  /** With ten complete rows the dropna branch is never taken: a neutral 50
      from it needs a NaN among the last ten bars. */
  lemma CompleteWindowHasFeatures(columns: map<string, Column>, rows: nat)
    requires HasFeatureColumns(columns)
    requires |columns["Open"]| == rows && |columns["High"]| == rows
    requires |columns["Low"]| == rows && |columns["Close"]| == rows
    requires rows >= ConfidenceWindow
    requires AllDefined(columns["Open"]) && AllDefined(columns["High"])
    requires AllDefined(columns["Low"]) && AllDefined(columns["Close"])
    ensures |Features(columns, rows)| == ConfidenceWindow
  {
  }
}
