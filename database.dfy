/** The persistence layer: the connection URL, the engine options chosen for
    it, the two record types and their dictionary views. Engine creation,
    sessions and queries are database I/O and stay outside the model. */
module Database {
  import opened Wrappers
  import opened Strings

  const DefaultUrl: string := "sqlite:///trading_dashboard.db"
  const PostgresScheme: string := "postgres://"
  const PostgresqlScheme: string := "postgresql://"

  /** The legacy "postgres://" scheme becomes "postgresql://"; any other URL
      is kept as it is. */
  function NormalizeUrl(url: string): (r: string)
    ensures StartsWith(url, PostgresScheme) ==> r == PostgresqlScheme + url[|PostgresScheme|..]
    ensures !StartsWith(url, PostgresScheme) ==> r == url
  {
    if StartsWith(url, PostgresScheme) then
      FirstOccurrence(url, PostgresScheme, 0);
      ReplaceFirst(url, PostgresScheme, PostgresqlScheme)
    else url
  }

  /** `DATABASE_URL`: the environment value, or the SQLite file, normalised. */
  function DatabaseUrl(env: Option<string>): (url: string)
    ensures env.None? ==> url == DefaultUrl
    ensures env.Some? ==> url == NormalizeUrl(env.value)
  {
    assert DefaultUrl[..|PostgresScheme|][0] == 's';
    NormalizeUrl(env.GetOr(DefaultUrl))
  }

  lemma RewrittenUrlNotLegacy(rest: string)
    ensures !StartsWith(PostgresqlScheme + rest, PostgresScheme)
  {
    var r := PostgresqlScheme + rest;
    assert r[..|PostgresScheme|][8] == r[8] == 'q';
  }

  /** Normalising twice is normalising once. */
  lemma NormalizeIdempotent(url: string)
    ensures NormalizeUrl(NormalizeUrl(url)) == NormalizeUrl(url)
  {
    if StartsWith(url, PostgresScheme) {
      RewrittenUrlNotLegacy(url[|PostgresScheme|..]);
    }
  }

  /** A keyword argument of `create_engine`. */
  datatype EngineOption =
    | IntOption(n: int)
    | ConnectArgs(args: map<string, bool>)

  /** The engine options for a URL: SQLite connections may be shared across
      threads; every other database gets a pool of 5 with 10 overflow. */
  function EngineKwargs(url: string): (kw: map<string, EngineOption>)
    ensures Contains(url, "sqlite") <==> "connect_args" in kw
    ensures Contains(url, "sqlite") ==>
      kw.Keys == {"connect_args"} && kw["connect_args"] == ConnectArgs(map["check_same_thread" := false])
    ensures !Contains(url, "sqlite") ==>
      kw.Keys == {"pool_size", "max_overflow"} && kw["pool_size"] == IntOption(5) && kw["max_overflow"] == IntOption(10)
  {
    if Contains(url, "sqlite") then
      map["connect_args" := ConnectArgs(map["check_same_thread" := false])]
    else
      map["pool_size" := IntOption(5), "max_overflow" := IntOption(10)]
  }

  lemma LegacySchemeHidesNoSqlite(rest: string)
    ensures Contains(PostgresScheme + rest, "sqlite") <==> Contains(rest, "sqlite")
  {
    var s := PostgresScheme + rest;
    forall j | 0 <= j < |PostgresScheme|
      ensures !OccursAt(s, "sqlite", j)
    {
      if j == 2 || j == 7 {
        MismatchAt(s, "sqlite", j, 1);
      } else {
        MismatchAt(s, "sqlite", j, 0);
      }
    }
    ContainsPastPrefix(PostgresScheme, rest, "sqlite");
  }

  lemma SchemeHidesNoSqlite(rest: string)
    ensures Contains(PostgresqlScheme + rest, "sqlite") <==> Contains(rest, "sqlite")
  {
    var s := PostgresqlScheme + rest;
    forall j | 0 <= j < |PostgresqlScheme|
      ensures !OccursAt(s, "sqlite", j)
    {
      if j == 2 {
        MismatchAt(s, "sqlite", j, 1);
      } else if j == 7 {
        MismatchAt(s, "sqlite", j, 3);
      } else {
        MismatchAt(s, "sqlite", j, 0);
      }
    }
    ContainsPastPrefix(PostgresqlScheme, rest, "sqlite");
  }

  /** The scheme rewrite never changes which engine options a URL gets. */
  lemma NormalizeKeepsEngineOptions(url: string)
    ensures EngineKwargs(NormalizeUrl(url)) == EngineKwargs(url)
  {
    if StartsWith(url, PostgresScheme) {
      var rest := url[|PostgresScheme|..];
      assert url == PostgresScheme + rest;
      LegacySchemeHidesNoSqlite(rest);
      SchemeHidesNoSqlite(rest);
    }
  }

  /** Without an environment value the SQLite options apply. */
  lemma DefaultUsesSqliteOptions()
    ensures "connect_args" in EngineKwargs(DatabaseUrl(None))
  {
    assert OccursAt(DefaultUrl, "sqlite", 0);
  }

  /** What `create_engine` is handed. */
  datatype Engine = Engine(url: string, kwargs: map<string, EngineOption>)

  /** What `sessionmaker` is handed. */
  datatype SessionFactory = SessionFactory(bind: Engine, autocommit: bool, autoflush: bool, expireOnCommit: bool)

  class DatabaseManager {
    var databaseUrl: string
    var engine: Option<Engine>
    var sessionLocal: Option<SessionFactory>

    /** The engine and session factory for the current URL. */
    ghost predicate Initialized()
      reads this
    {
      && engine == Some(Engine(databaseUrl, EngineKwargs(databaseUrl)))
      && sessionLocal == Some(SessionFactory(engine.value, false, false, false))
    }

    /** `engineCreates` says whether `create_engine` returns rather than raises. */
    constructor(databaseUrl: string, engineCreates: bool)
      ensures this.databaseUrl == databaseUrl
      ensures engineCreates ==> Initialized()
      ensures !engineCreates ==> engine.None? && sessionLocal.None?
    {
      this.databaseUrl := databaseUrl;
      engine := None;
      sessionLocal := None;
      new;
      InitializeDatabase(engineCreates);
    }

    /** Builds the keyword arguments and, if the engine is created, sets both
        fields; a raising `create_engine` leaves them as they were. */
    method InitializeDatabase(engineCreates: bool)
      modifies this
      ensures databaseUrl == old(databaseUrl)
      ensures engineCreates ==> Initialized()
      ensures !engineCreates ==> engine == old(engine) && sessionLocal == old(sessionLocal)
    {
      var kwargs: map<string, EngineOption> := map[];
      if Contains(databaseUrl, "sqlite") {
        kwargs := kwargs["connect_args" := ConnectArgs(map["check_same_thread" := false])];
      } else {
        kwargs := kwargs["pool_size" := IntOption(5)];
        kwargs := kwargs["max_overflow" := IntOption(10)];
      }
      if engineCreates {
        var e := Engine(databaseUrl, kwargs);
        engine := Some(e);
        sessionLocal := Some(SessionFactory(e, false, false, false));
      }
    }
  }

  /** `datetime.now()` as the database stores it. */
  datatype Timestamp = Timestamp(ticks: int)

  const ActiveStatus: string := "ACTIVE"

  /** A `trading_signals` row; fields the database fills on insert are `None` before. */
  datatype TradingSignal = TradingSignal(
    id: Option<int>,
    timestamp: Option<Timestamp>,
    ticker: string,
    signalType: string,
    price: real,
    timeframe: Option<string>,
    indicatorValues: Option<string>,
    status: Option<string>)

  /** The record `log_signal` adds; `dumps` stands for `json.dumps`. The
      indicator text is stored only for a non-empty dictionary. */
  function NewSignal(
    ticker: string, signalType: string, price: real, timeframe: Option<string>,
    indicators: Option<map<string, real>>, dumps: map<string, real> -> string): (s: TradingSignal)
    ensures s.ticker == ticker && s.price == price && s.timeframe == timeframe
    ensures s.signalType == Upper(signalType)
    ensures |s.signalType| == |signalType| && Upper(s.signalType) == s.signalType
    ensures forall i :: 0 <= i < |signalType| && !IsLowerAscii(signalType[i]) ==> s.signalType[i] == signalType[i]
    ensures s.indicatorValues.None? <==> indicators.None? || indicators.value == map[]
    ensures s.indicatorValues.Some? ==> s.indicatorValues.value == dumps(indicators.value)
    ensures s.id.None? && s.timestamp.None? && s.status.None?
  {
    UpperIdempotent(signalType);
    TradingSignal(
      None, None, ticker, Upper(signalType), price, timeframe,
      if indicators.Some? && indicators.value != map[] then Some(dumps(indicators.value)) else None,
      None)
  }

  /** The column defaults the database applies on insert: the next id, the
      current time and the "ACTIVE" status. */
  function InsertSignal(s: TradingSignal, id: int, now: Timestamp): (r: TradingSignal)
    ensures r.id == Some(id) && r.timestamp.Some? && r.status.Some?
    ensures s.timestamp.Some? ==> r.timestamp == s.timestamp
    ensures s.timestamp.None? ==> r.timestamp == Some(now)
    ensures s.status.Some? ==> r.status == s.status
    ensures s.status.None? ==> r.status == Some(ActiveStatus)
    ensures r.(id := s.id, timestamp := s.timestamp, status := s.status) == s
  {
    s.(id := Some(id),
       timestamp := Some(s.timestamp.GetOr(now)),
       status := Some(s.status.GetOr(ActiveStatus)))
  }

  /** A value of the dictionaries `to_dict` returns. */
  datatype Value = Null | IntValue(i: int) | RealValue(r: real) | StrValue(s: string)

  function OptionalInt(o: Option<int>): Value {
    if o.Some? then IntValue(o.value) else Null
  }

  function OptionalText(o: Option<string>): Value {
    if o.Some? then StrValue(o.value) else Null
  }

  /** `TradingSignal.to_dict`; `iso` stands for `isoformat`. */
  function SignalToDict(s: TradingSignal, iso: Timestamp -> string): (d: map<string, Value>)
    ensures d.Keys == {"id", "timestamp", "ticker", "signal_type", "price", "timeframe", "status"}
    ensures "indicator_values" !in d
    ensures d["timestamp"] == Null <==> s.timestamp.None?
    ensures s.timestamp.Some? ==> d["timestamp"] == StrValue(iso(s.timestamp.value))
    ensures d["ticker"] == StrValue(s.ticker) && d["signal_type"] == StrValue(s.signalType)
    ensures d["price"] == RealValue(s.price)
  {
    map[
      "id" := OptionalInt(s.id),
      "timestamp" := if s.timestamp.Some? then StrValue(iso(s.timestamp.value)) else Null,
      "ticker" := StrValue(s.ticker),
      "signal_type" := StrValue(s.signalType),
      "price" := RealValue(s.price),
      "timeframe" := OptionalText(s.timeframe),
      "status" := OptionalText(s.status)]
  }

  /** A logged signal, once stored and read back, shows the upper-cased type,
      its insertion time and the "ACTIVE" status, and offers no "type" key. */
  lemma LoggedSignalView(
    ticker: string, signalType: string, price: real, timeframe: Option<string>,
    indicators: Option<map<string, real>>, dumps: map<string, real> -> string,
    id: int, now: Timestamp, iso: Timestamp -> string)
    ensures
      var d := SignalToDict(InsertSignal(NewSignal(ticker, signalType, price, timeframe, indicators, dumps), id, now), iso);
      && d["id"] == IntValue(id)
      && d["timestamp"] == StrValue(iso(now))
      && d["signal_type"] == StrValue(Upper(signalType))
      && d["status"] == StrValue(ActiveStatus)
      && "type" !in d
  {
  }

  /** A `backtest_logs` row. */
  datatype BacktestLog = BacktestLog(
    id: Option<int>,
    timestamp: Option<Timestamp>,
    strategyName: string,
    ticker: string,
    timeframe: string,
    totalTrades: int,
    winRate: real,
    maxDrawdown: real,
    totalReturn: real)

  /** The record `log_backtest_result` adds; the id and the time are left to the database. */
  function NewBacktestLog(
    strategy: string, ticker: string, timeframe: string, trades: int,
    winRate: real, maxDrawdown: real, totalReturn: real): BacktestLog
  {
    BacktestLog(None, None, strategy, ticker, timeframe, trades, winRate, maxDrawdown, totalReturn)
  }

  /** The column defaults the database applies on insert: the next id and the current time. */
  function InsertBacktestLog(l: BacktestLog, id: int, now: Timestamp): (r: BacktestLog)
    ensures r.id == Some(id)
    ensures l.timestamp.Some? ==> r.timestamp == l.timestamp
    ensures l.timestamp.None? ==> r.timestamp == Some(now)
    ensures r.(id := l.id, timestamp := l.timestamp) == l
  {
    l.(id := Some(id), timestamp := Some(l.timestamp.GetOr(now)))
  }

  /** `BacktestLog.to_dict`: the timeframe, trade count and drawdown are not shown. */
  function BacktestLogToDict(l: BacktestLog, iso: Timestamp -> string): (d: map<string, Value>)
    ensures d.Keys == {"id", "timestamp", "strategy_name", "ticker", "win_rate", "total_return"}
    ensures "timeframe" !in d && "total_trades" !in d && "max_drawdown" !in d
    ensures d["timestamp"] == Null <==> l.timestamp.None?
    ensures d["strategy_name"] == StrValue(l.strategyName) && d["ticker"] == StrValue(l.ticker)
    ensures d["win_rate"] == RealValue(l.winRate) && d["total_return"] == RealValue(l.totalReturn)
  {
    map[
      "id" := OptionalInt(l.id),
      "timestamp" := if l.timestamp.Some? then StrValue(iso(l.timestamp.value)) else Null,
      "strategy_name" := StrValue(l.strategyName),
      "ticker" := StrValue(l.ticker),
      "win_rate" := RealValue(l.winRate),
      "total_return" := RealValue(l.totalReturn)]
  }

  /** A logged backtest, once stored and read back, shows the strategy, ticker,
      win rate and total return it was logged with and its insertion time, and
      hides the timeframe, the trade count and the drawdown. */
  lemma LoggedBacktestView(
    strategy: string, ticker: string, timeframe: string, trades: int,
    winRate: real, maxDrawdown: real, totalReturn: real,
    id: int, now: Timestamp, iso: Timestamp -> string)
    ensures
      var d := BacktestLogToDict(InsertBacktestLog(NewBacktestLog(strategy, ticker, timeframe, trades, winRate, maxDrawdown, totalReturn), id, now), iso);
      && d["id"] == IntValue(id)
      && d["timestamp"] == StrValue(iso(now))
      && d["strategy_name"] == StrValue(strategy) && d["ticker"] == StrValue(ticker)
      && d["win_rate"] == RealValue(winRate) && d["total_return"] == RealValue(totalReturn)
      && "timeframe" !in d && "total_trades" !in d && "max_drawdown" !in d
  {
  }
}
