/**
 * The exchange-client factory (`BinanceExchangeFactory`, binance_mcp/broker.py):
 * a fixed broker-id table per market segment, the checked construction of a
 * client configuration with that table injected, a soft check that the client
 * kept the table, the market-type to default-segment mapping and the connection
 * self-test.
 */
module Broker {
  import opened Wrappers
  import opened Errors
  import opened Json
  import opened Ccxt

  const SpotBrokerId: string := "C96E9MGA"
  const FuturesBrokerId: string := "eFC56vBf"

  /** `BROKER_IDS` in declaration order (broker.py:19-27). */
  const BrokerIds: seq<(string, string)> := [
    ("spot", SpotBrokerId),
    ("margin", SpotBrokerId),
    ("future", FuturesBrokerId),
    ("delivery", FuturesBrokerId),
    ("swap", FuturesBrokerId),
    ("option", FuturesBrokerId),
    ("inverse", FuturesBrokerId)
  ]

  /** The table as the dict injected into the client's options. */
  function BrokerTable(): (table: Value)
    ensures table.Obj? && Keys(table.entries) == Keys(BrokerIds)
    ensures forall i :: 0 <= i < |BrokerIds| ==> Get(table.entries, BrokerIds[i].0) == Some(Str(BrokerIds[i].1))
  {
    var entries := seq(|BrokerIds|, i requires 0 <= i < |BrokerIds| => (BrokerIds[i].0, Str(BrokerIds[i].1)));
    forall i | 0 <= i < |BrokerIds|
      ensures Get(entries, BrokerIds[i].0) == Some(Str(BrokerIds[i].1))
    {
      GetAt(entries, i);
    }
    Obj(entries)
  }

  /** `get_broker_info` (broker.py:99-102): a dict equal to the table. */
  function BrokerInfo(): (info: map<string, string>)
    ensures info.Keys == {"spot", "margin", "future", "delivery", "swap", "option", "inverse"}
    ensures info["spot"] == SpotBrokerId && info["margin"] == SpotBrokerId
    ensures forall m :: m in info && m != "spot" && m != "margin" ==> info[m] == FuturesBrokerId
    ensures forall i :: 0 <= i < |BrokerIds| ==> BrokerIds[i].0 in info && info[BrokerIds[i].0] == BrokerIds[i].1
  {
    map["spot" := SpotBrokerId, "margin" := SpotBrokerId, "future" := FuturesBrokerId,
        "delivery" := FuturesBrokerId, "swap" := FuturesBrokerId, "option" := FuturesBrokerId,
        "inverse" := FuturesBrokerId]
  }

  /** `get_supported_market_types` (broker.py:188-191): the table's keys in order. */
  function SupportedMarketTypes(): (types: seq<string>)
    ensures |types| == 7
    ensures forall i, j :: 0 <= i < j < |types| ==> types[i] != types[j]
    ensures forall m :: m in types <==> m in BrokerInfo()
    ensures types == ["spot", "margin", "future", "delivery", "swap", "option", "inverse"]
  {
    var types := Keys(BrokerIds);
    assert types == ["spot", "margin", "future", "delivery", "swap", "option", "inverse"];
    types
  }

  /** `account_config.get(field, default)`. */
  function Lookup(cfg: map<string, Value>, field: string, default: Value): Value {
    if field in cfg then cfg[field] else default
  }

  /**
   * The checks and the configuration record of `create_exchange`
   * (broker.py:44-67): `api_key`, then `secret`, must be present and truthy.
   */
  function BuildConfig(cfg: map<string, Value>): (r: Result<ExchangeConfig, Error>)
    ensures !Truthy(Lookup(cfg, "api_key", Null)) ==> r == Err(MissingField("api_key"))
    ensures Truthy(Lookup(cfg, "api_key", Null)) && !Truthy(Lookup(cfg, "secret", Null)) ==>
      r == Err(MissingField("secret"))
    ensures r.Ok? <==> Truthy(Lookup(cfg, "api_key", Null)) && Truthy(Lookup(cfg, "secret", Null))
    ensures r.Ok? ==>
      && r.value.apiKey == cfg["api_key"] && r.value.secret == cfg["secret"]
      && r.value.sandbox == Lookup(cfg, "sandbox", Bool(false))
      && r.value.enableRateLimit
      && r.value.options.Keys == {"broker", "defaultType", "portfolioMargin"}
      && r.value.options["broker"] == BrokerTable()
      && r.value.options["defaultType"] == Str("spot")
      && r.value.options["portfolioMargin"] == Lookup(cfg, "portfolio_margin", Bool(false))
      && (r.value.password.Some? <==> "passphrase" in cfg)
      && (r.value.password.Some? ==> r.value.password.value == cfg["passphrase"])
  {
    if !Truthy(Lookup(cfg, "api_key", Null)) then Err(MissingField("api_key"))
    else if !Truthy(Lookup(cfg, "secret", Null)) then Err(MissingField("secret"))
    else
      Ok(ExchangeConfig(
        cfg["api_key"], cfg["secret"], Lookup(cfg, "sandbox", Bool(false)), true,
        map["broker" := BrokerTable(), "defaultType" := Str("spot"),
            "portfolioMargin" := Lookup(cfg, "portfolio_margin", Bool(false))],
        if "passphrase" in cfg then Some(cfg["passphrase"]) else None))
  }

  /** The segments among the first entries of `expected` whose injected id differs. */
  function Mismatched(injected: seq<(string, Value)>, expected: seq<(string, string)>): (bad: seq<string>)
    ensures |bad| <= |expected|
    ensures forall k :: 0 <= k < |bad| ==> bad[k] in Keys(expected)
  {
    if expected == [] then []
    else
      var last := expected[|expected| - 1];
      Mismatched(injected, expected[..|expected| - 1])
        + (if Get(injected, last.0) != Some(Str(last.1)) then [last.0] else [])
  }

  /** A segment is reported exactly when its injected id is not the expected one. */
  lemma {:induction false} MismatchedExactly(injected: seq<(string, Value)>, expected: seq<(string, string)>, m: string)
    ensures m in Mismatched(injected, expected) <==>
      exists i :: 0 <= i < |expected| && expected[i].0 == m && Get(injected, m) != Some(Str(expected[i].1))
  {
    if expected != [] {
      var front := expected[..|expected| - 1];
      MismatchedExactly(injected, front, m);
      if m in Mismatched(injected, expected) && m !in Mismatched(injected, front) {
        assert expected[|expected| - 1].0 == m;
      }
      if exists i :: 0 <= i < |expected| && expected[i].0 == m && Get(injected, m) != Some(Str(expected[i].1)) {
        var i :| 0 <= i < |expected| && expected[i].0 == m && Get(injected, m) != Some(Str(expected[i].1));
        if i < |expected| - 1 {
          assert front[i] == expected[i];
        }
      }
    }
  }

  /** Each segment is warned about at most as often as it occurs in the table, so once for `BrokerIds`. */
  lemma {:induction false} MismatchedAtMostOnce(injected: seq<(string, Value)>, expected: seq<(string, string)>)
    ensures forall m :: multiset(Mismatched(injected, expected))[m] <= multiset(Keys(expected))[m]
  {
    if expected != [] {
      var front := expected[..|expected| - 1];
      MismatchedAtMostOnce(injected, front);
      assert Keys(expected) == Keys(front) + [expected[|expected| - 1].0];
    }
  }

  /**
   * `_verify_broker_injection` (broker.py:85-97) as a value: it raises only when
   * the options hold no broker dict, and otherwise reports the mismatched segments.
   */
  function InjectionCheck(options: map<string, Value>): (r: Result<seq<string>, Error>)
    ensures "broker" !in options <==> r == Err(InjectionFailed)
    ensures r.Err? <==> "broker" !in options || !options["broker"].Obj?
    ensures r.Ok? ==> r.value == Mismatched(options["broker"].entries, BrokerIds)
  {
    if "broker" !in options then Err(InjectionFailed)
    else if !options["broker"].Obj? then Err(Other("the broker option has no get method"))
    else Ok(Mismatched(options["broker"].entries, BrokerIds))
  }

  /** The injected table itself produces no warning. */
  lemma InjectedTableMatches()
    ensures InjectionCheck(map["broker" := BrokerTable()]) == Ok([])
  {
    var entries := BrokerTable().entries;
    var bad := Mismatched(entries, BrokerIds);
    if bad != [] {
      MismatchedExactly(entries, BrokerIds, bad[0]);
      assert false;
    }
  }

  /** `_verify_broker_injection`, walking the table and collecting one warning per mismatch. */
  method VerifyBrokerInjection(options: map<string, Value>) returns (r: Result<seq<string>, Error>)
    ensures r == InjectionCheck(options)
  {
    if "broker" !in options {
      return Err(InjectionFailed);
    }
    var injected := options["broker"];
    if !injected.Obj? {
      return Err(Other("the broker option has no get method"));
    }
    var warnings: seq<string> := [];
    var i := 0;
    while i < |BrokerIds|
      invariant 0 <= i <= |BrokerIds|
      invariant warnings == Mismatched(injected.entries, BrokerIds[..i])
    {
      assert BrokerIds[..i + 1][..i] == BrokerIds[..i];
      var (segment, expected) := BrokerIds[i];
      if Get(injected.entries, segment) != Some(Str(expected)) {
        warnings := warnings + [segment];
      }
      i := i + 1;
    }
    assert BrokerIds[..i] == BrokerIds;
    r := Ok(warnings);
  }

  /**
   * What `create_exchange` (broker.py:29-83) yields: the configuration and the
   * options the library left in the client. Missing credentials raise ValueError
   * before the `try`; every later failure is wrapped in RuntimeError.
   */
  function Construction(cfg: map<string, Value>, lib: Library): (r: Result<(ExchangeConfig, map<string, Value>), Error>)
    ensures r.Err? ==> r.error.MissingField? || r.error.CreateFailed?
    ensures r.Err? && r.error.MissingField? <==> BuildConfig(cfg).Err?
    ensures BuildConfig(cfg).Err? ==> r == Err(BuildConfig(cfg).error)
    ensures r.Ok? ==> BuildConfig(cfg) == Ok(r.value.0) && lib.construct(r.value.0) == Ok(r.value.1)
    ensures r.Ok? ==> "broker" in r.value.1 && r.value.1["broker"].Obj?
    ensures BuildConfig(cfg).Ok? && lib.construct(BuildConfig(cfg).value).Err? ==>
      r == Err(CreateFailed(lib.construct(BuildConfig(cfg).value).error))
    ensures BuildConfig(cfg).Ok? && lib.construct(BuildConfig(cfg).value).Ok? ==>
      var options := lib.construct(BuildConfig(cfg).value).value;
      && (r.Ok? <==> InjectionCheck(options).Ok?)
      && (InjectionCheck(options).Err? ==> r == Err(CreateFailed(InjectionCheck(options).error)))
  {
    match BuildConfig(cfg)
    case Err(e) => Err(e)
    case Ok(config) =>
      match lib.construct(config)
      case Err(e) => Err(CreateFailed(e))
      case Ok(options) =>
        match InjectionCheck(options)
        case Err(e) => Err(CreateFailed(e))
        case Ok(_) => Ok((config, options))
  }

  /**
   * The injection check is soft: once the library has built a client whose options
   * hold a broker dict, the client is returned even when every id in it is wrong.
   */
  lemma MismatchedIdsStillBuild(cfg: map<string, Value>, lib: Library)
    requires BuildConfig(cfg).Ok? && lib.construct(BuildConfig(cfg).value).Ok?
    requires var options := lib.construct(BuildConfig(cfg).value).value;
      "broker" in options && options["broker"].Obj?
    ensures Construction(cfg, lib) == Ok((BuildConfig(cfg).value, lib.construct(BuildConfig(cfg).value).value))
  {
  }

  /** A library that keeps the options it is given. */
  ghost predicate KeepsOptions(lib: Library) {
    forall config :: lib.construct(config) == Ok(config.options)
  }

  /**
   * With a library that keeps its options, any configuration with both credentials
   * builds a client whose options hold the whole table, segment spot.
   */
  lemma FaithfulConstruction(cfg: map<string, Value>, lib: Library)
    requires KeepsOptions(lib)
    requires Truthy(Lookup(cfg, "api_key", Null)) && Truthy(Lookup(cfg, "secret", Null))
    ensures Construction(cfg, lib).Ok?
    ensures var options := Construction(cfg, lib).value.1;
      && options["defaultType"] == Str("spot")
      && InjectionCheck(options) == Ok([])
  {
    var config := BuildConfig(cfg).value;
    assert lib.construct(config) == Ok(config.options);
    InjectedTableMatches();
    assert config.options["broker"] == BrokerTable();
  }

  /** `create_exchange` (broker.py:29-83). */
  method CreateExchange(cfg: map<string, Value>, lib: Library) returns (r: Result<Exchange, Error>)
    ensures Construction(cfg, lib).Err? ==> r == Err(Construction(cfg, lib).error)
    ensures Construction(cfg, lib).Ok? ==>
      && r.Ok? && fresh(r.value)
      && r.value.config == Construction(cfg, lib).value.0
      && r.value.options == Construction(cfg, lib).value.1
      && r.value.remote == lib.remote
      && r.value.calls == []
  {
    var built := BuildConfig(cfg);
    if built.Err? {
      return Err(built.error);
    }
    var made := lib.construct(built.value);
    if made.Err? {
      return Err(CreateFailed(made.error));
    }
    var exchange := new Exchange(built.value, made.value, lib.remote);
    var verdict := VerifyBrokerInjection(exchange.options);
    if verdict.Err? {
      return Err(CreateFailed(verdict.error));
    }
    r := Ok(exchange);
  }

  /** The default segment `create_exchange_for_market_type` selects (broker.py:176-183). */
  function DefaultTypeFor(marketType: string): (segment: string)
    ensures segment == "future" <==> marketType in {"future", "futures", "swap"}
    ensures segment == "delivery" <==> marketType in {"delivery", "coin"}
    ensures segment == "option" <==> marketType == "option"
    ensures segment == "spot" <==> marketType !in {"future", "futures", "swap", "delivery", "coin", "option"}
  {
    if marketType in {"future", "futures", "swap"} then "future"
    else if marketType in {"delivery", "coin"} then "delivery"
    else if marketType == "option" then "option"
    else "spot"
  }

  /** Every segment a market type selects has a broker id, and margin and inverse fall back to spot. */
  lemma SelectedSegmentHasBrokerId(marketType: string)
    ensures DefaultTypeFor(marketType) in BrokerInfo()
    ensures DefaultTypeFor("margin") == "spot" && DefaultTypeFor("inverse") == "spot"
  {
  }

  /** `create_exchange_for_market_type` (broker.py:157-186). */
  method CreateExchangeForMarketType(cfg: map<string, Value>, marketType: string, lib: Library)
    returns (r: Result<Exchange, Error>)
    ensures Construction(cfg, lib).Err? ==> r == Err(Construction(cfg, lib).error)
    ensures Construction(cfg, lib).Ok? ==>
      && r.Ok? && fresh(r.value)
      && r.value.config == Construction(cfg, lib).value.0
      && r.value.options == Construction(cfg, lib).value.1["defaultType" := Str(DefaultTypeFor(marketType))]
      && r.value.remote == lib.remote
      && r.value.calls == []
  {
    r := CreateExchange(cfg, lib);
    if r.Ok? {
      r.value.SelectSegment(DefaultTypeFor(marketType));
    }
  }

  /** The `account_info` part of the self-test report. */
  datatype AccountInfo = AccountInfo(currencies: seq<string>, totalCurrencies: nat)

  /** `test_result` of `test_exchange_connection` (broker.py:115-121). */
  datatype ConnectionReport = ConnectionReport(
    success: bool,
    error: Option<Error>,
    serverTime: Value,
    accountInfo: Option<AccountInfo>,
    brokerInjected: bool)

  /**
   * `test_exchange_connection` (broker.py:104-155): never raises. A failed public
   * time fetch only leaves `serverTime` null; a failed private balance fetch sets
   * `error` and returns before `brokerInjected` is set.
   */
  method TestConnection(cfg: map<string, Value>, lib: Library) returns (report: ConnectionReport)
    ensures Construction(cfg, lib).Err? ==>
      report == ConnectionReport(false, Some(Construction(cfg, lib).error), Null, None, false)
    ensures Construction(cfg, lib).Ok? ==>
      var (config, options) := Construction(cfg, lib).value;
      var timeCall := Call(options, FetchTime);
      var time := lib.remote(config, [timeCall]);
      var balance := lib.remote(config, [timeCall, Call(options, FetchBalance(map[]))]);
      && report.serverTime == (if time.Ok? then time.value else Null)
      && (report.success <==> balance.Ok? && balance.value.Obj?)
      && (report.success ==>
            && report.error == None
            && report.accountInfo == Some(AccountInfo(Take(Keys(balance.value.entries), 5), |balance.value.entries|)))
      && (!report.success ==> report.error.Some? && report.accountInfo == None)
      && (balance.Err? ==> report.error == Some(balance.error))
    ensures report.success <==> report.brokerInjected
  {
    report := ConnectionReport(false, None, Null, None, false);
    var created := CreateExchange(cfg, lib);
    if created.Err? {
      report := report.(error := Some(created.error));
      return;
    }
    var exchange := created.value;
    ghost var timeCall := Call(exchange.options, FetchTime);
    var time := exchange.Invoke(FetchTime);
    assert exchange.calls == [timeCall];
    if time.Ok? {
      report := report.(serverTime := time.value);
    }
    var balance := exchange.Invoke(FetchBalance(map[]));
    assert exchange.calls == [timeCall, Call(exchange.options, FetchBalance(map[]))];
    if balance.Err? {
      report := report.(error := Some(balance.error));
      return;
    }
    if !balance.value.Obj? {
      report := report.(error := Some(Other("the balance has no keys method")));
      return;
    }
    var entries := balance.value.entries;
    report := report.(accountInfo := Some(AccountInfo(Take(Keys(entries), 5), |entries|)));
    report := report.(brokerInjected := "broker" in exchange.options, success := true);
  }
}
