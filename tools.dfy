/**
 * The tool layer (`BinanceMCPTools`, binance_mcp/tools.py): a memoised cache from
 * account id to exchange client, tools that select a segment by assigning
 * `options['defaultType']` and forward their arguments to the client, and the
 * `handle_ccxt_error` wrapper around every tool.
 */
module Tools {
  import opened Wrappers
  import opened Errors
  import opened Json
  import opened Ccxt
  import Cipher
  import Broker
  import Config

  /**
   * `handle_ccxt_error` (tools.py:24-51) applied to what a tool body returned or
   * raised: a ccxt error passes through unchanged, any other exception becomes a
   * RuntimeError around it.
   */
  function HandleCcxtError(outcome: Reply): (r: Reply)
    ensures outcome.Ok? ==> r == outcome
    ensures outcome.Err? && outcome.error.Ccxt? ==> r == outcome
    ensures outcome.Err? && !outcome.error.Ccxt? ==> r == Err(ToolFailed(outcome.error))
    ensures r.Err? ==> r.error.Ccxt? || (r.error.ToolFailed? && r.error.IsRuntimeError())
  {
    match outcome
    case Ok(_) => outcome
    case Err(Ccxt(_)) => outcome
    case Err(e) => Err(ToolFailed(e))
  }

  /** The segment `get_balance` selects (tools.py:231-237). */
  function BalanceSegment(accountType: string): (segment: string)
    ensures segment == "future" <==> accountType == "future"
    ensures segment == "option" <==> accountType == "option"
    ensures segment == "spot" <==> accountType != "future" && accountType != "option"
  {
    if accountType == "future" then "future"
    else if accountType == "option" then "option"
    else "spot"
  }

  /** The options after a tool's optional segment assignment. */
  function Selected(options: map<string, Value>, segment: Option<string>): map<string, Value> {
    if segment.Some? then options["defaultType" := Str(segment.value)] else options
  }

  /**
   * What building a client for `id` yields in `_get_exchange` (tools.py:80-83):
   * `get_account`, then `create_exchange` on the decrypted view.
   */
  function Resolution(key: Cipher.Key, accounts: map<string, Config.Record>, id: string, lib: Library)
    : (r: Result<(ExchangeConfig, map<string, Value>), Error>)
    ensures r.Err? ==>
      r.error.AccountNotFound? || r.error.KeyMissing? || r.error == DecryptFailed
      || r.error.MissingField? || r.error.CreateFailed?
    ensures id !in accounts ==> r == Err(AccountNotFound(id))
    ensures Config.AccountView(key, accounts, id).Err? ==> r == Err(Config.AccountView(key, accounts, id).error)
    ensures (Config.AccountView(key, accounts, id).Ok?
             && Broker.Construction(Config.AccountView(key, accounts, id).value, lib).Err?) ==>
      r == Broker.Construction(Config.AccountView(key, accounts, id).value, lib)
    ensures r.Ok? ==>
      && Config.AccountView(key, accounts, id).Ok?
      && Broker.Construction(Config.AccountView(key, accounts, id).value, lib) == r
  {
    match Config.AccountView(key, accounts, id)
    case Err(e) => Err(e)
    case Ok(view) => Broker.Construction(view, lib)
  }

  /**
   * An account that `validate_account` accepts always yields a client, given a
   * library that keeps the options it is given.
   */
  lemma UsableAccountResolves(key: Cipher.Key, accounts: map<string, Config.Record>, id: string, lib: Library)
    requires Config.Usable(key, accounts, id)
    requires Broker.KeepsOptions(lib)
    ensures Resolution(key, accounts, id, lib).Ok?
  {
    var view := Config.AccountView(key, accounts, id).value;
    Broker.FaithfulConstruction(view, lib);
  }

  /**
   * A client built for a stored account carries the decrypted credentials, the
   * stored sandbox and portfolio-margin flags (default false) and a password
   * exactly when a passphrase is stored.
   */
  lemma ClientFromStoredAccount(key: Cipher.Key, accounts: map<string, Config.Record>, id: string, lib: Library)
    requires Resolution(key, accounts, id, lib).Ok?
    ensures id in accounts
    ensures var rec := accounts[id];
      var config := Resolution(key, accounts, id, lib).value.0;
      && config.apiKey == Str(Config.Unseal(key, rec, Config.ApiKeyField).value)
      && config.secret == Str(Config.Unseal(key, rec, Config.SecretField).value)
      && config.sandbox == Broker.Lookup(rec, "sandbox", Bool(false))
      && config.options["portfolioMargin"] == Broker.Lookup(rec, "portfolio_margin", Bool(false))
      && config.options["defaultType"] == Str("spot")
      && (config.password.Some? <==> "passphrase" in rec)
  {
    var rec := accounts[id];
    var view := Config.AccountView(key, accounts, id).value;
    assert !Config.IsSecret("sandbox") && !Config.IsSecret("portfolio_margin") && !Config.IsSecret("passphrase");
    assert "sandbox" in view <==> "sandbox" in rec;
    assert "portfolio_margin" in view <==> "portfolio_margin" in rec;
    assert "passphrase" in view <==> "passphrase" in rec;
  }

  /**
   * Failing to build a client never looks like an exchange error: it reaches the
   * caller of a tool as a RuntimeError around the cause, an unknown id as one
   * around the ValueError of `get_account`.
   */
  lemma BuildFailureIsWrapped(key: Cipher.Key, accounts: map<string, Config.Record>, id: string, lib: Library)
    requires Resolution(key, accounts, id, lib).Err?
    ensures var e := Resolution(key, accounts, id, lib).error;
      && HandleCcxtError(Err(e)) == Err(ToolFailed(e))
      && (e.IsValueError() || e.IsRuntimeError() || e.KeyMissing?)
    ensures id !in accounts ==>
      HandleCcxtError(Err(Resolution(key, accounts, id, lib).error)) == Err(ToolFailed(AccountNotFound(id)))
  {
  }

  class Tools {
    const registry: Config.ConfigManager
    const lib: Library
    var cache: map<string, Exchange>      // _exchange_cache

    /** `__init__` (tools.py:57-65). */
    constructor (registry: Config.ConfigManager, lib: Library)
      ensures this.registry == registry && this.lib == lib
      ensures cache == map[]
    {
      this.registry := registry;
      this.lib := lib;
      cache := map[];
    }

    function Resolve(id: string): Result<(ExchangeConfig, map<string, Value>), Error>
      reads registry
    {
      Resolution(registry.key, registry.accounts, id, lib)
    }

    /** The cached client of `id`, if any: the only client a tool on `id` may change. */
    function Slot(id: string): set<Exchange>
      reads this
    {
      if id in cache then {cache[id]} else {}
    }

    /** The account market-data tools use: the first in listing order. */
    function FirstAccount(): string
      reads registry
    {
      if registry.order == [] then "" else registry.order[0]
    }

    /**
     * `_get_exchange` (tools.py:67-85): the factory runs only for an id not yet
     * cached; a failure leaves the cache as it was.
     */
    method GetExchange(id: string) returns (r: Result<Exchange, Error>)
      modifies this
      ensures id in old(cache) ==> r == Ok(old(cache)[id]) && cache == old(cache)
      ensures id !in old(cache) && Resolve(id).Err? ==> r == Err(Resolve(id).error) && cache == old(cache)
      ensures id !in old(cache) && Resolve(id).Ok? ==>
        && r.Ok? && fresh(r.value)
        && cache == old(cache)[id := r.value]
        && r.value.config == Resolve(id).value.0
        && r.value.options == Resolve(id).value.1
        && r.value.remote == lib.remote
        && r.value.calls == []
    {
      if id !in cache {
        var account := registry.GetAccount(id);
        if account.Err? {
          return Err(account.error);
        }
        var created := Broker.CreateExchange(account.value, lib);
        if created.Err? {
          return Err(created.error);
        }
        cache := cache[id := created.value];
      }
      r := Ok(cache[id]);
    }

    /**
     * The contract every account tool keeps: the client of `id` is found or built
     * as `_get_exchange` does, the segment (if any) is assigned, then exactly one
     * call carrying `request` is made with the options then in force, and the
     * outcome goes through `handle_ccxt_error`.
     */
    twostate predicate Dispatched(id: string, segment: Option<string>, request: Request, new r: Reply)
      reads this, registry, Slot(id)
    {
      if id !in old(cache) && Resolve(id).Err? then
        cache == old(cache) && r == HandleCcxtError(Err(Resolve(id).error))
      else
        id in cache &&
        var e := cache[id];
        && cache == old(cache)[id := e]
        && (id in old(cache) ==> e == old(cache[id]))
        && (id !in old(cache) ==> fresh(e) && e.config == Resolve(id).value.0 && e.remote == lib.remote)
        && e.options == Selected(if id in old(cache) then old(cache[id].options) else Resolve(id).value.1, segment)
        && e.calls == (if id in old(cache) then old(cache[id].calls) else []) + [Call(e.options, request)]
        && r == HandleCcxtError(e.remote(e.config, e.calls))
    }

    method Dispatch(id: string, segment: Option<string>, request: Request) returns (r: Reply)
      modifies this, Slot(id)
      ensures Dispatched(id, segment, request, r)
    {
      var found := GetExchange(id);
      if found.Err? {
        return HandleCcxtError(Err(found.error));
      }
      var exchange := found.value;
      if segment.Some? {
        exchange.SelectSegment(segment.value);
      }
      var reply := exchange.Invoke(request);
      r := HandleCcxtError(reply);
    }

    /**
     * The contract of the market-data tools (tools.py:351-357): the first listed
     * account's client serves the call; with no account, ValueError, wrapped.
     */
    twostate predicate MarketData(request: Request, new r: Reply)
      requires Config.Ordered(registry.order, registry.accounts)
      reads this, registry, Slot(FirstAccount())
    {
      match Config.Listing(registry.order, registry.accounts)
      case Err(e) => cache == old(cache) && r == Err(ToolFailed(e))
      case Ok(listed) =>
        if listed == [] then cache == old(cache) && r == Err(ToolFailed(NoAccounts))
        else Dispatched(listed[0].0, None, request, r)
    }

    method MarketDataCall(request: Request) returns (r: Reply)
      requires registry.Valid()
      modifies this, Slot(FirstAccount())
      ensures MarketData(request, r)
    {
      var listed := registry.ListAccounts();
      if listed.Err? {
        return HandleCcxtError(Err(listed.error));
      }
      if listed.value == [] {
        return HandleCcxtError(Err(NoAccounts));
      }
      r := Dispatch(listed.value[0].0, None, request);
    }

    /** `create_spot_order` (tools.py:89-120). */
    method CreateSpotOrder(id: string, symbol: string, side: string, amount: Value, orderType: string,
                           price: Value, params: Params) returns (r: Reply)
      modifies this, Slot(id)
      ensures Dispatched(id, Some("spot"), CreateOrder(symbol, orderType, side, amount, price, params), r)
    {
      r := Dispatch(id, Some("spot"), CreateOrder(symbol, orderType, side, amount, price, params));
    }

    /** `create_futures_order` (tools.py:122-153). */
    method CreateFuturesOrder(id: string, symbol: string, side: string, amount: Value, orderType: string,
                              price: Value, params: Params) returns (r: Reply)
      modifies this, Slot(id)
      ensures Dispatched(id, Some("future"), CreateOrder(symbol, orderType, side, amount, price, params), r)
    {
      r := Dispatch(id, Some("future"), CreateOrder(symbol, orderType, side, amount, price, params));
    }

    /** `cancel_order` (tools.py:155-176). */
    method CancelOrder(id: string, orderId: string, symbol: string, params: Params) returns (r: Reply)
      modifies this, Slot(id)
      ensures Dispatched(id, None, Ccxt.CancelOrder(orderId, symbol, params), r)
    {
      r := Dispatch(id, None, Ccxt.CancelOrder(orderId, symbol, params));
    }

    /** `edit_order` (tools.py:178-207). */
    method EditOrder(id: string, orderId: string, symbol: string, orderType: string, side: string,
                     amount: Value, price: Value, params: Params) returns (r: Reply)
      modifies this, Slot(id)
      ensures Dispatched(id, None, Ccxt.EditOrder(orderId, symbol, orderType, side, amount, price, params), r)
    {
      r := Dispatch(id, None, Ccxt.EditOrder(orderId, symbol, orderType, side, amount, price, params));
    }

    /** `get_balance` (tools.py:211-239). */
    method GetBalance(id: string, accountType: string, params: Params) returns (r: Reply)
      modifies this, Slot(id)
      ensures Dispatched(id, Some(BalanceSegment(accountType)), FetchBalance(params), r)
    {
      r := Dispatch(id, Some(BalanceSegment(accountType)), FetchBalance(params));
    }

    /** `get_positions` (tools.py:241-260). */
    method GetPositions(id: string, symbols: Option<seq<string>>, params: Params) returns (r: Reply)
      modifies this, Slot(id)
      ensures Dispatched(id, None, FetchPositions(symbols, params), r)
    {
      r := Dispatch(id, None, FetchPositions(symbols, params));
    }

    /** `get_orders` (tools.py:262-285). */
    method GetOrders(id: string, symbol: Option<string>, since: Option<int>, limit: int, params: Params)
      returns (r: Reply)
      modifies this, Slot(id)
      ensures Dispatched(id, None, FetchOrders(symbol, since, limit, params), r)
    {
      r := Dispatch(id, None, FetchOrders(symbol, since, limit, params));
    }

    /** `get_open_orders` (tools.py:287-306). */
    method GetOpenOrders(id: string, symbol: Option<string>, params: Params) returns (r: Reply)
      modifies this, Slot(id)
      ensures Dispatched(id, None, FetchOpenOrders(symbol, params), r)
    {
      r := Dispatch(id, None, FetchOpenOrders(symbol, params));
    }

    /** `get_trades` (tools.py:308-331). */
    method GetTrades(id: string, symbol: Option<string>, since: Option<int>, limit: int, params: Params)
      returns (r: Reply)
      modifies this, Slot(id)
      ensures Dispatched(id, None, FetchMyTrades(symbol, since, limit, params), r)
    {
      r := Dispatch(id, None, FetchMyTrades(symbol, since, limit, params));
    }

    /** `get_ticker` (tools.py:335-359). */
    method GetTicker(symbol: string, params: Params) returns (r: Reply)
      requires registry.Valid()
      modifies this, Slot(FirstAccount())
      ensures MarketData(FetchTicker(symbol, params), r)
    {
      r := MarketDataCall(FetchTicker(symbol, params));
    }

    /** `get_order_book` (tools.py:361-386). */
    method GetOrderBook(symbol: string, limit: int, params: Params) returns (r: Reply)
      requires registry.Valid()
      modifies this, Slot(FirstAccount())
      ensures MarketData(FetchOrderBook(symbol, limit, params), r)
    {
      r := MarketDataCall(FetchOrderBook(symbol, limit, params));
    }

    /** `get_klines` (tools.py:388-417). */
    method GetKlines(symbol: string, timeframe: string, since: Option<int>, limit: int, params: Params)
      returns (r: Reply)
      requires registry.Valid()
      modifies this, Slot(FirstAccount())
      ensures MarketData(FetchOhlcv(symbol, timeframe, since, limit, params), r)
    {
      r := MarketDataCall(FetchOhlcv(symbol, timeframe, since, limit, params));
    }

    /** `get_trading_fees` (tools.py:419-436). */
    method GetTradingFees(id: string, params: Params) returns (r: Reply)
      modifies this, Slot(id)
      ensures Dispatched(id, None, FetchTradingFees(params), r)
    {
      r := Dispatch(id, None, FetchTradingFees(params));
    }

    /** `set_leverage` (tools.py:440-461). */
    method SetLeverage(id: string, symbol: string, leverage: Value, params: Params) returns (r: Reply)
      modifies this, Slot(id)
      ensures Dispatched(id, None, Ccxt.SetLeverage(leverage, symbol, params), r)
    {
      r := Dispatch(id, None, Ccxt.SetLeverage(leverage, symbol, params));
    }

    /** `set_margin_mode` (tools.py:463-484). */
    method SetMarginMode(id: string, symbol: string, marginMode: string, params: Params) returns (r: Reply)
      modifies this, Slot(id)
      ensures Dispatched(id, None, Ccxt.SetMarginMode(marginMode, symbol, params), r)
    {
      r := Dispatch(id, None, Ccxt.SetMarginMode(marginMode, symbol, params));
    }

    /** `transfer_funds` (tools.py:486-511). */
    method TransferFunds(id: string, currency: string, amount: Value, fromAccount: string, toAccount: string,
                         params: Params) returns (r: Reply)
      modifies this, Slot(id)
      ensures Dispatched(id, None, Transfer(currency, amount, fromAccount, toAccount, params), r)
    {
      r := Dispatch(id, None, Transfer(currency, amount, fromAccount, toAccount, params));
    }

    /** `clear_exchange_cache` (tools.py:524-527). */
    method ClearExchangeCache()
      modifies this
      ensures cache == map[]
    {
      cache := map[];
    }
  }

  /**
   * A client of the cache: asking twice for one id gives the same client without
   * building again; after the cache is cleared the next request builds a new one.
   */
  method ReuseThenRebuild(tools: Tools, id: string)
    returns (first: Result<Exchange, Error>, second: Result<Exchange, Error>, third: Result<Exchange, Error>)
    modifies tools
    ensures first.Ok? ==> second == first
    ensures third.Ok? <==> tools.Resolve(id).Ok?
    ensures first.Ok? && third.Ok? ==> fresh(third.value) && third.value != first.value
    ensures tools.cache.Keys == if third.Ok? then {id} else {}
  {
    first := tools.GetExchange(id);
    second := tools.GetExchange(id);
    tools.ClearExchangeCache();
    third := tools.GetExchange(id);
  }
}
