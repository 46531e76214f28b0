/**
 * The surface of the `ccxt.binance` client the core uses. The library's
 * constructor and the remote exchange are opaque: they are supplied as
 * functions. The client keeps its mutable `options` dict and a log of every call
 * made through it, each with the options in force at the moment of the call.
 */
module Ccxt {
  import opened Wrappers
  import opened Errors
  import opened Json

  /** The configuration dict `create_exchange` passes to `ccxt.binance(...)`. */
  datatype ExchangeConfig = ExchangeConfig(
    apiKey: Value,
    secret: Value,
    sandbox: Value,
    enableRateLimit: bool,
    options: map<string, Value>,
    password: Option<Value>)

  /** One call on the client, with its arguments in the order the client receives them. */
  datatype Request =
    | CreateOrder(symbol: string, orderType: string, side: string, amount: Value, price: Value, params: Params)
    | CancelOrder(orderId: string, symbol: string, params: Params)
    | EditOrder(orderId: string, symbol: string, orderType: string, side: string, amount: Value, price: Value,
                params: Params)
    | FetchBalance(params: Params)
    | FetchPositions(symbols: Option<seq<string>>, params: Params)
    | FetchOrders(symbolFilter: Option<string>, since: Option<int>, limit: int, params: Params)
    | FetchOpenOrders(symbolFilter: Option<string>, params: Params)
    | FetchMyTrades(symbolFilter: Option<string>, since: Option<int>, limit: int, params: Params)
    | FetchTicker(symbol: string, params: Params)
    | FetchOrderBook(symbol: string, limit: int, params: Params)
    | FetchOhlcv(symbol: string, timeframe: string, since: Option<int>, limit: int, params: Params)
    | FetchTradingFees(params: Params)
    | SetLeverage(leverage: Value, symbol: string, params: Params)
    | SetMarginMode(marginMode: string, symbol: string, params: Params)
    | Transfer(currency: string, amount: Value, fromAccount: string, toAccount: string, params: Params)
    | FetchTime

  /** A request together with the client's options when it was made. */
  datatype Call = Call(options: map<string, Value>, request: Request)

  /** What a call returns, or the exception it raises. */
  type Reply = Result<Value, Error>

  /**
   * The opaque library: what `ccxt.binance(config)` leaves in the client's
   * options (or raises), and how the exchange answers the n-th call given all calls
   * so far.
   */
  datatype Library = Library(
    construct: ExchangeConfig -> Result<map<string, Value>, Error>,
    remote: (ExchangeConfig, seq<Call>) -> Reply)

  class Exchange {
    const config: ExchangeConfig
    const remote: (ExchangeConfig, seq<Call>) -> Reply
    var options: map<string, Value>
    var calls: seq<Call>

    constructor (config: ExchangeConfig, options: map<string, Value>, remote: (ExchangeConfig, seq<Call>) -> Reply)
      ensures this.config == config && this.options == options && this.remote == remote
      ensures calls == []
    {
      this.config := config;
      this.options := options;
      this.remote := remote;
      calls := [];
    }

    /** `exchange.options['defaultType'] = segment`. */
    method SelectSegment(segment: string)
      modifies this`options
      ensures options == old(options)["defaultType" := Str(segment)]
    {
      options := options["defaultType" := Str(segment)];
    }

    /** Any library call: it is logged with the current options and answered by the exchange. */
    method Invoke(request: Request) returns (r: Reply)
      modifies this`calls
      ensures calls == old(calls) + [Call(options, request)]
      ensures r == remote(config, calls)
    {
      calls := calls + [Call(options, request)];
      r := remote(config, calls);
    }
  }
}
