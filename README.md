# binance-mcp: credential registry, exchange factory and tool layer

This project is a Dafny model of the core of `binance-mcp`, an MCP server that lets an agent trade on
Binance through ccxt across several accounts. The core has three parts:

- **Account registry** (`ConfigManager`, `binance_mcp/config.py`). This is a table from account id to a
  stored record. A record's `api_key` and `secret` are kept only as Fernet tokens. The table also holds
  the server settings, and every mutation rewrites the configuration file.
- **Exchange factory** (`BinanceExchangeFactory`, `binance_mcp/broker.py`). It checks credentials and
  builds the ccxt client configuration. Every client gets the fixed broker-id table, one entry per market
  segment. The factory also runs a soft check that the client kept the table, maps a market type to a
  default segment, and runs a connection self-test that never raises.
- **Tool layer** (`BinanceMCPTools`, `binance_mcp/tools.py`). It keeps a memoised cache from account id
  to client. A tool selects a segment by assigning `options['defaultType']`, forwards its arguments to
  one client call, and passes the outcome through `handle_ccxt_error`.

Modules:

- **`Wrappers`:** `Option`, `Result`, `Outcome`.
- **`Json`:** Python values, with dicts as ordered entry lists.
- **`Errors`:** the exceptions raised. Each constructor names the Python class it stands for.
- **`Cipher`:** a transparent stand-in for Fernet. A token is the version, the key, a nonce and the
  plaintext. A token decrypts under its own key and under no other.
- **`Config`:** the registry.
  - `ConfigManager` is a class. Its fields are the table's key order, the records and the server
    settings, plus a ghost `persisted` snapshot of the file.
  - `Valid()` states that the file holds exactly the in-memory state after every operation.
- **`Ccxt`:** the client surface.
  - The library's constructor and the remote exchange are parameters (`Library`).
  - An `Exchange` object holds its mutable `options` and a log of every call, each call recorded with
    the options in force when it was made.
- **`Broker`:** the factory.
- **`Tools`:** the tool class.
  - Every account tool is specified by the two-state predicate `Dispatched`. The client comes from the
    cache or is built exactly as `_get_exchange` does. The segment is assigned first. Then exactly one
    call carrying the tool's arguments is logged with the options then in force. The reply passes
    through `HandleCcxtError`.
  - The three market-data tools are specified by `MarketData`: they use the first account in listing
    order.

Parameters and choices:

- Timestamps (`now`) and Fernet's random IVs (`keyNonce`, `secretNonce`) are parameters.
- The file is given to the registry's constructor as an optional snapshot. A missing file gives the
  default configuration.
- A consequence visible in `GetExchange`'s contract: a cached client is reused even after its account
  was removed or updated. Only `ClearExchangeCache` drops it.

Facts about the code that the model keeps:

- **Persistence:** the configuration file is rewritten in place, with no temp file and rename.
- **Error classes:** the errors are plain `ValueError`, `RuntimeError` and `KeyError`, plus ccxt errors
  passed through unchanged. There is no dedicated exception hierarchy.
- **Open orders:** `get_open_orders` (tools.py:306) passes its `params` dict as the second positional
  argument of `fetch_open_orders`. In ccxt's signature that slot is `since`, not `params`. The model
  records the call exactly as the tool makes it (`FetchOpenOrders(symbolFilter, params)`).
- **One call per tool:** every tool forwards to exactly one client call. There is no unified-account
  balance normalisation, no multi-step transfer and no position-close tool.

## Model

| member | source | states |
|---|---|---|
| Cipher.Encrypt | binance_mcp/config.py:90-92 | the token differs from the plaintext and decrypts back to it under the same key |
| Cipher.Decrypt | binance_mcp/config.py:94-100 | every failure to decrypt is the single RuntimeError `DecryptFailed` |
| Cipher.OnlyTokensDecrypt | binance_mcp/config.py:94-100 | whatever decrypts under a key is a token made by `Encrypt` under that key |
| Cipher.ForeignTokenFails | binance_mcp/config.py:94-100 | a token made under another key fails to decrypt |
| Config.Seal | binance_mcp/config.py:116-117 | a stored secret is a string other than the plaintext and unseals back to it |
| Config.Unseal | binance_mcp/config.py:147-148 | a missing secret field raises KeyError; a stored token of the key always decrypts, to its plaintext; anything else raises `DecryptFailed` |
| Config.NewRecord | binance_mcp/config.py:115-121 | the new record has exactly the five fields: encrypted key and secret that decrypt back, the sandbox flag, the description and the creation time |
| Config.PublicFields | binance_mcp/config.py:151-154 | every non-secret field is copied verbatim and no secret field is copied |
| Config.AccountView | binance_mcp/config.py:138-156 | unknown id gives ValueError; then a key error, then a secret error, in that order; on success the view has the record's fields, decrypted key and secret, and every other field verbatim |
| Config.PublicEntry | binance_mcp/config.py:162-166 | an entry has exactly description, sandbox and created_at, with "" defaults; it never holds a secret; a record without sandbox raises KeyError |
| Config.Listing | binance_mcp/config.py:158-167 | the listing succeeds iff every record has a sandbox flag; entry i belongs to the i-th id in table order |
| Config.Usable | binance_mcp/config.py:275-282 | an account validates iff it exists and both its secrets decrypt to non-empty strings |
| Config.Updated | binance_mcp/config.py:181-192 | each supplied field takes its new value (secrets re-encrypted and unsealing to it); each omitted field keeps its old value; `updated_at` is set; nothing else changes |
| Config.Without | binance_mcp/config.py:133 | deleting an id from the table's key order keeps exactly the other ids |
| Config.WithoutKeepsDistinct | binance_mcp/config.py:133 | deleting an id keeps the key order free of duplicates |
| Config.WithoutKeepsOrder | binance_mcp/config.py:133 | deleting an id keeps the remaining ids in their insertion order, which decides the first account the market-data tools use |
| Config.ConfigManager.constructor | binance_mcp/config.py:51-75 | without a file the table is empty and the server section is port 9001, host 127.0.0.1, level INFO, and it is written; with a file the state is the file's content |
| Config.ConfigManager.AddAccount | binance_mcp/config.py:102-126 | a duplicate id raises ValueError and changes nothing; otherwise the new record is appended in key order and the file matches memory |
| Config.ConfigManager.RemoveAccount | binance_mcp/config.py:128-136 | an unknown id raises ValueError and changes nothing; otherwise exactly that record is deleted and the file matches memory |
| Config.ConfigManager.GetAccount | binance_mcp/config.py:138-156 | the copy loop over the stored fields yields exactly `AccountView` |
| Config.ConfigManager.ListAccounts | binance_mcp/config.py:158-167 | the loop over the table yields exactly `Listing` |
| Config.ConfigManager.UpdateAccount | binance_mcp/config.py:169-195 | an unknown id raises ValueError and changes nothing; otherwise only that record becomes `Updated`, key order kept, file matches memory |
| Config.ConfigManager.UpdateServerConfig | binance_mcp/config.py:201-205 | the given settings override and every other setting is kept; accounts are untouched |
| Config.ConfigManager.ValidateAccount | binance_mcp/config.py:275-282 | true iff `Usable`, so never true for an unknown id |
| Config.AddThenGet | binance_mcp/config.py:102-156 | after adding, `get_account` returns the plaintext key, secret, sandbox flag, description and creation time |
| Config.OtherViewsUnchanged | binance_mcp/config.py:123 | adding or replacing one record leaves every other account's view unchanged |
| Config.RemoveThenGet | binance_mcp/config.py:128-141 | after removal, `get_account` of that id raises ValueError and all other views are unchanged |
| Config.UpdateThenGet | binance_mcp/config.py:169-195 | after an update the view shows the supplied values; key, secret, sandbox and description keep their old values where not supplied; every other earlier field keeps its value; no field disappears |
| Config.AddedAccountUsable | binance_mcp/config.py:275-282 | a freshly added account validates iff its key and secret are non-empty |
| Config.ListingHidesSecrets | binance_mcp/config.py:158-167 | the listing names exactly the stored ids and never contains a key or secret |
| Ccxt.Exchange.constructor | binance_mcp/broker.py:71 | a new client holds the given configuration and options and has made no call |
| Ccxt.Exchange.SelectSegment | binance_mcp/tools.py:118 | only `defaultType` changes, to the chosen segment |
| Ccxt.Exchange.Invoke | binance_mcp/tools.py:120 | exactly one call is appended to the log with the current options, and the reply is the exchange's answer to the log |
| Broker.BrokerTable | binance_mcp/broker.py:57 | the injected dict has the table's segments in order, each mapped to its broker id |
| Broker.BrokerInfo | binance_mcp/broker.py:99-102 | the seven segments; spot and margin map to C96E9MGA, the rest to eFC56vBf; equal to `BROKER_IDS` |
| Broker.SupportedMarketTypes | binance_mcp/broker.py:188-191 | the seven segments in declaration order (spot, margin, future, delivery, swap, option, inverse), exactly the keys of `get_broker_info` |
| Broker.BuildConfig | binance_mcp/broker.py:44-67 | a falsy api_key, then a falsy secret, raises ValueError; otherwise credentials, sandbox (default false), rate limit on, broker table, segment spot, portfolioMargin (default false), and a password iff a passphrase is stored |
| Broker.Mismatched | binance_mcp/broker.py:91-96 | no more warnings than table entries, and every warning names a segment of the table |
| Broker.MismatchedAtMostOnce | binance_mcp/broker.py:91-96 | no segment is warned about more often than it occurs in the table, so each segment of `BROKER_IDS` at most once |
| Broker.MismatchedExactly | binance_mcp/broker.py:91-96 | a segment is warned about iff its injected id differs from the expected one |
| Broker.InjectionCheck | binance_mcp/broker.py:85-97 | raises iff the options lack the broker dict (or it is not a dict); otherwise the warnings are exactly the mismatched segments |
| Broker.InjectedTableMatches | binance_mcp/broker.py:85-97 | the table the factory injects produces no warning |
| Broker.VerifyBrokerInjection | binance_mcp/broker.py:85-97 | the loop over the table yields exactly `InjectionCheck` |
| Broker.Construction | binance_mcp/broker.py:29-83 | a missing credential raises `BuildConfig`'s ValueError, naming api_key before secret; a library failure raises RuntimeError around that failure; once the library has built a client, construction succeeds iff the injection check does not raise, and otherwise fails with RuntimeError around the check's error; on success the config is `BuildConfig`'s and the options are what the library built |
| Broker.MismatchedIdsStillBuild | binance_mcp/broker.py:85-97 | the injection check is soft: a broker dict with wrong ids still yields the client |
| Broker.FaithfulConstruction | binance_mcp/broker.py:29-97 | with a library that keeps its options, valid credentials always build a spot client whose injection check is clean |
| Broker.CreateExchange | binance_mcp/broker.py:29-83 | a fresh client with exactly the `Construction` config and options and no call made, or `Construction`'s error |
| Broker.DefaultTypeFor | binance_mcp/broker.py:176-183 | future/futures/swap give future; delivery/coin give delivery; option gives option; everything else gives spot |
| Broker.SelectedSegmentHasBrokerId | binance_mcp/broker.py:176-183 | every selected segment has a broker id; margin and inverse fall back to spot |
| Broker.CreateExchangeForMarketType | binance_mcp/broker.py:157-186 | as `CreateExchange` (same config, options, library remote, no call made), with `defaultType` set to `DefaultTypeFor(market_type)` |
| Broker.TestConnection | binance_mcp/broker.py:104-155 | never raises; a build error is reported; a failed time fetch only leaves server_time null; a failed balance fetch is reported as that fetch's error; success iff the balance fetch returns a dict, with its first five currencies and count; broker_injected iff success |
| Tools.HandleCcxtError | binance_mcp/tools.py:24-51 | results and ccxt errors pass through unchanged; every other exception becomes a RuntimeError around it |
| Tools.BalanceSegment | binance_mcp/tools.py:231-237 | future and option select themselves; every other account type selects spot |
| Tools.Resolution | binance_mcp/tools.py:80-83 | building a client is `get_account` then `create_exchange`: a `get_account` error is propagated as is, and otherwise the outcome, success or error, is `create_exchange`'s; an unknown id gives ValueError and no failure is a ccxt error |
| Tools.UsableAccountResolves | binance_mcp/tools.py:80-83 | an account that `validate_account` accepts always yields a client, given a library that keeps its options |
| Tools.ClientFromStoredAccount | binance_mcp/tools.py:80-83 | a built client carries the decrypted credentials, the stored sandbox and portfolio-margin flags (default false), segment spot, and a password iff a passphrase is stored |
| Tools.BuildFailureIsWrapped | binance_mcp/tools.py:43-49 | a failure to build a client reaches the tool's caller as a RuntimeError around the cause, never as a ccxt error |
| Tools.Tools.constructor | binance_mcp/tools.py:57-65 | the cache starts empty |
| Tools.Tools.GetExchange | binance_mcp/tools.py:67-85 | a cached client is returned as is; otherwise a failure leaves the cache unchanged, and a success caches a fresh client built from the stored account |
| Tools.Tools.Dispatch | binance_mcp/tools.py:114-120 | the shared body of an account tool keeps `Dispatched` |
| Tools.Tools.MarketDataCall | binance_mcp/tools.py:351-359 | no account gives a RuntimeError around ValueError; otherwise the first listed account's client serves one call |
| Tools.Tools.CreateSpotOrder | binance_mcp/tools.py:89-120 | segment spot is set before one `create_order` call with the arguments in ccxt order |
| Tools.Tools.CreateFuturesOrder | binance_mcp/tools.py:122-153 | segment future is set before one `create_order` call |
| Tools.Tools.CancelOrder | binance_mcp/tools.py:155-176 | one `cancel_order` call on the account's client, segment unchanged |
| Tools.Tools.EditOrder | binance_mcp/tools.py:178-207 | one `edit_order` call, segment unchanged |
| Tools.Tools.GetBalance | binance_mcp/tools.py:211-239 | the segment is `BalanceSegment(account_type)`, set before one `fetch_balance` call |
| Tools.Tools.GetPositions | binance_mcp/tools.py:241-260 | one `fetch_positions` call, segment unchanged |
| Tools.Tools.GetOrders | binance_mcp/tools.py:262-285 | one `fetch_orders` call, segment unchanged |
| Tools.Tools.GetOpenOrders | binance_mcp/tools.py:287-306 | one `fetch_open_orders` call, segment unchanged |
| Tools.Tools.GetTrades | binance_mcp/tools.py:308-331 | one `fetch_my_trades` call, segment unchanged |
| Tools.Tools.GetTicker | binance_mcp/tools.py:335-359 | `MarketData` for one `fetch_ticker` call |
| Tools.Tools.GetOrderBook | binance_mcp/tools.py:361-386 | `MarketData` for one `fetch_order_book` call |
| Tools.Tools.GetKlines | binance_mcp/tools.py:388-417 | `MarketData` for one `fetch_ohlcv` call |
| Tools.Tools.GetTradingFees | binance_mcp/tools.py:419-436 | one `fetch_trading_fees` call, segment unchanged |
| Tools.Tools.SetLeverage | binance_mcp/tools.py:440-461 | one `set_leverage` call with leverage before symbol |
| Tools.Tools.SetMarginMode | binance_mcp/tools.py:463-484 | one `set_margin_mode` call with the mode before symbol |
| Tools.Tools.TransferFunds | binance_mcp/tools.py:486-511 | one `transfer` call with currency, amount, source and target accounts |
| Tools.Tools.ClearExchangeCache | binance_mcp/tools.py:524-527 | the cache is empty |
| Tools.ReuseThenRebuild | binance_mcp/tools.py:67-85 | a second request reuses the same client; after clearing, the next request builds a fresh client exactly when the account still resolves |

## Left out

- Cipher.Encrypt: models Fernet only as an authenticated, key-bound round trip. Confidentiality, AES, HMAC and base64 are not modelled, and the key and plaintext are visible inside the token.
- Key-file handling (`_get_encryption_key`): the key is a constructor parameter. Generating the key, reading `.key` and its file mode are file I/O.
- Config.ConfigManager.constructor: takes the file's content as a parameter. It assumes the file is well formed, with an ordered account table. The `RuntimeError` for an unreadable or malformed file is not modelled.
- `_save_config` failures: an `IOError` on save leaves the in-memory change applied and raises `RuntimeError`. The model treats every write as successful. The `chmod 0o600` and the JSON layout are file I/O.
- Atomic file replacement: the code does not do it, so the model does not claim it.
- Config.AccountView: returns a `map`, so the key order of the returned dict (key and secret first) is not modelled.
- `get_server_config` and `get_mcp_config` return copies of a section. The `server` field is that value; the `mcp` section is not part of this model.
- `interactive_setup`, `get_config_path` and `backup_config`: console and file I/O.
- `get_available_tools`: reflection over the object's attributes.
- Logging is not modelled. Neither is the error context that `handle_ccxt_error` logs.
- Broker.VerifyBrokerInjection: returns the mismatched segments it would log instead of logging them.
- Broker.TestConnection: the report's error is the exception itself, not `str(e)`.
- The ccxt library is a parameter: its constructor and its remote answers. Network, rate limiting and the exchange's own behaviour are not modelled. Float amounts and prices are passed through as opaque values.
- Concurrency: two callers racing on the client cache or on one client's `defaultType`. The model is sequential.
- Tools.Tools.GetTicker, Tools.Tools.GetOrderBook, Tools.Tools.GetKlines: require the registry's representation invariant. It holds after every registry operation and is what makes "the first account" well defined.
- Unified-account routing, balance normalisation, transfer plans and position close: not part of this code.
- Python default arguments are not modelled. Every model method takes these explicitly: `order_type="limit"`, `price=None`, `account_type="spot"`, `limit=50`/`100`, `timeframe="1h"`, `sandbox=False`, `description=""`, `market_type='spot'`, and `None` for the optional `symbol`, `symbols` and `since` filters.
