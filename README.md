# Stockfighter trading client — order body and ticker listing

A model of the domain logic in the Python client for the Stockfighter.io
trading API (`stockfighter/stockfighter.py`):

- **Order types.** `OrderType` is a four-member enum (market = 1, limit = 2,
  fok = 3, ioc = 4). Its `str()` looks the member's value up in a conversion
  table: "market", "limit", "fill-or-kill", "immediate-or-cancel".
- **The client's account.** `Stockfighter(api_key, account=None)` keeps the
  account only when it is truthy. An empty string is stored as `None`.
- **The order body.** `order(venue, symbol, side, quantity, ordertype, price)`
  raises `KeyError` unless `side` is "buy" or "sell". Otherwise it builds a
  JSON object with `venue`, `stock`, `qty`, `direction` and `orderType`. It
  adds `account` when the stored account is truthy. It adds `price` for every
  order type except `OrderType.market`.
- **Ticker listing.** `stocks(venue)` returns the `symbol` entry of each
  record in the response's `symbols` list. On a failed response it raises
  `KeyError` with the body's `error` entry.

Files:

- `wrappers.dfy`: `Option` and `Result`.
- `json.dfy`: decoded JSON values, the `KeyError`/`TypeError` exceptions, and
  Python's `v[key]` on a decoded value.
- `stockfighter.dfy`: the enum, the `Stockfighter` class with its constructor
  and `Order` method, the pure `OrderBody` function, the `IsOrderBody`
  specification, the listing functions, and the lemmas.

Where the code and its comments disagree, the model follows the code:

- The docstring of `order` says the price is converted to an int. Line 145
  stores the caller's `price` unchanged, so the model passes it through as an
  opaque JSON value. There is no ×100 and no truncation.
- The comment at line 143 says a `KeyError` is thrown when a non-market order
  has no price. Nothing throws: `price` defaults to `None`, and `"price": null`
  is put in the body.
- The docstring calls `ordertype` a `str`. `str()` of a string is the string
  itself, but no string equals `OrderType.market`. So an order passed the
  plain string "market" still carries a `price` key. `OrderTypeArg` models
  both kinds of argument, and `MarketStringKeepsPrice` states this behaviour.

`IsOrderBody` gives the body key by key. `IsOrderBodyUnique` shows that it
leaves no freedom. The `Order` method ensures that it returns exactly
`OrderBody` of the stored account, so every lemma about `OrderBody` holds of
the method.

## Model

| member | source | states |
|---|---|---|
| `Stockfighter.OrderType.EnumValue` | stockfighter/stockfighter.py:11-25 | each enum member's value is a key of the conversion table, so `str()` never raises |
| `Stockfighter.OrderType.ToWire` | stockfighter/stockfighter.py:17-25 | `str()` of a member is one of the table's strings, and it is "market" exactly for the market member |
| `Stockfighter.OrderTypeArg.WireString` | stockfighter/stockfighter.py:137 | `str(ordertype)`: an enum member gives one of the table's strings, a string gives itself |
| `Stockfighter.OrderTypeArg.IsMarket` | stockfighter/stockfighter.py:144 | `ordertype` equals `OrderType.market` only when it is that enum member, never a string; such an order is sent as "market" |
| `Stockfighter.Truthy` | stockfighter/stockfighter.py:140 | an optional account string is falsy exactly when it is `None` or `''` |
| `Json.Get` | stockfighter/stockfighter.py:86-88 | `v[key]` yields the entry iff `v` is a dict holding `key`; a dict without it raises `KeyError(key)`, any other value `TypeError` |
| `Stockfighter.WireStrings` | stockfighter/stockfighter.py:17-25 | market → "market", limit → "limit", fok → "fill-or-kill", ioc → "immediate-or-cancel" |
| `Stockfighter.ToWireInjective` | stockfighter/stockfighter.py:21-25 | two order types have the same wire string iff they are the same type |
| `Stockfighter.ToWireOnto` | stockfighter/stockfighter.py:21-25 | a string is a value of the conversion table iff some order type is sent as it |
| `Stockfighter.OrderBody` | stockfighter/stockfighter.py:130-145 | fails with the wrong-side `KeyError` iff side is not "buy" or "sell"; otherwise yields a body meeting `IsOrderBody` |
| `Stockfighter.Stockfighter.Order` | stockfighter/stockfighter.py:117-145 | the step-by-step construction fails iff the side is invalid, with that error, and otherwise yields the body of `IsOrderBody` for the stored account; its result is exactly `OrderBody` of the stored account |
| `Stockfighter.Stockfighter.constructor` | stockfighter/stockfighter.py:36-42 | stores the API key and base URL; stores the account iff it is truthy, so `''` is never stored |
| `Stockfighter.IsOrderBodyUnique` | stockfighter/stockfighter.py:133-145 | the key set and values of the order body are fully determined by the inputs |
| `Stockfighter.OrderBodySize` | stockfighter/stockfighter.py:133-145 | the body has 5, 6 or 7 keys: 5 plus one for a truthy account plus one for a non-market order |
| `Stockfighter.OrderBodyFixedFields` | stockfighter/stockfighter.py:133-138 | for a valid side, venue, stock, qty, direction and orderType are present with the caller's values and the order type's wire string |
| `Stockfighter.OrderBodyAccount` | stockfighter/stockfighter.py:140-141 | `account` is a key iff the account is truthy, and its value is that account |
| `Stockfighter.EmptyAccountIsNoAccount` | stockfighter/stockfighter.py:140-141 | an empty account string yields the same body, or the same error, as no account |
| `Stockfighter.NonMarketKeepsPrice` | stockfighter/stockfighter.py:143-145 | a non-market order carries `price` holding the caller's value unchanged, `None` included |
| `Stockfighter.MarketIgnoresPrice` | stockfighter/stockfighter.py:143-145 | a market order has no `price` key, and its body does not depend on the price argument |
| `Stockfighter.MarketStringKeepsPrice` | stockfighter/stockfighter.py:137-145 | the plain string "market" is sent as "market" yet still gets a `price` key |
| `Stockfighter.Tickers` | stockfighter/stockfighter.py:86 | succeeds iff every record has a `symbol` entry; the result has one ticker per record, in order; otherwise the error is that of the first record without one |
| `Stockfighter.Symbols` | stockfighter/stockfighter.py:86 | a list listing gives its records' tickers; an empty dict or empty string gives `[]`; any other non-list raises `TypeError` |
| `Stockfighter.StocksDictListing` | stockfighter/stockfighter.py:86 | an ok response whose `symbols` is the dict `{x: null}` raises `TypeError` |
| `Stockfighter.Stocks` | stockfighter/stockfighter.py:84-88 | a failed response always raises, with `KeyError` of the body's `error` entry when there is one; success needs an ok response with a `symbols` entry |
| `Stockfighter.StocksReturnsSymbols` | stockfighter/stockfighter.py:85-86 | an ok response whose `symbols` list holds symbol records yields their `symbol` entries, same length, same order |
| `Stockfighter.StocksExample` | stockfighter/stockfighter.py:86 | `{symbols: [{symbol: "A"}, {symbol: "B"}]}` lists exactly "A", "B" |
| `Stockfighter.StocksErrorExample` | stockfighter/stockfighter.py:87-88 | a failed response `{error: "bad venue"}` raises `KeyError("bad venue")` |

## Left out

- HTTP transport: the `requests.Session`, the `X-Starfighter-Authorization` header, every GET and POST, `response.ok` and `response.json()`. These are foreign library calls and network I/O. The decoded response of `stocks` is a parameter (`Response`), and `Order` returns the body it would POST.
- `Stockfighter.Stockfighter.Order`: returns the request body, not `response.json()` of the POST. The model does not say what the server answers, nor that `order` returns that answer even on an HTTP failure.
- URL building (`urljoin`, `partial`, the endpoint path templates). This is library semantics with nothing to state.
- `heartbeat`, `venue_heartbeat`, `orderbook`, `quote`, `order_status` and `cancel_order`. Each is a request plus a status check that returns the decoded JSON or raises.
- `stockfighter/gamemaster.py` and `stockfighter/__init__.py`. These are request wrappers and re-exports only.
- Dynamic typing: `venue`, `symbol` and `side` are strings, `quantity` is an integer, the account is an optional string, and `ordertype` is an `OrderType` member or a string. Python accepts any value there; for example `ordertype=1` is sent as "1" and, not being `OrderType.market`, gets a price. The price is any JSON value and is never inspected.
- Iteration order of a JSON object: iterating a non-empty dict or string under `symbols` always raises `TypeError`, so only emptiness matters and the order is not modelled.
