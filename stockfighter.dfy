/**
 * The trading client of stockfighter/stockfighter.py: the order-type enum and
 * its wire strings, the client's stored account, the JSON body that `order`
 * builds, and the ticker list that `stocks` extracts from a venue's listing.
 * The HTTP session and every request it sends are outside the model: the
 * decoded response of `stocks` is a parameter, and `Order` returns the body
 * that would be POSTed.
 */
module Stockfighter {
  import opened Wrappers
  import opened Json

  // ---------------------------------------------------------------------------
  // Order types
  // ---------------------------------------------------------------------------

  /** `OrderType`: the four execution policies, in the enum's declaration order. */
  datatype OrderType = Market | Limit | Fok | Ioc {

    /** The enum member's value: market = 1, limit = 2, fok = 3, ioc = 4. */
    function EnumValue(): (n: int)
      ensures n in Conversions
    {
      match this
      case Market => 1
      case Limit => 2
      case Fok => 3
      case Ioc => 4
    }

    /** `str(ordertype)`: the member's value looked up in the conversion table. */
    function ToWire(): (s: string)
      ensures s in Conversions.Values
      ensures s == "market" <==> this == Market
    {
      Conversions[EnumValue()]
    }
  }

  /** The table `OrderType.__str__` consults, keyed by enum value. */
  const Conversions: map<int, string> :=
    map[1 := "market", 2 := "limit", 3 := "fill-or-kill", 4 := "immediate-or-cancel"]

  /**
   * What a caller passes as `ordertype`: an `OrderType` member, or a plain
   * string (the docstring of `order` calls the parameter a `str`).
   */
  datatype OrderTypeArg = Enum(kind: OrderType) | Text(s: string) {

    /** `str(ordertype)`: a string converts to itself. */
    function WireString(): (s: string)
      ensures Enum? ==> s in Conversions.Values
      ensures Text? ==> s == this.s
    {
      match this
      case Enum(kind) => kind.ToWire()
      case Text(s) => s
    }

    /**
     * `ordertype == OrderType.market`: enum comparison is by identity, so no
     * string equals the member, not even "market".
     */
    predicate IsMarket()
      ensures IsMarket() <==> Enum? && kind == Market
      ensures IsMarket() ==> WireString() == "market"
    {
      this == Enum(Market)
    }
  }

  lemma WireStrings()
    ensures Market.ToWire() == "market"
    ensures Limit.ToWire() == "limit"
    ensures Fok.ToWire() == "fill-or-kill"
    ensures Ioc.ToWire() == "immediate-or-cancel"
  {
  }

  /** Distinct order types are sent as distinct strings. */
  lemma ToWireInjective(a: OrderType, b: OrderType)
    ensures a.ToWire() == b.ToWire() <==> a == b
  {
  }

  /** Every wire string is a value of the conversion table, and every value is reached. */
  lemma ToWireOnto(s: string)
    ensures s in Conversions.Values <==> exists t: OrderType :: t.ToWire() == s
  {
    WireStrings();
    if s in Conversions.Values {
      var n :| n in Conversions && Conversions[n] == s;
      var t := if n == 1 then Market else if n == 2 then Limit else if n == 3 then Fok else Ioc;
      assert t.ToWire() == s;
    }
  }

  // ---------------------------------------------------------------------------
  // The order body
  // ---------------------------------------------------------------------------

  /** A JSON object as the client serialises it. */
  type Body = map<string, Value>

  /** The accepted values of `side`. */
  const Sides: set<string> := {"buy", "sell"}

  /** The exception `order` raises for any other side. */
  const WrongSide: Error := KeyError(Str("Wrong order type passed, not buy or sell"))

  /** The keys every order body carries. */
  const FixedKeys: set<string> := {"venue", "stock", "qty", "direction", "orderType"}

  /** Python truthiness of the optional account string: `None` and `''` are false. */
  predicate Truthy(account: Option<string>)
    ensures !Truthy(account) <==> account == None || account == Some("")
  {
    account.Some? && account.value != ""
  }

  /**
   * The body `order` sends, key by key: the five fixed entries carry the
   * caller's arguments and the wire string of the order type; `account`
   * appears exactly when the stored account is truthy and holds it; `price`
   * appears exactly for non-market orders and holds the caller's price as
   * given; there is no other key.
   */
  ghost predicate IsOrderBody(body: Body, account: Option<string>, venue: string, symbol: string,
                              side: string, quantity: int, ordertype: OrderTypeArg, price: Value)
  {
    && body.Keys == FixedKeys
                    + (if Truthy(account) then {"account"} else {})
                    + (if ordertype.IsMarket() then {} else {"price"})
    && body["venue"] == Str(venue)
    && body["stock"] == Str(symbol)
    && body["qty"] == Int(quantity)
    && body["direction"] == Str(side)
    && body["orderType"] == Str(ordertype.WireString())
    && (Truthy(account) ==> body["account"] == Str(account.value))
    && (!ordertype.IsMarket() ==> body["price"] == price)
  }

  /**
   * `order` up to the POST: a side other than "buy" or "sell" raises before
   * anything is built; otherwise the result is the body of IsOrderBody.
   */
  function OrderBody(account: Option<string>, venue: string, symbol: string, side: string,
                     quantity: int, ordertype: OrderTypeArg, price: Value): (r: Result<Body, Error>)
    ensures r.Failure? <==> side !in Sides
    ensures r.Failure? ==> r.error == WrongSide
    ensures r.Success? ==> IsOrderBody(r.value, account, venue, symbol, side, quantity, ordertype, price)
  {
    if side !in Sides then Failure(WrongSide)
    else
      var fixed := map["venue" := Str(venue), "stock" := Str(symbol), "qty" := Int(quantity),
                       "direction" := Str(side), "orderType" := Str(ordertype.WireString())];
      var withAccount := if Truthy(account) then fixed["account" := Str(account.value)] else fixed;
      Success(if ordertype.IsMarket() then withAccount else withAccount["price" := price])
  }

  /** IsOrderBody leaves no freedom: at most one body meets it. */
  lemma IsOrderBodyUnique(b1: Body, b2: Body, account: Option<string>, venue: string, symbol: string,
                          side: string, quantity: int, ordertype: OrderTypeArg, price: Value)
    requires IsOrderBody(b1, account, venue, symbol, side, quantity, ordertype, price)
    requires IsOrderBody(b2, account, venue, symbol, side, quantity, ordertype, price)
    ensures b1 == b2
  {
  }

  /** The key count is 5, 6 or 7, fixed by the account and by whether the order is market. */
  lemma OrderBodySize(body: Body, account: Option<string>, venue: string, symbol: string,
                      side: string, quantity: int, ordertype: OrderTypeArg, price: Value)
    requires IsOrderBody(body, account, venue, symbol, side, quantity, ordertype, price)
    ensures |body| == 5 + (if Truthy(account) then 1 else 0) + (if ordertype.IsMarket() then 0 else 1)
  {
    BodyKeysCount(Truthy(account), ordertype.IsMarket());
  }

  /** The key set of IsOrderBody, counted from whether it has an account and whether the order is market. */
  lemma BodyKeysCount(hasAccount: bool, market: bool)
    ensures |FixedKeys + (if hasAccount then {"account"} else {}) + (if market then {} else {"price"})|
            == 5 + (if hasAccount then 1 else 0) + (if market then 0 else 1)
  {
    FixedKeysCount();
    var withAccount := FixedKeys + if hasAccount then {"account"} else {};
    assert |withAccount| == 5 + if hasAccount then 1 else 0;
  }

  /** The five fixed keys are distinct. */
  lemma FixedKeysCount()
    ensures |FixedKeys| == 5
  {
    var s: set<string> := {};
    assert |s + {"venue"}| == 1;
    s := s + {"venue"};
    assert |s + {"stock"}| == 2;
    s := s + {"stock"};
    assert |s + {"qty"}| == 3;
    s := s + {"qty"};
    assert |s + {"direction"}| == 4;
    s := s + {"direction"};
    assert |s + {"orderType"}| == 5;
    s := s + {"orderType"};
    assert s == FixedKeys;
  }

  /** For a valid side, the body holds the five fixed entries with the caller's values. */
  lemma OrderBodyFixedFields(account: Option<string>, venue: string, symbol: string, side: string,
                             quantity: int, ordertype: OrderTypeArg, price: Value)
    requires side in Sides
    ensures var r := OrderBody(account, venue, symbol, side, quantity, ordertype, price);
      && r.Success?
      && FixedKeys <= r.value.Keys
      && r.value["venue"] == Str(venue) && r.value["stock"] == Str(symbol)
      && r.value["qty"] == Int(quantity) && r.value["direction"] == Str(side)
      && r.value["orderType"] == Str(ordertype.WireString())
  {
  }

  /** `account` is in the body iff the account is truthy, and then it is that account. */
  lemma OrderBodyAccount(account: Option<string>, venue: string, symbol: string, side: string,
                         quantity: int, ordertype: OrderTypeArg, price: Value)
    requires side in Sides
    ensures var body := OrderBody(account, venue, symbol, side, quantity, ordertype, price).value;
      && ("account" in body <==> Truthy(account))
      && ("account" in body ==> body["account"] == Str(account.value))
  {
  }

  /** An empty account string gives the same body, or the same error, as no account. */
  lemma EmptyAccountIsNoAccount(venue: string, symbol: string, side: string,
                                quantity: int, ordertype: OrderTypeArg, price: Value)
    ensures OrderBody(Some(""), venue, symbol, side, quantity, ordertype, price)
         == OrderBody(None, venue, symbol, side, quantity, ordertype, price)
  {
  }

  /** A non-market order carries the caller's price unchanged, `None` included. */
  lemma NonMarketKeepsPrice(account: Option<string>, venue: string, symbol: string, side: string,
                            quantity: int, ordertype: OrderTypeArg, price: Value)
    requires side in Sides && !ordertype.IsMarket()
    ensures var body := OrderBody(account, venue, symbol, side, quantity, ordertype, price).value;
      "price" in body && body["price"] == price
  {
  }

  /** A market order has no `price` key, and the price argument does not affect the body. */
  lemma MarketIgnoresPrice(account: Option<string>, venue: string, symbol: string, side: string,
                           quantity: int, p1: Value, p2: Value)
    requires side in Sides
    ensures "price" !in OrderBody(account, venue, symbol, side, quantity, Enum(Market), p1).value
    ensures OrderBody(account, venue, symbol, side, quantity, Enum(Market), p1)
         == OrderBody(account, venue, symbol, side, quantity, Enum(Market), p2)
  {
  }

  /** The plain string "market" is not the enum member, so the order still carries a price. */
  lemma MarketStringKeepsPrice(account: Option<string>, venue: string, symbol: string, side: string,
                               quantity: int, price: Value)
    requires side in Sides
    ensures var body := OrderBody(account, venue, symbol, side, quantity, Text("market"), price).value;
      && body["orderType"] == Str("market")
      && "price" in body && body["price"] == price
  {
  }

  // ---------------------------------------------------------------------------
  // The client
  // ---------------------------------------------------------------------------

  /** The root every endpoint path is resolved against. */
  const BaseUrl: string := "https://api.stockfighter.io/ob/api/"

  /** `Stockfighter`: the API key, the base URL and the optional account of one client. */
  class Stockfighter {
    const apiKey: string
    const baseUrl: string
    var account: Option<string>

    /** `Stockfighter(api_key, account=None)`: only a truthy account is kept. */
    constructor (apiKey: string, account: Option<string> := None)
      ensures this.apiKey == apiKey && baseUrl == BaseUrl
      ensures this.account == if Truthy(account) then account else None
    {
      this.apiKey := apiKey;
      this.baseUrl := BaseUrl;
      this.account := None;
      if Truthy(account) {
        this.account := account;
      }
    }

    /**
     * `order(venue, symbol, side, quantity, ordertype, price=None)` up to the
     * POST: validates the side, then builds the body entry by entry.
     */
    method Order(venue: string, symbol: string, side: string, quantity: int,
                 ordertype: OrderTypeArg, price: Value := Null) returns (r: Result<Body, Error>)
      ensures r.Failure? <==> side !in Sides
      ensures r.Failure? ==> r.error == WrongSide
      ensures r.Success? ==> IsOrderBody(r.value, account, venue, symbol, side, quantity, ordertype, price)
      ensures r == OrderBody(account, venue, symbol, side, quantity, ordertype, price)
    {
      if side !in Sides {
        return Failure(WrongSide);
      }
      var order: Body := map["venue" := Str(venue), "stock" := Str(symbol), "qty" := Int(quantity),
                             "direction" := Str(side), "orderType" := Str(ordertype.WireString())];
      if Truthy(account) {
        order := order["account" := Str(account.value)];
      }
      if !ordertype.IsMarket() {
        order := order["price" := price];
      }
      return Success(order);
    }
  }

  // ---------------------------------------------------------------------------
  // Stock listing
  // ---------------------------------------------------------------------------

  /** A decoded HTTP response: its success flag and its JSON body. */
  datatype Response = Response(ok: bool, body: Value)

  /**
   * `[elem['symbol'] for elem in records]`: the `symbol` entry of every
   * record in order, or the exception of the first record that has none.
   */
  function Tickers(records: seq<Value>): (r: Result<seq<Value>, Error>)
    ensures r.Success? <==> forall i :: 0 <= i < |records| ==> Get(records[i], "symbol").Success?
    ensures r.Success? ==> |r.value| == |records|
    ensures r.Success? ==> forall i :: 0 <= i < |records| ==> r.value[i] == Get(records[i], "symbol").value
    ensures r.Failure? ==> exists i :: 0 <= i < |records| && FirstMissing(records, i)
                                        && r.error == Get(records[i], "symbol").error
  {
    if records == [] then Success([])
    else
      match Get(records[0], "symbol")
      case Failure(e) => Failure(e)
      case Success(ticker) =>
        match Tickers(records[1..])
        case Failure(e) => Failure(e)
        case Success(rest) => Success([ticker] + rest)
  }

  /** Record `i` is the first whose `symbol` lookup raises. */
  ghost predicate FirstMissing(records: seq<Value>, i: int)
    requires 0 <= i < |records|
  {
    && Get(records[i], "symbol").Failure?
    && forall j :: 0 <= j < i ==> Get(records[j], "symbol").Success?
  }

  /**
   * The comprehension over `response.json()['symbols']`: a list is mapped
   * element by element; iterating a dict or a string yields strings, which
   * cannot be subscripted by 'symbol', so only an empty one gives `[]`; any
   * other value is not iterable.
   */
  function Symbols(listing: Value): (r: Result<seq<Value>, Error>)
    ensures listing.Array? ==> r == Tickers(listing.items)
    ensures !listing.Array? ==> (r.Success? <==> listing == Object(map[]) || listing == Str(""))
    ensures !listing.Array? && r.Success? ==> r.value == []
    ensures !listing.Array? && r.Failure? ==> r.error == TypeError
  {
    match listing
    case Array(items) => Tickers(items)
    case Object(fields) => if fields == map[] then Success([]) else Failure(TypeError)
    case Str(s) => if s == "" then Success([]) else Failure(TypeError)
    case _ => Failure(TypeError)
  }

  /**
   * `stocks(venue)` after the GET: on success the tickers of the listing;
   * otherwise `KeyError` carrying the body's `error` entry.
   */
  function Stocks(response: Response): (r: Result<seq<Value>, Error>)
    ensures !response.ok ==> r.Failure?
    ensures !response.ok && Get(response.body, "error").Success? ==>
              r.error == KeyError(response.body.fields["error"])
    ensures r.Success? ==> response.ok && Get(response.body, "symbols").Success?
  {
    if response.ok then
      match Get(response.body, "symbols")
      case Success(listing) => Symbols(listing)
      case Failure(e) => Failure(e)
    else
      match Get(response.body, "error")
      case Success(message) => Failure(KeyError(message))
      case Failure(e) => Failure(e)
  }

  /** A successful listing of symbol records yields their tickers, in order, one per record. */
  lemma StocksReturnsSymbols(response: Response, records: seq<Value>)
    requires response.ok && response.body.Object?
    requires "symbols" in response.body.fields && response.body.fields["symbols"] == Array(records)
    requires forall i :: 0 <= i < |records| ==> records[i].Object? && "symbol" in records[i].fields
    ensures Stocks(response).Success?
    ensures |Stocks(response).value| == |records|
    ensures forall i :: 0 <= i < |records| ==> Stocks(response).value[i] == records[i].fields["symbol"]
  {
  }

  /** `{symbols: [{symbol: "A"}, {symbol: "B"}]}` lists exactly "A" then "B". */
  lemma StocksExample()
    ensures Stocks(Response(true, Object(map["symbols" := Array([
              Object(map["symbol" := Str("A")]), Object(map["symbol" := Str("B")])])])))
            == Success([Str("A"), Str("B")])
  {
    var a, b := Object(map["symbol" := Str("A")]), Object(map["symbol" := Str("B")]);
    var records := [a, b];
    assert Get(records[0], "symbol") == Success(Str("A"));
    assert Get(records[1], "symbol") == Success(Str("B"));
    var r := Tickers(records);
    assert r.Success? && r.value[0] == Str("A") && r.value[1] == Str("B");
    assert r.value == [Str("A"), Str("B")];
  }

  /** An ok response whose `symbols` is a non-empty dict raises `TypeError`: its keys are strings. */
  lemma StocksDictListing()
    ensures Stocks(Response(true, Object(map["symbols" := Object(map["x" := Null])]))) == Failure(TypeError)
  {
    var listing := Object(map["x" := Null]);
    assert "x" in listing.fields;
    assert Symbols(listing) == Failure(TypeError);
  }

  /** A failed listing with `{error: "bad venue"}` raises `KeyError("bad venue")`. */
  lemma StocksErrorExample()
    ensures Stocks(Response(false, Object(map["error" := Str("bad venue")])))
            == Failure(KeyError(Str("bad venue")))
  {
  }
}
