/** The Bidesk order book data source (`bidesk_api_order_book_data_source.py`). */
module BideskDataSource {
  import opened Wrappers
  import opened Json
  import opened Http
  import opened PyRuntime
  import opened Dicts
  import opened UrlEncoding
  import opened Streams
  import Strings
  import PairGrammar
  import U = BideskUtils
  import A = BideskAuth
  import R = BideskRestFul

  const TickerPricePath := "/openapi/quote/v1/ticker/price"
  const DepthPath := "/openapi/quote/v1/depth"
  /** The `limit` of every depth request. */
  const DepthLimit := 100
  /** Seconds between reconnects of the trade and the diff listeners after an error. */
  const TradeBackoff: real := 5.0
  const DiffBackoff: real := 30.0
  /** Seconds the snapshot poller sleeps after each pair, whether its fetch failed or not. */
  const SnapshotPause: real := 5.0

  /** The data sources use an unauthenticated client, which never reads the clock or signs. */
  const NoSigning: A.Hmac := (key: seq<byte>, msg: seq<byte>) => []

  /** An unsigned request as `BideskRestFul()` sends it, classified as `request` does. */
  function Unsigned(restUrl: string, path: string, items: seq<(string, Param)>, transport: R.Transport): Result<Json, PyError> {
    var url := restUrl + path + "/?" + Urlencode(items);
    match transport(GET, url, [])
    case Failure(e) => Failure(e)
    case Success(resp) => R.Classify(GET, url, resp)
  }

  /** `BideskRestFul().get(path, data)` on a fresh dict holding `items`. */
  method GetUnsigned(restUrl: string, path: string, items: seq<(string, Param)>, transport: R.Transport)
    returns (r: Result<Json, PyError>)
    requires DistinctKeys(items)
    ensures r == Unsigned(restUrl, path, items, transport)
  {
    var api := new R.RestFul(restUrl, None);
    var data := new Dict<Param>(items);
    r := api.Get(path, data, 0.0, NoSigning, transport);
  }

  // ---------------------------------------------------------------- get_prices

  /**
   The entry one ticker item contributes: its symbol without dashes and its
   `price`. `item.get` on a non-dict and `.replace` on a symbol that is not
   a string raise `AttributeError`.
   */
  function PriceEntry(item: Json): (r: Result<(string, Json), PyError>)
    ensures r.Failure? ==> r.error == AttributeError
    ensures r.Success? <==> item.JObj? && GetOrNull(item.fields, "symbol").JStr?
    ensures r.Success? ==> r.value == (U.ConvertToExchangeTradingPair(GetOrNull(item.fields, "symbol").s),
                                       GetOrNull(item.fields, "price"))
  {
    if !item.JObj? then Failure(AttributeError)
    else match GetOrNull(item.fields, "symbol")
      case JStr(s) => Success((U.ConvertToExchangeTradingPair(s), GetOrNull(item.fields, "price")))
      case _ => Failure(AttributeError)
  }

  /** The `result` dict after the loop has seen `items`. */
  function PriceTable(items: seq<Json>): (r: Result<seq<(string, Json)>, PyError>)
    decreases |items|
  {
    if |items| == 0 then Success([])
    else
      var front := items[..|items| - 1];
      match PriceTable(front)
      case Failure(e) => Failure(e)
      case Success(t) =>
        match PriceEntry(items[|items| - 1])
        case Failure(e) => Failure(e)
        case Success(kv) => Success(Set(t, kv.0, kv.1))
  }

  /** The table is built exactly when every item yields an entry. */
  lemma PriceTableSucceeds(items: seq<Json>)
    ensures PriceTable(items).Success? <==> forall i :: 0 <= i < |items| ==> PriceEntry(items[i]).Success?
  {
    if PriceTable(items).Success? {
      forall i | 0 <= i < |items| ensures PriceEntry(items[i]).Success? {
        PriceTableEntry(items, i);
      }
    } else if forall i :: 0 <= i < |items| ==> PriceEntry(items[i]).Success? {
      PriceTableBuilt(items);
    }
  }

  /** A built table means every item yielded its entry. */
  lemma {:induction false} PriceTableEntry(items: seq<Json>, i: nat)
    requires PriceTable(items).Success? && i < |items|
    ensures PriceEntry(items[i]).Success?
    decreases |items|
  {
    PriceTableStep(items);
    if i < |items| - 1 {
      var front := items[..|items| - 1];
      assert front[i] == items[i];
      PriceTableEntry(front, i);
    }
  }

  /** Every item yielding its entry means the table is built. */
  lemma {:induction false} PriceTableBuilt(items: seq<Json>)
    requires forall i :: 0 <= i < |items| ==> PriceEntry(items[i]).Success?
    ensures PriceTable(items).Success?
    decreases |items|
  {
    if |items| > 0 {
      var front := items[..|items| - 1];
      forall i | 0 <= i < |front| ensures PriceEntry(front[i]).Success? {
        assert front[i] == items[i];
      }
      PriceTableBuilt(front);
      PriceTableStep(items);
    }
  }

  /** One more item keeps the table built exactly when its own entry is. */
  lemma PriceTableStep(items: seq<Json>)
    requires |items| > 0
    ensures PriceTable(items).Success? <==>
            PriceTable(items[..|items| - 1]).Success? && PriceEntry(items[|items| - 1]).Success?
  {
  }

  /** A reference reading of the table: the price of the last item listing `key`. */
  function LastPrice(items: seq<Json>, key: string): Option<Json>
    decreases |items|
  {
    if |items| == 0 then None
    else
      var last := PriceEntry(items[|items| - 1]);
      if last.Success? && last.value.0 == key then Some(last.value.1)
      else LastPrice(items[..|items| - 1], key)
  }

  /**
   The table holds each key once, no key holds a dash, and a key's price is
   the one of the last item that lists it: later items overwrite earlier ones.
   */
  lemma {:induction false} PriceTableLastWins(items: seq<Json>, key: string)
    requires PriceTable(items).Success?
    ensures DistinctKeys(PriceTable(items).value)
    ensures forall k :: k in Keys(PriceTable(items).value) ==> '-' !in k
    ensures Get(PriceTable(items).value, key) == LastPrice(items, key)
    decreases |items|
  {
    if |items| > 0 {
      var front := items[..|items| - 1];
      PriceTableLastWins(front, key);
      var t := PriceTable(front).value;
      var kv := PriceEntry(items[|items| - 1]).value;
      SetGet(t, kv.0, kv.1, key);
      SetDistinct(t, kv.0, kv.1);
    }
  }

  /**
   `get_prices()`: a failed request propagates; otherwise the response is
   iterated into a dict whose keys are distinct dash-free symbols.
   */
  function Prices(restUrl: string, transport: R.Transport): (r: Result<seq<(string, Json)>, PyError>)
    ensures Unsigned(restUrl, TickerPricePath, [], transport).Failure? ==>
      r == Failure(Unsigned(restUrl, TickerPricePath, [], transport).error)
    ensures r.Success? ==> DistinctKeys(r.value) && forall k :: k in Keys(r.value) ==> '-' !in k
  {
    match Unsigned(restUrl, TickerPricePath, [], transport)
    case Failure(e) => Failure(e)
    case Success(response) =>
      match Iterate(response)
      case Failure(e) => Failure(e)
      case Success(items) =>
        if PriceTable(items).Success? then PriceTableLastWins(items, ""); PriceTable(items)
        else PriceTable(items)
  }

  /** `get_prices()`: requests the ticker and builds the dict item by item. */
  method GetPrices(restUrl: string, transport: R.Transport) returns (r: Result<seq<(string, Json)>, PyError>)
    ensures r == Prices(restUrl, transport)
  {
    var response := GetUnsigned(restUrl, TickerPricePath, [], transport);
    if response.Failure? {
      return Failure(response.error);
    }
    var items := Iterate(response.value);
    if items.Failure? {
      return Failure(items.error);
    }
    r := BuildPriceTable(items.value);
  }

  /** The `for item in response` loop. */
  method BuildPriceTable(xs: seq<Json>) returns (r: Result<seq<(string, Json)>, PyError>)
    ensures r == PriceTable(xs)
  {
    var result: seq<(string, Json)> := [];
    for i := 0 to |xs|
      invariant PriceTable(xs[..i]) == Success(result)
    {
      assert xs[..i + 1][..i] == xs[..i];
      var entry := PriceEntry(xs[i]);
      if entry.Failure? {
        assert PriceTable(xs[..i + 1]) == Failure(entry.error);
        PriceTableFails(xs, i + 1);
        return Failure(entry.error);
      }
      result := Set(result, entry.value.0, entry.value.1);
    }
    assert xs[..|xs|] == xs;
    r := Success(result);
  }

  /** A failure part-way through the table is the failure of the whole table. */
  lemma {:induction false} PriceTableFails(items: seq<Json>, n: nat)
    requires n <= |items| && PriceTable(items[..n]).Failure?
    ensures PriceTable(items) == PriceTable(items[..n])
    decreases |items| - n
  {
    if n < |items| {
      assert items[..n + 1][..n] == items[..n];
      PriceTableFails(items, n + 1);
    } else {
      assert items[..n] == items;
    }
  }

  // ---------------------------------------------------- get_last_traded_prices

  /** The price listed for a pair's exchange symbol, when there is one that is not `null`. */
  predicate Listed(prices: seq<(string, Json)>, pair: string) {
    var p := Get(prices, U.ConvertToExchangeTradingPair(pair));
    p.Some? && p.value != JNull
  }

  /** The `result` of `get_last_traded_prices` after the loop has seen `pairs`. */
  function LastTraded(prices: seq<(string, Json)>, pairs: seq<string>, toFloat: Json -> Result<real, PyError>)
    : (r: Result<seq<(string, real)>, PyError>)
    decreases |pairs|
  {
    if |pairs| == 0 then Success([])
    else
      match LastTraded(prices, pairs[..|pairs| - 1], toFloat)
      case Failure(e) => Failure(e)
      case Success(t) =>
        var pair := pairs[|pairs| - 1];
        if !Listed(prices, pair) then Success(t)
        else
          match toFloat(Get(prices, U.ConvertToExchangeTradingPair(pair)).value)
          case Failure(e) => Failure(e)
          case Success(f) => Success(Set(t, pair, f))
  }

  /**
   A pair is in the result exactly when it was asked for and the ticker lists
   a non-null price for its exchange symbol, and then it maps to that price
   as a float. Nothing else is in the result.
   */
  lemma {:induction false} LastTradedSpec(prices: seq<(string, Json)>, pairs: seq<string>,
                                          toFloat: Json -> Result<real, PyError>, pair: string)
    requires LastTraded(prices, pairs, toFloat).Success?
    ensures pair in Keys(LastTraded(prices, pairs, toFloat).value) <==> pair in pairs && Listed(prices, pair)
    ensures pair in pairs && Listed(prices, pair) ==>
      var p := Get(prices, U.ConvertToExchangeTradingPair(pair)).value;
      toFloat(p).Success? && Get(LastTraded(prices, pairs, toFloat).value, pair) == Some(toFloat(p).value)
    decreases |pairs|
  {
    if |pairs| > 0 {
      var front := pairs[..|pairs| - 1];
      var last := pairs[|pairs| - 1];
      assert pairs == front + [last];
      assert LastTraded(prices, front, toFloat).Success?;
      LastTradedSpec(prices, front, toFloat, pair);
      var t := LastTraded(prices, front, toFloat).value;
      if Listed(prices, last) {
        var p := Get(prices, U.ConvertToExchangeTradingPair(last)).value;
        assert toFloat(p).Success?;
        SetGet(t, last, toFloat(p).value, pair);
      }
    }
  }

  /** `get_last_traded_prices(trading_pairs)`: failures of `get_prices` and of `float` propagate. */
  method GetLastTradedPrices(restUrl: string, tradingPairs: seq<string>, toFloat: Json -> Result<real, PyError>,
                             transport: R.Transport) returns (r: Result<seq<(string, real)>, PyError>)
    ensures Prices(restUrl, transport).Failure? ==> r == Failure(Prices(restUrl, transport).error)
    ensures Prices(restUrl, transport).Success? ==> r == LastTraded(Prices(restUrl, transport).value, tradingPairs, toFloat)
  {
    var prices := GetPrices(restUrl, transport);
    if prices.Failure? {
      return Failure(prices.error);
    }
    r := BuildLastTraded(prices.value, tradingPairs, toFloat);
  }

  /** The `for trading_pair in trading_pairs` loop. */
  method BuildLastTraded(prices: seq<(string, Json)>, tradingPairs: seq<string>, toFloat: Json -> Result<real, PyError>)
    returns (r: Result<seq<(string, real)>, PyError>)
    ensures r == LastTraded(prices, tradingPairs, toFloat)
  {
    var result: seq<(string, real)> := [];
    for i := 0 to |tradingPairs|
      invariant LastTraded(prices, tradingPairs[..i], toFloat) == Success(result)
    {
      assert tradingPairs[..i + 1][..i] == tradingPairs[..i];
      var exch := U.ConvertToExchangeTradingPair(tradingPairs[i]);
      var p := Get(prices, exch);
      if p.None? || p.value == JNull {
        continue;
      }
      var f := toFloat(p.value);
      if f.Failure? {
        LastTradedFails(prices, tradingPairs, toFloat, i + 1);
        return Failure(f.error);
      }
      result := Set(result, tradingPairs[i], f.value);
    }
    assert tradingPairs[..|tradingPairs|] == tradingPairs;
    r := Success(result);
  }

  lemma {:induction false} LastTradedFails(prices: seq<(string, Json)>, pairs: seq<string>,
                                           toFloat: Json -> Result<real, PyError>, n: nat)
    requires n <= |pairs| && LastTraded(prices, pairs[..n], toFloat).Failure?
    ensures LastTraded(prices, pairs, toFloat) == LastTraded(prices, pairs[..n], toFloat)
    decreases |pairs| - n
  {
    if n < |pairs| {
      assert pairs[..n + 1][..n] == pairs[..n];
      LastTradedFails(prices, pairs, toFloat, n + 1);
    } else {
      assert pairs[..n] == pairs;
    }
  }

  // ------------------------------------------------------- fetch_trading_pairs

  /**
   `fetch_trading_pairs()`: the ticker's symbols, without dashes and each
   once; any failure other than cancellation gives the empty list.
   */
  method FetchTradingPairs(restUrl: string, transport: R.Transport) returns (r: Result<seq<string>, PyError>)
    ensures r.Failure? ==> r.error == CancelledError
    ensures r.Failure? <==> Prices(restUrl, transport) == Failure(CancelledError)
    ensures Prices(restUrl, transport).Success? ==> r == Success(Keys(Prices(restUrl, transport).value))
    ensures Prices(restUrl, transport).Failure? && Prices(restUrl, transport).error != CancelledError ==>
      r == Success([])
  {
    var prices := GetPrices(restUrl, transport);
    match prices {
      case Success(t) =>
        r := Success(Keys(t));
      case Failure(e) =>
        r := if e == CancelledError then Failure(e) else Success([]);
    }
  }

  // ------------------------------------------------------- get_order_book_data

  /** The parameters of a depth request for a pair. */
  function DepthItems(tradingPair: string): seq<(string, Param)> {
    [("symbol", PStr(U.ConvertToExchangeTradingPair(tradingPair))), ("limit", PInt(DepthLimit))]
  }

  /**
   `get_order_book_data(trading_pair)`: any failure that is not a
   cancellation is an `IOError` naming the pair.
   */
  function OrderBookData(restUrl: string, tradingPair: string, transport: R.Transport): (r: Result<Json, PyError>)
    ensures r.Failure? ==> r.error == CancelledError || (r.error.IOError? && r.error.detail.OrderBookFetch? &&
                                                          r.error.detail.tradingPair == tradingPair)
  {
    match Unsigned(restUrl, DepthPath, DepthItems(tradingPair), transport)
    case Success(j) => Success(j)
    case Failure(CancelledError) => Failure(CancelledError)
    case Failure(e) => Failure(IOError(OrderBookFetch(tradingPair, e)))
  }

  /**
   The depth response, or its failure: any failure other than cancellation is
   wrapped in an `IOError` naming the pair, a cancellation passes through.
   */
  lemma OrderBookDataSpec(restUrl: string, tradingPair: string, transport: R.Transport)
    ensures var u := Unsigned(restUrl, DepthPath, DepthItems(tradingPair), transport);
      var r := OrderBookData(restUrl, tradingPair, transport);
      (r.Success? <==> u.Success?) &&
      (u.Success? ==> r == u) &&
      (u.Failure? ==> r.error == if u.error == CancelledError then CancelledError else IOError(OrderBookFetch(tradingPair, u.error)))
  {
  }

  /** The depth query string: the exchange symbol, then a limit of 100. */
  lemma DepthQuery(tradingPair: string)
    ensures Urlencode(DepthItems(tradingPair)) ==
      "symbol=" + QuotePlus(U.ConvertToExchangeTradingPair(tradingPair)) + "&limit=100"
  {
    var sym := U.ConvertToExchangeTradingPair(tradingPair);
    assert DepthItems(tradingPair) == [("symbol", PStr(sym))] + [("limit", PInt(100))];
    UrlencodeAppend([("symbol", PStr(sym))], "limit", PInt(100));
    SymbolPair(sym);
    LimitPair();
    var head := "symbol=" + QuotePlus(sym);
    assert head + "&" + "limit=100" == head + "&limit=100";
  }

  lemma SymbolPair(sym: string)
    ensures Urlencode([("symbol", PStr(sym))]) == "symbol=" + QuotePlus(sym)
  {
    SymbolKey();
    SafeKeyPair("symbol", sym);
    assert "symbol" + "=" == "symbol=";
  }

  lemma SafeKeyPair(k: string, v: string)
    requires QuotePlus(k) == k
    ensures Urlencode([(k, PStr(v))]) == k + "=" + QuotePlus(v)
  {
    UrlencodeSingle(k, PStr(v));
  }

  lemma SymbolKey()
    ensures QuotePlus("symbol") == "symbol"
  {
    var s := "symbol";
    assert forall i :: 0 <= i < |s| ==> 'a' <= s[i] <= 'z';
    QuotePlusOfSafe(s);
  }

  lemma LimitPair()
    ensures EncodePair("limit", PInt(100)) == "limit=100"
  {
    QuotePlusOfSafe("limit");
    assert Strings.IntToString(100) == "100";
    QuotePlusOfSafe("100");
  }

  method GetOrderBookData(restUrl: string, tradingPair: string, transport: R.Transport) returns (r: Result<Json, PyError>)
    ensures r == OrderBookData(restUrl, tradingPair, transport)
  {
    var response := GetUnsigned(restUrl, DepthPath, DepthItems(tradingPair), transport);
    match response {
      case Success(j) =>
        r := Success(j);
      case Failure(e) =>
        r := if e == CancelledError then Failure(e) else Failure(IOError(OrderBookFetch(tradingPair, e)));
    }
  }

  // ------------------------------------------------------ WebSocket listeners

  /** The exchange symbols of the tracked pairs, in order. */
  function ExchangeSymbols(pairs: seq<string>): (r: seq<string>)
    ensures |r| == |pairs|
    ensures forall i :: 0 <= i < |pairs| ==> r[i] == U.ConvertToExchangeTradingPair(pairs[i])
  {
    seq(|pairs|, i requires 0 <= i < |pairs| => U.ConvertToExchangeTradingPair(pairs[i]))
  }

  /** The subscription `emit`ted on each connection. */
  function Subscription(topic: string, sep: string, pairs: seq<string>): Json {
    JObj([("symbol", JStr(Strings.Join(sep, ExchangeSymbols(pairs)))), ("topic", JStr(topic)),
          ("event", JStr("sub")), ("params", JObj([("binary", JBool(false))]))])
  }

  /** The trade subscription: the `trade` topic, the symbols joined by `", "`. */
  function TradeSubscription(pairs: seq<string>): (r: Json)
    ensures r.JObj? && Keys(r.fields) == ["symbol", "topic", "event", "params"]
    ensures GetOrNull(r.fields, "topic") == JStr("trade") && GetOrNull(r.fields, "event") == JStr("sub")
    ensures GetOrNull(r.fields, "params") == JObj([("binary", JBool(false))])
    ensures GetOrNull(r.fields, "symbol") == JStr(Strings.Join(", ", ExchangeSymbols(pairs)))
  {
    SubscriptionFields("trade", ", ", pairs);
    Subscription("trade", ", ", pairs)
  }

  /** The depth subscription: the `depth` topic, the symbols joined by `","`. */
  function DepthSubscription(pairs: seq<string>): (r: Json)
    ensures r.JObj? && Keys(r.fields) == ["symbol", "topic", "event", "params"]
    ensures GetOrNull(r.fields, "topic") == JStr("depth") && GetOrNull(r.fields, "event") == JStr("sub")
    ensures GetOrNull(r.fields, "params") == JObj([("binary", JBool(false))])
    ensures GetOrNull(r.fields, "symbol") == JStr(Strings.Join(",", ExchangeSymbols(pairs)))
  {
    SubscriptionFields("depth", ",", pairs);
    Subscription("depth", ",", pairs)
  }

  /** The four keys of a subscription, each looked up at its own position. */
  lemma SubscriptionFields(topic: string, sep: string, pairs: seq<string>)
    ensures var f := Subscription(topic, sep, pairs).fields;
      Keys(f) == ["symbol", "topic", "event", "params"] &&
      GetOrNull(f, "symbol") == JStr(Strings.Join(sep, ExchangeSymbols(pairs))) &&
      GetOrNull(f, "topic") == JStr(topic) && GetOrNull(f, "event") == JStr("sub") &&
      GetOrNull(f, "params") == JObj([("binary", JBool(false))])
  {
    var f := Subscription(topic, sep, pairs).fields;
    assert Keys(f) == ["symbol", "topic", "event", "params"];
    assert IndexOf(f, "symbol") == 0;
    assert IndexOf(f, "topic") == 1;
    assert IndexOf(f, "event") == 2;
    assert IndexOf(f, "params") == 3;
  }

  /**
   The depth subscription lists the exchange symbol of every tracked pair, in
   order: splitting its `symbol` on `,` gives them back, provided no pair
   name holds a comma.
   */
  lemma DepthSubscriptionLists(pairs: seq<string>)
    requires |pairs| > 0 && forall i :: 0 <= i < |pairs| ==> ',' !in pairs[i]
    ensures Strings.SplitOn(GetOrNull(DepthSubscription(pairs).fields, "symbol").s, ',') == ExchangeSymbols(pairs)
    ensures GetOrNull(DepthSubscription(pairs).fields, "topic") == JStr("depth")
  {
    var syms := ExchangeSymbols(pairs);
    forall i | 0 <= i < |syms| ensures ',' !in syms[i] {
      if ',' in syms[i] {
        U.ConvertToAddsNothing(pairs[i], ',');
      }
    }
    Strings.SplitJoin(syms, ',');
    var fields := DepthSubscription(pairs).fields;
    assert Keys(fields) == ["symbol", "topic", "event", "params"];
    assert IndexOf(fields, "symbol") == 0;
    assert IndexOf(fields, "topic") == 1;
  }

  /**
   What a refused connection becomes: `connect` logs and swallows any
   `Exception`, so the failure surfaces as the `AttributeError` of `emit` on
   the missing client; a cancellation is not an `Exception` and goes through.
   */
  function Refusal(e: PyError): (r: PyError)
    ensures r == CancelledError <==> e == CancelledError
    ensures r != CancelledError ==> r == AttributeError
  {
    if e == CancelledError then CancelledError else AttributeError
  }

  /** `ms_timestamp_to_s` applied to a decoded value: numbers and booleans are accepted. */
  function MsToS(t: Json): (r: Result<int, PyError>)
    ensures t.JNum? ==> r == Success(U.MsTimestampToS(t.n))
    ensures t.JBool? ==> r == Success(0)
    ensures !t.JNum? && !t.JBool? ==> r == Failure(TypeError)
  {
    match t
    case JNum(n) => Success(U.MsTimestampToS(n))
    case JBool(b) => Success(U.MsTimestampToS(if b then 1 else 0))
    case _ => Failure(TypeError)
  }

  /** `message.get("data", list())`, iterated. */
  function DataEntries(fields: seq<(string, Json)>): (r: Result<seq<Json>, PyError>)
    ensures "data" !in Keys(fields) ==> r == Success([])
    ensures Lookup(fields, "data").Some? ==> r == Iterate(Lookup(fields, "data").value)
  {
    match Lookup(fields, "data")
    case None => Success([])
    case Some(d) => Iterate(d)
  }

  /** The pair named by a message's `symbol`, or `None` when it does not split. */
  function PairOf(fields: seq<(string, Json)>): Json {
    StrOrNull(U.ConvertFromExchangeTradingPair(GetOrNull(fields, "symbol")))
  }

  /** One trade of a `trade` message: its `t` in milliseconds becomes whole seconds. */
  function TradeEntry(tradingPair: Json, entry: Json): (r: Result<OrderBookMessage, PyError>)
    ensures r.Success? <==> entry.JObj? && MsToS(GetOrNull(entry.fields, "t")).Success?
    ensures !entry.JObj? ==> r == Failure(AttributeError)
    ensures r.Success? ==>
      r.value == OrderBookMessage(TradeKind, entry, MsToS(GetOrNull(entry.fields, "t")).value as real,
                                  [("trading_pair", tradingPair)])
  {
    if !entry.JObj? then Failure(AttributeError)
    else match MsToS(GetOrNull(entry.fields, "t"))
      case Failure(e) => Failure(e)
      case Success(ts) => Success(OrderBookMessage(TradeKind, entry, ts as real, [("trading_pair", tradingPair)]))
  }

  /** One update of a `depth` message, with its `b` and `a` sides copied into the metadata. */
  function DepthEntry(tradingPair: Json, entry: Json): (r: Result<OrderBookMessage, PyError>)
    ensures r.Success? <==> entry.JObj? && MsToS(GetOrNull(entry.fields, "t")).Success?
    ensures !entry.JObj? ==> r == Failure(AttributeError)
    ensures r.Success? ==>
      r.value == OrderBookMessage(DiffKind, entry, MsToS(GetOrNull(entry.fields, "t")).value as real,
                                  [("trading_pair", tradingPair), ("bids", GetOrNull(entry.fields, "b")),
                                   ("asks", GetOrNull(entry.fields, "a"))])
  {
    if !entry.JObj? then Failure(AttributeError)
    else match MsToS(GetOrNull(entry.fields, "t"))
      case Failure(e) => Failure(e)
      case Success(ts) =>
        Success(OrderBookMessage(DiffKind, entry, ts as real,
          [("trading_pair", tradingPair), ("bids", GetOrNull(entry.fields, "b")), ("asks", GetOrNull(entry.fields, "a"))]))
  }

  /**
   The body of the trade listener's `async for`: a frame that is not JSON
   raises `ValueError` in `on_message`; a value that is not a dict has no
   `get`; a dict of another topic is skipped; the entries of a `trade`
   message are put one by one.
   */
  function TradeStep(frame: Frame): (r: Step)
    ensures frame.None? ==> r == Step([], Some(ValueError))
    ensures frame.Some? && !frame.value.JObj? ==> r == Step([], Some(AttributeError))
    ensures frame.Some? && frame.value.JObj? && GetOrNull(frame.value.fields, "topic") != JStr("trade") ==>
      r == Step([], None)
    ensures forall m :: m in r.events ==> m.kind == TradeKind
  {
    match frame
    case None => Step([], Some(ValueError))
    case Some(msg) =>
      if !msg.JObj? then Step([], Some(AttributeError))
      else if GetOrNull(msg.fields, "topic") != JStr("trade") then Step([], None)
      else
        var pair := PairOf(msg.fields);
        match DataEntries(msg.fields)
        case Failure(e) => Step([], Some(e))
        case Success(entries) => Expand(entries, entry => TradeEntry(pair, entry))
  }

  /** The body of the diff listener's `async for`, for the `depth` topic. */
  function DepthStep(frame: Frame): (r: Step)
    ensures frame.None? ==> r == Step([], Some(ValueError))
    ensures frame.Some? && !frame.value.JObj? ==> r == Step([], Some(AttributeError))
    ensures frame.Some? && frame.value.JObj? && GetOrNull(frame.value.fields, "topic") != JStr("depth") ==>
      r == Step([], None)
    ensures forall m :: m in r.events ==> m.kind == DiffKind
  {
    match frame
    case None => Step([], Some(ValueError))
    case Some(msg) =>
      if !msg.JObj? then Step([], Some(AttributeError))
      else if GetOrNull(msg.fields, "topic") != JStr("depth") then Step([], None)
      else
        var pair := PairOf(msg.fields);
        match DataEntries(msg.fields)
        case Failure(e) => Step([], Some(e))
        case Success(entries) => Expand(entries, entry => DepthEntry(pair, entry))
  }

  /**
   A well-formed `trade` message for a symbol that splits into a word base
   and a listed quote: one trade message per entry, in order, each carrying
   the entry, its time in whole seconds and the pair `BASE-QUOTE`.
   */
  lemma TradeMessageExpands(fields: seq<(string, Json)>, base: string, quote: string, entries: seq<Json>)
    requires GetOrNull(fields, "topic") == JStr("trade")
    requires GetOrNull(fields, "symbol") == JStr(base + quote) && PairGrammar.IsWord(base) && quote in U.Quotes
    requires Lookup(fields, "data") == Some(JArr(entries))
    requires forall i :: 0 <= i < |entries| ==> entries[i].JObj? && GetOrNull(entries[i].fields, "t").JNum?
    ensures TradeStep(Some(JObj(fields))).failure.None?
    ensures |TradeStep(Some(JObj(fields))).events| == |entries|
    ensures forall i :: 0 <= i < |entries| ==>
      TradeStep(Some(JObj(fields))).events[i] ==
        OrderBookMessage(TradeKind, entries[i], U.MsTimestampToS(GetOrNull(entries[i].fields, "t").n) as real,
                         [("trading_pair", JStr(base + "-" + quote))])
  {
    U.ToThenFrom(base, quote);
    U.WordHasNoDash(base);
    U.QuotesHaveNoDash(quote);
    U.ConvertToOfJoined(base, quote);
    assert PairOf(fields) == JStr(base + "-" + quote);
  }

  /**
   A well-formed `depth` message for a symbol that splits into a word base
   and a listed quote: one diff message per entry, in order, each carrying
   the entry, its time in whole seconds, the pair `BASE-QUOTE` and the
   entry's `b` and `a` sides.
   */
  lemma DepthMessageExpands(fields: seq<(string, Json)>, base: string, quote: string, entries: seq<Json>)
    requires GetOrNull(fields, "topic") == JStr("depth")
    requires GetOrNull(fields, "symbol") == JStr(base + quote) && PairGrammar.IsWord(base) && quote in U.Quotes
    requires Lookup(fields, "data") == Some(JArr(entries))
    requires forall i :: 0 <= i < |entries| ==> entries[i].JObj? && GetOrNull(entries[i].fields, "t").JNum?
    ensures DepthStep(Some(JObj(fields))).failure.None?
    ensures |DepthStep(Some(JObj(fields))).events| == |entries|
    ensures forall i :: 0 <= i < |entries| ==>
      DepthStep(Some(JObj(fields))).events[i] ==
        OrderBookMessage(DiffKind, entries[i], U.MsTimestampToS(GetOrNull(entries[i].fields, "t").n) as real,
                         [("trading_pair", JStr(base + "-" + quote)), ("bids", GetOrNull(entries[i].fields, "b")),
                          ("asks", GetOrNull(entries[i].fields, "a"))])
  {
    U.ToThenFrom(base, quote);
    U.WordHasNoDash(base);
    U.QuotesHaveNoDash(quote);
    U.ConvertToOfJoined(base, quote);
    assert PairOf(fields) == JStr(base + "-" + quote);
  }

  /** A `trade` or `depth` message without `data` iterates `list()`: it puts nothing and raises nothing. */
  lemma NoDataEmitsNothing(fields: seq<(string, Json)>)
    requires "data" !in Keys(fields)
    ensures GetOrNull(fields, "topic") == JStr("trade") ==> TradeStep(Some(JObj(fields))) == Step([], None)
    ensures GetOrNull(fields, "topic") == JStr("depth") ==> DepthStep(Some(JObj(fields))) == Step([], None)
  {
  }

  // ------------------------------------------------------- snapshot polling

  /** The snapshot message for a pair, stamped with the clock reading after its fetch. */
  function SnapshotMessage(snapshot: Json, timestamp: real, tradingPair: string): OrderBookMessage {
    OrderBookMessage(SnapshotKind, snapshot, timestamp, [("trading_pair", JStr(tradingPair))])
  }

  /** What the poller does: the snapshots put, the sleeps taken, and whether it was cancelled. */
  datatype Poll = Poll(events: seq<OrderBookMessage>, waits: seq<real>, cancelled: bool)

  /**
   The first `p` pairs of round `r` of the poller: each pair's depth is
   fetched and, on success, put as a snapshot stamped with `clock(r, p)`;
   after every pair, fetched or failed, it sleeps 5 seconds; a cancellation
   ends it.
   */
  function RoundUpTo(pairs: seq<string>, r: nat, p: nat, fetch: (nat, string) -> Result<Json, PyError>,
                     clock: (nat, nat) -> real): Poll
    requires p <= |pairs|
  {
    if p == 0 then Poll([], [], false)
    else
      var before := RoundUpTo(pairs, r, p - 1, fetch, clock);
      if before.cancelled then before
      else match fetch(r, pairs[p - 1])
        case Failure(CancelledError) => Poll(before.events, before.waits, true)
        case Failure(_) => Poll(before.events, before.waits + [SnapshotPause], false)
        case Success(snapshot) =>
          Poll(before.events + [SnapshotMessage(snapshot, clock(r, p - 1), pairs[p - 1])],
               before.waits + [SnapshotPause], false)
  }

  /** Round `r`: every pair in turn, then, unless cancelled, the sleep `hourDelay(r)` to the next full hour. */
  function Round(pairs: seq<string>, r: nat, fetch: (nat, string) -> Result<Json, PyError>,
                 clock: (nat, nat) -> real, hourDelay: nat -> real): Poll
  {
    var pass := RoundUpTo(pairs, r, |pairs|, fetch, clock);
    if pass.cancelled then pass else Poll(pass.events, pass.waits + [hourDelay(r)], false)
  }

  /** The first `n` rounds of the `while True` loop, up to a cancellation. */
  function Rounds(pairs: seq<string>, n: nat, fetch: (nat, string) -> Result<Json, PyError>,
                  clock: (nat, nat) -> real, hourDelay: nat -> real): Poll
  {
    if n == 0 then Poll([], [], false)
    else
      var before := Rounds(pairs, n - 1, fetch, clock, hourDelay);
      if before.cancelled then before
      else
        var round := Round(pairs, n - 1, fetch, clock, hourDelay);
        Poll(before.events + round.events, before.waits + round.waits, round.cancelled)
  }

  /** Sleeps of `SnapshotPause` seconds, `k` of them. */
  function Pauses(k: nat): (w: seq<real>)
    ensures |w| == k && forall i :: 0 <= i < k ==> w[i] == SnapshotPause
  {
    seq(k, i => SnapshotPause)
  }

  /**
   Until it is cancelled a round sleeps 5 seconds after every pair, whether
   its fetch failed or not, so one failing pair never skips the others; it
   puts at most one snapshot per pair.
   */
  lemma {:induction false} RoundWaits(pairs: seq<string>, r: nat, p: nat,
                                      fetch: (nat, string) -> Result<Json, PyError>, clock: (nat, nat) -> real)
    requires p <= |pairs|
    requires !RoundUpTo(pairs, r, p, fetch, clock).cancelled
    ensures RoundUpTo(pairs, r, p, fetch, clock).waits == Pauses(p)
    ensures |RoundUpTo(pairs, r, p, fetch, clock).events| <= p
  {
    if p > 0 {
      RoundWaits(pairs, r, p - 1, fetch, clock);
      assert Pauses(p - 1) + [SnapshotPause] == Pauses(p);
    }
  }

  /** A round that is not cancelled sleeps 5 seconds per pair, then until the next hour. */
  lemma RoundSleeps(pairs: seq<string>, r: nat, fetch: (nat, string) -> Result<Json, PyError>,
                    clock: (nat, nat) -> real, hourDelay: nat -> real)
    requires !Round(pairs, r, fetch, clock, hourDelay).cancelled
    ensures Round(pairs, r, fetch, clock, hourDelay).waits == Pauses(|pairs|) + [hourDelay(r)]
    ensures |Round(pairs, r, fetch, clock, hourDelay).events| <= |pairs|
  {
    RoundWaits(pairs, r, |pairs|, fetch, clock);
  }

  /**
   A reference reading of the snapshots of a pass over the first `p` pairs:
   one per pair whose fetch succeeded, in the order of the pairs.
   */
  function Fetched(pairs: seq<string>, r: nat, p: nat, fetch: (nat, string) -> Result<Json, PyError>,
                   clock: (nat, nat) -> real): seq<OrderBookMessage>
    requires p <= |pairs|
  {
    if p == 0 then []
    else
      Fetched(pairs, r, p - 1, fetch, clock) +
        match fetch(r, pairs[p - 1])
        case Success(snapshot) => [SnapshotMessage(snapshot, clock(r, p - 1), pairs[p - 1])]
        case Failure(_) => []
  }

  /**
   Until it is cancelled a pass puts exactly the snapshots of the pairs whose
   fetch succeeded, in order: a failing pair is skipped and the rest go on.
   */
  lemma {:induction false} RoundPutsFetched(pairs: seq<string>, r: nat, p: nat,
                                            fetch: (nat, string) -> Result<Json, PyError>, clock: (nat, nat) -> real)
    requires p <= |pairs|
    requires !RoundUpTo(pairs, r, p, fetch, clock).cancelled
    ensures RoundUpTo(pairs, r, p, fetch, clock).events == Fetched(pairs, r, p, fetch, clock)
  {
    if p > 0 {
      RoundPutsFetched(pairs, r, p - 1, fetch, clock);
    }
  }

  /** A round that is not cancelled puts exactly the snapshots of its successful fetches, in pair order. */
  lemma RoundEvents(pairs: seq<string>, r: nat, fetch: (nat, string) -> Result<Json, PyError>,
                    clock: (nat, nat) -> real, hourDelay: nat -> real)
    requires !Round(pairs, r, fetch, clock, hourDelay).cancelled
    ensures Round(pairs, r, fetch, clock, hourDelay).events == Fetched(pairs, r, |pairs|, fetch, clock)
  {
    RoundPutsFetched(pairs, r, |pairs|, fetch, clock);
  }

  /**
   When every fetch of a round succeeds, the round puts one snapshot per
   pair, in the order of the pairs.
   */
  lemma {:induction false} RoundAllFetched(pairs: seq<string>, r: nat, p: nat,
                                           fetch: (nat, string) -> Result<Json, PyError>, clock: (nat, nat) -> real)
    requires p <= |pairs|
    requires forall q :: 0 <= q < p ==> fetch(r, pairs[q]).Success?
    ensures var pass := RoundUpTo(pairs, r, p, fetch, clock);
      !pass.cancelled && |pass.events| == p &&
      forall k :: 0 <= k < p ==> pass.events[k] == SnapshotMessage(fetch(r, pairs[k]).value, clock(r, k), pairs[k])
  {
    if p > 0 {
      RoundAllFetched(pairs, r, p - 1, fetch, clock);
    }
  }

  /** A cancelled fetch ends its round at that pair: nothing after it is fetched, put or slept. */
  lemma {:induction false} CancelledFetchEndsRound(pairs: seq<string>, r: nat, q: nat, p: nat,
                                                   fetch: (nat, string) -> Result<Json, PyError>, clock: (nat, nat) -> real)
    requires q < p <= |pairs|
    requires fetch(r, pairs[q]) == Failure(CancelledError)
    ensures RoundUpTo(pairs, r, p, fetch, clock).cancelled
    ensures RoundUpTo(pairs, r, p, fetch, clock) == RoundUpTo(pairs, r, q + 1, fetch, clock)
  {
    if q + 1 < p {
      CancelledFetchEndsRound(pairs, r, q, p - 1, fetch, clock);
    }
  }

  /** Once a pass is cancelled, the later pairs change nothing. */
  lemma {:induction false} CancelledPassStops(pairs: seq<string>, r: nat, k: nat, p: nat,
                                              fetch: (nat, string) -> Result<Json, PyError>, clock: (nat, nat) -> real)
    requires k <= p <= |pairs| && RoundUpTo(pairs, r, k, fetch, clock).cancelled
    ensures RoundUpTo(pairs, r, p, fetch, clock) == RoundUpTo(pairs, r, k, fetch, clock)
    decreases p - k
  {
    if k < p {
      CancelledPassStops(pairs, r, k, p - 1, fetch, clock);
    }
  }

  /** Once a round is cancelled the poller has ended: no later round runs. */
  lemma {:induction false} CancelledRoundStops(pairs: seq<string>, k: nat, n: nat,
                                               fetch: (nat, string) -> Result<Json, PyError>, clock: (nat, nat) -> real,
                                               hourDelay: nat -> real)
    requires k <= n && Rounds(pairs, k, fetch, clock, hourDelay).cancelled
    ensures Rounds(pairs, n, fetch, clock, hourDelay) == Rounds(pairs, k, fetch, clock, hourDelay)
    decreases n - k
  {
    if k < n {
      CancelledRoundStops(pairs, k, n - 1, fetch, clock, hourDelay);
    }
  }

  /**
   The poller's fetch of a pair in a round: `get_order_book_data` over the
   exchange's answer `transports(r, pair)` to that round's depth request.
   */
  function DepthFetch(restUrl: string, transports: (nat, string) -> R.Transport): (nat, string) -> Result<Json, PyError> {
    (r: nat, pair: string) => OrderBookData(restUrl, pair, transports(r, pair))
  }

  /**
   `fetch` gives, for every round and pair, what `get_order_book_data` answers
   to that round's depth request, the exchange's answer being `transports(r, pair)`.
   */
  ghost predicate FetchesDepth(fetch: (nat, string) -> Result<Json, PyError>, restUrl: string,
                               transports: (nat, string) -> R.Transport)
  {
    forall r: nat, pair: string {:trigger OrderBookData(restUrl, pair, transports(r, pair))} ::
      OrderBookData(restUrl, pair, transports(r, pair)) == fetch(r, pair)
  }

  /** The poller's call `get_order_book_data(trading_pair)` in round `r`. */
  method FetchDepth(restUrl: string, transports: (nat, string) -> R.Transport,
                    fetch: (nat, string) -> Result<Json, PyError>, r: nat, tradingPair: string)
    returns (snapshot: Result<Json, PyError>)
    requires FetchesDepth(fetch, restUrl, transports)
    ensures snapshot == fetch(r, tradingPair)
  {
    snapshot := GetOrderBookData(restUrl, tradingPair, transports(r, tradingPair));
  }

  /** `DepthFetch` is such a `fetch`. */
  lemma DepthFetchFetchesDepth(restUrl: string, transports: (nat, string) -> R.Transport)
    ensures FetchesDepth(DepthFetch(restUrl, transports), restUrl, transports)
  {
  }

  /** `listen_for_order_book_snapshots`, and `listen_for_trades` and `..._diffs`, for one set of pairs. */
  class BideskAPIOrderBookDataSource {
    const tradingPairs: seq<string>

    constructor (tradingPairs: seq<string>)
      ensures this.tradingPairs == tradingPairs
    {
      this.tradingPairs := tradingPairs;
    }

    /** `listen_for_trades(ev_loop, output)` over the given connection attempts. */
    method ListenForTrades(conns: seq<Connection>, output: MessageQueue)
      returns (sent: seq<Json>, waits: seq<real>, cancelled: bool)
      modifies output
      ensures output.items == old(output.items) + RunOf(TradeStep, Refusal, TradeBackoff, conns).events
      ensures waits == RunOf(TradeStep, Refusal, TradeBackoff, conns).waits
      ensures |sent| == RunOf(TradeStep, Refusal, TradeBackoff, conns).connected
      ensures forall k :: 0 <= k < |sent| ==> sent[k] == TradeSubscription(tradingPairs)
      ensures cancelled == RunOf(TradeStep, Refusal, TradeBackoff, conns).cancelled
    {
      sent, waits, cancelled := Listen(TradeStep, Refusal, TradeBackoff, TradeSubscription(tradingPairs), conns, output);
    }

    /** `listen_for_order_book_diffs(ev_loop, output)` over the given connection attempts. */
    method ListenForOrderBookDiffs(conns: seq<Connection>, output: MessageQueue)
      returns (sent: seq<Json>, waits: seq<real>, cancelled: bool)
      modifies output
      ensures output.items == old(output.items) + RunOf(DepthStep, Refusal, DiffBackoff, conns).events
      ensures waits == RunOf(DepthStep, Refusal, DiffBackoff, conns).waits
      ensures |sent| == RunOf(DepthStep, Refusal, DiffBackoff, conns).connected
      ensures forall k :: 0 <= k < |sent| ==> sent[k] == DepthSubscription(tradingPairs)
      ensures cancelled == RunOf(DepthStep, Refusal, DiffBackoff, conns).cancelled
    {
      sent, waits, cancelled := Listen(DepthStep, Refusal, DiffBackoff, DepthSubscription(tradingPairs), conns, output);
    }

    /**
     `listen_for_order_book_snapshots(ev_loop, output)`, for its first `rounds`
     rounds; `fetch` names what each call to `get_order_book_data` answers.
     */
    method ListenForOrderBookSnapshots(restUrl: string, rounds: nat, transports: (nat, string) -> R.Transport,
                                       fetch: (nat, string) -> Result<Json, PyError>,
                                       clock: (nat, nat) -> real, hourDelay: nat -> real, output: MessageQueue)
      returns (waits: seq<real>, cancelled: bool)
      requires FetchesDepth(fetch, restUrl, transports)
      modifies output
      ensures var poll := Rounds(tradingPairs, rounds, fetch, clock, hourDelay);
        output.items == old(output.items) + poll.events && waits == poll.waits && cancelled == poll.cancelled
    {
      waits, cancelled := [], false;
      var r := 0;
      while r < rounds
        invariant 0 <= r <= rounds
        invariant var done := Rounds(tradingPairs, r, fetch, clock, hourDelay);
          output.items == old(output.items) + done.events && waits == done.waits && !done.cancelled
      {
        var w, c := PollRound(restUrl, r, transports, fetch, clock, hourDelay, output);
        waits := waits + w;
        r := r + 1;
        if c {
          CancelledRoundStops(tradingPairs, r, rounds, fetch, clock, hourDelay);
          cancelled := true;
          return;
        }
      }
    }

    /** One pass of the `for trading_pair in self._trading_pairs` loop and the sleep to the next hour. */
    method PollRound(restUrl: string, r: nat, transports: (nat, string) -> R.Transport,
                     fetch: (nat, string) -> Result<Json, PyError>, clock: (nat, nat) -> real,
                     hourDelay: nat -> real, output: MessageQueue) returns (waits: seq<real>, cancelled: bool)
      requires FetchesDepth(fetch, restUrl, transports)
      modifies output
      ensures var round := Round(tradingPairs, r, fetch, clock, hourDelay);
        output.items == old(output.items) + round.events && waits == round.waits && cancelled == round.cancelled
    {
      waits := [];
      for p := 0 to |tradingPairs|
        invariant var pass := RoundUpTo(tradingPairs, r, p, fetch, clock);
          output.items == old(output.items) + pass.events && waits == pass.waits && !pass.cancelled
      {
        var snapshot := FetchDepth(restUrl, transports, fetch, r, tradingPairs[p]);
        match snapshot {
          case Success(j) =>
            output.PutNowait(SnapshotMessage(j, clock(r, p), tradingPairs[p]));
          case Failure(e) =>
            if e == CancelledError {
              CancelledPassStops(tradingPairs, r, p + 1, |tradingPairs|, fetch, clock);
              return waits, true;
            }
        }
        waits := waits + [SnapshotPause];
      }
      waits := waits + [hourDelay(r)];
      cancelled := false;
    }
  }
}
