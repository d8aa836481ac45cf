/**
 The Bitmax order book data source (`bitmax_api_order_book_data_source.py`):
 the ticker and depth requests and the three WebSocket listeners.
 */
module BitmaxDataSource {
  import opened Wrappers
  import opened Json
  import opened Http
  import opened PyRuntime
  import opened Dicts
  import opened Streams
  import Strings

  /**
   The converters of `bitmax_utils`, whose definitions are not part of this
   model: `convert_to_exchange_trading_pair` on a pair name,
   `convert_from_exchange_trading_pair` on a decoded `symbol` (which may be
   `None` or not a string, and may raise) and `ms_timestamp_to_s` on a decoded
   `ts`.
   */
  datatype Converters = Converters(toExchange: string -> string,
                                   fromExchange: Json -> Result<Json, PyError>,
                                   msToS: Json -> Result<real, PyError>)

  /** `client.get(url)`: the response, or the exception the HTTP client raises. */
  type Client = string -> Result<HttpResponse, PyError>

  const TickerPath := "/ticker"
  const DepthQueryPath := "/depth?symbol="
  /** Seconds every listener sleeps before reconnecting after an exception. */
  const Backoff: real := 30.0

  // ---------------------------------------------------- get_last_traded_prices

  /**
   What one ticker item contributes to `result`: nothing when its converted
   symbol is not a requested pair, otherwise the pair and the mid of the
   first ask and the first bid. `item.get` on a non-dict raises
   `AttributeError`; `[0]` and `float` raise as Python does.
   */
  function MidEntry(u: Converters, pairs: seq<string>, toFloat: Json -> Result<real, PyError>, item: Json)
    : (r: Result<Option<(string, real)>, PyError>)
    ensures !item.JObj? ==> r == Failure(AttributeError)
    ensures r.Success? && r.value.Some? ==> r.value.value.0 in pairs
    ensures (item.JObj? && u.fromExchange(GetOrNull(item.fields, "symbol")).Success? &&
             !(u.fromExchange(GetOrNull(item.fields, "symbol")).value.JStr? &&
               u.fromExchange(GetOrNull(item.fields, "symbol")).value.s in pairs)) ==>
      r == Success(None)
  {
    if !item.JObj? then Failure(AttributeError)
    else match u.fromExchange(GetOrNull(item.fields, "symbol"))
      case Failure(e) => Failure(e)
      case Success(tp) =>
        if !(tp.JStr? && tp.s in pairs) then Success(None)
        else match Side(toFloat, GetOrNull(item.fields, "ask"))
          case Failure(e) => Failure(e)
          case Success(ask) =>
            match Side(toFloat, GetOrNull(item.fields, "bid"))
            case Failure(e) => Failure(e)
            case Success(bid) => Success(Some((tp.s, (ask + bid) / 2.0)))
  }

  /** `float(side[0])`. */
  function Side(toFloat: Json -> Result<real, PyError>, side: Json): (r: Result<real, PyError>)
    ensures First(side).Failure? ==> r == Failure(First(side).error)
    ensures First(side).Success? ==> r == toFloat(First(side).value)
  {
    match First(side)
    case Failure(e) => Failure(e)
    case Success(x) => toFloat(x)
  }

  /** `result` after the `for item in resp_json.get("data")` loop has seen `items`. */
  function MidPrices(u: Converters, pairs: seq<string>, toFloat: Json -> Result<real, PyError>, items: seq<Json>)
    : (r: Result<seq<(string, real)>, PyError>)
    decreases |items|
  {
    if |items| == 0 then Success([])
    else
      var front := items[..|items| - 1];
      match MidPrices(u, pairs, toFloat, front)
      case Failure(e) => Failure(e)
      case Success(t) =>
        match MidEntry(u, pairs, toFloat, items[|items| - 1])
        case Failure(e) => Failure(e)
        case Success(None) => Success(t)
        case Success(Some(kv)) => Success(Set(t, kv.0, kv.1))
  }

  /** The loop finishes exactly when no ticker item raises. */
  lemma MidPricesSucceeds(u: Converters, pairs: seq<string>, toFloat: Json -> Result<real, PyError>, items: seq<Json>)
    ensures MidPrices(u, pairs, toFloat, items).Success? <==> forall i :: 0 <= i < |items| ==> MidEntry(u, pairs, toFloat, items[i]).Success?
  {
    if MidPrices(u, pairs, toFloat, items).Success? {
      forall i | 0 <= i < |items| ensures MidEntry(u, pairs, toFloat, items[i]).Success? {
        MidPricesEntry(u, pairs, toFloat, items, i);
      }
    } else if forall i :: 0 <= i < |items| ==> MidEntry(u, pairs, toFloat, items[i]).Success? {
      MidPricesBuilt(u, pairs, toFloat, items);
    }
  }

  /** A finished loop means no item raised. */
  lemma {:induction false} MidPricesEntry(u: Converters, pairs: seq<string>, toFloat: Json -> Result<real, PyError>, items: seq<Json>, i: nat)
    requires MidPrices(u, pairs, toFloat, items).Success? && i < |items|
    ensures MidEntry(u, pairs, toFloat, items[i]).Success?
    decreases |items|
  {
    MidPricesStep(u, pairs, toFloat, items);
    if i < |items| - 1 {
      var front := items[..|items| - 1];
      assert front[i] == items[i];
      MidPricesEntry(u, pairs, toFloat, front, i);
    }
  }

  /** No item raising means the loop finishes. */
  lemma {:induction false} MidPricesBuilt(u: Converters, pairs: seq<string>, toFloat: Json -> Result<real, PyError>, items: seq<Json>)
    requires forall i :: 0 <= i < |items| ==> MidEntry(u, pairs, toFloat, items[i]).Success?
    ensures MidPrices(u, pairs, toFloat, items).Success?
    decreases |items|
  {
    if |items| > 0 {
      var front := items[..|items| - 1];
      forall i | 0 <= i < |front| ensures MidEntry(u, pairs, toFloat, front[i]).Success? {
        assert front[i] == items[i];
      }
      MidPricesBuilt(u, pairs, toFloat, front);
      MidPricesStep(u, pairs, toFloat, items);
    }
  }

  /** One more item keeps the loop going exactly when it does not raise. */
  lemma MidPricesStep(u: Converters, pairs: seq<string>, toFloat: Json -> Result<real, PyError>, items: seq<Json>)
    requires |items| > 0
    ensures MidPrices(u, pairs, toFloat, items).Success? <==>
            MidPrices(u, pairs, toFloat, items[..|items| - 1]).Success? && MidEntry(u, pairs, toFloat, items[|items| - 1]).Success?
  {
  }

  /** A reference reading of `result`: the mid price of the last item that names `pair`. */
  function LastMid(u: Converters, pairs: seq<string>, toFloat: Json -> Result<real, PyError>, items: seq<Json>,
                   pair: string): Option<real>
    decreases |items|
  {
    if |items| == 0 then None
    else
      var last := MidEntry(u, pairs, toFloat, items[|items| - 1]);
      if last.Success? && last.value.Some? && last.value.value.0 == pair then Some(last.value.value.1)
      else LastMid(u, pairs, toFloat, items[..|items| - 1], pair)
  }

  /**
   Only requested pairs are in the result, each once, and a pair's price is
   the mid of the last ticker item that names it.
   */
  lemma {:induction false} MidPricesSpec(u: Converters, pairs: seq<string>, toFloat: Json -> Result<real, PyError>,
                                         items: seq<Json>, pair: string)
    requires MidPrices(u, pairs, toFloat, items).Success?
    ensures DistinctKeys(MidPrices(u, pairs, toFloat, items).value)
    ensures forall k :: k in Keys(MidPrices(u, pairs, toFloat, items).value) ==> k in pairs
    ensures Get(MidPrices(u, pairs, toFloat, items).value, pair) == LastMid(u, pairs, toFloat, items, pair)
    decreases |items|
  {
    if |items| > 0 {
      var front := items[..|items| - 1];
      MidPricesSpec(u, pairs, toFloat, front, pair);
      var t := MidPrices(u, pairs, toFloat, front).value;
      var entry := MidEntry(u, pairs, toFloat, items[|items| - 1]).value;
      if entry.Some? {
        SetGet(t, entry.value.0, entry.value.1, pair);
        SetDistinct(t, entry.value.0, entry.value.1);
      }
    }
  }

  /**
   `get_last_traded_prices(trading_pairs)`: the client's exception
   propagates, a status other than 200 is an `IOError` carrying it, and a
   result maps distinct requested pairs to their mid prices.
   */
  function LastTradedPrices(restUrl: string, u: Converters, pairs: seq<string>,
                            toFloat: Json -> Result<real, PyError>, client: Client)
    : (r: Result<seq<(string, real)>, PyError>)
    ensures client(restUrl + TickerPath).Failure? ==> r == Failure(client(restUrl + TickerPath).error)
    ensures client(restUrl + TickerPath).Success? && client(restUrl + TickerPath).value.status != 200 ==>
      r == Failure(IOError(LastPricesStatus(client(restUrl + TickerPath).value.status)))
    ensures r.Success? ==> DistinctKeys(r.value) && forall k :: k in Keys(r.value) ==> k in pairs
  {
    match client(restUrl + TickerPath)
    case Failure(e) => Failure(e)
    case Success(resp) =>
      if resp.status != 200 then Failure(IOError(LastPricesStatus(resp.status)))
      else match Body(resp)
        case Failure(e) => Failure(e)
        case Success(items) =>
          if MidPrices(u, pairs, toFloat, items).Success? then
            MidPricesSpec(u, pairs, toFloat, items, "");
            MidPrices(u, pairs, toFloat, items)
          else MidPrices(u, pairs, toFloat, items)
  }

  /**
   The decoded ticker body, checked: a body that is not JSON fails to
   decode; `.get` needs a dict; a `code` other than 0 raises, but as the
   `AttributeError` of reading `.message` on a dict before the `IOError` is
   made; then `data` is iterated.
   */
  function Body(resp: HttpResponse): (r: Result<seq<Json>, PyError>)
    ensures resp.body.None? ==> r == Failure(DecodeError)
    ensures resp.body.Some? && !resp.body.value.JObj? ==> r == Failure(AttributeError)
    ensures resp.body.Some? && resp.body.value.JObj? && !EqualsZero(GetOrNull(resp.body.value.fields, "code")) ==>
      r == Failure(AttributeError)
    ensures resp.body.Some? && resp.body.value.JObj? && EqualsZero(GetOrNull(resp.body.value.fields, "code")) ==>
      r == Iterate(GetOrNull(resp.body.value.fields, "data"))
  {
    match resp.body
    case None => Failure(DecodeError)
    case Some(b) =>
      if !b.JObj? || !EqualsZero(GetOrNull(b.fields, "code")) then Failure(AttributeError)
      else Iterate(GetOrNull(b.fields, "data"))
  }

  /** `get_last_traded_prices(trading_pairs)`: one request, then the loop over the ticker items. */
  method GetLastTradedPrices(restUrl: string, u: Converters, tradingPairs: seq<string>,
                             toFloat: Json -> Result<real, PyError>, client: Client)
    returns (r: Result<seq<(string, real)>, PyError>)
    ensures r == LastTradedPrices(restUrl, u, tradingPairs, toFloat, client)
  {
    var resp := client(restUrl + TickerPath);
    if resp.Failure? {
      return Failure(resp.error);
    }
    if resp.value.status != 200 {
      return Failure(IOError(LastPricesStatus(resp.value.status)));
    }
    var items := Body(resp.value);
    if items.Failure? {
      return Failure(items.error);
    }
    r := BuildMidPrices(u, tradingPairs, toFloat, items.value);
  }

  /** The `for item in resp_json.get("data")` loop. */
  method BuildMidPrices(u: Converters, tradingPairs: seq<string>, toFloat: Json -> Result<real, PyError>,
                        items: seq<Json>) returns (r: Result<seq<(string, real)>, PyError>)
    ensures r == MidPrices(u, tradingPairs, toFloat, items)
  {
    var result: seq<(string, real)> := [];
    for i := 0 to |items|
      invariant MidPrices(u, tradingPairs, toFloat, items[..i]) == Success(result)
    {
      assert items[..i + 1][..i] == items[..i];
      var entry := MidEntry(u, tradingPairs, toFloat, items[i]);
      if entry.Failure? {
        MidPricesFails(u, tradingPairs, toFloat, items, i + 1);
        return Failure(entry.error);
      }
      if entry.value.Some? {
        result := Set(result, entry.value.value.0, entry.value.value.1);
      }
    }
    assert items[..|items|] == items;
    r := Success(result);
  }

  /** An item that raises part-way through is the failure of the whole loop. */
  lemma {:induction false} MidPricesFails(u: Converters, pairs: seq<string>, toFloat: Json -> Result<real, PyError>,
                                          items: seq<Json>, n: nat)
    requires n <= |items| && MidPrices(u, pairs, toFloat, items[..n]).Failure?
    ensures MidPrices(u, pairs, toFloat, items) == MidPrices(u, pairs, toFloat, items[..n])
    decreases |items| - n
  {
    if n < |items| {
      assert items[..n + 1][..n] == items[..n];
      MidPricesFails(u, pairs, toFloat, items, n + 1);
    } else {
      assert items[..n] == items;
    }
  }

  // ------------------------------------------------------- fetch_trading_pairs

  /** `[convert_from_exchange_trading_pair(item["symbol"]) for item in items]`. */
  function Symbols(u: Converters, items: seq<Json>): (r: Result<seq<Json>, PyError>)
    ensures r.Success? <==> forall i :: 0 <= i < |items| ==>
      Subscript(items[i], "symbol").Success? && u.fromExchange(Subscript(items[i], "symbol").value).Success?
    ensures r.Success? ==> |r.value| == |items|
    ensures r.Success? ==>
      forall i :: 0 <= i < |items| ==> r.value[i] == u.fromExchange(Subscript(items[i], "symbol").value).value
    decreases |items|
  {
    if |items| == 0 then Success([])
    else
      assert forall i :: 1 <= i < |items| ==> items[1..][i - 1] == items[i];
      match Subscript(items[0], "symbol")
      case Failure(e) => Failure(e)
      case Success(sym) =>
        match u.fromExchange(sym)
        case Failure(e) => Failure(e)
        case Success(tp) =>
          match Symbols(u, items[1..])
          case Failure(e) => Failure(e)
          case Success(rest) => Success([tp] + rest)
  }

  /**
   `fetch_trading_pairs()`: the converted symbol of every ticker item, in
   order; the empty list when the status is not 200. Nothing is caught: the
   client's failures, a body that is not JSON and a missing key all raise.
   */
  function FetchTradingPairs(restUrl: string, u: Converters, client: Client): (r: Result<seq<Json>, PyError>)
    ensures client(restUrl + TickerPath).Failure? ==> r == Failure(client(restUrl + TickerPath).error)
    ensures client(restUrl + TickerPath).Success? && client(restUrl + TickerPath).value.status != 200 ==>
      r == Success([])
    ensures client(restUrl + TickerPath).Success? && client(restUrl + TickerPath).value.status == 200 ==>
      var body := client(restUrl + TickerPath).value.body;
      if body.None? then r == Failure(DecodeError)
      else if Subscript(body.value, "data").Failure? then r == Failure(Subscript(body.value, "data").error)
      else if Iterate(Subscript(body.value, "data").value).Failure? then
        r == Failure(Iterate(Subscript(body.value, "data").value).error)
      else r == Symbols(u, Iterate(Subscript(body.value, "data").value).value)
  {
    match client(restUrl + TickerPath)
    case Failure(e) => Failure(e)
    case Success(resp) =>
      if resp.status != 200 then Success([])
      else match resp.body
        case None => Failure(DecodeError)
        case Some(b) =>
          match Subscript(b, "data")
          case Failure(e) => Failure(e)
          case Success(data) =>
            match Iterate(data)
            case Failure(e) => Failure(e)
            case Success(items) => Symbols(u, items)
  }

  // ------------------------------------------------------- get_order_book_data

  /** The depth URL: the exchange symbol is put into the query as it is, not percent-encoded. */
  function DepthUrl(restUrl: string, u: Converters, tradingPair: string): (r: string)
    ensures |r| == |restUrl| + |DepthQueryPath| + |u.toExchange(tradingPair)|
    ensures r[..|restUrl|] == restUrl && r[|restUrl|..|restUrl| + |DepthQueryPath|] == DepthQueryPath
    ensures r[|restUrl| + |DepthQueryPath|..] == u.toExchange(tradingPair)
  {
    restUrl + DepthQueryPath + u.toExchange(tradingPair)
  }

  /**
   `get_order_book_data(trading_pair)`: a status other than 200 raises an
   `IOError` naming the pair; the body must be a dict with `code` 0 (any
   other code raises, as the `AttributeError` of reading `.message`), and its
   `data` is the answer (`KeyError` when it has none).
   */
  function OrderBookData(restUrl: string, u: Converters, tradingPair: string, client: Client)
    : (r: Result<Json, PyError>)
    ensures r.Success? <==>
      var c := client(DepthUrl(restUrl, u, tradingPair));
      c.Success? && c.value.status == 200 && c.value.body.Some? && c.value.body.value.JObj? &&
      EqualsZero(GetOrNull(c.value.body.value.fields, "code")) && "data" in Keys(c.value.body.value.fields)
    ensures r.Success? ==> Some(r.value) == Get(client(DepthUrl(restUrl, u, tradingPair)).value.body.value.fields, "data")
    ensures client(DepthUrl(restUrl, u, tradingPair)).Success? &&
            client(DepthUrl(restUrl, u, tradingPair)).value.status != 200 ==>
      r == Failure(IOError(OrderBookStatus(tradingPair, client(DepthUrl(restUrl, u, tradingPair)).value.status)))
    ensures client(DepthUrl(restUrl, u, tradingPair)).Failure? ==>
      r == Failure(client(DepthUrl(restUrl, u, tradingPair)).error)
  {
    match client(DepthUrl(restUrl, u, tradingPair))
    case Failure(e) => Failure(e)
    case Success(resp) =>
      if resp.status != 200 then Failure(IOError(OrderBookStatus(tradingPair, resp.status)))
      else match resp.body
        case None => Failure(DecodeError)
        case Some(item) =>
          if !item.JObj? || !EqualsZero(GetOrNull(item.fields, "code")) then Failure(AttributeError)
          else Subscript(item, "data")
  }

  // ------------------------------------------------------ WebSocket listeners

  /** The converted symbols of the tracked pairs, in order. */
  function ExchangeSymbols(u: Converters, pairs: seq<string>): (r: seq<string>)
    ensures |r| == |pairs|
    ensures forall i :: 0 <= i < |pairs| ==> r[i] == u.toExchange(pairs[i])
  {
    seq(|pairs|, i requires 0 <= i < |pairs| => u.toExchange(pairs[i]))
  }

  /** The channel `topic:SYM1,SYM2,...` of a subscription. */
  function Channel(topic: string, u: Converters, pairs: seq<string>): string {
    topic + ":" + Strings.Join(",", ExchangeSymbols(u, pairs))
  }

  /** The payload sent on each connection. */
  function Payload(topic: string, u: Converters, pairs: seq<string>): (r: Json)
    ensures r.JObj? && Keys(r.fields) == ["op", "ch"]
    ensures GetOrNull(r.fields, "op") == JStr("sub") && GetOrNull(r.fields, "ch") == JStr(Channel(topic, u, pairs))
  {
    var f := [("op", JStr("sub")), ("ch", JStr(Channel(topic, u, pairs)))];
    assert Keys(f) == ["op", "ch"];
    assert IndexOf(f, "ch") == 1;
    JObj(f)
  }

  const TradesTopic := "trades"
  const BboTopic := "bbo"
  const DepthTopic := "depth"

  /**
   The channel names the topic, then lists the exchange symbol of every
   tracked pair, in order: splitting what follows the colon on `,` gives
   them back, provided no converted symbol holds a comma.
   */
  lemma ChannelLists(topic: string, u: Converters, pairs: seq<string>)
    requires |pairs| > 0 && forall i :: 0 <= i < |pairs| ==> ',' !in u.toExchange(pairs[i])
    ensures var ch := Channel(topic, u, pairs);
      |ch| > |topic| && ch[..|topic| + 1] == topic + ":" &&
      Strings.SplitOn(ch[|topic| + 1..], ',') == ExchangeSymbols(u, pairs)
  {
    var syms := ExchangeSymbols(u, pairs);
    assert "," == [','];
    Strings.SplitJoin(syms, ',');
    var ch := Channel(topic, u, pairs);
    assert ch[|topic| + 1..] == Strings.Join(",", syms);
  }

  /**
   The common start of every handler: a frame that is not JSON raises
   `ValueError` in `ujson.loads`; a `None` message is skipped; `.get` on a
   value that is not a dict raises `AttributeError`; a message whose `m` is
   not the channel's topic is skipped. `Some(fields)` is a message to handle.
   */
  function Filter(topic: string, frame: Frame): (r: Result<Option<seq<(string, Json)>>, PyError>)
    ensures frame.None? ==> r == Failure(ValueError)
    ensures frame == Some(JNull) ==> r == Success(None)
    ensures frame.Some? && !frame.value.JNull? && !frame.value.JObj? ==> r == Failure(AttributeError)
    ensures frame.Some? && frame.value.JObj? ==>
      r == Success(if GetOrNull(frame.value.fields, "m") == JStr(topic) then Some(frame.value.fields) else None)
  {
    match frame
    case None => Failure(ValueError)
    case Some(msg) =>
      if msg.JNull? then Success(None)
      else if !msg.JObj? then Failure(AttributeError)
      else if GetOrNull(msg.fields, "m") == JStr(topic) then Success(Some(msg.fields))
      else Success(None)
  }

  /** One element of a `trades` message, stamped from its own `ts`. */
  function TradeEntry(u: Converters, tradingPair: Json, trade: Json): (r: Result<OrderBookMessage, PyError>)
    ensures !trade.JObj? ==> r == Failure(AttributeError)
    ensures trade.JObj? ==> r.Success? == u.msToS(GetOrNull(trade.fields, "ts")).Success?
    ensures r.Success? ==>
      r.value == OrderBookMessage(TradeKind, trade, u.msToS(GetOrNull(trade.fields, "ts")).value,
                                  [("trading_pair", tradingPair)])
  {
    if !trade.JObj? then Failure(AttributeError)
    else match u.msToS(GetOrNull(trade.fields, "ts"))
      case Failure(e) => Failure(e)
      case Success(ts) => Success(OrderBookMessage(TradeKind, trade, ts, [("trading_pair", tradingPair)]))
  }

  /**
   The body of the trade listener's `async for`: after the filter, the
   symbol is converted, then every element of `data` becomes a trade message;
   the first exception ends the step.
   */
  function TradesStep(u: Converters, frame: Frame): (r: Step)
    ensures Filter(TradesTopic, frame).Failure? ==> r == Step([], Some(Filter(TradesTopic, frame).error))
    ensures Filter(TradesTopic, frame) == Success(None) ==> r == Step([], None)
    ensures forall m :: m in r.events ==> m.kind == TradeKind
  {
    match Filter(TradesTopic, frame)
    case Failure(e) => Step([], Some(e))
    case Success(None) => Step([], None)
    case Success(Some(fields)) =>
      match u.fromExchange(GetOrNull(fields, "symbol"))
      case Failure(e) => Step([], Some(e))
      case Success(pair) =>
        match Iterate(GetOrNull(fields, "data"))
        case Failure(e) => Step([], Some(e))
        case Success(trades) => Expand(trades, trade => TradeEntry(u, pair, trade))
  }

  /**
   The one message a `bbo` or `depth` message makes: `data.ts` is converted
   first (so a `data` that is not a dict raises `AttributeError` before the
   symbol is looked at), then the symbol.
   */
  function Single(kind: Kind, u: Converters, fields: seq<(string, Json)>): (r: Result<OrderBookMessage, PyError>)
    ensures var data := GetOrNull(fields, "data");
      r.Success? <==> data.JObj? && u.msToS(GetOrNull(data.fields, "ts")).Success? &&
                      u.fromExchange(GetOrNull(fields, "symbol")).Success?
    ensures var data := GetOrNull(fields, "data");
      !data.JObj? ==> r == Failure(AttributeError)
    ensures var data := GetOrNull(fields, "data");
      r.Success? ==> r.value == OrderBookMessage(kind, data, u.msToS(GetOrNull(data.fields, "ts")).value,
                                                 [("trading_pair", u.fromExchange(GetOrNull(fields, "symbol")).value)])
  {
    var data := GetOrNull(fields, "data");
    if !data.JObj? then Failure(AttributeError)
    else match u.msToS(GetOrNull(data.fields, "ts"))
      case Failure(e) => Failure(e)
      case Success(ts) =>
        match u.fromExchange(GetOrNull(fields, "symbol"))
        case Failure(e) => Failure(e)
        case Success(pair) => Success(OrderBookMessage(kind, data, ts, [("trading_pair", pair)]))
  }

  /** A handled `topic` message makes exactly one message of `kind`, or raises and makes none. */
  function SingleStep(topic: string, kind: Kind, u: Converters, frame: Frame): (r: Step)
    ensures |r.events| <= 1 && (r.failure.Some? ==> r.events == [])
    ensures forall m :: m in r.events ==> m.kind == kind
    ensures Filter(topic, frame).Failure? ==> r == Step([], Some(Filter(topic, frame).error))
    ensures Filter(topic, frame) == Success(None) ==> r == Step([], None)
    ensures Filter(topic, frame).Success? && Filter(topic, frame).value.Some? ==>
      var m := Single(kind, u, Filter(topic, frame).value.value);
      r == if m.Success? then Step([m.value], None) else Step([], Some(m.error))
  {
    match Filter(topic, frame)
    case Failure(e) => Step([], Some(e))
    case Success(None) => Step([], None)
    case Success(Some(fields)) =>
      match Single(kind, u, fields)
      case Failure(e) => Step([], Some(e))
      case Success(m) => Step([m], None)
  }

  /** The body of the diff listener's `async for`: one diff message per `bbo` message. */
  function BboStep(u: Converters, frame: Frame): (r: Step)
    ensures |r.events| <= 1 && forall m :: m in r.events ==> m.kind == DiffKind
  {
    SingleStep(BboTopic, DiffKind, u, frame)
  }

  /** The body of the snapshot listener's `async for`: one snapshot message per `depth` message. */
  function DepthStep(u: Converters, frame: Frame): (r: Step)
    ensures |r.events| <= 1 && forall m :: m in r.events ==> m.kind == SnapshotKind
  {
    SingleStep(DepthTopic, SnapshotKind, u, frame)
  }

  /**
   A well-formed `trades` message makes one trade message per element of
   `data`, in order, each stamped from its own `ts` and carrying the
   message's converted symbol.
   */
  lemma TradesExpand(u: Converters, fields: seq<(string, Json)>, pair: Json, trades: seq<Json>)
    requires GetOrNull(fields, "m") == JStr(TradesTopic)
    requires u.fromExchange(GetOrNull(fields, "symbol")) == Success(pair)
    requires GetOrNull(fields, "data") == JArr(trades)
    requires forall i :: 0 <= i < |trades| ==> trades[i].JObj? && u.msToS(GetOrNull(trades[i].fields, "ts")).Success?
    ensures var s := TradesStep(u, Some(JObj(fields)));
      s.failure.None? && |s.events| == |trades| &&
      forall i :: 0 <= i < |trades| ==>
        s.events[i] == OrderBookMessage(TradeKind, trades[i], u.msToS(GetOrNull(trades[i].fields, "ts")).value,
                                        [("trading_pair", pair)])
  {
    var f := (trade: Json) => TradeEntry(u, pair, trade);
    assert forall i :: 0 <= i < |trades| ==> f(trades[i]).Success?;
    assert TradesStep(u, Some(JObj(fields))) == Expand(trades, f);
  }

  /**
   On every listener a message that is not JSON, after messages that were
   handled, ends its connection with `ValueError`; the listener then sleeps
   30 seconds once before its next attempt.
   */
  lemma MalformedFrameEndsConnection(handle: Frame -> Step, conns: seq<Connection>, inbound: seq<Frame>,
                                     end: SessionEnd, j: nat)
    requires handle(None) == Step([], Some(ValueError))
    requires j < |inbound| && inbound[j].None?
    requires forall i :: 0 <= i < j ==> handle(inbound[i]).failure.None?
    requires !RunOf(handle, Uncaught, Backoff, conns).cancelled
    ensures Session(handle, inbound, end).end == Raised(ValueError)
    ensures RunOf(handle, Uncaught, Backoff, conns + [Open(inbound, end)]).waits ==
      RunOf(handle, Uncaught, Backoff, conns).waits + [Backoff]
  {
    FailureEndsSession(handle, inbound, end, j);
    assert (conns + [Open(inbound, end)])[..|conns|] == conns;
  }

  /** The handlers of the three listeners, as the functions `Listen` runs. */
  function TradesHandler(u: Converters): Frame -> Step { f => TradesStep(u, f) }
  function BboHandler(u: Converters): Frame -> Step { f => BboStep(u, f) }
  function DepthHandler(u: Converters): Frame -> Step { f => DepthStep(u, f) }

  /**
   A failed connect is an `Exception` the listener catches itself, and a
   `CancelledError` stays one: the exception is seen as it is.
   */
  function Uncaught(e: PyError): PyError { e }

  /** `BitmaxAPIOrderBookDataSource(trading_pairs)` and its three listeners. */
  class BitmaxAPIOrderBookDataSource {
    const tradingPairs: seq<string>
    const utils: Converters

    constructor (tradingPairs: seq<string>, utils: Converters)
      ensures this.tradingPairs == tradingPairs && this.utils == utils
    {
      this.tradingPairs := tradingPairs;
      this.utils := utils;
    }

    /**
     `listen_for_trades(ev_loop, output)` over the given connection attempts:
     a refused connection is an exception like any other, so it too is
     followed by the 30-second sleep.
     */
    method ListenForTrades(conns: seq<Connection>, output: MessageQueue)
      returns (sent: seq<Json>, waits: seq<real>, cancelled: bool)
      modifies output
      ensures var run := RunOf(TradesHandler(utils), Uncaught, Backoff, conns);
        output.items == old(output.items) + run.events && waits == run.waits &&
        |sent| == run.connected && cancelled == run.cancelled
      ensures forall k :: 0 <= k < |sent| ==> sent[k] == Payload(TradesTopic, utils, tradingPairs)
    {
      sent, waits, cancelled := Listen(TradesHandler(utils), Uncaught, Backoff,
                                       Payload(TradesTopic, utils, tradingPairs), conns, output);
    }

    /** `listen_for_order_book_diffs(ev_loop, output)`, on the `bbo` channel. */
    method ListenForOrderBookDiffs(conns: seq<Connection>, output: MessageQueue)
      returns (sent: seq<Json>, waits: seq<real>, cancelled: bool)
      modifies output
      ensures var run := RunOf(BboHandler(utils), Uncaught, Backoff, conns);
        output.items == old(output.items) + run.events && waits == run.waits &&
        |sent| == run.connected && cancelled == run.cancelled
      ensures forall k :: 0 <= k < |sent| ==> sent[k] == Payload(BboTopic, utils, tradingPairs)
    {
      sent, waits, cancelled := Listen(BboHandler(utils), Uncaught, Backoff,
                                       Payload(BboTopic, utils, tradingPairs), conns, output);
    }

    /** `listen_for_order_book_snapshots(ev_loop, output)`, on the `depth` channel. */
    method ListenForOrderBookSnapshots(conns: seq<Connection>, output: MessageQueue)
      returns (sent: seq<Json>, waits: seq<real>, cancelled: bool)
      modifies output
      ensures var run := RunOf(DepthHandler(utils), Uncaught, Backoff, conns);
        output.items == old(output.items) + run.events && waits == run.waits &&
        |sent| == run.connected && cancelled == run.cancelled
      ensures forall k :: 0 <= k < |sent| ==> sent[k] == Payload(DepthTopic, utils, tradingPairs)
    {
      sent, waits, cancelled := Listen(DepthHandler(utils), Uncaught, Backoff,
                                       Payload(DepthTopic, utils, tradingPairs), conns, output);
    }
  }
}
