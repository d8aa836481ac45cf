# Hummingbot market-data relay: Bidesk, Bitfinex and Bitmax connectors in Dafny

This project models the part of Hummingbot's market-data relay that decides
things once I/O is taken away, for two exchange connectors and one pair
grammar:

- **Symbol and timestamp translation** (`bidesk_utils.py` and the Bitfinex
  pair grammar). Both quote-suffix splitters come from one generic model of
  the anchored regex `^(\w+)(Q1|…|Qn)$`, parameterised by the quote list
  (`PairGrammar`). It is used with the Bidesk list `USDT|BTC|ETH` and with
  the seventeen Bitfinex quote assets. The module also covers the
  dash-stripping inverse, the millisecond-to-second floor and the API
  reason lookup.
- **Request signing** (`bidesk_auth.py`). The caller's parameter dict is an
  insertion-ordered association list with Python's `update` semantics
  (`Dicts`). It is held in a `Dicts.Dict` object that `GenAuthDict` changes
  in place. `urlencode` and `quote_plus` are modelled character by
  character (`UrlEncoding`). HMAC-SHA256 is a function parameter.
- **The REST envelope** (`bidesk_restful.py`). This covers the header choice
  and the URL. It also covers the decision that turns an HTTP status and a
  decoded body into a value or an exception.
- **The two order-book data sources** (`bidesk_api_order_book_data_source.py`
  and `bitmax_api_order_book_data_source.py`).
  - The price, ticker and depth requests.
  - The subscription payloads.
  - Topic filtering.
  - The expansion of one inbound message into the messages put, in order, on
    the output queue.
  - The reconnect loops, including which exception waits how long and which
    one propagates.
  - The Bidesk snapshot poller.

Python values are modelled as follows:

- Decoded JSON is the datatype `Json.Json`. Dicts are association lists, and
  numbers are integers.
- Exceptions are the datatype `PyRuntime.PyError`. A failing Python
  operation is a `Failure` of the exception that Python raises there:
  `AttributeError` for `.get` on a non-dict, `TypeError` for iterating
  `None`, `KeyError` for a missing key, and so on.
- `asyncio.CancelledError` is a `BaseException`, so `except Exception`
  never catches it. The model keeps that distinction wherever the source
  catches exceptions.

The network, clocks and converters enter as parameters:

- An HTTP request is a function from the request to a response or an
  exception.
- A WebSocket listener runs over a finite sequence of connection attempts
  (`Streams.Connection`). Each attempt is refused with an exception, or opens
  and delivers a finite sequence of frames before it closes or raises.
- Cancellation at a suspension point is that step raising `CancelledError`.
- `REST_URL`, the clock, sleep durations that depend on the clock,
  `API_REASONS` and the `bitmax_utils` converters are parameters too.

Specification functions describe what each loop does (`Streams.RunOf`,
`BideskDataSource.Rounds`, `BitmaxDataSource.MidPrices`, …). The imperative
methods, which put messages on a `Streams.MessageQueue` object or fill a
result dict in a loop, are proved against those functions. The properties
the source promises are then proved about the functions as lemmas.

Where the description of the system and the code disagree, the model
follows the code:

- A malformed inbound message is not dropped and logged. On Bitmax the
  handler re-raises, so the connection ends and the listener sleeps 30
  seconds before it reconnects. On Bidesk the exception leaves the `async
  for` in the same way.
- On Bitmax, a response whose `code` is not 0 does not raise the `IOError`
  the code tries to build. Building its message reads `.message` on a dict,
  which raises `AttributeError` first.

## Model

| member | source | states |
|---|---|---|
| BideskUtils.MsTimestampToS | hummingbot/connector/exchange/bidesk/bidesk_utils.py:44-45 | the result is the floor of ms/1000: `s*1000 <= ms < s*1000+1000`, for negative inputs too |
| BideskUtils.MsTimestampToSExamples | hummingbot/connector/exchange/bidesk/bidesk_utils.py:44-45 | 1999 ms is 1 s, -1 ms is -1 s, and a millisecond epoch maps to its whole seconds |
| BideskUtils.SplitTradingPairSpec | hummingbot/connector/exchange/bidesk/bidesk_utils.py:48-53 | a split exists iff the symbol is a word followed by USDT, BTC or ETH; then base ++ quote is the input, the base is a word, the quote is listed and the cut point is unique |
| BideskUtils.SplitTradingPair | hummingbot/connector/exchange/bidesk/bidesk_utils.py:48-53 | a value that is not a string gives None, as the caught `match` failure does |
| BideskUtils.ConvertFromExchangeTradingPair | hummingbot/connector/exchange/bidesk/bidesk_utils.py:56-60 | gives a pair iff the exchange symbol splits; then it is one character longer than the symbol, the dash between base and quote |
| BideskUtils.GetApiReason | hummingbot/connector/exchange/bidesk/bidesk_utils.py:72-73 | `int(code)` failing is a ValueError; a parsed code that is a key gives its listed reason, and one that is not gives back the code string unchanged |
| BideskUtils.GetApiReasonOfCode | hummingbot/connector/exchange/bidesk/bidesk_utils.py:72-73 | for the decimal form of n: the reason for n when n is a key, otherwise the code itself |
| BideskUtils.ConvertToExchangeTradingPair | hummingbot/connector/exchange/bidesk/bidesk_utils.py:63-64 | the result has no dash and is no longer than the input |
| BideskUtils.ConvertToAppend | hummingbot/connector/exchange/bidesk/bidesk_utils.py:63-64 | dash removal distributes over concatenation |
| BideskUtils.ConvertToWithoutDash | hummingbot/connector/exchange/bidesk/bidesk_utils.py:63-64 | a dash-free string is left unchanged |
| BideskUtils.ConvertToDeletesDashes | hummingbot/connector/exchange/bidesk/bidesk_utils.py:63-64 | the dash between two parts is deleted, and every other single character is kept |
| BideskUtils.ConvertToAddsNothing | hummingbot/connector/exchange/bidesk/bidesk_utils.py:63-64 | every character of the result occurs in the input |
| BideskUtils.ConvertToIdempotent | hummingbot/connector/exchange/bidesk/bidesk_utils.py:63-64 | converting twice is converting once |
| BideskUtils.ConvertToOfJoined | hummingbot/connector/exchange/bidesk/bidesk_utils.py:63-64 | for dash-free base and quote, `b-q` becomes `bq` |
| BideskUtils.QuotesSuffixFree | hummingbot/connector/exchange/bidesk/bidesk_utils.py:9 | no Bidesk quote is a proper suffix of another |
| BideskUtils.QuotesHaveNoDash | hummingbot/connector/exchange/bidesk/bidesk_utils.py:9 | no Bidesk quote contains a dash |
| BideskUtils.WordHasNoDash | hummingbot/connector/exchange/bidesk/bidesk_utils.py:9 | a `\w+` match contains no dash |
| BideskUtils.FromThenTo | hummingbot/connector/exchange/bidesk/bidesk_utils.py:56-64 | convert_to(convert_from(s)) == s whenever convert_from(s) is not None |
| BideskUtils.ToThenFrom | hummingbot/connector/exchange/bidesk/bidesk_utils.py:56-64 | convert_from(convert_to(b-q)) == b-q for a word base and a listed quote |
| PairGrammar.WordRun | hummingbot/connector/exchange/bidesk/bidesk_utils.py:9 | the greedy `\w+` run: every character before it is a word character and the one after it is not |
| PairGrammar.SplitFromFindsLongest | hummingbot/connector/exchange/bidesk/bidesk_utils.py:9 | backtracking from a run length finds a listed quote iff one fits, and it takes the longest base that fits |
| PairGrammar.SplitIsLongestFit | hummingbot/connector/exchange/bidesk/bidesk_utils.py:9 | the regex split succeeds iff some cut fits; the cut it returns fits, and no longer base fits |
| PairGrammar.SuffixFreeUnique | hummingbot/connector/exchange/bidesk/bidesk_utils.py:9 | with a suffix-free quote list at most one cut point fits |
| PairGrammar.SplitOfSuffixFree | hummingbot/connector/exchange/bidesk/bidesk_utils.py:9 | with a suffix-free list, base ++ quote splits back into exactly (base, quote) |
| Bitfinex.SplitTradingPairSpec | hummingbot/market/bitfinex/__init__.py:9 | a split exists iff the symbol is a word followed by one of the 17 quotes; base ++ quote is the input; the base is the longest that fits |
| Bitfinex.SplitTradingPair | hummingbot/market/bitfinex/__init__.py:9 | a split found is a word base and a listed quote that concatenate back to the symbol |
| Bitfinex.SplitAtLongest | hummingbot/market/bitfinex/__init__.py:9 | the split is at the cut with no listed quote after any later cut |
| Bitfinex.SplitBtcUsdt | hummingbot/market/bitfinex/__init__.py:9 | "BTCUSDT" splits as ("BTC", "USDT") |
| Bitfinex.SplitXtUsd | hummingbot/market/bitfinex/__init__.py:9 | "XTUSD" splits as ("XT", "USD") |
| Bitfinex.NoSplitOfBareUsdt | hummingbot/market/bitfinex/__init__.py:9 | "USDT" alone has no split, because the base must be non-empty |
| Bitfinex.NeverTusdOrBusd | hummingbot/market/bitfinex/__init__.py:9 | TUSD and BUSD are never the returned quote, because USD is tried first with a longer base |
| Bitfinex.Parse | hummingbot/market/bitfinex/__init__.py:21-23 | `SubmitOrder.parse` succeeds iff the snapshot has an item at OID 0, whose `str` is the oid; otherwise IndexError |
| BideskAuth.TimestampMs | hummingbot/connector/exchange/bidesk/bidesk_auth.py:25 | the floor of now × 1000 |
| BideskAuth.GenAuthDict | hummingbot/connector/exchange/bidesk/bidesk_auth.py:18-39 | the caller's dict becomes the signed dict (timestamp and recvWindow set, then signature set) and the result is the urlencoding of that final dict |
| BideskAuth.StampedIsTwoSets | hummingbot/connector/exchange/bidesk/bidesk_auth.py:24-27 | the first update sets timestamp, then recvWindow |
| BideskAuth.SignedIsSet | hummingbot/connector/exchange/bidesk/bidesk_auth.py:31-37 | the second update sets the signature of the stamped dict |
| BideskAuth.SignedFields | hummingbot/connector/exchange/bidesk/bidesk_auth.py:24-37 | the signed dict holds the floored timestamp, recvWindow 5000 and the HMAC hex of the stamped query; every other key keeps its value |
| BideskAuth.SignedKeys | hummingbot/connector/exchange/bidesk/bidesk_auth.py:24-31 | caller keys keep their positions; the missing ones of timestamp, recvWindow and signature follow in that order |
| BideskAuth.SignedDistinct | hummingbot/connector/exchange/bidesk/bidesk_auth.py:24-37 | signing keeps keys distinct |
| BideskAuth.FreshDictItems | hummingbot/connector/exchange/bidesk/bidesk_auth.py:24-37 | on a dict without those keys: data, then timestamp and recvWindow, then signature |
| BideskAuth.FreshDictQuery | hummingbot/connector/exchange/bidesk/bidesk_auth.py:29-39 | on a dict without those keys the returned query is the signed payload ++ "&signature=" ++ sig |
| BideskAuth.StampFresh | hummingbot/connector/exchange/bidesk/bidesk_auth.py:24-27 | a dict without timestamp and recvWindow gets them appended |
| BideskAuth.StaleSignatureIsSigned | hummingbot/connector/exchange/bidesk/bidesk_auth.py:18-37 | a signature already in the dict (as with the shared default `{}`) is part of the signed payload and is then replaced in place |
| BideskAuth.SignedTwice | hummingbot/connector/exchange/bidesk/bidesk_auth.py:18-37 | re-using a signed dict restamps timestamp in place and keeps the old signature inside the new payload |
| BideskAuth.Restamp | hummingbot/connector/exchange/bidesk/bidesk_auth.py:24-27 | stamping a stamped and signed dict changes only the timestamp value |
| BideskAuth.GetAuthHeaders | hummingbot/connector/exchange/bidesk/bidesk_auth.py:41-50 | exactly the keys Content-Type and X-BH-APIKEY, with the form content type and the API key |
| UrlEncoding.QuotePlusOfSafe | hummingbot/connector/exchange/bidesk/bidesk_auth.py:29 | `quote_plus` keeps a string of always-safe characters as it is |
| UrlEncoding.QuotePlusSeparators | hummingbot/connector/exchange/bidesk/bidesk_auth.py:29 | a quoted key or value never holds `&` or `=` |
| UrlEncoding.HexDigestSafe | hummingbot/connector/exchange/bidesk/bidesk_auth.py:32-36 | a hex digest is made only of safe characters, so it is encoded as it is |
| UrlEncoding.UrlencodeAppend | hummingbot/connector/exchange/bidesk/bidesk_auth.py:39 | encoding one more item appends `&k=v` |
| UrlEncoding.UrlencodeSplits | hummingbot/connector/exchange/bidesk/bidesk_auth.py:29 | splitting a non-empty query on `&` gives back the encoded items, in order |
| Dicts.SetGet | hummingbot/connector/exchange/bidesk/bidesk_auth.py:24 | after `d[k] = v`, k maps to v and every other key keeps its value |
| Dicts.SetDistinct | hummingbot/connector/exchange/bidesk/bidesk_auth.py:24 | assignment keeps keys distinct |
| Dicts.SetAfter | hummingbot/connector/exchange/bidesk/bidesk_auth.py:24 | re-assigning an existing key replaces its entry in place |
| Dicts.UpdateDistinct | hummingbot/connector/exchange/bidesk/bidesk_auth.py:24-27 | `update` keeps keys distinct |
| Dicts.Dict.Update | hummingbot/connector/exchange/bidesk/bidesk_auth.py:24-27 | `d.update(e)` in place: the new items are the old ones updated with e |
| BideskRestFul.RestFul.constructor | hummingbot/connector/exchange/bidesk/bidesk_restful.py:23-26 | has-auth iff an auth object is given; headers are its auth headers, otherwise empty |
| BideskRestFul.Classify | hummingbot/connector/exchange/bidesk/bidesk_restful.py:43-53 | non-200 is an IOError with the status, whatever the body; a dict body with a negative code is an IOError with code and msg; an unorderable code is a TypeError; any other body (a list, a code that is absent, None or non-negative) is returned as it is |
| BideskRestFul.RestFul.Request | hummingbot/connector/exchange/bidesk/bidesk_restful.py:28-53 | the URL is REST_URL ++ path ++ "/?" ++ query (signed query with auth, plain urlencode without); with auth the caller's dict is signed in place; the result is the classified response or the client's exception |
| BideskRestFul.RestFul.Get | hummingbot/connector/exchange/bidesk/bidesk_restful.py:55-56 | `request` with GET and the same path and data |
| BideskRestFul.RestFul.Post | hummingbot/connector/exchange/bidesk/bidesk_restful.py:58-59 | `request` with POST and the same path and data |
| BideskDataSource.GetUnsigned | hummingbot/connector/exchange/bidesk/bidesk_api_order_book_data_source.py:48 | an unauthenticated GET on a fresh dict: the classified response for that path and query |
| BideskDataSource.PriceEntry | hummingbot/connector/exchange/bidesk/bidesk_api_order_book_data_source.py:51-52 | one item yields its dash-stripped symbol and its price; a non-dict item or a non-string symbol is an AttributeError |
| BideskDataSource.PriceTableSucceeds | hummingbot/connector/exchange/bidesk/bidesk_api_order_book_data_source.py:50-52 | the table is built iff every item yields an entry |
| BideskDataSource.PriceTableEntry | hummingbot/connector/exchange/bidesk/bidesk_api_order_book_data_source.py:50-52 | a built table means every item yielded its entry |
| BideskDataSource.PriceTableBuilt | hummingbot/connector/exchange/bidesk/bidesk_api_order_book_data_source.py:50-52 | every item yielding an entry means the table is built |
| BideskDataSource.PriceTableLastWins | hummingbot/connector/exchange/bidesk/bidesk_api_order_book_data_source.py:46-54 | keys are distinct and dash-free, and each maps to the price of the last item with that symbol |
| BideskDataSource.GetPrices | hummingbot/connector/exchange/bidesk/bidesk_api_order_book_data_source.py:46-54 | the result is the price table of the ticker response, or its failure |
| BideskDataSource.Prices | hummingbot/connector/exchange/bidesk/bidesk_api_order_book_data_source.py:46-54 | a failed ticker request is the result; a table built has distinct keys, none containing a dash |
| BideskDataSource.BuildPriceTable | hummingbot/connector/exchange/bidesk/bidesk_api_order_book_data_source.py:50-52 | the loop builds exactly the price table |
| BideskDataSource.PriceTableFails | hummingbot/connector/exchange/bidesk/bidesk_api_order_book_data_source.py:50-52 | an item that raises is the failure of the whole loop |
| BideskDataSource.LastTradedSpec | hummingbot/connector/exchange/bidesk/bidesk_api_order_book_data_source.py:57-67 | a pair is a key iff it was requested and its dash-stripped form has a non-None price, and then it maps to `float` of that price |
| BideskDataSource.GetLastTradedPrices | hummingbot/connector/exchange/bidesk/bidesk_api_order_book_data_source.py:57-67 | the failure of get_prices, or the filtered table of its prices |
| BideskDataSource.BuildLastTraded | hummingbot/connector/exchange/bidesk/bidesk_api_order_book_data_source.py:61-65 | the loop builds exactly that table |
| BideskDataSource.LastTradedFails | hummingbot/connector/exchange/bidesk/bidesk_api_order_book_data_source.py:61-65 | a `float` that raises is the failure of the whole loop |
| BideskDataSource.FetchTradingPairs | hummingbot/connector/exchange/bidesk/bidesk_api_order_book_data_source.py:70-81 | the price-table keys; `[]` on any Exception; only a CancelledError propagates |
| BideskDataSource.OrderBookDataSpec | hummingbot/connector/exchange/bidesk/bidesk_api_order_book_data_source.py:84-95 | the depth response as it is; any failure except cancellation is an IOError naming the pair and carrying the cause |
| BideskDataSource.DepthQuery | hummingbot/connector/exchange/bidesk/bidesk_api_order_book_data_source.py:86-89 | the depth query is `symbol=<quoted dash-stripped pair>&limit=100` |
| BideskDataSource.GetOrderBookData | hummingbot/connector/exchange/bidesk/bidesk_api_order_book_data_source.py:84-95 | computes exactly `get_order_book_data` |
| BideskDataSource.OrderBookData | hummingbot/connector/exchange/bidesk/bidesk_api_order_book_data_source.py:84-95 | every failure is a CancelledError or an IOError naming the requested pair |
| BideskDataSource.TradeSubscription | hummingbot/connector/exchange/bidesk/bidesk_api_order_book_data_source.py:120-127 | a dict with keys symbol, topic, event, params in that order; topic `trade`, event `sub`, params `{"binary": False}`, symbols joined by ", " |
| BideskDataSource.DepthSubscription | hummingbot/connector/exchange/bidesk/bidesk_api_order_book_data_source.py:161-168 | the same keys; topic `depth`, event `sub`, params `{"binary": False}`, symbols joined by "," |
| BideskDataSource.SubscriptionFields | hummingbot/connector/exchange/bidesk/bidesk_api_order_book_data_source.py:120-127 | the four keys of a subscription and the value found under symbol, topic, event and params |
| BideskDataSource.ExchangeSymbols | hummingbot/connector/exchange/bidesk/bidesk_api_order_book_data_source.py:121 | one dash-stripped symbol per tracked pair, in order |
| BideskDataSource.DepthSubscriptionLists | hummingbot/connector/exchange/bidesk/bidesk_api_order_book_data_source.py:161-168 | the depth subscription's symbol splits on "," back into the tracked symbols; its topic is depth |
| BideskDataSource.Refusal | hummingbot/connector/exchange/bidesk/bidesk_api_order_book_data_source.py:117-119 | a cancelled connect stays a CancelledError; any other failure, which `connect` swallows, surfaces as the AttributeError of `emit` on the missing client |
| BideskDataSource.MsToS | hummingbot/connector/exchange/bidesk/bidesk_api_order_book_data_source.py:136 | a number is floored to seconds, a boolean gives 0, anything else is a TypeError |
| BideskDataSource.DataEntries | hummingbot/connector/exchange/bidesk/bidesk_api_order_book_data_source.py:134 | a missing `data` yields no entries; otherwise its iteration |
| BideskDataSource.TradeEntry | hummingbot/connector/exchange/bidesk/bidesk_api_order_book_data_source.py:135-141 | a trade message from one entry, stamped floor(t/1000), with the pair as metadata; a non-dict entry is an AttributeError |
| BideskDataSource.DepthEntry | hummingbot/connector/exchange/bidesk/bidesk_api_order_book_data_source.py:176-187 | a diff message from one entry, stamped floor(t/1000), with pair, bids and asks as metadata |
| BideskDataSource.TradeStep | hummingbot/connector/exchange/bidesk/bidesk_api_order_book_data_source.py:129-142 | a non-JSON frame is a ValueError; a non-dict is an AttributeError; another topic emits nothing; only trade messages are emitted |
| BideskDataSource.DepthStep | hummingbot/connector/exchange/bidesk/bidesk_api_order_book_data_source.py:170-188 | the same guards for the depth topic; only diff messages are emitted |
| BideskDataSource.TradeMessageExpands | hummingbot/connector/exchange/bidesk/bidesk_api_order_book_data_source.py:129-142 | a well-formed trade message with k entries emits exactly k messages in order, each stamped floor(t/1000) and carrying the dashed pair |
| BideskDataSource.DepthMessageExpands | hummingbot/connector/exchange/bidesk/bidesk_api_order_book_data_source.py:170-188 | a well-formed depth message with k entries emits exactly k diff messages in order, each stamped floor(t/1000) and carrying the dashed pair and the entry's `b` and `a` |
| BideskDataSource.NoDataEmitsNothing | hummingbot/connector/exchange/bidesk/bidesk_api_order_book_data_source.py:170-175 | a depth message without `data` puts nothing and raises nothing, and so does a trade message (the same `get("data", list())` at line 134) |
| BideskDataSource.Pauses | hummingbot/connector/exchange/bidesk/bidesk_api_order_book_data_source.py:222 | k sleeps of 5 seconds |
| BideskDataSource.RoundWaits | hummingbot/connector/exchange/bidesk/bidesk_api_order_book_data_source.py:210-233 | an uncancelled pass over p pairs sleeps 5 s exactly p times and emits at most p snapshots |
| BideskDataSource.RoundPutsFetched | hummingbot/connector/exchange/bidesk/bidesk_api_order_book_data_source.py:209-233 | an uncancelled pass over p pairs puts exactly the snapshots of the pairs whose fetch succeeded, in pair order, stamped with the clock after each fetch |
| BideskDataSource.RoundEvents | hummingbot/connector/exchange/bidesk/bidesk_api_order_book_data_source.py:209-237 | an uncancelled round puts exactly the snapshots of its successful fetches, in pair order |
| BideskDataSource.RoundSleeps | hummingbot/connector/exchange/bidesk/bidesk_api_order_book_data_source.py:210-237 | an uncancelled round sleeps 5 s per pair, then until the next hour |
| BideskDataSource.RoundAllFetched | hummingbot/connector/exchange/bidesk/bidesk_api_order_book_data_source.py:210-219 | when every fetch succeeds, one snapshot per pair is emitted, in list order |
| BideskDataSource.CancelledFetchEndsRound | hummingbot/connector/exchange/bidesk/bidesk_api_order_book_data_source.py:223-224 | a cancelled fetch ends the pass; pairs after it are not fetched |
| BideskDataSource.CancelledPassStops | hummingbot/connector/exchange/bidesk/bidesk_api_order_book_data_source.py:223-224 | once a pass is cancelled, later pairs change nothing |
| BideskDataSource.CancelledRoundStops | hummingbot/connector/exchange/bidesk/bidesk_api_order_book_data_source.py:238-239 | once the poller is cancelled, later rounds change nothing |
| BideskDataSource.FetchDepth | hummingbot/connector/exchange/bidesk/bidesk_api_order_book_data_source.py:212 | one depth fetch of the poller: what `get_order_book_data` answers for that round and pair |
| BideskDataSource.DepthFetchFetchesDepth | hummingbot/connector/exchange/bidesk/bidesk_api_order_book_data_source.py:212 | the depth requests form a fetch function the poller can run with |
| BideskDataSource.BideskAPIOrderBookDataSource.ListenForTrades | hummingbot/connector/exchange/bidesk/bidesk_api_order_book_data_source.py:111-150 | the queue gets the run's messages; 5 s after each non-cancellation error; cancellation ends it; the ", "-joined trade subscription is sent on each connection |
| BideskDataSource.BideskAPIOrderBookDataSource.ListenForOrderBookDiffs | hummingbot/connector/exchange/bidesk/bidesk_api_order_book_data_source.py:152-202 | the same with 30 s and the ","-joined depth subscription |
| BideskDataSource.BideskAPIOrderBookDataSource.PollRound | hummingbot/connector/exchange/bidesk/bidesk_api_order_book_data_source.py:210-237 | one round as specified by `Round`: the snapshots put, the sleeps taken, whether it was cancelled |
| BideskDataSource.BideskAPIOrderBookDataSource.ListenForOrderBookSnapshots | hummingbot/connector/exchange/bidesk/bidesk_api_order_book_data_source.py:204-243 | the given number of rounds as specified by `Rounds`, stopping at a cancellation |
| Streams.MessageQueue.PutNowait | hummingbot/connector/exchange/bidesk/bidesk_api_order_book_data_source.py:142 | `put_nowait` appends one message to the queue |
| Streams.Expand | hummingbot/connector/exchange/bitmax/bitmax_api_order_book_data_source.py:139-148 | the messages made before the first entry that raises, in order; no failure iff every entry succeeds, and then one message per entry |
| Streams.RunSession | hummingbot/connector/exchange/bitmax/bitmax_api_order_book_data_source.py:133-150 | the `async for` puts exactly the session's messages and ends as the session does |
| Streams.RunAttempt | hummingbot/connector/exchange/bitmax/bitmax_api_order_book_data_source.py:129-150 | one connection attempt: its messages and how it ends |
| Streams.Listen | hummingbot/connector/exchange/bitmax/bitmax_api_order_book_data_source.py:118-157 | the reconnect loop over given attempts puts exactly RunOf's messages, sleeps RunOf's waits, sends one subscription per opened connection and reports cancellation |
| Streams.ListenStep | hummingbot/connector/exchange/bitmax/bitmax_api_order_book_data_source.py:120-157 | one pass of the reconnect loop takes the run from the attempts before it to the run including this attempt, in queue, waits, subscriptions and cancellation |
| Streams.RunStep | hummingbot/connector/exchange/bitmax/bitmax_api_order_book_data_source.py:120-157 | one more attempt adds its messages, one back-off sleep exactly when it raised something other than CancelledError, one connection when it opened, and cancels exactly on CancelledError |
| Streams.CancelledStays | hummingbot/connector/exchange/bitmax/bitmax_api_order_book_data_source.py:151-152 | once a run is cancelled, later attempts change nothing |
| Streams.CancelledStops | hummingbot/connector/exchange/bitmax/bitmax_api_order_book_data_source.py:151-152 | a CancelledError in attempt k ends the listener there, and the waits are those before attempt k |
| Streams.ErrorBacksOff | hummingbot/connector/exchange/bidesk/bidesk_api_order_book_data_source.py:143-148 | an attempt ending in any exception other than CancelledError adds exactly one sleep of the back-off |
| Streams.CancelledNoWait | hummingbot/connector/exchange/bitmax/bitmax_api_order_book_data_source.py:151-152 | an attempt ending in CancelledError cancels the listener and adds no sleep |
| Streams.NeverCancelled | hummingbot/connector/exchange/bitmax/bitmax_api_order_book_data_source.py:118-157 | without a cancellation every attempt is made and one subscription is sent per opened connection |
| Streams.OpenOnes | hummingbot/connector/exchange/bitmax/bitmax_api_order_book_data_source.py:129 | the opened connections among the attempts |
| Streams.WaitsAreBackoff | hummingbot/connector/exchange/bitmax/bitmax_api_order_book_data_source.py:153-157 | every sleep is the back-off, and there is at most one per attempt |
| Streams.ClosedReconnectsAtOnce | hummingbot/connector/exchange/bitmax/bitmax_api_order_book_data_source.py:118-157 | a stream that simply ends is reconnected with no sleep |
| Streams.FailureEndsSession | hummingbot/connector/exchange/bitmax/bitmax_api_order_book_data_source.py:149-150 | a frame whose handling raises ends the session with that exception; later frames are never handled |
| BitmaxDataSource.MidEntry | hummingbot/connector/exchange/bitmax/bitmax_api_order_book_data_source.py:57-65 | a non-dict item is an AttributeError; an unrequested pair contributes nothing; a contributed pair is one requested |
| BitmaxDataSource.Side | hummingbot/connector/exchange/bitmax/bitmax_api_order_book_data_source.py:63-64 | `float(side[0])`, failing as `[0]` does |
| BitmaxDataSource.MidPricesSucceeds | hummingbot/connector/exchange/bitmax/bitmax_api_order_book_data_source.py:57-65 | the loop succeeds iff every item does |
| BitmaxDataSource.MidPricesEntry | hummingbot/connector/exchange/bitmax/bitmax_api_order_book_data_source.py:57-65 | a finished loop means no item raised |
| BitmaxDataSource.MidPricesBuilt | hummingbot/connector/exchange/bitmax/bitmax_api_order_book_data_source.py:57-65 | no item raising means the loop finishes |
| BitmaxDataSource.MidPricesSpec | hummingbot/connector/exchange/bitmax/bitmax_api_order_book_data_source.py:38-67 | keys are distinct requested pairs, and each maps to the mid of the first ask and first bid of the last item naming it |
| BitmaxDataSource.Body | hummingbot/connector/exchange/bitmax/bitmax_api_order_book_data_source.py:50-57 | a non-JSON body cannot be decoded; a non-dict or a code other than 0 is an AttributeError; otherwise the iteration of `data` |
| BitmaxDataSource.GetLastTradedPrices | hummingbot/connector/exchange/bitmax/bitmax_api_order_book_data_source.py:38-67 | client failure, IOError on non-200, then the checked body's mid prices |
| BitmaxDataSource.LastTradedPrices | hummingbot/connector/exchange/bitmax/bitmax_api_order_book_data_source.py:38-67 | a client failure propagates; a status other than 200 is an IOError carrying that status; a result has distinct keys, all requested pairs |
| BitmaxDataSource.BuildMidPrices | hummingbot/connector/exchange/bitmax/bitmax_api_order_book_data_source.py:57-65 | the loop builds exactly MidPrices |
| BitmaxDataSource.MidPricesFails | hummingbot/connector/exchange/bitmax/bitmax_api_order_book_data_source.py:57-65 | an item that raises is the failure of the whole loop |
| BitmaxDataSource.Symbols | hummingbot/connector/exchange/bitmax/bitmax_api_order_book_data_source.py:79 | succeeds iff every item has a symbol that converts; then one converted symbol per item, in order |
| BitmaxDataSource.FetchTradingPairs | hummingbot/connector/exchange/bitmax/bitmax_api_order_book_data_source.py:69-79 | `[]` on non-200; otherwise the converted symbols of `data`; decode, key and type errors propagate |
| BitmaxDataSource.OrderBookData | hummingbot/connector/exchange/bitmax/bitmax_api_order_book_data_source.py:81-102 | succeeds iff status 200, a dict body, code 0 and a `data` key, and then it is `data`; non-200 is an IOError naming the pair |
| BitmaxDataSource.DepthUrl | hummingbot/connector/exchange/bitmax/bitmax_api_order_book_data_source.py:87 | the REST URL, then `/depth?symbol=`, then the exchange symbol as it is, not percent-encoded |
| BitmaxDataSource.ExchangeSymbols | hummingbot/connector/exchange/bitmax/bitmax_api_order_book_data_source.py:121-123 | one converted symbol per tracked pair, in order |
| BitmaxDataSource.ChannelLists | hummingbot/connector/exchange/bitmax/bitmax_api_order_book_data_source.py:121-127 | the channel starts with topic ++ ":" and the rest splits on "," back into the converted symbols |
| BitmaxDataSource.Payload | hummingbot/connector/exchange/bitmax/bitmax_api_order_book_data_source.py:121-127 | a dict with keys op and ch in that order; op is `sub`, ch is the channel |
| BitmaxDataSource.Filter | hummingbot/connector/exchange/bitmax/bitmax_api_order_book_data_source.py:135-137 | a non-JSON frame is a ValueError; `None` and another `m` are skipped; a non-dict is an AttributeError |
| BitmaxDataSource.TradeEntry | hummingbot/connector/exchange/bitmax/bitmax_api_order_book_data_source.py:140-146 | a trade message stamped from the element's own `ts`, carrying the converted symbol |
| BitmaxDataSource.TradesStep | hummingbot/connector/exchange/bitmax/bitmax_api_order_book_data_source.py:133-150 | filtered frames emit nothing or raise; only trade messages are emitted |
| BitmaxDataSource.TradesExpand | hummingbot/connector/exchange/bitmax/bitmax_api_order_book_data_source.py:139-148 | a well-formed trades message emits one message per `data` element, in order, each stamped from its `ts` |
| BitmaxDataSource.Single | hummingbot/connector/exchange/bitmax/bitmax_api_order_book_data_source.py:181-188 | succeeds iff `data` is a dict whose `ts` converts and the symbol converts; then one message of `data` with that stamp and pair |
| BitmaxDataSource.SingleStep | hummingbot/connector/exchange/bitmax/bitmax_api_order_book_data_source.py:175-190 | at most one message, of the given kind, and none when it raises |
| BitmaxDataSource.BboStep | hummingbot/connector/exchange/bitmax/bitmax_api_order_book_data_source.py:175-190 | a bbo message makes at most one diff message |
| BitmaxDataSource.DepthStep | hummingbot/connector/exchange/bitmax/bitmax_api_order_book_data_source.py:215-230 | a depth message makes at most one snapshot message |
| BitmaxDataSource.MalformedFrameEndsConnection | hummingbot/connector/exchange/bitmax/bitmax_api_order_book_data_source.py:149-157 | a non-JSON frame ends its connection with ValueError, and exactly one 30 s sleep follows |
| BitmaxDataSource.BitmaxAPIOrderBookDataSource.constructor | hummingbot/connector/exchange/bitmax/bitmax_api_order_book_data_source.py:33-36 | keeps the tracked pairs |
| BitmaxDataSource.BitmaxAPIOrderBookDataSource.ListenForTrades | hummingbot/connector/exchange/bitmax/bitmax_api_order_book_data_source.py:118-157 | the queue gets the run's messages; 30 s after every non-cancellation error, connect failures included; the trades payload is sent on each connection |
| BitmaxDataSource.BitmaxAPIOrderBookDataSource.ListenForOrderBookDiffs | hummingbot/connector/exchange/bitmax/bitmax_api_order_book_data_source.py:159-197 | the same on the bbo channel |
| BitmaxDataSource.BitmaxAPIOrderBookDataSource.ListenForOrderBookSnapshots | hummingbot/connector/exchange/bitmax/bitmax_api_order_book_data_source.py:199-236 | the same on the depth channel |
| PyRuntime.Iterate | hummingbot/connector/exchange/bitmax/bitmax_api_order_book_data_source.py:57 | `for x in j`: a list gives its items, a dict its keys in order, a string its characters, None, a number or a bool a TypeError |
| PyRuntime.Subscript | hummingbot/connector/exchange/bitmax/bitmax_api_order_book_data_source.py:79 | `j[key]` succeeds iff j is a dict holding key, giving its value |
| PyRuntime.First | hummingbot/connector/exchange/bitmax/bitmax_api_order_book_data_source.py:63 | `j[0]` succeeds iff j is a non-empty list or string |
| Json.GetOrNull | hummingbot/connector/exchange/bitmax/bitmax_api_order_book_data_source.py:58 | `d.get(key)`: the value, or None when the key is absent |

## Left out

- The WebSocket clients: `bidesk_websocket.py` and Bitmax's `_inner_messages`. They handle the connect, the listen-key POST, pings, receive timeouts and close. Here a connection is a finite sequence of decoded frames plus how it ends. A non-JSON frame is a `None` frame.
- HMAC-SHA256 is a function parameter, because it is a foreign cryptographic primitive. Its hex rendering is modelled.
- aiohttp, websockets, ujson and pandas are foreign libraries. The HTTP client is a function from the request to a response or an exception.
- Clocks and sleeps. `time.time()` and the sleep until the next hour are parameters, and a sleep is recorded as its duration. A cancellation during a sleep is not modelled. Cancellation is modelled at the transport steps only.
- Concurrency between the three listeners and asyncio scheduling are not modelled, because each listener is sequential on its own.
- Floating point. `float(...)` is a parameter; the Bitmax mid price `(ask + bid) / 2` and the Bitmax timestamp converter are exact reals. Bidesk's `ms / 1e3` is exact floor division, so it does not lose precision beyond 2^53. BideskAuth.TimestampMs floors the exact real `now * 1000`; Python floors the rounded float product, which can be 1 ms higher when that product rounds up to an integer.
- `BideskOrderBook` and `BitmaxOrderBook` message constructors are not part of this model. An order-book message is just its kind, content, timestamp and metadata.
- `get_new_order_book`, on both exchanges, is left out. It needs the unseen order-book constructors, the active-order trackers and `apply_snapshot`.
- `bitmax_utils` is not part of this model, so its converters are the function fields of `BitmaxDataSource.Converters`.
- `bidesk_constants` is not part of this model. `REST_URL` and `API_REASONS` are parameters, and `EXCHANGE_NAME` appears only inside error messages, whose text is not modelled.
- The text of every error message and log line, `print` and the loggers are left out, because they are output only. An `IOError` carries the values its message would show.
- Python regex corner cases are left out: Unicode `\w` and `$` matching before a trailing newline. `\w` is ASCII letters, digits and `_`.
- `int(code)` in `get_api_reason` accepts digits with an optional sign. Surrounding whitespace and underscores are not modelled.
- A `trading_pairs` argument of `None`, the constructors' default, is not modelled. The tracked pairs are always a list.
- The `KEYS` configuration block and the Bitfinex URL and increment constants are not modelled, because nothing in the core uses them.
- JSON numbers are integers, because no branch of the core depends on a fractional value.
- A `Json.JObj` stands for a decoded dict, so its keys are distinct. The type does not enforce this, and on a repeated key the lookups see the first occurrence where the decoders keep the last.
- BideskDataSource.BideskAPIOrderBookDataSource.ListenForOrderBookSnapshots: the endless `while True` is modelled for a given finite number of rounds, and round r's depth request answers are `transports(r, pair)`. The outer `except Exception` around the hour computation is not reached, because that computation is a parameter.
- Bidesk's `finally: await ws.disconnect()` is not modelled, because it has no effect on the queue or the waits.
- The `self._snapshot_msg` dict is set by both constructors and never used. It is left out.
