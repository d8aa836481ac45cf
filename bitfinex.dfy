/** The Bitfinex trading-pair grammar and order-snapshot parsing (`bitfinex/__init__.py`). */
module Bitfinex {
  import opened Wrappers
  import opened PyRuntime
  import opened Json
  import opened PairGrammar

  /** The quote alternatives of `TRADING_PAIR_SPLITTER`, in the order written. */
  const Quotes: seq<string> :=
    ["BTC", "ETH", "BNB", "XRP", "USD", "USDT", "USDC", "USDS", "TUSD",
     "PAX", "TRX", "BUSD", "NGN", "LTC", "ETC", "XMR", "DASH"]

  /**
   `split_trading_pair`: the `TRADING_PAIR_SPLITTER` match, as (base, quote).
   A split found is a word base followed by one of the listed quotes.
   */
  function SplitTradingPair(s: string): (r: Option<(string, string)>)
    ensures r.Some? ==> IsWord(r.value.0) && r.value.1 in Quotes && r.value.0 + r.value.1 == s
  {
    SplitIsLongestFit(Quotes, s);
    Split(Quotes, s)
  }

  /**
   A split exists exactly when the symbol is a word followed by a listed
   quote; the base is the longest that fits, so the quote is the shortest.
   */
  lemma SplitTradingPairSpec(s: string)
    ensures SplitTradingPair(s).Some? <==> exists k :: IsSplitAt(Quotes, s, k)
    ensures SplitTradingPair(s).Some? ==>
      var r := SplitTradingPair(s).value;
      && IsWord(r.0) && r.1 in Quotes && r.0 + r.1 == s
      && forall k :: IsSplitAt(Quotes, s, k) ==> k <= |r.0|
  {
    SplitIsLongestFit(Quotes, s);
  }

  /** The split of `s` is the one after its first `k` characters, when no later cut fits. */
  lemma SplitAtLongest(s: string, k: nat)
    requires IsSplitAt(Quotes, s, k)
    requires forall j :: k < j <= |s| ==> s[j..] !in Quotes
    ensures SplitTradingPair(s) == Some((s[..k], s[k..]))
  {
    SplitIsLongestFit(Quotes, s);
    var r := SplitTradingPair(s).value;
    assert |r.0| == k;
    assert s == r.0 + r.1;
    assert s[..k] == r.0 && s[k..] == r.1;
  }

  /** `USD` followed by `T` fails the `$` anchor, so `BTCUSDT` is quoted in `USDT`. */
  lemma SplitBtcUsdt()
    ensures SplitTradingPair("BTCUSDT") == Some(("BTC", "USDT"))
  {
    var s := "BTCUSDT";
    assert s[..3] == "BTC" && s[3..] == "USDT";
    assert s[4..] == "SDT" && s[5..] == "DT" && s[6..] == "T" && s[7..] == "";
    SplitAtLongest(s, 3);
  }

  /** The greedy base takes the `T` of `TUSD`. */
  lemma SplitXtUsd()
    ensures SplitTradingPair("XTUSD") == Some(("XT", "USD"))
  {
    var s := "XTUSD";
    assert s[..2] == "XT" && s[2..] == "USD";
    assert s[3..] == "SD" && s[4..] == "D" && s[5..] == "";
    SplitAtLongest(s, 2);
  }

  /** A bare quote has no split: `\w+` needs at least one base character. */
  lemma NoSplitOfBareUsdt()
    ensures SplitTradingPair("USDT") == None
  {
    var s := "USDT";
    SplitIsLongestFit(Quotes, s);
    assert s[1..] == "SDT" && s[2..] == "DT" && s[3..] == "T" && s[4..] == "";
  }

  /** `TUSD` and `BUSD` are never returned: `USD` with a longer base always fits as well. */
  lemma NeverTusdOrBusd(s: string)
    requires SplitTradingPair(s).Some?
    ensures SplitTradingPair(s).value.1 != "TUSD" && SplitTradingPair(s).value.1 != "BUSD"
  {
    SplitIsLongestFit(Quotes, s);
    var r := SplitTradingPair(s).value;
    if r.1 == "TUSD" || r.1 == "BUSD" {
      var k := |r.0| + 1;
      assert s[..k] == r.0 + [r.1[0]];
      assert s[k..] == "USD";
      assert IsSplitAt(Quotes, s, k);
      assert false;
    }
  }

  /** `SubmitOrder`: an order id, kept as its string form. */
  datatype SubmitOrder = SubmitOrder(oid: string)

  /** `SubmitOrder.OID`: the position of the id in an order snapshot. */
  const OID: nat := 0

  /**
   `SubmitOrder.parse(order_snapshot)`: `str` of the snapshot's element at
   `OID`; indexing an empty snapshot raises `IndexError`. Python's `str` on
   the element is the parameter `str`.
   */
  function Parse(orderSnapshot: seq<Json>, str: Json -> string): (r: Result<SubmitOrder, PyError>)
    ensures r.Success? <==> OID < |orderSnapshot|
    ensures r.Success? ==> r.value.oid == str(orderSnapshot[0])
    ensures r.Failure? ==> r.error == IndexError
  {
    if OID < |orderSnapshot| then Success(SubmitOrder(str(orderSnapshot[OID]))) else Failure(IndexError)
  }
}
