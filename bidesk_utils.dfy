/** Symbol and timestamp translation for Bidesk (`bidesk_utils.py`). */
module BideskUtils {
  import opened Wrappers
  import opened Json
  import opened PyRuntime
  import opened PairGrammar
  import Strings

  /** The quote alternatives of `TRADING_PAIR_SPLITTER`, in the order written. */
  const Quotes: seq<string> := ["USDT", "BTC", "ETH"]

  /**
   `ms_timestamp_to_s`: `math.floor(ms / 1e3)`, i.e. floor division by 1000
   (Dafny's `/` on a positive divisor rounds toward negative infinity).
   */
  function MsTimestampToS(ms: int): (s: int)
    ensures s * 1000 <= ms < s * 1000 + 1000
  {
    ms / 1000
  }

  /** The floor rather than the rounded or truncated value, on both sides of zero. */
  lemma MsTimestampToSExamples()
    ensures MsTimestampToS(1999) == 1
    ensures MsTimestampToS(-1) == -1
    ensures MsTimestampToS(1614000000000) == 1614000000
  {
  }

  /**
   `split_trading_pair`: the regex match on a string. Any other value makes
   `match` raise, which the function catches and turns into `None`.
   */
  function SplitTradingPair(tradingPair: Json): (r: Option<(string, string)>)
    ensures !tradingPair.JStr? ==> r.None?
  {
    match tradingPair
    case JStr(s) => Split(Quotes, s)
    case _ => None
  }

  /** `convert_from_exchange_trading_pair`: `"BASE-QUOTE"` when the symbol splits. */
  function ConvertFromExchangeTradingPair(exchangeTradingPair: Json): (r: Option<string>)
    ensures r.Some? <==> SplitTradingPair(exchangeTradingPair).Some?
    ensures r.Some? ==> exchangeTradingPair.JStr? && |r.value| == |exchangeTradingPair.s| + 1
  {
    match exchangeTradingPair
    case JStr(s) =>
      SplitIsLongestFit(Quotes, s);
      (match SplitTradingPair(exchangeTradingPair)
       case Some(p) => Some(p.0 + "-" + p.1)
       case None => None)
    case _ => None
  }

  /** `convert_to_exchange_trading_pair`: `hb_trading_pair.replace("-", "")`. */
  function ConvertToExchangeTradingPair(hbTradingPair: string): (r: string)
    ensures '-' !in r
    ensures |r| <= |hbTradingPair|
  {
    if |hbTradingPair| == 0 then ""
    else (if hbTradingPair[0] == '-' then "" else [hbTradingPair[0]]) + ConvertToExchangeTradingPair(hbTradingPair[1..])
  }

  /** `get_api_reason`: the reason listed for `int(code)`, else `code` itself; `int` may raise. */
  function GetApiReason(apiReasons: map<int, string>, code: string): (r: Result<string, PyError>)
    ensures r.Failure? <==> Strings.ParseInt(code).None?
    ensures r.Failure? ==> r.error == ValueError
    ensures r.Success? && Strings.ParseInt(code).value in apiReasons ==> r.value == apiReasons[Strings.ParseInt(code).value]
    ensures r.Success? && Strings.ParseInt(code).value !in apiReasons ==> r.value == code
  {
    match Strings.ParseInt(code)
    case None => Failure(ValueError)
    case Some(n) => Success(if n in apiReasons then apiReasons[n] else code)
  }

  /** The reason of a listed code is found from the code's decimal rendering. */
  lemma GetApiReasonOfCode(apiReasons: map<int, string>, n: int)
    ensures n in apiReasons ==> GetApiReason(apiReasons, Strings.IntToString(n)) == Success(apiReasons[n])
    ensures n !in apiReasons ==> GetApiReason(apiReasons, Strings.IntToString(n)) == Success(Strings.IntToString(n))
  {
    Strings.ParseIntToString(n);
  }

  /**
   A split exists exactly when the symbol is a word followed by one of the three
   quotes; the pieces concatenate back to the symbol, and since no quote is a
   suffix of another the split is the only one that fits.
   */
  lemma SplitTradingPairSpec(s: string)
    ensures SplitTradingPair(JStr(s)).Some? <==> exists k :: IsSplitAt(Quotes, s, k)
    ensures SplitTradingPair(JStr(s)).Some? ==>
      var r := SplitTradingPair(JStr(s)).value;
      && IsWord(r.0) && r.1 in Quotes && r.0 + r.1 == s
      && forall k :: IsSplitAt(Quotes, s, k) ==> k == |r.0|
  {
    SplitIsLongestFit(Quotes, s);
    if SplitTradingPair(JStr(s)).Some? {
      var r := SplitTradingPair(JStr(s)).value;
      QuotesSuffixFree();
      forall k | IsSplitAt(Quotes, s, k) ensures k == |r.0| {
        SuffixFreeUnique(Quotes, s, k, |r.0|);
      }
    }
  }

  lemma QuotesSuffixFree()
    ensures SuffixFree(Quotes)
  {
  }

  lemma {:induction false} ConvertToAppend(a: string, b: string)
    ensures ConvertToExchangeTradingPair(a + b) == ConvertToExchangeTradingPair(a) + ConvertToExchangeTradingPair(b)
  {
    if |a| > 0 {
      assert (a + b)[0] == a[0] && (a + b)[1..] == a[1..] + b;
      ConvertToAppend(a[1..], b);
    } else {
      assert a + b == b;
    }
  }

  /** A string without `-` is left unchanged. */
  lemma {:induction false} ConvertToWithoutDash(s: string)
    requires '-' !in s
    ensures ConvertToExchangeTradingPair(s) == s
  {
    if |s| > 0 {
      ConvertToWithoutDash(s[1..]);
      assert [s[0]] + s[1..] == s;
    }
  }

  /** Every `-` is deleted and every other character kept, in order. */
  lemma ConvertToDeletesDashes(a: string, b: string)
    ensures ConvertToExchangeTradingPair(a + "-" + b) == ConvertToExchangeTradingPair(a) + ConvertToExchangeTradingPair(b)
    ensures forall c :: c != '-' ==> ConvertToExchangeTradingPair([c]) == [c]
  {
    ConvertToAppend(a + "-", b);
    ConvertToAppend(a, "-");
  }

  /** Converting adds no character. */
  lemma {:induction false} ConvertToAddsNothing(s: string, c: char)
    requires c in ConvertToExchangeTradingPair(s)
    ensures c in s
  {
    if |s| > 0 {
      var head := if s[0] == '-' then "" else [s[0]];
      if c !in head {
        ConvertToAddsNothing(s[1..], c);
      }
    }
  }

  lemma ConvertToIdempotent(s: string)
    ensures ConvertToExchangeTradingPair(ConvertToExchangeTradingPair(s)) == ConvertToExchangeTradingPair(s)
  {
    ConvertToWithoutDash(ConvertToExchangeTradingPair(s));
  }

  lemma WordHasNoDash(s: string)
    requires IsWord(s)
    ensures '-' !in s
  {
  }

  /** Joining two dash-free pieces with `-` and converting gives their concatenation. */
  lemma ConvertToOfJoined(b: string, q: string)
    requires '-' !in b && '-' !in q
    ensures ConvertToExchangeTradingPair(b + "-" + q) == b + q
  {
    ConvertToDeletesDashes(b, q);
    ConvertToWithoutDash(b);
    ConvertToWithoutDash(q);
  }

  lemma QuotesHaveNoDash(q: string)
    requires q in Quotes
    ensures '-' !in q
  {
  }

  /** Converting a split symbol back gives the symbol: `\w` and the quotes hold no `-`. */
  lemma FromThenTo(s: string)
    requires ConvertFromExchangeTradingPair(JStr(s)).Some?
    ensures ConvertToExchangeTradingPair(ConvertFromExchangeTradingPair(JStr(s)).value) == s
  {
    SplitTradingPairSpec(s);
    var r := SplitTradingPair(JStr(s)).value;
    assert ConvertFromExchangeTradingPair(JStr(s)).value == r.0 + "-" + r.1;
    WordHasNoDash(r.0);
    QuotesHaveNoDash(r.1);
    ConvertToOfJoined(r.0, r.1);
  }

  /** A pair of a word base and a listed quote survives the trip to the exchange and back. */
  lemma ToThenFrom(b: string, q: string)
    requires IsWord(b) && q in Quotes
    ensures ConvertFromExchangeTradingPair(JStr(ConvertToExchangeTradingPair(b + "-" + q))) == Some(b + "-" + q)
  {
    WordHasNoDash(b);
    QuotesHaveNoDash(q);
    ConvertToOfJoined(b, q);
    QuotesSuffixFree();
    SplitOfSuffixFree(Quotes, b, q);
  }
}
