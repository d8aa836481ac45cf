/**
 `urllib.parse.urlencode` with its default `quote_plus` encoding, the UTF-8
 encoding it applies first, and `hexdigest()`.
 */
module UrlEncoding {
  import opened Strings

  type byte = x: int | 0 <= x < 256

  /** A query parameter value: the connectors pass strings and integers. */
  datatype Param = PStr(s: string) | PInt(i: int)

  /** `str(v)`, which `urlencode` applies to every value that is not a string. */
  function ParamStr(p: Param): string {
    match p
    case PStr(s) => s
    case PInt(i) => IntToString(i)
  }

  /** The characters `quote_plus` never escapes: ASCII letters, digits and `_.-~`. */
  predicate AlwaysSafe(c: char) {
    'A' <= c <= 'Z' || 'a' <= c <= 'z' || '0' <= c <= '9' || c == '_' || c == '.' || c == '-' || c == '~'
  }

  /** The UTF-8 encoding of one code point. */
  function Utf8Char(c: char): (bs: seq<byte>)
    ensures 1 <= |bs| <= 4
    ensures (c as int) < 0x80 ==> bs == [c as int]
    ensures (c as int) >= 0x80 ==> forall i :: 0 <= i < |bs| ==> bs[i] >= 0x80
  {
    var n := c as int;
    if n < 0x80 then [n]
    else if n < 0x800 then [0xC0 + n / 0x40, 0x80 + n % 0x40]
    else if n < 0x10000 then [0xE0 + n / 0x1000, 0x80 + (n / 0x40) % 0x40, 0x80 + n % 0x40]
    else [0xF0 + n / 0x40000, 0x80 + (n / 0x1000) % 0x40, 0x80 + (n / 0x40) % 0x40, 0x80 + n % 0x40]
  }

  /** `s.encode("utf-8")`. */
  function Utf8(s: string): seq<byte> {
    if |s| == 0 then [] else Utf8Char(s[0]) + Utf8(s[1..])
  }

  function HexDigit(d: nat, upper: bool): (c: char)
    requires d < 16
    ensures AlwaysSafe(c)
  {
    if d < 10 then ('0' as int + d) as char
    else if upper then ('A' as int + d - 10) as char
    else ('a' as int + d - 10) as char
  }

  /** `%XY` with upper-case hex digits for every byte. */
  function PercentEncode(bs: seq<byte>): string {
    if |bs| == 0 then "" else ['%', HexDigit(bs[0] / 16, true), HexDigit(bs[0] % 16, true)] + PercentEncode(bs[1..])
  }

  /** How `quote_plus` renders one character. */
  function QuoteChar(c: char): string {
    if AlwaysSafe(c) then [c] else if c == ' ' then "+" else PercentEncode(Utf8Char(c))
  }

  /** `urllib.parse.quote_plus(s)`. */
  function QuotePlus(s: string): string {
    if |s| == 0 then "" else QuoteChar(s[0]) + QuotePlus(s[1..])
  }

  /** One `key=value` item of the query string. */
  function EncodePair(k: string, v: Param): string {
    QuotePlus(k) + "=" + QuotePlus(ParamStr(v))
  }

  function EncodedPairs(items: seq<(string, Param)>): (ps: seq<string>)
    ensures |ps| == |items|
    ensures forall i :: 0 <= i < |items| ==> ps[i] == EncodePair(items[i].0, items[i].1)
  {
    seq(|items|, i requires 0 <= i < |items| => EncodePair(items[i].0, items[i].1))
  }

  /** `urllib.parse.urlencode(items)`: the encoded items joined with `&`, in dict order. */
  function Urlencode(items: seq<(string, Param)>): string {
    Join("&", EncodedPairs(items))
  }

  /** `hexdigest()`: two lower-case hex digits per byte. */
  function HexDigest(bs: seq<byte>): string {
    if |bs| == 0 then "" else [HexDigit(bs[0] / 16, false), HexDigit(bs[0] % 16, false)] + HexDigest(bs[1..])
  }

  predicate AllSafe(s: string) {
    forall i :: 0 <= i < |s| ==> AlwaysSafe(s[i])
  }

  /** `quote_plus` leaves a string of always-safe characters as it is. */
  lemma {:induction false} QuotePlusOfSafe(s: string)
    requires AllSafe(s)
    ensures QuotePlus(s) == s
  {
    if |s| > 0 {
      QuotePlusOfSafe(s[1..]);
      assert [s[0]] + s[1..] == s;
    }
  }

  lemma {:induction false} PercentEncodeSeparators(bs: seq<byte>)
    ensures '&' !in PercentEncode(bs) && '=' !in PercentEncode(bs)
  {
    if |bs| > 0 {
      PercentEncodeSeparators(bs[1..]);
    }
  }

  /** An encoded string never holds `&` or `=`, so the query string splits back into its items. */
  lemma {:induction false} QuotePlusSeparators(s: string)
    ensures '&' !in QuotePlus(s) && '=' !in QuotePlus(s)
  {
    if |s| > 0 {
      QuotePlusSeparators(s[1..]);
      PercentEncodeSeparators(Utf8Char(s[0]));
    }
  }

  lemma {:induction false} HexDigestSafe(bs: seq<byte>)
    ensures AllSafe(HexDigest(bs))
  {
    if |bs| > 0 {
      HexDigestSafe(bs[1..]);
    }
  }

  /** A one-item dict encodes as that item alone. */
  lemma UrlencodeSingle(k: string, v: Param)
    ensures Urlencode([(k, v)]) == EncodePair(k, v)
  {
    assert EncodedPairs([(k, v)]) == [EncodePair(k, v)];
  }

  /** Appending an item to a non-empty dict appends `&key=value` to its encoding. */
  lemma UrlencodeAppend(items: seq<(string, Param)>, k: string, v: Param)
    requires |items| > 0
    ensures Urlencode(items + [(k, v)]) == Urlencode(items) + "&" + EncodePair(k, v)
  {
    assert EncodedPairs(items + [(k, v)]) == EncodedPairs(items) + [EncodePair(k, v)];
    JoinAppend("&", EncodedPairs(items), EncodePair(k, v));
  }

  /** Splitting a non-empty query string on `&` gives back its items, one per dict entry. */
  lemma UrlencodeSplits(items: seq<(string, Param)>)
    requires |items| > 0
    ensures SplitOn(Urlencode(items), '&') == EncodedPairs(items)
  {
    var ps := EncodedPairs(items);
    forall i | 0 <= i < |ps| ensures '&' !in ps[i] {
      QuotePlusSeparators(items[i].0);
      QuotePlusSeparators(ParamStr(items[i].1));
    }
    SplitJoin(ps, '&');
  }
}
