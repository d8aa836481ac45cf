/** Request signing for Bidesk (`bidesk_auth.py`). */
module BideskAuth {
  import opened Wrappers
  import opened Dicts
  import opened UrlEncoding
  import Strings

  /** `BideskAuth(api_key, secret_key)`: both set by the constructor and never changed. */
  datatype BideskAuth = BideskAuth(apiKey: string, secretKey: string)

  /** The `recvWindow` every signed request carries. */
  const RecvWindow: int := 5000

  /** HMAC-SHA256 of a message (second argument) under a key (first argument): a foreign call. */
  type Hmac = (seq<byte>, seq<byte>) -> seq<byte>

  /** `math.floor(time.time() * 1000)` for the clock reading `now`, in seconds. */
  function TimestampMs(now: real): (ms: int)
    ensures ms as real <= now * 1000.0 < ms as real + 1.0
  {
    (now * 1000.0).Floor
  }

  function StampItems(now: real): seq<(string, Param)> {
    [("timestamp", PInt(TimestampMs(now))), ("recvWindow", PInt(RecvWindow))]
  }

  /** The caller's dict after the first `update`: `timestamp` and `recvWindow` assigned. */
  function Stamped(data: seq<(string, Param)>, now: real): seq<(string, Param)> {
    UpdateItems(data, StampItems(now))
  }

  /** The hex HMAC, under the secret, of the query string of the stamped dict. */
  function Signature(auth: BideskAuth, data: seq<(string, Param)>, now: real, hmac: Hmac): string {
    HexDigest(hmac(Utf8(auth.secretKey), Utf8(Urlencode(Stamped(data, now)))))
  }

  /** The caller's dict after both updates. */
  function Signed(auth: BideskAuth, data: seq<(string, Param)>, now: real, hmac: Hmac): seq<(string, Param)> {
    UpdateItems(Stamped(data, now), [("signature", PStr(Signature(auth, data, now, hmac)))])
  }

  /**
   `gen_auth_dict(data)`: stamps the caller's dict in place, signs its query
   string, stores the signature in it and returns the final query string.
   */
  method GenAuthDict(auth: BideskAuth, data: Dict<Param>, now: real, hmac: Hmac) returns (query: string)
    requires data.Valid()
    modifies data
    ensures data.Valid()
    ensures data.items == Signed(auth, old(data.items), now, hmac)
    ensures query == Urlencode(data.items)
  {
    data.Update([("timestamp", PInt(TimestampMs(now))), ("recvWindow", PInt(RecvWindow))]);
    var payload := Urlencode(data.items);
    data.Update([("signature", PStr(HexDigest(hmac(Utf8(auth.secretKey), Utf8(payload)))))]);
    query := Urlencode(data.items);
  }

  /** `get_auth_headers()`. */
  function GetAuthHeaders(auth: BideskAuth): (h: seq<(string, string)>)
    ensures Keys(h) == ["Content-Type", "X-BH-APIKEY"]
    ensures Get(h, "Content-Type") == Some("application/x-www-form-urlencoded")
    ensures Get(h, "X-BH-APIKEY") == Some(auth.apiKey)
  {
    var h := [("Content-Type", "application/x-www-form-urlencoded"), ("X-BH-APIKEY", auth.apiKey)];
    assert Keys(h) == ["Content-Type", "X-BH-APIKEY"];
    h
  }

  lemma UpdateOne<V>(d: seq<(string, V)>, k: string, v: V)
    ensures UpdateItems(d, [(k, v)]) == Set(d, k, v)
  {
    assert [(k, v)][1..] == [];
  }

  lemma StampedIsTwoSets(data: seq<(string, Param)>, now: real)
    ensures Stamped(data, now) ==
      Set(Set(data, "timestamp", PInt(TimestampMs(now))), "recvWindow", PInt(RecvWindow))
  {
    var e := StampItems(now);
    assert e[1..] == [e[1]];
    UpdateOne(Set(data, e[0].0, e[0].1), e[1].0, e[1].1);
  }

  lemma SignedIsSet(auth: BideskAuth, data: seq<(string, Param)>, now: real, hmac: Hmac)
    ensures Signed(auth, data, now, hmac) ==
      Set(Stamped(data, now), "signature", PStr(Signature(auth, data, now, hmac)))
  {
    UpdateOne(Stamped(data, now), "signature", PStr(Signature(auth, data, now, hmac)));
  }

  /**
   After signing, the dict holds the millisecond timestamp, `recvWindow`
   5000 and the signature of the stamped query string; every other key
   holds what the caller put there.
   */
  lemma SignedFields(auth: BideskAuth, data: seq<(string, Param)>, now: real, hmac: Hmac, k: string)
    ensures Get(Signed(auth, data, now, hmac), "timestamp") == Some(PInt(TimestampMs(now)))
    ensures Get(Signed(auth, data, now, hmac), "recvWindow") == Some(PInt(5000))
    ensures Get(Signed(auth, data, now, hmac), "signature") == Some(PStr(Signature(auth, data, now, hmac)))
    ensures k != "timestamp" && k != "recvWindow" && k != "signature" ==>
      Get(Signed(auth, data, now, hmac), k) == Get(data, k)
  {
    StampedIsTwoSets(data, now);
    SignedIsSet(auth, data, now, hmac);
    var ts := PInt(TimestampMs(now));
    var sig := PStr(Signature(auth, data, now, hmac));
    var d1 := Set(data, "timestamp", ts);
    var d2 := Set(d1, "recvWindow", PInt(RecvWindow));
    SetGet(data, "timestamp", ts, "timestamp");
    SetGet(d1, "recvWindow", PInt(RecvWindow), "timestamp");
    SetGet(d2, "signature", sig, "timestamp");
    SetGet(d1, "recvWindow", PInt(RecvWindow), "recvWindow");
    SetGet(d2, "signature", sig, "recvWindow");
    SetGet(d2, "signature", sig, "signature");
    SetGet(data, "timestamp", ts, k);
    SetGet(d1, "recvWindow", PInt(RecvWindow), k);
    SetGet(d2, "signature", sig, k);
  }

  function AddKey(ks: seq<string>, k: string): seq<string> {
    if k in ks then ks else ks + [k]
  }

  /**
   The caller's keys keep their positions: the signed dict's keys are the
   caller's followed by those of `timestamp`, `recvWindow` and `signature`
   that were missing, in that order. So caller parameters come first in the
   signed query string.
   */
  lemma SignedKeys(auth: BideskAuth, data: seq<(string, Param)>, now: real, hmac: Hmac)
    ensures Keys(Signed(auth, data, now, hmac)) ==
      AddKey(AddKey(AddKey(Keys(data), "timestamp"), "recvWindow"), "signature")
    ensures Keys(data) <= Keys(Signed(auth, data, now, hmac))
  {
    StampedIsTwoSets(data, now);
    SignedIsSet(auth, data, now, hmac);
  }

  /** Signing keeps the keys of a dict distinct. */
  lemma SignedDistinct(auth: BideskAuth, data: seq<(string, Param)>, now: real, hmac: Hmac)
    requires DistinctKeys(data)
    ensures DistinctKeys(Signed(auth, data, now, hmac))
  {
    UpdateDistinct(data, StampItems(now));
    UpdateDistinct(Stamped(data, now), [("signature", PStr(Signature(auth, data, now, hmac)))]);
  }

  /**
   For a dict without the three keys, the three are appended, and the
   returned query string is the signed payload followed by `&signature=`
   and the hex signature.
   */
  lemma FreshDictQuery(auth: BideskAuth, data: seq<(string, Param)>, now: real, hmac: Hmac)
    requires "timestamp" !in Keys(data) && "recvWindow" !in Keys(data) && "signature" !in Keys(data)
    ensures Signed(auth, data, now, hmac) == data + StampItems(now) + [("signature", PStr(Signature(auth, data, now, hmac)))]
    ensures Urlencode(Signed(auth, data, now, hmac)) ==
      Urlencode(Stamped(data, now)) + "&signature=" + Signature(auth, data, now, hmac)
  {
    FreshDictItems(auth, data, now, hmac);
    var sig := Signature(auth, data, now, hmac);
    var d2 := Stamped(data, now);
    SignaturePair(sig, hmac(Utf8(auth.secretKey), Utf8(Urlencode(d2))));
    AppendSignature(d2, sig);
  }

  lemma FreshDictItems(auth: BideskAuth, data: seq<(string, Param)>, now: real, hmac: Hmac)
    requires "timestamp" !in Keys(data) && "recvWindow" !in Keys(data) && "signature" !in Keys(data)
    ensures Stamped(data, now) == data + StampItems(now)
    ensures Signed(auth, data, now, hmac) == data + StampItems(now) + [("signature", PStr(Signature(auth, data, now, hmac)))]
  {
    SignedIsSet(auth, data, now, hmac);
    StampFresh(data, now);
    StampKeys(now);
    AbsentFromAppend(data, StampItems(now), "signature");
    SetAbsent(Stamped(data, now), "signature", PStr(Signature(auth, data, now, hmac)));
  }

  lemma StampKeys(now: real)
    ensures Keys(StampItems(now)) == ["timestamp", "recvWindow"]
  {
  }

  lemma AppendSignature(d: seq<(string, Param)>, sig: string)
    requires |d| > 0 && EncodePair("signature", PStr(sig)) == "signature=" + sig
    ensures Urlencode(d + [("signature", PStr(sig))]) == Urlencode(d) + "&signature=" + sig
  {
    UrlencodeAppend(d, "signature", PStr(sig));
    SignatureSuffix(Urlencode(d), sig);
  }

  lemma SignatureSuffix(u: string, sig: string)
    ensures u + "&" + ("signature=" + sig) == u + "&signature=" + sig
  {
  }

  lemma StampFresh(data: seq<(string, Param)>, now: real)
    requires "timestamp" !in Keys(data) && "recvWindow" !in Keys(data)
    ensures Stamped(data, now) == data + StampItems(now)
  {
    StampedIsTwoSets(data, now);
    assert "timestamp"[0] != "recvWindow"[0];
    SetTwoAbsent(data, ("timestamp", PInt(TimestampMs(now))), ("recvWindow", PInt(RecvWindow)));
  }

  /** Assigning two distinct absent keys appends them in order. */
  lemma SetTwoAbsent<V>(d: seq<(string, V)>, x: (string, V), y: (string, V))
    requires x.0 !in Keys(d) && y.0 !in Keys(d) && x.0 != y.0
    ensures Set(Set(d, x.0, x.1), y.0, y.1) == d + [x, y]
  {
    SetAbsent(d, x.0, x.1);
    assert Keys([x]) == [x.0];
    AbsentFromAppend(d, [x], y.0);
    SetAbsent(d + [x], y.0, y.1);
    assert d + [x] + [y] == d + [x, y];
  }

  lemma SignaturePair(sig: string, mac: seq<byte>)
    requires sig == HexDigest(mac)
    ensures EncodePair("signature", PStr(sig)) == "signature=" + sig
  {
    HexDigestSafe(mac);
    QuotePlusOfSafe(sig);
    SignatureKey();
    assert "signature" + "=" == "signature=";
  }

  lemma SignatureKey()
    ensures QuotePlus("signature") == "signature"
  {
    var s := "signature";
    assert forall i :: 0 <= i < |s| ==> 'a' <= s[i] <= 'z';
    QuotePlusOfSafe(s);
  }

  /**
   A dict that already holds a `signature` has that stale value signed as
   part of the payload; the new signature then replaces it in place.
   */
  lemma StaleSignatureIsSigned(auth: BideskAuth, data: seq<(string, Param)>, now: real, hmac: Hmac)
    requires "signature" in Keys(data)
    ensures Get(Stamped(data, now), "signature") == Get(data, "signature")
    ensures Keys(Signed(auth, data, now, hmac)) == Keys(Stamped(data, now))
  {
    StampedIsTwoSets(data, now);
    SignedIsSet(auth, data, now, hmac);
    var d1 := Set(data, "timestamp", PInt(TimestampMs(now)));
    SetGet(data, "timestamp", PInt(TimestampMs(now)), "signature");
    SetGet(d1, "recvWindow", PInt(RecvWindow), "signature");
  }

  /**
   Signing a dict a second time (as happens to the shared default `{}` of
   `gen_auth_dict`, which starts out empty) re-stamps `timestamp` and
   `recvWindow` in place but keeps the first signature, which is then part
   of the signed payload.
   */
  lemma SignedTwice(auth: BideskAuth, data: seq<(string, Param)>, now1: real, now2: real, hmac: Hmac)
    requires "timestamp" !in Keys(data) && "recvWindow" !in Keys(data) && "signature" !in Keys(data)
    ensures Stamped(Signed(auth, data, now1, hmac), now2) ==
      data + StampItems(now2) + [("signature", PStr(Signature(auth, data, now1, hmac)))]
  {
    FreshDictItems(auth, data, now1, hmac);
    Restamp(data, now1, now2, PStr(Signature(auth, data, now1, hmac)));
  }

  lemma Restamp(data: seq<(string, Param)>, now1: real, now2: real, sig: Param)
    requires "timestamp" !in Keys(data) && "recvWindow" !in Keys(data)
    ensures Stamped(data + StampItems(now1) + [("signature", sig)], now2) ==
      data + StampItems(now2) + [("signature", sig)]
  {
    var ts2 := ("timestamp", PInt(TimestampMs(now2)));
    var rw := ("recvWindow", PInt(RecvWindow));
    var sg := ("signature", sig);
    var d := data + [("timestamp", PInt(TimestampMs(now1))), rw, sg];
    calc {
      Stamped(data + StampItems(now1) + [sg], now2);
      { assert data + StampItems(now1) + [sg] == d; }
      Stamped(d, now2);
      { StampedIsTwoSets(d, now2); }
      Set(Set(d, "timestamp", ts2.1), "recvWindow", rw.1);
      { RestampSets(data, TimestampMs(now1), TimestampMs(now2), sig); }
      data + [ts2] + [rw] + [sg];
      { assert [ts2] + [rw] == StampItems(now2); }
      data + StampItems(now2) + [sg];
    }
  }

  lemma RestampSets(data: seq<(string, Param)>, ms1: int, ms2: int, sig: Param)
    requires "timestamp" !in Keys(data) && "recvWindow" !in Keys(data)
    ensures Set(Set(data + [("timestamp", PInt(ms1)), ("recvWindow", PInt(RecvWindow)), ("signature", sig)],
                    "timestamp", PInt(ms2)), "recvWindow", PInt(RecvWindow)) ==
      data + [("timestamp", PInt(ms2))] + [("recvWindow", PInt(RecvWindow))] + [("signature", sig)]
  {
    var ts1 := ("timestamp", PInt(ms1));
    var ts2 := ("timestamp", PInt(ms2));
    var rw := ("recvWindow", PInt(RecvWindow));
    var sg := ("signature", sig);
    var d := data + [ts1, rw, sg];
    SetAfter(data, [ts1, rw, sg], ts2.0, ts2.1);
    assert [ts1, rw, sg][1..] == [rw, sg];
    assert Set(d, "timestamp", ts2.1) == (data + [ts2]) + [rw, sg];
    assert Keys([ts2]) == ["timestamp"];
    AbsentFromAppend(data, [ts2], rw.0);
    SetAfter(data + [ts2], [rw, sg], rw.0, rw.1);
    assert [rw, sg][1..] == [sg];
  }
}
