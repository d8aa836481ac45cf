/**
 The trading-pair grammar shared by the connectors: the anchored regular
 expression `^(\w+)(Q1|Q2|...|Qn)$` over a list of quote assets, matched the
 way the regex engine does it. The greedy `\w+` first takes the longest run of
 word characters and then gives characters back one at a time until the rest
 of the string is one of the alternatives, so the base found is the longest
 one that leaves a listed quote.
 */
module PairGrammar {
  import opened Wrappers

  /** `\w` on ASCII text: letters, digits and underscore. */
  predicate IsWordChar(c: char) {
    'a' <= c <= 'z' || 'A' <= c <= 'Z' || '0' <= c <= '9' || c == '_'
  }

  /** A string that `\w+` matches entirely. */
  predicate IsWord(s: string) {
    |s| > 0 && forall i :: 0 <= i < |s| ==> IsWordChar(s[i])
  }

  /** The length of the first greedy attempt of `\w+`: the longest prefix of word characters. */
  function WordRun(s: string): (n: nat)
    ensures n <= |s|
    ensures forall i :: 0 <= i < n ==> IsWordChar(s[i])
    ensures n < |s| ==> !IsWordChar(s[n])
  {
    if |s| == 0 || !IsWordChar(s[0]) then 0 else 1 + WordRun(s[1..])
  }

  /**
   Backtracking of `\w+` from a base of length `k` down to a base of length 1:
   at each length the alternatives are tried, and one of them followed by `$`
   matches exactly when the rest of the string is that alternative.
   */
  function SplitFrom(quotes: seq<string>, s: string, k: nat): Option<(string, string)>
    requires k <= |s|
    decreases k
  {
    if k == 0 then None
    else if s[k..] in quotes then Some((s[..k], s[k..]))
    else SplitFrom(quotes, s, k - 1)
  }

  /** `m = SPLITTER.match(s); (m.group(1), m.group(2))`, or `None` when there is no match. */
  function Split(quotes: seq<string>, s: string): Option<(string, string)> {
    SplitFrom(quotes, s, WordRun(s))
  }

  /** Splitting `s` after its first `k` characters fits the grammar. */
  predicate IsSplitAt(quotes: seq<string>, s: string, k: int) {
    1 <= k <= |s| && IsWord(s[..k]) && s[k..] in quotes
  }

  /** No listed quote is a proper suffix of another (nor the empty string). */
  predicate SuffixFree(quotes: seq<string>) {
    forall q1, q2 :: q1 in quotes && q2 in quotes && |q1| < |q2| ==> q2[|q2| - |q1|..] != q1
  }

  lemma {:induction false} SplitFromFindsLongest(quotes: seq<string>, s: string, k: nat)
    requires k <= WordRun(s)
    ensures SplitFrom(quotes, s, k).Some? <==> exists j :: 1 <= j <= k && s[j..] in quotes
    ensures SplitFrom(quotes, s, k).Some? ==>
      var r := SplitFrom(quotes, s, k).value;
      && 1 <= |r.0| <= k && r == (s[..|r.0|], s[|r.0|..]) && r.1 in quotes
      && forall j :: |r.0| < j <= k ==> s[j..] !in quotes
    decreases k
  {
    if k > 0 && s[k..] !in quotes {
      SplitFromFindsLongest(quotes, s, k - 1);
    }
  }

  /**
   What `Split` returns: a result exactly when some split fits the grammar,
   and then the fitting split with the longest base, whose pieces concatenate
   back to the input.
   */
  lemma SplitIsLongestFit(quotes: seq<string>, s: string)
    ensures Split(quotes, s).Some? <==> exists k :: IsSplitAt(quotes, s, k)
    ensures Split(quotes, s).Some? ==>
      var r := Split(quotes, s).value;
      && r.0 + r.1 == s && IsWord(r.0) && r.1 in quotes
      && IsSplitAt(quotes, s, |r.0|)
      && forall k :: IsSplitAt(quotes, s, k) ==> k <= |r.0|
  {
    var n := WordRun(s);
    SplitFromFindsLongest(quotes, s, n);
    if Split(quotes, s).Some? {
      var r := Split(quotes, s).value;
      assert s[..|r.0|] == r.0;
      assert forall i :: 0 <= i < |r.0| ==> r.0[i] == s[i];
      assert IsSplitAt(quotes, s, |r.0|);
      assert r.0 + r.1 == s;
    }
  }

  /** With suffix-free quotes, at most one suffix of a string is a listed quote. */
  lemma SuffixFreeUnique(quotes: seq<string>, s: string, k1: nat, k2: nat)
    requires SuffixFree(quotes) && k1 <= k2 <= |s| && s[k1..] in quotes && s[k2..] in quotes
    ensures k1 == k2
  {
  }

  /** With suffix-free quotes, a word followed by a listed quote splits back into exactly those two. */
  lemma SplitOfSuffixFree(quotes: seq<string>, b: string, q: string)
    requires SuffixFree(quotes) && IsWord(b) && q in quotes
    ensures Split(quotes, b + q) == Some((b, q))
  {
    var s := b + q;
    assert s[..|b|] == b && s[|b|..] == q;
    assert IsSplitAt(quotes, s, |b|);
    SplitIsLongestFit(quotes, s);
  }
}
