/**
 A Python `dict` with string keys as an insertion-ordered association list:
 assigning to a key that is present replaces its value in place, assigning to
 a new key appends it.
 */
module Dicts {
  import opened Wrappers

  function Keys<V>(d: seq<(string, V)>): (ks: seq<string>)
    ensures |ks| == |d|
    ensures forall i :: 0 <= i < |d| ==> ks[i] == d[i].0
  {
    if |d| == 0 then [] else [d[0].0] + Keys(d[1..])
  }

  lemma KeysAppend<V>(a: seq<(string, V)>, b: seq<(string, V)>)
    ensures Keys(a + b) == Keys(a) + Keys(b)
  {
    assert Keys(a + b) == Keys(a) + Keys(b);
  }

  /** No key occurs twice: what every Python dict satisfies. */
  ghost predicate DistinctKeys<V>(d: seq<(string, V)>) {
    forall i, j :: 0 <= i < j < |d| ==> d[i].0 != d[j].0
  }

  /** The position of the entry for `k`: the first one whose key is `k`. */
  function IndexOf<V>(d: seq<(string, V)>, k: string): (i: nat)
    requires k in Keys(d)
    ensures i < |d| && d[i].0 == k
    ensures forall j :: 0 <= j < i ==> d[j].0 != k
  {
    if d[0].0 == k then 0
    else
      assert Keys(d) == [d[0].0] + Keys(d[1..]);
      1 + IndexOf(d[1..], k)
  }

  /** `d.get(k)`: the value stored under `k`, if any. */
  function Get<V>(d: seq<(string, V)>, k: string): (r: Option<V>)
    ensures r.Some? <==> k in Keys(d)
  {
    if k in Keys(d) then Some(d[IndexOf(d, k)].1) else None
  }

  /** In a dict with distinct keys, looking up the key of an entry yields the entry's value. */
  lemma GetAt<V>(d: seq<(string, V)>, i: nat)
    requires DistinctKeys(d) && i < |d|
    ensures Get(d, d[i].0) == Some(d[i].1)
  {
    assert Keys(d)[i] == d[i].0;
  }

  /** `d[k] = v`. */
  function Set<V>(d: seq<(string, V)>, k: string, v: V): (r: seq<(string, V)>)
    ensures Keys(r) == if k in Keys(d) then Keys(d) else Keys(d) + [k]
    ensures forall i :: 0 <= i < |d| && d[i].0 != k ==> r[i] == d[i]
  {
    if k in Keys(d) then
      var r := d[IndexOf(d, k) := (k, v)];
      assert Keys(r) == Keys(d);
      r
    else
      var r := d + [(k, v)];
      assert Keys(r) == Keys(d) + [k];
      r
  }

  /** Assigning to a key that is absent appends it. */
  lemma SetAbsent<V>(d: seq<(string, V)>, k: string, v: V)
    requires k !in Keys(d)
    ensures Set(d, k, v) == d + [(k, v)]
  {
  }

  /** Assigning to the key of an entry no earlier entry shares replaces that entry. */
  lemma SetFirstMatch<V>(d: seq<(string, V)>, i: nat, v: V)
    requires i < |d| && forall j :: 0 <= j < i ==> d[j].0 != d[i].0
    ensures Set(d, d[i].0, v) == d[i := (d[i].0, v)]
  {
    assert Keys(d)[i] == d[i].0;
    assert IndexOf(d, d[i].0) == i;
  }

  lemma AbsentFromAppend<V>(a: seq<(string, V)>, b: seq<(string, V)>, k: string)
    requires k !in Keys(a) && k !in Keys(b)
    ensures k !in Keys(a + b)
  {
    KeysAppend(a, b);
  }

  /** Assigning to the key that first occurs at the head of `b` replaces that head. */
  lemma SetAfter<V>(a: seq<(string, V)>, b: seq<(string, V)>, k: string, v: V)
    requires k !in Keys(a) && |b| > 0 && b[0].0 == k
    ensures Set(a + b, k, v) == a + [(k, v)] + b[1..]
  {
    var d := a + b;
    forall j | 0 <= j < |a| ensures d[j].0 != d[|a|].0 {
      assert d[j] == a[j] && Keys(a)[j] == a[j].0;
    }
    SetFirstMatch(d, |a|, v);
    ReplaceHead(a, b, (k, v));
  }

  lemma ReplaceHead<V>(a: seq<(string, V)>, b: seq<(string, V)>, x: (string, V))
    requires |b| > 0
    ensures (a + b)[|a| := x] == a + [x] + b[1..]
  {
    var lhs, rhs := (a + b)[|a| := x], a + [x] + b[1..];
    forall j | 0 <= j < |lhs| ensures lhs[j] == rhs[j] {
      if j > |a| {
        assert rhs[j] == b[1..][j - |a| - 1];
      }
    }
  }

  /** After `d[k] = v`, `k` holds `v` and every other key holds what it held before. */
  lemma SetGet<V>(d: seq<(string, V)>, k: string, v: V, k': string)
    ensures Get(Set(d, k, v), k') == if k' == k then Some(v) else Get(d, k')
  {
    var r := Set(d, k, v);
    if k' in Keys(r) {
      var i := IndexOf(r, k');
      if k' != k {
        assert k' in Keys(d);
        var j := IndexOf(d, k');
        assert j < |d| && d[j].0 != k;
        assert r[j] == d[j];
        assert i == j;
      } else if k in Keys(d) {
        assert i == IndexOf(d, k);
      } else {
        assert r[|d|].0 == k;
        assert i == |d|;
      }
    }
  }

  /** `d[k] = v` keeps the keys distinct. */
  lemma SetDistinct<V>(d: seq<(string, V)>, k: string, v: V)
    requires DistinctKeys(d)
    ensures DistinctKeys(Set(d, k, v))
  {
    var r := Set(d, k, v);
    forall i, j | 0 <= i < j < |r| ensures r[i].0 != r[j].0 {
      assert Keys(r)[i] == r[i].0 && Keys(r)[j] == r[j].0;
      if k in Keys(d) {
        assert Keys(d)[i] == d[i].0 && Keys(d)[j] == d[j].0;
      } else if j == |d| {
        assert Keys(d)[i] == d[i].0;
      } else {
        assert Keys(d)[i] == d[i].0 && Keys(d)[j] == d[j].0;
      }
    }
  }

  /** `d.update(e)`: the entries of `e` assigned one after the other, in order. */
  function UpdateItems<V>(d: seq<(string, V)>, e: seq<(string, V)>): (r: seq<(string, V)>)
    decreases |e|
  {
    if |e| == 0 then d else UpdateItems(Set(d, e[0].0, e[0].1), e[1..])
  }

  lemma {:induction false} UpdateDistinct<V>(d: seq<(string, V)>, e: seq<(string, V)>)
    requires DistinctKeys(d)
    ensures DistinctKeys(UpdateItems(d, e))
    decreases |e|
  {
    if |e| > 0 {
      SetDistinct(d, e[0].0, e[0].1);
      UpdateDistinct(Set(d, e[0].0, e[0].1), e[1..]);
    }
  }

  /** A Python dict object that callers share: its contents are updated in place. */
  class Dict<V> {
    var items: seq<(string, V)>

    ghost predicate Valid()
      reads this
    {
      DistinctKeys(items)
    }

    constructor (init: seq<(string, V)>)
      requires DistinctKeys(init)
      ensures Valid() && items == init
    {
      items := init;
    }

    /** `self.update(e)`. */
    method Update(e: seq<(string, V)>)
      requires Valid()
      modifies this
      ensures Valid()
      ensures items == UpdateItems(old(items), e)
    {
      UpdateDistinct(items, e);
      items := UpdateItems(items, e);
    }
  }
}
