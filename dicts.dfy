/**
 Python dictionaries keyed by ticker symbol: an insertion-ordered list
 of entries with distinct keys. Assigning to a key that is already
 present replaces its value where it stands; a new key goes at the end.
 */
module Dicts {

  datatype Entry<V> = Entry(key: string, value: V)

  type Dict<V> = seq<Entry<V>>

  function Keys<V>(d: Dict<V>): set<string>
  {
    set i | 0 <= i < |d| :: d[i].key
  }

  predicate UniqueKeys<V>(d: Dict<V>)
  {
    forall i, j :: 0 <= i < j < |d| ==> d[i].key != d[j].key
  }

  lemma NoKeys<V>(d: Dict<V>)
    ensures Keys(d) == {} <==> |d| == 0
  {
    if |d| > 0 {
      assert d[0].key in Keys(d);
    }
  }

  /** The keys of the first `i + 1` entries. */
  lemma KeysSnoc<V>(d: Dict<V>, i: int)
    requires 0 <= i < |d|
    ensures Keys(d[..i + 1]) == Keys(d[..i]) + {d[i].key}
  {
    var a := Keys(d[..i + 1]);
    var b := Keys(d[..i]) + {d[i].key};
    forall k | k in a ensures k in b {
      var j :| 0 <= j < i + 1 && d[..i + 1][j].key == k;
      if j < i {
        assert d[..i][j].key == k;
      }
    }
    forall k | k in b ensures k in a {
      if k == d[i].key {
        assert d[..i + 1][i].key == k;
      } else {
        var j :| 0 <= j < i && d[..i][j].key == k;
        assert d[..i + 1][j].key == k;
      }
    }
  }

  /** Position of key `k`: the first entry carrying it. */
  function IndexOf<V>(d: Dict<V>, k: string): (i: nat)
    requires k in Keys(d)
    ensures i < |d| && d[i].key == k
    ensures forall j :: 0 <= j < i ==> d[j].key != k
  {
    if d[0].key == k then 0
    else
      assert k in Keys(d[1..]) by {
        var j :| 0 <= j < |d| && d[j].key == k;
        assert d[1..][j - 1].key == k;
      }
      1 + IndexOf(d[1..], k)
  }

  /** `d[k]` for a key that is present. */
  function Get<V>(d: Dict<V>, k: string): V
    requires k in Keys(d)
  {
    d[IndexOf(d, k)].value
  }

  /** `d[k] = v` */
  function Put<V>(d: Dict<V>, k: string, v: V): (r: Dict<V>)
    ensures Keys(r) == Keys(d) + {k}
    ensures UniqueKeys(d) ==> UniqueKeys(r)
    ensures Get(r, k) == v
    ensures forall k' :: k' in Keys(d) && k' != k ==> Get(r, k') == Get(d, k')
    ensures k in Keys(d) ==> |r| == |d|
    ensures k !in Keys(d) ==> |r| == |d| + 1
  {
    if k in Keys(d) then
      var r := d[IndexOf(d, k) := Entry(k, v)];
      PutExisting(d, k, v);
      r
    else
      var r := d + [Entry(k, v)];
      PutNew(d, k, v);
      r
  }

  lemma PutExisting<V>(d: Dict<V>, k: string, v: V)
    requires k in Keys(d)
    ensures var r := d[IndexOf(d, k) := Entry(k, v)];
      && Keys(r) == Keys(d)
      && (UniqueKeys(d) ==> UniqueKeys(r))
      && IndexOf(r, k) == IndexOf(d, k)
      && forall k' :: k' in Keys(d) ==> IndexOf(r, k') == IndexOf(d, k')
  {
    var r := d[IndexOf(d, k) := Entry(k, v)];
    SameKeysSameIndex(d, r);
  }

  lemma PutNew<V>(d: Dict<V>, k: string, v: V)
    requires k !in Keys(d)
    ensures var r := d + [Entry(k, v)];
      && Keys(r) == Keys(d) + {k}
      && (UniqueKeys(d) ==> UniqueKeys(r))
      && IndexOf(r, k) == |d|
      && forall k' :: k' in Keys(d) ==> IndexOf(r, k') == IndexOf(d, k')
  {
    var r := d + [Entry(k, v)];
    assert r[|d|].key == k;
    forall x | x in Keys(r) ensures x in Keys(d) + {k} {
      var j :| 0 <= j < |r| && r[j].key == x;
      if j < |d| { assert d[j].key == x; }
    }
    forall x | x in Keys(d) ensures x in Keys(r) {
      var j :| 0 <= j < |d| && d[j].key == x;
      assert r[j].key == x;
    }
    forall k' | k' in Keys(d) ensures IndexOf(r, k') == IndexOf(d, k') {
      PrefixIndex(d, r, k');
    }
  }

  /** Two dictionaries whose keys agree position by position find every key at the same place. */
  lemma {:induction false} SameKeysSameIndex<V, W>(a: Dict<V>, b: Dict<W>)
    requires |a| == |b|
    requires forall i :: 0 <= i < |a| ==> a[i].key == b[i].key
    ensures Keys(a) == Keys(b)
    ensures forall k :: k in Keys(a) ==> IndexOf(a, k) == IndexOf(b, k)
  {
    assert Keys(a) == Keys(b) by {
      forall k | k in Keys(a) ensures k in Keys(b) {
        var j :| 0 <= j < |a| && a[j].key == k;
        assert b[j].key == k;
      }
      forall k | k in Keys(b) ensures k in Keys(a) {
        var j :| 0 <= j < |b| && b[j].key == k;
        assert a[j].key == k;
      }
    }
    forall k | k in Keys(a) ensures IndexOf(a, k) == IndexOf(b, k) {
      var i, j := IndexOf(a, k), IndexOf(b, k);
      assert a[j].key == k && b[i].key == k;
    }
  }

  /** Appending entries does not move a key that is already present. */
  lemma PrefixIndex<V>(d: Dict<V>, e: Dict<V>, k: string)
    requires k in Keys(d)
    requires |d| <= |e| && e[..|d|] == d
    ensures k in Keys(e) && IndexOf(e, k) == IndexOf(d, k)
  {
    var i := IndexOf(d, k);
    assert e[i] == d[i];
  }

  /** In a dictionary with distinct keys, the entry at position `i` is where its key is found. */
  lemma IndexOfUnique<V>(d: Dict<V>, i: int)
    requires UniqueKeys(d) && 0 <= i < |d|
    ensures d[i].key in Keys(d) && IndexOf(d, d[i].key) == i
  {
  }

  /** `d.values()`, in order. */
  function Values<V>(d: Dict<V>): (r: seq<V>)
    ensures |r| == |d| && forall i :: 0 <= i < |d| ==> r[i] == d[i].value
  {
    seq(|d|, i requires 0 <= i < |d| => d[i].value)
  }

  /** `sum(xs)`, adding from the left. */
  function Sum(xs: seq<int>): int
  {
    if xs == [] then 0 else Sum(xs[..|xs| - 1]) + xs[|xs| - 1]
  }

  /** `sum(d.values())` */
  function Total(d: Dict<int>): int
  {
    Sum(Values(d))
  }

  /** Overwriting a key moves the total by the difference of the two values. */
  lemma TotalPut(d: Dict<int>, k: string, v: int)
    ensures k in Keys(d) ==> Total(Put(d, k, v)) == Total(d) - Get(d, k) + v
    ensures k !in Keys(d) ==> Total(Put(d, k, v)) == Total(d) + v
  {
    if k in Keys(d) {
      var i := IndexOf(d, k);
      assert Values(Put(d, k, v)) == Values(d)[i := v];
      SumUpdate(Values(d), i, v);
    } else {
      assert Values(Put(d, k, v)) == Values(d) + [v];
      assert (Values(d) + [v])[..|d|] == Values(d);
    }
  }

  lemma {:induction false} SumUpdate(xs: seq<int>, i: nat, x: int)
    requires i < |xs|
    ensures Sum(xs[i := x]) == Sum(xs) - xs[i] + x
    decreases |xs|
  {
    var n := |xs| - 1;
    if i == n {
      assert xs[i := x][..n] == xs[..n];
    } else {
      assert xs[i := x][..n] == xs[..n][i := x];
      SumUpdate(xs[..n], i, x);
    }
  }
}
