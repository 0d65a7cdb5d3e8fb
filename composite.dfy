/**
 The weighted composite of `calculate_portfolio_performance` (close
 column) and `calculate_combined_volume` (volume column): normalise
 every symbol's column, intersect the symbols' dates, sort them, and on
 each common date add up normalised value times weight / 100.
 */
module Composite {
  import opened Extended
  import opened Dicts
  import opened Bars

  /** What the fetch step hands over: a non-empty dict of non-empty series with ascending dates. */
  predicate Table(data: Dict<Series>)
  {
    && |data| > 0
    && UniqueKeys(data)
    && forall i :: 0 <= i < |data| ==> |data[i].value| > 0 && Ascending(data[i].value)
  }

  /** `normalized_dfs` for column `m`: each symbol's series normalised, in the same order. */
  ghost predicate NormalisedTable(norm: Dict<seq<Sample>>, data: Dict<Series>, m: Metric)
    requires Table(data)
  {
    |norm| == |data| && forall i :: 0 <= i < |data| ==> norm[i] == Entry(data[i].key, Normalise(data[i].value, m))
  }

  /** The dates every symbol has. */
  function CommonDateSet(data: Dict<Series>): set<int>
    requires |data| > 0
  {
    set d | d in DateSet(data[0].value) && forall i :: 0 <= i < |data| ==> d in DateSet(data[i].value)
  }

  /** Every weighted symbol has fetched data; otherwise `normalized_dfs[symbol]` raises a KeyError. */
  predicate Covers(data: Dict<Series>, weights: Dict<int>)
  {
    forall i :: 0 <= i < |weights| ==> weights[i].key in Keys(data)
  }

  predicate Increasing(s: seq<int>)
  {
    forall i, j :: 0 <= i < j < |s| ==> s[i] < s[j]
  }

  /**
   `value += x * (w / 100)` from `value = 0`, over values `xs` and
   weights `ws` taken in order.
   */
  function Blend(xs: seq<Num>, ws: seq<int>): Num
    requires |xs| == |ws|
  {
    if xs == [] then Fin(0.0)
    else
      var n := |xs| - 1;
      Add(Blend(xs[..n], ws[..n]), Scale(xs[n], ws[n] as real / 100.0))
  }

  /** The normalised value on date `d` of each weighted symbol, in the order of `weights`. */
  function ValuesOn(data: Dict<Series>, weights: Dict<int>, m: Metric, d: int): (r: seq<Num>)
    requires Table(data) && Covers(data, weights) && d in CommonDateSet(data)
    ensures |r| == |weights|
  {
    seq(|weights|, i requires 0 <= i < |weights| =>
      assert d in DateSet(data[IndexOf(data, weights[i].key)].value);
      NormalisedOn(Get(data, weights[i].key), m, d))
  }

  /** Sum over the weights of normalised value on date `d` times weight / 100, in the dict's order. */
  function WeightedSum(data: Dict<Series>, weights: Dict<int>, m: Metric, d: int): Num
    requires Table(data) && Covers(data, weights) && d in CommonDateSet(data)
  {
    Blend(ValuesOn(data, weights, m, d), Values(weights))
  }

  /** The composite series, as `calculate_portfolio_performance` returns it for column `m`. */
  ghost predicate IsComposite(data: Dict<Series>, weights: Dict<int>, m: Metric, r: seq<Sample>)
    requires Table(data) && Covers(data, weights)
  {
    && Increasing(SampleDates(r))
    && (forall d :: d in SampleDates(r) <==> d in CommonDateSet(data))
    && (forall i :: 0 <= i < |r| ==> r[i].date in CommonDateSet(data) && r[i].value == WeightedSum(data, weights, m, r[i].date))
  }

  /** The first loop: normalise every symbol's column, keeping the dict's order. */
  method NormaliseAll(data: Dict<Series>, m: Metric) returns (norm: Dict<seq<Sample>>)
    requires Table(data)
    ensures |norm| == |data|
    ensures forall i :: 0 <= i < |data| ==> norm[i] == Entry(data[i].key, Normalise(data[i].value, m))
  {
    norm := [];
    var i := 0;
    while i < |data|
      invariant 0 <= i <= |data|
      invariant |norm| == i
      invariant forall j :: 0 <= j < i ==> norm[j] == Entry(data[j].key, Normalise(data[j].value, m))
    {
      norm := norm + [Entry(data[i].key, Normalise(data[i].value, m))];
      i := i + 1;
    }
  }

  /** The second loop: start from the first symbol's dates and intersect with every other symbol's. */
  method CommonDates(norm: Dict<seq<Sample>>) returns (common: set<int>)
    requires |norm| > 0
    ensures forall d :: d in common <==> forall i :: 0 <= i < |norm| ==> d in SampleDates(norm[i].value)
  {
    common := set d | d in SampleDates(norm[0].value);
    var i := 1;
    while i < |norm|
      invariant 1 <= i <= |norm|
      invariant forall d :: d in common <==> forall j :: 0 <= j < i ==> d in SampleDates(norm[j].value)
    {
      common := common * (set d | d in SampleDates(norm[i].value));
      i := i + 1;
    }
  }

  lemma NonEmpty(s: set<int>)
    requires s != {}
    ensures exists x :: x in s
  {
    if forall x :: x !in s {
      assert false;
    }
  }

  lemma {:induction false} MinExists(s: set<int>)
    requires s != {}
    ensures exists m :: m in s && forall x :: x in s ==> m <= x
  {
    NonEmpty(s);
    var y :| y in s;
    if s == {y} {
      assert forall x :: x in s ==> y <= x;
    } else {
      var s' := s - {y};
      MinExists(s');
      var m :| m in s' && forall x :: x in s' ==> m <= x;
      var least := if y < m then y else m;
      forall x | x in s ensures least <= x {
        if x != y { assert x in s'; }
      }
      assert least in s;
    }
  }

  /** `sorted(list(common))`: the dates in ascending order, each once. */
  method SortDates(dates: set<int>) returns (r: seq<int>)
    ensures Increasing(r)
    ensures forall d :: d in r <==> d in dates
  {
    r := [];
    var rest := dates;
    while rest != {}
      invariant Increasing(r)
      invariant forall d :: d in dates <==> d in r || d in rest
      invariant forall i, y :: 0 <= i < |r| && y in rest ==> r[i] < y
      decreases rest
    {
      MinExists(rest);
      var m :| m in rest && forall x :: x in rest ==> m <= x;
      r := r + [m];
      rest := rest - {m};
    }
  }

  /** Every weighted symbol is in `norm` and has a sample on date `d`. */
  predicate Available(norm: Dict<seq<Sample>>, weights: Dict<int>, d: int)
  {
    forall i :: 0 <= i < |weights| ==> weights[i].key in Keys(norm) && d in SampleDates(Get(norm, weights[i].key))
  }

  /** `normalized_dfs[symbol].loc[date]` for each symbol of `weights`, in order. */
  function LookedUp(norm: Dict<seq<Sample>>, weights: Dict<int>, d: int): (r: seq<Num>)
    requires Available(norm, weights, d)
    ensures |r| == |weights|
  {
    seq(|weights|, i requires 0 <= i < |weights| => ValueOn(Get(norm, weights[i].key), d))
  }

  /** The inner loop: `value += normalized_dfs[symbol].loc[date] * (weight / 100)` over the weights. */
  method WeightedValue(norm: Dict<seq<Sample>>, weights: Dict<int>, d: int) returns (value: Num)
    requires Available(norm, weights, d)
    ensures value == Blend(LookedUp(norm, weights, d), Values(weights))
  {
    ghost var xs := LookedUp(norm, weights, d);
    ghost var ws := Values(weights);
    value := Fin(0.0);
    var k := 0;
    while k < |weights|
      invariant 0 <= k <= |weights|
      invariant value == Blend(xs[..k], ws[..k])
    {
      BlendStep(xs, ws, k);
      value := Add(value, Scale(ValueOn(Get(norm, weights[k].key), d), weights[k].value as real / 100.0));
      k := k + 1;
    }
    assert xs[..k] == xs && ws[..k] == ws;
  }

  /** Over the normalised table, the looked-up values are the normalised values of the inputs. */
  lemma LookedUpNormalised(norm: Dict<seq<Sample>>, data: Dict<Series>, weights: Dict<int>, m: Metric, d: int)
    requires Table(data) && NormalisedTable(norm, data, m)
    requires Covers(data, weights) && d in CommonDateSet(data)
    ensures Available(norm, weights, d)
    ensures LookedUp(norm, weights, d) == ValuesOn(data, weights, m, d)
  {
    forall i | 0 <= i < |weights|
      ensures weights[i].key in Keys(norm) && d in SampleDates(Get(norm, weights[i].key))
      ensures ValueOn(Get(norm, weights[i].key), d) == ValuesOn(data, weights, m, d)[i]
    {
      NormalisedLookup(norm, data, m, weights[i].key, d);
    }
  }

  /** `calculate_portfolio_performance` / `calculate_combined_volume` for column `m`. */
  method Composite(data: Dict<Series>, weights: Dict<int>, m: Metric) returns (r: seq<Sample>)
    requires Table(data) && Covers(data, weights)
    ensures IsComposite(data, weights, m, r)
  {
    var norm := NormaliseAll(data, m);
    var common := CommonDates(norm);
    CommonOfNormalised(norm, data, m, common);
    var dates := SortDates(common);
    r := WeighDates(norm, data, weights, m, dates);
    EvaluateIsComposite(data, weights, m, dates);
  }

  /** The last loop: one weighted value per sorted common date, appended in order. */
  method WeighDates(norm: Dict<seq<Sample>>, data: Dict<Series>, weights: Dict<int>, m: Metric, dates: seq<int>)
    returns (r: seq<Sample>)
    requires Table(data) && NormalisedTable(norm, data, m) && Covers(data, weights)
    requires OnCommonDates(data, dates)
    ensures r == Evaluate(data, weights, m, dates)
  {
    r := [];
    var i := 0;
    while i < |dates|
      invariant 0 <= i <= |dates|
      invariant OnCommonDates(data, dates[..i])
      invariant r == Evaluate(data, weights, m, dates[..i])
    {
      LookedUpNormalised(norm, data, weights, m, dates[i]);
      var value := WeightedValue(norm, weights, dates[i]);
      EvaluateAppend(data, weights, m, dates, i);
      r := r + [Sample(dates[i], value)];
      i := i + 1;
    }
    assert dates[..i] == dates;
  }

  ghost predicate OnCommonDates(data: Dict<Series>, ds: seq<int>)
    requires |data| > 0
  {
    forall j :: 0 <= j < |ds| ==> ds[j] in CommonDateSet(data)
  }

  /** The composite on the dates `ds`, in their order. */
  ghost function Evaluate(data: Dict<Series>, weights: Dict<int>, m: Metric, ds: seq<int>): seq<Sample>
    requires Table(data) && Covers(data, weights) && OnCommonDates(data, ds)
  {
    seq(|ds|, j requires 0 <= j < |ds| => Sample(ds[j], WeightedSum(data, weights, m, ds[j])))
  }

  lemma EvaluateAppend(data: Dict<Series>, weights: Dict<int>, m: Metric, ds: seq<int>, i: nat)
    requires Table(data) && Covers(data, weights)
    requires OnCommonDates(data, ds) && i < |ds|
    ensures OnCommonDates(data, ds[..i]) && OnCommonDates(data, ds[..i + 1])
    ensures Evaluate(data, weights, m, ds[..i + 1])
         == Evaluate(data, weights, m, ds[..i]) + [Sample(ds[i], WeightedSum(data, weights, m, ds[i]))]
  {
  }

  lemma EvaluateIsComposite(data: Dict<Series>, weights: Dict<int>, m: Metric, ds: seq<int>)
    requires Table(data) && Covers(data, weights)
    requires Increasing(ds) && forall d :: d in ds <==> d in CommonDateSet(data)
    ensures IsComposite(data, weights, m, Evaluate(data, weights, m, ds))
  {
    var r := Evaluate(data, weights, m, ds);
    assert SampleDates(r) == ds;
  }

  lemma BlendStep(xs: seq<Num>, ws: seq<int>, k: nat)
    requires |xs| == |ws| && k < |xs|
    ensures Blend(xs[..k + 1], ws[..k + 1]) == Add(Blend(xs[..k], ws[..k]), Scale(xs[k], ws[k] as real / 100.0))
  {
    assert xs[..k + 1][..k] == xs[..k];
    assert ws[..k + 1][..k] == ws[..k];
  }

  /** Normalising a column keeps its dates, so the normalised tables share the same dates. */
  lemma CommonOfNormalised(norm: Dict<seq<Sample>>, data: Dict<Series>, m: Metric, common: set<int>)
    requires Table(data) && NormalisedTable(norm, data, m)
    requires forall d :: d in common <==> forall i :: 0 <= i < |norm| ==> d in SampleDates(norm[i].value)
    ensures common == CommonDateSet(data)
  {
    forall d ensures d in common <==> d in CommonDateSet(data) {
      forall i | 0 <= i < |data| ensures d in SampleDates(norm[i].value) <==> d in DateSet(data[i].value) {
        NormalisedDates(data[i].value, m, d);
      }
    }
  }

  /** Looking a symbol up in `normalized_dfs` and then a date gives the normalised value of its series. */
  lemma NormalisedLookup(norm: Dict<seq<Sample>>, data: Dict<Series>, m: Metric, k: string, d: int)
    requires Table(data) && NormalisedTable(norm, data, m)
    requires k in Keys(data) && d in CommonDateSet(data)
    ensures k in Keys(norm) && d in DateSet(Get(data, k))
    ensures d in SampleDates(Get(norm, k)) && ValueOn(Get(norm, k), d) == NormalisedOn(Get(data, k), m, d)
  {
    SameKeysSameIndex(norm, data);
    var i := IndexOf(data, k);
    NormalisedDates(data[i].value, m, d);
  }

  lemma NormalisedDates(s: Series, m: Metric, d: int)
    requires |s| > 0
    ensures d in SampleDates(Normalise(s, m)) <==> d in DateSet(s)
  {
    var ns := Normalise(s, m);
    if d in DateSet(s) {
      var j :| 0 <= j < |s| && s[j].date == d;
      assert SampleDates(ns)[j] == d;
    }
  }
}

module CompositeProperties {
  import opened Extended
  import opened Dicts
  import opened Bars
  import opened Composite

  /** The head of an ascending list is below every other element. */
  lemma HeadLeast(a: seq<int>)
    requires Increasing(a) && |a| > 0
    ensures forall x :: x in a ==> a[0] <= x
    ensures forall x :: x in a[1..] <==> x in a && x != a[0]
  {
    forall x | x in a[1..] ensures x in a && x != a[0] {
      var j :| 0 <= j < |a[1..]| && a[1..][j] == x;
      assert a[j + 1] == x;
    }
    forall x | x in a && x != a[0] ensures x in a[1..] {
      var j :| 0 <= j < |a| && a[j] == x;
      assert a[1..][j - 1] == x;
    }
  }

  lemma SameEmptiness(a: seq<int>, b: seq<int>)
    requires forall d :: d in a ==> d in b
    requires forall d :: d in b ==> d in a
    ensures a == [] <==> b == []
  {
    if a != [] {
      var x := a[0];
      assert x in a;
    }
    if b != [] {
      var x := b[0];
      assert x in b;
    }
  }

  /** Two ascending date lists with the same dates are the same list: `sorted` has one answer. */
  lemma {:induction false} IncreasingUnique(a: seq<int>, b: seq<int>)
    requires Increasing(a) && Increasing(b)
    requires forall d :: d in a <==> d in b
    ensures a == b
  {
    SameEmptiness(a, b);
    if a != [] {
      HeadLeast(a);
      HeadLeast(b);
      assert a[0] in b && b[0] in a;
      assert a[0] == b[0];
      IncreasingUnique(a[1..], b[1..]);
      assert a == [a[0]] + a[1..];
      assert b == [b[0]] + b[1..];
    }
  }

  /** The composite is determined by its inputs: one entry per common date, ascending, and its weighted sum. */
  lemma CompositeUnique(data: Dict<Series>, weights: Dict<int>, m: Metric, r1: seq<Sample>, r2: seq<Sample>)
    requires Table(data) && Covers(data, weights)
    requires IsComposite(data, weights, m, r1) && IsComposite(data, weights, m, r2)
    ensures r1 == r2
  {
    IncreasingUnique(SampleDates(r1), SampleDates(r2));
    assert |r1| == |SampleDates(r1)|;
    forall i | 0 <= i < |r1| ensures r1[i] == r2[i] {
      assert SampleDates(r1)[i] == SampleDates(r2)[i];
    }
  }

  /** The price composite and the volume composite carry the same date keys. */
  lemma SameDateKeys(data: Dict<Series>, weights: Dict<int>, price: seq<Sample>, volume: seq<Sample>)
    requires Table(data) && Covers(data, weights)
    requires IsComposite(data, weights, Close, price) && IsComposite(data, weights, Volume, volume)
    ensures SampleDates(price) == SampleDates(volume)
  {
    IncreasingUnique(SampleDates(price), SampleDates(volume));
  }

  /** One symbol at weight 100: the composite is that symbol's normalised series. */
  lemma SingleSymbolComposite(k: string, s: Series, m: Metric, r: seq<Sample>)
    requires |s| > 0 && Ascending(s)
    requires Table([Entry(k, s)]) && Covers([Entry(k, s)], [Entry(k, 100)])
    requires IsComposite([Entry(k, s)], [Entry(k, 100)], m, r)
    ensures r == Normalise(s, m)
  {
    var data := [Entry(k, s)];
    var ns := Normalise(s, m);
    assert CommonDateSet(data) == DateSet(s);
    assert Increasing(SampleDates(ns));
    forall d ensures d in SampleDates(r) <==> d in SampleDates(ns) {
      NormalisedDates(s, m, d);
    }
    IncreasingUnique(SampleDates(r), SampleDates(ns));
    assert |r| == |SampleDates(r)|;
    forall i | 0 <= i < |r| ensures r[i] == ns[i] {
      SingleSymbolAt(k, s, m, r, i);
    }
  }

  lemma SingleSymbolAt(k: string, s: Series, m: Metric, r: seq<Sample>, i: int)
    requires |s| > 0 && Ascending(s)
    requires Table([Entry(k, s)]) && Covers([Entry(k, s)], [Entry(k, 100)])
    requires IsComposite([Entry(k, s)], [Entry(k, 100)], m, r)
    requires SampleDates(r) == SampleDates(Normalise(s, m)) && 0 <= i < |r|
    ensures r[i] == Normalise(s, m)[i]
  {
    var ns := Normalise(s, m);
    var d := s[i].date;
    assert SampleDates(r)[i] == SampleDates(ns)[i];
    assert r[i].date == d;
    SingleWeightedSum(k, s, m, d);
    ValueOnAt(ns, i);
    assert ns[i].value == ValueOn(ns, d) == NormalisedOn(s, m, d);
  }

  /** A lone symbol at weight 100 contributes its normalised value unchanged. */
  lemma SingleWeightedSum(k: string, s: Series, m: Metric, d: int)
    requires Table([Entry(k, s)]) && Covers([Entry(k, s)], [Entry(k, 100)])
    requires d in CommonDateSet([Entry(k, s)])
    ensures d in DateSet(s)
    ensures WeightedSum([Entry(k, s)], [Entry(k, 100)], m, d) == NormalisedOn(s, m, d)
  {
    var data := [Entry(k, s)];
    assert Get(data, k) == s;
    var xs := ValuesOn(data, [Entry(k, 100)], m, d);
    assert xs == [NormalisedOn(s, m, d)];
    assert Values([Entry(k, 100)]) == [100];
    assert Blend(xs, [100]) == Add(Blend([], []), Scale(xs[0], 100 as real / 100.0));
  }

  lemma {:induction false} BlendUniform(xs: seq<Num>, ws: seq<int>, c: Num)
    requires |xs| == |ws| && forall i :: 0 <= i < |xs| ==> xs[i] == c
    ensures Blend(xs, ws) == if xs == [] then Fin(0.0) else Scale(c, Sum(ws) as real / 100.0)
  {
    if xs != [] {
      var n := |xs| - 1;
      BlendUniform(xs[..n], ws[..n], c);
      ScaleDistributes(c, Sum(ws[..n]) as real / 100.0, ws[n] as real / 100.0);
      if n == 0 {
        assert Sum(ws[..n]) == 0;
      }
    }
  }

  /** Two weight lists added position by position. */
  function AddWeights(v: seq<int>, w: seq<int>): (u: seq<int>)
    requires |v| == |w|
    ensures |u| == |v| && forall i :: 0 <= i < |v| ==> u[i] == v[i] + w[i]
  {
    seq(|v|, i requires 0 <= i < |v| => v[i] + w[i])
  }

  lemma AddSwap(a: Num, b: Num, c: Num, d: Num)
    ensures Add(Add(a, b), Add(c, d)) == Add(Add(a, c), Add(b, d))
  {
    AddAssociative(a, b, Add(c, d));
    AddAssociative(b, c, d);
    AddCommutative(b, c);
    AddAssociative(c, b, d);
    AddAssociative(a, c, Add(b, d));
  }

  /** The weighted sum is linear in the weights: adding two weightings adds their sums. */
  lemma {:induction false} BlendLinear(xs: seq<Num>, v: seq<int>, w: seq<int>)
    requires |xs| == |v| == |w|
    ensures Blend(xs, AddWeights(v, w)) == Add(Blend(xs, v), Blend(xs, w))
  {
    if xs != [] {
      var n := |xs| - 1;
      assert AddWeights(v, w)[..n] == AddWeights(v[..n], w[..n]);
      BlendLinear(xs[..n], v[..n], w[..n]);
      assert (v[n] + w[n]) as real / 100.0 == v[n] as real / 100.0 + w[n] as real / 100.0;
      ScaleDistributes(xs[n], v[n] as real / 100.0, w[n] as real / 100.0);
      AddSwap(Blend(xs[..n], v[..n]), Blend(xs[..n], w[..n]),
        Scale(xs[n], v[n] as real / 100.0), Scale(xs[n], w[n] as real / 100.0));
    }
  }

  /**
   Two weight maps over the same symbols in the same order: the
   composite of their sum is the sum of their composites.
   */
  lemma WeightedSumLinear(data: Dict<Series>, v: Dict<int>, w: Dict<int>, u: Dict<int>, m: Metric, d: int)
    requires Table(data) && d in CommonDateSet(data)
    requires Covers(data, v) && Covers(data, w) && Covers(data, u)
    requires |u| == |v| == |w|
    requires forall i :: 0 <= i < |u| ==> u[i].key == v[i].key == w[i].key && u[i].value == v[i].value + w[i].value
    ensures WeightedSum(data, u, m, d) == Add(WeightedSum(data, v, m, d), WeightedSum(data, w, m, d))
  {
    assert ValuesOn(data, u, m, d) == ValuesOn(data, v, m, d) == ValuesOn(data, w, m, d);
    assert Values(u) == AddWeights(Values(v), Values(w));
    BlendLinear(ValuesOn(data, v, m, d), Values(v), Values(w));
  }

  /**
   Weights summing to 100 and the same normalised value `c` for every
   weighted symbol on date `d`: the composite there is `c`.
   */
  lemma UniformComposite(data: Dict<Series>, weights: Dict<int>, m: Metric, d: int, c: Num)
    requires Table(data) && Covers(data, weights) && d in CommonDateSet(data)
    requires Total(weights) == 100
    requires forall i :: 0 <= i < |weights| ==> ValuesOn(data, weights, m, d)[i] == c
    ensures WeightedSum(data, weights, m, d) == c
  {
    BlendUniform(ValuesOn(data, weights, m, d), Values(weights), c);
  }

  lemma {:induction false} BlendFinite(xs: seq<Num>, ws: seq<int>)
    requires |xs| == |ws|
    ensures Blend(xs, ws).Fin? <==> forall i :: 0 <= i < |xs| ==> xs[i].Fin?
  {
    if xs != [] {
      var n := |xs| - 1;
      BlendFinite(xs[..n], ws[..n]);
      assert forall i :: 0 <= i < n ==> xs[..n][i] == xs[i];
    }
  }

  /**
   The composite on a date is finite exactly when every weighted symbol's
   first value is nonzero; otherwise pandas divides by zero and the
   infinity or NaN propagates.
   */
  lemma WeightedSumFinite(data: Dict<Series>, weights: Dict<int>, m: Metric, d: int)
    requires Table(data) && Covers(data, weights) && d in CommonDateSet(data)
    ensures WeightedSum(data, weights, m, d).Fin?
        <==> forall i :: 0 <= i < |weights| ==> m.Of(Get(data, weights[i].key)[0]) != 0.0
  {
    var xs := ValuesOn(data, weights, m, d);
    BlendFinite(xs, Values(weights));
    forall i | 0 <= i < |weights| ensures xs[i].Fin? <==> m.Of(Get(data, weights[i].key)[0]) != 0.0 {
    }
  }

  /** Disjoint calendars: with no common date the composite is the empty series. */
  lemma EmptyIntersection(data: Dict<Series>, weights: Dict<int>, m: Metric, r: seq<Sample>)
    requires Table(data) && Covers(data, weights)
    requires CommonDateSet(data) == {}
    requires IsComposite(data, weights, m, r)
    ensures r == []
  {
    FirstDateIn(r, CommonDateSet(data));
  }

  lemma FirstDateIn(r: seq<Sample>, dates: set<int>)
    requires forall i :: 0 <= i < |r| ==> r[i].date in dates
    ensures r != [] ==> r[0].date in dates
  {
  }
}
