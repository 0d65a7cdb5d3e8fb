/**
 The "Trading Statistics" table: per fetched symbol its latest close and
 VWAP, its price change over the period and its mean volume, next to
 its weight. Only the arithmetic is modelled; the formatting of each
 cell as text is not.
 */
module Statistics {
  import opened Extended
  import opened Dicts
  import opened Bars

  datatype SymbolStats = SymbolStats(
    symbol: string,
    latestClose: real,
    latestVwap: real,
    priceChange: Num,
    avgVolume: real,
    weight: int)

  /**
   `(close[-1] / close[0] - 1) * 100`: the percentage change from the
   first close to the last. A zero first close gives inf or NaN.
   */
  function PriceChange(s: Series): (r: Num)
    requires |s| > 0
    ensures r.Fin? <==> s[0].close != 0.0
    ensures r.Fin? ==> (r.v + 100.0) * s[0].close == 100.0 * s[|s| - 1].close
  {
    Scale(Add(Ratio(s[|s| - 1].close, s[0].close), Fin(-1.0)), 100.0)
  }

  function VolumeSum(s: Series): real
  {
    if s == [] then 0.0 else s[0].volume + VolumeSum(s[1..])
  }

  /** The least day's volume: no day's volume is below it. */
  function LeastVolume(s: Series): (lo: real)
    requires |s| > 0
    ensures forall i :: 0 <= i < |s| ==> lo <= s[i].volume
  {
    if |s| == 1 then s[0].volume
    else
      var rest := LeastVolume(s[1..]);
      assert forall i :: 1 <= i < |s| ==> s[1..][i - 1] == s[i];
      if s[0].volume <= rest then s[0].volume else rest
  }

  /** The greatest day's volume: no day's volume is above it. */
  function GreatestVolume(s: Series): (hi: real)
    requires |s| > 0
    ensures forall i :: 0 <= i < |s| ==> s[i].volume <= hi
  {
    if |s| == 1 then s[0].volume
    else
      var rest := GreatestVolume(s[1..]);
      assert forall i :: 1 <= i < |s| ==> s[1..][i - 1] == s[i];
      if s[0].volume >= rest then s[0].volume else rest
  }

  /** The least volume is some day's volume. */
  lemma {:induction false} LeastVolumeAttained(s: Series)
    requires |s| > 0
    ensures exists i :: 0 <= i < |s| && s[i].volume == LeastVolume(s)
  {
    if |s| > 1 && LeastVolume(s[1..]) < s[0].volume {
      LeastVolumeAttained(s[1..]);
      var i :| 0 <= i < |s| - 1 && s[1..][i].volume == LeastVolume(s[1..]);
      assert s[i + 1].volume == LeastVolume(s);
    } else {
      assert s[0].volume == LeastVolume(s);
    }
  }

  /** The greatest volume is some day's volume. */
  lemma {:induction false} GreatestVolumeAttained(s: Series)
    requires |s| > 0
    ensures exists i :: 0 <= i < |s| && s[i].volume == GreatestVolume(s)
  {
    if |s| > 1 && GreatestVolume(s[1..]) > s[0].volume {
      GreatestVolumeAttained(s[1..]);
      var i :| 0 <= i < |s| - 1 && s[1..][i].volume == GreatestVolume(s[1..]);
      assert s[i + 1].volume == GreatestVolume(s);
    } else {
      assert s[0].volume == GreatestVolume(s);
    }
  }

  /**
   `df['volume'].mean()`: the total volume over the number of days, so
   the mean taken once per day adds back up to the total, and it lies
   between the least and the greatest day's volume.
   */
  function MeanVolume(s: Series): (r: real)
    requires |s| > 0
    ensures r * (|s| as real) == VolumeSum(s)
    ensures LeastVolume(s) <= r <= GreatestVolume(s)
  {
    VolumeSumRange(s);
    DivideBack(VolumeSum(s), |s| as real);
    VolumeSum(s) / (|s| as real)
  }

  /**
   The row of the table for one symbol: the last close and vwap, the
   change from the first close to the last, and a mean volume within
   the period's range.
   */
  function StatsOf(symbol: string, s: Series, weight: int): (r: SymbolStats)
    requires |s| > 0
    ensures r.symbol == symbol && r.weight == weight
    ensures r.latestClose == s[|s| - 1].close && r.latestVwap == s[|s| - 1].vwap
    ensures r.priceChange.Fin? <==> s[0].close != 0.0
    ensures r.priceChange.Fin? ==> (r.priceChange.v + 100.0) * s[0].close == 100.0 * r.latestClose
    ensures r.avgVolume * (|s| as real) == VolumeSum(s)
    ensures LeastVolume(s) <= r.avgVolume <= GreatestVolume(s)
  {
    SymbolStats(symbol, s[|s| - 1].close, s[|s| - 1].vwap, PriceChange(s), MeanVolume(s), weight)
  }

  /**
   The loop over the fetched data: one row per symbol, in the dict's
   order. Every fetched symbol has a weight, since a symbol is fetched
   only when it is in the weight map.
   */
  method Statistics(data: Dict<Series>, weights: Dict<int>) returns (stats: seq<SymbolStats>)
    requires forall i :: 0 <= i < |data| ==> |data[i].value| > 0 && data[i].key in Keys(weights)
    ensures |stats| == |data|
    ensures forall i :: 0 <= i < |data| ==>
      stats[i] == StatsOf(data[i].key, data[i].value, Get(weights, data[i].key))
  {
    stats := [];
    var i := 0;
    while i < |data|
      invariant 0 <= i <= |data| && |stats| == i
      invariant forall j :: 0 <= j < i ==>
        stats[j] == StatsOf(data[j].key, data[j].value, Get(weights, data[j].key))
    {
      var symbol := data[i].key;
      stats := stats + [StatsOf(symbol, data[i].value, Get(weights, symbol))];
      i := i + 1;
    }
  }

  /**
   The price change is the last normalised close less 100: both divide
   by the same first close.
   */
  lemma PriceChangeFromNormalised(s: Series)
    requires |s| > 0
    ensures PriceChange(s) == Add(Normalise(s, Close)[|s| - 1].value, Fin(-100.0))
  {
    var first := s[0].close;
    var last := s[|s| - 1].close;
    if first != 0.0 {
      var q := last / first;
      assert Normalise(s, Close)[|s| - 1].value == Fin(q * 100.0);
      assert PriceChange(s) == Fin((q + -1.0) * 100.0);
      assert (q + -1.0) * 100.0 == q * 100.0 + -100.0;
    }
  }

  /** A series whose close never changes has a price change of zero. */
  lemma FlatPriceChange(s: Series)
    requires |s| > 0 && s[0].close != 0.0 && s[|s| - 1].close == s[0].close
    ensures PriceChange(s) == Fin(0.0)
  {
  }

  /** `n` copies of `x` added up. */
  function Times(n: nat, x: real): real
  {
    if n == 0 then 0.0 else x + Times(n - 1, x)
  }

  lemma {:induction false} TimesIsProduct(n: nat, x: real)
    ensures Times(n, x) == x * (n as real)
  {
    if n > 0 {
      TimesIsProduct(n - 1, x);
    }
  }

  /** The total volume over the days lies between the least and the greatest day's volume. */
  lemma VolumeSumRange(s: Series)
    requires |s| > 0
    ensures LeastVolume(s) <= VolumeSum(s) / (|s| as real) <= GreatestVolume(s)
  {
    VolumeSumBounds(s, LeastVolume(s), GreatestVolume(s));
    DivisionBounds(VolumeSum(s), |s|, LeastVolume(s), GreatestVolume(s));
  }

  /** Volumes within `lo..hi` add up to within `|s|` times those bounds. */
  lemma {:induction false} VolumeSumBounds(s: Series, lo: real, hi: real)
    requires forall i :: 0 <= i < |s| ==> lo <= s[i].volume <= hi
    ensures Times(|s|, lo) <= VolumeSum(s) <= Times(|s|, hi)
  {
    if s != [] {
      VolumeSumBounds(s[1..], lo, hi);
    }
  }

  /** Dividing by `n` and multiplying back by it gives the number back. */
  lemma DivideBack(x: real, n: real)
    requires n != 0.0
    ensures (x / n) * n == x
  {
  }

  /** A sum within `n` times `lo..hi` has its `n`th part within `lo..hi`. */
  lemma DivisionBounds(sum: real, n: nat, lo: real, hi: real)
    requires n > 0 && Times(n, lo) <= sum <= Times(n, hi)
    ensures lo <= sum / n as real <= hi
  {
    TimesIsProduct(n, lo);
    TimesIsProduct(n, hi);
    var m := n as real;
    assert sum / m >= lo by {
      assert sum >= lo * m;
    }
    assert sum / m <= hi by {
      assert sum <= hi * m;
    }
  }

  /** The mean volume lies within any bounds on every day's volume. */
  lemma MeanVolumeBounds(s: Series, lo: real, hi: real)
    requires |s| > 0
    requires forall i :: 0 <= i < |s| ==> lo <= s[i].volume <= hi
    ensures lo <= MeanVolume(s) <= hi
  {
    LeastVolumeAttained(s);
    GreatestVolumeAttained(s);
  }
}
