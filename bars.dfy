/**
 One symbol's daily bars as the fetch step leaves them (dates strictly
 ascending), and the rescaling of one column to a base of 100.
 */
module Bars {
  import opened Extended

  /** One trading day; the date is a day number. Open, high and low are never read. */
  datatype Bar = Bar(date: int, close: real, volume: real, vwap: real)

  type Series = seq<Bar>

  /** The column a composite is built from. */
  datatype Metric = Close | Volume {
    function Of(b: Bar): real
    {
      match this
      case Close => b.close
      case Volume => b.volume
    }
  }

  /** A date-indexed value of a normalised column. */
  datatype Sample = Sample(date: int, value: Num)

  /** Dates strictly ascending: sorted and without duplicates. */
  predicate Ascending(s: Series)
  {
    forall i, j :: 0 <= i < j < |s| ==> s[i].date < s[j].date
  }

  function DateSet(s: Series): set<int>
  {
    set i | 0 <= i < |s| :: s[i].date
  }

  function SampleDates(ns: seq<Sample>): seq<int>
  {
    seq(|ns|, i requires 0 <= i < |ns| => ns[i].date)
  }

  /**
   `df[col] / df[col].iloc[0] * 100`: every value as a percentage of the
   first one. The first value must exist (`iloc[0]` of an empty column
   fails); a zero first value makes the whole column non-finite.
   */
  function Normalise(s: Series, m: Metric): (r: seq<Sample>)
    requires |s| > 0
    ensures |r| == |s|
    ensures forall i :: 0 <= i < |s| ==> r[i].date == s[i].date
    ensures m.Of(s[0]) != 0.0 ==> r[0].value == Fin(100.0)
    ensures forall i :: 0 <= i < |s| ==> (r[i].value.Fin? <==> m.Of(s[0]) != 0.0)
    ensures forall i :: 0 <= i < |s| && r[i].value.Fin? ==> r[i].value.v * m.Of(s[0]) == 100.0 * m.Of(s[i])
  {
    var base := m.Of(s[0]);
    seq(|s|, i requires 0 <= i < |s| => Sample(s[i].date, Scale(Ratio(m.Of(s[i]), base), 100.0)))
  }

  /** `.loc[date]` on a column whose index holds `date`: the first sample with that date. */
  function ValueOn(ns: seq<Sample>, d: int): (r: Num)
    requires d in SampleDates(ns)
    ensures exists i :: 0 <= i < |ns| && ns[i].date == d && ns[i].value == r
  {
    if ns[0].date == d then ns[0].value
    else
      assert d in SampleDates(ns[1..]) by {
        var j :| 0 <= j < |ns| && SampleDates(ns)[j] == d;
        assert SampleDates(ns[1..])[j - 1] == d;
      }
      ValueOn(ns[1..], d)
  }

  /** On ascending dates, `.loc` finds exactly the sample at the bar's position. */
  lemma {:induction false} ValueOnAt(ns: seq<Sample>, i: int)
    requires 0 <= i < |ns|
    requires forall a, b :: 0 <= a < b < |ns| ==> ns[a].date < ns[b].date
    ensures ns[i].date in SampleDates(ns) && ValueOn(ns, ns[i].date) == ns[i].value
  {
    assert SampleDates(ns)[i] == ns[i].date;
    if i > 0 {
      ValueOnAt(ns[1..], i - 1);
    }
  }

  /** The normalised value of column `m` on date `d` of series `s`. */
  function NormalisedOn(s: Series, m: Metric, d: int): (r: Num)
    requires |s| > 0 && d in DateSet(s)
    ensures r.Fin? <==> m.Of(s[0]) != 0.0
  {
    var ns := Normalise(s, m);
    assert d in SampleDates(ns) by {
      var j :| 0 <= j < |s| && s[j].date == d;
      assert SampleDates(ns)[j] == d;
    }
    ValueOn(ns, d)
  }

  /** On the first date of a series whose first value is nonzero the normalised value is exactly 100. */
  lemma NormalisedFirstIsHundred(s: Series, m: Metric)
    requires |s| > 0 && Ascending(s) && m.Of(s[0]) != 0.0
    ensures s[0].date in DateSet(s) && NormalisedOn(s, m, s[0].date) == Fin(100.0)
  {
    ValueOnAt(Normalise(s, m), 0);
  }

  /** On an ascending series the normalised value on a bar's date is that bar's value over the first, times 100. */
  lemma NormalisedOnBar(s: Series, m: Metric, i: int)
    requires |s| > 0 && Ascending(s) && 0 <= i < |s| && m.Of(s[0]) != 0.0
    ensures s[i].date in DateSet(s)
    ensures NormalisedOn(s, m, s[i].date) == Fin(m.Of(s[i]) / m.Of(s[0]) * 100.0)
  {
    ValueOnAt(Normalise(s, m), i);
  }
}
