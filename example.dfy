/**
 The composite worked out by hand for two symbols over two days.
 */
module CompositeExample {
  import opened Extended
  import opened Dicts
  import opened Bars
  import opened Composite
  import opened CompositeProperties

  /** Two closes A = [10, 20] and B = [5, 5] on days 1 and 2, and 50 / 50 weights. */
  const ExampleA: Series := [Bar(1, 10.0, 1000.0, 10.0), Bar(2, 20.0, 1000.0, 20.0)]
  const ExampleB: Series := [Bar(1, 5.0, 1000.0, 5.0), Bar(2, 5.0, 1000.0, 5.0)]
  const ExampleData: Dict<Series> := [Entry("A", ExampleA), Entry("B", ExampleB)]
  const ExampleWeights: Dict<int> := [Entry("A", 50), Entry("B", 50)]

  /** Two finite values at 50 / 50 blend to their mean. */
  lemma BlendHalves(x: real, y: real)
    ensures Blend([Fin(x), Fin(y)], [50, 50]) == Fin((x + y) / 2.0)
  {
    assert [Fin(x), Fin(y)][..1] == [Fin(x)] && [50, 50][..1] == [50];
    assert [Fin(x)][..0] == [] && [50][..0] == [];
    assert Blend([Fin(x)], [50]) == Add(Blend([], []), Scale(Fin(x), 50 as real / 100.0));
    assert Blend([Fin(x)], [50]) == Fin(x * 0.5);
  }

  lemma ExampleValues(d: int)
    requires d == 1 || d == 2
    requires Table(ExampleData) && Covers(ExampleData, ExampleWeights)
    ensures d in DateSet(ExampleA) && d in DateSet(ExampleB) && d in CommonDateSet(ExampleData)
    ensures ValuesOn(ExampleData, ExampleWeights, Close, d)
         == [NormalisedOn(ExampleA, Close, d), NormalisedOn(ExampleB, Close, d)]
  {
    assert ExampleA[d - 1].date == d && ExampleB[d - 1].date == d;
    assert d in DateSet(ExampleData[0].value) && d in DateSet(ExampleData[1].value);
    assert Get(ExampleData, "A") == ExampleA;
    assert IndexOf(ExampleData, "B") == 1;
  }

  lemma ExampleSum(i: int)
    requires 0 <= i < 2 && Table(ExampleData) && Covers(ExampleData, ExampleWeights)
    ensures i + 1 in CommonDateSet(ExampleData)
    ensures WeightedSum(ExampleData, ExampleWeights, Close, i + 1)
         == Fin((ExampleA[i].close / 10.0 * 100.0 + ExampleB[i].close / 5.0 * 100.0) / 2.0)
  {
    var d := i + 1;
    ExampleValues(d);
    NormalisedOnBar(ExampleA, Close, i);
    NormalisedOnBar(ExampleB, Close, i);
    assert Values(ExampleWeights) == [50, 50];
    BlendHalves(ExampleA[i].close / 10.0 * 100.0, ExampleB[i].close / 5.0 * 100.0);
  }

  /** Normalised A = [100, 200] and B = [100, 100], so the composite is [100, 150]. */
  lemma WorkedExample(r: seq<Sample>)
    requires Table(ExampleData) && Covers(ExampleData, ExampleWeights)
    requires IsComposite(ExampleData, ExampleWeights, Close, r)
    ensures r == [Sample(1, Fin(100.0)), Sample(2, Fin(150.0))]
  {
    ExampleSum(0);
    ExampleSum(1);
    assert (ExampleA[0].close / 10.0 * 100.0 + ExampleB[0].close / 5.0 * 100.0) / 2.0 == 100.0;
    assert (ExampleA[1].close / 10.0 * 100.0 + ExampleB[1].close / 5.0 * 100.0) / 2.0 == 150.0;
    forall d ensures d in CommonDateSet(ExampleData) <==> d in [1, 2] {
      if d in CommonDateSet(ExampleData) {
        assert d in DateSet(ExampleA);
      }
    }
    IncreasingUnique(SampleDates(r), [1, 2]);
    assert |r| == 2 && SampleDates(r)[0] == 1 && SampleDates(r)[1] == 2;
  }
}
