/**
 "Analyze Portfolio": the gate in front of the button, the loop that
 fetches every symbol into the symbol-to-series dict, and the two
 composites (close and volume) drawn from that dict. The data requests
 themselves are a parameter: `feed` maps each symbol whose request
 answered with results to its processed series.
 */
module Analyze {
  import opened Dicts
  import opened Bars
  import opened Composite
  import opened CompositeProperties
  import opened Picker

  /** The processed series of every symbol whose request returned results. */
  type Feed = map<string, Series>

  /** What `process_stock_data` hands over: non-empty series with strictly ascending dates. */
  predicate WellFormed(feed: Feed)
  {
    forall k :: k in feed ==> |feed[k]| > 0 && Ascending(feed[k])
  }

  datatype Outcome =
    | Skipped                 // the gate did not let the analysis run
    | NoData                  // no request returned results: `if stock_data_dict` is false
    | MissingData             // a weighted symbol has no data: `normalized_dfs[symbol]` raises KeyError
    | Charts(price: seq<Sample>, volume: seq<Sample>)

  /** pol2.py: the button was clicked, the weight map is non-empty and sums to 100. */
  predicate Pol2Gate(clicked: bool, weights: Dict<int>)
  {
    clicked && |weights| > 0 && Total(weights) == 100
  }

  /** pol.py: the button was clicked and `total_weight`, over every row, is 100. */
  predicate PolGate(clicked: bool, total: int)
  {
    clicked && total == 100
  }

  /** Some weighted symbol was fetched, and some was not. */
  predicate PartlyFetched(weights: Dict<int>, feed: Feed)
  {
    (exists k :: k in Keys(weights) && k in feed) && (exists k :: k in Keys(weights) && k !in feed)
  }

  /** pol.py records a row's weight only when its symbol is non-empty and its request returned results. */
  function FetchPicks(rows: seq<Row>, feed: Feed): (pick: seq<bool>)
    ensures |pick| == |rows|
    ensures forall i :: 0 <= i < |rows| ==> pick[i] == (rows[i].symbol != "" && rows[i].symbol in feed)
  {
    seq(|rows|, i requires 0 <= i < |rows| => rows[i].symbol != "" && rows[i].symbol in feed)
  }

  /**
   pol.py's weight map holds exactly the symbols of the rows that have
   a symbol and whose request returned results, weight 0 included.
   */
  lemma PolWeightKeys(rows: seq<Row>, feed: Feed)
    ensures Keys(Assigned(rows, FetchPicks(rows, feed)))
      == set i | 0 <= i < |rows| && rows[i].symbol != "" && rows[i].symbol in feed :: rows[i].symbol
  {
    AssignedKeys(rows, FetchPicks(rows, feed));
  }

  /** A dict filled from a well-formed feed, with at least one entry, is what the composite accepts. */
  lemma FedTable(data: Dict<Series>, feed: Feed)
    requires WellFormed(feed) && UniqueKeys(data) && |data| > 0
    requires forall k :: k in Keys(data) ==> k in feed && Get(data, k) == feed[k]
    ensures Table(data)
  {
    forall i | 0 <= i < |data| ensures |data[i].value| > 0 && Ascending(data[i].value) {
      IndexOfUnique(data, i);
    }
  }

  /**
   The pol2.py fetch loop: for every symbol of the weight map whose
   request returned results, `stock_data_dict[symbol]` is set.
   */
  method Pol2Fetch(weights: Dict<int>, feed: Feed) returns (data: Dict<Series>)
    ensures UniqueKeys(data)
    ensures forall k :: k in Keys(data) <==> k in Keys(weights) && k in feed
    ensures forall k :: k in Keys(data) ==> Get(data, k) == feed[k]
  {
    data := [];
    for i := 0 to |weights|
      invariant UniqueKeys(data)
      invariant forall k :: k in Keys(data) <==> k in Keys(weights[..i]) && k in feed
      invariant forall k :: k in Keys(data) ==> Get(data, k) == feed[k]
    {
      KeysSnoc(weights, i);
      var symbol := weights[i].key;
      if symbol in feed {
        data := Put(data, symbol, feed[symbol]);
      }
    }
    assert weights[..|weights|] == weights;
  }

  /**
   The pol.py fetch loop over the rows: a non-empty symbol whose request
   returned results sets both `stock_data_dict[symbol]` and
   `weights[symbol]`, so the two dicts always have the same symbols.
   */
  method PolFetch(rows: seq<Row>, feed: Feed) returns (data: Dict<Series>, weights: Dict<int>)
    ensures weights == Assigned(rows, FetchPicks(rows, feed))
    ensures UniqueKeys(data) && Keys(data) == Keys(weights)
    ensures forall k :: k in Keys(data) ==> k in feed && Get(data, k) == feed[k]
  {
    data := [];
    weights := [];
    for i := 0 to |rows|
      invariant weights == Assigned(rows[..i], FetchPicks(rows, feed)[..i])
      invariant UniqueKeys(data) && Keys(data) == Keys(weights)
      invariant forall k :: k in Keys(data) ==> k in feed && Get(data, k) == feed[k]
    {
      assert rows[..i + 1][..i] == rows[..i];
      assert FetchPicks(rows, feed)[..i + 1][..i] == FetchPicks(rows, feed)[..i];
      var symbol := rows[i].symbol;
      if symbol != "" {
        if symbol in feed {
          data := Put(data, symbol, feed[symbol]);
          weights := Put(weights, symbol, rows[i].weight);
        }
      }
    }
    assert rows[..|rows|] == rows;
    assert FetchPicks(rows, feed)[..|rows|] == FetchPicks(rows, feed);
  }

  /** Two dicts over the same symbols: every weighted symbol has data. */
  lemma SameKeysCover(data: Dict<Series>, weights: Dict<int>)
    requires Keys(data) == Keys(weights)
    ensures Covers(data, weights)
  {
    forall i | 0 <= i < |weights| ensures weights[i].key in Keys(data) {
      assert weights[i].key in Keys(weights);
    }
  }

  /** Both composites over a fetched dict, with the date keys they share. */
  method BothComposites(data: Dict<Series>, weights: Dict<int>) returns (outcome: Outcome)
    requires Table(data) && Covers(data, weights)
    ensures outcome.Charts?
    ensures IsComposite(data, weights, Close, outcome.price)
    ensures IsComposite(data, weights, Volume, outcome.volume)
    ensures SampleDates(outcome.price) == SampleDates(outcome.volume)
  {
    var price := Composite.Composite(data, weights, Close);
    var volume := Composite.Composite(data, weights, Volume);
    SameDateKeys(data, weights, price, volume);
    outcome := Charts(price, volume);
  }

  /**
   pol2.py's Analyze step as written: the weight map is passed to the
   composite unchanged, so a symbol whose request failed stays weighted
   while it has no data.
   */
  method AnalyzePol2(clicked: bool, weights: Dict<int>, feed: Feed) returns (data: Dict<Series>, outcome: Outcome)
    requires WellFormed(feed)
    ensures outcome == Skipped <==> !Pol2Gate(clicked, weights)
    ensures Pol2Gate(clicked, weights) ==>
      && UniqueKeys(data)
      && (forall k :: k in Keys(data) <==> k in Keys(weights) && k in feed)
      && (forall k :: k in Keys(data) ==> Get(data, k) == feed[k])
    ensures outcome == MissingData <==> Pol2Gate(clicked, weights) && PartlyFetched(weights, feed)
    ensures outcome == NoData <==> Pol2Gate(clicked, weights) && forall k :: k in Keys(weights) ==> k !in feed
    ensures outcome.Charts? ==>
      && Table(data) && Covers(data, weights)
      && IsComposite(data, weights, Close, outcome.price)
      && IsComposite(data, weights, Volume, outcome.volume)
      && SampleDates(outcome.price) == SampleDates(outcome.volume)
  {
    data := [];
    if !Pol2Gate(clicked, weights) {
      return data, Skipped;
    }
    data := Pol2Fetch(weights, feed);
    if |data| == 0 {
      NoKeys(data);
      return data, NoData;
    }
    assert data[0].key in Keys(data);
    FedTable(data, feed);
    if !Covers(data, weights) {
      var i :| 0 <= i < |weights| && weights[i].key !in Keys(data);
      assert weights[i].key in Keys(weights);
      return data, MissingData;
    }
    forall k | k in Keys(weights) ensures k in feed {
      var i :| 0 <= i < |weights| && weights[i].key == k;
    }
    outcome := BothComposites(data, weights);
  }

  /**
   The input that shows it: AAPL and MSFT at 50 each, and only the AAPL
   request answers. The gate lets the analysis run, AAPL is fetched,
   and MSFT stays in the weight map without data.
   */
  lemma Pol2MissingDataExample()
    ensures var weights := [Entry("AAPL", 50), Entry("MSFT", 50)];
      var feed := map["AAPL" := [Bar(0, 10.0, 1000.0, 10.0)]];
      WellFormed(feed) && Pol2Gate(true, weights) && PartlyFetched(weights, feed)
  {
    var weights := [Entry("AAPL", 50), Entry("MSFT", 50)];
    var feed := map["AAPL" := [Bar(0, 10.0, 1000.0, 10.0)]];
    assert Values(weights) == [50, 50];
    SumTwo(50, 50);
    assert weights[0].key in Keys(weights) && weights[1].key in Keys(weights);
    assert "MSFT" != "AAPL";
  }

  /**
   pol2.py's fetch loop with the weight recorded beside the data, as
   pol.py does: only symbols whose request answered keep their weight.
   */
  method Pol2FetchWeighted(weights: Dict<int>, feed: Feed) returns (data: Dict<Series>, fetched: Dict<int>)
    requires UniqueKeys(weights)
    ensures UniqueKeys(data) && Keys(data) == Keys(fetched)
    ensures forall k :: k in Keys(data) <==> k in Keys(weights) && k in feed
    ensures forall k :: k in Keys(data) ==> Get(data, k) == feed[k] && Get(fetched, k) == Get(weights, k)
  {
    data := [];
    fetched := [];
    for i := 0 to |weights|
      invariant UniqueKeys(data) && Keys(data) == Keys(fetched)
      invariant forall k :: k in Keys(data) <==> k in Keys(weights[..i]) && k in feed
      invariant forall k :: k in Keys(data) ==> Get(data, k) == feed[k] && Get(fetched, k) == Get(weights, k)
    {
      KeysSnoc(weights, i);
      var symbol := weights[i].key;
      IndexOfUnique(weights, i);
      if symbol in feed {
        data := Put(data, symbol, feed[symbol]);
        fetched := Put(fetched, symbol, weights[i].value);
      }
    }
    assert weights[..|weights|] == weights;
  }

  /**
   pol2.py's Analyze step corrected: the composites weigh only the
   symbols that have data, so a failed request can no longer make the
   lookup miss.
   */
  method AnalyzePol2Fetched(clicked: bool, weights: Dict<int>, feed: Feed) returns (data: Dict<Series>, used: Dict<int>, outcome: Outcome)
    requires UniqueKeys(weights) && WellFormed(feed)
    ensures outcome != MissingData
    ensures outcome == Skipped <==> !Pol2Gate(clicked, weights)
    ensures outcome == NoData <==> Pol2Gate(clicked, weights) && forall k :: k in Keys(weights) ==> k !in feed
    ensures Pol2Gate(clicked, weights) ==>
      && (forall k :: k in Keys(used) <==> k in Keys(weights) && k in feed)
      && (forall k :: k in Keys(used) ==> Get(used, k) == Get(weights, k))
    ensures outcome.Charts? ==>
      && Table(data) && Covers(data, used)
      && IsComposite(data, used, Close, outcome.price)
      && IsComposite(data, used, Volume, outcome.volume)
      && SampleDates(outcome.price) == SampleDates(outcome.volume)
  {
    data, used := [], [];
    if !Pol2Gate(clicked, weights) {
      return data, used, Skipped;
    }
    data, used := Pol2FetchWeighted(weights, feed);
    if |data| == 0 {
      NoKeys(data);
      return data, used, NoData;
    }
    assert data[0].key in Keys(data);
    FedTable(data, feed);
    SameKeysCover(data, used);
    outcome := BothComposites(data, used);
  }

  /**
   pol.py's Analyze step: the rows after removal and `total_weight`
   from the row loop. The weight map and the data are filled together,
   so the composite's lookup never misses.
   */
  method AnalyzePol(clicked: bool, rows: seq<Row>, total: int, feed: Feed)
    returns (data: Dict<Series>, weights: Dict<int>, outcome: Outcome)
    requires WellFormed(feed)
    ensures outcome != MissingData
    ensures outcome == Skipped <==> !PolGate(clicked, total)
    ensures PolGate(clicked, total) ==>
      && weights == Assigned(rows, FetchPicks(rows, feed))
      && Keys(data) == Keys(weights)
      && (outcome == NoData <==> |weights| == 0)
    ensures outcome.Charts? ==>
      && Table(data) && Covers(data, weights)
      && IsComposite(data, weights, Close, outcome.price)
      && IsComposite(data, weights, Volume, outcome.volume)
      && SampleDates(outcome.price) == SampleDates(outcome.volume)
  {
    data, weights := [], [];
    if !PolGate(clicked, total) {
      return data, weights, Skipped;
    }
    data, weights := PolFetch(rows, feed);
    if |data| == 0 {
      NoKeys(data);
      NoKeys(weights);
      return data, weights, NoData;
    }
    assert data[0].key in Keys(data);
    FedTable(data, feed);
    SameKeysCover(data, weights);
    outcome := BothComposites(data, weights);
  }

  /**
   pol.py's gate tests the total of every row, not the map: a row at 50
   without a symbol and AAPL at 50 pass the gate while the composite
   weighs AAPL at 50 only.
   */
  lemma PolGateMapShort()
    ensures var rows := [Row("", 50, ""), Row("AAPL", 50, "")];
      var feed := map["AAPL" := [Bar(0, 10.0, 1000.0, 10.0)]];
      PolGate(true, RowTotal(rows)) && Total(Assigned(rows, FetchPicks(rows, feed))) == 50
  {
    var rows := [Row("", 50, ""), Row("AAPL", 50, "")];
    var feed := map["AAPL" := [Bar(0, 10.0, 1000.0, 10.0)]];
    assert Weights(rows) == [50, 50];
    SumTwo(50, 50);
    var pick := FetchPicks(rows, feed);
    assert pick == [false, true];
    assert rows[..1] == [rows[0]] && pick[..1] == [false];
    assert Assigned(rows[..1], pick[..1]) == [] by {
      assert rows[..1][..0] == [] && pick[..1][..0] == [];
    }
    assert Assigned(rows, pick) == [Entry("AAPL", 50)];
    assert Values([Entry("AAPL", 50)]) == [50];
    SumOne(50);
  }

  /**
   With weights that are not negative, whatever passes pol.py's gate is
   weighted at 100 or less: the map never exceeds the rows' total.
   */
  lemma PolGateMapAtMost(rows: seq<Row>, clicked: bool, feed: Feed)
    requires forall i :: 0 <= i < |rows| ==> rows[i].weight >= 0
    requires PolGate(clicked, RowTotal(rows))
    ensures 0 <= Total(Assigned(rows, FetchPicks(rows, feed))) <= 100
  {
    AssignedTotal(rows, FetchPicks(rows, feed));
  }

  lemma SumOne(a: int)
    ensures Sum([a]) == a
  {
    assert [a][..0] == [];
  }

  lemma SumTwo(a: int, b: int)
    ensures Sum([a, b]) == a + b
  {
    assert [a, b][..1] == [a];
    SumOne(a);
  }

  /**
   pol2.py's gate is at least as strict as the rows' total: the map sums
   to 100 only when the rows sum to 100 or more.
   */
  lemma Pol2GateRows(rows: seq<Row>, clicked: bool)
    requires forall i :: 0 <= i < |rows| ==> rows[i].weight >= 0
    requires Pol2Gate(clicked, WeightsFrom(rows))
    ensures clicked && RowTotal(rows) >= 100
  {
    AssignedTotal(rows, Qualifying(rows));
  }
}
