/**
 The portfolio rows kept in the session between reruns: a list of at
 most five (symbol, weight) rows that the sidebar adds to, edits,
 removes from, and turns into the symbol-to-weight map.
 */
module Picker {
  import opened Dicts

  /** One row of the list. The name is the symbol once it has been validated (pol2.py); pol.py never sets it. */
  datatype Row = Row(symbol: string, weight: int, name: string)

  /** The row "Add Stock" appends. */
  const Blank := Row("", 0, "")

  /** The list grows only while it has fewer rows than this. */
  const MaxRows := 5

  /** What the widgets of one pol2.py row return on a rerun: the symbol typed, its validation answer, the weight, the Remove button. */
  datatype RowInput = RowInput(symbol: string, valid: bool, weight: int, remove: bool)

  /** What the widgets of one pol.py row return: the selected option, the weight, the Remove button. */
  datatype Choice = Choice(symbol: string, weight: int, remove: bool)

  /** The options of pol.py's select box, after the empty entry. */
  const AvailableStocks: seq<string> := ["AAPL", "GOOGL", "MSFT", "IBM", "AMZN", "TSLA", "META", "NVDA", "JPM", "V"]

  /** The select box's options: the empty entry, then the stocks. */
  const Options: seq<string> := [""] + AvailableStocks

  predicate IsOption(symbol: string)
  {
    symbol in Options
  }

  /** A validated row shows its symbol as its name. */
  predicate Named(r: Row)
  {
    r.symbol != "" ==> r.name == r.symbol
  }

  /**
   One pol2.py row after a rerun. A changed, non-empty symbol is kept
   and named only when it validates, and is blanked otherwise; a symbol
   cleared to "" keeps the old name. The weight is always taken.
   */
  function Edited(r: Row, input: RowInput): (e: Row)
    ensures e.weight == input.weight
    ensures input.symbol == r.symbol ==> e.symbol == r.symbol && e.name == r.name
    ensures input.symbol != r.symbol ==>
      e.symbol == (if input.valid then input.symbol else "")
    ensures input.symbol != r.symbol && input.symbol == "" ==> e.name == r.name
    ensures input.symbol != r.symbol && input.symbol != "" ==>
      e.name == (if input.valid then input.symbol else "")
  {
    var s := if input.symbol == r.symbol then r
      else if input.symbol == "" then r.(symbol := "")
      else if input.valid then r.(symbol := input.symbol, name := input.symbol)
      else r.(symbol := "", name := "");
    s.(weight := input.weight)
  }

  /** Editing keeps a named row named: a row never shows a name other than its own symbol. */
  lemma EditedNamed(r: Row, input: RowInput)
    requires Named(r)
    ensures Named(Edited(r, input))
    ensures Edited(r, input).symbol != "" ==> Edited(r, input).symbol == r.symbol || input.valid
  {
  }

  /** One pol.py row after a rerun: the selected symbol and the weight. */
  function Selected(r: Row, c: Choice): (e: Row)
    ensures e.symbol == c.symbol && e.weight == c.weight && e.name == r.name
  {
    r.(symbol := c.symbol, weight := c.weight)
  }

  function Weights(rows: seq<Row>): (ws: seq<int>)
    ensures |ws| == |rows| && forall i :: 0 <= i < |rows| ==> ws[i] == rows[i].weight
  {
    seq(|rows|, i requires 0 <= i < |rows| => rows[i].weight)
  }

  /** `total_weight`: the sum of every row's weight, rows without a symbol included. */
  function RowTotal(rows: seq<Row>): int
  {
    Sum(Weights(rows))
  }

  lemma RowTotalStep(rows: seq<Row>, n: nat)
    requires n < |rows|
    ensures RowTotal(rows[..n + 1]) == RowTotal(rows[..n]) + rows[n].weight
  {
    assert Weights(rows[..n + 1])[..n] == Weights(rows[..n]);
  }

  /** `total_weight` over rows whose weights lie in 0..100 lies in 0..100 per row. */
  lemma {:induction false} RowTotalBounds(rows: seq<Row>)
    requires forall i :: 0 <= i < |rows| ==> 0 <= rows[i].weight <= 100
    ensures 0 <= RowTotal(rows) <= 100 * |rows|
  {
    if rows != [] {
      var n := |rows| - 1;
      RowTotalBounds(rows[..n]);
      RowTotalStep(rows, n);
      assert rows[..n + 1] == rows;
    }
  }

  /** The first `n` rows have taken their inputs; the rest are as they were. */
  predicate EditedUpTo(start: seq<Row>, rs: seq<Row>, inputs: seq<RowInput>, n: int)
  {
    && |start| == |rs| == |inputs| && 0 <= n <= |rs|
    && (forall i :: 0 <= i < n ==> rs[i] == Edited(start[i], inputs[i]))
    && (forall i :: n <= i < |rs| ==> rs[i] == start[i])
  }

  lemma EditedStep(start: seq<Row>, rs: seq<Row>, inputs: seq<RowInput>, n: int)
    requires EditedUpTo(start, rs, inputs, n) && n < |rs|
    ensures EditedUpTo(start, rs[n := Edited(rs[n], inputs[n])], inputs, n + 1)
    ensures RowTotal(rs[n := Edited(rs[n], inputs[n])][..n + 1]) == RowTotal(rs[..n]) + inputs[n].weight
  {
    var next := rs[n := Edited(rs[n], inputs[n])];
    assert next[..n] == rs[..n];
    RowTotalStep(next, n);
  }

  /** The first `n` rows have taken their selections; the rest are as they were. */
  predicate SelectedUpTo(start: seq<Row>, rs: seq<Row>, choices: seq<Choice>, n: int)
  {
    && |start| == |rs| == |choices| && 0 <= n <= |rs|
    && (forall i :: 0 <= i < n ==> rs[i] == Selected(start[i], choices[i]))
    && (forall i :: n <= i < |rs| ==> rs[i] == start[i])
  }

  lemma SelectedStep(start: seq<Row>, rs: seq<Row>, choices: seq<Choice>, n: int)
    requires SelectedUpTo(start, rs, choices, n) && n < |rs|
    ensures SelectedUpTo(start, rs[n := Selected(rs[n], choices[n])], choices, n + 1)
    ensures RowTotal(rs[n := Selected(rs[n], choices[n])][..n + 1]) == RowTotal(rs[..n]) + choices[n].weight
  {
    var next := rs[n := Selected(rs[n], choices[n])];
    assert next[..n] == rs[..n];
    RowTotalStep(next, n);
  }

  /** `stocks_to_remove` after the first `n` rows: the indices whose Remove button was pressed, ascending. */
  predicate MarksExactly(marked: seq<int>, pressed: seq<bool>, n: int)
    requires 0 <= n <= |pressed|
  {
    && (forall a, b :: 0 <= a < b < |marked| ==> marked[a] < marked[b])
    && (forall j :: 0 <= j < |marked| ==> 0 <= marked[j] < n && pressed[marked[j]])
    && (forall i :: 0 <= i < n && pressed[i] ==> i in marked)
  }

  /** One more row of the loop: its index is appended when its button was pressed. */
  lemma MarksStep(marked: seq<int>, pressed: seq<bool>, n: int)
    requires 0 <= n < |pressed| && MarksExactly(marked, pressed, n)
    ensures MarksExactly(if pressed[n] then marked + [n] else marked, pressed, n + 1)
  {
    var next := if pressed[n] then marked + [n] else marked;
    forall i | 0 <= i < n + 1 && pressed[i] ensures i in next {
      if i < n {
        assert i in marked;
        var j :| 0 <= j < |marked| && marked[j] == i;
        assert next[j] == i;
      } else {
        assert next[|next| - 1] == i;
      }
    }
  }

  function PressedRows(inputs: seq<RowInput>): (p: seq<bool>)
    ensures |p| == |inputs| && forall i :: 0 <= i < |inputs| ==> p[i] == inputs[i].remove
  {
    seq(|inputs|, i requires 0 <= i < |inputs| => inputs[i].remove)
  }

  function PressedChoices(choices: seq<Choice>): (p: seq<bool>)
    ensures |p| == |choices| && forall i :: 0 <= i < |choices| ==> p[i] == choices[i].remove
  {
    seq(|choices|, i requires 0 <= i < |choices| => choices[i].remove)
  }

  /** The rows whose index is not marked, in their original order. */
  function Kept(s: seq<Row>, marked: set<int>): (r: seq<Row>)
    ensures |r| <= |s|
    ensures forall x :: x in r ==> x in s
  {
    if s == [] then []
    else
      var n := |s| - 1;
      Kept(s[..n], marked) + if n in marked then [] else [s[n]]
  }

  lemma {:induction false} KeptNone(s: seq<Row>, marked: set<int>)
    requires forall m :: m in marked ==> m >= |s|
    ensures Kept(s, marked) == s
  {
    if s != [] {
      var n := |s| - 1;
      KeptNone(s[..n], marked);
      assert s[..n] + [s[n]] == s;
    }
  }

  /** Marking only indices from `k` on leaves the first `k` rows in place. */
  lemma {:induction false} KeptPrefix(s: seq<Row>, marked: set<int>, k: int)
    requires 0 <= k <= |s|
    requires forall m :: m in marked ==> m >= k
    ensures |Kept(s, marked)| >= k && Kept(s, marked)[..k] == s[..k]
  {
    if |s| == k {
      KeptNone(s, marked);
    } else {
      var n := |s| - 1;
      KeptPrefix(s[..n], marked, k);
      assert s[..n][..k] == s[..k];
    }
  }

  /**
   Marking one more index `p`, below every index already marked, takes
   out exactly the row at position `p` of what was kept: this is why
   popping in reverse order removes the right rows.
   */
  lemma {:induction false} KeptRemove(s: seq<Row>, marked: set<int>, p: int)
    requires 0 <= p < |s|
    requires forall m :: m in marked ==> m > p
    ensures |Kept(s, marked)| > p
    ensures Kept(s, marked + {p}) == Kept(s, marked)[..p] + Kept(s, marked)[p + 1..]
  {
    var n := |s| - 1;
    if n == p {
      KeptNone(s[..p], marked + {p});
      KeptNone(s[..p], marked);
      assert Kept(s, marked) == s[..p] + [s[p]];
    } else {
      KeptRemove(s[..n], marked, p);
      KeptPrefix(s[..n], marked, p + 1);
      var k := Kept(s[..n], marked);
      var tail := if n in marked then [] else [s[n]];
      assert Kept(s, marked) == k + tail;
      assert Kept(s, marked + {p}) == (k[..p] + k[p + 1..]) + tail;
      SplitAround(k, tail, p);
    }
  }

  lemma SplitAround(k: seq<Row>, tail: seq<Row>, p: int)
    requires 0 <= p < |k|
    ensures (k + tail)[..p] + (k + tail)[p + 1..] == (k[..p] + k[p + 1..]) + tail
  {
    assert (k + tail)[..p] == k[..p];
    assert (k + tail)[p + 1..] == k[p + 1..] + tail;
  }

  lemma KeptWeights(s: seq<Row>, marked: set<int>)
    requires forall i :: 0 <= i < |s| ==> 0 <= s[i].weight <= 100
    ensures forall i :: 0 <= i < |Kept(s, marked)| ==> 0 <= Kept(s, marked)[i].weight <= 100
  {
    forall i | 0 <= i < |Kept(s, marked)| ensures 0 <= Kept(s, marked)[i].weight <= 100 {
      assert Kept(s, marked)[i] in s;
    }
  }

  /** The marked indices below `n`. */
  function Below(marked: set<int>, n: int): set<int>
  {
    set m | m in marked && 0 <= m < n
  }

  /** Every marked index within the list removes one row, and only those. */
  lemma {:induction false} KeptLength(s: seq<Row>, marked: set<int>)
    ensures |Kept(s, marked)| == |s| - |Below(marked, |s|)|
  {
    if s != [] {
      var n := |s| - 1;
      KeptLength(s[..n], marked);
      var below := Below(marked, n);
      var upto := Below(marked, |s|);
      if n in marked {
        assert upto == below + {n};
      } else {
        assert upto == below;
      }
    }
  }

  /** `set(marked[j:])` */
  function Suffix(marked: seq<int>, j: int): set<int>
    requires 0 <= j <= |marked|
  {
    set i | j <= i < |marked| :: marked[i]
  }

  /** Popping `marked[j - 1]` next: it lies below every index popped so far. */
  lemma SuffixStep(marked: seq<int>, j: int)
    requires 0 < j <= |marked|
    requires forall a, b :: 0 <= a < b < |marked| ==> marked[a] < marked[b]
    ensures forall m :: m in Suffix(marked, j) ==> m > marked[j - 1]
    ensures Suffix(marked, j - 1) == Suffix(marked, j) + {marked[j - 1]}
  {
  }

  /** A row counts towards pol2.py's weight map when it has a symbol and a positive weight. */
  predicate Qualifies(r: Row)
  {
    r.symbol != "" && r.weight > 0
  }

  function Qualifying(rows: seq<Row>): (pick: seq<bool>)
    ensures |pick| == |rows| && forall i :: 0 <= i < |rows| ==> pick[i] == Qualifies(rows[i])
  {
    seq(|rows|, i requires 0 <= i < |rows| => Qualifies(rows[i]))
  }

  /** `weights[row["symbol"]] = row["weight"]` for each picked row, in list order. */
  function Assigned(rows: seq<Row>, pick: seq<bool>): (w: Dict<int>)
    requires |pick| == |rows|
    ensures UniqueKeys(w)
  {
    if rows == [] then []
    else
      var n := |rows| - 1;
      var w := Assigned(rows[..n], pick[..n]);
      if pick[n] then Put(w, rows[n].symbol, rows[n].weight) else w
  }

  /** pol2.py's weight map: the qualifying rows assigned in order. */
  function WeightsFrom(rows: seq<Row>): Dict<int>
  {
    Assigned(rows, Qualifying(rows))
  }

  /** The map's symbols are exactly the picked rows' symbols. */
  lemma {:induction false} AssignedKeys(rows: seq<Row>, pick: seq<bool>)
    requires |pick| == |rows|
    ensures Keys(Assigned(rows, pick)) == set i | 0 <= i < |rows| && pick[i] :: rows[i].symbol
  {
    if rows != [] {
      var n := |rows| - 1;
      AssignedKeys(rows[..n], pick[..n]);
      var before := set i | 0 <= i < n && pick[..n][i] :: rows[..n][i].symbol;
      var after := set i | 0 <= i < |rows| && pick[i] :: rows[i].symbol;
      assert before == set i | 0 <= i < n && pick[i] :: rows[i].symbol;
      if pick[n] {
        assert after == before + {rows[n].symbol};
      } else {
        assert after == before;
      }
    }
  }

  /** A symbol's weight is the one of its last picked row: a later duplicate overwrites an earlier one. */
  lemma {:induction false} AssignedLast(rows: seq<Row>, pick: seq<bool>, i: int)
    requires |pick| == |rows| && 0 <= i < |rows| && pick[i]
    requires forall j :: i < j < |rows| ==> !(pick[j] && rows[j].symbol == rows[i].symbol)
    ensures rows[i].symbol in Keys(Assigned(rows, pick)) && Get(Assigned(rows, pick), rows[i].symbol) == rows[i].weight
  {
    var n := |rows| - 1;
    if i < n {
      AssignedLast(rows[..n], pick[..n], i);
    }
  }

  /** A lower bound on the picked rows' weights bounds every weight in the map. */
  lemma {:induction false} AssignedAtLeast(rows: seq<Row>, pick: seq<bool>, lo: int)
    requires |pick| == |rows|
    requires forall i :: 0 <= i < |rows| && pick[i] ==> rows[i].weight >= lo
    ensures forall j :: 0 <= j < |Assigned(rows, pick)| ==> Assigned(rows, pick)[j].value >= lo
  {
    if rows != [] {
      var n := |rows| - 1;
      AssignedAtLeast(rows[..n], pick[..n], lo);
      var w := Assigned(rows[..n], pick[..n]);
      if pick[n] {
        var k := rows[n].symbol;
        var r := Put(w, k, rows[n].weight);
        forall j | 0 <= j < |r| ensures r[j].value >= lo {
          var key := r[j].key;
          IndexOfUnique(r, j);
          if key != k {
            assert r[j].value == Get(w, key);
            assert w[IndexOf(w, key)].value >= lo;
          }
        }
      }
    }
  }

  /**
   With non-negative weights the map never sums to more than the rows:
   rows left out and overwritten duplicates only drop weight.
   */
  lemma {:induction false} AssignedTotal(rows: seq<Row>, pick: seq<bool>)
    requires |pick| == |rows|
    requires forall i :: 0 <= i < |rows| ==> rows[i].weight >= 0
    ensures 0 <= Total(Assigned(rows, pick)) <= RowTotal(rows)
  {
    if rows != [] {
      var n := |rows| - 1;
      AssignedTotal(rows[..n], pick[..n]);
      assert Weights(rows)[..n] == Weights(rows[..n]);
      var w := Assigned(rows[..n], pick[..n]);
      if pick[n] {
        var k := rows[n].symbol;
        TotalPut(w, k, rows[n].weight);
        if k in Keys(w) {
          AssignedAtLeast(rows[..n], pick[..n], 0);
          assert w[IndexOf(w, k)].value >= 0;
        }
      }
      AssignedAtLeast(rows, pick, 0);
      SumNonNegative(Values(Assigned(rows, pick)));
    }
  }

  /**
   pol2.py's map holds exactly the symbols of rows with a symbol and a
   positive weight, and every weight in it is positive.
   */
  lemma WeightsFromKeys(rows: seq<Row>)
    ensures Keys(WeightsFrom(rows)) == set i | 0 <= i < |rows| && Qualifies(rows[i]) :: rows[i].symbol
    ensures forall j :: 0 <= j < |WeightsFrom(rows)| ==> WeightsFrom(rows)[j].value > 0
  {
    AssignedKeys(rows, Qualifying(rows));
    AssignedAtLeast(rows, Qualifying(rows), 1);
  }

  lemma {:induction false} SumNonNegative(xs: seq<int>)
    requires forall i :: 0 <= i < |xs| ==> xs[i] >= 0
    ensures Sum(xs) >= 0
  {
    if xs != [] {
      SumNonNegative(xs[..|xs| - 1]);
    }
  }

  /** `st.session_state.stocks` */
  class StockList {
    var rows: seq<Row>

    /** At most five rows, each weight within the number input's 0..100. */
    predicate Valid()
      reads this
    {
      && |rows| <= MaxRows
      && forall i :: 0 <= i < |rows| ==> 0 <= rows[i].weight <= 100
    }

    /** The list a new session starts with. */
    constructor ()
      ensures Valid() && rows == []
    {
      rows := [];
    }

    /**
     "Add Stock": a blank row is appended when the button was clicked and
     the list has fewer than five rows (pol2.py tests the length first,
     pol.py the click first; the effect is the same).
     */
    method AddStock(clicked: bool)
      requires Valid()
      modifies this
      ensures Valid()
      ensures rows == if clicked && |old(rows)| < MaxRows then old(rows) + [Blank] else old(rows)
    {
      if |rows| < MaxRows {
        if clicked {
          rows := rows + [Blank];
        }
      }
    }

    /**
     The pol2.py row loop: every row is edited in place from its widgets,
     the weights are totalled and the rows whose Remove button was
     pressed are collected in index order.
     */
    method EditRows(inputs: seq<RowInput>) returns (total: int, marked: seq<int>)
      requires Valid() && |inputs| == |rows|
      requires forall i :: 0 <= i < |inputs| ==> 0 <= inputs[i].weight <= 100
      modifies this
      ensures Valid()
      ensures |rows| == |inputs| && forall i :: 0 <= i < |inputs| ==> rows[i] == Edited(old(rows)[i], inputs[i])
      ensures total == RowTotal(rows)
      ensures MarksExactly(marked, PressedRows(inputs), |inputs|)
      ensures (forall i :: 0 <= i < |old(rows)| ==> Named(old(rows)[i])) ==> forall i :: 0 <= i < |rows| ==> Named(rows[i])
    {
      total := 0;
      marked := [];
      var start := rows;
      var rs := rows;
      var idx := 0;
      while idx < |inputs|
        invariant EditedUpTo(start, rs, inputs, idx)
        invariant total == RowTotal(rs[..idx])
        invariant MarksExactly(marked, PressedRows(inputs), idx)
      {
        EditedStep(start, rs, inputs, idx);
        rs := rs[idx := Edited(rs[idx], inputs[idx])];
        total := total + inputs[idx].weight;
        MarksStep(marked, PressedRows(inputs), idx);
        if inputs[idx].remove {
          marked := marked + [idx];
        }
        idx := idx + 1;
      }
      assert rs[..idx] == rs;
      rows := rs;
      forall i | 0 <= i < |rows| && (forall j :: 0 <= j < |old(rows)| ==> Named(old(rows)[j])) ensures Named(rows[i]) {
        EditedNamed(old(rows)[i], inputs[i]);
      }
    }

    /**
     The pol.py row loop: every row takes the selected symbol and the
     weight; totals and marks as in `EditRows`.
     */
    method SelectRows(choices: seq<Choice>) returns (total: int, marked: seq<int>)
      requires Valid() && |choices| == |rows|
      requires forall i :: 0 <= i < |choices| ==> 0 <= choices[i].weight <= 100
      requires forall i :: 0 <= i < |choices| ==> IsOption(choices[i].symbol)
      modifies this
      ensures Valid()
      ensures |rows| == |choices| && forall i :: 0 <= i < |choices| ==> rows[i] == Selected(old(rows)[i], choices[i])
      ensures total == RowTotal(rows)
      ensures MarksExactly(marked, PressedChoices(choices), |choices|)
      ensures forall i :: 0 <= i < |rows| ==> IsOption(rows[i].symbol)
    {
      total := 0;
      marked := [];
      var start := rows;
      var rs := rows;
      var idx := 0;
      while idx < |choices|
        invariant SelectedUpTo(start, rs, choices, idx)
        invariant total == RowTotal(rs[..idx])
        invariant MarksExactly(marked, PressedChoices(choices), idx)
      {
        SelectedStep(start, rs, choices, idx);
        rs := rs[idx := Selected(rs[idx], choices[idx])];
        total := total + choices[idx].weight;
        MarksStep(marked, PressedChoices(choices), idx);
        if choices[idx].remove {
          marked := marked + [idx];
        }
        idx := idx + 1;
      }
      assert rs[..idx] == rs;
      rows := rs;
    }

    /**
     `for idx in reversed(stocks_to_remove): stocks.pop(idx)`: the marked
     rows go, the others stay in their order.
     */
    method RemoveMarked(marked: seq<int>)
      requires Valid()
      requires forall a, b :: 0 <= a < b < |marked| ==> marked[a] < marked[b]
      requires forall j :: 0 <= j < |marked| ==> 0 <= marked[j] < |rows|
      modifies this
      ensures Valid()
      ensures rows == Kept(old(rows), Suffix(marked, 0))
    {
      var start := rows;
      var rs := rows;
      var j := |marked|;
      KeptNone(start, Suffix(marked, j));
      while j > 0
        invariant 0 <= j <= |marked|
        invariant rs == Kept(start, Suffix(marked, j))
      {
        var idx := marked[j - 1];
        SuffixStep(marked, j);
        KeptRemove(start, Suffix(marked, j), idx);
        rs := rs[..idx] + rs[idx + 1..];
        j := j - 1;
      }
      KeptWeights(start, Suffix(marked, 0));
      rows := rs;
    }

    /** pol2.py's weight map, built from the rows after removal. */
    method WeightMap() returns (weights: Dict<int>)
      ensures weights == WeightsFrom(rows)
    {
      weights := [];
      var i := 0;
      while i < |rows|
        invariant 0 <= i <= |rows|
        invariant weights == Assigned(rows[..i], Qualifying(rows)[..i])
      {
        assert rows[..i + 1][..i] == rows[..i];
        assert Qualifying(rows)[..i + 1][..i] == Qualifying(rows)[..i];
        if rows[i].symbol != "" && rows[i].weight > 0 {
          weights := Put(weights, rows[i].symbol, rows[i].weight);
        }
        i := i + 1;
      }
      assert rows[..i] == rows;
      assert Qualifying(rows)[..i] == Qualifying(rows);
    }
  }
}
