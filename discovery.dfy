/** Index discovery: how many repeat groups the table has, read off its
    column names. */
module Discovery {
  import opened Options
  import opened ColumnNames
  import opened Schema

  /** The plot index a column name announces: it starts with
      `this_plot_id_` and its last `_`-segment parses as an integer. */
  function PlotIndexOf(column: string): Option<nat> {
    if PlotIdPrefix <= column then ParseIndex(LastSegment(column)) else None
  }

  /** The running maximum of the plot indices of `columns`, from 0. */
  function MaxPlotIndex(columns: seq<string>): nat {
    if columns == [] then 0
    else
      var rest := MaxPlotIndex(columns[..|columns| - 1]);
      match PlotIndexOf(columns[|columns| - 1])
      case Some(n) => if n > rest then n else rest
      case None => rest
  }

  /** It is the largest plot index any column announces, and 0 when no column
      announces a positive one. */
  lemma {:induction false} MaxPlotIndexIsMaximum(columns: seq<string>)
    ensures forall c | c in columns && PlotIndexOf(c).Some? :: PlotIndexOf(c).value <= MaxPlotIndex(columns)
    ensures MaxPlotIndex(columns) == 0 || exists c | c in columns :: PlotIndexOf(c) == Some(MaxPlotIndex(columns))
    ensures MaxPlotIndex(columns) == 0 <==>
      forall c | c in columns && PlotIndexOf(c).Some? :: PlotIndexOf(c).value == 0
  {
    if columns != [] {
      var front := columns[..|columns| - 1];
      MaxPlotIndexIsMaximum(front);
      assert forall c | c in columns :: c in front || c == columns[|columns| - 1];
    }
  }

  /** The scan order does not matter: two lists naming the same columns, in
      any order and with any repetitions, discover the same maximum. */
  lemma {:induction false} MaxPlotIndexOrderFree(a: seq<string>, b: seq<string>)
    requires forall c :: c in a <==> c in b
    ensures MaxPlotIndex(a) == MaxPlotIndex(b)
  {
    MaxPlotIndexIsMaximum(a);
    MaxPlotIndexIsMaximum(b);
    var ma, mb := MaxPlotIndex(a), MaxPlotIndex(b);
    if ma != 0 {
      var c :| c in a && PlotIndexOf(c) == Some(ma);
      assert c in b;
    }
    if mb != 0 {
      var c :| c in b && PlotIndexOf(c) == Some(mb);
      assert c in a;
    }
  }

  /** The column `this_plot_id_<n>` that row expansion looks up announces
      index `n`. */
  lemma PlotIdColumnIndex(n: nat)
    ensures PlotIndexOf(IndexedName(PlotIdStem, n)) == Some(n)
  {
    var col := IndexedName(PlotIdStem, n);
    assert col == PlotIdPrefix + NatToDecimal(n);
    IndexedNameSegment(PlotIdStem, n);
    ParseDecimal(n);
  }

  /** Every index whose plot id column is in the table is at most the
      discovered maximum, so row expansion examines it. */
  lemma PlotIdColumnCovered(columns: seq<string>, n: nat)
    requires IndexedName(PlotIdStem, n) in columns
    ensures n <= MaxPlotIndex(columns)
  {
    PlotIdColumnIndex(n);
    MaxPlotIndexIsMaximum(columns);
  }

  /** The discovery loop: a running maximum over the column names, starting
      from 0; a column whose suffix does not parse is skipped. */
  method DiscoverMaxPlots(columns: seq<string>) returns (maxPlots: nat)
    ensures maxPlots == MaxPlotIndex(columns)
  {
    maxPlots := 0;
    for k := 0 to |columns|
      invariant maxPlots == MaxPlotIndex(columns[..k])
    {
      var col := columns[k];
      if PlotIdPrefix <= col {
        match ParseIndex(LastSegment(col))
        case Some(plotNum) =>
          if plotNum > maxPlots {
            maxPlots := plotNum;
          }
        case None =>
      }
      assert columns[..k + 1][..k] == columns[..k];
    }
    assert columns[..|columns|] == columns;
  }
}
