/** `transform_wide_to_long`: index discovery followed by row expansion,
    and what the whole reshaping promises. */
module Reshape {
  import opened Options
  import opened Cells
  import opened ColumnNames
  import opened Schema
  import opened Discovery
  import opened Expansion

  /** The (source row, index) pair behind each row `transform_wide_to_long`
      produces, in output order. */
  function Origins(df: Frame): seq<(nat, nat)> {
    Provenance(df.rows, |df.rows|, MaxPlotIndex(df.columns))
  }

  /** The list of row maps `transform_wide_to_long` hands to
      `pd.DataFrame`: the projection of every pair of `Origins`. */
  function LongTable(df: Frame, schema: Config): seq<Row> {
    ProvenanceInRange(df.rows, |df.rows|, MaxPlotIndex(df.columns));
    Project(df.rows, Origins(df), schema)
  }

  /** Lines 59-60: every static column copied into the row map under
      construction, missing where the source row lacks it. */
  method AddStaticColumns(row: Row, columns: seq<string>) returns (r: Row)
    ensures r == CopyStatic(row, columns)
  {
    r := map[];
    for c := 0 to |columns|
      invariant r == CopyStatic(row, columns[..c])
    {
      var col := columns[c];
      r := r[col := Get(row, col)];
      assert columns[..c + 1][..c] == columns[..c];
    }
    assert columns[..|columns|] == columns;
  }

  /** Lines 62-65 and 67-70: each stem whose indexed column `<stem>_<i>` the
      source row has is copied under the bare stem. */
  method AddStemColumns(row: Row, newRow: Row, stems: seq<string>, i: nat) returns (r: Row)
    ensures r == CopyStems(row, newRow, stems, i)
  {
    r := newRow;
    for p := 0 to |stems|
      invariant r == CopyStems(row, newRow, stems[..p], i)
    {
      var pattern := stems[p];
      var colName := IndexedName(pattern, i);
      if colName in row {
        r := r[pattern := row[colName]];
      }
      assert stems[..p + 1][..p] == stems[..p];
    }
    assert stems[..|stems|] == stems;
  }

  /** Lines 57-70: the output row for one source row and one index. */
  method NewRow(row: Row, i: nat, schema: Config) returns (newRow: Row)
    ensures newRow == BuildRow(row, i, schema)
  {
    newRow := AddStaticColumns(row, schema.staticColumns);
    newRow := AddStemColumns(row, newRow, schema.plotStems, i);
    newRow := AddStemColumns(row, newRow, schema.pipeStems, i);
  }

  /** The pairs of source row `r` all name that row. */
  lemma RowOriginsInRange(rows: seq<Row>, r: nat, i: nat)
    requires r < |rows|
    ensures InRange(rows, RowOrigins(r, rows[r], i))
  {
    var p := RowOrigins(r, rows[r], i);
    forall k | 0 <= k < |p| ensures p[k].0 < |rows| {
      RowOriginsAt(r, rows[r], i, k);
    }
  }

  /** One pass of the inner loop: index `i` of source row `r` appends its
      projection to the rows `done` so far exactly when its plot id is
      present. */
  lemma InnerStep(rows: seq<Row>, r: nat, i: nat, schema: Config, done: seq<Row>)
    requires r < |rows| && 1 <= i
    ensures InRange(rows, RowOrigins(r, rows[r], i - 1)) && InRange(rows, RowOrigins(r, rows[r], i))
    ensures done + Project(rows, RowOrigins(r, rows[r], i), schema) ==
      done + Project(rows, RowOrigins(r, rows[r], i - 1), schema) +
      (if Emits(rows[r], i) then [BuildRow(rows[r], i, schema)] else [])
  {
    RowOriginsInRange(rows, r, i - 1);
    RowOriginsInRange(rows, r, i);
    if Emits(rows[r], i) {
      ProjectAppend(rows, RowOrigins(r, rows[r], i - 1), [(r, i)], schema);
    }
  }

  /** Entering and leaving the inner loop for source row `r`: no index yet
      contributes, and all of `1..m` together extend the output of the first
      `r` source rows to that of the first `r + 1`. */
  lemma OuterStep(rows: seq<Row>, r: nat, m: nat, schema: Config)
    requires r < |rows|
    ensures InRange(rows, RowOrigins(r, rows[r], 0)) && Project(rows, RowOrigins(r, rows[r], 0), schema) == []
    ensures InRange(rows, Provenance(rows, r, m)) && InRange(rows, RowOrigins(r, rows[r], m))
    ensures InRange(rows, Provenance(rows, r + 1, m))
    ensures Project(rows, Provenance(rows, r + 1, m), schema) ==
      Project(rows, Provenance(rows, r, m), schema) + Project(rows, RowOrigins(r, rows[r], m), schema)
  {
    RowOriginsInRange(rows, r, m);
    ProvenanceInRange(rows, r, m);
    ProjectAppend(rows, Provenance(rows, r, m), RowOrigins(r, rows[r], m), schema);
  }

  /** Lines 54-72, the inner loop for source row `r`: for every index 1..max
      whose plot id is present, build a fresh row map and append it. */
  method AppendPlotRows(rows: seq<Row>, r: nat, maxPlots: nat, schema: Config, longData: seq<Row>)
    returns (result: seq<Row>)
    requires r < |rows|
    ensures InRange(rows, RowOrigins(r, rows[r], maxPlots))
    ensures result == longData + Project(rows, RowOrigins(r, rows[r], maxPlots), schema)
  {
    var row := rows[r];
    result := longData;
    OuterStep(rows, r, maxPlots, schema);
    for i := 1 to maxPlots + 1
      invariant InRange(rows, RowOrigins(r, row, i - 1))
      invariant result == longData + Project(rows, RowOrigins(r, row, i - 1), schema)
    {
      InnerStep(rows, r, i, schema, longData);
      var plotIdCol := IndexedName(PlotIdStem, i);
      if IsPresent(Get(row, plotIdCol)) {
        var newRow := NewRow(row, i, schema);
        result := result + [newRow];
      }
    }
  }

  /** The reshaping as written (lines 25-72): discover the number of repeat
      groups, then run the inner loop for every source row in turn. */
  method TransformWideToLong(df: Frame, schema: Config) returns (longData: seq<Row>)
    ensures longData == LongTable(df, schema)
  {
    var maxPlots := DiscoverMaxPlots(df.columns);
    longData := [];
    for r := 0 to |df.rows|
      invariant InRange(df.rows, Provenance(df.rows, r, maxPlots))
      invariant longData == Project(df.rows, Provenance(df.rows, r, maxPlots), schema)
    {
      OuterStep(df.rows, r, maxPlots, schema);
      longData := AppendPlotRows(df.rows, r, maxPlots, schema, longData);
    }
  }

  /** The (source row, index) pairs with a present plot id, as a set. */
  ghost function EmittingPairs(rows: seq<Row>, m: nat): set<(nat, nat)> {
    set j: nat, i: nat | j < |rows| && 1 <= i <= m && Emits(rows[j], i) :: (j, i)
  }

  lemma {:induction false} DistinctCardinality<T>(s: seq<T>)
    requires forall a, b | 0 <= a < b < |s| :: s[a] != s[b]
    ensures |set x | x in s| == |s|
  {
    if s != [] {
      var t := s[..|s| - 1];
      DistinctCardinality(t);
      assert (set x | x in s) == (set x | x in t) + {s[|s| - 1]};
      assert s[|s| - 1] !in t by {
        forall a | 0 <= a < |t| ensures t[a] != s[|s| - 1] {
          assert t[a] == s[a];
        }
      }
    }
  }

  /** Each output row carries the source row and index at the same position
      of `Origins`, a source row with a present plot id at that index, and is
      that row's projection for that index; earlier source rows come first,
      and ascending indices within one source row. */
  lemma OutputRows(df: Frame, schema: Config)
    ensures |LongTable(df, schema)| == |Origins(df)|
    ensures forall k | 0 <= k < |Origins(df)| ::
      var (j, i) := Origins(df)[k];
      j < |df.rows| && 1 <= i <= MaxPlotIndex(df.columns) && Emits(df.rows[j], i) &&
      LongTable(df, schema)[k] == BuildRow(df.rows[j], i, schema)
    ensures forall a, b | 0 <= a < b < |Origins(df)| :: Before(Origins(df)[a], Origins(df)[b])
  {
    var m := MaxPlotIndex(df.columns);
    ProvenanceInRange(df.rows, |df.rows|, m);
    ProvenanceSound(df.rows, |df.rows|, m);
    ProvenanceOrdered(df.rows, |df.rows|, m);
  }

  /** There are exactly as many output rows as (source row, index) pairs
      with index in 1..max and a present plot id, hence at most
      rows x max. */
  lemma OutputCount(df: Frame, schema: Config)
    ensures |LongTable(df, schema)| == |EmittingPairs(df.rows, MaxPlotIndex(df.columns))|
    ensures |LongTable(df, schema)| <= |df.rows| * MaxPlotIndex(df.columns)
  {
    var m := MaxPlotIndex(df.columns);
    var p := Origins(df);
    ProvenanceInRange(df.rows, |df.rows|, m);
    ProvenanceSize(df.rows, |df.rows|, m);
    ProvenanceSound(df.rows, |df.rows|, m);
    ProvenanceComplete(df.rows, |df.rows|, m);
    ProvenanceOrdered(df.rows, |df.rows|, m);
    DistinctCardinality(p);
    assert (set x | x in p) == EmittingPairs(df.rows, m);
  }

  /** A table without a positive `this_plot_id_<n>` column yields no rows,
      however many rows it has. */
  lemma NoPlotColumnsNoRows(df: Frame, schema: Config)
    requires forall c | c in df.columns && PlotIndexOf(c).Some? :: PlotIndexOf(c).value == 0
    ensures LongTable(df, schema) == []
  {
    MaxPlotIndexIsMaximum(df.columns);
    OutputCount(df, schema);
  }

  /** Every output row has every static column: the source row's cell, or
      missing when the source row lacks it, unless a stem of the same name
      was read from its indexed column. */
  lemma StaticColumnsPresent(df: Frame, schema: Config, k: nat, c: string)
    requires k < |Origins(df)| && c in schema.staticColumns
    ensures k < |LongTable(df, schema)| && Origins(df)[k].0 < |df.rows|
    ensures c in LongTable(df, schema)[k]
    ensures var (j, i) := Origins(df)[k];
      !Projects(df.rows[j], schema.plotStems, i, c) && !Projects(df.rows[j], schema.pipeStems, i, c) ==>
      LongTable(df, schema)[k][c] == Get(df.rows[j], c)
  {
    OutputRows(df, schema);
    var (j, i) := Origins(df)[k];
    BuildRowFields(df.rows[j], i, schema);
  }

  /** With the shipped lists no stem shares a static column's name, so every
      output row holds every static column with the source cell, or missing
      when the source row lacks it. */
  lemma StaticColumnsPresentDefault(df: Frame, k: nat, c: string)
    requires k < |Origins(df)| && c in Default.staticColumns
    ensures k < |LongTable(df, Default)| && Origins(df)[k].0 < |df.rows|
    ensures c in LongTable(df, Default)[k]
    ensures LongTable(df, Default)[k][c] == Get(df.rows[Origins(df)[k].0], c)
  {
    StaticColumnsPresent(df, Default, k, c);
    DefaultDisjoint();
  }

  /** The keys of every output row come from the schema: static columns and
      the bare stems of both groups. */
  lemma OutputKeysInSchema(df: Frame, schema: Config, k: nat)
    requires k < |LongTable(df, schema)|
    ensures forall c | c in LongTable(df, schema)[k] ::
      c in schema.staticColumns || c in schema.plotStems || c in schema.pipeStems
  {
    OutputRows(df, schema);
    var (j, i) := Origins(df)[k];
    BuildRowFields(df.rows[j], i, schema);
  }

  /** With the shipped schema the `this_plot_id` field of every output row is
      the present `this_plot_id_<i>` cell that caused it. */
  lemma PlotIdCarried(df: Frame, k: nat)
    requires k < |Origins(df)|
    ensures k < |LongTable(df, Default)| && Origins(df)[k].0 < |df.rows|
    ensures var (j, i) := Origins(df)[k];
      PlotIdStem in LongTable(df, Default)[k] &&
      LongTable(df, Default)[k][PlotIdStem] == Get(df.rows[j], IndexedName(PlotIdStem, i)) &&
      IsPresent(LongTable(df, Default)[k][PlotIdStem])
  {
    OutputRows(df, Default);
    DefaultPlotIdStem();
    var (j, i) := Origins(df)[k];
    BuildRowFields(df.rows[j], i, Default);
    assert Projects(df.rows[j], Default.plotStems, i, PlotIdStem);
  }

  /** In a well-formed table every present `this_plot_id_<i>` cell, i >= 1,
      yields an output row: index discovery never stops short of a plot id
      column the rows use. */
  lemma NoPlotLost(df: Frame, j: nat, i: nat)
    requires WellFormed(df)
    requires j < |df.rows| && 1 <= i && Emits(df.rows[j], i)
    ensures (j, i) in Origins(df)
  {
    PlotIdColumnCovered(df.columns, i);
    ProvenanceComplete(df.rows, |df.rows|, MaxPlotIndex(df.columns));
  }
}
