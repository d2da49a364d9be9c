/** Concrete tables and what the reshaper makes of them. */
module Scenarios {
  import opened Options
  import opened Cells
  import opened ColumnNames
  import opened Schema
  import opened Discovery
  import opened Expansion
  import opened Reshape

  /** One submission with plot 1 present and plot 2 missing. */
  const FarmerRow: Row := map[
    "farmer_id" := Text("F1"), "this_plot_id_1" := Text("P1"), "this_plot_id_2" := Missing,
    "w3w_link_1" := Text("loc1"), "w3w_link_2" := Text("loc2")]

  const FarmerColumns: seq<string> :=
    ["farmer_id", "this_plot_id_1", "this_plot_id_2", "w3w_link_1", "w3w_link_2"]

  const FarmerTable: Frame := Frame(FarmerColumns, [FarmerRow])

  /** The decimal texts of the two indices the scenario uses. */
  lemma SmallDecimals()
    ensures NatToDecimal(1) == "1" && NatToDecimal(2) == "2"
  {
  }

  /** The indexed column names of the scenario, spelled out. */
  lemma FarmerNames()
    ensures IndexedName(PlotIdStem, 1) == "this_plot_id_1" && IndexedName(PlotIdStem, 2) == "this_plot_id_2"
    ensures IndexedName("w3w_link", 1) == "w3w_link_1" && IndexedName("farmer_id", 1) == "farmer_id_1"
  {
    SmallDecimals();
  }

  /** Only the two plot id columns announce an index. */
  lemma FarmerColumnIndices()
    ensures PlotIndexOf(FarmerColumns[0]) == None && PlotIndexOf(FarmerColumns[1]) == Some(1)
    ensures PlotIndexOf(FarmerColumns[2]) == Some(2) && PlotIndexOf(FarmerColumns[3]) == None
    ensures PlotIndexOf(FarmerColumns[4]) == None
  {
    FarmerNames();
    PlotIdColumnIndex(1);
    PlotIdColumnIndex(2);
    assert |FarmerColumns[0]| < |PlotIdPrefix| && |FarmerColumns[3]| < |PlotIdPrefix| && |FarmerColumns[4]| < |PlotIdPrefix|;
  }

  /** Its columns announce two plots. */
  lemma FarmerTableMaxPlots()
    ensures MaxPlotIndex(FarmerTable.columns) == 2
  {
    var cols := FarmerColumns;
    FarmerColumnIndices();
    assert cols[..1][..0] == [];
    assert cols[..2][..1] == cols[..1] && cols[..3][..2] == cols[..2];
    assert cols[..4][..3] == cols[..3] && cols[..5][..4] == cols[..4] && cols[..5] == cols;
    assert MaxPlotIndex(cols[..1]) == 0;
    assert MaxPlotIndex(cols[..2]) == 1;
    assert MaxPlotIndex(cols[..3]) == 2;
    assert MaxPlotIndex(cols[..4]) == 2;
  }

  /** The cells of plot 1 that a schema can read from that row. */
  lemma FarmerRowCells()
    ensures Emits(FarmerRow, 1) && !Emits(FarmerRow, 2)
    ensures Get(FarmerRow, IndexedName(PlotIdStem, 1)) == Text("P1")
    ensures Get(FarmerRow, IndexedName("w3w_link", 1)) == Text("loc1")
    ensures IndexedName("farmer_id", 1) !in FarmerRow
    ensures Get(FarmerRow, "farmer_id") == Text("F1")
  {
    FarmerNames();
    assert "this_plot_id_1"[13] != "this_plot_id_2"[13];
    assert "w3w_link_1"[9] != "w3w_link_2"[9];
    assert |"farmer_id_1"| == 11;
  }

  /** Index 2 is skipped, so the table yields the one row for plot 1. */
  lemma FarmerTableOutput(schema: Config)
    ensures LongTable(FarmerTable, schema) == [BuildRow(FarmerRow, 1, schema)]
  {
    FarmerTableMaxPlots();
    FarmerRowCells();
    var rows := FarmerTable.rows;
    assert RowOrigins(0, rows[0], 1) == [(0, 1)];
    assert RowOrigins(0, rows[0], 2) == [(0, 1)];
    assert Provenance(rows, 1, 2) == Provenance(rows, 0, 2) + RowOrigins(0, rows[0], 2);
    assert Origins(FarmerTable) == [(0, 1)];
  }

  /** In any schema with `farmer_id` static and the plot id and the link as
      plot stems (the source row has no `farmer_id_1` that a stem could read),
      that row holds the farmer, the plot id and the link of plot 1. */
  lemma FarmerRowFields(schema: Config)
    requires "farmer_id" in schema.staticColumns
    requires PlotIdStem in schema.plotStems && "w3w_link" in schema.plotStems
    ensures Get(BuildRow(FarmerRow, 1, schema), "farmer_id") == Text("F1")
    ensures Get(BuildRow(FarmerRow, 1, schema), "this_plot_id") == Text("P1")
    ensures Get(BuildRow(FarmerRow, 1, schema), "w3w_link") == Text("loc1")
  {
    FarmerRowCells();
    BuildRowFields(FarmerRow, 1, schema);
    assert !Projects(FarmerRow, schema.plotStems, 1, "farmer_id");
    assert !Projects(FarmerRow, schema.pipeStems, 1, "farmer_id");
    assert Projects(FarmerRow, schema.plotStems, 1, PlotIdStem);
    assert Projects(FarmerRow, schema.plotStems, 1, "w3w_link");
  }

  /** The shipped schema is such a schema. */
  lemma DefaultFarmerFields()
    ensures "farmer_id" in Default.staticColumns
    ensures PlotIdStem in Default.plotStems && "w3w_link" in Default.plotStems
  {
    assert StaticColumns[5] == "farmer_id";
    assert Default.plotStems[0] == PlotIdStem;
    assert Default.plotStems[2] == "w3w_link";
  }

  /** With the shipped schema the table yields exactly one row, holding
      farmer `F1`, plot id `P1` and link `loc1`. */
  lemma FarmerScenario()
    ensures |LongTable(FarmerTable, Default)| == 1
    ensures Get(LongTable(FarmerTable, Default)[0], "farmer_id") == Text("F1")
    ensures Get(LongTable(FarmerTable, Default)[0], "this_plot_id") == Text("P1")
    ensures Get(LongTable(FarmerTable, Default)[0], "w3w_link") == Text("loc1")
  {
    FarmerTableOutput(Default);
    DefaultFarmerFields();
    FarmerRowFields(Default);
  }

  /** A zero-padded suffix is parsed by index discovery, but row expansion
      looks up the unpadded name: `this_plot_id_01` raises `max_plots` to 1
      and is never read, so its rows yield nothing, whatever the schema. */
  lemma ZeroPaddedSuffixNeverRead(schema: Config)
    ensures var df := Frame(["this_plot_id_01"], [map["this_plot_id_01" := Text("P1")]]);
      MaxPlotIndex(df.columns) == 1 && LongTable(df, schema) == []
  {
    var df := Frame(["this_plot_id_01"], [map["this_plot_id_01" := Text("P1")]]);
    PaddedColumnIndex();
    assert df.columns[..0] == [];
    assert MaxPlotIndex(df.columns) == 1;
    PaddedColumnNotRead();
    assert RowOrigins(0, df.rows[0], 1) == [];
    assert Provenance(df.rows, 1, 1) == Provenance(df.rows, 0, 1) + RowOrigins(0, df.rows[0], 1);
    assert Origins(df) == [];
  }

  /** `this_plot_id_01` announces index 1, as `int('01')` is 1. */
  lemma PaddedColumnIndex()
    ensures PlotIndexOf("this_plot_id_01") == Some(1)
  {
    var s := "this_plot_id_01";
    assert PlotIdPrefix <= s by {
      assert s[..13] == PlotIdPrefix;
    }
    assert LastSegment(s) == "01" by {
      assert s[..|s| - 1] == "this_plot_id_0" && s[..|s| - 1][..|s| - 2] == PlotIdPrefix;
    }
    assert DigitsValue("01") == 1 by {
      assert "01"[..1] == "0" && "0"[..0] == [];
    }
  }

  /** The plot id column row expansion looks up for index 1 is
      `this_plot_id_1`, which that row does not have. */
  lemma PaddedColumnNotRead()
    ensures !Emits(map["this_plot_id_01" := Text("P1")], 1)
  {
    FarmerNames();
    assert |"this_plot_id_1"| != |"this_plot_id_01"|;
  }
}
