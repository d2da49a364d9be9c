/** Row expansion and column projection: which output rows a wide table
    yields, in which order, and what each holds. */
module Expansion {
  import opened Cells
  import opened ColumnNames
  import opened Schema
  import opened Discovery

  /** `pd.notna(row.get(f'this_plot_id_{i}'))`: the row has repeat group `i`. */
  predicate Emits(row: Row, i: nat) {
    IsPresent(Get(row, IndexedName(PlotIdStem, i)))
  }

  /** Stem `k` of `stems` is copied for index `i`: the row has `<k>_<i>`. */
  predicate Projects(row: Row, stems: seq<string>, i: nat, k: string) {
    k in stems && IndexedName(k, i) in row
  }

  /** The static columns, copied one after the other into a fresh map; a
      column the row lacks is written as missing. */
  function CopyStatic(row: Row, columns: seq<string>): Row {
    if columns == [] then map[]
    else
      var c := columns[|columns| - 1];
      CopyStatic(row, columns[..|columns| - 1])[c := Get(row, c)]
  }

  /** The copy has exactly the static columns, each with the row's cell or
      missing. */
  lemma {:induction false} CopyStaticFields(row: Row, columns: seq<string>)
    ensures CopyStatic(row, columns).Keys == set c | c in columns
    ensures forall k | k in CopyStatic(row, columns) :: CopyStatic(row, columns)[k] == Get(row, k)
  {
    if columns != [] {
      var front := columns[..|columns| - 1];
      CopyStaticFields(row, front);
      assert forall c :: c in columns <==> c in front || c == columns[|columns| - 1];
    }
  }

  /** The stems, one after the other, each copied from `<stem>_<i>` into
      `base` when the row has that column, and skipped when it has not. */
  function CopyStems(row: Row, base: Row, stems: seq<string>, i: nat): Row {
    if stems == [] then base
    else
      var s := stems[|stems| - 1];
      var r := CopyStems(row, base, stems[..|stems| - 1], i);
      if IndexedName(s, i) in row then r[s := row[IndexedName(s, i)]] else r
  }

  /** A stem is added exactly when the row has its indexed column, with that
      column's cell; every other key of `base` keeps its value. */
  lemma {:induction false} CopyStemsFields(row: Row, base: Row, stems: seq<string>, i: nat)
    ensures forall k :: k in CopyStems(row, base, stems, i) <==> k in base || Projects(row, stems, i, k)
    ensures forall k | k in CopyStems(row, base, stems, i) ::
      CopyStems(row, base, stems, i)[k] == if Projects(row, stems, i, k) then row[IndexedName(k, i)] else base[k]
  {
    if stems != [] {
      var front := stems[..|stems| - 1];
      CopyStemsFields(row, base, front, i);
      assert forall k :: k in stems <==> k in front || k == stems[|stems| - 1];
    }
  }

  /** The output row for source row `row` and repeat group `i`: static
      columns first, then the plot stems, then the pipe stems. A stem read
      from `<stem>_<i>` overrides a static column of the same name; a stem in
      both groups reads the same column either way. */
  function BuildRow(row: Row, i: nat, schema: Config): Row {
    var statics := CopyStatic(row, schema.staticColumns);
    CopyStems(row, CopyStems(row, statics, schema.plotStems, i), schema.pipeStems, i)
  }

  /** The keys of an output row are the static columns and the stems whose
      indexed column the source row has; a stem's value is the verbatim
      `<stem>_<i>` cell, every other value the static cell or missing. */
  lemma BuildRowFields(row: Row, i: nat, schema: Config)
    ensures forall k :: k in BuildRow(row, i, schema) <==>
      k in schema.staticColumns || Projects(row, schema.plotStems, i, k) || Projects(row, schema.pipeStems, i, k)
    ensures forall k | k in BuildRow(row, i, schema) ::
      BuildRow(row, i, schema)[k] ==
        if Projects(row, schema.plotStems, i, k) || Projects(row, schema.pipeStems, i, k)
        then row[IndexedName(k, i)] else Get(row, k)
  {
    var statics := CopyStatic(row, schema.staticColumns);
    CopyStaticFields(row, schema.staticColumns);
    CopyStemsFields(row, statics, schema.plotStems, i);
    CopyStemsFields(row, CopyStems(row, statics, schema.plotStems, i), schema.pipeStems, i);
  }

  /** The inner loop over `range(1, n + 1)` for source row `j`: the pairs
      `(j, i)`, in the order the loop visits them, for which an output row is
      appended because the plot id for `i` is present. */
  function RowOrigins(j: nat, row: Row, n: nat): seq<(nat, nat)> {
    if n == 0 then [] else RowOrigins(j, row, n - 1) + (if Emits(row, n) then [(j, n)] else [])
  }

  /** At most `n` output rows per source row ... */
  lemma {:induction false} RowOriginsSize(j: nat, row: Row, n: nat)
    ensures |RowOrigins(j, row, n)| <= n
  {
    if n > 0 {
      RowOriginsSize(j, row, n - 1);
    }
  }

  /** ... each for source row `j` and an index in 1..n whose plot id is
      present ... */
  lemma {:induction false} RowOriginsAt(j: nat, row: Row, n: nat, k: nat)
    requires k < |RowOrigins(j, row, n)|
    ensures RowOrigins(j, row, n)[k].0 == j && 1 <= RowOrigins(j, row, n)[k].1 <= n
    ensures Emits(row, RowOrigins(j, row, n)[k].1)
  {
    if k < |RowOrigins(j, row, n - 1)| {
      RowOriginsAt(j, row, n - 1, k);
    }
  }

  /** ... one for every such index ... */
  lemma {:induction false} RowOriginsHas(j: nat, row: Row, n: nat, i: nat)
    requires 1 <= i <= n && Emits(row, i)
    ensures (j, i) in RowOrigins(j, row, n)
  {
    if i < n {
      RowOriginsHas(j, row, n - 1, i);
    } else {
      assert RowOrigins(j, row, n)[|RowOrigins(j, row, n - 1)|] == (j, i);
    }
  }

  /** ... in ascending index order. */
  lemma {:induction false} RowOriginsAscending(j: nat, row: Row, n: nat, a: nat, b: nat)
    requires a < b < |RowOrigins(j, row, n)|
    ensures RowOrigins(j, row, n)[a].1 < RowOrigins(j, row, n)[b].1
  {
    var front := RowOrigins(j, row, n - 1);
    if b < |front| {
      RowOriginsAscending(j, row, n - 1, a, b);
    } else {
      RowOriginsAt(j, row, n - 1, a);
    }
  }

  /** Output position `x` comes from an earlier source row than `y`, or from
      the same row and a smaller index. */
  predicate Before(x: (nat, nat), y: (nat, nat)) {
    x.0 < y.0 || (x.0 == y.0 && x.1 < y.1)
  }

  /** The outer loop over the first `n` source rows: the (source row, index)
      pair of every output row, in output order. */
  function Provenance(rows: seq<Row>, n: nat, m: nat): seq<(nat, nat)>
    requires n <= |rows|
  {
    if n == 0 then [] else Provenance(rows, n - 1, m) + RowOrigins(n - 1, rows[n - 1], m)
  }

  lemma SuccTimes(n: nat, m: nat)
    requires n > 0
    ensures (n - 1) * m + m == n * m
  {
  }

  /** At most `m` output rows per source row. */
  lemma {:induction false} ProvenanceSize(rows: seq<Row>, n: nat, m: nat)
    requires n <= |rows|
    ensures |Provenance(rows, n, m)| <= n * m
  {
    if n > 0 {
      ProvenanceSize(rows, n - 1, m);
      RowOriginsSize(n - 1, rows[n - 1], m);
      SuccTimes(n, m);
    }
  }

  /** Output row `k` comes from a source row among the first `n` and an index
      in 1..m, and that source row holds the plot id for that index. */
  lemma {:induction false} ProvenanceAt(rows: seq<Row>, n: nat, m: nat, k: nat)
    requires n <= |rows| && k < |Provenance(rows, n, m)|
    ensures Provenance(rows, n, m)[k].0 < n && 1 <= Provenance(rows, n, m)[k].1 <= m
    ensures Emits(rows[Provenance(rows, n, m)[k].0], Provenance(rows, n, m)[k].1)
  {
    var front := Provenance(rows, n - 1, m);
    if k < |front| {
      ProvenanceAt(rows, n - 1, m, k);
    } else {
      RowOriginsAt(n - 1, rows[n - 1], m, k - |front|);
    }
  }

  /** Every output row, at once. */
  lemma ProvenanceSound(rows: seq<Row>, n: nat, m: nat)
    requires n <= |rows|
    ensures forall k | 0 <= k < |Provenance(rows, n, m)| ::
      Provenance(rows, n, m)[k].0 < n && 1 <= Provenance(rows, n, m)[k].1 <= m &&
      Emits(rows[Provenance(rows, n, m)[k].0], Provenance(rows, n, m)[k].1)
  {
    forall k | 0 <= k < |Provenance(rows, n, m)|
      ensures Provenance(rows, n, m)[k].0 < n && 1 <= Provenance(rows, n, m)[k].1 <= m &&
        Emits(rows[Provenance(rows, n, m)[k].0], Provenance(rows, n, m)[k].1)
    {
      ProvenanceAt(rows, n, m, k);
    }
  }

  /** A source row among the first `n` with a present plot id for an index in
      1..m yields an output row. */
  lemma {:induction false} ProvenanceHas(rows: seq<Row>, n: nat, m: nat, j: nat, i: nat)
    requires n <= |rows| && j < n && 1 <= i <= m && Emits(rows[j], i)
    ensures (j, i) in Provenance(rows, n, m)
  {
    var front, back := Provenance(rows, n - 1, m), RowOrigins(n - 1, rows[n - 1], m);
    if j < n - 1 {
      ProvenanceHas(rows, n - 1, m, j, i);
      assert (j, i) in front;
    } else {
      RowOriginsHas(j, rows[j], m, i);
      assert (j, i) in back;
    }
  }

  /** Every such pair, at once. */
  lemma ProvenanceComplete(rows: seq<Row>, n: nat, m: nat)
    requires n <= |rows|
    ensures forall j, i | 0 <= j < n && 1 <= i <= m && Emits(rows[j], i) :: (j, i) in Provenance(rows, n, m)
  {
    forall j, i | 0 <= j < n && 1 <= i <= m && Emits(rows[j], i) ensures (j, i) in Provenance(rows, n, m) {
      ProvenanceHas(rows, n, m, j, i);
    }
  }

  /** Output order is source-row-major, ascending index within a source
      row ... */
  lemma {:induction false} ProvenanceBefore(rows: seq<Row>, n: nat, m: nat, a: nat, b: nat)
    requires n <= |rows| && a < b < |Provenance(rows, n, m)|
    ensures Before(Provenance(rows, n, m)[a], Provenance(rows, n, m)[b])
  {
    var front := Provenance(rows, n - 1, m);
    if b < |front| {
      ProvenanceBefore(rows, n - 1, m, a, b);
    } else if a < |front| {
      ProvenanceAt(rows, n - 1, m, a);
      RowOriginsAt(n - 1, rows[n - 1], m, b - |front|);
    } else {
      RowOriginsAscending(n - 1, rows[n - 1], m, a - |front|, b - |front|);
      RowOriginsAt(n - 1, rows[n - 1], m, a - |front|);
      RowOriginsAt(n - 1, rows[n - 1], m, b - |front|);
    }
  }

  /** ... for all positions at once; in particular no pair occurs twice. */
  lemma ProvenanceOrdered(rows: seq<Row>, n: nat, m: nat)
    requires n <= |rows|
    ensures forall a, b | 0 <= a < b < |Provenance(rows, n, m)| ::
      Before(Provenance(rows, n, m)[a], Provenance(rows, n, m)[b])
  {
    forall a, b | 0 <= a < b < |Provenance(rows, n, m)|
      ensures Before(Provenance(rows, n, m)[a], Provenance(rows, n, m)[b])
    {
      ProvenanceBefore(rows, n, m, a, b);
    }
  }

  /** Every pair names one of the source rows. */
  predicate InRange(rows: seq<Row>, pairs: seq<(nat, nat)>) {
    forall k | 0 <= k < |pairs| :: pairs[k].0 < |rows|
  }

  lemma ProvenanceInRange(rows: seq<Row>, n: nat, m: nat)
    requires n <= |rows|
    ensures InRange(rows, Provenance(rows, n, m))
  {
    ProvenanceSound(rows, n, m);
  }

  /** The output rows for a list of (source row, index) pairs, in order:
      the projection of each. */
  function Project(rows: seq<Row>, pairs: seq<(nat, nat)>, schema: Config): seq<Row>
    requires InRange(rows, pairs)
  {
    seq(|pairs|, k requires 0 <= k < |pairs| => BuildRow(rows[pairs[k].0], pairs[k].1, schema))
  }

  /** Projection distributes over concatenation. */
  lemma ProjectAppend(rows: seq<Row>, p: seq<(nat, nat)>, q: seq<(nat, nat)>, schema: Config)
    requires InRange(rows, p) && InRange(rows, q)
    ensures InRange(rows, p + q)
    ensures Project(rows, p + q, schema) == Project(rows, p, schema) + Project(rows, q, schema)
  {
    forall k | 0 <= k < |p + q| ensures (p + q)[k].0 < |rows| {
      if k >= |p| {
        assert (p + q)[k] == q[k - |p|];
      }
    }
    var l, r := Project(rows, p + q, schema), Project(rows, p, schema) + Project(rows, q, schema);
    forall k | 0 <= k < |l| ensures l[k] == r[k] {
      if k >= |p| {
        assert (p + q)[k] == q[k - |p|];
      }
    }
  }

  /** An output field depends only on the source cells it is read from:
      `<k>` for a static column, `<k>_<i>` for a stem. Changing any other
      cell, such as another stem's indexed column, leaves field `k` as it is. */
  lemma ColumnLocality(row: Row, other: Row, i: nat, schema: Config, k: string)
    requires k in row <==> k in other
    requires k in row ==> row[k] == other[k]
    requires IndexedName(k, i) in row <==> IndexedName(k, i) in other
    requires IndexedName(k, i) in row ==> row[IndexedName(k, i)] == other[IndexedName(k, i)]
    ensures k in BuildRow(row, i, schema) <==> k in BuildRow(other, i, schema)
    ensures k in BuildRow(row, i, schema) ==> BuildRow(row, i, schema)[k] == BuildRow(other, i, schema)[k]
  {
    BuildRowFields(row, i, schema);
    BuildRowFields(other, i, schema);
    assert Projects(row, schema.plotStems, i, k) == Projects(other, schema.plotStems, i, k);
    assert Projects(row, schema.pipeStems, i, k) == Projects(other, schema.pipeStems, i, k);
    assert Get(row, k) == Get(other, k);
  }

  /** A missing plot id skips that index only: with plot ids 1 and 2 present
      and 3 missing, source row `j` yields exactly the rows for 1 and 2. */
  lemma MissingPlotSkipped(j: nat, row: Row)
    requires Emits(row, 1) && Emits(row, 2) && !Emits(row, 3)
    ensures RowOrigins(j, row, 3) == [(j, 1), (j, 2)]
  {
    assert RowOrigins(j, row, 1) == [(j, 1)];
    assert RowOrigins(j, row, 2) == [(j, 1), (j, 2)];
  }
}
