# Wide-to-long reshaper, modelled in Dafny

This project models `transform_wide_to_long` from `streamlit_long2wide.py`. The
function turns a survey export in "wide" form into "long" form. In the wide form
one submission row holds several repeat groups (plots) side by side, as columns
`<stem>_1`, `<stem>_2`, ... In the long form each present plot becomes a row of
its own.

The function works in two steps.

- **Index discovery** scans the column names. For every name that starts with
  `this_plot_id_`, it parses the text after the last `_` as an integer. It keeps
  the running maximum in `max_plots`, starting from 0, and skips a suffix that
  does not parse.
- **Row expansion** walks the source rows in order. For each row it walks the
  indices `1..max_plots` in ascending order. When `this_plot_id_<i>` holds a
  present value, it builds a fresh row map:
  - every static column is copied, and a column the row lacks becomes missing;
  - for every stem of the plot list, then of the pipe list, the cell
    `<stem>_<i>` is copied under the bare `<stem>`, when the row has that column.

  Each new map is appended to `long_data`.

The model is organised as follows.

- `cells.dfy`: cells, rows as maps, and tables.
  - `Missing` stands for every marker pandas treats as absent.
  - `Get` is `row.get`, and `IsPresent` is `pd.notna`.
- `column_names.dfy`:
  - `IndexedName` writes the decimal suffix `f'{stem}_{i}'`;
  - `LastSegment` is `split('_')[-1]`;
  - `ParseIndex` is `int()` restricted to digit strings.
- `schema.dfy`: the three constant column lists. Every lemma about expansion
  takes them as a parameter `Config`; `Default` holds the shipped lists. The
  static list is written as one constant per source line (lines 12-22), so
  that `DefaultDisjoint` can be proved one line at a time.
- `discovery.dfy`: the discovery loop (`DiscoverMaxPlots`), proved against the
  fold `MaxPlotIndex`. `PlotIndexOf` is the test and parse of one column name
  (lines 27-29): the prefix `this_plot_id_`, then `int()` of the last segment.
- `expansion.dfy`: the specification of row expansion.
  - `RowOrigins` and `Provenance` give the (source row, index) pair behind each
    output row, in output order.
  - `Emits` is the guard at lines 55-56: the row's `this_plot_id_<i>` cell is
    present.
  - `Projects` is the test at lines 63-64 and 68-69: the stem is in the list
    and the row has its column `<stem>_<i>`.
  - `BuildRow` gives the map built for one pair, and `Project` maps a list of
    pairs to their rows.
- `reshape.dfy`: the nested loops as methods.
  - `TransformWideToLong` is proved to return `LongTable`.
  - It also holds the properties of the whole output: count, order, keys,
    values, and completeness.
- `scenarios.dfy`: concrete tables worked through the specification.

## Model

| member | source | states |
|---|---|---|
| `ColumnNames.NatToDecimal` | streamlit_long2wide.py:55 | the index text in `f'this_plot_id_{i}'` is a non-empty string of ASCII digits with no `_` and no leading zero |
| `ColumnNames.LastSegment` | streamlit_long2wide.py:29 | `split('_')[-1]` is the suffix of the name after its last `_` (the whole name when there is none) and contains no `_` |
| `ColumnNames.ParseDecimal` | streamlit_long2wide.py:29 | parsing the decimal text of `n` gives back `n` |
| `ColumnNames.DecimalValue` | streamlit_long2wide.py:29 | the digits written for `n` denote `n` |
| `ColumnNames.DecimalOfCanonical` | streamlit_long2wide.py:29 | writing back a parsed digit string reproduces it exactly when it has no superfluous leading zero, e.g. `int('07')` is written `7` |
| `ColumnNames.IndexedNameSegment` | streamlit_long2wide.py:55 | the last `_`-segment of `<stem>_<i>` is the decimal text of `i`, even when the stem contains underscores |
| `ColumnNames.IndexedNameInjective` | streamlit_long2wide.py:55 | two indexed names of one stem are equal only for equal indices |
| `Schema.DefaultPlotIdStem` | streamlit_long2wide.py:27-38 | the shipped plot list contains `this_plot_id`, and the discovery prefix is that stem followed by `_` |
| `Schema.DefaultDisjoint` | streamlit_long2wide.py:11-51 | no name of the shipped static list is a stem of the plot list or of the pipe list |
| `Discovery.MaxPlotIndexIsMaximum` | streamlit_long2wide.py:25-33 | the discovered value bounds every parsed plot index and is attained by some column; it is 0 exactly when no column announces a positive index |
| `Discovery.MaxPlotIndexOrderFree` | streamlit_long2wide.py:25-31 | two column lists with the same names, in any order and with any repetition, discover the same maximum |
| `Discovery.PlotIdColumnIndex` | streamlit_long2wide.py:27-29 | the column `this_plot_id_<n>` read during expansion announces index `n` during discovery |
| `Discovery.PlotIdColumnCovered` | streamlit_long2wide.py:25-33 | every index whose plot id column is in the table is at most `max_plots`, so the expansion loop reaches it |
| `Discovery.DiscoverMaxPlots` | streamlit_long2wide.py:25-33 | the discovery loop returns the maximum defined by `MaxPlotIndex` |
| `Expansion.CopyStaticFields` | streamlit_long2wide.py:59-60 | the copied static part has exactly the static columns as keys, each holding the source row's cell or missing |
| `Expansion.CopyStemsFields` | streamlit_long2wide.py:62-70 | a stem key is added exactly when the row has `<stem>_<i>`, holding that cell verbatim; every other key keeps its earlier value |
| `Expansion.BuildRowFields` | streamlit_long2wide.py:57-70 | an output row's keys are the static columns plus the stems whose indexed column exists; a stem holds its `<stem>_<i>` cell (a stem in both lists reads the same cell), any other key the static cell or missing |
| `Expansion.RowOriginsSize` | streamlit_long2wide.py:54-56 | one source row yields at most `max_plots` output rows |
| `Expansion.RowOriginsAt` | streamlit_long2wide.py:54-56 | each output row of source row `j` is for an index in `1..max_plots` whose plot id is present |
| `Expansion.RowOriginsHas` | streamlit_long2wide.py:54-56 | every index in `1..max_plots` with a present plot id yields an output row |
| `Expansion.RowOriginsAscending` | streamlit_long2wide.py:54 | the output rows of one source row are in strictly ascending index order |
| `Expansion.ProvenanceSize` | streamlit_long2wide.py:53-56 | `n` source rows yield at most `n * max_plots` output rows |
| `Expansion.ProvenanceAt` | streamlit_long2wide.py:53-56 | output row `k` is for one of the source rows and an index in `1..max_plots` whose plot id that row holds |
| `Expansion.ProvenanceSound` | streamlit_long2wide.py:53-56 | the same, for all output rows at once |
| `Expansion.ProvenanceHas` | streamlit_long2wide.py:53-56 | every source row and index in range with a present plot id yields an output row |
| `Expansion.ProvenanceComplete` | streamlit_long2wide.py:53-56 | the same, for all such pairs at once |
| `Expansion.ProvenanceBefore` | streamlit_long2wide.py:53-54 | an earlier output position comes from an earlier source row, or from the same row and a smaller index |
| `Expansion.ProvenanceOrdered` | streamlit_long2wide.py:53-54 | the same, for all pairs of output positions: row-major order, ascending index |
| `Expansion.ProjectAppend` | streamlit_long2wide.py:72 | appending the rows for two pair lists in turn equals projecting their concatenation |
| `Expansion.ColumnLocality` | streamlit_long2wide.py:57-70 | output field `k` depends only on the source cells `k` and `k_<i>`; changing any other cell leaves it unchanged |
| `Expansion.MissingPlotSkipped` | streamlit_long2wide.py:54-56 | a missing plot id skips only that index: plot ids 1 and 2 present and 3 missing yield exactly the rows for 1 and 2 |
| `Reshape.AddStaticColumns` | streamlit_long2wide.py:59-60 | the static-column loop builds the map `CopyStatic` describes |
| `Reshape.AddStemColumns` | streamlit_long2wide.py:62-70 | each stem loop builds the map `CopyStems` describes |
| `Reshape.NewRow` | streamlit_long2wide.py:57-70 | the map built for one source row and one index is `BuildRow` |
| `Reshape.AppendPlotRows` | streamlit_long2wide.py:54-72 | the inner loop appends exactly the projections of `RowOrigins` for that source row to `long_data` |
| `Reshape.TransformWideToLong` | streamlit_long2wide.py:5-74 | the two loops return exactly `LongTable`, the projection of every pair of `Origins` in order |
| `Reshape.OutputRows` | streamlit_long2wide.py:53-72 | output row `k` is `BuildRow` of its origin pair, whose plot id is present and whose index is in `1..max_plots`; origins are in row-major, ascending-index order |
| `Reshape.OutputCount` | streamlit_long2wide.py:53-56 | the number of output rows equals the number of (row, index) pairs with index in `1..max_plots` and a present plot id, hence at most rows times `max_plots` |
| `Reshape.NoPlotColumnsNoRows` | streamlit_long2wide.py:25-33 | with no column announcing a positive plot index, the output is empty however many rows there are |
| `Reshape.StaticColumnsPresent` | streamlit_long2wide.py:59-60 | every output row has every static column, holding the source cell or missing unless a stem of the same name overrides it |
| `Reshape.StaticColumnsPresentDefault` | streamlit_long2wide.py:59-60 | with the shipped lists every output row has every static column, holding the source row's cell or missing, with no exception |
| `Reshape.OutputKeysInSchema` | streamlit_long2wide.py:57-70 | every key of an output row is a static column or a stem of one of the two lists |
| `Reshape.PlotIdCarried` | streamlit_long2wide.py:56-65 | with the shipped lists, the `this_plot_id` field of every output row is the present `this_plot_id_<i>` cell that caused it |
| `Reshape.NoPlotLost` | streamlit_long2wide.py:25-56 | in a well-formed table every present `this_plot_id_<i>` cell, `i >= 1`, yields an output row |
| `Scenarios.FarmerColumnIndices` | streamlit_long2wide.py:27-29 | in the sample table only the two plot id columns announce an index, 1 and 2 |
| `Scenarios.FarmerTableMaxPlots` | streamlit_long2wide.py:25-31 | the sample table's columns give `max_plots` 2 |
| `Scenarios.FarmerTableOutput` | streamlit_long2wide.py:53-72 | for any lists, the sample table (plot 1 present, plot 2 missing) yields the single row for plot 1 |
| `Scenarios.FarmerRowFields` | streamlit_long2wide.py:57-70 | that row holds the farmer id, the plot id and the link of plot 1 in any schema listing those columns |
| `Scenarios.DefaultFarmerFields` | streamlit_long2wide.py:11-41 | the shipped lists contain `farmer_id` as static and `this_plot_id` and `w3w_link` as plot stems |
| `Scenarios.FarmerScenario` | streamlit_long2wide.py:5-74 | with the shipped lists the sample table yields one row with farmer `F1`, plot id `P1` and link `loc1` |
| `Scenarios.ZeroPaddedSuffixNeverRead` | streamlit_long2wide.py:29-56 | a column `this_plot_id_01` raises `max_plots` to 1 but is never read, because expansion looks up `this_plot_id_1`; its rows yield no output |

## Left out

- The Streamlit page, file upload, CSV and Excel decoding, and the download
  button (lines 76-112). These are I/O in foreign libraries. The model starts
  from a decoded table (`Frame`).
- `pd.DataFrame(long_data)` (line 74): how pandas orders the columns and fills
  missing keys with NaN is not visible in the source. The model returns
  `long_data`, the sequence of row maps.
- `long_data` and `new_row` are updated in place in the source. The model
  rebuilds them as `seq` and `map` values. No references to them escape, so no
  aliasing is lost.
- Key order: a Python dict keeps insertion order, so `new_row` holds the static
  columns first, then the plot stems, then the pipe stems, and `pd.DataFrame`
  takes its column order from that. A Dafny `map` has no order, so the model
  does not capture it. The model keeps which keys are present and their values.
- `pd.notna` on floats: the NaN, None and NaT markers are folded into the one
  `Missing` value. Other cells are carried over verbatim and never inspected.
- `int()` accepts surrounding whitespace, a sign, digit-group underscores and
  non-ASCII digits. Since Python 3.11 it also rejects a string of more than
  4300 digits. The model parses every non-empty ASCII digit string, and only
  those; everything else counts as a failed parse.
  - A `_` can never occur in the last segment, so underscores make no
    difference there.
  - A negative suffix cannot raise a maximum that starts at 0.
  - These differences can change `max_plots` but not `long_data`. Expansion
    only reads canonical names `this_plot_id_<i>`. In a well-formed table each
    such column raises the model's maximum to at least `i` by itself
    (`PlotIdColumnCovered`). The indices where the two maxima differ therefore
    have no plot id column and yield no row.
  - The exception is an index of more than 4300 digits. Python 3.11 skips it,
    and the model reads it. This argument about Python's `int()` is not
    formalised, because `int()` itself is not modelled.
- Duplicate column names and non-string column labels are not modelled. Every
  column is a distinct string key.
