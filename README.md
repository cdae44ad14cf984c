# True Energy Cost Calculator — cost engine and summary, in Dafny

This project models the core of the "True Energy Cost Calculator" page
(`tools/app_blank.py`). The page holds a fixed catalog of 27 household
appliances, each with a rated power in kW and minutes of use per day, and a
name-to-glyph icon table. From a day rate, and an optional night rate chosen by
a toggle, it does the following:

- it computes each appliance's daily energy and cost (`calculate_costs`);
- it renames or drops the cost columns depending on the toggle;
- it shows a summary of the appliances the user picked, with usage in hours
  and one or two cost columns.

The model has four modules:

- `Catalog`: the appliance records (`ApplianceData`), the icon table
  (`ApplianceIcons`) with its fallback glyph `❓` (`IconFor`), and the
  picker's default selection.
- `Frame`: the part of a pandas DataFrame the page uses.
  - A `Table` value holds ordered, unique column labels and one map of cells
    per row.
  - Pure operations model the pandas calls: `df[c] = values` is `WithColumn`,
    `rename(columns=…)` is `Renamed`, `drop(columns=…)` is `Dropped`, `df[mask]`
    is `FilterRows` and `df[cols]` is `Select`.
  - The class `DataFrame` holds a frame whose `columns` and `rows` fields
    `Assign`, `Rename` and `Drop` change in place. Each method is proved
    against the pure operation.
- `Calculator`: the formulas and `calculate_costs`.
  - `CalculateCosts` is a method that makes the four column assignments in
    place, and is proved equal to the function `CostsAdded`.
  - Energy is power × minutes/60. The day cost is energy × the day rate. The
    night cost is energy × the night rate, or NaN when there is no night rate.
    The icon is looked up by name.
  - The method `ReshapeCostColumns` does the toggle-driven rename (and, with
    the toggle off, the drop) in place.
- `Summary`: the rest of the page.
  - It covers the `peak >= 0.001` gate, the night rate the toggle hands to
    `calculate_costs`, the `isin` row filter, the `Usage (hours)` column and
    the projection onto `base_cols + cost_cols`.
  - `PageSummary` states the whole page as a function. The method
    `CostSummary` runs the same steps in place on a `DataFrame` and is proved
    equal to it.

Numbers are mathematical reals. Cells are `Text`, `Num` or `NaN`. Column labels
are the enumeration `Calculator.Column`, whose `Label()` gives the label text
used by the script. `LabelsDistinct` proves that no two columns share a label.

Two facts about the code that the model keeps:

- The fallback glyph is U+2753 (`❓`), as at tools/app_blank.py:91.
- The code does not check that catalog names are unique, so the general lemmas
  do not assume it. `Catalog.KettleEntry` proves that the kettle's name is
  unique in the catalog.

## Model

| member | source | states |
|---|---|---|
| Catalog.IconFor | tools/app_blank.py:91 | The icon lookup is total: a mapped name gets its own glyph, any other name gets the fallback, and the glyph is never empty |
| Catalog.MappedIconIsNotFallback | tools/app_blank.py:40-68 | No mapped glyph equals the fallback, so a hit can always be told from a miss |
| Catalog.EveryCatalogNameHasIcon | tools/app_blank.py:9-68 | Every catalog appliance name is a key of the icon table, so no catalog row gets the fallback |
| Catalog.CatalogQuantitiesPositive | tools/app_blank.py:9-37 | The catalog has 27 entries, and every rated power and usage time in it is positive |
| Catalog.DefaultSelectionInCatalog | tools/app_blank.py:155-159 | Each of the picker's default names is an appliance name of the catalog |
| Catalog.KettleIcon | tools/app_blank.py:42 | The kettle's icon is the hot-beverage glyph |
| Catalog.KettleEntry | tools/app_blank.py:9-37 | Entry 1 is the kettle at 3.0 kW for 5 minutes, and no other entry is named "Kettle" |
| Frame.WithColumn | tools/app_blank.py:79-91 | `df[name] = values` keeps the frame well formed and the row count. It adds the label only if it is new, puts `values[i]` under it in row i, and leaves every other cell alone |
| Frame.RenameToFreshLabels | tools/app_blank.py:133-143 | Renaming to new labels that are pairwise different keeps the column labels unique |
| Frame.Renamed | tools/app_blank.py:133-143 | `rename` keeps the row count and the column positions. Each column takes its mapped label and keeps its cells |
| Frame.Dropped | tools/app_blank.py:144 | `drop` removes exactly the named column. The others keep their order and cells, and the row count is unchanged |
| Frame.Select | tools/app_blank.py:175 | `df[cols]` has exactly the listed columns in the listed order, with their cells and the same rows |
| Frame.FilterRows | tools/app_blank.py:163 | `df[mask]` keeps the columns. Row j of the result is row `TrueIndices(mask)[j]` of the input |
| Frame.TrueIndicesExact | tools/app_blank.py:163 | The kept positions increase strictly, and a position is kept exactly when its mask entry is true |
| Frame.TrueIndicesOfAllFalse | tools/app_blank.py:163 | An all-false mask keeps no row |
| Frame.TrueIndicesOfSingle | tools/app_blank.py:163 | A mask true at k only keeps exactly row k |
| Frame.DataFrame.constructor | tools/app_blank.py:126 | A new frame object holds the given frame value |
| Frame.DataFrame.Assign | tools/app_blank.py:79-91 | The in-place column assignment leaves the object holding `WithColumn` of its old value |
| Frame.DataFrame.Rename | tools/app_blank.py:133-143 | The in-place rename leaves the object holding `Renamed` of its old value |
| Frame.DataFrame.Drop | tools/app_blank.py:144 | The in-place drop leaves the object holding `Dropped` of its old value |
| Calculator.LabelsDistinct | tools/app_blank.py:79-175 | Different column identifiers carry different label texts |
| Calculator.EnergyKwh | tools/app_blank.py:79 | Energy is power × minutes/60. An hour of use gives the rated power, and it is non-negative for non-negative inputs |
| Calculator.NightCell | tools/app_blank.py:84-88 | A night cost is NaN exactly when there is no night rate. A night rate of 0 gives a cost of 0, not NaN |
| Calculator.FromRecords | tools/app_blank.py:126 | The catalog frame has the four record columns and one row per record, in order, holding that record's fields |
| Calculator.EnergyValues | tools/app_blank.py:79 | The energy series holds each row's power × minutes/60 |
| Calculator.ScaledEnergy | tools/app_blank.py:82 | The day cost series holds each row's energy times the rate |
| Calculator.NaNs | tools/app_blank.py:88 | Assigning `np.nan` to a column gives one NaN cell per row |
| Calculator.NightValues | tools/app_blank.py:84-88 | The night series holds energy × the night rate, or NaN in every row when there is no night rate |
| Calculator.IconOf | tools/app_blank.py:91 | The icon lambda gives the mapped glyph for a mapped name and the fallback for anything else, never an empty glyph |
| Calculator.IconValues | tools/app_blank.py:91 | The icon series holds, per row, the icon of that row's appliance name |
| Calculator.CostLabels | tools/app_blank.py:79-91 | After the four assignments the label set is the old one plus the four added labels, and the labels stay unique |
| Calculator.CostRow | tools/app_blank.py:79-91 | A costed row has the old keys plus exactly the four added ones |
| Calculator.CostRows | tools/app_blank.py:79-91 | Costing keeps the number and order of the rows, and prices each row on its own |
| Calculator.CostsAdded | tools/app_blank.py:74-93 | The frame `calculate_costs` returns has the same number of rows, and its label set is the old one plus the four added labels |
| Calculator.CostsAddedColumns | tools/app_blank.py:79-91 | After `calculate_costs` the columns are the old ones plus the four added ones. On a frame without them, they are appended in the order energy, day, night, icon |
| Calculator.CostLabelsHas | tools/app_blank.py:79-91 | A label is present after costing exactly when it was there before or is one of the four added |
| Calculator.CostLabelsAppend | tools/app_blank.py:79-91 | Added labels that are all new are appended in assignment order |
| Calculator.CostsAddedWellFormed | tools/app_blank.py:79-91 | `calculate_costs` keeps the frame well formed and keeps the row count |
| Calculator.CostsAddedCells | tools/app_blank.py:79-91 | In every row: energy = power × minutes/60, day cost = energy × day rate, night cost = energy × night rate or NaN, icon = lookup by name. Every other column is unchanged |
| Calculator.CostRowCells | tools/app_blank.py:79-91 | The same four cell values for a single row, and the row's other cells are unchanged |
| Calculator.CalculateCosts | tools/app_blank.py:74-93 | The in-place `calculate_costs` leaves the frame holding `CostsAdded` of its old value |
| Calculator.AssignmentsAddCosts | tools/app_blank.py:79-91 | The four column assignments, made in source order, build exactly `CostsAdded` |
| Calculator.EnergyStep | tools/app_blank.py:79 | After the energy assignment the inputs are still there and the energy column is numeric |
| Calculator.KeepsInputs | tools/app_blank.py:82-88 | The cost assignments keep the inputs and the numeric energy column |
| Calculator.CostSteps | tools/app_blank.py:79-91 | The energy, day and night assignments, then the icon, give every row its costed form |
| Calculator.IconStep | tools/app_blank.py:91 | The icon assignment turns every priced row into its costed form |
| Calculator.DayNightRenamed | tools/app_blank.py:130-139 | With the toggle on, "Day Cost" and "Night Cost" replace the raw day and night columns and hold their cells. There is no "Cost" column, and the other columns and the column count are kept |
| Calculator.DayOnlyKept | tools/app_blank.py:140-144 | With the toggle off, "Cost" holds the raw day cost cells and no night column remains under any label. There is one column fewer, and the other columns are kept |
| Calculator.Reshaped | tools/app_blank.py:129-144 | The reshape keeps the frame well formed and keeps the row count |
| Calculator.ReshapeKeepsColumn | tools/app_blank.py:129-144 | Any column other than the raw cost columns survives the reshape with all its cells |
| Calculator.ReshapeKeepsNumeric | tools/app_blank.py:129-144 | A numeric column other than the raw cost columns stays numeric |
| Calculator.ReshapeLabels | tools/app_blank.py:129-144 | With the toggle on, the "Day Cost" and "Night Cost" labels are present. With it off, "Cost" is present |
| Calculator.ReshapeMovesCosts | tools/app_blank.py:129-144 | Each row's raw cost cells move under the labels the toggle selects |
| Calculator.ReshapeCostColumns | tools/app_blank.py:129-144 | The in-place rename (and drop) leaves the frame holding `Reshaped` of its old value |
| Summary.CostColumns | tools/app_blank.py:169-173 | The cost columns are unique: "Day Cost" and "Night Cost" exactly when the toggle is on, and "Cost" exactly when it is off |
| Summary.DisplayColumns | tools/app_blank.py:167-174 | The display columns are unique: the three base columns, then "Day Cost" and "Night Cost" with the toggle on, or "Cost" alone with it off |
| Summary.NightRate | tools/app_blank.py:110-119 | A night rate is passed exactly when the toggle is on, and it is the entered rate |
| Summary.Selected | tools/app_blank.py:163 | The `isin` mask has one entry per row, true exactly when the row's name is in the selection |
| Summary.UsageHoursValues | tools/app_blank.py:165 | Usage (hours) is each row's minutes / 60 |
| Summary.FilterKeepsMinutes | tools/app_blank.py:163-165 | Filtering rows keeps the minutes column numeric |
| Summary.SummaryTable | tools/app_blank.py:163-175 | The summary is well formed and has exactly the display columns, in order |
| Summary.SummaryRowsSelected | tools/app_blank.py:163 | The summary has one row per selected row, in the original order. A row is kept exactly when its name is selected |
| Summary.SummaryRowCells | tools/app_blank.py:163-175 | Summary row j holds the selected row's own icon, name and cost cells, and its minutes / 60 as usage |
| Summary.EmptySelectionEmptySummary | tools/app_blank.py:163-175 | A selection that matches no name gives a summary with no rows |
| Summary.CostsKeepMinutes | tools/app_blank.py:79-91 | Costing keeps the minutes column numeric |
| Summary.CostedFrame | tools/app_blank.py:127 | Costing a catalog-shaped frame leaves it ready for the reshape, with the name, icon and numeric minutes columns and the same number of rows |
| Summary.CostedFrameRow | tools/app_blank.py:127 | A costed row keeps its name and minutes and gains its icon, day cost (energy × day rate) and night cost (energy × night rate, or NaN) |
| Summary.ReshapedFrame | tools/app_blank.py:127-144 | The costed and reshaped frame has every column the summary reads, and the same number of rows |
| Summary.ReshapedFrameRow | tools/app_blank.py:127-144 | A reshaped row keeps its name, minutes and icon. With the toggle on it holds the day and night costs, and with it off a single cost at the day rate |
| Summary.CostedFrameNames | tools/app_blank.py:127 | Costing keeps every row's appliance name |
| Summary.ReshapedFrameNames | tools/app_blank.py:127-144 | Costing and reshaping keep every row's appliance name |
| Summary.SameNamesSameMask | tools/app_blank.py:163 | Frames whose rows carry the same names give the same `isin` mask |
| Summary.ReshapedFrameSelected | tools/app_blank.py:127-163 | The filter picks the same rows from the reshaped frame as from the catalog frame |
| Summary.PageSummary | tools/app_blank.py:125-175 | A table is shown exactly when the day rate is at least 0.001, and it has exactly the display columns the toggle selects |
| Summary.PageSummaryRows | tools/app_blank.py:125-175 | The shown summary has the selected catalog rows, each once, in catalog order. A row appears exactly when its name is selected |
| Summary.PageSummaryRow | tools/app_blank.py:125-175 | Summary row j shows its catalog row's icon, name and minutes / 60. With the toggle on it shows energy × day rate and energy × night rate, and with it off energy × day rate |
| Summary.LowDayRateShowsNothing | tools/app_blank.py:125 | A day rate below 0.001 shows nothing, whatever the toggle, night rate and selection |
| Summary.NothingSelectedNoRows | tools/app_blank.py:156-175 | An empty selection shows the summary's columns with no rows |
| Summary.RecordsPageReady | tools/app_blank.py:126 | A record list, such as the catalog, gives a frame that `calculate_costs` and the reshape can process |
| Summary.RecordsRow | tools/app_blank.py:126 | Catalog row i holds record i's name and minutes, and its energy is the record's power × minutes/60 |
| Summary.SingleNameMask | tools/app_blank.py:163 | Selecting a name only record k carries picks out row k alone |
| Summary.SingleNameSummary | tools/app_blank.py:125-175 | Selecting a unique name on a single rate gives exactly one row: that record's icon, name, minutes / 60 and energy × day rate |
| Summary.KettleAlone | tools/app_blank.py:125-175 | In any catalog with one 3 kW, 5-minute kettle, selecting it alone on a single rate shows one row: the kettle glyph, 5/60 hours and 0.25 × the day rate |
| Summary.KettleEnergy | tools/app_blank.py:79 | 3 kW for 5 minutes is 0.25 kWh |
| Summary.KettleAloneOnOneRate | tools/app_blank.py:9-175 | On the real catalog, the kettle selected alone on a single rate shows one row costing 0.25 × the day rate, with 5/60 hours and the kettle glyph |
| Summary.CostSummary | tools/app_blank.py:125-175 | Building the page from the catalog with in-place updates gives exactly `PageSummary` of the catalog frame |
| Summary.FrameSummary | tools/app_blank.py:125-175 | Building the frame object, running `calculate_costs` and the rename/drop on it in place, then taking the summary of its value (the filter, usage column and projection, as the function `SummaryTable`) gives exactly `PageSummary` |

## Left out

- The Streamlit page itself is not modelled: title, number inputs, toggle widget, `st.write` texts, the table display with its `£{:.2f}` formatting, and the footer with its clock. The day rate, the toggle, the night rate and the selection are parameters.
- `app.py` is not part of this model.
- Calculator.FromRecords: an empty record list is modelled as an empty frame that still has the four record columns. In pandas, `pd.DataFrame([])` has no columns, so `calculate_costs` would raise a KeyError at tools/app_blank.py:79. The page only ever builds the frame from the 27-entry catalog.
- Floating point: every quantity is a mathematical real, so IEEE rounding is not modelled.
- NaN is a cell value of its own. Its arithmetic and comparison behaviour is not modelled, because the page only stores it and then drops it.
- The glyphs in the source text are mis-decoded UTF-8. The model uses the intended code points (the kettle is U+2615, the fallback U+2753), and the "£" in labels is U+00A3.
- The multiselect's option list (`df["Appliance"].unique().tolist()`) and its validation of the selection against that list are not modelled. The selection is any list of names, and `Catalog.DefaultSelectionInCatalog` states only that the defaults are catalog names.
- Pandas allows duplicate column labels. The model's frames keep labels unique, and `rename` is only modelled for mappings that keep them unique, which covers the page's two renames.
- Calculator.Reshaped: its own contract states only well-formedness and the row count. The column-level and cell-level facts are stated by `DayNightRenamed`, `DayOnlyKept`, `ReshapeLabels`, `ReshapeKeepsColumn` and `ReshapeMovesCosts`.
- Summary.PageSummaryRow: costs are stated as `Scale(Num(energy), rate)`, a numeric cell holding energy × rate, rather than as a bare product.
