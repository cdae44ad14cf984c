/**
 * The page's pipeline below the rate inputs: the day-rate gate, the costed
 * and reshaped catalog frame, and the appliance cost summary (rows picked by
 * name, a usage-in-hours column, the display columns in order).
 */
module Summary {
  import opened Wrappers
  import opened Catalog
  import opened Frame
  import opened Calculator

  /** Day rates below this (in pounds per kWh) produce no table at all. */
  const DayRateThreshold: real := 0.001

  /** The summary's leading columns, shown whatever the toggle. */
  const BaseColumns := [IconCol, ApplianceCol, UsageHoursCol]

  /** The summary's cost columns: day and night with the toggle on, a single cost with it off. */
  function CostColumns(offpeakOn: bool): (cols: seq<Column>)
    ensures Distinct(cols)
    ensures DayCostCol in cols <==> offpeakOn
    ensures NightCostCol in cols <==> offpeakOn
    ensures CostCol in cols <==> !offpeakOn
  {
    if offpeakOn then [DayCostCol, NightCostCol] else [CostCol]
  }

  /** `base_cols + cost_cols` */
  function DisplayColumns(offpeakOn: bool): (cols: seq<Column>)
    ensures Distinct(cols) && |cols| == if offpeakOn then 5 else 4
    ensures cols[..3] == BaseColumns && cols[3..] == CostColumns(offpeakOn)
    ensures offpeakOn ==> DayCostCol in cols && NightCostCol in cols && CostCol !in cols
    ensures !offpeakOn ==> CostCol in cols && DayCostCol !in cols && NightCostCol !in cols
  {
    BaseColumns + CostColumns(offpeakOn)
  }

  /**
   * The night rate handed to `calculate_costs`: the entered rate when the
   * toggle is on, none at all (not zero) when it is off.
   */
  function NightRate(offpeakOn: bool, offpeakRate: real): (r: Option<real>)
    ensures r.Some? <==> offpeakOn
    ensures r.Some? ==> r.value == offpeakRate
  {
    if offpeakOn then Some(offpeakRate) else None
  }

  /** `Series.isin(selection)` on one cell: a name listed in the selection. */
  predicate IsIn(c: Cell, selection: seq<string>) {
    c.Text? && c.text in selection
  }

  /** The mask `df['Appliance'].isin(selection)`. */
  function Selected(t: Table<Column>, selection: seq<string>): (mask: seq<bool>)
    requires forall i :: 0 <= i < |t.rows| ==> ApplianceCol in t.rows[i]
    ensures |mask| == |t.rows|
    ensures forall i :: 0 <= i < |t.rows| ==> (mask[i] <==> IsIn(t.rows[i][ApplianceCol], selection))
  {
    seq(|t.rows|, i requires 0 <= i < |t.rows| => IsIn(t.rows[i][ApplianceCol], selection))
  }

  /** The values `summary_df["UsageMinutes"] / 60`. */
  function UsageHoursValues(t: Table<Column>): (r: seq<Cell>)
    requires NumericColumn(t, MinutesCol)
    ensures |r| == |t.rows|
    ensures forall i :: 0 <= i < |t.rows| ==> r[i] == Num(Hours(t.rows[i][MinutesCol].value))
  {
    seq(|t.rows|, i requires 0 <= i < |t.rows| => Num(Hours(t.rows[i][MinutesCol].value)))
  }

  /** What the summary reads: name, icon and numeric minutes, and the cost columns the toggle names. */
  ghost predicate SummaryReady(t: Table<Column>, offpeakOn: bool) {
    && WellFormed(t)
    && ApplianceCol in t.columns && IconCol in t.columns && NumericColumn(t, MinutesCol)
    && (offpeakOn ==> DayCostCol in t.columns && NightCostCol in t.columns)
    && (!offpeakOn ==> CostCol in t.columns)
  }

  /** Keeping a subset of the rows keeps the minutes column numeric. */
  lemma FilterKeepsMinutes(t: Table<Column>, mask: seq<bool>)
    requires WellFormed(t) && NumericColumn(t, MinutesCol) && |mask| == |t.rows|
    ensures NumericColumn(FilterRows(t, mask), MinutesCol)
  {
    var f := FilterRows(t, mask);
    CellsExist(f);
    forall j | 0 <= j < |f.rows| ensures f.rows[j][MinutesCol].Num? {
      assert At(f, j, MinutesCol) == At(t, TrueIndices(mask)[j], MinutesCol);
    }
  }

  /**
   * The appliance cost summary: the rows whose name is in `selection`, with
   * usage in hours added, projected onto the display columns in order.
   */
  function SummaryTable(t: Table<Column>, selection: seq<string>, offpeakOn: bool): (r: Table<Column>)
    requires SummaryReady(t, offpeakOn)
    ensures WellFormed(r) && r.columns == DisplayColumns(offpeakOn)
  {
    CellsExist(t);
    var mask := Selected(t, selection);
    var f := FilterRows(t, mask);
    FilterKeepsMinutes(t, mask);
    var u := WithColumn(f, UsageHoursCol, UsageHoursValues(f));
    assert forall c :: c in DisplayColumns(offpeakOn) ==> c in LabelSet(u.columns);
    Select(u, DisplayColumns(offpeakOn))
  }

  /**
   * The summary holds exactly the selected rows, in their original order:
   * row `j` is row `TrueIndices(mask)[j]` of the frame, those positions
   * increase, and a position is among them just when its name is selected.
   */
  lemma SummaryRowsSelected(t: Table<Column>, selection: seq<string>, offpeakOn: bool)
    requires SummaryReady(t, offpeakOn)
    ensures CellsExistIn(t, ApplianceCol)
    ensures var idx := TrueIndices(Selected(t, selection));
      && |SummaryTable(t, selection, offpeakOn).rows| == |idx|
      && Increasing(idx)
      && forall i :: 0 <= i < |t.rows| ==> (i in idx <==> IsIn(t.rows[i][ApplianceCol], selection))
  {
    CellsExist(t);
    var mask := Selected(t, selection);
    TrueIndicesExact(mask);
  }

  /** Every row of `t` has a cell under `c`. */
  ghost predicate CellsExistIn(t: Table<Column>, c: Column) {
    forall i :: 0 <= i < |t.rows| ==> c in t.rows[i]
  }

  /**
   * Row `j` of the summary: the usage is the selected row's minutes over 60,
   * and the icon, the name and the cost cells are the selected row's own.
   */
  lemma SummaryRowCells(t: Table<Column>, selection: seq<string>, offpeakOn: bool, j: nat)
    requires SummaryReady(t, offpeakOn)
    requires j < |SummaryTable(t, selection, offpeakOn).rows|
    ensures CellsExistIn(t, ApplianceCol)
    ensures var r := SummaryTable(t, selection, offpeakOn);
      var idx := TrueIndices(Selected(t, selection));
      && j < |idx| && idx[j] < |t.rows|
      && (forall c :: c in DisplayColumns(offpeakOn) && c != UsageHoursCol ==>
            c in t.rows[idx[j]] && CellIs(r, j, c, t.rows[idx[j]][c]))
      && MinutesCol in t.rows[idx[j]] && t.rows[idx[j]][MinutesCol].Num?
      && CellIs(r, j, UsageHoursCol, Num(Hours(t.rows[idx[j]][MinutesCol].value)))
  {
    CellsExist(t);
    var r := SummaryTable(t, selection, offpeakOn);
    var mask := Selected(t, selection);
    var f := FilterRows(t, mask);
    FilterKeepsMinutes(t, mask);
    var u := WithColumn(f, UsageHoursCol, UsageHoursValues(f));
    CellsExist(r);
    CellsExist(f);
    forall c | c in DisplayColumns(offpeakOn) && c != UsageHoursCol
      ensures c in t.rows[TrueIndices(mask)[j]] && CellIs(r, j, c, t.rows[TrueIndices(mask)[j]][c])
    {
      assert At(r, j, c) == At(u, j, c) == At(f, j, c);
    }
    assert At(r, j, UsageHoursCol) == At(u, j, UsageHoursCol);
  }

  /** Selecting nothing, or only names no row carries, gives a summary with no rows. */
  lemma EmptySelectionEmptySummary(t: Table<Column>, selection: seq<string>, offpeakOn: bool)
    requires SummaryReady(t, offpeakOn)
    requires CellsExistIn(t, ApplianceCol)
    requires forall i :: 0 <= i < |t.rows| ==> !IsIn(t.rows[i][ApplianceCol], selection)
    ensures SummaryTable(t, selection, offpeakOn).rows == []
  {
    TrueIndicesOfAllFalse(Selected(t, selection));
  }

  /**
   * A frame the page can process: the inputs `calculate_costs` reads, and
   * none of the labels the reshape introduces.
   */
  ghost predicate PageReady(t: Table<Column>) {
    HasInputs(t) && DayCostCol !in t.columns && NightCostCol !in t.columns && CostCol !in t.columns
  }

  /** `calculate_costs` leaves the minutes column numeric. */
  lemma CostsKeepMinutes(t: Table<Column>, peak: real, offpeak: Option<real>)
    requires HasInputs(t)
    ensures NumericColumn(CostsAdded(t, peak, offpeak), MinutesCol)
  {
    CostLabelsHas(t.columns, MinutesCol);
    var r := CostsAdded(t, peak, offpeak);
    forall i | 0 <= i < |r.rows| ensures MinutesCol in r.rows[i] && r.rows[i][MinutesCol].Num? {
      CostRowCells(t.rows[i], peak, offpeak);
    }
  }

  /** `calculate_costs(df, peak, offpeak)` on a frame the page can process: ready for the reshape. */
  function CostedFrame(t: Table<Column>, peak: real, offpeak: Option<real>): (r: Table<Column>)
    requires PageReady(t)
    ensures ReshapeReady(r) && |r.rows| == |t.rows|
    ensures ApplianceCol in r.columns && IconCol in r.columns && NumericColumn(r, MinutesCol)
  {
    CostLabelsHas(t.columns, DayCol);
    CostLabelsHas(t.columns, NightCol);
    CostLabelsHas(t.columns, DayCostCol);
    CostLabelsHas(t.columns, NightCostCol);
    CostLabelsHas(t.columns, CostCol);
    CostLabelsHas(t.columns, ApplianceCol);
    CostLabelsHas(t.columns, IconCol);
    CostsAddedWellFormed(t, peak, offpeak);
    CostsKeepMinutes(t, peak, offpeak);
    CostsAdded(t, peak, offpeak)
  }

  /**
   * Row `i` of the costed frame: the name and minutes as they were, the icon
   * looked up by name, the day cost the row's energy times the day rate and
   * the night cost that energy times the night rate, or NaN.
   */
  lemma CostedFrameRow(t: Table<Column>, peak: real, offpeak: Option<real>, i: nat)
    requires PageReady(t) && i < |t.rows|
    ensures RowHasInputs(t.rows[i])
    ensures var r := CostedFrame(t, peak, offpeak);
      var row := t.rows[i];
      && ApplianceCol in r.rows[i] && r.rows[i][ApplianceCol] == row[ApplianceCol]
      && MinutesCol in r.rows[i] && r.rows[i][MinutesCol] == row[MinutesCol]
      && IconCol in r.rows[i] && r.rows[i][IconCol] == Text(IconOf(row[ApplianceCol]))
      && DayCol in r.rows[i] && r.rows[i][DayCol] == Scale(Num(RowEnergy(row)), peak)
      && NightCol in r.rows[i] && r.rows[i][NightCol] == NightCell(RowEnergy(row), offpeak)
  {
    CostsAddedCells(t, peak, offpeak);
  }

  /** The costed frame after the toggle-driven rename (and drop). */
  function ReshapedFrame(t: Table<Column>, peak: real, offpeakOn: bool, offpeakRate: real): (r: Table<Column>)
    requires PageReady(t)
    ensures SummaryReady(r, offpeakOn) && |r.rows| == |t.rows|
  {
    var t1 := CostedFrame(t, peak, NightRate(offpeakOn, offpeakRate));
    ReshapeKeepsColumn(t1, offpeakOn, ApplianceCol);
    ReshapeKeepsColumn(t1, offpeakOn, IconCol);
    ReshapeKeepsNumeric(t1, offpeakOn, MinutesCol);
    ReshapeLabels(t1, offpeakOn);
    Reshaped(t1, offpeakOn)
  }

  /**
   * Row `i` of the reshaped frame. Toggle on: `Day Cost` is the energy
   * times the day rate and `Night Cost` the energy times the night rate.
   * Toggle off: `Cost` is the energy times the day rate.
   */
  lemma ReshapedFrameRow(t: Table<Column>, peak: real, offpeakOn: bool, offpeakRate: real, i: nat)
    requires PageReady(t) && i < |t.rows|
    ensures RowHasInputs(t.rows[i])
    ensures var r := ReshapedFrame(t, peak, offpeakOn, offpeakRate);
      var row := t.rows[i];
      && ApplianceCol in r.rows[i] && r.rows[i][ApplianceCol] == row[ApplianceCol]
      && MinutesCol in r.rows[i] && r.rows[i][MinutesCol] == row[MinutesCol]
      && IconCol in r.rows[i] && r.rows[i][IconCol] == Text(IconOf(row[ApplianceCol]))
      && (offpeakOn ==> DayCostCol in r.rows[i] && r.rows[i][DayCostCol] == Scale(Num(RowEnergy(row)), peak))
      && (offpeakOn ==> NightCostCol in r.rows[i] && r.rows[i][NightCostCol] == Scale(Num(RowEnergy(row)), offpeakRate))
      && (!offpeakOn ==> CostCol in r.rows[i] && r.rows[i][CostCol] == Scale(Num(RowEnergy(row)), peak))
  {
    var t1 := CostedFrame(t, peak, NightRate(offpeakOn, offpeakRate));
    CostedFrameRow(t, peak, NightRate(offpeakOn, offpeakRate), i);
    ReshapeKeepsColumn(t1, offpeakOn, ApplianceCol);
    ReshapeKeepsColumn(t1, offpeakOn, IconCol);
    ReshapeKeepsColumn(t1, offpeakOn, MinutesCol);
    ReshapeMovesCosts(t1, offpeakOn, i);
  }

  /** Costing keeps every row's name. */
  lemma CostedFrameNames(t: Table<Column>, peak: real, offpeak: Option<real>)
    requires PageReady(t)
    ensures CellsExistIn(t, ApplianceCol)
    ensures var r := CostedFrame(t, peak, offpeak);
      forall i :: 0 <= i < |t.rows| ==> ApplianceCol in r.rows[i] && r.rows[i][ApplianceCol] == t.rows[i][ApplianceCol]
  {
    var r := CostedFrame(t, peak, offpeak);
    forall i | 0 <= i < |t.rows| ensures ApplianceCol in t.rows[i] && ApplianceCol in r.rows[i] && r.rows[i][ApplianceCol] == t.rows[i][ApplianceCol] {
      CostRowCells(t.rows[i], peak, offpeak);
    }
  }

  /** Costing and reshaping keep every row's name. */
  lemma ReshapedFrameNames(t: Table<Column>, peak: real, offpeakOn: bool, offpeakRate: real)
    requires PageReady(t)
    ensures CellsExistIn(t, ApplianceCol)
    ensures var r := ReshapedFrame(t, peak, offpeakOn, offpeakRate);
      forall i :: 0 <= i < |t.rows| ==> ApplianceCol in r.rows[i] && r.rows[i][ApplianceCol] == t.rows[i][ApplianceCol]
  {
    var offpeak := NightRate(offpeakOn, offpeakRate);
    CostedFrameNames(t, peak, offpeak);
    ReshapeKeepsColumn(CostedFrame(t, peak, offpeak), offpeakOn, ApplianceCol);
  }

  /** Frames whose rows carry the same names give the same `isin` mask. */
  lemma SameNamesSameMask(t: Table<Column>, r: Table<Column>, selection: seq<string>)
    requires CellsExistIn(t, ApplianceCol) && |r.rows| == |t.rows|
    requires forall i :: 0 <= i < |t.rows| ==> ApplianceCol in r.rows[i] && r.rows[i][ApplianceCol] == t.rows[i][ApplianceCol]
    ensures Selected(r, selection) == Selected(t, selection)
  {
    var a := Selected(r, selection);
    var b := Selected(t, selection);
    assert forall i :: 0 <= i < |a| ==> a[i] == b[i];
  }

  /** The reshape keeps the names, so `isin` picks the same rows before and after it. */
  lemma ReshapedFrameSelected(t: Table<Column>, peak: real, offpeakOn: bool, offpeakRate: real, selection: seq<string>)
    requires PageReady(t)
    ensures CellsExistIn(t, ApplianceCol) && CellsExistIn(ReshapedFrame(t, peak, offpeakOn, offpeakRate), ApplianceCol)
    ensures Selected(ReshapedFrame(t, peak, offpeakOn, offpeakRate), selection) == Selected(t, selection)
  {
    ReshapedFrameNames(t, peak, offpeakOn, offpeakRate);
    SameNamesSameMask(t, ReshapedFrame(t, peak, offpeakOn, offpeakRate), selection);
  }

  /**
   * The page below the rate inputs, from the catalog frame `t`: no table
   * unless the day rate reaches the threshold; otherwise the summary of the
   * costed, reshaped frame.
   */
  function PageSummary(t: Table<Column>, peak: real, offpeakOn: bool, offpeakRate: real, selection: seq<string>)
    : (s: Option<Table<Column>>)
    requires PageReady(t)
    ensures s.Some? <==> peak >= DayRateThreshold
    ensures s.Some? ==> s.value.columns == DisplayColumns(offpeakOn)
  {
    if peak >= DayRateThreshold then
      Some(SummaryTable(ReshapedFrame(t, peak, offpeakOn, offpeakRate), selection, offpeakOn))
    else
      None
  }

  /**
   * The summary's rows are the selected rows of the frame, each once, in
   * their original order: a row appears just when its name is selected.
   */
  lemma PageSummaryRows(t: Table<Column>, peak: real, offpeakOn: bool, offpeakRate: real, selection: seq<string>)
    requires PageReady(t) && peak >= DayRateThreshold
    ensures CellsExistIn(t, ApplianceCol)
    ensures var r := PageSummary(t, peak, offpeakOn, offpeakRate, selection).value;
      var idx := TrueIndices(Selected(t, selection));
      && |r.rows| == |idx|
      && Increasing(idx)
      && forall i :: 0 <= i < |t.rows| ==> (i in idx <==> IsIn(t.rows[i][ApplianceCol], selection))
  {
    ReshapedFrameSelected(t, peak, offpeakOn, offpeakRate, selection);
    SummaryRowsSelected(ReshapedFrame(t, peak, offpeakOn, offpeakRate), selection, offpeakOn);
    TrueIndicesExact(Selected(t, selection));
  }

  /**
   * Row `j` of the summary is row `i = TrueIndices(mask)[j]` of the frame:
   * its icon and name, `Usage (hours)` its minutes over 60, and its costs.
   */
  lemma PageSummaryRow(t: Table<Column>, peak: real, offpeakOn: bool, offpeakRate: real, selection: seq<string>, j: nat)
    requires PageReady(t) && peak >= DayRateThreshold
    requires j < |PageSummary(t, peak, offpeakOn, offpeakRate, selection).value.rows|
    ensures CellsExistIn(t, ApplianceCol)
    ensures var r := PageSummary(t, peak, offpeakOn, offpeakRate, selection).value;
      var idx := TrueIndices(Selected(t, selection));
      && j < |idx| && idx[j] < |t.rows|
      && var row := t.rows[idx[j]];
      && RowHasInputs(row)
      && IsIn(row[ApplianceCol], selection)
      && CellIs(r, j, IconCol, Text(IconOf(row[ApplianceCol])))
      && CellIs(r, j, ApplianceCol, row[ApplianceCol])
      && CellIs(r, j, UsageHoursCol, Num(Hours(row[MinutesCol].value)))
      && (offpeakOn ==> CellIs(r, j, DayCostCol, Scale(Num(RowEnergy(row)), peak)))
      && (offpeakOn ==> CellIs(r, j, NightCostCol, Scale(Num(RowEnergy(row)), offpeakRate)))
      && (!offpeakOn ==> CellIs(r, j, CostCol, Scale(Num(RowEnergy(row)), peak)))
  {
    var r1 := ReshapedFrame(t, peak, offpeakOn, offpeakRate);
    ReshapedFrameSelected(t, peak, offpeakOn, offpeakRate, selection);
    SummaryRowCells(r1, selection, offpeakOn, j);
    var i := TrueIndices(Selected(t, selection))[j];
    ReshapedFrameRow(t, peak, offpeakOn, offpeakRate, i);
  }

  /** A day rate under the threshold shows nothing, whatever the other inputs. */
  lemma LowDayRateShowsNothing(t: Table<Column>, peak: real, offpeakOn: bool, offpeakRate: real, selection: seq<string>)
    requires PageReady(t) && peak < DayRateThreshold
    ensures PageSummary(t, peak, offpeakOn, offpeakRate, selection) == None
  {
  }

  /** Deselecting every appliance leaves a summary with its columns and no rows. */
  lemma NothingSelectedNoRows(t: Table<Column>, peak: real, offpeakOn: bool, offpeakRate: real)
    requires PageReady(t) && peak >= DayRateThreshold
    ensures PageSummary(t, peak, offpeakOn, offpeakRate, []).value.rows == []
  {
    var r1 := ReshapedFrame(t, peak, offpeakOn, offpeakRate);
    ReshapedFrameSelected(t, peak, offpeakOn, offpeakRate, []);
    EmptySelectionEmptySummary(r1, [], offpeakOn);
  }

  /** Every record carries a name and numeric power and minutes, and none of the reshape's labels. */
  lemma RecordsPageReady(data: seq<Appliance>)
    ensures PageReady(FromRecords(data))
  {
    var t := FromRecords(data);
    CellsExist(t);
    forall i | 0 <= i < |t.rows| ensures RowHasInputs(t.rows[i]) {
      assert At(t, i, PowerCol) == Num(data[i].powerKw);
      assert At(t, i, MinutesCol) == Num(data[i].minutes);
    }
  }

  /** Row `i` of the catalog frame: the record's name, its minutes, and its energy. */
  lemma RecordsRow(data: seq<Appliance>, i: nat)
    requires i < |data|
    ensures var t := FromRecords(data);
      && i < |t.rows| && RowHasInputs(t.rows[i])
      && t.rows[i][ApplianceCol] == Text(data[i].name)
      && t.rows[i][MinutesCol] == Num(data[i].minutes)
      && RowEnergy(t.rows[i]) == EnergyKwh(data[i].powerKw, data[i].minutes)
  {
    RecordsPageReady(data);
    var t := FromRecords(data);
    assert At(t, i, ApplianceCol) == Text(data[i].name);
    assert At(t, i, PowerCol) == Num(data[i].powerKw);
    assert At(t, i, MinutesCol) == Num(data[i].minutes);
  }

  /**
   * A single-rate summary with exactly one row, showing the given icon,
   * name, hours of use and cost.
   */
  ghost predicate ShowsOneRow(s: Option<Table<Column>>, icon: string, name: string, hours: real, cost: Cell) {
    && s.Some? && |s.value.rows| == 1
    && CellIs(s.value, 0, IconCol, Text(icon))
    && CellIs(s.value, 0, ApplianceCol, Text(name))
    && CellIs(s.value, 0, UsageHoursCol, Num(hours))
    && CellIs(s.value, 0, CostCol, cost)
  }

  /** Selecting a name that only record `k` carries picks out row `k` alone. */
  lemma SingleNameMask(data: seq<Appliance>, k: nat)
    requires k < |data|
    requires forall i :: 0 <= i < |data| && i != k ==> data[i].name != data[k].name
    ensures PageReady(FromRecords(data))
    ensures TrueIndices(Selected(FromRecords(data), [data[k].name])) == [k]
  {
    var t := FromRecords(data);
    RecordsPageReady(data);
    CellsExist(t);
    forall i | 0 <= i < |t.rows| ensures Selected(t, [data[k].name])[i] == (i == k) {
      RecordsRow(data, i);
    }
    TrueIndicesOfSingle(Selected(t, [data[k].name]), k);
  }

  /** A name that exactly one record carries, selected alone: the summary holds that record's row only. */
  lemma SingleNameSummary(data: seq<Appliance>, peak: real, offpeakRate: real, k: nat)
    requires peak >= DayRateThreshold && k < |data|
    requires forall i :: 0 <= i < |data| && i != k ==> data[i].name != data[k].name
    ensures PageReady(FromRecords(data))
    ensures ShowsOneRow(PageSummary(FromRecords(data), peak, false, offpeakRate, [data[k].name]),
      IconFor(data[k].name), data[k].name, Hours(data[k].minutes),
      Scale(Num(EnergyKwh(data[k].powerKw, data[k].minutes)), peak))
  {
    var t := FromRecords(data);
    var selection := [data[k].name];
    RecordsPageReady(data);
    SingleNameMask(data, k);
    PageSummaryRows(t, peak, false, offpeakRate, selection);
    PageSummaryRow(t, peak, false, offpeakRate, selection, 0);
    RecordsRow(data, k);
  }

  /**
   * The kettle alone, on a single rate, in any catalog where it is the one
   * entry of that name: 3 kW for 5 minutes is a quarter of a kWh, so its
   * summary row costs a quarter of the day rate and shows 5/60 of an hour.
   */
  lemma KettleAlone(data: seq<Appliance>, k: nat, peak: real, offpeakRate: real)
    requires peak >= DayRateThreshold && k < |data|
    requires data[k].name == "Kettle" && data[k].powerKw == 3.0 && data[k].minutes == 5.0
    requires forall i :: 0 <= i < |data| && i != k ==> data[i].name != data[k].name
    ensures PageReady(FromRecords(data))
    ensures ShowsOneRow(PageSummary(FromRecords(data), peak, false, offpeakRate, ["Kettle"]),
      "\U{2615}", "Kettle", 5.0 / 60.0, Num(0.25 * peak))
  {
    SingleNameSummary(data, peak, offpeakRate, k);
    KettleEnergy();
    QuarterOfRate(peak);
    KettleIcon();
  }

  /** 3 kW for 5 minutes is a quarter of a kWh. */
  lemma KettleEnergy()
    ensures EnergyKwh(3.0, 5.0) == 0.25
  {
  }

  /** A quarter of a kWh costs a quarter of the rate. */
  lemma QuarterOfRate(rate: real)
    ensures Scale(Num(0.25), rate) == Num(0.25 * rate)
  {
  }

  /** The kettle of the appliance catalog, selected alone on a single rate. */
  lemma KettleAloneOnOneRate(peak: real, offpeakRate: real)
    requires peak >= DayRateThreshold
    ensures PageReady(FromRecords(ApplianceData))
    ensures ShowsOneRow(PageSummary(FromRecords(ApplianceData), peak, false, offpeakRate, ["Kettle"]),
      "\U{2615}", "Kettle", 5.0 / 60.0, Num(0.25 * peak))
  {
    KettleEntry();
    KettleAlone(ApplianceData, 1, peak, offpeakRate);
  }

  /**
   * The page's table as the script builds it: below the threshold nothing;
   * otherwise the catalog frame is costed and reshaped in place and the
   * summary is taken from it.
   */
  method CostSummary(peak: real, offpeakOn: bool, offpeakRate: real, selection: seq<string>)
    returns (summary: Option<Table<Column>>)
    ensures PageReady(FromRecords(ApplianceData))
    ensures summary == PageSummary(FromRecords(ApplianceData), peak, offpeakOn, offpeakRate, selection)
  {
    RecordsPageReady(ApplianceData);
    summary := FrameSummary(FromRecords(ApplianceData), peak, offpeakOn, offpeakRate, selection);
  }

  /** The page's steps from a frame value, each frame update done in place. */
  method FrameSummary(t: Table<Column>, peak: real, offpeakOn: bool, offpeakRate: real, selection: seq<string>)
    returns (summary: Option<Table<Column>>)
    requires PageReady(t)
    ensures summary == PageSummary(t, peak, offpeakOn, offpeakRate, selection)
  {
    if peak >= DayRateThreshold {
      var df := new DataFrame(t);
      var offpeak := NightRate(offpeakOn, offpeakRate);
      CalculateCosts(df, peak, offpeak);
      ghost var costed := df.Value();
      assert costed == CostedFrame(t, peak, offpeak);
      ReshapeCostColumns(df, offpeakOn);
      assert df.Value() == Reshaped(costed, offpeakOn) == ReshapedFrame(t, peak, offpeakOn, offpeakRate);
      summary := Some(SummaryTable(df.Value(), selection, offpeakOn));
    } else {
      summary := None;
    }
  }
}
