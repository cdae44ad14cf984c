/**
 * The cost engine: per-row unit conversion (minutes to hours, kW to kWh,
 * kWh to pounds), the four columns `calculate_costs` adds to the appliance
 * frame, and the reshape of the cost columns driven by the night-tariff toggle.
 */
module Calculator {
  import opened Wrappers
  import opened Catalog
  import opened Frame

  /**
   * The column labels the calculator's frames carry. Pandas labels columns
   * by strings; `Label()` gives each one's text, and no two share one.
   */
  datatype Column =
    | ApplianceCol | PowerCol | FrequencyCol | MinutesCol
    | EnergyCol | DayCol | NightCol | IconCol
    | DayCostCol | NightCostCol | CostCol | UsageHoursCol
  {
    function Label(): string {
      match this
      case ApplianceCol => "Appliance"
      case PowerCol => "PowerRating_kW"
      case FrequencyCol => "UsageFrequency"
      case MinutesCol => "UsageMinutes"
      case EnergyCol => "Energy (kWh)"
      case DayCol => "Day Time Cost (\U{A3})"
      case NightCol => "Night Time Cost (\U{A3})"
      case IconCol => "Icon"
      case DayCostCol => "Day Cost"
      case NightCostCol => "Night Cost"
      case CostCol => "Cost"
      case UsageHoursCol => "Usage (hours)"
    }
  }

  /** Distinct columns carry distinct label texts, so the enumeration loses nothing. */
  lemma LabelsDistinct(a: Column, b: Column)
    requires a != b
    ensures a.Label() != b.Label()
  {
    assert a.Label()[0] != b.Label()[0] || |a.Label()| != |b.Label()|;
  }

  const CatalogColumns := [ApplianceCol, PowerCol, FrequencyCol, MinutesCol]
  /** The columns `calculate_costs` adds, in the order it adds them. */
  const AddedColumns := [EnergyCol, DayCol, NightCol, IconCol]

  /** Minutes of use expressed in hours. */
  function Hours(minutes: real): real {
    minutes / 60.0
  }

  /** Energy in kWh drawn by `powerKw` kilowatts over `minutes` minutes. */
  function EnergyKwh(powerKw: real, minutes: real): (e: real)
    ensures e == powerKw * Hours(minutes)
    ensures minutes == 60.0 ==> e == powerKw
    ensures powerKw >= 0.0 && minutes >= 0.0 ==> e >= 0.0
  {
    powerKw * (minutes / 60.0)
  }

  /** A numeric cell times a rate: `series * rate` on one cell. */
  function Scale(c: Cell, rate: real): Cell
    requires c.Num?
  {
    Num(c.value * rate)
  }

  /** Night cost of `energy`: a number when a night rate is given, NaN ("not applicable") when not. */
  function NightCell(energy: real, offpeak: Option<real>): (c: Cell)
    ensures c.NaN? <==> offpeak.None?
    ensures offpeak == Some(0.0) ==> c == Num(0.0)
  {
    match offpeak
    case Some(rate) => Scale(Num(energy), rate)
    case None => NaN
  }

  /** `APPLIANCE_ICONS.get(x, fallback)` applied to a cell: anything but a known name falls back. */
  function IconOf(c: Cell): (glyph: string)
    ensures c.Text? && c.text in ApplianceIcons ==> glyph == ApplianceIcons[c.text]
    ensures !(c.Text? && c.text in ApplianceIcons) ==> glyph == FallbackIcon
    ensures |glyph| > 0
  {
    if c.Text? then IconFor(c.text) else FallbackIcon
  }

  /** One catalog record as a frame row, keyed by the `CatalogColumns` labels. */
  function RecordRow(a: Appliance): map<Column, Cell> {
    map[ApplianceCol := Text(a.name), PowerCol := Num(a.powerKw),
        FrequencyCol := Text(a.frequency), MinutesCol := Num(a.minutes)]
  }

  /** `pd.DataFrame(records)`: one row per record, in order, cells taken from the record's fields. */
  function FromRecords(data: seq<Appliance>): (t: Table<Column>)
    ensures WellFormed(t) && t.columns == CatalogColumns && |t.rows| == |data|
    ensures forall i :: 0 <= i < |data| ==>
      && At(t, i, ApplianceCol) == Text(data[i].name)
      && At(t, i, PowerCol) == Num(data[i].powerKw)
      && At(t, i, FrequencyCol) == Text(data[i].frequency)
      && At(t, i, MinutesCol) == Num(data[i].minutes)
  {
    assert LabelSet(CatalogColumns) == {ApplianceCol, PowerCol, FrequencyCol, MinutesCol};
    Table(CatalogColumns, seq(|data|, i requires 0 <= i < |data| => RecordRow(data[i])))
  }

  /** A row holding what `calculate_costs` reads: a name and numeric power and minutes. */
  ghost predicate RowHasInputs(row: map<Column, Cell>) {
    && ApplianceCol in row && PowerCol in row && MinutesCol in row
    && row[PowerCol].Num? && row[MinutesCol].Num?
  }

  /** What `calculate_costs` reads: an appliance column and numeric power and minutes columns. */
  ghost predicate HasInputs(t: Table<Column>) {
    && WellFormed(t)
    && ApplianceCol in t.columns && PowerCol in t.columns && MinutesCol in t.columns
    && forall i :: 0 <= i < |t.rows| ==> RowHasInputs(t.rows[i])
  }

  /** Energy of one row, from its power and minutes cells. */
  function RowEnergy(row: map<Column, Cell>): real
    requires RowHasInputs(row)
  {
    EnergyKwh(row[PowerCol].value, row[MinutesCol].value)
  }

  /** The values `df['PowerRating_kW'] * (df['UsageMinutes'] / 60)`. */
  function EnergyValues(t: Table<Column>): (r: seq<Cell>)
    requires HasInputs(t)
    ensures |r| == |t.rows| && forall i :: 0 <= i < |t.rows| ==> r[i] == Num(RowEnergy(t.rows[i]))
  {
    seq(|t.rows|, i requires 0 <= i < |t.rows| => Num(RowEnergy(t.rows[i])))
  }

  /** The values `df['Energy (kWh)'] * rate`. */
  function ScaledEnergy(t: Table<Column>, rate: real): (r: seq<Cell>)
    requires NumericColumn(t, EnergyCol)
    ensures |r| == |t.rows| && forall i :: 0 <= i < |t.rows| ==> r[i] == Scale(t.rows[i][EnergyCol], rate)
  {
    seq(|t.rows|, i requires 0 <= i < |t.rows| => Scale(t.rows[i][EnergyCol], rate))
  }

  /** A column of `n` NaN cells, what assigning `np.nan` to a whole column gives. */
  function NaNs(n: nat): (r: seq<Cell>)
    ensures |r| == n && forall i :: 0 <= i < n ==> r[i] == NaN
  {
    seq(n, i => NaN)
  }

  /** The night-cost values: scaled energy with a night rate, all NaN without one. */
  function NightValues(t: Table<Column>, offpeak: Option<real>): (r: seq<Cell>)
    requires NumericColumn(t, EnergyCol)
    ensures |r| == |t.rows|
    ensures forall i :: 0 <= i < |t.rows| ==> r[i] == NightCell(t.rows[i][EnergyCol].value, offpeak)
  {
    match offpeak
    case Some(rate) => ScaledEnergy(t, rate)
    case None => NaNs(|t.rows|)
  }

  /** The values `df['Appliance'].apply(lambda x: APPLIANCE_ICONS.get(x, fallback))`. */
  function IconValues(t: Table<Column>): (r: seq<Cell>)
    requires forall i :: 0 <= i < |t.rows| ==> ApplianceCol in t.rows[i]
    ensures |r| == |t.rows| && forall i :: 0 <= i < |t.rows| ==> r[i] == Text(IconOf(t.rows[i][ApplianceCol]))
  {
    seq(|t.rows|, i requires 0 <= i < |t.rows| => Text(IconOf(t.rows[i][ApplianceCol])))
  }

  /** The labels after `calculate_costs`: each added column appended unless already present. */
  function CostLabels(labels: seq<Column>): (r: seq<Column>)
    ensures LabelSet(r) == LabelSet(labels) + {EnergyCol, DayCol, NightCol, IconCol}
    ensures Distinct(labels) ==> Distinct(r)
  {
    WithLabel(WithLabel(WithLabel(WithLabel(labels, EnergyCol), DayCol), NightCol), IconCol)
  }

  /**
   * A row after `calculate_costs`: energy is power times hours of use, the
   * day cost is energy times the day rate, the night cost is energy times the
   * night rate (NaN without one), the icon is looked up by the name.
   */
  function CostRow(row: map<Column, Cell>, peak: real, offpeak: Option<real>): (r: map<Column, Cell>)
    requires RowHasInputs(row)
    ensures r.Keys == row.Keys + {EnergyCol, DayCol, NightCol, IconCol}
  {
    PricedRow(row, peak, offpeak)[IconCol := Text(IconOf(row[ApplianceCol]))]
  }

  /** A row after the first three assignments of `calculate_costs`: energy, day cost, night cost. */
  function PricedRow(row: map<Column, Cell>, peak: real, offpeak: Option<real>): (r: map<Column, Cell>)
    requires RowHasInputs(row)
    ensures ApplianceCol in r && r[ApplianceCol] == row[ApplianceCol]
  {
    var e := RowEnergy(row);
    row[EnergyCol := Num(e)][DayCol := Scale(Num(e), peak)][NightCol := NightCell(e, offpeak)]
  }

  function CostRows(rows: seq<map<Column, Cell>>, peak: real, offpeak: Option<real>): (r: seq<map<Column, Cell>>)
    requires forall i :: 0 <= i < |rows| ==> RowHasInputs(rows[i])
    ensures |r| == |rows|
    ensures forall i :: 0 <= i < |rows| ==> r[i] == CostRow(rows[i], peak, offpeak)
    decreases |rows|
  {
    if rows == [] then []
    else
      var n := |rows| - 1;
      CostRows(rows[..n], peak, offpeak) + [CostRow(rows[n], peak, offpeak)]
  }

  /** The frame `calculate_costs` leaves behind. */
  function CostsAdded(t: Table<Column>, peak: real, offpeak: Option<real>): (r: Table<Column>)
    requires HasInputs(t)
    ensures |r.rows| == |t.rows|
    ensures LabelSet(r.columns) == LabelSet(t.columns) + {EnergyCol, DayCol, NightCol, IconCol}
  {
    Table(CostLabels(t.columns), CostRows(t.rows, peak, offpeak))
  }

  /**
   * The columns after `calculate_costs`: the old ones and the four added
   * ones and nothing else; on a frame that has none of the four, they are
   * appended in the order energy, day cost, night cost, icon.
   */
  lemma CostsAddedColumns(t: Table<Column>, peak: real, offpeak: Option<real>)
    requires HasInputs(t)
    ensures var r := CostsAdded(t, peak, offpeak);
      && (forall c :: c in r.columns ==> c in t.columns || c in AddedColumns)
      && (forall c :: c in t.columns || c in AddedColumns ==> c in r.columns)
      && (EnergyCol !in t.columns && DayCol !in t.columns && NightCol !in t.columns && IconCol !in t.columns ==>
           r.columns == t.columns + AddedColumns)
  {
    forall c ensures c in CostLabels(t.columns) <==> c in t.columns || c in AddedColumns {
      CostLabelsHas(t.columns, c);
    }
    if EnergyCol !in t.columns && DayCol !in t.columns && NightCol !in t.columns && IconCol !in t.columns {
      CostLabelsAppend(t.columns);
    }
  }

  /** `calculate_costs` keeps the frame well formed: unique labels, a cell under each of them in every row. */
  lemma CostsAddedWellFormed(t: Table<Column>, peak: real, offpeak: Option<real>)
    requires HasInputs(t)
    ensures var r := CostsAdded(t, peak, offpeak);
      WellFormed(r) && |r.rows| == |t.rows|
  {
    var r := CostsAdded(t, peak, offpeak);
    forall i | 0 <= i < |r.rows| ensures r.rows[i].Keys == LabelSet(r.columns) {
      assert r.rows[i].Keys == t.rows[i].Keys + {EnergyCol, DayCol, NightCol, IconCol};
    }
  }

  /** A label is among the costed labels exactly when it was there before or is one of the four added. */
  lemma CostLabelsHas(labels: seq<Column>, c: Column)
    ensures c in CostLabels(labels) <==> c in labels || c == EnergyCol || c == DayCol || c == NightCol || c == IconCol
  {
    var l1 := WithLabel(labels, EnergyCol);
    var l2 := WithLabel(l1, DayCol);
    var l3 := WithLabel(l2, NightCol);
    assert c in l1 <==> c in labels || c == EnergyCol;
    assert c in l2 <==> c in l1 || c == DayCol;
    assert c in l3 <==> c in l2 || c == NightCol;
    assert c in WithLabel(l3, IconCol) <==> c in l3 || c == IconCol;
  }

  /** Labels that carry none of the four added columns get them appended in order. */
  lemma CostLabelsAppend(labels: seq<Column>)
    requires EnergyCol !in labels && DayCol !in labels && NightCol !in labels && IconCol !in labels
    ensures CostLabels(labels) == labels + AddedColumns
  {
    var c1 := labels + [EnergyCol];
    assert DayCol !in c1;
    var c2 := c1 + [DayCol];
    assert NightCol !in c2;
    var c3 := c2 + [NightCol];
    assert IconCol !in c3;
    assert c3 + [IconCol] == labels + AddedColumns;
  }

  /**
   * The cells after `calculate_costs`. Rows keep their number and order;
   * energy is power times hours of use, the day cost is that energy times
   * the day rate, the night cost is that energy times the night rate or NaN
   * when there is none, the icon is looked up by name; every other column is
   * untouched.
   */
  lemma CostsAddedCells(t: Table<Column>, peak: real, offpeak: Option<real>)
    requires HasInputs(t)
    ensures var r := CostsAdded(t, peak, offpeak);
      && |r.rows| == |t.rows|
      && (forall i :: 0 <= i < |t.rows| ==>
           && EnergyCol in r.rows[i] && DayCol in r.rows[i] && NightCol in r.rows[i] && IconCol in r.rows[i]
           && At(r, i, EnergyCol) == Num(RowEnergy(t.rows[i]))
           && At(r, i, DayCol) == Scale(At(r, i, EnergyCol), peak)
           && At(r, i, NightCol) == NightCell(RowEnergy(t.rows[i]), offpeak)
           && At(r, i, IconCol) == Text(IconOf(At(t, i, ApplianceCol))))
      && forall i, c :: 0 <= i < |t.rows| && c in t.rows[i] && c !in AddedColumns ==>
           c in r.rows[i] && At(r, i, c) == At(t, i, c)
  {
    var r := CostsAdded(t, peak, offpeak);
    forall i | 0 <= i < |t.rows|
      ensures EnergyCol in r.rows[i] && DayCol in r.rows[i] && NightCol in r.rows[i] && IconCol in r.rows[i]
      ensures At(r, i, EnergyCol) == Num(RowEnergy(t.rows[i]))
      ensures At(r, i, DayCol) == Scale(At(r, i, EnergyCol), peak)
      ensures At(r, i, NightCol) == NightCell(RowEnergy(t.rows[i]), offpeak)
      ensures At(r, i, IconCol) == Text(IconOf(At(t, i, ApplianceCol)))
      ensures forall c :: c in t.rows[i] && c !in AddedColumns ==> c in r.rows[i] && At(r, i, c) == At(t, i, c)
    {
      assert r.rows[i] == CostRow(t.rows[i], peak, offpeak);
      CostRowCells(t.rows[i], peak, offpeak);
    }
  }

  /** One row's cells after `calculate_costs`. */
  lemma CostRowCells(row: map<Column, Cell>, peak: real, offpeak: Option<real>)
    requires RowHasInputs(row)
    ensures var r := CostRow(row, peak, offpeak);
      && EnergyCol in r && DayCol in r && NightCol in r && IconCol in r
      && r[EnergyCol] == Num(RowEnergy(row))
      && r[DayCol] == Num(RowEnergy(row) * peak)
      && r[NightCol] == NightCell(RowEnergy(row), offpeak)
      && r[IconCol] == Text(IconOf(row[ApplianceCol]))
      && forall c :: c in row && c !in AddedColumns ==> c in r && r[c] == row[c]
  {
    forall c | c in row && c !in AddedColumns
      ensures c in CostRow(row, peak, offpeak) && CostRow(row, peak, offpeak)[c] == row[c]
    {
      assert c != EnergyCol && c != DayCol && c != NightCol && c != IconCol;
    }
  }

  /** `calculate_costs(df, peak, offpeak)`: adds the four columns to `df` one after another. */
  method CalculateCosts(df: DataFrame<Column>, peak: real, offpeak: Option<real>)
    requires df.Valid() && HasInputs(df.Value())
    modifies df
    ensures df.Valid() && df.Value() == CostsAdded(old(df.Value()), peak, offpeak)
  {
    ghost var t0 := df.Value();
    df.Assign(EnergyCol, EnergyValues(df.Value()));
    df.Assign(DayCol, ScaledEnergy(df.Value(), peak));
    if offpeak.Some? {
      df.Assign(NightCol, ScaledEnergy(df.Value(), offpeak.value));
    } else {
      df.Assign(NightCol, NaNs(|df.rows|));
    }
    df.Assign(IconCol, IconValues(df.Value()));
    AssignmentsAddCosts(t0, peak, offpeak);
  }

  /** The four assignments of `calculate_costs`, in order, build `CostsAdded`. */
  lemma AssignmentsAddCosts(t0: Table<Column>, peak: real, offpeak: Option<real>)
    requires HasInputs(t0)
    ensures var t1 := WithColumn(t0, EnergyCol, EnergyValues(t0));
      var t2 := WithColumn(t1, DayCol, ScaledEnergy(t1, peak));
      var t3 := WithColumn(t2, NightCol, NightValues(t2, offpeak));
      WithColumn(t3, IconCol, IconValues(t3)) == CostsAdded(t0, peak, offpeak)
  {
    EnergyStep(t0);
    var t1 := WithColumn(t0, EnergyCol, EnergyValues(t0));
    KeepsInputs(t1, DayCol, ScaledEnergy(t1, peak));
    var t2 := WithColumn(t1, DayCol, ScaledEnergy(t1, peak));
    KeepsInputs(t2, NightCol, NightValues(t2, offpeak));
    var t3 := WithColumn(t2, NightCol, NightValues(t2, offpeak));
    CostSteps(t0, t1, t2, t3, peak, offpeak);
  }

  /** Assigning the energy column keeps the inputs and makes the energy column numeric. */
  lemma EnergyStep(t0: Table<Column>)
    requires HasInputs(t0)
    ensures var t1 := WithColumn(t0, EnergyCol, EnergyValues(t0));
      HasInputs(t1) && NumericColumn(t1, EnergyCol)
  {
  }

  /** Assigning a column other than the inputs and the energy keeps them all. */
  lemma KeepsInputs(t: Table<Column>, name: Column, values: seq<Cell>)
    requires HasInputs(t) && NumericColumn(t, EnergyCol) && |values| == |t.rows|
    requires name != ApplianceCol && name != PowerCol && name != MinutesCol && name != EnergyCol
    ensures var r := WithColumn(t, name, values);
      HasInputs(r) && NumericColumn(r, EnergyCol)
  {
  }

  /** The icon assignment completes each priced row to `CostRow`. */
  lemma IconStep(t0: Table<Column>, t3: Table<Column>, peak: real, offpeak: Option<real>)
    requires HasInputs(t0) && WellFormed(t3) && |t3.rows| == |t0.rows|
    requires forall i :: 0 <= i < |t0.rows| ==> t3.rows[i] == PricedRow(t0.rows[i], peak, offpeak)
    requires forall i :: 0 <= i < |t3.rows| ==> ApplianceCol in t3.rows[i]
    ensures WithColumn(t3, IconCol, IconValues(t3)).rows == CostRows(t0.rows, peak, offpeak)
  {
    var t4 := WithColumn(t3, IconCol, IconValues(t3));
    var r := CostRows(t0.rows, peak, offpeak);
    forall i | 0 <= i < |t0.rows| ensures t4.rows[i] == r[i] {
      var row := t0.rows[i];
      assert t4.rows[i] == PricedRow(row, peak, offpeak)[IconCol := Text(IconOf(row[ApplianceCol]))];
    }
  }

  /** Row by row, the energy, day-cost and night-cost assignments add `CostRow`'s first three cells. */
  lemma CostSteps(t0: Table<Column>, t1: Table<Column>, t2: Table<Column>, t3: Table<Column>, peak: real, offpeak: Option<real>)
    requires HasInputs(t0)
    requires t1 == WithColumn(t0, EnergyCol, EnergyValues(t0))
    requires NumericColumn(t1, EnergyCol) && t2 == WithColumn(t1, DayCol, ScaledEnergy(t1, peak))
    requires NumericColumn(t2, EnergyCol) && t3 == WithColumn(t2, NightCol, NightValues(t2, offpeak))
    ensures |t3.rows| == |t0.rows|
    ensures WithColumn(t3, IconCol, IconValues(t3)).rows == CostRows(t0.rows, peak, offpeak)
  {
    forall i | 0 <= i < |t0.rows|
      ensures t3.rows[i] == PricedRow(t0.rows[i], peak, offpeak)
    {
      var e := Num(RowEnergy(t0.rows[i]));
      assert t1.rows[i] == t0.rows[i][EnergyCol := e];
      assert t2.rows[i] == t1.rows[i][DayCol := Scale(e, peak)];
      assert t2.rows[i][EnergyCol] == e;
    }
    IconStep(t0, t3, peak, offpeak);
  }

  /** The reshape needs both raw cost columns and none of the display labels. */
  ghost predicate ReshapeReady(t: Table<Column>) {
    && WellFormed(t)
    && DayCol in t.columns && NightCol in t.columns
    && DayCostCol !in t.columns && NightCostCol !in t.columns && CostCol !in t.columns
  }

  const DayNightLabels: map<Column, Column> := map[DayCol := DayCostCol, NightCol := NightCostCol]
  const DayOnlyLabels: map<Column, Column> := map[DayCol := CostCol]

  /**
   * Toggle on: `Day Cost` and `Night Cost` take the place and the cells of
   * the raw day and night cost columns.
   */
  function DayNightRenamed(t: Table<Column>): (r: Table<Column>)
    requires ReshapeReady(t)
    ensures WellFormed(r) && |r.rows| == |t.rows| && |r.columns| == |t.columns|
    ensures DayCol !in r.columns && NightCol !in r.columns
    ensures DayCostCol in r.columns && NightCostCol in r.columns && CostCol !in r.columns
    ensures forall i :: 0 <= i < |t.rows| ==>
      At(r, i, DayCostCol) == At(t, i, DayCol) && At(r, i, NightCostCol) == At(t, i, NightCol)
    ensures forall i, c :: 0 <= i < |t.rows| && c in t.columns && c != DayCol && c != NightCol ==>
      c in r.columns && At(r, i, c) == At(t, i, c)
  {
    RenameToFreshLabels(t.columns, DayNightLabels);
    Renamed(t, DayNightLabels)
  }

  /**
   * Toggle off: the raw day column becomes `Cost` and the raw night
   * column is dropped, so no night column remains under any label.
   */
  function DayOnlyKept(t: Table<Column>): (r: Table<Column>)
    requires ReshapeReady(t)
    ensures WellFormed(r) && |r.rows| == |t.rows| && |r.columns| == |t.columns| - 1
    ensures DayCol !in r.columns && NightCol !in r.columns
    ensures CostCol in r.columns && DayCostCol !in r.columns && NightCostCol !in r.columns
    ensures forall i :: 0 <= i < |t.rows| ==> At(r, i, CostCol) == At(t, i, DayCol)
    ensures forall i, c :: 0 <= i < |t.rows| && c in t.columns && c != DayCol && c != NightCol ==>
      c in r.columns && At(r, i, c) == At(t, i, c)
  {
    RenameToFreshLabels(t.columns, DayOnlyLabels);
    Dropped(Renamed(t, DayOnlyLabels), NightCol)
  }

  /**
   * The cost columns after the toggle-driven reshape: `Day Cost` and
   * `Night Cost` with the toggle on, `Cost` alone with it off.
   */
  function Reshaped(t: Table<Column>, offpeakOn: bool): (r: Table<Column>)
    requires ReshapeReady(t)
    ensures WellFormed(r) && |r.rows| == |t.rows|
  {
    if offpeakOn then DayNightRenamed(t) else DayOnlyKept(t)
  }

  /** A column other than the raw cost columns survives the reshape with all its cells. */
  lemma ReshapeKeepsColumn(t: Table<Column>, offpeakOn: bool, c: Column)
    requires ReshapeReady(t) && c in t.columns && c != DayCol && c != NightCol
    ensures var r := Reshaped(t, offpeakOn);
      && c in r.columns
      && forall i :: 0 <= i < |t.rows| ==> i < |r.rows| && c in r.rows[i] && r.rows[i][c] == t.rows[i][c]
  {
    CellsExist(t);
  }

  /** A numeric column other than the raw cost columns stays numeric through the reshape. */
  lemma ReshapeKeepsNumeric(t: Table<Column>, offpeakOn: bool, c: Column)
    requires ReshapeReady(t) && NumericColumn(t, c) && c != DayCol && c != NightCol
    ensures NumericColumn(Reshaped(t, offpeakOn), c)
  {
    ReshapeKeepsColumn(t, offpeakOn, c);
  }

  /** The display labels the reshape introduces, as the toggle chooses them. */
  lemma ReshapeLabels(t: Table<Column>, offpeakOn: bool)
    requires ReshapeReady(t)
    ensures offpeakOn ==> DayCostCol in Reshaped(t, offpeakOn).columns && NightCostCol in Reshaped(t, offpeakOn).columns
    ensures !offpeakOn ==> CostCol in Reshaped(t, offpeakOn).columns
  {
  }

  /** Where the raw cost cells of row `i` end up: under the display labels the toggle chooses. */
  lemma ReshapeMovesCosts(t: Table<Column>, offpeakOn: bool, i: nat)
    requires ReshapeReady(t) && i < |t.rows|
    ensures var r := Reshaped(t, offpeakOn);
      && i < |r.rows| && DayCol in t.rows[i] && NightCol in t.rows[i]
      && (offpeakOn ==> DayCostCol in r.rows[i] && r.rows[i][DayCostCol] == t.rows[i][DayCol])
      && (offpeakOn ==> NightCostCol in r.rows[i] && r.rows[i][NightCostCol] == t.rows[i][NightCol])
      && (!offpeakOn ==> CostCol in r.rows[i] && r.rows[i][CostCol] == t.rows[i][DayCol])
  {
    CellsExist(t);
    CellsExist(Reshaped(t, offpeakOn));
  }

  /** The in-place rename (and, toggle off, drop) of the cost columns. */
  method ReshapeCostColumns(df: DataFrame<Column>, offpeakOn: bool)
    requires df.Valid() && ReshapeReady(df.Value())
    modifies df
    ensures df.Valid() && df.Value() == Reshaped(old(df.Value()), offpeakOn)
  {
    if offpeakOn {
      RenameToFreshLabels(df.columns, DayNightLabels);
      df.Rename(DayNightLabels);
    } else {
      RenameToFreshLabels(df.columns, DayOnlyLabels);
      df.Rename(DayOnlyLabels);
      df.Drop(NightCol);
    }
  }
}
