/**
 * The slice of a pandas DataFrame that the calculator uses: labelled columns
 * in order, rows indexed by column label, column assignment
 * (`df[c] = values`), `rename`, `drop`, boolean-mask row selection and
 * column projection.
 *
 * `Table` is a frame's value; the pure operations build new values, and the
 * class `DataFrame` holds one frame whose in-place operations reassign its
 * fields to exactly what the pure operations compute.
 */
module Frame {

  /** A cell: text, a number, or the "not a number" marker of an absent value. */
  datatype Cell = Text(text: string) | Num(value: real) | NaN

  /** Column labels in display order, and each row as a map from label to cell. */
  datatype Table<L> = Table(columns: seq<L>, rows: seq<map<L, Cell>>)

  ghost predicate Distinct<L>(labels: seq<L>) {
    forall i, j :: 0 <= i < j < |labels| ==> labels[i] != labels[j]
  }

  function LabelSet<L(==)>(labels: seq<L>): set<L> {
    set c | c in labels
  }

  /** Labels are unique and every row has a cell for exactly the frame's columns. */
  ghost predicate WellFormed<L>(t: Table<L>) {
    && Distinct(t.columns)
    && forall i :: 0 <= i < |t.rows| ==> t.rows[i].Keys == LabelSet(t.columns)
  }

  /** Position of the first occurrence of `name`. */
  function IndexOf<L(==)>(labels: seq<L>, name: L): (k: nat)
    requires name in labels
    ensures k < |labels| && labels[k] == name
    ensures forall j :: 0 <= j < k ==> labels[j] != name
  {
    if labels[0] == name then 0 else 1 + IndexOf(labels[1..], name)
  }

  /** Among unique labels the position of a label is the only one holding it. */
  lemma IndexOfUnique<L>(labels: seq<L>, j: nat)
    requires Distinct(labels) && j < |labels|
    ensures IndexOf(labels, labels[j]) == j
  {
  }

  /** `df.at[i, name]` */
  function At<L(==)>(t: Table<L>, i: nat, name: L): Cell
    requires i < |t.rows| && name in t.rows[i]
  {
    t.rows[i][name]
  }

  /** Row `i` exists and holds `v` under `name`. */
  predicate CellIs<L(==)>(t: Table<L>, i: nat, name: L, v: Cell) {
    i < |t.rows| && name in t.rows[i] && t.rows[i][name] == v
  }

  /** In a well-formed frame every row has a cell under every column. */
  lemma CellsExist<L>(t: Table<L>)
    requires WellFormed(t)
    ensures forall i, c :: 0 <= i < |t.rows| && c in t.columns ==> c in t.rows[i]
  {
    forall i, c | 0 <= i < |t.rows| && c in t.columns ensures c in t.rows[i] {
      assert c in LabelSet(t.columns);
    }
  }

  /** The column exists and every one of its cells is a number. */
  ghost predicate NumericColumn<L>(t: Table<L>, name: L) {
    name in t.columns && forall i :: 0 <= i < |t.rows| ==> name in t.rows[i] && t.rows[i][name].Num?
  }

  /** Each row with the cell under `name` set to the matching value. */
  function UpdateRows<L(==)>(rows: seq<map<L, Cell>>, name: L, values: seq<Cell>): (r: seq<map<L, Cell>>)
    requires |values| == |rows|
    ensures |r| == |rows|
    ensures forall i :: 0 <= i < |rows| ==> r[i] == rows[i][name := values[i]]
    decreases |rows|
  {
    if rows == [] then []
    else
      var n := |rows| - 1;
      UpdateRows(rows[..n], name, values[..n]) + [rows[n][name := values[n]]]
  }

  /** The column labels after assigning `name`: unchanged if present, else `name` appended. */
  function WithLabel<L(==)>(labels: seq<L>, name: L): (r: seq<L>)
    ensures LabelSet(r) == LabelSet(labels) + {name}
    ensures Distinct(labels) ==> Distinct(r)
  {
    if name in labels then labels else labels + [name]
  }

  /**
   * `df[name] = values`: an existing column is overwritten where it stands,
   * a new one is appended on the right; every other column keeps its cells.
   */
  function WithColumn<L(==)>(t: Table<L>, name: L, values: seq<Cell>): (r: Table<L>)
    requires WellFormed(t) && |values| == |t.rows|
    ensures WellFormed(r) && |r.rows| == |t.rows|
    ensures r.columns == WithLabel(t.columns, name)
    ensures forall i :: 0 <= i < |r.rows| ==> At(r, i, name) == values[i]
    ensures forall i, c :: 0 <= i < |r.rows| && c in t.columns && c != name ==> At(r, i, c) == At(t, i, c)
  {
    var cols := WithLabel(t.columns, name);
    Table(cols, UpdateRows(t.rows, name, values))
  }

  /** The label a column carries after `rename(columns = mapping)`. */
  function RenamedLabel<L(==)>(name: L, mapping: map<L, L>): L {
    if name in mapping then mapping[name] else name
  }

  function RenamedLabels<L(==)>(labels: seq<L>, mapping: map<L, L>): (r: seq<L>)
    ensures |r| == |labels|
    ensures forall j :: 0 <= j < |labels| ==> r[j] == RenamedLabel(labels[j], mapping)
  {
    seq(|labels|, j requires 0 <= j < |labels| => RenamedLabel(labels[j], mapping))
  }

  /**
   * Renaming to labels no column has yet, with no two keys sharing a target,
   * keeps the labels unique.
   */
  lemma RenameToFreshLabels<L>(labels: seq<L>, mapping: map<L, L>)
    requires Distinct(labels)
    requires forall k :: k in mapping ==> mapping[k] !in labels
    requires forall k1, k2 :: k1 in mapping && k2 in mapping && k1 != k2 ==> mapping[k1] != mapping[k2]
    ensures Distinct(RenamedLabels(labels, mapping))
  {
    var r := RenamedLabels(labels, mapping);
    forall i, j | 0 <= i < j < |r| ensures r[i] != r[j] {
      if labels[i] in mapping && labels[j] !in mapping {
        assert r[i] !in labels;
      } else if labels[i] !in mapping && labels[j] in mapping {
        assert r[j] !in labels;
      }
    }
  }

  /** A row re-keyed by the renamed labels: each new label keeps the cell of the column it came from. */
  function RenamedRow<L(==)>(row: map<L, Cell>, labels: seq<L>, mapping: map<L, L>): map<L, Cell>
    requires Distinct(RenamedLabels(labels, mapping)) && row.Keys == LabelSet(labels)
  {
    var renamed := RenamedLabels(labels, mapping);
    map k | k in LabelSet(renamed) :: row[labels[IndexOf(renamed, k)]]
  }

  /**
   * `rename(columns = mapping)`: each column whose label is a key of `mapping`
   * takes the mapped label, keeps its place and its cells; keys that label no
   * column are ignored. The renamed labels must stay unique.
   */
  function Renamed<L(==)>(t: Table<L>, mapping: map<L, L>): (r: Table<L>)
    requires WellFormed(t) && Distinct(RenamedLabels(t.columns, mapping))
    ensures WellFormed(r) && |r.rows| == |t.rows|
    ensures |r.columns| == |t.columns|
    ensures forall j :: 0 <= j < |t.columns| ==> r.columns[j] == RenamedLabel(t.columns[j], mapping)
    ensures forall i, c :: 0 <= i < |t.rows| && c in t.columns ==>
      RenamedLabel(c, mapping) in r.columns && At(r, i, RenamedLabel(c, mapping)) == At(t, i, c)
  {
    var renamed := RenamedLabels(t.columns, mapping);
    forall c | c in t.columns
      ensures RenamedLabel(c, mapping) in renamed && t.columns[IndexOf(renamed, RenamedLabel(c, mapping))] == c
    {
      IndexOfUnique(renamed, IndexOf(t.columns, c));
    }
    Table(renamed, seq(|t.rows|, i requires 0 <= i < |t.rows| => RenamedRow(t.rows[i], t.columns, mapping)))
  }

  /** Removing the label at position `k` keeps the rest unique and in order. */
  lemma RemoveAtShifts<L>(labels: seq<L>, k: nat)
    requires Distinct(labels) && k < |labels|
    ensures var rest := labels[..k] + labels[k + 1..];
      && Distinct(rest)
      && LabelSet(rest) == LabelSet(labels) - {labels[k]}
  {
    var rest := labels[..k] + labels[k + 1..];
    assert forall j :: 0 <= j < |rest| ==> rest[j] == labels[if j < k then j else j + 1];
    forall c | c in labels && c != labels[k] ensures c in rest {
      var j := IndexOf(labels, c);
      assert rest[if j < k then j else j - 1] == c;
    }
  }

  /** `drop(columns = name)`: the column disappears, the others keep their order and cells. */
  function Dropped<L(==)>(t: Table<L>, name: L): (r: Table<L>)
    requires WellFormed(t) && name in t.columns
    ensures WellFormed(r) && |r.rows| == |t.rows| && |r.columns| == |t.columns| - 1
    ensures name !in r.columns
    ensures r.columns == t.columns[..IndexOf(t.columns, name)] + t.columns[IndexOf(t.columns, name) + 1..]
    ensures forall c :: c in t.columns && c != name ==> c in r.columns
    ensures forall c :: c in r.columns ==> c in t.columns
    ensures forall i, c :: 0 <= i < |r.rows| && c in t.columns && c != name ==> At(r, i, c) == At(t, i, c)
  {
    var k := IndexOf(t.columns, name);
    RemoveAtShifts(t.columns, k);
    var rest := t.columns[..k] + t.columns[k + 1..];
    Table(rest, seq(|t.rows|, i requires 0 <= i < |t.rows| => t.rows[i] - {name}))
  }

  /**
   * `df[labels]`: the listed columns, in the listed order, with their cells.
   * Every listed label must name a column (pandas raises otherwise).
   */
  function Select<L(==)>(t: Table<L>, labels: seq<L>): (r: Table<L>)
    requires WellFormed(t) && Distinct(labels)
    requires forall j :: 0 <= j < |labels| ==> labels[j] in t.columns
    ensures WellFormed(r) && r.columns == labels && |r.rows| == |t.rows|
    ensures forall i, c :: 0 <= i < |r.rows| && c in labels ==> At(r, i, c) == At(t, i, c)
  {
    assert LabelSet(labels) <= LabelSet(t.columns);
    Table(labels, seq(|t.rows|, i requires 0 <= i < |t.rows| => map c | c in LabelSet(labels) :: t.rows[i][c]))
  }

  /** Positions holding `true`, in increasing order. */
  function TrueIndices(mask: seq<bool>): (idx: seq<nat>)
    ensures forall j :: 0 <= j < |idx| ==> idx[j] < |mask| && mask[idx[j]]
    decreases |mask|
  {
    if mask == [] then []
    else
      var rest := TrueIndices(mask[..|mask| - 1]);
      if mask[|mask| - 1] then rest + [|mask| - 1] else rest
  }

  /** Strictly increasing position lists: a selection that keeps the original order. */
  predicate Increasing(idx: seq<nat>) {
    forall a, b :: 0 <= a < b < |idx| ==> idx[a] < idx[b]
  }

  /** `TrueIndices` lists exactly the true positions, each once, in order. */
  lemma {:induction false} TrueIndicesExact(mask: seq<bool>)
    ensures Increasing(TrueIndices(mask))
    ensures forall i :: 0 <= i < |mask| ==> (i in TrueIndices(mask) <==> mask[i])
    decreases |mask|
  {
    if mask != [] {
      var front := mask[..|mask| - 1];
      TrueIndicesExact(front);
      assert forall i :: 0 <= i < |front| ==> front[i] == mask[i];
    }
  }

  /** An all-false mask selects nothing. */
  lemma {:induction false} TrueIndicesOfAllFalse(mask: seq<bool>)
    requires forall i :: 0 <= i < |mask| ==> !mask[i]
    ensures TrueIndices(mask) == []
    decreases |mask|
  {
    if mask != [] {
      TrueIndicesOfAllFalse(mask[..|mask| - 1]);
    }
  }

  /** A mask with a single true position selects just that position. */
  lemma {:induction false} TrueIndicesOfSingle(mask: seq<bool>, k: nat)
    requires k < |mask| && mask[k]
    requires forall i :: 0 <= i < |mask| && i != k ==> !mask[i]
    ensures TrueIndices(mask) == [k]
    decreases |mask|
  {
    var front := mask[..|mask| - 1];
    if k == |mask| - 1 {
      TrueIndicesOfAllFalse(front);
    } else {
      TrueIndicesOfSingle(front, k);
    }
  }

  /**
   * `df[mask]`: the rows whose mask entry is true, in their original order;
   * row `j` of the result is row `TrueIndices(mask)[j]` of `t`.
   */
  function FilterRows<L(==)>(t: Table<L>, mask: seq<bool>): (r: Table<L>)
    requires WellFormed(t) && |mask| == |t.rows|
    ensures WellFormed(r) && r.columns == t.columns
    ensures |r.rows| == |TrueIndices(mask)|
    ensures forall j, c :: 0 <= j < |r.rows| && c in t.columns ==>
      TrueIndices(mask)[j] < |t.rows| && At(r, j, c) == At(t, TrueIndices(mask)[j], c)
  {
    var idx := TrueIndices(mask);
    Table(t.columns, seq(|idx|, j requires 0 <= j < |idx| => t.rows[idx[j]]))
  }

  /** A frame held in a mutable object; `rows` and `columns` are reassigned in place. */
  class DataFrame<L(==)> {
    var columns: seq<L>
    var rows: seq<map<L, Cell>>

    /** The frame's current value. */
    function Value(): Table<L>
      reads this
    {
      Table(columns, rows)
    }

    ghost predicate Valid()
      reads this
    {
      WellFormed(Value())
    }

    /** `pd.DataFrame(...)` from an already tabulated value. */
    constructor (t: Table<L>)
      requires WellFormed(t)
      ensures Valid() && Value() == t
    {
      columns := t.columns;
      rows := t.rows;
    }

    /** `df[name] = values` */
    method Assign(name: L, values: seq<Cell>)
      requires Valid() && |values| == |rows|
      modifies this
      ensures Valid() && Value() == WithColumn(old(Value()), name, values)
    {
      var t := WithColumn(Value(), name, values);
      columns, rows := t.columns, t.rows;
    }

    /** `df.rename(columns = mapping, inplace = True)` */
    method Rename(mapping: map<L, L>)
      requires Valid() && Distinct(RenamedLabels(columns, mapping))
      modifies this
      ensures Valid() && Value() == Renamed(old(Value()), mapping)
    {
      var t := Renamed(Value(), mapping);
      columns, rows := t.columns, t.rows;
    }

    /** `df.drop(columns = name, inplace = True)` */
    method Drop(name: L)
      requires Valid() && name in columns
      modifies this
      ensures Valid() && Value() == Dropped(old(Value()), name)
    {
      var t := Dropped(Value(), name);
      columns, rows := t.columns, t.rows;
    }
  }
}
