/** A pandas DataFrame reduced to what the pipeline uses: labelled columns of
    equal height. `Table` is the value; `Frame` is the object the pipeline
    mutates in place (`df.columns = ...`, `df[name] = ...`, `df.rename`). */
module Tables {
  import opened Cells
  import opened Headers

  /** Column labels, one sequence of cells per column, and the row count. */
  datatype Table = Table(columns: seq<string>, data: seq<seq<Cell>>, height: nat)

  predicate Valid(t: Table) {
    && |t.data| == |t.columns|
    && forall k :: 0 <= k < |t.data| ==> |t.data[k]| == t.height
  }

  /** The position of the first column labelled `name`, or the number of
      columns when there is none. */
  function IndexOf(cols: seq<string>, name: string): (k: nat)
    ensures k <= |cols| && (k < |cols| <==> name in cols)
    ensures k < |cols| ==> cols[k] == name
    ensures forall j :: 0 <= j < k ==> cols[j] != name
  {
    if cols == [] then 0
    else if cols[0] == name then 0
    else
      var k := 1 + IndexOf(cols[1..], name);
      assert forall j :: 1 <= j < |cols| ==> cols[j] == cols[1..][j - 1];
      k
  }

  /** The first position of a label does not move when a column is appended. */
  lemma IndexOfAppend(cols: seq<string>, extra: string, name: string)
    requires name in cols
    ensures IndexOf(cols + [extra], name) == IndexOf(cols, name)
  {
    var k, k' := IndexOf(cols, name), IndexOf(cols + [extra], name);
    assert (cols + [extra])[k] == name;
    assert k' <= k;
    assert k' < |cols| ==> cols[k'] == name;
  }

  /** `df[name]`: the first column with that label. */
  function Column(t: Table, name: string): (c: seq<Cell>)
    requires Valid(t) && name in t.columns
    ensures |c| == t.height
  {
    t.data[IndexOf(t.columns, name)]
  }

  /** `set(names).issubset(df.columns)` */
  predicate HasAll(t: Table, names: seq<string>) {
    forall k :: 0 <= k < |names| ==> names[k] in t.columns
  }

  /** A column holding one value in every row (`df[name] = scalar`). */
  function Constant(v: Cell, n: nat): (c: seq<Cell>)
    ensures |c| == n && forall i :: 0 <= i < n ==> c[i] == v
  {
    seq(n, _ => v)
  }

  /** `column.map(f)` / `column.apply(f)` */
  function MapCells(col: seq<Cell>, f: Cell -> Cell): (r: seq<Cell>)
    ensures |r| == |col| && forall i :: 0 <= i < |col| ==> r[i] == f(col[i])
  {
    seq(|col|, i requires 0 <= i < |col| => f(col[i]))
  }

  /** `df[name] = col`: the first column with that label is replaced, or a
      new column is appended on the right; every other column keeps its
      label and its cells. */
  function WithColumn(t: Table, name: string, col: seq<Cell>): (r: Table)
    requires Valid(t) && |col| == t.height
    ensures Valid(r) && r.height == t.height
    ensures name in t.columns ==> r.columns == t.columns
    ensures name !in t.columns ==> r.columns == t.columns + [name]
    ensures name in r.columns && Column(r, name) == col
    ensures forall n :: n in t.columns && n != name ==> Column(r, n) == Column(t, n)
  {
    var k := IndexOf(t.columns, name);
    if k < |t.columns| then
      Table(t.columns, t.data[k := col], t.height)
    else
      var r := Table(t.columns + [name], t.data + [col], t.height);
      assert forall n :: n in t.columns ==> IndexOf(r.columns, n) == IndexOf(t.columns, n) by {
        forall n | n in t.columns {
          IndexOfAppend(t.columns, name, n);
        }
      }
      r
  }

  /** Setting one column keeps every other one; stated for one label, so
      that a chain of assignments can be followed step by step. */
  lemma WithColumnKeeps(t: Table, name: string, col: seq<Cell>, n: string)
    requires Valid(t) && |col| == t.height
    requires n in t.columns && n != name
    ensures n in WithColumn(t, name, col).columns
    ensures Column(WithColumn(t, name, col), n) == Column(t, n)
  {
  }

  /** `if src in df.columns: df[dst] = df[src].map(f)` */
  function Derive(t: Table, src: string, dst: string, f: Cell -> Cell): (r: Table)
    requires Valid(t)
    ensures Valid(r) && r.height == t.height
  {
    if src in t.columns then WithColumn(t, dst, MapCells(Column(t, src), f)) else t
  }

  /** Deriving a column touches no other column, and drops none. */
  lemma DeriveKeeps(t: Table, src: string, dst: string, f: Cell -> Cell, n: string)
    requires Valid(t) && n in t.columns && n != dst
    ensures n in Derive(t, src, dst, f).columns && Column(Derive(t, src, dst, f), n) == Column(t, n)
  {
  }

  /** `df.rename(columns=d)` on the labels alone: each label that is a key
      of `d` is replaced by its value, in place; the others stay. */
  function RenameLabels(cols: seq<string>, d: map<string, string>): (r: seq<string>)
    ensures |r| == |cols|
    ensures forall i :: 0 <= i < |cols| && cols[i] in d ==> r[i] == d[cols[i]]
    ensures forall i :: 0 <= i < |cols| && cols[i] !in d ==> r[i] == cols[i]
  {
    seq(|cols|, i requires 0 <= i < |cols| => if cols[i] in d then d[cols[i]] else cols[i])
  }

  /** Renaming with an empty dictionary changes nothing. */
  lemma RenameNothing(cols: seq<string>)
    ensures RenameLabels(cols, map[]) == cols
  {
  }

  /** `df.rename(columns=d)` */
  function Rename(t: Table, d: map<string, string>): (r: Table)
    ensures r.data == t.data && r.height == t.height
    ensures r.columns == RenameLabels(t.columns, d)
  {
    t.(columns := RenameLabels(t.columns, d))
  }

  /** `[_norm_header(c) for c in df.columns]` */
  function NormalizeLabels(cols: seq<string>): (r: seq<string>)
    ensures |r| == |cols| && forall i :: 0 <= i < |cols| ==> r[i] == Normalize(cols[i])
  {
    seq(|cols|, i requires 0 <= i < |cols| => Normalize(cols[i]))
  }

  /** Every label of a table whose labels were normalised is normalised. */
  lemma NormalizeLabelsShape(cols: seq<string>)
    ensures forall i :: 0 <= i < |cols| ==> IsNormalized(NormalizeLabels(cols)[i])
    ensures NormalizeLabels(NormalizeLabels(cols)) == NormalizeLabels(cols)
  {
    forall i | 0 <= i < |cols| {
      NormalizeIdempotent(cols[i]);
    }
  }

  /** A table object whose labels and columns the pipeline updates in place. */
  class Frame {
    var columns: seq<string>
    var data: seq<seq<Cell>>
    var height: nat

    /** The table the object currently holds. */
    function Value(): Table
      reads this
    {
      Table(columns, data, height)
    }

    constructor (t: Table)
      ensures Value() == t
    {
      columns, data, height := t.columns, t.data, t.height;
    }

    /** `df.copy()`: a new object holding the same table. */
    method Copy() returns (f: Frame)
      ensures fresh(f) && f.Value() == Value()
    {
      f := new Frame(Value());
    }

    /** `df.columns = cols` */
    method SetLabels(cols: seq<string>)
      requires |cols| == |columns|
      modifies this
      ensures Value() == old(Value()).(columns := cols)
    {
      columns := cols;
    }

    /** `df[name] = col` */
    method SetColumn(name: string, col: seq<Cell>)
      requires Valid(Value()) && |col| == height
      modifies this
      ensures Value() == WithColumn(old(Value()), name, col)
    {
      var t := WithColumn(Value(), name, col);
      columns, data := t.columns, t.data;
    }

    /** `df = df.rename(columns=d)` */
    method RenameColumns(d: map<string, string>)
      modifies this
      ensures Value() == Rename(old(Value()), d)
    {
      columns := RenameLabels(columns, d);
    }
  }

  /** `if src in df.columns: df[dst] = df[src].map(f)` on the frame. */
  method DeriveColumn(df: Frame, src: string, dst: string, f: Cell -> Cell)
    requires Valid(df.Value())
    modifies df
    ensures df.Value() == Derive(old(df.Value()), src, dst, f)
  {
    if src in df.columns {
      df.SetColumn(dst, MapCells(Column(df.Value(), src), f));
    }
  }

  /** `_clean_columns(df)` (data_loader.py) and the header line of both
      preparation functions: every label of the frame is normalised in
      place. */
  method NormalizeColumns(df: Frame)
    modifies df
    ensures df.Value() == old(df.Value()).(columns := NormalizeLabels(old(df.columns)))
  {
    df.SetLabels(NormalizeLabels(df.columns));
  }
}
