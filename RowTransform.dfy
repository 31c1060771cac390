/**
 * Turning one SQLite row into the column/value data of a PostgreSQL INSERT:
 * rename each column, drop those the destination table lacks, convert the
 * values of boolean columns, and lay out the aligned column, placeholder
 * and value lists of the statement.
 */
module RowTransform {
  import opened Schema
  import opened ColumnNames
  import opened OrderedDict

  /** A value read from SQLite, restricted to the kinds the driver treats differently. */
  datatype Value = Null | Integer(i: int) | Text(s: string) | Boolean(b: bool)

  /** One SQLite row: its column names in table order, each with its value. */
  type Row = seq<(string, Value)>

  /** Python's truthiness (`bool(value)`) on the modelled kinds of value. */
  function Truthy(v: Value): (r: bool)
    ensures !r <==> v in {Null, Integer(0), Text(""), Boolean(false)}
  {
    match v
    case Null => false
    case Integer(i) => i != 0
    case Text(s) => s != ""
    case Boolean(b) => b
  }

  /** The value written to destination column `column`: a non-null value of a
      boolean column becomes its truthiness; everything else is unchanged
      (the JSON check on text values never alters them). */
  function Coerce(column: string, v: Value): (r: Value)
    ensures v == Null ==> r == Null
    ensures column !in BOOLEAN_COLUMNS ==> r == v
    ensures column in BOOLEAN_COLUMNS && v != Null ==> r.Boolean? && (r.b <==> Truthy(v))
  {
    if column in BOOLEAN_COLUMNS && v != Null then Boolean(Truthy(v)) else v
  }

  /** No JSON column is a boolean column, so JSON values pass through untouched. */
  lemma JsonColumnsPassThrough(column: string, v: Value)
    requires column in JSON_COLUMNS
    ensures Coerce(column, v) == v
  {
    assert "staticData"[1] != "systemRole"[1];
  }

  /** The `data` dict the driver builds from `row`, one source column at a
      time, for a table whose rename map is `renames` and whose destination
      table has columns `destColumns`. */
  function Transformed(renames: map<string, string>, destColumns: seq<string>, row: Row): (data: Dict<string, Value>)
    ensures DistinctKeys(data)
    ensures forall k :: k in Keys(data) ==> k in destColumns
  {
    if row == [] then []
    else
      var data := Transformed(renames, destColumns, row[..|row| - 1]);
      var column := Rename(renames, row[|row| - 1].0);
      if column in destColumns then
        PutKeepsKeysDistinct(data, column, Coerce(column, row[|row| - 1].1));
        Put(data, column, Coerce(column, row[|row| - 1].1))
      else data
  }

  /** The loop of the driver that fills `data` for one row of `table`. */
  method BuildRowData(table: string, destColumns: seq<string>, row: Row) returns (data: Dict<string, Value>)
    ensures data == Transformed(RenamesOf(table), destColumns, row)
  {
    data := [];
    for i := 0 to |row|
      invariant data == Transformed(RenamesOf(table), destColumns, row[..i])
    {
      assert row[..i + 1][..i] == row[..i];
      var (name, value) := row[i];
      var column := MapColumnName(table, name);
      if column in destColumns {
        value := Coerce(column, value);
        data := Put(data, column, value);
      }
    }
    assert row[..|row|] == row;
  }

  /** A destination column is in `data` exactly when some source column is
      renamed to it and the destination table has it. */
  lemma {:induction false} TransformedColumns(renames: map<string, string>, destColumns: seq<string>, row: Row)
    ensures forall j :: 0 <= j < |row| && Rename(renames, row[j].0) in destColumns ==>
      Rename(renames, row[j].0) in Keys(Transformed(renames, destColumns, row))
    ensures forall k :: k in Keys(Transformed(renames, destColumns, row)) ==>
      k in destColumns && exists j :: 0 <= j < |row| && Rename(renames, row[j].0) == k
  {
    if row != [] {
      var init := row[..|row| - 1];
      TransformedColumns(renames, destColumns, init);
      forall j | 0 <= j < |row| - 1
        ensures row[j] == init[j]
      {
      }
    }
  }

  /** The row is left with no data exactly when none of its columns, once
      renamed, exists in the destination table. */
  lemma TransformedEmpty(renames: map<string, string>, destColumns: seq<string>, row: Row)
    ensures Transformed(renames, destColumns, row) == [] <==>
      forall j :: 0 <= j < |row| ==> Rename(renames, row[j].0) !in destColumns
  {
    TransformedColumns(renames, destColumns, row);
    var data := Transformed(renames, destColumns, row);
    if data != [] {
      assert data[0].0 in Keys(data);
    }
  }

  /** The value stored under a kept column is the converted value of the last
      source column renamed to it. */
  lemma {:induction false} TransformedValue(renames: map<string, string>, destColumns: seq<string>, row: Row, j: nat)
    requires j < |row| && Rename(renames, row[j].0) in destColumns
    requires forall j' :: j < j' < |row| ==> Rename(renames, row[j'].0) != Rename(renames, row[j].0)
    ensures Rename(renames, row[j].0) in Keys(Transformed(renames, destColumns, row))
    ensures Get(Transformed(renames, destColumns, row), Rename(renames, row[j].0))
         == Coerce(Rename(renames, row[j].0), row[j].1)
  {
    var init := row[..|row| - 1];
    if j < |row| - 1 {
      assert init[j] == row[j];
      forall j' | j < j' < |init|
        ensures Rename(renames, init[j'].0) != Rename(renames, init[j].0)
      {
        assert init[j'] == row[j'];
      }
      TransformedValue(renames, destColumns, init, j);
    }
  }

  /** In a SQLite table no two column names differ only in letter case; then,
      as every rename map only restores letter case, no two columns are
      renamed to the same destination column, and each kept column carries
      the converted value of its own source column. */
  lemma TransformedValueOfDistinctColumns(table: string, destColumns: seq<string>, row: Row, j: nat)
    requires forall a, b :: 0 <= a < b < |row| ==> Lower(row[a].0) != Lower(row[b].0)
    requires j < |row| && MapColumnName(table, row[j].0) in destColumns
    ensures MapColumnName(table, row[j].0) in Keys(Transformed(RenamesOf(table), destColumns, row))
    ensures Get(Transformed(RenamesOf(table), destColumns, row), MapColumnName(table, row[j].0))
         == Coerce(MapColumnName(table, row[j].0), row[j].1)
  {
    var renames := RenamesOf(table);
    RenamesOfCaseOnly(table);
    forall j' | j < j' < |row|
      ensures Rename(renames, row[j'].0) != Rename(renames, row[j].0)
    {
      RenameChangesCaseOnly(renames, row[j].0);
      RenameChangesCaseOnly(renames, row[j'].0);
    }
    TransformedValue(renames, destColumns, row, j);
  }

  /** The parameterised INSERT statement for a table: the column names, one
      `%s` placeholder per column, and the values to bind. */
  datatype Insert = Insert(table: string, columns: seq<string>, placeholders: seq<string>, values: seq<Value>)

  /** With distinct keys, each entry's value is what a lookup of its key yields. */
  lemma GetAll(data: Dict<string, Value>)
    requires DistinctKeys(data)
    ensures forall i :: 0 <= i < |data| ==> Get(data, Keys(data)[i]) == data[i].1
  {
    forall i | 0 <= i < |data|
      ensures Get(data, Keys(data)[i]) == data[i].1
    {
      GetAt(data, i);
    }
  }

  /** The statement built from `data`: columns, placeholders and values have
      one entry per kept column, and the i-th value is bound to the i-th
      column. */
  function InsertFor(table: string, data: Dict<string, Value>): (ins: Insert)
    requires DistinctKeys(data)
    ensures ins.table == table
    ensures |ins.columns| == |ins.placeholders| == |ins.values| == |data|
    ensures forall i :: 0 <= i < |data| ==>
      ins.placeholders[i] == "%s" && ins.columns[i] == data[i].0 && ins.values[i] == data[i].1
  {
    GetAll(data);
    var columns := Keys(data);
    var placeholders := seq(|columns|, _ => "%s");
    var values := seq(|columns|, i requires 0 <= i < |columns| => Get(data, columns[i]));
    Insert(table, columns, placeholders, values)
  }
}
