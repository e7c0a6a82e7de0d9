/**
 * The unified column descriptor every connector produces, and the two
 * normalisations that build it: from a relational `information_schema.columns`
 * row, and from one key of a sampled MongoDB document.
 */
module Columns {
  import opened Values

  /**
   * One row of `information_schema.columns` as both relational connectors
   * select it, in ordinal order. `columnDefault` is the text of the column's
   * default expression, absent when the catalogue holds NULL.
   */
  datatype ColumnRow = ColumnRow(
    columnName: string,
    dataType: string,
    isNullable: string,
    columnDefault: Option<string>,
    maxLength: Option<int>)

  /**
   * One key of a sampled document. `typeName` stands for
   * `type(value).__name__` of the key's value.
   */
  datatype Field = Field(key: string, typeName: string)

  /**
   * The descriptor `{column_name, data_type, is_nullable, default_value,
   * max_length}`. `isNullable` is the catalogue's `YES`/`NO` text, copied.
   */
  datatype Column = Column(
    columnName: string,
    dataType: string,
    isNullable: string,
    defaultValue: Option<string>,
    maxLength: Option<int>)

  /** Python truthiness of a fetched default: present and not the empty string. */
  predicate Truthy(d: Option<string>)
  {
    d.Some? && d.value != ""
  }

  /** `str(default) if default else None`. */
  function NormalizeDefault(d: Option<string>): Option<string>
  {
    if Truthy(d) then Some(d.value) else None
  }

  function NormalizeRow(row: ColumnRow): Column
  {
    Column(row.columnName, row.dataType, row.isNullable,
           NormalizeDefault(row.columnDefault), row.maxLength)
  }

  /**
   * The comprehension over the fetched rows: one descriptor per row, in the
   * rows' order.
   */
  function NormalizeRows(rows: seq<ColumnRow>): (cols: seq<Column>)
    ensures |cols| == |rows|
    ensures forall i :: 0 <= i < |rows| ==> cols[i] == NormalizeRow(rows[i])
  {
    if rows == [] then [] else [NormalizeRow(rows[0])] + NormalizeRows(rows[1..])
  }

  /**
   * What normalising a row keeps: every field but the default is copied, the
   * default survives exactly when it is truthy, and it is then unchanged.
   */
  lemma NormalizeRowFields(row: ColumnRow)
    ensures var c := NormalizeRow(row);
      && c.columnName == row.columnName && c.dataType == row.dataType
      && c.isNullable == row.isNullable && c.maxLength == row.maxLength
      && (c.defaultValue.Some? <==> Truthy(row.columnDefault))
      && (c.defaultValue.Some? ==> c.defaultValue == row.columnDefault)
  {
  }

  /**
   * Two rows normalise to the same descriptor exactly when they agree on
   * everything except possibly a default that is falsy in both.
   */
  lemma NormalizeRowForgetsOnlyFalsyDefaults(a: ColumnRow, b: ColumnRow)
    ensures NormalizeRow(a) == NormalizeRow(b) <==>
      && a.columnName == b.columnName && a.dataType == b.dataType
      && a.isNullable == b.isNullable && a.maxLength == b.maxLength
      && (a.columnDefault == b.columnDefault
          || (!Truthy(a.columnDefault) && !Truthy(b.columnDefault)))
  {
  }

  function FieldColumn(f: Field): Column
  {
    Column(f.key, f.typeName, "YES", None, None)
  }

  function FieldColumns(doc: seq<Field>): (cols: seq<Column>)
    ensures |cols| == |doc|
    ensures forall i :: 0 <= i < |doc| ==> cols[i] == FieldColumn(doc[i])
  {
    if doc == [] then [] else [FieldColumn(doc[0])] + FieldColumns(doc[1..])
  }

  /**
   * The columns of a collection from its sampled document (`find_one()`): an
   * empty list when there is no sample or the sample has no keys, otherwise
   * one column per key, in document order.
   */
  function SampleColumns(sample: Option<seq<Field>>): (cols: seq<Column>)
    ensures sample.None? ==> cols == []
    ensures sample.Some? ==> |cols| == |sample.value|
    ensures sample.Some? ==> forall i :: 0 <= i < |cols| ==>
      && cols[i].columnName == sample.value[i].key
      && cols[i].dataType == sample.value[i].typeName
      && cols[i].isNullable == "YES"
      && cols[i].defaultValue.None? && cols[i].maxLength.None?
  {
    if sample.Some? && |sample.value| > 0 then FieldColumns(sample.value) else []
  }

  function OptionalStr(o: Option<string>): Value
  {
    if o.Some? then Str(o.value) else Null
  }

  function OptionalInt(o: Option<int>): Value
  {
    if o.Some? then Int(o.value) else Null
  }

  /** The descriptor as the dictionary the endpoints return and store. */
  function ColumnValue(c: Column): Value
  {
    Dict([("column_name", Str(c.columnName)),
          ("data_type", Str(c.dataType)),
          ("is_nullable", Str(c.isNullable)),
          ("default_value", OptionalStr(c.defaultValue)),
          ("max_length", OptionalInt(c.maxLength))])
  }

  /** A table's column list as a JSON list of descriptor dictionaries. */
  function ColumnsValue(cols: seq<Column>): Value
  {
    List(seq(|cols|, i requires 0 <= i < |cols| => ColumnValue(cols[i])))
  }

  /** Reads a descriptor back from its dictionary form. */
  function DecodeColumn(v: Value): Option<Column>
  {
    if v.Dict? && |v.entries| == 5
       && Keys(v.entries) == ["column_name", "data_type", "is_nullable", "default_value", "max_length"]
       && v.entries[0].1.Str? && v.entries[1].1.Str? && v.entries[2].1.Str?
       && (v.entries[3].1.Str? || v.entries[3].1.Null?)
       && (v.entries[4].1.Int? || v.entries[4].1.Null?)
    then
      Some(Column(v.entries[0].1.s, v.entries[1].1.s, v.entries[2].1.s,
                  if v.entries[3].1.Str? then Some(v.entries[3].1.s) else None,
                  if v.entries[4].1.Int? then Some(v.entries[4].1.i) else None))
    else None
  }

  /** The dictionary form loses nothing: it decodes to the descriptor itself. */
  lemma ColumnValueRoundTrip(c: Column)
    ensures DecodeColumn(ColumnValue(c)) == Some(c)
  {
    var e := ColumnValue(c).entries;
    assert Keys(e) == ["column_name", "data_type", "is_nullable", "default_value", "max_length"];
  }
}
