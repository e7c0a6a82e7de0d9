/**
 * The shape check `set_session_schema` runs on a schema payload before it
 * stores it: every table must map to a list, and every entry of that list
 * must be a dictionary with a `column_name` key. The first offending entry,
 * in iteration order, decides the 400 error.
 */
module SchemaCheck {
  import opened Values
  import opened Decimal
  import opened Columns

  predicate ColumnOk(v: Value)
  {
    v.Dict? && "column_name" in Keys(v.entries)
  }

  predicate TableOk(v: Value)
  {
    v.List? && forall j :: 0 <= j < |v.items| ==> ColumnOk(v.items[j])
  }

  predicate SchemaOk(payload: seq<(string, Value)>)
  {
    forall i :: 0 <= i < |payload| ==> TableOk(payload[i].1)
  }

  /** `j` is the first entry at or after `from` that is not a valid column. */
  predicate FirstBadColumn(items: seq<Value>, from: nat, j: int)
  {
    from <= j < |items| && !ColumnOk(items[j]) && forall k :: from <= k < j ==> ColumnOk(items[k])
  }

  /** `i` is the first table at or after `from` whose value is malformed. */
  predicate FirstBadTable(payload: seq<(string, Value)>, from: nat, i: int)
  {
    from <= i < |payload| && !TableOk(payload[i].1) && forall k :: from <= k < i ==> TableOk(payload[k].1)
  }

  function NotAList(table: string): HttpError
  {
    HttpError(400, "Invalid schema for table " + table + ". Expected a list of columns.")
  }

  function NotADict(table: string, idx: nat): HttpError
  {
    HttpError(400, "Invalid column definition at index " + NatToString(idx) + " in table " + table)
  }

  function NoColumnName(table: string, idx: nat): HttpError
  {
    HttpError(400, "Missing 'column_name' in column at index " + NatToString(idx) + " in table " + table)
  }

  /** The error the entry at `idx` of a table's list raises, if any. */
  function ColumnError(table: string, idx: nat, column: Value): Option<HttpError>
  {
    if !column.Dict? then Some(NotADict(table, idx))
    else if "column_name" !in Keys(column.entries) then Some(NoColumnName(table, idx))
    else None
  }

  /** The first error among the list entries from index `from` on. */
  function ItemsError(table: string, items: seq<Value>, from: nat): Option<HttpError>
    decreases |items| - from
  {
    if from >= |items| then None
    else if ColumnError(table, from, items[from]).Some? then ColumnError(table, from, items[from])
    else ItemsError(table, items, from + 1)
  }

  function TableError(table: string, columns: Value): Option<HttpError>
  {
    if !columns.List? then Some(NotAList(table)) else ItemsError(table, columns.items, 0)
  }

  /** The first error among the tables from position `from` on. */
  function SchemaError(payload: seq<(string, Value)>, from: nat): Option<HttpError>
    decreases |payload| - from
  {
    if from >= |payload| then None
    else if TableError(payload[from].0, payload[from].1).Some? then TableError(payload[from].0, payload[from].1)
    else SchemaError(payload, from + 1)
  }

  /**
   * The nested loops of `set_session_schema` that return at the first
   * offending entry.
   */
  method ValidateSchema(payload: seq<(string, Value)>) returns (err: Option<HttpError>)
    ensures err == SchemaError(payload, 0)
  {
    var i := 0;
    while i < |payload|
      invariant 0 <= i <= |payload|
      invariant SchemaError(payload, 0) == SchemaError(payload, i)
    {
      var (table, columns) := payload[i];
      if !columns.List? {
        return Some(NotAList(table));
      }
      var items := columns.items;
      var j := 0;
      while j < |items|
        invariant 0 <= j <= |items|
        invariant ItemsError(table, items, 0) == ItemsError(table, items, j)
      {
        var column := items[j];
        if !column.Dict? {
          return Some(NotADict(table, j));
        }
        if "column_name" !in Keys(column.entries) {
          return Some(NoColumnName(table, j));
        }
        j := j + 1;
      }
      i := i + 1;
    }
    return None;
  }

  lemma {:induction false} ItemsErrorSpec(table: string, items: seq<Value>, from: nat)
    requires from <= |items|
    ensures ItemsError(table, items, from).None? <==>
      forall j :: from <= j < |items| ==> ColumnOk(items[j])
    decreases |items| - from
  {
    if from < |items| {
      ItemsErrorSpec(table, items, from + 1);
    }
  }

  lemma {:induction false} ItemsErrorFirst(table: string, items: seq<Value>, from: nat, j: int)
    requires FirstBadColumn(items, from, j)
    ensures ItemsError(table, items, from) == ColumnError(table, j, items[j])
    decreases |items| - from
  {
    if from < j {
      ItemsErrorFirst(table, items, from + 1, j);
    }
  }

  /**
   * A table's value passes exactly when it is a list of dictionaries that
   * all carry `column_name`; otherwise the error names the table, and for a
   * list the index of its first bad entry.
   */
  lemma TableErrorSpec(table: string, columns: Value)
    ensures TableError(table, columns).None? <==> TableOk(columns)
    ensures !columns.List? ==> TableError(table, columns) == Some(NotAList(table))
    ensures columns.List? ==> forall j :: FirstBadColumn(columns.items, 0, j) ==>
      TableError(table, columns) == ColumnError(table, j, columns.items[j])
  {
    if columns.List? {
      ItemsErrorSpec(table, columns.items, 0);
      forall j | FirstBadColumn(columns.items, 0, j)
        ensures TableError(table, columns) == ColumnError(table, j, columns.items[j])
      {
        ItemsErrorFirst(table, columns.items, 0, j);
      }
    }
  }

  lemma {:induction false} SchemaErrorFrom(payload: seq<(string, Value)>, from: nat)
    requires from <= |payload|
    ensures SchemaError(payload, from).None? <==>
      forall i :: from <= i < |payload| ==> TableOk(payload[i].1)
    ensures forall i :: FirstBadTable(payload, from, i) ==>
      SchemaError(payload, from) == TableError(payload[i].0, payload[i].1)
    decreases |payload| - from
  {
    if from < |payload| {
      TableErrorSpec(payload[from].0, payload[from].1);
      SchemaErrorFrom(payload, from + 1);
    }
  }

  /**
   * The payload is accepted exactly when every table is well formed; when it
   * is not, the error is the first offending table's, and it is a 400.
   */
  lemma SchemaErrorSpec(payload: seq<(string, Value)>)
    ensures SchemaError(payload, 0).None? <==> SchemaOk(payload)
    ensures forall i :: FirstBadTable(payload, 0, i) ==>
      SchemaError(payload, 0) == TableError(payload[i].0, payload[i].1)
    ensures SchemaError(payload, 0).Some? ==> SchemaError(payload, 0).value.status == 400
  {
    SchemaErrorFrom(payload, 0);
    SchemaErrorStatus(payload, 0);
  }

  lemma {:induction false} SchemaErrorStatus(payload: seq<(string, Value)>, from: nat)
    ensures SchemaError(payload, from).Some? ==> SchemaError(payload, from).value.status == 400
    decreases |payload| - from
  {
    if from < |payload| {
      var (table, columns) := payload[from];
      if columns.List? {
        ItemsErrorStatus(table, columns.items, 0);
      }
      SchemaErrorStatus(payload, from + 1);
    }
  }

  lemma {:induction false} ItemsErrorStatus(table: string, items: seq<Value>, from: nat)
    ensures ItemsError(table, items, from).Some? ==> ItemsError(table, items, from).value.status == 400
    decreases |items| - from
  {
    if from < |items| {
      ItemsErrorStatus(table, items, from + 1);
    }
  }

  /**
   * A column list a connector produces is a well-formed table value, so a
   * flat `schema_info` (MySQL, MongoDB) can be posted back unchanged.
   */
  lemma ColumnsValueIsValidTable(table: string, cols: seq<Column>)
    ensures TableOk(ColumnsValue(cols))
    ensures TableError(table, ColumnsValue(cols)) == None
  {
    var v := ColumnsValue(cols);
    forall j | 0 <= j < |v.items| ensures ColumnOk(v.items[j]) {
      assert Keys(v.items[j].entries)[0] == "column_name";
    }
    TableErrorSpec(table, v);
  }
}
