/** IndexDataStep of snapshot creation: the rows of each snapshot table are
    sent to a search index with their fields renamed into the table's
    namespace, and each table gets a field mapping built from its column
    types. The search client itself is not modelled: a bulk request is the
    value that would be sent. */
module IndexData {
  import opened Common
  import opened Strings

  /** A field value read from a table row. */
  datatype FieldValue = StringValue(s: string) | IntValue(i: int) | NullValue {
    /** toString(); a null value has none (NullPointerException). */
    function ToString(): Option<string> {
      match this
      case StringValue(s) => Some(s)
      case IntValue(i) => Some(IntToString(i))
      case NullValue => None
    }
  }

  type Row = map<string, FieldValue>

  datatype IndexError =
    | NullFieldValue      // Collectors.toMap refuses a null value
    | MissingRowId        // v.get("datarepo_row_id").toString() on null
    | UnknownColumnType(message: string)   // PdaoException
    | DuplicateColumn(key: string)          // Collectors.toMap on a repeated key

  const RowIdKey := "datarepo_row_id"
  const TypeKey := "type"

  /** The key a field is stored under: the row id and the type keep their
      names, every other key k becomes "<table>.k". */
  function NamespacedKey(table: string, key: string): string {
    if key == RowIdKey || key == TypeKey then key else table + "." + key
  }

  /** Different fields keep different keys: a namespaced key holds a '.',
      which neither kept key does. */
  lemma NamespacedKeyInjective(table: string, k1: string, k2: string)
    requires NamespacedKey(table, k1) == NamespacedKey(table, k2)
    ensures k1 == k2
  {
    assert forall i :: 0 <= i < |RowIdKey| ==> RowIdKey[i] != '.';
    assert forall i :: 0 <= i < |TypeKey| ==> TypeKey[i] != '.';
    if k1 != RowIdKey && k1 != TypeKey {
      assert NamespacedKey(table, k1)[|table|] == '.';
    }
    if k2 != RowIdKey && k2 != TypeKey {
      assert NamespacedKey(table, k2)[|table|] == '.';
    }
    if k1 != RowIdKey && k1 != TypeKey && k2 != RowIdKey && k2 != TypeKey {
      assert k1 == NamespacedKey(table, k1)[|table| + 1..];
      assert k2 == NamespacedKey(table, k2)[|table| + 1..];
    }
  }

  /** NamespacedKeyInjective for all pairs of keys at once. */
  lemma NamespacedKeysInjective(table: string)
    ensures forall k1, k2 :: NamespacedKey(table, k1) == NamespacedKey(table, k2) ==> k1 == k2
  {
    forall k1, k2 | NamespacedKey(table, k1) == NamespacedKey(table, k2)
      ensures k1 == k2
    {
      NamespacedKeyInjective(table, k1, k2);
    }
  }

  /** The row with the "type" field set to the table name. */
  function Typed(table: string, row: Row): Row {
    row[TypeKey := StringValue(table)]
  }

  /** The source of one row's index request, or the error that stops the
      table: the lambda of doStep's `map`. */
  function NamespaceRow(table: string, row: Row): (r: Result<Row, IndexError>)
    ensures r.Err? <==> exists k :: k in Typed(table, row) && Typed(table, row)[k] == NullValue
  {
    var typed := Typed(table, row);
    if exists k :: k in typed && typed[k] == NullValue then Err(NullFieldValue)
    else
      NamespacedKeysInjective(table);
      Ok(map k | k in typed :: NamespacedKey(table, k) := typed[k])
  }

  /** The renamed row has the "type" field equal to the table name, one key
      per field of the typed row, and carries every value over unchanged. */
  lemma NamespaceRowShape(table: string, row: Row)
    requires NamespaceRow(table, row).Ok?
    ensures var src := NamespaceRow(table, row).value; var typed := Typed(table, row);
      && src[TypeKey] == StringValue(table)
      && src.Keys == (set k | k in typed :: NamespacedKey(table, k))
      && (forall k :: k in typed ==> src[NamespacedKey(table, k)] == typed[k])
      && (RowIdKey in row ==> RowIdKey in src && src[RowIdKey] == row[RowIdKey])
  {
    var src := NamespaceRow(table, row).value;
    var typed := Typed(table, row);
    forall k | k in typed
      ensures src[NamespacedKey(table, k)] == typed[k]
    {
      var k' :| k' in typed && NamespacedKey(table, k') == NamespacedKey(table, k) && src[NamespacedKey(table, k)] == typed[k'];
      NamespacedKeyInjective(table, k', k);
    }
    assert NamespacedKey(table, TypeKey) == TypeKey;
    assert NamespacedKey(table, RowIdKey) == RowIdKey;
  }

  /** One document of a bulk request. */
  datatype IndexRequest = IndexRequest(index: string, id: string, source: Row)

  /** The request for one row: its id is the row's datarepo_row_id. */
  function RowRequest(indexName: string, table: string, row: Row): (r: Result<IndexRequest, IndexError>)
  {
    var src :- NamespaceRow(table, row);
    if RowIdKey !in src || src[RowIdKey].ToString().None? then Err(MissingRowId)
    else Ok(IndexRequest(indexName, src[RowIdKey].ToString().value, src))
  }

  /** The requests for `rows`, in order, or the error of the first row
      that has one. */
  function RowRequests(indexName: string, table: string, rows: seq<Row>): Result<seq<IndexRequest>, IndexError> {
    if rows == [] then Ok([])
    else
      var init :- RowRequests(indexName, table, rows[..|rows| - 1]);
      var last :- RowRequest(indexName, table, rows[|rows| - 1]);
      Ok(init + [last])
  }

  /** `req` is the request for `row`: it goes to `indexName`, carries the
      row's renamed fields and is keyed by the row's id. */
  predicate RequestFor(indexName: string, table: string, row: Row, req: IndexRequest) {
    && NamespaceRow(table, row).Ok?
    && req.source == NamespaceRow(table, row).value
    && req.index == indexName
    && RowIdKey in req.source
    && Some(req.id) == req.source[RowIdKey].ToString()
  }

  /** A successful request for one row is the request for that row. */
  lemma RowRequestOk(indexName: string, table: string, row: Row)
    requires RowRequest(indexName, table, row).Ok?
    ensures RequestFor(indexName, table, row, RowRequest(indexName, table, row).value)
  {
  }

  /** Each request carries the row's id and its renamed fields. */
  lemma {:induction false} RowRequestsAt(indexName: string, table: string, rows: seq<Row>)
    requires RowRequests(indexName, table, rows).Ok?
    ensures var reqs := RowRequests(indexName, table, rows).value;
      && |reqs| == |rows|
      && forall i :: 0 <= i < |rows| ==> RequestFor(indexName, table, rows[i], reqs[i])
  {
    if rows != [] {
      var init := rows[..|rows| - 1];
      var row := rows[|rows| - 1];
      RowRequestsAt(indexName, table, init);
      RowRequestOk(indexName, table, row);
      var prev := RowRequests(indexName, table, init).value;
      var last := RowRequest(indexName, table, row).value;
      var reqs := RowRequests(indexName, table, rows).value;
      assert reqs == prev + [last];
      forall i | 0 <= i < |rows|
        ensures RequestFor(indexName, table, rows[i], reqs[i])
      {
        if i < |init| {
          assert rows[i] == init[i] && reqs[i] == prev[i];
        }
      }
    }
  }

  /** The loop of doStep over one table: builds the bulk request row by row
      and sends it (returns it) unless the table has no rows. */
  method IndexTableData(indexName: string, table: string, rows: seq<Row>) returns (r: Result<Option<seq<IndexRequest>>, IndexError>)
    ensures RowRequests(indexName, table, rows).Err? ==> r == Err(RowRequests(indexName, table, rows).error)
    ensures RowRequests(indexName, table, rows).Ok? ==> r.Ok?
    ensures r.Ok? ==> (r.value.None? <==> rows == [])
    ensures r.Ok? && r.value.Some? ==> r.value.value == RowRequests(indexName, table, rows).value
  {
    var request: seq<IndexRequest> := [];
    var i := 0;
    while i < |rows|
      invariant 0 <= i <= |rows|
      invariant RowRequests(indexName, table, rows[..i]) == Ok(request)
    {
      RowRequestsStep(indexName, table, rows, i);
      var one := RowRequest(indexName, table, rows[i]);
      if one.Err? {
        PrefixFails(indexName, table, rows, i + 1);
        return Err(one.error);
      }
      request := request + [one.value];
      i := i + 1;
    }
    assert rows[..i] == rows;
    if rows == [] {
      return Ok(None);
    }
    return Ok(Some(request));
  }

  /** RowRequests of one more row, given those of the rows before it. */
  lemma RowRequestsStep(indexName: string, table: string, rows: seq<Row>, i: nat)
    requires i < |rows| && RowRequests(indexName, table, rows[..i]).Ok?
    ensures RowRequest(indexName, table, rows[i]).Err? ==>
      RowRequests(indexName, table, rows[..i + 1]) == Err(RowRequest(indexName, table, rows[i]).error)
    ensures RowRequest(indexName, table, rows[i]).Ok? ==>
      RowRequests(indexName, table, rows[..i + 1]) ==
        Ok(RowRequests(indexName, table, rows[..i]).value + [RowRequest(indexName, table, rows[i]).value])
  {
    assert rows[..i + 1][..i] == rows[..i];
    assert rows[..i + 1][i] == rows[i];
  }

  /** An error in the first `n` rows is the error of the whole table. */
  lemma {:induction false} PrefixFails(indexName: string, table: string, rows: seq<Row>, n: nat)
    requires n <= |rows| && RowRequests(indexName, table, rows[..n]).Err?
    ensures RowRequests(indexName, table, rows) == RowRequests(indexName, table, rows[..n])
  {
    if n < |rows| {
      var init := rows[..|rows| - 1];
      assert init[..n] == rows[..n];
      PrefixFails(indexName, table, init, n);
    } else {
      assert rows[..n] == rows;
    }
  }

  /** The search-index field types of the mapping. */
  datatype FieldMapping = Text | Date | Integer | Keyword

  /** The mapping of one column type, compared upper-cased; no type at all
      is text. */
  function ColumnMapping(columnType: Option<string>): (r: Result<FieldMapping, IndexError>)
    ensures r.Err? <==> columnType.Some? && ToUpper(columnType.value) !in {"STRING", "FILE_REF", "DATE", "INTEGER"}
    ensures r.Err? ==> columnType.Some? && r.error == UnknownColumnType("Didn't recognize type " + columnType.value)
  {
    if columnType.None? then Ok(Text)
    else
      var upper := ToUpper(columnType.value);
      if upper == "STRING" || upper == "FILE_REF" then Ok(Text)
      else if upper == "DATE" then Ok(Date)
      else if upper == "INTEGER" then Ok(Integer)
      else Err(UnknownColumnType("Didn't recognize type " + columnType.value))
  }

  /** Type names that differ only in case map alike. */
  lemma ColumnMappingIgnoresCase(a: string, b: string)
    requires ToUpper(a) == ToUpper(b)
    ensures ColumnMapping(Some(a)).Ok? <==> ColumnMapping(Some(b)).Ok?
    ensures ColumnMapping(Some(a)).Ok? ==> ColumnMapping(Some(a)) == ColumnMapping(Some(b))
  {
  }

  /** Column types written in any case: no type and STRING are text, and a
      type not in the table is refused. */
  lemma ColumnMappingText()
    ensures ColumnMapping(None) == Ok(Text)
    ensures ColumnMapping(Some("string")) == Ok(Text)
    ensures ColumnMapping(Some("float")).Err?
  {
    UpperOf("string", "STRING");
    UpperOf("float", "FLOAT");
  }

  /** Column types written in any case: DATE is date and INTEGER is integer. */
  lemma ColumnMappingTyped()
    ensures ColumnMapping(Some("date")) == Ok(Date)
    ensures ColumnMapping(Some("Integer")) == Ok(Integer)
  {
    UpperOf("date", "DATE");
    UpperOf("Integer", "INTEGER");
  }

  /** A file reference column, in any case, is text. */
  lemma ColumnMappingFileRef()
    ensures ColumnMapping(Some("File_Ref")) == Ok(Text)
  {
    UpperOf("File_Ref", "FILE_REF");
  }

  /** `u` is `s` upper-cased, character by character. */
  lemma UpperOf(s: string, u: string)
    requires |s| == |u| && forall i :: 0 <= i < |s| ==> ToUpperChar(s[i]) == u[i]
    ensures ToUpper(s) == u
  {
    ToUpperAt(s);
  }

  datatype Column = Column(name: string, columnType: Option<string>)

  /** The mapping key of a column. */
  function ColumnKey(table: string, c: Column): string {
    table + "." + c.name
  }

  /** The stream of createMapping over `columns`, with the keys `seen` of the
      columns before them: each column's key, then its mapping, then the
      check that its key is new. */
  function ColumnProperties(table: string, columns: seq<Column>, acc: map<string, FieldMapping>): (r: Result<map<string, FieldMapping>, IndexError>)
    decreases |columns|
  {
    if columns == [] then Ok(acc)
    else
      var key := ColumnKey(table, columns[0]);
      var mapping :- ColumnMapping(columns[0].columnType);
      if key in acc then Err(DuplicateColumn(key))
      else ColumnProperties(table, columns[1..], acc[key := mapping])
  }

  /** createMapping's properties: the column mappings, then "type" and
      "datarepo_row_id" as keyword. */
  function CreateMapping(table: string, columns: seq<Column>): Result<map<string, FieldMapping>, IndexError> {
    var properties :- ColumnProperties(table, columns, map[]);
    Ok(properties[TypeKey := Keyword][RowIdKey := Keyword])
  }

  /** Every column type is one createMapping knows. */
  predicate TypesKnown(columns: seq<Column>) {
    forall i :: 0 <= i < |columns| ==> ColumnMapping(columns[i].columnType).Ok?
  }

  /** No two columns share a name. */
  predicate NamesDistinct(columns: seq<Column>) {
    forall i, j :: 0 <= i < j < |columns| ==> columns[i].name != columns[j].name
  }

  /** No column's key is among the keys already collected. */
  predicate KeysFresh(table: string, columns: seq<Column>, acc: map<string, FieldMapping>) {
    forall i :: 0 <= i < |columns| ==> ColumnKey(table, columns[i]) !in acc
  }

  /** The column mappings fail exactly when a column type is unknown or two
      columns share a name. */
  lemma {:induction false} ColumnPropertiesOk(table: string, columns: seq<Column>, acc: map<string, FieldMapping>)
    ensures ColumnProperties(table, columns, acc).Ok? <==>
      TypesKnown(columns) && NamesDistinct(columns) && KeysFresh(table, columns, acc)
  {
    if columns != [] {
      var c0 := columns[0];
      var key := ColumnKey(table, c0);
      if ColumnMapping(c0.columnType).Ok? && key !in acc {
        var acc' := acc[key := ColumnMapping(c0.columnType).value];
        ColumnPropertiesOk(table, columns[1..], acc');
        assert forall i :: 1 <= i < |columns| ==> columns[1..][i - 1] == columns[i];
        forall i | 1 <= i < |columns|
          ensures ColumnKey(table, columns[i]) in acc' <==> ColumnKey(table, columns[i]) in acc || columns[i].name == c0.name
        {
          ColumnKeyInjective(table, columns[i], c0);
        }
      }
    }
  }

  /** When they succeed, the column mappings hold one key per column
      besides the keys collected before. */
  lemma {:induction false} ColumnPropertiesKeys(table: string, columns: seq<Column>, acc: map<string, FieldMapping>)
    requires ColumnProperties(table, columns, acc).Ok?
    ensures ColumnProperties(table, columns, acc).value.Keys == acc.Keys + (set c | c in columns :: ColumnKey(table, c))
  {
    if columns != [] {
      var key := ColumnKey(table, columns[0]);
      ColumnPropertiesKeys(table, columns[1..], acc[key := ColumnMapping(columns[0].columnType).value]);
      assert (set c | c in columns :: ColumnKey(table, c)) == {key} + (set c | c in columns[1..] :: ColumnKey(table, c));
    }
  }

  /** When they succeed, the column mappings map each column's key to the
      mapping of its type and keep the keys collected before. */
  lemma {:induction false} ColumnPropertiesValues(table: string, columns: seq<Column>, acc: map<string, FieldMapping>)
    requires ColumnProperties(table, columns, acc).Ok?
    ensures var m := ColumnProperties(table, columns, acc).value;
      && (forall c :: c in columns ==> ColumnMapping(c.columnType).Ok? && ColumnKey(table, c) in m && m[ColumnKey(table, c)] == ColumnMapping(c.columnType).value)
      && (forall k :: k in acc ==> k in m && m[k] == acc[k])
  {
    if columns != [] {
      var c0 := columns[0];
      var key := ColumnKey(table, c0);
      var acc' := acc[key := ColumnMapping(c0.columnType).value];
      ColumnPropertiesValues(table, columns[1..], acc');
      ColumnPropertiesOk(table, columns, acc);
      forall c | c in columns[1..]
        ensures ColumnKey(table, c) != key
      {
        var i :| 0 <= i < |columns[1..]| && columns[1..][i] == c;
        assert columns[i + 1] == c;
        ColumnKeyInjective(table, c, c0);
      }
    }
  }

  lemma ColumnKeyInjective(table: string, a: Column, b: Column)
    ensures ColumnKey(table, a) == ColumnKey(table, b) <==> a.name == b.name
  {
    if ColumnKey(table, a) == ColumnKey(table, b) {
      assert a.name == ColumnKey(table, a)[|table| + 1..];
      assert b.name == ColumnKey(table, b)[|table| + 1..];
    }
  }

  /** A column key holds a '.', so it is never one of the two keyword keys. */
  lemma ColumnKeyNotKept(table: string, c: Column)
    ensures ColumnKey(table, c) != TypeKey && ColumnKey(table, c) != RowIdKey
  {
    assert forall i :: 0 <= i < |RowIdKey| ==> RowIdKey[i] != '.';
    assert forall i :: 0 <= i < |TypeKey| ==> TypeKey[i] != '.';
    assert ColumnKey(table, c)[|table|] == '.';
  }

  /** createMapping succeeds exactly when every column type is known and the
      column names are distinct; its properties are then the column keys
      with their mappings plus "type" and "datarepo_row_id" as keyword. */
  lemma CreateMappingShape(table: string, columns: seq<Column>)
    ensures CreateMapping(table, columns).Ok? <==> TypesKnown(columns) && NamesDistinct(columns)
    ensures CreateMapping(table, columns).Ok? ==>
      var m := CreateMapping(table, columns).value;
      && m.Keys == {TypeKey, RowIdKey} + (set c | c in columns :: ColumnKey(table, c))
      && m[TypeKey] == Keyword && m[RowIdKey] == Keyword
      && forall c :: c in columns ==> ColumnMapping(c.columnType).Ok? && m[ColumnKey(table, c)] == ColumnMapping(c.columnType).value
  {
    ColumnPropertiesOk(table, columns, map[]);
    if CreateMapping(table, columns).Ok? {
      ColumnPropertiesKeys(table, columns, map[]);
      ColumnPropertiesValues(table, columns, map[]);
      forall c | c in columns
        ensures ColumnKey(table, c) != TypeKey && ColumnKey(table, c) != RowIdKey
      {
        ColumnKeyNotKept(table, c);
      }
    }
  }
}
