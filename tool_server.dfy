/**
 * The MCP tool server: two integer tools, a greeting, and two tools that
 * flatten AWS Glue `get_table` / `get_tables` answers into fixed-shape
 * records, each field taking a default when the answer lacks it.
 *
 * Glue is an input: a function from the request to its answer, or to the
 * text of the exception the call raised.
 */
module ToolServer {
  import opened Basics
  import opened Text

  // ---------------------------------------------------------------------------
  // Arithmetic and the greeting
  // ---------------------------------------------------------------------------

  /** `add_numbers`; Python integers are unbounded, and so are these. */
  function AddNumbers(a: int, b: int): (r: int)
    ensures r - b == a && r - a == b
  {
    a + b
  }

  /** `multiply_numbers`. */
  function MultiplyNumbers(a: int, b: int): int {
    a * b
  }

  /** `a` added `n` times, with `add_numbers`. */
  function RepeatedAdd(a: int, n: nat): int {
    if n == 0 then 0 else AddNumbers(RepeatedAdd(a, n - 1), a)
  }

  /** Multiplying by a count is adding that many times. */
  lemma {:induction false} MultiplyIsRepeatedAdd(a: int, n: nat)
    ensures MultiplyNumbers(a, n) == RepeatedAdd(a, n)
  {
    if n > 0 {
      MultiplyIsRepeatedAdd(a, n - 1);
      assert a * n == a * (n - 1) + a;
    }
  }

  /** Both tools are symmetric in their arguments. */
  lemma ToolsCommute(a: int, b: int)
    ensures AddNumbers(a, b) == AddNumbers(b, a)
    ensures MultiplyNumbers(a, b) == MultiplyNumbers(b, a)
  {
  }

  const GreetingPrefix := "Hello, "
  const GreetingSuffix := "! Nice to meet you."

  /** `greet_user`. */
  function GreetUser(name: string): string {
    GreetingPrefix + name + GreetingSuffix
  }

  /** The name a greeting addresses. */
  function NameOfGreeting(greeting: string): Option<string> {
    if |GreetingPrefix| + |GreetingSuffix| <= |greeting|
      && StartsWith(greeting, GreetingPrefix)
      && greeting[|greeting| - |GreetingSuffix|..] == GreetingSuffix
    then Some(greeting[|GreetingPrefix|..|greeting| - |GreetingSuffix|])
    else None
  }

  /** Every greeting names exactly the user it greets, so different users get
      different greetings. */
  lemma GreetUserRoundTrip(name: string)
    ensures NameOfGreeting(GreetUser(name)) == Some(name)
  {
    var g := GreetUser(name);
    assert g[..|GreetingPrefix|] == GreetingPrefix;
    assert g[|g| - |GreetingSuffix|..] == GreetingSuffix;
    assert g[|GreetingPrefix|..|g| - |GreetingSuffix|] == name;
  }

  lemma GreetUserInjective(a: string, b: string)
    requires GreetUser(a) == GreetUser(b)
    ensures a == b
  {
    GreetUserRoundTrip(a);
    GreetUserRoundTrip(b);
  }

  // ---------------------------------------------------------------------------
  // Glue answers
  // ---------------------------------------------------------------------------

  /** A column or partition key as Glue describes it; `None` is an absent key. */
  datatype GlueColumn = GlueColumn(name: Option<string>, columnType: Option<string>, comment: Option<string>)

  datatype SerdeInfo = SerdeInfo(serializationLibrary: Option<string>, parameters: Option<map<string, string>>)

  datatype StorageDescriptor = StorageDescriptor(
    columns: Option<seq<GlueColumn>>,
    location: Option<string>,
    inputFormat: Option<string>,
    outputFormat: Option<string>,
    serdeInfo: Option<SerdeInfo>,
    compressed: Option<bool>,
    parameters: Option<map<string, string>>)

  /** A point in time, by its `isoformat()` text. */
  datatype Timestamp = Timestamp(iso: string)

  datatype GlueTable = GlueTable(
    name: Option<string>,
    storageDescriptor: Option<StorageDescriptor>,
    partitionKeys: Option<seq<GlueColumn>>,
    parameters: Option<map<string, string>>,
    createdBy: Option<string>,
    createTime: Option<Timestamp>,
    lastAnalyzedTime: Option<Timestamp>,
    lastAccessTime: Option<Timestamp>,
    tableType: Option<string>,
    retention: Option<int>)

  // ---------------------------------------------------------------------------
  // Flattening
  // ---------------------------------------------------------------------------

  /** A column as the tools report it: every field a string, "" when absent. */
  datatype ColumnInfo = ColumnInfo(name: string, columnType: string, comment: string)

  function ColumnInfoOf(c: GlueColumn): ColumnInfo {
    ColumnInfo(c.name.GetOr(""), c.columnType.GetOr(""), c.comment.GetOr(""))
  }

  /** The Glue column that carries every field of a reported column. */
  function GlueColumnOf(info: ColumnInfo): GlueColumn {
    GlueColumn(Some(info.name), Some(info.columnType), Some(info.comment))
  }

  /** Reporting keeps every field Glue gave, and absent ones read as "". */
  lemma ColumnInfoRoundTrip(info: ColumnInfo, c: GlueColumn)
    ensures ColumnInfoOf(GlueColumnOf(info)) == info
    ensures c.name.Some? ==> ColumnInfoOf(c).name == c.name.value
    ensures c.name.None? ==> ColumnInfoOf(c).name == ""
    ensures c.columnType.Some? ==> ColumnInfoOf(c).columnType == c.columnType.value
    ensures c.columnType.None? ==> ColumnInfoOf(c).columnType == ""
    ensures c.comment.Some? ==> ColumnInfoOf(c).comment == c.comment.value
    ensures c.comment.None? ==> ColumnInfoOf(c).comment == ""
  {
  }

  /** The loop that appends one record per column: one entry per column, in
      the same order. */
  method FlattenColumns(columns: seq<GlueColumn>) returns (infos: seq<ColumnInfo>)
    ensures |infos| == |columns|
    ensures forall i :: 0 <= i < |columns| ==> infos[i] == ColumnInfoOf(columns[i])
  {
    infos := [];
    var k := 0;
    while k < |columns|
      invariant 0 <= k <= |columns|
      invariant |infos| == k
      invariant forall i :: 0 <= i < k ==> infos[i] == ColumnInfoOf(columns[i])
    {
      infos := infos + [ColumnInfoOf(columns[k])];
      k := k + 1;
    }
  }

  /** The columns `get_glue_table_schema` reports: those of the storage
      descriptor, or none when it or its `Columns` is absent. */
  function ColumnsOf(t: GlueTable): seq<GlueColumn> {
    if t.storageDescriptor.Some? && t.storageDescriptor.value.columns.Some?
    then t.storageDescriptor.value.columns.value
    else []
  }

  datatype SerdeSummary = SerdeSummary(serializationLibrary: string, parameters: map<string, string>)

  datatype StorageSummary = StorageSummary(
    location: string,
    inputFormat: string,
    outputFormat: string,
    serdeInfo: SerdeSummary,
    compressed: bool,
    parameters: map<string, string>)

  /** The storage descriptor as reported: each field Glue gave is copied,
      an absent text reads as "", absent parameters as `{}`, and the table is
      compressed only when Glue says so. */
  function StorageSummaryOf(sd: StorageDescriptor): (s: StorageSummary)
    ensures s.compressed <==> sd.compressed == Some(true)
    ensures sd.location.Some? ==> s.location == sd.location.value
    ensures sd.location.None? ==> s.location == ""
    ensures sd.inputFormat.Some? ==> s.inputFormat == sd.inputFormat.value
    ensures sd.inputFormat.None? ==> s.inputFormat == ""
    ensures sd.outputFormat.Some? ==> s.outputFormat == sd.outputFormat.value
    ensures sd.outputFormat.None? ==> s.outputFormat == ""
    ensures sd.parameters.Some? ==> s.parameters == sd.parameters.value
    ensures sd.parameters.None? ==> s.parameters == map[]
    ensures sd.serdeInfo.None? ==> s.serdeInfo == SerdeSummary("", map[])
    ensures sd.serdeInfo.Some? && sd.serdeInfo.value.serializationLibrary.Some? ==>
      s.serdeInfo.serializationLibrary == sd.serdeInfo.value.serializationLibrary.value
    ensures sd.serdeInfo.Some? && sd.serdeInfo.value.parameters.Some? ==>
      s.serdeInfo.parameters == sd.serdeInfo.value.parameters.value
    ensures sd.serdeInfo.Some? && sd.serdeInfo.value.serializationLibrary.None? ==>
      s.serdeInfo.serializationLibrary == ""
    ensures sd.serdeInfo.Some? && sd.serdeInfo.value.parameters.None? ==>
      s.serdeInfo.parameters == map[]
  {
    var serde := sd.serdeInfo.GetOr(SerdeInfo(None, None));
    StorageSummary(sd.location.GetOr(""), sd.inputFormat.GetOr(""), sd.outputFormat.GetOr(""),
                   SerdeSummary(serde.serializationLibrary.GetOr(""), serde.parameters.GetOr(map[])),
                   sd.compressed.GetOr(false), sd.parameters.GetOr(map[]))
  }

  datatype TableMetadata = TableMetadata(
    createdBy: string,
    creationTime: string,
    lastAnalyzedTime: string,
    lastAccessTime: string,
    tableType: string,
    retention: int)

  function IsoOrEmpty(t: Option<Timestamp>): string {
    if t.Some? then t.value.iso else ""
  }

  /** The table's metadata as reported: each field Glue gave is copied (a
      time as its `isoformat()` text), absent texts read as "" and an absent
      retention as 0. */
  function MetadataOf(t: GlueTable): (m: TableMetadata)
    ensures t.createdBy.Some? ==> m.createdBy == t.createdBy.value
    ensures t.createdBy.None? ==> m.createdBy == ""
    ensures t.createTime.Some? ==> m.creationTime == t.createTime.value.iso
    ensures t.createTime.None? ==> m.creationTime == ""
    ensures t.lastAnalyzedTime.Some? ==> m.lastAnalyzedTime == t.lastAnalyzedTime.value.iso
    ensures t.lastAnalyzedTime.None? ==> m.lastAnalyzedTime == ""
    ensures t.lastAccessTime.Some? ==> m.lastAccessTime == t.lastAccessTime.value.iso
    ensures t.lastAccessTime.None? ==> m.lastAccessTime == ""
    ensures t.tableType.Some? ==> m.tableType == t.tableType.value
    ensures t.tableType.None? ==> m.tableType == ""
    ensures t.retention.Some? ==> m.retention == t.retention.value
    ensures t.retention.None? ==> m.retention == 0
  {
    TableMetadata(t.createdBy.GetOr(""), IsoOrEmpty(t.createTime), IsoOrEmpty(t.lastAnalyzedTime),
                  IsoOrEmpty(t.lastAccessTime), t.tableType.GetOr(""), t.retention.GetOr(0))
  }

  /** The record `get_glue_table_schema` returns on success;
      `storageDescriptor` is `None` for the `{}` left when the table has none. */
  datatype TableSchema = TableSchema(
    databaseName: string,
    tableName: string,
    region: string,
    columns: seq<ColumnInfo>,
    partitionKeys: seq<ColumnInfo>,
    storageDescriptor: Option<StorageSummary>,
    tableProperties: map<string, string>,
    metadata: TableMetadata)

  datatype SchemaResult =
    | Schema(schema: TableSchema)
    | SchemaError(error: string, errorDetails: string, databaseName: string, tableName: string, region: string)

  datatype GetTableRequest = GetTableRequest(databaseName: string, name: string, region: string)

  /** Glue's answer to `get_table` (`None` when it has no `Table`), or the
      text of the exception the call raised. */
  datatype GetTableOutcome = TableAnswer(table: Option<GlueTable>) | GetTableRaised(message: string)

  function SchemaErrorMessage(databaseName: string, tableName: string, region: string): string {
    "Failed to extract schema for table " + databaseName + "." + tableName + " in region " + region
  }

  /** `get_glue_table_schema`: fills the schema record step by step, the
      column lists by loops; any exception gives the error record. */
  method GetGlueTableSchema(databaseName: string, tableName: string, region: string,
                            glue: GetTableRequest -> GetTableOutcome)
    returns (r: SchemaResult)
    ensures var outcome := glue(GetTableRequest(databaseName, tableName, region));
      r.Schema? <==> outcome.TableAnswer? && outcome.table.Some?
    ensures r.Schema? ==>
      var t := glue(GetTableRequest(databaseName, tableName, region)).table.value;
      && r.schema.databaseName == databaseName && r.schema.tableName == tableName && r.schema.region == region
      && |r.schema.columns| == |ColumnsOf(t)|
      && (forall i :: 0 <= i < |ColumnsOf(t)| ==> r.schema.columns[i] == ColumnInfoOf(ColumnsOf(t)[i]))
      && |r.schema.partitionKeys| == |t.partitionKeys.GetOr([])|
      && (forall i :: 0 <= i < |t.partitionKeys.GetOr([])| ==>
            r.schema.partitionKeys[i] == ColumnInfoOf(t.partitionKeys.GetOr([])[i]))
      && (r.schema.storageDescriptor.Some? <==> t.storageDescriptor.Some?)
      && (t.storageDescriptor.Some? ==>
            r.schema.storageDescriptor.value == StorageSummaryOf(t.storageDescriptor.value))
      && r.schema.tableProperties == t.parameters.GetOr(map[])
      && r.schema.metadata == MetadataOf(t)
    ensures r.SchemaError? ==>
      && r.error == SchemaErrorMessage(databaseName, tableName, region)
      && r.databaseName == databaseName && r.tableName == tableName && r.region == region
      && var outcome := glue(GetTableRequest(databaseName, tableName, region));
         r.errorDetails == (if outcome.GetTableRaised? then outcome.message else "'Table'")
  {
    var outcome := glue(GetTableRequest(databaseName, tableName, region));
    if outcome.GetTableRaised? || outcome.table.None? {
      var details := if outcome.GetTableRaised? then outcome.message else "'Table'";
      return SchemaError(SchemaErrorMessage(databaseName, tableName, region), details,
                         databaseName, tableName, region);
    }
    var t := outcome.table.value;
    var schema := TableSchema(databaseName, tableName, region, [], [], None, map[],
                              TableMetadata("", "", "", "", "", 0));
    var columns := FlattenColumns(ColumnsOf(t));
    schema := schema.(columns := columns);
    if t.partitionKeys.Some? {
      var keys := FlattenColumns(t.partitionKeys.value);
      schema := schema.(partitionKeys := keys);
    }
    if t.storageDescriptor.Some? {
      schema := schema.(storageDescriptor := Some(StorageSummaryOf(t.storageDescriptor.value)));
    }
    schema := schema.(tableProperties := t.parameters.GetOr(map[]));
    schema := schema.(metadata := MetadataOf(t));
    r := Schema(schema);
  }

  // ---------------------------------------------------------------------------
  // Listing
  // ---------------------------------------------------------------------------

  /** A table as the listing reports it. */
  datatype TableSummary = TableSummary(
    name: string,
    creationTime: string,
    tableType: string,
    location: string,
    columnCount: nat,
    partitionKeyCount: nat)

  /** A table as listed: its name, type and location as Glue gave them or ""
      when absent, its creation time as text, and its column and
      partition-key counts. */
  function TableSummaryOf(t: GlueTable): (s: TableSummary)
    ensures t.name.Some? ==> s.name == t.name.value
    ensures t.name.None? ==> s.name == ""
    ensures t.tableType.Some? ==> s.tableType == t.tableType.value
    ensures t.tableType.None? ==> s.tableType == ""
    ensures t.createTime.Some? ==> s.creationTime == t.createTime.value.iso
    ensures t.createTime.None? ==> s.creationTime == ""
    ensures t.storageDescriptor.Some? && t.storageDescriptor.value.location.Some? ==>
      s.location == t.storageDescriptor.value.location.value
    ensures t.storageDescriptor.None? || t.storageDescriptor.value.location.None? ==> s.location == ""
  {
    TableSummary(
      t.name.GetOr(""),
      IsoOrEmpty(t.createTime),
      t.tableType.GetOr(""),
      if t.storageDescriptor.Some? then t.storageDescriptor.value.location.GetOr("") else "",
      if t.storageDescriptor.Some? then |t.storageDescriptor.value.columns.GetOr([])| else 0,
      |t.partitionKeys.GetOr([])|)
  }

  /** The listing and the schema of a table count the same columns and
      partition keys. */
  lemma ListingAgreesWithSchema(t: GlueTable)
    ensures TableSummaryOf(t).columnCount == |ColumnsOf(t)|
    ensures TableSummaryOf(t).partitionKeyCount == |t.partitionKeys.GetOr([])|
    ensures t.storageDescriptor.None? ==> TableSummaryOf(t).columnCount == 0 && TableSummaryOf(t).location == ""
  {
  }

  datatype ListResult =
    | Listing(databaseName: string, region: string, tables: seq<TableSummary>, totalTables: nat)
    | ListingError(error: string, errorDetails: string, databaseName: string, region: string)

  datatype GetTablesRequest = GetTablesRequest(databaseName: string, maxResults: int, region: string)

  /** Glue's answer to `get_tables` (`None` when it has no `TableList`), or
      the text of the exception the call raised. */
  datatype GetTablesOutcome = TablesAnswer(tableList: Option<seq<GlueTable>>) | GetTablesRaised(message: string)

  function ListErrorMessage(databaseName: string, region: string): string {
    "Failed to list tables in database " + databaseName + " in region " + region
  }

  /** `list_glue_tables_in_database`: one summary per listed table, in order,
      and the total is their number. */
  method ListGlueTablesInDatabase(databaseName: string, region: string, maxResults: int,
                                  glue: GetTablesRequest -> GetTablesOutcome)
    returns (r: ListResult)
    ensures var outcome := glue(GetTablesRequest(databaseName, maxResults, region));
      r.Listing? <==> outcome.TablesAnswer?
    ensures r.Listing? ==>
      var tables := glue(GetTablesRequest(databaseName, maxResults, region)).tableList.GetOr([]);
      && r.databaseName == databaseName && r.region == region
      && r.totalTables == |r.tables| == |tables|
      && forall i :: 0 <= i < |tables| ==> r.tables[i] == TableSummaryOf(tables[i])
    ensures r.ListingError? ==>
      r == ListingError(ListErrorMessage(databaseName, region),
                        glue(GetTablesRequest(databaseName, maxResults, region)).message, databaseName, region)
  {
    var outcome := glue(GetTablesRequest(databaseName, maxResults, region));
    if outcome.GetTablesRaised? {
      return ListingError(ListErrorMessage(databaseName, region), outcome.message, databaseName, region);
    }
    var tableList := outcome.tableList.GetOr([]);
    var summaries: seq<TableSummary> := [];
    var k := 0;
    while k < |tableList|
      invariant 0 <= k <= |tableList|
      invariant |summaries| == k
      invariant forall i :: 0 <= i < k ==> summaries[i] == TableSummaryOf(tableList[i])
    {
      summaries := summaries + [TableSummaryOf(tableList[k])];
      k := k + 1;
    }
    r := Listing(databaseName, region, summaries, |tableList|);
  }
}
