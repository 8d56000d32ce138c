/**
 * The schema analyzer (src/db_schema_analyzer.py): it reads the catalog of
 * a MySQL database (`information_schema`) and turns the fetched rows into
 * one entry per table with its columns, foreign keys and metadata.
 *
 * The SQL queries are not modelled: a `Catalog` holds, for every table
 * name, the rows each query would fetch for that table.
 */
module SchemaAnalyzer {
  import opened Wrappers
  import opened Strings

  /** A row of `information_schema.COLUMNS` as fetched by `_get_columns_info`. */
  datatype ColumnRow = ColumnRow(
    columnName: string,
    dataType: string,
    characterMaximumLength: Option<int>,
    isNullable: string,
    columnDefault: Option<string>,
    columnKey: string,
    extra: string,
    columnComment: string)

  /** The dict `_get_columns_info` builds for one column. */
  datatype ColumnInfo = ColumnInfo(
    name: string,
    dataType: string,
    maxLength: Option<int>,
    isNullable: bool,
    defaultValue: Option<string>,
    isPrimary: bool,
    isUnique: bool,
    autoIncrement: bool,
    comment: string)

  /** A row of `information_schema.KEY_COLUMN_USAGE` with a referenced table. */
  datatype RelationshipRow = RelationshipRow(
    constraintName: string,
    columnName: string,
    referencedTableName: string,
    referencedColumnName: string)

  /** The dict `_get_relationships` builds for one foreign key column. */
  datatype Relationship = Relationship(
    constraintName: string,
    columnName: string,
    referencedTable: string,
    referencedColumn: string)

  /** The row of `information_schema.TABLES` that `_get_table_metadata` fetches. */
  datatype MetadataRow = MetadataRow(
    tableComment: string,
    engine: Option<string>,
    rowFormat: Option<string>,
    createTime: Option<string>,
    updateTime: Option<string>)

  /** The dict `_get_table_metadata` returns. */
  datatype TableMetadata = TableMetadata(
    comment: string,
    engine: Option<string>,
    rowFormat: Option<string>,
    createdAt: Option<string>,
    updatedAt: Option<string>)

  datatype TableInfo = TableInfo(
    tableName: string,
    columns: seq<ColumnInfo>,
    relationships: seq<Relationship>,
    metadata: TableMetadata)

  /** The dict `analyze_schema` returns. */
  datatype SchemaInfo = SchemaInfo(databaseName: string, tables: seq<TableInfo>)

  /**
   * What the cursor fetches: the `TABLE_NAME` of every table, in the order
   * the server returns them, and per table name the rows of the column, the
   * foreign key and the metadata queries. A name missing from `columnRows`
   * or `relationshipRows` fetches no rows; one missing from `metadataRows`
   * makes `fetchone()` return `None`.
   */
  datatype Catalog = Catalog(
    tableNames: seq<string>,
    columnRows: map<string, seq<ColumnRow>>,
    relationshipRows: map<string, seq<RelationshipRow>>,
    metadataRows: map<string, MetadataRow>)
  {
    function ColumnsOf(tableName: string): seq<ColumnRow> {
      if tableName in columnRows then columnRows[tableName] else []
    }

    function RelationshipsOf(tableName: string): seq<RelationshipRow> {
      if tableName in relationshipRows then relationshipRows[tableName] else []
    }
  }

  // ---------------------------------------------------------------------------
  // One row

  /**
   * The dict for one column (lines 66-76): the text fields are copied; the
   * column is nullable when `IS_NULLABLE` is `YES`, primary when
   * `COLUMN_KEY` is `PRI`, unique when it is `UNI` or `PRI`, and
   * auto-incremented when the lower-cased `EXTRA` contains `auto_increment`.
   */
  function ColumnInfoOf(row: ColumnRow): (r: ColumnInfo)
    ensures r.name == row.columnName && r.dataType == row.dataType
    ensures r.maxLength == row.characterMaximumLength && r.defaultValue == row.columnDefault
    ensures r.comment == row.columnComment
    ensures r.isNullable <==> row.isNullable == "YES"
    ensures r.isPrimary <==> row.columnKey == "PRI"
    ensures r.isUnique <==> row.columnKey == "UNI" || row.columnKey == "PRI"
    ensures r.isPrimary ==> r.isUnique
    ensures r.autoIncrement <==> Contains(Lower(row.extra), "auto_increment")
  {
    ColumnInfo(
      row.columnName,
      row.dataType,
      row.characterMaximumLength,
      row.isNullable == "YES",
      row.columnDefault,
      row.columnKey == "PRI",
      row.columnKey in ["UNI", "PRI"],
      Contains(Lower(row.extra), "auto_increment"),
      row.columnComment)
  }

  /** `auto_increment` is recognised in `EXTRA` whatever its case. */
  lemma AutoIncrementAnyCase(row: ColumnRow, written: string)
    requires Lower(written) == "auto_increment" && Contains(row.extra, written)
    ensures ColumnInfoOf(row).autoIncrement
  {
    ContainsLower(row.extra, written);
  }

  /** The dict for one foreign key (lines 97-102). */
  function RelationshipOf(row: RelationshipRow): Relationship {
    Relationship(row.constraintName, row.columnName, row.referencedTableName, row.referencedColumnName)
  }

  /** The dict for the table's metadata row (lines 121-127). */
  function TableMetadataOf(row: MetadataRow): TableMetadata {
    TableMetadata(row.tableComment, row.engine, row.rowFormat, row.createTime, row.updateTime)
  }

  // ---------------------------------------------------------------------------
  // The per-table queries

  /** `_get_columns_info`: one entry per fetched row, in order. */
  method GetColumnsInfo(catalog: Catalog, tableName: string) returns (columns: seq<ColumnInfo>)
    ensures |columns| == |catalog.ColumnsOf(tableName)|
    ensures forall i :: 0 <= i < |columns| ==> columns[i] == ColumnInfoOf(catalog.ColumnsOf(tableName)[i])
  {
    var rows := catalog.ColumnsOf(tableName);
    columns := [];
    for i := 0 to |rows|
      invariant |columns| == i
      invariant forall k :: 0 <= k < i ==> columns[k] == ColumnInfoOf(rows[k])
    {
      var columnInfo := ColumnInfoOf(rows[i]);
      columns := columns + [columnInfo];
    }
  }

  /** `_get_relationships`: one entry per fetched row, in order, with the four fields copied. */
  method GetRelationships(catalog: Catalog, tableName: string) returns (relationships: seq<Relationship>)
    ensures |relationships| == |catalog.RelationshipsOf(tableName)|
    ensures forall i :: 0 <= i < |relationships| ==>
      var row := catalog.RelationshipsOf(tableName)[i];
      relationships[i] == Relationship(row.constraintName, row.columnName, row.referencedTableName, row.referencedColumnName)
  {
    var rows := catalog.RelationshipsOf(tableName);
    relationships := [];
    for i := 0 to |rows|
      invariant |relationships| == i
      invariant forall k :: 0 <= k < i ==> relationships[k] == RelationshipOf(rows[k])
    {
      var relationship := RelationshipOf(rows[i]);
      relationships := relationships + [relationship];
    }
  }

  /**
   * `_get_table_metadata`: the five fields of the fetched row, or `None` when
   * `fetchone()` finds no row (the subscript of `None` raises).
   */
  method GetTableMetadata(catalog: Catalog, tableName: string) returns (metadata: Option<TableMetadata>)
    ensures metadata.None? <==> tableName !in catalog.metadataRows
    ensures metadata.Some? ==>
      var row := catalog.metadataRows[tableName];
      metadata.value == TableMetadata(row.tableComment, row.engine, row.rowFormat, row.createTime, row.updateTime)
  {
    if tableName !in catalog.metadataRows {
      return None;
    }
    var row := catalog.metadataRows[tableName];
    metadata := Some(TableMetadataOf(row));
  }

  // ---------------------------------------------------------------------------
  // All tables

  /** The entry `_get_tables_info` builds for the table `tableName`. */
  predicate IsTableEntry(catalog: Catalog, tableName: string, info: TableInfo) {
    && info.tableName == tableName
    && |info.columns| == |catalog.ColumnsOf(tableName)|
    && (forall j :: 0 <= j < |info.columns| ==> info.columns[j] == ColumnInfoOf(catalog.ColumnsOf(tableName)[j]))
    && |info.relationships| == |catalog.RelationshipsOf(tableName)|
    && (forall j :: 0 <= j < |info.relationships| ==>
          info.relationships[j] == RelationshipOf(catalog.RelationshipsOf(tableName)[j]))
    && tableName in catalog.metadataRows
    && info.metadata == TableMetadataOf(catalog.metadataRows[tableName])
  }

  /** Every listed table has a metadata row, so no `fetchone()` comes back empty. */
  predicate HasAllMetadata(catalog: Catalog) {
    forall i :: 0 <= i < |catalog.tableNames| ==> catalog.tableNames[i] in catalog.metadataRows
  }

  /**
   * `_get_tables_info`: one entry per listed table, in order, each with the
   * table's name, columns, foreign keys and metadata; `None` when the
   * metadata of some table is missing, which aborts the whole call.
   */
  method GetTablesInfo(catalog: Catalog) returns (tablesInfo: Option<seq<TableInfo>>)
    ensures tablesInfo.Some? <==> HasAllMetadata(catalog)
    ensures tablesInfo.Some? ==>
      |tablesInfo.value| == |catalog.tableNames|
      && forall i :: 0 <= i < |catalog.tableNames| ==>
           IsTableEntry(catalog, catalog.tableNames[i], tablesInfo.value[i])
  {
    var tables := catalog.tableNames;
    var entries: seq<TableInfo> := [];
    for i := 0 to |tables|
      invariant |entries| == i
      invariant forall k :: 0 <= k < i ==> tables[k] in catalog.metadataRows
      invariant forall k :: 0 <= k < i ==> IsTableEntry(catalog, tables[k], entries[k])
    {
      var tableName := tables[i];
      var columns := GetColumnsInfo(catalog, tableName);
      var relationships := GetRelationships(catalog, tableName);
      var metadata := GetTableMetadata(catalog, tableName);
      if metadata.None? {
        return None;
      }
      var tableInfo := TableInfo(tableName, columns, relationships, metadata.value);
      entries := entries + [tableInfo];
    }
    tablesInfo := Some(entries);
  }

  /** `analyze_schema`: the database's name and the entries of its tables. */
  method AnalyzeSchema(databaseName: string, catalog: Catalog) returns (schemaInfo: Option<SchemaInfo>)
    ensures schemaInfo.Some? <==> HasAllMetadata(catalog)
    ensures schemaInfo.Some? ==>
      schemaInfo.value.databaseName == databaseName
      && |schemaInfo.value.tables| == |catalog.tableNames|
      && forall i :: 0 <= i < |catalog.tableNames| ==>
           IsTableEntry(catalog, catalog.tableNames[i], schemaInfo.value.tables[i])
  {
    var tables := GetTablesInfo(catalog);
    if tables.None? {
      return None;
    }
    schemaInfo := Some(SchemaInfo(databaseName, tables.value));
  }
}
