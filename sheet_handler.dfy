/**
 * The report builder (src/sheet_handler.py) without pandas and openpyxl:
 * each sheet is the list of rows (or the columns) it would hand to a
 * `DataFrame`.
 *
 * - The detailed sheet flattens the per-table results of the driver into
 *   one row per column item, tagged with the table's name, and logs every
 *   required field whose stored value is `None`.
 * - The summary, privacy-impact and recommendation sheets read flat
 *   analysis items with the keys `data_category`, `risk_level`,
 *   `privacy_impact`, `recommended_action` and so on.
 */
module SheetHandler {
  import opened Wrappers
  import opened Strings
  import opened Seqs

  // ===========================================================================
  // The detailed analysis sheet (lines 115-154)

  /** A value stored in a column item's dict: Python's `None` or a string. */
  datatype PyValue = PyNone | PyStr(s: string)

  /** One dict of a `column_report`, and one row of the detailed sheet. */
  type ColumnItem = map<string, PyValue>
  type Row = map<string, PyValue>

  /**
   * One entry of `ai_analysis` as the detailed sheet reads it: the
   * `table_name` when the key is present, and the `column_report` list.
   */
  datatype ReportItem = ReportItem(tableName: Option<string>, columnReport: seq<ColumnItem>)

  /** The keys of `required_fields`, in the dict's order; every default is `''`. */
  const RequiredFields: seq<string> := [
    "Column", "Description", "Data Type", "Collection Method", "Data Source",
    "Primary Purpose", "Legal Basis", "Personal Data", "Personal Information"]

  const FieldDefault: string := ""

  /** `item.get('table_name', '')`. */
  function TableOf(item: ReportItem): string {
    item.tableName.GetOr("")
  }

  /** `column_item.get(field, '')`: the entry under exactly that key, else the default. */
  function Cell(columnItem: ColumnItem, field: string): PyValue {
    if field in columnItem then columnItem[field] else PyStr(FieldDefault)
  }

  /** `row_data` once the fields `fields` of `required_fields` have been copied. */
  function PartialRow(table: string, columnItem: ColumnItem, fields: seq<string>): Row
    decreases |fields|
  {
    if fields == [] then map["Table" := PyStr(table)]
    else
      var field := fields[|fields| - 1];
      PartialRow(table, columnItem, fields[..|fields| - 1])[field := Cell(columnItem, field)]
  }

  /** The row the sheet builds for one column item. */
  function RowOf(table: string, columnItem: ColumnItem): Row {
    PartialRow(table, columnItem, RequiredFields)
  }

  /**
   * One diagnostic: the required field `field` of a column item of table
   * `table` holds `None`. `LogLine` is the text appended to
   * `Ai Analysis errors.txt`.
   */
  datatype MissingField = MissingField(field: string, table: string)

  function LogLine(m: MissingField): string {
    "Required field '" + m.field + "' for table: " + m.table + " is missing from the AI analysis output."
  }

  /**
   * The lines of `Ai Analysis errors.txt` identify their diagnostics: no
   * required key holds a quote, so two diagnostics give the same line
   * exactly when they name the same field of the same table.
   */
  lemma LogLineInjective(m1: MissingField, m2: MissingField)
    requires m1.field in RequiredFields && m2.field in RequiredFields
    ensures LogLine(m1) == LogLine(m2) <==> m1 == m2
  {
    if LogLine(m1) == LogLine(m2) {
      var pre := "Required field '";
      var r1, r2 := LogLine(m1)[|pre| + |m1.field|..], LogLine(m2)[|pre| + |m2.field|..];
      LogLineParts(m1);
      LogLineParts(m2);
      NoQuoteInRequiredField(m1.field);
      NoQuoteInRequiredField(m2.field);
      DelimitedPrefix(m1.field, r1, m2.field, r2, '\'');
      LogLineTable(m1, m2);
    }
  }

  /** The line is the prefix, the field and a remainder starting with the closing quote. */
  lemma LogLineParts(m: MissingField)
    ensures |"Required field '"| + |m.field| < |LogLine(m)|
    ensures LogLine(m)[|"Required field '"|..] == m.field + LogLine(m)[|"Required field '"| + |m.field|..]
    ensures LogLine(m)[|"Required field '"| + |m.field|] == '\''
  {
    var pre, rest := "Required field '", "' for table: " + m.table + " is missing from the AI analysis output.";
    assert LogLine(m) == pre + (m.field + rest);
    assert LogLine(m)[|pre|..] == m.field + rest;
    assert LogLine(m)[|pre| + |m.field|..] == rest;
  }

  lemma NoQuoteInRequiredField(f: string)
    requires f in RequiredFields
    ensures '\'' !in f
  {
  }

  /** Lines for the same field that agree name the same table. */
  lemma LogLineTable(m1: MissingField, m2: MissingField)
    requires m1.field == m2.field && LogLine(m1) == LogLine(m2)
    ensures m1 == m2
  {
    var pre, post := "Required field '" + m1.field + "' for table: ", " is missing from the AI analysis output.";
    assert LogLine(m1) == pre + m1.table + post;
    assert LogLine(m2) == pre + m2.table + post;
    assert m1.table == LogLine(m1)[|pre|..|LogLine(m1)| - |post|];
    assert m2.table == LogLine(m2)[|pre|..|LogLine(m2)| - |post|];
  }

  /** The diagnostics logged while the fields `fields` of one column item are copied. */
  function FieldsLog(table: string, columnItem: ColumnItem, fields: seq<string>): seq<MissingField>
    decreases |fields|
  {
    if fields == [] then []
    else
      var field := fields[|fields| - 1];
      FieldsLog(table, columnItem, fields[..|fields| - 1])
      + (if Cell(columnItem, field) == PyNone then [MissingField(field, table)] else [])
  }

  /** The rows of the column items `columns` of one table. */
  function ColumnRows(table: string, columns: seq<ColumnItem>): seq<Row>
    decreases |columns|
  {
    if columns == [] then []
    else ColumnRows(table, columns[..|columns| - 1]) + [RowOf(table, columns[|columns| - 1])]
  }

  /** One row per column item, in order. */
  lemma {:induction false} ColumnRowsAt(table: string, columns: seq<ColumnItem>)
    ensures |ColumnRows(table, columns)| == |columns|
    ensures forall j :: 0 <= j < |columns| ==> ColumnRows(table, columns)[j] == RowOf(table, columns[j])
    decreases |columns|
  {
    if columns != [] {
      var init := columns[..|columns| - 1];
      var lastRow := RowOf(table, columns[|columns| - 1]);
      assert ColumnRows(table, columns) == ColumnRows(table, init) + [lastRow];
      ColumnRowsAt(table, init);
      forall j | 0 <= j < |columns|
        ensures ColumnRows(table, columns)[j] == RowOf(table, columns[j])
      {
        if j < |init| {
          assert columns[j] == init[j];
        }
      }
    }
  }

  function ColumnsLog(table: string, columns: seq<ColumnItem>): seq<MissingField>
    decreases |columns|
  {
    if columns == [] then []
    else
      ColumnsLog(table, columns[..|columns| - 1])
      + FieldsLog(table, columns[|columns| - 1], RequiredFields)
  }

  /** All rows of the detailed sheet. */
  function DetailedRows(items: seq<ReportItem>): seq<Row>
    decreases |items|
  {
    if items == [] then []
    else
      var item := items[|items| - 1];
      DetailedRows(items[..|items| - 1]) + ColumnRows(TableOf(item), item.columnReport)
  }

  /** All diagnostics of the detailed sheet, in the order they are written. */
  function DetailedLog(items: seq<ReportItem>): seq<MissingField>
    decreases |items|
  {
    if items == [] then []
    else
      var item := items[|items| - 1];
      DetailedLog(items[..|items| - 1]) + ColumnsLog(TableOf(item), item.columnReport)
  }

  /** The number of column items over all entries. */
  function TotalColumns(items: seq<ReportItem>): nat
    decreases |items|
  {
    if items == [] then 0
    else TotalColumns(items[..|items| - 1]) + |items[|items| - 1].columnReport|
  }

  /**
   * The body of the loop over one column item (lines 143-150): the row and
   * the diagnostics it logs.
   */
  method BuildRow(table: string, columnItem: ColumnItem) returns (rowData: Row, missing: seq<MissingField>)
    ensures rowData == RowOf(table, columnItem)
    ensures missing == FieldsLog(table, columnItem, RequiredFields)
  {
    var fields := RequiredFields;
    missing := [];
    rowData := map[];
    rowData := rowData["Table" := PyStr(table)];
    for k := 0 to |fields|
      invariant rowData == PartialRow(table, columnItem, fields[..k])
      invariant missing == FieldsLog(table, columnItem, fields[..k])
    {
      var field := fields[k];
      var value := if field in columnItem then columnItem[field] else PyStr(FieldDefault);
      if value == PyNone {
        missing := missing + [MissingField(field, table)];
      }
      rowData := rowData[field := value];
      assert fields[..k + 1][..k] == fields[..k];
    }
    assert fields[..|fields|] == fields;
  }

  /** The loop over the `column_report` of one entry (lines 142-151). */
  method BuildTableRows(table: string, columnReport: seq<ColumnItem>) returns (rows: seq<Row>, missing: seq<MissingField>)
    ensures rows == ColumnRows(table, columnReport)
    ensures missing == ColumnsLog(table, columnReport)
  {
    rows := [];
    missing := [];
    for j := 0 to |columnReport|
      invariant rows == ColumnRows(table, columnReport[..j])
      invariant missing == ColumnsLog(table, columnReport[..j])
    {
      var columnItem := columnReport[j];
      var rowData, rowMissing := BuildRow(table, columnItem);
      assert columnReport[..j + 1][..j] == columnReport[..j];
      rows := rows + [rowData];
      missing := missing + rowMissing;
    }
    assert columnReport[..|columnReport|] == columnReport;
  }

  /**
   * `_create_detailed_analysis_sheet`: the rows handed to the `DataFrame`
   * and the diagnostics written to the error file.
   */
  method CreateDetailedAnalysisSheet(aiAnalysis: seq<ReportItem>) returns (detailedData: seq<Row>, log: seq<MissingField>)
    ensures detailedData == DetailedRows(aiAnalysis)
    ensures log == DetailedLog(aiAnalysis)
  {
    detailedData := [];
    log := [];
    for i := 0 to |aiAnalysis|
      invariant detailedData == DetailedRows(aiAnalysis[..i])
      invariant log == DetailedLog(aiAnalysis[..i])
    {
      var item := aiAnalysis[i];
      var table := TableOf(item);
      var columnReport := item.columnReport;
      var rows, missing := BuildTableRows(table, columnReport);
      detailedData := detailedData + rows;
      log := log + missing;
      assert aiAnalysis[..i + 1][..i] == aiAnalysis[..i];
      assert DetailedRows(aiAnalysis[..i + 1]) == DetailedRows(aiAnalysis[..i]) + ColumnRows(table, columnReport);
      assert DetailedLog(aiAnalysis[..i + 1]) == DetailedLog(aiAnalysis[..i]) + ColumnsLog(table, columnReport);
    }
    assert aiAnalysis[..|aiAnalysis|] == aiAnalysis;
  }

  lemma {:induction false} PartialRowShape(table: string, columnItem: ColumnItem, fields: seq<string>)
    requires "Table" !in fields
    ensures PartialRow(table, columnItem, fields).Keys == {"Table"} + set f | f in fields
    ensures PartialRow(table, columnItem, fields)["Table"] == PyStr(table)
    ensures forall f :: f in fields ==> PartialRow(table, columnItem, fields)[f] == Cell(columnItem, f)
    decreases |fields|
  {
    if fields != [] {
      var init := fields[..|fields| - 1];
      assert forall f :: f in init ==> f in fields;
      PartialRowShape(table, columnItem, init);
      assert fields == init + [fields[|fields| - 1]];
      assert forall f :: f in fields <==> f in init || f == fields[|fields| - 1];
    }
  }

  /**
   * Every row has exactly the key `Table` and the nine required keys; `Table`
   * holds the table's name and each required key holds the column item's
   * entry under exactly that key, or `''`.
   */
  lemma RowShape(table: string, columnItem: ColumnItem)
    ensures RowOf(table, columnItem).Keys == {"Table"} + set f | f in RequiredFields
    ensures RowOf(table, columnItem)["Table"] == PyStr(table)
    ensures forall f :: f in RequiredFields ==>
      RowOf(table, columnItem)[f] == if f in columnItem then columnItem[f] else PyStr("")
  {
    PartialRowShape(table, columnItem, RequiredFields);
  }

  /** The detailed sheet has one row per column item over all entries. */
  lemma {:induction false} DetailedRowCount(items: seq<ReportItem>)
    ensures |DetailedRows(items)| == TotalColumns(items)
    decreases |items|
  {
    if items != [] {
      DetailedRowCount(items[..|items| - 1]);
      ColumnRowsAt(TableOf(items[|items| - 1]), items[|items| - 1].columnReport);
    }
  }

  /**
   * Column item `j` of entry `i` is the row right after the rows of the
   * entries before `i` and of the column items before `j`, and it is tagged
   * with entry `i`'s table name (or `''`).
   */
  lemma {:induction false} DetailedRowAt(items: seq<ReportItem>, i: nat, j: nat)
    requires i < |items| && j < |items[i].columnReport|
    ensures TotalColumns(items[..i]) + j < |DetailedRows(items)|
    ensures DetailedRows(items)[TotalColumns(items[..i]) + j]
         == RowOf(TableOf(items[i]), items[i].columnReport[j])
    decreases |items|
  {
    var init := items[..|items| - 1];
    var last := items[|items| - 1];
    var front := DetailedRows(init);
    var back := ColumnRows(TableOf(last), last.columnReport);
    assert DetailedRows(items) == front + back;
    DetailedRowCount(init);
    if i == |items| - 1 {
      assert items[..i] == init;
      ColumnRowsAt(TableOf(last), last.columnReport);
      assert (front + back)[|front| + j] == back[j];
    } else {
      assert init[..i] == items[..i];
      assert init[i] == items[i];
      DetailedRowAt(init, i, j);
      assert (front + back)[TotalColumns(items[..i]) + j] == front[TotalColumns(items[..i]) + j];
    }
  }

  lemma {:induction false} FieldsLogMembers(table: string, columnItem: ColumnItem, fields: seq<string>, m: MissingField)
    ensures m in FieldsLog(table, columnItem, fields)
        <==> m.table == table && m.field in fields && Cell(columnItem, m.field) == PyNone
    decreases |fields|
  {
    if fields != [] {
      var init := fields[..|fields| - 1];
      FieldsLogMembers(table, columnItem, init, m);
      assert fields == init + [fields[|fields| - 1]];
    }
  }

  /**
   * A diagnostic is written for a required field of a column item exactly
   * when the item stores `None` under that key; a missing key is never
   * reported, since it reads as `''`.
   */
  lemma RowLogExact(table: string, columnItem: ColumnItem, m: MissingField)
    ensures m in FieldsLog(table, columnItem, RequiredFields)
        <==> m.table == table && m.field in RequiredFields
             && m.field in columnItem && columnItem[m.field] == PyNone
  {
    FieldsLogMembers(table, columnItem, RequiredFields, m);
  }

  /** Some column item of `columns` stores `None` under `field`. */
  predicate SomeHoldsNone(columns: seq<ColumnItem>, field: string) {
    exists j :: 0 <= j < |columns| && field in columns[j] && columns[j][field] == PyNone
  }

  lemma {:induction false} ColumnsLogMembers(table: string, columns: seq<ColumnItem>, m: MissingField)
    ensures m in ColumnsLog(table, columns)
        <==> m.table == table && m.field in RequiredFields && SomeHoldsNone(columns, m.field)
    decreases |columns|
  {
    if columns != [] {
      var init := columns[..|columns| - 1];
      var last := columns[|columns| - 1];
      assert SomeHoldsNone(init, m.field) ==> SomeHoldsNone(columns, m.field) by {
        if SomeHoldsNone(init, m.field) {
          var j :| 0 <= j < |init| && m.field in init[j] && init[j][m.field] == PyNone;
          assert columns[j] == init[j];
        }
      }
      assert SomeHoldsNone(columns, m.field)
        ==> SomeHoldsNone(init, m.field) || (m.field in last && last[m.field] == PyNone) by {
        if SomeHoldsNone(columns, m.field) {
          var j :| 0 <= j < |columns| && m.field in columns[j] && columns[j][m.field] == PyNone;
          if j < |init| {
            assert init[j] == columns[j];
          } else {
            assert columns[j] == last;
          }
        }
      }
      ColumnsLogMembers(table, init, m);
      FieldsLogMembers(table, last, RequiredFields, m);
    }
  }

  /** Some entry of `items` belongs to `table` and has a column item storing `None` under `field`. */
  predicate SomeEntryHoldsNone(items: seq<ReportItem>, table: string, field: string) {
    exists i :: 0 <= i < |items| && TableOf(items[i]) == table && SomeHoldsNone(items[i].columnReport, field)
  }

  /**
   * The diagnostics of the whole sheet name exactly the (field, table) pairs
   * for which some column item of that table stores `None` under that
   * required key.
   */
  lemma {:induction false} DetailedLogExact(items: seq<ReportItem>, m: MissingField)
    ensures m in DetailedLog(items)
        <==> m.field in RequiredFields && SomeEntryHoldsNone(items, m.table, m.field)
    decreases |items|
  {
    if items != [] {
      var init := items[..|items| - 1];
      var last := items[|items| - 1];
      assert SomeEntryHoldsNone(init, m.table, m.field) ==> SomeEntryHoldsNone(items, m.table, m.field) by {
        if SomeEntryHoldsNone(init, m.table, m.field) {
          var i :| 0 <= i < |init| && TableOf(init[i]) == m.table && SomeHoldsNone(init[i].columnReport, m.field);
          assert items[i] == init[i];
        }
      }
      assert SomeEntryHoldsNone(items, m.table, m.field)
        ==> SomeEntryHoldsNone(init, m.table, m.field)
            || (TableOf(last) == m.table && SomeHoldsNone(last.columnReport, m.field)) by {
        if SomeEntryHoldsNone(items, m.table, m.field) {
          var i :| 0 <= i < |items| && TableOf(items[i]) == m.table && SomeHoldsNone(items[i].columnReport, m.field);
          if i < |init| {
            assert init[i] == items[i];
          } else {
            assert items[i] == last;
          }
        }
      }
      DetailedLogExact(init, m);
      ColumnsLogMembers(TableOf(last), last.columnReport, m);
    }
  }

  // ===========================================================================
  // The analysis items of the optional sheets

  /**
   * The keys the summary, privacy-impact and recommendation sheets read from
   * one analysis item; `None` stands for an absent key.
   */
  datatype AnalysisItem = AnalysisItem(
    tableName: Option<string>,
    columnName: Option<string>,
    dataCategory: Option<string>,
    riskLevel: Option<string>,
    privacyImpact: Option<string>,
    recommendedAction: Option<string>,
    mitigationSteps: Option<seq<string>>,
    implementationSteps: Option<string>,
    expectedOutcome: Option<string>)

  /** `f"{item.get('table_name', '')}.{item.get('column_name', '')}"`. */
  function ItemName(item: AnalysisItem): string {
    item.tableName.GetOr("") + "." + item.columnName.GetOr("")
  }

  /** `item.get('risk_level', 'Low')`. */
  function RiskOf(item: AnalysisItem): string {
    item.riskLevel.GetOr("Low")
  }

  /** The three levels the sheets know. */
  predicate IsLevel(level: string) {
    level == "High" || level == "Medium" || level == "Low"
  }

  // ===========================================================================
  // The summary sheet (lines 79-113)

  /** `item.get('data_category', 'Uncategorized')`. */
  function CategoryOf(item: AnalysisItem): string {
    item.dataCategory.GetOr("Uncategorized")
  }

  /** The distinct data categories of `items`. */
  function Categories(items: seq<AnalysisItem>): set<string> {
    set i | 0 <= i < |items| :: CategoryOf(items[i])
  }

  /** The number of items whose risk level (default `Low`) is `level`. */
  function CountRisk(items: seq<AnalysisItem>, level: string): nat
    decreases |items|
  {
    if items == [] then 0
    else CountRisk(items[..|items| - 1], level) + (if RiskOf(items[|items| - 1]) == level then 1 else 0)
  }

  /** Every item's risk level is a key of `risk_levels`, so no lookup fails. */
  predicate AllRisksKnown(items: seq<AnalysisItem>) {
    forall i :: 0 <= i < |items| ==> IsLevel(RiskOf(items[i]))
  }

  /** One row of the summary sheet. */
  datatype SummaryRow = SummaryRow(category: string, count: nat, riskLevel: string, description: string)

  /** The four rows of lines 97-110 for the given counts. */
  function SummaryRows(categories: nat, high: nat, medium: nat, low: nat): seq<SummaryRow> {
    [ SummaryRow("Data Categories", categories, "N/A", "Total unique data categories found"),
      SummaryRow("High Risk Items", high, "High", "Items requiring immediate attention"),
      SummaryRow("Medium Risk Items", medium, "Medium", "Items requiring regular review"),
      SummaryRow("Low Risk Items", low, "Low", "Items with minimal privacy impact") ]
  }

  lemma CategoriesSnoc(items: seq<AnalysisItem>)
    requires items != []
    ensures Categories(items) == Categories(items[..|items| - 1]) + {CategoryOf(items[|items| - 1])}
  {
    var init := items[..|items| - 1];
    forall c | c in Categories(items)
      ensures c in Categories(init) + {CategoryOf(items[|items| - 1])}
    {
      var i :| 0 <= i < |items| && CategoryOf(items[i]) == c;
      if i < |init| {
        assert init[i] == items[i];
      }
    }
    forall c | c in Categories(init)
      ensures c in Categories(items)
    {
      var i :| 0 <= i < |init| && CategoryOf(init[i]) == c;
      assert items[i] == init[i];
    }
  }

  /**
   * `_create_summary_sheet`: the four summary rows, or `None` when some
   * item's risk level is not `High`, `Medium` or `Low` (the `KeyError` of
   * line 94).
   */
  method CreateSummarySheet(aiAnalysis: seq<AnalysisItem>) returns (summary: Option<seq<SummaryRow>>)
    ensures summary.Some? <==> AllRisksKnown(aiAnalysis)
    ensures summary.Some? ==> summary.value == SummaryRows(
      |Categories(aiAnalysis)|,
      CountRisk(aiAnalysis, "High"), CountRisk(aiAnalysis, "Medium"), CountRisk(aiAnalysis, "Low"))
  {
    var dataCategories: set<string> := {};
    var riskLevels: map<string, nat> := map["High" := 0, "Medium" := 0, "Low" := 0];
    for i := 0 to |aiAnalysis|
      invariant dataCategories == Categories(aiAnalysis[..i])
      invariant riskLevels.Keys == {"High", "Medium", "Low"}
      invariant forall level :: level in riskLevels ==> riskLevels[level] == CountRisk(aiAnalysis[..i], level)
      invariant forall k :: 0 <= k < i ==> IsLevel(RiskOf(aiAnalysis[k]))
    {
      var item := aiAnalysis[i];
      assert aiAnalysis[..i + 1][..i] == aiAnalysis[..i];
      CategoriesSnoc(aiAnalysis[..i + 1]);
      dataCategories := dataCategories + {CategoryOf(item)};
      var level := RiskOf(item);
      if level !in riskLevels {
        assert !AllRisksKnown(aiAnalysis) by {
          assert !IsLevel(RiskOf(aiAnalysis[i]));
        }
        return None;
      }
      assert IsLevel(level);
      riskLevels := riskLevels[level := riskLevels[level] + 1];
      forall other | other in riskLevels
        ensures riskLevels[other] == CountRisk(aiAnalysis[..i + 1], other)
      {
        assert CountRisk(aiAnalysis[..i + 1], other)
            == CountRisk(aiAnalysis[..i], other) + (if level == other then 1 else 0);
      }
    }
    assert aiAnalysis[..|aiAnalysis|] == aiAnalysis;
    summary := Some(SummaryRows(|dataCategories|, riskLevels["High"], riskLevels["Medium"], riskLevels["Low"]));
  }

  /** With every risk level known, the three counts add up to the number of items. */
  lemma {:induction false} RiskCountsAddUp(items: seq<AnalysisItem>)
    requires AllRisksKnown(items)
    ensures CountRisk(items, "High") + CountRisk(items, "Medium") + CountRisk(items, "Low") == |items|
    decreases |items|
  {
    if items != [] {
      var init := items[..|items| - 1];
      assert AllRisksKnown(init) by {
        assert forall i :: 0 <= i < |init| ==> init[i] == items[i];
      }
      RiskCountsAddUp(init);
      assert IsLevel(RiskOf(items[|items| - 1]));
    }
  }

  /** There are at most as many categories as items, and at least one when there is an item. */
  lemma {:induction false} CategoryCountBounds(items: seq<AnalysisItem>)
    ensures |Categories(items)| <= |items|
    ensures items != [] ==> |Categories(items)| >= 1
    decreases |items|
  {
    if items != [] {
      var init := items[..|items| - 1];
      CategoriesSnoc(items);
      CategoryCountBounds(init);
    }
  }

  /** An item without a `data_category` is counted under `Uncategorized`. */
  lemma UncategorizedCounted(items: seq<AnalysisItem>, i: nat)
    requires i < |items| && items[i].dataCategory.None?
    ensures "Uncategorized" in Categories(items)
  {
    assert CategoryOf(items[i]) == "Uncategorized";
  }

  // ===========================================================================
  // `_generate_impact_description` (lines 253-260)

  /**
   * The entry of `impact_descriptions` for a privacy impact level, and
   * `Impact level not specified` for any other value.
   */
  function ImpactDescription(impact: string): (d: string)
    ensures IsLevel(impact) <==> d != "Impact level not specified"
  {
    if impact == "High" then "Significant privacy concerns requiring immediate attention"
    else if impact == "Medium" then "Moderate privacy concerns requiring regular monitoring"
    else if impact == "Low" then "Minor privacy concerns with limited potential impact"
    else "Impact level not specified"
  }

  /** The three levels get three different descriptions. */
  lemma ImpactDescriptionsDistinct(a: string, b: string)
    requires IsLevel(a) && IsLevel(b) && a != b
    ensures ImpactDescription(a) != ImpactDescription(b)
  {
  }

  // ===========================================================================
  // The grouping of the privacy-impact sheet (lines 166-183)

  /** `item.get('privacy_impact', '')`. */
  function ImpactOf(item: AnalysisItem): string {
    item.privacyImpact.GetOr("")
  }

  /** The steps of `item['mitigation_steps']` when present; an absent key adds no step. */
  function MitigationOf(item: AnalysisItem): set<string> {
    var steps := item.mitigationSteps.GetOr([]);
    set k | 0 <= k < |steps| :: steps[k]
  }

  /** The impact of every item, in order. */
  function Impacts(items: seq<AnalysisItem>): (r: seq<string>)
    ensures |r| == |items| && forall i :: 0 <= i < |items| ==> r[i] == ImpactOf(items[i])
  {
    seq(|items|, i requires 0 <= i < |items| => ImpactOf(items[i]))
  }

  /** The affected `table.column` names of the items with impact `impact`. */
  function AffectedFor(items: seq<AnalysisItem>, impact: string): set<string> {
    set i | 0 <= i < |items| && ImpactOf(items[i]) == impact :: ItemName(items[i])
  }

  /** The mitigation steps of the items with impact `impact`. */
  function MitigationFor(items: seq<AnalysisItem>, impact: string): set<string> {
    set i, step | 0 <= i < |items| && ImpactOf(items[i]) == impact && step in MitigationOf(items[i]) :: step
  }

  /** The two sets `impact_areas` keeps per impact. */
  datatype ImpactArea = ImpactArea(affectedData: set<string>, mitigation: set<string>)

  lemma AffectedSnoc(items: seq<AnalysisItem>, impact: string)
    requires items != []
    ensures AffectedFor(items, impact)
         == AffectedFor(items[..|items| - 1], impact)
            + (if ImpactOf(items[|items| - 1]) == impact then {ItemName(items[|items| - 1])} else {})
  {
    var init := items[..|items| - 1];
    forall x | x in AffectedFor(items, impact)
      ensures x in AffectedFor(init, impact) || (ImpactOf(items[|items| - 1]) == impact && x == ItemName(items[|items| - 1]))
    {
      var i :| 0 <= i < |items| && ImpactOf(items[i]) == impact && ItemName(items[i]) == x;
      if i < |init| {
        assert init[i] == items[i];
      }
    }
    forall x | x in AffectedFor(init, impact)
      ensures x in AffectedFor(items, impact)
    {
      var i :| 0 <= i < |init| && ImpactOf(init[i]) == impact && ItemName(init[i]) == x;
      assert items[i] == init[i];
    }
  }

  lemma MitigationSnoc(items: seq<AnalysisItem>, impact: string)
    requires items != []
    ensures MitigationFor(items, impact)
         == MitigationFor(items[..|items| - 1], impact)
            + (if ImpactOf(items[|items| - 1]) == impact then MitigationOf(items[|items| - 1]) else {})
  {
    var init := items[..|items| - 1];
    var last := items[|items| - 1];
    forall x | x in MitigationFor(items, impact)
      ensures x in MitigationFor(init, impact) || (ImpactOf(last) == impact && x in MitigationOf(last))
    {
      var i :| 0 <= i < |items| && ImpactOf(items[i]) == impact && x in MitigationOf(items[i]);
      if i < |init| {
        assert init[i] == items[i];
      }
    }
    forall x | x in MitigationFor(init, impact)
      ensures x in MitigationFor(items, impact)
    {
      var i :| 0 <= i < |init| && ImpactOf(init[i]) == impact && x in MitigationOf(init[i]);
      assert items[i] == init[i];
    }
    forall x | ImpactOf(last) == impact && x in MitigationOf(last)
      ensures x in MitigationFor(items, impact)
    {
      assert ImpactOf(items[|items| - 1]) == impact && x in MitigationOf(items[|items| - 1]);
    }
  }

  /** An impact none of the first `n` items has collects nothing from them. */
  lemma UnseenImpactIsEmpty(items: seq<AnalysisItem>, n: nat, impact: string)
    requires n <= |items| && impact !in Impacts(items)[..n]
    ensures AffectedFor(items[..n], impact) == {} && MitigationFor(items[..n], impact) == {}
  {
    forall i | 0 <= i < n
      ensures ImpactOf(items[..n][i]) != impact
    {
      assert Impacts(items)[..n][i] == ImpactOf(items[i]);
    }
  }

  /** Every impact of `areas` holds the sets that the items `items` give it. */
  predicate Grouped(items: seq<AnalysisItem>, areas: map<string, ImpactArea>) {
    forall impact :: impact in areas ==>
      areas[impact] == ImpactArea(AffectedFor(items, impact), MitigationFor(items, impact))
  }

  /** Adding the last item to the sets of its impact keeps the grouping exact. */
  lemma GroupStep(items: seq<AnalysisItem>, areas: map<string, ImpactArea>, area: ImpactArea)
    requires items != []
    requires Grouped(items[..|items| - 1], areas)
    requires ImpactOf(items[|items| - 1]) in areas
    requires area == ImpactArea(
      areas[ImpactOf(items[|items| - 1])].affectedData + {ItemName(items[|items| - 1])},
      areas[ImpactOf(items[|items| - 1])].mitigation + MitigationOf(items[|items| - 1]))
    ensures Grouped(items, areas[ImpactOf(items[|items| - 1]) := area])
  {
    var impact := ImpactOf(items[|items| - 1]);
    var updated := areas[impact := area];
    forall other | other in updated
      ensures updated[other] == ImpactArea(AffectedFor(items, other), MitigationFor(items, other))
    {
      AffectedSnoc(items, other);
      MitigationSnoc(items, other);
      if other != impact {
        assert updated[other] == areas[other];
      }
    }
  }

  /**
   * The loop of lines 166-176: `order` is the key order of `impact_areas`,
   * which is the order in which the impacts first occur, and every impact
   * keeps the names of its items and the union of their mitigation steps.
   */
  method GroupByImpact(aiAnalysis: seq<AnalysisItem>) returns (order: seq<string>, impactAreas: map<string, ImpactArea>)
    ensures order == Dedup(Impacts(aiAnalysis))
    ensures forall impact :: impact in impactAreas <==> impact in Impacts(aiAnalysis)
    ensures forall impact :: impact in impactAreas <==> impact in order
    ensures Grouped(aiAnalysis, impactAreas)
  {
    order := [];
    impactAreas := map[];
    for i := 0 to |aiAnalysis|
      invariant order == Dedup(Impacts(aiAnalysis)[..i])
      invariant forall impact :: impact in impactAreas <==> impact in order
      invariant Grouped(aiAnalysis[..i], impactAreas)
    {
      var item := aiAnalysis[i];
      var prefix := aiAnalysis[..i + 1];
      assert prefix[..i] == aiAnalysis[..i];
      assert Impacts(aiAnalysis)[..i + 1][..i] == Impacts(aiAnalysis)[..i];
      var impact := ImpactOf(item);
      if impact !in impactAreas {
        DedupMembers(Impacts(aiAnalysis)[..i], impact);
        UnseenImpactIsEmpty(aiAnalysis, i, impact);
        order := order + [impact];
        impactAreas := impactAreas[impact := ImpactArea({}, {})];
      }
      var area := impactAreas[impact];
      area := area.(affectedData := area.affectedData + {ItemName(item)});
      if item.mitigationSteps.Some? {
        area := area.(mitigation := area.mitigation + MitigationOf(item));
      } else {
        assert MitigationOf(item) == {};
      }
      GroupStep(prefix, impactAreas, area);
      impactAreas := impactAreas[impact := area];
    }
    assert aiAnalysis[..|aiAnalysis|] == aiAnalysis;
    assert Impacts(aiAnalysis)[..|aiAnalysis|] == Impacts(aiAnalysis);
    forall impact
      ensures impact in impactAreas <==> impact in Impacts(aiAnalysis)
    {
      DedupMembers(Impacts(aiAnalysis), impact);
    }
  }

  /** One row of the privacy-impact sheet; `'\n'.join` of a set is kept as the set. */
  datatype ImpactRow = ImpactRow(impactArea: string, description: string, affectedData: set<string>, mitigationMeasures: set<string>)

  /**
   * `_create_privacy_impact_sheet`: one row per distinct impact, in the
   * order of first occurrence, with the impact's description, the names of
   * its items and their mitigation steps.
   */
  method CreatePrivacyImpactSheet(aiAnalysis: seq<AnalysisItem>) returns (rows: seq<ImpactRow>)
    ensures |rows| == |Dedup(Impacts(aiAnalysis))|
    ensures forall k :: 0 <= k < |rows| ==>
      var impact := Dedup(Impacts(aiAnalysis))[k];
      rows[k] == ImpactRow(impact, ImpactDescription(impact), AffectedFor(aiAnalysis, impact), MitigationFor(aiAnalysis, impact))
    ensures forall k, l :: 0 <= k < l < |rows| ==> rows[k].impactArea != rows[l].impactArea
  {
    var order, impactAreas := GroupByImpact(aiAnalysis);
    DedupDistinct(Impacts(aiAnalysis));
    rows := [];
    for k := 0 to |order|
      invariant |rows| == k
      invariant forall m :: 0 <= m < k ==>
        rows[m] == ImpactRow(order[m], ImpactDescription(order[m]), AffectedFor(aiAnalysis, order[m]), MitigationFor(aiAnalysis, order[m]))
    {
      var impact := order[k];
      var details := impactAreas[impact];
      rows := rows + [ImpactRow(impact, ImpactDescription(impact), details.affectedData, details.mitigation)];
    }
  }

  /**
   * Every item shows up in the row of its impact: its name among the
   * affected data, its mitigation steps among the measures.
   */
  lemma ItemInItsImpactRow(items: seq<AnalysisItem>, i: nat)
    requires i < |items|
    ensures ImpactOf(items[i]) in Dedup(Impacts(items))
    ensures ItemName(items[i]) in AffectedFor(items, ImpactOf(items[i]))
    ensures forall step :: step in MitigationOf(items[i]) ==> step in MitigationFor(items, ImpactOf(items[i]))
  {
    assert Impacts(items)[i] == ImpactOf(items[i]);
    DedupMembers(Impacts(items), ImpactOf(items[i]));
  }

  // ===========================================================================
  // `_extract_recommendations` (lines 262-286)

  /** The dict built for a recommendation. */
  datatype Recommendation = Recommendation(
    priority: string,
    recommendation: string,
    affectedItems: string,
    implementationSteps: string,
    expectedOutcome: string)

  /** The recommendation created for the first item with the action `action` (lines 271-277). */
  function NewRecommendation(item: AnalysisItem, action: string): Recommendation {
    Recommendation(
      RiskOf(item),
      action,
      ItemName(item),
      item.implementationSteps.GetOr("Steps not provided"),
      item.expectedOutcome.GetOr("Outcome not specified"))
  }

  /** The action of every recommendation, in order. */
  function Actions(recs: seq<Recommendation>): seq<string> {
    seq(|recs|, k requires 0 <= k < |recs| => recs[k].recommendation)
  }

  /** Lines 282-284: every recommendation for `action` gets `"\n" + name` appended to its affected items. */
  function AppendAffected(recs: seq<Recommendation>, action: string, name: string): seq<Recommendation> {
    seq(|recs|, k requires 0 <= k < |recs| =>
      if recs[k].recommendation == action
      then recs[k].(affectedItems := recs[k].affectedItems + "\n" + name)
      else recs[k])
  }

  /** What one item does to the list of recommendations (lines 268-284). */
  function CollectStep(recs: seq<Recommendation>, item: AnalysisItem): seq<Recommendation> {
    match item.recommendedAction
    case None => recs
    case Some(action) =>
      if action !in Actions(recs) then recs + [NewRecommendation(item, action)]
      else AppendAffected(recs, action, ItemName(item))
  }

  /** The list of recommendations after all of `items`, before sorting. */
  function Collect(items: seq<AnalysisItem>): seq<Recommendation>
    decreases |items|
  {
    if items == [] then [] else CollectStep(Collect(items[..|items| - 1]), items[|items| - 1])
  }

  /** Every priority is a key of the rank dict of line 286, so the sort key never fails. */
  predicate AllRanked(recs: seq<Recommendation>) {
    forall k :: 0 <= k < |recs| ==> IsLevel(recs[k].priority)
  }

  /** `{'High': 0, 'Medium': 1, 'Low': 2}[priority]`. */
  function Rank(priority: string): nat
    requires IsLevel(priority)
  {
    if priority == "High" then 0 else if priority == "Medium" then 1 else 2
  }

  function HasPriority(level: string): Recommendation -> bool {
    (rec: Recommendation) => rec.priority == level
  }

  /**
   * The stable sort of line 286 on ranked recommendations: the `High` ones,
   * then the `Medium` ones, then the `Low` ones, each group in its original
   * order. `SortedByRank`, `SortIsPermutation` and `SortIsStable` show it is
   * the one stable sort by rank.
   */
  function SortByPriority(recs: seq<Recommendation>): seq<Recommendation> {
    Filter(recs, HasPriority("High")) + Filter(recs, HasPriority("Medium")) + Filter(recs, HasPriority("Low"))
  }

  /**
   * `_extract_recommendations`: the collected recommendations sorted by
   * priority, or `None` when some priority has no rank (the `KeyError` of
   * the sort key).
   */
  method ExtractRecommendations(aiAnalysis: seq<AnalysisItem>) returns (sorted: Option<seq<Recommendation>>)
    ensures sorted.Some? <==> AllRanked(Collect(aiAnalysis))
    ensures sorted.Some? ==> sorted.value == SortByPriority(Collect(aiAnalysis))
  {
    var recommendations: seq<Recommendation> := [];
    var seenRecommendations: set<string> := {};
    for i := 0 to |aiAnalysis|
      invariant recommendations == Collect(aiAnalysis[..i])
      invariant forall action :: action in seenRecommendations <==> action in Actions(recommendations)
    {
      var item := aiAnalysis[i];
      assert aiAnalysis[..i + 1][..i] == aiAnalysis[..i];
      if item.recommendedAction.Some? {
        var action := item.recommendedAction.value;
        var before := recommendations;
        if action !in seenRecommendations {
          var recommendation := NewRecommendation(item, action);
          recommendations := recommendations + [recommendation];
          seenRecommendations := seenRecommendations + {action};
          assert Actions(recommendations) == Actions(before) + [action];
        } else {
          var name := ItemName(item);
          for k := 0 to |recommendations|
            invariant |recommendations| == |before|
            invariant forall m :: 0 <= m < k ==> recommendations[m] == AppendAffected(before, action, name)[m]
            invariant forall m :: k <= m < |before| ==> recommendations[m] == before[m]
          {
            var rec := recommendations[k];
            if rec.recommendation == action {
              recommendations := recommendations[k := rec.(affectedItems := rec.affectedItems + "\n" + name)];
            }
          }
          assert recommendations == AppendAffected(before, action, name);
          assert Actions(recommendations) == Actions(before);
        }
      }
    }
    assert aiAnalysis[..|aiAnalysis|] == aiAnalysis;
    if !AllRanked(recommendations) {
      return None;
    }
    sorted := Some(SortByPriority(recommendations));
  }

  // ---------------------------------------------------------------------------
  // The sort

  lemma FilterByTwoLevels(recs: seq<Recommendation>, a: string, b: string)
    ensures Filter(Filter(recs, HasPriority(a)), HasPriority(b)) == if a == b then Filter(recs, HasPriority(a)) else []
  {
    var f := Filter(recs, HasPriority(a));
    if a == b {
      FilterAll(f, HasPriority(b));
    } else {
      FilterNone(f, HasPriority(b));
    }
  }

  /** The sorted list is ordered by rank: `High` before `Medium` before `Low`. */
  lemma SortedByRank(recs: seq<Recommendation>)
    requires AllRanked(recs)
    ensures AllRanked(SortByPriority(recs))
    ensures forall i, j :: 0 <= i < j < |SortByPriority(recs)| ==>
      Rank(SortByPriority(recs)[i].priority) <= Rank(SortByPriority(recs)[j].priority)
  {
    var high := Filter(recs, HasPriority("High"));
    var medium := Filter(recs, HasPriority("Medium"));
    var low := Filter(recs, HasPriority("Low"));
    var sorted := high + medium + low;
    forall i | 0 <= i < |sorted|
      ensures sorted[i].priority == (if i < |high| then "High" else if i < |high| + |medium| then "Medium" else "Low")
    {
      if i < |high| {
        assert sorted[i] == high[i] && high[i] in high;
      } else if i < |high| + |medium| {
        assert sorted[i] == medium[i - |high|] && medium[i - |high|] in medium;
      } else {
        assert sorted[i] == low[i - |high| - |medium|] && low[i - |high| - |medium|] in low;
      }
    }
  }

  /** Sorting neither loses nor adds a recommendation. */
  lemma SortIsPermutation(recs: seq<Recommendation>)
    requires AllRanked(recs)
    ensures multiset(SortByPriority(recs)) == multiset(recs)
  {
    var high := Filter(recs, HasPriority("High"));
    var medium := Filter(recs, HasPriority("Medium"));
    var low := Filter(recs, HasPriority("Low"));
    forall x
      ensures multiset(SortByPriority(recs))[x] == multiset(recs)[x]
    {
      FilterMultiplicity(recs, HasPriority("High"), x);
      FilterMultiplicity(recs, HasPriority("Medium"), x);
      FilterMultiplicity(recs, HasPriority("Low"), x);
      assert multiset(SortByPriority(recs)) == multiset(high) + multiset(medium) + multiset(low);
      if x in recs {
        var k :| 0 <= k < |recs| && recs[k] == x;
        assert IsLevel(x.priority);
      } else {
        assert multiset(recs)[x] == 0;
      }
    }
  }

  /** Recommendations of the same priority keep their relative order. */
  lemma SortIsStable(recs: seq<Recommendation>, level: string)
    ensures Filter(SortByPriority(recs), HasPriority(level)) == Filter(recs, HasPriority(level))
      || !IsLevel(level)
  {
    if IsLevel(level) {
      var p := HasPriority(level);
      var high := Filter(recs, HasPriority("High"));
      var medium := Filter(recs, HasPriority("Medium"));
      var low := Filter(recs, HasPriority("Low"));
      FilterAppend(high + medium, low, p);
      FilterAppend(high, medium, p);
      assert Filter(SortByPriority(recs), p) == Filter(high, p) + Filter(medium, p) + Filter(low, p);
      FilterByTwoLevels(recs, "High", level);
      FilterByTwoLevels(recs, "Medium", level);
      FilterByTwoLevels(recs, "Low", level);
      if level == "High" {
        assert Filter(high, p) + Filter(medium, p) + Filter(low, p) == high + [] + [];
      } else if level == "Medium" {
        assert Filter(high, p) + Filter(medium, p) + Filter(low, p) == [] + medium + [];
      } else {
        assert Filter(high, p) + Filter(medium, p) + Filter(low, p) == [] + [] + low;
      }
    }
  }

  // ---------------------------------------------------------------------------
  // What the collected recommendations hold

  /** The actions of the items that have the key `recommended_action`, in order. */
  function ActionsOf(items: seq<AnalysisItem>): seq<string>
    decreases |items|
  {
    if items == [] then []
    else
      var last := items[|items| - 1];
      ActionsOf(items[..|items| - 1]) + (if last.recommendedAction.Some? then [last.recommendedAction.value] else [])
  }

  /** The `table.column` names of the items whose action is `action`, in order. */
  function NamesFor(items: seq<AnalysisItem>, action: string): seq<string>
    decreases |items|
  {
    if items == [] then []
    else
      var last := items[|items| - 1];
      NamesFor(items[..|items| - 1], action) + (if last.recommendedAction == Some(action) then [ItemName(last)] else [])
  }

  /** Item `j` is the first with the action `action`. */
  predicate FirstWith(items: seq<AnalysisItem>, j: int, action: string) {
    && 0 <= j < |items|
    && items[j].recommendedAction == Some(action)
    && forall i :: 0 <= i < j ==> items[i].recommendedAction != Some(action)
  }

  /**
   * `rec` is the recommendation `items` give for its action: priority,
   * steps and outcome come from the first item with that action, and the
   * affected items are the names of all items with that action, one per line.
   */
  predicate Describes(items: seq<AnalysisItem>, rec: Recommendation) {
    exists j :: 0 <= j < |items| && FirstWith(items, j, rec.recommendation)
      && rec == NewRecommendation(items[j], rec.recommendation).(
           affectedItems := Join(NamesFor(items, rec.recommendation), '\n'))
  }

  /** Some item has the action `action`. */
  predicate Recommends(items: seq<AnalysisItem>, action: string) {
    exists j :: 0 <= j < |items| && items[j].recommendedAction == Some(action)
  }

  lemma RecommendsSnoc(items: seq<AnalysisItem>, action: string)
    requires items != []
    ensures Recommends(items, action)
      <==> Recommends(items[..|items| - 1], action) || items[|items| - 1].recommendedAction == Some(action)
  {
    var init := items[..|items| - 1];
    if Recommends(items, action) {
      var j :| 0 <= j < |items| && items[j].recommendedAction == Some(action);
      if j < |init| {
        assert init[j] == items[j];
      }
    }
    if Recommends(init, action) {
      var j :| 0 <= j < |init| && init[j].recommendedAction == Some(action);
      assert items[j] == init[j];
    }
  }

  /** An action is seen iff some item has it, iff some item is listed under it. */
  lemma {:induction false} ActionsOfMembers(items: seq<AnalysisItem>, action: string)
    ensures action in ActionsOf(items) <==> Recommends(items, action)
    ensures action in ActionsOf(items) <==> NamesFor(items, action) != []
    decreases |items|
  {
    if items != [] {
      var init := items[..|items| - 1];
      var last := items[|items| - 1];
      ActionsOfMembers(init, action);
      RecommendsSnoc(items, action);
      assert action in ActionsOf(items) <==> action in ActionsOf(init) || last.recommendedAction == Some(action);
      assert NamesFor(items, action) != [] <==> NamesFor(init, action) != [] || last.recommendedAction == Some(action);
    }
  }

  /**
   * One recommendation per distinct action, in the order in which the
   * actions first occur; items without the key contribute nothing.
   */
  lemma {:induction false} CollectActions(items: seq<AnalysisItem>)
    ensures Actions(Collect(items)) == Dedup(ActionsOf(items))
    decreases |items|
  {
    if items != [] {
      var init := items[..|items| - 1];
      var last := items[|items| - 1];
      var recs := Collect(init);
      CollectActions(init);
      match last.recommendedAction
      case None =>
        assert ActionsOf(items) == ActionsOf(init);
      case Some(action) =>
        assert ActionsOf(items) == ActionsOf(init) + [action];
        assert ActionsOf(items)[..|ActionsOf(items)| - 1] == ActionsOf(init);
        DedupMembers(ActionsOf(init), action);
        if action !in Actions(recs) {
          assert Actions(recs + [NewRecommendation(last, action)]) == Actions(recs) + [action];
        } else {
          assert Actions(AppendAffected(recs, action, ItemName(last))) == Actions(recs);
        }
    }
  }

  /** No two recommendations share an action. */
  lemma CollectDistinctActions(items: seq<AnalysisItem>)
    ensures forall i, j :: 0 <= i < j < |Collect(items)| ==> Collect(items)[i].recommendation != Collect(items)[j].recommendation
  {
    CollectActions(items);
    DedupDistinct(ActionsOf(items));
    var recs := Collect(items);
    forall i, j | 0 <= i < j < |recs|
      ensures recs[i].recommendation != recs[j].recommendation
    {
      assert Actions(recs)[i] == recs[i].recommendation && Actions(recs)[j] == recs[j].recommendation;
    }
  }

  /** A recommendation whose action the next item does not have stays described. */
  lemma DescribesAfterOther(items: seq<AnalysisItem>, rec: Recommendation)
    requires items != []
    requires Describes(items[..|items| - 1], rec)
    requires items[|items| - 1].recommendedAction != Some(rec.recommendation)
    ensures Describes(items, rec)
  {
    var init := items[..|items| - 1];
    var j :| 0 <= j < |init| && FirstWith(init, j, rec.recommendation)
      && rec == NewRecommendation(init[j], rec.recommendation).(affectedItems := Join(NamesFor(init, rec.recommendation), '\n'));
    assert items[j] == init[j];
    assert forall i :: 0 <= i < j ==> items[i] == init[i];
    assert NamesFor(items, rec.recommendation) == NamesFor(init, rec.recommendation);
    assert FirstWith(items, j, rec.recommendation);
  }

  /** A repeated action appends the new item's name to its recommendation. */
  lemma DescribesAfterRepeat(items: seq<AnalysisItem>, rec: Recommendation)
    requires items != []
    requires Describes(items[..|items| - 1], rec)
    requires items[|items| - 1].recommendedAction == Some(rec.recommendation)
    ensures Describes(items, rec.(affectedItems := rec.affectedItems + "\n" + ItemName(items[|items| - 1])))
  {
    var init := items[..|items| - 1];
    var last := items[|items| - 1];
    var action := rec.recommendation;
    var j :| 0 <= j < |init| && FirstWith(init, j, action)
      && rec == NewRecommendation(init[j], action).(affectedItems := Join(NamesFor(init, action), '\n'));
    assert items[j] == init[j];
    assert forall i :: 0 <= i < j ==> items[i] == init[i];
    ActionsOfMembers(init, action);
    assert NamesFor(items, action) == NamesFor(init, action) + [ItemName(last)];
    JoinSnoc(NamesFor(init, action), '\n', ItemName(last));
    assert FirstWith(items, j, action);
  }

  /** A new action creates the recommendation of its first item. */
  lemma DescribesNew(items: seq<AnalysisItem>, action: string)
    requires items != []
    requires items[|items| - 1].recommendedAction == Some(action)
    requires action !in ActionsOf(items[..|items| - 1])
    ensures Describes(items, NewRecommendation(items[|items| - 1], action))
  {
    var init := items[..|items| - 1];
    var last := items[|items| - 1];
    ActionsOfMembers(init, action);
    assert forall i :: 0 <= i < |init| ==> items[i] == init[i];
    assert NamesFor(items, action) == [ItemName(last)];
    assert FirstWith(items, |items| - 1, action);
  }

  /**
   * Every collected recommendation is described by the items: its entry is
   * the one its action's first item created, and its affected items name
   * every item with that action, in order, one per line.
   */
  lemma {:induction false} CollectDescribes(items: seq<AnalysisItem>)
    ensures forall k :: 0 <= k < |Collect(items)| ==> Describes(items, Collect(items)[k])
    decreases |items|
  {
    if items != [] {
      var init := items[..|items| - 1];
      var last := items[|items| - 1];
      var recs := Collect(init);
      CollectDescribes(init);
      match last.recommendedAction
      case None =>
        forall k | 0 <= k < |recs|
          ensures Describes(items, recs[k])
        {
          DescribesAfterOther(items, recs[k]);
        }
      case Some(action) =>
        CollectActions(init);
        DedupMembers(ActionsOf(init), action);
        if action !in Actions(recs) {
          var next := recs + [NewRecommendation(last, action)];
          forall k | 0 <= k < |next|
            ensures Describes(items, next[k])
          {
            if k < |recs| {
              assert Actions(recs)[k] == recs[k].recommendation;
              DescribesAfterOther(items, recs[k]);
            } else {
              DescribesNew(items, action);
            }
          }
        } else {
          var next := AppendAffected(recs, action, ItemName(last));
          forall k | 0 <= k < |next|
            ensures Describes(items, next[k])
          {
            if recs[k].recommendation == action {
              DescribesAfterRepeat(items, recs[k]);
            } else {
              DescribesAfterOther(items, recs[k]);
            }
          }
        }
    }
  }

  /** An item without `recommended_action`, wherever it stands, changes nothing. */
  lemma {:induction false} ItemWithoutActionIgnored(xs: seq<AnalysisItem>, item: AnalysisItem, ys: seq<AnalysisItem>)
    requires item.recommendedAction.None?
    ensures Collect(xs + [item] + ys) == Collect(xs + ys)
    decreases |ys|
  {
    if ys == [] {
      assert xs + [item] + ys == xs + [item];
      assert (xs + [item])[..|xs|] == xs;
      assert xs + ys == xs;
    } else {
      var init := ys[..|ys| - 1];
      var y := ys[|ys| - 1];
      ItemWithoutActionIgnored(xs, item, init);
      assert (xs + [item] + ys)[..|xs + [item] + ys| - 1] == xs + [item] + init;
      assert (xs + ys)[..|xs + ys| - 1] == xs + init;
    }
  }
}
