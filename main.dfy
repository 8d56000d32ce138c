/**
 * The driver (src/main.py): it runs the classifier over every table of the
 * analysed schema and keeps the truthy results, tagged with the table's
 * name, for the report; and it filters a table's foreign keys by column.
 */
module PrivacyAnalyzer {
  import opened Wrappers
  import opened Seqs
  import SchemaAnalyzer
  import GeminiClient
  import SheetHandler
  import Strings

  /** One entry of `ai_results`. */
  datatype AiResult = AiResult(tableName: string, columnReport: seq<GeminiClient.Record>)

  /**
   * What `analyze_table_schema_data(table)` returns for one table: `render`
   * stands for `str(table_schema)` and `generate` for the Gemini call.
   */
  function Classification(
    table: SchemaAnalyzer.TableInfo,
    render: SchemaAnalyzer.TableInfo -> string,
    generate: string -> Option<string>): Option<seq<GeminiClient.Record>>
  {
    var reply := generate(GeminiClient.Prompt(render(table)));
    if reply.None? then None else Some(GeminiClient.Parse(reply.value))
  }

  /** The classifier the driver runs, as a function of the table. */
  function Classifier(render: SchemaAnalyzer.TableInfo -> string, generate: string -> Option<string>)
    : SchemaAnalyzer.TableInfo -> Option<seq<GeminiClient.Record>>
  {
    (table: SchemaAnalyzer.TableInfo) => Classification(table, render, generate)
  }

  /** `if classification:` holds for a non-empty list only; `None` and `[]` are falsy. */
  predicate Truthy(classification: Option<seq<GeminiClient.Record>>) {
    classification.Some? && classification.value != []
  }

  /** The results for the tables `tables`, in order, under the classifier `classify`. */
  function Results(
    tables: seq<SchemaAnalyzer.TableInfo>,
    classify: SchemaAnalyzer.TableInfo -> Option<seq<GeminiClient.Record>>): seq<AiResult>
    decreases |tables|
  {
    if tables == [] then []
    else
      var table := tables[|tables| - 1];
      Results(tables[..|tables| - 1], classify)
      + (if Truthy(classify(table)) then [AiResult(table.tableName, classify(table).value)] else [])
  }

  /**
   * `_process_schema_with_ai`: one result per table whose classification is
   * truthy, in schema order.
   */
  method ProcessSchemaWithAi(
    schemaInfo: SchemaAnalyzer.SchemaInfo,
    render: SchemaAnalyzer.TableInfo -> string,
    generate: string -> Option<string>) returns (aiResults: seq<AiResult>)
    ensures aiResults == Results(schemaInfo.tables, Classifier(render, generate))
  {
    var tables := schemaInfo.tables;
    aiResults := [];
    for i := 0 to |tables|
      invariant aiResults == Results(tables[..i], Classifier(render, generate))
    {
      var table := tables[i];
      var tableName := table.tableName;
      var classification := GeminiClient.AnalyzeTableSchemaData(render(table), generate);
      assert classification == Classifier(render, generate)(table);
      assert tables[..i + 1][..i] == tables[..i];
      if classification.Some? && classification.value != [] {
        aiResults := aiResults + [AiResult(tableName, classification.value)];
      }
    }
    assert tables[..|tables|] == tables;
  }

  // ---------------------------------------------------------------------------
  // Properties of the results

  /** There are at most as many results as tables. */
  lemma {:induction false} ResultsBound(
    tables: seq<SchemaAnalyzer.TableInfo>,
    classify: SchemaAnalyzer.TableInfo -> Option<seq<GeminiClient.Record>>)
    ensures |Results(tables, classify)| <= |tables|
    decreases |tables|
  {
    if tables != [] {
      ResultsBound(tables[..|tables| - 1], classify);
    }
  }

  /** The tables whose classification is truthy. */
  function Classified(classify: SchemaAnalyzer.TableInfo -> Option<seq<GeminiClient.Record>>)
    : SchemaAnalyzer.TableInfo -> bool
  {
    (table: SchemaAnalyzer.TableInfo) => Truthy(classify(table))
  }

  /**
   * The results are the classified tables, kept in schema order, each with
   * its name and its classification.
   */
  lemma {:induction false} ResultsAreClassifiedTables(
    tables: seq<SchemaAnalyzer.TableInfo>,
    classify: SchemaAnalyzer.TableInfo -> Option<seq<GeminiClient.Record>>)
    ensures var kept := Filter(tables, Classified(classify));
      && |Results(tables, classify)| == |kept|
      && forall k :: 0 <= k < |kept| ==>
           Truthy(classify(kept[k]))
           && Results(tables, classify)[k] == AiResult(kept[k].tableName, classify(kept[k]).value)
    decreases |tables|
  {
    if tables != [] {
      var init := tables[..|tables| - 1];
      var table := tables[|tables| - 1];
      ResultsAreClassifiedTables(init, classify);
      assert tables == init + [table];
      FilterAppend(init, [table], Classified(classify));
      assert [table][1..] == [];
      var kept := Filter(tables, Classified(classify));
      var keptInit := Filter(init, Classified(classify));
      forall k | 0 <= k < |kept|
        ensures Truthy(classify(kept[k]))
        ensures Results(tables, classify)[k] == AiResult(kept[k].tableName, classify(kept[k]).value)
      {
        if k < |keptInit| {
          assert kept[k] == keptInit[k];
        } else {
          assert kept[k] == table;
        }
      }
    }
  }

  /** Every result comes from a table of the schema, and its report is a non-empty list. */
  lemma ResultsComeFromTables(
    tables: seq<SchemaAnalyzer.TableInfo>,
    classify: SchemaAnalyzer.TableInfo -> Option<seq<GeminiClient.Record>>,
    k: nat)
    requires k < |Results(tables, classify)|
    ensures Results(tables, classify)[k].columnReport != []
    ensures exists i ::
      && 0 <= i < |tables|
      && Results(tables, classify)[k].tableName == tables[i].tableName
      && classify(tables[i]) == Some(Results(tables, classify)[k].columnReport)
  {
    ResultsAreClassifiedTables(tables, classify);
    var kept := Filter(tables, Classified(classify));
    assert kept[k] in kept;
    FilterMembers(tables, Classified(classify), kept[k]);
    var i :| 0 <= i < |tables| && tables[i] == kept[k];
  }

  /** A table whose classification is falsy contributes nothing, wherever it stands. */
  lemma {:induction false} FalsyTableSkipped(
    xs: seq<SchemaAnalyzer.TableInfo>,
    table: SchemaAnalyzer.TableInfo,
    ys: seq<SchemaAnalyzer.TableInfo>,
    classify: SchemaAnalyzer.TableInfo -> Option<seq<GeminiClient.Record>>)
    requires !Truthy(classify(table))
    ensures Results(xs + [table] + ys, classify) == Results(xs + ys, classify)
    decreases |ys|
  {
    if ys == [] {
      assert xs + [table] + ys == xs + [table];
      assert (xs + [table])[..|xs|] == xs;
      assert xs + ys == xs;
    } else {
      var init := ys[..|ys| - 1];
      FalsyTableSkipped(xs, table, init, classify);
      assert (xs + [table] + ys)[..|xs + [table] + ys| - 1] == xs + [table] + init;
      assert (xs + ys)[..|xs + ys| - 1] == xs + init;
    }
  }

  // ---------------------------------------------------------------------------
  // `_find_relationships` (lines 112-114)

  function HasColumn(columnName: string): SchemaAnalyzer.Relationship -> bool {
    (rel: SchemaAnalyzer.Relationship) => rel.columnName == columnName
  }

  /**
   * The relationships on the column `columnName`: exactly those, each as
   * often as it occurs.
   */
  function FindRelationships(relationships: seq<SchemaAnalyzer.Relationship>, columnName: string)
    : (found: seq<SchemaAnalyzer.Relationship>)
    ensures forall rel :: rel in found <==> rel in relationships && rel.columnName == columnName
    ensures forall rel :: multiset(found)[rel] == if rel.columnName == columnName then multiset(relationships)[rel] else 0
  {
    var found := Filter(relationships, HasColumn(columnName));
    assert forall rel :: rel in found <==> rel in relationships && rel.columnName == columnName by {
      forall rel {
        FilterMembers(relationships, HasColumn(columnName), rel);
      }
    }
    assert forall rel :: multiset(found)[rel] == if rel.columnName == columnName then multiset(relationships)[rel] else 0 by {
      forall rel {
        FilterMultiplicity(relationships, HasColumn(columnName), rel);
      }
    }
    found
  }

  /**
   * The filter keeps the original order: filtering a concatenation is
   * concatenating the filtered parts.
   */
  lemma FindRelationshipsKeepsOrder(
    xs: seq<SchemaAnalyzer.Relationship>, ys: seq<SchemaAnalyzer.Relationship>, columnName: string)
    ensures FindRelationships(xs + ys, columnName) == FindRelationships(xs, columnName) + FindRelationships(ys, columnName)
  {
    FilterAppend(xs, ys, HasColumn(columnName));
  }

  // ---------------------------------------------------------------------------
  // From the parser to the detailed sheet

  /** A parsed record as the detailed sheet sees it: every value a string. */
  function ToColumnItem(r: GeminiClient.Record): SheetHandler.ColumnItem {
    map key | key in r :: SheetHandler.PyStr(r[key])
  }

  /** The capitalised keys of the detailed sheet are none of the parser's lower-case keys. */
  lemma RequiredFieldsAreNotParserKeys(f: string)
    requires f in SheetHandler.RequiredFields
    ensures f !in GeminiClient.ParserKeys
  {
    assert f[0] in "CDLP";
  }

  /**
   * The key mismatch: a record with the parser's keys flattens to a row
   * whose nine required fields are all `''`, and it logs no diagnostic.
   */
  lemma ParsedRecordFlattensToBlanks(table: string, r: GeminiClient.Record)
    requires r.Keys == GeminiClient.ParserKeys
    ensures forall f :: f in SheetHandler.RequiredFields ==>
      var row := SheetHandler.RowOf(table, ToColumnItem(r));
      f in row && row[f] == SheetHandler.PyStr("")
    ensures SheetHandler.FieldsLog(table, ToColumnItem(r), SheetHandler.RequiredFields) == []
  {
    var item := ToColumnItem(r);
    SheetHandler.RowShape(table, item);
    forall f | f in SheetHandler.RequiredFields
      ensures f !in item
    {
      RequiredFieldsAreNotParserKeys(f);
    }
    var log := SheetHandler.FieldsLog(table, item, SheetHandler.RequiredFields);
    if log != [] {
      SheetHandler.RowLogExact(table, item, log[0]);
      assert false;
    }
  }

  /** Every record of a reply has the parser's nine keys. */
  lemma ClassificationKeys(
    table: SchemaAnalyzer.TableInfo,
    render: SchemaAnalyzer.TableInfo -> string,
    generate: string -> Option<string>,
    r: GeminiClient.Record)
    requires Classification(table, render, generate).Some?
    requires r in Classification(table, render, generate).value
    ensures r.Keys == GeminiClient.ParserKeys
  {
    var reply := generate(GeminiClient.Prompt(render(table)));
    GeminiClient.RecordsHaveNineKeys(GeminiClient.Tokens(Strings.Split(reply.value, '\n')));
  }

  /**
   * End to end: every row of the detailed sheet built from the driver's
   * results, whatever the model replied, holds `''` in all nine required
   * fields.
   */
  lemma ReportRowsAreBlank(
    tables: seq<SchemaAnalyzer.TableInfo>,
    render: SchemaAnalyzer.TableInfo -> string,
    generate: string -> Option<string>,
    i: nat, j: nat, f: string)
    requires i < |Results(tables, Classifier(render, generate))|
    requires j < |Results(tables, Classifier(render, generate))[i].columnReport|
    requires f in SheetHandler.RequiredFields
    ensures var result := Results(tables, Classifier(render, generate))[i];
      var row := SheetHandler.RowOf(result.tableName, ToColumnItem(result.columnReport[j]));
      f in row && row[f] == SheetHandler.PyStr("")
  {
    var classify := Classifier(render, generate);
    var result := Results(tables, classify)[i];
    ResultsComeFromTables(tables, classify, i);
    var t :| && 0 <= t < |tables|
      && result.tableName == tables[t].tableName
      && classify(tables[t]) == Some(result.columnReport);
    assert result.columnReport[j] in result.columnReport;
    ClassificationKeys(tables[t], render, generate, result.columnReport[j]);
    ParsedRecordFlattensToBlanks(result.tableName, result.columnReport[j]);
  }
}
