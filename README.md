# Database privacy analyzer — verified model of the core

The analyzer connects to a MySQL database and reads its catalog
(`information_schema`). For every table it asks the Gemini model to classify
each column for privacy. It parses the model's free-text reply into
records, one per column, and writes the results to an Excel report.

This project models the deterministic core of that pipeline in Dafny and
proves properties of the model:

- `GeminiClient` (gemini_client.dfy) models three things:
  - the prompt sent for one table;
  - the `_parse_analysis` state machine, which turns the reply into a list
    of nine-key records;
  - the wrapper that turns any failure of the call into `None`.
- `SchemaAnalyzer` (db_schema_analyzer.dfy) maps the fetched catalog rows to
  one entry per table, with the table's columns, foreign keys and metadata.
- `SheetHandler` (sheet_handler.dfy) models the row data that the report
  sheets hand to pandas:
  - the detailed sheet and its missing-field diagnostics;
  - the summary counts;
  - the grouping by privacy impact;
  - the impact descriptions;
  - the deduplicated, priority-sorted recommendations.
- `PrivacyAnalyzer` (main.dfy) models the driver. It keeps the truthy
  classification of every table, and it filters foreign keys by column. It
  connects the parser to the detailed sheet end to end.
- `Wrappers`, `Strings` and `Seqs` hold the Python built-ins the core relies
  on:
  - `str.strip`, `str.lower`, `in` on strings, `str.split`, `str.join`;
  - list comprehension filters;
  - first-occurrence deduplication, which gives the key order of a dict
    filled in one pass.

Where the code works step by step, the model is imperative (`method` with a
loop), and each method is proved equal to a specification function. The
properties are then lemmas about those functions. This applies to:

- the parser loop;
- the sheet builders;
- the catalog loops;
- the driver loop.

Two behaviours of the code are worth knowing when reading the report:

- Fields that follow the last `Personal Information` line of a reply are
  dropped (`GeminiClient.TrailingFieldsDropped`,
  `GeminiClient.NoFlushParsesToNothing`): the loop appends a record only on
  such a line, and returns the list with nothing else added.
- The detailed sheet looks up capitalised keys (`Column`, `Data Type`, …;
  src/sheet_handler.py:128-138), while the parser produces lower-case keys
  (`column`, `type`, …; src/gemini_client.py:142-152). So every value that
  goes from the parser to the detailed sheet is blank, and nothing is logged
  (`PrivacyAnalyzer.ParsedRecordFlattensToBlanks`,
  `PrivacyAnalyzer.ReportRowsAreBlank`).

## Model

| member | source | states |
|---|---|---|
| Wrappers.GetOr | src/sheet_handler.py:141-146 | `d.get(key, default)` once the lookup has produced an option: the stored value when present, else the default |
| GeminiClient.Key | src/gemini_client.py:162-188 | every marker the parser searches for is one of the nine keys of the working record |
| GeminiClient.KeyInjective | src/gemini_client.py:162-188 | distinct fields search for distinct markers, so each branch writes its own key |
| GeminiClient.Rank | src/gemini_client.py:162-188 | each field has a unique position in the elif order |
| GeminiClient.RankOfFields | src/gemini_client.py:162-188 | the position of the n-th field of the elif order is n |
| GeminiClient.Blank | src/gemini_client.py:142-152 | the initial working record has exactly the nine keys, each holding `''` |
| GeminiClient.Classify | src/gemini_client.py:162-188 | a line is classified only when it contains a colon |
| GeminiClient.ClassifyIsFirstMarker | src/gemini_client.py:160-188 | the classification is the first marker, in elif order, found in the lower-cased line, and nothing for a line without a colon |
| GeminiClient.FirstMarkerFinds | src/gemini_client.py:162-188 | the search from position n finds field f exactly when f's marker occurs and no earlier marker from n on does |
| GeminiClient.FirstMarkerMisses | src/gemini_client.py:162-188 | the search finds nothing exactly when no marker from position n on occurs |
| GeminiClient.ClassifyFirstMatch | src/gemini_client.py:159-188 | a line goes to field f iff it has a colon, its lower-cased text contains f's marker and contains no marker tested before f |
| GeminiClient.ClassifyNone | src/gemini_client.py:159-188 | a line is ignored iff it has no colon or contains no marker |
| GeminiClient.ClassifyIgnoresCase | src/gemini_client.py:160 | lines that agree after lower-casing are classified alike |
| GeminiClient.EarlierMarkerWins | src/gemini_client.py:162-188 | a line containing two markers never goes to the later one |
| GeminiClient.ValueAfterFirstColon | src/gemini_client.py:164 | the stored value is the stripped text after the first colon only, later colons included |
| GeminiClient.Value | src/gemini_client.py:164 | `line.split(':', 1)[1].strip()`; characterised by `ValueAfterFirstColon` |
| GeminiClient.Tokens | src/gemini_client.py:158-160 | each line of the reply is stripped and read on its own, in order |
| GeminiClient.TokensAppend | src/gemini_client.py:158 | reading two runs of lines one after the other is reading their concatenation |
| GeminiClient.Step | src/gemini_client.py:162-200 | one loop iteration: write the line's value under its key; on `personal information` append the record and reset to `Blank`; characterised by `OverwriteSameField`, `SwapDifferentFields`, `FlushSeparatesRecords` |
| GeminiClient.Run | src/gemini_client.py:154-200 | the loop's state after a run of lines; characterised by `RunSnoc`, `RunAppend`, `RunKeepsEmitted`, `WorkingRecordIsPending` |
| GeminiClient.Parse | src/gemini_client.py:131-202 | `_parse_analysis` of a reply; characterised by `OneRecordPerFlush`, `RecordsHaveNineKeys`, `EmittedRecord`, `TrailingFieldsDropped`, `NoFlushParsesToNothing` |
| GeminiClient.RunSnoc | src/gemini_client.py:158-200 | the state after one more line is one step from the state before it |
| GeminiClient.ParseLine | src/gemini_client.py:159-200 | one iteration of the loop body performs exactly one step of the state machine |
| GeminiClient.ParseAnalysis | src/gemini_client.py:131-202 | the loop returns exactly `Parse` of the reply |
| GeminiClient.RunAppend | src/gemini_client.py:158-200 | running over two runs of lines is running over the first, then the second |
| GeminiClient.RunKeepsEmitted | src/gemini_client.py:154-189 | records already emitted are never changed; new ones are appended after them |
| GeminiClient.NoFlushNoEmission | src/gemini_client.py:186-189 | lines that are not `personal information` lines emit nothing |
| GeminiClient.RecordsHaveNineKeys | src/gemini_client.py:142-200 | the working record and every returned record have exactly the nine keys |
| GeminiClient.OneRecordPerFlush | src/gemini_client.py:186-189 | there is one record per `personal information` line, in emission order, each holding that line's value |
| GeminiClient.WorkingRecordIsPending | src/gemini_client.py:162-200 | every field of the working record holds the value of its latest line since the last flush, or `''` |
| GeminiClient.EmittedRecord | src/gemini_client.py:186-200 | a flush appends one record holding the flush value and the pending value of every other field, and keeps the earlier records |
| GeminiClient.LatestEntryWins | src/gemini_client.py:162-185 | within one record the last line for a field sets its value |
| GeminiClient.UnseenFieldIsEmpty | src/gemini_client.py:142-200 | a field with no line since the previous flush is `''` |
| GeminiClient.OverwriteSameField | src/gemini_client.py:162-185 | two writes of the same field in a row amount to the second one |
| GeminiClient.SwapDifferentFields | src/gemini_client.py:162-185 | the order of two adjacent lines for different non-flush fields does not matter |
| GeminiClient.IgnoredEntryIsInvisible | src/gemini_client.py:159-188 | an unclassified line changes nothing |
| GeminiClient.FlushSeparatesRecords | src/gemini_client.py:189-200 | after a flush the working record is all-empty and the rest of the reply is parsed as if from scratch |
| GeminiClient.TrailingFieldsDropped | src/gemini_client.py:158-202 | lines after the last `personal information` line do not change the result |
| GeminiClient.CompleteBlock | src/gemini_client.py:142-200 | a block of nine lines for distinct fields ending with `personal information` yields one record holding all nine values |
| GeminiClient.ParseJoinedLines | src/gemini_client.py:158 | splitting a reply on newlines recovers its lines |
| GeminiClient.IgnoredLineIsInvisible | src/gemini_client.py:158-188 | a reply line without a colon or without any marker can be removed without changing the result |
| GeminiClient.NoFlushParsesToNothing | src/gemini_client.py:154-202 | a reply without a `personal information` line parses to the empty list |
| GeminiClient.Prompt | src/gemini_client.py:50-117 | the f-string sent for one table; characterised by `PromptEmbedsSchema` and `PromptListsLabelsInOrder` |
| GeminiClient.PromptEmbedsSchema | src/gemini_client.py:50-62 | the prompt opens with the fixed preamble and then contains the table's rendering verbatim |
| GeminiClient.PieceStartNext | src/gemini_client.py:50-117 | each piece of the prompt starts where the previous one ends |
| GeminiClient.IndentedPiece | src/gemini_client.py:69-77 | an indented piece that follows a line break puts its label at the start of a prompt line |
| GeminiClient.RequirementsEndsWithNewline | src/gemini_client.py:64-68 | the requirements text before the field lines ends with a line break |
| GeminiClient.FieldPiece | src/gemini_client.py:69-77 | the k-th field line of the prompt is the k-th label, a colon and space, and its hint |
| GeminiClient.PieceBeforeFieldEndsLine | src/gemini_client.py:68-77 | the text before every field line ends with a line break |
| GeminiClient.LabelLine | src/gemini_client.py:69-77 | the k-th label starts a line of the prompt and is followed by `: ` |
| GeminiClient.PromptListsLabelsInOrder | src/gemini_client.py:69-77 | the prompt holds the nine field labels Column … Personal Information, each at the start of a line, in this order |
| GeminiClient.AnalyzeTableSchemaData | src/gemini_client.py:48-129 | the result is `None` exactly when the model call fails; otherwise it is the parse of the reply to the prompt for the table |
| GeminiClient.FirstMarker | src/gemini_client.py:162-188 | the first field in elif order whose marker occurs in the lower-cased line; characterised by `ClassifyIsFirstMarker`, `FirstMarkerFinds`, `FirstMarkerMisses` |
| GeminiClient.Lex | src/gemini_client.py:159-188 | one raw line stripped, classified by the first matching branch and, when a branch matches, paired with the stripped text after its first colon; characterised by `Tokens`, `ParseLine`, `ClassifyFirstMatch`, `ValueAfterFirstColon` |
| GeminiClient.IsFlush | src/gemini_client.py:186-200 | the entry of a `personal information` line, the only one that appends the working record; used by `NoFlushNoEmission`, `FlushSeparatesRecords`, `TrailingFieldsDropped` |
| GeminiClient.Records | src/gemini_client.py:154-202 | `parsed_dictionaries` after the loop over the entries; characterised by `OneRecordPerFlush`, `RecordsHaveNineKeys`, `EmittedRecord`, `FlushSeparatesRecords`, `TrailingFieldsDropped`, `CompleteBlock` |
| GeminiClient.FlushValues | src/gemini_client.py:186-189 | the `personal information` values in reply order; `OneRecordPerFlush` shows that record k holds value k |
| GeminiClient.Pending | src/gemini_client.py:157-200 | the value a field holds in the working record: its latest line since the latest flush, else `''`; tied to the loop by `WorkingRecordIsPending`, `LatestEntryWins`, `UnseenFieldIsEmpty` |
| GeminiClient.FieldLine | src/gemini_client.py:69-77 | the template line `Label: [hint]` of one field, indented; characterised by `FieldPiece` and `LabelLine` |
| GeminiClient.FieldLines | src/gemini_client.py:69-77 | the nine template lines in order; characterised by `FieldPiece` |
| GeminiClient.PromptPieces | src/gemini_client.py:50-117 | the prompt as preamble, table rendering, requirements, nine field lines and guidelines; characterised by `PromptEmbedsSchema`, `FieldPiece`, `PieceBeforeFieldEndsLine` |
| GeminiClient.PieceStart | src/gemini_client.py:50-117 | the offset of a piece in the prompt; characterised by `PieceStartNext` |
| GeminiClient.LabelAt | src/gemini_client.py:69-77 | a label followed by `: ` at the start of an indented prompt line; established by `LabelLine` and `PromptListsLabelsInOrder` |
| GeminiClient.LabelPos | src/gemini_client.py:69-77 | where the k-th label starts; `PromptListsLabelsInOrder` shows the positions increase with k |
| SchemaAnalyzer.ColumnInfoOf | src/db_schema_analyzer.py:66-76 | text fields copied; nullable iff `YES`; primary iff `PRI`; unique iff `UNI` or `PRI`, so primary implies unique; auto-increment iff `auto_increment` is in the lower-cased `EXTRA` |
| SchemaAnalyzer.AutoIncrementAnyCase | src/db_schema_analyzer.py:74 | `auto_increment` in `EXTRA` is recognised whatever its case |
| SchemaAnalyzer.RelationshipOf | src/db_schema_analyzer.py:97-102 | the dict for one foreign-key row, the four fields copied; used by `GetRelationships` |
| SchemaAnalyzer.TableMetadataOf | src/db_schema_analyzer.py:121-127 | the dict for the metadata row, the five fields copied; used by `GetTableMetadata` |
| SchemaAnalyzer.GetColumnsInfo | src/db_schema_analyzer.py:48-79 | one entry per fetched column row, in order, each the mapping of that row |
| SchemaAnalyzer.GetRelationships | src/db_schema_analyzer.py:81-105 | one entry per fetched foreign-key row, in order, with the four fields copied |
| SchemaAnalyzer.GetTableMetadata | src/db_schema_analyzer.py:107-127 | the five metadata fields of the fetched row; the failure case exactly when no row is fetched |
| SchemaAnalyzer.GetTablesInfo | src/db_schema_analyzer.py:20-46 | one entry per listed table, in order, with its name, columns, foreign keys and metadata; fails exactly when some table has no metadata row |
| SchemaAnalyzer.AnalyzeSchema | src/db_schema_analyzer.py:10-18 | the database's name and the table entries; fails exactly when table assembly fails |
| SchemaAnalyzer.IsTableEntry | src/db_schema_analyzer.py:36-44 | the entry built for one table: its name, its columns and foreign keys converted row by row in order, and its metadata; established for every table by `GetTablesInfo` |
| SchemaAnalyzer.HasAllMetadata | src/db_schema_analyzer.py:120-127 | every listed table has a metadata row, so no `fetchone()` returns `None`; `GetTablesInfo` and `AnalyzeSchema` succeed exactly when it holds |
| SheetHandler.LogLine | src/sheet_handler.py:148 | the text of the diagnostic for a field of a table that holds `None` |
| SheetHandler.BuildRow | src/sheet_handler.py:143-150 | the row for one column item is `RowOf` and the diagnostics it logs are `FieldsLog` over the required fields |
| SheetHandler.BuildTableRows | src/sheet_handler.py:142-151 | the rows and diagnostics for one table item, column item by column item |
| SheetHandler.CreateDetailedAnalysisSheet | src/sheet_handler.py:115-154 | the sheet's rows are `DetailedRows` and its diagnostic log is `DetailedLog` of the whole analysis: one diagnostic per (column item, required field holding `None`), in input order and with repeats, so the log has as many entries as the error file gets lines |
| SheetHandler.ColumnRowsAt | src/sheet_handler.py:142-151 | one row per column item of a table item, in order |
| SheetHandler.DetailedRowCount | src/sheet_handler.py:140-151 | the row count is the sum of the `column_report` lengths |
| SheetHandler.DetailedRowAt | src/sheet_handler.py:140-151 | the row for column item j of table item i sits after the rows of all earlier items, in input order |
| SheetHandler.PartialRowShape | src/sheet_handler.py:143-150 | a partly built row has `Table` plus the keys filled so far, each holding its looked-up value |
| SheetHandler.RowShape | src/sheet_handler.py:128-150 | a row has exactly `Table` plus the nine required keys; `Table` is the item's table name; a field is the entry under that exact key, else `''` |
| SheetHandler.FieldsLogMembers | src/sheet_handler.py:145-149 | a diagnostic is logged for a field exactly when its looked-up value is `None` |
| SheetHandler.RowLogExact | src/sheet_handler.py:146-149 | a row logs a field iff that field is required, present and `None`; absent keys are not logged |
| SheetHandler.ColumnsLogMembers | src/sheet_handler.py:142-149 | a table item logs a field iff some of its column items holds `None` under it |
| SheetHandler.DetailedLogExact | src/sheet_handler.py:140-149 | the whole log holds a (field, table) diagnostic iff the field is required and some column item of an item with that table holds `None` under it |
| SheetHandler.Categories | src/sheet_handler.py:89-93 | the set of categories, defaulting to `Uncategorized`; characterised by `CategoriesSnoc`, `CategoryCountBounds`, `UncategorizedCounted` |
| SheetHandler.CountRisk | src/sheet_handler.py:90-94 | the count of one risk level, defaulting to `Low`; characterised by `RiskCountsAddUp` |
| SheetHandler.CategoriesSnoc | src/sheet_handler.py:92-93 | one more item adds its category, or `Uncategorized`, to the set of categories |
| SheetHandler.CreateSummarySheet | src/sheet_handler.py:79-113 | the four summary rows with the number of distinct categories and the three risk counts; fails exactly when some risk level is not High, Medium or Low |
| SheetHandler.RiskCountsAddUp | src/sheet_handler.py:90-94 | when every risk level is known, the High, Medium and Low counts add up to the number of items |
| SheetHandler.CategoryCountBounds | src/sheet_handler.py:89-99 | the category count is at most the number of items, and at least one when there are items |
| SheetHandler.UncategorizedCounted | src/sheet_handler.py:93 | an item without `data_category` counts as `Uncategorized` |
| SheetHandler.ImpactDescription | src/sheet_handler.py:253-260 | the text is the fallback `Impact level not specified` exactly when the impact is not High, Medium or Low |
| SheetHandler.ImpactDescriptionsDistinct | src/sheet_handler.py:255-259 | the three level texts differ from each other |
| SheetHandler.Impacts | src/sheet_handler.py:167-168 | the privacy impact of every item, defaulting to `''`, in order |
| SheetHandler.AffectedSnoc | src/sheet_handler.py:174 | one more item adds its `table.column` name to the affected data of its impact only |
| SheetHandler.MitigationSnoc | src/sheet_handler.py:175-176 | one more item adds its mitigation steps to the measures of its impact only |
| SheetHandler.UnseenImpactIsEmpty | src/sheet_handler.py:169-173 | an impact that no item has so far has no affected data and no measures |
| SheetHandler.GroupStep | src/sheet_handler.py:167-176 | one iteration of the grouping loop keeps the dict `Grouped`: each impact's entry holds `AffectedFor` and `MitigationFor` of the items so far |
| SheetHandler.GroupByImpact | src/sheet_handler.py:166-176 | the dict's keys are exactly the impacts, in order of first occurrence; each holds the affected names and measures of its impact |
| SheetHandler.CreatePrivacyImpactSheet | src/sheet_handler.py:166-183 | one row per distinct impact, in order of first occurrence, with its description, affected data and measures; no impact appears twice |
| SheetHandler.ItemInItsImpactRow | src/sheet_handler.py:166-183 | every item's impact has a row, which lists the item's name and all its mitigation steps |
| SheetHandler.NewRecommendation | src/sheet_handler.py:271-277 | the recommendation created for an action's first item: its risk level (default `Low`), the action, its `table.column`, and the steps and outcome with their defaults; characterised by `DescribesNew` |
| SheetHandler.Collect | src/sheet_handler.py:264-284 | the recommendations after the loop, before sorting; characterised by `CollectActions`, `CollectDistinctActions`, `CollectDescribes`, `ItemWithoutActionIgnored` |
| SheetHandler.SortByPriority | src/sheet_handler.py:286 | `sorted` by the rank dict: the `High`, then `Medium`, then `Low` recommendations, each group in input order; characterised by `SortedByRank`, `SortIsPermutation`, `SortIsStable` |
| SheetHandler.ExtractRecommendations | src/sheet_handler.py:262-286 | the recommendations collected in one pass, sorted by priority; fails exactly when some priority is not High, Medium or Low |
| SheetHandler.FilterByTwoLevels | src/sheet_handler.py:286 | recommendations of one priority have no other priority |
| SheetHandler.SortedByRank | src/sheet_handler.py:286 | the sorted list is ordered by rank, High before Medium before Low |
| SheetHandler.SortIsPermutation | src/sheet_handler.py:286 | the sorted list is a permutation of the collected one |
| SheetHandler.SortIsStable | src/sheet_handler.py:286 | the sort is stable: recommendations of one priority keep their relative order |
| SheetHandler.RecommendsSnoc | src/sheet_handler.py:267-269 | some item has an action iff an earlier item has it or the last one does |
| SheetHandler.ActionsOfMembers | src/sheet_handler.py:267-269 | an action is seen iff some item recommends it, iff it has at least one affected name |
| SheetHandler.CollectActions | src/sheet_handler.py:267-279 | one recommendation per distinct action, in order of first occurrence |
| SheetHandler.CollectDistinctActions | src/sheet_handler.py:265-279 | no two recommendations share an action |
| SheetHandler.DescribesAfterOther | src/sheet_handler.py:267-284 | an item with another action leaves a recommendation's description intact |
| SheetHandler.DescribesAfterRepeat | src/sheet_handler.py:280-284 | a repeated action appends a line break and the item's `table.column` to the affected items |
| SheetHandler.DescribesNew | src/sheet_handler.py:270-279 | a new action creates a recommendation from its item, with the defaults `Low`, `Steps not provided` and `Outcome not specified` |
| SheetHandler.CollectDescribes | src/sheet_handler.py:264-284 | every recommendation takes its fields from the first item with its action and lists the names of all items with that action, joined by line breaks |
| SheetHandler.ItemWithoutActionIgnored | src/sheet_handler.py:268 | items without `recommended_action` are ignored |
| SheetHandler.TableOf | src/sheet_handler.py:141 | `item.get('table_name', '')`; used by `DetailedRowAt` and `SomeEntryHoldsNone` |
| SheetHandler.Cell | src/sheet_handler.py:146 | `column_item.get(field, '')`; characterised by `PartialRowShape` |
| SheetHandler.PartialRow | src/sheet_handler.py:143-150 | `row_data` after some of the required fields are copied; characterised by `PartialRowShape` (keys `Table` plus the copied fields, each holding its cell) |
| SheetHandler.RowOf | src/sheet_handler.py:143-150 | the row of one column item; characterised by `RowShape` (exactly `Table` and the nine required keys, `Table` holding the table name, each key its cell or `''`) |
| SheetHandler.FieldsLog | src/sheet_handler.py:145-149 | the diagnostics written while one column item is copied; characterised by `FieldsLogMembers` and `RowLogExact` (one per required field holding `None`) |
| SheetHandler.ColumnRows | src/sheet_handler.py:142-151 | the rows of one table item, one per column item in order; characterised by `ColumnRowsAt` |
| SheetHandler.ColumnsLog | src/sheet_handler.py:142-149 | the diagnostics of one table item in order; characterised by `ColumnsLogMembers` |
| SheetHandler.SomeHoldsNone | src/sheet_handler.py:146-147 | some column item stores `None` under a field; the condition of `ColumnsLogMembers` |
| SheetHandler.DetailedRows | src/sheet_handler.py:140-151 | all rows of the detailed sheet; characterised by `DetailedRowCount` (one per column item) and `DetailedRowAt` (each row is `RowOf` its column item and table) |
| SheetHandler.DetailedLog | src/sheet_handler.py:140-149 | all diagnostics in the order they are written: for each item, each column item, each required field holding `None`; characterised by `DetailedLogExact` |
| SheetHandler.TotalColumns | src/sheet_handler.py:140-142 | the number of column items over all items; `DetailedRowCount` shows the sheet has that many rows |
| SheetHandler.SomeEntryHoldsNone | src/sheet_handler.py:140-147 | some item of a table has a column item storing `None` under a field; the condition of `DetailedLogExact` |
| SheetHandler.LogLineInjective | src/sheet_handler.py:148 | two diagnostics for required fields give the same line of the error file iff they name the same field and the same table |
| SheetHandler.ItemName | src/sheet_handler.py:174 | the `table.column` name of an item; used by `ItemInItsImpactRow` and `DescribesAfterRepeat` |
| SheetHandler.RiskOf | src/sheet_handler.py:94 | `item.get('risk_level', 'Low')`; counted by `CountRisk` and `RiskCountsAddUp` |
| SheetHandler.IsLevel | src/sheet_handler.py:90 | the three levels `High`, `Medium`, `Low`; `ImpactDescriptionsDistinct` and `Rank` are stated over them |
| SheetHandler.CategoryOf | src/sheet_handler.py:93 | `item.get('data_category', 'Uncategorized')`; characterised by `CategoriesSnoc` and `UncategorizedCounted` |
| SheetHandler.AllRisksKnown | src/sheet_handler.py:94 | every item's risk level is a key of `risk_levels`, so no `+= 1` raises `KeyError`; `CreateSummarySheet` returns a sheet exactly when it holds, and `RiskCountsAddUp` shows the three counts then add up to the number of items |
| SheetHandler.SummaryRows | src/sheet_handler.py:97-110 | the four rows of the summary sheet for given counts; `CreateSummarySheet` fills them with the number of distinct categories and the three risk counts |
| SheetHandler.ImpactOf | src/sheet_handler.py:168 | `item.get('privacy_impact', '')`; characterised by `ItemInItsImpactRow` |
| SheetHandler.MitigationOf | src/sheet_handler.py:175-176 | the mitigation steps of an item, none when the key is absent; characterised by `ItemInItsImpactRow` |
| SheetHandler.AffectedFor | src/sheet_handler.py:167-174 | the names of the items with a given impact; characterised by `AffectedSnoc`, `UnseenImpactIsEmpty`, `ItemInItsImpactRow` |
| SheetHandler.MitigationFor | src/sheet_handler.py:167-176 | the mitigation steps of the items with a given impact; characterised by `MitigationSnoc`, `UnseenImpactIsEmpty`, `ItemInItsImpactRow` |
| SheetHandler.Grouped | src/sheet_handler.py:166-176 | the loop invariant of the grouping: every seen impact holds the names and steps of its items so far; kept by `GroupStep`, established by `GroupByImpact` |
| SheetHandler.Actions | src/sheet_handler.py:270 | the actions of the recommendations in order; `CollectActions` shows they are the distinct actions of the items |
| SheetHandler.AppendAffected | src/sheet_handler.py:280-284 | every recommendation for the action gets a line break and the item's name appended; characterised through `CollectDescribes` and `DescribesAfterRepeat` |
| SheetHandler.CollectStep | src/sheet_handler.py:267-284 | what one item does: nothing without `recommended_action`, a new recommendation for an unseen action, or the name appended for a seen one; characterised through `Collect` by `CollectActions`, `CollectDistinctActions`, `CollectDescribes`, `ItemWithoutActionIgnored` |
| SheetHandler.AllRanked | src/sheet_handler.py:286 | every priority is a key of the rank dict, so the sort key never raises; `ExtractRecommendations` returns `None` exactly when it fails, and `SortedByRank`/`SortIsPermutation` assume it |
| SheetHandler.Rank | src/sheet_handler.py:286 | `{'High': 0, 'Medium': 1, 'Low': 2}[priority]`; `SortedByRank` shows the sorted list is ordered by it |
| SheetHandler.HasPriority | src/sheet_handler.py:286 | the recommendations of one level; `SortIsStable` shows each level keeps its order |
| SheetHandler.ActionsOf | src/sheet_handler.py:268-269 | the actions of the items that have one, in order; characterised by `ActionsOfMembers` and `CollectActions` |
| SheetHandler.NamesFor | src/sheet_handler.py:274-284 | the names of the items with a given action, in order; characterised by `ActionsOfMembers` and `CollectDescribes` |
| SheetHandler.FirstWith | src/sheet_handler.py:270-279 | an item is the first with its action; the item whose fields the recommendation takes in `Describes` |
| SheetHandler.Describes | src/sheet_handler.py:268-284 | a recommendation takes priority, steps and outcome from the first item with its action and lists all names with that action; established by `CollectDescribes` |
| SheetHandler.Recommends | src/sheet_handler.py:268-270 | some item has a given action; characterised by `RecommendsSnoc` and `ActionsOfMembers` |
| PrivacyAnalyzer.Results | src/main.py:96-107 | the kept results for a list of tables; characterised by `ResultsBound`, `ResultsAreClassifiedTables`, `ResultsComeFromTables`, `FalsyTableSkipped` |
| PrivacyAnalyzer.ProcessSchemaWithAi | src/main.py:92-110 | the loop returns exactly `Results` of the schema's tables under the classifier that prompts, calls and parses |
| PrivacyAnalyzer.ResultsBound | src/main.py:94-110 | there are at most as many results as tables |
| PrivacyAnalyzer.ResultsAreClassifiedTables | src/main.py:96-107 | the results are the tables with a truthy classification, in schema order, each with the table's name and its classification |
| PrivacyAnalyzer.ResultsComeFromTables | src/main.py:100-107 | every result has a non-empty report equal to the classification of a schema table with the result's name |
| PrivacyAnalyzer.FalsyTableSkipped | src/main.py:103 | a table whose classification is `None` or empty contributes nothing, wherever it stands |
| PrivacyAnalyzer.FindRelationships | src/main.py:112-114 | exactly the relationships on the given column, each as often as in the input |
| PrivacyAnalyzer.FindRelationshipsKeepsOrder | src/main.py:114 | the filter keeps the input order |
| PrivacyAnalyzer.RequiredFieldsAreNotParserKeys | src/sheet_handler.py:128-138 | none of the detailed sheet's required keys is a key the parser produces |
| PrivacyAnalyzer.ParsedRecordFlattensToBlanks | src/sheet_handler.py:145-150 | a record with the parser's keys yields `''` in every required field and logs nothing |
| PrivacyAnalyzer.ClassificationKeys | src/gemini_client.py:131-202 | every record of a classification has exactly the parser's nine keys |
| PrivacyAnalyzer.ReportRowsAreBlank | src/main.py:92-110 | every detailed-sheet row built from the driver's results is `''` in every required field, whatever the model replied |
| PrivacyAnalyzer.Classification | src/main.py:100 | `analyze_table_schema_data(table)` for a given reply function; characterised by `ClassificationKeys` (every record has exactly the nine parser keys) |
| PrivacyAnalyzer.Classifier | src/main.py:100 | the classification as a function of the table; `ProcessSchemaWithAi` returns `Results` over it and `ReportRowsAreBlank` states what the sheet makes of its records |
| PrivacyAnalyzer.Truthy | src/main.py:103 | `if classification:`: true for a non-empty list only; `FalsyTableSkipped` shows that `None` and `[]` add no result |
| PrivacyAnalyzer.Classified | src/main.py:100-103 | the tables whose classification is truthy; `ResultsAreClassifiedTables` shows the results are exactly these |
| PrivacyAnalyzer.HasColumn | src/main.py:114 | `rel['column_name'] == column_name`; characterised by `FindRelationships` |
| PrivacyAnalyzer.ToColumnItem | src/gemini_client.py:142-200 | a parsed record as the detailed sheet reads it, every value a string; characterised by `ParsedRecordFlattensToBlanks` |
| Strings.TrimStartSpec | src/gemini_client.py:159 | the left strip removes exactly the leading whitespace |
| Strings.TrimEndSpec | src/gemini_client.py:159 | the right strip removes exactly the trailing whitespace |
| Strings.StripSpec | src/gemini_client.py:159 | `strip()` leaves the inner slice without whitespace at either end |
| Strings.StripIdempotent | src/gemini_client.py:159 | stripping twice is stripping once |
| Strings.Lower | src/gemini_client.py:160 | lower-casing keeps the length and works character by character |
| Strings.LowerAppend | src/gemini_client.py:160 | lower-casing distributes over concatenation |
| Strings.LowerIdempotent | src/gemini_client.py:160 | lower-casing twice is lower-casing once |
| Strings.LowerKeepsNonLetter | src/gemini_client.py:160-162 | a colon or any non-letter occurs in a line iff it occurs in the lower-cased line |
| Strings.ContainsAt | src/gemini_client.py:162 | a substring at a known offset is contained |
| Strings.ContainsOffset | src/gemini_client.py:162 | a contained substring occurs at some offset |
| Strings.ContainsLower | src/db_schema_analyzer.py:74 | a contained substring stays contained after lower-casing both |
| Strings.ContainsPrefix | src/gemini_client.py:162 | a prefix is contained |
| Strings.IndexOf | src/gemini_client.py:164 | the position of the first occurrence of a character, or the length when absent |
| Strings.JoinSnoc | src/sheet_handler.py:284 | joining one more part appends the separator and the part |
| Strings.Split | src/gemini_client.py:158 | the parts hold no separator and join back to the text |
| Strings.SplitJoin | src/gemini_client.py:158 | splitting a join of separator-free parts recovers the parts |
| Strings.ConcatAppend | src/gemini_client.py:50-117 | concatenating two runs of pieces is concatenating their concatenations |
| Strings.ConcatPiece | src/gemini_client.py:50-117 | every piece appears verbatim at its offset in the concatenation |
| Strings.IsSpace | src/gemini_client.py:159 | the white-space characters `str.strip()` removes; used by `TrimStartSpec`, `TrimEndSpec`, `StripSpec` |
| Strings.TrimStart | src/gemini_client.py:159 | `lstrip()`; characterised by `TrimStartSpec` |
| Strings.TrimEnd | src/gemini_client.py:159 | `rstrip()`; characterised by `TrimEndSpec` |
| Strings.Strip | src/gemini_client.py:159 | `str.strip()`; characterised by `StripSpec` (the result is the input without its leading and trailing white space, and starts and ends with a non-space) and `StripIdempotent` |
| Strings.LowerChar | src/gemini_client.py:160 | `lower()` of one character: ASCII capitals become small letters, every other character is kept; used by `Lower` |
| Strings.StartsWith | src/gemini_client.py:162-188 | a prefix test used by the substring search `Contains` |
| Strings.Contains | src/gemini_client.py:162 | Python's `p in s`; characterised by `ContainsAt` (an occurrence at a position makes it true), `ContainsOffset` (a true test yields an occurrence), `ContainsLower`, `ContainsPrefix` |
| Strings.Join | src/sheet_handler.py:182-284 | `sep.join(parts)`; characterised by `JoinSnoc` (joining one more part appends the separator and the part) and `SplitJoin` (splitting on a separator none of the parts holds recovers the parts) |
| Strings.Concat | src/gemini_client.py:50-117 | `''.join(parts)`, the f-string as a sequence of pieces; characterised by `ConcatAppend` and `ConcatPiece` (each piece sits right after the pieces before it) |
| Seqs.Filter | src/main.py:114 | the filter is no longer than its input and keeps only elements from it that satisfy the test |
| Seqs.FilterMembers | src/main.py:114 | an element is kept iff it occurs and satisfies the test |
| Seqs.FilterMultiplicity | src/main.py:114 | every kept element occurs as often as in the input |
| Seqs.FilterAppend | src/main.py:114 | filtering a concatenation is concatenating the filtered parts |
| Seqs.FilterAll | src/sheet_handler.py:286 | filtering by a test every element passes changes nothing |
| Seqs.FilterNone | src/sheet_handler.py:286 | filtering by a test no element passes leaves nothing |
| Seqs.DedupMembers | src/sheet_handler.py:169-179 | first-occurrence order holds exactly the values of the input |
| Seqs.DedupDistinct | src/sheet_handler.py:169-179 | first-occurrence order holds no value twice |
| Seqs.SliceOfSlice | src/sheet_handler.py:140-151 | a slice of a slice is a slice of the original |
| Seqs.Dedup | src/sheet_handler.py:169-183 | the values of a list each once, in first-occurrence order (the content of a Python `set`); characterised by `DedupMembers` (same members) and `DedupDistinct` (no repeats) |

## Left out

- The Gemini API setup and network call (src/gemini_client.py:27-36, 118-119): the reply is the parameter `generate`. Any exception becomes `None`.
- The rendering `str(table_schema)` of a table inside the prompt: it is the opaque parameter `render`.
- The MySQL connection and every `cursor.execute`: the fetched rows are the input `Catalog`. A connection or query error, which the code propagates, is not modelled.
- `GetTableMetadata`, `GetTablesInfo` and `AnalyzeSchema`: `fetchone()` returning `None` makes the code raise a `TypeError`. The model returns `None` and aborts instead.
- `ColumnInfoOf`: `EXTRA` is assumed to be a string. A `NULL` would make `.lower()` raise.
- `Strings.Lower`: lowers ASCII letters only, while Python's `str.lower` lowers all of Unicode. All markers are ASCII, but a non-ASCII letter in a reply is not lower-cased by the model.
- The pandas `DataFrame` and Excel writing, `_apply_sheet_styling`, directory creation, and the `datetime.now()` timestamps in file names.
- `_create_recommendations_sheet` (lines 188-209): it only transposes the recommendations into columns for pandas.
- The diagnostic file append and `print` of the detailed sheet (lines 148-149): the log is the out-parameter `log`, a list of (field, table) pairs, one per line the code writes. `SheetHandler.LogLine` gives the text of each line and `SheetHandler.LogLineInjective` shows that distinct entries give distinct lines. The text itself is not an output of `CreateDetailedAnalysisSheet`.
- `time.sleep(3.9)`, logging setup, `progress_tracker`, configuration loading and environment variables.
- `current_field` in `_parse_analysis` always equals the literal of the branch that just set it and carries nothing from one line to the next, so the model has no such state.
- `CreatePrivacyImpactSheet`: the `'\n'.join` of a set depends on Python's set iteration order. The affected data and mitigation measures are kept as sets, not joined strings.
- `CreateDetailedAnalysisSheet`: a table item without a `column_report` key would raise `KeyError`. The model's items always carry the list.
- The summary, impact and recommendation sheets read analysis items with the keys `data_category`, `risk_level`, `privacy_impact`, `recommended_action`, `mitigation_steps`, `implementation_steps` and `expected_outcome`. Values are assumed to be strings, and `mitigation_steps` a list of strings.
- `CreateSummarySheet` and `ExtractRecommendations`: an unknown risk level makes the code raise `KeyError`. The model returns `None` instead.
- `analyze_database` (src/main.py:62-90), which passes the results on to the report generator: that chaining is not modelled. It returns `None`, since its `return report_path` is commented out; only the report generator returns the path.
