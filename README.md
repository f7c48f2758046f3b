# json2relcsv core, modelled in Dafny

json2relcsv reads a JSON document and turns it into a set of relational CSV
files. This project models the conversion core (`src/csv_gen.c`), the
linked-list builders and the tree printer of `src/ast.c`, and the option
parsing of `src/main.c`. It also proves properties of that model.

The converter works in two passes over the parsed tree:

- **Analysis** (`analyze_node`). This pass registers one table per object,
  named after the sanitized key that leads to the object. It registers one
  shared table per non-empty array whose first element is an object, with a
  `seq` column, and one junction table per non-empty array whose first
  element is not an object, with `index` and `value` columns; the first
  element alone decides, so `[1, {...}]` and `[[...]]` get junction tables.
  Every table gets `id` first and, below the root, the parent's key column
  `<parent>_id`. Scalar members become columns. An id counter starting at
  1 is bumped once per object the analysis reaches and once per object
  element of an array whose first element is an object; objects inside an
  array whose first element is not an object are never reached and take
  no id. New tables go to the head of the registry.
- **Writing** (`write_csv_files`). This pass writes one file,
  `<dir>/<table>.csv`, per registered table, head first. A file that cannot
  be opened is skipped. Each file gets a header line of the column names,
  then the rows of a fresh walk of the whole tree with the counter reset
  to 1 (`recursively_write_table_data`).
  - Strings are written quoted, with `"` doubled.
  - Booleans are written as `true`/`false` and numbers as their `%g` text.
  - Null and nested containers become empty fields.

Modules:

- `JsonTree`: the parsed tree.
- `Text`: joining, decimal text and concatenation helpers.
- `Naming`:
  - `safe_filename`;
  - `get_csv_file_path`.
- `CsvCells`: `write_csv_value` and a reader for the quoted form.
- `Registry`:
  - the table registry, as values (`Table`, `seq<Table>`);
  - as the classes the analyzer updates in place (`TableSchema`, `SchemaContext`).
- `Analyzer`: `analyze_node`.
  - The specification functions are `Analysis`, `MembersAnalysis` and `ElementsAnalysis`.
  - The methods walk the registry objects and are proved to end in the state those functions give.
- `CsvWriter`: the second pass.
  - `NodePass` and its mutually recursive companions give the rows one walk writes.
  - The `Write*` methods append exactly those rows to a `TableOutput`.
  - `WriteCsvFiles` yields the files.
- `Converter`: `generate_csv_tables`.
- `SameKeys`: `has_same_keys` over the linked key/value lists.
- `AstLists`:
  - the list creators and appenders of `src/ast.c`;
  - a class of linked cells.
- `AstPrint`:
  - `print_ast`, `print_indent` and `print_string_value`, producing the printed text;
  - a decoder for the escaped string form.
- `CommandLine`: `starts_with` and `parse_args`.
- `Scenarios`: whole documents worked through both passes down to the file text.

Some behaviour of the code is kept as written:

- Id drift between the two passes. In the writing pass, an object inside an
  array that is not the current table's array draws one id before the walk
  enters it, and the walk then gives the object the next id as its own. The comment at
  `src/csv_gen.c:433` says this mirrors the analysis, but it does not, so a
  child row can point at an id its parent table never wrote.
  `Scenarios.ForeignKeyMismatch` shows this on a concrete document. A
  second cause: each item of an array written to its own table takes an id
  (`src/csv_gen.c:355`), but the items of a scalar array take none in the
  analysis (`src/csv_gen.c:187-207`) nor in the walks for other tables, so
  every id after such an array differs between those passes.
- `has_same_keys` is documented as comparing key sets. It actually checks
  equal lengths and that each key of the first list occurs in the second.
  - That is key-set equality when the first list's keys are distinct (`SameKeys.DistinctSameKeys`).
  - It is not key-set equality with repeated keys, and it is not symmetric (`SameKeys.NotSymmetric`).

## Model

| member | source | states |
|---|---|---|
| Converter.GenerateCsvTables | src/csv_gen.c:43-64 | the files are those of the tables the analysis from "root" (empty registry, ids from 1) registers, minus the ones whose paths fail to open; the registry has unique names, duplicate-free columns and "id" first in every table; a file is produced iff its table's path opens, no path twice, at most one file per table |
| Naming.SafeFilename | src/csv_gen.c:633-649 | the loop yields `SafeName(key)`: "unnamed" for the empty key, otherwise the key with each character that is not an ASCII letter, digit or `_` replaced by `_` |
| Naming.SanitizedAt | src/csv_gen.c:640-646 | character by character: a letter, digit or `_` is kept, anything else becomes `_`; the length is unchanged |
| Naming.SafeNameChars | src/csv_gen.c:633-649 | an empty key gives "unnamed"; otherwise the name has the key's length in characters (bytes, for single-byte keys) and agrees with it exactly on the safe characters, with `_` elsewhere |
| Naming.SafeNameIsSafe | src/csv_gen.c:633-649 | every sanitized name is non-empty and made only of letters, digits and `_` |
| Naming.SafeNameFixedPoints | src/csv_gen.c:633-649 | a name is left unchanged iff it is already safe (both directions) |
| Naming.SafeNameIdempotent | src/csv_gen.c:633-649 | sanitizing twice gives the same name as sanitizing once |
| Naming.CsvFilePath | src/csv_gen.c:530-545 | the path ends in ".csv" and, with its terminator, fits in the `strlen(dir)+strlen(table)+6` bytes the C code allocates (one character counted as one byte), filling them exactly when the directory is neither empty nor "." |
| Naming.CsvFilePathInjective | src/csv_gen.c:530-545 | within one directory, different table names give different paths |
| CsvCells.WriteCsvValue | src/csv_gen.c:550-587 | the cell text is `CsvText(node)`: a string quoted with every `"` doubled, "true"/"false", a number's `%g` text, and an empty field for null, objects and arrays |
| CsvCells.UndoubleRoundTrip | src/csv_gen.c:557-571 | undoubling the quote-doubled body gives back exactly the original string |
| CsvCells.StringCellRoundTrip | src/csv_gen.c:557-571 | reading a string cell back (strip the quotes, undouble) gives the original string, so distinct strings give distinct cells |
| Registry.AddUniqueKeepsOrder | src/csv_gen.c:494-511 | adding a column keeps the earlier columns as a prefix, adds at most one, never duplicates, and the result holds exactly the old columns and the new one |
| Registry.AddColumnToAt | src/csv_gen.c:494-511 | entry by entry, only the table with that name gets the column; every other table is unchanged |
| Registry.FindOrCreateSpec | src/csv_gen.c:466-490 | a registered name leaves the registry unchanged; a new name puts a column-less table at the head; names stay unique and the name is then registered |
| Registry.AddColumnToSpec | src/csv_gen.c:494-511 | adding a column keeps the registry well formed, keeps every name, changes only the named table, whose columns become `AddUnique(old, column)` |
| Registry.AddColumnToUpdate | src/csv_gen.c:494-511 | with unique names, updating the one table at index `j` in place is the same as adding the column by name |
| Registry.TableSchema.constructor | src/csv_gen.c:477-485 | a new schema has the given name and no columns |
| Registry.TableSchema.AddColumn | src/csv_gen.c:494-511 | the scan appends the column iff it is absent: `columns == AddUnique(old(columns), column)` |
| Registry.SchemaContext.constructor | src/csv_gen.c:44 | an empty registry with the id counter at 1 |
| Registry.SchemaContext.FindOrCreateTable | src/csv_gen.c:466-490 | the registry becomes `FindOrCreate(old, name)`; the returned table has that name; a created table is fresh and prepended; the counter is unchanged; validity is kept |
| Registry.SchemaContext.AddColumn | src/csv_gen.c:494-511 | the registry becomes `AddColumnTo(old, table.name, column)`; the table list and the counter are unchanged; validity is kept |
| Analyzer.AnalyzeNode | src/csv_gen.c:72-216 | the registry and counter end as `Analysis(node, parent, key, old state)`; validity is kept |
| Analyzer.AnalyzeObject | src/csv_gen.c:77-126 | an object ends in `ObjectAnalysis`: resolve its table with key columns, take one id, then analyze its members |
| Analyzer.ResolveTable | src/csv_gen.c:79-92 | the table `SafeName(key)` is found or created and given "id" and, under a parent, the parent's key column; the returned table has that name; the counter is unchanged |
| Analyzer.AnalyzeMembers | src/csv_gen.c:98-124 | the member loop ends in `MembersAnalysis` over all members, in order |
| Analyzer.AnalyzeMember | src/csv_gen.c:101-121 | a container member is analyzed under the object's table; a scalar member adds its key as a column |
| Analyzer.AnalyzeObjectArray | src/csv_gen.c:130-186 | an array whose first element is an object ends in `ObjectArrayAnalysis`: one shared table with key columns and "seq", then every element |
| Analyzer.AnalyzeElements | src/csv_gen.c:151-186 | the element loop ends in `ElementsAnalysis` over all elements, in order |
| Analyzer.AnalyzeElement | src/csv_gen.c:153-182 | an object element takes one id; its container members are analyzed under the shared table and its scalar members become columns; a non-object element changes nothing |
| Analyzer.AnalyzeScalarArray | src/csv_gen.c:187-207 | an array whose first element is not an object ends in `ScalarArrayAnalysis`: a junction table with key columns, "index" and "value", and no id taken |
| Analyzer.KeyColumns | src/csv_gen.c:84-92 | the key columns start with "id", are non-empty and have no duplicates |
| Analyzer.NewTableKeys | src/csv_gen.c:79-92 | resolving an unregistered name puts a table with exactly its key columns at the head |
| Analyzer.NewObjectTable | src/csv_gen.c:77-96 | a new object table holds only its key columns, and the object takes exactly one id |
| Analyzer.NewObjectArrayTable | src/csv_gen.c:133-148 | a new object-array table holds its key columns then "seq"; opening it takes no id |
| Analyzer.NewJunctionTable | src/csv_gen.c:187-207 | a new junction table holds its key columns, "index" and "value"; no id is taken |
| Analyzer.ScalarMembersColumns | src/csv_gen.c:98-124 | scalar members only add columns: the object's table keeps its old columns as a prefix and gains exactly the members' keys; other tables, all names and the counter are unchanged |
| Analyzer.NothingToAnalyze | src/csv_gen.c:128-130 | a scalar, null or empty array leaves the registry and counter unchanged |
| Analyzer.ScalarArrayElementsIgnored | src/csv_gen.c:187-207 | a scalar array's kind is decided by its first element alone; its other elements are never looked at; it takes no id |
| Analyzer.AnalysisGrows | src/csv_gen.c:72-216 | every analysis keeps "id" first in every table and earlier tables in place with their old columns as a prefix; it advances the counter by exactly the ids the node draws |
| Analyzer.ObjectGrows | src/csv_gen.c:77-126 | the same growth invariant for an object, counting its own id and its members' ids |
| Analyzer.ObjectArrayGrows | src/csv_gen.c:130-186 | the same growth invariant for an array of objects |
| Analyzer.ScalarArrayGrows | src/csv_gen.c:187-207 | the same growth invariant for an array of scalars, with no id drawn |
| Analyzer.MembersGrows | src/csv_gen.c:98-124 | the same growth invariant over the first `n` members |
| Analyzer.MemberGrows | src/csv_gen.c:101-121 | the same growth invariant for one member |
| Analyzer.ElementsGrows | src/csv_gen.c:151-186 | the same growth invariant over the first `n` elements |
| Analyzer.ElementGrows | src/csv_gen.c:153-182 | the same growth invariant for one element |
| Analyzer.ObjectStartGrows | src/csv_gen.c:79-96 | resolving an object's table and taking its id keeps the invariant and draws one id |
| Analyzer.ArrayStartGrows | src/csv_gen.c:133-148 | opening an object array's table keeps the invariant and draws no id |
| Analyzer.WithKeyColumnsGrows | src/csv_gen.c:79-92 | resolving a table with its key columns keeps "id" first and grows the registry in place |
| Analyzer.AddColumnGrows | src/csv_gen.c:494-511 | adding a column grows every table in place |
| Analyzer.AddColumnKeepsNames | src/csv_gen.c:494-511 | adding a column renames no table |
| Analyzer.AddColumnToAbsent | src/csv_gen.c:494-511 | adding a column to an unregistered name changes nothing |
| Analyzer.IdStepGrows | src/csv_gen.c:96 | bumping the counter keeps the invariant and draws one id |
| Analyzer.NewTableId | src/csv_gen.c:79-92 | a new table resolved with its key columns has "id" first |
| Analyzer.ExtendsTrans | src/csv_gen.c:72-216 | growing in place is transitive |
| Analyzer.GrownTrans | src/csv_gen.c:72-216 | the growth invariant composes, and the drawn ids add up |
| CsvWriter.HeaderLine | src/csv_gen.c:242-248 | the header loop prints `HeaderText(columns)` |
| CsvWriter.HeaderLayout | src/csv_gen.c:242-248 | the header is the column names joined by "," and then a newline, with one comma fewer than there are columns |
| CsvWriter.RowLayout | src/csv_gen.c:288-332 | a data line is the row's field texts joined by "," and then a newline, with one comma fewer than there are fields |
| CsvWriter.FieldsJoined | src/csv_gen.c:328-330 | the first `n` fields, comma-separated, are the join of those fields |
| CsvWriter.LineJoined | src/csv_gen.c:328-330 | all fields, comma-separated, are the join of all fields |
| CsvWriter.RowsTextAppend | src/csv_gen.c:288-332 | the text of two runs of rows is the text of the first followed by the text of the second |
| CsvWriter.CellTexts | src/csv_gen.c:288-332 | one text per cell, in order |
| CsvWriter.CellField | src/csv_gen.c:293-321 | prints a cell: ids and positions in decimal, values through `write_csv_value`, a blank as nothing |
| CsvWriter.RowLine | src/csv_gen.c:288-332 | prints `RowText(row)` |
| CsvWriter.RowsLines | src/csv_gen.c:288-332 | prints `RowsText(rows)` |
| CsvWriter.LookupField | src/csv_gen.c:307-321 | the member search yields `Lookup(ps, column)` |
| CsvWriter.LookupFirst | src/csv_gen.c:309-320 | the first member with the column's key decides the field (its value, or blank when it is a container); no such member gives a blank, both ways |
| CsvWriter.KeyField | src/csv_gen.c:293-304 | the "id" column holds the row's id, the parent's key column the parent's id |
| CsvWriter.ObjectField | src/csv_gen.c:292-321 | an object row's field: a key column, or otherwise the looked-up member |
| CsvWriter.ItemField | src/csv_gen.c:361-403 | an array item's field: a key column, "seq"/"index" as its position, "value" as the item itself, or an object item's member |
| CsvWriter.ObjectCells | src/csv_gen.c:288-331 | one cell per column, cell `k` being the object's field for column `k` |
| CsvWriter.ItemCells | src/csv_gen.c:357-410 | one cell per column, cell `k` being the item's field for column `k` |
| CsvWriter.ObjectRow | src/csv_gen.c:288-331 | the field loop of an object row yields `ObjectCells` |
| CsvWriter.ItemRow | src/csv_gen.c:357-410 | the field loop of an item row yields `ItemCells` |
| CsvWriter.ForeignKeyDistinct | src/csv_gen.c:298-304 | a parent's key column never collides with "id", "seq", "index" or "value" |
| CsvWriter.ScalarItemCells | src/csv_gen.c:361-403 | a junction row holds its id, its parent's id, its position under "index"/"seq", the item under "value", and blanks elsewhere |
| CsvWriter.ScalarItemsRows | src/csv_gen.c:350-426 | a target array of scalars writes one row per item, in order, with ids counted up from the counter |
| CsvWriter.ItemCellPosition | src/csv_gen.c:346-381 | for every item, object or not, the "seq" and "index" fields hold the item's position in the array |
| CsvWriter.ObjectItemCells | src/csv_gen.c:361-396 | an object item's row holds its id, its parent's id, its position under "seq"/"index", and for every other column the first member with that key (blank when absent or a container) |
| CsvWriter.ItemsPassPrefix | src/csv_gen.c:350-426 | the walk over the first `m` items is a prefix of the walk over the first `n`; each further item adds at least one row and takes at least one id |
| CsvWriter.ItemRowAt | src/csv_gen.c:353-411 | item `k` of a target array, of any type, has its row right after the rows of the items before it, with the counter they left as id and its cells at position `k` |
| CsvWriter.ItemsRowsInOrder | src/csv_gen.c:350-426 | for all items of a target array: each item's row at that place, item rows in array order with strictly increasing ids; an object item's members' rows come between its row and the next item's |
| CsvWriter.ItemRowPosition | src/csv_gen.c:346-424 | in the row of item `k`, of any type, the "seq" or "index" field holds `k` |
| CsvWriter.ScalarElementsSilent | src/csv_gen.c:427-457 | a non-target array with no containers writes nothing and takes no id |
| CsvWriter.ScalarChildrenSilent | src/csv_gen.c:335-343 | members that are not containers write nothing and take no id |
| CsvWriter.RootRowFirst | src/csv_gen.c:252-253 | in the root table's file, the root object's row comes first with id 1 |
| CsvWriter.GoodPassAppend | src/csv_gen.c:337-343 | two consecutive well-behaved walks make a well-behaved walk |
| CsvWriter.NodePassGood | src/csv_gen.c:271-463 | every walk moves the counter forward; each row it writes has one field per column and its own id in "id"; the ids strictly increase and lie between the start and end counters |
| CsvWriter.ChildrenPassGood | src/csv_gen.c:337-343 | the same for the walk over an object's members |
| CsvWriter.ItemsPassGood | src/csv_gen.c:350-426 | the same for the walk over a target array's items |
| CsvWriter.ItemPassGood | src/csv_gen.c:353-423 | the same for one target item |
| CsvWriter.ElementsPassGood | src/csv_gen.c:427-457 | the same for the walk over a non-target array |
| CsvWriter.ElementPassGood | src/csv_gen.c:432-454 | the same for one non-target element |
| CsvWriter.ObjectPassSplit | src/csv_gen.c:281-343 | an object's walk is its own row, when its key names the table, then its members' walk with the counter one past its id |
| CsvWriter.TableOutput.constructor | src/csv_gen.c:252 | an empty file with the counter at 1 |
| CsvWriter.WriteTableData | src/csv_gen.c:271-463 | appends exactly `NodePass(...).rows` and leaves the counter at `NodePass(...).next` |
| CsvWriter.WriteObject | src/csv_gen.c:281-343 | appends the object's own row, when it belongs to the table, then its members' rows; the counter ends where the members' walk ends |
| CsvWriter.WriteChildren | src/csv_gen.c:337-343 | appends exactly the members' walk |
| CsvWriter.WriteItems | src/csv_gen.c:350-426 | appends exactly the target array's walk |
| CsvWriter.WriteItem | src/csv_gen.c:353-425 | appends exactly one target item's walk |
| CsvWriter.WriteElements | src/csv_gen.c:427-457 | appends exactly the non-target array's walk |
| CsvWriter.WriteElement | src/csv_gen.c:432-454 | appends exactly one non-target element's walk |
| CsvWriter.WriteTable | src/csv_gen.c:241-255 | a table's file text is its header, then the rows of a walk from the root with the counter at 1 |
| CsvWriter.AllFiles | src/csv_gen.c:226-259 | one file per table, in registry order, at the table's path |
| CsvWriter.OpenedSpec | src/csv_gen.c:232-239 | of the first `n` files, a file is written iff its path opens (both ways), and no more than `n` |
| CsvWriter.OpenedAll | src/csv_gen.c:232-239 | when every path opens, every file is written, in order |
| CsvWriter.OpenedDistinct | src/csv_gen.c:232-239 | skipping files never makes two written files share a path |
| CsvWriter.AllFilesDistinct | src/csv_gen.c:230 | with unique table names, every table's file has a path of its own |
| CsvWriter.CsvFilesSpec | src/csv_gen.c:222-260 | the files written are exactly those of tables whose paths open, with distinct paths and at most one per table; all of them, in registry order, when none fails |
| CsvWriter.WriteCsvFiles | src/csv_gen.c:222-260 | the loop over the registry yields `CsvFiles(registry, dir, root, failing)` |
| SameKeys.Length | src/csv_gen.c:592-606 | the counting loop returns the number of pairs in the list |
| SameKeys.Contains | src/csv_gen.c:613-622 | the inner search finds the key iff some pair of the list has it |
| SameKeys.EveryKeyFound | src/csv_gen.c:611-626 | the outer loop succeeds iff every key of the first list occurs in the second |
| SameKeys.HasSameKeys | src/csv_gen.c:591-629 | 1 iff the lists are equally long and every key of the first occurs in the second, else 0 |
| SameKeys.DistinctSameKeys | src/csv_gen.c:589-629 | with distinct keys in the first list and equal lengths, the test is key-set equality, both ways |
| SameKeys.PermutationSameKeys | src/csv_gen.c:591-629 | the same keys in another order always pass |
| SameKeys.NotSymmetric | src/csv_gen.c:591-629 | with repeated keys the test is neither symmetric nor key-set equality |
| AstLists.ListCell.Singleton | src/ast.c:102-112 | a one-cell list holding the item, ending in null |
| AstLists.ListCell.Append | src/ast.c:116-137 | walks to the last cell and links a fresh one: items become old items plus the new one; the old cells stay in front, unchanged |
| AstLists.CreateKeyValueList | src/ast.c:102-112 | a fresh, valid list holding just the pair, ending in null |
| AstLists.AddKeyValuePair | src/ast.c:116-137 | the same head, with the pair last and the earlier pairs unchanged |
| AstLists.CreateNodeList | src/ast.c:141-151 | a fresh, valid list holding just the node, ending in null |
| AstLists.AddNodeToList | src/ast.c:155-176 | the same head, with the node last and the earlier nodes unchanged |
| AstPrint.PrintIndent | src/ast.c:179-183 | two spaces per level |
| AstPrint.PrintStringValue | src/ast.c:186-202 | prints `Quoted(s)`: the string between quotes, with `"`, `\`, newline, carriage return, tab, backspace and form feed escaped and every other character copied |
| AstPrint.UnescapeRoundTrip | src/ast.c:186-202 | decoding the escaped text gives back exactly the original string |
| AstPrint.EscapeInjective | src/ast.c:186-202 | different strings print differently |
| AstPrint.ControlCharactersPassThrough | src/ast.c:189-197 | other control characters are printed raw, not escaped |
| AstPrint.PrintAst | src/ast.c:205-252 | prints `AstText(node, indent)` |
| AstPrint.PrintMembers | src/ast.c:211-220 | the member loop prints `MembersText` over all members |
| AstPrint.PrintElements | src/ast.c:227-234 | the element loop prints `ElementsText` over all elements |
| AstPrint.MembersTextJoined | src/ast.c:211-220 | the first `n` member lines are the members' entries joined by ",\n", followed by ",\n" when more members follow and by a newline after the last |
| AstPrint.ElementsTextJoined | src/ast.c:227-234 | the first `n` element lines are the elements' entries joined by ",\n", followed by ",\n" when more elements follow and by a newline after the last |
| AstPrint.ObjectLayout | src/ast.c:209-224 | an empty object prints as "{", a newline, the indent and "}"; otherwise its member entries one level deeper, joined by ",\n", sit between "{\n" and a newline, the indent and "}" |
| AstPrint.ArrayLayout | src/ast.c:225-238 | the same layout for an array, between "[" and "]" |
| CommandLine.StartsWith | src/main.c:16-18 | true iff the prefix is no longer than the string and the string begins with it |
| CommandLine.FirstIndex | src/main.c:44 | the position of the first occurrence of the character |
| CommandLine.FoldAt | src/main.c:28-53 | one argument's effect: the flag, the directory option with its following value, an assignment, or nothing |
| CommandLine.ParseArg | src/main.c:29-52 | handles the argument at `i` and returns where the next one starts, with the remaining fold unchanged |
| CommandLine.ParseArgs | src/main.c:24-54 | the options equal `Parse(argv)`: the program name skipped, every argument handled left to right |
| CommandLine.ParseDefaults | src/main.c:25-26 | with no recognised option the AST is not printed and the directory is "." |
| CommandLine.UnrecognisedIgnored | src/main.c:28-53 | arguments that are not options change nothing |
| CommandLine.PrintAstAnywhere | src/main.c:29-30 | the AST is printed iff `--print-ast` appears as an argument, wherever it stands |
| CommandLine.FoldAppend | src/main.c:28-53 | parsing two runs of arguments is parsing the first then the second, when the second starts at an option boundary |
| CommandLine.AssignedValueAfterPrefix | src/main.c:42-46 | the value of `--out-dir=`/`--output-dir=` is everything after the first `=` |
| CommandLine.LastAssignmentWins | src/main.c:42-51 | a trailing `--out-dir=<v>` or `--output-dir=<v>` sets the directory to `<v>` when `<v>` is non-empty; an empty `<v>` keeps what the earlier arguments chose |
| CommandLine.LastDirOptionWins | src/main.c:31-41 | a trailing `--out-dir <v>` or `--output-dir <v>` sets the directory to `<v>` when `<v>` does not start with '-'; otherwise the option is dropped and `<v>` is read on its own |
| CommandLine.DanglingDirOptionIgnored | src/main.c:33-41 | a directory option with no value after it changes nothing |
| Text.NatTextRoundTrip | src/csv_gen.c:294 | the decimal text of a number reads back as that number |
| Text.JoinSeparators | src/csv_gen.c:242-247 | joining `n` fields with a one-character separator uses it `n - 1` times |
| Scenarios.RootStart | src/csv_gen.c:77-96 | the root object opens table "root" with just "id" and takes id 1 |
| Scenarios.MemberOfRoot | src/csv_gen.c:98-124 | under the root object, a container member is analyzed with "root" as parent |
| Scenarios.JunctionSchemas | src/csv_gen.c:187-207 | `{key: [scalars]}` registers a junction table "id, root_id, index, value" in front of "root" |
| Scenarios.WalkUnderRoot | src/csv_gen.c:281-343 | the walk of `{key: value}` is the root row, when the table is "root", then the walk of the value under the root with the counter at 2 |
| Scenarios.JunctionCells | src/csv_gen.c:357-410 | a junction row's cells are its id, the root's id 1, its position and the item |
| Scenarios.JunctionWalk | src/csv_gen.c:350-426 | for the junction table, the whole walk is the walk over the array's items from counter 2 |
| Scenarios.JunctionItems | src/csv_gen.c:350-426 | item `j` of a scalar array under the root gets id `2 + j` and points at the root's row |
| Scenarios.JunctionRows | src/csv_gen.c:350-426 | the junction file holds one row per item, in order, ids from 2, each pointing at the root |
| Scenarios.JunctionRootRows | src/csv_gen.c:427-457 | the root table's file for that document holds only the root's row |
| Scenarios.InnerWalk | src/csv_gen.c:281-343 | an object with only scalar members writes its own row if it belongs to the table, and nothing else |
| Scenarios.MemberWalk | src/csv_gen.c:337-343 | the walk over a single object member is that object's walk |
| Scenarios.ChildRows | src/csv_gen.c:427-457 | in the child's table, the list's element draws id 2 before the walk enters it; the walk then gives the object id 3, the id the child's foreign key holds; the child's row gets id 4. Id 2 is the one the list's table gives the same object (`ListRows`) |
| Scenarios.ListRows | src/csv_gen.c:350-426 | in the list's table, the same object is an item with id 2, and nothing below it is written there |
| Scenarios.ForeignKeyMismatch | src/csv_gen.c:433-437 | the child's foreign key 3 names no row of the list's table, whose only row has id 2 |
| Scenarios.TagsSchemas | src/csv_gen.c:187-207 | `{"tags": ["a", "b"]}` registers "tags" (id, root_id, index, value) in front of "root" |
| Scenarios.TagsRows | src/csv_gen.c:350-426 | its tags rows are ids 2 and 3, positions 0 and 1, both pointing at the root's id 1 |
| Scenarios.TagsHeader | src/csv_gen.c:242-248 | the header of tags.csv is `id,root_id,index,value` |
| Scenarios.SmallRowText | src/csv_gen.c:288-332 | a junction row of single digits and a one-letter string prints as `id,parent,pos,"c"` |
| Scenarios.TagsRowsText | src/csv_gen.c:288-332 | the data lines of tags.csv are `2,1,0,"a"` and `3,1,1,"b"` |
| Scenarios.TagsText | src/csv_gen.c:241-255 | tags.csv is, whole, the header and those two lines |
| Scenarios.ItemsElement | src/csv_gen.c:153-182 | an object element `{key: v}` takes an id and adds its key to the items table |
| Scenarios.ObjectArrayUnderRoot | src/csv_gen.c:130-148 | `{key: [objects]}` opens a shared table "id, root_id, seq" in front of "root", then analyzes the elements |
| Scenarios.ItemsArrayStart | src/csv_gen.c:130-148 | for the items document, the analysis up to the elements |
| Scenarios.ItemsElements | src/csv_gen.c:151-186 | the two elements add "x" then "y", each taking an id |
| Scenarios.ItemsSchemas | src/csv_gen.c:128-186 | `{"items": [{"x": a}, {"y": b}]}` registers "items" with id, root_id, seq, x, y (first-seen order) in front of "root" |
| Scenarios.ItemsCells | src/csv_gen.c:357-410 | an items row's cells: id, root id, position, then its own key filled and the other blank |
| Scenarios.ItemsItem | src/csv_gen.c:353-425 | one object item writes its row and nothing from its scalar member |
| Scenarios.ItemsArrayRows | src/csv_gen.c:350-426 | the two items get rows with ids 2 and 3 |
| Scenarios.ItemsRows | src/csv_gen.c:350-426 | the rows of items.csv: ids 2 and 3, seq 0 and 1, each item's own key filled and the other blank |
| Scenarios.ItemRowText | src/csv_gen.c:288-332 | such a row prints as digits followed by its two fields |
| Scenarios.QuotedLetter | src/csv_gen.c:557-571 | a one-letter string other than `"` is written as the letter in quotes |
| Scenarios.ItemsHeader | src/csv_gen.c:242-248 | the header of items.csv is `id,root_id,seq,x,y` |
| Scenarios.ItemsRowsText | src/csv_gen.c:288-332 | its data lines are `2,1,0,"a",` and `3,1,1,,"b"` |
| Scenarios.ItemsText | src/csv_gen.c:241-255 | items.csv is, whole, the header and those two lines; a column an item lacks is an empty field |

## Left out

- File-system effects are not modelled: `ensure_directory_exists` (mkdir), `fopen`, `fprintf`, `fclose` and the stderr messages. A file is a value (path, text). The paths that cannot be opened are given as the set `failing`.
- Number formatting with `%g` is not modelled. A number carries its `%g` text, and `write_csv_value` and `print_ast` print that text.
- Allocation failures (`malloc`/`realloc`/`strdup` returning NULL and the `exit(EXIT_FAILURE)` that follows) are not modelled, and neither are the `free` calls and the cleanup loop at the end of `generate_csv_tables`.
- The 256-byte buffer for foreign-key column names is not modelled. A parent key long enough to be truncated by `snprintf` is given its full `<key>_id` name.
- C `int` overflow of the id counters and column counts is not modelled; ids are unbounded integers.
- NULL guards are not modelled (`if (!node) return`, a NULL key in `safe_filename`, NULL lists). The tree has no null children, and an empty list is modelled as null only in `SameKeys`.
- Strings are sequences of characters. A NUL inside a string, where the C code would stop, is not modelled.
- Naming.SafeName: a character stands for one byte of the C string, so the model matches `safe_filename` only on single-byte input. With multi-byte UTF-8 input the C loop tests each byte and writes one `_` per byte, so `café` becomes `caf__` there but `caf_` here, which changes the file name and every child's `<parent>_id` column. `isalnum` on a byte above 127 passed as a negative `char` is undefined behaviour in C and is not modelled.
- Naming.CsvFilePath: its length bound counts characters as bytes. For multi-byte directory or table names the byte lengths that `strlen` and `malloc` see are larger than the character counts stated here.
- `isalnum` is taken as the ASCII letters and digits of the "C" locale.
- The `parent_id` parameter of `analyze_node` is never read by the C code and is dropped.
- The table registry's linked list of `TableSchema` records is modelled as a sequence of objects, head first. A table's column array is a sequence.
- The analyzer, the writer and the printer read objects and arrays as sequences of pairs and elements (`JsonTree`). They do not walk the linked cells that `AstLists` builds; `SameKeys` is the one operation that walks cells.
- Rows are collected as cell records in `TableOutput` and printed by `RowsLines`, rather than printed field by field as the walk goes. The text is the same.
- `print_ast` produces a string instead of writing to stdout.
- The lexer, the parser, the node constructors, `free_ast` and `main` are not part of this model.
- `AstLists.ListCell.Append`, `AstLists.AddKeyValuePair` and `AstLists.AddNodeToList` require an acyclic list ending in null (`Valid`). On a cyclic list the C loop never terminates.
- `has_same_keys` is never called by the converter; `SameKeys.HasSameKeys` models it on its own.
- `Analyzer.ScalarMembersColumns` states which columns the scalar members add but not their order (first seen, first added). `Scenarios.ItemsSchemas` shows the order on a concrete document.
- `CommandLine.FoldAppend` only splits the arguments at an option boundary. A split between `--out-dir` and its value would change the meaning.
