/**
 * The second pass of the converter (src/csv_gen.c, `write_csv_files` and
 * `recursively_write_table_data`): one CSV file per registered table, each
 * filled by a fresh walk over the whole tree that writes a row for every
 * object or array item belonging to that table.
 *
 * Every walk restarts the id counter at 1 and draws ids as it goes: an
 * object takes one; an item of an array whose key names the target table
 * takes one, whatever its type; an object inside an array that is not the
 * target takes one before the walk enters it and the walk then gives it a
 * second one as an object. Rows are described first as cells (`Row`), then
 * printed (`RowText`); the methods print the same text field by field.
 */
module CsvWriter {
  import opened JsonTree
  import opened Wrappers
  import opened Text
  import opened Naming
  import opened CsvCells
  import opened Registry

  /** What one field of a data row holds before it is printed. */
  datatype Cell =
    | RowId(id: int)
    | ParentRowId(id: int)
    | Position(index: nat)
    | Value(node: Json)
    | Blank

  /** A data row: the id the walk gave it and its fields in column order. */
  datatype Row = Row(id: int, cells: seq<Cell>)

  /** What a child learns of its parent: the parent's safe key, which names the foreign-key column, and its row id. */
  datatype Parent = Parent(key: string, id: int)

  /** The rows a walk writes, in order, and the counter value it leaves behind. */
  datatype Pass = Pass(rows: seq<Row>, next: int)

  /** A file the writer produced: its path and its whole text. */
  datatype CsvFile = CsvFile(path: string, text: string)

  /** `printf("%d", n)`. */
  function IntText(n: int): string {
    if n < 0 then "-" + NatText(-n) else NatText(n)
  }

  function CellText(c: Cell): string {
    match c
    case RowId(id) => IntText(id)
    case ParentRowId(id) => IntText(id)
    case Position(k) => NatText(k)
    case Value(node) => CsvText(node)
    case Blank => ""
  }

  function CellTexts(cells: seq<Cell>): (texts: seq<string>)
    ensures |texts| == |cells|
    ensures forall i :: 0 <= i < |cells| ==> texts[i] == CellText(cells[i])
  {
    seq(|cells|, i requires 0 <= i < |cells| => CellText(cells[i]))
  }

  /** The first `n` fields of a line as the writing loops print them: a comma after each field but the line's last. */
  function Fields(texts: seq<string>, n: nat): string
    requires n <= |texts|
    decreases n
  {
    if n == 0 then ""
    else Fields(texts, n - 1) + texts[n - 1] + (if n < |texts| then "," else "")
  }

  /** The header line: the column names, comma separated. */
  function HeaderText(columns: seq<string>): string {
    Fields(columns, |columns|) + "\n"
  }

  function RowText(row: Row): string {
    Fields(CellTexts(row.cells), |row.cells|) + "\n"
  }

  /** The data lines of a file, in the order they are written. */
  function RowsText(rows: seq<Row>): string
    decreases |rows|
  {
    if |rows| == 0 then "" else RowText(rows[0]) + RowsText(rows[1..])
  }

  /**
   * The member loop of a row: the first member whose key is `column` gives
   * the field, unless its value is an object or an array; no such member
   * gives an empty field.
   */
  function Lookup(ps: seq<Pair>, column: string): Cell
    decreases |ps|
  {
    if |ps| == 0 then Blank
    else if ps[0].key == column then (if IsContainer(ps[0].value) then Blank else Value(ps[0].value))
    else Lookup(ps[1..], column)
  }

  /** The "id" column, then the foreign-key column named after the parent's key; both win over any member. */
  function KeyCell(column: string, id: int, parent: Option<Parent>): Option<Cell> {
    if column == "id" then Some(RowId(id))
    else if parent.Some? && column == ForeignKey(parent.value.key) then Some(ParentRowId(parent.value.id))
    else None
  }

  /** A field of an object's row. */
  function ObjectCell(column: string, id: int, parent: Option<Parent>, ps: seq<Pair>): Cell {
    var k := KeyCell(column, id, parent);
    if k.Some? then k.value else Lookup(ps, column)
  }

  /**
   * A field of an array item's row: after the key columns, "seq" and
   * "index" give the item's position; then an object item is searched for
   * the column and any other item fills the "value" column.
   */
  function ItemCell(column: string, id: int, parent: Option<Parent>, pos: nat, item: Json): Cell {
    var k := KeyCell(column, id, parent);
    if k.Some? then k.value
    else if column == "seq" || column == "index" then Position(pos)
    else if item.Object? then Lookup(item.pairs, column)
    else if column == "value" then Value(item)
    else Blank
  }

  function ObjectCells(columns: seq<string>, id: int, parent: Option<Parent>, ps: seq<Pair>): (cells: seq<Cell>)
    ensures |cells| == |columns|
    ensures forall i :: 0 <= i < |columns| ==> cells[i] == ObjectCell(columns[i], id, parent, ps)
  {
    seq(|columns|, i requires 0 <= i < |columns| => ObjectCell(columns[i], id, parent, ps))
  }

  function ItemCells(columns: seq<string>, id: int, parent: Option<Parent>, pos: nat, item: Json): (cells: seq<Cell>)
    ensures |cells| == |columns|
    ensures forall i :: 0 <= i < |columns| ==> cells[i] == ItemCell(columns[i], id, parent, pos, item)
  {
    seq(|columns|, i requires 0 <= i < |columns| => ItemCell(columns[i], id, parent, pos, item))
  }

  /**
   * The walk from `node`, reached through `key`, writing rows of table `t`
   * with the counter at `counter`.
   */
  function NodePass(t: Table, node: Json, key: string, parent: Option<Parent>, counter: int): Pass
    decreases node, 3
  {
    var name := SafeName(key);
    match node
    case Object(ps) =>
      var own := if name == t.name then [Row(counter, ObjectCells(t.columns, counter, parent, ps))] else [];
      var children := ChildrenPass(t, ps, |ps|, Parent(name, counter), counter + 1);
      Pass(own + children.rows, children.next)
    case Array(es) =>
      if name == t.name then ItemsPass(t, es, |es|, name, parent, counter)
      else ElementsPass(t, es, |es|, name, parent, counter)
    case _ => Pass([], counter)
  }

  /** The walk over the first `n` members of an object, each with the object as parent. */
  function ChildrenPass(t: Table, ps: seq<Pair>, n: nat, parent: Parent, counter: int): Pass
    requires n <= |ps|
    decreases ps, n
  {
    if n == 0 then Pass([], counter)
    else
      var before := ChildrenPass(t, ps, n - 1, parent, counter);
      var last := NodePass(t, ps[n - 1].value, ps[n - 1].key, Some(parent), before.next);
      Pass(before.rows + last.rows, last.next)
  }

  /** The first `n` items of an array whose key names the target table. */
  function ItemsPass(t: Table, es: seq<Json>, n: nat, name: string, parent: Option<Parent>, counter: int): Pass
    requires n <= |es|
    decreases es, n
  {
    if n == 0 then Pass([], counter)
    else
      var before := ItemsPass(t, es, n - 1, name, parent, counter);
      var last := ItemPass(t, es[n - 1], n - 1, name, parent, before.next);
      Pass(before.rows + last.rows, last.next)
  }

  /** One item of a target array: its row, then, for an object, its members with the item as parent. */
  function ItemPass(t: Table, item: Json, pos: nat, name: string, parent: Option<Parent>, counter: int): Pass
    decreases item, 4
  {
    var row := Row(counter, ItemCells(t.columns, counter, parent, pos, item));
    if item.Object? then
      var children := ChildrenPass(t, item.pairs, |item.pairs|, Parent(name, counter), counter + 1);
      Pass([row] + children.rows, children.next)
    else Pass([row], counter + 1)
  }

  /** The first `n` items of an array that is not the target: each is walked with the array's own parent. */
  function ElementsPass(t: Table, es: seq<Json>, n: nat, name: string, parent: Option<Parent>, counter: int): Pass
    requires n <= |es|
    decreases es, n
  {
    if n == 0 then Pass([], counter)
    else
      var before := ElementsPass(t, es, n - 1, name, parent, counter);
      var last := ElementPass(t, es[n - 1], name, parent, before.next);
      Pass(before.rows + last.rows, last.next)
  }

  /** An object item consumes an id before the walk enters it, and the walk gives the object one more. */
  function ElementPass(t: Table, item: Json, name: string, parent: Option<Parent>, counter: int): Pass
    decreases item, 4
  {
    NodePass(t, item, name, parent, if item.Object? then counter + 1 else counter)
  }

  /** A table's file: the header, then the rows of a walk from the root with the counter at 1. */
  function TableText(t: Table, root: Json): string {
    HeaderText(t.columns) + RowsText(NodePass(t, root, "root", None, 1).rows)
  }

  /** The file of table `t`: its path in `dir` and its text. */
  function TableFile(dir: string, t: Table, root: Json): CsvFile {
    CsvFile(CsvFilePath(dir, t.name), TableText(t, root))
  }

  /** One file per table of the registry, in registry order, whether or not it can be opened. */
  function AllFiles(reg: seq<Table>, dir: string, root: Json): (files: seq<CsvFile>)
    ensures |files| == |reg|
    ensures forall i :: 0 <= i < |reg| ==> files[i] == TableFile(dir, reg[i], root)
  {
    seq(|reg|, i requires 0 <= i < |reg| => TableFile(dir, reg[i], root))
  }

  /**
   * The first `n` of those files that were written: a file whose path
   * cannot be opened (is in `failing`) is skipped.
   */
  function Opened(files: seq<CsvFile>, n: nat, failing: set<string>): seq<CsvFile>
    requires n <= |files|
    decreases n
  {
    if n == 0 then []
    else Opened(files, n - 1, failing) + (if files[n - 1].path in failing then [] else [files[n - 1]])
  }

  /** What `write_csv_files` leaves behind for the whole registry. */
  function CsvFiles(reg: seq<Table>, dir: string, root: Json, failing: set<string>): seq<CsvFile> {
    Opened(AllFiles(reg, dir, root), |reg|, failing)
  }

  lemma {:induction false} RowsTextAppend(a: seq<Row>, b: seq<Row>)
    ensures RowsText(a + b) == RowsText(a) + RowsText(b)
    decreases |a|
  {
    if |a| == 0 {
      assert a + b == b;
    } else {
      assert (a + b)[1..] == a[1..] + b;
      RowsTextAppend(a[1..], b);
    }
  }

  lemma {:induction false} FieldsJoined(texts: seq<string>, n: nat)
    requires 0 < n <= |texts|
    ensures Fields(texts, n) == Join(texts[..n], ",") + (if n < |texts| then "," else "")
    decreases n
  {
    if n == 1 {
      assert texts[..1] == [texts[0]];
    } else {
      FieldsJoined(texts, n - 1);
      JoinSnoc(texts, ",", n - 1);
    }
  }

  /** A whole line is its fields joined by commas: no comma after the last field. */
  lemma LineJoined(texts: seq<string>)
    ensures Fields(texts, |texts|) == Join(texts, ",")
  {
    if |texts| > 0 {
      FieldsJoined(texts, |texts|);
      assert texts[..|texts|] == texts;
    }
  }

  /** The header is the column names joined by commas, then a newline. */
  lemma HeaderLayout(columns: seq<string>)
    ensures HeaderText(columns) == Join(columns, ",") + "\n"
    ensures |columns| > 0 ==> Occurrences(HeaderText(columns), ',') == |columns| - 1 + TotalOccurrences(columns, ',')
  {
    LineJoined(columns);
    if |columns| > 0 {
      JoinSeparators(columns, ',');
      OccurrencesAppend(Join(columns, ","), "\n", ',');
    }
  }

  /**
   * A data line is its fields joined by commas, then a newline: a row of
   * n > 0 fields holds n - 1 separators besides the commas inside its fields.
   */
  lemma RowLayout(row: Row)
    ensures RowText(row) == Join(CellTexts(row.cells), ",") + "\n"
    ensures |row.cells| > 0 ==> Occurrences(RowText(row), ',') == |row.cells| - 1 + TotalOccurrences(CellTexts(row.cells), ',')
  {
    var texts := CellTexts(row.cells);
    LineJoined(texts);
    if |row.cells| > 0 {
      JoinSeparators(texts, ',');
      OccurrencesAppend(Join(texts, ","), "\n", ',');
    }
  }

  /**
   * The member search, both ways: without a member keyed `column` the field
   * is blank; otherwise the first such member decides, blank for a nested
   * object or array and its value for anything else.
   */
  lemma {:induction false} LookupFirst(ps: seq<Pair>, column: string)
    ensures (forall k :: 0 <= k < |ps| ==> ps[k].key != column) ==> Lookup(ps, column) == Blank
    ensures forall k :: 0 <= k < |ps| && ps[k].key == column && (forall m :: 0 <= m < k ==> ps[m].key != column) ==>
      Lookup(ps, column) == if IsContainer(ps[k].value) then Blank else Value(ps[k].value)
    decreases |ps|
  {
    if |ps| > 0 {
      LookupFirst(ps[1..], column);
      forall k | 0 < k < |ps| && ps[k].key == column && (forall m :: 0 <= m < k ==> ps[m].key != column)
        ensures Lookup(ps, column) == if IsContainer(ps[k].value) then Blank else Value(ps[k].value)
      {
        assert ps[0].key != column;
        assert ps[1..][k - 1] == ps[k];
        assert forall m :: 0 <= m < k - 1 ==> ps[1..][m] == ps[m + 1];
      }
      if forall k :: 0 <= k < |ps| ==> ps[k].key != column {
        assert forall k :: 0 <= k < |ps| - 1 ==> ps[1..][k] == ps[k + 1];
      }
    }
  }

  /** Row ids lie in [lo, hi) and strictly increase down the file. */
  predicate IdsIncreasing(rows: seq<Row>, lo: int, hi: int) {
    && (forall i :: 0 <= i < |rows| ==> lo <= rows[i].id < hi)
    && (forall i, j :: 0 <= i < j < |rows| ==> rows[i].id < rows[j].id)
  }

  /** A row has one field per column, and its "id" column holds its own id. */
  predicate Fits(row: Row, columns: seq<string>) {
    && |row.cells| == |columns|
    && forall k :: 0 <= k < |columns| && columns[k] == "id" ==> row.cells[k] == RowId(row.id)
  }

  predicate AllFit(rows: seq<Row>, columns: seq<string>) {
    forall i :: 0 <= i < |rows| ==> Fits(rows[i], columns)
  }

  /** What every walk guarantees: the counter never goes back, and the rows fit the table with increasing ids drawn from the counter. */
  predicate GoodPass(p: Pass, columns: seq<string>, counter: int) {
    counter <= p.next && IdsIncreasing(p.rows, counter, p.next) && AllFit(p.rows, columns)
  }

  lemma GoodPassAppend(a: Pass, b: Pass, columns: seq<string>, counter: int)
    requires GoodPass(a, columns, counter) && GoodPass(b, columns, a.next)
    ensures GoodPass(Pass(a.rows + b.rows, b.next), columns, counter)
  {
    var rows := a.rows + b.rows;
    forall i | 0 <= i < |rows|
      ensures counter <= rows[i].id < b.next && Fits(rows[i], columns)
    {
      if i >= |a.rows| {
        assert rows[i] == b.rows[i - |a.rows|];
      }
    }
    forall i, j | 0 <= i < j < |rows|
      ensures rows[i].id < rows[j].id
    {
      if j < |a.rows| {
      } else if i >= |a.rows| {
        assert rows[i] == b.rows[i - |a.rows|] && rows[j] == b.rows[j - |a.rows|];
      } else {
        assert rows[j] == b.rows[j - |a.rows|];
      }
    }
  }

  lemma {:induction false} NodePassGood(t: Table, node: Json, key: string, parent: Option<Parent>, counter: int)
    ensures GoodPass(NodePass(t, node, key, parent, counter), t.columns, counter)
    decreases node, 3
  {
    var name := SafeName(key);
    match node
    case Object(ps) =>
      var own := if name == t.name then [Row(counter, ObjectCells(t.columns, counter, parent, ps))] else [];
      ChildrenPassGood(t, ps, |ps|, Parent(name, counter), counter + 1);
      GoodPassAppend(Pass(own, counter + 1), ChildrenPass(t, ps, |ps|, Parent(name, counter), counter + 1), t.columns, counter);
    case Array(es) =>
      if name == t.name {
        ItemsPassGood(t, es, |es|, name, parent, counter);
      } else {
        ElementsPassGood(t, es, |es|, name, parent, counter);
      }
    case _ =>
  }

  lemma {:induction false} ChildrenPassGood(t: Table, ps: seq<Pair>, n: nat, parent: Parent, counter: int)
    requires n <= |ps|
    ensures GoodPass(ChildrenPass(t, ps, n, parent, counter), t.columns, counter)
    decreases ps, n
  {
    if n > 0 {
      var before := ChildrenPass(t, ps, n - 1, parent, counter);
      ChildrenPassGood(t, ps, n - 1, parent, counter);
      NodePassGood(t, ps[n - 1].value, ps[n - 1].key, Some(parent), before.next);
      GoodPassAppend(before, NodePass(t, ps[n - 1].value, ps[n - 1].key, Some(parent), before.next), t.columns, counter);
    }
  }

  lemma {:induction false} ItemsPassGood(t: Table, es: seq<Json>, n: nat, name: string, parent: Option<Parent>, counter: int)
    requires n <= |es|
    ensures GoodPass(ItemsPass(t, es, n, name, parent, counter), t.columns, counter)
    decreases es, n
  {
    if n > 0 {
      var before := ItemsPass(t, es, n - 1, name, parent, counter);
      ItemsPassGood(t, es, n - 1, name, parent, counter);
      ItemPassGood(t, es[n - 1], n - 1, name, parent, before.next);
      GoodPassAppend(before, ItemPass(t, es[n - 1], n - 1, name, parent, before.next), t.columns, counter);
    }
  }

  lemma {:induction false} ItemPassGood(t: Table, item: Json, pos: nat, name: string, parent: Option<Parent>, counter: int)
    ensures GoodPass(ItemPass(t, item, pos, name, parent, counter), t.columns, counter)
    decreases item, 4
  {
    var row := Row(counter, ItemCells(t.columns, counter, parent, pos, item));
    assert Fits(row, t.columns);
    if item.Object? {
      ChildrenPassGood(t, item.pairs, |item.pairs|, Parent(name, counter), counter + 1);
      GoodPassAppend(Pass([row], counter + 1), ChildrenPass(t, item.pairs, |item.pairs|, Parent(name, counter), counter + 1), t.columns, counter);
    }
  }

  lemma {:induction false} ElementsPassGood(t: Table, es: seq<Json>, n: nat, name: string, parent: Option<Parent>, counter: int)
    requires n <= |es|
    ensures GoodPass(ElementsPass(t, es, n, name, parent, counter), t.columns, counter)
    decreases es, n
  {
    if n > 0 {
      var before := ElementsPass(t, es, n - 1, name, parent, counter);
      ElementsPassGood(t, es, n - 1, name, parent, counter);
      ElementPassGood(t, es[n - 1], name, parent, before.next);
      GoodPassAppend(before, ElementPass(t, es[n - 1], name, parent, before.next), t.columns, counter);
    }
  }

  lemma {:induction false} ElementPassGood(t: Table, item: Json, name: string, parent: Option<Parent>, counter: int)
    ensures GoodPass(ElementPass(t, item, name, parent, counter), t.columns, counter)
    decreases item, 4
  {
    NodePassGood(t, item, name, parent, if item.Object? then counter + 1 else counter);
  }

  /** A foreign-key column ends in "_id", so it is never "id", "seq", "index" or "value". */
  lemma ForeignKeyDistinct(parent: string)
    ensures ForeignKey(parent) != "id" && ForeignKey(parent) != "seq"
    ensures ForeignKey(parent) != "index" && ForeignKey(parent) != "value"
  {
    var f := ForeignKey(parent);
    assert f[|f| - 1] == 'd' && f[|f| - 3] == '_';
  }

  /**
   * The fields of a junction row (an item that is not an object): "id" is
   * the row's id, "index" and "seq" its position, "value" the item itself;
   * any other column but the parent's key column is blank.
   */
  lemma ScalarItemCells(column: string, id: int, parent: Option<Parent>, pos: nat, item: Json)
    requires !item.Object?
    ensures column == "id" ==> ItemCell(column, id, parent, pos, item) == RowId(id)
    ensures column == "index" || column == "seq" ==> ItemCell(column, id, parent, pos, item) == Position(pos)
    ensures column == "value" ==> ItemCell(column, id, parent, pos, item) == Value(item)
    ensures parent.Some? && column == ForeignKey(parent.value.key) ==> ItemCell(column, id, parent, pos, item) == ParentRowId(parent.value.id)
    ensures (column != "id" && column != "index" && column != "seq" && column != "value"
      && (parent.None? || column != ForeignKey(parent.value.key))) ==> ItemCell(column, id, parent, pos, item) == Blank
  {
    if parent.Some? {
      ForeignKeyDistinct(parent.value.key);
    }
  }

  /**
   * A target array of scalars: one row per item, in order, with ids
   * counted up from the counter and nothing else written.
   */
  lemma {:induction false} ScalarItemsRows(t: Table, es: seq<Json>, n: nat, name: string, parent: Option<Parent>, counter: int)
    requires n <= |es| && forall k :: 0 <= k < |es| ==> !es[k].Object?
    ensures var p := ItemsPass(t, es, n, name, parent, counter);
      && p.next == counter + n && |p.rows| == n
      && forall k :: 0 <= k < n ==> p.rows[k] == Row(counter + k, ItemCells(t.columns, counter + k, parent, k, es[k]))
    decreases n
  {
    if n > 0 {
      ScalarItemsRows(t, es, n - 1, name, parent, counter);
    }
  }

  /** Every item's "seq" and "index" fields hold its position in the array, whatever the item is. */
  lemma ItemCellPosition(column: string, id: int, parent: Option<Parent>, pos: nat, item: Json)
    requires column == "seq" || column == "index"
    ensures ItemCell(column, id, parent, pos, item) == Position(pos)
  {
    if parent.Some? {
      ForeignKeyDistinct(parent.value.key);
    }
  }

  /**
   * The fields of an object item's row: "id" is the row's id, the parent's
   * key column the parent's id, "seq" and "index" the item's position, and
   * any other column the first member with that key (blank when there is
   * none or when it holds an object or an array).
   */
  lemma ObjectItemCells(column: string, id: int, parent: Option<Parent>, pos: nat, ps: seq<Pair>)
    ensures column == "id" ==> ItemCell(column, id, parent, pos, Object(ps)) == RowId(id)
    ensures column == "index" || column == "seq" ==> ItemCell(column, id, parent, pos, Object(ps)) == Position(pos)
    ensures parent.Some? && column == ForeignKey(parent.value.key) ==> ItemCell(column, id, parent, pos, Object(ps)) == ParentRowId(parent.value.id)
    ensures (column != "id" && column != "index" && column != "seq"
      && (parent.None? || column != ForeignKey(parent.value.key))) ==> ItemCell(column, id, parent, pos, Object(ps)) == Lookup(ps, column)
  {
    if parent.Some? {
      ForeignKeyDistinct(parent.value.key);
    }
  }

  /**
   * More items only append: the walk over the first `m` items of a target
   * array is a prefix of the walk over the first `n`, and each further item
   * adds at least one row and takes at least one id.
   */
  lemma {:induction false} ItemsPassPrefix(t: Table, es: seq<Json>, m: nat, n: nat, name: string, parent: Option<Parent>, counter: int)
    requires m <= n <= |es|
    ensures var a := ItemsPass(t, es, m, name, parent, counter);
      var b := ItemsPass(t, es, n, name, parent, counter);
      && a.rows <= b.rows
      && |a.rows| + (n - m) <= |b.rows|
      && a.next + (n - m) <= b.next
    decreases n
  {
    if m < n {
      ItemsPassPrefix(t, es, m, n - 1, name, parent, counter);
      var before := ItemsPass(t, es, n - 1, name, parent, counter);
      var item := es[n - 1];
      if item.Object? {
        ChildrenPassGood(t, item.pairs, |item.pairs|, Parent(name, before.next), before.next + 1);
      }
    }
  }

  /**
   * Item `k` of a target array, whatever its type, has its row right after
   * the rows the items before it wrote: its id is the counter those items
   * left, its fields are the item's cells at position `k`.
   */
  lemma ItemRowAt(t: Table, es: seq<Json>, n: nat, name: string, parent: Option<Parent>, counter: int, k: nat)
    requires k < n <= |es|
    ensures var p := ItemsPass(t, es, n, name, parent, counter);
      var before := ItemsPass(t, es, k, name, parent, counter);
      && |before.rows| < |p.rows|
      && p.rows[|before.rows|] == Row(before.next, ItemCells(t.columns, before.next, parent, k, es[k]))
  {
    var before := ItemsPass(t, es, k, name, parent, counter);
    var own := ItemPass(t, es[k], k, name, parent, before.next);
    ItemsPassPrefix(t, es, k + 1, n, name, parent, counter);
    assert ItemsPass(t, es, k + 1, name, parent, counter).rows == before.rows + own.rows;
    assert own.rows[0] == Row(before.next, ItemCells(t.columns, before.next, parent, k, es[k]));
  }

  /**
   * The item rows of a target array, for items of any type: item `k`'s row
   * follows the rows of the items before it, the item rows come in array
   * order and their ids strictly increase; the rows of an object item's
   * members come between its row and the next item's.
   */
  lemma ItemsRowsInOrder(t: Table, es: seq<Json>, n: nat, name: string, parent: Option<Parent>, counter: int)
    requires n <= |es|
    ensures forall k :: 0 <= k < n ==>
      && |ItemsPass(t, es, k, name, parent, counter).rows| < |ItemsPass(t, es, n, name, parent, counter).rows|
      && ItemsPass(t, es, n, name, parent, counter).rows[|ItemsPass(t, es, k, name, parent, counter).rows|]
         == Row(ItemsPass(t, es, k, name, parent, counter).next,
                ItemCells(t.columns, ItemsPass(t, es, k, name, parent, counter).next, parent, k, es[k]))
    ensures forall j, k :: 0 <= j < k <= n ==>
      && |ItemsPass(t, es, j, name, parent, counter).rows| < |ItemsPass(t, es, k, name, parent, counter).rows|
      && ItemsPass(t, es, j, name, parent, counter).next < ItemsPass(t, es, k, name, parent, counter).next
  {
    forall k | 0 <= k < n
      ensures |ItemsPass(t, es, k, name, parent, counter).rows| < |ItemsPass(t, es, n, name, parent, counter).rows|
      ensures ItemsPass(t, es, n, name, parent, counter).rows[|ItemsPass(t, es, k, name, parent, counter).rows|]
         == Row(ItemsPass(t, es, k, name, parent, counter).next,
                ItemCells(t.columns, ItemsPass(t, es, k, name, parent, counter).next, parent, k, es[k]))
    {
      ItemRowAt(t, es, n, name, parent, counter, k);
    }
    forall j, k | 0 <= j < k <= n
      ensures |ItemsPass(t, es, j, name, parent, counter).rows| < |ItemsPass(t, es, k, name, parent, counter).rows|
      ensures ItemsPass(t, es, j, name, parent, counter).next < ItemsPass(t, es, k, name, parent, counter).next
    {
      ItemsPassPrefix(t, es, j, k, name, parent, counter);
    }
  }

  /** In the row of item `k` of a target array, the "seq" or "index" field holds `k`, for objects and scalars alike. */
  lemma ItemRowPosition(t: Table, es: seq<Json>, n: nat, name: string, parent: Option<Parent>, counter: int, k: nat, c: nat)
    requires k < n <= |es| && c < |t.columns| && (t.columns[c] == "seq" || t.columns[c] == "index")
    ensures var p := ItemsPass(t, es, n, name, parent, counter);
      var before := ItemsPass(t, es, k, name, parent, counter);
      && |before.rows| < |p.rows|
      && p.rows[|before.rows|] == Row(before.next, ItemCells(t.columns, before.next, parent, k, es[k]))
      && p.rows[|before.rows|].cells[c] == Position(k)
  {
    ItemRowAt(t, es, n, name, parent, counter, k);
    var before := ItemsPass(t, es, k, name, parent, counter);
    ItemCellPosition(t.columns[c], before.next, parent, k, es[k]);
  }


  /** An array that is not the target and holds no object or array writes nothing and takes no id. */
  lemma {:induction false} ScalarElementsSilent(t: Table, es: seq<Json>, n: nat, name: string, parent: Option<Parent>, counter: int)
    requires n <= |es| && forall k :: 0 <= k < |es| ==> !IsContainer(es[k])
    ensures ElementsPass(t, es, n, name, parent, counter) == Pass([], counter)
    decreases n
  {
    if n > 0 {
      ScalarElementsSilent(t, es, n - 1, name, parent, counter);
      assert ElementPass(t, es[n - 1], name, parent, counter) == Pass([], counter);
    }
  }

  /** Members that are neither objects nor arrays write nothing and take no id. */
  lemma {:induction false} ScalarChildrenSilent(t: Table, ps: seq<Pair>, n: nat, parent: Parent, counter: int)
    requires n <= |ps| && forall k :: 0 <= k < |ps| ==> !IsContainer(ps[k].value)
    ensures ChildrenPass(t, ps, n, parent, counter) == Pass([], counter)
    decreases n
  {
    if n > 0 {
      ScalarChildrenSilent(t, ps, n - 1, parent, counter);
      assert NodePass(t, ps[n - 1].value, ps[n - 1].key, Some(parent), counter) == Pass([], counter);
    }
  }

  /** The root object, when it has a table, is that table's first row and has id 1. */
  lemma RootRowFirst(t: Table, ps: seq<Pair>)
    requires t.name == "root"
    ensures var rows := NodePass(t, Object(ps), "root", None, 1).rows;
      |rows| > 0 && rows[0] == Row(1, ObjectCells(t.columns, 1, None, ps))
  {
    assert Sanitized("root") == "root";
  }

  /**
   * The files written, both ways: a file is written exactly when it is one
   * of the first `n` and its path opens; none is written twice and the order
   * is kept.
   */
  lemma {:induction false} OpenedSpec(files: seq<CsvFile>, n: nat, failing: set<string>)
    requires n <= |files|
    ensures var r := Opened(files, n, failing);
      && |r| <= n
      && (forall f :: f in r <==> f in files[..n] && f.path !in failing)
    decreases n
  {
    if n > 0 {
      OpenedSpec(files, n - 1, failing);
      assert files[..n] == files[..n - 1] + [files[n - 1]];
    }
  }

  /** Nothing failing: every file is written, in order. */
  lemma {:induction false} OpenedAll(files: seq<CsvFile>, n: nat)
    requires n <= |files|
    ensures Opened(files, n, {}) == files[..n]
    decreases n
  {
    if n > 0 {
      OpenedAll(files, n - 1);
      assert files[..n] == files[..n - 1] + [files[n - 1]];
    }
  }

  predicate DistinctPaths(files: seq<CsvFile>) {
    forall i, j :: 0 <= i < j < |files| ==> files[i].path != files[j].path
  }

  /** Skipping files never makes two written files share a path. */
  lemma {:induction false} OpenedDistinct(files: seq<CsvFile>, n: nat, failing: set<string>)
    requires n <= |files| && DistinctPaths(files)
    ensures DistinctPaths(Opened(files, n, failing))
    decreases n
  {
    if n > 0 {
      var before := Opened(files, n - 1, failing);
      OpenedDistinct(files, n - 1, failing);
      OpenedSpec(files, n - 1, failing);
      var last := files[n - 1];
      if last.path !in failing {
        var r := before + [last];
        forall i, j | 0 <= i < j < |r|
          ensures r[i].path != r[j].path
        {
          if j == |before| {
            assert r[i] == before[i] && r[j] == files[n - 1];
            assert before[i] in before;
            assert r[i] in files[..n - 1];
            var k :| 0 <= k < n - 1 && files[..n - 1][k] == r[i];
            assert files[k].path != files[n - 1].path;
          } else {
            assert r[i] == before[i] && r[j] == before[j];
          }
        }
      }
    }
  }

  /** With unique table names, every table's file has a path of its own. */
  lemma AllFilesDistinct(reg: seq<Table>, dir: string, root: Json)
    requires WellFormed(reg)
    ensures DistinctPaths(AllFiles(reg, dir, root))
  {
    var files := AllFiles(reg, dir, root);
    forall i, j | 0 <= i < j < |files|
      ensures files[i].path != files[j].path
    {
      if files[i].path == files[j].path {
        CsvFilePathInjective(dir, reg[i].name, reg[j].name);
      }
    }
  }

  /**
   * The files `write_csv_files` leaves: exactly the files of the tables
   * whose paths open, each at its own path; with nothing failing, one per
   * table in registry order.
   */
  lemma CsvFilesSpec(reg: seq<Table>, dir: string, root: Json, failing: set<string>)
    requires WellFormed(reg)
    ensures var files := CsvFiles(reg, dir, root, failing);
      && |files| <= |reg|
      && (forall f :: f in files <==> f in AllFiles(reg, dir, root) && f.path !in failing)
      && DistinctPaths(files)
      && (failing == {} ==> files == AllFiles(reg, dir, root))
  {
    var all := AllFiles(reg, dir, root);
    OpenedSpec(all, |reg|, failing);
    AllFilesDistinct(reg, dir, root);
    OpenedDistinct(all, |reg|, failing);
    OpenedAll(all, |reg|);
    assert all[..|reg|] == all;
  }

  /**
   * The open file of one table and the id counter of its walk. The file is
   * kept as the rows written so far, each with the cells its fields print;
   * `RowLine` gives the text of a row.
   */
  class TableOutput {
    var rows: seq<Row>
    var counter: int

    /** `fopen` of an empty file; the counter starts at 1 for the walk. */
    constructor ()
      ensures rows == [] && counter == 1
    {
      rows := [];
      counter := 1;
    }
  }

  /** The header loop of `write_csv_files`. */
  method HeaderLine(columns: seq<string>) returns (line: string)
    ensures line == HeaderText(columns)
  {
    line := "";
    for i := 0 to |columns|
      invariant line == Fields(columns, i)
    {
      line := line + columns[i];
      if i < |columns| - 1 {
        line := line + ",";
      }
    }
    line := line + "\n";
  }

  /** What one field prints: `%d` for ids and positions, `write_csv_value` for a value, nothing for a blank. */
  method CellField(cell: Cell) returns (text: string)
    ensures text == CellText(cell)
  {
    match cell {
      case RowId(id) => text := IntText(id);
      case ParentRowId(id) => text := IntText(id);
      case Position(k) => text := NatText(k);
      case Value(node) => text := WriteCsvValue(node);
      case Blank => text := "";
    }
  }

  /** The printing half of a column loop: each field, a comma unless it is the last, then the line end. */
  method RowLine(row: Row) returns (line: string)
    ensures line == RowText(row)
  {
    ghost var texts := CellTexts(row.cells);
    line := "";
    for i := 0 to |row.cells|
      invariant line == Fields(texts, i)
    {
      var field := CellField(row.cells[i]);
      line := line + field;
      if i < |row.cells| - 1 {
        line := line + ",";
      }
    }
    line := line + "\n";
  }

  /** The data lines of a file, one `RowLine` per row. */
  method RowsLines(rows: seq<Row>) returns (text: string)
    ensures text == RowsText(rows)
  {
    text := "";
    for i := 0 to |rows|
      invariant text == RowsText(rows[..i])
    {
      var line := RowLine(rows[i]);
      RowsTextAppend(rows[..i], [rows[i]]);
      assert rows[..i + 1] == rows[..i] + [rows[i]];
      text := text + line;
    }
    assert rows[..|rows|] == rows;
  }

  /** The member search of a column: the first member with that key decides, and a nested value gives a blank. */
  method LookupField(ps: seq<Pair>, column: string) returns (cell: Cell)
    ensures cell == Lookup(ps, column)
  {
    cell := Blank;
    var i := 0;
    while i < |ps|
      invariant i <= |ps|
      invariant Lookup(ps[i..], column) == Lookup(ps, column)
    {
      if ps[i].key == column {
        if !IsContainer(ps[i].value) {
          cell := Value(ps[i].value);
        }
        return;
      }
      assert ps[i..][1..] == ps[i + 1..];
      i := i + 1;
    }
  }

  /** The key columns: "id", else the foreign key built from the parent's key with `"%s_id"`. */
  method KeyField(column: string, id: int, parent: Option<Parent>) returns (cell: Option<Cell>)
    ensures cell == KeyCell(column, id, parent)
  {
    cell := None;
    if column == "id" {
      cell := Some(RowId(id));
    } else if parent.Some? {
      var expected := ForeignKey(parent.value.key);
      if column == expected {
        cell := Some(ParentRowId(parent.value.id));
      }
    }
  }

  /** One field of an object's row. */
  method ObjectField(column: string, id: int, parent: Option<Parent>, ps: seq<Pair>) returns (cell: Cell)
    ensures cell == ObjectCell(column, id, parent, ps)
  {
    var key := KeyField(column, id, parent);
    if key.Some? {
      cell := key.value;
    } else {
      cell := LookupField(ps, column);
    }
  }

  /** One field of an array item's row. */
  method ItemField(column: string, id: int, parent: Option<Parent>, pos: nat, item: Json) returns (cell: Cell)
    ensures cell == ItemCell(column, id, parent, pos, item)
  {
    var key := KeyField(column, id, parent);
    if key.Some? {
      cell := key.value;
    } else if column == "seq" {
      cell := Position(pos);
    } else if column == "index" {
      cell := Position(pos);
    } else if item.Object? {
      cell := LookupField(item.pairs, column);
    } else if column == "value" {
      cell := Value(item);
    } else {
      cell := Blank;
    }
  }

  /** The column loop of an object's row. */
  method ObjectRow(columns: seq<string>, id: int, parent: Option<Parent>, ps: seq<Pair>) returns (cells: seq<Cell>)
    ensures cells == ObjectCells(columns, id, parent, ps)
  {
    cells := [];
    for i := 0 to |columns|
      invariant cells == ObjectCells(columns[..i], id, parent, ps)
    {
      var cell := ObjectField(columns[i], id, parent, ps);
      cells := cells + [cell];
    }
    assert columns[..|columns|] == columns;
  }

  /** The column loop of an array item's row. */
  method ItemRow(columns: seq<string>, id: int, parent: Option<Parent>, pos: nat, item: Json) returns (cells: seq<Cell>)
    ensures cells == ItemCells(columns, id, parent, pos, item)
  {
    cells := [];
    for i := 0 to |columns|
      invariant cells == ItemCells(columns[..i], id, parent, pos, item)
    {
      var cell := ItemField(columns[i], id, parent, pos, item);
      cells := cells + [cell];
    }
    assert columns[..|columns|] == columns;
  }

  lemma AppendAssoc<T>(a: seq<T>, b: seq<T>, c: seq<T>)
    ensures a + b + c == a + (b + c)
  {
  }

  /** `recursively_write_table_data`. */
  method WriteTableData(out: TableOutput, t: Table, node: Json, key: string, parent: Option<Parent>)
    modifies out
    ensures out.rows == old(out.rows) + NodePass(t, node, key, parent, old(out.counter)).rows
    ensures out.counter == NodePass(t, node, key, parent, old(out.counter)).next
    decreases node, 3
  {
    ghost var rows0, counter0 := out.rows, out.counter;
    ghost var pass := NodePass(t, node, key, parent, counter0);
    var name := SafeFilename(key);
    match node {
      case Object(ps) =>
        ObjectPassSplit(t, ps, key, parent, counter0);
        WriteObject(out, t, ps, name, parent);
      case Array(es) =>
        if name == t.name {
          assert pass == ItemsPass(t, es, |es|, name, parent, counter0);
          WriteItems(out, t, es, name, parent);
        } else {
          assert pass == ElementsPass(t, es, |es|, name, parent, counter0);
          WriteElements(out, t, es, name, parent);
        }
      case _ =>
        assert pass == Pass([], counter0);
    }
    assert out.rows == rows0 + pass.rows && out.counter == pass.next;
  }

  /** The object's own row: one row when it belongs to the target table, none otherwise. */
  function OwnRows(t: Table, ps: seq<Pair>, name: string, id: int, parent: Option<Parent>): seq<Row> {
    if name == t.name then [Row(id, ObjectCells(t.columns, id, parent, ps))] else []
  }

  /** The walk of an object: its own row, then its members with the object as parent. */
  lemma ObjectPassSplit(t: Table, ps: seq<Pair>, key: string, parent: Option<Parent>, id: int)
    ensures var children := ChildrenPass(t, ps, |ps|, Parent(SafeName(key), id), id + 1);
      NodePass(t, Object(ps), key, parent, id) == Pass(OwnRows(t, ps, SafeName(key), id, parent) + children.rows, children.next)
  {
  }

  /** The object branch: the object's id, its row when it belongs to the target table, then its members. */
  method WriteObject(out: TableOutput, t: Table, ps: seq<Pair>, name: string, parent: Option<Parent>)
    modifies out
    ensures var children := ChildrenPass(t, ps, |ps|, Parent(name, old(out.counter)), old(out.counter) + 1);
      && out.rows == old(out.rows) + (OwnRows(t, ps, name, old(out.counter), parent) + children.rows)
      && out.counter == children.next
    decreases ps, 2
  {
    ghost var rows0 := out.rows;
    var id := out.counter;
    out.counter := out.counter + 1;
    ghost var own := OwnRows(t, ps, name, id, parent);
    if name == t.name {
      var cells := ObjectRow(t.columns, id, parent, ps);
      out.rows := out.rows + [Row(id, cells)];
    }
    assert out.rows == rows0 + own;
    ghost var children := ChildrenPass(t, ps, |ps|, Parent(name, id), id + 1);
    WriteChildren(out, t, ps, Parent(name, id));
    assert out.rows == rows0 + own + children.rows;
    AppendAssoc(rows0, own, children.rows);
  }

  /** The loop over an object's members, each written with the object as parent. */
  method WriteChildren(out: TableOutput, t: Table, ps: seq<Pair>, parent: Parent)
    modifies out
    ensures out.rows == old(out.rows) + ChildrenPass(t, ps, |ps|, parent, old(out.counter)).rows
    ensures out.counter == ChildrenPass(t, ps, |ps|, parent, old(out.counter)).next
    decreases ps, 0
  {
    ghost var rows0, counter0 := out.rows, out.counter;
    var i := 0;
    while i < |ps|
      invariant i <= |ps|
      invariant out.rows == rows0 + ChildrenPass(t, ps, i, parent, counter0).rows
      invariant out.counter == ChildrenPass(t, ps, i, parent, counter0).next
    {
      ghost var before := ChildrenPass(t, ps, i, parent, counter0);
      WriteTableData(out, t, ps[i].value, ps[i].key, Some(parent));
      ghost var last := NodePass(t, ps[i].value, ps[i].key, Some(parent), before.next);
      assert ChildrenPass(t, ps, i + 1, parent, counter0) == Pass(before.rows + last.rows, last.next);
      AppendAssoc(rows0, before.rows, last.rows);
      i := i + 1;
    }
  }

  /** The loop over the items of an array whose key names the target table. */
  method WriteItems(out: TableOutput, t: Table, es: seq<Json>, name: string, parent: Option<Parent>)
    modifies out
    ensures out.rows == old(out.rows) + ItemsPass(t, es, |es|, name, parent, old(out.counter)).rows
    ensures out.counter == ItemsPass(t, es, |es|, name, parent, old(out.counter)).next
    decreases es, 0
  {
    ghost var rows0, counter0 := out.rows, out.counter;
    var i := 0;
    while i < |es|
      invariant i <= |es|
      invariant out.rows == rows0 + ItemsPass(t, es, i, name, parent, counter0).rows
      invariant out.counter == ItemsPass(t, es, i, name, parent, counter0).next
    {
      ghost var before := ItemsPass(t, es, i, name, parent, counter0);
      WriteItem(out, t, es[i], i, name, parent);
      ghost var last := ItemPass(t, es[i], i, name, parent, before.next);
      assert ItemsPass(t, es, i + 1, name, parent, counter0) == Pass(before.rows + last.rows, last.next);
      AppendAssoc(rows0, before.rows, last.rows);
      i := i + 1;
    }
  }

  /** The body of that loop: the item's id, its row, then an object item's members with the item as parent. */
  method WriteItem(out: TableOutput, t: Table, item: Json, pos: nat, name: string, parent: Option<Parent>)
    modifies out
    ensures out.rows == old(out.rows) + ItemPass(t, item, pos, name, parent, old(out.counter)).rows
    ensures out.counter == ItemPass(t, item, pos, name, parent, old(out.counter)).next
    decreases item, 4
  {
    var id := out.counter;
    out.counter := out.counter + 1;
    var cells := ItemRow(t.columns, id, parent, pos, item);
    out.rows := out.rows + [Row(id, cells)];
    if item.Object? {
      ghost var children := ChildrenPass(t, item.pairs, |item.pairs|, Parent(name, id), id + 1);
      assert ItemPass(t, item, pos, name, parent, id) == Pass([Row(id, cells)] + children.rows, children.next);
      WriteChildren(out, t, item.pairs, Parent(name, id));
      AppendAssoc(old(out.rows), [Row(id, cells)], children.rows);
    }
  }

  /** The loop over the items of an array that is not the target. */
  method WriteElements(out: TableOutput, t: Table, es: seq<Json>, name: string, parent: Option<Parent>)
    modifies out
    ensures out.rows == old(out.rows) + ElementsPass(t, es, |es|, name, parent, old(out.counter)).rows
    ensures out.counter == ElementsPass(t, es, |es|, name, parent, old(out.counter)).next
    decreases es, 0
  {
    ghost var rows0, counter0 := out.rows, out.counter;
    var i := 0;
    while i < |es|
      invariant i <= |es|
      invariant out.rows == rows0 + ElementsPass(t, es, i, name, parent, counter0).rows
      invariant out.counter == ElementsPass(t, es, i, name, parent, counter0).next
    {
      ghost var before := ElementsPass(t, es, i, name, parent, counter0);
      WriteElement(out, t, es[i], name, parent);
      ghost var last := ElementPass(t, es[i], name, parent, before.next);
      assert ElementsPass(t, es, i + 1, name, parent, counter0) == Pass(before.rows + last.rows, last.next);
      AppendAssoc(rows0, before.rows, last.rows);
      i := i + 1;
    }
  }

  /** The body of that loop: an object item consumes an id, then the item is walked as a node of its own. */
  method WriteElement(out: TableOutput, t: Table, item: Json, name: string, parent: Option<Parent>)
    modifies out
    ensures out.rows == old(out.rows) + ElementPass(t, item, name, parent, old(out.counter)).rows
    ensures out.counter == ElementPass(t, item, name, parent, old(out.counter)).next
    decreases item, 4
  {
    if item.Object? {
      out.counter := out.counter + 1;
    }
    WriteTableData(out, t, item, name, parent);
  }

  /** The text of one opened file: the header loop, then the walk from the root with a fresh counter. */
  method WriteTable(t: Table, root: Json) returns (text: string)
    ensures text == TableText(t, root)
  {
    var header := HeaderLine(t.columns);
    var out := new TableOutput();
    WriteTableData(out, t, root, "root", None);
    assert out.rows == NodePass(t, root, "root", None, 1).rows;
    var data := RowsLines(out.rows);
    text := header + data;
  }

  /**
   * `write_csv_files`: for each registered table, head first, build its
   * path; a file that cannot be opened is reported and skipped; otherwise
   * the header, then the rows of a fresh walk from the root with the
   * counter at 1.
   */
  method WriteCsvFiles(ctx: SchemaContext, dir: string, root: Json, failing: set<string>) returns (files: seq<CsvFile>)
    requires ctx.Valid()
    ensures files == CsvFiles(ctx.model, dir, root, failing)
  {
    ghost var all := AllFiles(ctx.model, dir, root);
    files := [];
    var i := 0;
    while i < |ctx.tables|
      invariant i <= |ctx.tables| == |ctx.model|
      invariant files == Opened(all, i, failing)
    {
      var schema := ctx.tables[i];
      var t := Table(schema.name, schema.columns);
      assert all[i] == TableFile(dir, t, root);
      assert Opened(all, i + 1, failing) == files + (if all[i].path in failing then [] else [all[i]]);
      var path := CsvFilePath(dir, schema.name);
      if path !in failing {
        var text := WriteTable(t, root);
        files := files + [CsvFile(path, text)];
      }
      i := i + 1;
    }
  }
}
