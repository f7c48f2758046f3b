/**
 * Whole documents worked through the model: the tables the analysis finds, the
 * rows each table's walk writes, and where the ids of the two passes part.
 */
module Scenarios {
  import opened JsonTree
  import opened Wrappers
  import opened Naming
  import opened Registry
  import opened Analyzer
  import opened CsvWriter
  import opened Converter
  import opened Text
  import opened CsvCells

  lemma RootKeys()
    ensures SafeName("root") == "root"
    ensures KeyColumns(Some("root")) == ["id", "root_id"]
  {
    SafeNameFixedPoints("root");
    assert ForeignKey("root") == "root_id";
  }

  /** The root object's table comes first, with just "id", and the root takes id 1. */
  lemma RootStart()
    ensures ObjectStart(Schema([], 1), "root", None) == Schema([Table("root", ["id"])], 2)
  {
    NewObjectTable([], 1, "root", None);
  }

  /** Under the root object, a member that is an array is analyzed with the root's table as parent. */
  lemma MemberOfRoot(key: string, value: Json)
    requires IsContainer(value)
    ensures Schemas(Object([Pair(key, value)])) == Analysis(value, Some("root"), key, Schema([Table("root", ["id"])], 2)).tables
  {
    var ps := [Pair(key, value)];
    var s1 := Schema([Table("root", ["id"])], 2);
    RootKeys();
    RootStart();
    assert Analysis(Object(ps), None, "root", Schema([], 1)) == MembersAnalysis(ps, 1, "root", s1);
  }

  /**
   * `{key: [scalars...]}`: the array becomes a junction table of its own,
   * registered in front of the root table, with "id", "root_id", "index"
   * and "value".
   */
  lemma JunctionSchemas(key: string, es: seq<Json>)
    requires |es| > 0 && !es[0].Object? && SafeName(key) != "root"
    ensures Schemas(Object([Pair(key, Array(es))]))
      == [Table(SafeName(key), ["id", "root_id", "index", "value"]), Table("root", ["id"])]
  {
    var s1 := Schema([Table("root", ["id"])], 2);
    MemberOfRoot(key, Array(es));
    assert Analysis(Array(es), Some("root"), key, s1) == ScalarArrayAnalysis(Some("root"), key, s1);
    assert !HasTable([Table("root", ["id"])], SafeName(key));
    NewJunctionTable([Table("root", ["id"])], 2, key, Some("root"));
    JunctionColumnsUnderRoot();
  }

  lemma JunctionColumnsUnderRoot()
    ensures KeyColumns(Some("root")) + ["index", "value"] == ["id", "root_id", "index", "value"]
  {
    RootKeys();
  }

  /** The walk from `{key: value}`: the root row (when `t` is the root table), then the walk of `value` with the root as parent and the counter at 2. */
  lemma WalkUnderRoot(t: Table, key: string, value: Json)
    ensures var ps := [Pair(key, value)];
      var own := if t.name == "root" then [Row(1, ObjectCells(t.columns, 1, None, ps))] else [];
      var inner := NodePass(t, value, key, Some(Parent("root", 1)), 2);
      NodePass(t, Object(ps), "root", None, 1) == Pass(own + inner.rows, inner.next)
  {
    var ps := [Pair(key, value)];
    RootKeys();
    var inner := NodePass(t, value, key, Some(Parent("root", 1)), 2);
    assert ChildrenPass(t, ps, 0, Parent("root", 1), 2) == Pass([], 2);
    assert ChildrenPass(t, ps, 1, Parent("root", 1), 2) == Pass([] + inner.rows, inner.next);
    assert [] + inner.rows == inner.rows;
  }

  /** The junction row of item `j`: its id, the root's id 1, its position and the item itself. */
  lemma JunctionCells(key: string, id: int, j: nat, item: Json)
    requires !item.Object?
    ensures ItemCells(["id", "root_id", "index", "value"], id, Some(Parent("root", 1)), j, item)
      == [RowId(id), ParentRowId(1), Position(j), Value(item)]
  {
    var parent := Some(Parent("root", 1));
    RootKeys();
    ScalarItemCells("id", id, parent, j, item);
    ScalarItemCells("root_id", id, parent, j, item);
    ScalarItemCells("index", id, parent, j, item);
    ScalarItemCells("value", id, parent, j, item);
  }

  /** For the junction table, the walk from `{key: es}` is the walk over the items of `es`, ids counted from 2. */
  lemma JunctionWalk(key: string, es: seq<Json>)
    requires SafeName(key) != "root"
    ensures var t := Table(SafeName(key), ["id", "root_id", "index", "value"]);
      NodePass(t, Object([Pair(key, Array(es))]), "root", None, 1).rows
      == ItemsPass(t, es, |es|, SafeName(key), Some(Parent("root", 1)), 2).rows
  {
    var t := Table(SafeName(key), ["id", "root_id", "index", "value"]);
    var p := ItemsPass(t, es, |es|, SafeName(key), Some(Parent("root", 1)), 2);
    WalkUnderRoot(t, key, Array(es));
    assert NodePass(t, Array(es), key, Some(Parent("root", 1)), 2) == p;
    assert [] + p.rows == p.rows;
  }

  /** The items of a scalar array under the root: item `j` gets id 2 + j and points at the root's row. */
  lemma JunctionItems(key: string, es: seq<Json>)
    requires forall k :: 0 <= k < |es| ==> !IsContainer(es[k])
    ensures var t := Table(SafeName(key), ["id", "root_id", "index", "value"]);
      var rows := ItemsPass(t, es, |es|, SafeName(key), Some(Parent("root", 1)), 2).rows;
      && |rows| == |es|
      && forall j :: 0 <= j < |es| ==> rows[j] == Row(2 + j, [RowId(2 + j), ParentRowId(1), Position(j), Value(es[j])])
  {
    var t := Table(SafeName(key), ["id", "root_id", "index", "value"]);
    var parent := Some(Parent("root", 1));
    var p := ItemsPass(t, es, |es|, SafeName(key), parent, 2);
    ScalarItemsRows(t, es, |es|, SafeName(key), parent, 2);
    forall j | 0 <= j < |es|
      ensures p.rows[j] == Row(2 + j, [RowId(2 + j), ParentRowId(1), Position(j), Value(es[j])])
    {
      assert p.rows[j] == Row(2 + j, ItemCells(t.columns, 2 + j, parent, j, es[j]));
      JunctionCells(key, 2 + j, j, es[j]);
    }
  }

  /**
   * The junction table's file for `{key: [scalars...]}`: one row per item,
   * in order, with ids counted from 2 (the root took 1), each pointing at
   * the root's row.
   */
  lemma JunctionRows(key: string, es: seq<Json>)
    requires SafeName(key) != "root"
    requires forall k :: 0 <= k < |es| ==> !IsContainer(es[k])
    ensures var t := Table(SafeName(key), ["id", "root_id", "index", "value"]);
      var rows := NodePass(t, Object([Pair(key, Array(es))]), "root", None, 1).rows;
      && |rows| == |es|
      && forall j :: 0 <= j < |es| ==> rows[j] == Row(2 + j, [RowId(2 + j), ParentRowId(1), Position(j), Value(es[j])])
  {
    JunctionWalk(key, es);
    JunctionItems(key, es);
  }

  /** The root table's file for the same document: the root's own row and nothing from the array. */
  lemma JunctionRootRows(key: string, es: seq<Json>)
    requires SafeName(key) != "root"
    requires forall k :: 0 <= k < |es| ==> !IsContainer(es[k])
    ensures NodePass(Table("root", ["id"]), Object([Pair(key, Array(es))]), "root", None, 1).rows
      == [Row(1, [RowId(1)])]
  {
    var t := Table("root", ["id"]);
    var ps := [Pair(key, Array(es))];
    var parent := Some(Parent("root", 1));
    WalkUnderRoot(t, key, Array(es));
    assert NodePass(t, Array(es), key, parent, 2) == ElementsPass(t, es, |es|, SafeName(key), parent, 2);
    ScalarElementsSilent(t, es, |es|, SafeName(key), parent, 2);
    assert ObjectCells(t.columns, 1, None, ps) == [RowId(1)];
  }

  /**
   * `{list: [{child: {inner...}}]}`: an array of objects, each holding one
   * nested object whose members are all scalars.
   */
  function NestedDocument(list: string, child: string, inner: seq<Pair>): Json {
    Object([Pair(list, Array([Object([Pair(child, Object(inner))])]))])
  }

  /** The inner object, walked with the counter at `counter`: its own row if `t` is its table, and nothing else. */
  lemma InnerWalk(t: Table, child: string, inner: seq<Pair>, parent: Parent, counter: int)
    requires forall k :: 0 <= k < |inner| ==> !IsContainer(inner[k].value)
    ensures NodePass(t, Object(inner), child, Some(parent), counter).rows
      == if SafeName(child) == t.name then [Row(counter, ObjectCells(t.columns, counter, Some(parent), inner))] else []
  {
    ScalarChildrenSilent(t, inner, |inner|, Parent(SafeName(child), counter), counter + 1);
  }

  /** The one member of the array's object, walked as a child of that object. */
  lemma MemberWalk(t: Table, child: string, inner: seq<Pair>, parent: Parent, counter: int)
    ensures ChildrenPass(t, [Pair(child, Object(inner))], 1, parent, counter).rows
      == NodePass(t, Object(inner), child, Some(parent), counter).rows
  {
    var last := NodePass(t, Object(inner), child, Some(parent), counter);
    assert ChildrenPass(t, [Pair(child, Object(inner))], 0, parent, counter) == Pass([], counter);
    assert [] + last.rows == last.rows;
  }

  /**
   * In the child's table, the walk meets the array's object as an element
   * of an array that is not its target: the element draws id 2 before the
   * walk enters it, the walk then gives the object id 3 (the id the child's
   * foreign key holds), and the child's row gets id 4. Id 2 is the one the
   * list's table gives the same object (`ListRows`).
   */
  lemma ChildRows(t: Table, list: string, child: string, inner: seq<Pair>)
    requires t.name == SafeName(child) && t.name != SafeName(list) && t.name != "root"
    requires forall k :: 0 <= k < |inner| ==> !IsContainer(inner[k].value)
    ensures NodePass(t, NestedDocument(list, child, inner), "root", None, 1).rows
      == [Row(4, ObjectCells(t.columns, 4, Some(Parent(SafeName(list), 3)), inner))]
  {
    var name := SafeName(list);
    var item := Object([Pair(child, Object(inner))]);
    var root := Some(Parent("root", 1));
    WalkUnderRoot(t, list, Array([item]));
    SafeNameIdempotent(list);
    var e := NodePass(t, item, name, root, 3);
    assert ElementsPass(t, [item], 0, name, root, 2) == Pass([], 2);
    assert ElementsPass(t, [item], 1, name, root, 2) == Pass([] + e.rows, e.next);
    MemberWalk(t, child, inner, Parent(name, 3), 4);
    InnerWalk(t, child, inner, Parent(name, 3), 4);
    assert e.rows == [] + ChildrenPass(t, [Pair(child, Object(inner))], 1, Parent(name, 3), 4).rows;
  }

  /**
   * In the list's table, the same object is an item of the target array:
   * its row gets id 2, and the walk below it writes nothing to this table.
   */
  lemma ListRows(t: Table, list: string, child: string, inner: seq<Pair>)
    requires t.name == SafeName(list) && t.name != SafeName(child) && t.name != "root"
    requires forall k :: 0 <= k < |inner| ==> !IsContainer(inner[k].value)
    ensures NodePass(t, NestedDocument(list, child, inner), "root", None, 1).rows
      == [Row(2, ItemCells(t.columns, 2, Some(Parent("root", 1)), 0, Object([Pair(child, Object(inner))])))]
  {
    var item := Object([Pair(child, Object(inner))]);
    var root := Some(Parent("root", 1));
    WalkUnderRoot(t, list, Array([item]));
    var row := Row(2, ItemCells(t.columns, 2, root, 0, item));
    var i := ItemPass(t, item, 0, t.name, root, 2);
    assert ItemsPass(t, [item], 0, t.name, root, 2) == Pass([], 2);
    assert ItemsPass(t, [item], 1, t.name, root, 2) == Pass([] + i.rows, i.next);
    MemberWalk(t, child, inner, Parent(t.name, 2), 3);
    InnerWalk(t, child, inner, Parent(t.name, 2), 3);
    assert i.rows == [row] + [];
  }

  /**
   * The two passes part: the child's row points at id 3 through the list's
   * foreign-key column, but the list's table has its only row at id 2 and
   * none at 3. An object inside an array that is not the target takes an
   * extra id, so the child's foreign key names no row of its parent table.
   */
  lemma ForeignKeyMismatch(list: string, child: string, inner: seq<Pair>, childColumns: seq<string>, listColumns: seq<string>)
    requires SafeName(list) != SafeName(child) && SafeName(list) != "root" && SafeName(child) != "root"
    requires forall k :: 0 <= k < |inner| ==> !IsContainer(inner[k].value)
    requires |childColumns| >= 2 && childColumns[0] == "id" && childColumns[1] == ForeignKey(SafeName(list))
    ensures var doc := NestedDocument(list, child, inner);
      var childRows := NodePass(Table(SafeName(child), childColumns), doc, "root", None, 1).rows;
      var listRows := NodePass(Table(SafeName(list), listColumns), doc, "root", None, 1).rows;
      && |childRows| == 1 && |childRows[0].cells| == |childColumns| && childRows[0].cells[0] == RowId(4) && childRows[0].cells[1] == ParentRowId(3)
      && |listRows| == 1 && listRows[0].id == 2
      && forall r :: r in listRows ==> r.id != 3
  {
    var tc := Table(SafeName(child), childColumns);
    var tl := Table(SafeName(list), listColumns);
    ChildRows(tc, list, child, inner);
    ListRows(tl, list, child, inner);
    var parent := Some(Parent(SafeName(list), 3));
    assert ObjectCell(childColumns[0], 4, parent, inner) == RowId(4);
    assert ObjectCell(childColumns[1], 4, parent, inner) == ParentRowId(3);
  }

  /** `{"tags": ["a", "b"]}`. */
  function TagsDocument(): Json {
    Object([Pair("tags", Array([String("a"), String("b")]))])
  }

  const TagsColumns: seq<string> := ["id", "root_id", "index", "value"]

  lemma TagsIsSafe()
    ensures SafeName("tags") == "tags"
  {
    SafeNameFixedPoints("tags");
  }

  /** The analysis of the tags document: the junction table "tags" in front of "root". */
  lemma TagsSchemas()
    ensures Schemas(TagsDocument()) == [Table("tags", TagsColumns), Table("root", ["id"])]
  {
    TagsIsSafe();
    JunctionSchemas("tags", [String("a"), String("b")]);
  }

  /** The two junction rows of the tags document, ids 2 and 3, both pointing at the root's id 1. */
  lemma TagsRows()
    ensures NodePass(Table("tags", TagsColumns), TagsDocument(), "root", None, 1).rows
      == [Row(2, [RowId(2), ParentRowId(1), Position(0), Value(String("a"))]),
          Row(3, [RowId(3), ParentRowId(1), Position(1), Value(String("b"))])]
  {
    TagsIsSafe();
    JunctionRows("tags", [String("a"), String("b")]);
  }

  lemma TagsHeader()
    ensures HeaderText(TagsColumns) == "id," + "root_id," + "index," + "value" + "\n"
  {
    assert Fields(TagsColumns, 1) == "id,";
    assert Fields(TagsColumns, 2) == "id," + "root_id,";
    assert Fields(TagsColumns, 3) == "id," + "root_id," + "index,";
    assert Fields(TagsColumns, 4) == "id," + "root_id," + "index," + "value";
  }

  /** A junction row whose numbers are single digits and whose value is a one-letter string. */
  lemma SmallRowText(id: nat, parent: nat, pos: nat, c: char)
    requires id < 10 && parent < 10 && pos < 10 && c != '"'
    ensures RowText(Row(id, [RowId(id), ParentRowId(parent), Position(pos), Value(String([c]))]))
      == [DigitChar(id), ',', DigitChar(parent), ',', DigitChar(pos), ',', '"', c, '"', '\n']
  {
    var cells := [RowId(id), ParentRowId(parent), Position(pos), Value(String([c]))];
    assert [c][1..] == [];
    assert DoubleQuotes([c]) == [c] + DoubleQuotes([]);
    var texts := [[DigitChar(id)], [DigitChar(parent)], [DigitChar(pos)], ['"', c, '"']];
    assert CellText(cells[0]) == texts[0] && CellText(cells[1]) == texts[1];
    assert CellText(cells[2]) == texts[2] && CellText(cells[3]) == texts[3];
    assert CellTexts(cells) == texts;
    assert Fields(texts, 1) == [DigitChar(id)] + ",";
    assert Fields(texts, 2) == Fields(texts, 1) + [DigitChar(parent)] + ",";
    assert Fields(texts, 3) == Fields(texts, 2) + [DigitChar(pos)] + ",";
    assert Fields(texts, 4) == Fields(texts, 3) + ['"', c, '"'];
  }

  /** The data lines of tags.csv. */
  lemma TagsRowsText()
    ensures RowsText([Row(2, [RowId(2), ParentRowId(1), Position(0), Value(String("a"))]),
                      Row(3, [RowId(3), ParentRowId(1), Position(1), Value(String("b"))])])
      == "2,1,0,\"a\"\n" + "3,1,1,\"b\"\n"
  {
    var r2 := Row(2, [RowId(2), ParentRowId(1), Position(0), Value(String("a"))]);
    var r3 := Row(3, [RowId(3), ParentRowId(1), Position(1), Value(String("b"))]);
    SmallRowText(2, 1, 0, 'a');
    SmallRowText(3, 1, 1, 'b');
    assert RowsText([r2, r3]) == RowText(r2) + RowsText([r3]);
    assert RowsText([r3]) == RowText(r3) + RowsText([]);
  }

  /**
   * tags.csv, whole: `id,root_id,index,value`, then `2,1,0,"a"` and
   * `3,1,1,"b"`.
   */
  lemma TagsText()
    ensures TableText(Table("tags", TagsColumns), TagsDocument())
      == "id," + "root_id," + "index," + "value" + "\n" + "2,1,0,\"a\"\n" + "3,1,1,\"b\"\n"
  {
    var rows := [Row(2, [RowId(2), ParentRowId(1), Position(0), Value(String("a"))]),
                 Row(3, [RowId(3), ParentRowId(1), Position(1), Value(String("b"))])];
    TagsRows();
    assert TableText(Table("tags", TagsColumns), TagsDocument()) == HeaderText(TagsColumns) + RowsText(rows);
    TagsHeader();
    TagsRowsText();
  }

  /** `{"items": [{"x": a}, {"y": b}]}` for two strings `a` and `b`. */
  function ItemsDocument(a: string, b: string): Json {
    Object([Pair("items", Array([Object([Pair("x", String(a))]), Object([Pair("y", String(b))])]))])
  }

  const ItemsColumns: seq<string> := ["id", "root_id", "seq", "x", "y"]

  /** A new column for the first of two tables, "root" being the second. */
  lemma AddColumnBeforeRoot(name: string, cols: seq<string>, c: string)
    requires name != "root" && c !in cols
    ensures AddColumnTo([Table(name, cols), Table("root", ["id"])], name, c)
      == [Table(name, cols + [c]), Table("root", ["id"])]
  {
    var reg := [Table(name, cols), Table("root", ["id"])];
    AddColumnToAt(reg, name, c);
  }

  /** An object element `{key: v}` of the items array: it takes an id and adds its key to the items table. */
  lemma ItemsElement(cols: seq<string>, key: string, v: string, n: int)
    requires key !in cols
    ensures ElementAnalysis(Object([Pair(key, String(v))]), "items", Schema([Table("items", cols), Table("root", ["id"])], n))
      == Schema([Table("items", cols + [key]), Table("root", ["id"])], n + 1)
  {
    var ps := [Pair(key, String(v))];
    var s := Schema([Table("items", cols), Table("root", ["id"])], n + 1);
    assert MembersAnalysis(ps, 1, "items", s) == MemberAnalysis(ps[0], "items", s);
    AddColumnBeforeRoot("items", cols, key);
  }

  /**
   * `{key: [objects...]}`: the array opens one shared table in front of the
   * root table, with "id", "root_id" and "seq"; then its elements are analyzed.
   */
  lemma ObjectArrayUnderRoot(key: string, es: seq<Json>)
    requires |es| > 0 && es[0].Object? && SafeName(key) != "root"
    ensures Schemas(Object([Pair(key, Array(es))]))
      == ElementsAnalysis(es, |es|, SafeName(key), Schema([Table(SafeName(key), ["id", "root_id", "seq"]), Table("root", ["id"])], 2)).tables
  {
    var root := [Table("root", ["id"])];
    var s1 := Schema(root, 2);
    MemberOfRoot(key, Array(es));
    assert Analysis(Array(es), Some("root"), key, s1) == ObjectArrayAnalysis(es, Some("root"), key, s1);
    assert !HasTable(root, SafeName(key));
    NewObjectArrayTable(root, 2, SafeName(key), Some("root"));
    ArrayColumnsUnderRoot();
    var name := SafeName(key);
    var cols := KeyColumns(Some("root")) + ["seq"];
    assert [Table(name, cols)] + root == [Table(name, ["id", "root_id", "seq"]), Table("root", ["id"])];
    assert ObjectArrayAnalysis(es, Some("root"), key, s1)
      == ElementsAnalysis(es, |es|, name, Schema([Table(name, cols)] + root, 2));
  }

  lemma ArrayColumnsUnderRoot()
    ensures KeyColumns(Some("root")) + ["seq"] == ["id", "root_id", "seq"]
  {
    RootKeys();
  }

  lemma ItemsArrayStart(a: string, b: string)
    ensures var es := [Object([Pair("x", String(a))]), Object([Pair("y", String(b))])];
      Schemas(ItemsDocument(a, b))
      == ElementsAnalysis(es, 2, "items", Schema([Table("items", ["id", "root_id", "seq"]), Table("root", ["id"])], 2)).tables
  {
    var es := [Object([Pair("x", String(a))]), Object([Pair("y", String(b))])];
    SafeNameFixedPoints("items");
    ObjectArrayUnderRoot("items", es);
  }

  /** The two elements: the first adds "x", the second "y", each taking an id. */
  lemma ItemsElements(a: string, b: string)
    ensures var es := ItemsDocument(a, b).pairs[0].value.elements;
      ElementsAnalysis(es, 2, "items", Schema([Table("items", ["id", "root_id", "seq"]), Table("root", ["id"])], 2))
      == Schema([Table("items", ItemsColumns), Table("root", ["id"])], 4)
  {
    var es := [Object([Pair("x", String(a))]), Object([Pair("y", String(b))])];
    var keyed := ["id", "root_id", "seq"];
    var s2 := Schema([Table("items", keyed), Table("root", ["id"])], 2);
    ItemsElement(keyed, "x", a, 2);
    ItemsElement(keyed + ["x"], "y", b, 3);
    assert ElementsAnalysis(es, 1, "items", s2) == ElementAnalysis(es[0], "items", s2);
    assert keyed + ["x"] + ["y"] == ItemsColumns;
  }

  /**
   * The analysis of the items document: the object-array table "items"
   * with "id", "root_id", "seq" and then the scalar keys in the order the
   * items show them, in front of "root".
   */
  lemma ItemsSchemas(a: string, b: string)
    ensures Schemas(ItemsDocument(a, b)) == [Table("items", ItemsColumns), Table("root", ["id"])]
  {
    ItemsArrayStart(a, b);
    ItemsElements(a, b);
  }

  /** The fields of an item row of the items table: id, the root's id, the position, then "x" and "y". */
  lemma ItemsCells(id: int, pos: nat, key: string, v: string)
    requires key == "x" || key == "y"
    ensures ItemCells(ItemsColumns, id, Some(Parent("root", 1)), pos, Object([Pair(key, String(v))]))
      == [RowId(id), ParentRowId(1), Position(pos),
          if key == "x" then Value(String(v)) else Blank,
          if key == "y" then Value(String(v)) else Blank]
  {
    var parent := Some(Parent("root", 1));
    var item := Object([Pair(key, String(v))]);
    assert ForeignKey("root") == "root_id";
    var cells := ItemCells(ItemsColumns, id, parent, pos, item);
    assert cells[0] == RowId(id) && cells[1] == ParentRowId(1) && cells[2] == Position(pos);
    var ps := [Pair(key, String(v))];
    assert ps[1..] == [];
    assert cells[3] == Lookup(ps, "x") == if key == "x" then Value(String(v)) else Lookup([], "x");
    assert cells[4] == Lookup(ps, "y") == if key == "y" then Value(String(v)) else Lookup([], "y");
  }

  /** One object item of the items array: its row, and nothing from its scalar member. */
  lemma ItemsItem(id: int, pos: nat, key: string, v: string)
    requires key == "x" || key == "y"
    ensures ItemPass(Table("items", ItemsColumns), Object([Pair(key, String(v))]), pos, "items", Some(Parent("root", 1)), id)
      == Pass([Row(id, ItemCells(ItemsColumns, id, Some(Parent("root", 1)), pos, Object([Pair(key, String(v))])))], id + 1)
  {
    var t := Table("items", ItemsColumns);
    var ps := [Pair(key, String(v))];
    ScalarChildrenSilent(t, ps, 1, Parent("items", id), id + 1);
  }

  /** The two items, walked as the target array under the root: a row each, ids 2 and 3. */
  lemma ItemsArrayRows(a: string, b: string)
    ensures ItemsPass(Table("items", ItemsColumns), ItemsDocument(a, b).pairs[0].value.elements, 2, "items", Some(Parent("root", 1)), 2).rows
      == [Row(2, [RowId(2), ParentRowId(1), Position(0), Value(String(a)), Blank]),
          Row(3, [RowId(3), ParentRowId(1), Position(1), Blank, Value(String(b))])]
  {
    var t := Table("items", ItemsColumns);
    var o1 := Object([Pair("x", String(a))]);
    var es := ItemsDocument(a, b).pairs[0].value.elements;
    var parent := Some(Parent("root", 1));
    ItemsItem(2, 0, "x", a);
    ItemsItem(3, 1, "y", b);
    ItemsCells(2, 0, "x", a);
    ItemsCells(3, 1, "y", b);
    assert ItemsPass(t, es, 0, "items", parent, 2) == Pass([], 2);
    assert ItemsPass(t, es, 1, "items", parent, 2) == Pass([] + ItemPass(t, o1, 0, "items", parent, 2).rows, 3);
  }

  /** The rows of items.csv: one per array item, ids 2 and 3, "seq" 0 and 1, each item's own key filled and the other blank. */
  lemma ItemsRows(a: string, b: string)
    ensures NodePass(Table("items", ItemsColumns), ItemsDocument(a, b), "root", None, 1).rows
      == [Row(2, [RowId(2), ParentRowId(1), Position(0), Value(String(a)), Blank]),
          Row(3, [RowId(3), ParentRowId(1), Position(1), Blank, Value(String(b))])]
  {
    var t := Table("items", ItemsColumns);
    var es := ItemsDocument(a, b).pairs[0].value.elements;
    var parent := Some(Parent("root", 1));
    var p := ItemsPass(t, es, 2, "items", parent, 2);
    assert SafeName("items") == "items" by {
      SafeNameFixedPoints("items");
    }
    WalkUnderRoot(t, "items", Array(es));
    assert NodePass(t, Array(es), "items", parent, 2) == p;
    assert [] + p.rows == p.rows;
    ItemsArrayRows(a, b);
  }

  /** A row of single-digit ids and position, then two fields that are each blank or a quoted letter. */
  lemma ItemRowText(id: nat, pos: nat, x: Cell, y: Cell, xText: string, yText: string)
    requires id < 10 && pos < 10
    requires CellText(x) == xText && CellText(y) == yText
    ensures RowText(Row(id, [RowId(id), ParentRowId(1), Position(pos), x, y]))
      == [DigitChar(id)] + "," + "1," + [DigitChar(pos)] + "," + xText + "," + yText + "\n"
  {
    var cells := [RowId(id), ParentRowId(1), Position(pos), x, y];
    var texts := [[DigitChar(id)], "1", [DigitChar(pos)], xText, yText];
    assert CellText(cells[0]) == texts[0] && CellText(cells[1]) == texts[1] && CellText(cells[2]) == texts[2];
    assert CellTexts(cells) == texts;
    assert Fields(texts, 1) == [DigitChar(id)] + ",";
    assert Fields(texts, 2) == [DigitChar(id)] + "," + "1,";
    assert Fields(texts, 3) == [DigitChar(id)] + "," + "1," + [DigitChar(pos)] + ",";
    assert Fields(texts, 4) == Fields(texts, 3) + xText + ",";
    assert Fields(texts, 5) == Fields(texts, 4) + yText;
  }

  lemma QuotedLetter(c: char)
    requires c != '"'
    ensures CellText(Value(String([c]))) == ['"', c, '"']
  {
    assert [c][1..] == [];
    assert DoubleQuotes([c]) == [c] + DoubleQuotes([]);
  }

  lemma ItemsHeader()
    ensures HeaderText(ItemsColumns) == "id," + "root_id," + "seq," + "x," + "y" + "\n"
  {
    assert Fields(ItemsColumns, 1) == "id,";
    assert Fields(ItemsColumns, 2) == "id," + "root_id,";
    assert Fields(ItemsColumns, 3) == "id," + "root_id," + "seq,";
    assert Fields(ItemsColumns, 4) == "id," + "root_id," + "seq," + "x,";
    assert Fields(ItemsColumns, 5) == "id," + "root_id," + "seq," + "x," + "y";
  }

  /** The data lines of items.csv when both values are one-letter strings. */
  lemma ItemsRowsText(a: char, b: char)
    requires a != '"' && b != '"'
    ensures RowsText([Row(2, [RowId(2), ParentRowId(1), Position(0), Value(String([a])), Blank]),
                      Row(3, [RowId(3), ParentRowId(1), Position(1), Blank, Value(String([b]))])])
      == "2,1,0," + ['"', a, '"'] + ",\n" + "3,1,1,," + ['"', b, '"'] + "\n"
  {
    var r2 := Row(2, [RowId(2), ParentRowId(1), Position(0), Value(String([a])), Blank]);
    var r3 := Row(3, [RowId(3), ParentRowId(1), Position(1), Blank, Value(String([b]))]);
    QuotedLetter(a);
    QuotedLetter(b);
    ItemRowText(2, 0, Value(String([a])), Blank, ['"', a, '"'], "");
    ItemRowText(3, 1, Blank, Value(String([b])), "", ['"', b, '"']);
    assert RowsText([r2, r3]) == RowText(r2) + RowsText([r3]);
    assert RowsText([r3]) == RowText(r3) + RowsText([]);
  }

  /**
   * items.csv, whole: for `{"items": [{"x": "a"}, {"y": "b"}]}` it is
   * `id,root_id,seq,x,y`, then `2,1,0,"a",` and `3,1,1,,"b"`: a column an
   * item lacks is an empty field.
   */
  lemma ItemsText(a: char, b: char)
    requires a != '"' && b != '"'
    ensures TableText(Table("items", ItemsColumns), ItemsDocument([a], [b]))
      == "id," + "root_id," + "seq," + "x," + "y" + "\n" + "2,1,0," + ['"', a, '"'] + ",\n" + "3,1,1,," + ['"', b, '"'] + "\n"
  {
    var rows := [Row(2, [RowId(2), ParentRowId(1), Position(0), Value(String([a])), Blank]),
                 Row(3, [RowId(3), ParentRowId(1), Position(1), Blank, Value(String([b]))])];
    ItemsRows([a], [b]);
    assert TableText(Table("items", ItemsColumns), ItemsDocument([a], [b])) == HeaderText(ItemsColumns) + RowsText(rows);
    ItemsHeader();
    ItemsRowsText(a, b);
  }
}
