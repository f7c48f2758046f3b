/**
 * The schema analyzer (src/csv_gen.c, `analyze_node`).
 *
 * One walk of the tree registers a table for every object (named after the
 * key that leads to it), for every non-empty array (one table shared by all
 * its elements) and adds columns to them; an id counter is bumped once per
 * object reached and once per object element of an object array.
 *
 * `Analysis`, `MembersAnalysis` and `ElementsAnalysis` are the value-level
 * definition; the method `AnalyzeNode` is the imperative walk over the
 * registry objects and is proved to end in that state. The `parent_id`
 * argument of the source is passed down but never read, so it is not
 * modelled.
 */
module Analyzer {
  import opened JsonTree
  import opened Wrappers
  import opened Naming
  import opened Registry

  /** Resolve the table `name`, then make sure it has "id" and, under a parent, the parent's key column. */
  function WithKeyColumns(reg: seq<Table>, name: string, parent: Option<string>): seq<Table> {
    var withId := AddColumnTo(FindOrCreate(reg, name), name, "id");
    if parent.Some? then AddColumnTo(withId, name, ForeignKey(parent.value)) else withId
  }

  /** The state after `analyze_node(node, parent, key)` starting from `s`: only objects and non-empty arrays change it. */
  function Analysis(node: Json, parent: Option<string>, key: string, s: Schema): Schema
    decreases node, 2
  {
    match node
    case Object(ps) => ObjectAnalysis(ps, parent, key, s)
    case Array(es) =>
      if |es| == 0 then s
      else if es[0].Object? then ObjectArrayAnalysis(es, parent, key, s)
      else ScalarArrayAnalysis(parent, key, s)
    case _ => s
  }

  /** The state once an object's table `name` has its key columns and the object has taken its id. */
  function ObjectStart(s: Schema, name: string, parent: Option<string>): Schema {
    Schema(WithKeyColumns(s.tables, name, parent), s.nextId + 1)
  }

  /** The state once an object array's shared table `name` has its key columns and "seq". */
  function ArrayStart(s: Schema, name: string, parent: Option<string>): Schema {
    Schema(AddColumnTo(WithKeyColumns(s.tables, name, parent), name, "seq"), s.nextId)
  }

  /** An object: its table and key columns, one id, then its members. */
  function ObjectAnalysis(ps: seq<Pair>, parent: Option<string>, key: string, s: Schema): Schema
    decreases ps, |ps| + 1
  {
    MembersAnalysis(ps, |ps|, SafeName(key), ObjectStart(s, SafeName(key), parent))
  }

  /** An array whose first element is an object: one shared table with "seq", then each element. */
  function ObjectArrayAnalysis(es: seq<Json>, parent: Option<string>, key: string, s: Schema): Schema
    decreases es, |es| + 1
  {
    ElementsAnalysis(es, |es|, SafeName(key), ArrayStart(s, SafeName(key), parent))
  }

  /** Any other non-empty array: a junction table with "index" and "value"; its elements are not looked at. */
  function ScalarArrayAnalysis(parent: Option<string>, key: string, s: Schema): Schema {
    var name := SafeName(key);
    var reg := AddColumnTo(WithKeyColumns(s.tables, name, parent), name, "index");
    Schema(AddColumnTo(reg, name, "value"), s.nextId)
  }

  /**
   * The first `n` members of an object whose rows go to `table`: a nested
   * object or array is analyzed with `table` as its parent, a scalar adds
   * its key as a column.
   */
  function MembersAnalysis(ps: seq<Pair>, n: nat, table: string, s: Schema): Schema
    requires n <= |ps|
    decreases ps, n
  {
    if n == 0 then s
    else MemberAnalysis(ps[n - 1], table, MembersAnalysis(ps, n - 1, table, s))
  }

  /** One member: a nested object or array is analyzed under `table`, a scalar becomes a column of it. */
  function MemberAnalysis(p: Pair, table: string, s: Schema): Schema
    decreases p, 2
  {
    if IsContainer(p.value) then Analysis(p.value, Some(table), p.key, s)
    else s.(tables := AddColumnTo(s.tables, table, p.key))
  }

  /** The first `n` elements of an object array: each object takes an id and adds to the shared table; other elements are skipped. */
  function ElementsAnalysis(es: seq<Json>, n: nat, table: string, s: Schema): Schema
    requires n <= |es|
    decreases es, n
  {
    if n == 0 then s
    else ElementAnalysis(es[n - 1], table, ElementsAnalysis(es, n - 1, table, s))
  }

  /** One element of an object array: an object takes an id and adds its members to `table`; anything else is skipped. */
  function ElementAnalysis(e: Json, table: string, s: Schema): Schema
    decreases e, 2
  {
    if e.Object? then MembersAnalysis(e.pairs, |e.pairs|, table, Schema(s.tables, s.nextId + 1))
    else s
  }

  /**
   * `analyze_node`: an object or a non-empty array registers its table and
   * its columns; anything else changes nothing.
   */
  method AnalyzeNode(ctx: SchemaContext, node: Json, parentTable: Option<string>, key: string)
    requires ctx.Valid()
    modifies ctx, ctx.Repr
    ensures ctx.Valid()
    ensures Schema(ctx.model, ctx.nextId) == Analysis(node, parentTable, key, Schema(old(ctx.model), old(ctx.nextId)))
    ensures old(ctx.Repr) <= ctx.Repr && fresh(ctx.Repr - old(ctx.Repr))
    decreases node, 2
  {
    match node {
      case Object(ps) =>
        AnalyzeObject(ctx, ps, parentTable, key);
      case Array(es) =>
        if |es| > 0 && es[0].Object? {
          AnalyzeObjectArray(ctx, es, parentTable, key);
        } else if |es| > 0 {
          AnalyzeScalarArray(ctx, es, parentTable, key);
        }
      case _ =>
    }
  }

  /** The object branch: the table, its key columns, an id for the object, then the member loop. */
  method AnalyzeObject(ctx: SchemaContext, ps: seq<Pair>, parentTable: Option<string>, key: string)
    requires ctx.Valid()
    modifies ctx, ctx.Repr
    ensures ctx.Valid()
    ensures Schema(ctx.model, ctx.nextId) == ObjectAnalysis(ps, parentTable, key, Schema(old(ctx.model), old(ctx.nextId)))
    ensures old(ctx.Repr) <= ctx.Repr && fresh(ctx.Repr - old(ctx.Repr))
    decreases ps, 1
  {
    var table := ResolveTable(ctx, key, parentTable);
    ctx.nextId := ctx.nextId + 1;
    assert Schema(ctx.model, ctx.nextId) == ObjectStart(Schema(old(ctx.model), old(ctx.nextId)), table.name, parentTable);
    AnalyzeMembers(ctx, table, ps);
  }

  /** The array-of-objects branch: one shared table with a "seq" column, then each element. */
  method AnalyzeObjectArray(ctx: SchemaContext, es: seq<Json>, parentTable: Option<string>, key: string)
    requires ctx.Valid() && |es| > 0 && es[0].Object?
    modifies ctx, ctx.Repr
    ensures ctx.Valid()
    ensures Schema(ctx.model, ctx.nextId) == ObjectArrayAnalysis(es, parentTable, key, Schema(old(ctx.model), old(ctx.nextId)))
    ensures old(ctx.Repr) <= ctx.Repr && fresh(ctx.Repr - old(ctx.Repr))
    decreases es, 1
  {
    var table := ResolveTable(ctx, key, parentTable);
    ctx.AddColumn(table, "seq");
    assert Schema(ctx.model, ctx.nextId) == ArrayStart(Schema(old(ctx.model), old(ctx.nextId)), table.name, parentTable);
    AnalyzeElements(ctx, table, es);
  }

  /** The loop over the elements of an object array, all of which share `table`. */
  method AnalyzeElements(ctx: SchemaContext, table: TableSchema, es: seq<Json>)
    requires ctx.Valid() && table in ctx.Repr
    modifies ctx, ctx.Repr
    ensures ctx.Valid() && table in ctx.Repr
    ensures Schema(ctx.model, ctx.nextId) == ElementsAnalysis(es, |es|, table.name, Schema(old(ctx.model), old(ctx.nextId)))
    ensures old(ctx.Repr) <= ctx.Repr && fresh(ctx.Repr - old(ctx.Repr))
    decreases es, 0
  {
    var i := 0;
    while i < |es|
      invariant i <= |es|
      invariant ctx.Valid() && table in ctx.Repr
      invariant Schema(ctx.model, ctx.nextId) == ElementsAnalysis(es, i, table.name, Schema(old(ctx.model), old(ctx.nextId)))
      invariant old(ctx.Repr) <= ctx.Repr && fresh(ctx.Repr - old(ctx.Repr))
    {
      AnalyzeElement(ctx, table, es[i]);
      i := i + 1;
    }
  }

  /** The body of the element loop: only an object element takes an id and is analyzed. */
  method AnalyzeElement(ctx: SchemaContext, table: TableSchema, e: Json)
    requires ctx.Valid() && table in ctx.Repr
    modifies ctx, ctx.Repr
    ensures ctx.Valid() && table in ctx.Repr
    ensures Schema(ctx.model, ctx.nextId) == ElementAnalysis(e, table.name, Schema(old(ctx.model), old(ctx.nextId)))
    ensures old(ctx.Repr) <= ctx.Repr && fresh(ctx.Repr - old(ctx.Repr))
    decreases e, 2
  {
    if e.Object? {
      ctx.nextId := ctx.nextId + 1;
      assert Schema(ctx.model, ctx.nextId) == Schema(old(ctx.model), old(ctx.nextId) + 1);
      AnalyzeMembers(ctx, table, e.pairs);
    }
  }

  /** The array-of-scalars branch: a junction table with "index" and "value" columns; the elements are not visited. */
  method AnalyzeScalarArray(ctx: SchemaContext, es: seq<Json>, parentTable: Option<string>, key: string)
    requires ctx.Valid() && |es| > 0 && !es[0].Object?
    modifies ctx, ctx.Repr
    ensures ctx.Valid()
    ensures Schema(ctx.model, ctx.nextId) == ScalarArrayAnalysis(parentTable, key, Schema(old(ctx.model), old(ctx.nextId)))
    ensures old(ctx.Repr) <= ctx.Repr && fresh(ctx.Repr - old(ctx.Repr))
  {
    var table := ResolveTable(ctx, key, parentTable);
    ctx.AddColumn(table, "index");
    ctx.AddColumn(table, "value");
  }

  /**
   * The common head of every case: `safe_filename` on the key,
   * `find_or_create_table`, then "id", then the parent's key column.
   */
  method ResolveTable(ctx: SchemaContext, key: string, parentTable: Option<string>) returns (table: TableSchema)
    requires ctx.Valid()
    modifies ctx, ctx.Repr
    ensures ctx.Valid() && table in ctx.Repr && table.name == SafeName(key)
    ensures ctx.model == WithKeyColumns(old(ctx.model), SafeName(key), parentTable) && ctx.nextId == old(ctx.nextId)
    ensures old(ctx.Repr) <= ctx.Repr && fresh(ctx.Repr - old(ctx.Repr))
  {
    var name := SafeFilename(key);
    table := ctx.FindOrCreateTable(name);
    ctx.AddColumn(table, "id");
    if parentTable.Some? {
      ctx.AddColumn(table, ForeignKey(parentTable.value));
    }
  }

  /** The loop over one object's members, shared by the object case and each object element of an array. */
  method AnalyzeMembers(ctx: SchemaContext, table: TableSchema, ps: seq<Pair>)
    requires ctx.Valid() && table in ctx.Repr
    modifies ctx, ctx.Repr
    ensures ctx.Valid() && table in ctx.Repr
    ensures Schema(ctx.model, ctx.nextId) == MembersAnalysis(ps, |ps|, table.name, Schema(old(ctx.model), old(ctx.nextId)))
    ensures old(ctx.Repr) <= ctx.Repr && fresh(ctx.Repr - old(ctx.Repr))
    decreases ps, 0
  {
    var i := 0;
    while i < |ps|
      invariant i <= |ps|
      invariant ctx.Valid() && table in ctx.Repr
      invariant Schema(ctx.model, ctx.nextId) == MembersAnalysis(ps, i, table.name, Schema(old(ctx.model), old(ctx.nextId)))
      invariant old(ctx.Repr) <= ctx.Repr && fresh(ctx.Repr - old(ctx.Repr))
    {
      AnalyzeMember(ctx, table, ps[i]);
      i := i + 1;
    }
  }

  /** The body of the member loop: the `switch` on the value's type. */
  method AnalyzeMember(ctx: SchemaContext, table: TableSchema, pair: Pair)
    requires ctx.Valid() && table in ctx.Repr
    modifies ctx, ctx.Repr
    ensures ctx.Valid() && table in ctx.Repr
    ensures Schema(ctx.model, ctx.nextId) == MemberAnalysis(pair, table.name, Schema(old(ctx.model), old(ctx.nextId)))
    ensures old(ctx.Repr) <= ctx.Repr && fresh(ctx.Repr - old(ctx.Repr))
    decreases pair, 2
  {
    if pair.value.Object? || pair.value.Array? {
      AnalyzeNode(ctx, pair.value, Some(table.name), pair.key);
    } else {
      ctx.AddColumn(table, pair.key);
    }
  }

  /** Every table has "id" as its first column. */
  predicate IdFirst(reg: seq<Table>) {
    forall i :: 0 <= i < |reg| ==> |reg[i].columns| > 0 && reg[i].columns[0] == "id"
  }

  /**
   * `r` grows `s`: the counter has not gone back, and the tables of `s` are
   * still the last ones, in the same order, each with its old columns as a
   * prefix of its new ones.
   */
  predicate Extends(r: Schema, s: Schema) {
    && s.nextId <= r.nextId
    && |s.tables| <= |r.tables|
    && Grows(r.tables[|r.tables| - |s.tables|..], s.tables)
  }

  /** Table by table, the same names, and the old columns as a prefix of the new. */
  predicate Grows(now: seq<Table>, before: seq<Table>) {
    && |now| == |before|
    && forall i :: 0 <= i < |before| ==> now[i].name == before[i].name && before[i].columns <= now[i].columns
  }

  lemma ExtendsTrans(a: Schema, b: Schema, c: Schema)
    requires Extends(b, a) && Extends(c, b)
    ensures Extends(c, a)
  {
    var cb := c.tables[|c.tables| - |b.tables|..];
    var ca := c.tables[|c.tables| - |a.tables|..];
    var ba := b.tables[|b.tables| - |a.tables|..];
    forall i | 0 <= i < |a.tables|
      ensures ca[i].name == a.tables[i].name && a.tables[i].columns <= ca[i].columns
    {
      var j := |b.tables| - |a.tables| + i;
      assert ca[i] == cb[j];
      assert ba[i] == b.tables[j];
    }
  }

  /** `add_column` on the registry: nothing is removed or reordered, and "id" stays first. */
  lemma AddColumnGrows(reg: seq<Table>, name: string, column: string, n: int)
    ensures Extends(Schema(AddColumnTo(reg, name, column), n), Schema(reg, n))
    ensures IdFirst(reg) ==> IdFirst(AddColumnTo(reg, name, column))
  {
    AddColumnToAt(reg, name, column);
  }

  /** `find_or_create_table` then "id": a new table is `["id"]` in front, a registered one gets "id" if missing. */
  lemma IdStepGrows(reg: seq<Table>, name: string, n: int)
    requires IdFirst(reg)
    ensures var r := AddColumnTo(FindOrCreate(reg, name), name, "id");
      IdFirst(r) && Extends(Schema(r, n), Schema(reg, n)) && HasTable(r, name)
  {
    if HasTable(reg, name) {
      AddColumnGrows(reg, name, "id", n);
      AddColumnKeepsNames(reg, name, "id");
      var i :| 0 <= i < |reg| && reg[i].name == name;
      assert AddColumnTo(reg, name, "id")[i].name == name;
    } else {
      NewTableId(reg, name, n);
      assert ([Table(name, ["id"])] + reg)[0].name == name;
    }
  }

  /** A column added under a name no table has changes nothing. */
  lemma {:induction false} AddColumnToAbsent(reg: seq<Table>, name: string, column: string)
    requires !HasTable(reg, name)
    ensures AddColumnTo(reg, name, column) == reg
    decreases |reg|
  {
    if |reg| > 0 {
      assert forall i :: 0 <= i < |reg| - 1 ==> reg[1..][i] == reg[i + 1];
      AddColumnToAbsent(reg[1..], name, column);
      assert reg == [reg[0]] + reg[1..];
    }
  }

  lemma NewTableId(reg: seq<Table>, name: string, n: int)
    requires IdFirst(reg) && !HasTable(reg, name)
    ensures AddColumnTo(FindOrCreate(reg, name), name, "id") == [Table(name, ["id"])] + reg
    ensures IdFirst([Table(name, ["id"])] + reg) && Extends(Schema([Table(name, ["id"])] + reg, n), Schema(reg, n))
  {
    var found := [Table(name, [])] + reg;
    var r := [Table(name, ["id"])] + reg;
    assert FindOrCreate(reg, name) == found;
    assert found[0].name == name && found[1..] == reg;
    assert AddUnique([], "id") == ["id"];
    assert AddColumnTo(found, name, "id") == [Table(name, ["id"])] + AddColumnTo(reg, name, "id");
    AddColumnToAbsent(reg, name, "id");
    forall i | 0 <= i < |r|
      ensures |r[i].columns| > 0 && r[i].columns[0] == "id"
    {
      if i > 0 {
        assert r[i] == reg[i - 1];
      }
    }
    assert r[|r| - |reg|..] == reg;
  }

  /** Resolving a table and its key columns: a new table starts with "id", the others keep theirs first. */
  lemma WithKeyColumnsGrows(reg: seq<Table>, name: string, parent: Option<string>, n: int)
    requires IdFirst(reg)
    ensures var r := WithKeyColumns(reg, name, parent);
      IdFirst(r) && Extends(Schema(r, n), Schema(reg, n)) && HasTable(r, name)
  {
    var withId := AddColumnTo(FindOrCreate(reg, name), name, "id");
    IdStepGrows(reg, name, n);
    if parent.Some? {
      var r := AddColumnTo(withId, name, ForeignKey(parent.value));
      AddColumnGrows(withId, name, ForeignKey(parent.value), n);
      ExtendsTrans(Schema(reg, n), Schema(withId, n), Schema(r, n));
      AddColumnKeepsNames(withId, name, ForeignKey(parent.value));
      var i :| 0 <= i < |withId| && withId[i].name == name;
      assert r[i].name == name;
    }
  }

  /** Adding a column keeps every table name where it was. */
  lemma AddColumnKeepsNames(reg: seq<Table>, name: string, column: string)
    ensures forall i :: 0 <= i < |reg| ==> AddColumnTo(reg, name, column)[i].name == reg[i].name
  {
    AddColumnToAt(reg, name, column);
  }

  /** The ids one `analyze_node` call draws: one per object reached, one per object element of an object array. */
  function IdsTaken(node: Json): nat
    decreases node, 1
  {
    match node
    case Object(ps) => 1 + MembersIds(ps, |ps|)
    case Array(es) => if |es| > 0 && es[0].Object? then ElementsIds(es, |es|) else 0
    case _ => 0
  }

  function MembersIds(ps: seq<Pair>, n: nat): nat
    requires n <= |ps|
    decreases ps, n
  {
    if n == 0 then 0 else MembersIds(ps, n - 1) + PairIds(ps[n - 1])
  }

  function PairIds(p: Pair): nat
    decreases p, 2
  {
    IdsTaken(p.value)
  }

  function ElementsIds(es: seq<Json>, n: nat): nat
    requires n <= |es|
    decreases es, n
  {
    if n == 0 then 0 else ElementsIds(es, n - 1) + ElementIds(es[n - 1])
  }

  /** An object element takes its own id, then its members draw theirs; any other element draws none. */
  function ElementIds(e: Json): nat
    decreases e, 2
  {
    if e.Object? then 1 + MembersIds(e.pairs, |e.pairs|) else 0
  }

  /** What every step of the analysis keeps: "id" first everywhere, the earlier registry grown in place, and the ids drawn counted. */
  predicate Grown(r: Schema, s: Schema, ids: nat) {
    IdFirst(r.tables) && Extends(r, s) && r.nextId == s.nextId + ids
  }

  lemma GrownTrans(a: Schema, b: Schema, c: Schema, m: nat, n: nat)
    requires Grown(b, a, m) && Grown(c, b, n)
    ensures Grown(c, a, m + n)
  {
    ExtendsTrans(a, b, c);
  }

  lemma {:induction false} AnalysisGrows(node: Json, parent: Option<string>, key: string, s: Schema)
    requires IdFirst(s.tables)
    ensures Grown(Analysis(node, parent, key, s), s, IdsTaken(node))
    decreases node, 2
  {
    match node
    case Object(ps) =>
      ObjectGrows(ps, parent, key, s);
    case Array(es) =>
      if |es| > 0 && es[0].Object? {
        ObjectArrayGrows(es, parent, key, s);
      } else if |es| > 0 {
        ScalarArrayGrows(parent, key, s);
      }
    case _ =>
  }

  lemma ObjectStartGrows(s: Schema, name: string, parent: Option<string>)
    requires IdFirst(s.tables)
    ensures Grown(ObjectStart(s, name, parent), s, 1)
  {
    var keyed := Schema(WithKeyColumns(s.tables, name, parent), s.nextId);
    WithKeyColumnsGrows(s.tables, name, parent, s.nextId);
    assert Extends(ObjectStart(s, name, parent), keyed);
    ExtendsTrans(s, keyed, ObjectStart(s, name, parent));
  }

  lemma ArrayStartGrows(s: Schema, name: string, parent: Option<string>)
    requires IdFirst(s.tables)
    ensures Grown(ArrayStart(s, name, parent), s, 0)
  {
    var keyed := WithKeyColumns(s.tables, name, parent);
    WithKeyColumnsGrows(s.tables, name, parent, s.nextId);
    AddColumnGrows(keyed, name, "seq", s.nextId);
    ExtendsTrans(s, Schema(keyed, s.nextId), ArrayStart(s, name, parent));
  }

  lemma {:induction false} ObjectGrows(ps: seq<Pair>, parent: Option<string>, key: string, s: Schema)
    requires IdFirst(s.tables)
    ensures Grown(ObjectAnalysis(ps, parent, key, s), s, 1 + MembersIds(ps, |ps|))
    decreases ps, |ps| + 1
  {
    var name := SafeName(key);
    var s1 := ObjectStart(s, name, parent);
    ObjectStartGrows(s, name, parent);
    MembersGrows(ps, |ps|, name, s1);
    GrownTrans(s, s1, MembersAnalysis(ps, |ps|, name, s1), 1, MembersIds(ps, |ps|));
  }

  lemma {:induction false} ObjectArrayGrows(es: seq<Json>, parent: Option<string>, key: string, s: Schema)
    requires IdFirst(s.tables)
    ensures Grown(ObjectArrayAnalysis(es, parent, key, s), s, ElementsIds(es, |es|))
    decreases es, |es| + 1
  {
    var name := SafeName(key);
    var s1 := ArrayStart(s, name, parent);
    ArrayStartGrows(s, name, parent);
    ElementsGrows(es, |es|, name, s1);
    GrownTrans(s, s1, ElementsAnalysis(es, |es|, name, s1), 0, ElementsIds(es, |es|));
  }

  lemma ScalarArrayGrows(parent: Option<string>, key: string, s: Schema)
    requires IdFirst(s.tables)
    ensures Grown(ScalarArrayAnalysis(parent, key, s), s, 0)
  {
    var name := SafeName(key);
    var keyed := WithKeyColumns(s.tables, name, parent);
    var indexed := AddColumnTo(keyed, name, "index");
    WithKeyColumnsGrows(s.tables, name, parent, s.nextId);
    AddColumnGrows(keyed, name, "index", s.nextId);
    AddColumnGrows(indexed, name, "value", s.nextId);
    ExtendsTrans(s, Schema(keyed, s.nextId), Schema(indexed, s.nextId));
    ExtendsTrans(s, Schema(indexed, s.nextId), ScalarArrayAnalysis(parent, key, s));
  }

  lemma {:induction false} MembersGrows(ps: seq<Pair>, n: nat, table: string, s: Schema)
    requires n <= |ps| && IdFirst(s.tables)
    ensures Grown(MembersAnalysis(ps, n, table, s), s, MembersIds(ps, n))
    decreases ps, n
  {
    if n > 0 {
      var mid := MembersAnalysis(ps, n - 1, table, s);
      MembersGrows(ps, n - 1, table, s);
      MemberGrows(ps[n - 1], table, mid);
      GrownTrans(s, mid, MemberAnalysis(ps[n - 1], table, mid), MembersIds(ps, n - 1), PairIds(ps[n - 1]));
    }
  }

  lemma {:induction false} MemberGrows(p: Pair, table: string, s: Schema)
    requires IdFirst(s.tables)
    ensures Grown(MemberAnalysis(p, table, s), s, PairIds(p))
    decreases p, 2
  {
    if IsContainer(p.value) {
      AnalysisGrows(p.value, Some(table), p.key, s);
    } else {
      AddColumnGrows(s.tables, table, p.key, s.nextId);
      assert IdsTaken(p.value) == 0;
    }
  }

  lemma {:induction false} ElementsGrows(es: seq<Json>, n: nat, table: string, s: Schema)
    requires n <= |es| && IdFirst(s.tables)
    ensures Grown(ElementsAnalysis(es, n, table, s), s, ElementsIds(es, n))
    decreases es, n
  {
    if n > 0 {
      var mid := ElementsAnalysis(es, n - 1, table, s);
      ElementsGrows(es, n - 1, table, s);
      ElementGrows(es[n - 1], table, mid);
      GrownTrans(s, mid, ElementAnalysis(es[n - 1], table, mid), ElementsIds(es, n - 1), ElementIds(es[n - 1]));
    }
  }

  lemma {:induction false} ElementGrows(e: Json, table: string, s: Schema)
    requires IdFirst(s.tables)
    ensures Grown(ElementAnalysis(e, table, s), s, ElementIds(e))
    decreases e, 2
  {
    if e.Object? {
      var s1 := Schema(s.tables, s.nextId + 1);
      assert Extends(s1, s);
      MembersGrows(e.pairs, |e.pairs|, table, s1);
      GrownTrans(s, s1, MembersAnalysis(e.pairs, |e.pairs|, table, s1), 1, MembersIds(e.pairs, |e.pairs|));
    }
  }

  /** The key columns of a table: "id", then the parent's key column when there is a parent. */
  function KeyColumns(parent: Option<string>): (cs: seq<string>)
    ensures |cs| > 0 && cs[0] == "id" && NoDuplicates(cs)
  {
    if parent.Some? then ["id", ForeignKey(parent.value)] else ["id"]
  }

  /** The first table a name gets: its key columns, in front of the registry. */
  lemma NewTableKeys(reg: seq<Table>, name: string, parent: Option<string>)
    requires !HasTable(reg, name)
    ensures WithKeyColumns(reg, name, parent) == [Table(name, KeyColumns(parent))] + reg
  {
    var withId := [Table(name, ["id"])] + reg;
    var found := [Table(name, [])] + reg;
    assert found[0].name == name && found[1..] == reg;
    assert AddUnique([], "id") == ["id"];
    AddColumnToAbsent(reg, name, "id");
    assert AddColumnTo(FindOrCreate(reg, name), name, "id") == withId;
    if parent.Some? {
      var fk := ForeignKey(parent.value);
      assert fk != "id" by {
        assert fk[|fk| - 1] == 'd' && |fk| >= 3;
      }
      assert withId[0].name == name && withId[1..] == reg;
      assert AddUnique(["id"], fk) == ["id", fk];
      AddColumnToAbsent(reg, name, fk);
    }
  }

  /** A new object table: its key columns only, and the object takes one id. */
  lemma NewObjectTable(reg: seq<Table>, n: int, name: string, parent: Option<string>)
    requires !HasTable(reg, name)
    ensures ObjectStart(Schema(reg, n), name, parent) == Schema([Table(name, KeyColumns(parent))] + reg, n + 1)
  {
    NewTableKeys(reg, name, parent);
  }

  /** A new object-array table: its key columns, then "seq"; no id is taken. */
  lemma NewObjectArrayTable(reg: seq<Table>, n: int, name: string, parent: Option<string>)
    requires !HasTable(reg, name)
    ensures ArrayStart(Schema(reg, n), name, parent) == Schema([Table(name, KeyColumns(parent) + ["seq"])] + reg, n)
  {
    NewTableKeys(reg, name, parent);
    var keyed := [Table(name, KeyColumns(parent))] + reg;
    assert keyed[0].name == name && keyed[1..] == reg;
    assert "seq" !in KeyColumns(parent) by {
      if parent.Some? {
        var fk := ForeignKey(parent.value);
        assert fk[|fk| - 1] == 'd' && |fk| >= 3;
      }
    }
    AddColumnToAbsent(reg, name, "seq");
  }

  /** A new junction table for an array of scalars: its key columns, "index" and "value"; no id is taken. */
  lemma NewJunctionTable(reg: seq<Table>, n: int, key: string, parent: Option<string>)
    requires !HasTable(reg, SafeName(key))
    ensures ScalarArrayAnalysis(parent, key, Schema(reg, n))
      == Schema([Table(SafeName(key), KeyColumns(parent) + ["index", "value"])] + reg, n)
  {
    var name := SafeName(key);
    NewTableKeys(reg, name, parent);
    var keyed := [Table(name, KeyColumns(parent))] + reg;
    var indexed := [Table(name, KeyColumns(parent) + ["index"])] + reg;
    assert keyed[0].name == name && keyed[1..] == reg;
    assert indexed[0].name == name && indexed[1..] == reg;
    assert "index" !in KeyColumns(parent) && "value" !in KeyColumns(parent) by {
      if parent.Some? {
        var fk := ForeignKey(parent.value);
        assert fk[|fk| - 1] == 'd' && |fk| >= 3;
      }
    }
    AddColumnToAbsent(reg, name, "index");
    AddColumnToAbsent(reg, name, "value");
    assert AddColumnTo(keyed, name, "index") == indexed;
    assert KeyColumns(parent) + ["index"] + ["value"] == KeyColumns(parent) + ["index", "value"];
  }

  /**
   * Scalar members only add columns: the table `table` ends up with its old
   * columns first and, besides them, exactly the members' keys, each once;
   * every other table, every name and the counter are left alone.
   */
  lemma {:induction false} ScalarMembersColumns(ps: seq<Pair>, n: nat, table: string, s: Schema)
    requires n <= |ps| && WellFormed(s.tables)
    requires forall k :: 0 <= k < n ==> !IsContainer(ps[k].value)
    ensures var r := MembersAnalysis(ps, n, table, s);
      && r.nextId == s.nextId && WellFormed(r.tables) && Names(r.tables) == Names(s.tables)
      && (forall i :: 0 <= i < |s.tables| && s.tables[i].name != table ==> r.tables[i] == s.tables[i])
      && (forall i :: 0 <= i < |s.tables| && s.tables[i].name == table ==>
            && s.tables[i].columns <= r.tables[i].columns
            && forall c :: c in r.tables[i].columns <==> c in s.tables[i].columns || exists k :: 0 <= k < n && ps[k].key == c)
    decreases n
  {
    if n > 0 {
      var mid := MembersAnalysis(ps, n - 1, table, s);
      ScalarMembersColumns(ps, n - 1, table, s);
      var key := ps[n - 1].key;
      var r := MembersAnalysis(ps, n, table, s);
      assert !IsContainer(ps[n - 1].value);
      assert r == MemberAnalysis(ps[n - 1], table, mid);
      assert r == mid.(tables := AddColumnTo(mid.tables, table, key));
      AddColumnToSpec(mid.tables, table, key);
      assert |mid.tables| == |Names(mid.tables)| == |s.tables|;
      forall i | 0 <= i < |s.tables| && s.tables[i].name == table
        ensures s.tables[i].columns <= r.tables[i].columns
        ensures forall c :: c in r.tables[i].columns <==> c in s.tables[i].columns || exists k :: 0 <= k < n && ps[k].key == c
      {
        assert mid.tables[i].name == Names(mid.tables)[i] == table;
        AddUniqueKeepsOrder(mid.tables[i].columns, key);
      }
      forall i | 0 <= i < |s.tables| && s.tables[i].name != table
        ensures r.tables[i] == s.tables[i]
      {
        assert mid.tables[i].name == Names(mid.tables)[i] != table;
      }
    }
  }

  /** A scalar, null or empty array registers nothing and takes no id. */
  lemma NothingToAnalyze(node: Json, parent: Option<string>, key: string, s: Schema)
    requires !node.Object? && !(node.Array? && |node.elements| > 0)
    ensures Analysis(node, parent, key, s) == s
  {
  }

  /** The kind of an array is decided by its first element alone, and a scalar array's elements are never visited. */
  lemma ScalarArrayElementsIgnored(es: seq<Json>, others: seq<Json>, parent: Option<string>, key: string, s: Schema)
    requires |es| > 0 && |others| > 0 && !es[0].Object? && !others[0].Object?
    ensures Analysis(Array(es), parent, key, s) == Analysis(Array(others), parent, key, s)
    ensures Analysis(Array(es), parent, key, s).nextId == s.nextId
  {
  }
}
