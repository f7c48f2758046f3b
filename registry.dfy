/**
 * The table registry (src/csv_gen.c, `TableSchema`, `SchemaContext`,
 * `find_or_create_table`, `add_column`).
 *
 * The registry is a list of table schemas, each a name and a growing list
 * of distinct column names, plus the id counter the analyzer draws from.
 * `find_or_create_table` puts a new table at the HEAD of the list, so the
 * list is in reverse order of discovery; `add_column` appends a column
 * unless it is already there.
 *
 * `Table` and `seq<Table>` are the value view of the registry; the
 * classes below are what the analyzer updates in place.
 */
module Registry {
  import opened Wrappers

  /** A table schema as a value: its name and its columns in order. */
  datatype Table = Table(name: string, columns: seq<string>)

  predicate NoDuplicates(s: seq<string>) {
    forall i, j :: 0 <= i < j < |s| ==> s[i] != s[j]
  }

  /** The columns after `add_column`: unchanged if present, otherwise the new one last. */
  function AddUnique(columns: seq<string>, column: string): seq<string> {
    if column in columns then columns else columns + [column]
  }

  /**
   * Adding a column keeps the earlier columns where they were, never
   * duplicates a column, and leaves the column present.
   */
  lemma AddUniqueKeepsOrder(columns: seq<string>, column: string)
    requires NoDuplicates(columns)
    ensures var r := AddUnique(columns, column);
      && NoDuplicates(r)
      && column in r
      && |columns| <= |r| <= |columns| + 1
      && r[..|columns|] == columns
      && (forall c :: c in r <==> c in columns || c == column)
  {
  }

  /** The table names, in registry order. */
  function Names(reg: seq<Table>): (names: seq<string>)
    ensures |names| == |reg|
    ensures forall i :: 0 <= i < |reg| ==> names[i] == reg[i].name
  {
    if |reg| == 0 then [] else [reg[0].name] + Names(reg[1..])
  }

  /** Names are unique and no table lists a column twice. */
  predicate WellFormed(reg: seq<Table>) {
    && NoDuplicates(Names(reg))
    && (forall i :: 0 <= i < |reg| ==> NoDuplicates(reg[i].columns))
  }

  predicate HasTable(reg: seq<Table>, name: string) {
    exists i :: 0 <= i < |reg| && reg[i].name == name
  }

  /** `find_or_create_table` on the value view: the registry itself, or a column-less table in front. */
  function FindOrCreate(reg: seq<Table>, name: string): seq<Table> {
    if HasTable(reg, name) then reg else [Table(name, [])] + reg
  }

  /** `add_column` on the table called `name`. */
  function AddColumnTo(reg: seq<Table>, name: string, column: string): (r: seq<Table>)
    ensures |r| == |reg|
  {
    if |reg| == 0 then []
    else
      var head := if reg[0].name == name then Table(name, AddUnique(reg[0].columns, column)) else reg[0];
      [head] + AddColumnTo(reg[1..], name, column)
  }

  /** Entry by entry: the table called `name` gets the column, every other table is left alone. */
  lemma {:induction false} AddColumnToAt(reg: seq<Table>, name: string, column: string)
    ensures forall i :: 0 <= i < |reg| ==>
      AddColumnTo(reg, name, column)[i]
      == if reg[i].name == name then Table(name, AddUnique(reg[i].columns, column)) else reg[i]
    decreases |reg|
  {
    if |reg| > 0 {
      AddColumnToAt(reg[1..], name, column);
    }
  }

  /** A registered name is returned as it is; a new one goes in front, so names stay unique. */
  lemma FindOrCreateSpec(reg: seq<Table>, name: string)
    requires WellFormed(reg)
    ensures var r := FindOrCreate(reg, name);
      && WellFormed(r)
      && HasTable(r, name)
      && (HasTable(reg, name) ==> r == reg)
      && (!HasTable(reg, name) ==> r == [Table(name, [])] + reg)
  {
    var r := FindOrCreate(reg, name);
    if !HasTable(reg, name) {
      assert r[0].name == name;
      forall i, j | 0 <= i < j < |r| ensures Names(r)[i] != Names(r)[j] {
        if i == 0 {
          assert r[j] == reg[j - 1];
        } else {
          assert r[i] == reg[i - 1] && r[j] == reg[j - 1];
          assert Names(reg)[i - 1] != Names(reg)[j - 1];
        }
      }
    }
  }

  /** Adding a column changes only the named table, keeps every name, and keeps the registry well formed. */
  lemma AddColumnToSpec(reg: seq<Table>, name: string, column: string)
    requires WellFormed(reg)
    ensures var r := AddColumnTo(reg, name, column);
      && WellFormed(r)
      && Names(r) == Names(reg)
      && (forall i :: 0 <= i < |reg| && reg[i].name != name ==> r[i] == reg[i])
      && (forall i :: 0 <= i < |reg| && reg[i].name == name ==> r[i].columns == AddUnique(reg[i].columns, column))
  {
    var r := AddColumnTo(reg, name, column);
    AddColumnToAt(reg, name, column);
    forall i | 0 <= i < |reg|
      ensures NoDuplicates(r[i].columns)
    {
      if reg[i].name == name {
        AddUniqueKeepsOrder(reg[i].columns, column);
      }
    }
    assert Names(r) == Names(reg);
  }

  /**
   * With unique names, adding a column to the table at `j` replaces that
   * one entry, keeps the registry well formed, and no other entry shares
   * its name.
   */
  lemma AddColumnToUpdate(reg: seq<Table>, j: int, column: string)
    requires WellFormed(reg) && 0 <= j < |reg|
    ensures var r := reg[j := Table(reg[j].name, AddUnique(reg[j].columns, column))];
      && r == AddColumnTo(reg, reg[j].name, column)
      && WellFormed(r)
    ensures forall i :: 0 <= i < |reg| && i != j ==> reg[i].name != reg[j].name
  {
    AddColumnToAt(reg, reg[j].name, column);
    AddColumnToSpec(reg, reg[j].name, column);
    forall i | 0 <= i < |reg| && i != j
      ensures reg[i].name != reg[j].name
    {
      assert Names(reg)[i] != Names(reg)[j];
    }
  }

  /** The value view of the analyzer's whole state. */
  datatype Schema = Schema(tables: seq<Table>, nextId: int)

  class TableSchema {
    const name: string
    var columns: seq<string>

    /** A fresh, column-less schema. */
    constructor (name: string)
      ensures this.name == name && columns == []
    {
      this.name := name;
      columns := [];
    }

    /** `add_column`: scan for the column; append it only if the scan finds nothing. */
    method AddColumn(column: string)
      modifies this
      ensures columns == AddUnique(old(columns), column)
    {
      for i := 0 to |columns|
        invariant forall k :: 0 <= k < i ==> columns[k] != column
      {
        if columns[i] == column {
          return;
        }
      }
      columns := columns + [column];
    }
  }

  class SchemaContext {
    /** Head first: the most recently discovered table comes first. */
    var tables: seq<TableSchema>
    var nextId: int
    /** The table objects on the list, as a set: what the analyzer may update. */
    ghost var Repr: set<TableSchema>
    /** The value view of `tables`, entry by entry. */
    ghost var model: seq<Table>

    /** `SchemaContext context = {NULL, 1}`: no tables, ids start at 1. */
    constructor ()
      ensures Valid() && tables == [] && nextId == 1 && Repr == {} && model == []
    {
      tables := [];
      nextId := 1;
      Repr := {};
      model := [];
    }

    /**
     * `model` mirrors the table objects one by one, `Repr` holds exactly
     * those objects, and the registry is well formed: no two tables share
     * a name and no table lists a column twice.
     */
    ghost predicate Valid()
      reads this`tables, this`model, this`Repr, Repr`columns
    {
      && |model| == |tables|
      && (forall i :: 0 <= i < |tables| ==> tables[i] in Repr && model[i] == Table(tables[i].name, tables[i].columns))
      && (forall t {:trigger t in tables} :: t in Repr ==> t in tables)
      && WellFormed(model)
    }

    /** `find_or_create_table`: the linear search, then a prepended fresh table if nothing matched. */
    method FindOrCreateTable(name: string) returns (table: TableSchema)
      requires Valid()
      modifies this
      ensures Valid()
      ensures model == FindOrCreate(old(model), name) && nextId == old(nextId)
      ensures table.name == name && table in Repr
      ensures Repr == old(Repr) || (fresh(table) && Repr == old(Repr) + {table})
    {
      for i := 0 to |tables|
        invariant forall k :: 0 <= k < i ==> tables[k].name != name
      {
        if tables[i].name == name {
          assert model[i].name == name;
          return tables[i];
        }
      }
      FindOrCreateSpec(model, name);
      table := new TableSchema(name);
      tables := [table] + tables;
      model := [Table(name, [])] + model;
      Repr := Repr + {table};
    }

    /**
     * `add_column` called on a registered table, with its effect on the
     * registry as a whole: only that table's entry changes.
     */
    method AddColumn(table: TableSchema, column: string)
      requires Valid() && table in Repr
      modifies this`model, table
      ensures Valid()
      ensures model == AddColumnTo(old(model), table.name, column)
      ensures tables == old(tables) && nextId == old(nextId) && Repr == old(Repr)
    {
      assert table in tables;
      ghost var j :| 0 <= j < |tables| && tables[j] == table;
      AddColumnToUpdate(model, j, column);
      table.AddColumn(column);
      model := model[j := Table(table.name, table.columns)];
      assert WellFormed(model);
      assert forall i :: 0 <= i < |tables| ==> tables[i] in Repr;
      forall i | 0 <= i < |tables|
        ensures model[i] == Table(tables[i].name, tables[i].columns)
      {
        if i != j {
          assert old(model)[i].name != old(model)[j].name;
          assert tables[i] != table;
        }
      }
    }
  }
}
