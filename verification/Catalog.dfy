/**
 The part of a PostgreSQL database that the schema-unification migration sees: tables of
 rows keyed by primary key, and the foreign keys each table carries. `Connection` is the
 object the migration works through; its methods are the single statements the migration
 sends, each stating the whole new state.
 */
module Catalog {

  datatype Option<+T> = None | Some(value: T)

  /** Why a migration step raised. Every raise undoes the whole migration, because
      PostgreSQL runs DDL inside the transaction. */
  datatype Failure =
    | NoParentTable
    | BothParentTables
    | MappingTargetMissing
    | MappedValuesConflict
    | UnknownColumnHoldsData
    | IdColumnMissing
    | DifferentPrimaryKeys
    | DivergentRows
    | SeveralFirstScenarios
    | NoFirstScenario
    | ParentColumnsConflict
    | DanglingReference
    | StillReferenced
    | ColumnMissing
    | DuplicateKey

  datatype Outcome<+T> = Done(value: T) | Raised(failure: Failure) {
    predicate IsFailure() {
      Raised?
    }

    function PropagateFailure<U>(): Outcome<U>
      requires Raised?
    {
      Raised(failure)
    }

    function Extract(): T
      requires Done?
    {
      value
    }
  }

  datatype Cell = Null | Num(n: int) | Text(s: string) | Time(at: int) | JsonText(json: string)

  type Row = map<string, Cell>

  datatype Table = Table(columns: set<string>, rows: map<int, Row>)

  type Tables = map<string, Table>

  /** Every row has a cell for exactly the table's columns, and `id` is the primary key. */
  predicate TableOk(t: Table) {
    forall id | id in t.rows ::
      t.rows[id].Keys == t.columns && ("id" in t.columns ==> t.rows[id]["id"] == Num(id))
  }

  predicate TablesOk(tables: Tables) {
    forall name | name in tables :: TableOk(tables[name])
  }

  function CellAt(row: Row, column: string): Cell {
    if column in row then row[column] else Null
  }

  function Coalesce(first: Cell, second: Cell): Cell {
    if first == Null then second else first
  }

  function RowIds(tables: Tables, name: string): set<int> {
    if name in tables then tables[name].rows.Keys else {}
  }

  function Columns(tables: Tables, name: string): set<string> {
    if name in tables then tables[name].columns else {}
  }

  /** The columns a key constrains, and where it points. */
  datatype Shape = Shape(local: seq<string>, table: string, remote: seq<string>)

  datatype ForeignKey = ForeignKey(name: Option<string>, shape: Shape)

  /** PostgreSQL keeps constraint names unique per table. */
  predicate NamesUnique(keys: seq<ForeignKey>) {
    forall i, j | 0 <= i < j < |keys| :: keys[i].name == None || keys[i].name != keys[j].name
  }

  /** A row satisfies a key when one of its local cells is null or some row of the other
      table carries the same cells. */
  predicate RowSatisfies(row: Row, shape: Shape, target: Table) {
    || (exists i | 0 <= i < |shape.local| :: CellAt(row, shape.local[i]) == Null)
    || (exists id | id in target.rows ::
          |shape.remote| == |shape.local| &&
          forall i | 0 <= i < |shape.local| ::
            CellAt(target.rows[id], shape.remote[i]) == CellAt(row, shape.local[i]))
  }

  /** The check PostgreSQL makes when a foreign key is created. */
  predicate Satisfied(tables: Tables, table: string, shape: Shape) {
    table in tables && shape.table in tables ==>
      forall id | id in tables[table].rows ::
        RowSatisfies(tables[table].rows[id], shape, tables[shape.table])
  }

  /** The keys a filter keeps, in order. */
  function Keep(keys: seq<ForeignKey>, wanted: ForeignKey -> bool): (r: seq<ForeignKey>)
    ensures forall key :: key in r <==> key in keys && wanted(key)
    ensures NamesUnique(keys) ==> NamesUnique(r)
    ensures (forall key | key in keys :: wanted(key)) ==> r == keys
  {
    if keys == [] then []
    else
      var rest := Keep(keys[1..], wanted);
      if wanted(keys[0]) then
        assert forall j | 0 <= j < |rest| :: rest[j] in keys[1..];
        [keys[0]] + rest
      else rest
  }

  /** The columns of a key after a column of its own table is renamed. */
  function RenamedIn(columns: seq<string>, before: string, after: string): seq<string> {
    seq(|columns|, i requires 0 <= i < |columns| => if columns[i] == before then after else columns[i])
  }

  /** Apply a change to each key, in place. */
  function Each(keys: seq<ForeignKey>, change: ForeignKey -> ForeignKey): (r: seq<ForeignKey>)
    ensures |r| == |keys|
    ensures forall i | 0 <= i < |keys| :: r[i] == change(keys[i])
  {
    seq(|keys|, i requires 0 <= i < |keys| => change(keys[i]))
  }

  function RenameKey(key: ForeignKey, before: string, after: string): ForeignKey {
    if key.name == Some(before) then key.(name := Some(after)) else key
  }

  type Keys = map<string, seq<ForeignKey>>

  function KeysIn(keys: Keys, table: string): seq<ForeignKey> {
    if table in keys then keys[table] else []
  }

  predicate KeysOk(keys: Keys) {
    forall table | table in keys :: NamesUnique(keys[table])
  }

  /** Some key of some table points at the table. */
  predicate RefersTo(keys: Keys, table: string) {
    exists owner, key | owner in keys && key in keys[owner] :: key.shape.table == table
  }

  /** No key of the table has the name. */
  predicate Free(keys: seq<ForeignKey>, name: string) {
    forall key | key in keys :: key.name != Some(name)
  }

  // What single DDL statements do to tables and keys.

  function WithoutColumn(t: Table, column: string): Table {
    Table(t.columns - {column}, map id | id in t.rows :: t.rows[id] - {column})
  }

  function RowRenamed(row: Row, before: string, after: string): Row {
    (row - {before})[after := CellAt(row, before)]
  }

  function WithColumnRenamed(t: Table, before: string, after: string): Table {
    Table(t.columns - {before} + {after}, map id | id in t.rows :: RowRenamed(t.rows[id], before, after))
  }

  function WithColumn(t: Table, column: string): Table {
    if column in t.columns then t
    else Table(t.columns + {column}, map id | id in t.rows :: t.rows[id][column := Null])
  }

  /** Dropping a column drops the keys of its own table that constrain it. */
  function KeysWithoutColumn(keys: Keys, table: string, column: string): Keys {
    keys[table := Keep(KeysIn(keys, table), (key: ForeignKey) => column !in key.shape.local)]
  }

  function KeyColumnRenamed(key: ForeignKey, owner: string, table: string, before: string, after: string): ForeignKey {
    var local := if owner == table then RenamedIn(key.shape.local, before, after) else key.shape.local;
    var remote := if key.shape.table == table then RenamedIn(key.shape.remote, before, after) else key.shape.remote;
    key.(shape := Shape(local, key.shape.table, remote))
  }

  function KeysColumnRenamed(keys: Keys, table: string, before: string, after: string): Keys {
    map owner | owner in keys ::
      Each(keys[owner], (key: ForeignKey) => KeyColumnRenamed(key, owner, table, before, after))
  }

  function KeyTableRenamed(key: ForeignKey, before: string, after: string): ForeignKey {
    if key.shape.table == before then key.(shape := key.shape.(table := after)) else key
  }

  function KeysTableRenamed(keys: Keys, before: string, after: string): Keys {
    var renamed := map owner | owner in keys ::
      Each(keys[owner], (key: ForeignKey) => KeyTableRenamed(key, before, after));
    (renamed - {before})[after := KeysIn(renamed, before)]
  }

  /** The connection a migration works through. */
  class Connection {
    var tables: Tables
    var keys: Keys

    constructor (tables: Tables, keys: Keys)
      ensures this.tables == tables && this.keys == keys
    {
      this.tables, this.keys := tables, keys;
    }

    /** `_foreign_keys`: the keys of one table, in catalogue order. */
    function KeysOf(table: string): seq<ForeignKey>
      reads this
    {
      KeysIn(keys, table)
    }

    ghost predicate Valid()
      reads this
    {
      TablesOk(tables) && KeysOk(keys)
    }

    method DropConstraint(table: string, name: string)
      modifies this`keys
      ensures keys == old(keys)[table := Keep(old(KeysOf(table)), (key: ForeignKey) => key.name != Some(name))]
    {
      keys := keys[table := Keep(KeysOf(table), (key: ForeignKey) => key.name != Some(name))];
    }

    method RenameConstraint(table: string, before: string, after: string)
      modifies this`keys
      ensures keys == old(keys)[table := Each(old(KeysOf(table)), key => RenameKey(key, before, after))]
    {
      keys := keys[table := Each(KeysOf(table), key => RenameKey(key, before, after))];
    }

    /** PostgreSQL checks the existing rows before it accepts the new key. */
    method CreateForeignKey(table: string, name: string, shape: Shape) returns (r: Outcome<()>)
      modifies this`keys
      ensures r == if Satisfied(tables, table, shape) then Done(()) else Raised(DanglingReference)
      ensures keys ==
              if r.Done? then old(keys)[table := old(KeysOf(table)) + [ForeignKey(Some(name), shape)]]
              else old(keys)
    {
      if !Satisfied(tables, table, shape) {
        return Raised(DanglingReference);
      }
      keys := keys[table := KeysOf(table) + [ForeignKey(Some(name), shape)]];
      return Done(());
    }

    method DropColumn(table: string, column: string)
      requires Valid() && table in tables && column != "id"
      modifies this
      ensures Valid()
      ensures tables == old(tables)[table := WithoutColumn(old(tables)[table], column)]
      ensures keys == KeysWithoutColumn(old(keys), table, column)
    {
      tables := tables[table := WithoutColumn(tables[table], column)];
      keys := KeysWithoutColumn(keys, table, column);
    }

    method RenameColumn(table: string, before: string, after: string)
      requires Valid() && table in tables
      requires before in tables[table].columns && after !in tables[table].columns && before != "id" && after != "id"
      modifies this
      ensures Valid()
      ensures tables == old(tables)[table := WithColumnRenamed(old(tables)[table], before, after)]
      ensures keys == KeysColumnRenamed(old(keys), table, before, after)
    {
      tables := tables[table := WithColumnRenamed(tables[table], before, after)];
      keys := KeysColumnRenamed(keys, table, before, after);
    }

    method AddColumn(table: string, column: string)
      requires Valid() && table in tables && column != "id" && column !in tables[table].columns
      modifies this`tables
      ensures Valid()
      ensures tables == old(tables)[table := WithColumn(old(tables)[table], column)]
    {
      tables := tables[table := WithColumn(tables[table], column)];
    }

    method RenameTable(before: string, after: string)
      requires Valid() && before in tables && after !in tables
      modifies this
      ensures Valid()
      ensures tables == (old(tables) - {before})[after := old(tables)[before]]
      ensures keys == KeysTableRenamed(old(keys), before, after)
    {
      tables := (tables - {before})[after := tables[before]];
      keys := KeysTableRenamed(keys, before, after);
    }

    method DropTable(table: string)
      requires Valid()
      modifies this
      ensures Valid()
      ensures tables == old(tables) - {table} && keys == old(keys) - {table}
    {
      tables, keys := tables - {table}, keys - {table};
    }
  }
}
