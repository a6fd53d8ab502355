/**
 Folding one column into another: the mapped parent column, and the child tables' two names
 for their parent. The same three statements (conflict check, COALESCE update, column drop,
 or a plain rename when only the old column exists) appear three times in the migration.
 */
module Folding {
  import opened Catalog

  predicate Conflicting(row: Row, from: string, into: string) {
    CellAt(row, from) != Null && CellAt(row, into) != Null && CellAt(row, from) != CellAt(row, into)
  }

  predicate HasConflict(t: Table, from: string, into: string) {
    from in t.columns && into in t.columns && exists id | id in t.rows :: Conflicting(t.rows[id], from, into)
  }

  /** The cell a row means, whichever of the two columns holds it. */
  function Either(row: Row, first: string, second: string): Cell {
    Coalesce(CellAt(row, first), CellAt(row, second))
  }

  /** The declared effect: `from` is gone and `into` holds whichever cell was not null. */
  function Folded(t: Table, from: string, into: string): Table {
    if from !in t.columns then t
    else Table(t.columns - {from} + {into},
               map id | id in t.rows :: (t.rows[id] - {from})[into := Either(t.rows[id], into, from)])
  }

  function Coalesced(t: Table, from: string, into: string): Table {
    Table(t.columns, map id | id in t.rows :: t.rows[id][into := Either(t.rows[id], into, from)])
  }

  lemma FoldedAsStatements(t: Table, from: string, into: string)
    requires TableOk(t) && from in t.columns && from != into
    ensures into in t.columns ==> WithoutColumn(Coalesced(t, from, into), from) == Folded(t, from, into)
    ensures into !in t.columns ==> WithColumnRenamed(t, from, into) == Folded(t, from, into)
  {
    forall id | id in t.rows
      ensures t.rows[id][into := Either(t.rows[id], into, from)] - {from} == Folded(t, from, into).rows[id]
      ensures into !in t.columns ==> RowRenamed(t.rows[id], from, into) == Folded(t, from, into).rows[id]
    {
    }
  }

  function FoldedIn(tables: Tables, name: string, from: string, into: string): Tables {
    if name in tables then tables[name := Folded(tables[name], from, into)] else tables
  }

  function FoldedKeys(tables: Tables, keys: Keys, name: string, from: string, into: string): Keys {
    if from !in Columns(tables, name) then keys
    else if into in Columns(tables, name) then KeysWithoutColumn(keys, name, from)
    else KeysColumnRenamed(keys, name, from, into)
  }

  /** UPDATE name SET into = COALESCE(into, from) WHERE from IS NOT NULL */
  method UpdateCoalesce(bind: Connection, name: string, from: string, into: string)
    requires bind.Valid() && name in bind.tables && from in bind.tables[name].columns
               && into in bind.tables[name].columns
    requires into != "id"
    modifies bind`tables
    ensures bind.Valid()
    ensures bind.tables == old(bind.tables)[name := Coalesced(old(bind.tables)[name], from, into)]
  {
    var t := bind.tables[name];
    var rows := map id | id in t.rows ::
      if CellAt(t.rows[id], from) != Null
      then t.rows[id][into := Coalesce(CellAt(t.rows[id], into), CellAt(t.rows[id], from))]
      else t.rows[id];
    forall id | id in t.rows ensures rows[id] == t.rows[id][into := Either(t.rows[id], into, from)] {
      assert t.rows[id][into := t.rows[id][into]] == t.rows[id];
    }
    assert rows == Coalesced(t, from, into).rows;
    bind.tables := bind.tables[name := Table(t.columns, rows)];
  }

  /** `_canonicalize_parent_legacy_mapped_columns`, `_canonicalize_child_trial_fk_column` and
      `_canonicalize_child_legacy_fk_column`: one body, three pairs of columns. */
  method FoldColumn(bind: Connection, name: string, from: string, into: string, failure: Failure)
    returns (r: Outcome<()>)
    requires bind.Valid() && from != "id" && into != "id" && from != into
    modifies bind
    ensures bind.Valid()
    ensures r == if name in old(bind.tables) && HasConflict(old(bind.tables)[name], from, into) then Raised(failure)
              else Done(())
    ensures bind.tables == if r.Done? then FoldedIn(old(bind.tables), name, from, into) else old(bind.tables)
    ensures bind.keys == if r.Done? then FoldedKeys(old(bind.tables), old(bind.keys), name, from, into)
              else old(bind.keys)
  {
    if name !in bind.tables || from !in bind.tables[name].columns {
      return Done(());
    }
    FoldedAsStatements(bind.tables[name], from, into);
    if into in bind.tables[name].columns {
      if HasConflict(bind.tables[name], from, into) {
        return Raised(failure);
      }
      UpdateCoalesce(bind, name, from, into);
      bind.DropColumn(name, from);
    } else {
      bind.RenameColumn(name, from, into);
    }
    r := Done(());
  }
}
