/**
 The way back: a downgrade after an upgrade succeeds, PostgreSQL accepts every foreign key it asks
 for, and every child row is returned to the parent it had.
 */
module DowngradeLaws {
  import opened Catalog
  import opened Folding
  import opened ForeignKeys
  import opened Parents
  import opened ParentUnification
  import opened SchemaUnification
  import opened UpgradeLaws
  import opened ReferenceLaws
  import opened ParentGuards

  /** The tables a downgrade leaves of upgraded ones. */
  lemma DowngradedTables(after: Tables)
    requires TablesOk(after) && ShapeSettled(after)
    ensures DowngradeOutcome(after).Done?
    ensures var back := DowngradeOutcome(after).value;
            && TablesOk(back) && back.Keys == after.Keys - {TRIALS} + {SIMULATIONS}
            && back[SIMULATIONS] == after[TRIALS]
            && forall name | name in CHILDREN && name in after ::
                back[name] == Folded(after[name], "trial_id", "simulation_id")
  {
    NamesDiffer();
    var renamed := ParentRenamedBack(after);
    forall child | child in CHILDREN ensures "simulation_id" !in Columns(renamed, child) {
      assert "simulation_id" !in Columns(after, child);
      assert child != TRIALS && child != SIMULATIONS;
    }
    NoLegacyColumnNoConflict(renamed, CHILDREN);
    forall name | name in CHILDREN && name in after ensures TableOk(Folded(after[name], "trial_id", "simulation_id")) {
      FoldedOk(after[name], "trial_id", "simulation_id");
    }
  }

  /** The keys the downgrade asks for: the pending scenario of a simulation, and the parents. */
  predicate LegacyKey(table: string, shape: Shape) {
    || (table == SIMULATIONS && shape == Shape([PENDING], SCENARIOS, ["id"]))
    || (table in CHILDREN && shape == Shape(["simulation_id"], SIMULATIONS, ["id"]))
  }

  lemma LegacyRequiredKinds(req: Requirement)
    requires req in LEGACY_REQUIRED
    ensures LegacyKey(req.table, req.shape)
  {
    NamesDiffer();
  }

  lemma PendingAccepted(after: Tables, back: Tables)
    requires TablesOk(after) && ShapeSettled(after) && Sound(after) && DowngradeOutcome(after) == Done(back)
    requires SCENARIOS in back
    ensures Satisfied(back, SIMULATIONS, Shape([PENDING], SCENARIOS, ["id"]))
  {
    NamesDiffer();
    DowngradedTables(after);
    assert SCENARIOS in after && back[SCENARIOS].rows.Keys == after[SCENARIOS].rows.Keys;
    assert "id" in back[SCENARIOS].columns;
    PointerSatisfies(back, SIMULATIONS, PENDING, SCENARIOS);
  }

  lemma LegacyParentAccepted(after: Tables, back: Tables, name: string)
    requires TablesOk(after) && ShapeSettled(after) && Sound(after) && DowngradeOutcome(after) == Done(back)
    requires name in CHILDREN && name in back
    ensures Satisfied(back, name, Shape(["simulation_id"], SIMULATIONS, ["id"]))
  {
    NamesDiffer();
    DowngradedTables(after);
    assert ParentsRefer(after, name, RowIds(after, TRIALS) + RowIds(after, SIMULATIONS));
    forall id | id in back[name].rows
      ensures Refers(CellAt(back[name].rows[id], "simulation_id"), RowIds(back, SIMULATIONS))
    {
      DowngradeSettled(after, name, id);
    }
    PointerSatisfies(back, name, "simulation_id", SIMULATIONS);
  }

  /** PostgreSQL accepts every key the downgrade asks for. */
  lemma DowngradeIsAccepted(after: Tables)
    requires TablesOk(after) && ShapeSettled(after) && Sound(after)
    ensures DowngradeOutcome(after).Done? && !Refused(DowngradeOutcome(after).value, LEGACY_REQUIRED)
  {
    DowngradedTables(after);
    var back := DowngradeOutcome(after).value;
    forall req | req in LEGACY_REQUIRED && Applicable(back, req) ensures Satisfied(back, req.table, req.shape) {
      LegacyRequiredKinds(req);
      if req.table == SIMULATIONS {
        NamesDiffer();
        PendingAccepted(after, back);
      } else {
        LegacyParentAccepted(after, back, req.table);
      }
    }
  }

  /** The child row has the parent it had, under the legacy column alone. */
  predicate Returned(tables: Tables, back: Tables, name: string, id: int)
    requires id in RowIds(tables, name)
  {
    && id in RowIds(back, name) && "trial_id" !in back[name].columns
    && CellAt(back[name].rows[id], "simulation_id") == LogicalParent(tables[name].rows[id])
  }

  /** The procedures one after the other, from a referentially sound database: once the upgrade got
      through, so does the downgrade, every original child row is back with its parent, and the
      legacy keys are in place. */
  method UpgradeThenDowngrade(bind: Connection, order: seq<int>, nextId: int, now: int)
    returns (up: Outcome<()>, down: Outcome<()>)
    requires bind.Valid() && IsTrialOrder(bind.tables, order) && Sound(bind.tables)
    modifies bind
    ensures bind.Valid()
    ensures up.Done? ==> down.Done?
    ensures up.Done? ==>
              && TRIALS !in bind.tables
              && RowIds(bind.tables, SIMULATIONS) == RowIds(old(bind.tables), TRIALS) + RowIds(old(bind.tables),
                  SIMULATIONS)
              && (forall name, id | name in CHILDREN && id in RowIds(old(bind.tables), name) ::
                    Returned(old(bind.tables), bind.tables, name, id))
              && (forall req | req in LEGACY_REQUIRED && Applicable(bind.tables, req) :: SettledIn(bind.keys, req))
  {
    ghost var before := bind.tables;
    up := RunUpgrade(bind, order, nextId, now);
    if up.Raised? {
      return up, up;
    }
    ghost var after := bind.tables;
    UpgradeUnitesParents(before, order, nextId, now, after);
    UpgradeKeepsReferences(before, order, nextId, now, after);
    DowngradeIsAccepted(after);
    DowngradedTables(after);
    down := RunDowngrade(bind);
    forall name, id | name in CHILDREN && id in RowIds(before, name) ensures Returned(before, bind.tables, name, id) {
      DowngradeAfterUpgrade(before, order, nextId, now, after, name, id);
    }
  }

  // From any starting shape.

  predicate SomeChildNamesTwo(tables: Tables) {
    exists name, id | name in ["scenario_versions", "candidate_sessions", "tasks"] && id in RowIds(tables, name) ::
      NamesTwoParents(tables[name].rows[id])
  }

  lemma ChildConflictMeans(tables: Tables)
    requires TablesOk(tables)
    ensures ChildConflict(tables, CHILDREN) <==> SomeChildNamesTwo(tables)
  {
    if ChildConflict(tables, CHILDREN) {
      var name :| name in CHILDREN && name in tables && HasConflict(tables[name], "simulation_id", "trial_id");
      var id :| id in tables[name].rows && Conflicting(tables[name].rows[id], "simulation_id", "trial_id");
      assert NamesTwoParents(tables[name].rows[id]);
    }
    if SomeChildNamesTwo(tables) {
      var name, id :| name in CHILDREN && id in RowIds(tables, name) && NamesTwoParents(tables[name].rows[id]);
      assert Conflicting(tables[name].rows[id], "simulation_id", "trial_id");
      assert tables[name].rows[id].Keys == tables[name].columns;
    }
  }

  /** A downgrade is refused when both parent tables are there, or neither, or a child row names two
      parents. With `simulations` alone it goes on. */
  lemma DowngradeBlockedWhen(tables: Tables)
    requires TablesOk(tables)
    ensures DowngradeOutcome(tables).Raised? <==>
              || ("trials" in tables && "simulations" in tables)
              || ("trials" !in tables && "simulations" !in tables)
              || SomeChildNamesTwo(tables)
  {
    NamesDiffer();
    ChildConflictMeans(tables);
    ChildConflictMeans(ParentRenamedBack(tables));
    ChildrenDistinct();
  }

  /** The parent a row names under either column. */
  function NamedParent(row: Row): Cell {
    if CellAt(row, "simulation_id") != Null then CellAt(row, "simulation_id") else CellAt(row, "trial_id")
  }

  /** What a downgrade leaves, whichever parent table it found: its rows under the legacy name, and every
      child row with its parent under the legacy column and its other cells as they were. */
  lemma DowngradeKeeps(tables: Tables, back: Tables)
    requires TablesOk(tables) && DowngradeOutcome(tables) == Done(back)
    ensures back.Keys == tables.Keys - {"trials"} + {"simulations"}
    ensures back["simulations"] == (if "trials" in tables then tables["trials"] else tables["simulations"])
    ensures forall name, id |
              name in ["scenario_versions", "candidate_sessions", "tasks"] && id in RowIds(tables, name) ::
              && id in RowIds(back, name) && "trial_id" !in Columns(back, name)
              && CellAt(back[name].rows[id], "simulation_id") == NamedParent(tables[name].rows[id])
              && forall column | column != "simulation_id" && column != "trial_id" ::
                   CellAt(back[name].rows[id], column) == CellAt(tables[name].rows[id], column)
    ensures forall name | name in tables && name !in ["scenario_versions", "candidate_sessions", "tasks", "trials"] ::
              back[name] == tables[name]
  {
    NamesDiffer();
    ChildrenDistinct();
    forall name, id | name in CHILDREN && id in RowIds(tables, name)
      ensures name in back && back[name] == Folded(tables[name], "trial_id", "simulation_id")
      ensures tables[name].rows[id].Keys == tables[name].columns
    {
    }
  }

  /** A second downgrade changes no table. */
  lemma DowngradeTwiceIsOnce(tables: Tables, back: Tables)
    requires TablesOk(tables) && DowngradeOutcome(tables) == Done(back)
    ensures DowngradeOutcome(back) == Done(back)
  {
    NamesDiffer();
    ChildrenDistinct();
    forall name | name in CHILDREN ensures "trial_id" !in Columns(back, name) {
      if name in tables {
        assert back[name] == Folded(tables[name], "trial_id", "simulation_id");
      }
    }
    DowngradedIsFixed(back);
  }

  /** Nor does the procedure: it gets through again and leaves rows and keys as they are. */
  method RunDowngradeTwice(bind: Connection)
    returns (once: Outcome<()>, twice: Outcome<()>, ghost tables: Tables, ghost keys: Keys)
    requires bind.Valid()
    modifies bind
    ensures once.Done? ==> twice.Done? && DowngradeOutcome(old(bind.tables)) == Done(tables)
    ensures once.Done? ==> bind.tables == tables && bind.keys == keys
  {
    once := RunDowngrade(bind);
    tables, keys := bind.tables, bind.keys;
    if once.Raised? {
      return once, once, tables, keys;
    }
    DowngradeTwiceIsOnce(old(bind.tables), tables);
    DowngradeLeavesItDowngraded(old(bind.tables), tables, keys);
    twice := RunDowngrade(bind);
  }

  lemma DowngradeLeavesItDowngraded(tables: Tables, back: Tables, keys: Keys)
    requires TablesOk(tables) && DowngradeOutcome(tables) == Done(back)
    requires forall req | req in LEGACY_REQUIRED && Applicable(back, req) :: SettledIn(keys, req)
    ensures IsDowngraded(back, keys)
  {
    NamesDiffer();
    ChildrenDistinct();
    forall name | name in CHILDREN ensures "trial_id" !in Columns(back, name) {
      if name in tables {
        assert back[name] == Folded(tables[name], "trial_id", "simulation_id");
      }
    }
  }
}
