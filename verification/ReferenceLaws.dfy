/**
 Referential integrity through the upgrade: if every child named an existing parent and every
 pointer an existing scenario, then so they do afterwards, and PostgreSQL never refuses one of
 the foreign keys the upgrade asks for.
 */
module ReferenceLaws {
  import opened Catalog
  import opened Sets
  import opened Folding
  import opened ForeignKeys
  import opened Parents
  import opened ParentUnification
  import opened Backfill
  import opened LegacyReferences
  import opened SchemaUnification
  import opened UpgradeLaws

  predicate Refers(cell: Cell, ids: set<int>) {
    cell == Null || (cell.Num? && cell.n in ids)
  }

  predicate ColumnRefers(tables: Tables, name: string, column: string, ids: set<int>) {
    name in tables ==> forall id | id in tables[name].rows :: Refers(CellAt(tables[name].rows[id], column), ids)
  }

  predicate ParentsRefer(tables: Tables, name: string, ids: set<int>) {
    name in tables ==> forall id | id in tables[name].rows :: Refers(LogicalParent(tables[name].rows[id]), ids)
  }

  predicate HasId(tables: Tables, name: string) {
    name in tables ==> "id" in tables[name].columns
  }

  predicate Sound(tables: Tables) {
    && HasId(tables, TRIALS) && HasId(tables, SIMULATIONS) && HasId(tables, SCENARIOS)
    && (forall name | name in CHILDREN ::
        ParentsRefer(tables, name, RowIds(tables, TRIALS) + RowIds(tables, SIMULATIONS)))
    && ColumnRefers(tables, TRIALS, ACTIVE, RowIds(tables, SCENARIOS))
    && ColumnRefers(tables, TRIALS, PENDING, RowIds(tables, SCENARIOS))
    && ColumnRefers(tables, SIMULATIONS, ACTIVE, RowIds(tables, SCENARIOS))
    && ColumnRefers(tables, SIMULATIONS, PENDING, RowIds(tables, SCENARIOS))
    && ColumnRefers(tables, SESSIONS, LINK, RowIds(tables, SCENARIOS))
  }

  // Pointers of the unified parents.

  /** A copied pointer is null or the legacy row's. */
  lemma SelectedPointer(row: Row, columns: set<string>, column: string)
    requires column != PARTNER
    ensures CellAt(SelectedRow(row, columns), column) == Null
              || CellAt(SelectedRow(row, columns), column) == CellAt(row, column)
  {
  }

  /** A filled pointer names an existing scenario, and otherwise the row is as it was. */
  lemma ActivePointer(tables: Tables, row: Row, id: int, column: string)
    requires TablesOk(tables) && Refers(CellAt(row, column), RowIds(tables, SCENARIOS))
    ensures Refers(CellAt(WithActive(tables, row, id), column), RowIds(tables, SCENARIOS))
  {
    if NeedsActive(row) && FirstIn(tables, id) != {} {
      assert AnyOf(FirstIn(tables, id)) in RowIds(tables, SCENARIOS);
    }
  }

  lemma MergedPointer(tables: Tables, id: int, column: string)
    requires TablesOk(tables) && Split(tables) && id in MergedTrials(tables).rows && column != PARTNER
    requires ColumnRefers(tables, TRIALS, column, RowIds(tables, SCENARIOS))
    requires ColumnRefers(tables, SIMULATIONS, column, RowIds(tables, SCENARIOS))
    ensures Refers(CellAt(MergedTrials(tables).rows[id], column), RowIds(tables, SCENARIOS))
  {
    if id !in tables[TRIALS].rows {
      InsertedRow(tables, id);
      var selected := SelectedRow(tables[SIMULATIONS].rows[id], InsertColumns(tables[SIMULATIONS], tables[TRIALS]));
      SelectedPointer(tables[SIMULATIONS].rows[id], InsertColumns(tables[SIMULATIONS], tables[TRIALS]), column);
      ActivePointer(tables, selected, id, column);
    }
  }

  lemma FoldedKeepsOther(t: Table, from: string, into: string, column: string)
    requires column != from && column != into
    ensures forall id | id in t.rows :: CellAt(Folded(t, from, into).rows[id], column) == CellAt(t.rows[id], column)
    ensures Folded(t, from, into).rows.Keys == t.rows.Keys
  {
  }

  lemma UnifiedPointers(tables: Tables, column: string)
    requires TablesOk(tables) && !UnificationBlocked(tables)
    requires column == ACTIVE || column == PENDING
    requires ColumnRefers(tables, TRIALS, column, RowIds(tables, SCENARIOS))
    requires ColumnRefers(tables, SIMULATIONS, column, RowIds(tables, SCENARIOS))
    ensures ColumnRefers(Unified(tables), TRIALS, column, RowIds(tables, SCENARIOS))
  {
    assert column != PARTNER && column != RECRUITER;
    assert SCENARIOS != TRIALS && SCENARIOS != SIMULATIONS && TRIALS != SIMULATIONS;
    if TRIALS in tables {
      var folded := CanonicalFolded(tables);
      FoldedKeepsOther(tables[TRIALS], RECRUITER, PARTNER, column);
      FoldedOk(tables[TRIALS], RECRUITER, PARTNER);
      if SIMULATIONS in tables {
        forall id | id in MergedTrials(folded).rows
          ensures Refers(CellAt(MergedTrials(folded).rows[id], column), RowIds(tables, SCENARIOS))
        {
          MergedPointer(folded, id, column);
        }
      }
    } else {
      FoldedKeepsOther(tables[SIMULATIONS], RECRUITER, PARTNER, column);
      var t := Folded(tables[SIMULATIONS], RECRUITER, PARTNER);
      forall id | id in t.rows
        ensures Refers(CellAt(WithoutColumns(t, UnknownColumns(tables)).rows[id], column), RowIds(tables, SCENARIOS))
      {
      }
    }
  }

  lemma UnifiedHasId(tables: Tables)
    requires TablesOk(tables) && !UnificationBlocked(tables)
    requires HasId(tables, TRIALS) && HasId(tables, SIMULATIONS)
    ensures HasId(Unified(tables), TRIALS)
  {
    assert "id" in ALLOWLIST && "id" != RECRUITER;
  }

  // The reshaped tables, then the backfilled ones.

  lemma ReshapedParentsRefer(tables: Tables, name: string)
    requires TablesOk(tables) && !ReshapeBlocked(tables) && Sound(tables) && name in CHILDREN
    ensures var t := BeforeBackfill(tables); ParentsRefer(t, name, RowIds(t, TRIALS) + RowIds(t, SIMULATIONS))
  {
    var t := BeforeBackfill(tables);
    ReshapedIds(tables);
    ReshapedRows(tables);
    forall id | id in RowIds(tables, name)
      ensures id in RowIds(t, name) && LogicalParent(t[name].rows[id]) == LogicalParent(tables[name].rows[id])
    {
      ReshapeKeepsParents(tables, name, id);
    }
    assert ParentsRefer(tables, name, RowIds(tables, TRIALS) + RowIds(tables, SIMULATIONS));
  }

  lemma ReshapedIsSound(tables: Tables)
    requires TablesOk(tables) && !ReshapeBlocked(tables) && Sound(tables)
    ensures Sound(BeforeBackfill(tables))
  {
    var t := BeforeBackfill(tables);
    ReshapedTables(tables);
    UnifiedOk(tables);
    UnifiedHasId(tables);
    UnifiedPointers(tables, ACTIVE);
    UnifiedPointers(tables, PENDING);
    ReshapedPointers(tables, ACTIVE);
    ReshapedPointers(tables, PENDING);
    SessionPointersKept(tables, t);
    ReshapedRows(tables);
    forall name | name in CHILDREN
      ensures ParentsRefer(t, name, RowIds(t, TRIALS) + RowIds(t, SIMULATIONS))
    {
      ReshapedParentsRefer(tables, name);
    }
  }

  lemma ReshapedRows(tables: Tables)
    requires TablesOk(tables) && !ReshapeBlocked(tables)
    ensures forall name | name in CHILDREN :: RowIds(BeforeBackfill(tables), name) == RowIds(tables, name)
    ensures HasId(tables, SCENARIOS) ==> HasId(BeforeBackfill(tables), SCENARIOS)
  {
    ReshapedTables(tables);
    NamesDiffer();
    forall name | name in CHILDREN && name in tables
      ensures BeforeBackfill(tables)[name].rows.Keys == tables[name].rows.Keys
    {
      PointerKeepsConflicts(tables[name], name);
    }
  }

  lemma ReshapedPointers(tables: Tables, column: string)
    requires TablesOk(tables) && !ReshapeBlocked(tables) && !UnificationBlocked(tables)
    requires TRIALS in Unified(tables) && ColumnRefers(Unified(tables), TRIALS, column, RowIds(tables, SCENARIOS))
    ensures ColumnRefers(BeforeBackfill(tables), TRIALS, column, RowIds(tables, SCENARIOS))
  {
    ReshapedTables(tables);
    UnifiedOk(tables);
    var u := Unified(tables)[TRIALS];
    forall id | id in u.rows
      ensures CellAt(WithColumn(WithColumn(u, ACTIVE), PENDING).rows[id], column) == CellAt(u.rows[id], column)
    {
      AddedColumnsKeepCells(u, id, column);
    }
  }

  /** A filled pointer names an existing scenario. */
  lemma FilledRefers(before: Row, after: Row, column: string, scenarios: Table, trial: int, known: set<int>)
    requires PointerFilled(before, after, column, scenarios, trial) && known <= scenarios.rows.Keys
    requires Refers(CellAt(before, column), known)
    ensures Refers(CellAt(after, column), scenarios.rows.Keys)
  {
    if CellAt(before, column) == Null {
      var scenario :| FirstsOf(scenarios, trial) == {scenario} && CellAt(after, column) == Num(scenario);
      assert scenario in FirstsOf(scenarios, trial);
    }
  }

  lemma BackfilledIsSound(t: Tables, after: Tables, done: set<int>)
    requires BackfilledTables(t, after, done) && Sound(t) && TRIALS in t && SIMULATIONS !in t
    requires TablesOk(t) && done <= RowIds(t, TRIALS)
    ensures Sound(after)
  {
    NamesDiffer();
    if Applies(t) {
      var f, g := FillOf(t, 0), FillOf(after, 0);
      assert ScenariosGrew(f, g, done) && TrialsPointed(f, g, done) && SessionsLinked(f, g, done);
      var known := RowIds(t, SCENARIOS);
      forall id | id in known ensures id in after[SCENARIOS].rows {
        assert id in f.scenarios.rows;
      }
      forall id | id in after[TRIALS].rows
        ensures Refers(CellAt(after[TRIALS].rows[id], ACTIVE), RowIds(after, SCENARIOS))
        ensures Refers(CellAt(after[TRIALS].rows[id], PENDING), RowIds(after, SCENARIOS))
      {
        assert PENDING != ACTIVE;
        if id in done {
          FilledRefers(t[TRIALS].rows[id], after[TRIALS].rows[id], ACTIVE, after[SCENARIOS], id, known);
        }
      }
      forall id | id in after[SESSIONS].rows
        ensures Refers(CellAt(after[SESSIONS].rows[id], LINK), RowIds(after, SCENARIOS))
      {
        var trial := CellAt(t[SESSIONS].rows[id], "trial_id");
        if trial.Num? && trial.n in done {
          FilledRefers(t[SESSIONS].rows[id], after[SESSIONS].rows[id], LINK, after[SCENARIOS], trial.n, known);
        }
      }
      forall name | name in CHILDREN
          ensures ParentsRefer(after, name, RowIds(after, TRIALS) + RowIds(after, SIMULATIONS)) {
        BackfilledParentsRefer(t, after, done, name);
      }
    }
  }

  lemma BackfilledParentsRefer(t: Tables, after: Tables, done: set<int>, name: string)
    requires BackfilledTables(t, after, done) && Applies(t) && SIMULATIONS !in t && done <= RowIds(t, TRIALS)
    requires name in CHILDREN && ParentsRefer(t, name, RowIds(t, TRIALS) + RowIds(t, SIMULATIONS))
    ensures ParentsRefer(after, name, RowIds(after, TRIALS) + RowIds(after, SIMULATIONS))
  {
    NamesDiffer();
    var f, g := FillOf(t, 0), FillOf(after, 0);
    assert ScenariosGrew(f, g, done) && TrialsPointed(f, g, done) && SessionsLinked(f, g, done);
    if name in after {
      forall id | id in after[name].rows
        ensures Refers(LogicalParent(after[name].rows[id]), RowIds(after, TRIALS))
      {
        if id in t[name].rows {
          BackfillKeepsParents(t, after, done, name, id);
        } else {
          assert name == SCENARIOS;
          var trial :| trial in done && IsFirstOf(after[SCENARIOS].rows[id], trial);
          assert LogicalParent(after[name].rows[id]) == Num(trial);
        }
      }
    }
  }

  // What PostgreSQL checks.

  lemma PointerSatisfies(tables: Tables, name: string, column: string, target: string)
    requires TablesOk(tables) && name in tables && target in tables && "id" in tables[target].columns
    requires ColumnRefers(tables, name, column, RowIds(tables, target))
    ensures Satisfied(tables, name, Shape([column], target, ["id"]))
  {
    var shape := Shape([column], target, ["id"]);
    forall id | id in tables[name].rows ensures RowSatisfies(tables[name].rows[id], shape, tables[target]) {
      var cell := CellAt(tables[name].rows[id], shape.local[0]);
      if cell != Null {
        assert CellAt(tables[target].rows[cell.n], shape.remote[0]) == cell;
      }
    }
  }

  lemma ParentSatisfies(tables: Tables, name: string)
    requires TablesOk(tables) && Sound(tables) && name in CHILDREN && name in tables && TRIALS in tables
    requires SIMULATIONS !in tables && "simulation_id" !in tables[name].columns
    ensures Satisfied(tables, name, Shape(["trial_id"], TRIALS, ["id"]))
  {
    assert ParentsRefer(tables, name, RowIds(tables, TRIALS) + RowIds(tables, SIMULATIONS));
    forall id | id in tables[name].rows
      ensures Refers(CellAt(tables[name].rows[id], "trial_id"), RowIds(tables, TRIALS))
    {
      assert tables[name].rows[id].Keys == tables[name].columns;
      assert LogicalParent(tables[name].rows[id]) == CellAt(tables[name].rows[id], "trial_id");
    }
    PointerSatisfies(tables, name, "trial_id", TRIALS);
  }

  /** The keys the upgrade asks for: scenario pointers, and the parents of the children. */
  predicate PointerKey(table: string, shape: Shape) {
    || (table == TRIALS && (shape == Shape([ACTIVE], SCENARIOS, ["id"])
                            || shape == Shape([PENDING], SCENARIOS, ["id"])))
    || (table == SESSIONS && shape == Shape([LINK], SCENARIOS, ["id"]))
  }

  predicate ParentKey(table: string, shape: Shape) {
    table in CHILDREN && shape == Shape(["trial_id"], TRIALS, ["id"])
  }

  lemma RequiredKinds(req: Requirement)
    requires req in REQUIRED
    ensures PointerKey(req.table, req.shape) || ParentKey(req.table, req.shape)
  {
    NamesDiffer();
  }

  lemma PointerKeyAccepted(tables: Tables, table: string, shape: Shape)
    requires TablesOk(tables) && Sound(tables) && PointerKey(table, shape) && table in tables && SCENARIOS in tables
    ensures Satisfied(tables, table, shape)
  {
    var column := shape.local[0];
    assert shape == Shape([column], SCENARIOS, ["id"]);
    PointerSatisfies(tables, table, column, SCENARIOS);
  }

  /** PostgreSQL accepts every key the upgrade asks for. */
  lemma SoundIsAccepted(tables: Tables)
    requires TablesOk(tables) && Sound(tables) && TRIALS in tables && SIMULATIONS !in tables
    requires forall name | name in CHILDREN :: "simulation_id" !in Columns(tables, name)
    ensures !Refused(tables, REQUIRED)
  {
    forall req | req in REQUIRED && Applicable(tables, req)
      ensures Satisfied(tables, req.table, req.shape)
    {
      RequiredKinds(req);
      KeyAccepted(tables, req);
    }
  }

  lemma KeyAccepted(tables: Tables, req: Requirement)
    requires TablesOk(tables) && Sound(tables) && TRIALS in tables && SIMULATIONS !in tables && Applicable(tables, req)
    requires forall name | name in CHILDREN :: "simulation_id" !in Columns(tables, name)
    requires PointerKey(req.table, req.shape) || ParentKey(req.table, req.shape)
    ensures Satisfied(tables, req.table, req.shape)
  {
    if PointerKey(req.table, req.shape) {
      PointerKeyAccepted(tables, req.table, req.shape);
    } else {
      assert "simulation_id" !in Columns(tables, req.table);
      ParentSatisfies(tables, req.table);
    }
  }

  lemma LegacyTableIsNotConsulted(tables: Tables)
    requires TRIALS in tables && !Refused(tables - {SIMULATIONS}, REQUIRED)
    ensures !Refused(tables, REQUIRED)
  {
    var rest := tables - {SIMULATIONS};
    forall req | req in REQUIRED && Applicable(tables, req)
      ensures Satisfied(tables, req.table, req.shape)
    {
      RequiredNamesNoLegacy(req);
      assert Applicable(rest, req) && Satisfied(rest, req.table, req.shape);
    }
  }

  lemma RequiredNamesNoLegacy(req: Requirement)
    requires req in REQUIRED
    ensures req.table != SIMULATIONS && req.shape.table != SIMULATIONS
  {
  }

  /** From a sound database the upgrade reaches a sound database, and no foreign key it creates
      on the way can be refused. */
  lemma UpgradeKeepsReferences(tables: Tables, order: seq<int>, nextId: int, now: int, after: Tables)
    requires Upgrades(tables, order, nextId, now, after) && Sound(tables)
    ensures Sound(after) && !Refused(after, REQUIRED)
    ensures !ReshapeBlocked(tables) && !Refused(Reshaped(tables), REQUIRED)
  {
    UpgradeGives(tables, order, nextId, now, after);
    UpgradeUnitesParents(tables, order, nextId, now, after);
    ReshapedTables(tables);
    IdsAreTheUnion(tables);
    ReshapedIsSound(tables);
    ReshapedColumns(tables);
    BackfilledIsSound(BeforeBackfill(tables), after, Seen(order));
    SoundIsAccepted(BeforeBackfill(tables));
    LegacyTableIsNotConsulted(Reshaped(tables));
    SoundIsAccepted(after);
  }

  // When the upgrade succeeds.

  /** A key to the legacy parent as the schemas before the migration have them: a named key of a child
      table over its parent column. */
  predicate IsOrdinary(tables: Tables, owner: string, key: ForeignKey) {
    && owner in CHILDREN && key.name.Some?
    && (key.shape.local == ["trial_id"]
        || (key.shape.local == ["simulation_id"] && "simulation_id" in Columns(tables, owner)))
  }

  lemma OrdinaryLeaves(tables: Tables, owner: string, key: ForeignKey)
    requires IsOrdinary(tables, owner, key)
    ensures LeavesChild(Columns(tables, owner), key)
  {
    assert "trial_id" in ["trial_id"] && "simulation_id" in ["simulation_id"];
  }

  lemma OrdinaryKeysDoNotLinger(tables: Tables, keys: Keys, claims: Claims)
    requires forall owner: string, key: ForeignKey | key in KeysIn(keys, owner) && key.shape.table == SIMULATIONS ::
               IsOrdinary(tables, owner, key)
    ensures !Lingers(tables, keys, CHILDREN, claims)
  {
    forall owner: string, key: ForeignKey | key in KeysIn(keys, owner) && key.shape.table == SIMULATIONS
      ensures owner in CHILDREN && LeavesChild(Columns(tables, owner), key)
    {
      OrdinaryLeaves(tables, owner, key);
    }
  }

  /** Ordinary keys do not hold the upgrade back. */
  lemma OrdinaryKeysGo(tables: Tables, keys: Keys)
    requires forall owner: string, key: ForeignKey | key in KeysIn(keys, owner) && key.shape.table == SIMULATIONS ::
               IsOrdinary(tables, owner, key)
    ensures !HeldBack(tables, keys)
  {
    if Split(tables) {
      OrdinaryKeysDoNotLinger(tables, keys, ClaimsOf(Reshaped(tables), REQUIRED));
    }
  }

  /** A key to the legacy table that the upgrade neither drops nor replaces holds it back: of a table
      other than `trials`, over neither parent column if that is a child table, and under no name the
      upgrade asks for. */
  lemma OtherKeysHoldBack(tables: Tables, keys: Keys, owner: string, key: ForeignKey)
    requires "trials" in tables && "simulations" in tables && key in KeysIn(keys, owner)
    requires key.shape.table == "simulations" && owner != "trials"
    requires owner in ["scenario_versions", "candidate_sessions", "tasks"] ==>
               "trial_id" !in key.shape.local && "simulation_id" !in key.shape.local
    requires forall req | req in REQUIRED :: key.name != Some(req.name)
    ensures HeldBack(tables, keys)
  {
    var claims := ClaimsOf(Reshaped(tables), REQUIRED);
    assert SticksWhile(tables, CHILDREN, claims, owner, key);
  }

  /** From a referentially sound database the upgrade succeeds exactly when no guard of its data
      objects and no key to the legacy table outlasts it. */
  method UpgradeSound(bind: Connection, order: seq<int>, nextId: int, now: int) returns (r: Outcome<()>)
    requires bind.Valid() && IsTrialOrder(bind.tables, order) && Sound(bind.tables)
    modifies bind
    ensures bind.Valid()
    ensures r.Done? <==>
              UpgradeOutcome(old(bind.tables), order, nextId, now).Done? && !HeldBack(old(bind.tables), old(bind.keys))
    ensures r.Done? ==> UpgradeOutcome(old(bind.tables), order, nextId, now) == Done(bind.tables) && Sound(bind.tables)
  {
    ghost var before := bind.tables;
    if UpgradeOutcome(before, order, nextId, now).Done? {
      UpgradeKeepsReferences(before, order, nextId, now, UpgradeOutcome(before, order, nextId, now).value);
    }
    r := RunUpgrade(bind, order, nextId, now);
  }
}
