/**
 What a whole upgrade keeps: ids, cells, logical parents, references; that a second upgrade
 changes nothing; and that a downgrade gives every child its parent back.
 */
module UpgradeLaws {
  import opened Catalog
  import opened Sets
  import opened Folding
  import opened ForeignKeys
  import opened Parents
  import opened ParentUnification
  import opened Backfill
  import opened SchemaUnification

  /** The row a child names as its parent, under either column. */
  function LogicalParent(row: Row): Cell {
    Either(row, "trial_id", "simulation_id")
  }

  predicate HasParentColumns(tables: Tables, name: string) {
    "trial_id" in Columns(tables, name) || "simulation_id" in Columns(tables, name)
  }

  ghost predicate Upgrades(tables: Tables, order: seq<int>, nextId: int, now: int, after: Tables) {
    TablesOk(tables) && IsTrialOrder(tables, order) && UpgradeOutcome(tables, order, nextId, now) == Done(after)
  }

  // The tables between the reshaping and the backfill.

  ghost function BeforeBackfill(tables: Tables): Tables
    requires TRIALS in tables || SIMULATIONS in tables
  {
    Reshaped(tables) - {SIMULATIONS}
  }

  lemma FoldedOk(t: Table, from: string, into: string)
    requires TableOk(t) && from != "id" && into != "id"
    ensures TableOk(Folded(t, from, into))
  {
  }

  /** Folding a child keeps every row's logical parent. */
  lemma FoldKeepsParent(t: Table, id: int)
    requires TableOk(t) && id in t.rows && !HasConflict(t, "simulation_id", "trial_id")
    ensures LogicalParent(Folded(t, "simulation_id", "trial_id").rows[id]) == LogicalParent(t.rows[id])
    ensures LogicalParent(Folded(t, "trial_id", "simulation_id").rows[id]) == LogicalParent(t.rows[id])
  {
    assert t.rows[id].Keys == t.columns;
    assert !Conflicting(t.rows[id], "simulation_id", "trial_id")
        || !("simulation_id" in t.columns && "trial_id" in t.columns);
  }

  lemma UnifiedOk(tables: Tables)
    requires TablesOk(tables) && !UnificationBlocked(tables)
    ensures TablesOk(Unified(tables)) && TRIALS in Unified(tables)
    ensures RECRUITER !in Unified(tables)[TRIALS].columns
    ensures forall name | name in tables && name != TRIALS && name != SIMULATIONS :: name in Unified(tables)
              && Unified(tables)[name] == tables[name]
    ensures Unified(tables).Keys - {SIMULATIONS} == tables.Keys + {TRIALS} - {SIMULATIONS}
  {
    if TRIALS in tables {
      FoldedOk(tables[TRIALS], RECRUITER, PARTNER);
      if SIMULATIONS in tables {
        MergedTrialsOk(CanonicalFolded(tables));
      }
    } else {
      FoldedOk(tables[SIMULATIONS], RECRUITER, PARTNER);
    }
  }

  function WithPointer(t: Table, name: string): Table {
    if name == SESSIONS then WithColumn(t, LINK) else t
  }

  lemma NamesDiffer()
    ensures TRIALS !in CHILDREN && SIMULATIONS !in CHILDREN
    ensures TRIALS != SIMULATIONS && SCENARIOS != SESSIONS && SESSIONS != TASKS && SCENARIOS != TASKS
    ensures SCENARIOS in CHILDREN && SESSIONS in CHILDREN && TASKS in CHILDREN
    ensures forall name | name in CHILDREN :: name == SCENARIOS || name == SESSIONS || name == TASKS
  {
  }

  lemma ColumnsEnsuredTables(tables: Tables)
    requires TablesOk(tables) && TRIALS in tables
    ensures var c := ColumnsEnsured(tables);
            && TablesOk(c) && c.Keys == tables.Keys
            && c[TRIALS] == WithColumn(WithColumn(tables[TRIALS], ACTIVE), PENDING)
            && forall name | name in tables && name != TRIALS :: c[name] == WithPointer(tables[name], name)
  {
    NamesDiffer();
    assert TRIALS != SESSIONS;
    assert ACTIVE != "id" && PENDING != "id" && LINK != "id";
  }

  lemma ChildrenFoldedTables(tables: Tables, children: seq<string>, from: string, into: string)
    requires TablesOk(tables) && from != "id" && into != "id"
    ensures TablesOk(ChildrenFolded(tables, children, from, into))
  {
    forall name | name in tables && name in children ensures TableOk(Folded(tables[name], from, into)) {
      FoldedOk(tables[name], from, into);
    }
  }

  lemma ReshapedTables(tables: Tables)
    requires TablesOk(tables) && !ReshapeBlocked(tables)
    ensures var t := BeforeBackfill(tables);
            && TablesOk(t) && t.Keys == tables.Keys + {TRIALS} - {SIMULATIONS}
            && t[TRIALS] == WithColumn(WithColumn(Unified(tables)[TRIALS], ACTIVE), PENDING)
            && forall name | name in CHILDREN && name in tables ::
                 t[name] == Folded(WithPointer(tables[name], name), "simulation_id", "trial_id")
    ensures TRIALS in Reshaped(tables) && Reshaped(tables).Keys - {SIMULATIONS} == BeforeBackfill(tables).Keys
  {
    UnifiedOk(tables);
    NamesDiffer();
    ColumnsEnsuredTables(Unified(tables));
    var c := ColumnsEnsured(Unified(tables));
    ChildrenFoldedTables(c, CHILDREN, "simulation_id", "trial_id");
    forall name | name in CHILDREN && name in tables
      ensures name in c && c[name] == WithPointer(tables[name], name)
    {
      assert name != TRIALS && name != SIMULATIONS;
    }
  }

  lemma PointerKeepsConflicts(t: Table, name: string)
    ensures HasConflict(WithPointer(t, name), "simulation_id", "trial_id") <==>
              HasConflict(t, "simulation_id", "trial_id")
    ensures TableOk(t) ==> TableOk(WithPointer(t, name))
    ensures WithPointer(t, name).rows.Keys == t.rows.Keys
    ensures forall id | id in t.rows :: LogicalParent(WithPointer(t, name).rows[id]) == LogicalParent(t.rows[id])
  {
    var p := WithPointer(t, name);
    forall id | id in t.rows
      ensures Conflicting(p.rows[id], "simulation_id", "trial_id") <==>
                Conflicting(t.rows[id], "simulation_id", "trial_id")
      ensures LogicalParent(p.rows[id]) == LogicalParent(t.rows[id])
    {
    }
  }

  // Logical parents.

  lemma ReshapedChildKeepsParent(t: Table, name: string, id: int)
    requires TableOk(t) && id in t.rows && !HasConflict(t, "simulation_id", "trial_id")
    ensures var u := Folded(WithPointer(t, name), "simulation_id", "trial_id");
            && u.rows.Keys == t.rows.Keys && "simulation_id" !in u.columns
            && LogicalParent(u.rows[id]) == LogicalParent(t.rows[id])
  {
    PointerKeepsConflicts(t, name);
    FoldKeepsParent(WithPointer(t, name), id);
  }

  /** The reshaping keeps every child row and its logical parent, now under `trial_id` alone. */
  lemma ReshapeKeepsParents(tables: Tables, name: string, id: int)
    requires TablesOk(tables) && !ReshapeBlocked(tables)
    requires name in CHILDREN && id in RowIds(tables, name)
    ensures RowIds(BeforeBackfill(tables), name) == RowIds(tables, name)
    ensures LogicalParent(BeforeBackfill(tables)[name].rows[id]) == LogicalParent(tables[name].rows[id])
    ensures "simulation_id" !in BeforeBackfill(tables)[name].columns
  {
    ReshapedTables(tables);
    NamesDiffer();
    NoConflictAfterColumns(tables, name);
    ReshapedChildKeepsParent(tables[name], name, id);
  }

  lemma NoConflictAfterColumns(tables: Tables, name: string)
    requires TablesOk(tables) && !ReshapeBlocked(tables) && name in CHILDREN && name in tables
    ensures !HasConflict(tables[name], "simulation_id", "trial_id")
  {
    UnifiedOk(tables);
    NamesDiffer();
    PointerKeepsConflicts(tables[name], name);
    ColumnsEnsuredTables(Unified(tables));
    assert name != TRIALS && name != SIMULATIONS;
  }

  // The backfill, seen on tables.

  ghost predicate BackfilledTables(before: Tables, after: Tables, done: set<int>) {
    && TablesOk(after) && after.Keys == before.Keys
    && (forall name | name in before && name != TRIALS && name != SCENARIOS && name != SESSIONS ::
        after[name] == before[name])
    && if Applies(before) then Applies(after) && Backfilled(FillOf(before, 0), FillOf(after, 0), done)
       else after == before
  }

  lemma BackfillResult(before: Tables, order: seq<int>, nextId: int, now: int, after: Tables)
    requires TablesOk(before) && Distinct(order) && BackfillOutcome(before, order, nextId, now) == Done(after)
    ensures BackfilledTables(before, after, Seen(order))
  {
    if Applies(before) {
      var f := FillOf(before, nextId);
      var drafts := Drafts(before[TRIALS].rows, now);
      FilledBackfills(f, drafts, order);
      var g := Filled(f, drafts, order).value;
      NamesDiffer();
      WithFillOk(before, g);
      assert after[TRIALS] == g.trials && after[SCENARIOS] == g.scenarios && after[SESSIONS] == g.sessions;
      BackfilledIgnoresSequence(f, g);
    }
  }

  lemma BackfilledIgnoresSequence(f: Fill, g: Fill)
    ensures forall done :: Backfilled(f, g, done) ==> Backfilled(f.(nextId := 0), g.(nextId := 0), done)
  {
    var f', g' := f.(nextId := 0), g.(nextId := 0);
    forall done | Backfilled(f, g, done) ensures Backfilled(f', g', done) {
      assert ScenariosGrew(f', g', done) && TrialsPointed(f', g', done) && SessionsLinked(f', g', done);
    }
  }

  lemma UpgradeGives(tables: Tables, order: seq<int>, nextId: int, now: int, after: Tables)
    requires Upgrades(tables, order, nextId, now, after)
    ensures !ReshapeBlocked(tables) && TablesOk(BeforeBackfill(tables))
    ensures BackfilledTables(BeforeBackfill(tables), after, Seen(order))
  {
    ReshapedTables(tables);
    BackfillResult(BeforeBackfill(tables), order, nextId, now, after);
  }

  // Main results.

  lemma BackfillKeepsColumns(before: Tables, after: Tables, done: set<int>)
    requires BackfilledTables(before, after, done)
    ensures after.Keys == before.Keys && forall name | name in before :: after[name].columns == before[name].columns
    ensures RowIds(after, TRIALS) == RowIds(before, TRIALS)
  {
  }

  lemma SameColumnsSettled(before: Tables, after: Tables)
    requires ShapeSettled(before) && after.Keys == before.Keys && forall name | name in before ::
               after[name].columns == before[name].columns
    ensures ShapeSettled(after)
  {
    forall name | name in CHILDREN ensures "simulation_id" !in Columns(after, name) {
      assert Columns(after, name) == Columns(before, name);
    }
  }

  lemma ReshapedIds(tables: Tables)
    requires TablesOk(tables) && !ReshapeBlocked(tables)
    ensures RowIds(BeforeBackfill(tables), TRIALS) == RowIds(tables, TRIALS) + RowIds(tables, SIMULATIONS)
  {
    ReshapedTables(tables);
    IdsAreTheUnion(tables);
  }

  /** One parent table, holding exactly the rows of both. */
  lemma UpgradeUnitesParents(tables: Tables, order: seq<int>, nextId: int, now: int, after: Tables)
    requires Upgrades(tables, order, nextId, now, after)
    ensures TRIALS in after && SIMULATIONS !in after
    ensures RowIds(after, TRIALS) == RowIds(tables, TRIALS) + RowIds(tables, SIMULATIONS)
    ensures ShapeSettled(after)
  {
    UpgradeGives(tables, order, nextId, now, after);
    ReshapedColumns(tables);
    ReshapedIds(tables);
    BackfillKeepsColumns(BeforeBackfill(tables), after, Seen(order));
    SameColumnsSettled(BeforeBackfill(tables), after);
  }

  lemma TrialColumnsEnsured(tables: Tables)
    requires TablesOk(tables) && !ReshapeBlocked(tables)
    ensures var t := BeforeBackfill(tables);
            && TRIALS in t && SIMULATIONS !in t && RECRUITER !in t[TRIALS].columns
            && ACTIVE in t[TRIALS].columns && PENDING in t[TRIALS].columns
  {
    ReshapedTables(tables);
    UnifiedOk(tables);
    assert RECRUITER != ACTIVE && RECRUITER != PENDING;
  }

  lemma SessionsHavePointer(tables: Tables)
    requires TablesOk(tables) && !ReshapeBlocked(tables) && SESSIONS in BeforeBackfill(tables)
    ensures LINK in BeforeBackfill(tables)[SESSIONS].columns
  {
    ReshapedTables(tables);
    NamesDiffer();
    assert SESSIONS != TRIALS && LINK != "simulation_id";
  }

  lemma ReshapedColumns(tables: Tables)
    requires TablesOk(tables) && !ReshapeBlocked(tables)
    ensures ShapeSettled(BeforeBackfill(tables))
  {
    TrialColumnsEnsured(tables);
    if SESSIONS in BeforeBackfill(tables) {
      SessionsHavePointer(tables);
    }
    forall name | name in CHILDREN ensures "simulation_id" !in Columns(BeforeBackfill(tables), name) {
      ChildIsFolded(tables, name);
    }
  }

  lemma ChildIsFolded(tables: Tables, name: string)
    requires TablesOk(tables) && !ReshapeBlocked(tables) && name in CHILDREN
    ensures "simulation_id" !in Columns(BeforeBackfill(tables), name)
  {
    ReshapedTables(tables);
    NamesDiffer();
  }

  lemma TrialCellsBackfilled(t: Tables, after: Tables, done: set<int>, id: int, column: string)
    requires BackfilledTables(t, after, done) && id in RowIds(t, TRIALS)
    ensures id in RowIds(after, TRIALS) && after[TRIALS].columns == t[TRIALS].columns
    ensures CellAt(after[TRIALS].rows[id], column) == CellAt(t[TRIALS].rows[id], column)
         || (column == ACTIVE && CellAt(t[TRIALS].rows[id], column) == Null)
  {
    if Applies(t) {
      assert TrialsPointed(FillOf(t, 0), FillOf(after, 0), done);
      assert after[TRIALS].rows[id] == t[TRIALS].rows[id]
          || after[TRIALS].rows[id] == t[TRIALS].rows[id][ACTIVE := CellAt(after[TRIALS].rows[id], ACTIVE)];
    }
  }

  lemma AddedColumnsKeepCells(t: Table, id: int, column: string)
    requires TableOk(t) && id in t.rows
    ensures var w := WithColumn(WithColumn(t, ACTIVE), PENDING);
            && id in w.rows && CellAt(w.rows[id], column) == CellAt(t.rows[id], column)
            && w.columns == t.columns + {ACTIVE, PENDING}
  {
  }

  /** After unification only a null active pointer of a trial ever changes. */
  lemma TrialCellsThrough(tables: Tables, order: seq<int>, nextId: int, now: int, after: Tables, id: int,
                          column: string)
    requires Upgrades(tables, order, nextId, now, after) && !UnificationBlocked(tables)
    requires TRIALS in Unified(tables) && id in Unified(tables)[TRIALS].rows
    ensures TRIALS in after && id in after[TRIALS].rows
    ensures var unified, final := Unified(tables)[TRIALS].rows[id], after[TRIALS].rows[id];
            CellAt(final, column) == CellAt(unified, column) || (column == ACTIVE && CellAt(unified, column) == Null)
    ensures after[TRIALS].columns == Unified(tables)[TRIALS].columns + {ACTIVE, PENDING}
  {
    UpgradeGives(tables, order, nextId, now, after);
    ReshapedTables(tables);
    UnifiedOk(tables);
    AddedColumnsKeepCells(Unified(tables)[TRIALS], id, column);
    TrialCellsBackfilled(BeforeBackfill(tables), after, Seen(order), id, column);
  }

  /** The whole upgrade keeps every legacy cell the code compares or copies. */
  lemma UpgradeKeepsLegacyCells(tables: Tables, order: seq<int>, nextId: int, now: int, after: Tables, id: int,
                                column: string)
    requires Upgrades(tables, order, nextId, now, after)
    requires id in RowIds(tables, SIMULATIONS) && column in tables[SIMULATIONS].columns
    ensures id in RowIds(after, TRIALS)
    ensures CellSurvives(tables[SIMULATIONS].rows[id], after[TRIALS].rows[id], column, after[TRIALS].columns,
                         id !in RowIds(tables, TRIALS))
  {
    UpgradeGives(tables, order, nextId, now, after);
    LegacyCellsKept(tables, id, column);
    TrialCellsThrough(tables, order, nextId, now, after, id, column);
    TrialCellsThrough(tables, order, nextId, now, after, id, PARTNER);
    var unified := Unified(tables)[TRIALS];
    UnifiedOk(tables);
    assert unified.rows[id].Keys == unified.columns;
  }

  /** ... and every cell of the rows that were canonical already. */
  lemma UpgradeKeepsCanonicalCells(tables: Tables, order: seq<int>, nextId: int, now: int, after: Tables, id: int,
                                   column: string)
    requires Upgrades(tables, order, nextId, now, after)
    requires id in RowIds(tables, TRIALS) && column in tables[TRIALS].columns
    ensures id in RowIds(after, TRIALS)
    ensures var was, became := tables[TRIALS].rows[id], after[TRIALS].rows[id];
            if column == RECRUITER || column == PARTNER
            then CellAt(became, PARTNER) == Either(was, PARTNER, RECRUITER)
            else CellAt(became, column) == CellAt(was, column) || (column == ACTIVE && CellAt(was, column) == Null)
  {
    UpgradeGives(tables, order, nextId, now, after);
    CanonicalCellsKept(tables, id, column);
    IdsAreTheUnion(tables);
    TrialCellsThrough(tables, order, nextId, now, after, id, column);
    TrialCellsThrough(tables, order, nextId, now, after, id, PARTNER);
  }

  /** The backfill runs exactly when both child tables name their parent somehow. */
  lemma BackfillRunsWhen(tables: Tables)
    requires TablesOk(tables) && !ReshapeBlocked(tables)
    ensures Applies(BeforeBackfill(tables)) <==>
              HasParentColumns(tables, SCENARIOS) && HasParentColumns(tables, SESSIONS)
  {
    ReshapedTables(tables);
    ReshapedColumns(tables);
    NamesDiffer();
    var t := BeforeBackfill(tables);
    assert LINK != "trial_id" && LINK != "simulation_id";
    assert SCENARIOS in tables ==> ("trial_id" in t[SCENARIOS].columns <==> HasParentColumns(tables, SCENARIOS));
    assert SESSIONS in tables ==> ("trial_id" in t[SESSIONS].columns <==> HasParentColumns(tables, SESSIONS));
  }

  ghost predicate EveryTrialStarted(after: Tables) {
    && TRIALS in after && SCENARIOS in after && SESSIONS in after
    && (forall id | id in after[TRIALS].rows ::
          && (exists scenario :: FirstsOf(after[SCENARIOS], id) == {scenario})
          && CellAt(after[TRIALS].rows[id], ACTIVE) != Null)
    && forall s | s in after[SESSIONS].rows ::
         var trial := CellAt(after[SESSIONS].rows[s], "trial_id");
         trial.Num? && trial.n in after[TRIALS].rows ==> CellAt(after[SESSIONS].rows[s], LINK) != Null
  }

  lemma StartedWhenBackfilled(t: Tables, after: Tables, done: set<int>)
    requires BackfilledTables(t, after, done) && Applies(t) && t[TRIALS].rows.Keys <= done
    ensures EveryTrialStarted(after)
    ensures forall s | s in t[SESSIONS].rows ::
              && s in after[SESSIONS].rows
              && (CellAt(t[SESSIONS].rows[s], LINK) != Null ==>
                    CellAt(after[SESSIONS].rows[s], LINK) == CellAt(t[SESSIONS].rows[s], LINK))
  {
    var f, g := FillOf(t, 0), FillOf(after, 0);
    assert ScenariosGrew(f, g, done) && TrialsPointed(f, g, done) && SessionsLinked(f, g, done);
    forall id | id in after[TRIALS].rows ensures CellAt(after[TRIALS].rows[id], ACTIVE) != Null {
      assert PointerFilled(t[TRIALS].rows[id], after[TRIALS].rows[id], ACTIVE, after[SCENARIOS], id);
    }
    forall s | s in after[SESSIONS].rows
      ensures CellAt(after[SESSIONS].rows[s], "trial_id") == CellAt(t[SESSIONS].rows[s], "trial_id")
      ensures var trial := CellAt(t[SESSIONS].rows[s], "trial_id");
              trial.Num? && trial.n in done ==> CellAt(after[SESSIONS].rows[s], LINK) != Null
    {
      assert LINK != "trial_id";
    }
  }

  /** Every trial ends with exactly one version-1 scenario and a pointer, and every session of a
      trial with a scenario; pointers that were set are untouched. */
  lemma UpgradeStartsEveryTrial(tables: Tables, order: seq<int>, nextId: int, now: int, after: Tables)
    requires Upgrades(tables, order, nextId, now, after)
    requires HasParentColumns(tables, SCENARIOS) && HasParentColumns(tables, SESSIONS)
    ensures EveryTrialStarted(after)
    ensures forall s | s in RowIds(tables, SESSIONS) ::
              && s in after[SESSIONS].rows
              && (CellAt(tables[SESSIONS].rows[s], LINK) != Null ==>
                    CellAt(after[SESSIONS].rows[s], LINK) == CellAt(tables[SESSIONS].rows[s], LINK))
  {
    UpgradeGives(tables, order, nextId, now, after);
    BackfillRunsWhen(tables);
    ReshapedTables(tables);
    IdsAreTheUnion(tables);
    StartedWhenBackfilled(BeforeBackfill(tables), after, Seen(order));
    SessionPointersKept(tables, BeforeBackfill(tables));
  }

  lemma SessionPointersKept(tables: Tables, t: Tables)
    requires TablesOk(tables) && !ReshapeBlocked(tables) && t == BeforeBackfill(tables)
    ensures forall s | s in RowIds(tables, SESSIONS) ::
              && s in RowIds(t, SESSIONS)
              && CellAt(t[SESSIONS].rows[s], LINK) == CellAt(tables[SESSIONS].rows[s], LINK)
  {
    ReshapedTables(tables);
    NamesDiffer();
    assert LINK != "trial_id" && LINK != "simulation_id";
    if SESSIONS in tables {
      assert t[SESSIONS] == Folded(WithPointer(tables[SESSIONS], SESSIONS), "simulation_id", "trial_id");
    }
  }

  // Logical parents, there and back.

  lemma BackfillKeepsParents(t: Tables, after: Tables, done: set<int>, name: string, id: int)
    requires BackfilledTables(t, after, done) && name in CHILDREN && id in RowIds(t, name)
    ensures id in RowIds(after, name)
    ensures LogicalParent(after[name].rows[id]) == LogicalParent(t[name].rows[id])
  {
    NamesDiffer();
    if Applies(t) {
      var f, g := FillOf(t, 0), FillOf(after, 0);
      assert ScenariosGrew(f, g, done) && SessionsLinked(f, g, done);
      assert LINK != "trial_id" && LINK != "simulation_id";
    }
  }

  /** An upgrade keeps every child row and its logical parent. */
  lemma UpgradeKeepsLogicalParents(tables: Tables, order: seq<int>, nextId: int, now: int, after: Tables, name: string,
                                   id: int)
    requires Upgrades(tables, order, nextId, now, after)
    requires name in CHILDREN && id in RowIds(tables, name)
    ensures id in RowIds(after, name) && "simulation_id" !in after[name].columns
    ensures LogicalParent(after[name].rows[id]) == LogicalParent(tables[name].rows[id])
  {
    UpgradeGives(tables, order, nextId, now, after);
    UpgradeUnitesParents(tables, order, nextId, now, after);
    ReshapeKeepsParents(tables, name, id);
    BackfillKeepsParents(BeforeBackfill(tables), after, Seen(order), name, id);
  }

  /** A child row naming two different parents makes the upgrade raise. */
  lemma ConflictingChildRaises(tables: Tables, order: seq<int>, nextId: int, now: int, name: string)
    requires TablesOk(tables) && (TRIALS in tables || SIMULATIONS in tables)
    requires name in CHILDREN && name in tables && HasConflict(tables[name], "simulation_id", "trial_id")
    ensures UpgradeOutcome(tables, order, nextId, now).Raised?
  {
    if !ReshapeBlocked(tables) {
      NoConflictAfterColumns(tables, name);
    }
  }

  lemma NoLegacyColumnNoConflict(tables: Tables, children: seq<string>)
    requires forall name | name in children :: "simulation_id" !in Columns(tables, name)
    ensures !ChildConflict(tables, children)
  {
    forall name | name in children && name in tables ensures !HasConflict(tables[name], "simulation_id", "trial_id") {
      assert "simulation_id" !in Columns(tables, name);
    }
  }

  lemma DowngradeSettled(after: Tables, name: string, id: int)
    requires TablesOk(after) && ShapeSettled(after) && name in CHILDREN && id in RowIds(after, name)
    ensures DowngradeOutcome(after).Done?
    ensures var back := DowngradeOutcome(after).value;
            && id in RowIds(back, name) && "trial_id" !in back[name].columns
            && CellAt(back[name].rows[id], "simulation_id") == LogicalParent(after[name].rows[id])
            && RowIds(back, SIMULATIONS) == RowIds(after, TRIALS)
  {
    NamesDiffer();
    var renamed := ParentRenamedBack(after);
    forall child | child in CHILDREN ensures "simulation_id" !in Columns(renamed, child) {
      assert "simulation_id" !in Columns(after, child);
      assert child != TRIALS && child != SIMULATIONS;
    }
    NoLegacyColumnNoConflict(renamed, CHILDREN);
    assert name != TRIALS && name != SIMULATIONS;
    assert DowngradeOutcome(after).value[name] == Folded(after[name], "trial_id", "simulation_id");
    RenamedParent(after[name], id);
  }

  lemma RenamedParent(t: Table, id: int)
    requires TableOk(t) && id in t.rows && "simulation_id" !in t.columns
    ensures var u := Folded(t, "trial_id", "simulation_id");
            "trial_id" !in u.columns && CellAt(u.rows[id], "simulation_id") == LogicalParent(t.rows[id])
  {
    assert t.rows[id].Keys == t.columns;
    assert "trial_id" != "simulation_id";
  }

  /** The downgrade of upgraded tables is not blocked and gives every original child row the parent it
      had, now under the legacy column alone. */
  lemma DowngradeAfterUpgrade(tables: Tables, order: seq<int>, nextId: int, now: int, after: Tables, name: string,
                              id: int)
    requires Upgrades(tables, order, nextId, now, after)
    requires name in CHILDREN && id in RowIds(tables, name)
    ensures DowngradeOutcome(after).Done?
    ensures var back := DowngradeOutcome(after).value;
            && id in RowIds(back, name) && "trial_id" !in back[name].columns
            && CellAt(back[name].rows[id], "simulation_id") == LogicalParent(tables[name].rows[id])
            && RowIds(back, SIMULATIONS) == RowIds(tables, TRIALS) + RowIds(tables, SIMULATIONS)
  {
    UpgradeUnitesParents(tables, order, nextId, now, after);
    UpgradeKeepsLogicalParents(tables, order, nextId, now, after, name, id);
    UpgradeGives(tables, order, nextId, now, after);
    DowngradeSettled(after, name, id);
  }

  // A second upgrade.

  /** Nothing is left for the backfill to do for this trial. */
  ghost predicate Finished(f: Fill, id: int) {
    && (exists scenario :: FirstsOf(f.scenarios, id) == {scenario})
    && (id in f.trials.rows ==> CellAt(f.trials.rows[id], ACTIVE) != Null)
    && forall s | s in f.sessions.rows :: !Unlinked(f.sessions.rows[s], id)
  }

  lemma FinishedStep(f: Fill, draft: Row, id: int)
    requires FillOk(f) && Finished(f, id)
    ensures Step(f, draft, id) == Done(f)
  {
    var scenario :| FirstsOf(f.scenarios, id) == {scenario};
    assert scenario in FirstsOf(f.scenarios, id);
    assert f.scenarios.rows[scenario].Keys == f.scenarios.columns;
    assert AnyOf(FirstsOf(f.scenarios, id)) in {scenario};
    assert EnsureFirst(f, draft, id) == Done((scenario, f));
    assert Pointed(f.trials, id, scenario).rows == f.trials.rows by {
      if id in f.trials.rows {
        assert f.trials.rows[id][ACTIVE := f.trials.rows[id][ACTIVE]] == f.trials.rows[id];
      }
    }
    forall s | s in f.sessions.rows ensures Linked(f.sessions, id, scenario).rows[s] == f.sessions.rows[s] {
      assert !Unlinked(f.sessions.rows[s], id);
    }
    assert Linked(f.sessions, id, scenario).rows == f.sessions.rows;
  }

  lemma {:induction false} FinishedAll(f: Fill, drafts: map<int, Row>, order: seq<int>)
    requires FillOk(f) && forall i | 0 <= i < |order| :: Finished(f, order[i])
    ensures Filled(f, drafts, order) == Done(f)
    decreases |order|
  {
    if order != [] {
      FinishedStep(f, if order[0] in drafts then drafts[order[0]] else map[], order[0]);
      FinishedAll(f, drafts, order[1..]);
    }
  }

  lemma BackfillTwice(t: Tables, order: seq<int>, nextId: int, now: int, after: Tables, again: seq<int>, nextId': int,
                      now': int)
    requires TablesOk(t) && Distinct(order) && BackfillOutcome(t, order, nextId, now) == Done(after)
    requires TRIALS in t && t[TRIALS].rows.Keys <= Seen(order) && Seen(again) <= RowIds(after, TRIALS)
    ensures BackfillOutcome(after, again, nextId', now') == Done(after)
  {
    BackfillResult(t, order, nextId, now, after);
    if Applies(t) {
      StartedWhenBackfilled(t, after, Seen(order));
      var f := FillOf(after, nextId');
      assert TrialsPointed(FillOf(t, 0), FillOf(after, 0), Seen(order));
      assert ScenariosGrew(FillOf(t, 0), FillOf(after, 0), Seen(order));
      assert Readable(after);
      forall i | 0 <= i < |again| ensures Finished(f, again[i]) {
        assert again[i] in Seen(again);
      }
      FinishedAll(f, Drafts(after[TRIALS].rows, now'), again);
      WithFillOf(after, nextId');
    }
  }

  /** Running the upgrade twice gives what running it once gives. */
  lemma UpgradeTwiceIsOnce(tables: Tables, order: seq<int>, nextId: int, now: int, after: Tables,
                           again: seq<int>, nextId': int, now': int)
    requires Upgrades(tables, order, nextId, now, after) && IsTrialOrder(after, again)
    ensures BackfillOutcome(after, again, nextId', now') == Done(after)
    ensures UpgradeOutcome(after, again, nextId', now') == Done(after)
  {
    UpgradeGives(tables, order, nextId, now, after);
    UpgradeUnitesParents(tables, order, nextId, now, after);
    ReshapedTables(tables);
    IdsAreTheUnion(tables);
    SettledShapeIsFixed(after);
    BackfillTwice(BeforeBackfill(tables), order, nextId, now, after, again, nextId', now');
  }

  /** The same of the procedure itself: the second run finds the tables and the foreign keys
      as it wants them and changes neither. */
  method RunUpgradeTwice(bind: Connection, order: seq<int>, nextId: int, now: int, again: seq<int>, nextId': int,
                         now': int)
    returns (once: Outcome<()>, twice: Outcome<()>, ghost tables: Tables, ghost keys: Keys)
    requires bind.Valid() && IsTrialOrder(bind.tables, order)
    requires Distinct(again) && Seen(again) == Seen(order)
    modifies bind
    ensures once.Done? ==> twice.Done? && UpgradeOutcome(old(bind.tables), order, nextId, now) == Done(tables)
    ensures once.Done? ==> bind.tables == tables && bind.keys == keys
  {
    once := RunUpgrade(bind, order, nextId, now);
    tables, keys := bind.tables, bind.keys;
    if once.Raised? {
      return once, once, tables, keys;
    }
    UpgradeUnitesParents(old(bind.tables), order, nextId, now, bind.tables);
    UpgradeTwiceIsOnce(old(bind.tables), order, nextId, now, bind.tables, again, nextId', now');
    twice := RunUpgrade(bind, again, nextId', now');
  }
}
