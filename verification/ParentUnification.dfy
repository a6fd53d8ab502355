/**
 The parent half of `run_upgrade`, from any of the three starting shapes, and what it
 conserves.
 */
module ParentUnification {
  import opened Catalog
  import opened Sets
  import opened Folding
  import opened ForeignKeys
  import opened Parents

  function WithoutColumns(t: Table, columns: set<string>): Table {
    Table(t.columns - columns, map id | id in t.rows :: t.rows[id] - columns)
  }

  /** `_drop_columns` */
  method DropColumns(bind: Connection, name: string, columns: set<string>)
    requires bind.Valid() && name in bind.tables && "id" !in columns
    modifies bind
    ensures bind.Valid()
    ensures bind.tables == old(bind.tables)[name := WithoutColumns(old(bind.tables)[name], columns)]
    ensures forall key :: key in bind.KeysOf(name) <==>
              key in old(bind.KeysOf(name)) && forall column | column in columns * Columns(old(bind.tables), name) ::
                  column !in key.shape.local
    ensures forall other | other != name :: bind.KeysOf(other) == old(bind.KeysOf(other))
  {
    var t := bind.tables[name];
    var todo := columns;
    assert forall id | id in t.rows :: t.rows[id] - (columns - todo) == t.rows[id];
    assert WithoutColumns(t, columns - todo) == t;
    assert bind.tables == bind.tables[name := t];
    while todo != {}
      invariant todo <= columns && bind.Valid()
      invariant bind.tables == old(bind.tables)[name := WithoutColumns(t, columns - todo)]
      invariant forall key :: key in bind.KeysOf(name) <==>
                  key in old(bind.KeysOf(name)) && forall column | column in (columns - todo) * t.columns ::
                      column !in key.shape.local
      invariant forall other | other != name :: bind.KeysOf(other) == old(bind.KeysOf(other))
      decreases todo
    {
      var column := NextOf(todo);
      DroppedNext(t, columns - todo, column);
      assert columns - (todo - {column}) == columns - todo + {column};
      if column in bind.tables[name].columns {
        bind.DropColumn(name, column);
      }
      todo := todo - {column};
    }
    assert columns - todo == columns;
  }

  lemma DroppedNext(t: Table, dropped: set<string>, column: string)
    requires TableOk(t)
    ensures WithoutColumn(WithoutColumns(t, dropped), column) == WithoutColumns(t, dropped + {column})
    ensures column !in t.columns || column in dropped ==>
              WithoutColumns(t, dropped + {column}) == WithoutColumns(t, dropped)
  {
    forall id | id in t.rows
      ensures t.rows[id] - dropped - {column} == t.rows[id] - (dropped + {column})
      ensures column !in t.columns || column in dropped ==> t.rows[id] - (dropped + {column}) == t.rows[id] - dropped
    {
    }
  }

  predicate Split(tables: Tables) {
    TRIALS in tables && SIMULATIONS in tables
  }

  function CanonicalFolded(tables: Tables): Tables {
    FoldedIn(tables, TRIALS, RECRUITER, PARTNER)
  }

  /** Both tables hold rows that the guard finds different. */
  predicate Diverged(tables: Tables)
    requires Split(tables)
  {
    && tables[SIMULATIONS].rows != map[] && tables[TRIALS].rows != map[]
    && !SplitIsSafe(tables[SIMULATIONS], tables[TRIALS])
  }

  predicate UnificationBlocked(tables: Tables) {
    if TRIALS in tables then
      || HasConflict(tables[TRIALS], RECRUITER, PARTNER)
      || (SIMULATIONS in tables && (Diverged(CanonicalFolded(tables)) || MergeBlocked(CanonicalFolded(tables))))
    else
      || SIMULATIONS !in tables
      || UnknownData(tables)
      || HasConflict(tables[SIMULATIONS], RECRUITER, PARTNER)
  }

  ghost function Unified(tables: Tables): Tables
    requires TRIALS in tables || SIMULATIONS in tables
  {
    if Split(tables) then CanonicalFolded(tables)[TRIALS := MergedTrials(CanonicalFolded(tables))]
    else if TRIALS in tables then CanonicalFolded(tables)
    else
      (tables - {SIMULATIONS})[TRIALS :=
        WithoutColumns(Folded(tables[SIMULATIONS], RECRUITER, PARTNER), UnknownColumns(tables))]
  }

  const PARTNER_KEY := "fk_trials_terminated_by_talent_partner_id_users"
  const RECRUITER_KEYS :=
      ("fk_trials_terminated_by_recruiter_id_users", "fk_simulations_terminated_by_recruiter_id_users")
  const PENDING_KEYS := ("fk_simulations_pending_scenario_version_id", "fk_trials_pending_scenario_version_id")

  /** The keys after the mapped column is folded. A column that is renamed takes along the name of
      its key to the users, under whichever old name there is. */
  function MappedKeys(tables: Tables, keys: Keys): Keys {
    var folded := FoldedKeys(tables, keys, TRIALS, RECRUITER, PARTNER);
    if RECRUITER in Columns(tables, TRIALS) && PARTNER !in Columns(tables, TRIALS) then
      var former := if Free(KeysIn(folded, TRIALS), RECRUITER_KEYS.0) then RECRUITER_KEYS.1 else RECRUITER_KEYS.0;
      NameMoved(folded, TRIALS, former, PARTNER_KEY)
    else folded
  }

  /** `_canonicalize_parent_legacy_mapped_columns` */
  method FoldMappedColumn(bind: Connection) returns (r: Outcome<()>)
    requires bind.Valid()
    modifies bind
    ensures bind.Valid()
    ensures r.Raised? <==> TRIALS in old(bind.tables) && HasConflict(old(bind.tables)[TRIALS], RECRUITER, PARTNER)
    ensures bind.tables == if r.Done? then CanonicalFolded(old(bind.tables)) else old(bind.tables)
    ensures bind.keys == if r.Done? then MappedKeys(old(bind.tables), old(bind.keys)) else old(bind.keys)
  {
    var renames := RECRUITER in Columns(bind.tables, TRIALS) && PARTNER !in Columns(bind.tables, TRIALS);
    r := FoldColumn(bind, TRIALS, RECRUITER, PARTNER, MappedValuesConflict);
    if r.Done? && renames {
      var former := if Free(bind.KeysOf(TRIALS), RECRUITER_KEYS.0) then RECRUITER_KEYS.1 else RECRUITER_KEYS.0;
      MoveName(bind, TRIALS, former, PARTNER_KEY);
    }
  }

  /** The first part of `run_upgrade`. */
  method UnifyParents(bind: Connection) returns (r: Outcome<()>)
    requires bind.Valid()
    modifies bind
    ensures bind.Valid()
    ensures r.Raised? <==> UnificationBlocked(old(bind.tables))
    ensures r.Done? ==> bind.tables == Unified(old(bind.tables))
    ensures r.Done? && TRIALS in old(bind.tables) ==> bind.keys == MappedKeys(old(bind.tables), old(bind.keys))
  {
    var hasCanonical, hasLegacy := TRIALS in bind.tables, SIMULATIONS in bind.tables;
    if !hasCanonical && !hasLegacy {
      return Raised(NoParentTable);
    }
    if hasCanonical {
      r := FoldMappedColumn(bind);
      if r.Raised? {
        return;
      }
    }
    if hasCanonical && hasLegacy {
      if bind.tables[TRIALS].rows == map[] && bind.tables[SIMULATIONS].rows != map[] {
        // `_repair_split_parent_when_canonical_empty`
        r := MergeMissingRows(bind);
      } else {
        r := CheckSplit(bind);
        if r.Raised? {
          return;
        }
        r := MergeMissingRows(bind);
      }
    } else if hasLegacy {
      if UnknownData(bind.tables) {
        return Raised(UnknownColumnHoldsData);
      }
      var unknown := UnknownColumns(bind.tables);
      bind.RenameTable(SIMULATIONS, TRIALS);
      MoveName(bind, TRIALS, PENDING_KEYS.0, PENDING_KEYS.1);
      r := FoldMappedColumn(bind);
      if r.Raised? {
        return;
      }
      DropColumns(bind, TRIALS, unknown);
    }
  }

  // What the unification conserves.

  /** The parent table's ids are those of both tables. */
  lemma IdsAreTheUnion(tables: Tables)
    requires TablesOk(tables) && !UnificationBlocked(tables)
    ensures TRIALS in Unified(tables)
    ensures RowIds(Unified(tables), TRIALS) == RowIds(tables, TRIALS) + RowIds(tables, SIMULATIONS)
  {
  }

  /** Rows that were canonical already keep every cell; the mapped column takes whichever of
      its two names was not null. */
  lemma CanonicalCellsKept(tables: Tables, id: int, column: string)
    requires TablesOk(tables) && !UnificationBlocked(tables)
    requires id in RowIds(tables, TRIALS) && column in tables[TRIALS].columns
    ensures var was, became := tables[TRIALS].rows[id], Unified(tables)[TRIALS].rows[id];
            if column == RECRUITER || column == PARTNER
            then CellAt(became, PARTNER) == Either(was, PARTNER, RECRUITER)
            else CellAt(became, column) == CellAt(was, column)
  {
  }

  /** Every legacy cell the code compares or copies survives: the mapped pair under its canonical
      name, a null active pointer possibly filled, and a column that vanished only if it held
      nothing. Shared columns outside `COMPARED` are not compared for rows both tables had. */
  ghost predicate CellSurvives(was: Row, became: Row, column: string, columns: set<string>, copied: bool) {
    if column == RECRUITER || column == PARTNER then CellAt(became, PARTNER) == Either(was, PARTNER, RECRUITER)
    else if column !in columns then CellAt(was, column) == Null
    else if column in COMPARED || copied then
      CellAt(became, column) == CellAt(was, column) || (column == ACTIVE && CellAt(was, column) == Null)
    else true
  }

  lemma LegacyCellsKept(tables: Tables, id: int, column: string)
    requires TablesOk(tables) && !UnificationBlocked(tables)
    requires id in RowIds(tables, SIMULATIONS) && column in tables[SIMULATIONS].columns
    ensures id in RowIds(Unified(tables), TRIALS)
    ensures CellSurvives(tables[SIMULATIONS].rows[id], Unified(tables)[TRIALS].rows[id], column,
                         Unified(tables)[TRIALS].columns, id !in RowIds(tables, TRIALS))
  {
    if TRIALS !in tables {
      RenamedCellsKept(tables, id, column);
    } else if id in RowIds(tables, TRIALS) {
      ComparedCellsKept(tables, id, column);
    } else {
      CopiedCellsKept(tables, id, column);
    }
  }

  /** A legacy column that no canonical column takes up is null throughout. */
  lemma UnknownIsNull(tables: Tables, id: int, column: string)
    requires SIMULATIONS in tables && !UnknownData(tables) && id in tables[SIMULATIONS].rows
    requires column in UnknownColumns(tables)
    ensures CellAt(tables[SIMULATIONS].rows[id], column) == Null
  {
    assert !HoldsData(tables[SIMULATIONS], column);
  }

  lemma RenamedCellsKept(tables: Tables, id: int, column: string)
    requires TablesOk(tables) && !UnificationBlocked(tables) && TRIALS !in tables
    requires id in RowIds(tables, SIMULATIONS) && column in tables[SIMULATIONS].columns
    ensures CellSurvives(tables[SIMULATIONS].rows[id], Unified(tables)[TRIALS].rows[id], column,
                         Unified(tables)[TRIALS].columns, true)
  {
    assert PARTNER in ALLOWLIST;
    if column in UnknownColumns(tables) {
      UnknownIsNull(tables, id, column);
    }
  }

  lemma ComparedCellsKept(tables: Tables, id: int, column: string)
    requires TablesOk(tables) && !UnificationBlocked(tables) && Split(tables)
    requires id in RowIds(tables, SIMULATIONS) && id in RowIds(tables, TRIALS)
    requires column in tables[SIMULATIONS].columns
    ensures CellSurvives(tables[SIMULATIONS].rows[id], Unified(tables)[TRIALS].rows[id], column,
                         Unified(tables)[TRIALS].columns, false)
  {
    var folded := CanonicalFolded(tables);
    assert !Diverged(folded);
    assert RowsAgree(folded[SIMULATIONS], folded[TRIALS], id);
    if column in UnknownColumns(folded) {
      UnknownIsNull(folded, id, column);
    }
    assert PARTNER in COMPARED;
  }

  /** The row the merge inserts for a legacy row. */
  lemma InsertedRow(tables: Tables, id: int)
    requires Split(tables) && id in tables[SIMULATIONS].rows && id !in tables[TRIALS].rows
    ensures MergedTrials(tables).rows[id] ==
            Widened(WithActive(tables, SelectedRow(tables[SIMULATIONS].rows[id],
                                                   InsertColumns(tables[SIMULATIONS], tables[TRIALS])), id),
                    tables[TRIALS].columns)
  {
    var missing := MissingRows(tables[SIMULATIONS], tables[TRIALS]);
    assert id in missing;
  }

  lemma WithActiveCell(tables: Tables, row: Row, id: int, column: string)
    ensures CellAt(WithActive(tables, row, id), column) == CellAt(row, column)
         || (column == ACTIVE && CellAt(row, column) == Null)
  {
  }

  lemma CopiedCell(tables: Tables, id: int, column: string)
    requires TablesOk(tables) && Split(tables) && MappingCheck(tables).Done?
    requires id in tables[SIMULATIONS].rows && id !in tables[TRIALS].rows
    requires column in tables[SIMULATIONS].columns && RECRUITER !in tables[TRIALS].columns
    ensures CellSurvives(tables[SIMULATIONS].rows[id], MergedTrials(tables).rows[id], column,
                         tables[TRIALS].columns, true)
  {
    var row, columns := tables[SIMULATIONS].rows[id], tables[TRIALS].columns;
    assert row.Keys == tables[SIMULATIONS].columns;
    var selected := SelectedRow(row, InsertColumns(tables[SIMULATIONS], tables[TRIALS]));
    InsertedRow(tables, id);
    var inserted := WithActive(tables, selected, id);
    if column !in columns && column != RECRUITER {
      UnknownIsNull(tables, id, column);
    }
    if column == RECRUITER || column == PARTNER {
      WithActiveCell(tables, selected, id, PARTNER);
      assert PARTNER in columns ==> CellAt(selected, PARTNER) == Either(row, PARTNER, RECRUITER);
      assert CellAt(Widened(inserted, columns), PARTNER) == Either(row, PARTNER, RECRUITER);
    } else if column in columns {
      WithActiveCell(tables, selected, id, column);
      assert CellAt(selected, column) == CellAt(row, column);
    }
  }

  lemma CopiedCellsKept(tables: Tables, id: int, column: string)
    requires TablesOk(tables) && !UnificationBlocked(tables) && Split(tables)
    requires id in RowIds(tables, SIMULATIONS) && id !in RowIds(tables, TRIALS)
    requires column in tables[SIMULATIONS].columns
    ensures CellSurvives(tables[SIMULATIONS].rows[id], Unified(tables)[TRIALS].rows[id], column,
                         Unified(tables)[TRIALS].columns, true)
  {
    assert TableOk(CanonicalFolded(tables)[TRIALS]);
    CopiedCell(CanonicalFolded(tables), id, column);
  }

  /** What can be derived is the one version-1 scenario. */
  lemma DerivableHasOneFirst(tables: Tables, needy: set<int>, id: int)
    requires TablesOk(tables) && !Underivable(tables, needy) && id in needy
    ensures exists scenario :: FirstIn(tables, id) == {scenario}
  {
    assert FirstIn(tables, id) != {};
    var scenario := AnyOf(FirstIn(tables, id));
    NoColumnNoFirst(tables, id);
    assert forall other | other in FirstIn(tables, id) :: other == scenario;
    assert FirstIn(tables, id) == {scenario};
  }

  lemma ActiveOfOneFirst(tables: Tables, row: Row, id: int, scenario: int)
    requires NeedsActive(row) && FirstIn(tables, id) == {scenario}
    ensures WithActive(tables, row, id) == row[ACTIVE := Num(scenario)]
  {
    assert AnyOf(FirstIn(tables, id)) in {scenario};
  }

  /** The pointer of an inserted row. */
  lemma InsertedPointer(tables: Tables, id: int)
    requires TablesOk(tables) && Split(tables)
    requires id in tables[SIMULATIONS].rows && id !in tables[TRIALS].rows && ACTIVE in tables[TRIALS].columns
    requires !Underivable(tables, Needy(MissingRows(tables[SIMULATIONS], tables[TRIALS])))
    ensures var m := SelectedRow(tables[SIMULATIONS].rows[id], InsertColumns(tables[SIMULATIONS], tables[TRIALS]));
            var became := MergedTrials(tables).rows[id];
            if NeedsActive(m)
            then exists scenario :: FirstIn(tables, id) == {scenario} && CellAt(became, ACTIVE) == Num(scenario)
            else CellAt(became, ACTIVE) == CellAt(m, ACTIVE)
  {
    var missing := MissingRows(tables[SIMULATIONS], tables[TRIALS]);
    InsertedRow(tables, id);
    if NeedsActive(missing[id]) {
      DerivableHasOneFirst(tables, Needy(missing), id);
      var scenario :| FirstIn(tables, id) == {scenario};
      ActiveOfOneFirst(tables, missing[id], id, scenario);
    }
  }

  lemma SelectedNeeds(row: Row, columns: set<string>)
    requires ACTIVE in columns && "status" in columns
    ensures CellAt(SelectedRow(row, columns), ACTIVE) == CellAt(row, ACTIVE)
    ensures NeedsActive(SelectedRow(row, columns)) <==>
              CellAt(row, ACTIVE) == Null && StatusRequiresActive(CellAt(row, "status"))
  {
    assert ACTIVE != PARTNER && "status" != PARTNER;
  }

  /** A pointer the merge filled names the one version-1 scenario of that same parent, and no
      row whose status requires a pointer is inserted without one. */
  lemma {:induction false} FilledPointerIsFirstScenario(tables: Tables, id: int)
    requires TablesOk(tables) && !UnificationBlocked(tables)
    requires Split(tables) && id in RowIds(tables, SIMULATIONS) && id !in RowIds(tables, TRIALS)
    requires ACTIVE in tables[SIMULATIONS].columns && ACTIVE in tables[TRIALS].columns
    requires "status" in tables[SIMULATIONS].columns && "status" in tables[TRIALS].columns
    ensures var was, became := tables[SIMULATIONS].rows[id], Unified(tables)[TRIALS].rows[id];
            if CellAt(was, ACTIVE) == Null && StatusRequiresActive(CellAt(was, "status"))
            then exists scenario :: FirstIn(tables, id) == {scenario} && CellAt(became, ACTIVE) == Num(scenario)
            else CellAt(became, ACTIVE) == CellAt(was, ACTIVE)
  {
    var folded := CanonicalFolded(tables);
    SelectedNeeds(tables[SIMULATIONS].rows[id], InsertColumns(folded[SIMULATIONS], folded[TRIALS]));
    assert FirstIn(folded, id) == FirstIn(tables, id);
    InsertedPointer(folded, id);
  }
}
