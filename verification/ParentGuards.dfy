/**
 What makes the upgrade refuse the parent tables it finds, said of the tables themselves: once for each
 starting shape, as an if-and-only-if.
 */
module ParentGuards {
  import opened Catalog
  import opened Folding
  import opened Parents
  import opened ParentUnification
  import opened SchemaUnification
  import Sets
  import Text

  // Rows that name two people.

  /** The row says under its two names that different people terminated it. */
  predicate NamesTwo(row: Row) {
    var former, current := CellAt(row, "terminated_by_recruiter_id"), CellAt(row, "terminated_by_talent_partner_id");
    former != Null && current != Null && former != current
  }

  predicate SomeRowNamesTwo(t: Table) {
    exists id | id in t.rows :: NamesTwo(t.rows[id])
  }

  lemma ConflictMeans(t: Table)
    requires TableOk(t)
    ensures HasConflict(t, RECRUITER, PARTNER) <==> SomeRowNamesTwo(t)
  {
    if HasConflict(t, RECRUITER, PARTNER) {
      var id :| id in t.rows && Conflicting(t.rows[id], RECRUITER, PARTNER);
      assert NamesTwo(t.rows[id]);
    }
    if SomeRowNamesTwo(t) {
      var id :| id in t.rows && NamesTwo(t.rows[id]);
      assert Conflicting(t.rows[id], RECRUITER, PARTNER);
    }
  }

  // Each shape.

  /** With `trials` alone, only a row that names two people is refused. */
  lemma CanonicalBlockedWhen(tables: Tables)
    requires TablesOk(tables) && "trials" in tables && "simulations" !in tables
    ensures UnificationBlocked(tables) <==> SomeRowNamesTwo(tables["trials"])
  {
    ConflictMeans(tables["trials"]);
  }

  /** A cell that the canonical schema has no place for. */
  predicate SomeCellUnknown(t: Table) {
    exists id, column | id in t.rows && column in t.columns ::
      CellAt(t.rows[id], column) != Null && column !in ALLOWLIST && column != "terminated_by_recruiter_id"
  }

  /** With `simulations` alone, so is a cell that would be lost. */
  lemma LegacyBlockedWhen(tables: Tables)
    requires TablesOk(tables) && "trials" !in tables && "simulations" in tables
    ensures UnificationBlocked(tables) <==>
              SomeRowNamesTwo(tables["simulations"]) || SomeCellUnknown(tables["simulations"])
  {
    var t := tables["simulations"];
    ConflictMeans(t);
    if UnknownData(tables) {
      var column :| column in UnknownColumns(tables) && HoldsData(t, column);
      var id :| id in t.rows && CellAt(t.rows[id], column) != Null;
      assert SomeCellUnknown(t);
    }
    if SomeCellUnknown(t) {
      var id, column :| id in t.rows && column in t.columns && CellAt(t.rows[id], column) != Null
        && column !in ALLOWLIST && column != "terminated_by_recruiter_id";
      assert column in UnknownColumns(tables) && HoldsData(t, column);
    }
  }

  /** The canonical table has a place for the column, possibly under its former name. */
  predicate Takes(canonical: Table, column: string) {
    if column == "terminated_by_recruiter_id" || column == "terminated_by_talent_partner_id"
    then "terminated_by_recruiter_id" in canonical.columns || "terminated_by_talent_partner_id" in canonical.columns
    else column in canonical.columns
  }

  /** A legacy cell, or the column of the legacy people, has no place to go. */
  predicate Stranded(legacy: Table, canonical: Table) {
    || ("terminated_by_recruiter_id" in legacy.columns && !Takes(canonical, "terminated_by_recruiter_id"))
    || exists id, column | id in legacy.rows && column in legacy.columns ::
         CellAt(legacy.rows[id], column) != Null && !Takes(canonical, column)
  }

  /** Who terminated it, under either name. */
  function Person(row: Row): Cell {
    if CellAt(row, "terminated_by_talent_partner_id") != Null then CellAt(row, "terminated_by_talent_partner_id")
    else CellAt(row, "terminated_by_recruiter_id")
  }

  predicate HasPerson(t: Table) {
    "terminated_by_recruiter_id" in t.columns || "terminated_by_talent_partner_id" in t.columns
  }

  /** Two rows of one id differ in the person, or in another column the code compares. */
  predicate RowsDiffer(legacy: Table, canonical: Table, id: int)
    requires id in legacy.rows && id in canonical.rows
  {
    || (HasPerson(legacy) && HasPerson(canonical) && Person(legacy.rows[id]) != Person(canonical.rows[id]))
    || exists column | column in COMPARED && column in legacy.columns && column in canonical.columns ::
         column != "id" && column != "terminated_by_talent_partner_id"
         && CellAt(legacy.rows[id], column) != CellAt(canonical.rows[id], column)
  }

  predicate TablesDiffer(legacy: Table, canonical: Table) {
    || legacy.rows.Keys != canonical.rows.Keys
    || exists id | id in legacy.rows && id in canonical.rows :: RowsDiffer(legacy, canonical, id)
  }

  /** The legacy row is to be copied, its status asks for a pointer, and it has none. */
  predicate Needs(legacy: Table, canonical: Table, id: int) {
    && id in legacy.rows && id !in canonical.rows
    && (forall column | column in {"active_scenario_version_id", "status"} ::
          column in legacy.columns && column in canonical.columns)
    && CellAt(legacy.rows[id], "active_scenario_version_id") == Null
    && var status := CellAt(legacy.rows[id], "status");
       status.Text? && Text.Strip(status.s) in {"ready_for_review", "active_inviting", "terminated"}
  }

  predicate IsFirst(row: Row, parent: int) {
    CellAt(row, "version_index") == Num(1)
    && (CellAt(row, "trial_id") == Num(parent) || CellAt(row, "simulation_id") == Num(parent))
  }

  function ScenarioRows(tables: Tables): map<int, Row> {
    if "scenario_versions" in tables then tables["scenario_versions"].rows else map[]
  }

  /** The parent has exactly one version-1 scenario, under either name. */
  predicate HasOneFirst(scenarios: map<int, Row>, parent: int) {
    exists only | only in scenarios :: IsFirst(scenarios[only], parent) &&
      forall id | id in scenarios && IsFirst(scenarios[id], parent) :: id == only
  }

  predicate NamesTwoParents(row: Row) {
    var current, former := CellAt(row, "trial_id"), CellAt(row, "simulation_id");
    current != Null && former != Null && current != former
  }

  /** Some scenario names two different parents. */
  predicate SomeScenarioNamesTwo(scenarios: map<int, Row>) {
    exists id | id in scenarios :: NamesTwoParents(scenarios[id])
  }

  predicate PointerMissing(tables: Tables, legacy: Table, canonical: Table) {
    exists id | id in legacy.rows ::
      Needs(legacy, canonical, id)
          && (SomeScenarioNamesTwo(ScenarioRows(tables)) || !HasOneFirst(ScenarioRows(tables), id))
  }

  lemma TakesMeans(tables: Tables, column: string)
    requires TablesOk(tables) && Split(tables) && column != RECRUITER
    ensures Takes(tables[TRIALS], column) <==> column in CanonicalFolded(tables)[TRIALS].columns
  {
  }

  lemma MappingSafeWhen(tables: Tables)
    requires TablesOk(tables) && Split(tables)
    ensures MappingCheck(CanonicalFolded(tables)).Raised? <==>
              SomeRowNamesTwo(tables["simulations"]) || Stranded(tables["simulations"], tables["trials"])
  {
    var folded, legacy, canonical := CanonicalFolded(tables), tables["simulations"], tables["trials"];
    assert folded[SIMULATIONS] == legacy;
    ConflictMeans(legacy);
    TakesMeans(tables, PARTNER);
    assert Takes(canonical, RECRUITER) <==> Takes(canonical, PARTNER);
    if UnknownData(folded) {
      var column :| column in UnknownColumns(folded) && HoldsData(legacy, column);
      var id :| id in legacy.rows && CellAt(legacy.rows[id], column) != Null;
      TakesMeans(tables, column);
      assert Stranded(legacy, canonical);
    }
    if id, column :| id in legacy.rows && column in legacy.columns && CellAt(legacy.rows[id], column) != Null
                     && !Takes(canonical, column) {
      if column != RECRUITER {
        TakesMeans(tables, column);
        assert column in UnknownColumns(folded) && HoldsData(legacy, column);
      }
    }
  }

  lemma FoldedCell(canonical: Table, id: int, column: string)
    requires TableOk(canonical) && id in canonical.rows && column != RECRUITER
    ensures var folded := Folded(canonical, RECRUITER, PARTNER);
            && id in folded.rows
            && CellAt(folded.rows[id], column) ==
                 (if column == PARTNER then Person(canonical.rows[id]) else CellAt(canonical.rows[id], column))
  {
    assert canonical.rows[id].Keys == canonical.columns;
  }

  lemma RowsDifferMeans(tables: Tables, id: int)
    requires TablesOk(tables) && Split(tables) && MappingCheck(CanonicalFolded(tables)).Done?
    requires id in tables[SIMULATIONS].rows && id in tables[TRIALS].rows
    ensures RowsAgree(CanonicalFolded(tables)[SIMULATIONS], CanonicalFolded(tables)[TRIALS], id)
       <==> !RowsDiffer(tables["simulations"], tables["trials"], id)
  {
    var legacy, canonical, folded := tables["simulations"], tables["trials"], CanonicalFolded(tables)[TRIALS];
    assert PARTNER in COMPARED && PARTNER != "id" && RECRUITER !in COMPARED;
    assert legacy.rows[id].Keys == legacy.columns;
    FoldedCell(canonical, id, PARTNER);
    forall column | column != RECRUITER
      ensures column in folded.columns <==> Takes(canonical, column)
      ensures column != PARTNER ==> CellAt(folded.rows[id], column) == CellAt(canonical.rows[id], column)
    {
      TakesMeans(tables, column);
      FoldedCell(canonical, id, column);
    }
  }

  lemma DivergedMeans(tables: Tables)
    requires TablesOk(tables) && Split(tables) && MappingCheck(CanonicalFolded(tables)).Done?
    requires "id" in tables["simulations"].columns && "id" in tables["trials"].columns
    ensures Diverged(CanonicalFolded(tables)) <==>
              && tables["simulations"].rows != map[] && tables["trials"].rows != map[]
              && TablesDiffer(tables["simulations"], tables["trials"])
  {
    var legacy, canonical, folded := tables["simulations"], tables["trials"], CanonicalFolded(tables)[TRIALS];
    assert folded.rows.Keys == canonical.rows.Keys;
    assert folded.rows == map[] <==> folded.rows.Keys == {};
    assert canonical.rows == map[] <==> canonical.rows.Keys == {};
    forall id | id in legacy.rows && id in canonical.rows
      ensures RowsAgree(legacy, folded, id) <==> !RowsDiffer(legacy, canonical, id)
    {
      RowsDifferMeans(tables, id);
    }
  }

  lemma FirstInMeans(tables: Tables, parent: int, id: int)
    ensures id in FirstIn(tables, parent) <==> id in ScenarioRows(tables) && IsFirst(ScenarioRows(tables)[id], parent)
  {
  }

  lemma NotOneFirst(tables: Tables, parent: int)
    ensures !HasOneFirst(ScenarioRows(tables), parent) <==>
              || FirstIn(tables, parent) == {}
              || exists a, b | a in FirstIn(tables, parent) && b in FirstIn(tables, parent) :: a != b
  {
    var rows, firsts := ScenarioRows(tables), FirstIn(tables, parent);
    forall id ensures id in firsts <==> id in rows && IsFirst(rows[id], parent) {
      FirstInMeans(tables, parent, id);
    }
    if firsts != {} {
      var some := Sets.AnyOf(firsts);
      assert some in rows && IsFirst(rows[some], parent);
    }
  }

  lemma ScenarioConflictMeans(tables: Tables)
    requires TablesOk(tables) && SCENARIOS in tables
    ensures HasConflict(tables[SCENARIOS], "simulation_id", "trial_id") <==> SomeScenarioNamesTwo(ScenarioRows(tables))
  {
    var t := tables[SCENARIOS];
    if HasConflict(t, "simulation_id", "trial_id") {
      var id :| id in t.rows && Conflicting(t.rows[id], "simulation_id", "trial_id");
      assert NamesTwoParents(ScenarioRows(tables)[id]);
    }
    if SomeScenarioNamesTwo(ScenarioRows(tables)) {
      var id :| id in t.rows && NamesTwoParents(t.rows[id]);
      assert Conflicting(t.rows[id], "simulation_id", "trial_id") && t.rows[id].Keys == t.columns;
    }
  }

  lemma UnderivableMeans(tables: Tables, needy: set<int>)
    requires TablesOk(tables)
    ensures Underivable(tables, needy) <==>
              exists id | id in needy ::
                SomeScenarioNamesTwo(ScenarioRows(tables)) || !HasOneFirst(ScenarioRows(tables), id)
  {
    forall id | id in needy
      ensures !HasOneFirst(ScenarioRows(tables), id) <==>
                || FirstIn(tables, id) == {}
                || exists a, b | a in FirstIn(tables, id) && b in FirstIn(tables, id) :: a != b
      ensures !HasParentColumn(tables) ==> FirstIn(tables, id) == {}
    {
      NotOneFirst(tables, id);
      NoColumnNoFirst(tables, id);
    }
    if SCENARIOS in tables {
      ScenarioConflictMeans(tables);
    }
    if needy != {} {
      var some := Sets.AnyOf(needy);
    }
  }

  lemma NeedyMeans(tables: Tables, id: int)
    requires TablesOk(tables) && Split(tables)
    ensures var folded := CanonicalFolded(tables);
            id in Needy(MissingRows(folded[SIMULATIONS], folded[TRIALS])) <==>
                Needs(tables["simulations"], tables["trials"], id)
  {
    var legacy, canonical, folded := tables["simulations"], tables["trials"], CanonicalFolded(tables)[TRIALS];
    var columns := InsertColumns(legacy, folded);
    assert ACTIVE != PARTNER && ACTIVE != RECRUITER && "status" != PARTNER && "status" != RECRUITER;
    assert ACTIVE in columns <==> ACTIVE in legacy.columns && ACTIVE in canonical.columns;
    assert "status" in columns <==> "status" in legacy.columns && "status" in canonical.columns;
    if ACTIVE in columns && "status" in columns && id in legacy.rows {
      SelectedNeeds(legacy.rows[id], columns);
    }
  }

  lemma PointerMissingMeans(tables: Tables)
    requires TablesOk(tables) && Split(tables)
    ensures var folded := CanonicalFolded(tables);
            Underivable(folded, Needy(MissingRows(folded[SIMULATIONS], folded[TRIALS]))) <==>
              PointerMissing(tables, tables["simulations"], tables["trials"])
  {
    var folded := CanonicalFolded(tables);
    var needy := Needy(MissingRows(folded[SIMULATIONS], folded[TRIALS]));
    assert TableOk(folded[TRIALS]);
    UnderivableMeans(folded, needy);
    forall id ensures id in needy <==> Needs(tables["simulations"], tables["trials"], id) {
      NeedyMeans(tables, id);
    }
    assert SCENARIOS != TRIALS;
    assert ScenarioRows(folded) == ScenarioRows(tables);
  }

  /** With both tables: a row of either that names two people, a legacy cell without a place, a table
      without ids, two tables that hold rows and differ, or a copied row whose pointer cannot be told. */
  lemma SplitBlockedWhen(tables: Tables)
    requires TablesOk(tables) && "trials" in tables && "simulations" in tables
    ensures var legacy, canonical := tables["simulations"], tables["trials"];
            UnificationBlocked(tables) <==>
              || SomeRowNamesTwo(canonical) || SomeRowNamesTwo(legacy) || Stranded(legacy, canonical)
              || "id" !in legacy.columns || "id" !in canonical.columns
              || (legacy.rows != map[] && canonical.rows != map[] && TablesDiffer(legacy, canonical))
              || PointerMissing(tables, legacy, canonical)
  {
    var folded := CanonicalFolded(tables);
    ConflictMeans(tables["trials"]);
    MappingSafeWhen(tables);
    PointerMissingMeans(tables);
    assert "id" in InsertColumns(folded[SIMULATIONS], folded[TRIALS]) <==>
           "id" in tables["simulations"].columns && "id" in tables["trials"].columns;
    if MappingCheck(folded).Done? && "id" in tables["simulations"].columns && "id" in tables["trials"].columns {
      DivergedMeans(tables);
    }
  }

  /** A parent row that names two people makes the upgrade raise, in whichever table it is. */
  lemma ConflictingParentRaises(tables: Tables, order: seq<int>, nextId: int, now: int, table: string, id: int)
    requires TablesOk(tables) && (table == "trials" || table == "simulations") && id in RowIds(tables, table)
    requires var row := tables[table].rows[id];
             && CellAt(row, "terminated_by_recruiter_id") != Null
             && CellAt(row, "terminated_by_talent_partner_id") != Null
             && CellAt(row, "terminated_by_recruiter_id") != CellAt(row, "terminated_by_talent_partner_id")
    ensures UpgradeOutcome(tables, order, nextId, now).Raised?
  {
    assert NamesTwo(tables[table].rows[id]);
    if "trials" in tables && "simulations" in tables {
      SplitBlockedWhen(tables);
    } else if "trials" in tables {
      CanonicalBlockedWhen(tables);
    } else {
      LegacyBlockedWhen(tables);
    }
  }
}
