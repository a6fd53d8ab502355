/**
 How the migration turns `trials` and `simulations` into one parent table: the guards for a
 split schema, the merge of legacy rows, and the rename when only the legacy table exists.
 */
module Parents {
  import opened Catalog
  import opened Sets
  import opened Folding
  import Text

  const TRIALS := "trials"
  const SIMULATIONS := "simulations"
  const SCENARIOS := "scenario_versions"

  const RECRUITER := "terminated_by_recruiter_id"
  const PARTNER := "terminated_by_talent_partner_id"
  const ACTIVE := "active_scenario_version_id"

  const ALLOWLIST: set<string> := {
    "id", "company_id", "title", "role", "tech_stack", "seniority", "scenario_template", "template_key",
    "focus", "company_context", "ai_prompt_overrides_json", "ai_notice_version", "ai_notice_text",
    "ai_eval_enabled_by_day", "day_window_start_local", "day_window_end_local",
    "day_window_overrides_enabled", "day_window_overrides_json", "created_by", "status",
    "active_scenario_version_id", "pending_scenario_version_id", "generating_at", "ready_for_review_at",
    "activated_at", "terminated_at", "terminated_reason", "terminated_by_talent_partner_id", "created_at"
  }

  const COMPARED: seq<string> := [
    "id", "company_id", "title", "role", "tech_stack", "seniority", "scenario_template", "template_key",
    "focus", "created_by", "status", "active_scenario_version_id", "pending_scenario_version_id",
    "generating_at", "ready_for_review_at", "activated_at", "terminated_at", "terminated_reason",
    "terminated_by_talent_partner_id"
  ]

  const ACTIVE_REQUIRED: set<string> := {"ready_for_review", "active_inviting", "terminated"}

  // Guards.

  predicate HoldsData(t: Table, column: string) {
    exists id | id in t.rows :: CellAt(t.rows[id], column) != Null
  }

  function UnknownColumns(tables: Tables): set<string>
    requires SIMULATIONS in tables
  {
    var known := if TRIALS in tables then tables[TRIALS].columns else ALLOWLIST;
    set column | column in tables[SIMULATIONS].columns && column !in known && column != RECRUITER
  }

  predicate UnknownData(tables: Tables)
    requires SIMULATIONS in tables
  {
    exists column | column in UnknownColumns(tables) :: HoldsData(tables[SIMULATIONS], column)
  }

  /** `_assert_split_parent_mapping_is_safe` */
  function MappingCheck(tables: Tables): Outcome<()>
    requires TRIALS in tables && SIMULATIONS in tables
  {
    if RECRUITER in tables[SIMULATIONS].columns && PARTNER !in tables[TRIALS].columns then Raised(MappingTargetMissing)
    else if HasConflict(tables[SIMULATIONS], RECRUITER, PARTNER) then Raised(MappedValuesConflict)
    else if UnknownData(tables) then Raised(UnknownColumnHoldsData)
    else Done(())
  }

  predicate Mapped(legacy: Table, canonical: Table) {
    RECRUITER in legacy.columns && PARTNER in canonical.columns
  }

  predicate IsCompared(column: string, legacy: Table, canonical: Table) {
    && column in COMPARED && column in legacy.columns && column in canonical.columns
    && !(column == PARTNER && Mapped(legacy, canonical))
  }

  /** Two rows agree on every compared column and on the mapped one. */
  predicate RowsAgree(legacy: Table, canonical: Table, id: int)
    requires id in legacy.rows && id in canonical.rows
  {
    && (forall column | column in COMPARED && column != "id" && IsCompared(column, legacy, canonical) ::
          CellAt(legacy.rows[id], column) == CellAt(canonical.rows[id], column))
    && (Mapped(legacy, canonical) ==>
          Either(legacy.rows[id], PARTNER, RECRUITER) == CellAt(canonical.rows[id], PARTNER))
  }

  predicate SplitIsSafe(legacy: Table, canonical: Table) {
    && "id" in legacy.columns && "id" in canonical.columns
    && legacy.rows.Keys == canonical.rows.Keys
    && forall id | id in legacy.rows.Keys && id in canonical.rows.Keys :: RowsAgree(legacy, canonical, id)
  }

  /** `_assert_safe_split_parent_state`, for tables that both hold rows. */
  method CheckSplit(bind: Connection) returns (r: Outcome<()>)
    requires TRIALS in bind.tables && SIMULATIONS in bind.tables
    ensures r.Done? <==>
            || bind.tables[SIMULATIONS].rows == map[] || bind.tables[TRIALS].rows == map[]
            || (MappingCheck(bind.tables).Done? && SplitIsSafe(bind.tables[SIMULATIONS], bind.tables[TRIALS]))
  {
    var legacy, canonical := bind.tables[SIMULATIONS], bind.tables[TRIALS];
    if legacy.rows == map[] || canonical.rows == map[] {
      return Done(());
    }
    r := MappingCheck(bind.tables);
    if r.Raised? {
      return;
    }
    if "id" !in legacy.columns || "id" !in canonical.columns {
      return Raised(IdColumnMissing);
    }
    if legacy.rows.Keys != canonical.rows.Keys {
      return Raised(DifferentPrimaryKeys);
    }
    var todo := legacy.rows.Keys;
    while todo != {}
      invariant todo <= legacy.rows.Keys
      invariant forall id | id in legacy.rows.Keys - todo && id in canonical.rows :: RowsAgree(legacy, canonical, id)
      decreases todo
    {
      var id := NextOf(todo);
      for i := 0 to |COMPARED|
        invariant forall j | 0 <= j < i && COMPARED[j] != "id" && IsCompared(COMPARED[j], legacy, canonical) ::
                    CellAt(legacy.rows[id], COMPARED[j]) == CellAt(canonical.rows[id], COMPARED[j])
      {
        var column := COMPARED[i];
        if column != "id" && IsCompared(column, legacy, canonical)
           && CellAt(legacy.rows[id], column) != CellAt(canonical.rows[id], column) {
          assert !RowsAgree(legacy, canonical, id);
          return Raised(DivergentRows);
        }
      }
      if Mapped(legacy, canonical)
         && Either(legacy.rows[id], PARTNER, RECRUITER) != CellAt(canonical.rows[id], PARTNER) {
        assert !RowsAgree(legacy, canonical, id);
        return Raised(DivergentRows);
      }
      todo := todo - {id};
    }
    return Done(());
  }

  // Deriving the pointer a merged row must have.

  predicate StatusRequiresActive(status: Cell) {
    status.Text? && Text.Strip(status.s) in ACTIVE_REQUIRED
  }

  /** The version-1 scenarios that name `parent` under either column. */
  function FirstScenarios(scenarios: Table, parent: int): set<int> {
    set id | id in scenarios.rows && IsFirstScenarioOf(scenarios.rows[id], parent)
  }

  predicate IsFirstScenarioOf(row: Row, parent: int) {
    && CellAt(row, "version_index") == Num(1)
    && (CellAt(row, "trial_id") == Num(parent) || CellAt(row, "simulation_id") == Num(parent))
  }

  predicate HasParentColumn(tables: Tables) {
    SCENARIOS in tables && ("trial_id" in tables[SCENARIOS].columns || "simulation_id" in tables[SCENARIOS].columns)
  }

  predicate Ambiguous(tables: Tables, parents: set<int>)
    requires SCENARIOS in tables
  {
    exists parent | parent in parents ::
      exists a, b | a in FirstScenarios(tables[SCENARIOS], parent) && b in FirstScenarios(tables[SCENARIOS], parent) ::
          a != b
  }

  /** The answer is right for every parent asked about: the one scenario there is, or none. */
  predicate DerivesFirst(tables: Tables, parents: set<int>, found: map<int, int>) {
    if HasParentColumn(tables)
    then
      && !Ambiguous(tables, parents)
      && found.Keys == (set parent | parent in parents && FirstScenarios(tables[SCENARIOS], parent) != {})
      && forall parent | parent in found :: FirstScenarios(tables[SCENARIOS], parent) == {found[parent]}
    else found == map[]
  }

  function Extended(found: map<int, set<int>>, named: set<int>, id: int): map<int, set<int>> {
    map parent | parent in found.Keys + named ::
      (if parent in found then found[parent] else {}) + (if parent in named then {id} else {})
  }

  lemma GatheredNext(scenarios: Table, seen: set<int>, id: int, parent: int)
    requires id in scenarios.rows
    ensures Gathered(scenarios, seen + {id}, parent)
         == Gathered(scenarios, seen, parent) + if IsFirstScenarioOf(scenarios.rows[id], parent) then {id} else {}
  {
  }

  lemma CollectedNext(scenarios: Table, parents: set<int>, seen: set<int>, found: map<int, set<int>>, id: int,
                      named: set<int>)
    requires id in scenarios.rows && Collected(scenarios, parents, seen, found)
    requires named == set parent | parent in parents && IsFirstScenarioOf(scenarios.rows[id], parent)
    ensures Collected(scenarios, parents, seen + {id}, Extended(found, named, id))
  {
    forall parent | parent in parents
      ensures Gathered(scenarios, seen + {id}, parent) == Gathered(scenarios, seen, parent)
                + if parent in named then {id} else {}
    {
      GatheredNext(scenarios, seen, id, parent);
    }
  }

  /** One pass over the matching rows collects the scenario ids of each parent. */
  method CollectFirst(scenarios: Table, parents: set<int>) returns (found: map<int, set<int>>)
    ensures found.Keys == set parent | parent in parents && FirstScenarios(scenarios, parent) != {}
    ensures forall parent | parent in found :: found[parent] == FirstScenarios(scenarios, parent)
  {
    found := map[];
    var todo := scenarios.rows.Keys;
    while todo != {}
      invariant todo <= scenarios.rows.Keys
      invariant Collected(scenarios, parents, scenarios.rows.Keys - todo, found)
      decreases todo
    {
      var id := NextOf(todo);
      var named := set parent | parent in parents && IsFirstScenarioOf(scenarios.rows[id], parent);
      CollectedNext(scenarios, parents, scenarios.rows.Keys - todo, found, id, named);
      assert scenarios.rows.Keys - (todo - {id}) == scenarios.rows.Keys - todo + {id};
      found := Extended(found, named, id);
      todo := todo - {id};
    }
    assert scenarios.rows.Keys - todo == scenarios.rows.Keys;
    forall parent | parent in parents
        ensures Gathered(scenarios, scenarios.rows.Keys, parent) == FirstScenarios(scenarios, parent) {
    }
  }

  /** The only scenario of each parent. */
  method OnlyFirst(found: map<int, set<int>>) returns (chosen: map<int, int>)
    requires forall parent | parent in found :: found[parent] != {}
    requires forall parent, a, b | parent in found && a in found[parent] && b in found[parent] :: a == b
    ensures chosen.Keys == found.Keys && forall parent | parent in chosen :: found[parent] == {chosen[parent]}
  {
    chosen := map[];
    var left := found.Keys;
    while left != {}
      invariant left <= found.Keys
      invariant chosen.Keys == found.Keys - left
      invariant forall parent | parent in chosen :: found[parent] == {chosen[parent]}
      decreases left
    {
      var parent := NextOf(left);
      var only := NextOf(found[parent]);
      forall id | id in found[parent] ensures id == only {
        assert only in found[parent] && parent in found;
      }
      assert found[parent] == {only};
      chosen := chosen[parent := only];
      left := left - {parent};
    }
  }

  /** `_derive_version_one_scenario_ids_for_parent_ids` */
  method DeriveFirstScenarios(bind: Connection, parents: set<int>) returns (r: Outcome<map<int, int>>)
    ensures r.Done? ==> if parents == {} then r.value == map[] else DerivesFirst(bind.tables, parents, r.value)
    ensures r.Raised? <==>
            && parents != {} && HasParentColumn(bind.tables)
            && (|| HasConflict(bind.tables[SCENARIOS], "simulation_id", "trial_id")
                || "version_index" !in bind.tables[SCENARIOS].columns
                || Ambiguous(bind.tables, parents))
  {
    if parents == {} || !HasParentColumn(bind.tables) {
      return Done(map[]);
    }
    var scenarios := bind.tables[SCENARIOS];
    if HasConflict(scenarios, "simulation_id", "trial_id") {
      return Raised(ParentColumnsConflict);
    }
    if "version_index" !in scenarios.columns {
      return Raised(ColumnMissing);
    }
    var found := CollectFirst(scenarios, parents);
    if Ambiguous(bind.tables, parents) {
      return Raised(SeveralFirstScenarios);
    }
    var chosen := OnlyFirst(found);
    return Done(chosen);
  }

  function Gathered(scenarios: Table, seen: set<int>, parent: int): set<int> {
    set id | id in seen && id in scenarios.rows && IsFirstScenarioOf(scenarios.rows[id], parent)
  }

  predicate Collected(scenarios: Table, parents: set<int>, seen: set<int>, found: map<int, set<int>>) {
    && found.Keys == (set parent | parent in parents && Gathered(scenarios, seen, parent) != {})
    && forall parent | parent in found :: found[parent] == Gathered(scenarios, seen, parent)
  }

  // Merging the legacy rows the canonical table lacks.

  function FirstIn(tables: Tables, parent: int): set<int> {
    if SCENARIOS in tables then FirstScenarios(tables[SCENARIOS], parent) else {}
  }

  function InsertColumns(legacy: Table, canonical: Table): set<string> {
    set column | column in canonical.columns
      && (column in legacy.columns || (column == PARTNER && RECRUITER in legacy.columns))
  }

  /** The row the SELECT yields for one legacy row. */
  function SelectedRow(row: Row, columns: set<string>): Row {
    map column | column in columns ::
      if column == PARTNER then Either(row, PARTNER, RECRUITER) else CellAt(row, column)
  }

  function MissingRows(legacy: Table, canonical: Table): map<int, Row> {
    map id | id in legacy.rows && id !in canonical.rows ::
      SelectedRow(legacy.rows[id], InsertColumns(legacy, canonical))
  }

  predicate NeedsActive(row: Row) {
    && ACTIVE in row && "status" in row
    && row[ACTIVE] == Null && StatusRequiresActive(row["status"])
  }

  function Needy(rows: map<int, Row>): set<int> {
    set id | id in rows && NeedsActive(rows[id])
  }

  /** Why the pointers of the rows to insert cannot be derived. */
  predicate Underivable(tables: Tables, needy: set<int>) {
    && needy != {}
    && (|| (HasParentColumn(tables)
            && (HasConflict(tables[SCENARIOS], "simulation_id", "trial_id") || Ambiguous(tables, needy)))
        || exists id | id in needy :: FirstIn(tables, id) == {})
  }

  ghost function WithActive(tables: Tables, row: Row, id: int): Row {
    if NeedsActive(row) && FirstIn(tables, id) != {} then row[ACTIVE := Num(AnyOf(FirstIn(tables, id)))] else row
  }

  function FilledRow(row: Row, id: int, derived: map<int, int>): Row {
    if NeedsActive(row) && id in derived then row[ACTIVE := Num(derived[id])] else row
  }

  /** The second loop of `_populate_required_active_scenario_ids_for_merge`, row dict by row dict. */
  method FillRows(rows: map<int, Row>, derived: map<int, int>) returns (filled: map<int, Row>, unresolved: set<int>)
    ensures filled == map id | id in rows :: FilledRow(rows[id], id, derived)
    ensures unresolved == Needy(rows) - derived.Keys
  {
    filled, unresolved := rows, {};
    var todo := rows.Keys;
    while todo != {}
      invariant todo <= rows.Keys == filled.Keys
      invariant forall id | id in rows :: filled[id] == if id in todo then rows[id]
                  else FilledRow(rows[id], id, derived)
      invariant unresolved == Needy(rows) - derived.Keys - todo
      decreases todo
    {
      var id := NextOf(todo);
      if NeedsActive(rows[id]) {
        if id in derived {
          filled := filled[id := filled[id][ACTIVE := Num(derived[id])]];
        } else {
          unresolved := unresolved + {id};
        }
      }
      todo := todo - {id};
    }
  }

  /** `_populate_required_active_scenario_ids_for_merge` */
  method PopulateActive(bind: Connection, rows: map<int, Row>) returns (r: Outcome<map<int, Row>>)
    requires bind.Valid()
    ensures r.Raised? <==> Underivable(bind.tables, Needy(rows))
    ensures r.Done? ==> r.value == map id | id in rows :: WithActive(bind.tables, rows[id], id)
  {
    var needy := Needy(rows);
    var derived := DeriveFirstScenarios(bind, needy);
    if derived.Raised? {
      DerivationRaises(bind.tables, needy);
      return Raised(derived.failure);
    }
    var filled, unresolved := FillRows(rows, derived.value);
    DerivedIsFirst(bind.tables, needy, derived.value);
    if unresolved != {} {
      return Raised(NoFirstScenario);
    }
    FilledIsWithActive(bind.tables, rows, derived.value);
    return Done(filled);
  }

  lemma NoColumnNoFirst(tables: Tables, parent: int)
    requires TablesOk(tables)
    ensures !HasParentColumn(tables) ==> FirstIn(tables, parent) == {}
    ensures SCENARIOS in tables && "version_index" !in tables[SCENARIOS].columns ==> FirstIn(tables, parent) == {}
  {
    if FirstIn(tables, parent) != {} {
      var id := AnyOf(FirstIn(tables, parent));
      assert tables[SCENARIOS].rows[id].Keys == tables[SCENARIOS].columns;
    }
  }

  lemma DerivationRaises(tables: Tables, needy: set<int>)
    requires TablesOk(tables) && needy != {} && HasParentColumn(tables)
    requires || HasConflict(tables[SCENARIOS], "simulation_id", "trial_id")
             || "version_index" !in tables[SCENARIOS].columns
             || Ambiguous(tables, needy)
    ensures Underivable(tables, needy)
  {
    var id := AnyOf(needy);
    NoColumnNoFirst(tables, id);
  }

  lemma DerivedIsFirst(tables: Tables, needy: set<int>, derived: map<int, int>)
    requires TablesOk(tables)
    requires if needy == {} then derived == map[] else DerivesFirst(tables, needy, derived)
    requires needy != {} && HasParentColumn(tables) ==> !HasConflict(tables[SCENARIOS], "simulation_id", "trial_id")
    ensures derived.Keys == set id | id in needy && FirstIn(tables, id) != {}
    ensures forall id | id in derived :: FirstIn(tables, id) == {derived[id]}
    ensures needy - derived.Keys != {} <==> Underivable(tables, needy)
  {
    forall id | id in needy && !HasParentColumn(tables) ensures FirstIn(tables, id) == {} {
      NoColumnNoFirst(tables, id);
    }
    if needy - derived.Keys != {} {
      var id := AnyOf(needy - derived.Keys);
      assert id in needy && FirstIn(tables, id) == {};
    } else {
      forall id | id in needy ensures FirstIn(tables, id) != {} {
        assert id !in needy - derived.Keys;
      }
    }
  }

  lemma FilledIsWithActive(tables: Tables, rows: map<int, Row>, derived: map<int, int>)
    requires derived.Keys == set id | id in Needy(rows) && FirstIn(tables, id) != {}
    requires forall id | id in derived :: FirstIn(tables, id) == {derived[id]}
    ensures (map id | id in rows :: FilledRow(rows[id], id, derived))
         == (map id | id in rows :: WithActive(tables, rows[id], id))
  {
    forall id | id in rows ensures FilledRow(rows[id], id, derived) == WithActive(tables, rows[id], id) {
      if NeedsActive(rows[id]) && FirstIn(tables, id) != {} {
        assert id in derived;
        assert AnyOf(FirstIn(tables, id)) in {derived[id]};
      }
    }
  }

  predicate MergeBlocked(tables: Tables)
    requires TRIALS in tables && SIMULATIONS in tables
  {
    || MappingCheck(tables).Raised?
    || "id" !in InsertColumns(tables[SIMULATIONS], tables[TRIALS])
    || Underivable(tables, Needy(MissingRows(tables[SIMULATIONS], tables[TRIALS])))
  }

  /** A new row has a cell for every column of its table; those not given are null. */
  function Widened(row: Row, columns: set<string>): Row {
    map column | column in columns :: CellAt(row, column)
  }

  function WithRows(t: Table, rows: map<int, Row>): Table {
    Table(t.columns, t.rows + map id | id in rows :: Widened(rows[id], t.columns))
  }

  ghost function MergedTrials(tables: Tables): Table
    requires TRIALS in tables && SIMULATIONS in tables
  {
    var missing := MissingRows(tables[SIMULATIONS], tables[TRIALS]);
    WithRows(tables[TRIALS], map id | id in missing :: WithActive(tables, missing[id], id))
  }

  method InsertRows(bind: Connection, name: string, rows: map<int, Row>)
    requires bind.Valid() && name in bind.tables && TableOk(WithRows(bind.tables[name], rows))
    modifies bind`tables
    ensures bind.Valid()
    ensures bind.tables == old(bind.tables)[name := WithRows(old(bind.tables)[name], rows)]
  {
    bind.tables := bind.tables[name := WithRows(bind.tables[name], rows)];
  }

  lemma WithRowsOk(t: Table, rows: map<int, Row>)
    requires TableOk(t) && forall id | id in rows :: CellAt(rows[id], "id") == Num(id)
    ensures TableOk(WithRows(t, rows))
  {
    var wide := WithRows(t, rows);
    forall id | id in wide.rows
      ensures wide.rows[id].Keys == wide.columns && ("id" in wide.columns ==> wide.rows[id]["id"] == Num(id))
    {
      if id in rows {
        assert wide.rows[id] == Widened(rows[id], t.columns);
      } else {
        assert wide.rows[id] == t.rows[id];
      }
    }
  }

  /** A row to insert carries its own id. */
  lemma MissingRowId(legacy: Table, canonical: Table, id: int)
    requires TableOk(legacy) && "id" in InsertColumns(legacy, canonical) && id in MissingRows(legacy, canonical)
    ensures CellAt(MissingRows(legacy, canonical)[id], "id") == Num(id)
  {
    assert legacy.rows[id]["id"] == Num(id);
  }

  lemma ActiveKeepsId(tables: Tables, row: Row, id: int)
    ensures CellAt(WithActive(tables, row, id), "id") == CellAt(row, "id")
  {
  }

  lemma MergedTrialsOk(tables: Tables)
    requires TablesOk(tables) && TRIALS in tables && SIMULATIONS in tables
    requires "id" in InsertColumns(tables[SIMULATIONS], tables[TRIALS])
    ensures TableOk(MergedTrials(tables))
  {
    var missing := MissingRows(tables[SIMULATIONS], tables[TRIALS]);
    var rows := map id | id in missing :: WithActive(tables, missing[id], id);
    forall id | id in rows ensures CellAt(rows[id], "id") == Num(id) {
      MissingRowId(tables[SIMULATIONS], tables[TRIALS], id);
      ActiveKeepsId(tables, missing[id], id);
    }
    WithRowsOk(tables[TRIALS], rows);
  }

  /** `_merge_missing_trials_rows_from_legacy` */
  method MergeMissingRows(bind: Connection) returns (r: Outcome<()>)
    requires bind.Valid() && TRIALS in bind.tables && SIMULATIONS in bind.tables
    modifies bind`tables
    ensures bind.Valid()
    ensures r.Raised? <==> MergeBlocked(old(bind.tables))
    ensures bind.tables == if r.Done? then old(bind.tables)[TRIALS := MergedTrials(old(bind.tables))]
              else old(bind.tables)
  {
    r := MappingCheck(bind.tables);
    if r.Raised? {
      return;
    }
    var legacy, canonical := bind.tables[SIMULATIONS], bind.tables[TRIALS];
    if "id" !in InsertColumns(legacy, canonical) {
      return Raised(IdColumnMissing);
    }
    var missing := MissingRows(legacy, canonical);
    var filled := PopulateActive(bind, missing);
    if filled.Raised? {
      return Raised(filled.failure);
    }
    MergedTrialsOk(bind.tables);
    InsertRows(bind, TRIALS, filled.value);
    return Done(());
  }
}
