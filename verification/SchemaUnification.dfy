/**
 `run_upgrade` and `run_downgrade` of the schema unification, and what a whole run keeps.
 */
module SchemaUnification {
  import opened Catalog
  import opened Folding
  import opened ForeignKeys
  import opened Parents
  import opened ParentUnification
  import opened Backfill
  import opened LegacyReferences

  const TASKS := "tasks"
  const PENDING := "pending_scenario_version_id"
  const CHILDREN: seq<string> := [SCENARIOS, SESSIONS, TASKS]

  const REQUIRED: seq<Requirement> := [
    Requirement("fk_trials_active_scenario_version_id", TRIALS, Shape([ACTIVE], SCENARIOS, ["id"]),
                Some("fk_simulations_active_scenario_version_id")),
    Requirement("fk_trials_pending_scenario_version_id", TRIALS, Shape([PENDING], SCENARIOS, ["id"]),
                Some("fk_simulations_pending_scenario_version_id")),
    Requirement("fk_candidate_sessions_scenario_version_id", SESSIONS, Shape([LINK], SCENARIOS, ["id"]), None),
    Requirement("fk_scenario_versions_trial_id_trials", SCENARIOS, Shape(["trial_id"], TRIALS, ["id"]),
                Some("fk_scenario_versions_simulation_id_simulations")),
    Requirement("fk_candidate_sessions_trial_id_trials", SESSIONS, Shape(["trial_id"], TRIALS, ["id"]),
                Some("fk_candidate_sessions_simulation_id_simulations")),
    Requirement("fk_tasks_trial_id_trials", TASKS, Shape(["trial_id"], TRIALS, ["id"]),
                Some("fk_tasks_simulation_id_simulations"))
  ]

  const LEGACY_REQUIRED: seq<Requirement> := [
    Requirement("fk_simulations_pending_scenario_version_id", SIMULATIONS, Shape([PENDING], SCENARIOS, ["id"]),
                Some("fk_trials_pending_scenario_version_id")),
    Requirement("fk_scenario_versions_simulation_id_simulations", SCENARIOS,
                Shape(["simulation_id"], SIMULATIONS, ["id"]),
                Some("fk_scenario_versions_trial_id_trials")),
    Requirement("fk_candidate_sessions_simulation_id_simulations", SESSIONS,
                Shape(["simulation_id"], SIMULATIONS, ["id"]),
                Some("fk_candidate_sessions_trial_id_trials")),
    Requirement("fk_tasks_simulation_id_simulations", TASKS, Shape(["simulation_id"], SIMULATIONS, ["id"]),
                Some("fk_tasks_trial_id_trials"))
  ]

  // The required keys, together.

  /** Requirements on one table ask for different names and different shapes, so meeting one
      does not undo another. */
  predicate Compatible(reqs: seq<Requirement>) {
    forall i, j | 0 <= i < j < |reqs| && reqs[i].table == reqs[j].table ::
      reqs[i].name != reqs[j].name && reqs[i].shape != reqs[j].shape
  }

  lemma RequiredAreCompatible()
    ensures Compatible(REQUIRED) && Compatible(LEGACY_REQUIRED)
  {
  }

  predicate SettledIn(keys: Keys, req: Requirement) {
    Settled(KeysIn(keys, req.table), req)
  }

  /** PostgreSQL would refuse one of the keys: some row dangles. */
  predicate Refused(tables: Tables, reqs: seq<Requirement>) {
    exists req | req in reqs :: Applicable(tables, req) && !Satisfied(tables, req.table, req.shape)
  }

  predicate IsTarget(reqs: seq<Requirement>, key: ForeignKey) {
    exists req | req in reqs :: key == Target(req)
  }

  /** The names the requirements claim on their tables. */
  function ClaimsOf(tables: Tables, reqs: seq<Requirement>): Claims {
    set req | req in reqs && Applicable(tables, req) :: (req.table, req.name)
  }

  predicate NoneTargets(reqs: seq<Requirement>, table: string) {
    forall req | req in reqs :: req.shape.table != table
  }

  /** What one `_ensure_fk` does to the keys of all tables. */
  ghost predicate Ensured(tables: Tables, req: Requirement, before: Keys, after: Keys) {
    && (Applicable(tables, req) ==>
        KeySet(KeysIn(after, req.table)) == Reconciled(KeySet(KeysIn(before, req.table)), req))
    && forall table: string | table != req.table || !Applicable(tables, req) ::
        KeysIn(after, table) == KeysIn(before, table)
  }

  lemma NextSettled(tables: Tables, reqs: seq<Requirement>, i: nat, before: Keys, after: Keys)
    requires i < |reqs| && Compatible(reqs) && Ensured(tables, reqs[i], before, after)
    requires forall k | 0 <= k < i && Applicable(tables, reqs[k]) :: SettledIn(before, reqs[k])
    ensures forall k | 0 <= k <= i && Applicable(tables, reqs[k]) :: SettledIn(after, reqs[k])
  {
    forall k | 0 <= k <= i && Applicable(tables, reqs[k]) ensures SettledIn(after, reqs[k]) {
      if k == i {
        SettledWhenReconciled(KeysIn(before, reqs[i].table), KeysIn(after, reqs[i].table), reqs[i]);
      } else if reqs[k].table == reqs[i].table && Applicable(tables, reqs[i]) {
        StaysSettled(KeysIn(before, reqs[i].table), KeysIn(after, reqs[i].table), reqs[k], reqs[i]);
      }
    }
  }

  lemma NextTargets(tables: Tables, reqs: seq<Requirement>, i: nat, before: Keys, after: Keys)
    requires i < |reqs| && Ensured(tables, reqs[i], before, after)
    ensures forall table, key | key in KeysIn(after, table) :: key in KeysIn(before, table) || IsTarget(reqs, key)
  {
    forall table, key | key in KeysIn(after, table) ensures key in KeysIn(before, table) || IsTarget(reqs, key) {
      if table == reqs[i].table && Applicable(tables, reqs[i]) {
        assert key in KeySet(KeysIn(after, table));
        assert reqs[i] in reqs;
      }
    }
  }

  lemma NextClaimServed(tables: Tables, reqs: seq<Requirement>, i: nat, start: Keys, before: Keys, after: Keys)
    requires i < |reqs| && NoneTargets(reqs, SIMULATIONS) && ClaimsServed(start, before, ClaimsOf(tables, reqs[..i]))
    requires Ensured(tables, reqs[i], before, after)
    ensures ClaimsServed(start, after, ClaimsOf(tables, reqs[..i + 1]))
  {
    var req := reqs[i];
    assert req in reqs && reqs[..i + 1] == reqs[..i] + [req];
    assert ClaimsOf(tables, reqs[..i + 1])
        == ClaimsOf(tables, reqs[..i]) + if Applicable(tables, req) then {(req.table, req.name)} else {};
    forall owner: string, key: ForeignKey | key.shape.table == SIMULATIONS
      ensures key in KeysIn(after, owner) <==>
                key in KeysIn(start, owner) && !Claimed(ClaimsOf(tables, reqs[..i + 1]), owner, key)
    {
      if owner == req.table && Applicable(tables, req) {
        OthersSurvive(KeySet(KeysIn(before, owner)), req, key);
        assert key in KeysIn(after, owner) <==> key in KeySet(KeysIn(after, owner));
        assert key in KeysIn(before, owner) <==> key in KeySet(KeysIn(before, owner));
      }
    }
  }

  method EnsureAll(bind: Connection, reqs: seq<Requirement>) returns (r: Outcome<()>)
    requires bind.Valid() && Compatible(reqs)
    modifies bind`keys
    ensures bind.Valid()
    ensures r.Done? ==> forall req | req in reqs && Applicable(bind.tables, req) :: SettledIn(bind.keys, req)
    ensures r.Raised? ==> r.failure == DanglingReference && Refused(bind.tables, reqs)
    ensures r.Done? ==>
              forall table, key | key in KeysIn(bind.keys, table) ::
                key in KeysIn(old(bind.keys), table) || IsTarget(reqs, key)
    ensures (forall req | req in reqs && Applicable(bind.tables, req) :: SettledIn(old(bind.keys), req)) ==>
              r.Done? && bind.keys == old(bind.keys)
    ensures r.Done? && NoneTargets(reqs, SIMULATIONS) ==>
              ClaimsServed(old(bind.keys), bind.keys, ClaimsOf(bind.tables, reqs))
  {
    for i := 0 to |reqs|
      invariant bind.Valid()
      invariant forall k | 0 <= k < i && Applicable(bind.tables, reqs[k]) :: SettledIn(bind.keys, reqs[k])
      invariant (forall req | req in reqs && Applicable(bind.tables, req) :: SettledIn(old(bind.keys), req)) ==>
                  bind.keys == old(bind.keys)
      invariant forall table, key | key in KeysIn(bind.keys, table) :: key in KeysIn(old(bind.keys), table)
                  || IsTarget(reqs, key)
      invariant NoneTargets(reqs, SIMULATIONS) ==>
                  ClaimsServed(old(bind.keys), bind.keys, ClaimsOf(bind.tables, reqs[..i]))
    {
      ghost var before := bind.keys;
      r := EnsureFk(bind, reqs[i]);
      if r.Raised? {
        assert reqs[i] in reqs;
        return Raised(DanglingReference);
      }
      forall table: string ensures table != reqs[i].table ==> KeysIn(bind.keys, table) == KeysIn(before, table) {
        assert table != reqs[i].table ==> bind.KeysOf(table) == KeysIn(before, table);
      }
      assert bind.KeysOf(reqs[i].table) == KeysIn(bind.keys, reqs[i].table);
      assert Ensured(bind.tables, reqs[i], before, bind.keys);
      if NoneTargets(reqs, SIMULATIONS) {
        NextClaimServed(bind.tables, reqs, i, old(bind.keys), before, bind.keys);
      }
      NextTargets(bind.tables, reqs, i, before, bind.keys);
      NextSettled(bind.tables, reqs, i, before, bind.keys);
    }
    assert reqs[..|reqs|] == reqs;
    r := Done(());
  }

  // Columns and children.

  lemma ChildrenDistinct()
    ensures DistinctNames(CHILDREN) && SIMULATIONS !in CHILDREN && TRIALS !in CHILDREN
  {
  }

  function ColumnEnsured(tables: Tables, name: string, column: string): Tables {
    if name in tables then tables[name := WithColumn(tables[name], column)] else tables
  }

  function ColumnsEnsured(tables: Tables): Tables {
    ColumnEnsured(ColumnEnsured(ColumnEnsured(tables, TRIALS, ACTIVE), TRIALS, PENDING), SESSIONS, LINK)
  }

  /** `_ensure_column` */
  method EnsureColumn(bind: Connection, name: string, column: string)
    requires bind.Valid() && column != "id"
    modifies bind`tables
    ensures bind.Valid() && bind.tables == ColumnEnsured(old(bind.tables), name, column)
  {
    if name in bind.tables && column !in bind.tables[name].columns {
      bind.AddColumn(name, column);
    }
  }

  predicate LegacyFree(keys: Keys, children: seq<string>) {
    forall name | name in children :: NoLegacyKeys(keys, name)
  }

  method DropIfLegacy(bind: Connection, table: string, key: ForeignKey)
    requires bind.Valid() && forall other | other in bind.KeysOf(table) && other.name.Some?
               && other.name == key.name :: other == key
    modifies bind`keys
    ensures bind.Valid()
    ensures forall other :: other in bind.KeysOf(table) <==>
              other in old(bind.KeysOf(table)) && !(PointsToLegacy(key) && other == key)
    ensures forall other | other != table :: bind.KeysOf(other) == old(bind.KeysOf(other))
    ensures !PointsToLegacy(key) ==> bind.keys == old(bind.keys)
  {
    if PointsToLegacy(key) {
      bind.DropConstraint(table, key.name.value);
    }
  }

  /** `_drop_trial_foreign_keys_to_legacy_parent` */
  method DropLegacyKeys(bind: Connection, table: string)
    requires bind.Valid()
    modifies bind`keys
    ensures bind.Valid()
    ensures NoLegacyKeys(bind.keys, table)
    ensures forall key :: key in bind.KeysOf(table) <==> key in old(bind.KeysOf(table)) && !PointsToLegacy(key)
    ensures forall other | other != table :: bind.KeysOf(other) == old(bind.KeysOf(other))
    ensures NoLegacyKeys(old(bind.keys), table) ==> bind.keys == old(bind.keys)
  {
    var foreignKeys := bind.KeysOf(table);
    for i := 0 to |foreignKeys|
      invariant bind.Valid()
      invariant forall key :: key in bind.KeysOf(table) <==>
                  key in foreignKeys && (PointsToLegacy(key) ==> key !in foreignKeys[..i])
      invariant forall other | other != table :: bind.KeysOf(other) == old(bind.KeysOf(other))
      invariant NoLegacyKeys(old(bind.keys), table) ==> bind.keys == old(bind.keys)
    {
      assert foreignKeys[..i + 1] == foreignKeys[..i] + [foreignKeys[i]];
      SameNameSameKey(foreignKeys, foreignKeys[i]);
      DropIfLegacy(bind, table, foreignKeys[i]);
    }
  }

  lemma SameNameSameKey(keys: seq<ForeignKey>, key: ForeignKey)
    requires NamesUnique(keys) && key in keys
    ensures forall other | other in keys && other.name.Some? && other.name == key.name :: other == key
  {
  }

  predicate ChildConflict(tables: Tables, children: seq<string>) {
    exists name | name in children && name in tables :: HasConflict(tables[name], "simulation_id", "trial_id")
  }

  /** Each of the given children names its parent under `into` alone. */
  function ChildrenFolded(tables: Tables, children: seq<string>, from: string, into: string): Tables {
    map name | name in tables :: if name in children then Folded(tables[name], from, into) else tables[name]
  }

  predicate DistinctNames(names: seq<string>) {
    forall i, j | 0 <= i < j < |names| :: names[i] != names[j]
  }

  lemma FoldedNext(tables: Tables, children: seq<string>, k: nat, from: string, into: string)
    requires k < |children| && DistinctNames(children)
    ensures FoldedIn(ChildrenFolded(tables, children[..k], from, into), children[k], from, into)
         == ChildrenFolded(tables, children[..k + 1], from, into)
    ensures children[k] in tables ==>
              ChildrenFolded(tables, children[..k], from, into)[children[k]] == tables[children[k]]
  {
    assert children[..k + 1] == children[..k] + [children[k]];
    assert children[k] !in children[..k];
  }

  lemma FoldedKeysKeepLegacyFree(tables: Tables, keys: Keys, name: string, from: string, into: string, other: string)
    requires other != name && NoLegacyKeys(keys, other)
    ensures NoLegacyKeys(FoldedKeys(tables, keys, name, from, into), other)
  {
    var after := FoldedKeys(tables, keys, name, from, into);
    forall key | key in KeysIn(after, other) ensures !PointsToLegacy(key) {
      if from in Columns(tables, name) && into !in Columns(tables, name) {
        var at :| 0 <= at < |KeysIn(after, other)| && KeysIn(after, other)[at] == key;
        assert !PointsToLegacy(KeysIn(keys, other)[at]);
      }
    }
  }

  predicate ChildrenSettled(tables: Tables, keys: Keys, children: seq<string>) {
    forall name | name in children :: "simulation_id" !in Columns(tables, name) && NoLegacyKeys(keys, name)
  }

  /** One child table: fold its parent column, drop its keys to the legacy parent. */
  method FoldChild(bind: Connection, name: string) returns (r: Outcome<()>)
    requires bind.Valid()
    modifies bind
    ensures bind.Valid()
    ensures r.Raised? <==> name in old(bind.tables) && HasConflict(old(bind.tables)[name], "simulation_id", "trial_id")
    ensures r.Done? ==> bind.tables == FoldedIn(old(bind.tables), name, "simulation_id", "trial_id")
    ensures r.Done? ==> NoLegacyKeys(bind.keys, name)
    ensures r.Done? ==> forall other | NoLegacyKeys(old(bind.keys), other) :: NoLegacyKeys(bind.keys, other)
    ensures "simulation_id" !in Columns(old(bind.tables), name) && NoLegacyKeys(old(bind.keys), name) ==>
              bind.keys == old(bind.keys)
    ensures r.Done? ==>
              var folded := FoldedKeys(old(bind.tables), old(bind.keys), name, "simulation_id", "trial_id");
              && (forall key :: key in KeysIn(bind.keys, name) <==> key in KeysIn(folded, name) && !PointsToLegacy(key))
              && forall other | other != name :: KeysIn(bind.keys, other) == KeysIn(folded, other)
  {
    ghost var tables, keys := bind.tables, bind.keys;
    r := FoldColumn(bind, name, "simulation_id", "trial_id", ParentColumnsConflict);
    if r.Raised? {
      return;
    }
    forall other | other != name && NoLegacyKeys(keys, other) ensures NoLegacyKeys(bind.keys, other) {
      FoldedKeysKeepLegacyFree(tables, keys, name, "simulation_id", "trial_id", other);
    }
    ghost var folded := bind.keys;
    DropLegacyKeys(bind, name);
    forall other ensures other != name ==> KeysIn(bind.keys, other) == KeysIn(folded, other) {
      assert other != name ==> bind.KeysOf(other) == KeysIn(folded, other);
    }
    assert forall key :: key in bind.KeysOf(name) <==> key in KeysIn(folded, name) && !PointsToLegacy(key);
    forall other | other != name && NoLegacyKeys(folded, other) ensures NoLegacyKeys(bind.keys, other) {
      assert bind.KeysOf(other) == KeysIn(folded, other);
    }
  }

  /** The first children are folded, none of them in conflict, and have lost their keys to the
      legacy parent. */
  predicate FoldedSoFar(start: Tables, children: seq<string>, tables: Tables, keys: Keys) {
    && tables == ChildrenFolded(start, children, "simulation_id", "trial_id")
    && LegacyFree(keys, children) && !ChildConflict(start, children)
  }

  lemma NextChildSticks(tables: Tables, keys: Keys, after: Tables, now: Keys, children: seq<string>, k: nat,
                        claims: Claims)
    requires DistinctNames(children) && k < |children| && SIMULATIONS !in children
    requires after == FoldedIn(tables, children[k], "simulation_id", "trial_id")
    requires var folded := FoldedKeys(tables, keys, children[k], "simulation_id", "trial_id");
             && (forall key :: key in KeysIn(now, children[k]) <==>
                 key in KeysIn(folded, children[k]) && !PointsToLegacy(key))
             && forall other | other != children[k] :: KeysIn(now, other) == KeysIn(folded, other)
    ensures Sticks(tables, keys, children[k..], claims) <==> Sticks(after, now, children[k + 1..], claims)
  {
    assert children[k..] == [children[k]] + children[k + 1..];
    assert children[k] in children;
    ChildKeepsSticking(tables, keys, after, now, children[k], children[k + 1..], claims);
  }

  method FoldNextChild(bind: Connection, children: seq<string>, k: nat, ghost start: Tables, ghost claims: Claims)
    returns (r: Outcome<()>)
    requires bind.Valid() && DistinctNames(children) && k < |children| && SIMULATIONS !in children
    requires FoldedSoFar(start, children[..k], bind.tables, bind.keys)
    modifies bind
    ensures bind.Valid()
    ensures r.Raised? ==> ChildConflict(start, children)
    ensures r.Done? ==> FoldedSoFar(start, children[..k + 1], bind.tables, bind.keys)
    ensures ("simulation_id" !in Columns(start, children[k]) && NoLegacyKeys(old(bind.keys), children[k])) ==>
              bind.keys == old(bind.keys)
    ensures r.Done? ==>
              (Sticks(old(bind.tables), old(bind.keys), children[k..], claims)
               <==> Sticks(bind.tables, bind.keys, children[k + 1..], claims))
  {
    FoldedNext(start, children, k, "simulation_id", "trial_id");
    assert children[k] in children;
    assert children[..k + 1] == children[..k] + [children[k]];
    ghost var tables, keys := bind.tables, bind.keys;
    r := FoldChild(bind, children[k]);
    if r.Done? {
      NextChildSticks(tables, keys, bind.tables, bind.keys, children, k, claims);
    }
    forall name | r.Done? && name in children[..k] ensures NoLegacyKeys(bind.keys, name) {
      assert NoLegacyKeys(keys, name);
    }
  }

  /** The child loop of `run_upgrade`. */
  method FoldChildren(bind: Connection, children: seq<string>, ghost claims: Claims) returns (r: Outcome<()>)
    requires bind.Valid() && DistinctNames(children) && SIMULATIONS !in children
    modifies bind
    ensures bind.Valid()
    ensures r.Raised? <==> ChildConflict(old(bind.tables), children)
    ensures r.Done? ==> bind.tables == ChildrenFolded(old(bind.tables), children, "simulation_id", "trial_id")
    ensures r.Done? ==> LegacyFree(bind.keys, children)
    ensures ChildrenSettled(old(bind.tables), old(bind.keys), children) ==> bind.keys == old(bind.keys)
    ensures r.Done? ==>
              (Sticks(old(bind.tables), old(bind.keys), children, claims) <==>
               Sticks(bind.tables, bind.keys, [], claims))
  {
    ghost var start := bind.tables;
    assert bind.tables == ChildrenFolded(start, children[..0], "simulation_id", "trial_id");
    assert children[0..] == children;
    for i := 0 to |children|
      invariant bind.Valid() && FoldedSoFar(start, children[..i], bind.tables, bind.keys)
      invariant ChildrenSettled(start, old(bind.keys), children) ==> bind.keys == old(bind.keys)
      invariant Sticks(start, old(bind.keys), children, claims) <==>
                  Sticks(bind.tables, bind.keys, children[i..], claims)
    {
      assert children[i] in children;
      r := FoldNextChild(bind, children, i, start, claims);
      if r.Raised? {
        return;
      }
    }
    assert children[..|children|] == children && children[|children|..] == [];
    r := Done(());
  }

  // The whole upgrade.

  /** `_drop_legacy_parent_table_if_present` */
  method DropLegacyParent(bind: Connection) returns (r: Outcome<()>)
    requires bind.Valid()
    modifies bind
    ensures bind.Valid()
    ensures r.Raised? <==> Split(old(bind.tables)) && RefersTo(old(bind.keys), SIMULATIONS)
    ensures r.Raised? ==> r.failure == StillReferenced
    ensures if r.Done? && Split(old(bind.tables))
            then bind.tables == old(bind.tables) - {SIMULATIONS} && bind.keys == old(bind.keys) - {SIMULATIONS}
            else bind.tables == old(bind.tables) && bind.keys == old(bind.keys)
  {
    if !Split(bind.tables) {
      return Done(());
    }
    if RefersTo(bind.keys, SIMULATIONS) {
      return Raised(StillReferenced);
    }
    bind.DropTable(SIMULATIONS);
    return Done(());
  }

  /** The tables once parents, columns and children are in place. */
  ghost function Reshaped(tables: Tables): Tables
    requires TRIALS in tables || SIMULATIONS in tables
  {
    ChildrenFolded(ColumnsEnsured(Unified(tables)), CHILDREN, "simulation_id", "trial_id")
  }

  /** What the upgrade makes of the tables; the foreign keys can only make it raise. */
  ghost function UpgradeOutcome(tables: Tables, order: seq<int>, nextId: int, now: int): Outcome<Tables> {
    if TRIALS !in tables && SIMULATIONS !in tables then Raised(NoParentTable)
    else if UnificationBlocked(tables) then Raised(DivergentRows)
    else if ChildConflict(ColumnsEnsured(Unified(tables)), CHILDREN) then Raised(ParentColumnsConflict)
    else BackfillOutcome(Reshaped(tables) - {SIMULATIONS}, order, nextId, now)
  }

  /** The state an upgrade leaves, as far as the foreign keys go. */
  predicate KeysSettled(tables: Tables, keys: Keys, reqs: seq<Requirement>, children: seq<string>) {
    && (forall req | req in reqs && Applicable(tables, req) :: SettledIn(keys, req))
    && LegacyFree(keys, children)
  }

  /** The state an upgrade leaves, as far as the shape of the tables goes. */
  predicate ShapeSettled(tables: Tables) {
    && TRIALS in tables && SIMULATIONS !in tables
    && RECRUITER !in tables[TRIALS].columns
    && ACTIVE in tables[TRIALS].columns && PENDING in tables[TRIALS].columns
    && (SESSIONS in tables ==> LINK in tables[SESSIONS].columns)
    && forall name | name in CHILDREN :: "simulation_id" !in Columns(tables, name)
  }

  lemma SettledShapeIsFixed(tables: Tables)
    requires ShapeSettled(tables)
    ensures !UnificationBlocked(tables) && Unified(tables) == tables
    ensures ColumnsEnsured(tables) == tables && !ChildConflict(tables, CHILDREN)
    ensures Reshaped(tables) == tables && tables - {SIMULATIONS} == tables
  {
    assert ChildrenFolded(tables, CHILDREN, "simulation_id", "trial_id") == tables by {
      forall name | name in tables && name in CHILDREN
          ensures Folded(tables[name], "simulation_id", "trial_id") == tables[name] {
        assert "simulation_id" !in Columns(tables, name);
      }
    }
  }

  ghost predicate ReshapeBlocked(tables: Tables) {
    UnificationBlocked(tables) || ChildConflict(ColumnsEnsured(Unified(tables)), CHILDREN)
  }

  /** The pointer columns make no difference to the children's parent columns. */
  lemma EnsuredSticks(tables: Tables, keys: Keys, claims: Claims)
    requires Split(tables) && ClaimsApart(claims)
    ensures Sticks(ColumnsEnsured(Unified(tables)), MappedKeys(tables, keys), CHILDREN, claims)
       <==> Lingers(tables, keys, CHILDREN, claims)
  {
    ChildrenDistinct();
    MappedSticks(tables, keys, CHILDREN, claims);
    ColumnsDoNotMatter(tables, ColumnsEnsured(Unified(tables)), MappedKeys(tables, keys), CHILDREN, claims);
  }

  /** Parents, columns and children. */
  method ReshapeTables(bind: Connection, ghost claims: Claims) returns (r: Outcome<()>)
    requires bind.Valid() && ClaimsApart(claims)
    modifies bind
    ensures bind.Valid()
    ensures r.Raised? <==> ReshapeBlocked(old(bind.tables))
    ensures r.Done? ==> bind.tables == Reshaped(old(bind.tables))
    ensures r.Done? ==> LegacyFree(bind.keys, CHILDREN)
    ensures ShapeSettled(old(bind.tables)) && KeysSettled(old(bind.tables), old(bind.keys), REQUIRED, CHILDREN) ==>
              bind.keys == old(bind.keys)
    ensures r.Done? && Split(old(bind.tables)) ==>
              (Lingers(old(bind.tables), old(bind.keys), CHILDREN, claims) <==>
               Sticks(bind.tables, bind.keys, [], claims))
  {
    ghost var before, keys := bind.tables, bind.keys;
    r := UnifyParents(bind);
    if r.Raised? {
      return;
    }
    EnsureColumn(bind, TRIALS, ACTIVE);
    EnsureColumn(bind, TRIALS, PENDING);
    EnsureColumn(bind, SESSIONS, LINK);
    if ShapeSettled(before) {
      SettledShapeIsFixed(before);
    }
    ChildrenDistinct();
    if Split(before) {
      EnsuredSticks(before, keys, claims);
    }
    r := FoldChildren(bind, CHILDREN, claims);
  }

  predicate NoneLegacy(reqs: seq<Requirement>) {
    forall req | req in reqs :: !PointsToLegacy(Target(req))
  }

  lemma RequiredTargets()
    ensures NoneTargets(REQUIRED, SIMULATIONS)
  {
  }

  lemma RequiredNoneLegacy()
    ensures NoneLegacy(REQUIRED) && NoneLegacy(LEGACY_REQUIRED)
  {
  }

  /** `_ensure_required_foreign_keys` */
  method EnsureRequired(bind: Connection, reqs: seq<Requirement>, children: seq<string>) returns (r: Outcome<()>)
    requires bind.Valid() && LegacyFree(bind.keys, children)
    requires Compatible(reqs) && NoneLegacy(reqs)
    modifies bind`keys
    ensures bind.Valid()
    ensures r.Done? ==> KeysSettled(bind.tables, bind.keys, reqs, children)
    ensures r.Raised? ==> r.failure == DanglingReference && Refused(bind.tables, reqs)
    ensures KeysSettled(bind.tables, old(bind.keys), reqs, children) ==> r.Done? && bind.keys == old(bind.keys)
    ensures r.Done? && NoneTargets(reqs, SIMULATIONS) ==>
              ClaimsServed(old(bind.keys), bind.keys, ClaimsOf(bind.tables, reqs))
  {
    ghost var keys := bind.keys;
    r := EnsureAll(bind, reqs);
    if r.Done? {
      LegacyFreeKept(keys, bind.keys, reqs, children);
    }
  }

  lemma LegacyFreeKept(before: Keys, after: Keys, reqs: seq<Requirement>, children: seq<string>)
    requires LegacyFree(before, children) && NoneLegacy(reqs)
    requires forall table, key | key in KeysIn(after, table) :: key in KeysIn(before, table) || IsTarget(reqs, key)
    ensures LegacyFree(after, children)
  {
    forall name | name in children ensures NoLegacyKeys(after, name) {
      assert NoLegacyKeys(before, name);
      forall key | key in KeysIn(after, name) ensures !PointsToLegacy(key) {
        if key in KeysIn(before, name) {
        } else {
          assert IsTarget(reqs, key);
        }
      }
    }
  }

  lemma DroppedTableLegacyFree(keys: Keys, table: string, children: seq<string>)
    requires LegacyFree(keys, children)
    ensures LegacyFree(keys - {table}, children)
  {
    forall name | name in children ensures NoLegacyKeys(keys - {table}, name) {
      assert NoLegacyKeys(keys, name);
    }
  }

  /** A split schema is held back by a key to the legacy parent that nothing on the way removes. */
  ghost predicate HeldBack(tables: Tables, keys: Keys) {
    Split(tables) && Lingers(tables, keys, CHILDREN, ClaimsOf(Reshaped(tables), REQUIRED))
  }

  lemma RequiredApart(tables: Tables)
    ensures TRIALS in tables || SIMULATIONS in tables ==> ClaimsApart(ClaimsOf(Reshaped(tables), REQUIRED))
  {
    MappedNames();
    forall req | req in REQUIRED ensures |req.name| <= 41 {
      RequiredName(req);
    }
  }

  lemma MappedNames()
    ensures |PARTNER_KEY| == 47 && |RECRUITER_KEYS.0| == 42 && |RECRUITER_KEYS.1| == 47
  {
  }

  lemma RequiredName(req: Requirement)
    requires req in REQUIRED
    ensures |req.name| <= 41
  {
  }

  /** The required keys, and then the legacy table, which goes unless a key sticks. */
  method EnsureAndDrop(bind: Connection) returns (r: Outcome<()>)
    requires bind.Valid() && TRIALS in bind.tables && LegacyFree(bind.keys, CHILDREN)
    modifies bind
    ensures bind.Valid()
    ensures r.Done? ==> bind.tables == old(bind.tables) - {SIMULATIONS} && LegacyFree(bind.keys, CHILDREN)
    ensures r.Done? ==>
              !(Split(old(bind.tables))
                && Sticks(old(bind.tables), old(bind.keys), [], ClaimsOf(old(bind.tables), REQUIRED)))
    ensures r.Raised? ==>
              || (r.failure == DanglingReference && Refused(old(bind.tables), REQUIRED))
              || (r.failure == StillReferenced && Split(old(bind.tables))
                  && Sticks(old(bind.tables), old(bind.keys), [], ClaimsOf(old(bind.tables), REQUIRED)))
    ensures SIMULATIONS !in old(bind.tables) && KeysSettled(old(bind.tables), old(bind.keys), REQUIRED, CHILDREN) ==>
              r.Done? && bind.keys == old(bind.keys) && bind.tables == old(bind.tables)
  {
    ghost var tables, keys := bind.tables, bind.keys;
    RequiredAreCompatible();
    RequiredNoneLegacy();
    RequiredTargets();
    r := EnsureRequired(bind, REQUIRED, CHILDREN);
    if r.Raised? {
      return;
    }
    ServedRefersWhenSticking(tables, keys, bind.keys, ClaimsOf(tables, REQUIRED));
    DroppedTableLegacyFree(bind.keys, SIMULATIONS, CHILDREN);
    r := DropLegacyParent(bind);
    assert SIMULATIONS !in tables ==> tables - {SIMULATIONS} == tables;
  }

  /** The statements before the backfill. */
  method Reshape(bind: Connection) returns (r: Outcome<()>)
    requires bind.Valid()
    modifies bind
    ensures bind.Valid()
    ensures r.Done? ==> !ReshapeBlocked(old(bind.tables)) && bind.tables == Reshaped(old(bind.tables)) - {SIMULATIONS}
    ensures r.Done? ==> LegacyFree(bind.keys, CHILDREN)
    ensures r.Raised? && !ReshapeBlocked(old(bind.tables)) ==>
              || (r.failure == StillReferenced && HeldBack(old(bind.tables), old(bind.keys)))
              || (r.failure == DanglingReference && Refused(Reshaped(old(bind.tables)), REQUIRED))
    ensures r.Done? ==> !HeldBack(old(bind.tables), old(bind.keys))
    ensures ShapeSettled(old(bind.tables)) && KeysSettled(old(bind.tables), old(bind.keys), REQUIRED, CHILDREN) ==>
              r.Done? && bind.keys == old(bind.keys) && bind.tables == old(bind.tables)
  {
    ghost var before := bind.tables;
    ghost var claims := if TRIALS in before || SIMULATIONS in before then ClaimsOf(Reshaped(before), REQUIRED) else {};
    RequiredApart(before);
    r := ReshapeTables(bind, claims);
    if ShapeSettled(before) {
      SettledShapeIsFixed(before);
    }
    if r.Raised? {
      return;
    }
    ReshapedHasTrials(before);
    r := EnsureAndDrop(bind);
  }

  lemma ReshapedHasTrials(tables: Tables)
    requires !ReshapeBlocked(tables)
    ensures TRIALS in Reshaped(tables) && (Split(Reshaped(tables)) <==> Split(tables))
  {
  }

  /** The ids of the trials in some order, as the backfill reads them back. */
  predicate IsTrialOrder(tables: Tables, order: seq<int>) {
    Distinct(order) && Seen(order) == RowIds(tables, TRIALS) + RowIds(tables, SIMULATIONS)
  }

  method RunUpgrade(bind: Connection, order: seq<int>, nextId: int, now: int) returns (r: Outcome<()>)
    requires bind.Valid()
    modifies bind
    ensures bind.Valid()
    ensures r.Done? ==> UpgradeOutcome(old(bind.tables), order, nextId, now) == Done(bind.tables)
    ensures r.Done? ==> KeysSettled(bind.tables, bind.keys, REQUIRED, CHILDREN)
    ensures r.Done? ==> !HeldBack(old(bind.tables), old(bind.keys))
    ensures r.Raised? && UpgradeOutcome(old(bind.tables), order, nextId, now).Done? ==>
              || (r.failure == StillReferenced && HeldBack(old(bind.tables), old(bind.keys)))
              || (r.failure == DanglingReference
                  && (|| Refused(Reshaped(old(bind.tables)), REQUIRED)
                      || Refused(UpgradeOutcome(old(bind.tables), order, nextId, now).value, REQUIRED)))
    ensures ShapeSettled(old(bind.tables)) && KeysSettled(old(bind.tables), old(bind.keys), REQUIRED, CHILDREN)
            && BackfillOutcome(old(bind.tables), order, nextId, now) == Done(old(bind.tables)) ==>
              r.Done? && bind.tables == old(bind.tables) && bind.keys == old(bind.keys)
  {
    r := Reshape(bind);
    if r.Raised? {
      return;
    }
    r := BackfillScenarios(bind, order, nextId, now);
    if r.Raised? {
      return;
    }
    RequiredAreCompatible();
    RequiredNoneLegacy();
    r := EnsureRequired(bind, REQUIRED, CHILDREN);
  }

  // The downgrade.

  function ParentRenamedBack(tables: Tables): Tables {
    if TRIALS in tables then (tables - {TRIALS})[SIMULATIONS := tables[TRIALS]] else tables
  }

  function DowngradeOutcome(tables: Tables): Outcome<Tables> {
    if TRIALS in tables && SIMULATIONS in tables then Raised(BothParentTables)
    else if TRIALS !in tables && SIMULATIONS !in tables then Raised(NoParentTable)
    else if ChildConflict(ParentRenamedBack(tables), CHILDREN) then Raised(ParentColumnsConflict)
    else Done(ChildrenFolded(ParentRenamedBack(tables), CHILDREN, "trial_id", "simulation_id"))
  }

  /** The child loop of `run_downgrade`. */
  method UnfoldChildren(bind: Connection, children: seq<string>) returns (r: Outcome<()>)
    requires bind.Valid() && DistinctNames(children)
    modifies bind
    ensures bind.Valid()
    ensures r.Raised? <==> ChildConflict(old(bind.tables), children)
    ensures r.Done? ==> bind.tables == ChildrenFolded(old(bind.tables), children, "trial_id", "simulation_id")
    ensures (forall name | name in children :: "trial_id" !in Columns(old(bind.tables), name)) ==>
              bind.keys == old(bind.keys)
  {
    ghost var start := bind.tables;
    assert bind.tables == ChildrenFolded(start, children[..0], "trial_id", "simulation_id");
    for i := 0 to |children|
      invariant bind.Valid()
      invariant bind.tables == ChildrenFolded(start, children[..i], "trial_id", "simulation_id")
      invariant forall k | 0 <= k < i && children[k] in start ::
                  !HasConflict(start[children[k]], "simulation_id", "trial_id")
      invariant (forall name | name in children :: "trial_id" !in Columns(start, name)) ==> bind.keys == old(bind.keys)
    {
      FoldedNext(start, children, i, "trial_id", "simulation_id");
      assert children[i] in children;
      r := FoldColumn(bind, children[i], "trial_id", "simulation_id", ParentColumnsConflict);
      if children[i] in start {
        ConflictIsSymmetric(start[children[i]], "trial_id", "simulation_id");
      }
      if r.Raised? {
        return;
      }
    }
    assert children[..|children|] == children;
    r := Done(());
  }

  lemma ConflictIsSymmetric(t: Table, from: string, into: string)
    ensures HasConflict(t, from, into) <==> HasConflict(t, into, from)
  {
    if HasConflict(t, from, into) {
      var id :| id in t.rows && Conflicting(t.rows[id], from, into);
      assert Conflicting(t.rows[id], into, from);
    }
    if HasConflict(t, into, from) {
      var id :| id in t.rows && Conflicting(t.rows[id], into, from);
      assert Conflicting(t.rows[id], from, into);
    }
  }

  /** The state a downgrade leaves. */
  predicate IsDowngraded(tables: Tables, keys: Keys) {
    && TRIALS !in tables && SIMULATIONS in tables
    && (forall name | name in CHILDREN :: "trial_id" !in Columns(tables, name))
    && forall req | req in LEGACY_REQUIRED && Applicable(tables, req) :: SettledIn(keys, req)
  }

  lemma DowngradedIsFixed(tables: Tables)
    requires TRIALS !in tables && SIMULATIONS in tables
    requires forall name | name in CHILDREN :: "trial_id" !in Columns(tables, name)
    ensures DowngradeOutcome(tables) == Done(tables)
  {
    assert ChildrenFolded(tables, CHILDREN, "trial_id", "simulation_id") == tables by {
      forall name | name in tables && name in CHILDREN
        ensures Folded(tables[name], "trial_id", "simulation_id") == tables[name]
      {
        assert "trial_id" !in Columns(tables, name);
      }
    }
    forall name | name in CHILDREN && name in tables
      ensures !HasConflict(tables[name], "simulation_id", "trial_id")
    {
      assert "trial_id" !in Columns(tables, name);
    }
  }

  method RunDowngrade(bind: Connection) returns (r: Outcome<()>)
    requires bind.Valid()
    modifies bind
    ensures bind.Valid()
    ensures r.Done? ==> DowngradeOutcome(old(bind.tables)) == Done(bind.tables)
    ensures r.Done? ==> forall req | req in LEGACY_REQUIRED && Applicable(bind.tables, req) :: SettledIn(bind.keys, req)
    ensures r.Raised? && DowngradeOutcome(old(bind.tables)).Done? ==>
              r.failure == DanglingReference && Refused(DowngradeOutcome(old(bind.tables)).value, LEGACY_REQUIRED)
    ensures IsDowngraded(old(bind.tables), old(bind.keys)) ==>
              r.Done? && bind.tables == old(bind.tables) && bind.keys == old(bind.keys)
  {
    ghost var before := bind.tables;
    var hasCanonical, hasLegacy := TRIALS in bind.tables, SIMULATIONS in bind.tables;
    if hasCanonical && hasLegacy {
      return Raised(BothParentTables);
    }
    if !hasCanonical && !hasLegacy {
      return Raised(NoParentTable);
    }
    if hasCanonical {
      bind.RenameTable(TRIALS, SIMULATIONS);
      MoveName(bind, SIMULATIONS, PENDING_KEYS.1, PENDING_KEYS.0);
    }
    ChildrenDistinct();
    r := UnfoldChildren(bind, CHILDREN);
    if r.Raised? {
      return;
    }
    if IsDowngraded(before, old(bind.keys)) {
      DowngradedIsFixed(before);
    }
    RequiredAreCompatible();
    r := EnsureAll(bind, LEGACY_REQUIRED);
  }
}
