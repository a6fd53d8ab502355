/**
 `_backfill_scenario_versions_and_links`: give every trial a version-1 scenario, and point the
 trial and its sessions at it where they pointed nowhere.
 */
module Backfill {
  import opened Catalog
  import opened Sets
  import opened Parents
  import Text

  const SESSIONS := "candidate_sessions"
  const LINK := "scenario_version_id"
  const DEFAULT_TEMPLATE_KEY := "python-fastapi"

  /** The trial columns the backfill reads. */
  const TRIAL_COLUMNS: set<string> := {
    "id", "status", "title", "role", "tech_stack", "seniority", "focus", "scenario_template",
    "template_key", "created_at", "activated_at", "terminated_at"
  }

  const SCENARIO_COLUMNS: set<string> := {
    "id", "trial_id", "version_index", "status", "storyline_md", "task_prompts_json", "rubric_json",
    "focus_notes", "template_key", "tech_stack", "seniority", "created_at", "locked_at"
  }

  /** The three tables the backfill works on, and the next value of the scenario id sequence. */
  datatype Fill = Fill(trials: Table, scenarios: Table, sessions: Table, nextId: int)

  predicate FillOk(f: Fill) {
    TableOk(f.trials) && TableOk(f.scenarios) && TableOk(f.sessions)
    && ACTIVE in f.trials.columns && LINK in f.sessions.columns && "trial_id" in f.sessions.columns
    && "trial_id" in f.scenarios.columns && "id" in f.scenarios.columns
  }

  function TextOf(cell: Cell): string {
    if cell.Text? then cell.s else ""
  }

  function OrElse(cell: Cell, fallback: Cell): Cell {
    Coalesce(cell, fallback)
  }

  function LockedAt(trial: Row, now: int): Cell {
    if Text.Strip(TextOf(CellAt(trial, "status"))) in {"active_inviting", "terminated"}
    then OrElse(CellAt(trial, "activated_at"), OrElse(CellAt(trial, "terminated_at"), Time(now)))
    else Null
  }

  function Storyline(trial: Row): string {
    Text.Strip("# " + Text.Strip(TextOf(CellAt(trial, "title"))) + "\n\n"
               + "Role: " + Text.Strip(TextOf(CellAt(trial, "role"))) + "\n"
               + "Template: " + Text.Strip(TextOf(CellAt(trial, "scenario_template"))))
  }

  /** What the new scenario copies from its trial. */
  function CopiedCells(trial: Row, now: int): Row {
    var template := TextOf(CellAt(trial, "template_key"));
    map[
      "status" := Text(if LockedAt(trial, now) != Null then "locked" else "ready"),
      "storyline_md" := Text(Storyline(trial)),
      "task_prompts_json" := JsonText("[]"),
      "rubric_json" := JsonText("{}"),
      "focus_notes" := Text(TextOf(CellAt(trial, "focus"))),
      "template_key" := Text(if template == "" then DEFAULT_TEMPLATE_KEY else template),
      "tech_stack" := Text(TextOf(CellAt(trial, "tech_stack"))),
      "seniority" := Text(TextOf(CellAt(trial, "seniority"))),
      "created_at" := OrElse(CellAt(trial, "created_at"), Time(now)),
      "locked_at" := LockedAt(trial, now)
    ]
  }

  /** The values of the INSERT, given the cells copied from the trial. */
  function FirstScenario(draft: Row, trialId: int, id: int): Row {
    draft["id" := Num(id)]["trial_id" := Num(trialId)]["version_index" := Num(1)]
  }

  /** What each trial's scenario would copy, from the rows as read before the loop. */
  function Drafts(seen: map<int, Row>, now: int): map<int, Row> {
    map id | id in seen :: CopiedCells(seen[id], now)
  }

  predicate IsFirstOf(row: Row, trialId: int) {
    CellAt(row, "trial_id") == Num(trialId) && CellAt(row, "version_index") == Num(1)
  }

  /** The version-1 scenarios of a trial. */
  function FirstsOf(scenarios: Table, trialId: int): set<int> {
    set id | id in scenarios.rows && IsFirstOf(scenarios.rows[id], trialId)
  }

  /** UPDATE trials SET active = COALESCE(active, scenario) WHERE id = trialId */
  function Pointed(trials: Table, trialId: int, scenario: int): Table {
    Table(trials.columns, map id | id in trials.rows ::
      if id == trialId then trials.rows[id][ACTIVE := Coalesce(CellAt(trials.rows[id], ACTIVE), Num(scenario))]
      else trials.rows[id])
  }

  predicate Unlinked(session: Row, trialId: int) {
    CellAt(session, "trial_id") == Num(trialId) && CellAt(session, LINK) == Null
  }

  /** UPDATE candidate_sessions SET pointer = scenario WHERE trial_id = trialId AND pointer IS NULL */
  function Linked(sessions: Table, trialId: int, scenario: int): Table {
    Table(sessions.columns, map id | id in sessions.rows ::
      if Unlinked(sessions.rows[id], trialId) then sessions.rows[id][LINK := Num(scenario)]
      else sessions.rows[id])
  }

  /** The version-1 scenario of a trial: the one there is, or a new one. `Raised` when there are
      several, when the table lacks a column, or when the sequence yields a taken id. */
  ghost function EnsureFirst(f: Fill, draft: Row, trialId: int): Outcome<(int, Fill)> {
    var existing := FirstsOf(f.scenarios, trialId);
    if "version_index" !in f.scenarios.columns then Raised(ColumnMissing)
    else if exists a, b | a in existing && b in existing :: a != b then Raised(SeveralFirstScenarios)
    else if existing != {} then Done((AnyOf(existing), f))
    else if !(SCENARIO_COLUMNS <= f.scenarios.columns) then Raised(ColumnMissing)
    else if f.nextId in f.scenarios.rows then Raised(DuplicateKey)
    else
      var row := Widened(FirstScenario(draft, trialId, f.nextId), f.scenarios.columns);
      Done((f.nextId, f.(scenarios := Inserted(f.scenarios, f.nextId, row), nextId := f.nextId + 1)))
  }

  /** One iteration of the loop; `draft` is what the new scenario would copy from the trial. */
  ghost function Step(f: Fill, draft: Row, trialId: int): Outcome<Fill> {
    var ensured :- EnsureFirst(f, draft, trialId);
    Done(ensured.1.(trials := Pointed(f.trials, trialId, ensured.0),
                    sessions := Linked(f.sessions, trialId, ensured.0)))
  }

  /** The whole loop, for trials read in the given order. */
  ghost function Filled(f: Fill, drafts: map<int, Row>, order: seq<int>): Outcome<Fill>
    decreases |order|
  {
    if order == [] then Done(f)
    else
      var next :- Step(f, if order[0] in drafts then drafts[order[0]] else map[], order[0]);
      Filled(next, drafts, order[1..])
  }

  // What the loop has achieved for the trials in `done`.

  ghost predicate ScenariosGrew(before: Fill, after: Fill, done: set<int>) {
    && after.scenarios.columns == before.scenarios.columns
    && (forall id | id in before.scenarios.rows ::
          id in after.scenarios.rows && after.scenarios.rows[id] == before.scenarios.rows[id])
    && (forall id | id in after.scenarios.rows && id !in before.scenarios.rows ::
          exists trial :: trial in done && FirstsOf(before.scenarios, trial) == {}
              && IsFirstOf(after.scenarios.rows[id], trial))
    && (forall trial | trial in done :: exists scenario :: FirstsOf(after.scenarios, trial) == {scenario})
    && (forall trial | trial !in done :: FirstsOf(after.scenarios, trial) == FirstsOf(before.scenarios, trial))
  }

  /** A pointer that was set is kept; one that was null names the trial's version-1 scenario. */
  ghost predicate PointerFilled(before: Row, after: Row, column: string, scenarios: Table, trial: int) {
    && after == before[column := CellAt(after, column)]
    && if CellAt(before, column) != Null then CellAt(after, column) == CellAt(before, column)
       else exists scenario :: FirstsOf(scenarios, trial) == {scenario} && CellAt(after, column) == Num(scenario)
  }

  ghost predicate TrialsPointed(before: Fill, after: Fill, done: set<int>) {
    && after.trials.columns == before.trials.columns && after.trials.rows.Keys == before.trials.rows.Keys
    && forall id | id in after.trials.rows ::
         if id in done then PointerFilled(before.trials.rows[id], after.trials.rows[id], ACTIVE, after.scenarios, id)
         else after.trials.rows[id] == before.trials.rows[id]
  }

  ghost predicate SessionsLinked(before: Fill, after: Fill, done: set<int>) {
    && after.sessions.columns == before.sessions.columns && after.sessions.rows.Keys == before.sessions.rows.Keys
    && forall id | id in after.sessions.rows ::
         var trial := CellAt(before.sessions.rows[id], "trial_id");
         if trial.Num? && trial.n in done
         then PointerFilled(before.sessions.rows[id], after.sessions.rows[id], LINK, after.scenarios, trial.n)
         else after.sessions.rows[id] == before.sessions.rows[id]
  }

  ghost predicate Backfilled(before: Fill, after: Fill, done: set<int>) {
    ScenariosGrew(before, after, done) && TrialsPointed(before, after, done) && SessionsLinked(before, after, done)
  }

  // One iteration.

  function Inserted(scenarios: Table, id: int, row: Row): Table {
    scenarios.(rows := scenarios.rows[id := row])
  }

  lemma NewScenarioCells(copied: Row, trialId: int, id: int, columns: set<string>)
    requires {"id", "trial_id", "version_index"} <= columns
    ensures var row := Widened(FirstScenario(copied, trialId, id), columns);
            row.Keys == columns && row["id"] == Num(id) && IsFirstOf(row, trialId)
  {
    assert "id" != "trial_id" && "id" != "version_index" by {
      assert |"id"| == 2;
    }
    assert "trial_id"[0] != "version_index"[0];
  }

  lemma InsertedFirst(scenarios: Table, id: int, row: Row, trialId: int)
    requires TableOk(scenarios) && id !in scenarios.rows && FirstsOf(scenarios, trialId) == {}
    requires row.Keys == scenarios.columns && "id" in row && row["id"] == Num(id) && IsFirstOf(row, trialId)
    ensures TableOk(Inserted(scenarios, id, row))
    ensures FirstsOf(Inserted(scenarios, id, row), trialId) == {id}
    ensures forall other | other != trialId ::
              FirstsOf(Inserted(scenarios, id, row), other) == FirstsOf(scenarios, other)
  {
    var after := Inserted(scenarios, id, row);
    forall other, s | s in FirstsOf(after, other) && s != id ensures s in FirstsOf(scenarios, other) {
    }
    assert id in FirstsOf(after, trialId);
    forall other | other != trialId ensures FirstsOf(after, other) == FirstsOf(scenarios, other) {
      assert id !in FirstsOf(after, other);
    }
  }

  lemma EnsureFirstGrows(f: Fill, draft: Row, trialId: int)
    requires FillOk(f) && EnsureFirst(f, draft, trialId).Done?
    ensures var (scenario, next) := EnsureFirst(f, draft, trialId).value;
            && FillOk(next) && next.trials == f.trials && next.sessions == f.sessions
            && FirstsOf(next.scenarios, trialId) == {scenario}
            && ScenariosGrew(f, next, {trialId})
  {
    var (scenario, next) := EnsureFirst(f, draft, trialId).value;
    var existing := FirstsOf(f.scenarios, trialId);
    if existing != {} {
      assert forall id | id in existing :: id == scenario;
      assert existing == {scenario};
    } else {
      var row := Widened(FirstScenario(draft, trialId, f.nextId), f.scenarios.columns);
      NewScenarioCells(draft, trialId, f.nextId, f.scenarios.columns);
      InsertedFirst(f.scenarios, f.nextId, row, trialId);
      InsertedGrows(f, next, row, trialId);
    }
  }

  lemma InsertedGrows(f: Fill, next: Fill, row: Row, trialId: int)
    requires next.scenarios == Inserted(f.scenarios, f.nextId, row) && f.nextId !in f.scenarios.rows
    requires IsFirstOf(row, trialId) && FirstsOf(f.scenarios, trialId) == {}
    requires FirstsOf(next.scenarios, trialId) == {f.nextId}
    requires forall other | other != trialId :: FirstsOf(next.scenarios, other) == FirstsOf(f.scenarios, other)
    ensures ScenariosGrew(f, next, {trialId})
  {
    assert trialId in {trialId};
  }

  lemma StepBackfills(f: Fill, draft: Row, trialId: int)
    requires FillOk(f) && Step(f, draft, trialId).Done?
    ensures var next := Step(f, draft, trialId).value;
            FillOk(next) && Backfilled(f, next, {trialId})
  {
    EnsureFirstGrows(f, draft, trialId);
    var (scenario, ensured) := EnsureFirst(f, draft, trialId).value;
    PointersBackfill(f, ensured, trialId, scenario);
  }

  lemma PointersBackfill(f: Fill, ensured: Fill, trialId: int, scenario: int)
    requires FillOk(f) && FillOk(ensured) && ensured.trials == f.trials && ensured.sessions == f.sessions
    requires FirstsOf(ensured.scenarios, trialId) == {scenario} && ScenariosGrew(f, ensured, {trialId})
    ensures var next := ensured.(trials := Pointed(f.trials, trialId, scenario),
                                 sessions := Linked(f.sessions, trialId, scenario));
            FillOk(next) && Backfilled(f, next, {trialId})
  {
    var next := ensured.(trials := Pointed(f.trials, trialId, scenario),
                         sessions := Linked(f.sessions, trialId, scenario));
    PointedFills(f.trials, trialId, scenario, ensured.scenarios);
    assert TrialsPointed(f, next, {trialId});
    LinkedFills(f.sessions, trialId, scenario, ensured.scenarios);
    assert SessionsLinked(f, next, {trialId}) by {
      OnlyOneDone(f.sessions.rows, trialId);
    }
    assert ScenariosGrew(f, next, {trialId});
  }

  lemma OnlyOneDone(rows: map<int, Row>, trialId: int)
    ensures forall id | id in rows ::
              var trial := CellAt(rows[id], "trial_id");
              trial.Num? && trial.n in {trialId} <==> trial == Num(trialId)
  {
  }

  lemma PointedFills(trials: Table, trialId: int, scenario: int, scenarios: Table)
    requires TableOk(trials) && ACTIVE in trials.columns && FirstsOf(scenarios, trialId) == {scenario}
    ensures TableOk(Pointed(trials, trialId, scenario))
    ensures trialId in trials.rows ==>
              PointerFilled(trials.rows[trialId], Pointed(trials, trialId, scenario).rows[trialId], ACTIVE, scenarios,
                            trialId)
  {
  }

  lemma LinkedFills(sessions: Table, trialId: int, scenario: int, scenarios: Table)
    requires TableOk(sessions) && LINK in sessions.columns && FirstsOf(scenarios, trialId) == {scenario}
    ensures TableOk(Linked(sessions, trialId, scenario))
    ensures forall id | id in sessions.rows ::
              if CellAt(sessions.rows[id], "trial_id") == Num(trialId)
              then PointerFilled(sessions.rows[id], Linked(sessions, trialId, scenario).rows[id], LINK, scenarios,
                                 trialId)
              else Linked(sessions, trialId, scenario).rows[id] == sessions.rows[id]
  {
  }

  // Many iterations.

  lemma BackfilledThen(a: Fill, b: Fill, c: Fill, first: set<int>, second: set<int>)
    requires Backfilled(a, b, first) && Backfilled(b, c, second) && first !! second
    ensures Backfilled(a, c, first + second)
  {
    ScenariosGrewThen(a, b, c, first, second);
    TrialsPointedThen(a, b, c, first, second);
    SessionsLinkedThen(a, b, c, first, second);
  }

  lemma ScenariosGrewThen(a: Fill, b: Fill, c: Fill, first: set<int>, second: set<int>)
    requires ScenariosGrew(a, b, first) && ScenariosGrew(b, c, second) && first !! second
    ensures ScenariosGrew(a, c, first + second)
  {
    forall id | id in c.scenarios.rows && id !in a.scenarios.rows
      ensures exists trial :: trial in first + second && FirstsOf(a.scenarios, trial) == {}
                && IsFirstOf(c.scenarios.rows[id], trial)
    {
      if id in b.scenarios.rows {
        var trial :| trial in first && FirstsOf(a.scenarios, trial) == {} && IsFirstOf(b.scenarios.rows[id], trial);
        assert trial in first + second;
      } else {
        var trial :| trial in second && FirstsOf(b.scenarios, trial) == {} && IsFirstOf(c.scenarios.rows[id], trial);
        assert trial in first + second && trial !in first;
      }
    }
    forall trial | trial in first + second ensures exists scenario :: FirstsOf(c.scenarios, trial) == {scenario} {
      if trial in first {
        assert trial !in second;
        var scenario :| FirstsOf(b.scenarios, trial) == {scenario};
        assert FirstsOf(c.scenarios, trial) == {scenario};
      }
    }
  }

  lemma TrialsPointedThen(a: Fill, b: Fill, c: Fill, first: set<int>, second: set<int>)
    requires TrialsPointed(a, b, first) && TrialsPointed(b, c, second) && first !! second
    requires ScenariosGrew(b, c, second)
    ensures TrialsPointed(a, c, first + second)
  {
    forall id | id in c.trials.rows && id in first
      ensures PointerFilled(a.trials.rows[id], c.trials.rows[id], ACTIVE, c.scenarios, id)
    {
      assert id !in second;
      assert FirstsOf(c.scenarios, id) == FirstsOf(b.scenarios, id);
    }
  }

  lemma SessionsLinkedThen(a: Fill, b: Fill, c: Fill, first: set<int>, second: set<int>)
    requires SessionsLinked(a, b, first) && SessionsLinked(b, c, second) && first !! second
    requires ScenariosGrew(b, c, second)
    ensures SessionsLinked(a, c, first + second)
  {
    forall id | id in c.sessions.rows
      ensures var trial := CellAt(a.sessions.rows[id], "trial_id");
              CellAt(b.sessions.rows[id], "trial_id") == trial
    {
    }
    forall id | id in c.sessions.rows
      ensures var trial := CellAt(a.sessions.rows[id], "trial_id");
              if trial.Num? && trial.n in first + second
              then PointerFilled(a.sessions.rows[id], c.sessions.rows[id], LINK, c.scenarios, trial.n)
              else c.sessions.rows[id] == a.sessions.rows[id]
    {
      var trial := CellAt(a.sessions.rows[id], "trial_id");
      if trial.Num? && trial.n in first {
        assert trial.n !in second;
        assert FirstsOf(c.scenarios, trial.n) == FirstsOf(b.scenarios, trial.n);
      }
    }
  }

  function Seen(order: seq<int>): set<int> {
    set id | id in order
  }

  predicate Distinct(order: seq<int>) {
    forall i, j | 0 <= i < j < |order| :: order[i] != order[j]
  }

  /** In whatever order the trials come back, a backfill that does not raise leaves each of them
      exactly one version-1 scenario, fills only null pointers, and fills them with it. */
  lemma {:induction false} FilledBackfills(f: Fill, drafts: map<int, Row>, order: seq<int>)
    requires FillOk(f) && Distinct(order) && Filled(f, drafts, order).Done?
    ensures FillOk(Filled(f, drafts, order).value)
    ensures Backfilled(f, Filled(f, drafts, order).value, Seen(order))
    decreases |order|
  {
    if order == [] {
      assert Seen(order) == {};
    } else {
      var draft := if order[0] in drafts then drafts[order[0]] else map[];
      StepBackfills(f, draft, order[0]);
      var next := Step(f, draft, order[0]).value;
      FilledBackfills(next, drafts, order[1..]);
      BackfilledThen(f, next, Filled(next, drafts, order[1..]).value, {order[0]}, Seen(order[1..]));
      assert Seen(order) == {order[0]} + Seen(order[1..]);
    }
  }

  // The method itself.

  /** The early returns: without these tables and columns the backfill does nothing. */
  predicate Applies(tables: Tables) {
    && TRIALS in tables && SCENARIOS in tables && SESSIONS in tables
    && ACTIVE in tables[TRIALS].columns && "trial_id" in tables[SCENARIOS].columns
    && LINK in tables[SESSIONS].columns && "trial_id" in tables[SESSIONS].columns
  }

  predicate Readable(tables: Tables)
    requires Applies(tables)
  {
    TRIAL_COLUMNS <= tables[TRIALS].columns && "id" in tables[SCENARIOS].columns
  }

  function FillOf(tables: Tables, nextId: int): Fill
    requires Applies(tables)
  {
    Fill(tables[TRIALS], tables[SCENARIOS], tables[SESSIONS], nextId)
  }

  function WithFill(tables: Tables, f: Fill): Tables {
    tables[TRIALS := f.trials][SCENARIOS := f.scenarios][SESSIONS := f.sessions]
  }

  ghost function BackfillOutcome(tables: Tables, order: seq<int>, nextId: int, now: int): Outcome<Tables> {
    if !Applies(tables) then Done(tables)
    else if !Readable(tables) then Raised(ColumnMissing)
    else
      var filled :- Filled(FillOf(tables, nextId), Drafts(tables[TRIALS].rows, now), order);
      Done(WithFill(tables, filled))
  }

  /** The first statements of an iteration: find the version-1 scenario or insert it. */
  method FindOrInsert(f: Fill, draft: Row, trialId: int) returns (r: Outcome<(int, Fill)>)
    ensures r == EnsureFirst(f, draft, trialId)
  {
    if "version_index" !in f.scenarios.columns {
      return Raised(ColumnMissing);
    }
    var existing := FirstsOf(f.scenarios, trialId);
    if existing != {} {
      var id := NextOf(existing);
      if existing != {id} {
        // scalar_one_or_none finds more than one row
        var other := NextOf(existing - {id});
        assert other in existing && id in existing && other != id;
        return Raised(SeveralFirstScenarios);
      }
      assert AnyOf(existing) in {id};
      return Done((id, f));
    }
    if !(SCENARIO_COLUMNS <= f.scenarios.columns) {
      return Raised(ColumnMissing);
    }
    if f.nextId in f.scenarios.rows {
      return Raised(DuplicateKey);
    }
    var row := Widened(FirstScenario(draft, trialId, f.nextId), f.scenarios.columns);
    return Done((f.nextId, f.(scenarios := Inserted(f.scenarios, f.nextId, row), nextId := f.nextId + 1)));
  }

  lemma WithFillOk(tables: Tables, f: Fill)
    requires TablesOk(tables) && FillOk(f)
    ensures TablesOk(WithFill(tables, f))
  {
  }

  lemma WithFillTwice(tables: Tables, f: Fill, g: Fill)
    ensures WithFill(WithFill(tables, f), g) == WithFill(tables, g)
  {
  }

  lemma WithFillOf(tables: Tables, nextId: int)
    requires Applies(tables)
    ensures WithFill(tables, FillOf(tables, nextId)) == tables
  {
  }

  /** The loop of `_backfill_scenario_versions_and_links`. */
  method FillEachTrial(bind: Connection, start: Fill, drafts: map<int, Row>, order: seq<int>) returns (r: Outcome<()>)
    requires bind.Valid() && FillOk(start) && bind.tables == WithFill(bind.tables, start)
    modifies bind`tables
    ensures bind.Valid()
    ensures r.Raised? <==> Filled(start, drafts, order).Raised?
    ensures r.Done? ==> bind.tables == WithFill(old(bind.tables), Filled(start, drafts, order).value)
  {
    var f := start;
    for i := 0 to |order|
      invariant bind.Valid() && FillOk(f) && bind.tables == WithFill(old(bind.tables), f)
      invariant Filled(start, drafts, order) == Filled(f, drafts, order[i..])
    {
      var trialId := order[i];
      var draft := if trialId in drafts then drafts[trialId] else map[];
      assert order[i..][0] == trialId && order[i..][1..] == order[i + 1..];
      var ensured := FindOrInsert(f, draft, trialId);
      if ensured.Raised? {
        return Raised(ensured.failure);
      }
      StepBackfills(f, draft, trialId);
      var (scenario, next) := ensured.value;
      WithFillTwice(old(bind.tables), f,
                    next.(trials := Pointed(f.trials, trialId, scenario),
                          sessions := Linked(f.sessions, trialId, scenario)));
      f := next.(trials := Pointed(f.trials, trialId, scenario), sessions := Linked(f.sessions, trialId, scenario));
      WithFillOk(bind.tables, f);
      bind.tables := WithFill(bind.tables, f);
    }
    return Done(());
  }

  method BackfillScenarios(bind: Connection, order: seq<int>, nextId: int, now: int) returns (r: Outcome<()>)
    requires bind.Valid()
    modifies bind`tables
    ensures bind.Valid()
    ensures r.Raised? <==> BackfillOutcome(old(bind.tables), order, nextId, now).Raised?
    ensures r.Done? ==> Done(bind.tables) == BackfillOutcome(old(bind.tables), order, nextId, now)
  {
    if !Applies(bind.tables) {
      return Done(());
    }
    if !Readable(bind.tables) {
      return Raised(ColumnMissing);
    }
    WithFillOf(bind.tables, nextId);
    r := FillEachTrial(bind, FillOf(bind.tables, nextId), Drafts(bind.tables[TRIALS].rows, now), order);
  }
}
