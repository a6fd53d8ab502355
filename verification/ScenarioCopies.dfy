/**
 What the scenarios the backfill inserts hold: a copy of their trial, locked exactly when the trial is no
 longer open.
 */
module ScenarioCopies {
  import opened Catalog
  import opened Sets
  import opened Parents
  import opened ParentUnification
  import opened Backfill
  import opened SchemaUnification
  import opened UpgradeLaws
  import opened ReferenceLaws
  import Text

  /** The text of a cell, or the fallback when it has none. */
  function TextOr(cell: Cell, fallback: string): Cell {
    if cell.Text? && cell.s != "" then cell else Text(fallback)
  }

  /** The trial is inviting or terminated. */
  predicate Closed(trial: Row) {
    CellAt(trial, "status").Text?
    && (Text.Strip(CellAt(trial, "status").s) == "active_inviting"
        || Text.Strip(CellAt(trial, "status").s) == "terminated")
  }

  /** The scenario is locked when it has a time of locking, and ready otherwise; it has one when the trial
      is closed: the time the trial was activated, else terminated, else the time of the migration. */
  predicate LockedLike(trial: Row, scenario: Row, now: int) {
    && CellAt(scenario, "status") == Text(if CellAt(scenario, "locked_at") != Null then "locked" else "ready")
    && (CellAt(scenario, "locked_at") != Null <==> Closed(trial))
    && (Closed(trial) ==>
          CellAt(scenario, "locked_at") ==
            if CellAt(trial, "activated_at") != Null then CellAt(trial, "activated_at")
            else if CellAt(trial, "terminated_at") != Null then CellAt(trial, "terminated_at")
            else Time(now))
  }

  /** The texts are the trial's own, empty where it has none. */
  predicate TextsLike(trial: Row, scenario: Row) {
    && CellAt(scenario, "focus_notes") == TextOr(CellAt(trial, "focus"), "")
    && CellAt(scenario, "tech_stack") == TextOr(CellAt(trial, "tech_stack"), "")
    && CellAt(scenario, "seniority") == TextOr(CellAt(trial, "seniority"), "")
    && CellAt(scenario, "template_key") == TextOr(CellAt(trial, "template_key"), "python-fastapi")
  }

  function StrippedCell(row: Row, column: string): string {
    if CellAt(row, column).Text? then Text.Strip(CellAt(row, column).s) else ""
  }

  /** The story names the trial's title, role and template. */
  predicate StoryLike(trial: Row, scenario: Row) {
    CellAt(scenario, "storyline_md") == Text(Text.Strip(
      "# " + StrippedCell(trial, "title") + "\n\nRole: " + StrippedCell(trial, "role")
      + "\nTemplate: " + StrippedCell(trial, "scenario_template")))
  }

  /** There are no prompts and no rubric, and the time of creation is the trial's. */
  predicate FreshLike(trial: Row, scenario: Row, now: int) {
    && CellAt(scenario, "task_prompts_json") == JsonText("[]") && CellAt(scenario, "rubric_json") == JsonText("{}")
    && CellAt(scenario, "created_at") ==
         if CellAt(trial, "created_at") != Null then CellAt(trial, "created_at") else Time(now)
  }

  predicate CopyOf(trial: Row, scenario: Row, now: int) {
    LockedLike(trial, scenario, now) && TextsLike(trial, scenario) && StoryLike(trial, scenario)
    && FreshLike(trial, scenario, now)
  }

  lemma LockedCells(trial: Row, now: int)
    ensures var cells, locked := CopiedCells(trial, now), LockedAt(trial, now);
            && "locked_at" in cells && cells["locked_at"] == locked
            && "status" in cells && cells["status"] == Text(if locked != Null then "locked" else "ready")
  {
  }

  lemma LockedMeans(trial: Row, scenario: Row, now: int)
    requires CellAt(scenario, "locked_at") == LockedAt(trial, now)
    requires CellAt(scenario, "status") == Text(if LockedAt(trial, now) != Null then "locked" else "ready")
    ensures LockedLike(trial, scenario, now)
  {
  }

  lemma LockedCopied(trial: Row, now: int)
    ensures LockedLike(trial, CopiedCells(trial, now), now)
  {
    LockedCells(trial, now);
    LockedMeans(trial, CopiedCells(trial, now), now);
  }

  lemma TextsCopied(trial: Row, now: int)
    ensures TextsLike(trial, CopiedCells(trial, now))
  {
  }

  lemma FreshCopied(trial: Row, now: int)
    ensures FreshLike(trial, CopiedCells(trial, now), now)
  {
  }

  lemma StoryCell(trial: Row, now: int)
    ensures var cells := CopiedCells(trial, now);
            "storyline_md" in cells && cells["storyline_md"] == Text(Storyline(trial))
  {
  }

  lemma StoryCopied(trial: Row, now: int)
    ensures StoryLike(trial, CopiedCells(trial, now))
  {
    StoryCell(trial, now);
    StorylineMeans(trial);
  }

  lemma StorylineMeans(trial: Row)
    ensures Storyline(trial) == Text.Strip(
              "# " + StrippedCell(trial, "title") + "\n\nRole: " + StrippedCell(trial, "role")
              + "\nTemplate: " + StrippedCell(trial, "scenario_template"))
  {
    var title, role, template :=
      StrippedCell(trial, "title"), StrippedCell(trial, "role"), StrippedCell(trial, "scenario_template");
    assert "# " + title + "\n\n" + "Role: " + role + "\n" + "Template: " + template
        == "# " + title + "\n\nRole: " + role + "\nTemplate: " + template;
  }

  lemma CopiedIsCopy(trial: Row, now: int)
    ensures CopyOf(trial, CopiedCells(trial, now), now)
  {
    LockedCopied(trial, now);
    TextsCopied(trial, now);
    StoryCopied(trial, now);
    FreshCopied(trial, now);
  }

  /** The three cells every scenario gets are not among the copied ones. */
  lemma DraftKept(draft: Row, trialId: int, id: int, columns: set<string>, column: string)
    requires SCENARIO_COLUMNS <= columns && column in COPIED_COLUMNS
    ensures CellAt(Widened(FirstScenario(draft, trialId, id), columns), column) == CellAt(draft, column)
  {
  }

  const COPIED_COLUMNS: set<string> := {
    "status", "storyline_md", "task_prompts_json", "rubric_json", "focus_notes", "template_key", "tech_stack",
    "seniority", "created_at", "locked_at"
  }

  predicate SameOn(a: Row, b: Row, columns: set<string>) {
    forall column | column in columns :: CellAt(a, column) == CellAt(b, column)
  }

  lemma TextsCarryOver(trial: Row, other: Row, draft: Row, scenario: Row)
    requires SameOn(trial, other, TRIAL_COLUMNS) && SameOn(draft, scenario, COPIED_COLUMNS)
    ensures TextsLike(trial, draft) <==> TextsLike(other, scenario)
    ensures StoryLike(trial, draft) <==> StoryLike(other, scenario)
  {
  }

  lemma TimesCarryOver(trial: Row, other: Row, draft: Row, scenario: Row, now: int)
    requires SameOn(trial, other, TRIAL_COLUMNS) && SameOn(draft, scenario, COPIED_COLUMNS)
    ensures LockedLike(trial, draft, now) <==> LockedLike(other, scenario, now)
    ensures FreshLike(trial, draft, now) <==> FreshLike(other, scenario, now)
  {
  }

  lemma CopyCarriesOver(trial: Row, other: Row, draft: Row, scenario: Row, now: int)
    requires CopyOf(trial, draft, now)
    requires SameOn(trial, other, TRIAL_COLUMNS) && SameOn(draft, scenario, COPIED_COLUMNS)
    ensures CopyOf(other, scenario, now)
  {
    TextsCarryOver(trial, other, draft, scenario);
    TimesCarryOver(trial, other, draft, scenario, now);
  }

  // Through the loop.

  /** The new row `id` is a version-1 scenario of one of the trials, copied from it. */
  ghost predicate CopiedFrom(trials: map<int, Row>, order: seq<int>, scenario: Row, now: int) {
    exists trial: int :: trial in order && trial in trials
      && CellAt(scenario, "trial_id") == Num(trial) && CellAt(scenario, "version_index") == Num(1)
      && CopyOf(trials[trial], scenario, now)
  }

  lemma InsertedIsCopy(f: Fill, trials: map<int, Row>, trial: int, now: int)
    requires FillOk(f) && trial in trials && EnsureFirst(f, CopiedCells(trials[trial], now), trial).Done?
    ensures var g := EnsureFirst(f, CopiedCells(trials[trial], now), trial).value.1;
            forall id | id in g.scenarios.rows && id !in f.scenarios.rows ::
              CopiedFrom(trials, [trial], g.scenarios.rows[id], now)
  {
    var draft := CopiedCells(trials[trial], now);
    var g := EnsureFirst(f, draft, trial).value.1;
    forall id | id in g.scenarios.rows && id !in f.scenarios.rows
      ensures CopiedFrom(trials, [trial], g.scenarios.rows[id], now)
    {
      var row := Widened(FirstScenario(draft, trial, f.nextId), f.scenarios.columns);
      assert g.scenarios.rows[id] == row;
      NewScenarioCells(draft, trial, f.nextId, f.scenarios.columns);
      CopiedIsCopy(trials[trial], now);
      forall column | column in COPIED_COLUMNS
        ensures CellAt(draft, column) == CellAt(row, column)
      {
        DraftKept(draft, trial, f.nextId, f.scenarios.columns, column);
      }
      CopyCarriesOver(trials[trial], trials[trial], draft, row, now);
      assert trial in [trial];
    }
  }

  /** Every scenario the loop inserts is a copy of the trial it is for. */
  lemma {:induction false} FilledCopies(f: Fill, trials: map<int, Row>, order: seq<int>, now: int)
    requires FillOk(f) && (forall trial | trial in order :: trial in trials)
    requires Distinct(order) && Filled(f, Drafts(trials, now), order).Done?
    ensures var g := Filled(f, Drafts(trials, now), order).value;
            && (forall id | id in f.scenarios.rows ::
                  id in g.scenarios.rows && g.scenarios.rows[id] == f.scenarios.rows[id])
            && forall id | id in g.scenarios.rows && id !in f.scenarios.rows ::
                 CopiedFrom(trials, order, g.scenarios.rows[id], now)
    decreases |order|
  {
    if order != [] {
      var draft := CopiedCells(trials[order[0]], now);
      assert order[0] in Drafts(trials, now) && Drafts(trials, now)[order[0]] == draft;
      StepBackfills(f, draft, order[0]);
      InsertedIsCopy(f, trials, order[0], now);
      var next := Step(f, draft, order[0]).value;
      assert next.scenarios == EnsureFirst(f, draft, order[0]).value.1.scenarios;
      FilledCopies(next, trials, order[1..], now);
      var g := Filled(f, Drafts(trials, now), order).value;
      assert g == Filled(next, Drafts(trials, now), order[1..]).value;
      forall id | id in g.scenarios.rows && id !in f.scenarios.rows
        ensures CopiedFrom(trials, order, g.scenarios.rows[id], now)
      {
        if id in next.scenarios.rows {
          assert CopiedFrom(trials, [order[0]], next.scenarios.rows[id], now);
        } else {
          assert CopiedFrom(trials, order[1..], g.scenarios.rows[id], now);
        }
      }
    }
  }

  lemma PointerIsNotCopied()
    ensures ACTIVE !in TRIAL_COLUMNS
  {
  }

  /** Trials keep what a scenario copies of them while their pointers are filled. */
  lemma PointingKeepsCopied(t: Tables, after: Tables, done: set<int>, trial: int)
    requires BackfilledTables(t, after, done) && Applies(t) && trial in RowIds(t, TRIALS)
    ensures trial in RowIds(after, TRIALS) && SameOn(t[TRIALS].rows[trial], after[TRIALS].rows[trial], TRIAL_COLUMNS)
  {
    PointerIsNotCopied();
    var f, g := FillOf(t, 0), FillOf(after, 0);
    assert TrialsPointed(f, g, done);
  }

  /** A scenario the backfill added belongs to one trial, is its version 1, and is a copy of it. */
  ghost predicate IsAddedCopy(after: Tables, id: int, now: int)
    requires TRIALS in after && id in RowIds(after, SCENARIOS)
  {
    exists trial | trial in after[TRIALS].rows :: IsCopyOfTrial(after, id, trial, now)
  }

  ghost predicate IsCopyOfTrial(after: Tables, id: int, trial: int, now: int)
    requires TRIALS in after && id in RowIds(after, SCENARIOS) && trial in after[TRIALS].rows
  {
    && CellAt(after[SCENARIOS].rows[id], "trial_id") == Num(trial)
    && CellAt(after[SCENARIOS].rows[id], "version_index") == Num(1)
    && CopyOf(after[TRIALS].rows[trial], after[SCENARIOS].rows[id], now)
  }

  lemma BackfillAddsCopies(t: Tables, order: seq<int>, nextId: int, now: int, after: Tables, id: int)
    requires TablesOk(t) && Distinct(order) && BackfillOutcome(t, order, nextId, now) == Done(after)
    requires TRIALS in t && Seen(order) == RowIds(t, TRIALS)
    requires id in RowIds(after, SCENARIOS) && id !in RowIds(t, SCENARIOS)
    ensures TRIALS in after && IsAddedCopy(after, id, now)
  {
    BackfillResult(t, order, nextId, now, after);
    assert Applies(t);
    var f, rows := FillOf(t, nextId), t[TRIALS].rows;
    forall trial | trial in order ensures trial in rows {
      assert trial in Seen(order);
    }
    FilledCopies(f, rows, order, now);
    NamesDiffer();
    var g := Filled(f, Drafts(rows, now), order).value;
    var scenario := after[SCENARIOS].rows[id];
    assert scenario == g.scenarios.rows[id];
    assert CopiedFrom(rows, order, scenario, now);
    var trial: int :| trial in order && trial in rows && CellAt(scenario, "trial_id") == Num(trial)
      && CellAt(scenario, "version_index") == Num(1) && CopyOf(rows[trial], scenario, now);
    PointingKeepsCopied(t, after, Seen(order), trial);
    CopyCarriesOver(rows[trial], after[TRIALS].rows[trial], scenario, scenario, now);
    assert IsCopyOfTrial(after, id, trial, now);
  }

  /** Every scenario the whole upgrade adds is the first version of one trial and a copy of it: locked
      exactly when the trial is closed, with the trial's own texts and times. */
  lemma UpgradeAddsCopies(tables: Tables, order: seq<int>, nextId: int, now: int, after: Tables, id: int)
    requires Upgrades(tables, order, nextId, now, after)
    requires id in RowIds(after, SCENARIOS) && id !in RowIds(tables, SCENARIOS)
    ensures TRIALS in after && IsAddedCopy(after, id, now)
  {
    UpgradeGives(tables, order, nextId, now, after);
    ReshapedTables(tables);
    ReshapedIds(tables);
    ReshapedRows(tables);
    NamesDiffer();
    BackfillAddsCopies(BeforeBackfill(tables), order, nextId, now, after, id);
  }

  // When the backfill raises.

  /** The sequence is ahead of the ids in use. */
  predicate SequenceAhead(scenarios: Table, nextId: int) {
    forall id | id in scenarios.rows :: id < nextId
  }

  predicate IsFirstVersion(row: Row, trial: int) {
    CellAt(row, "trial_id") == Num(trial) && CellAt(row, "version_index") == Num(1)
  }

  predicate HasSeveralFirsts(scenarios: Table, trial: int) {
    exists a, b | a in scenarios.rows && b in scenarios.rows ::
      a != b && IsFirstVersion(scenarios.rows[a], trial) && IsFirstVersion(scenarios.rows[b], trial)
  }

  predicate HasNoFirst(scenarios: Table, trial: int) {
    forall id | id in scenarios.rows :: !IsFirstVersion(scenarios.rows[id], trial)
  }

  /** The trial cannot be given a scenario. */
  predicate Unstartable(scenarios: Table, trial: int) {
    || "version_index" !in scenarios.columns
    || HasSeveralFirsts(scenarios, trial)
    || (HasNoFirst(scenarios, trial) && !(SCENARIO_COLUMNS <= scenarios.columns))
  }

  lemma FirstsMean(scenarios: Table, trial: int)
    ensures HasSeveralFirsts(scenarios, trial) <==>
              exists a, b | a in FirstsOf(scenarios, trial) && b in FirstsOf(scenarios, trial) :: a != b
    ensures HasNoFirst(scenarios, trial) <==> FirstsOf(scenarios, trial) == {}
  {
    forall id
      ensures id in FirstsOf(scenarios, trial) <==>
                id in scenarios.rows && IsFirstVersion(scenarios.rows[id], trial)
    {
    }
    if FirstsOf(scenarios, trial) != {} {
      var some := AnyOf(FirstsOf(scenarios, trial));
      assert IsFirstVersion(scenarios.rows[some], trial);
    }
  }

  lemma StepRaisesWhen(f: Fill, draft: Row, trial: int)
    requires FillOk(f) && SequenceAhead(f.scenarios, f.nextId)
    ensures Step(f, draft, trial).Raised? <==> Unstartable(f.scenarios, trial)
    ensures Step(f, draft, trial).Done? ==>
              var next := Step(f, draft, trial).value;
              FillOk(next) && SequenceAhead(next.scenarios, next.nextId)
                  && next.scenarios.columns == f.scenarios.columns
              && forall other | other != trial :: FirstsOf(next.scenarios, other) == FirstsOf(f.scenarios, other)
  {
    FirstsMean(f.scenarios, trial);
    if Step(f, draft, trial).Done? {
      StepBackfills(f, draft, trial);
    }
  }

  lemma SameFirstsSameFate(a: Table, b: Table, trial: int)
    requires a.columns == b.columns && FirstsOf(a, trial) == FirstsOf(b, trial)
    ensures Unstartable(a, trial) <==> Unstartable(b, trial)
  {
    FirstsMean(a, trial);
    FirstsMean(b, trial);
  }

  /** The loop raises exactly when some trial cannot be given a scenario. */
  lemma {:induction false} FilledRaisesWhen(f: Fill, drafts: map<int, Row>, order: seq<int>)
    requires FillOk(f) && SequenceAhead(f.scenarios, f.nextId) && Distinct(order)
    ensures Filled(f, drafts, order).Raised? <==> exists trial | trial in order :: Unstartable(f.scenarios, trial)
    decreases |order|
  {
    if order != [] {
      var draft := if order[0] in drafts then drafts[order[0]] else map[];
      StepRaisesWhen(f, draft, order[0]);
      if Step(f, draft, order[0]).Done? {
        var next := Step(f, draft, order[0]).value;
        FilledRaisesWhen(next, drafts, order[1..]);
        forall trial | trial in order[1..]
          ensures Unstartable(next.scenarios, trial) <==> Unstartable(f.scenarios, trial)
        {
          SameFirstsSameFate(next.scenarios, f.scenarios, trial);
        }
      }
    }
  }

  /** With a sequence ahead of the ids in use, the backfill raises exactly when it has trials to fill and a
      column it reads is missing, or some trial has several version-1 scenarios, or has none and a column of
      the new one is missing. */
  lemma BackfillRaisesWhen(t: Tables, order: seq<int>, nextId: int, now: int)
    requires TablesOk(t) && Distinct(order) && Applies(t) && SequenceAhead(t[SCENARIOS], nextId)
    ensures BackfillOutcome(t, order, nextId, now).Raised? <==>
              || !(TRIAL_COLUMNS <= t[TRIALS].columns) || "id" !in t[SCENARIOS].columns
              || exists trial | trial in order :: Unstartable(t[SCENARIOS], trial)
  {
    if TRIAL_COLUMNS <= t[TRIALS].columns && "id" in t[SCENARIOS].columns {
      FilledRaisesWhen(FillOf(t, nextId), Drafts(t[TRIALS].rows, now), order);
    }
  }
}
