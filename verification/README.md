# Winoe evaluation and migration model

A Dafny model of four parts of the Winoe backend, and of two smaller ones, with proofs of what they
promise. Every method follows the branches, order and error paths of the code it cites; what it
computes is stated by a declarative function or predicate, and the laws are lemmas about those.

## What is modelled

- **The schema-unification migration** (PostgreSQL branch) and the session-dedupe migration.
  `Catalog.Connection` is the database the migration works through. `Folding`, `Parents`,
  `ParentUnification`, `Backfill`, `ForeignKeys` and `SchemaUnification` are its parts as imperative
  methods over arbitrary table contents; `LegacyReferences` is about the keys that hold it back,
  `ParentGuards` says of each starting shape what it refuses, `ScenarioCopies` what the rows it adds
  hold, and `UpgradeLaws`, `ReferenceLaws` and `DowngradeLaws` are about whole runs.
  `SessionDedupe` is the other migration, for every processing order; `DedupeLaws` says what it does
  of simulations, addresses and ids.
- **Evaluation runs as a transactional protocol.** `RunSession.Session` holds what one database
  session sees of its run. Every read, flush and commit may fail, a failed flush poisons the
  session, a commit may be lost or land and raise all the same, other sessions commit in between,
  and what is not committed is rolled back. `Pipeline` delivers a job through it, and `RunHistory`
  is about sequences of deliveries, `FailedRuns` about those that cannot complete their run, `Records`
  about the columns of what is committed.
- **Evaluate, persist, compose.** `EvaluatorEvidence`, `Scoring` and `DeterministicEvaluator` produce
  an evaluation; `EvidencePointers`, `DayScores` and `ReviewerReports` check and store it; `Report`
  composes the report; `ReportRoundTrip` connects both ends, through the protocol above.
  `EvidenceLaws`, `ScoreLaws` and `ReportLaws` say in plain numbers and names what evidence, scores
  and report stand for.
- **Frozen AI policy and prompts.** `SnapshotContract`, `RubricOverlay` and `OverlayLaws` for the
  digest-protected snapshot and its rubric rows, `PromptLayers` for prompt resolution in two stages.
- **Media purge** (`MediaPurge`) and the **canonical query string** of presigned requests
  (`PercentEncoding`, `CanonicalQuery`).

`Values`, `Text`, `Sets` and `Sorting` hold what several parts share. Hashes, LOWER and `str.lower`,
and the URL check are function parameters: everything holds for any function in their place, or
under a condition the lemma states. Scores are exact rationals.

## Findings

Where the code does not do what one would first say of it, the exact condition is proved:

- `_ensure_fk` skips keys without a name, so it ends with exactly one key of the requested shape if
  and only if no nameless key has that shape (`ForeignKeys.OneKeyOfShape`). PostgreSQL names every
  constraint, so there it always does.
- A split schema whose child keys are ordinary upgrades; one with some other key to `simulations` (of
  another table, over another column, or of `simulations` itself) cannot, and which keys those are is
  exact (`ReferenceLaws.UpgradeSound`, `ReferenceLaws.OrdinaryKeysGo`,
  `ReferenceLaws.OtherKeysHoldBack`).
- Session dedupe leaves two workspaces for one task if and only if a session whose workspaces stay had
  two (`SessionDedupe.OneWorkspaceEachWhen`), which the constraint on `workspaces` forbids.
- Persistence refuses deterministic evidence if and only if a run id or transcript reference is only
  white space (`EvaluatorEvidence.DayEvidenceAccepted`).
- When one reviewer agent answers two days as the same day, the reports pass every check, the unique
  constraint refuses the flush, and the poisoned session cannot record the failure: the job raises and
  leaves no trace. With a summary in range that is the only such case (`FailedRuns.NoTraceWhen`,
  `FailedRuns.OneReviewerTwiceOnADay`).
- A failed run has no day scores, but it keeps its reviewer reports if and only if those pass and the
  day scores are refused, because reports are flushed first (`FailedRuns.FailedRunKeepsReports`,
  `FailedRuns.TwoReviewersOnOneDay`).
- A purge is counted as failed, or raises, while the recording is purged if and only if its commit
  landed although it raised; it still has exactly one success audit
  (`MediaPurge.PurgedThoughNotCounted`, `MediaPurge.UnseenCommitPurges`).
- A redelivery answers with the error code as stored: stripped, and `evaluation_failed` for a blank one
  (`RunHistory.Redeliver`).
- The overlay keeps the contract if and only if no row used is blank
  (`RubricOverlay.OverlayKeepsContract`).

## Model

| member | source | states |
|---|---|---|
| `Folding.FoldColumn` | alembic/versions/202604130001_unify_trials_schema_and_child_fks.py:952-1017 | the conflict check, COALESCE update and column drop (or rename) leave the target column with whichever cell was not null, and the keys as a drop or rename leaves them; it raises exactly when some row has two different values, and then nothing changed |
| `Folding.FoldedAsStatements` | alembic/versions/202604130001_unify_trials_schema_and_child_fks.py:971-1017 | update-then-drop and rename both come to the declared fold |
| `ParentUnification.FoldMappedColumn` | alembic/versions/202604130001_unify_trials_schema_and_child_fks.py:852-949 | the same of the mapped parent column, whose key to the users takes the canonical name along when the column is renamed, under whichever old name there is, unless the new name is taken |
| `ForeignKeys.MoveName` | alembic/versions/202604130001_unify_trials_schema_and_child_fks.py:305-312 | a constraint is renamed exactly when its old name is there and the new one is free |
| `Parents.CheckSplit` | alembic/versions/202604130001_unify_trials_schema_and_child_fks.py:469-562 | the guard over two non-empty parent tables passes exactly when the mapping is safe, both have `id`, the primary keys are the same, and every compared cell agrees |
| `Parents.DeriveFirstScenarios` | alembic/versions/202604130001_unify_trials_schema_and_child_fks.py:584-639 | each parent asked about gets the one version-1 scenario it has; raises exactly on a column conflict, a missing column, or two candidates |
| `Parents.PopulateActive` | alembic/versions/202604130001_unify_trials_schema_and_child_fks.py:642-691 | rows whose status needs a pointer get their own first scenario, or the merge raises |
| `Parents.MergeMissingRows` | alembic/versions/202604130001_unify_trials_schema_and_child_fks.py:694-751 | inserts exactly the legacy rows the canonical table lacks; raises exactly when the mapping is unsafe, `id` is missing or a needed pointer cannot be derived, and then nothing changed |
| `ParentUnification.DropColumns` | alembic/versions/202604130001_unify_trials_schema_and_child_fks.py:819-849 | drops exactly the named columns and the keys over them |
| `ParentUnification.UnifyParents` | alembic/versions/202604130001_unify_trials_schema_and_child_fks.py:1619-1656 | raises exactly in the blocked states; otherwise one parent table as declared, and when it was canonical already its keys exactly as the mapped column leaves them |
| `ParentUnification.IdsAreTheUnion` | alembic/versions/202604130001_unify_trials_schema_and_child_fks.py:694-767 | the unified parent holds the ids of both tables |
| `ParentUnification.CanonicalCellsKept` | alembic/versions/202604130001_unify_trials_schema_and_child_fks.py:852-927 | every canonical cell is kept; the mapped column is the coalesce of its two names |
| `ParentUnification.LegacyCellsKept` | alembic/versions/202604130001_unify_trials_schema_and_child_fks.py:435-562 | every compared or copied legacy cell survives, and a column that vanished held only nulls |
| `ParentUnification.FilledPointerIsFirstScenario` | alembic/versions/202604130001_unify_trials_schema_and_child_fks.py:642-691 | a pointer the merge filled names the only version-1 scenario of that same parent; no row that needs one goes without |
| `ParentGuards.CanonicalBlockedWhen` | alembic/versions/202604130001_unify_trials_schema_and_child_fks.py:852-949 | with `trials` alone the parents are refused if and only if a row names two people under its two columns |
| `ParentGuards.LegacyBlockedWhen` | alembic/versions/202604130001_unify_trials_schema_and_child_fks.py:384-460 | with `simulations` alone, if and only if a row names two people or some cell has a column the canonical schema does not know |
| `ParentGuards.SplitBlockedWhen` | alembic/versions/202604130001_unify_trials_schema_and_child_fks.py:463-691 | with both tables, if and only if a row of either names two people, a legacy cell has no column to go to, a table has no `id`, both hold rows and differ in ids or in a compared cell, or a row to be copied needs a pointer and has not exactly one first scenario |
| `ParentGuards.ConflictingParentRaises` | alembic/versions/202604130001_unify_trials_schema_and_child_fks.py:384-412 | a row of either parent table whose two mapped cells are set and differ makes the whole upgrade raise |
| `Backfill.FindOrInsert` | alembic/versions/202604130001_unify_trials_schema_and_child_fks.py:1558-1599 | finds the version-1 scenario of a trial or inserts it; raises when there are several |
| `Backfill.FillEachTrial` | alembic/versions/202604130001_unify_trials_schema_and_child_fks.py:1516-1616 | the loop over the trials does what the step function does, in the order read |
| `Backfill.BackfillScenarios` | alembic/versions/202604130001_unify_trials_schema_and_child_fks.py:1516-1616 | returns early, raises or fills exactly as declared |
| `Backfill.FilledBackfills` | alembic/versions/202604130001_unify_trials_schema_and_child_fks.py:1516-1616 | in whatever order trials come back, each ends with exactly one version-1 scenario; only null pointers are filled, and with it; all else is unchanged |
| `ScenarioCopies.FilledCopies` | alembic/versions/202604130001_unify_trials_schema_and_child_fks.py:1558-1599 | every scenario the loop inserts is a copy of the trial it is for: locked exactly when the trial is inviting or terminated, then at the time of its activation, else termination, else now; its texts, template, story and time of creation those of the trial or the stated defaults |
| `ScenarioCopies.BackfillAddsCopies` | alembic/versions/202604130001_unify_trials_schema_and_child_fks.py:1516-1616 | so is every scenario the backfill adds, of the trial as the backfill leaves it |
| `ScenarioCopies.UpgradeAddsCopies` | alembic/versions/202604130001_unify_trials_schema_and_child_fks.py:1619-1698 | and every scenario the whole upgrade adds, of the trial as the upgrade leaves it |
| `ScenarioCopies.BackfillRaisesWhen` | alembic/versions/202604130001_unify_trials_schema_and_child_fks.py:1516-1616 | the backfill raises if and only if some trial has several first scenarios or has none and the table lacks a column for a new one |
| `ForeignKeys.EnsureFk` | alembic/versions/202604130001_unify_trials_schema_and_child_fks.py:1271-1424 | from any uniquely named keys the table ends with the reconciled set; raises exactly when a key would have to be created that some row violates; a settled table and all other tables are untouched |
| `ForeignKeys.OneKeyOfShape` | alembic/versions/202604130001_unify_trials_schema_and_child_fks.py:1271-1424 | exactly one key of the shape, under the requested name, if and only if no nameless key had that shape (those are skipped by the code) |
| `ForeignKeys.OthersSurvive` | alembic/versions/202604130001_unify_trials_schema_and_child_fks.py:1271-1424 | a key of another shape survives if and only if it did not hold the requested name |
| `ForeignKeys.ReconciledTwice` | alembic/versions/202604130001_unify_trials_schema_and_child_fks.py:1271-1424 | a second call changes nothing |
| `ForeignKeys.StaysSettled` | alembic/versions/202604130001_unify_trials_schema_and_child_fks.py:1427-1487 | reconciling one key does not undo another of different name and shape |
| `SchemaUnification.EnsureAll` | alembic/versions/202604130001_unify_trials_schema_and_child_fks.py:1427-1487 | after all calls every applicable key is settled at once, no key appears from nowhere, and of the keys to the legacy parent exactly those are gone that held a claimed name |
| `SchemaUnification.DropLegacyKeys` | alembic/versions/202604130001_unify_trials_schema_and_child_fks.py:1020-1040 | drops exactly the named keys over `trial_id` that point to the legacy parent |
| `SchemaUnification.FoldChildren` | alembic/versions/202604130001_unify_trials_schema_and_child_fks.py:1677-1679 | raises exactly when some child row names two parents; otherwise every child names its parent under one column and has no named key over it to the legacy table |
| `LegacyReferences.ChildKeepsSticking` | alembic/versions/202604130001_unify_trials_schema_and_child_fks.py:952-1040 | folding a child and dropping its keys changes nothing about which keys to the legacy table outlast the upgrade |
| `LegacyReferences.MappedSticks` | alembic/versions/202604130001_unify_trials_schema_and_child_fks.py:852-949 | nor does the parent's part, but for keys over the column it drops |
| `SchemaUnification.DropLegacyParent` | alembic/versions/202604130001_unify_trials_schema_and_child_fks.py:1490-1513 | drops the legacy parent, or raises exactly when some key still refers to it |
| `SchemaUnification.RunUpgrade` | alembic/versions/202604130001_unify_trials_schema_and_child_fks.py:1619-1698 | the imperative upgrade against the declared outcome, with the required keys settled; besides the guards it fails exactly when a split schema has a key to the legacy table that nothing on the way removes, or on a row that dangles |
| `SchemaUnification.RunDowngrade` | alembic/versions/202604130001_unify_trials_schema_and_child_fks.py:1988-2022 | the imperative downgrade against the declared outcome, with the legacy keys settled; besides the guards it fails only on a row that dangles; a downgraded database it leaves alone |
| `SchemaUnification.SettledShapeIsFixed` | alembic/versions/202604130001_unify_trials_schema_and_child_fks.py:1619-1698 | the shape an upgrade leaves is a fixed point of reshaping |
| `UpgradeLaws.UpgradeUnitesParents` | alembic/versions/202604130001_unify_trials_schema_and_child_fks.py:1619-1698 | after an upgrade `trials` exists, `simulations` does not, and the ids are the union of both |
| `UpgradeLaws.UpgradeKeepsLegacyCells` | alembic/versions/202604130001_unify_trials_schema_and_child_fks.py:1619-1698 | the whole upgrade keeps every compared or copied legacy cell |
| `UpgradeLaws.UpgradeKeepsCanonicalCells` | alembic/versions/202604130001_unify_trials_schema_and_child_fks.py:1619-1698 | the whole upgrade keeps every canonical cell; only a null active pointer may be filled |
| `UpgradeLaws.BackfillRunsWhen` | alembic/versions/202604130001_unify_trials_schema_and_child_fks.py:1516-1534 | the backfill runs if and only if both child tables name their parent somehow |
| `UpgradeLaws.UpgradeStartsEveryTrial` | alembic/versions/202604130001_unify_trials_schema_and_child_fks.py:1516-1616 | every trial ends with exactly one version-1 scenario and a pointer, every session of a trial with a scenario, and set pointers are unchanged |
| `UpgradeLaws.UpgradeKeepsLogicalParents` | alembic/versions/202604130001_unify_trials_schema_and_child_fks.py:952-1017 | every child row keeps its logical parent through the upgrade |
| `UpgradeLaws.ConflictingChildRaises` | alembic/versions/202604130001_unify_trials_schema_and_child_fks.py:952-968 | a child row naming two different parents makes the upgrade raise |
| `UpgradeLaws.DowngradeAfterUpgrade` | alembic/versions/202604130001_unify_trials_schema_and_child_fks.py:1701-1758 | the downgrade of upgraded tables is not blocked and returns every child row to the logical parent it had |
| `DowngradeLaws.DowngradeIsAccepted` | alembic/versions/202604130001_unify_trials_schema_and_child_fks.py:1944-1985 | after an upgrade of a sound database PostgreSQL accepts every key the downgrade asks for |
| `DowngradeLaws.DowngradeBlockedWhen` | alembic/versions/202604130001_unify_trials_schema_and_child_fks.py:1988-2022 | from any tables a downgrade is refused if and only if both parent tables are there, or neither, or a child row names two parents; with `simulations` alone it goes on |
| `DowngradeLaws.DowngradeKeeps` | alembic/versions/202604130001_unify_trials_schema_and_child_fks.py:1701-1758 | the parent's rows stand under the legacy name, every child row has its parent under the legacy column alone and its other cells as they were, and other tables are unchanged |
| `DowngradeLaws.DowngradeTwiceIsOnce` | alembic/versions/202604130001_unify_trials_schema_and_child_fks.py:1988-2022 | a second downgrade changes no table |
| `DowngradeLaws.RunDowngradeTwice` | alembic/versions/202604130001_unify_trials_schema_and_child_fks.py:1988-2022 | the same of the procedure run twice, foreign keys included |
| `DowngradeLaws.UpgradeThenDowngrade` | alembic/versions/202604130001_unify_trials_schema_and_child_fks.py:1988-2022 | the two procedures one after the other: once the upgrade got through so does the downgrade, every original child row has its parent back, and the legacy keys are in place |
| `UpgradeLaws.UpgradeTwiceIsOnce` | alembic/versions/202604130001_unify_trials_schema_and_child_fks.py:1619-1698 | a second upgrade leaves tables and rows as the first left them, whatever order rows come back in |
| `UpgradeLaws.RunUpgradeTwice` | alembic/versions/202604130001_unify_trials_schema_and_child_fks.py:1619-1698 | the same of the procedure run twice, named foreign keys included |
| `ReferenceLaws.UpgradeKeepsReferences` | alembic/versions/202604130001_unify_trials_schema_and_child_fks.py:1427-1487 | from a referentially sound database the upgrade reaches a sound one, and no key it creates is refused |
| `ReferenceLaws.UpgradeSound` | alembic/versions/202604130001_unify_trials_schema_and_child_fks.py:1619-1698 | from a referentially sound database the upgrade succeeds if and only if no guard objects to the data and no key to the legacy table outlasts it |
| `ReferenceLaws.OrdinaryKeysGo` | alembic/versions/202604130001_unify_trials_schema_and_child_fks.py:1020-1040 | named keys of child tables over their parent column never hold the upgrade back |
| `ReferenceLaws.OtherKeysHoldBack` | alembic/versions/202604130001_unify_trials_schema_and_child_fks.py:1490-1513 | a key to `simulations` of another table than `trials`, over neither parent column if of a child table, and under no name the upgrade asks for, holds it back |
| `SessionDedupe.Database.Dedupe` | alembic/versions/202506010001_add_unique_candidate_session_invite.py:26-100 | the loop of statements against the fold of its steps, raising exactly when a unique constraint breaks |
| `SessionDedupe.OneSessionPerGroup` | alembic/versions/202506010001_add_unique_candidate_session_invite.py:26-100 | exactly the greatest id of each (simulation, lowered email) group stays, unchanged, with all sessions outside any group |
| `SessionDedupe.RowsFollowTheSurvivor` | alembic/versions/202506010001_add_unique_candidate_session_invite.py:47-100 | every submission and profile is kept and points at its group's survivor |
| `SessionDedupe.WorkspacesCoverTheSame` | alembic/versions/202506010001_add_unique_candidate_session_invite.py:47-100 | the covered (survivor, task) pairs are preserved both ways, with at most one workspace each if that held before, as the constraint on workspaces has it |
| `SessionDedupe.WorkspacesThatStay` | alembic/versions/202506010001_add_unique_candidate_session_invite.py:47-100 | exactly which workspaces are left, for every processing order: those of a survivor, else those of the first folded session of the group that has any for that task |
| `SessionDedupe.OneWorkspaceEachWhen` | alembic/versions/202506010001_add_unique_candidate_session_invite.py:47-100 | at most one workspace is left for each (survivor, task) if and only if no session whose workspaces stay had two for one task |
| `SessionDedupe.RaisesWhen` | alembic/versions/202506010001_add_unique_candidate_session_invite.py:26-100 | whatever the order, the migration raises if and only if a group has two submissions for one task, or two profiles, that a declared constraint forbids; workspaces never make it raise |
| `SessionDedupe.NothingDangles` | alembic/versions/202506010001_add_unique_candidate_session_invite.py:26-100 | no reference dangles afterwards if none did before |
| `SessionDedupe.ConstraintHolds` | alembic/versions/202506010001_add_unique_candidate_session_invite.py:103-117 | the unique constraint the migration adds next holds |
| `DedupeLaws.GreatestStay` | alembic/versions/202506010001_add_unique_candidate_session_invite.py:26-44 | a session stays, unchanged, if and only if no session of the same simulation, with an address that differs in case at most, has a greater id |
| `DedupeLaws.RowsGoToGreatest` | alembic/versions/202506010001_add_unique_candidate_session_invite.py:47-97 | every submission and profile, and every workspace left, is at the greatest session like the one it had; nothing else of it changes and no submission or profile is lost |
| `DedupeLaws.WorkspaceIsLeft` | alembic/versions/202506010001_add_unique_candidate_session_invite.py:58-84 | for every workspace there was one is left for its task, at the greatest session like its own |
| `DedupeLaws.CollisionsRaise` | alembic/versions/202506010001_add_unique_candidate_session_invite.py:26-100 | the migration raises if and only if sessions alike have two submissions for one task, or two profiles, that a declared constraint forbids |
| `EvidencePointers.ValidateEvidencePointers` | app/evaluations/repositories/evaluations_repositories_evaluations_validation_evidence_repository.py:58-126 | accepted exactly when every item is, and then item by item as normalized |
| `EvidencePointers.NormalizesToOne` | app/evaluations/repositories/evaluations_repositories_evaluations_validation_evidence_repository.py:58-126 | there is one outcome for a list |
| `EvidencePointers.NormalizedIsStable` | app/evaluations/repositories/evaluations_repositories_evaluations_validation_evidence_repository.py:58-126 | a normalized pointer normalizes to itself |
| `EvidencePointers.NormalizationIsIdempotent` | app/evaluations/repositories/evaluations_repositories_evaluations_validation_evidence_repository.py:58-126 | normalizing an accepted list again accepts it unchanged |
| `EvidencePointers.SanitizerKeepsNormalized` | app/evaluations/services/evaluations_services_evaluations_winoe_report_composer_evidence_service.py:29-61 | the report drops no stored pointer and keeps kind, reference, text excerpt, url and day |
| `EvidencePointers.SanitizerKeepsRange` | app/evaluations/services/evaluations_services_evaluations_winoe_report_composer_evidence_service.py:45-61 | a stored transcript pointer shows both ends of its range or neither, start no later than end |
| `EvidencePointers.StoredPointerIsShown` | app/evaluations/services/evaluations_services_evaluations_winoe_report_composer_evidence_service.py:29-61 | a pointer accepted, stored and shown has the kind it was given (`reflection` as `submission`, `test` as `tests`), and the reference, url, excerpt or quote, day and range it was given, but for surrounding blanks |
| `EvaluatorEvidence.BuildCodeEvidence` | app/evaluations/services/evaluations_services_evaluations_evaluator_evidence_code_service.py:15-68 | the appends for code days give commit, diff and test items in that order, each under its own condition |
| `EvaluatorEvidence.BuildTranscriptEvidence` | app/evaluations/services/evaluations_services_evaluations_evaluator_evidence_transcript_service.py:18-42 | the loop over the first three segments keeps the timed ones and cuts backward ranges |
| `EvaluatorEvidence.BuildDayEvidence` | app/evaluations/services/evaluations_services_evaluations_evaluator_evidence_service.py:22-33 | dispatch by day, with a fallback when nothing was gathered |
| `EvaluatorEvidence.EvidenceCount` | app/evaluations/services/evaluations_services_evaluations_evaluator_evidence_service.py:22-33 | every day has one to three pointers, a text day exactly one |
| `EvaluatorEvidence.DayEvidenceAccepted` | app/evaluations/services/evaluations_services_evaluations_evaluator_evidence_service.py:22-33 | persistence accepts a day's evidence if and only if no run id or transcript reference it used is only white space |
| `EvidenceLaws.CodeEvidenceSays` | app/evaluations/services/evaluations_services_evaluations_evaluator_evidence_code_service.py:15-68 | a code day's items refer to the cutoff commit before the submitted one, to the span between base and head, and to the workflow run before the submission, each with its page of the repository when that has a valid name |
| `EvidenceLaws.TextEvidenceSays` | app/evaluations/services/evaluations_services_evaluations_evaluator_evidence_text_service.py:15-41 | a text day has one item, for the submission, with the first 280 characters of its text, else of its document, white space compacted, or a note that there is none |
| `EvidenceLaws.TranscriptEvidenceSays` | app/evaluations/services/evaluations_services_evaluations_evaluator_evidence_transcript_service.py:18-42 | each item of a transcript day is for one of the first three segments, with its start and its end, the end no earlier than the start |
| `ScoreLaws.CodeScoreIs` | app/evaluations/services/evaluations_services_evaluations_evaluator_scoring_service.py:23-52 | a code day scores, up to rounding, 0.08, 0.12 for each kind of evidence, 0.2 for a commit, 0.12 for a diff, and 0.08 and 0.15 times the share of tests passed, or a half, for tests |
| `ScoreLaws.CommitRaises` | app/evaluations/services/evaluations_services_evaluations_evaluator_scoring_service.py:35-36 | a commit added to a code day raises its score by a fifth at least, up to rounding |
| `ScoreLaws.DiffRaises` | app/evaluations/services/evaluations_services_evaluations_evaluator_scoring_service.py:37-38 | a diff added raises it by 0.12 at least, up to rounding |
| `ScoreLaws.MorePassesNeverLower` | app/evaluations/services/evaluations_services_evaluations_evaluator_scoring_service.py:39-44 | more tests passed of the same total never lower it |
| `ScoreLaws.TextScoreIs` | app/evaluations/services/evaluations_services_evaluations_evaluator_scoring_service.py:28-33 | a text day scores 0.2 and a seven-hundredth for each of up to 280 characters of compacted text, up to rounding |
| `ScoreLaws.LongerTextNeverLowers` | app/evaluations/services/evaluations_services_evaluations_evaluator_scoring_service.py:28-33 | text added at the end never lowers the score of a text day |
| `ScoreLaws.TranscriptScoreIs` | app/evaluations/services/evaluations_services_evaluations_evaluator_scoring_service.py:45-52 | a transcript day scores by the timed segments among the first three and the compacted text of the first four, 200 characters of each at most, up to rounding |
| `ScoreLaws.MoreSpokenNeverLowers` | app/evaluations/services/evaluations_services_evaluations_evaluator_scoring_service.py:45-52 | more of either never lowers it |
| `ScoreLaws.OverallIsTheMean` | app/evaluations/services/evaluations_services_evaluations_evaluator_runtime_service.py:592-599 | the overall score is the mean of the day scores up to rounding |
| `ScoreLaws.ConfidenceIsCoverage` | app/evaluations/services/evaluations_services_evaluations_evaluator_runtime_service.py:592-599 | the confidence is 0.45 and half the share of three items a day that was found, 0.95 at most |
| `ScoreLaws.RecommendationByInterval` | app/evaluations/services/evaluations_services_evaluations_evaluator_scoring_service.py:55-62 | an evaluation is named `strong_hire`, `hire`, `lean_hire` or `no_hire` if and only if its overall score is from 0.85 on, in [0.7, 0.85), in [0.55, 0.7) or below |
| `ScoreLaws.HigherIsNoWorse` | app/evaluations/services/evaluations_services_evaluations_evaluator_scoring_service.py:55-62 | a higher overall score never gets a lower recommendation |
| `ScoreLaws.SignalByInterval` | app/evaluations/services/evaluations_services_evaluations_winoe_report_composer_normalize_service.py:22-27 | the report of a bundle names the signal of the same interval |
| `Scoring.ScoreForDay` | app/evaluations/services/evaluations_services_evaluations_evaluator_scoring_service.py:23-52 | the accumulated score is the clamped and rounded sum of its parts |
| `Scoring.ScoreBounds` | app/evaluations/services/evaluations_services_evaluations_evaluator_scoring_service.py:23-52 | every day scores at least 0.20 and at most its cap, 0.99 at most |
| `Scoring.OverallBounds` | app/evaluations/services/evaluations_services_evaluations_evaluator_runtime_service.py:592-599 | the mean of day scores lies in [0.20, 0.99], or is 0 with no day |
| `Scoring.ConfidenceBounds` | app/evaluations/services/evaluations_services_evaluations_evaluator_runtime_service.py:592-599 | confidence lies in [0, 0.95] |
| `Scoring.NoStrongHireOverFiveDays` | app/evaluations/services/evaluations_services_evaluations_evaluator_scoring_service.py:55-62 | with all five days the mean is at most 0.824, so `strong_hire` cannot be reached |
| `Scoring.StrongHireOnCodeDays` | app/evaluations/services/evaluations_services_evaluations_evaluator_scoring_service.py:55-62 | with full code days alone the mean is exactly 0.99 and `strong_hire` is reached |
| `DayScores.NormalizeDayScores` | app/evaluations/repositories/evaluations_repositories_evaluations_day_scores_repository.py:25-64 | accepted exactly when every entry passes its checks and no day repeats; the rows hold what the entries said |
| `DayScores.NewDayScores` | app/evaluations/repositories/evaluations_repositories_evaluations_day_scores_repository.py:67-120 | accepted exactly when also no day clashes with a stored one; all days of the run stay distinct |
| `ReviewerReports.NormalizeReports` | app/evaluations/repositories/evaluations_repositories_evaluations_reviewer_reports_repository.py:48-113 | accepted exactly when every entry is and no (day, agent, kind) repeats; nothing of an entry is lost |
| `ReviewerReports.ReportAcceptedMeans` | app/evaluations/repositories/evaluations_repositories_evaluations_reviewer_reports_repository.py:48-113 | the chain of checks accepts an entry if and only if every field is valid |
| `ReviewerReports.ReportStoredMeans` | app/evaluations/repositories/evaluations_repositories_evaluations_reviewer_reports_repository.py:56-113 | the row of an accepted entry holds each of its fields |
| `ReviewerReports.NewReviewerReports` | app/evaluations/repositories/evaluations_repositories_evaluations_reviewer_reports_repository.py:116-211 | repeats of stored reports are recognised, contradictions refused, the rest added in order |
| `RunTable.NormalizeTimes` | app/evaluations/repositories/evaluations_repositories_evaluations_create_run_helpers_repository.py:17-63 | the chain of guards gives the times by status, or refuses exactly the listed combinations |
| `RunTable.Latest` | app/evaluations/repositories/evaluations_repositories_evaluations_queries_repository.py:66-91 | the run with the greatest (started_at, id), if any |
| `RunTable.ReadyMeansCompleted` | app/evaluations/services/evaluations_services_evaluations_winoe_report_api_service.py:224-245 | the report is ready if and only if some run of the session completed, and shows the latest of those |
| `RunTable.StatusMeans` | app/evaluations/services/evaluations_services_evaluations_winoe_report_api_service.py:224-245 | without a completed run the status is that of the latest run, failed with its code or in progress; without any run it depends on whether a job is waiting |
| `RunTable.ReadyStaysReady` | app/evaluations/services/evaluations_services_evaluations_winoe_report_api_service.py:224-245 | if runs only evolve, a ready report stays ready and never falls back to an older run |
| `RunSession.Session.StartRun` | app/evaluations/services/evaluations_services_evaluations_runs_start_service.py:21-60 | a running row with stripped labels and no end times, or an error; the unique job id is enforced by the flush |
| `RunSession.Session.AddReviewerReports` | app/evaluations/repositories/evaluations_repositories_evaluations_reviewer_reports_repository.py:116-211 | adds the fresh reports in the session, or leaves it unchanged or poisoned |
| `RunSession.Session.AddDayScores` | app/evaluations/repositories/evaluations_repositories_evaluations_day_scores_repository.py:67-120 | adds the normalized scores in the session, or leaves it unchanged or poisoned |
| `RunSession.Session.CompleteRun` | app/evaluations/services/evaluations_services_evaluations_runs_complete_service.py:39-109 | from a running run only: scores, reports, times and summary all set; a failure after the status is assigned leaves the row completed in the session |
| `RunSession.Session.FailRun` | app/evaluations/services/evaluations_services_evaluations_runs_fail_service.py:34-76 | from a run under way only: status, time, stripped code, merged metadata; nothing else |
| `RunSession.Session.MarkReady` | app/evaluations/services/evaluations_services_evaluations_winoe_report_pipeline_execute_service.py:94-105 | marker at the run's generation time, and the notice |
| `RunSession.Session.Commit` | app/evaluations/services/evaluations_services_evaluations_winoe_report_pipeline_execute_service.py:106-106 | all of the session's changes become visible at once or none do; it may raise either way |
| `RunSession.AgentDaysAgree` | app/evaluations/repositories/evaluations_repositories_evaluations_reviewer_report_model.py:34-45 | the (run, agent, day) constraint holds of the rows exactly when no agent reports twice on a day in the payload |
| `Pipeline.BuildDayScores` | app/evaluations/services/evaluations_services_evaluations_winoe_report_pipeline_execute_service.py:14-43 | accepted exactly when each result has a score in [0, 1], an object and a list |
| `Pipeline.EvaluateAndFinalize` | app/evaluations/services/evaluations_services_evaluations_winoe_report_pipeline_execute_service.py:66-107 | the commit stores the whole evaluation, marker and notice together; an error leaves the run as it was begun, perhaps with the flushed reports, or one that cannot be failed |
| `Pipeline.MarkFailed` | app/evaluations/services/evaluations_services_evaluations_winoe_report_pipeline_execute_service.py:110-126 | commits exactly the run the session holds with the failure written over it, without day scores; never a run the session already shows as completed |
| `Pipeline.RecordInvalidSnapshot` | app/evaluations/services/evaluations_services_evaluations_winoe_report_pipeline_runner_service.py:76-156 | commits exactly one failed run of the job, session, labels and snapshot basis for a snapshot that breaks the contract, unless the job has a run |
| `Pipeline.GetOrStart` | app/evaluations/services/evaluations_services_evaluations_winoe_report_pipeline_run_state_service.py:58-133 | exactly a finished run of the job answers for it; a job without an id is answered by the latest run of its basis, finished or not; otherwise a run is opened, the one under way or a new one |
| `Pipeline.FinishedRunIsFound` | app/evaluations/repositories/evaluations_repositories_evaluations_queries_repository.py:38-63 | the finished run of a job is the one found for it |
| `Pipeline.AnsweringMeans` | app/evaluations/services/evaluations_services_evaluations_winoe_report_pipeline_run_state_service.py:74-126 | a job with an id is answered if and only if a finished run of its own session has that id, by that run; one without an id if and only if its session has a run of its basis, by the latest of those, whatever its status |
| `Pipeline.Evaluate` | app/evaluations/services/evaluations_services_evaluations_winoe_report_pipeline_runner_service.py:418-460 | what the answer says is what was committed of the run begun; in a calm world the evaluator's output decides between completed, failed (with which reports) and raising without a trace |
| `Pipeline.DeliverValid` | app/evaluations/services/evaluations_services_evaluations_winoe_report_pipeline_runner_service.py:335-460 | the same from lookup to commit, among other sessions' commits; the run is the one under way for the job, or a new one of its session, job, basis and labels |
| `Pipeline.Process` | app/evaluations/services/evaluations_services_evaluations_winoe_report_pipeline_runner_service.py:159-460 | for all faults and interference: a job without session or company id is skipped, an unknown session not found, another company's forbidden, and none of these commits anything; otherwise a delivery commits nothing or finishes its own run in one commit, and what it answers is so; a run that is there already answers, and nothing is committed |
| `Pipeline.StepKeepsOk` | app/evaluations/services/evaluations_services_evaluations_winoe_report_pipeline_runner_service.py:128-156 | a step keeps the table sound |
| `RunHistory.EveryCommitIsWhole` | app/evaluations/services/evaluations_services_evaluations_winoe_report_pipeline_execute_service.py:66-126 | every commit finishes one run: completed with marker and notice in the same commit, or failed with no day score; nothing else changes |
| `RunHistory.HistoryIsSound` | app/evaluations/services/evaluations_services_evaluations_runs_validation_service.py:16-56 | along every history rows stay sound, finished runs never change, and no run is ever committed pending or running |
| `RunHistory.OneRunPerJob` | app/evaluations/repositories/evaluations_repositories_evaluations_run_model.py:65-65 | at most one run is ever committed for a job id |
| `RunHistory.RedeliveriesAgree` | app/evaluations/services/evaluations_services_evaluations_winoe_report_pipeline_run_state_service.py:74-126 | once finished, a job's run is found with the same answer by every later delivery |
| `RunHistory.RunOfDelivery` | app/evaluations/services/evaluations_services_evaluations_winoe_report_pipeline_runner_service.py:159-460 | what a delivery commits is the finished run of its own job and session, and of its basis and labels when new |
| `RunHistory.DeliveredRunIsFound` | app/evaluations/services/evaluations_services_evaluations_winoe_report_pipeline_run_state_service.py:74-126 | that run is the one found for the job afterwards |
| `RunHistory.DeliveredOnceAnswersForever` | app/evaluations/services/evaluations_services_evaluations_winoe_report_pipeline_run_state_service.py:74-126 | once a delivery of a job committed, answered or not, its run answers every later delivery, after any history |
| `RunHistory.Redeliver` | app/evaluations/services/evaluations_services_evaluations_winoe_report_pipeline_runner_service.py:159-460 | a redelivery commits nothing and answers the same run id and status as the first delivery, the error code as stored; only a failing lookup keeps it from answering |
| `RunHistory.CompletedAnswerIsReady` | app/evaluations/services/evaluations_services_evaluations_winoe_report_api_service.py:224-245 | a completed answer makes the report of the job's own session ready, showing no older run |
| `RunHistory.ReadyForever` | app/evaluations/services/evaluations_services_evaluations_winoe_report_api_service.py:224-245 | a report once ready is ready at every later point, showing no older run |
| `RunHistory.ReadyAfterCompletion` | app/evaluations/services/evaluations_services_evaluations_winoe_report_api_service.py:224-245 | right after a completing commit the report is ready |
| `RunHistory.CreatedRunsAreOk` | app/evaluations/repositories/evaluations_repositories_evaluations_create_run_repository.py:28-117 | a created row is sound whatever its status |
| `Records.NewRunRecorded` | app/evaluations/services/evaluations_services_evaluations_runs_start_service.py:21-60 | a run that was not there before carries the session, scenario, labels, basis and job of its delivery and the second it began |
| `Records.FailureRecorded` | app/evaluations/services/evaluations_services_evaluations_runs_fail_service.py:34-76 | a run answered as failed differs from the one begun in status, end, code and metadata alone: the code and metadata of what failed, the message above what was given, that above what was there |
| `Records.CompletionRecorded` | app/evaluations/services/evaluations_services_evaluations_runs_complete_service.py:39-109 | a run answered as completed carries the evaluation's score, confidence, recommendation and report, the delivery's metadata and the two times, and is otherwise the one begun |
| `Records.ScoresRecorded` | app/evaluations/repositories/evaluations_repositories_evaluations_day_scores_repository.py:67-120 | its day scores are those of the evaluation's results, one by one |
| `FailedRuns.FailedRunKeepsReports` | app/evaluations/services/evaluations_services_evaluations_runs_complete_service.py:57-70 | a new run that fails in a calm world keeps reviewer reports if and only if the reports pass and the day scores are refused, and then all of them |
| `FailedRuns.TwoReviewersOnOneDay` | app/evaluations/services/evaluations_services_evaluations_evaluator_runtime_service.py:153-168 | so it does when the reviewers of days 1 and 2 both answer about day 1 |
| `FailedRuns.NoTraceWhen` | app/evaluations/services/evaluations_services_evaluations_runs_complete_service.py:57-70 | with a summary in range a delivery raises and records nothing, although nothing went wrong around it, if and only if the reports pass all checks but one agent reports twice on a day |
| `FailedRuns.OneReviewerTwiceOnADay` | app/evaluations/services/evaluations_services_evaluations_evaluator_runtime_service.py:153-168 | so it does when one reviewer answers days 2 and 3, of different task types, as one day |
| `ReportRoundTrip.ScoresAcceptedIff` | app/evaluations/services/evaluations_services_evaluations_evaluator_runtime_service.py:465-509 | a reviewed day's result is always well formed, and the payload of all results is accepted if and only if no day used a blank reference |
| `ReportRoundTrip.ReportsVerdictOf` | app/evaluations/services/evaluations_services_evaluations_evaluator_runtime_service.py:465-509 | so are the reviewer reports, and no agent reports twice on a day |
| `DeterministicEvaluator.AggregateScores` | app/evaluations/services/evaluations_services_evaluations_evaluator_runtime_service.py:592-599 | mean and confidence over the results |
| `DeterministicEvaluator.Evaluate` | app/evaluations/services/evaluations_services_evaluations_evaluator_runtime_service.py:43-90 | the loop over the sorted days sets disabled ones aside and reviews the others, in order |
| `Report.ComposeDayScores` | app/evaluations/services/evaluations_services_evaluations_winoe_report_composer_day_scores_service.py:18-53 | each day with a score or placeholder once, ascending, the score winning |
| `Report.ComposeReviewers` | app/evaluations/services/evaluations_services_evaluations_winoe_report_composer_reviewer_reports_service.py:31-61 | reviewer rows in (day, agent, id) order with sanitized evidence |
| `Report.ComposeReport` | app/evaluations/services/evaluations_services_evaluations_winoe_report_composer_service.py:30-115 | the run's own summary before the stored one before the mean; disabled days ascending, absent when none |
| `ReportLaws.ReviewersFollowRows` | app/evaluations/services/evaluations_services_evaluations_winoe_report_composer_reviewer_reports_service.py:31-61 | reviewer rows are shown one by one, by day and then by agent key in code-point order, each column under its own heading and the risks as concerns |
| `ReportLaws.DayFollowsRow` | app/evaluations/services/evaluations_services_evaluations_winoe_report_composer_day_scores_service.py:18-53 | a day with a row is shown with that row's score and rubric; another as the last entry of the stored report that asks a human to review it |
| `ReportLaws.SummaryComesFrom` | app/evaluations/services/evaluations_services_evaluations_winoe_report_composer_service.py:42-63 | score and confidence are the run's own when in [0, 1], else the stored report's, else the mean of the scored days or zero |
| `ReportLaws.SignalComesFrom` | app/evaluations/services/evaluations_services_evaluations_winoe_report_composer_normalize_service.py:54-63 | the recommendation is shown as its signal: the run's own, else the stored report's under either name, else mixed |
| `ReportLaws.BundleReviewsRead` | app/evaluations/services/evaluations_services_evaluations_evaluator_runtime_service.py:465-509 | the reviewers of a bundle's report have the agent key of their day, the fixed assessment, the strength from 0.7 on, at most the one concern, and their score and item count as dimensions |
| `ReportRoundTrip.DeterministicIsAccepted` | app/evaluations/services/evaluations_services_evaluations_evaluator_runtime_service.py:465-509 | the deterministic output completes the run, unless an enabled day used a blank reference; then the run fails |
| `ReportRoundTrip.DaysLineUp` | app/evaluations/services/evaluations_services_evaluations_winoe_report_composer_day_scores_service.py:18-53 | stored days and placeholders are shown as the input days, position by position |
| `ReportRoundTrip.ReviewersLineUp` | app/evaluations/services/evaluations_services_evaluations_winoe_report_composer_reviewer_reports_service.py:31-61 | the reviewer reports are shown as the enabled days, position by position, with score, dimensions, kind, assessment, strengths, concerns and each item of evidence |
| `ReportRoundTrip.ReportShowsTheBundle` | app/evaluations/services/evaluations_services_evaluations_winoe_report_composer_service.py:30-115 | evaluate, persist, compose: each input day once, ascending, enabled ones with their score, rubric and evidence item by item, disabled ones as placeholders; their reviews; the summary unchanged; and the bundle's disabled days |
| `ReportRoundTrip.DeliverAndReport` | app/evaluations/services/evaluations_services_evaluations_winoe_report_pipeline_runner_service.py:159-460 | end to end: evaluate a bundle, deliver its job, read the report of the job's session: ready and showing the bundle, unless a blank reference made the run fail or another session completed a newer run |
| `Sorting.SortedForgetsOrder` | app/evaluations/services/evaluations_services_evaluations_winoe_rubric_snapshots_service.py:288-297 | sorting by a key without ties gives the same list for every order of the input |
| `Sorting.StringLeIsPrecedes` | app/integrations/storage_media/integrations_storage_media_storage_media_s3_provider_crypto_utils.py:31-32 | strings compare as prefixes or by the lesser code point at the first place that differs |
| `PromptLayers.ResolvePromptLayers` | app/ai/ai_prompt_resolution_service.py:27-61 | titled sections of the non-blank layers, in order |
| `PromptLayers.StagedIsOneShot` | app/ai/ai_prompt_resolution_service.py:27-75 | freezing without the context and appending it later equals resolving all at once, for all texts including blank ones |
| `PromptLayers.LayersInOrder` | app/ai/ai_prompt_resolution_service.py:27-61 | the prompt is the base, company, trial and run text, each that is not blank under its own title, in that order with an empty line between; the rubric the same without the run |
| `PromptLayers.ResolveInTwoStages` | app/ai/ai_policy_snapshot_service.py:345-355 | the two stages as a reviewer runs them |
| `SnapshotContract.ValidateContract` | app/ai/ai_policy_snapshot_service.py:232-288 | accepted, unchanged, exactly when the contract holds |
| `SnapshotContract.ContractMeans` | app/ai/ai_policy_snapshot_service.py:232-288 | the contract holds if and only if pack version, notice and day switches are there, there are exactly the six agents, each with its key, versions, runtime limits and eight texts, and the digest is that of all the rest |
| `RubricOverlay.ChooseByKey` | app/evaluations/services/evaluations_services_evaluations_winoe_rubric_snapshots_service.py:210-220 | the loop keeps the first company row of a key, else the first row |
| `RubricOverlay.EffectiveSnapshot` | app/evaluations/services/evaluations_services_evaluations_winoe_rubric_snapshots_service.py:198-261 | the overlay with its list and digest; refused exactly when there are no agents |
| `OverlayLaws.RowShowsInAgent` | app/evaluations/services/evaluations_services_evaluations_winoe_rubric_snapshots_service.py:221-236 | an agent with a row takes the row's content as its rubric, the row's hash, version, id, scope, kind, key and path, and keeps every other text and field |
| `OverlayLaws.NoRowNoChange` | app/evaluations/services/evaluations_services_evaluations_winoe_rubric_snapshots_service.py:221-228 | an agent without a row is the frozen one |
| `OverlayLaws.TakenWhen` | app/evaluations/services/evaluations_services_evaluations_winoe_rubric_snapshots_service.py:210-220 | a row is taken for a key if and only if there is one: the first of the company's, else the first |
| `OverlayLaws.RowsListed` | app/evaluations/services/evaluations_services_evaluations_winoe_rubric_snapshots_service.py:237-257 | the rows listed are exactly those taken for some agent, each once, by scope, kind and key in code-point order |
| `OverlayLaws.RestOfSnapshotStays` | app/evaluations/services/evaluations_services_evaluations_winoe_rubric_snapshots_service.py:198-261 | nothing else of the snapshot changes but that list and the digest, which is that of all the rest |
| `RubricOverlay.EffectiveIsUnique` | app/evaluations/services/evaluations_services_evaluations_winoe_rubric_snapshots_service.py:221-261 | the order agents are visited in does not show |
| `RubricOverlay.OverlayKeepsContract` | app/evaluations/services/evaluations_services_evaluations_winoe_rubric_snapshots_service.py:198-261 | the overlay of a valid snapshot is valid, with the same agents, if and only if no row used is blank |
| `RubricOverlay.OverlayIsIdempotent` | app/evaluations/services/evaluations_services_evaluations_winoe_rubric_snapshots_service.py:198-261 | overlaying the same rows again changes nothing |
| `RubricOverlay.BuildContext` | app/evaluations/services/evaluations_services_evaluations_winoe_rubric_snapshots_service.py:282-310 | the ordered rows and the effective snapshot over them |
| `RubricOverlay.ContextForgetsRowOrder` | app/evaluations/services/evaluations_services_evaluations_winoe_rubric_snapshots_service.py:282-310 | the order of the rows does not show in the context |
| `RubricOverlay.ContextPicks` | app/evaluations/services/evaluations_services_evaluations_winoe_rubric_snapshots_service.py:210-220 | through the builder an agent takes the least company row for its key, else the least row, else none |
| `OverlayLaws.ContextTakes` | app/evaluations/services/evaluations_services_evaluations_winoe_rubric_snapshots_service.py:282-310 | whatever order the rows come in, an agent's rubric is the content of the least company row for its key, else of the least row, by scope, kind, key, version and id |
| `MediaPurge.Worker.TryPurge` | app/media/services/media_services_media_privacy_purge_service.py:125-156 | delete, redact, mark, audit, commit; done only if every step was |
| `MediaPurge.Worker.RecordFailure` | app/media/services/media_services_media_privacy_purge_service.py:157-203 | the failure is recorded without touching any purge mark |
| `MediaPurge.Worker.PurgeRecording` | app/media/services/media_services_media_privacy_purge_service.py:98-203 | for all faults, and with other workers let in after the rollback: a chain of steps; with none let in, result and state exactly as declared |
| `MediaPurge.PurgedThoughNotCounted` | app/media/services/media_services_media_privacy_purge_service.py:125-203 | an attempt that does not count as a purge leaves the recording purged if and only if everything up to the commit worked and the commit landed without saying so; it then has one success audit, and counts as failed, with a failure audit too, exactly when that could be recorded |
| `MediaPurge.UnseenCommitPurges` | app/media/services/media_services_media_privacy_purge_service.py:125-203 | such an attempt |
| `MediaPurge.Worker.PurgeBatch` | app/media/services/media_services_media_privacy_purge_service.py:228-254 | scanned = purged + skipped + failed; each purged id was not purged before, is now, has no object and exactly one success audit |
| `MediaPurge.HistoryIsSound` | app/media/services/media_services_media_privacy_purge_service.py:98-203 | over any sequence of attempts a purged recording has lost its object, has exactly one success audit and keeps its date; any other has none |
| `MediaPurge.ObjectGoesFirst` | app/media/repositories/recordings/media_repositories_recordings_media_recordings_mutations_repository.py:100-122 | when a commit marks a recording purged its object was gone already, and transcript and audit are in the same commit |
| `MediaPurge.PurgeRecorded` | app/media/repositories/recordings/media_repositories_recordings_media_recordings_mutations_repository.py:100-122 | that commit sets status, mark, reason and date of the one recording, fills its other dates only where empty, empties its transcript, and changes no other row |
| `MediaPurge.OtherwiseRecorded` | app/media/services/media_services_media_privacy_purge_service.py:98-203 | every other commit only marks one recording as failed, or changes no row of a purged one, and says so in its audit |
| `PercentEncoding.Utf8RoundTrip` | app/integrations/storage_media/integrations_storage_media_storage_media_s3_provider_crypto_utils.py:23-33 | decoding the UTF-8 of a string gives the string |
| `PercentEncoding.UnquoteQuote` | app/integrations/storage_media/integrations_storage_media_storage_media_s3_provider_crypto_utils.py:23-33 | percent-decoding undoes quoting (section 2.1 of RFC 3986) |
| `PercentEncoding.QuoteIsPlain` | app/integrations/storage_media/integrations_storage_media_storage_media_s3_provider_crypto_utils.py:23-33 | quoting leaves only unreserved characters and percent signs (section 2.3 of RFC 3986) |
| `PercentEncoding.QuotesEach` | app/integrations/storage_media/integrations_storage_media_storage_media_s3_provider_crypto_utils.py:23-33 | a text is quoted piece by piece; letters, digits, `-_.~` stand for themselves and any other ASCII character is a percent sign and two upper-case hex digits |
| `CanonicalQuery.CanonicalQueryString` | app/integrations/storage_media/integrations_storage_media_storage_media_s3_provider_crypto_utils.py:23-33 | the quoted pairs, each once, sorted and joined, whatever order they were inserted in |
| `CanonicalQuery.CanonicalIsUnique` | app/integrations/storage_media/integrations_storage_media_storage_media_s3_provider_crypto_utils.py:23-33 | there is only one canonical query string for some parameters |
| `CanonicalQuery.NamesAscend` | app/integrations/storage_media/integrations_storage_media_storage_media_s3_provider_crypto_utils.py:31-33 | read from left to right the quoted names ascend by code point, none twice |
| `CanonicalQuery.QueryParsesBack` | app/integrations/storage_media/integrations_storage_media_storage_media_s3_provider_crypto_utils.py:23-33 | splitting and percent-decoding gives back exactly the parameters, each once |

## Left out

- Parent columns both tables share outside the compared list: the code does not compare them when both tables hold rows, so nothing is claimed of them there.
- Index, unique-constraint, check-constraint, primary-key and sequence statements of the schema migration, renames included (with the duplicates on which creating a unique index raises), server defaults, and the SQLite branches.
- The explicit drops of constraints and indexes before a column drop: dropping the column drops them.
- The constraint errors of the backfill's inserts other than a taken id.
- The live evaluator: its provider is an arbitrary result or exception of the pipeline; `_merge_day_scores` is not modelled.
- DeterministicEvaluator.Evaluate: the snapshot validation it starts with, which can only raise on a snapshot the pipeline has validated already, and the strengths, risks and version block of its report are not modelled.
- Report.ComposeReport: the version block, copied from the run's labels and metadata, is not modelled.
- The nested lists inside a reviewer's raw output.
- Report.ComposeReviewers: the fallback to reviewer reports of the stored JSON, for runs without reviewer rows, is not modelled.
- Building the job's inputs, metadata and basis fingerprint from submissions: parameters of the delivery.
- Column length limits, NaN and infinite scores, and float rounding.
- The poisoning rules of one driver: whether a failed read or commit poisons the session is left to the world.
- Pipeline.Process: a clock that runs backwards during a delivery is not covered; after one a failed run could keep day scores.
- A run row deleted together with its candidate session.
- `_materialize_snapshot` and the reading of rubric files: the rows are parameters.
- `build_ai_policy_snapshot` beyond its two prompt stages, and the check against the current prompt pack.
- The selection of expired recordings, and how retention dates are set before a purge; error summaries of the purge audit.
- Signing, presigning and host names around the canonical query string.
