/**
 Whole histories of deliveries. A history is a sequence of committed databases in which each
 differs from the one before by what one delivery may do, whatever failed along the way.
 */
module RunHistory {
  import opened Values
  import opened DayScores
  import opened ReviewerReports
  import opened RunTable
  import opened RunSession
  import opened Pipeline
  import Text

  ghost predicate IsHistory(h: seq<Db>) {
    h != [] && forall i | 0 < i < |h| :: Step(h[i - 1], h[i])
  }

  predicate AllFinished(db: Db) {
    forall id | id in db.runs :: Terminal(db.runs[id].status)
  }

  /** One commit, seen from outside: one run is finished with all that belongs to it, and nothing
      else changes. */
  predicate OneRunFinished(before: Db, after: Db, id: int) {
    && id in after.runs && before.runs - {id} == after.runs - {id}
    && before.scores - {id} == after.scores - {id} && before.reports - {id} == after.reports - {id}
    && (id in before.runs ==> UnderWay(before.runs[id].status))
    && var run := after.runs[id];
       if run.status == Completed then
         && run.generatedAt.Some? && after.markers == before.markers[run.sessionId := run.generatedAt.value]
         && after.notices == before.notices + {run.sessionId}
       else
         && run.status == Failed && ScoresOf(after, id) == []
         && after.markers == before.markers && after.notices == before.notices
  }

  /** Every commit finishes one run: completed, with its marker and notice in the same commit, or
      failed, with no day score. */
  lemma EveryCommitIsWhole(before: Db, after: Db)
    requires Step(before, after) && before != after
    ensures exists id :: OneRunFinished(before, after, id)
  {
    var work :| Commits(before, work, after);
    assert OneRunFinished(before, after, work.id);
  }

  lemma StepEvolves(before: Db, after: Db)
    requires DbOk(before) && Step(before, after)
    ensures DbOk(after) && Evolves(before, after)
    ensures AllFinished(before) ==> AllFinished(after)
  {
    StepKeepsOk(before, after);
  }

  lemma EvolvesThrough(a: Db, b: Db, c: Db)
    requires Evolves(a, b) && Evolves(b, c)
    ensures Evolves(a, c)
  {
  }

  /** Along every history the table stays sound, no run goes away, finished runs never change, and
      no run is ever committed pending or running. */
  lemma {:induction false} HistoryIsSound(h: seq<Db>, i: nat, j: nat)
    requires IsHistory(h) && DbOk(h[0]) && i <= j < |h|
    ensures DbOk(h[i]) && DbOk(h[j]) && Evolves(h[i], h[j])
    ensures AllFinished(h[0]) ==> AllFinished(h[j])
    decreases j, i
  {
    if j > 0 {
      HistoryIsSound(h, if i < j then i else 0, j - 1);
      StepEvolves(h[j - 1], h[j]);
      if i < j {
        EvolvesThrough(h[i], h[j - 1], h[j]);
      }
    }
  }

  /** At most one run is ever committed for a job id. */
  lemma OneRunPerJob(h: seq<Db>, i: nat, j: nat, first: int, second: int)
    requires IsHistory(h) && DbOk(h[0]) && AllFinished(h[0]) && i <= j < |h|
    requires first in h[i].runs && second in h[j].runs
    requires h[i].runs[first].jobId.Some? && h[i].runs[first].jobId == h[j].runs[second].jobId
    ensures first == second && h[i].runs[first] == h[j].runs[second]
  {
    HistoryIsSound(h, 0, i);
    HistoryIsSound(h, i, j);
    SameJobSameRun(h[j], first, second);
  }

  /** Once the job's run is finished, every later delivery of the job finds that run and gives the
      same answer. */
  lemma RedeliveriesAgree(h: seq<Db>, i: nat, j: nat, jobId: Option<string>, sessionId: int)
    requires IsHistory(h) && DbOk(h[0]) && i <= j < |h|
    requires FinishedRun(h[i], jobId, sessionId).Some?
    ensures var id := FinishedRun(h[i], jobId, sessionId).value;
            && FinishedRun(h[j], jobId, sessionId) == Some(id)
            && TerminalResponse(id, h[j].runs[id]) == TerminalResponse(id, h[i].runs[id])
  {
    HistoryIsSound(h, i, j);
    var id := FinishedRun(h[i], jobId, sessionId).value;
    assert id in RunsOfJob(h[i], Text.Strip(jobId.value), sessionId);
    FinishedRunIsFound(h[j], jobId, sessionId, id);
  }

  /** A report once ready is ready for ever, and never falls back to an older run. */
  lemma ReadyForever(h: seq<Db>, i: nat, j: nat, sessionId: int, activeThen: bool, activeNow: bool)
    requires IsHistory(h) && DbOk(h[0]) && i <= j < |h|
    requires FetchStatus(h[i], sessionId, activeThen).Ready?
    ensures var was, now := FetchStatus(h[i], sessionId, activeThen), FetchStatus(h[j], sessionId, activeNow);
            now.Ready? && was.runId in h[j].runs && now.runId in h[j].runs && AtOrAfter(h[j].runs, now.runId, was.runId)
  {
    HistoryIsSound(h, i, j);
    ReadyStaysReady(h[i], h[j], sessionId, activeThen, activeNow);
  }

  /** A commit can make a report ready, but never not ready; and it is ready right after a commit
      that completes a run of the session. */
  lemma ReadyAfterCompletion(before: Db, after: Db, id: int, activeJob: bool)
    requires OneRunFinished(before, after, id) && after.runs[id].status == Completed
    ensures FetchStatus(after, after.runs[id].sessionId, activeJob).Ready?
  {
    ReadyMeansCompleted(after, after.runs[id].sessionId, activeJob);
  }

  // What a delivery leaves for later ones.

  /** The finished row of a new run is the delivery's: its session, job, basis and labels. */
  predicate OfDelivery(run: Run, d: Delivery) {
    var started := NewRun(d).run;
    && run.sessionId == d.sessionId && run.jobId == StrippedOption(d.job.jobId)
    && run.basis == started.basis && run.labels == started.labels
    && run.scenarioVersionId == started.scenarioVersionId && run.startedAt == started.startedAt
  }

  lemma CommittedRun(before: Db, work: Work, after: Db)
    requires Commits(before, work, after)
    ensures OneRunFinished(before, after, work.id) && after.runs[work.id] == work.run
  {
  }

  /** What a delivery commits is the finished run of its own job and session. */
  lemma RunOfDelivery(before: Db, begun: Work, after: Db, d: Delivery)
    requires Concludes(before, begun, after, d)
    ensures begun.id in after.runs && Terminal(after.runs[begun.id].status)
    ensures after.runs[begun.id].sessionId == d.sessionId && after.runs[begun.id].jobId == StrippedOption(d.job.jobId)
    ensures begun.id !in before.runs ==> OfDelivery(after.runs[begun.id], d)
    ensures OneRunFinished(before, after, begun.id)
  {
    if CommitsEvaluation(before, begun, after, d) {
      var c := CompletionOf(d.context.evaluation, d.context.finalMetadata);
      var work :| Commits(before, work, after) && work.id == begun.id
                  && CompletedWith(begun, c, d.urlOk, d.lower, d.world, work.(marker := None, notice := false));
      CommittedRun(before, work, after);
    } else {
      var reports :| MayKeep(begun, d, reports)
                     && Commits(before, FailedWork(begun.(reports := reports), FailureOf(d)), after);
      CommittedRun(before, FailedWork(begun.(reports := reports), FailureOf(d)), after);
    }
  }

  /** A later answer agrees with the first: same run, same status, and the error code as stored. */
  predicate Agrees(first: Response, later: Response) {
    match first
    case CompletedResponse(id) => later == first
    case FailedResponse(id, errorCode) =>
      later == FailedResponse(id, if Text.Blank(errorCode) then "evaluation_failed" else Text.Strip(errorCode))
    case _ => false
  }

  lemma AnswerAgrees(before: Db, begun: Work, after: Db, d: Delivery, response: Response)
    requires Answered(before, begun, after, d, response)
    ensures Concludes(before, begun, after, d) && begun.id in after.runs
    ensures Agrees(response, TerminalResponse(begun.id, after.runs[begun.id]))
  {
    RunOfDelivery(before, begun, after, d);
  }

  /** The run an answered delivery of a job committed is the one found for the job afterwards. */
  lemma DeliveredRunIsFound(before: Db, begun: Work, after: Db, d: Delivery)
    requires DbOk(before) && Concludes(before, begun, after, d) && d.job.jobId.Some?
    ensures DbOk(after) && FinishedRun(after, d.job.jobId, d.sessionId) == Some(begun.id)
  {
    DeliversIsStep(before, after, d);
    StepKeepsOk(before, after);
    RunOfDelivery(before, begun, after, d);
    FinishedRunIsFound(after, d.job.jobId, d.sessionId, begun.id);
  }

  lemma FinishedRunAnswers(h: seq<Db>, j: nat, id: int, again: Delivery)
    requires IsHistory(h) && DbOk(h[0]) && j < |h|
    requires FinishedRun(h[0], again.job.jobId, again.sessionId) == Some(id)
    ensures DbOk(h[j]) && Answering(h[j], again) == Some(TerminalResponse(id, h[0].runs[id]))
  {
    HistoryIsSound(h, 0, j);
    RedeliveriesAgree(h, 0, j, again.job.jobId, again.sessionId);
  }

  /** Once a delivery of a job has committed, whether or not it lived to answer, its run answers every
      later delivery of the job. */
  lemma DeliveredOnceAnswersForever(before: Db, begun: Work, d: Delivery, h: seq<Db>, j: nat, again: Delivery)
    requires IsHistory(h) && j < |h| && DbOk(before) && Concludes(before, begun, h[0], d)
    requires d.job.jobId.Some? && again.job.jobId == d.job.jobId && again.sessionId == d.sessionId
    ensures DbOk(h[j]) && begun.id in h[0].runs
    ensures Answering(h[j], again) == Some(TerminalResponse(begun.id, h[0].runs[begun.id]))
  {
    DeliveredRunIsFound(before, begun, h[0], d);
    FinishedRunAnswers(h, j, begun.id, again);
  }

  lemma LaterAnswerAgrees(before: Db, begun: Work, d: Delivery, response: Response, h: seq<Db>, db: Db, again: Delivery)
    requires IsHistory(h) && h[|h| - 1] == db
    requires DbOk(before) && Answered(before, begun, h[0], d, response)
    requires d.job.jobId.Some? && again.job.jobId == d.job.jobId && again.sessionId == d.sessionId
    ensures DbOk(db) && Answering(db, again).Some? && Agrees(response, Answering(db, again).value)
  {
    AnswerAgrees(before, begun, h[0], d, response);
    DeliveredOnceAnswersForever(before, begun, d, h, |h| - 1, again);
  }

  /** A redelivery, after any history since the first delivery answered: it commits nothing, and when
      it answers, it answers as the first did. Only a failing lookup keeps it from answering. */
  method Redeliver(database: Database, d: Delivery, others: Db, ghost before: Db, ghost begun: Work, ghost h: seq<Db>,
                   ghost first: Delivery, ghost response: Response) returns (r: Attempt<Response>)
    requires IsHistory(h) && h[|h| - 1] == database.committed
    requires DbOk(before) && Answered(before, begun, h[0], first, response) && first.job.jobId.Some?
    requires d.job.jobId == first.job.jobId && d.sessionId == first.sessionId && d.context.snapshotError.None?
    requires d.job.sessionId == Some(d.sessionId) && d.job.companyId == Some(d.context.companyId)
    requires DbOk(others) && Undisturbed(database.committed, others, d.job, d.nextId)
    requires Steady(d.world) && StartsPast(database.committed, d.world.startClock)
    modifies database
    ensures database.committed == old(database.committed)
    ensures r.Ok? ==> Agrees(response, r.value)
    ensures d.world.fault(ReadJob) == NoFault ==> r.Ok?
  {
    LaterAnswerAgrees(before, begun, first, response, h, database.committed, d);
    r := Process(database, d.world, d.job, Some(d.context), d.nextId, others, d.urlOk, d.lower);
  }

  /** A completed answer makes the report of the job's own session ready, and it shows no older run. */
  lemma CompletedAnswerIsReady(before: Db, begun: Work, after: Db, d: Delivery, id: int, activeJob: bool)
    requires Answered(before, begun, after, d, CompletedResponse(id))
    ensures var shown := FetchStatus(after, d.sessionId, activeJob);
            shown.Ready? && id in after.runs && shown.runId in after.runs && AtOrAfter(after.runs, shown.runId, id)
  {
    AnswerAgrees(before, begun, after, d, CompletedResponse(id));
    RunOfDelivery(before, begun, after, d);
    ReadyMeansCompleted(after, d.sessionId, activeJob);
    assert id in CompletedRuns(after, d.sessionId);
  }

  /** A row with the times `create_run` accepts and scores in range is sound, whatever its status. */
  lemma CreatedRunsAreOk(run: Run, startedAt: Option<int>, completedAt: Option<int>, generatedAt: Option<int>,
                         now: int, later: int, overall: Value, confidence: Value)
    requires TimesGiven(run.status, startedAt, completedAt, generatedAt, now, later,
                        Accepted(Times(run.startedAt, run.completedAt, run.generatedAt)))
    requires CheckedUnit(overall) == Accepted(run.overall) && CheckedUnit(confidence) == Accepted(run.confidence)
    ensures RunOk(run)
  {
  }
}
