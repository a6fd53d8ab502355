/**
 What a delivery leaves when it cannot complete its run: which failed runs keep reviewer reports, and
 which evaluations are never recorded at all. Both happen when a provider answers two days as one.
 */
module FailedRuns {
  import opened Values
  import opened EvidencePointers
  import opened DayScores
  import opened ReviewerReports
  import opened RunTable
  import opened RunSession
  import opened Pipeline
  import DeterministicEvaluator
  import Scoring
  import Text

  // Failed runs with reports.

  /** The reports pass, and are flushed before the day scores turn out to be refused. */
  predicate KeepsReports(e: Evaluation, urlOk: string -> bool, lower: string -> string) {
    && EvaluationUsable(e) && e.reports != [] && ReportsVerdict(e.reports, urlOk, lower) == Completes
    && !PayloadAccepted(EntriesFor(e.days), true, urlOk)
  }

  lemma LeftWithMeans(d: Delivery, reports: seq<ReviewerReport>)
    requires VerdictOn(d) == Refuses && LeftWith(d, reports)
    ensures reports != [] <==> KeepsReports(d.context.evaluation, d.urlOk, d.lower)
    ensures reports != [] ==> AllReportsStored(d.context.evaluation.reports, d.urlOk, d.lower, reports)
  {
  }

  /** In a calm world a new run that is answered as failed keeps reviewer reports exactly when the
      reports pass and the day scores are refused, and then it keeps all of them. */
  lemma FailedRunKeepsReports(before: Db, others: Db, after: Db, d: Delivery, r: Attempt<Response>)
    requires Processed(before, others, after, d, r) && d.context.snapshotError.None? && RunsCalmly(before, others, d)
    requires r.Ok? && r.value.FailedResponse?
    ensures ReportsOf(after, d.nextId) != [] <==> KeepsReports(d.context.evaluation, d.urlOk, d.lower)
    ensures ReportsOf(after, d.nextId) != [] ==>
              AllReportsStored(d.context.evaluation.reports, d.urlOk, d.lower, ReportsOf(after, d.nextId))
  {
    assert VerdictOn(d) == Refuses;
    LeftWithMeans(d, ReportsOf(after, d.nextId));
  }

  /** A reviewer's answer about a day, as result and as report. */
  function ResultOn(day: int): DayResult {
    DayResult(Int(day), Real(0.5), Given(map[]), Items([]))
  }

  function ReportOn(day: int, key: string, kind: string, text: string): ReportEntry {
    ReportEntry(Int(day), Str(key), Str(kind), Real(0.5), Given(map[]), Items([]), Str(text), Missing, Missing, Missing)
  }

  lemma ReportOnAccepted(day: int, key: string, kind: string, text: string, urlOk: string -> bool)
    requires 1 <= day <= 5 && !Text.Blank(key) && !Text.Blank(kind) && !Text.Blank(text)
    ensures ReportAccepted(ReportOn(day, key, kind, text), urlOk)
  {
  }

  /** Two days answered as one have their day scores refused. */
  lemma OneDayTwiceRefused(e: Evaluation, day: int, urlOk: string -> bool)
    requires e.Evaluated? && e.days == [ResultOn(day), ResultOn(day)]
    ensures EvaluationUsable(e) && !PayloadAccepted(EntriesFor(e.days), true, urlOk)
  {
    assert EntriesFor(e.days)[0].dayIndex == EntriesFor(e.days)[1].dayIndex;
  }

  lemma TwoAgentsPass(day: int, key: string, otherKey: string, kind: string, other: string, text: string,
                      urlOk: string -> bool, lower: string -> string)
    requires 1 <= day <= 5 && key != "" && otherKey != "" && Text.Trimmed(key) && Text.Trimmed(otherKey)
               && key != otherKey
    requires !Text.Blank(kind) && !Text.Blank(other) && !Text.Blank(text)
    ensures ReportsVerdict([ReportOn(day, key, kind, text), ReportOn(day, otherKey, other, text)], urlOk, lower)
              == Completes
  {
    ReportOnAccepted(day, key, kind, text, urlOk);
    ReportOnAccepted(day, otherKey, other, text, urlOk);
  }

  function AnsweredTwice(day: int, first: ReportEntry, second: ReportEntry, summary: Completion): Evaluation {
    Evaluated([ResultOn(day), ResultOn(day)], [first, second], summary.overall, summary.recommendation,
              summary.confidence, summary.raw)
  }

  lemma ReviewerKeys()
    ensures var first, second := DeterministicEvaluator.ReviewerKey(1), DeterministicEvaluator.ReviewerKey(2);
            && first != "" && second != "" && Text.Trimmed(first) && Text.Trimmed(second) && first != second
            && DeterministicEvaluator.ReviewerKey(3) == second
  {
    var key, otherKey := DeterministicEvaluator.ReviewerKey(1), DeterministicEvaluator.ReviewerKey(2);
    assert key[0] == 'd' && key[|key| - 1] == 'r' && otherKey[0] == 'c' && otherKey[|otherKey| - 1] == 'r';
  }

  /** Reviewers of days 1 and 2 that both answer about day 1: the run fails and keeps both reports. */
  lemma TwoReviewersOnOneDay(kind: string, other: string, text: string, summary: Completion, urlOk: string -> bool,
                             lower: string -> string)
    requires !Text.Blank(kind) && !Text.Blank(other) && !Text.Blank(text)
    ensures var key, otherKey := DeterministicEvaluator.ReviewerKey(1), DeterministicEvaluator.ReviewerKey(2);
            KeepsReports(AnsweredTwice(1, ReportOn(1, key, kind, text), ReportOn(1, otherKey, other, text), summary),
                         urlOk, lower)
  {
    var key, otherKey := DeterministicEvaluator.ReviewerKey(1), DeterministicEvaluator.ReviewerKey(2);
    assert key[0] == 'd' && key[|key| - 1] == 'r' && otherKey[0] == 'c' && otherKey[|otherKey| - 1] == 'r';
    TwoAgentsPass(1, key, otherKey, kind, other, text, urlOk, lower);
    var e := AnsweredTwice(1, ReportOn(1, key, kind, text), ReportOn(1, otherKey, other, text), summary);
    OneDayTwiceRefused(e, 1, urlOk);
  }

  // Evaluations that leave no trace.

  /** A summary as both evaluators confine it: scores in [0, 1], a known recommendation, an object. */
  predicate Confined(e: Evaluation, lower: string -> string) {
    && e.Evaluated? && CheckedUnit(e.overall).Accepted? && CheckedUnit(e.confidence).Accepted?
    && CheckedRecommendation(e.recommendation, lower).Accepted? && !e.raw.Malformed?
  }

  /** The deliveries that raise and record nothing although nothing went wrong around them: exactly
      those whose reports pass all checks but have one agent report twice on a day, which only the
      unique constraint refuses. */
  lemma NoTraceWhen(before: Db, others: Db, after: Db, d: Delivery, r: Attempt<Response>)
    requires Processed(before, others, after, d, r) && d.context.snapshotError.None? && RunsCalmly(before, others, d)
    requires Confined(d.context.evaluation, d.lower)
    ensures r.Threw? <==>
              && EvaluationUsable(d.context.evaluation)
              && ReportsAccepted(d.context.evaluation.reports, d.urlOk, d.lower)
              && !AgentDaysClear(d.context.evaluation.reports)
    ensures r.Threw? ==> after == others
  {
    assert Concluded(others, after, d, d.nextId, r);
  }

  lemma OneAgentTwicePasses(day: int, key: string, kind: string, other: string, text: string, urlOk: string -> bool,
                            lower: string -> string)
    requires 1 <= day <= 5 && key != "" && Text.Trimmed(key)
    requires !Text.Blank(kind) && !Text.Blank(other) && !Text.Blank(text)
               && lower(Text.Strip(kind)) != lower(Text.Strip(other))
    ensures var reports := [ReportOn(day, key, kind, text), ReportOn(day, key, other, text)];
            ReportsAccepted(reports, urlOk, lower) && !AgentDaysClear(reports)
  {
    ReportOnAccepted(day, key, kind, text, urlOk);
    ReportOnAccepted(day, key, other, text, urlOk);
    var reports := [ReportOn(day, key, kind, text), ReportOn(day, key, other, text)];
    assert reports[0].agentKey == reports[1].agentKey;
  }

  /** One reviewer that answers two days as one, for two kinds of task: the reports differ in kind, so
      they pass, and the constraint refuses them. */
  lemma OneReviewerTwiceOnADay(kind: string, other: string, text: string, summary: Completion, urlOk: string -> bool,
                               lower: string -> string)
    requires !Text.Blank(kind) && !Text.Blank(other) && !Text.Blank(text)
    requires lower(Text.Strip(kind)) != lower(Text.Strip(other))
    ensures var key := DeterministicEvaluator.ReviewerKey(2);
            var e := AnsweredTwice(2, ReportOn(2, key, kind, text), ReportOn(2, key, other, text), summary);
            EvaluationUsable(e) && ReportsAccepted(e.reports, urlOk, lower) && !AgentDaysClear(e.reports)
  {
    var key := DeterministicEvaluator.ReviewerKey(2);
    ReviewerKeys();
    OneAgentTwicePasses(2, key, kind, other, text, urlOk, lower);
  }
}
