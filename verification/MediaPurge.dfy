/**
 Purging recordings: delete the stored object, redact the transcript, mark the row, write the
 audit, commit. Every step can fail, and while a failed attempt holds no lock other workers purge.
 */
module MediaPurge {
  import opened Values

  datatype Reason = RetentionExpired | DataRequest

  datatype Status = Uploaded | Ready | UploadFailed | Deleted | Purged

  datatype PurgeStatus = Unpurged | MarkedPurged | MarkedFailed

  datatype Recording = Recording(
    storageKey: string,
    status: Status,
    purgeStatus: PurgeStatus,
    purgeReason: Option<Reason>,
    retentionExpiresAt: Option<int>,
    deletedAt: Option<int>,
    purgedAt: Option<int>)

  datatype Transcript = Transcript(text: Option<string>, segments: Option<string>, lastError: Option<string>,
                                   deletedAt: Option<int>)

  datatype Outcome = Skip | Success | Failure

  datatype Audit = Audit(recordingId: int, reason: Reason, outcome: Outcome)

  /** Transcripts are keyed by the recording they belong to. */
  datatype Db = Db(recordings: map<int, Recording>, transcripts: map<int, Transcript>, audits: seq<Audit>)

  /** The committed database, and the objects in storage. */
  datatype State = State(db: Db, objects: set<string>)

  // What the writes do.

  function OrNow(time: Option<int>, now: int): Option<int> {
    if time.Some? then time else Some(now)
  }

  predicate IsPurged(r: Recording) {
    r.purgedAt.Some? || r.status == Purged
  }

  /** The row after a successful attempt: the retention date is filled in, then `mark_purged`. */
  function PurgedRow(r: Recording, reason: Reason, now: int): Recording {
    r.(retentionExpiresAt := if reason == RetentionExpired then OrNow(r.retentionExpiresAt, now)
       else r.retentionExpiresAt,
       deletedAt := OrNow(r.deletedAt, now), purgedAt := OrNow(r.purgedAt, now),
       status := Purged, purgeReason := Some(reason), purgeStatus := MarkedPurged)
  }

  /** `redact_by_recording_id` */
  function Redacted(transcripts: map<int, Transcript>, id: int, now: int): map<int, Transcript> {
    if id in transcripts then transcripts[id := Transcript(None, None, None, OrNow(transcripts[id].deletedAt, now))]
        else transcripts
  }

  function FailedRow(r: Recording, reason: Reason): Recording {
    r.(purgeReason := Some(reason), purgeStatus := MarkedFailed)
  }

  function WithAudit(db: Db, id: int, reason: Reason, outcome: Outcome): Db {
    db.(audits := db.audits + [Audit(id, reason, outcome)])
  }

  function AfterSuccess(db: Db, id: int, reason: Reason, now: int): Db
    requires id in db.recordings
  {
    WithAudit(db.(recordings := db.recordings[id := PurgedRow(db.recordings[id], reason, now)],
                  transcripts := Redacted(db.transcripts, id, now)),
              id, reason, Success)
  }

  function AfterFailure(db: Db, id: int, reason: Reason): Db
    requires id in db.recordings
  {
    WithAudit(db.(recordings := db.recordings[id := FailedRow(db.recordings[id], reason)]), id, reason, Failure)
  }

  // One step of any worker: an object goes, or one commit.

  predicate Succeeds(before: State, after: State, id: int, reason: Reason, now: int) {
    && id in before.db.recordings && !IsPurged(before.db.recordings[id])
    && before.db.recordings[id].storageKey !in before.objects
    && after == before.(db := AfterSuccess(before.db, id, reason, now))
  }

  ghost predicate Step(before: State, after: State) {
    || (after.db == before.db && after.objects <= before.objects)
    || (exists id, reason, now :: Succeeds(before, after, id, reason, now))
    || (exists id, reason :: id in before.db.recordings && after == before.(db := AfterFailure(before.db, id, reason)))
    || (exists id, reason :: id in before.db.recordings && IsPurged(before.db.recordings[id])
                             && after == before.(db := WithAudit(before.db, id, reason, Skip)))
  }

  ghost predicate IsHistory(h: seq<State>) {
    h != [] && forall i | 0 < i < |h| :: Step(h[i - 1], h[i])
  }

  ghost predicate Leads(before: State, h: seq<State>, after: State) {
    IsHistory(h) && h[0] == before && h[|h| - 1] == after
  }

  lemma HistoriesJoin(a: seq<State>, b: seq<State>)
    requires IsHistory(a) && IsHistory(b) && a[|a| - 1] == b[0]
    ensures IsHistory(a + b[1..])
  {
    var h := a + b[1..];
    forall i | 0 < i < |h| ensures Step(h[i - 1], h[i]) {
      if i >= |a| {
        assert h[i] == b[i - |a| + 1] && h[i - 1] == b[i - |a|];
      }
    }
  }

  lemma OneMoreStep(h: seq<State>, after: State)
    requires IsHistory(h) && Step(h[|h| - 1], after)
    ensures IsHistory(h + [after])
  {
    HistoriesJoin(h, [h[|h| - 1], after]);
    assert h + [h[|h| - 1], after][1..] == h + [after];
  }

  // What holds along every history.

  function Successes(audits: seq<Audit>, id: int): nat {
    if audits == [] then 0
    else
      var last := audits[|audits| - 1];
      Successes(audits[..|audits| - 1], id) + if last.recordingId == id && last.outcome == Success then 1 else 0
  }

  /** A purged recording has lost its object and has exactly one success audit; any other has none. */
  predicate Sound(s: State) {
    forall id | id in s.db.recordings ::
      if IsPurged(s.db.recordings[id])
      then s.db.recordings[id].storageKey !in s.objects && Successes(s.db.audits, id) == 1
      else Successes(s.db.audits, id) == 0
  }

  /** Recordings stay, a purged one keeps its date, and its object does not come back. */
  predicate Evolves(before: State, after: State) {
    && after.objects <= before.objects && after.db.recordings.Keys == before.db.recordings.Keys
    && forall id | id in before.db.recordings ::
         && after.db.recordings[id].storageKey == before.db.recordings[id].storageKey
         && (IsPurged(before.db.recordings[id]) ==>
               IsPurged(after.db.recordings[id])
                   && after.db.recordings[id].purgedAt == before.db.recordings[id].purgedAt)
  }

  lemma SuccessesOfMore(audits: seq<Audit>, audit: Audit, id: int)
    ensures Successes(audits + [audit], id)
         == Successes(audits, id) + if audit.recordingId == id && audit.outcome == Success then 1 else 0
  {
    assert (audits + [audit])[..|audits|] == audits;
  }

  lemma AuditsGrow(db: Db, id: int, reason: Reason, outcome: Outcome)
    ensures forall other :: Successes(WithAudit(db, id, reason, outcome).audits, other)
                         == Successes(db.audits, other) + if id == other && outcome == Success then 1 else 0
  {
    forall other ensures Successes(WithAudit(db, id, reason, outcome).audits, other)
                      == Successes(db.audits, other) + if id == other && outcome == Success then 1 else 0 {
      SuccessesOfMore(db.audits, Audit(id, reason, outcome), other);
    }
  }

  lemma SuccessIsSound(before: State, after: State, id: int, reason: Reason, now: int)
    requires Sound(before) && Succeeds(before, after, id, reason, now)
    ensures Sound(after) && Evolves(before, after)
  {
    AuditsGrow(before.db, id, reason, Success);
    assert after.db.audits == WithAudit(before.db, id, reason, Success).audits;
  }

  lemma FailureIsSound(before: State, after: State, id: int, reason: Reason)
    requires Sound(before) && id in before.db.recordings && after == before.(db := AfterFailure(before.db, id, reason))
    ensures Sound(after) && Evolves(before, after)
  {
    AuditsGrow(before.db, id, reason, Failure);
    assert after.db.audits == WithAudit(before.db, id, reason, Failure).audits;
  }

  lemma StepIsSound(before: State, after: State)
    requires Sound(before) && Step(before, after)
    ensures Sound(after) && Evolves(before, after)
  {
    if id, reason, now :| Succeeds(before, after, id, reason, now) {
      SuccessIsSound(before, after, id, reason, now);
    } else if after.db == before.db && after.objects <= before.objects {
    } else if id, reason :| id in before.db.recordings && after == before.(db := AfterFailure(before.db, id, reason)) {
      FailureIsSound(before, after, id, reason);
    } else {
      var id, reason :| id in before.db.recordings && IsPurged(before.db.recordings[id])
                        && after == before.(db := WithAudit(before.db, id, reason, Skip));
      AuditsGrow(before.db, id, reason, Skip);
    }
  }

  lemma EvolvesThrough(a: State, b: State, c: State)
    requires Evolves(a, b) && Evolves(b, c)
    ensures Evolves(a, c)
  {
  }

  /** Over any sequence of attempts, whatever fails: a recording marked purged had its object deleted
      and has exactly one success audit, and stays purged with the date it got. */
  lemma {:induction false} HistoryIsSound(h: seq<State>, i: nat, j: nat)
    requires IsHistory(h) && Sound(h[0]) && i <= j < |h|
    ensures Sound(h[i]) && Sound(h[j]) && Evolves(h[i], h[j])
    decreases j, i
  {
    if j > 0 {
      HistoryIsSound(h, if i < j then i else 0, j - 1);
      StepIsSound(h[j - 1], h[j]);
      if i < j {
        EvolvesThrough(h[i], h[j - 1], h[j]);
      }
    }
  }

  /** The object is gone before the row says so: in the state a purging commit starts from, the
      object is not in storage. */
  lemma ObjectGoesFirst(h: seq<State>, i: nat, id: int)
    requires IsHistory(h) && 0 < i < |h| && id in h[i - 1].db.recordings && id in h[i].db.recordings
    requires !IsPurged(h[i - 1].db.recordings[id]) && IsPurged(h[i].db.recordings[id])
    ensures h[i - 1].db.recordings[id].storageKey !in h[i - 1].objects
    ensures id in h[i].db.transcripts ==> h[i].db.transcripts[id].text.None? && h[i].db.transcripts[id].segments.None?
    ensures h[i].db.audits == h[i - 1].db.audits + [Audit(id, h[i].db.recordings[id].purgeReason.value, Success)]
  {
    assert Step(h[i - 1], h[i]);
  }

  /** The commit that purges a recording marks it, dates it, and keeps its key and its earlier dates; no
      other recording or transcript changes. */
  lemma PurgeRecorded(before: State, after: State, id: int)
    requires Step(before, after) && id in before.db.recordings && id in after.db.recordings
    requires !IsPurged(before.db.recordings[id]) && IsPurged(after.db.recordings[id])
    ensures exists reason, now :: PurgedLike(before.db, after.db, id, reason, now)
  {
    var id', reason, now :| Succeeds(before, after, id', reason, now);
    assert id' == id;
    assert PurgedLike(before.db, after.db, id, reason, now);
  }

  predicate PurgedLike(before: Db, after: Db, id: int, reason: Reason, now: int)
    requires id in before.recordings && id in after.recordings
  {
    var was, row := before.recordings[id], after.recordings[id];
    && row.status == Purged && row.purgeStatus == MarkedPurged && row.purgeReason == Some(reason)
    && row.purgedAt == Some(now) && row.storageKey == was.storageKey
    && row.deletedAt == (if was.deletedAt.Some? then was.deletedAt else Some(now))
    && row.retentionExpiresAt == (if was.retentionExpiresAt.None? && reason == RetentionExpired then Some(now)
                                  else was.retentionExpiresAt)
    && (id in before.transcripts ==>
          && id in after.transcripts
          && var told, kept := before.transcripts[id], after.transcripts[id];
             && kept.text == None && kept.segments == None && kept.lastError == None
             && kept.deletedAt == (if told.deletedAt.Some? then told.deletedAt else Some(now)))
    && after.recordings - {id} == before.recordings - {id} && after.transcripts - {id} == before.transcripts - {id}
    && after.audits == before.audits + [Audit(id, reason, Success)]
  }

  /** Only the reason and the mark of the recording change, to a failed purge. */
  predicate FailedLike(before: Db, after: Db, id: int, reason: Reason) {
    && id in before.recordings && id in after.recordings && after.transcripts == before.transcripts
    && after.recordings - {id} == before.recordings - {id}
    && after.recordings[id] == before.recordings[id].(purgeReason := Some(reason), purgeStatus := MarkedFailed)
    && after.audits == before.audits + [Audit(id, reason, Failure)]
  }

  /** A recording purged already is passed over. */
  predicate SkippedLike(before: Db, after: Db, id: int, reason: Reason) {
    && id in before.recordings && IsPurged(before.recordings[id])
    && after.recordings == before.recordings && after.transcripts == before.transcripts
    && after.audits == before.audits + [Audit(id, reason, Skip)]
  }

  /** Every other commit records a failed purge, or that a purged recording was passed over. */
  lemma OtherwiseRecorded(before: State, after: State)
    requires Step(before, after) && before.db != after.db
    requires forall id, reason, now :: !Succeeds(before, after, id, reason, now)
    ensures exists id, reason ::
              FailedLike(before.db, after.db, id, reason) || SkippedLike(before.db, after.db, id, reason)
  {
    if id, reason :| id in before.db.recordings && after == before.(db := AfterFailure(before.db, id, reason)) {
      assert FailedLike(before.db, after.db, id, reason);
    } else {
      var id, reason :| id in before.db.recordings && IsPurged(before.db.recordings[id])
                        && after == before.(db := WithAudit(before.db, id, reason, Skip));
      assert SkippedLike(before.db, after.db, id, reason);
    }
  }

  // The worker.

  datatype Point = Read | WriteSkip | Redact | Mark | WriteSuccess | Rollback | Reread | WriteFailure

  datatype Deletion = Deletes | FailsBefore | FailsAfter

  datatype Fate = Lands | Lost | LandsUnseen

  /** What happens to one attempt, and who else works while it holds no lock. */
  datatype Plan = Plan(fails: Point -> bool, deletion: Deletion, fate: Fate, failureFate: Fate,
                       interlopers: seq<Attempt>)

  /** Nothing fails. */
  ghost predicate Smooth(plan: Plan) {
    plan.deletion == Deletes && plan.fate == Lands && forall p: Point :: !plan.fails(p)
  }

  /** No recording was marked purged, or lost its mark. */
  predicate SameMarks(before: Db, after: Db) {
    forall id | id in before.recordings ::
      && id in after.recordings
      && after.recordings[id].purgedAt == before.recordings[id].purgedAt
      && after.recordings[id].status == before.recordings[id].status
  }

  /** The object gone, the row marked, the transcript redacted, the audit written. */
  function PurgedState(before: State, a: Attempt): State
    requires a.recordingId in before.db.recordings
  {
    State(AfterSuccess(before.db, a.recordingId, a.reason, a.now),
          before.objects - {before.db.recordings[a.recordingId].storageKey})
  }

  datatype BatchResult = BatchResult(scanned: nat, purged: seq<int>, skipped: nat, failed: nat)

  datatype Attempt = Attempt(recordingId: int, reason: Reason, now: int, plan: Plan)

  datatype Result = DidPurge | DidSkip | DidFail | Raised

  // One attempt alone, in closed form.

  /** Everything before the commit of a purge works. */
  predicate ReachesCommit(plan: Plan) {
    plan.deletion == Deletes && !plan.fails(Redact) && !plan.fails(Mark) && !plan.fails(WriteSuccess)
  }

  /** What the body of the `try` leaves. */
  function Tried(before: State, a: Attempt): State
    requires a.recordingId in before.db.recordings
  {
    State(if ReachesCommit(a.plan) && a.plan.fate != Lost then AfterSuccess(before.db, a.recordingId, a.reason, a.now)
          else before.db,
          if a.plan.deletion == FailsBefore then before.objects
          else before.objects - {before.db.recordings[a.recordingId].storageKey})
  }

  /** The failure is recorded as far as the row can be read and written. */
  predicate WritesFailure(plan: Plan) {
    !plan.fails(Reread) && !plan.fails(WriteFailure) && plan.failureFate != Lost
  }

  function Recorded(before: State, a: Attempt): State {
    if a.recordingId in before.db.recordings && WritesFailure(a.plan)
    then before.(db := AfterFailure(before.db, a.recordingId, a.reason))
    else before
  }

  function RecordedResult(before: State, a: Attempt): Result {
    if a.plan.fails(Reread) then Raised
    else if a.recordingId !in before.db.recordings then DidFail
    else if a.plan.fails(WriteFailure) || a.plan.failureFate != Lands then Raised
    else DidFail
  }

  datatype Settled = Settled(result: Result, state: State)

  /** An attempt on a recording not purged yet, with no other worker let in. */
  function Alone(before: State, a: Attempt): Settled
    requires a.recordingId in before.db.recordings
  {
    var tried := Tried(before, a);
    if a.plan.fails(Read) then Settled(Raised, before)
    else if ReachesCommit(a.plan) && a.plan.fate == Lands then Settled(DidPurge, tried)
    else if a.plan.fails(Rollback) then Settled(Raised, tried)
    else Settled(RecordedResult(tried, a), Recorded(tried, a))
  }

  /** An attempt that does not count as a purge leaves the recording purged exactly when everything up
      to the commit worked and the commit landed without saying so. It then has one success audit, and
      counts as failed, with a failure audit as well, exactly when that could be recorded. */
  lemma PurgedThoughNotCounted(before: State, a: Attempt)
    requires a.recordingId in before.db.recordings && !IsPurged(before.db.recordings[a.recordingId])
    ensures var id, alone := a.recordingId, Alone(before, a);
            && alone.state.db.recordings.Keys == before.db.recordings.Keys
            && (alone.result != DidPurge && IsPurged(alone.state.db.recordings[id]) <==>
                  !a.plan.fails(Read) && ReachesCommit(a.plan) && a.plan.fate == LandsUnseen)
            && (alone.result != DidPurge && IsPurged(alone.state.db.recordings[id]) ==>
                  var recorded := !a.plan.fails(Rollback) && WritesFailure(a.plan);
                  && (alone.result == DidFail <==> recorded && a.plan.failureFate == Lands)
                  && alone.state.db.audits == before.db.audits + [Audit(id, a.reason, Success)]
                                              + if recorded then [Audit(id, a.reason, Failure)] else [])
  {
  }

  /** Such an attempt. */
  lemma UnseenCommitPurges(before: State, id: int, reason: Reason, now: int)
    requires id in before.db.recordings && !IsPurged(before.db.recordings[id])
    ensures var alone := Alone(before, Attempt(id, reason, now, Plan(p => false, Deletes, LandsUnseen, Lands, [])));
            alone.result == DidFail && id in alone.state.db.recordings && IsPurged(alone.state.db.recordings[id])
  {
  }

  class Worker {
    var state: State

    constructor (state: State)
      ensures this.state == state
    {
      this.state := state;
    }

    method Commit(db: Db, fate: Fate, ghost h: seq<State>) returns (landed: bool, seen: bool, ghost after: seq<State>)
      requires IsHistory(h) && h[|h| - 1] == state && Step(state, state.(db := db))
      modifies this
      ensures landed <==> fate != Lost
      ensures seen <==> fate == Lands
      ensures state == (if landed then old(state).(db := db) else old(state))
      ensures IsHistory(after) && after[0] == h[0] && after[|after| - 1] == state
    {
      landed, seen, after := fate != Lost, fate == Lands, h;
      if landed {
        state := state.(db := db);
        OneMoreStep(h, state);
        after := h + [state];
      }
    }

    /** The body of the `try`: true when it got through to the end. */
    method TryPurge(a: Attempt) returns (done: bool, ghost h: seq<State>)
      requires a.recordingId in state.db.recordings && !IsPurged(state.db.recordings[a.recordingId])
      modifies this
      ensures Leads(old(state), h, state)
      ensures done <==> ReachesCommit(a.plan) && a.plan.fate == Lands
      ensures state == Tried(old(state), a)
    {
      var id, now := a.recordingId, a.now;
      var recording := state.db.recordings[id];
      h := [state];
      if a.plan.deletion != FailsBefore {
        state := state.(objects := state.objects - {recording.storageKey});
        OneMoreStep(h, state);
        h := h + [state];
      }
      if a.plan.deletion != Deletes {
        return false, h;
      }
      var work := state.db;
      if a.reason == RetentionExpired && recording.retentionExpiresAt.None? {
        recording := recording.(retentionExpiresAt := Some(now));
      }
      if a.plan.fails(Redact) {
        return false, h;
      }
      work := work.(transcripts := Redacted(work.transcripts, id, now));
      if recording.deletedAt.None? {
        recording := recording.(deletedAt := Some(now));
      }
      if recording.purgedAt.None? {
        recording := recording.(purgedAt := Some(now));
      }
      recording := recording.(status := Purged, purgeReason := Some(a.reason), purgeStatus := MarkedPurged);
      work := work.(recordings := work.recordings[id := recording]);
      if a.plan.fails(Mark) || a.plan.fails(WriteSuccess) {
        return false, h;
      }
      work := WithAudit(work, id, a.reason, Success);
      assert work == AfterSuccess(state.db, id, a.reason, now);
      assert Succeeds(state, state.(db := work), id, a.reason, now);
      var landed, seen, after := Commit(work, a.plan.fate, h);
      return seen, after;
    }

    /** The `except` branch, after the rollback: other workers have had their turn by then, and may
        have purged the recording. */
    method RecordFailure(a: Attempt) returns (r: Result, ghost h: seq<State>)
      modifies this
      ensures Leads(old(state), h, state)
      ensures r == RecordedResult(old(state), a) && state == Recorded(old(state), a)
      ensures SameMarks(old(state).db, state.db)
    {
      h := [state];
      if a.plan.fails(Reread) {
        return Raised, h;
      }
      if a.recordingId !in state.db.recordings {
        return DidFail, h;
      }
      if a.plan.fails(WriteFailure) {
        return Raised, h;
      }
      var recording := FailedRow(state.db.recordings[a.recordingId], a.reason);
      var work := state.db.(recordings := state.db.recordings[a.recordingId := recording]);
      work := WithAudit(work, a.recordingId, a.reason, Failure);
      assert work == AfterFailure(state.db, a.recordingId, a.reason);
      var landed, seen, after := Commit(work, a.plan.failureFate, h);
      return if seen then DidFail else Raised, after;
    }

    /** `_purge_recording` */
    method PurgeRecording(a: Attempt) returns (r: Result, ghost h: seq<State>)
      modifies this
      ensures Leads(old(state), h, state)
      ensures r == DidPurge ==>
                && a.recordingId in old(state).db.recordings && !IsPurged(old(state).db.recordings[a.recordingId])
                && state == PurgedState(old(state), a)
      ensures r == DidSkip ==>
                if a.recordingId in old(state).db.recordings
                then IsPurged(old(state).db.recordings[a.recordingId])
                     && state == old(state).(db := WithAudit(old(state).db, a.recordingId, a.reason, Skip))
                else state == old(state)
      ensures a.recordingId !in old(state).db.recordings && !a.plan.fails(Read) ==> r == DidSkip
      ensures (a.recordingId in old(state).db.recordings && !IsPurged(old(state).db.recordings[a.recordingId])
               && a.plan.interlopers == []) ==>
                Settled(r, state) == Alone(old(state), a)
      ensures r != DidPurge && a.plan.fate != LandsUnseen && a.plan.interlopers == [] ==>
                SameMarks(old(state).db, state.db)
      ensures Smooth(a.plan) && a.recordingId in old(state).db.recordings ==>
                r == if IsPurged(old(state).db.recordings[a.recordingId]) then DidSkip else DidPurge
      decreases a, 1
    {
      h := [state];
      if a.plan.fails(Read) {
        return Raised, h;
      }
      if a.recordingId !in state.db.recordings {
        return DidSkip, h;
      }
      var recording := state.db.recordings[a.recordingId];
      if recording.purgedAt.Some? || recording.status == Purged {
        if a.plan.fails(WriteSkip) {
          return Raised, h;
        }
        var landed, seen, after := Commit(WithAudit(state.db, a.recordingId, a.reason, Skip), a.plan.fate, h);
        return if seen then DidSkip else Raised, after;
      }
      var done, tried := TryPurge(a);
      h := tried;
      if done {
        return DidPurge, h;
      }
      if a.plan.fails(Rollback) {
        return Raised, h;
      }
      var others := PurgeOthers(a.plan.interlopers);
      HistoriesJoin(h, others);
      h := h + others[1..];
      var failed, recorded := RecordFailure(a);
      HistoriesJoin(h, recorded);
      return failed, h + recorded[1..];
    }

    /** Other workers, one after the other; one that raises does not stop the next. */
    method PurgeOthers(attempts: seq<Attempt>) returns (ghost h: seq<State>)
      modifies this
      ensures Leads(old(state), h, state)
      ensures attempts == [] ==> state == old(state)
      decreases attempts, 0
    {
      h := [state];
      for i := 0 to |attempts|
        invariant Leads(old(state), h, state) && (i == 0 ==> state == old(state))
      {
        var _, next := PurgeRecording(attempts[i]);
        HistoriesJoin(h, next);
        h := h + next[1..];
      }
    }

    /** The loop of both batch purges: over the expired recordings, or those of one candidate. When
        an attempt raises, so does the batch. */
    method PurgeBatch(attempts: seq<Attempt>) returns (r: Option<BatchResult>, ghost h: seq<State>)
      requires Sound(state)
      modifies this
      ensures Leads(old(state), h, state) && Sound(state)
      ensures r.Some? ==>
                && r.value.scanned == |attempts| == |r.value.purged| + r.value.skipped + r.value.failed
                && forall id | id in r.value.purged ::
                     && id in old(state).db.recordings && !IsPurged(old(state).db.recordings[id])
                     && id in state.db.recordings && IsPurged(state.db.recordings[id])
                     && state.db.recordings[id].storageKey !in state.objects && Successes(state.db.audits, id) == 1
    {
      var purged: seq<int>, skipped: nat, failed: nat := [], 0, 0;
      h := [state];
      for i := 0 to |attempts|
        invariant Leads(old(state), h, state) && Sound(state) && Evolves(old(state), state)
        invariant i == |purged| + skipped + failed
        invariant forall id | id in purged ::
                    && id in old(state).db.recordings && !IsPurged(old(state).db.recordings[id])
                    && id in state.db.recordings && IsPurged(state.db.recordings[id])
      {
        ghost var before := state;
        var result, next := PurgeRecording(attempts[i]);
        HistoryIsSound(next, 0, |next| - 1);
        HistoriesJoin(h, next);
        h := h + next[1..];
        HistoryIsSound(h, 0, |h| - 1);
        match result {
          case DidPurge =>
            purged := purged + [attempts[i].recordingId];
          case DidSkip => skipped := skipped + 1;
          case DidFail => failed := failed + 1;
          case Raised => return None, h;
        }
      }
      return Some(BatchResult(|attempts|, purged, skipped, failed)), h;
    }
  }
}
