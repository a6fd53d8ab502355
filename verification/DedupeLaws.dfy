/**
 What the session dedupe does, said of simulations, addresses and ids alone.
 */
module DedupeLaws {
  import opened Catalog
  import opened SessionDedupe

  /** Two sessions of one simulation, with addresses that differ in case at most. */
  predicate Alike(sessions: map<int, Session>, lower: string -> string, a: int, b: int) {
    && a in sessions && b in sessions
    && sessions[a].simulation.Some? && sessions[b].simulation.Some?
    && sessions[a].simulation.value == sessions[b].simulation.value
    && sessions[a].email.Some? && sessions[b].email.Some?
    && lower(sessions[a].email.value) == lower(sessions[b].email.value)
  }

  /** The greatest id of those like the session; itself when there is none like it. */
  ghost predicate GreatestLike(sessions: map<int, Session>, lower: string -> string, id: int, greatest: int) {
    && (greatest == id || Alike(sessions, lower, id, greatest))
    && forall other | Alike(sessions, lower, id, other) :: other <= greatest
  }

  lemma AlikeIsGroup(sessions: map<int, Session>, lower: string -> string, a: int, b: int)
    ensures Alike(sessions, lower, a, b) <==> SameGroup(sessions, lower, a, b)
  {
  }

  lemma GoesToGreatest(start: Store, lower: string -> string, id: int, survivor: int)
    requires GoesTo(start, lower, id, survivor)
    ensures GreatestLike(start.sessions, lower, id, survivor)
  {
    forall a, b ensures Alike(start.sessions, lower, a, b) <==> SameGroup(start.sessions, lower, a, b) {
      AlikeIsGroup(start.sessions, lower, a, b);
    }
  }

  /** A session stays, unchanged, if and only if no session like it has a greater id. */
  lemma GreatestStay(start: Store, u: Uniques, lower: string -> string, rows: seq<Pair>, end: Store, id: int)
    requires Dedupes(start, u, lower, rows, end) && id in start.sessions
    ensures id in end.sessions <==> forall other | Alike(start.sessions, lower, id, other) :: other <= id
    ensures id in end.sessions ==> end.sessions[id] == start.sessions[id]
  {
    OneSessionPerGroup(start, u, lower, rows, end, id);
    forall other ensures Alike(start.sessions, lower, id, other) <==> SameGroup(start.sessions, lower, id, other) {
      AlikeIsGroup(start.sessions, lower, id, other);
    }
  }

  /** Every submission and profile, and every workspace that is left, is at the greatest session like the
      one it had; nothing else of it changes, and no submission or profile is lost. */
  lemma RowsGoToGreatest(start: Store, u: Uniques, lower: string -> string, rows: seq<Pair>, end: Store, i: int)
    requires Dedupes(start, u, lower, rows, end)
    ensures i in start.submissions <==> i in end.submissions
    ensures i in start.submissions ==>
              var was, now := start.submissions[i], end.submissions[i];
              && now.task == was.task && (now.session.Some? <==> was.session.Some?)
              && (was.session.Some? ==> GreatestLike(start.sessions, lower, was.session.value, now.session.value))
    ensures i in start.profiles <==> i in end.profiles
    ensures i in start.profiles ==>
              GreatestLike(start.sessions, lower, start.profiles[i].session, end.profiles[i].session)
    ensures i in end.workspaces ==>
              && i in start.workspaces && end.workspaces[i].task == start.workspaces[i].task
              && GreatestLike(start.sessions, lower, start.workspaces[i].session, end.workspaces[i].session)
  {
    RowsFollowTheSurvivor(start, u, lower, rows, end);
    WorkspacesThatStay(start, u, lower, rows, end, i);
    forall id, survivor | GoesTo(start, lower, id, survivor)
      ensures GreatestLike(start.sessions, lower, id, survivor)
    {
      GoesToGreatest(start, lower, id, survivor);
    }
  }

  lemma CoveredBy(s: Store, session: int, task: int) returns (i: int)
    requires (session, task) in Covered(s)
    ensures i in s.workspaces && s.workspaces[i] == Workspace(session, task)
  {
    i :| i in s.workspaces && (s.workspaces[i].session, s.workspaces[i].task) == (session, task);
  }

  lemma SurvivorHasOne(start: Store, u: Uniques, lower: string -> string, rows: seq<Pair>, end: Store, i: int)
    returns (survivor: int)
    requires Dedupes(start, u, lower, rows, end) && i in start.workspaces
    ensures GoesTo(start, lower, start.workspaces[i].session, survivor)
    ensures (survivor, start.workspaces[i].task) in Covered(end)
  {
    var folded := FoldedAtEnd(start, u, lower, rows, end);
    survivor := Destination(start.workspaces[i].session, folded);
    DestinationIsSurvivor(start, lower, rows, folded, start.workspaces[i].session);
    assert (survivor, start.workspaces[i].task) in CoveredVia(start, folded);
  }

  /** For every workspace there was, one is left for its task, at the greatest session like its own. */
  lemma WorkspaceIsLeft(start: Store, u: Uniques, lower: string -> string, rows: seq<Pair>, end: Store, i: int)
    returns (left: int)
    requires Dedupes(start, u, lower, rows, end) && i in start.workspaces
    ensures left in end.workspaces && end.workspaces[left].task == start.workspaces[i].task
    ensures GreatestLike(start.sessions, lower, start.workspaces[i].session, end.workspaces[left].session)
  {
    var survivor := SurvivorHasOne(start, u, lower, rows, end, i);
    left := CoveredBy(end, survivor, start.workspaces[i].task);
    GoesToGreatest(start, lower, start.workspaces[i].session, survivor);
  }

  /** The migration raises if and only if two sessions alike, or one, have two submissions for one task,
      or two profiles, that a constraint of the database forbids. */
  lemma CollisionsRaise(start: Store, u: Uniques, lower: string -> string, rows: seq<Pair>)
    requires IsQueryResult(start.sessions, lower, rows) && Obeys(start, u)
    ensures FoldAll(start, u, rows).Raised? <==>
              || (u.submissionPerTask && exists a, b | a in start.submissions && b in start.submissions ::
                    && a != b && start.submissions[a].task == start.submissions[b].task
                    && start.submissions[a].session.Some? && start.submissions[b].session.Some?
                    && Alike(start.sessions, lower, start.submissions[a].session.value,
                             start.submissions[b].session.value))
              || (u.profilePerSession && exists a, b | a in start.profiles && b in start.profiles ::
                    a != b && Alike(start.sessions, lower, start.profiles[a].session, start.profiles[b].session))
  {
    RaisesWhen(start, u, lower, rows);
    forall a, b ensures Alike(start.sessions, lower, a, b) <==> SameGroup(start.sessions, lower, a, b) {
      AlikeIsGroup(start.sessions, lower, a, b);
    }
  }
}
