/**
 `_dedupe_candidate_sessions`: fold the candidate sessions that share a simulation and an
 invite email, compared case-insensitively, into the newest one. `lower` is the database's
 LOWER; everything holds for any such function.
 */
module SessionDedupe {
  import opened Catalog
  import opened Sets

  datatype Session = Session(simulation: Option<int>, email: Option<string>)
  datatype Submission = Submission(session: Option<int>, task: int)
  datatype Workspace = Workspace(session: int, task: int)
  datatype Profile = Profile(session: int)

  datatype Store = Store(
    sessions: map<int, Session>,
    submissions: map<int, Submission>,
    workspaces: map<int, Workspace>,
    profiles: map<int, Profile>)

  /** Which unique constraints the database declares; a statement that breaks one raises. */
  datatype Uniques = Uniques(submissionPerTask: bool, workspacePerTask: bool, profilePerSession: bool)

  predicate Obeys(s: Store, u: Uniques) {
    && (u.submissionPerTask ==> forall a, b | a in s.submissions && b in s.submissions && a != b ::
          s.submissions[a].session == None || s.submissions[a] != s.submissions[b])
    && (u.workspacePerTask ==> OneWorkspaceEach(s))
    && (u.profilePerSession ==> forall a, b | a in s.profiles && b in s.profiles && a != b ::
        s.profiles[a] != s.profiles[b])
  }

  predicate OneWorkspaceEach(s: Store) {
    forall a, b | a in s.workspaces && b in s.workspaces && a != b :: s.workspaces[a] != s.workspaces[b]
  }

  predicate NoDangling(s: Store) {
    && (forall i | i in s.submissions && s.submissions[i].session.Some? :: s.submissions[i].session.value in s.sessions)
    && (forall i | i in s.workspaces :: s.workspaces[i].session in s.sessions)
    && (forall i | i in s.profiles :: s.profiles[i].session in s.sessions)
  }

  // Groups of duplicates.

  /** GROUP BY simulation_id, LOWER(invite_email); a null in either never joins. */
  function Group(s: Session, lower: string -> string): Option<(int, string)> {
    if s.simulation.Some? && s.email.Some? then Some((s.simulation.value, lower(s.email.value))) else None
  }

  predicate SameGroup(sessions: map<int, Session>, lower: string -> string, a: int, b: int) {
    a in sessions && b in sessions && Group(sessions[a], lower).Some?
    && Group(sessions[a], lower) == Group(sessions[b], lower)
  }

  /** `keep` is MAX(id) of the group of `id`. */
  predicate Keeps(sessions: map<int, Session>, lower: string -> string, id: int, keep: int) {
    && SameGroup(sessions, lower, id, keep)
    && forall other | other in sessions && SameGroup(sessions, lower, id, other) :: other <= keep
  }

  /** One row of the query: a session to fold, and its group's survivor. */
  datatype Pair = Pair(former: int, keep: int)

  /** The rows the query yields, in whatever order. */
  ghost predicate IsQueryResult(sessions: map<int, Session>, lower: string -> string, rows: seq<Pair>) {
    && (forall i, j | 0 <= i < j < |rows| :: rows[i].former != rows[j].former)
    && (forall i | 0 <= i < |rows| ::
          rows[i].former != rows[i].keep && Keeps(sessions, lower, rows[i].former, rows[i].keep))
    && (forall id, keep | id != keep && Keeps(sessions, lower, id, keep) :: Pair(id, keep) in rows)
  }

  // One iteration.

  function Redirected(session: int, pair: Pair): int {
    if session == pair.former then pair.keep else session
  }

  /** UPDATE ... SET candidate_session_id = keep WHERE candidate_session_id = old */
  function SubmissionsMoved(s: Store, pair: Pair): Store {
    s.(submissions := map i | i in s.submissions ::
      if s.submissions[i].session == Some(pair.former) then s.submissions[i].(session := Some(pair.keep))
      else s.submissions[i])
  }

  predicate Taken(s: Store, session: int, task: int) {
    exists i | i in s.workspaces :: s.workspaces[i] == Workspace(session, task)
  }

  /** The UPDATE with NOT EXISTS; every row is tested against the table before the statement. */
  function WorkspacesMoved(s: Store, pair: Pair): Store {
    s.(workspaces := map i | i in s.workspaces ::
      if s.workspaces[i].session == pair.former && !Taken(s, pair.keep, s.workspaces[i].task)
      then s.workspaces[i].(session := pair.keep)
      else s.workspaces[i])
  }

  function WorkspacesDeleted(s: Store, pair: Pair): Store {
    s.(workspaces := map i | i in s.workspaces && s.workspaces[i].session != pair.former :: s.workspaces[i])
  }

  function ProfilesMoved(s: Store, pair: Pair): Store {
    s.(profiles := map i | i in s.profiles :: Profile(Redirected(s.profiles[i].session, pair)))
  }

  function SessionDeleted(s: Store, pair: Pair): Store {
    s.(sessions := s.sessions - {pair.former})
  }

  function Checked(s: Store, u: Uniques): Outcome<Store> {
    if Obeys(s, u) then Done(s) else Raised(DuplicateKey)
  }

  function FoldOne(s: Store, u: Uniques, pair: Pair): Outcome<Store> {
    var a :- Checked(SubmissionsMoved(s, pair), u);
    var b :- Checked(WorkspacesMoved(a, pair), u);
    var c :- Checked(ProfilesMoved(WorkspacesDeleted(b, pair), pair), u);
    Done(SessionDeleted(c, pair))
  }

  function FoldAll(s: Store, u: Uniques, rows: seq<Pair>): Outcome<Store>
    decreases |rows|
  {
    if rows == [] then Done(s)
    else
      var next :- FoldOne(s, u, rows[0]);
      FoldAll(next, u, rows[1..])
  }

  class Database {
    var store: Store
    const uniques: Uniques

    constructor (store: Store, uniques: Uniques)
      ensures this.store == store && this.uniques == uniques
    {
      this.store, this.uniques := store, uniques;
    }

    /** An UPDATE: the new contents, unless they break a unique constraint. */
    method Update(next: Store) returns (r: Outcome<()>)
      modifies this
      ensures r == if Obeys(next, uniques) then Done(()) else Raised(DuplicateKey)
      ensures store == if r.Done? then next else old(store)
    {
      if !Obeys(next, uniques) {
        return Raised(DuplicateKey);
      }
      store := next;
      return Done(());
    }

    /** The loop over the query result: four statements per folded session, in this order. */
    method Dedupe(rows: seq<Pair>) returns (r: Outcome<()>)
      modifies this
      ensures r.Raised? <==> FoldAll(old(store), uniques, rows).Raised?
      ensures r.Done? ==> FoldAll(old(store), uniques, rows) == Done(store)
    {
      for i := 0 to |rows|
        invariant FoldAll(old(store), uniques, rows) == FoldAll(store, uniques, rows[i..])
      {
        var pair := rows[i];
        assert rows[i..][0] == pair && rows[i..][1..] == rows[i + 1..];
        ghost var before := store;
        r := Update(SubmissionsMoved(store, pair));
        if r.Raised? { return; }
        r := Update(WorkspacesMoved(store, pair));
        if r.Raised? { return; }
        store := WorkspacesDeleted(store, pair);
        r := Update(ProfilesMoved(store, pair));
        if r.Raised? { return; }
        store := SessionDeleted(store, pair);
        assert FoldOne(before, uniques, pair) == Done(store);
      }
      r := Done(());
    }
  }

  // What the loop has done once the sessions in `gone` are folded.

  /** The survivor a folded session points to; others point to themselves. */
  function Destination(session: int, folded: map<int, int>): int {
    if session in folded then folded[session] else session
  }

  function Covered(s: Store): set<(int, int)> {
    set i | i in s.workspaces :: (s.workspaces[i].session, s.workspaces[i].task)
  }

  function CoveredVia(s: Store, folded: map<int, int>): set<(int, int)> {
    set i | i in s.workspaces :: (Destination(s.workspaces[i].session, folded), s.workspaces[i].task)
  }

  function CoveredAfter(s: Store, pair: Pair): set<(int, int)> {
    set i | i in s.workspaces :: (Redirected(s.workspaces[i].session, pair), s.workspaces[i].task)
  }

  function SubmissionVia(s: Submission, folded: map<int, int>): Submission {
    if s.session.Some? then s.(session := Some(Destination(s.session.value, folded))) else s
  }

  function SubmissionsVia(start: Store, folded: map<int, int>): map<int, Submission> {
    map i | i in start.submissions :: SubmissionVia(start.submissions[i], folded)
  }

  function ProfilesVia(start: Store, folded: map<int, int>): map<int, Profile> {
    map i | i in start.profiles :: Profile(Destination(start.profiles[i].session, folded))
  }

  predicate Folded(start: Store, now: Store, folded: map<int, int>) {
    && now.sessions == start.sessions - folded.Keys
    && now.submissions == SubmissionsVia(start, folded)
    && now.profiles == ProfilesVia(start, folded)
    && Covered(now) == CoveredVia(start, folded)
    && (OneWorkspaceEach(start) ==> OneWorkspaceEach(now))
  }

  lemma FoldOneWorkspaces(s: Store, pair: Pair)
    requires pair.former != pair.keep
    ensures var next := WorkspacesDeleted(WorkspacesMoved(s, pair), pair);
            && Covered(next) == CoveredAfter(s, pair)
            && (OneWorkspaceEach(s) ==> OneWorkspaceEach(next))
  {
    var next := WorkspacesDeleted(WorkspacesMoved(s, pair), pair);
    var image := CoveredAfter(s, pair);
    forall place | place in image ensures place in Covered(next) {
      var i :| i in s.workspaces && place == (Redirected(s.workspaces[i].session, pair), s.workspaces[i].task);
      if s.workspaces[i].session == pair.former && Taken(s, pair.keep, s.workspaces[i].task) {
        var j :| j in s.workspaces && s.workspaces[j] == Workspace(pair.keep, s.workspaces[i].task);
        assert j in next.workspaces && next.workspaces[j] == s.workspaces[j];
      } else {
        assert i in next.workspaces;
      }
    }
    forall place | place in Covered(next) ensures place in image {
      var i :| i in next.workspaces && place == (next.workspaces[i].session, next.workspaces[i].task);
      assert i in s.workspaces;
    }
  }

  lemma FoldOneParts(s: Store, u: Uniques, pair: Pair)
    requires FoldOne(s, u, pair).Done?
    ensures var next := FoldOne(s, u, pair).value;
            && next.sessions == s.sessions - {pair.former}
            && next.submissions == SubmissionsMoved(s, pair).submissions
            && next.profiles == ProfilesMoved(s, pair).profiles
            && next.workspaces == WorkspacesDeleted(WorkspacesMoved(s, pair), pair).workspaces
  {
    var a := SubmissionsMoved(s, pair);
    forall i | i in s.workspaces
        ensures Taken(a, pair.keep, s.workspaces[i].task) == Taken(s, pair.keep, s.workspaces[i].task) {
    }
    assert WorkspacesMoved(a, pair).workspaces == WorkspacesMoved(s, pair).workspaces;
  }

  ghost predicate Extends(folded: map<int, int>, pair: Pair, wider: map<int, int>) {
    forall session :: Redirected(Destination(session, folded), pair) == Destination(session, wider)
  }

  lemma RowsFoldedExtend(start: Store, now: Store, folded: map<int, int>, pair: Pair, wider: map<int, int>)
    requires Folded(start, now, folded) && Extends(folded, pair, wider)
    ensures SubmissionsMoved(now, pair).submissions == SubmissionsVia(start, wider)
    ensures ProfilesMoved(now, pair).profiles == ProfilesVia(start, wider)
  {
    forall i | i in start.submissions
      ensures SubmissionsMoved(now, pair).submissions[i] == SubmissionVia(start.submissions[i], wider)
    {
      if start.submissions[i].session.Some? {
        var session := start.submissions[i].session.value;
        assert Redirected(Destination(session, folded), pair) == Destination(session, wider);
      }
    }
  }

  lemma PairExtends(folded: map<int, int>, pair: Pair)
    requires pair.former !in folded && pair.former !in folded.Values
    ensures Extends(folded, pair, folded[pair.former := pair.keep])
  {
    forall session ensures Redirected(Destination(session, folded), pair) == Destination(session,
        folded[pair.former := pair.keep]) {
      if session in folded {
        assert folded[session] in folded.Values;
      }
    }
  }

  /** Folding one more session extends what has been folded. */
  lemma FoldOneExtends(start: Store, now: Store, folded: map<int, int>, u: Uniques, pair: Pair, wider: map<int, int>)
    requires Folded(start, now, folded) && FoldOne(now, u, pair).Done? && pair.former != pair.keep
    requires Extends(folded, pair, wider) && wider.Keys == folded.Keys + {pair.former}
    ensures Folded(start, FoldOne(now, u, pair).value, wider)
  {
    FoldOneParts(now, u, pair);
    RowsFoldedExtend(start, now, folded, pair, wider);
    FoldOneWorkspaces(now, pair);
    CoveredCompose(start, now, folded, pair, wider);
    assert now.sessions - {pair.former} == start.sessions - wider.Keys;
  }

  lemma CoveredCompose(start: Store, now: Store, folded: map<int, int>, pair: Pair, wider: map<int, int>)
    requires Covered(now) == CoveredVia(start, folded)
    requires Extends(folded, pair, wider)
    ensures CoveredAfter(now, pair) == CoveredVia(start, wider)
  {
    var image := CoveredAfter(now, pair);
    forall place | place in image ensures place in CoveredVia(start, wider) {
      var i :| i in now.workspaces && place == (Redirected(now.workspaces[i].session, pair), now.workspaces[i].task);
      assert (now.workspaces[i].session, now.workspaces[i].task) in Covered(now);
      var j :| j in start.workspaces && (Destination(start.workspaces[j].session, folded), start.workspaces[j].task)
                                     == (now.workspaces[i].session, now.workspaces[i].task);
    }
    forall place | place in CoveredVia(start, wider) ensures place in image {
      var j :| j in start.workspaces
          && place == (Destination(start.workspaces[j].session, wider), start.workspaces[j].task);
      assert (Destination(start.workspaces[j].session, folded), start.workspaces[j].task) in Covered(now);
      var i :| i in now.workspaces && (now.workspaces[i].session, now.workspaces[i].task)
                                   == (Destination(start.workspaces[j].session, folded), start.workspaces[j].task);
    }
  }

  // The whole loop.

  /** No session is folded twice, and no survivor is itself folded. */
  predicate Foldable(rows: seq<Pair>) {
    && (forall i, j | 0 <= i < j < |rows| :: rows[i].former != rows[j].former)
    && (forall i, j | 0 <= i < |rows| && 0 <= j < |rows| :: rows[i].keep != rows[j].former)
  }

  lemma QueryIsFoldable(sessions: map<int, Session>, lower: string -> string, rows: seq<Pair>)
    requires IsQueryResult(sessions, lower, rows)
    ensures Foldable(rows)
  {
    forall i, j | 0 <= i < |rows| && 0 <= j < |rows| ensures rows[i].keep != rows[j].former {
      var a, b := rows[i], rows[j];
      if a.keep == b.former {
        assert SameGroup(sessions, lower, a.former, b.keep);
        assert SameGroup(sessions, lower, b.former, a.keep);
      }
    }
  }

  /** `folded` sends each session of the first `k` rows to its survivor. */
  predicate Pairs(folded: map<int, int>, rows: seq<Pair>, k: nat)
    requires k <= |rows|
  {
    && (forall id | id in folded :: exists i | 0 <= i < k :: rows[i] == Pair(id, folded[id]))
    && (forall i | 0 <= i < k :: rows[i].former in folded)
  }

  lemma FoldAllNext(now: Store, u: Uniques, rows: seq<Pair>, k: nat)
    requires k < |rows| && FoldAll(now, u, rows[k..]).Done?
    ensures FoldOne(now, u, rows[k]).Done?
    ensures FoldAll(now, u, rows[k..]) == FoldAll(FoldOne(now, u, rows[k]).value, u, rows[k + 1..])
  {
    assert rows[k..][0] == rows[k] && rows[k..][1..] == rows[k + 1..];
  }

  lemma NextFolds(start: Store, now: Store, u: Uniques, rows: seq<Pair>, k: nat, folded: map<int, int>)
    requires Foldable(rows) && k < |rows| && Pairs(folded, rows, k)
    requires Folded(start, now, folded) && FoldOne(now, u, rows[k]).Done?
    ensures var wider := folded[rows[k].former := rows[k].keep];
            Pairs(wider, rows, k + 1) && Folded(start, FoldOne(now, u, rows[k]).value, wider)
  {
    forall id | id in folded ensures id != rows[k].former && folded[id] != rows[k].former {
      var i :| 0 <= i < k && rows[i] == Pair(id, folded[id]);
    }
    PairExtends(folded, rows[k]);
    FoldOneExtends(start, now, folded, u, rows[k], folded[rows[k].former := rows[k].keep]);
  }

  lemma {:induction false} FoldAllFolds(start: Store, now: Store, u: Uniques, rows: seq<Pair>, k: nat,
                                        folded: map<int, int>)
    returns (all: map<int, int>)
    requires Foldable(rows) && k <= |rows| && Pairs(folded, rows, k)
    requires Folded(start, now, folded) && FoldAll(now, u, rows[k..]).Done?
    requires now.workspaces == WorkspacesVia(start, rows, k, folded)
    ensures Pairs(all, rows, |rows|) && Folded(start, FoldAll(now, u, rows[k..]).value, all)
    ensures FoldAll(now, u, rows[k..]).value.workspaces == WorkspacesVia(start, rows, |rows|, all)
    decreases |rows| - k
  {
    if k == |rows| {
      all := folded;
    } else {
      FoldAllNext(now, u, rows, k);
      NextFolds(start, now, u, rows, k, folded);
      NextStays(start, now, u, rows, k, folded);
      all := FoldAllFolds(start, FoldOne(now, u, rows[k]).value, u, rows, k + 1,
                          folded[rows[k].former := rows[k].keep]);
    }
  }

  // Which workspaces survive.

  /** Of the rows folded so far none takes the workspace away: its session is not folded, or is the
      first of its group to have one for its task while the survivor had none. */
  predicate Stays(start: Store, rows: seq<Pair>, k: nat, w: Workspace)
    requires k <= |rows|
  {
    forall i | 0 <= i < k && rows[i].former == w.session ::
      && !Taken(start, rows[i].keep, w.task)
      && forall j | 0 <= j < i && rows[j].keep == rows[i].keep :: !Taken(start, rows[j].former, w.task)
  }

  function WorkspacesVia(start: Store, rows: seq<Pair>, k: nat, folded: map<int, int>): map<int, Workspace>
    requires k <= |rows|
  {
    map i | i in start.workspaces && Stays(start, rows, k, start.workspaces[i]) ::
      Workspace(Destination(start.workspaces[i].session, folded), start.workspaces[i].task)
  }

  /** A survivor has a workspace by now if it had one, or some session folded into it had. */
  lemma TakenMeans(start: Store, now: Store, rows: seq<Pair>, k: nat, folded: map<int, int>, task: int)
    requires Foldable(rows) && k < |rows| && Pairs(folded, rows, k) && Covered(now) == CoveredVia(start, folded)
    ensures Taken(now, rows[k].keep, task) <==>
              || Taken(start, rows[k].keep, task)
              || exists j | 0 <= j < k :: rows[j].keep == rows[k].keep && Taken(start, rows[j].former, task)
  {
    var keep := rows[k].keep;
    if Taken(now, keep, task) {
      var i :| i in now.workspaces && now.workspaces[i] == Workspace(keep, task);
      assert (keep, task) in Covered(now);
      var j :| j in start.workspaces && (Destination(start.workspaces[j].session, folded), start.workspaces[j].task)
          == (keep, task);
      if start.workspaces[j].session in folded {
        var r :| 0 <= r < k && rows[r] == Pair(start.workspaces[j].session, folded[start.workspaces[j].session]);
        assert start.workspaces[j] == Workspace(rows[r].former, task);
      } else {
        assert start.workspaces[j] == Workspace(keep, task);
      }
    }
    if Taken(start, keep, task) {
      var j :| j in start.workspaces && start.workspaces[j] == Workspace(keep, task);
      TakenVia(start, now, folded, j, keep, task);
    }
    if r :| 0 <= r < k && rows[r].keep == keep && Taken(start, rows[r].former, task) {
      var j :| j in start.workspaces && start.workspaces[j] == Workspace(rows[r].former, task);
      FoldedTo(rows, k, folded, r);
      TakenVia(start, now, folded, j, keep, task);
    }
  }

  lemma FoldedTo(rows: seq<Pair>, k: nat, folded: map<int, int>, r: nat)
    requires Foldable(rows) && r < k <= |rows| && Pairs(folded, rows, k)
    ensures rows[r].former in folded && folded[rows[r].former] == rows[r].keep
    ensures forall j | 0 <= j < |rows| :: rows[j].keep !in folded
  {
    var i :| 0 <= i < k && rows[i] == Pair(rows[r].former, folded[rows[r].former]);
  }

  lemma TakenVia(start: Store, now: Store, folded: map<int, int>, j: int, keep: int, task: int)
    requires Covered(now) == CoveredVia(start, folded) && j in start.workspaces
    requires Destination(start.workspaces[j].session, folded) == keep && start.workspaces[j].task == task
    ensures Taken(now, keep, task)
  {
    assert (keep, task) in CoveredVia(start, folded);
    var i :| i in now.workspaces && (now.workspaces[i].session, now.workspaces[i].task) == (keep, task);
    assert now.workspaces[i] == Workspace(keep, task);
  }

  /** One workspace of the start, through one more row. */
  lemma NextStaysOne(start: Store, now: Store, u: Uniques, rows: seq<Pair>, k: nat, folded: map<int, int>, i: int)
    requires Foldable(rows) && k < |rows| && Pairs(folded, rows, k) && FoldOne(now, u, rows[k]).Done?
    requires Covered(now) == CoveredVia(start, folded) && now.workspaces == WorkspacesVia(start, rows, k, folded)
    requires i in start.workspaces
    ensures var next, w := FoldOne(now, u, rows[k]).value, start.workspaces[i];
            && (i in next.workspaces <==> Stays(start, rows, k + 1, w))
            && (i in next.workspaces ==>
                  next.workspaces[i] == Workspace(Destination(w.session, folded[rows[k].former := rows[k].keep]),
                                                  w.task))
  {
    FoldOneParts(now, u, rows[k]);
    var w, pair := start.workspaces[i], rows[k];
    forall id | id in folded ensures id != pair.former && folded[id] != pair.former {
      var r :| 0 <= r < k && rows[r] == Pair(id, folded[id]);
    }
    assert Stays(start, rows, k + 1, w) <==>
           Stays(start, rows, k, w) && (pair.former == w.session ==>
             && !Taken(start, pair.keep, w.task)
             && forall j | 0 <= j < k && rows[j].keep == pair.keep :: !Taken(start, rows[j].former, w.task));
    if w.session == pair.former {
      assert Stays(start, rows, k, w) && now.workspaces[i] == w;
      TakenMeans(start, now, rows, k, folded, w.task);
    }
  }

  lemma NextStays(start: Store, now: Store, u: Uniques, rows: seq<Pair>, k: nat, folded: map<int, int>)
    requires Foldable(rows) && k < |rows| && Pairs(folded, rows, k) && FoldOne(now, u, rows[k]).Done?
    requires Covered(now) == CoveredVia(start, folded) && now.workspaces == WorkspacesVia(start, rows, k, folded)
    ensures FoldOne(now, u, rows[k]).value.workspaces
         == WorkspacesVia(start, rows, k + 1, folded[rows[k].former := rows[k].keep])
  {
    FoldOneParts(now, u, rows[k]);
    forall i | i in start.workspaces
      ensures var next, w := FoldOne(now, u, rows[k]).value, start.workspaces[i];
              && (i in next.workspaces <==> Stays(start, rows, k + 1, w))
              && (i in next.workspaces ==>
                    next.workspaces[i] == Workspace(Destination(w.session, folded[rows[k].former := rows[k].keep]),
                                                    w.task))
    {
      NextStaysOne(start, now, u, rows, k, folded, i);
    }
  }

  ghost predicate Dedupes(start: Store, u: Uniques, lower: string -> string, rows: seq<Pair>, end: Store) {
    IsQueryResult(start.sessions, lower, rows) && FoldAll(start, u, rows) == Done(end)
  }

  lemma NothingFolded(start: Store)
    ensures Folded(start, start, map[])
  {
    forall i | i in start.submissions ensures SubmissionVia(start.submissions[i], map[]) == start.submissions[i] {
    }
    assert SubmissionsVia(start, map[]) == start.submissions;
    forall i | i in start.profiles ensures Profile(Destination(start.profiles[i].session, map[])) == start.profiles[i] {
    }
    assert ProfilesVia(start, map[]) == start.profiles;
    assert Covered(start) == CoveredVia(start, map[]);
  }

  /** Every session that is not the greatest of its group is gone; all others stay as they were,
      those with a null simulation or email included. */
  lemma OneSessionPerGroup(start: Store, u: Uniques, lower: string -> string, rows: seq<Pair>, end: Store, id: int)
    requires Dedupes(start, u, lower, rows, end) && id in start.sessions
    ensures id in end.sessions <==> Group(start.sessions[id], lower).None? || Keeps(start.sessions, lower, id, id)
    ensures end.sessions.Keys <= start.sessions.Keys
    ensures id in end.sessions ==> end.sessions[id] == start.sessions[id]
  {
    var folded := FoldedAtEnd(start, u, lower, rows, end);
    if id in folded {
      var i :| 0 <= i < |rows| && rows[i] == Pair(id, folded[id]);
      assert SameGroup(start.sessions, lower, id, rows[i].keep);
    } else if Group(start.sessions[id], lower).Some? {
      var keep := GroupMax(start.sessions, lower, id);
      if keep != id {
        assert false;
      }
    }
  }

  lemma AllStayAtFirst(start: Store, rows: seq<Pair>)
    ensures start.workspaces == WorkspacesVia(start, rows, 0, map[])
  {
    assert forall i | i in start.workspaces :: Stays(start, rows, 0, start.workspaces[i]);
    var via := WorkspacesVia(start, rows, 0, map[]);
    assert via.Keys == start.workspaces.Keys;
    assert forall i | i in start.workspaces :: via[i] == start.workspaces[i];
  }

  lemma StayedAtEnd(start: Store, u: Uniques, lower: string -> string, rows: seq<Pair>, end: Store)
    returns (folded: map<int, int>)
    requires Dedupes(start, u, lower, rows, end)
    ensures Pairs(folded, rows, |rows|) && Folded(start, end, folded)
    ensures end.workspaces == WorkspacesVia(start, rows, |rows|, folded)
  {
    assert rows[0..] == rows;
    NothingFolded(start);
    AllStayAtFirst(start, rows);
    QueryIsFoldable(start.sessions, lower, rows);
    folded := FoldAllFolds(start, start, u, rows, 0, map[]);
  }

  lemma FoldedAtEnd(start: Store, u: Uniques, lower: string -> string, rows: seq<Pair>, end: Store)
    returns (folded: map<int, int>)
    requires Dedupes(start, u, lower, rows, end)
    ensures Pairs(folded, rows, |rows|) && Folded(start, end, folded)
  {
    folded := StayedAtEnd(start, u, lower, rows, end);
  }

  /** Every group has a greatest id. */
  lemma GroupMax(sessions: map<int, Session>, lower: string -> string, id: int) returns (keep: int)
    requires id in sessions && Group(sessions[id], lower).Some?
    ensures Keeps(sessions, lower, id, keep)
  {
    var group := set other | other in sessions && SameGroup(sessions, lower, id, other);
    assert id in group;
    keep := MaxOf(group);
    forall other | other in sessions && SameGroup(sessions, lower, id, other) ensures other <= keep {
      assert other in group;
    }
  }

  lemma MaxOf(s: set<int>) returns (m: int)
    requires s != {}
    ensures m in s && forall x | x in s :: x <= m
  {
    var some := AnyOf(s);
    m := some;
    var rest := s - {some};
    assert forall x | x in s :: x == some || x in rest;
    if rest != {} {
      var n := MaxOf(rest);
      if m < n { m := n; }
    }
  }

  /** Where a session's rows end up: at the greatest id of its group. */
  ghost predicate GoesTo(start: Store, lower: string -> string, session: int, survivor: int) {
    if session in start.sessions && Group(start.sessions[session], lower).Some?
    then Keeps(start.sessions, lower, session, survivor)
    else survivor == session
  }

  lemma DestinationIsSurvivor(start: Store, lower: string -> string, rows: seq<Pair>, folded: map<int, int>,
                              session: int)
    requires IsQueryResult(start.sessions, lower, rows) && Pairs(folded, rows, |rows|)
    ensures GoesTo(start, lower, session, Destination(session, folded))
  {
    if session in folded {
      var i :| 0 <= i < |rows| && rows[i] == Pair(session, folded[session]);
    } else if session in start.sessions && Group(start.sessions[session], lower).Some? {
      var keep := GroupMax(start.sessions, lower, session);
      if keep != session {
        assert false;
      }
    }
  }

  /** Every submission and profile survives and points at its group's survivor. */
  lemma RowsFollowTheSurvivor(start: Store, u: Uniques, lower: string -> string, rows: seq<Pair>, end: Store)
    requires Dedupes(start, u, lower, rows, end)
    ensures end.submissions.Keys == start.submissions.Keys && end.profiles.Keys == start.profiles.Keys
    ensures forall i | i in start.submissions ::
              && end.submissions[i].task == start.submissions[i].task
              && end.submissions[i].session.Some? == start.submissions[i].session.Some?
              && (start.submissions[i].session.Some? ==>
                    GoesTo(start, lower, start.submissions[i].session.value, end.submissions[i].session.value))
    ensures forall i | i in start.profiles :: GoesTo(start, lower, start.profiles[i].session, end.profiles[i].session)
  {
    var folded := FoldedAtEnd(start, u, lower, rows, end);
    forall session ensures GoesTo(start, lower, session, Destination(session, folded)) {
      DestinationIsSurvivor(start, lower, rows, folded, session);
    }
  }

  /** The (survivor, task) pairs that had a workspace still have one; at most one each, if no
      session had two workspaces for one task before. */
  lemma WorkspacesCoverTheSame(start: Store, u: Uniques, lower: string -> string, rows: seq<Pair>, end: Store)
    requires Dedupes(start, u, lower, rows, end)
    ensures forall i | i in start.workspaces :: exists survivor ::
              GoesTo(start, lower, start.workspaces[i].session, survivor)
                  && (survivor, start.workspaces[i].task) in Covered(end)
    ensures forall place | place in Covered(end) :: exists i | i in start.workspaces ::
              GoesTo(start, lower, start.workspaces[i].session, place.0) && start.workspaces[i].task == place.1
    ensures OneWorkspaceEach(start) ==> OneWorkspaceEach(end)
  {
    var folded := FoldedAtEnd(start, u, lower, rows, end);
    forall i | i in start.workspaces
      ensures exists survivor ::
                GoesTo(start, lower, start.workspaces[i].session, survivor)
                    && (survivor, start.workspaces[i].task) in Covered(end)
    {
      DestinationIsSurvivor(start, lower, rows, folded, start.workspaces[i].session);
      assert (Destination(start.workspaces[i].session, folded), start.workspaces[i].task) in CoveredVia(start, folded);
    }
    forall place | place in Covered(end)
      ensures exists i | i in start.workspaces ::
                GoesTo(start, lower, start.workspaces[i].session, place.0) && start.workspaces[i].task == place.1
    {
      var i :| i in start.workspaces
          && place == (Destination(start.workspaces[i].session, folded), start.workspaces[i].task);
      DestinationIsSurvivor(start, lower, rows, folded, start.workspaces[i].session);
    }
  }

  /** Exactly the workspaces that stay are left, each with its id, at its group's survivor. */
  lemma WorkspacesThatStay(start: Store, u: Uniques, lower: string -> string, rows: seq<Pair>, end: Store, i: int)
    requires Dedupes(start, u, lower, rows, end)
    ensures i in end.workspaces <==> i in start.workspaces && Stays(start, rows, |rows|, start.workspaces[i])
    ensures i in end.workspaces ==>
              end.workspaces[i].task == start.workspaces[i].task
              && GoesTo(start, lower, start.workspaces[i].session, end.workspaces[i].session)
  {
    var folded := StayedAtEnd(start, u, lower, rows, end);
    if i in end.workspaces {
      DestinationIsSurvivor(start, lower, rows, folded, start.workspaces[i].session);
    }
  }

  lemma StayingTogether(start: Store, rows: seq<Pair>, folded: map<int, int>, a: int, b: int)
    requires Foldable(rows) && Pairs(folded, rows, |rows|) && a in start.workspaces && b in start.workspaces
    requires Stays(start, rows, |rows|, start.workspaces[a]) && Stays(start, rows, |rows|, start.workspaces[b])
    requires start.workspaces[a].task == start.workspaces[b].task
    requires Destination(start.workspaces[a].session, folded) == Destination(start.workspaces[b].session, folded)
    ensures start.workspaces[a] == start.workspaces[b]
  {
    var x, y := start.workspaces[a], start.workspaces[b];
    assert Taken(start, x.session, x.task) && Taken(start, y.session, y.task);
    if x.session in folded && y.session in folded {
      var i :| 0 <= i < |rows| && rows[i] == Pair(x.session, folded[x.session]);
      var j :| 0 <= j < |rows| && rows[j] == Pair(y.session, folded[y.session]);
    }
  }

  /** No session whose workspaces stay had two for one task. */
  predicate StayingDiffer(start: Store, rows: seq<Pair>) {
    forall a, b | a in start.workspaces && b in start.workspaces && a != b
        && Stays(start, rows, |rows|, start.workspaces[a]) ::
      start.workspaces[a] != start.workspaces[b]
  }

  /** Each (survivor, task) pair ends with at most one workspace exactly when no session whose
      workspaces stay had two for one task. */
  lemma OneWorkspaceEachWhen(start: Store, u: Uniques, lower: string -> string, rows: seq<Pair>, end: Store)
    requires Dedupes(start, u, lower, rows, end)
    ensures OneWorkspaceEach(end) <==> StayingDiffer(start, rows)
  {
    var folded := StayedAtEnd(start, u, lower, rows, end);
    QueryIsFoldable(start.sessions, lower, rows);
    if StayingDiffer(start, rows) {
      forall a, b | a in end.workspaces && b in end.workspaces && a != b
          ensures end.workspaces[a] != end.workspaces[b] {
        if end.workspaces[a] == end.workspaces[b] {
          StayingTogether(start, rows, folded, a, b);
        }
      }
    } else {
      var a, b :| a in start.workspaces && b in start.workspaces && a != b
                  && Stays(start, rows, |rows|, start.workspaces[a]) && start.workspaces[a] == start.workspaces[b];
      assert end.workspaces[a] == end.workspaces[b];
    }
  }

  /** Two such workspaces, in a database without the constraint: they move together. */
  lemma TwoWorkspacesMayMoveTogether()
    ensures var start := Store(map[], map[], map[1 := Workspace(10, 7), 2 := Workspace(10, 7)], map[]);
            var end := FoldOne(start, Uniques(false, false, false), Pair(10, 11));
            && !StayingDiffer(start, [Pair(10, 11)])
            && end.Done? && end.value.workspaces == map[1 := Workspace(11, 7), 2 := Workspace(11, 7)]
  {
    var start := Store(map[], map[], map[1 := Workspace(10, 7), 2 := Workspace(10, 7)], map[]);
    assert Stays(start, [Pair(10, 11)], 1, start.workspaces[1]);
    assert start.workspaces[1] == start.workspaces[2];
  }

  // When the migration raises.

  predicate SubmissionsCollide(start: Store, lower: string -> string) {
    exists a, b | a in start.submissions && b in start.submissions ::
      && a != b && start.submissions[a].task == start.submissions[b].task
      && start.submissions[a].session.Some? && start.submissions[b].session.Some?
      && SameGroup(start.sessions, lower, start.submissions[a].session.value, start.submissions[b].session.value)
  }

  predicate ProfilesCollide(start: Store, lower: string -> string) {
    exists a, b | a in start.profiles && b in start.profiles ::
      a != b && SameGroup(start.sessions, lower, start.profiles[a].session, start.profiles[b].session)
  }

  predicate Collides(start: Store, u: Uniques, lower: string -> string) {
    (u.submissionPerTask && SubmissionsCollide(start, lower)) || (u.profilePerSession && ProfilesCollide(start, lower))
  }

  /** Two sessions with one destination are one session, or of one group. */
  lemma SameDestination(sessions: map<int, Session>, lower: string -> string, rows: seq<Pair>, k: nat,
                        folded: map<int, int>,
                        x: int, y: int)
    requires IsQueryResult(sessions, lower, rows) && k <= |rows| && Pairs(folded, rows, k)
    requires Destination(x, folded) == Destination(y, folded)
    ensures x == y || SameGroup(sessions, lower, x, y)
  {
    if x in folded {
      var i :| 0 <= i < k && rows[i] == Pair(x, folded[x]);
      assert SameGroup(sessions, lower, x, rows[i].keep);
    }
    if y in folded {
      var j :| 0 <= j < k && rows[j] == Pair(y, folded[y]);
      assert SameGroup(sessions, lower, y, rows[j].keep);
    }
  }

  lemma SameSurvivor(start: Store, lower: string -> string, x: int, y: int, a: int, b: int)
    requires SameGroup(start.sessions, lower, x, y) && GoesTo(start, lower, x, a) && GoesTo(start, lower, y, b)
    ensures a == b
  {
    assert SameGroup(start.sessions, lower, x, b) && SameGroup(start.sessions, lower, y, a);
  }

  lemma FoldOneObeys(s: Store, u: Uniques, pair: Pair)
    requires FoldOne(s, u, pair).Done?
    ensures Obeys(FoldOne(s, u, pair).value, u)
  {
  }

  lemma {:induction false} FoldAllObeys(s: Store, u: Uniques, rows: seq<Pair>)
    requires Obeys(s, u) && FoldAll(s, u, rows).Done?
    ensures Obeys(FoldAll(s, u, rows).value, u)
    decreases |rows|
  {
    if rows != [] {
      FoldOneObeys(s, u, rows[0]);
      FoldAllObeys(FoldOne(s, u, rows[0]).value, u, rows[1..]);
    }
  }

  /** Moving workspaces breaks no constraint: the statement tests for that. */
  lemma WorkspacesMoveFreely(s: Store, u: Uniques, pair: Pair)
    requires Obeys(s, u)
    ensures Obeys(WorkspacesMoved(s, pair), u)
  {
  }

  /** What a statement that raises was about to write. */
  lemma FoldOneRaises(s: Store, u: Uniques, pair: Pair)
    requires Obeys(s, u) && FoldOne(s, u, pair).Raised?
    ensures || (u.submissionPerTask && EqualSubmissions(SubmissionsMoved(s, pair).submissions))
            || (u.profilePerSession && EqualProfiles(ProfilesMoved(s, pair).profiles))
  {
    var a := SubmissionsMoved(s, pair);
    if Obeys(a, u) {
      WorkspacesMoveFreely(a, u, pair);
      var b := WorkspacesDeleted(WorkspacesMoved(a, pair), pair);
      assert Obeys(b, u);
      assert ProfilesMoved(b, pair).profiles == ProfilesMoved(s, pair).profiles;
    }
  }

  predicate EqualSubmissions(rows: map<int, Submission>) {
    exists a, b | a in rows && b in rows :: a != b && rows[a].session.Some? && rows[a] == rows[b]
  }

  predicate EqualProfiles(rows: map<int, Profile>) {
    exists a, b | a in rows && b in rows :: a != b && rows[a] == rows[b]
  }

  lemma SubmissionsMeet(start: Store, lower: string -> string, rows: seq<Pair>, k: nat, folded: map<int, int>)
    requires IsQueryResult(start.sessions, lower, rows) && k <= |rows| && Pairs(folded, rows, k)
    requires EqualSubmissions(SubmissionsVia(start, folded)) && !EqualSubmissions(start.submissions)
    ensures SubmissionsCollide(start, lower)
  {
    var via := SubmissionsVia(start, folded);
    var a, b :| a in via && b in via && a != b && via[a].session.Some? && via[a] == via[b];
    assert start.submissions[a].session != start.submissions[b].session;
    SameDestination(start.sessions, lower, rows, k, folded,
                    start.submissions[a].session.value, start.submissions[b].session.value);
  }

  lemma ProfilesMeet(start: Store, lower: string -> string, rows: seq<Pair>, k: nat, folded: map<int, int>)
    requires IsQueryResult(start.sessions, lower, rows) && k <= |rows| && Pairs(folded, rows, k)
    requires EqualProfiles(ProfilesVia(start, folded)) && !EqualProfiles(start.profiles)
    ensures ProfilesCollide(start, lower)
  {
    var via := ProfilesVia(start, folded);
    var a, b :| a in via && b in via && a != b && via[a] == via[b];
    assert start.profiles[a].session != start.profiles[b].session;
    SameDestination(start.sessions, lower, rows, k, folded, start.profiles[a].session, start.profiles[b].session);
  }

  lemma NextRows(start: Store, now: Store, rows: seq<Pair>, k: nat, folded: map<int, int>)
    requires Foldable(rows) && k < |rows| && Pairs(folded, rows, k) && Folded(start, now, folded)
    ensures var wider := folded[rows[k].former := rows[k].keep];
            && Pairs(wider, rows, k + 1)
            && SubmissionsMoved(now, rows[k]).submissions == SubmissionsVia(start, wider)
            && ProfilesMoved(now, rows[k]).profiles == ProfilesVia(start, wider)
  {
    forall id | id in folded ensures id != rows[k].former && folded[id] != rows[k].former {
      var i :| 0 <= i < k && rows[i] == Pair(id, folded[id]);
    }
    PairExtends(folded, rows[k]);
    RowsFoldedExtend(start, now, folded, rows[k], folded[rows[k].former := rows[k].keep]);
  }

  lemma StepCollides(start: Store, now: Store, u: Uniques, lower: string -> string, rows: seq<Pair>, k: nat,
                     folded: map<int, int>)
    requires IsQueryResult(start.sessions, lower, rows) && Foldable(rows) && k < |rows| && Pairs(folded, rows, k)
    requires Folded(start, now, folded) && Obeys(start, u) && Obeys(now, u) && FoldOne(now, u, rows[k]).Raised?
    ensures Collides(start, u, lower)
  {
    NextRows(start, now, rows, k, folded);
    FoldOneRaises(now, u, rows[k]);
    var wider := folded[rows[k].former := rows[k].keep];
    if u.submissionPerTask && EqualSubmissions(SubmissionsVia(start, wider)) {
      assert !EqualSubmissions(start.submissions);
      SubmissionsMeet(start, lower, rows, k + 1, wider);
    } else {
      assert !EqualProfiles(start.profiles);
      ProfilesMeet(start, lower, rows, k + 1, wider);
    }
  }

  lemma {:induction false} RaisedCollides(start: Store, now: Store, u: Uniques, lower: string -> string,
                                          rows: seq<Pair>, k: nat,
                                          folded: map<int, int>)
    requires IsQueryResult(start.sessions, lower, rows) && Foldable(rows) && k <= |rows| && Pairs(folded, rows, k)
    requires Folded(start, now, folded) && Obeys(start, u) && Obeys(now, u) && FoldAll(now, u, rows[k..]).Raised?
    ensures Collides(start, u, lower)
    decreases |rows| - k
  {
    assert k < |rows| && rows[k..][0] == rows[k] && rows[k..][1..] == rows[k + 1..];
    if FoldOne(now, u, rows[k]).Raised? {
      StepCollides(start, now, u, lower, rows, k, folded);
    } else {
      NextFolds(start, now, u, rows, k, folded);
      FoldOneObeys(now, u, rows[k]);
      RaisedCollides(start, FoldOne(now, u, rows[k]).value, u, lower, rows, k + 1,
                     folded[rows[k].former := rows[k].keep]);
    }
  }

  /** Whatever the order of the rows, the migration raises exactly when two submissions of a group are
      for one task, or a group has two profiles, and the database declares that unique. The workspaces
      never make it raise. */
  lemma RaisesWhen(start: Store, u: Uniques, lower: string -> string, rows: seq<Pair>)
    requires IsQueryResult(start.sessions, lower, rows) && Obeys(start, u)
    ensures FoldAll(start, u, rows).Raised? <==> Collides(start, u, lower)
  {
    QueryIsFoldable(start.sessions, lower, rows);
    NothingFolded(start);
    assert rows[0..] == rows;
    if FoldAll(start, u, rows).Raised? {
      RaisedCollides(start, start, u, lower, rows, 0, map[]);
    } else {
      DoneDoesNotCollide(start, u, lower, rows, FoldAll(start, u, rows).value);
    }
  }

  lemma DoneDoesNotCollide(start: Store, u: Uniques, lower: string -> string, rows: seq<Pair>, end: Store)
    requires Dedupes(start, u, lower, rows, end) && Obeys(start, u)
    ensures !Collides(start, u, lower)
  {
    FoldAllObeys(start, u, rows);
    RowsFollowTheSurvivor(start, u, lower, rows, end);
    if u.submissionPerTask {
      forall a, b | a in start.submissions && b in start.submissions && a != b
                    && start.submissions[a].session.Some? && start.submissions[b].session.Some?
                    && start.submissions[a].task == start.submissions[b].task
        ensures !SameGroup(start.sessions, lower, start.submissions[a].session.value,
                           start.submissions[b].session.value)
      {
        var x, y := start.submissions[a].session.value, start.submissions[b].session.value;
        assert end.submissions[a] != end.submissions[b];
        if SameGroup(start.sessions, lower, x, y) {
          SameSurvivor(start, lower, x, y, end.submissions[a].session.value, end.submissions[b].session.value);
        }
      }
    }
    if u.profilePerSession {
      forall a, b | a in start.profiles && b in start.profiles && a != b
        ensures !SameGroup(start.sessions, lower, start.profiles[a].session, start.profiles[b].session)
      {
        var x, y := start.profiles[a].session, start.profiles[b].session;
        assert end.profiles[a] != end.profiles[b];
        if SameGroup(start.sessions, lower, x, y) {
          SameSurvivor(start, lower, x, y, end.profiles[a].session, end.profiles[b].session);
        }
      }
    }
  }

  lemma NothingDangles(start: Store, u: Uniques, lower: string -> string, rows: seq<Pair>, end: Store)
    requires Dedupes(start, u, lower, rows, end) && NoDangling(start)
    ensures NoDangling(end)
  {
    var folded := FoldedAtEnd(start, u, lower, rows, end);
    forall session | session in start.sessions ensures Destination(session, folded) in end.sessions {
      DestinationSurvives(start, lower, rows, end, folded, session);
    }
    forall i | i in end.workspaces ensures end.workspaces[i].session in end.sessions {
      assert (end.workspaces[i].session, end.workspaces[i].task) in Covered(end);
      var j :| j in start.workspaces && (Destination(start.workspaces[j].session, folded), start.workspaces[j].task)
                                     == (end.workspaces[i].session, end.workspaces[i].task);
    }
  }

  lemma DestinationSurvives(start: Store, lower: string -> string, rows: seq<Pair>, end: Store, folded: map<int, int>,
                            session: int)
    requires IsQueryResult(start.sessions, lower, rows) && session in start.sessions
    requires Pairs(folded, rows, |rows|) && end.sessions == start.sessions - folded.Keys
    ensures Destination(session, folded) in end.sessions
  {
    QueryIsFoldable(start.sessions, lower, rows);
    if session in folded {
      var i :| 0 <= i < |rows| && rows[i] == Pair(session, folded[session]);
      assert SameGroup(start.sessions, lower, session, rows[i].keep);
      forall id | id in folded ensures id != rows[i].keep {
        var j :| 0 <= j < |rows| && rows[j] == Pair(id, folded[id]);
      }
    }
  }

  /** The unique constraint the migration adds next, on (simulation_id, invite_email), holds. */
  lemma ConstraintHolds(start: Store, u: Uniques, lower: string -> string, rows: seq<Pair>, end: Store, a: int, b: int)
    requires Dedupes(start, u, lower, rows, end)
    requires a in end.sessions && b in end.sessions && a != b
    ensures end.sessions[a].simulation == None || end.sessions[a].email == None
         || end.sessions[a].simulation != end.sessions[b].simulation || end.sessions[a].email != end.sessions[b].email
  {
    var _ := FoldedAtEnd(start, u, lower, rows, end);
    OneSessionPerGroup(start, u, lower, rows, end, a);
    OneSessionPerGroup(start, u, lower, rows, end, b);
    if Group(end.sessions[a], lower).Some? && Group(end.sessions[a], lower) == Group(end.sessions[b], lower) {
      assert SameGroup(start.sessions, lower, a, b) && SameGroup(start.sessions, lower, b, a);
    }
  }
}
