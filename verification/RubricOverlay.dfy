/**
 Overlaying rubric rows on a frozen snapshot: each agent takes the first company row for its key,
 else the first row, and the digest is computed anew.
 */
module RubricOverlay {
  import opened Values
  import opened EvidencePointers
  import opened Sets
  import opened SnapshotContract
  import opened Sorting
  import Text

  datatype Row = Row(meta: Meta, content: string)

  const COMPANY := "company"

  predicate IsCompany(row: Row) {
    row.meta.scope == COMPANY
  }

  /** The first row for a key, and the first company row. */
  function FirstRow(rows: seq<Row>, key: string, companyOnly: bool): (r: Option<Row>)
    ensures r.Some? ==> r.value in rows && r.value.meta.key == key && (companyOnly ==> IsCompany(r.value))
    ensures r.None? ==> forall row | row in rows :: row.meta.key != key || (companyOnly && !IsCompany(row))
  {
    if rows == [] then None
    else if rows[0].meta.key == key && (companyOnly ==> IsCompany(rows[0])) then Some(rows[0])
    else FirstRow(rows[1..], key, companyOnly)
  }

  function Chosen(rows: seq<Row>, key: string): (r: Option<Row>)
    ensures r.Some? ==> r.value in rows && r.value.meta.key == key
  {
    if FirstRow(rows, key, true).Some? then FirstRow(rows, key, true) else FirstRow(rows, key, false)
  }

  lemma {:induction false} FirstRowOfMore(rows: seq<Row>, row: Row, key: string, companyOnly: bool)
    ensures FirstRow(rows + [row], key, companyOnly)
         == if FirstRow(rows, key, companyOnly).Some? then FirstRow(rows, key, companyOnly)
             else FirstRow([row], key, companyOnly)
  {
    if rows != [] {
      assert (rows + [row])[1..] == rows[1..] + [row];
      FirstRowOfMore(rows[1..], row, key, companyOnly);
    } else {
      assert rows + [row] == [row];
    }
  }

  /** The loop keeps the first row of a key, until the first company row replaces it. */
  method ChooseByKey(rows: seq<Row>) returns (byKey: map<string, Row>)
    ensures forall key :: (if key in byKey then Some(byKey[key]) else None) == Chosen(rows, key)
  {
    byKey := map[];
    for i := 0 to |rows|
      invariant forall key :: (if key in byKey then Some(byKey[key]) else None) == Chosen(rows[..i], key)
    {
      var row := rows[i];
      ghost var before := byKey;
      if row.meta.key !in byKey {
        byKey := byKey[row.meta.key := row];
      } else if !IsCompany(byKey[row.meta.key]) && IsCompany(row) {
        byKey := byKey[row.meta.key := row];
      }
      forall key ensures (if key in byKey then Some(byKey[key]) else None) == Chosen(rows[..i + 1], key) {
        assert rows[..i + 1] == rows[..i] + [row];
        FirstRowOfMore(rows[..i], row, key, true);
        FirstRowOfMore(rows[..i], row, key, false);
        assert (if key in before then Some(before[key]) else None) == Chosen(rows[..i], key);
      }
    }
    assert rows[..|rows|] == rows;
  }

  // The effective snapshot.

  const BARE_AGENT := Agent(None, None, None, Missing, map[], None, None, None, None, None, map[])

  function BaseAgent(field: AgentField): Agent {
    if field.AnAgent? then field.agent else BARE_AGENT
  }

  function PathValue(path: Option<string>): Value {
    if path.Some? then Str(path.value) else Nil
  }

  function Overlaid(agent: Agent, row: Row): Agent {
    agent.(rubricVersion := Some(Str(row.meta.version)),
           texts := agent.texts[ResolvedRubricMd := Str(row.content)][RubricSha256 := Str(row.meta.contentHash)],
           rubricSnapshotId := Some(Int(row.meta.snapshotId)),
           rubricSnapshotScope := Some(Str(row.meta.scope)),
           rubricSnapshotKind := Some(Str(row.meta.kind)),
           rubricSnapshotKey := Some(Str(row.meta.key)),
           sourcePath := Some(PathValue(row.meta.sourcePath)))
  }

  function EffectiveAgent(field: AgentField, chosen: Option<Row>): AgentField {
    AnAgent(if chosen.Some? then Overlaid(BaseAgent(field), chosen.value) else BaseAgent(field))
  }

  function EffectiveAgents(agents: map<string, AgentField>, rows: seq<Row>): map<string, AgentField> {
    map key | key in agents :: EffectiveAgent(agents[key], Chosen(rows, key))
  }

  function ChosenMetas(keys: set<string>, rows: seq<Row>): set<Meta> {
    set key | key in keys && Chosen(rows, key).Some? :: Chosen(rows, key).value.meta
  }

  predicate ByScopeKindKey(a: Meta, b: Meta) {
    LexLe([a.scope, a.kind, a.key], [b.scope, b.kind, b.key])
  }

  /** The snapshot with the agents overlaid, the rows used listed in order, and a digest of its own. */
  ghost predicate IsEffective(snapshot: Snapshot, rows: seq<Row>, digest: Digest, r: Snapshot)
    requires snapshot.agents.Given?
  {
    && r.rubricSnapshots.Metas? && Ascending(ByScopeKindKey, r.rubricSnapshots.metas)
    && multiset(r.rubricSnapshots.metas) == multiset(ChosenMetas(snapshot.agents.value.Keys, rows))
    && r.snapshotDigest == Some(Str(digest(WithoutDigest(r))))
    && r == snapshot.(agents := Given(EffectiveAgents(snapshot.agents.value, rows)),
                      rubricSnapshots := r.rubricSnapshots, snapshotDigest := r.snapshotDigest)
  }

  lemma MetaOrder()
    ensures TotalOrder(ByScopeKindKey)
  {
    forall a: Meta, b: Meta ensures ByScopeKindKey(a, b) || ByScopeKindKey(b, a) {
      LexLeIsTotal([a.scope, a.kind, a.key], [b.scope, b.kind, b.key]);
    }
    forall a: Meta, b: Meta, c: Meta | ByScopeKindKey(a, b) && ByScopeKindKey(b, c) ensures ByScopeKindKey(a, c) {
      LexLeIsTransitive([a.scope, a.kind, a.key], [b.scope, b.kind, b.key], [c.scope, c.kind, c.key]);
    }
  }

  /** The agents are visited in no particular order. */
  method OverlayAgents(agents: map<string, AgentField>, rows: seq<Row>)
    returns (updated: map<string, AgentField>, metas: seq<Meta>)
    ensures updated == EffectiveAgents(agents, rows)
    ensures multiset(metas) == multiset(ChosenMetas(agents.Keys, rows))
  {
    var byKey := ChooseByKey(rows);
    updated, metas := map[], [];
    var rest := agents.Keys;
    while rest != {}
      invariant rest <= agents.Keys
      invariant updated == map key | key in agents.Keys - rest :: EffectiveAgent(agents[key], Chosen(rows, key))
      invariant multiset(metas) == multiset(ChosenMetas(agents.Keys - rest, rows))
      decreases rest
    {
      var key := NextOf(rest);
      var agent := BaseAgent(agents[key]);
      assert Chosen(rows, key) == if key in byKey then Some(byKey[key]) else None;
      OneMoreMeta(agents.Keys - rest, key, rows);
      assert agents.Keys - (rest - {key}) == agents.Keys - rest + {key};
      if key !in byKey {
        updated := updated[key := AnAgent(agent)];
      } else {
        updated := updated[key := AnAgent(Overlaid(agent, byKey[key]))];
        metas := metas + [byKey[key].meta];
      }
      rest := rest - {key};
    }
    assert agents.Keys - {} == agents.Keys;
  }

  lemma OneMoreMeta(done: set<string>, key: string, rows: seq<Row>)
    requires key !in done
    ensures multiset(ChosenMetas(done + {key}, rows))
         == multiset(ChosenMetas(done, rows)) + (if Chosen(rows, key).Some? then multiset{Chosen(rows, key).value.meta}
                                                 else multiset{})
  {
    var before, after := ChosenMetas(done, rows), ChosenMetas(done + {key}, rows);
    if Chosen(rows, key).Some? {
      var meta := Chosen(rows, key).value.meta;
      assert meta !in before;
      assert after == before + {meta};
    } else {
      assert after == before;
    }
  }

  /** `_effective_snapshot_payload` */
  method EffectiveSnapshot(snapshot: Snapshot, rows: seq<Row>, digest: Digest) returns (r: Checked<Snapshot>)
    ensures r.Accepted? <==> snapshot.agents.Given?
    ensures r.Accepted? ==> IsEffective(snapshot, rows, digest, r.value)
  {
    if !snapshot.agents.Given? {
      return Refused(Absent);
    }
    var agents, metas := OverlayAgents(snapshot.agents.value, rows);
    MetaOrder();
    SortedSorts(ByScopeKindKey, metas);
    var effective := snapshot.(agents := Given(agents));
    effective := effective.(rubricSnapshots := Metas(Sorted(ByScopeKindKey, metas)));
    effective := effective.(snapshotDigest := Some(Str(digest(WithoutDigest(effective)))));
    return Accepted(effective);
  }

  // What the overlay does and does not change.

  lemma {:induction false} ChosenMetasDoNotTie(keys: set<string>, rows: seq<Row>, metas: seq<Meta>)
    requires multiset(metas) == multiset(ChosenMetas(keys, rows))
    ensures NoTies(ByScopeKindKey, metas)
  {
    forall i, j | 0 <= i < |metas| && 0 <= j < |metas| && ByScopeKindKey(metas[i], metas[j])
        && ByScopeKindKey(metas[j], metas[i])
      ensures metas[i] == metas[j]
    {
      var a, b := metas[i], metas[j];
      LexLeIsTotal([a.scope, a.kind, a.key], [b.scope, b.kind, b.key]);
      assert [a.scope, a.kind, a.key][2] == [b.scope, b.kind, b.key][2];
      assert a in multiset(metas) && b in multiset(metas);
      assert a in ChosenMetas(keys, rows) && b in ChosenMetas(keys, rows);
    }
  }

  /** There is only one effective snapshot: the order in which agents are visited does not show. */
  lemma EffectiveIsUnique(snapshot: Snapshot, rows: seq<Row>, digest: Digest, a: Snapshot, b: Snapshot)
    requires snapshot.agents.Given? && IsEffective(snapshot, rows, digest, a) && IsEffective(snapshot, rows, digest, b)
    ensures a == b
  {
    MetaOrder();
    ChosenMetasDoNotTie(snapshot.agents.value.Keys, rows, a.rubricSnapshots.metas);
    SortedIsUnique(ByScopeKindKey, a.rubricSnapshots.metas, b.rubricSnapshots.metas);
    assert WithoutDigest(a) == WithoutDigest(b);
  }

  predicate RowHasText(row: Row) {
    !Text.Blank(row.meta.version) && !Text.Blank(row.content) && !Text.Blank(row.meta.contentHash)
  }

  lemma AgentKeepsContract(field: AgentField, key: string, chosen: Option<Row>)
    requires AgentOk(field, key)
    ensures AgentOk(EffectiveAgent(field, chosen), key) <==> (chosen.Some? ==> RowHasText(chosen.value))
  {
    var after := EffectiveAgent(field, chosen);
    forall name: PolicyText | name != ResolvedRubricMd && name != RubricSha256 ensures HasText(after.agent, name) {
      assert HasText(field.agent, name);
    }
    if chosen.Some? {
      assert HasText(after.agent, ResolvedRubricMd) <==> !Text.Blank(chosen.value.content);
      assert HasText(after.agent, RubricSha256) <==> !Text.Blank(chosen.value.meta.contentHash);
    }
  }

  predicate RowsHaveText(keys: seq<string>, rows: seq<Row>) {
    forall key | key in keys && Chosen(rows, key).Some? :: RowHasText(Chosen(rows, key).value)
  }

  predicate ChosenHasText(rows: seq<Row>, key: string) {
    Chosen(rows, key).Some? ==> RowHasText(Chosen(rows, key).value)
  }

  lemma EffectiveAgentAt(agents: map<string, AgentField>, key: string, rows: seq<Row>)
    requires AgentAt(agents, key)
    ensures AgentAt(EffectiveAgents(agents, rows), key) <==> ChosenHasText(rows, key)
  {
    AgentKeepsContract(agents[key], key, Chosen(rows, key));
  }

  lemma RowsHaveTextStep(keys: seq<string>, rows: seq<Row>)
    requires keys != []
    ensures RowsHaveText(keys, rows) <==>
              RowsHaveText(keys[..|keys| - 1], rows) && ChosenHasText(rows, keys[|keys| - 1])
  {
    assert keys == keys[..|keys| - 1] + [keys[|keys| - 1]];
  }

  lemma {:induction false} AgentsKeepContract(agents: map<string, AgentField>, effective: map<string, AgentField>,
                                              keys: seq<string>, rows: seq<Row>)
    requires AgentsAt(agents, keys) && effective == EffectiveAgents(agents, rows)
    ensures AgentsAt(effective, keys) <==> RowsHaveText(keys, rows)
  {
    if keys != [] {
      AgentsKeepContract(agents, effective, keys[..|keys| - 1], rows);
      EffectiveAgentAt(agents, keys[|keys| - 1], rows);
      RowsHaveTextStep(keys, rows);
    }
  }

  /** The overlay of a snapshot that meets the contract meets it too, with the same agents, exactly
      when no row that is used is blank. */
  lemma OverlayKeepsContract(snapshot: Snapshot, rows: seq<Row>, digest: Digest, r: Snapshot)
    requires Contract(snapshot, digest) && IsEffective(snapshot, rows, digest, r)
    ensures Contract(r, digest) <==> RowsHaveText(AGENT_KEYS, rows)
    ensures r.agents.Given? && r.agents.value.Keys == snapshot.agents.value.Keys
  {
    AgentsKeepContract(snapshot.agents.value, r.agents.value, AGENT_KEYS, rows);
  }

  /** Overlaying the same rows again changes nothing. */
  lemma OverlayIsIdempotent(snapshot: Snapshot, rows: seq<Row>, digest: Digest, once: Snapshot, twice: Snapshot)
    requires snapshot.agents.Given? && IsEffective(snapshot, rows, digest, once)
    requires IsEffective(once, rows, digest, twice)
    ensures twice == once
  {
    var agents := snapshot.agents.value;
    assert EffectiveAgents(EffectiveAgents(agents, rows), rows) == EffectiveAgents(agents, rows) by {
      forall key | key in agents
        ensures EffectiveAgent(EffectiveAgent(agents[key], Chosen(rows, key)), Chosen(rows, key))
                  == EffectiveAgent(agents[key], Chosen(rows, key))
      {
        OverlaidTwice(BaseAgent(agents[key]), Chosen(rows, key));
      }
    }
    assert IsEffective(once, rows, digest, once);
    EffectiveIsUnique(once, rows, digest, once, twice);
  }

  lemma OverlaidTwice(agent: Agent, chosen: Option<Row>)
    ensures chosen.Some? ==> Overlaid(Overlaid(agent, chosen.value), chosen.value) == Overlaid(agent, chosen.value)
  {
    if chosen.Some? {
      var row := chosen.value;
      assert Overlaid(Overlaid(agent, row), row).texts == Overlaid(agent, row).texts;
    }
  }

  // Through the context builder.

  function IdentityKey(row: Row): seq<string> {
    [row.meta.scope, row.meta.kind, row.meta.key, row.meta.version]
  }

  /** `(scope, rubric_kind, rubric_key, rubric_version, id)` */
  predicate ByIdentity(a: Row, b: Row) {
    if IdentityKey(a) == IdentityKey(b) then a.meta.snapshotId <= b.meta.snapshotId
        else LexLe(IdentityKey(a), IdentityKey(b))
  }

  lemma IdentityOrder()
    ensures TotalOrder(ByIdentity)
  {
    forall a: Row, b: Row ensures ByIdentity(a, b) || ByIdentity(b, a) {
      LexLeIsTotal(IdentityKey(a), IdentityKey(b));
    }
    forall a: Row, b: Row, c: Row | ByIdentity(a, b) && ByIdentity(b, c) ensures ByIdentity(a, c) {
      if IdentityKey(a) != IdentityKey(b) && IdentityKey(b) != IdentityKey(c) {
        LexLeIsTransitive(IdentityKey(a), IdentityKey(b), IdentityKey(c));
        LexLeIsTotal(IdentityKey(a), IdentityKey(b));
      }
    }
  }

  predicate DistinctIds(rows: seq<Row>) {
    forall i, j | 0 <= i < j < |rows| :: rows[i].meta.snapshotId != rows[j].meta.snapshotId
  }

  lemma RowsDoNotTie(rows: seq<Row>)
    requires DistinctIds(rows)
    ensures NoTies(ByIdentity, rows)
  {
    forall i, j | 0 <= i < |rows| && 0 <= j < |rows| && ByIdentity(rows[i], rows[j]) && ByIdentity(rows[j], rows[i])
      ensures rows[i] == rows[j]
    {
      LexLeIsTotal(IdentityKey(rows[i]), IdentityKey(rows[j]));
      assert rows[i].meta.snapshotId == rows[j].meta.snapshotId;
    }
  }

  /** `_build_rubric_snapshot_context`: the ordered rows and the effective snapshot. */
  method BuildContext(snapshot: Snapshot, rows: seq<Row>, digest: Digest)
    returns (ordered: seq<Row>, r: Checked<Snapshot>)
    ensures ordered == Sorted(ByIdentity, rows)
    ensures r.Accepted? <==> snapshot.agents.Given?
    ensures r.Accepted? ==> IsEffective(snapshot, ordered, digest, r.value)
  {
    ordered := Sorted(ByIdentity, rows);
    r := EffectiveSnapshot(snapshot, ordered, digest);
  }

  /** The order of the rows does not show in the context. */
  lemma ContextForgetsRowOrder(snapshot: Snapshot, a: seq<Row>, b: seq<Row>, digest: Digest, ra: Snapshot, rb: Snapshot)
    requires snapshot.agents.Given? && DistinctIds(a) && multiset(a) == multiset(b)
    requires IsEffective(snapshot, Sorted(ByIdentity, a), digest, ra)
               && IsEffective(snapshot, Sorted(ByIdentity, b), digest, rb)
    ensures Sorted(ByIdentity, a) == Sorted(ByIdentity, b) && ra == rb
  {
    IdentityOrder();
    RowsDoNotTie(a);
    SortedForgetsOrder(ByIdentity, a, b);
    EffectiveIsUnique(snapshot, Sorted(ByIdentity, a), digest, ra, rb);
  }

  lemma {:induction false} FirstIsLeast(rows: seq<Row>, key: string, companyOnly: bool)
    requires Ascending(ByIdentity, rows) && TotalOrder(ByIdentity) && FirstRow(rows, key, companyOnly).Some?
    ensures forall row | row in rows && row.meta.key == key && (companyOnly ==> IsCompany(row)) ::
              ByIdentity(FirstRow(rows, key, companyOnly).value, row)
  {
    if rows[0].meta.key == key && (companyOnly ==> IsCompany(rows[0])) {
      assert ByIdentity(rows[0], rows[0]);
    } else {
      FirstIsLeast(rows[1..], key, companyOnly);
      assert rows == [rows[0]] + rows[1..];
    }
  }

  /** Each agent takes a company row for its key if there is one, the least of them by identity;
      otherwise the least row for the key; otherwise none. */
  lemma ContextPicks(rows: seq<Row>, key: string)
    ensures var chosen := Chosen(Sorted(ByIdentity, rows), key);
            && (chosen.None? <==> forall row | row in rows :: row.meta.key != key)
            && (chosen.Some? ==>
                  && chosen.value in rows && chosen.value.meta.key == key
                  && (IsCompany(chosen.value) <==> exists row | row in rows :: row.meta.key == key && IsCompany(row))
                  && forall row | row in rows && row.meta.key == key && (IsCompany(chosen.value) ==> IsCompany(row)) ::
                       ByIdentity(chosen.value, row))
  {
    IdentityOrder();
    SortedSorts(ByIdentity, rows);
    var sorted := Sorted(ByIdentity, rows);
    forall row ensures row in sorted <==> row in rows {
      assert row in multiset(sorted) <==> row in multiset(rows);
    }
    if FirstRow(sorted, key, true).Some? {
      FirstIsLeast(sorted, key, true);
    } else if FirstRow(sorted, key, false).Some? {
      FirstIsLeast(sorted, key, false);
    }
  }
}
