/**
 What the effective snapshot holds for each agent, field by field, of the frozen agent and of the
 rubric row taken for it.
 */
module OverlayLaws {
  import opened Values
  import opened SnapshotContract
  import opened RubricOverlay
  import opened Sorting

  /** The row taken for a key: the first of the company's, else the first of all. */
  ghost predicate TakenFor(rows: seq<Row>, key: string, i: int) {
    && 0 <= i < |rows| && rows[i].meta.key == key
    && if rows[i].meta.scope == "company"
       then forall j | 0 <= j < i :: rows[j].meta.key == key ==> rows[j].meta.scope != "company"
       else && (forall j | 0 <= j < i :: rows[j].meta.key != key)
            && forall row | row in rows :: row.meta.key == key ==> row.meta.scope != "company"
  }

  lemma {:induction false} FirstRowAt(rows: seq<Row>, key: string, companyOnly: bool, i: nat)
    requires i < |rows| && rows[i].meta.key == key && (companyOnly ==> rows[i].meta.scope == "company")
    requires forall j | 0 <= j < i :: rows[j].meta.key == key ==> companyOnly && rows[j].meta.scope != "company"
    ensures FirstRow(rows, key, companyOnly) == Some(rows[i])
  {
    if i > 0 {
      FirstRowAt(rows[1..], key, companyOnly, i - 1);
    }
  }

  lemma TakenIsChosen(rows: seq<Row>, key: string, i: int)
    requires TakenFor(rows, key, i)
    ensures Chosen(rows, key) == Some(rows[i])
  {
    if rows[i].meta.scope == "company" {
      FirstRowAt(rows, key, true, i);
    } else {
      FirstRowAt(rows, key, false, i);
    }
  }

  /** The place of the first row for a key, of the company's only or of all. */
  lemma {:induction false} FirstPlace(rows: seq<Row>, key: string, companyOnly: bool) returns (i: int)
    ensures if exists row | row in rows :: row.meta.key == key && (companyOnly ==> row.meta.scope == "company")
            then 0 <= i < |rows| && rows[i].meta.key == key && (companyOnly ==> rows[i].meta.scope == "company")
                 && forall j | 0 <= j < i ::
                      rows[j].meta.key == key ==> companyOnly && rows[j].meta.scope != "company"
            else i == |rows|
  {
    if rows == [] {
      i := 0;
    } else if rows[0].meta.key == key && (companyOnly ==> rows[0].meta.scope == "company") {
      i := 0;
    } else {
      i := FirstPlace(rows[1..], key, companyOnly);
      i := i + 1;
      assert rows == [rows[0]] + rows[1..];
    }
  }

  /** Some row is taken for a key exactly when there is one for it. */
  lemma TakenWhen(rows: seq<Row>, key: string)
    ensures (exists i :: TakenFor(rows, key, i)) <==> exists row | row in rows :: row.meta.key == key
  {
    if exists row | row in rows :: row.meta.key == key {
      var i := FirstPlace(rows, key, true);
      var j := FirstPlace(rows, key, false);
      assert TakenFor(rows, key, if i < |rows| then i else j);
    }
  }

  /** The frozen agent; one that is no object counts as empty. */
  function Frozen(field: AgentField): Agent {
    if field.AnAgent? then field.agent
    else Agent(None, None, None, Missing, map[], None, None, None, None, None, map[])
  }

  /** An agent with a row takes its content, hash, version and identity from the row, and keeps every
      other text and field. */
  lemma RowShowsInAgent(snapshot: Snapshot, rows: seq<Row>, digest: Digest, r: Snapshot, key: string, i: int)
    requires snapshot.agents.Given? && key in snapshot.agents.value && IsEffective(snapshot, rows, digest, r)
    requires TakenFor(rows, key, i)
    ensures r.agents.Given? && key in r.agents.value && r.agents.value[key].AnAgent?
    ensures var before, after, row := Frozen(snapshot.agents.value[key]), r.agents.value[key].agent, rows[i];
            && ResolvedRubricMd in after.texts && after.texts[ResolvedRubricMd] == Str(row.content)
            && RubricSha256 in after.texts && after.texts[RubricSha256] == Str(row.meta.contentHash)
            && after.rubricVersion == Some(Str(row.meta.version))
            && after.rubricSnapshotId == Some(Int(row.meta.snapshotId))
            && after.rubricSnapshotScope == Some(Str(row.meta.scope))
            && after.rubricSnapshotKind == Some(Str(row.meta.kind))
            && after.rubricSnapshotKey == Some(Str(key))
            && after.sourcePath == Some(if row.meta.sourcePath.Some? then Str(row.meta.sourcePath.value) else Nil)
            && after.key == before.key && after.promptVersion == before.promptVersion
            && after.runtime == before.runtime && after.rest == before.rest
            && forall name | name != ResolvedRubricMd && name != RubricSha256 ::
                 && (name in after.texts <==> name in before.texts)
                 && (name in before.texts ==> after.texts[name] == before.texts[name])
  {
    TakenIsChosen(rows, key, i);
    assert r.agents.value[key] == EffectiveAgent(snapshot.agents.value[key], Some(rows[i]));
  }

  /** An agent without a row is the frozen one. */
  lemma NoRowNoChange(snapshot: Snapshot, rows: seq<Row>, digest: Digest, r: Snapshot, key: string)
    requires snapshot.agents.Given? && key in snapshot.agents.value && IsEffective(snapshot, rows, digest, r)
    requires forall row | row in rows :: row.meta.key != key
    ensures r.agents.Given? && key in r.agents.value
         && r.agents.value[key] == AnAgent(Frozen(snapshot.agents.value[key]))
  {
    assert r.agents.value[key] == EffectiveAgent(snapshot.agents.value[key], None);
  }

  /** Nothing else of the snapshot changes but the list of rows used and the digest. */
  lemma RestOfSnapshotStays(snapshot: Snapshot, rows: seq<Row>, digest: Digest, r: Snapshot)
    requires snapshot.agents.Given? && IsEffective(snapshot, rows, digest, r)
    ensures r.agents.Given? && r.agents.value.Keys == snapshot.agents.value.Keys
    ensures r.promptPackVersion == snapshot.promptPackVersion && r.candidateSettings == snapshot.candidateSettings
    ensures r.rest == snapshot.rest
    ensures r.snapshotDigest == Some(Str(digest(r.(snapshotDigest := None))))
  {
  }

  ghost predicate TakenForSome(snapshot: Snapshot, rows: seq<Row>, meta: Meta)
    requires snapshot.agents.Given?
  {
    exists key, i :: key in snapshot.agents.value && TakenFor(rows, key, i) && rows[i].meta == meta
  }

  /** The rows listed are those taken for some agent, by scope, then kind, then key. */
  lemma RowsListed(snapshot: Snapshot, rows: seq<Row>, digest: Digest, r: Snapshot)
    requires snapshot.agents.Given? && IsEffective(snapshot, rows, digest, r)
    ensures r.rubricSnapshots.Metas?
    ensures forall meta :: meta in r.rubricSnapshots.metas <==> TakenForSome(snapshot, rows, meta)
    ensures forall i, j | 0 <= i < j < |r.rubricSnapshots.metas| ::
              var a, b := r.rubricSnapshots.metas[i], r.rubricSnapshots.metas[j];
              if a.scope != b.scope then Precedes(a.scope, b.scope)
              else if a.kind != b.kind then Precedes(a.kind, b.kind)
              else a.key != b.key && Precedes(a.key, b.key)
  {
    var metas, keys := r.rubricSnapshots.metas, snapshot.agents.value.Keys;
    forall meta ensures meta in metas <==> TakenForSome(snapshot, rows, meta) {
      assert meta in metas <==> meta in multiset(metas);
      if meta in metas {
        var key :| key in keys && Chosen(rows, key).Some? && Chosen(rows, key).value.meta == meta;
        TakenWhen(rows, key);
        var i :| TakenFor(rows, key, i);
        TakenIsChosen(rows, key, i);
      }
      if TakenForSome(snapshot, rows, meta) {
        var key, i :| key in keys && TakenFor(rows, key, i) && rows[i].meta == meta;
        TakenIsChosen(rows, key, i);
        assert meta in ChosenMetas(keys, rows);
      }
    }
    forall i, j | 0 <= i < j < |metas|
      ensures var a, b := metas[i], metas[j];
              if a.scope != b.scope then Precedes(a.scope, b.scope)
              else if a.kind != b.kind then Precedes(a.kind, b.kind)
              else a.key != b.key && Precedes(a.key, b.key)
    {
      var a, b := metas[i], metas[j];
      assert ByScopeKindKey(a, b);
      LexLeOfThree([a.scope, a.kind, a.key], [b.scope, b.kind, b.key]);
      ListedOnce(metas, keys, rows, i, j);
    }
  }

  lemma ListedOnce(metas: seq<Meta>, keys: set<string>, rows: seq<Row>, i: nat, j: nat)
    requires multiset(metas) == multiset(ChosenMetas(keys, rows)) && i < j < |metas|
    ensures metas[i].key != metas[j].key
  {
    NoneTwice(metas, ChosenMetas(keys, rows), i, j);
    assert metas[i] in multiset(metas) && metas[j] in multiset(metas);
    var a :| a in keys && Chosen(rows, a).Some? && Chosen(rows, a).value.meta == metas[i];
    var b :| b in keys && Chosen(rows, b).Some? && Chosen(rows, b).value.meta == metas[j];
  }

  // Through the context builder.

  /** By scope, kind, key, version and id, in that order. */
  ghost predicate Earlier(a: Meta, b: Meta) {
    if a.scope != b.scope then Precedes(a.scope, b.scope)
    else if a.kind != b.kind then Precedes(a.kind, b.kind)
    else if a.key != b.key then Precedes(a.key, b.key)
    else if a.version != b.version then Precedes(a.version, b.version)
    else a.snapshotId <= b.snapshotId
  }

  lemma IdentityIsEarlier(a: Row, b: Row)
    ensures ByIdentity(a, b) <==> Earlier(a.meta, b.meta)
  {
    LexLeOfFour(IdentityKey(a), IdentityKey(b));
    assert IdentityKey(a) == IdentityKey(b) <==>
             a.meta.scope == b.meta.scope && a.meta.kind == b.meta.kind && a.meta.key == b.meta.key
             && a.meta.version == b.meta.version by {
      assert IdentityKey(a) == IdentityKey(b) ==> forall i | 0 <= i < 4 :: IdentityKey(a)[i] == IdentityKey(b)[i];
    }
  }

  /** Whatever order the rows come in, the agent of a key takes from the least company row for the
      key, else from the least row for it. */
  lemma ContextTakes(snapshot: Snapshot, rows: seq<Row>, digest: Digest, r: Snapshot, key: string, row: Row)
    requires snapshot.agents.Given? && key in snapshot.agents.value
    requires IsEffective(snapshot, Sorted(ByIdentity, rows), digest, r)
    requires row in rows && row.meta.key == key && DistinctIds(rows)
    requires forall other | other in rows && other.meta.key == key && other.meta.scope == "company" ::
               row.meta.scope == "company"
    requires forall other | other in rows && other.meta.key == key
                 && (row.meta.scope == "company" ==> other.meta.scope == "company") ::
               Earlier(row.meta, other.meta)
    ensures r.agents.Given? && key in r.agents.value && r.agents.value[key].AnAgent?
    ensures var after := r.agents.value[key].agent;
            && ResolvedRubricMd in after.texts && after.texts[ResolvedRubricMd] == Str(row.content)
            && after.rubricSnapshotId == Some(Int(row.meta.snapshotId))
  {
    ContextPicks(rows, key);
    var chosen := Chosen(Sorted(ByIdentity, rows), key);
    assert chosen.Some?;
    IdentityIsEarlier(row, chosen.value);
    IdentityIsEarlier(chosen.value, row);
    RowsDoNotTie(rows);
    assert chosen.value == row by {
      var i :| 0 <= i < |rows| && rows[i] == row;
      var j :| 0 <= j < |rows| && rows[j] == chosen.value;
    }
    assert r.agents.value[key] == EffectiveAgent(snapshot.agents.value[key], chosen);
  }
}
