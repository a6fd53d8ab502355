/**
 Which foreign keys still refer to the legacy parent when the upgrade comes to drop it. The legacy
 table goes exactly when none does, so this decides whether the upgrade of a split schema succeeds.
 */
module LegacyReferences {
  import opened Catalog
  import opened Folding
  import opened ForeignKeys
  import opened Parents
  import opened ParentUnification

  /** A named key over `trial_id` that points to the legacy parent. */
  predicate PointsToLegacy(key: ForeignKey) {
    key.name.Some? && "trial_id" in key.shape.local && key.shape.table == SIMULATIONS
  }

  predicate NoLegacyKeys(keys: Keys, table: string) {
    forall key | key in KeysIn(keys, table) :: !PointsToLegacy(key)
  }

  /** A child table with these columns loses the key when its parent column is folded and its keys to
      the legacy parent are dropped: with the dropped column, or by name over what is `trial_id` then. */
  predicate LeavesChild(columns: set<string>, key: ForeignKey) {
    var legacy, canonical := "simulation_id" in columns, "trial_id" in columns;
    || (legacy && canonical && "simulation_id" in key.shape.local)
    || (key.name.Some? && "trial_id" in key.shape.local)
    || (key.name.Some? && legacy && !canonical && "simulation_id" in key.shape.local)
  }

  /** (table, name) pairs that required keys claim; a key of another shape that holds one is dropped. */
  type Claims = set<(string, string)>

  predicate Claimed(claims: Claims, owner: string, key: ForeignKey) {
    key.name.Some? && (owner, key.name.value) in claims
  }

  predicate SticksWhile(tables: Tables, children: seq<string>, claims: Claims, owner: string, key: ForeignKey) {
    && key.shape.table == SIMULATIONS && !Claimed(claims, owner, key)
    && (owner in children ==> !LeavesChild(Columns(tables, owner), key))
  }

  /** Some key to the legacy parent outlasts the folding of `children` and the claims. */
  ghost predicate Sticks(tables: Tables, keys: Keys, children: seq<string>, claims: Claims) {
    exists owner: string, key: ForeignKey :: key in KeysIn(keys, owner)
        && SticksWhile(tables, children, claims, owner, key)
  }

  lemma NothingLeftToClaim(tables: Tables, keys: Keys)
    ensures Sticks(tables, keys, [], {}) <==> RefersTo(keys, SIMULATIONS)
  {
    if RefersTo(keys, SIMULATIONS) {
      var owner, key :| owner in keys && key in keys[owner] && key.shape.table == SIMULATIONS;
      assert key in KeysIn(keys, owner) && SticksWhile(tables, [], {}, owner, key);
    }
    if Sticks(tables, keys, [], {}) {
      var owner: string, key: ForeignKey :| key in KeysIn(keys, owner) && SticksWhile(tables, [], {}, owner, key);
      assert owner in keys && key in keys[owner];
    }
  }

  // One child.

  /** What folding `from` into `into` makes of a key to the legacy parent, if it keeps it. */
  function Moved(columns: set<string>, name: string, from: string, into: string, owner: string,
                 key: ForeignKey): ForeignKey {
    if from in columns && into !in columns then KeyColumnRenamed(key, owner, name, from, into) else key
  }

  /** Both columns are there, so the key goes with the one that is dropped. */
  predicate GoesAlong(columns: set<string>, name: string, from: string, into: string, owner: string, key: ForeignKey) {
    owner == name && from in columns && into in columns && from in key.shape.local
  }

  function Image(tables: Tables, name: string, owner: string, key: ForeignKey): ForeignKey {
    Moved(Columns(tables, name), name, "simulation_id", "trial_id", owner, key)
  }

  lemma RenamedHolds(columns: seq<string>, before: string, after: string)
    requires before != after
    ensures after in RenamedIn(columns, before, after) <==> before in columns || after in columns
  {
    var renamed := RenamedIn(columns, before, after);
    if before in columns {
      var i :| 0 <= i < |columns| && columns[i] == before;
      assert renamed[i] == after;
    }
    if after in columns {
      var i :| 0 <= i < |columns| && columns[i] == after;
      assert renamed[i] == after;
    }
    if after in renamed {
      var i :| 0 <= i < |renamed| && renamed[i] == after;
      assert columns[i] == before || columns[i] == after;
    }
  }

  /** A key to the legacy parent goes through a folding unless the dropped column takes it along. */
  lemma FoldedHolds(tables: Tables, keys: Keys, name: string, from: string, into: string, owner: string,
                    key: ForeignKey)
    requires name != SIMULATIONS && key.shape.table == SIMULATIONS && key in KeysIn(keys, owner)
    requires !GoesAlong(Columns(tables, name), name, from, into, owner, key)
    ensures Moved(Columns(tables, name), name, from, into, owner,
                  key) in KeysIn(FoldedKeys(tables, keys, name, from, into), owner)
  {
    var after := FoldedKeys(tables, keys, name, from, into);
    if from in Columns(tables, name) && into !in Columns(tables, name) {
      var i :| 0 <= i < |keys[owner]| && keys[owner][i] == key;
      assert after[owner][i] == Moved(Columns(tables, name), name, from, into, owner, key);
    }
  }

  lemma FoldedCameFrom(tables: Tables, keys: Keys, name: string, from: string, into: string, owner: string,
                       now: ForeignKey)
    returns (key: ForeignKey)
    requires name != SIMULATIONS && now.shape.table == SIMULATIONS
    requires now in KeysIn(FoldedKeys(tables, keys, name, from, into), owner)
    ensures key in KeysIn(keys, owner) && key.shape.table == SIMULATIONS
    ensures now == Moved(Columns(tables, name), name, from, into, owner, key)
    ensures !GoesAlong(Columns(tables, name), name, from, into, owner, key)
  {
    var after := FoldedKeys(tables, keys, name, from, into);
    if from in Columns(tables, name) && into !in Columns(tables, name) {
      var i :| 0 <= i < |after[owner]| && after[owner][i] == now;
      key := keys[owner][i];
    } else {
      key := now;
    }
  }

  /** The same key, seen before and after its child is done. */
  lemma ImageSticks(tables: Tables, after: Tables, name: string, rest: seq<string>, claims: Claims, owner: string,
                    key: ForeignKey)
    requires name != SIMULATIONS && key.shape.table == SIMULATIONS && name !in rest
    requires forall other | other in rest :: Columns(after, other) == Columns(tables, other)
    ensures SticksWhile(tables, [name] + rest, claims, owner, key) <==>
              && !GoesAlong(Columns(tables, name), name, "simulation_id", "trial_id", owner, key)
              && !(owner == name && PointsToLegacy(Image(tables, name, owner, key)))
              && SticksWhile(after, rest, claims, owner, Image(tables, name, owner, key))
  {
    RenamedHolds(key.shape.local, "simulation_id", "trial_id");
    assert owner in [name] + rest <==> owner == name || owner in rest;
    assert owner != name ==> Image(tables, name, owner, key) == key;
  }

  /** Folding one child and dropping its keys to the legacy parent changes nothing about which keys
      stick in the end. */
  lemma ChildKeepsSticking(tables: Tables, keys: Keys, after: Tables, now: Keys, name: string, rest: seq<string>,
                           claims: Claims)
    requires name != SIMULATIONS && name !in rest
    requires forall other | other in rest :: Columns(after, other) == Columns(tables, other)
    requires var folded := FoldedKeys(tables, keys, name, "simulation_id", "trial_id");
             && (forall key :: key in KeysIn(now, name) <==> key in KeysIn(folded, name) && !PointsToLegacy(key))
             && forall other | other != name :: KeysIn(now, other) == KeysIn(folded, other)
    ensures Sticks(tables, keys, [name] + rest, claims) <==> Sticks(after, now, rest, claims)
  {
    var folded := FoldedKeys(tables, keys, name, "simulation_id", "trial_id");
    if Sticks(tables, keys, [name] + rest, claims) {
      var owner: string, key: ForeignKey :| key in KeysIn(keys, owner)
          && SticksWhile(tables, [name] + rest, claims, owner, key);
      ImageSticks(tables, after, name, rest, claims, owner, key);
      FoldedHolds(tables, keys, name, "simulation_id", "trial_id", owner, key);
      assert Image(tables, name, owner, key) in KeysIn(now, owner);
    }
    if Sticks(after, now, rest, claims) {
      var owner: string, moved: ForeignKey :| moved in KeysIn(now, owner)
          && SticksWhile(after, rest, claims, owner, moved);
      assert moved in KeysIn(folded, owner);
      var key := FoldedCameFrom(tables, keys, name, "simulation_id", "trial_id", owner, moved);
      ImageSticks(tables, after, name, rest, claims, owner, key);
    }
  }

  lemma ColumnsDoNotMatter(tables: Tables, after: Tables, keys: Keys, children: seq<string>, claims: Claims)
    requires forall name | name in children ::
               && ("simulation_id" in Columns(after, name) <==> "simulation_id" in Columns(tables, name))
               && ("trial_id" in Columns(after, name) <==> "trial_id" in Columns(tables, name))
    ensures Sticks(tables, keys, children, claims) <==> Sticks(after, keys, children, claims)
  {
    forall owner: string, key: ForeignKey
      ensures SticksWhile(tables, children, claims, owner, key) <==> SticksWhile(after, children, claims, owner, key)
    {
    }
    if Sticks(tables, keys, children, claims) {
      var owner: string, key: ForeignKey :| key in KeysIn(keys, owner)
          && SticksWhile(tables, children, claims, owner, key);
      assert SticksWhile(after, children, claims, owner, key);
    }
    if Sticks(after, keys, children, claims) {
      var owner: string, key: ForeignKey :| key in KeysIn(keys, owner)
          && SticksWhile(after, children, claims, owner, key);
      assert SticksWhile(tables, children, claims, owner, key);
    }
  }

  // The parents.

  /** Some key to the legacy parent outlasts the whole upgrade up to the drop of that table. */
  ghost predicate Lingers(tables: Tables, keys: Keys, children: seq<string>, claims: Claims) {
    exists owner: string, key: ForeignKey :: key in KeysIn(keys, owner)
        && SticksWhile(tables, children, claims, owner, key)
      && !GoesAlong(Columns(tables, TRIALS), TRIALS, RECRUITER, PARTNER, owner, key)
  }

  /** No claim is about the names the mapped column's key goes by. */
  predicate ClaimsApart(claims: Claims) {
    (TRIALS, PARTNER_KEY) !in claims && (TRIALS, RECRUITER_KEYS.0) !in claims && (TRIALS, RECRUITER_KEYS.1) !in claims
  }

  lemma NameMovedSticks(tables: Tables, keys: Keys, children: seq<string>, claims: Claims, former: string, name: string)
    requires TRIALS !in children && (TRIALS, former) !in claims && (TRIALS, name) !in claims
    ensures Sticks(tables, NameMoved(keys, TRIALS, former, name), children, claims) <==>
              Sticks(tables, keys, children, claims)
  {
    var after := NameMoved(keys, TRIALS, former, name);
    if after != keys {
      if Sticks(tables, keys, children, claims) {
        var owner: string, key: ForeignKey :| key in KeysIn(keys, owner)
            && SticksWhile(tables, children, claims, owner, key);
        var moved := if owner == TRIALS then RenameKey(key, former, name) else key;
        var i :| 0 <= i < |KeysIn(keys, owner)| && KeysIn(keys, owner)[i] == key;
        assert KeysIn(after, owner)[i] == moved;
        assert SticksWhile(tables, children, claims, owner, moved);
      }
      if Sticks(tables, after, children, claims) {
        var owner: string, moved: ForeignKey :| moved in KeysIn(after, owner)
            && SticksWhile(tables, children, claims, owner, moved);
        var i :| 0 <= i < |KeysIn(after, owner)| && KeysIn(after, owner)[i] == moved;
        var key := KeysIn(keys, owner)[i];
        assert moved == if owner == TRIALS then RenameKey(key, former, name) else key;
        assert SticksWhile(tables, children, claims, owner, key);
      }
    }
  }

  lemma ParentFoldSticks(tables: Tables, keys: Keys, children: seq<string>, claims: Claims)
    requires TRIALS !in children && TRIALS != SIMULATIONS
    ensures Sticks(tables, FoldedKeys(tables, keys, TRIALS, RECRUITER, PARTNER), children, claims)
       <==> Lingers(tables, keys, children, claims)
  {
    var after := FoldedKeys(tables, keys, TRIALS, RECRUITER, PARTNER);
    if Lingers(tables, keys, children, claims) {
      var owner: string, key: ForeignKey :| key in KeysIn(keys, owner)
          && SticksWhile(tables, children, claims, owner, key)
        && !GoesAlong(Columns(tables, TRIALS), TRIALS, RECRUITER, PARTNER, owner, key);
      FoldedHolds(tables, keys, TRIALS, RECRUITER, PARTNER, owner, key);
      assert SticksWhile(tables, children, claims, owner,
                         Moved(Columns(tables, TRIALS), TRIALS, RECRUITER, PARTNER, owner, key));
    }
    if Sticks(tables, after, children, claims) {
      var owner: string, now: ForeignKey :| now in KeysIn(after, owner)
          && SticksWhile(tables, children, claims, owner, now);
      var key := FoldedCameFrom(tables, keys, TRIALS, RECRUITER, PARTNER, owner, now);
      assert SticksWhile(tables, children, claims, owner, key);
    }
  }

  /** The parent's part of the upgrade keeps exactly the lingering keys in the running. */
  lemma MappedSticks(tables: Tables, keys: Keys, children: seq<string>, claims: Claims)
    requires TRIALS !in children && TRIALS != SIMULATIONS && ClaimsApart(claims)
    ensures Sticks(tables, MappedKeys(tables, keys), children, claims) <==> Lingers(tables, keys, children, claims)
  {
    ParentFoldSticks(tables, keys, children, claims);
    var folded := FoldedKeys(tables, keys, TRIALS, RECRUITER, PARTNER);
    NameMovedSticks(tables, folded, children, claims, RECRUITER_KEYS.0, PARTNER_KEY);
    NameMovedSticks(tables, folded, children, claims, RECRUITER_KEYS.1, PARTNER_KEY);
  }

  // The required keys.

  /** After all claims are served, exactly the unclaimed keys to the legacy parent are there. */
  ghost predicate ClaimsServed(before: Keys, after: Keys, claims: Claims) {
    forall owner: string, key: ForeignKey | key.shape.table == SIMULATIONS ::
      key in KeysIn(after, owner) <==> key in KeysIn(before, owner) && !Claimed(claims, owner, key)
  }

  lemma ServedRefersWhenSticking(tables: Tables, before: Keys, after: Keys, claims: Claims)
    requires ClaimsServed(before, after, claims)
    ensures RefersTo(after, SIMULATIONS) <==> Sticks(tables, before, [], claims)
  {
    NothingLeftToClaim(tables, after);
    if Sticks(tables, before, [], claims) {
      var owner: string, key: ForeignKey :| key in KeysIn(before, owner) && SticksWhile(tables, [], claims, owner, key);
      assert key in KeysIn(after, owner) && SticksWhile(tables, [], {}, owner, key);
    }
    if Sticks(tables, after, [], {}) {
      var owner: string, key: ForeignKey :| key in KeysIn(after, owner) && SticksWhile(tables, [], {}, owner, key);
      assert key in KeysIn(before, owner) && SticksWhile(tables, [], claims, owner, key);
    }
  }
}
