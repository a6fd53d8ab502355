/**
 `_ensure_fk` and the reconciliation it performs: whatever keys a table starts with, it ends
 with one key of the requested shape under the requested name.
 */
module ForeignKeys {
  import opened Catalog

  /** One call of `_ensure_fk`. */
  datatype Requirement = Requirement(name: string, table: string, shape: Shape, legacyName: Option<string>)

  predicate Applicable(tables: Tables, req: Requirement) {
    && req.table in tables
    && req.shape.table in tables
    && (forall column | column in req.shape.local :: column in tables[req.table].columns)
  }

  function Target(req: Requirement): ForeignKey {
    ForeignKey(Some(req.name), req.shape)
  }

  function KeySet(keys: seq<ForeignKey>): set<ForeignKey> {
    set key | key in keys
  }

  /** The keys a reconciliation leaves alone: they hold neither the requested name nor, under
      any other name, the requested shape. A key without a name cannot be dropped or renamed. */
  function Bystanders(keys: set<ForeignKey>, req: Requirement): set<ForeignKey> {
    set key | key in keys && key.name != Some(req.name) && (key.shape != req.shape || key.name == None)
  }

  /** What reconciliation leaves, whatever order the catalogue lists the keys in. */
  function Reconciled(keys: set<ForeignKey>, req: Requirement): set<ForeignKey> {
    Bystanders(keys, req) + {Target(req)}
  }

  predicate HasNamedKeyOfShape(keys: seq<ForeignKey>, shape: Shape) {
    exists key | key in keys :: key.shape == shape && key.name.Some?
  }

  /** Nothing is left to reconcile. */
  predicate Settled(keys: seq<ForeignKey>, req: Requirement) {
    Target(req) in keys && forall key | key in keys && key.shape == req.shape && key.name.Some? :: key == Target(req)
  }

  function FirstWhere(keys: seq<ForeignKey>, wanted: ForeignKey -> bool): (r: Option<ForeignKey>)
    ensures r.Some? ==> r.value in keys && wanted(r.value)
    ensures r.None? ==> forall key | key in keys :: !wanted(key)
  {
    if keys == [] then None
    else if wanted(keys[0]) then Some(keys[0])
    else FirstWhere(keys[1..], wanted)
  }

  lemma RenameOne(keys: seq<ForeignKey>, key: ForeignKey, name: string)
    requires NamesUnique(keys) && key in keys && key.name.Some? && Free(keys, name)
    ensures var renamed := Each(keys, k => RenameKey(k, key.name.value, name));
            && NamesUnique(renamed)
            && KeySet(renamed) == KeySet(keys) - {key} + {key.(name := Some(name))}
  {
    var renamed := Each(keys, k => RenameKey(k, key.name.value, name));
    var at :| 0 <= at < |keys| && keys[at] == key;
    assert renamed[at] == key.(name := Some(name));
    assert forall i | 0 <= i < |keys| && i != at :: renamed[i] == keys[i];
    forall k | k in KeySet(keys) - {key} ensures k in KeySet(renamed) {
      var i :| 0 <= i < |keys| && keys[i] == k;
      assert renamed[i] == k;
    }
  }

  /** The rename of a constraint whose old name is there while the new one is free. */
  function NameMoved(keys: Keys, table: string, before: string, after: string): Keys {
    if !Free(KeysIn(keys, table), before) && Free(KeysIn(keys, table), after)
    then keys[table := Each(KeysIn(keys, table), (key: ForeignKey) => RenameKey(key, before, after))]
    else keys
  }

  /** `_rename_postgresql_constraint` as its callers guard it. */
  method MoveName(bind: Connection, table: string, before: string, after: string)
    requires bind.Valid()
    modifies bind`keys
    ensures bind.Valid() && bind.keys == NameMoved(old(bind.keys), table, before, after)
  {
    var foreignKeys := bind.KeysOf(table);
    if !Free(foreignKeys, before) && Free(foreignKeys, after) {
      var key := FirstWhere(foreignKeys, (key: ForeignKey) => key.name == Some(before));
      RenameOne(foreignKeys, key.value, after);
      bind.RenameConstraint(table, before, after);
      assert bind.KeysOf(table) == Each(foreignKeys, (key: ForeignKey) => RenameKey(key, before, after));
    }
  }

  /** Rename a key of the requested shape to the requested name. */
  method Adopt(bind: Connection, req: Requirement, key: ForeignKey)
    requires bind.Valid()
    requires key in bind.KeysOf(req.table) && key.shape == req.shape && key.name.Some?
    requires Free(bind.KeysOf(req.table), req.name)
    modifies bind`keys
    ensures bind.Valid()
    ensures KeySet(bind.KeysOf(req.table)) == old(KeySet(bind.KeysOf(req.table))) - {key} + {Target(req)}
    ensures bind.keys == old(bind.keys)[req.table := bind.KeysOf(req.table)]
  {
    RenameOne(bind.KeysOf(req.table), key, req.name);
    bind.RenameConstraint(req.table, key.name.value, req.name);
  }

  /** The start of `_ensure_fk`: the key of the shape may still have its legacy name. */
  method AdoptLegacyName(bind: Connection, req: Requirement)
    requires bind.Valid()
    modifies bind`keys
    ensures bind.Valid()
    ensures Bystanders(KeySet(bind.KeysOf(req.table)), req) == old(Bystanders(KeySet(bind.KeysOf(req.table)), req))
    ensures HasNamedKeyOfShape(bind.KeysOf(req.table), req.shape)
         == old(HasNamedKeyOfShape(bind.KeysOf(req.table), req.shape))
    ensures old(Target(req) in bind.KeysOf(req.table)) ==> bind.keys == old(bind.keys)
    ensures bind.keys == old(bind.keys) || bind.keys == old(bind.keys)[req.table := bind.KeysOf(req.table)]
  {
    var foreignKeys: seq<ForeignKey> := bind.KeysOf(req.table);
    if req.legacyName.Some? {
      var legacyKey: Option<ForeignKey> := FirstWhere(foreignKeys, (key: ForeignKey) => key.name == req.legacyName);
      if legacyKey.Some? && Free(foreignKeys, req.name) && legacyKey.value.shape == req.shape {
        Adopt(bind, req, legacyKey.value);
        assert Target(req) in KeySet(bind.KeysOf(req.table));
      }
    }
  }

  /** ... and its requested name may be held by a key of another shape: afterwards the name is free or
      held by the target. */
  method ClearName(bind: Connection, req: Requirement)
    requires bind.Valid()
    modifies bind`keys
    ensures bind.Valid()
    ensures Bystanders(KeySet(bind.KeysOf(req.table)), req) == old(Bystanders(KeySet(bind.KeysOf(req.table)), req))
    ensures Target(req) in bind.KeysOf(req.table) || Free(bind.KeysOf(req.table), req.name)
    ensures HasNamedKeyOfShape(bind.KeysOf(req.table), req.shape)
         == old(HasNamedKeyOfShape(bind.KeysOf(req.table), req.shape))
    ensures old(Target(req) in bind.KeysOf(req.table)) ==> bind.keys == old(bind.keys)
    ensures bind.keys == old(bind.keys) || bind.keys == old(bind.keys)[req.table := bind.KeysOf(req.table)]
  {
    var named: Option<ForeignKey> :=
        FirstWhere(bind.KeysOf(req.table), (key: ForeignKey) => key.name == Some(req.name));
    if named.Some? && named.value.shape != req.shape {
      bind.DropConstraint(req.table, req.name);
    }
  }

  /** The middle of `_ensure_fk`: rename a key of the shape, or create the target. */
  method EnsureTarget(bind: Connection, req: Requirement) returns (r: Outcome<()>)
    requires bind.Valid()
    requires Target(req) in bind.KeysOf(req.table) || Free(bind.KeysOf(req.table), req.name)
    modifies bind`keys
    ensures bind.Valid()
    ensures r.Raised? <==>
              !HasNamedKeyOfShape(old(bind.KeysOf(req.table)), req.shape)
              && !Satisfied(bind.tables, req.table, req.shape)
    ensures r.Done? ==> Target(req) in KeySet(bind.KeysOf(req.table))
    ensures Bystanders(KeySet(bind.KeysOf(req.table)), req) == old(Bystanders(KeySet(bind.KeysOf(req.table)), req))
    ensures old(Target(req) in bind.KeysOf(req.table)) ==> bind.keys == old(bind.keys)
    ensures forall table | table != req.table :: bind.KeysOf(table) == old(bind.KeysOf(table))
  {
    var foreignKeys := bind.KeysOf(req.table);
    if Target(req) in foreignKeys {
      return Done(());
    }
    var candidate: Option<ForeignKey> :=
      FirstWhere(foreignKeys, (key: ForeignKey) => key.shape == req.shape && key.name.Some?);
    if candidate.Some? {
      Adopt(bind, req, candidate.value);
      r := Done(());
    } else {
      r := bind.CreateForeignKey(req.table, req.name, req.shape);
      assert r.Done? ==> KeySet(bind.KeysOf(req.table)) == KeySet(foreignKeys) + {Target(req)};
    }
  }

  /** A name is one key's. */
  lemma DroppedByName(keys: seq<ForeignKey>, dropped: ForeignKey)
    requires NamesUnique(keys) && dropped in keys && dropped.name.Some?
    ensures KeySet(Keep(keys, (key: ForeignKey) => key.name != Some(dropped.name.value))) == KeySet(keys) - {dropped}
  {
    forall key | key in keys && key.name == dropped.name ensures key == dropped {
      var i :| 0 <= i < |keys| && keys[i] == key;
      var j :| 0 <= j < |keys| && keys[j] == dropped;
    }
  }

  /** Drop one other key of the shape. */
  method DropRival(bind: Connection, req: Requirement, rival: ForeignKey)
    requires bind.Valid() && Target(req) in bind.KeysOf(req.table)
    requires rival.shape == req.shape && rival.name.Some? && rival != Target(req)
    requires rival in bind.KeysOf(req.table)
    modifies bind`keys
    ensures bind.Valid()
    ensures KeySet(bind.KeysOf(req.table)) == old(KeySet(bind.KeysOf(req.table))) - {rival}
    ensures forall table | table != req.table :: bind.KeysOf(table) == old(bind.KeysOf(table))
  {
    DroppedByName(bind.KeysOf(req.table), rival);
    bind.DropConstraint(req.table, rival.name.value);
    assert bind.KeysOf(req.table)
        == Keep(old(bind.KeysOf(req.table)), (key: ForeignKey) => key.name != Some(rival.name.value));
  }

  /** The end of `_ensure_fk`: every other named key of the shape goes. */
  method DropOthers(bind: Connection, req: Requirement)
    requires bind.Valid() && Target(req) in bind.KeysOf(req.table)
    modifies bind`keys
    ensures bind.Valid()
    ensures KeySet(bind.KeysOf(req.table)) == Reconciled(KeySet(old(bind.KeysOf(req.table))), req)
    ensures old(Settled(bind.KeysOf(req.table), req)) ==> bind.keys == old(bind.keys)
    ensures forall table | table != req.table :: bind.KeysOf(table) == old(bind.KeysOf(table))
  {
    ghost var start := bind.KeysOf(req.table);
    var matching := Keep(bind.KeysOf(req.table), (key: ForeignKey) => key.shape == req.shape);
    for i := 0 to |matching|
      invariant bind.Valid()
      invariant KeySet(bind.KeysOf(req.table)) == KeySet(start) - Rivals(matching[..i], req)
      invariant forall table | table != req.table :: bind.KeysOf(table) == old(bind.KeysOf(table))
      invariant Settled(start, req) ==> bind.keys == old(bind.keys)
    {
      assert matching[i] in matching;
      assert Rivals(matching[..i + 1], req) ==
             Rivals(matching[..i], req) + if matching[i].name.Some? && matching[i] != Target(req) then {matching[i]}
                 else {};
      if matching[i].name.Some? && matching[i].name != Some(req.name) {
        assert matching[i] in KeySet(bind.KeysOf(req.table));
        assert Target(req) in KeySet(bind.KeysOf(req.table));
        DropRival(bind, req, matching[i]);
      }
    }
    assert matching[..|matching|] == matching;
    OnlyTarget(start, req);
  }

  function Rivals(keys: seq<ForeignKey>, req: Requirement): set<ForeignKey> {
    set key | key in keys && key.name.Some? && key != Target(req)
  }

  /** Keys whose shape differs cannot hold the name the target holds. */
  lemma OnlyTarget(keys: seq<ForeignKey>, req: Requirement)
    requires NamesUnique(keys) && Target(req) in keys
    ensures forall key | key in keys && key.name == Some(req.name) :: key == Target(req)
  {
  }

  method EnsureFk(bind: Connection, req: Requirement) returns (r: Outcome<()>)
    requires bind.Valid()
    modifies bind`keys
    ensures bind.Valid()
    ensures r.Raised? <==>
            && Applicable(bind.tables, req)
            && !HasNamedKeyOfShape(old(bind.KeysOf(req.table)), req.shape)
            && !Satisfied(bind.tables, req.table, req.shape)
    ensures r.Done? && Applicable(bind.tables, req) ==>
              KeySet(bind.KeysOf(req.table)) == Reconciled(KeySet(old(bind.KeysOf(req.table))), req)
    ensures !Applicable(bind.tables, req) || Settled(old(bind.KeysOf(req.table)), req) ==>
              bind.keys == old(bind.keys)
    ensures forall table | table != req.table :: bind.KeysOf(table) == old(bind.KeysOf(table))
  {
    if !Applicable(bind.tables, req) {
      return Done(());
    }
    AdoptLegacyName(bind, req);
    ClearName(bind, req);
    r := EnsureTarget(bind, req);
    if r.Raised? {
      return;
    }
    DropOthers(bind, req);
  }

  /** Exactly one key of the requested shape, under the requested name, precisely when no
      nameless key has that shape. */
  lemma OneKeyOfShape(keys: set<ForeignKey>, req: Requirement)
    ensures (forall key | key in Reconciled(keys, req) && key.shape == req.shape :: key == Target(req))
       <==> ForeignKey(None, req.shape) !in keys
    ensures Target(req) in Reconciled(keys, req)
    ensures forall key | key in Reconciled(keys, req) && key.name == Some(req.name) :: key == Target(req)
  {
    if ForeignKey(None, req.shape) in keys {
      assert ForeignKey(None, req.shape) in Reconciled(keys, req);
    }
  }

  /** Keys of other shapes survive unless they held the requested name, and nothing else appears. */
  lemma OthersSurvive(keys: set<ForeignKey>, req: Requirement, key: ForeignKey)
    requires key.shape != req.shape
    ensures key in Reconciled(keys, req) <==> key in keys && key.name != Some(req.name)
  {
  }

  lemma ReconciledTwice(keys: set<ForeignKey>, req: Requirement)
    ensures Reconciled(Reconciled(keys, req), req) == Reconciled(keys, req)
  {
  }

  /** Reconciling for another key leaves what was already settled, settled. */
  lemma StaysSettled(keys: seq<ForeignKey>, after: seq<ForeignKey>, req: Requirement, other: Requirement)
    requires Settled(keys, req) && req.name != other.name && req.shape != other.shape
    requires KeySet(after) == Reconciled(KeySet(keys), other)
    ensures Settled(after, req)
  {
    assert Target(req) in KeySet(after);
    forall key | key in after && key.shape == req.shape && key.name.Some? ensures key == Target(req) {
      assert key in KeySet(after);
    }
  }

  lemma SettledWhenReconciled(keys: seq<ForeignKey>, after: seq<ForeignKey>, req: Requirement)
    requires KeySet(after) == Reconciled(KeySet(keys), req)
    ensures Settled(after, req)
  {
    assert Target(req) in KeySet(after);
    forall key | key in after && key.shape == req.shape && key.name.Some? ensures key == Target(req) {
      assert key in KeySet(after);
    }
  }
}
