/**
 Role bindings: native grants and revocations, forge imports that never overrule them,
 and the fold of one Principal's bindings into another's when the two merge.
 */
module RoleBindings {
  import opened Options

  datatype Subject = Subject(id: string)
  datatype Scope = Scope(org: string, project: string)
  datatype Source = Source(via: string)
  datatype Key = Key(subject: Subject, scope: Scope)

  datatype Role = Viewer | Member | Admin | Owner

  /** A row; a native row without a role is a revocation's tombstone. */
  datatype Binding = Binding(role: Option<Role>, native: bool, via: Option<Source>)

  type Rows = map<Key, Binding>
  datatype Seed = Seed(subject: Subject, role: Role)

  function Rank(r: Option<Role>): nat {
    match r
    case None => 0
    case Some(Viewer) => 1
    case Some(Member) => 2
    case Some(Admin) => 3
    case Some(Owner) => 4
  }

  function At(rows: Rows, subject: Subject, scope: Scope): Option<Binding> {
    if Key(subject, scope) in rows then Some(rows[Key(subject, scope)]) else None
  }

  predicate IsNative(b: Option<Binding>) {
    b.Some? && b.value.native
  }

  // ------------------------------------------------------------- grants and imports

  /** What a native upsert leaves; the import source of the old row stays on it. */
  function NativeRow(before: Option<Binding>, role: Option<Role>): Binding {
    Binding(role, true, if before.Some? then before.value.via else None)
  }

  function AfterNative(rows: Rows, key: Key, role: Option<Role>): Rows {
    rows[key := NativeRow(At(rows, key.subject, key.scope), role)]
  }

  function AfterImport(rows: Rows, key: Key, role: Role): Rows {
    if key !in rows then rows[key := Binding(Some(role), false, None)]
    else if rows[key].native then rows
    else rows[key := rows[key].(role := Some(role))]
  }

  /** The role the last seed names for `subject`. */
  function LastSeed(seeds: seq<Seed>, subject: Subject): Option<Role> {
    if seeds == [] then None
    else if seeds[|seeds| - 1].subject == subject then Some(seeds[|seeds| - 1].role)
    else LastSeed(seeds[..|seeds| - 1], subject)
  }

  predicate Seeded(seeds: seq<Seed>, subject: Subject) {
    LastSeed(seeds, subject).Some?
  }

  lemma {:induction false} SeededIsListed(seeds: seq<Seed>, subject: Subject)
    ensures Seeded(seeds, subject) <==> exists s :: s in seeds && s.subject == subject
  {
    if seeds != [] {
      var front, last := seeds[..|seeds| - 1], seeds[|seeds| - 1];
      SeededIsListed(front, subject);
      assert last in seeds && forall s :: s in front ==> s in seeds;
      assert forall s :: s in seeds ==> s == last || s in front;
    }
  }

  predicate Prunable(k: Key, b: Binding, scope: Scope, via: Source, seeds: seq<Seed>) {
    k.scope == scope && !b.native && (b.via == Some(via) || b.via.None?) && !Seeded(seeds, k.subject)
  }

  /** One import of a scope: a seeded subject's row is the seed's unless native; with `prune`, import
      rows of this source or of none, and of no seed, are gone; all else stays. */
  ghost predicate Imported(rows: Rows, scope: Scope, via: Source, seeds: seq<Seed>, prune: bool, rows': Rows) {
    forall k: Key ::
      At(rows', k.subject, k.scope) ==
      var b := At(rows, k.subject, k.scope);
      if k.scope != scope || (b.Some? && b.value.native) then b
      else if LastSeed(seeds, k.subject).Some? then Some(Binding(LastSeed(seeds, k.subject), false, Some(via)))
      else if b.Some? && prune && (b.value.via == Some(via) || b.value.via.None?) then None
      else b
  }

  // --------------------------------------------------------------------------- folding

  /** The survivor's row at a scope: its own native row, else the other's native row (a tombstone too),
      else the import of the higher role, its own on a tie. */
  function Survivor(mine: Option<Binding>, theirs: Option<Binding>): Option<Binding> {
    if IsNative(mine) then mine
    else if IsNative(theirs) then theirs
    else if mine.None? then theirs
    else if theirs.None? then mine
    else if Rank(mine.value.role) >= Rank(theirs.value.role) then mine else theirs
  }

  ghost predicate Folded(rows: Rows, from: Subject, into: Subject, rows': Rows) {
    && (forall scope :: At(rows', into, scope) == Survivor(At(rows, into, scope), At(rows, from, scope)))
    && (forall scope :: At(rows', from, scope).None?)
    && (forall other, scope :: other != from && other != into ==> At(rows', other, scope) == At(rows, other, scope))
  }

  /** No role is ever raised over a native row, and with two imports none is lost. */
  lemma SurvivorRank(mine: Option<Binding>, theirs: Option<Binding>)
    ensures IsNative(mine) || IsNative(theirs) ==> IsNative(Survivor(mine, theirs))
    ensures !IsNative(mine) && !IsNative(theirs) && mine.Some? && theirs.Some? ==>
              Survivor(mine, theirs).Some?
              && Rank(Survivor(mine, theirs).value.role) >= Rank(mine.value.role)
              && Rank(Survivor(mine, theirs).value.role) >= Rank(theirs.value.role)
    ensures Survivor(mine, theirs) == mine || Survivor(mine, theirs) == theirs
  {
  }

  /** The `rbac_bindings` table. */
  class RbacStore {
    var rows: Rows

    constructor ()
      ensures rows == map[]
    {
      rows := map[];
    }

    method GrantNative(key: Key, role: Role)
      modifies this
      ensures rows == AfterNative(old(rows), key, Some(role))
      ensures rows == old(rows)[key := Binding(Some(role), true, if key in old(rows) then old(rows)[key].via else None)]
    {
      rows := rows[key := NativeRow(At(rows, key.subject, key.scope), Some(role))];
    }

    method GrantImport(key: Key, role: Role)
      modifies this
      ensures rows == AfterImport(old(rows), key, role)
      ensures key in old(rows) && old(rows)[key].native ==> rows == old(rows)
      ensures !(key in old(rows) && old(rows)[key].native) ==>
                var via := if key in old(rows) then old(rows)[key].via else None;
                rows == old(rows)[key := Binding(Some(role), false, via)]
    {
      if key !in rows {
        rows := rows[key := Binding(Some(role), false, None)];
      } else if !rows[key].native {
        rows := rows[key := rows[key].(role := Some(role))];
      }
    }

    method Revoke(key: Key)
      modifies this
      ensures rows == AfterNative(old(rows), key, None)
      ensures rows == old(rows)[key := Binding(None, true, if key in old(rows) then old(rows)[key].via else None)]
    {
      rows := rows[key := NativeRow(At(rows, key.subject, key.scope), None)];
    }

    /** `import_seeds`: upsert each seed unless the row is native, then prune. */
    method ImportSeeds(scope: Scope, via: Source, seeds: seq<Seed>, prune: bool) returns (pruned: nat)
      modifies this
      ensures Imported(old(rows), scope, via, seeds, prune, rows)
      ensures pruned == |old(rows).Keys - rows.Keys|
    {
      for i := 0 to |seeds|
        invariant Imported(old(rows), scope, via, seeds[..i], false, rows)
      {
        var key := Key(seeds[i].subject, scope);
        assert seeds[..i + 1][..i] == seeds[..i];
        if key !in rows || !rows[key].native {
          rows := rows[key := Binding(Some(seeds[i].role), false, Some(via))];
        }
      }
      assert seeds[..|seeds|] == seeds;
      pruned := 0;
      if prune {
        var gone := PrunedKeys(rows, scope, via, seeds);
        PrunedAreOld(old(rows), scope, via, seeds, rows);
        pruned := |gone|;
        ghost var seeded := rows;
        rows := rows - gone;
        LostArePruned(old(rows), scope, via, seeds, seeded, gone);
      } else {
        SeedingKeeps(old(rows), scope, via, seeds, rows);
      }
    }

    method DropImports(subject: Subject, via: Source) returns (dropped: nat)
      modifies this
      ensures rows == old(rows) - DroppedKeys(old(rows), subject, via)
      ensures forall k :: k in rows <==>
                k in old(rows) && !(k.subject == subject && !old(rows)[k].native && old(rows)[k].via == Some(via))
      ensures dropped == |old(rows).Keys - rows.Keys|
    {
      var gone := DroppedKeys(rows, subject, via);
      dropped := |gone|;
      assert rows.Keys - (rows - gone).Keys == gone;
      rows := rows - gone;
    }

    /** The bindings part of `merge_principal`: `from`'s rows one by one.  Link never merges a Principal
        with itself. */
    method Fold(from: Subject, into: Subject)
      requires from != into
      modifies this
      ensures Folded(old(rows), from, into, rows)
    {
      var todo := set k | k in rows && k.subject == from;
      while todo != {}
        invariant FoldedBut(old(rows), from, into, todo, rows)
        decreases todo
      {
        var k :| k in todo;
        FoldedAtKeeps(old(rows), from, into, todo, rows, k);
        FoldScope(from, into, k.scope);
        todo := todo - {k};
      }
    }

    method FoldScope(from: Subject, into: Subject, scope: Scope)
      requires from != into && Key(from, scope) in rows
      modifies this
      ensures rows == FoldedAt(old(rows), from, into, scope)
    {
      var mine, theirs := Key(into, scope), rows[Key(from, scope)];
      var keepFrom;
      if mine !in rows {
        keepFrom := true;
      } else if rows[mine].native {
        keepFrom := false;
      } else if theirs.native {
        keepFrom := true;
      } else {
        keepFrom := Rank(theirs.role) > Rank(rows[mine].role);
      }
      if keepFrom {
        rows := rows[mine := theirs];
      }
      rows := rows - {Key(from, scope)};
    }
  }

  /** Folded at every scope but those still to do. */
  ghost predicate FoldedBut(was: Rows, from: Subject, into: Subject, todo: set<Key>, rows: Rows) {
    && (forall k :: k in todo ==> k.subject == from && k in rows)
    && (forall scope :: Key(from, scope) in todo ==>
          At(rows, from, scope) == At(was, from, scope) && At(rows, into, scope) == At(was, into, scope))
    && (forall scope :: Key(from, scope) !in todo ==>
          At(rows, from, scope).None? && At(rows, into, scope) == Survivor(At(was, into, scope), At(was, from, scope)))
    && (forall other, scope :: other != from && other != into ==> At(rows, other, scope) == At(was, other, scope))
  }

  lemma FoldedAtKeeps(was: Rows, from: Subject, into: Subject, todo: set<Key>, rows: Rows, k: Key)
    requires from != into && FoldedBut(was, from, into, todo, rows) && k in todo
    ensures FoldedBut(was, from, into, todo - {k}, FoldedAt(rows, from, into, k.scope))
  {
    assert k == Key(from, k.scope);
  }

  function FoldedAt(rows: Rows, from: Subject, into: Subject, scope: Scope): Rows
    requires from != into && Key(from, scope) in rows
  {
    rows[Key(into, scope) := Survivor(At(rows, into, scope), Some(rows[Key(from, scope)])).value] - {Key(from, scope)}
  }

  function PrunedKeys(rows: Rows, scope: Scope, via: Source, seeds: seq<Seed>): set<Key> {
    set k | k in rows && Prunable(k, rows[k], scope, via, seeds)
  }

  function DroppedKeys(rows: Rows, subject: Subject, via: Source): set<Key> {
    set k | k in rows && k.subject == subject && !rows[k].native && rows[k].via == Some(via)
  }

  lemma SeedingKeeps(rows: Rows, scope: Scope, via: Source, seeds: seq<Seed>, rows': Rows)
    requires Imported(rows, scope, via, seeds, false, rows')
    ensures rows.Keys <= rows'.Keys && rows.Keys - rows'.Keys == {}
  {
    forall k | k in rows ensures k in rows' {
      assert k == Key(k.subject, k.scope) && At(rows', k.subject, k.scope).Some?;
    }
  }

  lemma LostArePruned(rows: Rows, scope: Scope, via: Source, seeds: seq<Seed>, seeded: Rows, gone: set<Key>)
    requires Imported(rows, scope, via, seeds, false, seeded) && gone == PrunedKeys(rows, scope, via, seeds)
    ensures rows.Keys - (seeded - gone).Keys == gone
  {
    SeedingKeeps(rows, scope, via, seeds, seeded);
  }

  /** Seeding first does not change what the prune removes. */
  lemma PrunedAreOld(rows: Rows, scope: Scope, via: Source, seeds: seq<Seed>, rows': Rows)
    requires Imported(rows, scope, via, seeds, false, rows')
    ensures PrunedKeys(rows', scope, via, seeds) == PrunedKeys(rows, scope, via, seeds)
  {
    forall k: Key ensures k in PrunedKeys(rows', scope, via, seeds) <==> k in PrunedKeys(rows, scope, via, seeds) {
      assert k == Key(k.subject, k.scope) && (k in rows' <==> At(rows', k.subject, k.scope).Some?);
    }
  }

  // ------------------------------------------------------------------------ whole runs

  datatype Op =
    | GrantNative(key: Key, role: Role)
    | GrantImport(key: Key, role: Role)
    | Revoke(key: Key)
    | ImportSeeds(scope: Scope, via: Source, seeds: seq<Seed>, prune: bool)
    | DropImports(subject: Subject, via: Source)
    | Fold(from: Subject, into: Subject)

  /** One call, with the effect its contract gives. */
  ghost predicate Step(rows: Rows, op: Op, rows': Rows) {
    match op
    case GrantNative(key, role) => rows' == AfterNative(rows, key, Some(role))
    case GrantImport(key, role) => rows' == AfterImport(rows, key, role)
    case Revoke(key) => rows' == AfterNative(rows, key, None)
    case ImportSeeds(scope, via, seeds, prune) => Imported(rows, scope, via, seeds, prune, rows')
    case DropImports(subject, via) => rows' == rows - DroppedKeys(rows, subject, via)
    case Fold(from, into) => from != into && Folded(rows, from, into, rows')
  }

  /** The calls that may change a native row: its own grant or revoke, or the fold of its subject. */
  predicate Overrules(op: Op, key: Key) {
    match op
    case GrantNative(k, _) => k == key
    case Revoke(k) => k == key
    case Fold(from, _) => from == key.subject
    case _ => false
  }

  ghost predicate IsRun(trace: seq<Rows>, ops: seq<Op>) {
    |trace| == |ops| + 1 && forall i :: 0 <= i < |ops| ==> Step(trace[i], ops[i], trace[i + 1])
  }

  lemma StepKeepsNative(rows: Rows, op: Op, rows': Rows, key: Key)
    requires Step(rows, op, rows') && key in rows && rows[key].native && !Overrules(op, key)
    ensures key in rows' && rows'[key] == rows[key]
  {
    assert key == Key(key.subject, key.scope);
    assert At(rows, key.subject, key.scope) == Some(rows[key]);
    assert key in rows' <==> At(rows', key.subject, key.scope).Some?;
    if op.Fold? && op.into != key.subject {
      assert At(rows', key.subject, key.scope) == At(rows, key.subject, key.scope);
    }
  }

  /** A native grant or tombstone stands through any run of imports, prunes, drops and others' folds. */
  lemma {:induction false} NativeIsKept(trace: seq<Rows>, ops: seq<Op>, i: nat, j: nat, key: Key)
    requires IsRun(trace, ops) && i <= j < |trace| && key in trace[i] && trace[i][key].native
    requires forall m :: i <= m < j ==>
               && ops[m] != Op.Revoke(key) && !(ops[m].GrantNative? && ops[m].key == key)
               && !(ops[m].Fold? && ops[m].from == key.subject)
    ensures key in trace[j] && trace[j][key] == trace[i][key]
    decreases j
  {
    if i < j {
      NativeIsKept(trace, ops, i, j - 1, key);
      StepKeepsNative(trace[j - 1], ops[j - 1], trace[j], key);
    }
  }

  /** A fold hands on authority, never makes it: the survivor's row at a scope was one of the two, and a
      native row of either makes it native. */
  lemma FoldMovesOnly(rows: Rows, from: Subject, into: Subject, rows': Rows, scope: Scope)
    requires Folded(rows, from, into, rows')
    ensures At(rows', into, scope) == At(rows, into, scope) || At(rows', into, scope) == At(rows, from, scope)
    ensures IsNative(At(rows', into, scope)) <==> IsNative(At(rows, into, scope)) || IsNative(At(rows, from, scope))
  {
    SurvivorRank(At(rows, into, scope), At(rows, from, scope));
  }

  // ---------------------------------------------------------------- what a fold is worth

  /** What a caller may need. */
  datatype Capability = Read | Write | Administer

  /** Viewer reads; Member also writes; Admin and Owner also administer. */
  predicate Allows(r: Role, c: Capability) {
    match c
    case Read => true
    case Write => r.Member? || r.Admin? || r.Owner?
    case Administer => r.Admin? || r.Owner?
  }

  predicate RowAllows(b: Option<Binding>, c: Capability) {
    b.Some? && b.value.role.Some? && Allows(b.value.role.value, c)
  }

  /** Owner is above Admin, Admin above Member, Member above Viewer, and any role above none. */
  predicate Above(a: Option<Role>, b: Option<Role>) {
    match a
    case None => false
    case Some(Viewer) => b == None
    case Some(Member) => b == None || b == Some(Viewer)
    case Some(Admin) => b == None || b == Some(Viewer) || b == Some(Member)
    case Some(Owner) => b != Some(Owner)
  }

  predicate IsImport(b: Option<Binding>) {
    b.Some? && !b.value.native
  }

  /** The rule a fold follows at every scope, case by case. */
  lemma FoldRule(rows: Rows, from: Subject, into: Subject, rows': Rows, scope: Scope)
    requires Folded(rows, from, into, rows')
    ensures var mine, theirs, left := At(rows, into, scope), At(rows, from, scope), At(rows', into, scope);
            && (IsNative(mine) ==> left == mine)
            && (!IsNative(mine) && IsNative(theirs) ==> left == theirs)
            && (mine.None? ==> left == theirs)
            && (theirs.None? ==> left == mine)
            && (IsImport(mine) && IsImport(theirs) ==>
                  left == if Above(theirs.value.role, mine.value.role) then theirs else mine)
  {
    var mine, theirs := At(rows, into, scope), At(rows, from, scope);
    if IsImport(mine) && IsImport(theirs) {
      RanksOrder(theirs.value.role, mine.value.role);
    }
  }

  lemma RanksOrder(a: Option<Role>, b: Option<Role>)
    ensures Rank(a) > Rank(b) <==> Above(a, b)
  {
  }

  /** Folding two imports loses nothing that either allowed, and allows nothing that neither did. */
  lemma FoldKeepsCapabilities(rows: Rows, from: Subject, into: Subject, rows': Rows, scope: Scope, c: Capability)
    requires Folded(rows, from, into, rows') && !IsNative(At(rows, into, scope)) && !IsNative(At(rows, from, scope))
    ensures RowAllows(At(rows', into, scope), c) <==>
            RowAllows(At(rows, into, scope), c) || RowAllows(At(rows, from, scope), c)
  {
    FoldRule(rows, from, into, rows', scope);
  }
}
