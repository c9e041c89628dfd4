/**
 Principals and the provider accounts pinned to them: sign-in, import, link (with merge)
 and unlink, and what they keep together.
 */
module Identities {
  import opened Options
  import opened Decimals

  datatype PrincipalId = PrincipalId(id: string)
  datatype Provider = Provider(name: string)
  datatype Account = Account(provider: Provider, externalId: string)

  datatype Principal = Principal(mergedInto: Option<PrincipalId>, claimed: bool)

  type Principals = map<PrincipalId, Principal>
  type Holders = map<Account, PrincipalId>
  type Passkeys = map<nat, PrincipalId>

  /** The tables `principals`, `principal_identities` and `passkeys`. */
  datatype Directory = Directory(principals: Principals, holders: Holders, passkeys: Passkeys)

  // -------------------------------------------------------------------- the invariants

  predicate Live(ps: Principals, p: PrincipalId) {
    p in ps && ps[p].mergedInto.None?
  }

  /** An account's holder exists and is not merged: a merged Principal holds none. */
  ghost predicate HoldersLive(ps: Principals, hs: Holders) {
    forall a :: a in hs ==> Live(ps, hs[a])
  }

  /** A Principal has at most one account per provider. */
  ghost predicate OnePerProvider(hs: Holders) {
    forall a, b :: a in hs && b in hs && hs[a] == hs[b] && a.provider == b.provider ==> a == b
  }

  ghost predicate Holds(hs: Holders, p: PrincipalId) {
    exists a :: a in hs && hs[a] == p
  }

  /** Nobody is locked out: an unmerged Principal keeps an account to sign in with. */
  ghost predicate NoLockout(ps: Principals, hs: Holders) {
    forall p :: Live(ps, p) ==> Holds(hs, p)
  }

  /** Merge pointers are one level deep. */
  ghost predicate OneLevel(ps: Principals) {
    forall p :: p in ps && ps[p].mergedInto.Some? ==> Live(ps, ps[p].mergedInto.value)
  }

  ghost predicate Valid(d: Directory) {
    && HoldersLive(d.principals, d.holders) && OnePerProvider(d.holders)
    && NoLockout(d.principals, d.holders) && OneLevel(d.principals)
  }

  // ------------------------------------------------------------------------- link

  function HeldBy(hs: Holders, p: PrincipalId): set<Account> {
    set a | a in hs && hs[a] == p
  }

  /** `merge_principal`: `from`, and whatever was folded into it, now points at `into`. */
  function Repointed(ps: Principals, from: PrincipalId, into: PrincipalId): Principals {
    map p | p in ps :: if p == from || ps[p].mergedInto == Some(from) then ps[p].(mergedInto := Some(into)) else ps[p]
  }

  function MovedKeys(keys: Passkeys, from: PrincipalId): set<nat> {
    set k | k in keys && keys[k] == from
  }

  function Rehomed(keys: Passkeys, from: PrincipalId, into: PrincipalId): Passkeys {
    map k | k in keys :: if keys[k] == from then into else keys[k]
  }

  datatype LinkOutcome =
    | AlreadyLinked
    | OwnAccountInTheWay              // the Principal already has an account of this provider
    | HolderHasOthers                 // the account's holder signs in another way too
    | NoSuchPrincipal                 // foreign key
    | PasskeysWouldMove(from: PrincipalId, count: nat)
    | Attached
    | Merged(from: PrincipalId, moved: set<nat>)

  function LinkDecision(d: Directory, p: PrincipalId, a: Account, movePasskeys: bool): LinkOutcome {
    if a in d.holders && d.holders[a] == p then AlreadyLinked
    else if exists b :: b in d.holders && d.holders[b] == p && b.provider == a.provider then OwnAccountInTheWay
    else if a !in d.holders then if p in d.principals then Attached else NoSuchPrincipal
    else
      var from := d.holders[a];
      if |HeldBy(d.holders, from)| > 1 then HolderHasOthers
      else if p !in d.principals then NoSuchPrincipal
      else if MovedKeys(d.passkeys, from) != {} && !movePasskeys
           then PasskeysWouldMove(from, |MovedKeys(d.passkeys, from)|)
      else Merged(from, MovedKeys(d.passkeys, from))
  }

  function AfterLink(d: Directory, p: PrincipalId, a: Account, movePasskeys: bool): Directory {
    match LinkDecision(d, p, a, movePasskeys)
    case Attached => d.(holders := d.holders[a := p])
    case Merged(from, _) =>
      Directory(Repointed(d.principals, from, p), d.holders[a := p], Rehomed(d.passkeys, from, p))
    case _ => d
  }

  lemma OnlyAccount(hs: Holders, a: Account)
    requires a in hs && |HeldBy(hs, hs[a])| <= 1
    ensures forall b :: b in hs && hs[b] == hs[a] ==> b == a
  {
    var held := HeldBy(hs, hs[a]);
    var rest := held - {a};
    assert a in held && |rest| == |held| - 1;
    assert forall b :: b in hs && hs[b] == hs[a] && b != a ==> b in rest;
  }

  lemma HoldersAfterAttach(hs: Holders, a: Account, p: PrincipalId)
    requires OnePerProvider(hs) && forall b :: b in hs && hs[b] == p ==> b.provider != a.provider
    ensures OnePerProvider(hs[a := p])
  {
  }

  lemma AttachKeeps(d: Directory, p: PrincipalId, a: Account)
    requires Valid(d) && a !in d.holders && Live(d.principals, p)
    requires forall b :: b in d.holders && d.holders[b] == p ==> b.provider != a.provider
    ensures Valid(d.(holders := d.holders[a := p]))
  {
    var hs := d.holders[a := p];
    HoldersAfterAttach(d.holders, a, p);
    forall q | Live(d.principals, q) ensures Holds(hs, q) {
      var b :| b in d.holders && d.holders[b] == q;
      assert b in hs && hs[b] == q;
    }
  }

  lemma MergeKeeps(d: Directory, p: PrincipalId, a: Account)
    requires Valid(d) && a in d.holders && Live(d.principals, p) && d.holders[a] != p
    requires |HeldBy(d.holders, d.holders[a])| <= 1
    requires forall b :: b in d.holders && d.holders[b] == p ==> b.provider != a.provider
    ensures Valid(d.(principals := Repointed(d.principals, d.holders[a], p), holders := d.holders[a := p]))
  {
    var from, hs := d.holders[a], d.holders[a := p];
    var ps := Repointed(d.principals, from, p);
    OnlyAccount(d.holders, a);
    HoldersAfterAttach(d.holders, a, p);
    assert forall q :: Live(ps, q) <==> Live(d.principals, q) && q != from;
    forall q | Live(ps, q) ensures Holds(hs, q) {
      var b :| b in d.holders && d.holders[b] == q;
      assert b != a && hs[b] == q;
    }
  }

  /** The account is free, or its holder has no other and no passkey would have to move. */
  predicate Takeable(d: Directory, a: Account, movePasskeys: bool) {
    a in d.holders ==>
      && |HeldBy(d.holders, d.holders[a])| == 1
      && (movePasskeys || MovedKeys(d.passkeys, d.holders[a]) == {})
  }

  lemma HeldByHolder(hs: Holders, a: Account)
    requires a in hs
    ensures |HeldBy(hs, hs[a])| >= 1
  {
    assert a in HeldBy(hs, hs[a]);
  }

  /** Link keeps the invariants, unless the Principal is merged and the account can be taken: a link for a merged
      Principal breaks them exactly when the account is free, or its holder has only it and no passkey is in the way. */
  lemma LinkKeepsIff(d: Directory, p: PrincipalId, a: Account, movePasskeys: bool)
    requires Valid(d)
    ensures Valid(AfterLink(d, p, a, movePasskeys)) <==>
            !(p in d.principals && d.principals[p].mergedInto.Some? && Takeable(d, a, movePasskeys))
  {
    var outcome, d' := LinkDecision(d, p, a, movePasskeys), AfterLink(d, p, a, movePasskeys);
    if a in d.holders {
      HeldByHolder(d.holders, a);
    }
    if outcome.Attached? || outcome.Merged? {
      if Live(d.principals, p) {
        if outcome.Attached? {
          AttachKeeps(d, p, a);
        } else {
          MergeKeeps(d, p, a);
        }
      } else {
        assert d'.holders[a] == p && !Live(d'.principals, p);
      }
    }
  }

  lemma RepointedAliases(ps: Principals, from: PrincipalId, into: PrincipalId)
    requires from != into && from in ps
    ensures PointingAt(Repointed(ps, from, into), {into}) == PointingAt(ps, {into, from}) + {from}
  {
  }

  /** A merge hands everything on: the passkeys it reports are exactly `from`'s and are the survivor's now,
      only with leave to move them; and `from` with all its aliases are aliases of the survivor. */
  lemma MergeHandsOn(d: Directory, p: PrincipalId, a: Account, movePasskeys: bool)
    requires LinkDecision(d, p, a, movePasskeys).Merged? && d.holders[a] in d.principals
    ensures var outcome, d' := LinkDecision(d, p, a, movePasskeys), AfterLink(d, p, a, movePasskeys);
            && outcome.from == d.holders[a] && (outcome.moved != {} ==> movePasskeys)
            && (forall k :: k in outcome.moved <==> k in d.passkeys && d.passkeys[k] == d.holders[a])
            && d'.passkeys.Keys == d.passkeys.Keys
            && (forall k :: k in d.passkeys ==>
                  d'.passkeys[k] == if d.passkeys[k] == d.holders[a] then p else d.passkeys[k])
            && PointingAt(d'.principals, {p}) == PointingAt(d.principals, {p, outcome.from}) + {outcome.from}
  {
    RepointedAliases(d.principals, d.holders[a], p);
  }

  // ------------------------------------------------------------------------ unlink

  datatype UnlinkOutcome = NotLinked | OnlyWayIn | Unlinked

  function UnlinkDecision(hs: Holders, p: PrincipalId, provider: Provider): UnlinkOutcome {
    if forall a :: a in hs && hs[a] == p ==> a.provider != provider then NotLinked
    else if |HeldBy(hs, p)| == 1 then OnlyWayIn
    else Unlinked
  }

  function Without(hs: Holders, p: PrincipalId, provider: Provider): Holders {
    map a | a in hs && !(hs[a] == p && a.provider == provider) :: hs[a]
  }

  function AfterUnlink(d: Directory, p: PrincipalId, provider: Provider): Directory {
    if UnlinkDecision(d.holders, p, provider).Unlinked?
    then d.(holders := Without(d.holders, p, provider)) else d
  }

  lemma UnlinkKeeps(d: Directory, p: PrincipalId, provider: Provider)
    requires Valid(d)
    ensures Valid(AfterUnlink(d, p, provider))
  {
    var hs := Without(d.holders, p, provider);
    if UnlinkDecision(d.holders, p, provider).Unlinked? {
      var a :| a in d.holders && d.holders[a] == p && a.provider == provider;
      var held := HeldBy(d.holders, p);
      var rest := held - {a};
      assert a in held && |rest| == |held| - 1;
      var other :| other in rest;
      assert other in hs && hs[other] == p;
      forall q | Live(d.principals, q) ensures Holds(hs, q) {
        var b :| b in d.holders && d.holders[b] == q;
        assert q != p ==> b in hs && hs[b] == q;
      }
    }
  }

  /** Unlink removes exactly that one account, never the last. */
  lemma UnlinkRemovesOne(d: Directory, p: PrincipalId, provider: Provider)
    requires Valid(d) && UnlinkDecision(d.holders, p, provider).Unlinked?
    ensures exists a :: a in d.holders && a.provider == provider && d.holders[a] == p
                        && AfterUnlink(d, p, provider).holders == d.holders - {a}
    ensures Holds(AfterUnlink(d, p, provider).holders, p)
  {
    var a :| a in d.holders && d.holders[a] == p && a.provider == provider;
    assert AfterUnlink(d, p, provider).holders == d.holders - {a};
    UnlinkKeeps(d, p, provider);
  }

  // ----------------------------------------------------------------- sign-in and import

  const MaxSuffix: nat := 10_000

  /** The n-th id to try for a new Principal: the base itself, then `~2`, `~3` and so on. */
  function Candidate(base: string, n: nat): PrincipalId {
    PrincipalId(if n <= 1 then base else base + "~" + Decimal(n))
  }

  /** `n` is the first suffix whose id is free. */
  ghost predicate FirstFree(ps: Principals, base: string, n: nat) {
    1 <= n <= MaxSuffix && Candidate(base, n) !in ps && forall m :: 1 <= m < n ==> Candidate(base, m) in ps
  }

  ghost predicate Exhausted(ps: Principals, base: string) {
    forall m :: 1 <= m <= MaxSuffix ==> Candidate(base, m) in ps
  }

  function Minted(d: Directory, a: Account, id: PrincipalId, claim: bool): Directory {
    d.(principals := d.principals[id := Principal(None, claim)], holders := d.holders[a := id])
  }

  function Claimed(d: Directory, id: PrincipalId, claim: bool): Directory {
    if claim && id in d.principals
    then d.(principals := d.principals[id := d.principals[id].(claimed := true)]) else d
  }

  lemma MintKeeps(d: Directory, a: Account, id: PrincipalId, claim: bool)
    requires Valid(d) && a !in d.holders && id !in d.principals
    ensures Valid(Minted(d, a, id, claim))
  {
    var d' := Minted(d, a, id, claim);
    forall q | Live(d'.principals, q) ensures Holds(d'.holders, q) {
      if q == id {
        assert d'.holders[a] == id;
      } else {
        assert Live(d.principals, q);
        var b :| b in d.holders && d.holders[b] == q;
        assert d'.holders[b] == q;
      }
    }
  }

  lemma ClaimKeeps(d: Directory, id: PrincipalId, claim: bool)
    requires Valid(d)
    ensures Valid(Claimed(d, id, claim))
  {
    assert forall q :: Live(Claimed(d, id, claim).principals, q) <==> Live(d.principals, q);
  }

  // ------------------------------------------------------------------------ whole runs

  datatype Op =
    | Pin(account: Account, base: string, claim: bool)
    | Link(p: PrincipalId, account: Account, movePasskeys: bool)
    | Unlink(p: PrincipalId, provider: Provider)
    | Enrol(key: nat, p: PrincipalId)

  /** Callers link only for the signed-in, unmerged Principal. */
  predicate Allowed(d: Directory, op: Op) {
    op.Link? ==> Live(d.principals, op.p)
  }

  /** One call from start to end. */
  ghost predicate Step(d: Directory, op: Op, d': Directory) {
    match op
    case Pin(a, base, claim) =>
      if a in d.holders then d' == Claimed(d, d.holders[a], claim)
      else if Exhausted(d.principals, base) then d' == d
      else exists n :: FirstFree(d.principals, base, n) && d' == Minted(d, a, Candidate(base, n), claim)
    case Link(p, a, movePasskeys) => d' == AfterLink(d, p, a, movePasskeys)
    case Unlink(p, provider) => d' == AfterUnlink(d, p, provider)
    case Enrol(key, p) => d' == if key in d.passkeys then d else d.(passkeys := d.passkeys[key := p])
  }

  lemma StepKeeps(d: Directory, op: Op, d': Directory)
    requires Valid(d) && Allowed(d, op) && Step(d, op, d')
    ensures Valid(d')
  {
    match op
    case Pin(a, base, claim) =>
      if a in d.holders {
        ClaimKeeps(d, d.holders[a], claim);
      } else if !Exhausted(d.principals, base) {
        var n :| FirstFree(d.principals, base, n) && d' == Minted(d, a, Candidate(base, n), claim);
        MintKeeps(d, a, Candidate(base, n), claim);
      }
    case Link(p, a, movePasskeys) => LinkKeepsIff(d, p, a, movePasskeys);
    case Unlink(p, provider) => UnlinkKeeps(d, p, provider);
    case Enrol(key, p) =>
  }

  ghost predicate IsRun(trace: seq<Directory>, ops: seq<Op>) {
    && |trace| == |ops| + 1
    && forall i :: 0 <= i < |ops| ==> Allowed(trace[i], ops[i]) && Step(trace[i], ops[i], trace[i + 1])
  }

  /** Ownership, no lockout and one-level merging hold in every state of every run. */
  lemma {:induction false} RunKeeps(trace: seq<Directory>, ops: seq<Op>, i: nat)
    requires IsRun(trace, ops) && Valid(trace[0]) && i < |trace|
    ensures Valid(trace[i])
  {
    if i > 0 {
      RunKeeps(trace, ops, i - 1);
      StepKeeps(trace[i - 1], ops[i - 1], trace[i]);
    }
  }

  lemma EmptyIsValid()
    ensures Valid(Directory(map[], map[], map[]))
  {
  }

  /** An account changes hands only when its holder's last account is linked elsewhere, which merges that
      holder, and goes only when its own holder unlinks it. */
  lemma AccountMoves(d: Directory, op: Op, d': Directory, a: Account)
    requires Valid(d) && Allowed(d, op) && Step(d, op, d') && a in d.holders
    ensures a !in d'.holders ==> op == Unlink(d.holders[a], a.provider) && Holds(d'.holders, d.holders[a])
    ensures a in d'.holders && d'.holders[a] != d.holders[a] ==>
              && op.Link? && op.account == a && d'.holders[a] == op.p
              && HeldBy(d.holders, d.holders[a]) == {a}
              && d'.principals[d.holders[a]].mergedInto == Some(op.p)
  {
    if op.Link? && LinkDecision(d, op.p, op.account, op.movePasskeys).Merged? {
      OnlyAccount(d.holders, op.account);
      assert a == op.account ==> HeldBy(d.holders, d.holders[a]) == {a};
    } else if op.Unlink? {
      UnlinkKeeps(d, op.p, op.provider);
    }
  }

  /** A new account never lands on a Principal that already exists, except by link. */
  lemma NewAccountIsFresh(d: Directory, op: Op, d': Directory, a: Account)
    requires Valid(d) && Step(d, op, d') && a !in d.holders && a in d'.holders
    ensures op.Link? || d'.holders[a] !in d.principals
  {
  }

  /** A sign-in claims its Principal, and nothing else does; a claimed Principal stays claimed. */
  lemma ClaimedBySignIn(d: Directory, op: Op, d': Directory, p: PrincipalId)
    requires Valid(d) && Step(d, op, d') && p in d'.principals
    ensures p !in d.principals ==>
              op.Pin? && d'.principals[p] == Principal(None, op.claim) && d'.holders[op.account] == p
    ensures p in d.principals ==>
              (d'.principals[p].claimed <==>
                || d.principals[p].claimed
                || (op.Pin? && op.claim && op.account in d.holders && d.holders[op.account] == p))
  {
  }

  /** Merging is for good, and a folded id keeps naming a live Principal. */
  lemma {:induction false} MergedStaysMerged(trace: seq<Directory>, ops: seq<Op>, i: nat, j: nat, p: PrincipalId)
    requires IsRun(trace, ops) && Valid(trace[0]) && i <= j < |trace|
    requires p in trace[i].principals && trace[i].principals[p].mergedInto.Some?
    ensures p in trace[j].principals && trace[j].principals[p].mergedInto.Some?
            && Live(trace[j].principals, trace[j].principals[p].mergedInto.value)
    decreases j
  {
    RunKeeps(trace, ops, j);
    if i < j {
      MergedStaysMerged(trace, ops, i, j - 1, p);
      RunKeeps(trace, ops, j - 1);
      StaysMerged(trace[j - 1], ops[j - 1], trace[j], p);
    }
  }

  lemma StaysMerged(d: Directory, op: Op, d': Directory, p: PrincipalId)
    requires Valid(d) && Step(d, op, d') && p in d.principals && d.principals[p].mergedInto.Some?
    ensures p in d'.principals && d'.principals[p].mergedInto.Some?
  {
  }

  // ------------------------------------------------- a link for a Principal that was merged

  /** The tables once `x` has signed in as `p`, then `y` as `q`. */
  function SignedIn(x: Account, p: PrincipalId, y: Account, q: PrincipalId): Directory {
    Minted(Minted(Directory(map[], map[], map[]), x, p, true), y, q, true)
  }

  lemma SignsIn(d: Directory, a: Account, base: string)
    requires a !in d.holders && PrincipalId(base) !in d.principals
    ensures Step(d, Pin(a, base, true), Minted(d, a, PrincipalId(base), true))
  {
    assert FirstFree(d.principals, base, 1) && Candidate(base, 1) == PrincipalId(base);
    assert !Exhausted(d.principals, base);
  }

  lemma SecondMerges(x: Account, p: PrincipalId, y: Account, q: PrincipalId)
    requires p != q && x.provider != y.provider
    ensures var d := SignedIn(x, p, y, q);
            && LinkDecision(d, p, y, false).Merged? && Live(d.principals, p)
            && AfterLink(d, p, y, false).principals[q].mergedInto == Some(p)
            && AfterLink(d, p, y, false).holders == map[x := p, y := p]
  {
    var d := SignedIn(x, p, y, q);
    assert HeldBy(d.holders, q) == {y};
    assert MovedKeys(d.passkeys, q) == {};
  }

  lemma SignedInSteps(x: Account, baseX: string, y: Account, baseY: string)
    requires x.provider != y.provider && baseX != baseY
    ensures var p, q, d := PrincipalId(baseX), PrincipalId(baseY), Directory(map[], map[], map[]);
            && Step(d, Pin(x, baseX, true), Minted(d, x, p, true)) && Valid(d) && Valid(Minted(d, x, p, true))
            && Step(Minted(d, x, p, true), Pin(y, baseY, true), SignedIn(x, p, y, q)) && Valid(SignedIn(x, p, y, q))
  {
    var p, q, d := PrincipalId(baseX), PrincipalId(baseY), Directory(map[], map[], map[]);
    EmptyIsValid();
    SignsIn(d, x, baseX);
    SignsIn(Minted(d, x, p, true), y, baseY);
    MintKeeps(d, x, p, true);
    MintKeeps(Minted(d, x, p, true), y, q, true);
  }

  lemma MergedLinks(x: Account, p: PrincipalId, y: Account, q: PrincipalId, z: Account)
    requires x.provider != y.provider && p != q && z != x && z != y && Valid(SignedIn(x, p, y, q))
    ensures var d := AfterLink(SignedIn(x, p, y, q), p, y, false);
            Live(SignedIn(x, p, y, q).principals, p) && Valid(d) && !Valid(AfterLink(d, q, z, false))
  {
    SecondMerges(x, p, y, q);
    LinkKeepsIff(SignedIn(x, p, y, q), p, y, false);
    LinkKeepsIff(AfterLink(SignedIn(x, p, y, q), p, y, false), q, z, false);
  }

  /** The code can receive it: two people sign in, the first links the second's only account, and a session of the
      second, now merged, links a free account.  Every call but the last is for an unmerged Principal. */
  lemma MergedLinkBreaks(x: Account, y: Account, z: Account, baseX: string, baseY: string)
    returns (d0: Directory, d1: Directory, d2: Directory, d3: Directory, d4: Directory)
    requires x.provider != y.provider && z != x && z != y && baseX != baseY
    ensures d0 == Directory(map[], map[], map[]) && Valid(d0)
    ensures Step(d0, Pin(x, baseX, true), d1) && Valid(d1)
    ensures Step(d1, Pin(y, baseY, true), d2) && Valid(d2)
    ensures Step(d2, Link(PrincipalId(baseX), y, false), d3) && Live(d2.principals, PrincipalId(baseX)) && Valid(d3)
    ensures Step(d3, Link(PrincipalId(baseY), z, false), d4) && !Valid(d4)
  {
    var p, q := PrincipalId(baseX), PrincipalId(baseY);
    d0 := Directory(map[], map[], map[]);
    d1, d2 := Minted(d0, x, p, true), SignedIn(x, p, y, q);
    d3 := AfterLink(d2, p, y, false);
    d4 := AfterLink(d3, q, z, false);
    SignedInSteps(x, baseX, y, baseY);
    MergedLinks(x, p, y, q, z);
  }

  // --------------------------------------------------------------------------- aliases

  ghost predicate IsChain(ps: Principals, chain: seq<PrincipalId>) {
    && |chain| > 1
    && forall i :: 0 <= i < |chain| - 1 ==> chain[i] in ps && ps[chain[i]].mergedInto == Some(chain[i + 1])
  }

  /** `p` is folded into `id`, through any number of merges. */
  ghost predicate FoldsInto(ps: Principals, p: PrincipalId, id: PrincipalId) {
    exists chain :: IsChain(ps, chain) && chain[0] == p && chain[|chain| - 1] == id
  }

  function PointingAt(ps: Principals, ids: set<PrincipalId>): set<PrincipalId> {
    set p | p in ps && ps[p].mergedInto.Some? && ps[p].mergedInto.value in ids
  }

  /** `aliases_of`: the recursive query, one round at a time. */
  method AliasesOf(ps: Principals, id: PrincipalId) returns (aliases: set<PrincipalId>)
    ensures forall p :: p in aliases <==> FoldsInto(ps, p, id)
  {
    aliases := PointingAt(ps, {id});
    var latest := aliases;
    DirectFolds(ps, id);
    while latest != {}
      invariant latest <= aliases <= ps.Keys && PointingAt(ps, {id}) <= aliases
      invariant forall p :: p in aliases ==> FoldsInto(ps, p, id)
      invariant PointingAt(ps, aliases - latest) <= aliases
      decreases ps.Keys - aliases, latest
    {
      var next := PointingAt(ps, latest) - aliases;
      forall p | p in next ensures FoldsInto(ps, p, id) {
        FoldsOnward(ps, p, ps[p].mergedInto.value, id);
      }
      assert forall p :: p in PointingAt(ps, aliases) ==> p in aliases || p in next;
      assert next == {} || exists p :: p in next && p in ps.Keys - aliases;
      latest, aliases := next, aliases + next;
    }
    assert aliases - latest == aliases;
    forall p | FoldsInto(ps, p, id) ensures p in aliases {
      var chain :| IsChain(ps, chain) && chain[0] == p && chain[|chain| - 1] == id;
      ChainIsFound(ps, chain, aliases);
    }
  }

  lemma DirectFolds(ps: Principals, id: PrincipalId)
    ensures forall p :: p in PointingAt(ps, {id}) ==> FoldsInto(ps, p, id)
  {
    forall p | p in PointingAt(ps, {id}) ensures FoldsInto(ps, p, id) {
      assert IsChain(ps, [p, id]);
    }
  }

  lemma FoldsOnward(ps: Principals, p: PrincipalId, q: PrincipalId, id: PrincipalId)
    requires p in ps && ps[p].mergedInto == Some(q) && FoldsInto(ps, q, id)
    ensures FoldsInto(ps, p, id)
  {
    var chain :| IsChain(ps, chain) && chain[0] == q && chain[|chain| - 1] == id;
    assert IsChain(ps, [p] + chain);
  }

  lemma {:induction false} ChainIsFound(ps: Principals, chain: seq<PrincipalId>, aliases: set<PrincipalId>)
    requires IsChain(ps, chain) && PointingAt(ps, {chain[|chain| - 1]}) <= aliases && PointingAt(ps, aliases) <= aliases
    ensures chain[0] in aliases
    decreases |chain|
  {
    if |chain| > 2 {
      ChainIsFound(ps, chain[1..], aliases);
      assert chain[0] in PointingAt(ps, aliases);
    } else {
      assert chain[0] in PointingAt(ps, {chain[|chain| - 1]});
    }
  }

  lemma ChainStartsMerged(ps: Principals, chain: seq<PrincipalId>)
    requires IsChain(ps, chain)
    ensures chain[0] in ps && ps[chain[0]].mergedInto == Some(chain[1])
  {
  }

  lemma ChainIsShort(ps: Principals, chain: seq<PrincipalId>)
    requires OneLevel(ps) && IsChain(ps, chain)
    ensures |chain| == 2
  {
    ChainStartsMerged(ps, chain);
    if |chain| > 2 {
      ChainStartsMerged(ps, chain[1..]);
    }
  }

  /** With one-level pointers the recursive query is the direct preimage. */
  lemma AliasesAreDirect(d: Directory, p: PrincipalId, id: PrincipalId)
    requires Valid(d)
    ensures FoldsInto(d.principals, p, id) <==> p in d.principals && d.principals[p].mergedInto == Some(id)
  {
    DirectFolds(d.principals, id);
    if FoldsInto(d.principals, p, id) {
      var chain :| IsChain(d.principals, chain) && chain[0] == p && chain[|chain| - 1] == id;
      ChainIsShort(d.principals, chain);
    } else {
      assert p in d.principals && d.principals[p].mergedInto == Some(id) ==> p in PointingAt(d.principals, {id});
    }
  }

  // ------------------------------------------------------------------------ the store

  datatype Pinned = PinnedTo(id: PrincipalId) | NoFreeId | NotPinned

  /** Other callers' complete calls, in order. */
  ghost predicate Others(d: Directory, ops: seq<Op>, d': Directory)
    decreases |ops|
  {
    if ops == [] then d' == d
    else exists mid :: Allowed(d, ops[0]) && Step(d, ops[0], mid) && Others(mid, ops[1..], d')
  }

  lemma {:induction false} OthersKeep(d: Directory, ops: seq<Op>, d': Directory)
    requires Valid(d) && Others(d, ops, d')
    ensures Valid(d')
    decreases |ops|
  {
    if ops != [] {
      var mid :| Allowed(d, ops[0]) && Step(d, ops[0], mid) && Others(mid, ops[1..], d');
      StepKeeps(d, ops[0], mid);
      OthersKeep(mid, ops[1..], d');
    }
  }

  /** What others do in the three windows of a `pin_or_mint`, after each lookup and between the passes, and the
      tables they leave. */
  ghost predicate Windows(d: Directory, later: seq<Directory>, ops: seq<seq<Op>>) {
    && |later| == 3 && |ops| == 3
    && Others(d, ops[0], later[0]) && Others(later[0], ops[1], later[1]) && Others(later[1], ops[2], later[2])
  }

  lemma WindowsKeep(d: Directory, later: seq<Directory>, ops: seq<seq<Op>>)
    requires Valid(d) && Windows(d, later, ops)
    ensures Valid(later[0]) && Valid(later[1]) && Valid(later[2])
  {
    OthersKeep(d, ops[0], later[0]);
    OthersKeep(later[0], ops[1], later[1]);
    OthersKeep(later[1], ops[2], later[2]);
  }

  class IdentityStore {
    var principals: Principals
    var holders: Holders
    var passkeys: Passkeys

    ghost function View(): Directory
      reads this
    {
      Directory(principals, holders, passkeys)
    }

    constructor ()
      ensures View() == Directory(map[], map[], map[]) && Valid(View())
    {
      principals, holders, passkeys := map[], map[], map[];
      new;
      EmptyIsValid();
    }

    /** `link`, statement by statement; a refusal after the merge rolls it back. */
    method Link(p: PrincipalId, a: Account, movePasskeys: bool) returns (outcome: LinkOutcome)
      modifies this
      ensures outcome == LinkDecision(old(View()), p, a, movePasskeys)
      ensures View() == AfterLink(old(View()), p, a, movePasskeys)
      ensures outcome.AlreadyLinked? <==> a in old(holders) && old(holders)[a] == p
      ensures outcome.OwnAccountInTheWay? <==>
                && !outcome.AlreadyLinked?
                && exists b :: b in old(holders) && old(holders)[b] == p && b.provider == a.provider
      ensures outcome.Attached? <==>
                a !in old(holders) && p in old(principals) && !outcome.OwnAccountInTheWay?
      ensures outcome.Attached? ==> holders == old(holders)[a := p] && principals == old(principals)
      ensures outcome.PasskeysWouldMove? || outcome.Merged? <==>
                && a in old(holders) && |HeldBy(old(holders), old(holders)[a])| == 1 && p in old(principals)
                && !outcome.AlreadyLinked? && !outcome.OwnAccountInTheWay?
      ensures outcome.HolderHasOthers? <==>
                && a in old(holders) && |HeldBy(old(holders), old(holders)[a])| > 1
                && !outcome.AlreadyLinked? && !outcome.OwnAccountInTheWay?
      ensures outcome.PasskeysWouldMove? ==>
                && !movePasskeys && outcome.from == old(holders)[a] && outcome.count > 0
                && outcome.count == |set k | k in old(passkeys) && old(passkeys)[k] == old(holders)[a]|
      ensures outcome.Merged? ==>
                movePasskeys || forall k :: k in old(passkeys) ==> old(passkeys)[k] != old(holders)[a]
      ensures outcome.Merged? ==> holders == old(holders)[a := p] && principals.Keys == old(principals).Keys
      ensures !outcome.Attached? && !outcome.Merged? ==> View() == old(View())
    {
      if a in holders {
        HeldByHolder(holders, a);
      }
      if a in holders && holders[a] == p {
        return AlreadyLinked;
      }
      if exists b :: b in holders && holders[b] == p && b.provider == a.provider {
        return OwnAccountInTheWay;
      }
      if a !in holders {
        if p !in principals {
          return NoSuchPrincipal;
        }
        holders := holders[a := p];
        return Attached;
      }
      var from := holders[a];
      if |HeldBy(holders, from)| > 1 {
        return HolderHasOthers;
      }
      if p !in principals {
        return NoSuchPrincipal;
      }
      var begun := (principals, passkeys);
      var moved := MovedKeys(passkeys, from);
      assert moved == set k | k in old(passkeys) && old(passkeys)[k] == old(holders)[a];
      assert forall k :: k in old(passkeys) && old(passkeys)[k] == old(holders)[a] ==> k in moved;
      passkeys := Rehomed(passkeys, from, p);
      principals := Repointed(principals, from, p);
      if moved != {} && !movePasskeys {
        principals, passkeys := begun.0, begun.1;
        return PasskeysWouldMove(from, |moved|);
      }
      holders := holders[a := p];
      return Merged(from, moved);
    }

    method Unlink(p: PrincipalId, provider: Provider) returns (outcome: UnlinkOutcome)
      modifies this`holders
      ensures outcome == UnlinkDecision(old(holders), p, provider)
      ensures outcome.NotLinked? <==> forall a :: a in old(holders) && old(holders)[a] == p ==> a.provider != provider
      ensures outcome.OnlyWayIn? <==> !outcome.NotLinked? && |HeldBy(old(holders), p)| == 1
      ensures outcome.Unlinked? ==>
                forall a :: a in holders <==> a in old(holders) && !(old(holders)[a] == p && a.provider == provider)
      ensures View() == AfterUnlink(old(View()), p, provider)
    {
      var held := HeldBy(holders, p);
      if forall a :: a in held ==> a.provider != provider {
        return NotLinked;
      }
      if |held| == 1 {
        return OnlyWayIn;
      }
      holders := Without(holders, p, provider);
      return Unlinked;
    }

    /** The suffix search. */
    method FindFree(base: string) returns (n: Option<nat>)
      ensures n.None? ==> Exhausted(principals, base)
      ensures n.Some? ==> FirstFree(principals, base, n.value)
    {
      for m := 1 to MaxSuffix + 1
        invariant forall k :: 1 <= k < m ==> Candidate(base, k) in principals
      {
        if Candidate(base, m) !in principals {
          return Some(m);
        }
      }
      return None;
    }

    method Become(d: Directory)
      modifies this
      ensures View() == d
    {
      principals, holders, passkeys := d.principals, d.holders, d.passkeys;
    }

    /** One mint transaction: rolled back when the account got pinned meanwhile. */
    method Mint(a: Account, base: string, claim: bool) returns (r: Pinned)
      requires Valid(View())
      modifies this
      ensures Valid(View())
      ensures r.NoFreeId? ==> Exhausted(old(principals), base) && View() == old(View())
      ensures r.NotPinned? ==> a in old(holders) && View() == old(View())
      ensures r.PinnedTo? ==> MintedFrom(old(View()), a, base, claim, r.id, View())
      ensures r.PinnedTo? ==> Step(old(View()), Pin(a, base, claim), View())
    {
      var n := FindFree(base);
      if n.None? {
        return NoFreeId;
      }
      if a in holders {
        return NotPinned;
      }
      var id := Candidate(base, n.value);
      MintKeeps(View(), a, id, claim);
      MintIsStep(View(), a, base, claim, id, Minted(View(), a, id, claim));
      principals := principals[id := Principal(None, claim)];
      holders := holders[a := id];
      return PinnedTo(id);
    }

    /** `pin_or_mint`: look up, then claim what was found or mint, twice at most.  Others' complete calls run after
        each lookup and between the passes. */
    method PinOrMint(a: Account, base: string, claim: bool, later: seq<Directory>, ghost ops: seq<seq<Op>>)
      returns (r: Pinned)
      requires Valid(View()) && |later| == 3 && Windows(View(), later, ops)
      modifies this
      ensures Valid(View())
      ensures r.PinnedTo? ==>
                || Found(old(View()), a, r.id, later[0], claim, View())
                || Found(later[1], a, r.id, later[2], claim, View())
                || MintedFrom(later[0], a, base, claim, r.id, View())
                || MintedFrom(later[2], a, base, claim, r.id, View())
      ensures r.NoFreeId? ==> NoneFree(later[0], base, View()) || NoneFree(later[2], base, View())
      ensures r.NotPinned? ==>
                a !in old(holders) && a in later[0].holders && a !in later[1].holders && a in later[2].holders
    {
      WindowsKeep(View(), later, ops);
      r := NotPinned;
      for pass := 0 to 2
        invariant pass == 0 ==> View() == old(View())
        invariant r == NotPinned && Valid(View())
        invariant pass == 1 ==> View() == later[0]
        invariant pass > 0 ==> a !in old(holders) && a in later[0].holders
        invariant pass > 1 ==> a !in later[1].holders && a in later[2].holders
      {
        if pass == 1 {
          Become(later[1]);
        }
        r := Pass(a, base, claim, if pass == 0 then later[0] else later[2]);
        if !r.NotPinned? {
          return;
        }
      }
    }

    /** One pass; `meanwhile` is what others left between its lookup and what follows it. */
    method Pass(a: Account, base: string, claim: bool, meanwhile: Directory) returns (r: Pinned)
      requires Valid(View()) && Valid(meanwhile)
      modifies this
      ensures Valid(View())
      ensures r.PinnedTo? ==>
                || Found(old(View()), a, r.id, meanwhile, claim, View())
                || MintedFrom(meanwhile, a, base, claim, r.id, View())
      ensures r.NoFreeId? ==> NoneFree(meanwhile, base, View())
      ensures r.NotPinned? ==> a !in old(holders) && a in meanwhile.holders && View() == meanwhile
    {
      var pinned := if a in holders then Some(holders[a]) else None;
      Become(meanwhile);
      if pinned.None? {
        r := Mint(a, base, claim);
        return;
      }
      var id := pinned.value;
      ClaimKeeps(View(), id, claim);
      if claim && id in principals {
        principals := principals[id := principals[id].(claimed := true)];
      }
      return PinnedTo(id);
    }
  }

  /** The account was found pinned to `id`, and `id` was marked claimed in the tables others left meanwhile. */
  ghost predicate Found(d: Directory, a: Account, id: PrincipalId, meanwhile: Directory, claim: bool, d': Directory) {
    && a in d.holders && d.holders[a] == id
    && d'.holders == meanwhile.holders && d'.passkeys == meanwhile.passkeys
    && d'.principals == (
         if claim && id in meanwhile.principals
         then meanwhile.principals[id := Principal(meanwhile.principals[id].mergedInto, true)]
         else meanwhile.principals)
  }

  /** The account was new, and went to a Principal minted for it. */
  ghost predicate MintedFrom(d: Directory, a: Account, base: string, claim: bool, id: PrincipalId, d': Directory) {
    && a !in d.holders && id !in d.principals
    && d' == Directory(d.principals[id := Principal(None, claim)], d.holders[a := id], d.passkeys)
    && exists n :: FirstFree(d.principals, base, n) && id == Candidate(base, n)
  }

  ghost predicate NoneFree(d: Directory, base: string, d': Directory) {
    Exhausted(d.principals, base) && d' == d
  }

  ghost predicate Pins(d: Directory, a: Account, id: PrincipalId) {
    a in d.holders && d.holders[a] == id
  }

  /** A call that found or minted `id` returns with the account pinned to it, unless others moved the account
      after the lookup; then `id` is what the account was pinned to when looked up. */
  lemma PinsUnlessMoved(d: Directory, meanwhile: Directory, a: Account, base: string, claim: bool, id: PrincipalId,
      d': Directory)
    requires Found(d, a, id, meanwhile, claim, d') || MintedFrom(meanwhile, a, base, claim, id, d')
    ensures Pins(d', a, id) <==> MintedFrom(meanwhile, a, base, claim, id, d') || Pins(meanwhile, a, id)
    ensures !Pins(d', a, id) ==> Pins(d, a, id)
  {
  }

  lemma MintIsStep(d: Directory, a: Account, base: string, claim: bool, id: PrincipalId, d': Directory)
    requires MintedFrom(d, a, base, claim, id, d')
    ensures Step(d, Pin(a, base, claim), d')
  {
    var n :| FirstFree(d.principals, base, n) && id == Candidate(base, n);
    assert !Exhausted(d.principals, base);
  }
}
