/**
 Link with its merge split in two.  A link that will merge the account's holder locks the account's row and
 counts the holder's accounts; only later does it merge.  Nothing locks the holder itself, so other calls run in
 between.
 */
module IdentityRaces {
  import opened Options
  import opened Identities

  /** A link past its count: it holds the row of `account`, which `from` holds. */
  datatype Merging = Merging(p: PrincipalId, account: Account, from: PrincipalId, movePasskeys: bool)

  datatype State = State(d: Directory, merging: map<nat, Merging>)

  datatype Action =
    | Whole(op: Op)                                                              // a call that merges nobody
    | Count(c: nat, p: PrincipalId, account: Account, movePasskeys: bool)
    | Merge(c: nat)
    | Drop(c: nat)                                                               // an error or a crash

  ghost predicate RowLocked(s: State, a: Account) {
    exists c :: c in s.merging && s.merging[c].account == a
  }

  /** The call needs no row that a merging link holds; an unlink locks all its Principal's rows. */
  ghost predicate RowsFree(s: State, op: Op) {
    match op
    case Pin(a, _, _) => !RowLocked(s, a)
    case Link(_, a, _) => !RowLocked(s, a)
    case Unlink(p, _) => forall a :: a in s.d.holders && s.d.holders[a] == p ==> !RowLocked(s, a)
    case Enrol(_, _) => true
  }

  predicate WillMerge(outcome: LinkOutcome) {
    outcome.Merged? || outcome.PasskeysWouldMove?
  }

  /** The merge goes through: no unique key in the way, and no passkey. */
  predicate Goes(d: Directory, m: Merging) {
    && m.p in d.principals
    && (forall b :: b in d.holders && d.holders[b] == m.p ==> b.provider != m.account.provider)
    && (m.movePasskeys || MovedKeys(d.passkeys, m.from) == {})
  }

  function AfterMerge(d: Directory, m: Merging): Directory {
    Directory(Repointed(d.principals, m.from, m.p), d.holders[m.account := m.p], Rehomed(d.passkeys, m.from, m.p))
  }

  ghost predicate Step(s: State, action: Action, s': State) {
    match action
    case Whole(op) =>
      && RowsFree(s, op) && (op.Link? ==> !WillMerge(LinkDecision(s.d, op.p, op.account, op.movePasskeys)))
      && Identities.Step(s.d, op, s'.d) && s'.merging == s.merging
    case Count(c, p, a, movePasskeys) =>
      && c !in s.merging && !RowLocked(s, a) && WillMerge(LinkDecision(s.d, p, a, movePasskeys))
      && s' == s.(merging := s.merging[c := Merging(p, a, s.d.holders[a], movePasskeys)])
    case Merge(c) =>
      && c in s.merging
      && s' == State(if Goes(s.d, s.merging[c]) then AfterMerge(s.d, s.merging[c]) else s.d, s.merging - {c})
    case Drop(c) =>
      c in s.merging && s' == s.(merging := s.merging - {c})
  }

  /** The foreign key of an account's holder. */
  ghost predicate HoldersExist(d: Directory) {
    forall a :: a in d.holders ==> d.holders[a] in d.principals
  }

  ghost predicate IsRun(trace: seq<State>, acts: seq<Action>) {
    && |trace| == |acts| + 1 && HoldersExist(trace[0].d) && trace[0].merging == map[]
    && forall i :: 0 <= i < |acts| ==> Step(trace[i], acts[i], trace[i + 1])
  }

  /** A merging link's row is still held by the Principal it counted, and each has its own row. */
  ghost predicate LocksOk(s: State) {
    && (forall c :: c in s.merging ==>
          s.merging[c].account in s.d.holders && s.d.holders[s.merging[c].account] == s.merging[c].from
          && s.merging[c].from != s.merging[c].p)
    && (forall c, e :: c in s.merging && e in s.merging && s.merging[c].account == s.merging[e].account ==> c == e)
    && HoldersExist(s.d)
  }

  lemma WholeKeepsLocks(s: State, op: Op, s': State)
    requires LocksOk(s) && Step(s, Whole(op), s')
    ensures LocksOk(s')
  {
    forall c | c in s.merging
      ensures s.merging[c].account in s'.d.holders && s'.d.holders[s.merging[c].account] == s.merging[c].from
    {
      assert RowLocked(s, s.merging[c].account);
    }
  }

  lemma StepKeepsLocks(s: State, action: Action, s': State)
    requires LocksOk(s) && Step(s, action, s')
    ensures LocksOk(s')
  {
    if action.Whole? {
      WholeKeepsLocks(s, action.op, s');
    }
  }

  lemma {:induction false} RunLocks(trace: seq<State>, acts: seq<Action>, i: nat)
    requires IsRun(trace, acts) && i < |trace|
    ensures LocksOk(trace[i])
  {
    if i > 0 {
      RunLocks(trace, acts, i - 1);
      StepKeepsLocks(trace[i - 1], acts[i - 1], trace[i]);
    }
  }

  // ------------------------------------------------------------- exactly when it goes well

  /** An attach finds its Principal unmerged; a merge finds that too, and its holder with no other account. */
  ghost predicate Sound(s: State, action: Action) {
    match action
    case Whole(op) =>
      op.Link? && LinkDecision(s.d, op.p, op.account, op.movePasskeys).Attached? ==> Live(s.d.principals, op.p)
    case Merge(c) =>
      c in s.merging && Goes(s.d, s.merging[c]) ==>
        Live(s.d.principals, s.merging[c].p) && HeldBy(s.d.holders, s.merging[c].from) == {s.merging[c].account}
    case _ => true
  }

  lemma MergeKeepsIff(d: Directory, m: Merging)
    requires Valid(d) && Goes(d, m) && m.account in d.holders && d.holders[m.account] == m.from && m.from != m.p
    ensures Valid(AfterMerge(d, m)) <==> Live(d.principals, m.p) && HeldBy(d.holders, m.from) == {m.account}
  {
    var d' := AfterMerge(d, m);
    if Live(d.principals, m.p) && HeldBy(d.holders, m.from) == {m.account} {
      MergeKeeps(d, m.p, m.account);
    } else if !Live(d.principals, m.p) {
      assert d'.holders[m.account] == m.p && !Live(d'.principals, m.p);
    } else {
      assert m.account in HeldBy(d.holders, m.from);
      var b :| b in HeldBy(d.holders, m.from) && b != m.account;
      assert d'.holders[b] == m.from && !Live(d'.principals, m.from);
    }
  }

  lemma WholeKeepsIff(s: State, op: Op, s': State)
    requires Valid(s.d) && Step(s, Whole(op), s')
    ensures Valid(s'.d) <==> Sound(s, Whole(op))
  {
    if op.Link? {
      LinkKeepsIff(s.d, op.p, op.account, op.movePasskeys);
      if op.account in s.d.holders {
        HeldByHolder(s.d.holders, op.account);
      }
    } else {
      StepKeeps(s.d, op, s'.d);
    }
  }

  lemma StepKeepsIff(s: State, action: Action, s': State)
    requires Valid(s.d) && LocksOk(s) && Step(s, action, s')
    ensures Valid(s'.d) <==> Sound(s, action)
  {
    match action
    case Whole(op) => WholeKeepsIff(s, op, s');
    case Merge(c) =>
      if Goes(s.d, s.merging[c]) {
        MergeKeepsIff(s.d, s.merging[c]);
      }
    case _ =>
  }

  /** Under any interleaving the invariants hold throughout iff every attach and every merge is sound. */
  lemma InvariantsHoldIff(trace: seq<State>, acts: seq<Action>)
    requires IsRun(trace, acts) && Valid(trace[0].d)
    ensures (forall i :: 0 <= i < |trace| ==> Valid(trace[i].d)) <==>
        (forall i :: 0 <= i < |acts| ==> Sound(trace[i], acts[i]))
  {
    if forall i :: 0 <= i < |trace| ==> Valid(trace[i].d) {
      forall i | 0 <= i < |acts| ensures Sound(trace[i], acts[i]) {
        RunLocks(trace, acts, i);
        StepKeepsIff(trace[i], acts[i], trace[i + 1]);
        assert Valid(trace[i + 1].d);
      }
    }
    if forall i :: 0 <= i < |acts| ==> Sound(trace[i], acts[i]) {
      forall i | 0 <= i < |trace| ensures Valid(trace[i].d) {
        SoundKeeps(trace, acts, i);
      }
    }
  }

  lemma {:induction false} SoundKeeps(trace: seq<State>, acts: seq<Action>, i: nat)
    requires IsRun(trace, acts) && Valid(trace[0].d) && i < |trace|
    requires forall m :: 0 <= m < |acts| ==> Sound(trace[m], acts[m])
    ensures Valid(trace[i].d)
  {
    if i > 0 {
      SoundKeeps(trace, acts, i - 1);
      RunLocks(trace, acts, i - 1);
      StepKeepsIff(trace[i - 1], acts[i - 1], trace[i]);
    }
  }

  // -------------------------------------------------------- what happens since the count

  /** The step gives Principal `from` one more account. */
  ghost predicate Gives(s: State, action: Action, from: PrincipalId) {
    match action
    case Whole(op) => op.Link? && op.p == from && LinkDecision(s.d, op.p, op.account, op.movePasskeys).Attached?
    case Merge(c) => c in s.merging && s.merging[c].p == from && Goes(s.d, s.merging[c])
    case _ => false
  }

  /** No other link is merging the holder that link `c` counted. */
  ghost predicate OnlyMerger(s: State, c: nat) {
    c in s.merging && forall e :: e in s.merging && s.merging[e].from == s.merging[c].from ==> e == c
  }

  lemma CountedAlone(s: State, action: Action, s': State)
    requires LocksOk(s) && Step(s, action, s') && action.Count?
    ensures OnlyMerger(s', action.c) && s'.d == s.d
    ensures HeldBy(s'.d.holders, s'.merging[action.c].from) == {action.account}
  {
    var a := action.account;
    OnlyAccount(s.d.holders, a);
    assert HeldBy(s.d.holders, s.d.holders[a]) == {a};
    assert forall e :: e in s.merging ==> s.merging[e].account != a;
  }

  /** What a step means for the accounts of `from`: one more if it gives one, else the same. */
  ghost predicate HoldsOn(s: State, action: Action, s': State, from: PrincipalId) {
    var held, held' := HeldBy(s.d.holders, from), HeldBy(s'.d.holders, from);
    if Gives(s, action, from) then held < held' else held == held'
  }

  lemma WholeHolds(s: State, op: Op, s': State, c: nat)
    requires LocksOk(s) && c in s.merging && Step(s, Whole(op), s')
    ensures HoldsOn(s, Whole(op), s', s.merging[c].from)
  {
    var from := s.merging[c].from;
    assert RowLocked(s, s.merging[c].account);
    if Gives(s, Whole(op), from) {
      assert HeldBy(s'.d.holders, from) == HeldBy(s.d.holders, from) + {op.account};
      assert op.account !in HeldBy(s.d.holders, from);
    } else {
      assert HeldBy(s'.d.holders, from) == HeldBy(s.d.holders, from);
    }
  }

  lemma MergeHolds(s: State, e: nat, s': State, c: nat)
    requires LocksOk(s) && OnlyMerger(s, c) && Step(s, Merge(e), s') && e != c
    ensures HoldsOn(s, Merge(e), s', s.merging[c].from)
  {
    var from, a := s.merging[c].from, s.merging[e].account;
    if Gives(s, Merge(e), from) {
      assert HeldBy(s'.d.holders, from) == HeldBy(s.d.holders, from) + {a};
      assert a !in HeldBy(s.d.holders, from);
    } else {
      assert HeldBy(s'.d.holders, from) == HeldBy(s.d.holders, from);
    }
  }

  lemma StepHolds(s: State, action: Action, s': State, c: nat)
    requires LocksOk(s) && OnlyMerger(s, c) && Step(s, action, s') && c in s'.merging
    ensures HoldsOn(s, action, s', s.merging[c].from) && s'.merging[c] == s.merging[c]
  {
    match action
    case Whole(op) => WholeHolds(s, op, s', c);
    case Merge(e) => MergeHolds(s, e, s', c);
    case _ =>
  }

  lemma StepKeepsOnly(s: State, action: Action, s': State, c: nat)
    requires LocksOk(s) && OnlyMerger(s, c) && Step(s, action, s') && c in s'.merging
    ensures OnlyMerger(s', c)
  {
    assert RowLocked(s, s.merging[c].account);
    if action.Count? {
      OnlyAccount(s.d.holders, action.account);
    }
  }

  /** Link `c` is counted at step `i` and not yet done with at state `j`. */
  ghost predicate MergingSince(trace: seq<State>, acts: seq<Action>, i: nat, j: nat, c: nat) {
    && IsRun(trace, acts) && i < j < |trace| && acts[i].Count? && acts[i].c == c
    && forall m :: i < m <= j ==> c in trace[m].merging
  }

  /** Since the count no commit gave `from` an account. */
  ghost predicate NoneGiven(trace: seq<State>, acts: seq<Action>, i: nat, j: nat, from: PrincipalId)
    requires j < |trace| == |acts| + 1
  {
    forall m :: i < m < j ==> !Gives(trace[m], acts[m], from)
  }

  /** The link still merges, alone, and its holder has no account but the counted one iff none was given since. */
  ghost predicate CountStands(trace: seq<State>, acts: seq<Action>, i: nat, j: nat, c: nat, m: Merging)
    requires j < |trace| == |acts| + 1
  {
    && OnlyMerger(trace[j], c) && trace[j].merging[c] == m
    && m.account in HeldBy(trace[j].d.holders, m.from)
    && (HeldBy(trace[j].d.holders, m.from) == {m.account} <==> NoneGiven(trace, acts, i, j, m.from))
  }

  lemma CountStarts(trace: seq<State>, acts: seq<Action>, i: nat, c: nat)
    requires IsRun(trace, acts) && i < |acts| && acts[i].Count? && acts[i].c == c && c in trace[i + 1].merging
    ensures CountStands(trace, acts, i, i + 1, c, trace[i + 1].merging[c])
  {
    RunLocks(trace, acts, i);
    CountedAlone(trace[i], acts[i], trace[i + 1]);
  }

  lemma CountGoesOn(trace: seq<State>, acts: seq<Action>, i: nat, n: nat, c: nat, m: Merging)
    requires IsRun(trace, acts) && i < n < |acts| && CountStands(trace, acts, i, n, c, m) && c in trace[n + 1].merging
    ensures CountStands(trace, acts, i, n + 1, c, m)
  {
    HeldAt(trace, acts, n, c);
    assert NoneGiven(trace, acts, i, n + 1, m.from) <==>
           NoneGiven(trace, acts, i, n, m.from) && !Gives(trace[n], acts[n], m.from);
  }

  lemma {:induction false} HeldSince(trace: seq<State>, acts: seq<Action>, i: nat, j: nat, c: nat, m: Merging)
    requires IsRun(trace, acts) && i < j < |trace| && CountStands(trace, acts, i, i + 1, c, m)
    requires forall n :: i < n <= j ==> c in trace[n].merging
    ensures CountStands(trace, acts, i, j, c, m)
    decreases j
  {
    if i + 1 < j {
      var n := j - 1;
      HeldSince(trace, acts, i, n, c, m);
      CountGoesOn(trace, acts, i, n, c, m);
    }
  }

  lemma HeldAt(trace: seq<State>, acts: seq<Action>, m: nat, c: nat)
    requires IsRun(trace, acts) && m < |acts| && OnlyMerger(trace[m], c) && c in trace[m + 1].merging
    ensures OnlyMerger(trace[m + 1], c) && trace[m + 1].merging[c] == trace[m].merging[c]
    ensures HoldsOn(trace[m], acts[m], trace[m + 1], trace[m].merging[c].from)
  {
    RunLocks(trace, acts, m);
    StepHolds(trace[m], acts[m], trace[m + 1], c);
    StepKeepsOnly(trace[m], acts[m], trace[m + 1], c);
  }

  /** A merge that goes through is sound iff its Principal is still unmerged and no commit since its count gave
      the holder another account. */
  lemma MergeSoundIff(trace: seq<State>, acts: seq<Action>, i: nat, j: nat, c: nat)
    requires MergingSince(trace, acts, i, j, c) && j < |acts| && acts[j] == Merge(c)
        && Goes(trace[j].d, trace[j].merging[c])
    ensures var m := trace[j].merging[c];
            Sound(trace[j], acts[j]) <==>
            Live(trace[j].d.principals, m.p) && NoneGiven(trace, acts, i, j, m.from)
  {
    CountStarts(trace, acts, i, c);
    HeldSince(trace, acts, i, j, c, trace[i + 1].merging[c]);
  }

  /** What a merge leaves when it goes through, whatever has happened since its count: the account, its holder's
      passkeys and aliases go to the Principal, and passkeys only with leave. */
  lemma RacedMergeHandsOn(s: State, c: nat, s': State)
    requires LocksOk(s) && Step(s, Merge(c), s') && s'.d != s.d
    ensures var m, d, d' := s.merging[c], s.d, s'.d;
            && d'.holders == d.holders[m.account := m.p]
            && (m.movePasskeys || forall k :: k in d.passkeys ==> d.passkeys[k] != m.from)
            && d'.passkeys.Keys == d.passkeys.Keys
            && (forall k :: k in d.passkeys ==>
                  d'.passkeys[k] == if d.passkeys[k] == m.from then m.p else d.passkeys[k])
            && d'.principals.Keys == d.principals.Keys
            && (forall q :: q in d.principals ==>
                  d'.principals[q] == if q == m.from || d.principals[q].mergedInto == Some(m.from)
                                      then Principal(Some(m.p), d.principals[q].claimed) else d.principals[q])
  {
    var m := s.merging[c];
    assert forall k :: k in s.d.passkeys && s.d.passkeys[k] == m.from ==> k in MovedKeys(s.d.passkeys, m.from);
  }

  /** With nothing in between, the split link is the whole one. */
  lemma AloneIsWhole(d: Directory, c: nat, p: PrincipalId, a: Account, movePasskeys: bool, s1: State, s2: State)
    requires Step(State(d, map[]), Count(c, p, a, movePasskeys), s1) && Step(s1, Merge(c), s2)
    ensures s2 == State(AfterLink(d, p, a, movePasskeys), map[])
  {
    OnlyAccount(d.holders, a);
  }

  /** Tables in which `p` may merge the holder of `a`, and `b`, of another provider, is free. */
  ghost predicate Mergeable(d: Directory, p: PrincipalId, a: Account, b: Account) {
    && Live(d.principals, p) && a in d.holders && d.holders[a] != p && d.holders[a] in d.principals
    && HeldBy(d.holders, d.holders[a]) == {a} && MovedKeys(d.passkeys, d.holders[a]) == {}
    && (forall x :: x in d.holders && d.holders[x] == p ==> x.provider != a.provider)
    && b !in d.holders && b.provider != a.provider
  }

  function Attached(d: Directory, a: Account, b: Account): Directory
    requires a in d.holders
  {
    d.(holders := d.holders[b := d.holders[a]])
  }

  lemma LateDecisions(d: Directory, p: PrincipalId, a: Account, b: Account)
    requires Mergeable(d, p, a, b)
    ensures LinkDecision(d, p, a, false).Merged? && LinkDecision(d, d.holders[a], b, false).Attached?
    ensures Goes(Attached(d, a, b), Merging(p, a, d.holders[a], false))
  {
    assert forall x :: x in d.holders && d.holders[x] == d.holders[a] ==> x in HeldBy(d.holders, d.holders[a]);
  }

  lemma LateSteps(d: Directory, p: PrincipalId, a: Account, b: Account)
    requires Mergeable(d, p, a, b)
    ensures var m, d' := Merging(p, a, d.holders[a], false), Attached(d, a, b);
            && Step(State(d, map[]), Count(0, p, a, false), State(d, map[0 := m]))
            && Step(State(d, map[0 := m]), Whole(Link(m.from, b, false)), State(d', map[0 := m]))
            && Step(State(d', map[0 := m]), Merge(0), State(AfterMerge(d', m), map[]))
  {
    LateDecisions(d, p, a, b);
    var m := Merging(p, a, d.holders[a], false);
    assert map[0 := m] - {0} == map[];
  }

  /** It does happen, from any such tables: the holder links `b` between the count and the merge, and the merged
      Principal is left with an account. */
  lemma LateAttachBreaks(d: Directory, p: PrincipalId, a: Account, b: Account)
    returns (trace: seq<State>, acts: seq<Action>)
    requires Valid(d) && Mergeable(d, p, a, b)
    ensures IsRun(trace, acts) && acts == [Count(0, p, a, false), Whole(Link(d.holders[a], b, false)), Merge(0)]
    ensures trace[0].d == d && var d' := trace[3].d;
            b in d'.holders && d'.holders[b] == d.holders[a] && !Live(d'.principals, d.holders[a]) && !Valid(d')
  {
    var m, d1 := Merging(p, a, d.holders[a], false), Attached(d, a, b);
    acts := [Count(0, p, a, false), Whole(Link(d.holders[a], b, false)), Merge(0)];
    trace := [State(d, map[]), State(d, map[0 := m]), State(d1, map[0 := m]), State(AfterMerge(d1, m), map[])];
    LateSteps(d, p, a, b);
    assert AfterMerge(d1, m).holders[b] == d.holders[a];
  }
}
