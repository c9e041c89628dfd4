/**
 The run store under the leadership lease: the two systems side by side.  A leader's transaction opens in the store
 when its fence check passes in the lease's system, and ends in both at once; that a takeover waits for it is
 not a rule here but follows from the locks on the lease row.
 */
module FencedStore {
  import opened Options
  import opened Leadership
  import RunStore
  import RunStoreTheorems

  /** `terms` says for each commit of the store under which token it was made, if any. */
  datatype Led = Led(store: RunStore.State, lead: Leadership.State, terms: seq<Option<LeaderTerm>>)

  datatype Move =
    | LeadOnly(leadAction: Leadership.Action)        // the lease's system moves, no fence passes or ends
    | StoreOnly(storeAction: RunStore.Action)        // the store moves, with or without a fence
    | BeginPlain(t: nat, op: RunStore.Op)
    | Pass(t: nat, op: RunStore.Op)                  // the fence check of transaction `t` passes
    | CommitPlain(t: nat)
    | CommitFenced(t: nat)
    | EndFenced(t: nat, timeout: bool)               // rolled back, by its process or by a bound

  /** The methods that take a leader, and the one that may. */
  predicate LeaderOnly(op: RunStore.Op) {
    op.Claim? || op.Promote? || op.OpenGate?
  }

  predicate MayFence(op: RunStore.Op) {
    LeaderOnly(op) || op.RunTransition?
  }

  /** The transactions past their fence check, and the token each holds. */
  function FencesOf(lead: Leadership.State): map<nat, LeaderTerm> {
    map t | t in lead.fenced && lead.fenced[t].passed :: lead.fenced[t].leader
  }

  function TokenAt(lead: Leadership.State): Option<LeaderTerm> {
    if lead.row.Some? then Some(TokenOf(lead.row.value)) else None
  }

  function TermOf(token: Option<LeaderTerm>): nat {
    if token.Some? then token.value.term else 0
  }

  predicate IsNextTerm(token: Option<LeaderTerm>, token': Option<LeaderTerm>) {
    token'.Some? && token'.value.term == TermOf(token) + 1
  }

  ghost predicate Moves(s: Led, move: Move, s': Led) {
    match move
    case LeadOnly(action) =>
      && Leadership.Step(s.lead, action, s'.lead) && FencesOf(s'.lead) == FencesOf(s.lead)
      && s' == s.(lead := s'.lead)
    case StoreOnly(action) =>
      && RunStore.Step(s.store, action, s'.store) && !action.Begin? && !action.Commit?
      && (action.Abort? ==> action.t !in FencesOf(s.lead))
      && s' == s.(store := s'.store)
    case BeginPlain(t, op) =>
      !LeaderOnly(op) && RunStore.Step(s.store, RunStore.Begin(t, op), s'.store) && s' == s.(store := s'.store)
    case Pass(t, op) =>
      && Leadership.Step(s.lead, Complete(t), s'.lead) && t !in FencesOf(s.lead) && t in FencesOf(s'.lead)
      && MayFence(op) && RunStore.Step(s.store, RunStore.Begin(t, op), s'.store)
      && s' == s.(store := s'.store, lead := s'.lead)
    case CommitPlain(t) =>
      && t !in FencesOf(s.lead) && RunStore.Step(s.store, RunStore.Commit(t), s'.store)
      && s' == s.(store := s'.store, terms := s.terms + [None])
    case CommitFenced(t) =>
      && t in FencesOf(s.lead) && s.lead.fenced[t].committing && Leadership.Step(s.lead, Complete(t), s'.lead)
      && RunStore.Step(s.store, RunStore.Commit(t), s'.store)
      && s' == Led(s'.store, s'.lead, s.terms + [Some(FencesOf(s.lead)[t])])
    case EndFenced(t, timeout) =>
      && t in FencesOf(s.lead)
      && Leadership.Step(s.lead, if timeout then Timeout(t) else Rollback(t), s'.lead)
      && RunStore.Step(s.store, RunStore.Abort(t), s'.store)
      && s' == s.(store := s'.store, lead := s'.lead)
  }

  ghost predicate IsLedRun(trace: seq<Led>, moves: seq<Move>) {
    && |trace| == |moves| + 1
    && RunStore.Init(trace[0].store) && Leadership.Init(trace[0].lead) && trace[0].terms == []
    && forall i :: 0 <= i < |moves| ==> Moves(trace[i], moves[i], trace[i + 1])
  }

  // ---------------------------------------------------------------- what the locks give

  /** The token of the row changes only while no fence is held, and then to the next term: the share locks of
      the fences keep a takeover's exclusive lock out. */
  lemma TokenMoves(lead: Leadership.State, action: Leadership.Action, lead': Leadership.State)
    requires RowInv(lead) && Leadership.Step(lead, action, lead')
    ensures TokenAt(lead') == TokenAt(lead) || (FencesOf(lead) == map[] && IsNextTerm(TokenAt(lead), TokenAt(lead')))
    ensures lead'.row != lead.row ==>
              && lead'.row.Some?
              && (lead.row.Some? && lead.row.value.owner == lead'.row.value.owner
                  ==> lead'.row.value.term == lead.row.value.term)
              && (lead.row.Some? && lead.row.value.owner != lead'.row.value.owner
                  ==> lead'.row.value.term == lead.row.value.term + 1
                      && forall t :: t in lead.fenced ==> !lead.fenced[t].passed)
  {
    assert FencesOf(lead) == map[] ==> forall t :: t in lead.fenced ==> t !in FencesOf(lead);
    if action.CommitUpdate? {
      assert StagedOk(lead.row, lead.calls[action.c]);
    }
  }

  lemma FencesHoldToken(lead: Leadership.State, t: nat)
    requires RowInv(lead) && t in FencesOf(lead)
    ensures TokenAt(lead) == Some(FencesOf(lead)[t])
  {
  }

  lemma CompleteEnds(lead: Leadership.State, t: nat, lead': Leadership.State)
    requires Leadership.Step(lead, Complete(t), lead')
    ensures TokenAt(lead') == TokenAt(lead)
    ensures t in FencesOf(lead) && lead.fenced[t].committing ==> FencesOf(lead') == FencesOf(lead) - {t}
    ensures t !in FencesOf(lead) && t in FencesOf(lead') ==>
              FencesOf(lead') == FencesOf(lead)[t := lead.fenced[t].leader]
  {
  }

  lemma RollbackEnds(lead: Leadership.State, action: Leadership.Action, lead': Leadership.State)
    requires Leadership.Step(lead, action, lead') && (action.Rollback? || action.Timeout?)
    ensures TokenAt(lead') == TokenAt(lead) && FencesOf(lead') == FencesOf(lead) - {action.t}
  {
  }

  // ------------------------------------------------------------------------ the invariant

  /** Fences are open transactions of the store, and leader-only ones all have a fence. */
  ghost predicate FencesOk(s: Led) {
    && (forall t :: t in FencesOf(s.lead) ==> t in s.store.txs)
    && (forall t :: t in s.store.txs && LeaderOnly(s.store.txs[t].op) ==> t in FencesOf(s.lead))
  }

  /** Tokens never go back, and one term has one owner. */
  predicate NotAfter(a: Option<LeaderTerm>, b: Option<LeaderTerm>) {
    a.Some? && b.Some? ==> a.value.term <= b.value.term && (a.value.term == b.value.term ==> a == b)
  }

  ghost predicate TermsOk(token: Option<LeaderTerm>, terms: seq<Option<LeaderTerm>>, hist: seq<RunStore.CommitRecord>) {
    && |terms| == |hist|
    && (forall i :: 0 <= i < |terms| && terms[i].Some? ==> token.Some? && NotAfter(terms[i], token))
    && (forall i, j :: 0 <= i < j < |terms| ==> NotAfter(terms[i], terms[j]))
    && (forall i :: 0 <= i < |terms| && LeaderOnly(hist[i].op) ==> terms[i].Some?)
  }

  ghost predicate LedInv(s: Led) {
    Leadership.Inv(s.lead) && FencesOk(s) && TermsOk(TokenAt(s.lead), s.terms, s.store.hist)
  }

  lemma StatementKeepsOp(db: RunStore.Tables, nextSeq: nat, tx: RunStore.Tx, stmt: RunStore.Statement, tx': RunStore.Tx)
    requires RunStore.Effect(db, nextSeq, tx, stmt, tx')
    ensures tx'.op == tx.op
  {
  }

  lemma NextToken(token: Option<LeaderTerm>, token': Option<LeaderTerm>, terms: seq<Option<LeaderTerm>>,
                  hist: seq<RunStore.CommitRecord>)
    requires TermsOk(token, terms, hist)
    requires token' == token || IsNextTerm(token, token')
    ensures TermsOk(token', terms, hist)
  {
  }

  lemma OneMoreCommit(token: Option<LeaderTerm>, terms: seq<Option<LeaderTerm>>, hist: seq<RunStore.CommitRecord>,
                      made: Option<LeaderTerm>, c: RunStore.CommitRecord)
    requires TermsOk(token, terms, hist) && (made.Some? ==> made == token) && (LeaderOnly(c.op) ==> made.Some?)
    ensures TermsOk(token, terms + [made], hist + [c])
  {
  }

  lemma LeadKeeps(s: Led, action: Leadership.Action, s': Led)
    requires LedInv(s) && Moves(s, LeadOnly(action), s')
    ensures LedInv(s')
  {
    Leadership.StepKeepsInv(s.lead, action, s'.lead);
    TokenMoves(s.lead, action, s'.lead);
    NextToken(TokenAt(s.lead), TokenAt(s'.lead), s.terms, s.store.hist);
  }

  lemma StoreKeeps(s: Led, action: RunStore.Action, s': Led)
    requires LedInv(s) && Moves(s, StoreOnly(action), s')
    ensures LedInv(s')
  {
    if action.Run? {
      StatementKeepsOp(s.store.db, s.store.nextSeq, s.store.txs[action.t], action.stmt, action.tx');
    }
  }

  lemma PassKeeps(s: Led, t: nat, op: RunStore.Op, s': Led)
    requires LedInv(s) && Moves(s, Pass(t, op), s')
    ensures LedInv(s')
  {
    Leadership.StepKeepsInv(s.lead, Complete(t), s'.lead);
    CompleteEnds(s.lead, t, s'.lead);
  }

  lemma CommitFencedKeeps(s: Led, t: nat, s': Led)
    requires LedInv(s) && Moves(s, CommitFenced(t), s')
    ensures LedInv(s')
  {
    Leadership.StepKeepsInv(s.lead, Complete(t), s'.lead);
    CompleteEnds(s.lead, t, s'.lead);
    FencesHoldToken(s.lead, t);
    BothEnd(s, t, s');
    OneMoreCommit(TokenAt(s.lead), s.terms, s.store.hist, Some(FencesOf(s.lead)[t]),
                  RunStore.RecordOf(s.store.db, s.store.txs[t]));
  }

  lemma CommitPlainKeeps(s: Led, t: nat, s': Led)
    requires LedInv(s) && Moves(s, CommitPlain(t), s')
    ensures LedInv(s')
  {
    OneMoreCommit(TokenAt(s.lead), s.terms, s.store.hist, None, RunStore.RecordOf(s.store.db, s.store.txs[t]));
  }

  lemma EndKeeps(s: Led, t: nat, timeout: bool, s': Led)
    requires LedInv(s) && Moves(s, EndFenced(t, timeout), s')
    ensures LedInv(s')
  {
    var action := if timeout then Timeout(t) else Rollback(t);
    Leadership.StepKeepsInv(s.lead, action, s'.lead);
    RollbackEnds(s.lead, action, s'.lead);
    BothEnd(s, t, s');
  }

  /** A transaction that ends in both leaves the rest in step. */
  lemma BothEnd(s: Led, t: nat, s': Led)
    requires FencesOk(s) && s'.store.txs == s.store.txs - {t} && FencesOf(s'.lead) == FencesOf(s.lead) - {t}
    ensures FencesOk(s')
  {
  }

  lemma BeginPlainKeeps(s: Led, t: nat, op: RunStore.Op, s': Led)
    requires LedInv(s) && Moves(s, BeginPlain(t, op), s')
    ensures LedInv(s')
  {
  }

  lemma MoveKeeps(s: Led, move: Move, s': Led)
    requires LedInv(s) && Moves(s, move, s')
    ensures LedInv(s')
  {
    match move
    case LeadOnly(action) => LeadKeeps(s, action, s');
    case StoreOnly(action) => StoreKeeps(s, action, s');
    case BeginPlain(t, op) => BeginPlainKeeps(s, t, op, s');
    case Pass(t, op) => PassKeeps(s, t, op, s');
    case CommitPlain(t) => CommitPlainKeeps(s, t, s');
    case CommitFenced(t) => CommitFencedKeeps(s, t, s');
    case EndFenced(t, timeout) => EndKeeps(s, t, timeout, s');
  }

  lemma {:induction false} RunLed(trace: seq<Led>, moves: seq<Move>, i: nat)
    requires IsLedRun(trace, moves) && i < |trace|
    ensures LedInv(trace[i])
  {
    if i > 0 {
      RunLed(trace, moves, i - 1);
      MoveKeeps(trace[i - 1], moves[i - 1], trace[i]);
    }
  }

  // ---------------------------------------------------------------------------- theorems

  /** What the store does in a move, if anything. */
  function StoreAction(move: Move): Option<RunStore.Action> {
    match move
    case LeadOnly(_) => None
    case StoreOnly(action) => Some(action)
    case BeginPlain(t, op) => Some(RunStore.Begin(t, op))
    case Pass(t, op) => Some(RunStore.Begin(t, op))
    case CommitPlain(t) => Some(RunStore.Commit(t))
    case CommitFenced(t) => Some(RunStore.Commit(t))
    case EndFenced(t, _) => Some(RunStore.Abort(t))
  }

  function LeadAction(move: Move): Option<Leadership.Action> {
    match move
    case LeadOnly(action) => Some(action)
    case Pass(t, _) => Some(Complete(t))
    case CommitFenced(t) => Some(Complete(t))
    case EndFenced(t, timeout) => Some(if timeout then Timeout(t) else Rollback(t))
    case _ => None
  }

  lemma MoveProjects(s: Led, move: Move, s': Led)
    requires Moves(s, move, s')
    ensures if StoreAction(move).None? then s'.store == s.store
            else RunStore.Step(s.store, StoreAction(move).value, s'.store)
    ensures if LeadAction(move).None? then s'.lead == s.lead
            else Leadership.Step(s.lead, LeadAction(move).value, s'.lead)
  {
  }

  /** A run of the two together is a run of each: the theorems about either hold of it. */
  lemma {:induction false} LedRunIsBoth(trace: seq<Led>, moves: seq<Move>, i: nat)
    returns (states: seq<RunStore.State>, acts: seq<RunStore.Action>,
             leads: seq<Leadership.State>, leadActs: seq<Leadership.Action>)
    requires IsLedRun(trace, moves) && i < |trace|
    ensures RunStore.IsRun(states, acts) && states[|states| - 1] == trace[i].store
    ensures Leadership.IsRun(leads, leadActs) && leads[|leads| - 1] == trace[i].lead
  {
    if i == 0 {
      states, acts, leads, leadActs := [trace[0].store], [], [trace[0].lead], [];
    } else {
      states, acts, leads, leadActs := LedRunIsBoth(trace, moves, i - 1);
      MoveProjects(trace[i - 1], moves[i - 1], trace[i]);
      var action, leadAction := StoreAction(moves[i - 1]), LeadAction(moves[i - 1]);
      if action.Some? {
        states, acts := states + [trace[i].store], acts + [action.value];
      }
      if leadAction.Some? {
        leads, leadActs := leads + [trace[i].lead], leadActs + [leadAction.value];
      }
    }
  }

  /** Every committed claim, promotion and opened gate wait was made under a lease token; commits under tokens are in
      term order, and one term has one owner. */
  lemma FencedCommitsInTermOrder(trace: seq<Led>, moves: seq<Move>, i: nat, a: nat, b: nat)
    requires IsLedRun(trace, moves) && i < |trace| && a < b < |trace[i].terms|
    ensures |trace[i].terms| == |trace[i].store.hist|
    ensures var op := trace[i].store.hist[a].op; op.Claim? || op.Promote? || op.OpenGate? ==> trace[i].terms[a].Some?
    ensures var x, y := trace[i].terms[a], trace[i].terms[b];
            x.Some? && y.Some? ==>
              x.value.term <= y.value.term && (x.value.term == y.value.term ==> x.value.owner == y.value.owner)
  {
    RunLed(trace, moves, i);
    assert NotAfter(trace[i].terms[a], trace[i].terms[b]);
  }

  /** A leader-only commit is made while its own token is the row's: nothing of a deposed leader commits. */
  lemma FencedCommitIsLeaders(trace: seq<Led>, moves: seq<Move>, i: nat, t: nat)
    requires IsLedRun(trace, moves) && i < |moves| && StoreAction(moves[i]) == Some(RunStore.Commit(t))
    requires t in trace[i].store.txs
    requires var op := trace[i].store.txs[t].op; op.Claim? || op.Promote? || op.OpenGate?
    ensures moves[i] == CommitFenced(t) && t in trace[i].lead.fenced && trace[i].lead.fenced[t].passed
    ensures trace[i].lead.row.Some? && trace[i + 1].lead.row == trace[i].lead.row
    ensures var row, leader := trace[i].lead.row.value, trace[i].lead.fenced[t].leader;
            && leader.owner == row.owner && leader.term == row.term
            && trace[i + 1].terms == trace[i].terms + [Some(leader)]
  {
    RunLed(trace, moves, i);
    assert Moves(trace[i], moves[i], trace[i + 1]);
    assert t in FencesOf(trace[i].lead);
    FencesHoldToken(trace[i].lead, t);
  }

  /** Two claims of one step, even by different leaders, are in term order with a re-arming between them. */
  lemma ClaimsByLeadersInOrder(trace: seq<Led>, moves: seq<Move>, i: nat, a: nat, b: nat, k: RunStore.StepKey)
    requires IsLedRun(trace, moves) && i < |trace| && a < b < |trace[i].store.hist|
    requires trace[i].store.hist[a].op.Claim? && trace[i].store.hist[b].op.Claim?
    requires k in trace[i].store.hist[a].steps && k in trace[i].store.hist[b].steps
    ensures |trace[i].terms| == |trace[i].store.hist| && trace[i].terms[a].Some? && trace[i].terms[b].Some?
    ensures trace[i].terms[a].value.term <= trace[i].terms[b].value.term
    ensures exists m :: a < m < b && k in trace[i].store.hist[m].steps && trace[i].store.hist[m].steps[k].to.Ready?
  {
    RunLed(trace, moves, i);
    var states, acts, leads, leadActs := LedRunIsBoth(trace, moves, i);
    RunStoreTheorems.ClaimedOncePerArming(states, acts, |states| - 1, a, b, k);
    assert NotAfter(trace[i].terms[a], trace[i].terms[b]);
  }
}
