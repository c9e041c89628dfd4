/** What holds along every run of the store, stated over traces. */
module RunStoreTheorems {
  import opened Options
  import opened RunStore
  import opened RunStoreInvariant
  import opened RunStoreRuns

  // -------------------------------------------------------- journal and projection

  /** The status the journal folds step `k` to: its last move by sequence number, `Pending` without one. */
  ghost function FoldStep(events: map<nat, Event>, k: StepKey): StepStatus {
    if exists q :: LastStepEvent(events, k, q)
    then var q :| LastStepEvent(events, k, q); StepAfter(events[q])
    else StepStatus.Pending
  }

  ghost function FoldRun(events: map<nat, Event>, r: RunId): RunStatus {
    if exists q :: LastRunEvent(events, r, q)
    then var q :| LastRunEvent(events, r, q); events[q].payload.status
    else RunStatus.Pending
  }

  lemma {:induction false} LastStepExists(events: map<nat, Event>, k: StepKey, p: nat, bound: nat)
    requires p in events && MovesStep(events[p], k)
    requires p < bound && forall q :: q in events && MovesStep(events[q], k) ==> q < bound
    ensures exists q :: LastStepEvent(events, k, q)
    decreases bound - p
  {
    if q :| q in events && MovesStep(events[q], k) && p < q {
      LastStepExists(events, k, q, bound);
    } else {
      assert LastStepEvent(events, k, p);
    }
  }

  lemma {:induction false} LastRunExists(events: map<nat, Event>, r: RunId, p: nat, bound: nat)
    requires p in events && MovesRun(events[p], r)
    requires p < bound && forall q :: q in events && MovesRun(events[q], r) ==> q < bound
    ensures exists q :: LastRunEvent(events, r, q)
    decreases bound - p
  {
    if q :| q in events && MovesRun(events[q], r) && p < q {
      LastRunExists(events, r, q, bound);
    } else {
      assert LastRunEvent(events, r, p);
    }
  }

  lemma FoldStepAgrees(db: Tables, nextSeq: nat, k: StepKey)
    requires k in db.steps && StepAgrees(db, k) && forall q :: q in db.events ==> q < nextSeq
    ensures TerminalStep(FoldStep(db.events, k)) || TerminalStep(db.steps[k]) ==> FoldStep(db.events, k) == db.steps[k]
  {
    if TerminalStep(db.steps[k]) {
      var p :| p in db.events && MovesStep(db.events[p], k);
      LastStepExists(db.events, k, p, nextSeq);
    }
  }

  lemma FoldRunAgrees(db: Tables, nextSeq: nat, r: RunId)
    requires r in db.runs && RunAgrees(db, r) && forall q :: q in db.events ==> q < nextSeq
    ensures TerminalRun(FoldRun(db.events, r)) || TerminalRun(db.runs[r].status) ==>
              FoldRun(db.events, r) == db.runs[r].status
  {
    if TerminalRun(db.runs[r].status) {
      var p :| p in db.events && MovesRun(db.events[p], r);
      LastRunExists(db.events, r, p, nextSeq);
    }
  }

  /** In every reachable state the journal folds to the step and run rows, whenever either is terminal. */
  lemma JournalFoldsToRows(trace: seq<State>, acts: seq<Action>, i: nat)
    requires IsRun(trace, acts) && i < |trace|
    ensures forall k :: k in trace[i].db.steps ==>
              var folded, row := FoldStep(trace[i].db.events, k), trace[i].db.steps[k];
              && (folded.Succeeded? || folded.Failed? || folded.Skipped? || folded.Cancelled? ==> folded == row)
              && (row.Succeeded? || row.Failed? || row.Skipped? || row.Cancelled? ==> folded == row)
    ensures forall r :: r in trace[i].db.runs ==>
              var folded, row := FoldRun(trace[i].db.events, r), trace[i].db.runs[r].status;
              && (folded.Succeeded? || folded.Failed? || folded.Cancelled? || folded.DeadLettered? ==> folded == row)
              && (row.Succeeded? || row.Failed? || row.Cancelled? || row.DeadLettered? ==> folded == row)
  {
    RunInv(trace, acts, i);
    FoldsAgree(trace[i].db, trace[i].nextSeq);
  }

  lemma FoldsAgree(db: Tables, nextSeq: nat)
    requires JournalAgrees(db) && forall q :: q in db.events ==> q < nextSeq
    ensures forall k :: k in db.steps ==>
              TerminalStep(FoldStep(db.events, k)) || TerminalStep(db.steps[k]) ==>
                  FoldStep(db.events, k) == db.steps[k]
    ensures forall r :: r in db.runs ==>
              TerminalRun(FoldRun(db.events, r)) || TerminalRun(db.runs[r].status) ==>
                FoldRun(db.events, r) == db.runs[r].status
  {
    forall k | k in db.steps
      ensures TerminalStep(FoldStep(db.events, k)) || TerminalStep(db.steps[k]) ==>
          FoldStep(db.events, k) == db.steps[k]
    {
      FoldStepAgrees(db, nextSeq, k);
    }
    forall r | r in db.runs
      ensures TerminalRun(FoldRun(db.events, r)) || TerminalRun(db.runs[r].status) ==>
                FoldRun(db.events, r) == db.runs[r].status
    {
      FoldRunAgrees(db, nextSeq, r);
    }
  }

  /** The raw step CAS writes no event: exactly the moves between non-terminal statuses survive it. */
  lemma RawCasKeepsAgreementIff(db: Tables, k: StepKey, to: StepStatus, nextSeq: nat)
    requires k in db.steps && StepAgrees(db, k) && forall q :: q in db.events ==> q < nextSeq
    ensures StepAgrees(db.(steps := db.steps[k := to]), k) <==>
              db.steps[k] == to || (!TerminalStep(db.steps[k]) && !TerminalStep(to))
  {
    var db' := db.(steps := db.steps[k := to]);
    if StagesStep(db.events, k) {
      var p :| p in db.events && MovesStep(db.events[p], k);
      LastStepExists(db.events, k, p, nextSeq);
      var q :| LastStepEvent(db.events, k, q);
      assert LastStepEvent(db'.events, k, q);
    }
  }

  // --------------------------------------------------------------------- frontier

  /** A transition that names its frontier Attempt commits only while that Attempt is the latest. */
  lemma FrontierHoldsAtCommit(trace: seq<State>, acts: seq<Action>, i: nat, t: nat)
    requires IsRun(trace, acts) && i < |acts| && acts[i] == Commit(t) && t in trace[i].txs
    requires trace[i].txs[t].op.StepTransition? && trace[i].txs[t].op.frontier.Is?
    ensures var op := trace[i].txs[t].op;
            && Latest(trace[i].db.attempts, op.k, op.frontier.latest)
            && Latest(trace[i + 1].db.attempts, op.k, op.frontier.latest)
            && op.k in trace[i].db.steps && trace[i].db.steps[op.k] == op.from
            && trace[i + 1].db.steps[op.k] == op.to
  {
    RunInv(trace, acts, i);
    assert Step(trace[i], acts[i], trace[i + 1]);
    FrontierAtCommit(trace[i].gates, trace[i].db, trace[i].nextSeq, trace[i].txs[t]);
  }

  lemma FrontierAtCommit(gates: set<StepKey>, db: Tables, nextSeq: nat, tx: Tx)
    requires TxOk(gates, db, nextSeq, tx) && Finished(tx) && tx.op.StepTransition? && tx.op.frontier.Is?
    ensures Latest(db.attempts, tx.op.k, tx.op.frontier.latest)
    ensures Latest(Applied(db, tx).attempts, tx.op.k, tx.op.frontier.latest)
    ensures tx.op.k in db.steps && db.steps[tx.op.k] == tx.op.from && Applied(db, tx).steps[tx.op.k] == tx.op.to
  {
  }

  // ----------------------------------------------------------------------- history

  /** If `k` was left in one status and found in another, a commit in between moved it there. */
  lemma {:induction false} MovedBetween(hist: seq<CommitRecord>, a: nat, b: nat, k: StepKey)
    requires a <= b <= |hist| && StatusAfter(hist[..a], k) != StatusAfter(hist[..b], k)
    ensures exists m :: a <= m < b && k in hist[m].steps && hist[m].steps[k].to == StatusAfter(hist[..b], k)
    decreases b
  {
    var last := b - 1;
    assert hist[..b][..last] == hist[..last];
    if k !in hist[last].steps {
      MovedBetween(hist, a, last, k);
    }
  }

  lemma {:induction false} ChainAt(hist: seq<CommitRecord>, i: nat)
    requires Chain(hist) && i < |hist|
    ensures Chain(hist[..i])
    ensures forall k :: k in hist[i].steps ==> hist[i].steps[k].from == StatusAfter(hist[..i], k)
    ensures forall r :: r in hist[i].runs ==>
              hist[i].runs[r].from == RunAfter(hist[..i], r) && RunMoveOk(hist[i].runs[r])
    decreases |hist|
  {
    if i < |hist| - 1 {
      ChainAt(hist[..|hist| - 1], i);
      assert hist[..|hist| - 1][..i] == hist[..i];
    }
  }

  /** Two commits that move `k` off the same status are separated by one that put it back. */
  lemma RearmedBetween(hist: seq<CommitRecord>, a: nat, b: nat, k: StepKey)
    requires Chain(hist) && a < b < |hist| && k in hist[a].steps && k in hist[b].steps
    requires hist[a].steps[k].to != hist[b].steps[k].from
    ensures exists m :: a < m < b && k in hist[m].steps && hist[m].steps[k].to == hist[b].steps[k].from
  {
    ChainAt(hist, b);
    assert hist[..a + 1][..a] == hist[..a];
    MovedBetween(hist, a + 1, b, k);
  }

  // ------------------------------------------------------------------ claim atomicity

  /** Every step a claim moved to running has that claim's fresh Attempt and its launch intent, in the tables. */
  lemma ClaimsAreAtomic(trace: seq<State>, acts: seq<Action>, i: nat)
    requires IsRun(trace, acts) && i < |trace|
    ensures ClaimsBacked(trace[i].db, trace[i].hist) && MintsDistinct(trace[i].db, trace[i].hist)
  {
    RunInv(trace, acts, i);
  }

  /** Each arming to ready is claimed at most once. */
  lemma ClaimedOncePerArming(trace: seq<State>, acts: seq<Action>, i: nat, a: nat, b: nat, k: StepKey)
    requires IsRun(trace, acts) && i < |trace|
    requires a < b < |trace[i].hist| && trace[i].hist[a].op.Claim? && trace[i].hist[b].op.Claim?
    requires k in trace[i].hist[a].steps && k in trace[i].hist[b].steps
    ensures exists m :: a < m < b && k in trace[i].hist[m].steps && trace[i].hist[m].steps[k].to.Ready?
  {
    RunInv(trace, acts, i);
    RearmedBetween(trace[i].hist, a, b, k);
  }

  // ----------------------------------------------------------------------- gate waits

  /** A gate has at most one running Attempt, and it is the highest-numbered one. */
  lemma GateHasOneWait(trace: seq<State>, acts: seq<Action>, i: nat, a: AttemptKey, b: AttemptKey)
    requires IsRun(trace, acts) && i < |trace| && a.step in trace[i].gates && b.step == a.step
    requires a in trace[i].db.attempts && b in trace[i].db.attempts && trace[i].db.attempts[a].Running?
    ensures b.n <= a.n && (trace[i].db.attempts[b].Running? ==> b == a)
  {
    RunInv(trace, acts, i);
    OnlyHighestRuns(trace[i].db.attempts, a, b);
  }

  lemma OnlyHighestRuns(attempts: map<AttemptKey, Outcome>, a: AttemptKey, b: AttemptKey)
    requires OneWait(attempts, a.step) && b.step == a.step && a in attempts && b in attempts && attempts[a].Running?
    ensures b.n <= a.n && (attempts[b].Running? ==> b == a)
  {
  }

  /** The verdict is on Attempt `a` alone, which was running or is minted, and the gate's status is the verdict. */
  ghost predicate VerdictGiven(db: Tables, db': Tables, a: AttemptKey, passed: bool) {
    && a.step in db.steps && db.steps[a.step].Pending? && (a in db.attempts ==> db.attempts[a].Running?)
    && a.step in db'.steps && a in db'.attempts && db'.attempts == db.attempts[a := db'.attempts[a]]
    && (passed ==> db'.steps[a.step].Succeeded? && db'.attempts[a].Succeeded?)
    && (!passed ==> db'.steps[a.step].Failed? && db'.attempts[a].Failed?)
  }

  /** A resolve gives its verdict to a wait that was running (or mints one closed) and to a pending gate, and
      leaves none running. */
  lemma ResolveLeavesNoneRunning(trace: seq<State>, acts: seq<Action>, i: nat, t: nat)
    requires IsRun(trace, acts) && i < |acts| && acts[i] == Commit(t) && t in trace[i].txs
    requires trace[i].txs[t].op.ResolveGate?
    ensures var op, db, db' := trace[i].txs[t].op, trace[i].db, trace[i + 1].db;
            && (exists n :: VerdictGiven(db, db', AttemptKey(op.k, n), op.passed))
            && (forall a :: a in db'.attempts && a.step == op.k ==> !db'.attempts[a].Running?)
  {
    RunInv(trace, acts, i);
    assert Step(trace[i], acts[i], trace[i + 1]);
    ResolveAtCommit(trace[i].db, trace[i].txs[t]);
  }

  lemma ResolveAtCommit(db: Tables, tx: Tx)
    requires ResolveOk(db, tx) && Finished(tx) && tx.op.ResolveGate?
    ensures exists n :: VerdictGiven(db, Applied(db, tx), AttemptKey(tx.op.k, n), tx.op.passed)
    ensures var db' := Applied(db, tx); forall a :: a in db'.attempts && a.step == tx.op.k ==> !db'.attempts[a].Running?
  {
    var n := tx.phase.n;
    assert VerdictOk(db.attempts, tx.attempts, AttemptKey(tx.op.k, n), tx.op.passed);
    assert VerdictGiven(db, Applied(db, tx), AttemptKey(tx.op.k, n), tx.op.passed);
  }

  /** A resolve takes effect at most once per arming of the gate. */
  lemma ResolvedOncePerArming(trace: seq<State>, acts: seq<Action>, i: nat, a: nat, b: nat, k: StepKey)
    requires IsRun(trace, acts) && i < |trace| && a < b < |trace[i].hist|
    requires trace[i].hist[a].op.ResolveGate? && trace[i].hist[b].op.ResolveGate?
    requires trace[i].hist[a].op.k == k && trace[i].hist[b].op.k == k
    ensures exists m :: a < m < b && k in trace[i].hist[m].steps && trace[i].hist[m].steps[k].to.Pending?
  {
    RunInv(trace, acts, i);
    RearmedBetween(trace[i].hist, a, b, k);
  }

  /** A superseded or cancelled Attempt keeps that outcome for good, whatever runs after. */
  lemma {:induction false} ByIntentIsKept(trace: seq<State>, acts: seq<Action>, i: nat, j: nat, a: AttemptKey)
    requires IsRun(trace, acts) && i <= j < |trace| && a in trace[i].db.attempts
    requires trace[i].db.attempts[a].Superseded? || trace[i].db.attempts[a].Cancelled?
    ensures a in trace[j].db.attempts && trace[j].db.attempts[a] == trace[i].db.attempts[a]
    decreases j - i
  {
    if i < j {
      RunInv(trace, acts, i);
      StepKeepsIntent(trace[i], acts[i], trace[i + 1], a);
      ByIntentIsKept(trace, acts, i + 1, j, a);
    }
  }

  lemma StepKeepsIntent(s: State, action: Action, s': State, a: AttemptKey)
    requires TxsOk(s) && Step(s, action, s') && a in s.db.attempts && ByIntent(s.db.attempts[a])
    ensures a in s'.db.attempts && s'.db.attempts[a] == s.db.attempts[a]
  {
    if action.Commit? {
      assert TxOk(s.gates, s.db, s.nextSeq, s.txs[action.t]);
      assert a !in s.txs[action.t].attempts;
    }
  }

  // ---------------------------------------------------------------- reopen generation

  /** Entries into a terminal status are the generation, plus one while the run is terminal. */
  lemma {:induction false} EntriesAreGenerations(hist: seq<CommitRecord>, r: RunId)
    requires Chain(hist)
    ensures var now := RunAfter(hist, r);
            TerminalEntries(hist, r) == now.generation + (if TerminalRun(now.status) then 1 else 0)
    decreases |hist|
  {
    if hist != [] {
      EntriesAreGenerations(hist[..|hist| - 1], r);
    }
  }

  lemma ReopenGeneration(trace: seq<State>, acts: seq<Action>, i: nat, r: RunId)
    requires IsRun(trace, acts) && i < |trace| && r in trace[i].db.runs
    ensures var row := trace[i].db.runs[r];
            TerminalEntries(trace[i].hist, r) == row.generation + (if TerminalRun(row.status) then 1 else 0)
  {
    RunInv(trace, acts, i);
    EntriesAreGenerations(trace[i].hist, r);
  }

  ghost predicate Reopens(c: CommitRecord, r: RunId) {
    r in c.runs && TerminalRun(c.runs[r].from.status)
  }

  lemma {:induction false} GenerationGrows(hist: seq<CommitRecord>, a: nat, b: nat, r: RunId)
    requires Chain(hist) && a <= b <= |hist|
    ensures RunAfter(hist[..a], r).generation <= RunAfter(hist[..b], r).generation
    ensures (exists m :: a <= m < b && Reopens(hist[m], r)) ==>
              RunAfter(hist[..a], r).generation < RunAfter(hist[..b], r).generation
    decreases b
  {
    if a < b {
      GenerationGrows(hist, a, b - 1, r);
      ChainAt(hist, b - 1);
      assert hist[..b][..b - 1] == hist[..b - 1];
    }
  }

  /** No ABA: a transition guarded on the generation read after `a` commits finds no reopen since. */
  lemma GuardedMeansNotReopened(trace: seq<State>, acts: seq<Action>, i: nat, a: nat, b: nat)
    requires IsRun(trace, acts) && i < |trace| && a <= b < |trace[i].hist|
    requires var op := trace[i].hist[b].op;
             op.RunTransition? && op.generation == Some(RunAfter(trace[i].hist[..a], op.r).generation)
    ensures forall m :: a <= m < b ==> !Reopens(trace[i].hist[m], trace[i].hist[b].op.r)
  {
    RunInv(trace, acts, i);
    ChainAt(trace[i].hist, b);
    GenerationGrows(trace[i].hist, a, b, trace[i].hist[b].op.r);
  }

  // ------------------------------------------------------------ terminal journal entries

  /** The terminal entries of a run are its generation, plus one while it is terminal. */
  lemma EndsAreGenerations(trace: seq<State>, acts: seq<Action>, i: nat, r: RunId)
    requires IsRun(trace, acts) && i < |trace| && r in trace[i].db.runs
    ensures |Ends(trace[i].db.events, r)|
            == trace[i].db.runs[r].generation + (if TerminalRun(trace[i].db.runs[r].status) then 1 else 0)
  {
    RunInv(trace, acts, i);
    EntriesAreGenerations(trace[i].hist, r);
  }

  /** A run never reopened has exactly one terminal entry if its row is terminal, and none otherwise. */
  lemma OneTerminalEntry(trace: seq<State>, acts: seq<Action>, i: nat, r: RunId)
    requires IsRun(trace, acts) && i < |trace| && r in trace[i].db.runs && trace[i].db.runs[r].generation == 0
    ensures |Ends(trace[i].db.events, r)| == if TerminalRun(trace[i].db.runs[r].status) then 1 else 0
  {
    EndsAreGenerations(trace, acts, i, r);
  }
}
