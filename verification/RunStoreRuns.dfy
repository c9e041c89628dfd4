/** The invariant holds along every run of the store. */
module RunStoreRuns {
  import opened Options
  import opened RunStore
  import opened RunStoreInvariant
  import opened RunStoreSteps
  import opened RunStoreCommit

  lemma ReplaceTx(s: State, t: nat, tx': Tx, nextSeq': nat)
    requires TxsOk(s) && s.nextSeq <= nextSeq' && TxOk(s.gates, s.db, nextSeq', tx')
    ensures TxsOk(s.(txs := s.txs[t := tx'], nextSeq := nextSeq'))
  {
    forall u | u in s.txs && u != t ensures TxOk(s.gates, s.db, nextSeq', s.txs[u]) {
      SeqGrows(s.gates, s.db, s.nextSeq, nextSeq', s.txs[u]);
    }
  }

  lemma BeginKeepsInv(s: State, t: nat, op: Op, s': State)
    requires Inv(s) && Step(s, Begin(t, op), s')
    ensures Inv(s')
  {
    FreshOk(s.gates, s.db, s.nextSeq, op);
    ReplaceTx(s, t, Fresh(op), s.nextSeq);
    BeginKeepsApart(s, t, op);
  }

  lemma BeginKeepsApart(s: State, t: nat, op: Op)
    requires AllApart(s) && t !in s.txs
    ensures AllApart(s.(txs := s.txs[t := Fresh(op)]))
  {
  }

  lemma FreshOk(gates: set<StepKey>, db: Tables, nextSeq: nat, op: Op)
    requires WellFormed(op, gates)
    ensures TxOk(gates, db, nextSeq, Fresh(op))
  {
    NothingStaged(Fresh(op).todoEvents);
  }

  lemma SeqGrows(gates: set<StepKey>, db: Tables, nextSeq: nat, nextSeq': nat, tx: Tx)
    requires TxOk(gates, db, nextSeq, tx) && nextSeq <= nextSeq'
    ensures TxOk(gates, db, nextSeq', tx)
  {
    assert StagedOk(db.events, nextSeq', tx.steps, tx.runs, tx.events);
  }

  /** A granted statement stays apart from every other open transaction. */
  lemma GrantedApart(s: State, t: nat, tx': Tx, u: nat)
    requires t in s.txs && u in s.txs && t != u && Apart(s.txs[t], s.txs[u])
    requires Granted(s, t, s.txs[t], tx') && forall q :: q in tx'.events ==> q in s.txs[t].events || q == s.nextSeq
    requires forall q :: q in s.txs[u].events ==> q < s.nextSeq
    ensures Apart(tx', s.txs[u]) && Apart(s.txs[u], tx')
  {
    var tx, ux := s.txs[t], s.txs[u];
    forall row | row in tx'.locks && row in ux.locks ensures tx'.locks[row].Share? && ux.locks[row].Share? {
      if row in tx.locks && tx.locks[row] == tx'.locks[row] {
      } else {
        assert Free(s, t, row, tx'.locks[row]);
      }
    }
  }

  lemma StatementEvents(db: Tables, nextSeq: nat, tx: Tx, stmt: Statement, tx': Tx)
    requires Effect(db, nextSeq, tx, stmt, tx')
    ensures forall q :: q in tx'.events ==> q in tx.events || q == nextSeq
  {
  }

  lemma RunKeepsTxs(s: State, t: nat, stmt: Statement, tx': Tx, s': State)
    requires Inv(s) && Step(s, Run(t, stmt, tx'), s')
    ensures TxsOk(s')
  {
    StatementKeepsTx(s.gates, s.db, s.nextSeq, s.txs[t], stmt, tx');
    ReplaceTx(s, t, tx', s'.nextSeq);
  }

  lemma RunKeepsApart(s: State, t: nat, tx': Tx)
    requires t in s.txs && AllApart(s) && Granted(s, t, s.txs[t], tx')
    requires forall q :: q in tx'.events ==> q in s.txs[t].events || q == s.nextSeq
    requires forall u, q :: u in s.txs && q in s.txs[u].events ==> q < s.nextSeq
    ensures forall u, v :: u in s.txs && v in s.txs && u != v ==> Apart(s.txs[t := tx'][u], s.txs[t := tx'][v])
  {
    forall u | u in s.txs && u != t ensures Apart(tx', s.txs[u]) && Apart(s.txs[u], tx') {
      GrantedApart(s, t, tx', u);
    }
  }

  lemma RunKeepsAllApart(s: State, t: nat, stmt: Statement, tx': Tx, s': State)
    requires AllApart(s) && Step(s, Run(t, stmt, tx'), s')
    requires forall u, q :: u in s.txs && q in s.txs[u].events ==> q < s.nextSeq
    ensures AllApart(s')
  {
    StatementEvents(s.db, s.nextSeq, s.txs[t], stmt, tx');
    RunKeepsApart(s, t, tx');
  }

  lemma RunKeepsDb(gates: set<StepKey>, db: Tables, nextSeq: nat, nextSeq': nat, hist: seq<CommitRecord>)
    requires DbOk(gates, db, nextSeq, hist) && nextSeq <= nextSeq'
    ensures DbOk(gates, db, nextSeq', hist)
  {
  }

  lemma SeqsDrawn(s: State)
    requires TxsOk(s)
    ensures forall u, q :: u in s.txs && q in s.txs[u].events ==> q < s.nextSeq
  {
  }

  lemma CommitKeepsInv(s: State, t: nat, s': State)
    requires Inv(s) && Step(s, Commit(t), s')
    ensures Inv(s')
  {
    CommitKeepsDb(s.gates, s.db, s.nextSeq, s.txs[t], s.hist);
    forall u | u in s'.txs ensures TxOk(s'.gates, s'.db, s'.nextSeq, s'.txs[u]) {
      OthersSurvive(s.gates, s.db, s.nextSeq, s.txs[t], s.txs[u]);
    }
  }

  /** Creating a row changes nothing an open transaction relies on. */
  lemma CreateKeepsTx(gates: set<StepKey>, db: Tables, db': Tables, nextSeq: nat, tx: Tx)
    requires TxOk(gates, db, nextSeq, tx)
    requires db'.attempts == db.attempts && db'.events == db.events && db'.intents == db.intents
    requires forall k :: k in db.steps ==> k in db'.steps && db'.steps[k] == db.steps[k]
    requires forall r :: r in db.runs ==> r in db'.runs && db'.runs[r] == db.runs[r]
    ensures TxOk(gates, db', nextSeq, tx)
  {
    CreateKeepsClaim(db, db', tx);
  }

  lemma CreateKeepsClaim(db: Tables, db': Tables, tx: Tx)
    requires ClaimOk(db, tx) && db'.attempts == db.attempts && db'.intents == db.intents
    ensures ClaimOk(db', tx)
  {
    if tx.op.Claim? && tx.phase.Minting? {
      forall k | k in tx.steps && k !in tx.phase.rows
        ensures exists n :: Launched(db', tx.attempts, tx.intents, tx.todoIntents, k, n)
      {
        var n :| Launched(db, tx.attempts, tx.intents, tx.todoIntents, k, n);
        assert Launched(db', tx.attempts, tx.intents, tx.todoIntents, k, n);
      }
    }
  }

  lemma CreateStepKeepsJournal(db: Tables, k: StepKey)
    requires JournalAgrees(db) && k !in db.steps
    ensures JournalAgrees(db.(steps := db.steps[k := StepStatus.Pending]))
  {
    var db' := db.(steps := db.steps[k := StepStatus.Pending]);
    forall j | j in db'.steps ensures StepAgrees(db', j) {
      if j != k { assert StepAgrees(db, j); }
    }
    forall r | r in db'.runs ensures RunAgrees(db', r) { assert RunAgrees(db, r); }
  }

  lemma CreateRunKeepsJournal(db: Tables, r: RunId)
    requires JournalAgrees(db) && r !in db.runs
    ensures JournalAgrees(db.(runs := db.runs[r := RunState(RunStatus.Pending, 0)]))
  {
    var db' := db.(runs := db.runs[r := RunState(RunStatus.Pending, 0)]);
    forall k | k in db'.steps ensures StepAgrees(db', k) { assert StepAgrees(db, k); }
    forall q | q in db'.runs ensures RunAgrees(db', q) {
      if q != r { assert RunAgrees(db, q); }
    }
  }

  lemma CreateKeepsClaims(db: Tables, db': Tables, hist: seq<CommitRecord>)
    requires ClaimsBacked(db, hist) && db'.attempts == db.attempts && db'.intents == db.intents
    ensures ClaimsBacked(db', hist)
  {
    forall i, k | 0 <= i < |hist| && hist[i].op.Claim? && k in hist[i].steps
      ensures exists n :: ClaimBacked(db', hist[i], k, n)
    {
      var n :| ClaimBacked(db, hist[i], k, n);
      assert ClaimBacked(db', hist[i], k, n);
    }
  }

  lemma CreateStepKeepsDb(gates: set<StepKey>, db: Tables, k: StepKey, nextSeq: nat, hist: seq<CommitRecord>)
    requires DbOk(gates, db, nextSeq, hist) && k !in db.steps
    ensures DbOk(gates, db.(steps := db.steps[k := StepStatus.Pending]), nextSeq, hist)
  {
    CreateStepKeepsJournal(db, k);
    CreateKeepsClaims(db, db.(steps := db.steps[k := StepStatus.Pending]), hist);
  }

  lemma CreateRunKeepsDb(gates: set<StepKey>, db: Tables, r: RunId, nextSeq: nat, hist: seq<CommitRecord>)
    requires DbOk(gates, db, nextSeq, hist) && r !in db.runs
    ensures DbOk(gates, db.(runs := db.runs[r := RunState(RunStatus.Pending, 0)]), nextSeq, hist)
  {
    CreateRunKeepsJournal(db, r);
    CreateKeepsClaims(db, db.(runs := db.runs[r := RunState(RunStatus.Pending, 0)]), hist);
  }

  lemma CreateKeepsTxs(s: State, db': Tables)
    requires TxsOk(s)
    requires db'.attempts == s.db.attempts && db'.events == s.db.events && db'.intents == s.db.intents
    requires forall k :: k in s.db.steps ==> k in db'.steps && db'.steps[k] == s.db.steps[k]
    requires forall r :: r in s.db.runs ==> r in db'.runs && db'.runs[r] == s.db.runs[r]
    ensures TxsOk(s.(db := db'))
  {
    forall u | u in s.txs ensures TxOk(s.gates, db', s.nextSeq, s.txs[u]) {
      CreateKeepsTx(s.gates, s.db, db', s.nextSeq, s.txs[u]);
    }
  }

  lemma CreateStepKeepsInv(s: State, k: StepKey, s': State)
    requires Inv(s) && Step(s, CreateStep(k), s')
    ensures Inv(s')
  {
    CreateStepKeepsDb(s.gates, s.db, k, s.nextSeq, s.hist);
    CreateKeepsTxs(s, s'.db);
  }

  lemma CreateRunKeepsInv(s: State, r: RunId, s': State)
    requires Inv(s) && Step(s, CreateRun(r), s')
    ensures Inv(s')
  {
    CreateRunKeepsDb(s.gates, s.db, r, s.nextSeq, s.hist);
    CreateKeepsTxs(s, s'.db);
  }

  lemma RunKeepsInv(s: State, t: nat, stmt: Statement, tx': Tx, s': State)
    requires Inv(s) && Step(s, Run(t, stmt, tx'), s')
    ensures Inv(s')
  {
    RunKeepsTxs(s, t, stmt, tx', s');
    SeqsDrawn(s);
    RunKeepsAllApart(s, t, stmt, tx', s');
    RunKeepsDb(s.gates, s.db, s.nextSeq, s'.nextSeq, s.hist);
  }

  lemma AbortKeepsInv(s: State, t: nat, s': State)
    requires Inv(s) && Step(s, Abort(t), s')
    ensures Inv(s')
  {
  }

  lemma StepKeepsInv(s: State, action: Action, s': State)
    requires Inv(s) && Step(s, action, s')
    ensures Inv(s')
  {
    match action
    case Begin(t, op) => BeginKeepsInv(s, t, op, s');
    case Run(t, stmt, tx') => RunKeepsInv(s, t, stmt, tx', s');
    case Commit(t) => CommitKeepsInv(s, t, s');
    case Abort(t) => AbortKeepsInv(s, t, s');
    case CreateRun(r) => CreateRunKeepsInv(s, r, s');
    case CreateStep(k) => CreateStepKeepsInv(s, k, s');
  }

  lemma InitInv(s: State)
    requires Init(s)
    ensures Inv(s)
  {
    EndsOfEmpty();
  }

  /** Every state of every run satisfies the invariant. */
  lemma {:induction false} RunInv(trace: seq<State>, acts: seq<Action>, i: nat)
    requires IsRun(trace, acts) && i < |trace|
    ensures Inv(trace[i])
  {
    if i == 0 {
      InitInv(trace[0]);
    } else {
      RunInv(trace, acts, i - 1);
      StepKeepsInv(trace[i - 1], acts[i - 1], trace[i]);
    }
  }
}
