/** Over every run of the engine's calls each Attempt is journalled started at most once and finished at most once. */
module RunStoreEngine {
  import opened Options
  import opened RunStore
  import opened RunStoreInvariant
  import opened RunStoreCommit
  import opened RunStoreRuns
  import opened RunStoreMarks

  function MintIn(c: CommitRecord, a: AttemptKey): nat {
    if MintsStarts(c.op) && a in c.minted then 1 else 0
  }

  /** How many commits of `hist` minted `a` in a claim or a gate wait. */
  function MintCount(hist: seq<CommitRecord>, a: AttemptKey): nat {
    if hist == [] then 0 else MintCount(hist[..|hist| - 1], a) + MintIn(hist[|hist| - 1], a)
  }

  ghost predicate StartsOk(events: Journal, hist: seq<CommitRecord>) {
    forall a :: |Marks(events, Start(a))| == MintCount(hist, a)
  }

  /** A finished Attempt will not be finished again: on a gate it is closed, elsewhere it is no longer what a
      running step runs. */
  ghost predicate Settled(gates: set<StepKey>, db: Tables, a: AttemptKey) {
    && a in db.attempts
    && if a.step in gates then !db.attempts[a].Running?
       else a.step in db.steps && db.steps[a.step].Running? ==>
              exists b :: b in db.attempts && b.step == a.step && a.n < b.n
  }

  ghost predicate FinishesOk(gates: set<StepKey>, db: Tables) {
    forall a :: var n := |Marks(db.events, Finish(a))|; n <= 1 && (n == 1 ==> Settled(gates, db, a))
  }

  ghost predicate EngineTxs(s: State) {
    forall t :: t in s.txs ==> EngineTx(s.db.attempts, s.txs[t])
  }

  ghost predicate EngineDb(gates: set<StepKey>, db: Tables, hist: seq<CommitRecord>) {
    NumbersOk(db.attempts) && StartsOk(db.events, hist) && FinishesOk(gates, db)
  }

  ghost predicate EngineInv(s: State) {
    EngineTxs(s) && EngineDb(s.gates, s.db, s.hist)
  }

  // -------------------------------------------------------------------------- a commit

  lemma MarksJoined(committed: Journal, events: Journal, x: Mark)
    requires forall q :: q in events ==> q !in committed
    ensures |Marks(committed + events, x)| == |Marks(committed, x)| + |Marks(events, x)|
  {
    var before, staged := Marks(committed, x), Marks(events, x);
    assert Marks(committed + events, x) == before + staged;
    assert before !! staged;
  }

  /** What a finished transaction has staged is what it owed. */
  lemma AllStaged(committed: Staged, tx: Tx, x: Mark)
    requires MarksOk(committed, tx) && tx.todoEvents == []
    ensures |Marks(tx.events, x)| == Owed(committed, tx.op, tx.phase, tx.attempts, x)
  {
    assert CountMarks(tx.todoEvents, x) == 0;
  }

  lemma CommitStarts(db: Tables, tx: Tx, hist: seq<CommitRecord>)
    requires StartsOk(db.events, hist) && MarksOk(db.attempts, tx) && tx.todoEvents == []
    requires forall q :: q in tx.events ==> q !in db.events
    ensures StartsOk(Applied(db, tx).events, hist + [RecordOf(db, tx)])
  {
    var hist' := hist + [RecordOf(db, tx)];
    assert hist'[..|hist|] == hist;
    forall a ensures |Marks(Applied(db, tx).events, Start(a))| == MintCount(hist', a) {
      MarksJoined(db.events, tx.events, Start(a));
      AllStaged(db.attempts, tx, Start(a));
    }
  }

  lemma AttemptsGrow(db: Tables, tx: Tx, k: StepKey)
    ensures |AttemptsOf(db.attempts, k)| <= |AttemptsOf(Applied(db, tx).attempts, k)|
    ensures forall a :: a in tx.attempts && a !in db.attempts && a.step == k ==>
              |AttemptsOf(db.attempts, k)| + 1 <= |AttemptsOf(Applied(db, tx).attempts, k)|
  {
    SubsetSize(AttemptsOf(db.attempts, k), AttemptsOf(Applied(db, tx).attempts, k));
    forall a | a in tx.attempts && a !in db.attempts && a.step == k
      ensures |AttemptsOf(db.attempts, k)| + 1 <= |AttemptsOf(Applied(db, tx).attempts, k)|
    {
      SubsetSize(AttemptsOf(db.attempts, k) + {a}, AttemptsOf(Applied(db, tx).attempts, k));
    }
  }

  lemma {:induction false} SubsetSize(a: set<AttemptKey>, b: set<AttemptKey>)
    requires a <= b
    ensures |a| <= |b|
    decreases a
  {
    if x :| x in a {
      SubsetSize(a - {x}, b - {x});
    }
  }

  lemma CommitNumbers(db: Tables, tx: Tx)
    requires NumbersOk(db.attempts) && NewOk(db.attempts, tx.locks, tx.attempts)
    ensures NumbersOk(Applied(db, tx).attempts)
  {
    forall a | a in Applied(db, tx).attempts ensures a.n <= |AttemptsOf(Applied(db, tx).attempts, a.step)| {
      AttemptsGrow(db, tx, a.step);
    }
  }

  /** What the commit leaves of an Attempt that was settled: a claim of its step mints a higher one. */
  lemma StaysSettled(gates: set<StepKey>, db: Tables, nextSeq: nat, tx: Tx, a: AttemptKey)
    requires Settled(gates, db, a) && EngineTx(db.attempts, tx) && Finished(tx)
    requires GateAttempts(gates, db.attempts, tx.locks, tx.attempts) && ClaimOk(db, tx)
    ensures Settled(gates, Applied(db, tx), a)
  {
    var db' := Applied(db, tx);
    if a.step !in gates && a.step in db'.steps && db'.steps[a.step].Running? {
      if a.step in tx.steps {
        var n :| Launched(db, tx.attempts, tx.intents, tx.todoIntents, a.step, n);
        assert AttemptKey(a.step, n) in db'.attempts;
      } else {
        var b :| b in db.attempts && b.step == a.step && a.n < b.n;
        assert b in db'.attempts;
      }
    }
  }

  /** Whoever finishes an Attempt finds it not finished before, and leaves it settled. */
  lemma FinishesFirst(gates: set<StepKey>, db: Tables, tx: Tx, a: AttemptKey)
    requires EngineTx(db.attempts, tx) && Finished(tx) && FinishesOk(gates, db) && GatesOk(gates, db)
    requires FrontierOk(db.attempts, tx.op, tx.phase, tx.steps) && ResolveOk(db, tx) && StepReads(db, tx.steps)
    requires WellFormed(tx.op, gates) && Owed(db.attempts, tx.op, tx.phase, tx.attempts, Finish(a)) > 0
    ensures Owed(db.attempts, tx.op, tx.phase, tx.attempts, Finish(a)) == 1
    ensures |Marks(db.events, Finish(a))| == 0 && Settled(gates, Applied(db, tx), a)
  {
    if tx.op.StepTransition? {
      assert Latest(db.attempts, tx.op.k, Some(a.n)) && db.steps[tx.op.k].Running?;
      assert !Settled(gates, db, a);
    } else {
      assert VerdictOk(db.attempts, tx.attempts, a, tx.op.passed);
      assert a in db.attempts ==> db.attempts[a].Running?;
    }
  }

  lemma CommitFinishes(gates: set<StepKey>, db: Tables, nextSeq: nat, tx: Tx)
    requires EngineTx(db.attempts, tx) && Finished(tx) && FinishesOk(gates, db) && GatesOk(gates, db)
    requires CallOk(gates, db, tx) && WellFormed(tx.op, gates)
    requires forall q :: q in tx.events ==> q !in db.events
    ensures FinishesOk(gates, Applied(db, tx))
  {
    forall a ensures var n := |Marks(Applied(db, tx).events, Finish(a))|;
                     n <= 1 && (n == 1 ==> Settled(gates, Applied(db, tx), a))
    {
      MarksJoined(db.events, tx.events, Finish(a));
      AllStaged(db.attempts, tx, Finish(a));
      if Owed(db.attempts, tx.op, tx.phase, tx.attempts, Finish(a)) > 0 {
        FinishesFirst(gates, db, tx, a);
      } else if |Marks(db.events, Finish(a))| == 1 {
        StaysSettled(gates, db, nextSeq, tx, a);
      }
    }
  }

  // ------------------------------------------------------------- the other transactions

  lemma OthersNew(db: Tables, tx: Tx, ux: Tx)
    requires LocksOk(db, tx) && LocksOk(db, ux) && Apart(tx, ux) && NewOk(db.attempts, ux.locks, ux.attempts)
    ensures NewOk(Applied(db, tx).attempts, ux.locks, ux.attempts)
    ensures forall a :: a in ux.attempts ==> (a in Applied(db, tx).attempts <==> a in db.attempts)
  {
    HeldRowsKept(db, tx, ux);
    var committed := Applied(db, tx).attempts;
    forall a | a in ux.attempts && a !in committed
      ensures AttemptsOf(committed, a.step) == AttemptsOf(db.attempts, a.step)
    {
      NoForeignMint(db, tx, ux, a.step);
    }
  }

  lemma SameOwed(committed: Staged, committed': Staged, tx: Tx)
    requires MarksOk(committed, tx) && forall a :: a in tx.attempts ==> (a in committed' <==> a in committed)
    ensures MarksOk(committed', tx)
  {
    assert forall x :: Owed(committed', tx.op, tx.phase, tx.attempts, x)
                       == Owed(committed, tx.op, tx.phase, tx.attempts, x);
  }

  lemma OthersMarks(db: Tables, tx: Tx, ux: Tx)
    requires LocksOk(db, tx) && LocksOk(db, ux) && Apart(tx, ux) && EngineTx(db.attempts, ux)
    ensures EngineTx(Applied(db, tx).attempts, ux)
  {
    OthersNew(db, tx, ux);
    SameOwed(db.attempts, Applied(db, tx).attempts, ux);
  }

  lemma CommitKeepsDb(s: State, t: nat)
    requires TxsOk(s) && DbOk(s.gates, s.db, s.nextSeq, s.hist) && EngineInv(s) && t in s.txs && Finished(s.txs[t])
    ensures EngineDb(s.gates, Applied(s.db, s.txs[t]), s.hist + [RecordOf(s.db, s.txs[t])])
  {
    var tx := s.txs[t];
    assert TxOk(s.gates, s.db, s.nextSeq, tx) && EngineTx(s.db.attempts, tx);
    CommitStarts(s.db, tx, s.hist);
    CommitNumbers(s.db, tx);
    CommitFinishes(s.gates, s.db, s.nextSeq, tx);
  }

  lemma CommitKeepsEngine(s: State, t: nat, s': State)
    requires Inv(s) && EngineInv(s) && Step(s, Commit(t), s')
    ensures EngineInv(s')
  {
    CommitKeepsDb(s, t);
    forall u | u in s'.txs ensures EngineTx(s'.db.attempts, s'.txs[u]) {
      OthersMarks(s.db, s.txs[t], s.txs[u]);
    }
  }

  lemma ReplaceEngineTx(s: State, t: nat, tx': Tx)
    requires EngineTxs(s) && EngineTx(s.db.attempts, tx')
    ensures EngineTxs(s.(txs := s.txs[t := tx']))
  {
  }

  lemma RunKeepsEngine(s: State, t: nat, stmt: Statement, tx': Tx, s': State)
    requires TxsOk(s) && EngineInv(s) && Step(s, Run(t, stmt, tx'), s')
    ensures EngineInv(s')
  {
    assert TxOk(s.gates, s.db, s.nextSeq, s.txs[t]) && EngineTx(s.db.attempts, s.txs[t]);
    StatementMarks(s.gates, s.db, s.nextSeq, s.txs[t], stmt, tx');
    ReplaceEngineTx(s, t, tx');
  }

  lemma BeginKeepsEngine(s: State, t: nat, op: Op, s': State)
    requires EngineInv(s) && Step(s, Begin(t, op), s') && EngineOp(op)
    ensures EngineInv(s')
  {
    FreshIsEngine(s.db.attempts, op);
    ReplaceEngineTx(s, t, Fresh(op));
  }

  lemma AbortKeepsEngine(s: State, t: nat, s': State)
    requires EngineInv(s) && Step(s, Abort(t), s')
    ensures EngineInv(s')
  {
  }

  /** A new row, of a run or of a pending step, starts and finishes nothing. */
  lemma CreateKeepsEngineDb(gates: set<StepKey>, db: Tables, db': Tables, hist: seq<CommitRecord>)
    requires EngineDb(gates, db, hist) && db'.attempts == db.attempts && db'.events == db.events
    requires forall k :: k in db'.steps && db'.steps[k].Running? ==> k in db.steps && db.steps[k].Running?
    ensures EngineDb(gates, db', hist)
  {
    assert forall a :: Settled(gates, db, a) ==> Settled(gates, db', a);
  }

  lemma CreateKeepsEngine(s: State, action: Action, s': State)
    requires EngineInv(s) && Step(s, action, s') && (action.CreateRun? || action.CreateStep?)
    ensures EngineInv(s')
  {
    CreateKeepsEngineDb(s.gates, s.db, s'.db, s.hist);
  }

  lemma StepKeepsEngine(s: State, action: Action, s': State)
    requires Inv(s) && EngineInv(s) && Step(s, action, s') && (action.Begin? ==> EngineOp(action.op))
    ensures EngineInv(s')
  {
    match action
    case Begin(t, op) => BeginKeepsEngine(s, t, op, s');
    case Run(t, stmt, tx') => RunKeepsEngine(s, t, stmt, tx', s');
    case Commit(t) => CommitKeepsEngine(s, t, s');
    case Abort(t) => AbortKeepsEngine(s, t, s');
    case _ => CreateKeepsEngine(s, action, s');
  }

  lemma InitEngine(s: State)
    requires Init(s)
    ensures EngineInv(s)
  {
    NothingMarked();
  }

  lemma EngineNext(trace: seq<State>, acts: seq<Action>, m: nat)
    requires IsRun(trace, acts) && EngineRun(acts) && m < |acts| && EngineInv(trace[m])
    ensures EngineInv(trace[m + 1])
  {
    RunInv(trace, acts, m);
    StepKeepsEngine(trace[m], acts[m], trace[m + 1]);
  }

  lemma {:induction false} RunEngine(trace: seq<State>, acts: seq<Action>, i: nat)
    requires IsRun(trace, acts) && EngineRun(acts) && i < |trace|
    ensures EngineInv(trace[i])
  {
    if i == 0 {
      InitEngine(trace[0]);
    } else {
      var m := i - 1;
      RunEngine(trace, acts, m);
      EngineNext(trace, acts, m);
    }
  }

  // -------------------------------------------------------------------------- theorems

  lemma {:induction false} MintedOnce(hist: seq<CommitRecord>, a: AttemptKey)
    requires forall i, j :: 0 <= i < j < |hist| && a in hist[i].minted ==> a !in hist[j].minted
    ensures MintCount(hist, a) <= 1
    ensures MintCount(hist, a) == 1 <==> exists i :: 0 <= i < |hist| && MintsStarts(hist[i].op) && a in hist[i].minted
    decreases |hist|
  {
    if hist != [] {
      var front, last := hist[..|hist| - 1], |hist| - 1;
      MintedOnce(front, a);
      if MintsStarts(hist[last].op) && a in hist[last].minted {
        assert forall i :: 0 <= i < last ==> a !in hist[i].minted;
      } else if i :| 0 <= i < |hist| && MintsStarts(hist[i].op) && a in hist[i].minted {
        assert front[i] == hist[i];
      }
    }
  }

  /** An Attempt has one start entry if a claim or a gate wait minted it, and none otherwise. */
  lemma StartedIffMinted(trace: seq<State>, acts: seq<Action>, i: nat, a: AttemptKey)
    requires IsRun(trace, acts) && EngineRun(acts) && i < |trace|
    ensures var hist := trace[i].hist;
            |Marks(trace[i].db.events, Start(a))| ==
              if exists m :: 0 <= m < |hist| && MintsStarts(hist[m].op) && a in hist[m].minted then 1 else 0
  {
    RunEngine(trace, acts, i);
    RunInv(trace, acts, i);
    assert MintsDistinct(trace[i].db, trace[i].hist);
    MintedOnce(trace[i].hist, a);
  }

  /** An Attempt is journalled finished at most once, and then it is committed. */
  lemma FinishedOnce(trace: seq<State>, acts: seq<Action>, i: nat, a: AttemptKey)
    requires IsRun(trace, acts) && EngineRun(acts) && i < |trace|
    ensures |Marks(trace[i].db.events, Finish(a))| <= 1
    ensures |Marks(trace[i].db.events, Finish(a))| == 1 ==> Settled(trace[i].gates, trace[i].db, a)
  {
    RunEngine(trace, acts, i);
  }
}
