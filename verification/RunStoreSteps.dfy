/** Every statement of an open transaction keeps what `TxOk` says of it. */
module RunStoreSteps {
  import opened Options
  import opened RunStore
  import opened RunStoreInvariant

  lemma CasStepData(gates: set<StepKey>, db: Tables, tx: Tx, tx': Tx)
    requires DataOk(gates, db, tx) && CasStepEffect(db, tx, tx')
    requires WellFormed(tx.op, gates)
    ensures DataOk(gates, db, tx')
  {
  }

  lemma CasStepEntries(gates: set<StepKey>, db: Tables, nextSeq: nat, tx: Tx, tx': Tx)
    requires EntriesOk(db, nextSeq, tx) && CasStepEffect(db, tx, tx')
    requires WellFormed(tx.op, gates) && tx == Fresh(tx.op)
    ensures EntriesOk(db, nextSeq, tx')
  {
    NothingStaged(tx'.todoEvents);
  }

  lemma CheckFrontierData(gates: set<StepKey>, db: Tables, tx: Tx, tx': Tx)
    requires DataOk(gates, db, tx) && CheckFrontierEffect(db, tx, tx')
    ensures DataOk(gates, db, tx')
  {
  }

  lemma StampLocks(gates: set<StepKey>, db: Tables, tx: Tx, tx': Tx)
    requires LocksOk(db, tx) && StampEffect(db, tx, tx')
    ensures LocksOk(db, tx')
  {
    var a, o := AttemptKey(tx.op.k, tx.op.stamp.value.attempt), tx.op.stamp.value.outcome;
    if a in db.attempts && !ByIntent(db.attempts[a]) {
      StageLocks(db, tx, a, o);
    }
  }

  lemma StampCall(gates: set<StepKey>, db: Tables, tx: Tx, tx': Tx)
    requires CallOk(gates, db, tx) && StampEffect(db, tx, tx')
    requires WellFormed(tx.op, gates)
    ensures CallOk(gates, db, tx')
  {
    var a, o := AttemptKey(tx.op.k, tx.op.stamp.value.attempt), tx.op.stamp.value.outcome;
    if a in db.attempts && !ByIntent(db.attempts[a]) {
      StageGate(gates, db.attempts, tx, a, o);
    }
  }

  lemma UpdateAttemptLocks(gates: set<StepKey>, db: Tables, tx: Tx, tx': Tx)
    requires LocksOk(db, tx) && UpdateAttemptEffect(db, tx, tx')
    ensures LocksOk(db, tx')
  {
    if tx.op.a in db.attempts && !ByIntent(db.attempts[tx.op.a]) {
      StageLocks(db, tx, tx.op.a, tx.op.outcome);
    }
  }

  lemma UpdateAttemptCall(gates: set<StepKey>, db: Tables, tx: Tx, tx': Tx)
    requires CallOk(gates, db, tx) && UpdateAttemptEffect(db, tx, tx')
    requires WellFormed(tx.op, gates)
    ensures CallOk(gates, db, tx')
  {
    if tx.op.a in db.attempts && !ByIntent(db.attempts[tx.op.a]) {
      StageGate(gates, db.attempts, tx, tx.op.a, tx.op.outcome);
    }
  }

  lemma UpdateAttemptEntries(gates: set<StepKey>, db: Tables, nextSeq: nat, tx: Tx, tx': Tx)
    requires EntriesOk(db, nextSeq, tx) && UpdateAttemptEffect(db, tx, tx')
    requires WellFormed(tx.op, gates) && tx == Fresh(tx.op)
    ensures EntriesOk(db, nextSeq, tx')
  {
    NothingStaged(tx'.todoEvents);
  }

  lemma ClaimRowsLocks(db: Tables, tx: Tx, picked: seq<StepKey>, tx': Tx)
    requires LocksOk(db, tx) && ClaimRowsEffect(db, tx, picked, tx')
    ensures LocksOk(db, tx')
  {
    forall k | k in picked ensures Excl(tx'.locks, StepRow(k)) {
      assert StepRow(k) in StepRows(picked);
    }
  }

  lemma ClaimRowsCall(gates: set<StepKey>, db: Tables, tx: Tx, picked: seq<StepKey>, tx': Tx)
    requires CallOk(gates, db, tx) && ClaimRowsEffect(db, tx, picked, tx')
    requires forall k :: k in gates && k in db.steps ==> !db.steps[k].Ready?
    ensures CallOk(gates, db, tx')
  {
  }

  lemma ClaimRowsEntries(gates: set<StepKey>, db: Tables, nextSeq: nat, tx: Tx, picked: seq<StepKey>, tx': Tx)
    requires EntriesOk(db, nextSeq, tx) && ClaimRowsEffect(db, tx, picked, tx')
    requires tx == Fresh(tx.op)
    ensures EntriesOk(db, nextSeq, tx')
  {
    NothingStaged(tx'.todoEvents);
  }

  lemma MintLaunchLocks(gates: set<StepKey>, db: Tables, tx: Tx, tx': Tx)
    requires LocksOk(db, tx) && MintLaunchEffect(db, tx, tx')
    requires tx.phase.rows[0] in tx.steps && tx.phase.rows[0] in db.steps
    ensures LocksOk(db, tx')
  {
    var k := tx.phase.rows[0];
    var a := AttemptKey(k, |AttemptsOf(db.attempts, k)| + 1);
    StageLocks(db, tx, a, Outcome.Running);
  }

  lemma MintLaunchCall(gates: set<StepKey>, db: Tables, tx: Tx, tx': Tx)
    requires CallOk(gates, db, tx) && MintLaunchEffect(db, tx, tx')
    ensures CallOk(gates, db, tx')
  {
    var k := tx.phase.rows[0];
    var a := AttemptKey(k, |AttemptsOf(db.attempts, k)| + 1);
    StageGate(gates, db.attempts, tx, a, Outcome.Running);
    LaunchOne(db, tx.steps, tx.phase.rows, tx.attempts, tx.intents, a);
  }

  lemma MintLaunchEntries(gates: set<StepKey>, db: Tables, nextSeq: nat, tx: Tx, tx': Tx)
    requires EntriesOk(db, nextSeq, tx) && MintLaunchEffect(db, tx, tx')
    ensures EntriesOk(db, nextSeq, tx')
  {
    AddNote(db.events, nextSeq, tx.steps, tx.runs, tx.events, tx'.todoEvents[0]);
  }

  lemma ShareStepData(gates: set<StepKey>, db: Tables, tx: Tx, tx': Tx)
    requires DataOk(gates, db, tx) && ShareStepEffect(db, tx, tx')
    ensures DataOk(gates, db, tx')
  {
  }

  lemma InsertAttemptLocks(gates: set<StepKey>, db: Tables, tx: Tx, tx': Tx)
    requires LocksOk(db, tx) && InsertAttemptEffect(db, tx, tx')
    requires StepRow(tx.op.a.step) in tx.locks && tx.op.a.step in db.steps
    ensures LocksOk(db, tx')
  {
    if tx.op.a !in db.attempts {
      StageLocks(db, tx, tx.op.a, tx.op.outcome);
    }
  }

  lemma InsertAttemptCall(gates: set<StepKey>, db: Tables, tx: Tx, tx': Tx)
    requires CallOk(gates, db, tx) && InsertAttemptEffect(db, tx, tx')
    requires WellFormed(tx.op, gates)
    ensures CallOk(gates, db, tx')
  {
    if tx.op.a !in db.attempts {
      StageGate(gates, db.attempts, tx, tx.op.a, tx.op.outcome);
    }
  }

  lemma CasRunData(gates: set<StepKey>, db: Tables, tx: Tx, tx': Tx)
    requires DataOk(gates, db, tx) && CasRunEffect(db, tx, tx')
    ensures DataOk(gates, db, tx')
  {
  }

  lemma CasRunEntries(gates: set<StepKey>, db: Tables, nextSeq: nat, tx: Tx, tx': Tx)
    requires EntriesOk(db, nextSeq, tx) && CasRunEffect(db, tx, tx')
    requires WellFormed(tx.op, gates) && tx == Fresh(tx.op)
    ensures EntriesOk(db, nextSeq, tx')
  {
    EndsOfEmpty();
    forall r | r != tx.op.r ensures CountEnds(tx'.todoEvents, r) == 0 {
      NoEnds(tx'.todoEvents, r);
    }
  }

  lemma LockPendingStepData(gates: set<StepKey>, db: Tables, tx: Tx, tx': Tx)
    requires DataOk(gates, db, tx) && LockPendingStepEffect(db, tx, tx')
    ensures DataOk(gates, db, tx')
  {
  }

  lemma OpenWaitLocks(gates: set<StepKey>, db: Tables, tx: Tx, latest: Option<nat>, tx': Tx)
    requires LocksOk(db, tx) && OpenWaitEffect(db, tx, latest, tx')
    requires StepRow(tx.op.k) in tx.locks && tx.op.k in db.steps
    ensures LocksOk(db, tx')
  {
    if !(latest.Some? && db.attempts[AttemptKey(tx.op.k, latest.value)].Running?) {
      StageLocks(db, tx, AttemptKey(tx.op.k, NextNumber(latest)), Outcome.Running);
    }
  }

  lemma OpenWaitCall(gates: set<StepKey>, db: Tables, tx: Tx, latest: Option<nat>, tx': Tx)
    requires CallOk(gates, db, tx) && OpenWaitEffect(db, tx, latest, tx')
    requires OneWait(db.attempts, tx.op.k)
    ensures CallOk(gates, db, tx')
  {
    if !(latest.Some? && db.attempts[AttemptKey(tx.op.k, latest.value)].Running?) {
      StageGate(gates, db.attempts, tx, AttemptKey(tx.op.k, NextNumber(latest)), Outcome.Running);
    }
  }

  lemma OpenWaitEntries(gates: set<StepKey>, db: Tables, nextSeq: nat, tx: Tx, latest: Option<nat>, tx': Tx)
    requires EntriesOk(db, nextSeq, tx) && OpenWaitEffect(db, tx, latest, tx')
    requires tx.events == map[] && tx.steps == map[] && tx.runs == map[] && tx.todoEvents == []
    ensures EntriesOk(db, nextSeq, tx')
  {
    NothingStaged(tx'.todoEvents);
  }

  lemma CloseWaitLocks(gates: set<StepKey>, db: Tables, tx: Tx, n: nat, tx': Tx)
    requires LocksOk(db, tx) && CloseWaitEffect(db, tx, n, tx')
    requires StepRow(tx.op.k) in tx.locks && tx.op.k in db.steps
    ensures LocksOk(db, tx')
  {
    StageLocks(db, tx, AttemptKey(tx.op.k, n), GateOutcome(tx.op.passed));
  }

  lemma CloseWaitCall(gates: set<StepKey>, db: Tables, tx: Tx, n: nat, tx': Tx)
    requires CallOk(gates, db, tx) && CloseWaitEffect(db, tx, n, tx')
    requires OneWait(db.attempts, tx.op.k)
    ensures CallOk(gates, db, tx')
  {
    StageGate(gates, db.attempts, tx, AttemptKey(tx.op.k, n), GateOutcome(tx.op.passed));
  }

  lemma MintClosedLocks(gates: set<StepKey>, db: Tables, tx: Tx, latest: Option<nat>, tx': Tx)
    requires LocksOk(db, tx) && MintClosedEffect(db, tx, latest, tx')
    requires StepRow(tx.op.k) in tx.locks && tx.op.k in db.steps
    ensures LocksOk(db, tx')
  {
    StageLocks(db, tx, AttemptKey(tx.op.k, NextNumber(latest)), GateOutcome(tx.op.passed));
  }

  lemma MintClosedCall(gates: set<StepKey>, db: Tables, tx: Tx, latest: Option<nat>, tx': Tx)
    requires CallOk(gates, db, tx) && MintClosedEffect(db, tx, latest, tx')
    requires OneWait(db.attempts, tx.op.k)
    ensures CallOk(gates, db, tx')
  {
    StageGate(gates, db.attempts, tx, AttemptKey(tx.op.k, NextNumber(latest)), GateOutcome(tx.op.passed));
  }

  lemma MintClosedEntries(gates: set<StepKey>, db: Tables, nextSeq: nat, tx: Tx, latest: Option<nat>, tx': Tx)
    requires EntriesOk(db, nextSeq, tx) && MintClosedEffect(db, tx, latest, tx')
    requires tx.events == map[] && tx.steps == map[] && tx.runs == map[] && tx.todoEvents == []
    ensures EntriesOk(db, nextSeq, tx')
  {
    NothingStaged(tx'.todoEvents);
  }

  lemma MoveGateData(gates: set<StepKey>, db: Tables, tx: Tx, tx': Tx)
    requires DataOk(gates, db, tx) && MoveGateEffect(db, tx, tx')
    ensures DataOk(gates, db, tx')
  {
  }

  lemma MoveGateEntries(gates: set<StepKey>, db: Tables, nextSeq: nat, tx: Tx, tx': Tx)
    requires EntriesOk(db, nextSeq, tx) && MoveGateEffect(db, tx, tx')
    requires tx.events == map[] && tx.steps == map[] && tx.runs == map[] && MovesNothing(tx.todoEvents)
    ensures EntriesOk(db, nextSeq, tx')
  {
    NothingStaged(tx'.todoEvents);
    var noted := if tx.op.passed || tx.op.expired then 1 else 0;
    assert MovesStep(tx'.todoEvents[|tx.todoEvents| + 1 + noted], tx.op.k);
  }

  lemma InsertEventData(gates: set<StepKey>, db: Tables, tx: Tx, nextSeq: nat, tx': Tx)
    requires DataOk(gates, db, tx) && InsertEventEffect(nextSeq, tx, tx')
    ensures DataOk(gates, db, tx')
  {
  }

  lemma InsertIntentLocks(gates: set<StepKey>, db: Tables, tx: Tx, tx': Tx)
    requires LocksOk(db, tx) && InsertIntentEffect(db, tx, tx')
    ensures LocksOk(db, tx')
  {
    LockRow(db, tx.locks, tx.steps, tx.attempts, tx.runs, IntentRow(tx.todoIntents[0]));
  }

  lemma InsertIntentCall(gates: set<StepKey>, db: Tables, tx: Tx, tx': Tx)
    requires CallOk(gates, db, tx) && InsertIntentEffect(db, tx, tx')
    ensures CallOk(gates, db, tx')
  {
    LockKeepsGate(gates, db.attempts, tx.locks, tx.attempts, IntentRow(tx.todoIntents[0]));
    if tx.op.Claim? && tx.phase.Minting? {
      InsertOne(db, tx.steps, tx.phase.rows, tx.attempts, tx.intents, tx.todoIntents, tx'.intents);
    }
    TailKeepsCall(gates, db, tx, tx');
  }

  /** Past the guarded statements, inserts and further locks change nothing a call relies on. */
  lemma TailKeepsCall(gates: set<StepKey>, db: Tables, tx: Tx, tx': Tx)
    requires CallOk(gates, db, tx) && Inserting(tx.phase) && ClaimOk(db, tx')
    requires GateAttempts(gates, db.attempts, tx'.locks, tx.attempts)
    requires tx'.op == tx.op && tx'.phase == tx.phase && tx'.steps == tx.steps
    requires tx'.attempts == tx.attempts && tx'.runs == tx.runs
    requires forall row :: Excl(tx.locks, row) ==> Excl(tx'.locks, row)
    ensures CallOk(gates, db, tx')
  {
  }

  /** Together: the statements of the transitions ... */
  lemma TransitionStatements(gates: set<StepKey>, db: Tables, nextSeq: nat, tx: Tx, stmt: Statement, tx': Tx)
    requires stmt.CasStep? || stmt.CheckFrontier? || stmt.StampTransition? || stmt.UpdateAttempt?
    requires TxOk(gates, db, nextSeq, tx) && Effect(db, nextSeq, tx, stmt, tx')
    requires GatesOk(gates, db) && forall q :: q in db.events ==> q < nextSeq
    ensures TxOk(gates, db, nextSeq, tx')
  {
    match stmt
    case CasStep => CasStepData(gates, db, tx, tx'); CasStepEntries(gates, db, nextSeq, tx, tx');
    case CheckFrontier => CheckFrontierData(gates, db, tx, tx');
    case StampTransition => StampLocks(gates, db, tx, tx'); StampCall(gates, db, tx, tx');
    case UpdateAttempt =>
      UpdateAttemptLocks(gates, db, tx, tx'); UpdateAttemptCall(gates, db, tx, tx');
      UpdateAttemptEntries(gates, db, nextSeq, tx, tx');
  }

  /** ... of the claims, mints and run transitions ... */
  lemma LaunchStatements(gates: set<StepKey>, db: Tables, nextSeq: nat, tx: Tx, stmt: Statement, tx': Tx)
    requires stmt.ClaimRows? || stmt.MintLaunch? || stmt.ShareStep? || stmt.InsertAttempt? || stmt.CasRun?
    requires TxOk(gates, db, nextSeq, tx) && Effect(db, nextSeq, tx, stmt, tx')
    requires GatesOk(gates, db) && forall q :: q in db.events ==> q < nextSeq
    ensures TxOk(gates, db, nextSeq, tx')
  {
    match stmt
    case ClaimRows(picked) =>
      ClaimRowsLocks(db, tx, picked, tx'); ClaimRowsCall(gates, db, tx, picked, tx');
      ClaimRowsEntries(gates, db, nextSeq, tx, picked, tx');
    case MintLaunch =>
      MintLaunchLocks(gates, db, tx, tx'); MintLaunchCall(gates, db, tx, tx');
      MintLaunchEntries(gates, db, nextSeq, tx, tx');
    case ShareStep => ShareStepData(gates, db, tx, tx');
    case InsertAttempt => InsertAttemptLocks(gates, db, tx, tx'); InsertAttemptCall(gates, db, tx, tx');
    case CasRun => CasRunData(gates, db, tx, tx'); CasRunEntries(gates, db, nextSeq, tx, tx');
  }

  /** ... and of the gate waits keep `TxOk`. */
  lemma GateStatements(gates: set<StepKey>, db: Tables, nextSeq: nat, tx: Tx, stmt: Statement, tx': Tx)
    requires stmt.LockPendingStep? || stmt.CloseWait? || stmt.MoveGate?
    requires TxOk(gates, db, nextSeq, tx) && Effect(db, nextSeq, tx, stmt, tx')
    requires GatesOk(gates, db) && forall q :: q in db.events ==> q < nextSeq
    ensures TxOk(gates, db, nextSeq, tx')
  {
    match stmt
    case LockPendingStep => LockPendingStepData(gates, db, tx, tx');
    case CloseWait(n) => CloseWaitLocks(gates, db, tx, n, tx'); CloseWaitCall(gates, db, tx, n, tx');
    case MoveGate => MoveGateData(gates, db, tx, tx'); MoveGateEntries(gates, db, nextSeq, tx, tx');
  }

  lemma OpenWaitStatement(gates: set<StepKey>, db: Tables, nextSeq: nat, tx: Tx, latest: Option<nat>, tx': Tx)
    requires TxOk(gates, db, nextSeq, tx) && OpenWaitEffect(db, tx, latest, tx')
    requires GatesOk(gates, db)
    ensures TxOk(gates, db, nextSeq, tx')
  {
    OpenWaitLocks(gates, db, tx, latest, tx');
    OpenWaitCall(gates, db, tx, latest, tx');
    OpenWaitEntries(gates, db, nextSeq, tx, latest, tx');
  }

  lemma MintClosedStatement(gates: set<StepKey>, db: Tables, nextSeq: nat, tx: Tx, latest: Option<nat>, tx': Tx)
    requires TxOk(gates, db, nextSeq, tx) && MintClosedEffect(db, tx, latest, tx')
    requires GatesOk(gates, db)
    ensures TxOk(gates, db, nextSeq, tx')
  {
    MintClosedLocks(gates, db, tx, latest, tx');
    MintClosedCall(gates, db, tx, latest, tx');
    MintClosedEntries(gates, db, nextSeq, tx, latest, tx');
  }

  lemma InsertStatements(gates: set<StepKey>, db: Tables, nextSeq: nat, tx: Tx, stmt: Statement, tx': Tx)
    requires stmt.InsertEvent? || stmt.InsertIntent?
    requires TxOk(gates, db, nextSeq, tx) && Effect(db, nextSeq, tx, stmt, tx')
    requires GatesOk(gates, db) && forall q :: q in db.events ==> q < nextSeq
    ensures TxOk(gates, db, nextSeq + (if stmt.InsertEvent? then 1 else 0), tx')
  {
    if stmt.InsertEvent? {
      InsertEventData(gates, db, tx, nextSeq, tx');
      StageEntry(db.events, nextSeq, tx.steps, tx.runs, tx.events, tx.todoEvents);
    } else {
      InsertIntentLocks(gates, db, tx, tx');
      InsertIntentCall(gates, db, tx, tx');
    }
  }

  /** Every statement keeps `TxOk`. */
  lemma StatementKeepsTx(gates: set<StepKey>, db: Tables, nextSeq: nat, tx: Tx, stmt: Statement, tx': Tx)
    requires TxOk(gates, db, nextSeq, tx) && Effect(db, nextSeq, tx, stmt, tx')
    requires GatesOk(gates, db) && forall q :: q in db.events ==> q < nextSeq
    ensures TxOk(gates, db, nextSeq + (if stmt.InsertEvent? then 1 else 0), tx')
  {
    if stmt.InsertEvent? || stmt.InsertIntent? {
      InsertStatements(gates, db, nextSeq, tx, stmt, tx');
    } else if stmt.CasStep? || stmt.CheckFrontier? || stmt.StampTransition? || stmt.UpdateAttempt? {
      TransitionStatements(gates, db, nextSeq, tx, stmt, tx');
    } else if stmt.ClaimRows? || stmt.MintLaunch? || stmt.ShareStep? || stmt.InsertAttempt? || stmt.CasRun? {
      LaunchStatements(gates, db, nextSeq, tx, stmt, tx');
    } else if stmt.OpenWait? {
      OpenWaitStatement(gates, db, nextSeq, tx, stmt.latest, tx');
    } else if stmt.MintClosed? {
      MintClosedStatement(gates, db, nextSeq, tx, stmt.latest, tx');
    } else {
      GateStatements(gates, db, nextSeq, tx, stmt, tx');
    }
  }

  // ------------------------------------------------------------------ attempts

  lemma LockRow(db: Tables, locks: Locks, steps: StepMoves, attempts: Staged, runs: RunMoves, row: Row)
    requires StepsLocked(locks, steps) && RunsLocked(locks, runs) && AttemptsLocked(db, locks, attempts)
    ensures StepsLocked(locks[row := Exclusive], steps) && RunsLocked(locks[row := Exclusive], runs)
    ensures AttemptsLocked(db, locks[row := Exclusive], attempts)
  {
  }

  lemma LockKeepsGate(gates: set<StepKey>, committed: Staged, locks: Locks, attempts: Staged, row: Row)
    requires GateAttempts(gates, committed, locks, attempts)
    ensures GateAttempts(gates, committed, locks[row := Exclusive], attempts)
  {
    forall a | a in attempts && a.step in gates && a !in committed
      ensures MintOk(committed, locks[row := Exclusive], attempts, a)
    {
      assert MintOk(committed, locks, attempts, a);
    }
  }

  /** Staging one Attempt write under its row lock: the locks ... */
  lemma StageLocks(db: Tables, tx: Tx, a: AttemptKey, o: Outcome)
    requires LocksOk(db, tx)
    requires a !in db.attempts ==> StepRow(a.step) in tx.locks && a.step in db.steps
    requires a in db.attempts ==> !ByIntent(db.attempts[a])
    ensures var locks := AddLock(tx.locks, AttemptRow(a), Exclusive);
            && AttemptsLocked(db, locks, tx.attempts[a := o])
            && StepsLocked(locks, tx.steps) && RunsLocked(locks, tx.runs)
  {
    LockRow(db, tx.locks, tx.steps, tx.attempts, tx.runs, AttemptRow(a));
    assert AddLock(tx.locks, AttemptRow(a), Exclusive) == tx.locks[AttemptRow(a) := Exclusive];
  }

  /** ... and what it means for a gate. */
  lemma StageGate(gates: set<StepKey>, committed: Staged, tx: Tx, a: AttemptKey, o: Outcome)
    requires GateAttempts(gates, committed, tx.locks, tx.attempts)
    requires a.step in gates && a in committed ==> !o.Running?
    requires a.step in gates && a !in committed ==> MintOk(committed, tx.locks, map[a := o], a) && tx.attempts == map[]
    ensures GateAttempts(gates, committed, AddLock(tx.locks, AttemptRow(a), Exclusive), tx.attempts[a := o])
  {
    LockKeepsGate(gates, committed, tx.locks, tx.attempts, AttemptRow(a));
    assert AddLock(tx.locks, AttemptRow(a), Exclusive) == tx.locks[AttemptRow(a) := Exclusive];
    AddAttempt(gates, committed, tx.locks[AttemptRow(a) := Exclusive], tx.attempts, a, o);
  }

  lemma AddAttempt(gates: set<StepKey>, committed: Staged, locks: Locks, attempts: Staged, a: AttemptKey, o: Outcome)
    requires GateAttempts(gates, committed, locks, attempts)
    requires a.step in gates && a in committed ==> !o.Running?
    requires a.step in gates && a !in committed ==> MintOk(committed, locks, map[a := o], a) && attempts == map[]
    ensures GateAttempts(gates, committed, locks, attempts[a := o])
  {
    forall b | b in attempts[a := o] && b.step in gates && b !in committed
      ensures MintOk(committed, locks, attempts[a := o], b)
    {
      if b == a {
        assert attempts[a := o] == map[a := o];
      } else {
        assert MintOk(committed, locks, attempts, b);
      }
    }
  }

  lemma LaunchOne(db: Tables, steps: StepMoves, rows: seq<StepKey>, attempts: Staged, intents: set<Intent>,
      a: AttemptKey)
    requires rows != [] && a.step == rows[0] && a !in db.attempts
    requires AllLaunched(db, steps, rows, attempts, intents, [])
    ensures AllLaunched(db, steps, rows[1..], attempts[a := Outcome.Running], intents, [Launch(a)])
  {
    var attempts', todo' := attempts[a := Outcome.Running], [Launch(a)];
    forall j | j in steps && j !in rows[1..] ensures exists n :: Launched(db, attempts', intents, todo', j, n) {
      if j == a.step {
        assert Launched(db, attempts', intents, todo', j, a.n);
      } else {
        var n :| Launched(db, attempts, intents, [], j, n);
        assert Launched(db, attempts', intents, todo', j, n);
      }
    }
  }

  lemma InsertOne(db: Tables, steps: StepMoves, rows: seq<StepKey>, attempts: Staged, intents: set<Intent>,
                  todo: seq<Intent>, intents': set<Intent>)
    requires todo != [] && AllLaunched(db, steps, rows, attempts, intents, todo)
    requires intents' == if todo[0] in db.intents then intents else intents + {todo[0]}
    ensures AllLaunched(db, steps, rows, attempts, intents', todo[1..])
  {
    forall j | j in steps && j !in rows ensures exists n :: Launched(db, attempts, intents', todo[1..], j, n) {
      var n :| Launched(db, attempts, intents, todo, j, n);
      assert Launched(db, attempts, intents', todo[1..], j, n);
    }
  }

  // ------------------------------------------------------------------- journal

  /** Drawing a sequence number and staging the next entry keeps the journal obligations. */
  lemma StageEntry(committed: Journal, nextSeq: nat, steps: StepMoves, runs: RunMoves, events: Journal,
      todo: seq<Event>)
    requires JournalOk(committed, nextSeq, steps, runs, events, todo) && todo != []
    requires forall q :: q in committed ==> q < nextSeq
    ensures JournalOk(committed, nextSeq + 1, steps, runs, events[nextSeq := todo[0]], todo[1..])
  {
    StageFits(committed, nextSeq, steps, runs, events, todo);
    forall k | k in steps ensures StepFits(steps[k], k, events[nextSeq := todo[0]], todo[1..]) {
      StageStepWord(steps[k], k, events, todo, nextSeq);
    }
    forall r | r in runs ensures RunFits(runs[r], r, events[nextSeq := todo[0]], todo[1..]) {
      StageRunWord(runs[r], r, events, todo, nextSeq);
    }
    StageNames(steps, runs, events, todo, nextSeq);
    StageEnds(runs, events, todo, nextSeq);
  }

  lemma StageFits(committed: Journal, nextSeq: nat, steps: StepMoves, runs: RunMoves, events: Journal, todo: seq<Event>)
    requires StagedOk(committed, nextSeq, steps, runs, events) && TodoOk(steps, runs, todo) && todo != []
    requires forall q :: q in committed ==> q < nextSeq
    ensures StagedOk(committed, nextSeq + 1, steps, runs, events[nextSeq := todo[0]]) && TodoOk(steps, runs, todo[1..])
  {
  }

  /** Numbers are drawn in the order of the list, so the last word is the same before and after. */
  lemma StageStepWord(m: StepMove, k: StepKey, events: Journal, todo: seq<Event>, q: nat)
    requires todo != [] && StepFits(m, k, events, todo) && forall p :: p in events ==> p < q
    ensures StepFits(m, k, events[q := todo[0]], todo[1..])
  {
    var events', rest := events[q := todo[0]], todo[1..];
    forall i | LastMove(rest, k, i) ensures StepEntryFits(m, StepAfter(rest[i])) {
      assert LastMove(todo, k, i + 1);
    }
    if !NamesStep(rest, k) {
      assert forall j :: 0 < j < |todo| ==> todo[j] == rest[j - 1];
      forall p: nat | LastStepEvent(events', k, p) ensures StepEntryFits(m, StepAfter(events'[p])) {
        if MovesStep(todo[0], k) {
          assert LastMove(todo, k, 0) && events'[q] == todo[0] && q <= p;
        } else {
          StillLastStep(events, k, q, todo[0], p);
        }
      }
    }
  }

  lemma StillLastStep(events: Journal, k: StepKey, q: nat, e: Event, p: nat)
    requires q !in events && !MovesStep(e, k) && LastStepEvent(events[q := e], k, p)
    ensures LastStepEvent(events, k, p) && events[q := e][p] == events[p]
  {
    forall x | x in events && MovesStep(events[x], k) ensures x <= p {
      assert events[q := e][x] == events[x];
    }
  }

  lemma StageRunWord(m: RunMove, r: RunId, events: Journal, todo: seq<Event>, q: nat)
    requires todo != [] && RunFits(m, r, events, todo) && forall p :: p in events ==> p < q
    ensures RunFits(m, r, events[q := todo[0]], todo[1..])
  {
    var events', rest := events[q := todo[0]], todo[1..];
    forall i | LastRunMove(rest, r, i) ensures RunEntryFits(m, rest[i].payload.status) {
      assert LastRunMove(todo, r, i + 1);
    }
    if !NamesRun(rest, r) {
      assert forall j :: 0 < j < |todo| ==> todo[j] == rest[j - 1];
      forall p: nat | LastRunEvent(events', r, p) ensures RunEntryFits(m, events'[p].payload.status) {
        if MovesRun(todo[0], r) {
          assert LastRunMove(todo, r, 0) && events'[q] == todo[0] && q <= p;
        } else {
          StillLastRun(events, r, q, todo[0], p);
        }
      }
    }
  }

  lemma StillLastRun(events: Journal, r: RunId, q: nat, e: Event, p: nat)
    requires q !in events && !MovesRun(e, r) && LastRunEvent(events[q := e], r, p)
    ensures LastRunEvent(events, r, p) && events[q := e][p] == events[p]
  {
    forall x | x in events && MovesRun(events[x], r) ensures x <= p {
      assert events[q := e][x] == events[x];
    }
  }

  lemma StageEnds(runs: RunMoves, events: Journal, todo: seq<Event>, q: nat)
    requires EndsOnce(runs, events, todo) && todo != [] && q !in events
    ensures EndsOnce(runs, events[q := todo[0]], todo[1..])
  {
    var events' := events[q := todo[0]];
    forall r ensures |Ends(events', r)| + CountEnds(todo[1..], r) == |Ends(events, r)| + CountEnds(todo, r) {
      assert Ends(events', r) == Ends(events, r) + (if EndsRun(todo[0], r) then {q} else {});
    }
  }

  lemma StageNames(steps: StepMoves, runs: RunMoves, events: Journal, todo: seq<Event>, q: nat)
    requires todo != [] && q !in events && StepsNamed(steps, events, todo) && RunsNamed(runs, events, todo)
    ensures StepsNamed(steps, events[q := todo[0]], todo[1..]) && RunsNamed(runs, events[q := todo[0]], todo[1..])
  {
    var events' := events[q := todo[0]];
    forall k | StagesStep(events, k) || NamesStep(todo, k)
      ensures StagesStep(events', k) || NamesStep(todo[1..], k)
    {
      if StagesStep(events, k) {
        var p :| p in events && MovesStep(events[p], k);
        assert p in events' && MovesStep(events'[p], k);
      } else {
        var i :| 0 <= i < |todo| && MovesStep(todo[i], k);
        if i == 0 { assert q in events' && MovesStep(events'[q], k); } else { assert MovesStep(todo[1..][i - 1], k); }
      }
    }
    forall r | StagesRun(events, r) || NamesRun(todo, r)
      ensures StagesRun(events', r) || NamesRun(todo[1..], r)
    {
      if StagesRun(events, r) {
        var p :| p in events && MovesRun(events[p], r);
        assert p in events' && MovesRun(events'[p], r);
      } else {
        var i :| 0 <= i < |todo| && MovesRun(todo[i], r);
        if i == 0 { assert q in events' && MovesRun(events'[q], r); } else { assert MovesRun(todo[1..][i - 1], r); }
      }
    }
  }

  /** With nothing left to journal, one entry that moves nothing may be added. */
  lemma AddNote(committed: Journal, nextSeq: nat, steps: StepMoves, runs: RunMoves, events: Journal, e: Event)
    requires JournalOk(committed, nextSeq, steps, runs, events, []) && MovesNothing([e])
    ensures JournalOk(committed, nextSeq, steps, runs, events, [e])
  {
    assert [e][0] == e;
    forall r ensures CountEnds([e], r) == CountEnds([], r) {
      NoEnds([e], r);
    }
  }

  lemma EndsOfEmpty()
    ensures forall r :: |Ends(map[], r)| == 0
  {
    forall r ensures Ends(map[], r) == {} {}
  }

  lemma NothingStaged(todo: seq<Event>)
    requires forall i :: 0 <= i < |todo| ==> !todo[i].payload.RunTransitioned?
    ensures forall r :: |Ends(map[], r)| + CountEnds(todo, r) == 0
  {
    EndsOfEmpty();
    forall r ensures CountEnds(todo, r) == 0 {
      NoEnds(todo, r);
    }
  }

  lemma {:induction false} NoEnds(events: seq<Event>, r: RunId)
    requires forall i :: 0 <= i < |events| ==> !EndsRun(events[i], r)
    ensures CountEnds(events, r) == 0
  {
    if events != [] {
      NoEnds(events[1..], r);
    }
  }
}
