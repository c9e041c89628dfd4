/** Every run of the store is the serial execution of its committed calls, in the order of their commits. */
module RunStoreSerial {
  import opened Options
  import opened RunStore
  import opened RunStoreInvariant
  import opened RunStoreCommit
  import opened RunStoreRuns
  import opened RunStoreAtomic
  import opened RunStorePlans

  // ------------------------------------------------------------------- over every run

  ghost predicate AllPlanned(s: State) {
    forall t :: t in s.txs ==> Planned(s.db, s.txs[t])
  }

  lemma BeginPlanned(s: State, t: nat, op: Op, s': State)
    requires AllPlanned(s) && Step(s, Begin(t, op), s')
    ensures AllPlanned(s')
  {
    FreshIsPlanned(s.db, op);
    assert PlannedAs(s.db, Fresh(op), [], []);
  }

  lemma RunPlanned(s: State, t: nat, stmt: Statement, tx': Tx, s': State)
    requires TxsOk(s) && AllPlanned(s) && Step(s, Run(t, stmt, tx'), s')
    ensures AllPlanned(s')
  {
    assert TxOk(s.gates, s.db, s.nextSeq, s.txs[t]);
    StatementPlanned(s.db, s.nextSeq, s.txs[t], stmt, tx');
  }

  lemma CommitPlanned(s: State, t: nat, s': State)
    requires TxsOk(s) && AllApart(s) && AllPlanned(s) && Step(s, Commit(t), s')
    ensures AllPlanned(s')
  {
    forall u | u in s'.txs ensures Planned(s'.db, s'.txs[u]) {
      OthersPlanned(s.gates, s.db, s.nextSeq, s.txs[t], s.txs[u]);
    }
  }

  lemma AbortPlanned(s: State, t: nat, s': State)
    requires AllPlanned(s) && Step(s, Abort(t), s')
    ensures AllPlanned(s')
  {
  }

  lemma CreatesPlanned(s: State, action: Action, s': State)
    requires AllPlanned(s) && Step(s, action, s') && (action.CreateRun? || action.CreateStep?)
    ensures AllPlanned(s')
  {
    forall u | u in s'.txs ensures Planned(s'.db, s'.txs[u]) {
      CreatePlanned(s.db, s'.db, s.txs[u]);
    }
  }

  lemma StepPlanned(s: State, action: Action, s': State)
    requires TxsOk(s) && AllApart(s) && AllPlanned(s) && Step(s, action, s')
    ensures AllPlanned(s')
  {
    match action
    case Begin(t, op) => BeginPlanned(s, t, op, s');
    case Run(t, stmt, tx') => RunPlanned(s, t, stmt, tx', s');
    case Commit(t) => CommitPlanned(s, t, s');
    case Abort(t) => AbortPlanned(s, t, s');
    case CreateRun(r) => CreatesPlanned(s, action, s');
    case CreateStep(k) => CreatesPlanned(s, action, s');
  }

  lemma {:induction false} PlannedAt(trace: seq<State>, acts: seq<Action>, i: nat)
    requires IsRun(trace, acts) && i < |trace|
    ensures AllPlanned(trace[i])
  {
    if i > 0 {
      var m := i - 1;
      PlannedAt(trace, acts, m);
      RunInv(trace, acts, m);
      StepPlanned(trace[m], acts[m], trace[i]);
    }
  }

  // ------------------------------------------------------------------------ one commit

  /** What a finished transaction has staged are its script's entries and its mail. */
  lemma AllWritten(db: Tables, tx: Tx, named: seq<AttemptKey>, numbers: seq<nat>)
    requires Finished(tx) && PlannedAs(db, tx, named, numbers)
    requires forall q :: q in tx.events ==> q !in db.events
    ensures Appends(db.events, Applied(db, tx).events, Script(tx.op, tx.phase, named))
    ensures Applied(db, tx).intents == db.intents + Mail(tx.op, tx.phase, named)
  {
    assert NumberedAs(db.events, Applied(db, tx).events, Script(tx.op, tx.phase, named), numbers);
  }

  lemma OneStepMoved(db: Tables, tx: Tx, k: StepKey, m: StepMove)
    requires tx.steps == map[k := m] && tx.runs == map[] && StepReads(db, tx.steps)
    ensures Applied(db, tx).runs == db.runs
    ensures k in db.steps && db.steps[k] == m.from && Applied(db, tx).steps == db.steps[k := m.to]
  {
    assert k in tx.steps;
  }

  lemma NoRowMoved(db: Tables, tx: Tx)
    requires tx.steps == map[] && tx.runs == map[]
    ensures Applied(db, tx).steps == db.steps && Applied(db, tx).runs == db.runs
  {
  }

  lemma OneRunMoved(db: Tables, tx: Tx, r: RunId, m: RunMove)
    requires tx.runs == map[r := m] && tx.steps == map[] && r in db.runs
    ensures Applied(db, tx).steps == db.steps && Applied(db, tx).runs == db.runs[r := m.to]
  {
  }

  lemma TransitionDone(db: Tables, tx: Tx, db': Tables)
    requires tx.op.StepTransition? && tx.phase.Tail? && TransitionPlan(db, tx)
    requires FrontierOk(db.attempts, tx.op, tx.phase, tx.steps)
    requires tx.op.k in db.steps && db.steps[tx.op.k] == tx.op.from && db'.steps == db.steps[tx.op.k := tx.op.to]
    requires db'.runs == db.runs && db'.attempts == db.attempts + tx.attempts
    requires Appends(db.events, db'.events, tx.op.events) && db'.intents == db.intents + (set x | x in tx.op.intents)
    ensures DoesTransition(tx.op, db, db')
  {
  }

  lemma ClaimedSteps(db: Tables, tx: Tx, named: seq<AttemptKey>)
    requires tx.op.Claim? && ClaimPlan(db, tx, named) && tx.phase.rows == [] && StepReads(db, tx.steps)
    ensures Distinct(StepsOf(named)) && |named| <= tx.op.limit
    ensures forall k :: k in tx.steps <==> exists a :: a in named && a.step == k
    ensures var db' := Applied(db, tx);
            && db'.steps.Keys == db.steps.Keys && db'.runs == db.runs
            && (forall k :: k in tx.steps ==> k in db.steps && db.steps[k].Ready? && db'.steps[k].Running?)
            && (forall k :: k in db.steps && k !in tx.steps ==> db'.steps[k] == db.steps[k])
  {
    var steps := StepsOf(named);
    assert steps + [] == steps;
    forall a | a in named ensures a.step in steps {
      var i :| 0 <= i < |named| && named[i] == a;
      assert steps[i] == a.step;
    }
    forall k | k in steps ensures exists a :: a in named && a.step == k {
      var i :| 0 <= i < |steps| && steps[i] == k;
      assert named[i] in named;
    }
  }

  lemma ClaimDone(op: Op, db: Tables, tx: Tx, named: seq<AttemptKey>, db': Tables)
    requires op.Claim? && Distinct(StepsOf(named)) && |named| <= op.limit
    requires forall k :: k in tx.steps <==> exists a :: a in named && a.step == k
    requires db'.steps.Keys == db.steps.Keys && db'.runs == db.runs
    requires forall k :: k in tx.steps ==> k in db.steps && db.steps[k].Ready? && db'.steps[k].Running?
    requires forall k :: k in db.steps && k !in tx.steps ==> db'.steps[k] == db.steps[k]
    requires forall a :: a in named ==> IsNextOf(db.attempts, a)
    requires db'.attempts == db.attempts + (map a | a in named :: Outcome.Running)
    requires Appends(db.events, db'.events, Starts(named))
    requires db'.intents == db.intents + (set a | a in named :: Launch(a))
    ensures ClaimsAs(op, db, db', named)
  {
    assert forall i :: 0 <= i < |named| ==> StepsOf(named)[i] == named[i].step;
    assert Starts(named) == seq(|named|, i requires 0 <= i < |named| => Started(named[i]));
  }

  lemma AttemptDone(db: Tables, tx: Tx, db': Tables)
    requires OnlyAttempts(db, db') && db'.attempts == db.attempts + tx.attempts
    requires tx.op.RecordAttempt? || tx.op.StampAttempt? || tx.op.CloseAttempt?
    requires tx.op.RecordAttempt? ==> tx.phase.Tail? && RecordPlan(db, tx) && db'.events == db.events
    requires tx.op.StampAttempt? ==> StampPlan(db, tx) && db'.events == db.events
    requires tx.op.CloseAttempt? ==> ClosePlan(db, tx) && Appends(db.events, db'.events, tx.op.events)
    requires AttemptsLocked(db, tx.locks, tx.attempts)
    ensures Does(tx.op, db, db')
  {
  }

  lemma RunDone(db: Tables, tx: Tx, db': Tables)
    requires tx.op.RunTransition? && RunPlan(db, tx)
    requires tx.op.generation.Some? ==> db.runs[tx.op.r].generation == tx.op.generation.value
    requires db'.steps == db.steps && db'.attempts == db.attempts && db'.runs == db.runs[tx.op.r := tx.runs[tx.op.r].to]
    requires Appends(db.events, db'.events, tx.op.events) && db'.intents == db.intents + (set x | x in tx.op.intents)
    ensures DoesRunTransition(tx.op, db, db')
  {
  }

  lemma OpenDone(db: Tables, tx: Tx, named: seq<AttemptKey>, db': Tables)
    requires tx.op.OpenGate? && tx.phase.Tail? && OpenPlan(db, tx, named)
    requires OnlyAttempts(db, db') && db'.attempts == db.attempts + tx.attempts
    requires if named == [] then db'.events == db.events
             else Appends(db.events, db'.events, [Started(named[0])])
    ensures DoesOpen(tx.op, db, db')
  {
    if named != [] {
      assert OpensAs(tx.op, db, db', named[0].n);
    }
  }

  /** The entries of a verdict, in full. */
  function VerdictEntries(k: StepKey, n: nat, minted: bool, passed: bool, expired: bool): seq<Event> {
    (if minted then [Event(k.run, AttemptStarted(k.step, n))] else [])
    + [Event(k.run, AttemptFinished(k.step, n))]
    + (if passed then [Event(k.run, GateReleased(k.step))]
       else if expired then [Event(k.run, GateExpired(k.step))] else [])
    + [Event(k.run, StepTransitioned(k.step, if passed then StepStatus.Succeeded else StepStatus.Failed)),
       Event(k.run, GateResolved(k.step, n, passed))]
  }

  lemma VerdictScript(op: Op, n: nat, named: seq<AttemptKey>)
    requires op.ResolveGate? && (named == [] || named == [AttemptKey(op.k, n)])
    ensures Starts(named) + GateEvents(op.k, n, op.passed, op.expired)
            == VerdictEntries(op.k, n, named != [], op.passed, op.expired)
  {
    assert named != [] ==> Starts(named) == [Event(op.k.run, AttemptStarted(op.k.step, n))];
  }

  lemma ResolveDone(db: Tables, tx: Tx, named: seq<AttemptKey>, db': Tables)
    requires tx.op.ResolveGate? && tx.phase.Resolved? && ResolvePlan(db, tx, named)
    requires tx.op.k in db.steps && db.steps[tx.op.k].Pending?
    requires db'.steps == db.steps[tx.op.k := if tx.op.passed then StepStatus.Succeeded else StepStatus.Failed]
    requires db'.runs == db.runs && db'.intents == db.intents && db'.attempts == db.attempts + tx.attempts
    requires Appends(db.events, db'.events,
                     VerdictEntries(tx.op.k, tx.phase.n, named != [], tx.op.passed, tx.op.expired))
    ensures DoesResolve(tx.op, db, db')
  {
    assert ResolvesAs(tx.op, db, db', tx.phase.n);
  }

  lemma MoveDoes(gates: set<StepKey>, db: Tables, tx: Tx, named: seq<AttemptKey>)
    requires DataOk(gates, db, tx) && Finished(tx) && RowsPlanned(db, tx, named)
    requires tx.op.StepTransition? || tx.op.Promote? || tx.op.RunTransition?
    requires Appends(db.events, Applied(db, tx).events, tx.op.events)
    requires Applied(db, tx).intents == db.intents + Mail(tx.op, tx.phase, named)
    ensures Does(tx.op, db, Applied(db, tx))
  {
    if tx.op.StepTransition? {
      OneStepMoved(db, tx, tx.op.k, StepMove(tx.op.from, tx.op.to));
      TransitionDone(db, tx, Applied(db, tx));
    } else if tx.op.Promote? {
      OneStepMoved(db, tx, tx.op.k, StepMove(StepStatus.Pending, StepStatus.Ready));
    } else {
      OneRunMoved(db, tx, tx.op.r, tx.runs[tx.op.r]);
      RunDone(db, tx, Applied(db, tx));
    }
  }

  lemma ClaimDoes(gates: set<StepKey>, db: Tables, tx: Tx, named: seq<AttemptKey>)
    requires DataOk(gates, db, tx) && Finished(tx) && RowsPlanned(db, tx, named) && tx.op.Claim?
    requires Appends(db.events, Applied(db, tx).events, Starts(named))
    requires Applied(db, tx).intents == db.intents + Mail(tx.op, tx.phase, named)
    ensures Does(tx.op, db, Applied(db, tx))
  {
    ClaimedSteps(db, tx, named);
    ClaimDone(tx.op, db, tx, named, Applied(db, tx));
  }

  lemma OpenDoes(gates: set<StepKey>, db: Tables, tx: Tx, named: seq<AttemptKey>)
    requires Finished(tx) && RowsPlanned(db, tx, named) && tx.op.OpenGate? && !tx.phase.Begun?
    requires Appends(db.events, Applied(db, tx).events, Starts(named))
    requires (named == [] ==> tx.events == map[]) && Applied(db, tx).intents == db.intents
    ensures Does(tx.op, db, Applied(db, tx))
  {
    NoRowMoved(db, tx);
    assert named != [] ==> Starts(named) == [Started(named[0])];
    OpenDone(db, tx, named, Applied(db, tx));
  }

  lemma ResolveDoes(gates: set<StepKey>, db: Tables, tx: Tx, named: seq<AttemptKey>)
    requires StepReads(db, tx.steps) && Finished(tx) && RowsPlanned(db, tx, named) && tx.op.ResolveGate?
    requires tx.phase.Resolved? && Appends(db.events, Applied(db, tx).events, Script(tx.op, tx.phase, named))
    requires Applied(db, tx).intents == db.intents
    ensures Does(tx.op, db, Applied(db, tx))
  {
    OneStepMoved(db, tx, tx.op.k, tx.steps[tx.op.k]);
    VerdictScript(tx.op, tx.phase.n, named);
    ResolveDone(db, tx, named, Applied(db, tx));
  }

  lemma AttemptDoes(gates: set<StepKey>, db: Tables, tx: Tx, named: seq<AttemptKey>)
    requires DataOk(gates, db, tx) && Finished(tx) && RowsPlanned(db, tx, named)
    requires tx.op.RecordAttempt? || tx.op.StampAttempt? || tx.op.CloseAttempt? || tx.op.AppendEvent?
    requires Appends(db.events, Applied(db, tx).events, Script(tx.op, tx.phase, named))
    requires tx.op.RecordAttempt? || tx.op.StampAttempt? ==> tx.events == map[]
    requires Applied(db, tx).intents == db.intents
    ensures Does(tx.op, db, Applied(db, tx))
  {
    NoRowMoved(db, tx);
    if !tx.op.AppendEvent? {
      AttemptDone(db, tx, Applied(db, tx));
    }
  }

  lemma CommitDoes(gates: set<StepKey>, db: Tables, nextSeq: nat, tx: Tx)
    requires TxOk(gates, db, nextSeq, tx) && Planned(db, tx) && Finished(tx)
    ensures Does(tx.op, db, Applied(db, tx))
  {
    var named, numbers :| PlannedAs(db, tx, named, numbers);
    PlanDoes(gates, db, tx, named, numbers);
  }

  lemma PlanDoes(gates: set<StepKey>, db: Tables, tx: Tx, named: seq<AttemptKey>, numbers: seq<nat>)
    requires DataOk(gates, db, tx) && PlannedAs(db, tx, named, numbers) && Finished(tx)
    requires forall q :: q in tx.events ==> q !in db.events
    ensures Does(tx.op, db, Applied(db, tx))
  {
    AllWritten(db, tx, named, numbers);
    if tx.op.StepTransition? || tx.op.Promote? || tx.op.RunTransition? {
      MoveDoes(gates, db, tx, named);
    } else if tx.op.Claim? {
      ClaimDoes(gates, db, tx, named);
    } else if tx.op.OpenGate? {
      OpenDoes(gates, db, tx, named);
    } else if tx.op.ResolveGate? {
      ResolveDoes(gates, db, tx, named);
    } else {
      AttemptDoes(gates, db, tx, named);
    }
  }

  /** A commit does to the committed tables exactly what its call says, all at once; nothing else changes them but a
      new run or a new pending step. */
  lemma RunIsSerial(trace: seq<State>, acts: seq<Action>, i: nat)
    requires IsRun(trace, acts) && i < |acts|
    ensures var db, db' := trace[i].db, trace[i + 1].db;
            match acts[i]
            case Commit(t) => t in trace[i].txs && Does(trace[i].txs[t].op, db, db')
            case CreateRun(r) =>
              r !in db.runs && db' == db.(runs := db.runs[r := RunState(RunStatus.Pending, 0)])
            case CreateStep(k) => k !in db.steps && db' == db.(steps := db.steps[k := StepStatus.Pending])
            case _ => db' == db
  {
    assert Step(trace[i], acts[i], trace[i + 1]);
    if acts[i].Commit? {
      RunInv(trace, acts, i);
      PlannedAt(trace, acts, i);
      var s := trace[i];
      CommitDoes(s.gates, s.db, s.nextSeq, s.txs[acts[i].t]);
    }
  }

  // ------------------------------------------------------------------ what follows, said of a run

  /** A committed transition delivers all its messages, and journals its entries in order. */
  lemma TransitionIsDelivered(trace: seq<State>, acts: seq<Action>, i: nat, t: nat)
    requires IsRun(trace, acts) && i < |acts| && acts[i] == Commit(t) && t in trace[i].txs
    requires trace[i].txs[t].op.StepTransition? || trace[i].txs[t].op.RunTransition?
    ensures forall x :: x in trace[i].txs[t].op.intents ==> x in trace[i + 1].db.intents
    ensures Appends(trace[i].db.events, trace[i + 1].db.events, trace[i].txs[t].op.events)
  {
    RunIsSerial(trace, acts, i);
  }

  /** A new outbox row is a message of the transition committed there, or launches an Attempt minted there. */
  lemma NewMessageIsNamed(trace: seq<State>, acts: seq<Action>, i: nat, x: Intent)
    requires IsRun(trace, acts) && i < |acts| && x in trace[i + 1].db.intents && x !in trace[i].db.intents
    ensures acts[i].Commit? && acts[i].t in trace[i].txs
    ensures var op := trace[i].txs[acts[i].t].op;
            if op.StepTransition? || op.RunTransition? then x in op.intents
            else op.Claim? && x.Launch? && x.a !in trace[i].db.attempts && x.a in trace[i + 1].db.attempts
  {
    RunIsSerial(trace, acts, i);
    var db, db' := trace[i].db, trace[i + 1].db;
    assert acts[i].Commit?;
    var op := trace[i].txs[acts[i].t].op;
    if op.Claim? {
      var minted :| ClaimsAs(op, db, db', minted);
    }
  }

  /** No row of the outbox, entry of the journal or Attempt is ever lost, and no entry is rewritten. */
  lemma {:induction false} NothingIsLost(trace: seq<State>, acts: seq<Action>, i: nat, j: nat)
    requires IsRun(trace, acts) && i <= j < |trace|
    ensures trace[i].db.intents <= trace[j].db.intents && trace[i].db.attempts.Keys <= trace[j].db.attempts.Keys
    ensures forall q :: q in trace[i].db.events ==>
              q in trace[j].db.events && trace[j].db.events[q] == trace[i].db.events[q]
    decreases j
  {
    if i < j {
      var m := j - 1;
      NothingIsLost(trace, acts, i, m);
      RunIsSerial(trace, acts, m);
      StepLosesNothing(trace, acts, m);
    }
  }

  lemma StepLosesNothing(trace: seq<State>, acts: seq<Action>, m: nat)
    requires IsRun(trace, acts) && m < |acts|
    ensures trace[m].db.intents <= trace[m + 1].db.intents
    ensures trace[m].db.attempts.Keys <= trace[m + 1].db.attempts.Keys
    ensures forall q :: q in trace[m].db.events ==>
              q in trace[m + 1].db.events && trace[m + 1].db.events[q] == trace[m].db.events[q]
  {
    assert Step(trace[m], acts[m], trace[m + 1]);
    if acts[m].Commit? {
      RunInv(trace, acts, m);
      assert TxOk(trace[m].gates, trace[m].db, trace[m].nextSeq, trace[m].txs[acts[m].t]);
    }
  }

  // --------------------------------------------------------------- calls that changed nothing

  ghost predicate RunsLast(attempts: Staged, k: StepKey, n: nat) {
    Latest(attempts, k, Some(n)) && attempts[AttemptKey(k, n)].Running?
  }

  /** The call finds nothing to do: the gate's latest Attempt runs, or there is no Attempt to stamp. */
  ghost predicate Excused(attempts: Staged, op: Op) {
    if op.OpenGate? then exists n :: RunsLast(attempts, op.k, n)
    else op.StampAttempt? && (op.a !in attempts || attempts[op.a].Superseded? || attempts[op.a].Cancelled?)
  }

  /** `t` was open, with the same call, from `m` to `i`, and at `m` the call found nothing to do. */
  ghost predicate ExcusedAt(trace: seq<State>, m: nat, i: nat, t: nat)
    requires i < |trace| && t in trace[i].txs
  {
    && m <= i && (forall j :: m <= j <= i ==> t in trace[j].txs && trace[j].txs[t].op == trace[i].txs[t].op)
    && Excused(trace[m].db.attempts, trace[i].txs[t].op)
  }

  /** A stamp or an opened wait that stages nothing. */
  predicate Idle(tx: Tx) {
    tx.phase.Tail? && tx.attempts == map[] && (tx.op.OpenGate? || tx.op.StampAttempt?)
  }

  lemma KeptWait(db: Tables, tx: Tx, latest: Option<nat>, tx': Tx)
    requires OpenWaitEffect(db, tx, latest, tx') && Idle(tx')
    ensures Excused(db.attempts, tx'.op)
  {
    assert AttemptKey(tx.op.k, NextNumber(latest)) !in tx'.attempts;
    assert RunsLast(db.attempts, tx'.op.k, latest.value);
  }

  lemma MissedStamp(db: Tables, tx: Tx, tx': Tx)
    requires UpdateAttemptEffect(db, tx, tx') && Idle(tx')
    ensures Excused(db.attempts, tx'.op)
  {
    assert tx.op.a !in tx'.attempts;
  }

  lemma IdleStatement(db: Tables, nextSeq: nat, tx: Tx, stmt: Statement, tx': Tx)
    requires Effect(db, nextSeq, tx, stmt, tx') && Idle(tx')
    ensures tx'.op == tx.op && (Idle(tx) || Excused(db.attempts, tx'.op))
  {
    match stmt
    case OpenWait(latest) => KeptWait(db, tx, latest, tx');
    case UpdateAttempt => MissedStamp(db, tx, tx');
    case _ =>
  }

  lemma IdleStep(trace: seq<State>, acts: seq<Action>, n: nat, t: nat)
    requires IsRun(trace, acts) && n < |acts| && t in trace[n + 1].txs && Idle(trace[n + 1].txs[t])
    ensures t in trace[n].txs && trace[n].txs[t].op == trace[n + 1].txs[t].op
    ensures Idle(trace[n].txs[t]) || Excused(trace[n].db.attempts, trace[n + 1].txs[t].op)
  {
    assert Step(trace[n], acts[n], trace[n + 1]);
    if acts[n].Run? && acts[n].t == t {
      IdleStatement(trace[n].db, trace[n].nextSeq, trace[n].txs[t], acts[n].stmt, acts[n].tx');
    }
  }

  lemma {:induction false} IdleIsExcused(trace: seq<State>, acts: seq<Action>, i: nat, t: nat)
    requires IsRun(trace, acts) && i < |trace| && t in trace[i].txs && Idle(trace[i].txs[t])
    ensures exists m :: ExcusedAt(trace, m, i, t)
  {
    if i > 0 {
      var n := i - 1;
      IdleStep(trace, acts, n, t);
      if Excused(trace[n].db.attempts, trace[i].txs[t].op) {
        assert ExcusedAt(trace, n, i, t);
      } else {
        IdleIsExcused(trace, acts, n, t);
        var m :| ExcusedAt(trace, m, n, t);
        assert ExcusedAt(trace, m, i, t);
      }
    }
  }

  /** A stamp that leaves its Attempt without the outcome, and a wait opened without a new Attempt, had nothing to
      write at some moment while they were open. */
  lemma NothingDoneIsExcused(trace: seq<State>, acts: seq<Action>, i: nat, t: nat)
    requires IsRun(trace, acts) && i < |acts| && acts[i] == Commit(t) && t in trace[i].txs
    requires var op, attempts' := trace[i].txs[t].op, trace[i + 1].db.attempts;
             if op.OpenGate? then attempts' == trace[i].db.attempts
             else op.StampAttempt? && !(op.a in attempts' && attempts'[op.a] == op.outcome)
    ensures exists m :: ExcusedAt(trace, m, i, t)
  {
    PlannedAt(trace, acts, i);
    assert Step(trace[i], acts[i], trace[i + 1]);
    IdleAtCommit(trace[i].db, trace[i].txs[t]);
    IdleIsExcused(trace, acts, i, t);
  }

  lemma IdleAtCommit(db: Tables, tx: Tx)
    requires Planned(db, tx) && Finished(tx)
    requires var attempts' := db.attempts + tx.attempts;
             if tx.op.OpenGate? then attempts' == db.attempts
             else tx.op.StampAttempt? && !(tx.op.a in attempts' && attempts'[tx.op.a] == tx.op.outcome)
    ensures Idle(tx)
  {
    var named, numbers :| PlannedAs(db, tx, named, numbers);
    IdleRows(db, tx, named);
  }

  lemma IdleRows(db: Tables, tx: Tx, named: seq<AttemptKey>)
    requires RowsPlanned(db, tx, named) && Finished(tx)
    requires var attempts' := db.attempts + tx.attempts;
             if tx.op.OpenGate? then attempts' == db.attempts
             else tx.op.StampAttempt? && !(tx.op.a in attempts' && attempts'[tx.op.a] == tx.op.outcome)
    ensures Idle(tx)
  {
    if tx.op.OpenGate? {
      OpenIdle(db, tx, named);
    }
  }

  lemma OpenIdle(db: Tables, tx: Tx, named: seq<AttemptKey>)
    requires tx.op.OpenGate? && OpenPlan(db, tx, named) && db.attempts + tx.attempts == db.attempts
    ensures tx.attempts == map[]
  {
    assert forall a :: a in named ==> a in tx.attempts;
  }
}
