/**
 How often the journal starts and finishes an Attempt, when the callers are the engine: each at most once.

 What the engine supplies is `EngineOp`.  It writes `AttemptStarted` only with a mint, and `AttemptFinished` only with
 the transition that takes the step off the Attempt it names as its frontier, or with a gate's verdict.
 */
module RunStoreMarks {
  import opened Options
  import opened RunStore
  import opened RunStoreInvariant
  import opened RunStoreCommit
  import opened RunStoreRuns

  /** A journal entry about one Attempt. */
  datatype Mark = Start(a: AttemptKey) | Finish(a: AttemptKey)

  function MarkOf(e: Event): Option<Mark> {
    match e.payload
    case AttemptStarted(step, n) => Some(Start(AttemptKey(StepKey(e.run, step), n)))
    case AttemptFinished(step, n) => Some(Finish(AttemptKey(StepKey(e.run, step), n)))
    case _ => None
  }

  function Marks(events: Journal, x: Mark): set<nat> {
    set q | q in events && MarkOf(events[q]) == Some(x)
  }

  function CountMarks(todo: seq<Event>, x: Mark): nat {
    if todo == [] then 0 else (if MarkOf(todo[0]) == Some(x) then 1 else 0) + CountMarks(todo[1..], x)
  }

  lemma {:induction false} CountJoined(a: seq<Event>, b: seq<Event>, x: Mark)
    ensures CountMarks(a + b, x) == CountMarks(a, x) + CountMarks(b, x)
  {
    if a == [] {
      assert a + b == b;
    } else {
      assert (a + b)[1..] == a[1..] + b;
      CountJoined(a[1..], b, x);
    }
  }

  // --------------------------------------------------------------- what the engine supplies

  ghost predicate NoMarks(events: seq<Event>) {
    forall x :: CountMarks(events, x) == 0
  }

  /** A transition finishes only its frontier Attempt, once, and takes the step off running. */
  ghost predicate FinishesFrontier(op: Op)
    requires op.StepTransition?
  {
    forall x :: CountMarks(op.events, x) > 0 ==>
      && x.Finish? && CountMarks(op.events, x) == 1
      && op.from.Running? && x.a.step == op.k && op.frontier == Is(Some(x.a.n))
  }

  ghost predicate EngineOp(op: Op) {
    match op
    case StepTransition(_, _, to, _, _, _, _) => !to.Running? && FinishesFrontier(op)
    case Promote(_, events) => NoMarks(events)
    case CloseAttempt(_, _, events) => NoMarks(events)
    case RunTransition(_, _, _, _, events, _) => NoMarks(events)
    case AppendEvent(event) => NoMarks([event])
    case RecordAttempt(_, _) => false
    case _ => true
  }

  ghost predicate EngineRun(acts: seq<Action>) {
    forall i :: 0 <= i < |acts| && acts[i].Begin? ==> EngineOp(acts[i].op)
  }

  predicate MintsStarts(op: Op) {
    op.Claim? || op.OpenGate? || op.ResolveGate?
  }

  // ------------------------------------------------------------------ one transaction

  /** How many entries `x` the transaction stages in all. */
  function Owed(committed: Staged, op: Op, phase: Phase, attempts: Staged, x: Mark): nat {
    match x
    case Start(a) => if MintsStarts(op) && a in attempts && a !in committed then 1 else 0
    case Finish(a) =>
      if op.StepTransition? && !phase.Begun? then CountMarks(op.events, x)
      else if op.ResolveGate? && phase.Resolved? && a == AttemptKey(op.k, phase.n) then 1 else 0
  }

  ghost predicate MarksOk(committed: Staged, tx: Tx) {
    forall x :: |Marks(tx.events, x)| + CountMarks(tx.todoEvents, x) == Owed(committed, tx.op, tx.phase, tx.attempts, x)
  }

  /** Rows still to be minted are distinct, and none has its Attempt yet. */
  ghost predicate RowsFresh(tx: Tx) {
    tx.op.Claim? && tx.phase.Minting? ==>
      && (forall i, j :: 0 <= i < j < |tx.phase.rows| ==> tx.phase.rows[i] != tx.phase.rows[j])
      && (forall a :: a in tx.attempts ==> a.step !in tx.phase.rows)
  }

  /** A minted Attempt is its step's only one, its step row is held, and it is numbered next. */
  ghost predicate NewOk(committed: Staged, locks: Locks, attempts: Staged) {
    forall a :: a in attempts && a !in committed ==>
      && Excl(locks, StepRow(a.step)) && a.n <= |AttemptsOf(committed, a.step)| + 1
      && (forall b :: b in committed && b.step == a.step ==> b.n < a.n)
      && (forall b :: b in attempts && b !in committed && b.step == a.step ==> b == a)
  }

  /** Only a claim sets a step running. */
  ghost predicate ClaimsRun(tx: Tx) {
    forall k :: k in tx.steps && tx.steps[k].to.Running? ==> tx.op.Claim?
  }

  ghost predicate EngineTx(committed: Staged, tx: Tx) {
    && EngineOp(tx.op) && MarksOk(committed, tx) && RowsFresh(tx)
    && NewOk(committed, tx.locks, tx.attempts) && ClaimsRun(tx)
  }

  /** Attempts of a step are numbered without gaps that a count could fall into. */
  ghost predicate NumbersOk(committed: Staged) {
    forall a :: a in committed ==> a.n <= |AttemptsOf(committed, a.step)|
  }

  lemma NothingMarked()
    ensures forall x :: Marks(map[], x) == {}
  {
    forall x ensures Marks(map[], x) == {} {}
  }

  lemma FreshIsEngine(committed: Staged, op: Op)
    requires EngineOp(op)
    ensures EngineTx(committed, Fresh(op))
  {
    NothingMarked();
  }

  // -------------------------------------------------------------------- the statements

  lemma CasStepMarks(db: Tables, tx: Tx, tx': Tx)
    requires EngineOp(tx.op) && tx == Fresh(tx.op) && CasStepEffect(db, tx, tx')
    ensures EngineTx(db.attempts, tx')
  {
    NothingMarked();
    if tx.op.StepTransition? {
      forall x | CountMarks(tx.op.events, x) > 0 ensures x.Finish? {}
    }
  }

  lemma CasRunMarks(db: Tables, tx: Tx, tx': Tx)
    requires EngineOp(tx.op) && tx == Fresh(tx.op) && CasRunEffect(db, tx, tx')
    ensures EngineTx(db.attempts, tx')
  {
    NothingMarked();
  }

  lemma UpdateMarks(db: Tables, tx: Tx, tx': Tx)
    requires EngineOp(tx.op) && tx == Fresh(tx.op) && UpdateAttemptEffect(db, tx, tx')
    ensures EngineTx(db.attempts, tx')
  {
    NothingMarked();
  }

  lemma ClaimRowsMarks(db: Tables, tx: Tx, picked: seq<StepKey>, tx': Tx)
    requires EngineTx(db.attempts, tx) && tx == Fresh(tx.op) && ClaimRowsEffect(db, tx, picked, tx')
    ensures EngineTx(db.attempts, tx')
  {
  }

  lemma StampMarks(db: Tables, tx: Tx, tx': Tx)
    requires EngineTx(db.attempts, tx) && StampEffect(db, tx, tx')
    ensures EngineTx(db.attempts, tx')
  {
    var a := AttemptKey(tx.op.k, tx.op.stamp.value.attempt);
    assert forall x :: Owed(db.attempts, tx'.op, tx'.phase, tx'.attempts, x)
                       == Owed(db.attempts, tx.op, tx.phase, tx.attempts, x);
  }

  lemma QuietMarks(db: Tables, tx: Tx, stmt: Statement, tx': Tx)
    requires stmt.CheckFrontier? || stmt.LockPendingStep? || stmt.InsertIntent?
    requires EngineTx(db.attempts, tx) && Effect(db, 0, tx, stmt, tx')
    ensures EngineTx(db.attempts, tx')
  {
    assert forall x :: Owed(db.attempts, tx'.op, tx'.phase, tx'.attempts, x)
                       == Owed(db.attempts, tx.op, tx.phase, tx.attempts, x);
  }

  lemma CloseWaitMarks(db: Tables, tx: Tx, n: nat, tx': Tx)
    requires EngineTx(db.attempts, tx) && CloseWaitEffect(db, tx, n, tx')
    ensures EngineTx(db.attempts, tx')
  {
    assert forall x :: Owed(db.attempts, tx'.op, tx'.phase, tx'.attempts, x)
                       == Owed(db.attempts, tx.op, tx.phase, tx.attempts, x);
  }

  /** One Attempt minted with its entry, where nothing was left to journal. */
  lemma MintMarks(committed: Staged, tx: Tx, tx': Tx, a: AttemptKey, o: Outcome, e: Event)
    requires MarksOk(committed, tx) && MintsStarts(tx.op) && tx.todoEvents == []
    requires a !in committed && a !in tx.attempts && MarkOf(e) == Some(Start(a))
    requires tx'.op == tx.op && tx'.events == tx.events && tx'.todoEvents == [e] && tx'.attempts == tx.attempts[a := o]
    requires !tx.phase.Resolved? && !tx'.phase.Resolved?
    ensures MarksOk(committed, tx')
  {
    forall x ensures CountMarks([e], x) == if x == Start(a) then 1 else 0 {
      assert [e][1..] == [];
    }
  }

  lemma NextIsNew(committed: Staged, k: StepKey, latest: Option<nat>)
    requires NumbersOk(committed) && Latest(committed, k, latest)
    ensures IsNext(committed, AttemptKey(k, NextNumber(latest)))
  {
  }

  /** An Attempt numbered past every committed one of its step, by the count at most one past it. */
  ghost predicate IsNext(committed: Staged, a: AttemptKey) {
    && a.n <= |AttemptsOf(committed, a.step)| + 1
    && forall b :: b in committed && b.step == a.step ==> b.n < a.n
  }

  lemma MintNew(committed: Staged, locks: Locks, attempts: Staged, a: AttemptKey, o: Outcome)
    requires NewOk(committed, locks, attempts) && IsNext(committed, a) && Excl(locks, StepRow(a.step))
    requires forall b :: b in attempts && b !in committed ==> b.step != a.step
    ensures NewOk(committed, AddLock(locks, AttemptRow(a), Exclusive), attempts[a := o])
  {
    forall b | b in attempts && b !in committed
      ensures Excl(AddLock(locks, AttemptRow(a), Exclusive), StepRow(b.step))
    {
    }
  }

  /** The next row's launch leaves the rest still to be minted. */
  lemma RestFresh(rows: seq<StepKey>, attempts: Staged, a: AttemptKey, o: Outcome)
    requires rows != [] && a.step == rows[0] && forall b :: b in attempts ==> b.step !in rows
    requires forall i, j :: 0 <= i < j < |rows| ==> rows[i] != rows[j]
    ensures forall b :: b in attempts[a := o] ==> b.step !in rows[1..]
    ensures forall i, j :: 0 <= i < j < |rows[1..]| ==> rows[1..][i] != rows[1..][j]
  {
  }

  lemma MintLaunchMarks(db: Tables, tx: Tx, tx': Tx)
    requires EngineTx(db.attempts, tx) && NumbersOk(db.attempts) && MintLaunchEffect(db, tx, tx')
    requires tx.phase.rows[0] in tx.steps && StepsLocked(tx.locks, tx.steps)
    ensures EngineTx(db.attempts, tx')
  {
    var k := tx.phase.rows[0];
    var a := AttemptKey(k, |AttemptsOf(db.attempts, k)| + 1);
    RestFresh(tx.phase.rows, tx.attempts, a, Outcome.Running);
    assert IsNext(db.attempts, a) && a !in tx.attempts;
    MintNew(db.attempts, tx.locks, tx.attempts, a, Outcome.Running);
    MintMarks(db.attempts, tx, tx', a, Outcome.Running, Event(k.run, AttemptStarted(k.step, a.n)));
  }

  /** A gate's Attempt, minted running by an opened wait or closed by a verdict. */
  lemma GateMintMarks(committed: Staged, tx: Tx, latest: Option<nat>, o: Outcome, tx': Tx)
    requires EngineTx(committed, tx) && NumbersOk(committed) && (tx.op.OpenGate? || tx.op.ResolveGate?)
    requires tx.attempts == map[] && tx.todoEvents == [] && Excl(tx.locks, StepRow(tx.op.k))
    requires Latest(committed, tx.op.k, latest) && !tx.phase.Resolved? && !tx'.phase.Resolved?
    requires var a := AttemptKey(tx.op.k, NextNumber(latest));
             tx' == tx.(locks := AddLock(tx.locks, AttemptRow(a), Exclusive), attempts := tx.attempts[a := o],
                        todoEvents := [Event(tx.op.k.run, AttemptStarted(tx.op.k.step, a.n))], phase := tx'.phase)
    ensures EngineTx(committed, tx')
  {
    var a := AttemptKey(tx.op.k, NextNumber(latest));
    NextIsNew(committed, tx.op.k, latest);
    MintNew(committed, tx.locks, tx.attempts, a, o);
    MintMarks(committed, tx, tx', a, o, Event(tx.op.k.run, AttemptStarted(tx.op.k.step, a.n)));
  }

  lemma OpenWaitMarks(db: Tables, tx: Tx, latest: Option<nat>, tx': Tx)
    requires EngineTx(db.attempts, tx) && NumbersOk(db.attempts) && OpenWaitEffect(db, tx, latest, tx')
    requires tx.attempts == map[] && tx.todoEvents == [] && Excl(tx.locks, StepRow(tx.op.k))
    ensures EngineTx(db.attempts, tx')
  {
    if latest.Some? && db.attempts[AttemptKey(tx.op.k, latest.value)].Running? {
      assert tx' == tx.(phase := Tail);
    } else {
      GateMintMarks(db.attempts, tx, latest, Outcome.Running, tx');
    }
  }

  lemma MintClosedMarks(db: Tables, tx: Tx, latest: Option<nat>, tx': Tx)
    requires EngineTx(db.attempts, tx) && NumbersOk(db.attempts) && MintClosedEffect(db, tx, latest, tx')
    requires tx.attempts == map[] && tx.todoEvents == [] && Excl(tx.locks, StepRow(tx.op.k))
    ensures EngineTx(db.attempts, tx')
  {
    GateMintMarks(db.attempts, tx, latest, GateOutcome(tx.op.passed), tx');
  }

  lemma CountGateEvents(k: StepKey, n: nat, passed: bool, expired: bool, x: Mark)
    ensures CountMarks(GateEvents(k, n, passed, expired), x) == if x == Finish(AttemptKey(k, n)) then 1 else 0
  {
    var finish := Event(k.run, AttemptFinished(k.step, n));
    var note: seq<Event> := if passed then [Event(k.run, GateReleased(k.step))]
                            else if expired then [Event(k.run, GateExpired(k.step))] else [];
    var resolved := Event(k.run, GateResolved(k.step, n, passed));
    var tail := [Event(k.run, StepTransitioned(k.step, GateTarget(passed))), resolved];
    assert GateEvents(k, n, passed, expired) == ([finish] + note) + tail;
    CountJoined([finish] + note, tail, x);
    CountJoined([finish], note, x);
    assert CountMarks(note, x) == 0;
    assert tail[1..] == [resolved] && CountMarks([resolved], x) == 0;
  }

  lemma MoveGateMarks(db: Tables, tx: Tx, tx': Tx)
    requires EngineTx(db.attempts, tx) && MoveGateEffect(db, tx, tx')
    ensures EngineTx(db.attempts, tx')
  {
    forall x ensures |Marks(tx'.events, x)| + CountMarks(tx'.todoEvents, x)
                     == Owed(db.attempts, tx'.op, tx'.phase, tx'.attempts, x)
    {
      var more := GateEvents(tx.op.k, tx.phase.n, tx.op.passed, tx.op.expired);
      CountJoined(tx.todoEvents, more, x);
      CountGateEvents(tx.op.k, tx.phase.n, tx.op.passed, tx.op.expired, x);
    }
  }

  lemma DrawMark(events: Journal, todo: seq<Event>, q: nat, x: Mark)
    requires todo != [] && q !in events
    ensures |Marks(events[q := todo[0]], x)| + CountMarks(todo[1..], x) == |Marks(events, x)| + CountMarks(todo, x)
  {
    assert CountMarks(todo, x) == (if MarkOf(todo[0]) == Some(x) then 1 else 0) + CountMarks(todo[1..], x);
    MarkStaged(events, todo[0], q, x);
  }

  lemma MarkStaged(events: Journal, e: Event, q: nat, x: Mark)
    requires q !in events
    ensures |Marks(events[q := e], x)| == |Marks(events, x)| + if MarkOf(e) == Some(x) then 1 else 0
  {
    if MarkOf(e) == Some(x) {
      assert Marks(events[q := e], x) == Marks(events, x) + {q};
    } else {
      assert Marks(events[q := e], x) == Marks(events, x);
    }
  }

  lemma InsertEventMarks(db: Tables, nextSeq: nat, tx: Tx, tx': Tx)
    requires EngineTx(db.attempts, tx) && InsertEventEffect(nextSeq, tx, tx') && nextSeq !in tx.events
    ensures EngineTx(db.attempts, tx')
  {
    forall x ensures |Marks(tx'.events, x)| + CountMarks(tx'.todoEvents, x)
                     == Owed(db.attempts, tx'.op, tx'.phase, tx'.attempts, x)
    {
      DrawMark(tx.events, tx.todoEvents, nextSeq, x);
    }
  }

  lemma MintStatements(gates: set<StepKey>, db: Tables, nextSeq: nat, tx: Tx, stmt: Statement, tx': Tx)
    requires stmt.MintLaunch? || stmt.OpenWait? || stmt.MintClosed?
    requires LocksOk(db, tx) && ClaimOk(db, tx) && ShapeOk(db, tx) && Effect(db, nextSeq, tx, stmt, tx')
    requires EngineTx(db.attempts, tx) && NumbersOk(db.attempts)
    ensures EngineTx(db.attempts, tx')
  {
    match stmt
    case MintLaunch => MintLaunchMarks(db, tx, tx');
    case OpenWait(latest) => OpenWaitMarks(db, tx, latest, tx');
    case MintClosed(latest) => MintClosedMarks(db, tx, latest, tx');
  }

  lemma BegunStatements(db: Tables, nextSeq: nat, tx: Tx, stmt: Statement, tx': Tx)
    requires stmt.CasStep? || stmt.CasRun? || stmt.UpdateAttempt? || stmt.ClaimRows?
    requires ShapeOk(db, tx) && Effect(db, nextSeq, tx, stmt, tx') && EngineTx(db.attempts, tx)
    ensures EngineTx(db.attempts, tx')
  {
    match stmt
    case CasStep => CasStepMarks(db, tx, tx');
    case CasRun => CasRunMarks(db, tx, tx');
    case UpdateAttempt => UpdateMarks(db, tx, tx');
    case ClaimRows(picked) => ClaimRowsMarks(db, tx, picked, tx');
  }

  lemma LaterStatements(db: Tables, nextSeq: nat, tx: Tx, stmt: Statement, tx': Tx)
    requires stmt.CheckFrontier? || stmt.LockPendingStep? || stmt.InsertIntent? || stmt.StampTransition?
             || stmt.CloseWait? || stmt.MoveGate? || stmt.InsertEvent?
    requires EngineTx(db.attempts, tx) && Effect(db, nextSeq, tx, stmt, tx') && nextSeq !in tx.events
    ensures EngineTx(db.attempts, tx')
  {
    match stmt
    case StampTransition => StampMarks(db, tx, tx');
    case CloseWait(n) => CloseWaitMarks(db, tx, n, tx');
    case MoveGate => MoveGateMarks(db, tx, tx');
    case InsertEvent => InsertEventMarks(db, nextSeq, tx, tx');
    case _ => QuietMarks(db, tx, stmt, tx');
  }

  /** Every statement of the engine's calls keeps its marks. */
  lemma StatementMarks(gates: set<StepKey>, db: Tables, nextSeq: nat, tx: Tx, stmt: Statement, tx': Tx)
    requires TxOk(gates, db, nextSeq, tx) && Effect(db, nextSeq, tx, stmt, tx')
    requires EngineTx(db.attempts, tx) && NumbersOk(db.attempts)
    ensures EngineTx(db.attempts, tx')
  {
    if stmt.MintLaunch? || stmt.OpenWait? || stmt.MintClosed? {
      MintStatements(gates, db, nextSeq, tx, stmt, tx');
    } else if stmt.CasStep? || stmt.CasRun? || stmt.UpdateAttempt? || stmt.ClaimRows? {
      BegunStatements(db, nextSeq, tx, stmt, tx');
    } else if !stmt.ShareStep? && !stmt.InsertAttempt? {
      LaterStatements(db, nextSeq, tx, stmt, tx');
    }
  }
}
