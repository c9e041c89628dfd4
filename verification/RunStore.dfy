/**
 The durable run store as a transition system.

 Committed tables are maps.  An open transaction carries the rows it has locked,
 the writes it has staged and the statements it still has to issue.  A store method
 is split into its SQL statements; between any two of them every other transaction
 may move.  Postgres READ COMMITTED is modelled by letting a statement run only when
 its row lock can be granted, and by evaluating its WHERE clause on the committed row
 as it stands at that moment.  A statement whose WHERE clause does not match leaves
 `Abort` as the only way forward; a crash, a mint error, a timeout or a refused fence
 is an `Abort` too.
 */
module RunStore {
  import opened Options

  // ------------------------------------------------------------------ tables

  datatype RunId = RunId(id: string)
  datatype StepId = StepId(id: string)
  datatype StepKey = StepKey(run: RunId, step: StepId)
  datatype AttemptKey = AttemptKey(step: StepKey, n: nat)

  datatype StepStatus = Pending | Ready | Running | Succeeded | Failed | Skipped | Cancelled
  datatype RunStatus = Pending | Running | Suspended | Succeeded | Failed | Cancelled | DeadLettered
  datatype Outcome = Running | Succeeded | Failed | Superseded | Cancelled

  predicate TerminalStep(s: StepStatus) {
    s.Succeeded? || s.Failed? || s.Skipped? || s.Cancelled?
  }

  predicate TerminalRun(s: RunStatus) {
    s.Succeeded? || s.Failed? || s.Cancelled? || s.DeadLettered?
  }

  /** Terminal by intent: never overwritten by a later observation. */
  predicate ByIntent(o: Outcome) {
    o.Superseded? || o.Cancelled?
  }

  datatype Payload =
    | StepTransitioned(step: StepId, to: StepStatus)
    | StepSkipped(step: StepId)
    | RunTransitioned(status: RunStatus)
    | AttemptStarted(step: StepId, attempt: nat)
    | AttemptFinished(step: StepId, attempt: nat)
    | GateReleased(step: StepId)
    | GateExpired(step: StepId)
    | GateResolved(step: StepId, attempt: nat, passed: bool)
    | Note

  datatype Event = Event(run: RunId, payload: Payload)

  predicate MovesStep(e: Event, k: StepKey) {
    e.run == k.run && (e.payload.StepTransitioned? || e.payload.StepSkipped?) && e.payload.step == k.step
  }

  predicate MovesRun(e: Event, r: RunId) {
    e.run == r && e.payload.RunTransitioned?
  }

  /** The status a step-moving event folds to. */
  function StepAfter(e: Event): StepStatus
    requires e.payload.StepTransitioned? || e.payload.StepSkipped?
  {
    if e.payload.StepSkipped? then StepStatus.Skipped else e.payload.to
  }

  /** An outbox row, by its idempotency key.  `Launch` is the key of an Attempt's launch intent. */
  datatype Intent = Launch(a: AttemptKey) | Keyed(key: string)

  datatype RunState = RunState(status: RunStatus, generation: nat)

  datatype Tables = Tables(
    steps: map<StepKey, StepStatus>,
    attempts: map<AttemptKey, Outcome>,
    runs: map<RunId, RunState>,
    events: map<nat, Event>,
    intents: set<Intent>)

  // ------------------------------------------------------------ transactions

  datatype Row = StepRow(k: StepKey) | AttemptRow(a: AttemptKey) | RunRow(r: RunId) | IntentRow(i: Intent)
  datatype Mode = Share | Exclusive

  datatype StepMove = StepMove(from: StepStatus, to: StepStatus)
  datatype RunMove = RunMove(from: RunState, to: RunState)

  datatype Frontier = Any | Is(latest: Option<nat>)
  datatype Stamp = Stamp(attempt: nat, outcome: Outcome)

  /** One call of a store method, with its arguments. */
  datatype Op =
    | StepTransition(k: StepKey, from: StepStatus, to: StepStatus, frontier: Frontier,
                     stamp: Option<Stamp>, events: seq<Event>, intents: seq<Intent>)
    | Promote(k: StepKey, events: seq<Event>)
    | Claim(limit: nat)
    | RecordAttempt(a: AttemptKey, outcome: Outcome)
    | StampAttempt(a: AttemptKey, outcome: Outcome)
    | CloseAttempt(a: AttemptKey, outcome: Outcome, events: seq<Event>)
    | RunTransition(r: RunId, runFrom: RunStatus, runTo: RunStatus, generation: Option<nat>,
                    events: seq<Event>, intents: seq<Intent>)
    | OpenGate(k: StepKey)
    | ResolveGate(k: StepKey, passed: bool, expired: bool, fence: Option<nat>)
    | AppendEvent(event: Event)

  /** Where a call stands between its statements. */
  datatype Phase =
    | Begun
    | Moved                          // the step CAS won
    | Locked                         // the step row is held
    | Minting(rows: seq<StepKey>)    // claimed rows whose launch is still to be written
    | Verdict(n: nat)                // the gate's Attempt `n` is closed
    | Resolved(n: nat)               // ... and the gate step moved
    | Tail                           // only journal and outbox inserts are left

  datatype Tx = Tx(
    op: Op, phase: Phase, locks: map<Row, Mode>,
    steps: map<StepKey, StepMove>, attempts: map<AttemptKey, Outcome>, runs: map<RunId, RunMove>,
    events: map<nat, Event>, intents: set<Intent>,
    todoEvents: seq<Event>, todoIntents: seq<Intent>)

  /** What one commit did: the statuses it moved and the Attempts it minted. */
  datatype CommitRecord = CommitRecord(
    op: Op, steps: map<StepKey, StepMove>, runs: map<RunId, RunMove>, minted: set<AttemptKey>)

  /** `gates` names the steps that are gates; the pipeline fixes it before a step exists. */
  datatype State = State(
    gates: set<StepKey>, db: Tables, nextSeq: nat, txs: map<nat, Tx>, hist: seq<CommitRecord>)

  /** The lock can be granted to `t` now: no other transaction holds a conflicting one. */
  ghost predicate Free(s: State, t: nat, row: Row, mode: Mode) {
    forall u :: u in s.txs && u != t && row in s.txs[u].locks ==> mode.Share? && s.txs[u].locks[row].Share?
  }

  function AddLock(locks: map<Row, Mode>, row: Row, mode: Mode): map<Row, Mode> {
    if row in locks && locks[row].Exclusive? then locks else locks[row := mode]
  }

  // ------------------------------------------- what callers supply (hypotheses)

  /** `to` is a fit last word on the move: its target when either end is terminal, some
      non-terminal status otherwise. */
  predicate StepEntryFits(m: StepMove, to: StepStatus) {
    if TerminalStep(m.from) || TerminalStep(m.to) then to == m.to else !TerminalStep(to)
  }

  predicate RunEntryFits(m: RunMove, to: RunStatus) {
    if TerminalRun(m.from.status) || TerminalRun(m.to.status) then to == m.to.status else !TerminalRun(to)
  }

  ghost predicate MovesNothing(events: seq<Event>) {
    forall i :: 0 <= i < |events| ==>
      !events[i].payload.StepTransitioned? && !events[i].payload.StepSkipped? && !events[i].payload.RunTransitioned?
  }

  ghost predicate NamesStep(events: seq<Event>, k: StepKey) {
    exists i :: 0 <= i < |events| && MovesStep(events[i], k)
  }

  ghost predicate NamesRun(events: seq<Event>, r: RunId) {
    exists i :: 0 <= i < |events| && MovesRun(events[i], r)
  }

  /** `events[i]` is the last of them to move step `k`. */
  ghost predicate LastMove(events: seq<Event>, k: StepKey, i: int) {
    0 <= i < |events| && MovesStep(events[i], k) && forall j :: i < j < |events| ==> !MovesStep(events[j], k)
  }

  ghost predicate LastRunMove(events: seq<Event>, r: RunId, i: int) {
    0 <= i < |events| && MovesRun(events[i], r) && forall j :: i < j < |events| ==> !MovesRun(events[j], r)
  }

  /** The events of a step transition journal that step only, and the last that does names the
      move; an earlier one need not (a skip of an unchanged step is journalled as skipped, then
      as moved to succeeded). */
  ghost predicate JournalsStep(k: StepKey, m: StepMove, events: seq<Event>) {
    && (forall i :: 0 <= i < |events| ==> !events[i].payload.RunTransitioned?)
    && (forall i, j: StepKey :: 0 <= i < |events| && MovesStep(events[i], j) ==> j == k)
    && (forall i :: LastMove(events, k, i) ==> StepEntryFits(m, StepAfter(events[i])))
    && (TerminalStep(m.from) || TerminalStep(m.to) ==> NamesStep(events, k))
  }

  predicate EndsRun(e: Event, r: RunId) {
    MovesRun(e, r) && TerminalRun(e.payload.status)
  }

  function CountEnds(events: seq<Event>, r: RunId): nat {
    if events == [] then 0 else (if EndsRun(events[0], r) then 1 else 0) + CountEnds(events[1..], r)
  }

  /** The events of a run transition journal that run only, the last names the move, and a terminal
      end is named exactly once. */
  ghost predicate JournalsRun(r: RunId, m: RunMove, events: seq<Event>) {
    && (forall i :: 0 <= i < |events| ==> !events[i].payload.StepTransitioned? && !events[i].payload.StepSkipped?)
    && (forall i :: 0 <= i < |events| && events[i].payload.RunTransitioned? ==> events[i].run == r)
    && (forall i :: LastRunMove(events, r, i) ==> RunEntryFits(m, events[i].payload.status))
    && (TerminalRun(m.from.status) || TerminalRun(m.to.status) ==> NamesRun(events, r))
    && CountEnds(events, r) == (if TerminalRun(m.to.status) then 1 else 0)
  }

  ghost predicate WellFormed(op: Op, gates: set<StepKey>) {
    match op
    case StepTransition(k, from, to, _, stamp, events, _) =>
      && JournalsStep(k, StepMove(from, to), events)
      && (k in gates ==> !to.Ready? && !to.Running?)
      && (stamp.Some? ==> !stamp.value.outcome.Running?)
    case Promote(k, events) =>
      k !in gates && JournalsStep(k, StepMove(StepStatus.Pending, StepStatus.Ready), events)
    case RecordAttempt(a, _) => a.step !in gates
    case StampAttempt(_, outcome) => !outcome.Running?
    case CloseAttempt(_, outcome, events) => !outcome.Running? && MovesNothing(events)
    case RunTransition(r, from, to, _, events, _) =>
      JournalsRun(r, RunMove(RunState(from, 0), RunState(to, 0)), events)
    case OpenGate(k) => k in gates
    case ResolveGate(k, _, _, _) => k in gates
    case AppendEvent(e) => MovesNothing([e])
    case Claim(_) => true
  }

  // --------------------------------------------------------------- statements

  ghost predicate Latest(attempts: map<AttemptKey, Outcome>, k: StepKey, latest: Option<nat>) {
    match latest
    case None => forall a :: a in attempts ==> a.step != k
    case Some(n) => AttemptKey(k, n) in attempts && forall a :: a in attempts && a.step == k ==> a.n <= n
  }

  function AttemptsOf(attempts: map<AttemptKey, Outcome>, k: StepKey): set<AttemptKey> {
    set a | a in attempts && a.step == k
  }

  function StepRows(picked: seq<StepKey>): set<Row> {
    set k | k in picked :: StepRow(k)
  }

  datatype Statement =
    | CasStep
    | CheckFrontier
    | StampTransition
    | UpdateAttempt
    | ClaimRows(picked: seq<StepKey>)
    | MintLaunch
    | ShareStep
    | InsertAttempt
    | CasRun
    | LockPendingStep
    | OpenWait(latest: Option<nat>)
    | CloseWait(n: nat)
    | MintClosed(latest: Option<nat>)
    | MoveGate
    | InsertEvent
    | InsertIntent

  function GateTarget(passed: bool): StepStatus {
    if passed then StepStatus.Succeeded else StepStatus.Failed
  }

  function GateOutcome(passed: bool): Outcome {
    if passed then Outcome.Succeeded else Outcome.Failed
  }

  /** The journal of a resolution: the Attempt's end, a release or an expiry if there is one, the gate step's
      move, and the resolution. */
  function GateEvents(k: StepKey, n: nat, passed: bool, expired: bool): seq<Event> {
    [Event(k.run, AttemptFinished(k.step, n))]
    + (if passed then [Event(k.run, GateReleased(k.step))]
       else if expired then [Event(k.run, GateExpired(k.step))] else [])
    + [Event(k.run, StepTransitioned(k.step, GateTarget(passed))), Event(k.run, GateResolved(k.step, n, passed))]
  }

  /** `UPDATE attempts SET outcome ... WHERE outcome` is not terminal by intent: no row, no write. */
  function Stamped(db: Tables, tx: Tx, a: AttemptKey, outcome: Outcome): Tx {
    var hit := a in db.attempts && !ByIntent(db.attempts[a]);
    tx.(locks := if hit then AddLock(tx.locks, AttemptRow(a), Exclusive) else tx.locks,
        attempts := if hit then tx.attempts[a := outcome] else tx.attempts,
        phase := Tail)
  }

  /** The guarded `UPDATE step_runs ... WHERE status = from` of a transition or a promotion. */
  ghost predicate CasStepEffect(db: Tables, tx: Tx, tx': Tx) {
    && tx.phase.Begun? && (tx.op.StepTransition? || tx.op.Promote?)
    && var m := if tx.op.Promote? then StepMove(StepStatus.Pending, StepStatus.Ready)
                else StepMove(tx.op.from, tx.op.to);
    && tx.op.k in db.steps && db.steps[tx.op.k] == m.from
    && tx' == tx.(
         locks := AddLock(tx.locks, StepRow(tx.op.k), Exclusive),
         steps := tx.steps[tx.op.k := m],
         todoEvents := tx.op.events,
         todoIntents := if tx.op.Promote? then [] else tx.op.intents,
         phase := if tx.op.Promote? then Tail else Moved)
  }

  /** The frontier read, made only now that the CAS holds the step row. */
  ghost predicate CheckFrontierEffect(db: Tables, tx: Tx, tx': Tx) {
    && tx.phase.Moved? && tx.op.StepTransition?
    && (tx.op.frontier.Is? ==> Latest(db.attempts, tx.op.k, tx.op.frontier.latest))
    && tx' == tx.(phase := if tx.op.stamp.Some? then Locked else Tail)
  }

  /** The stamp of a won transition. */
  ghost predicate StampEffect(db: Tables, tx: Tx, tx': Tx) {
    && tx.phase.Locked? && tx.op.StepTransition? && tx.op.stamp.Some?
    && tx' == Stamped(db, tx, AttemptKey(tx.op.k, tx.op.stamp.value.attempt), tx.op.stamp.value.outcome)
  }

  /** `set_attempt_outcome` and `set_attempt_failure`, and the close of a running Attempt. */
  ghost predicate UpdateAttemptEffect(db: Tables, tx: Tx, tx': Tx) {
    && tx.phase.Begun? && (tx.op.StampAttempt? || tx.op.CloseAttempt?)
    && (tx.op.CloseAttempt? ==> tx.op.a in db.attempts && db.attempts[tx.op.a].Running?)
    && tx' == Stamped(db, tx, tx.op.a, tx.op.outcome).(todoEvents := if tx.op.CloseAttempt? then tx.op.events else [])
  }

  /** The dequeue: ready rows nobody else holds (SKIP LOCKED), at most `limit` of them. */
  ghost predicate ClaimRowsEffect(db: Tables, tx: Tx, picked: seq<StepKey>, tx': Tx) {
    && tx.phase.Begun? && tx.op.Claim?
    && |picked| <= tx.op.limit
    && (forall i, j :: 0 <= i < j < |picked| ==> picked[i] != picked[j])
    && (forall k :: k in picked ==> k in db.steps && db.steps[k].Ready?)
    && tx' == tx.(
         locks := tx.locks + (map row | row in StepRows(picked) :: Exclusive),
         steps := tx.steps + (map k | k in picked :: StepMove(StepStatus.Ready, StepStatus.Running)),
         phase := Minting(picked))
  }

  /** One claimed row's launch: Attempt `len + 1`, its `AttemptStarted` and its launch intent. */
  ghost predicate MintLaunchEffect(db: Tables, tx: Tx, tx': Tx) {
    && tx.phase.Minting? && tx.phase.rows != [] && tx.op.Claim?
    && tx.todoEvents == [] && tx.todoIntents == []
    && var k := tx.phase.rows[0];
    && var a := AttemptKey(k, |AttemptsOf(db.attempts, k)| + 1);
    && a !in db.attempts
    && tx' == tx.(
         locks := AddLock(tx.locks, AttemptRow(a), Exclusive),
         attempts := tx.attempts[a := Outcome.Running],
         todoEvents := [Event(k.run, AttemptStarted(k.step, a.n))],
         todoIntents := [Launch(a)],
         phase := Minting(tx.phase.rows[1..]))
  }

  /** `record_attempt` holds the step row FOR SHARE; the foreign key needs that row. */
  ghost predicate ShareStepEffect(db: Tables, tx: Tx, tx': Tx) {
    && tx.phase.Begun? && tx.op.RecordAttempt? && tx.op.a.step in db.steps
    && tx' == tx.(
         locks := AddLock(tx.locks, StepRow(tx.op.a.step), Share),
         phase := Locked)
  }

  /** ... then inserts, ON CONFLICT DO NOTHING. */
  ghost predicate InsertAttemptEffect(db: Tables, tx: Tx, tx': Tx) {
    && tx.phase.Locked? && tx.op.RecordAttempt?
    && var taken := tx.op.a in db.attempts;
    && tx' == tx.(
         locks := if taken then tx.locks else AddLock(tx.locks, AttemptRow(tx.op.a), Exclusive),
         attempts := if taken then tx.attempts else tx.attempts[tx.op.a := tx.op.outcome],
         phase := Tail)
  }

  /** The guarded run CAS; moving a run out of a terminal status bumps its generation. */
  ghost predicate CasRunEffect(db: Tables, tx: Tx, tx': Tx) {
    && tx.phase.Begun? && tx.op.RunTransition?
    && var r := tx.op.r;
    && r in db.runs && db.runs[r].status == tx.op.runFrom
    && (tx.op.generation.Some? ==> db.runs[r].generation == tx.op.generation.value)
    && tx' == tx.(
         locks := AddLock(tx.locks, RunRow(r), Exclusive),
         runs := tx.runs[r := RunMove(db.runs[r], RunState(tx.op.runTo,
           db.runs[r].generation + if TerminalRun(tx.op.runFrom) then 1 else 0))],
         todoEvents := tx.op.events, todoIntents := tx.op.intents, phase := Tail)
  }

  /** The gate methods lock the step row FOR UPDATE and go on only while it is pending. */
  ghost predicate LockPendingStepEffect(db: Tables, tx: Tx, tx': Tx) {
    && tx.phase.Begun? && (tx.op.OpenGate? || tx.op.ResolveGate?)
    && tx.op.k in db.steps && db.steps[tx.op.k].Pending?
    && tx' == tx.(
         locks := AddLock(tx.locks, StepRow(tx.op.k), Exclusive),
         phase := Locked)
  }

  function NextNumber(latest: Option<nat>): nat {
    if latest.Some? then latest.value + 1 else 1
  }

  /** `open_gate_wait`: keep a running latest Attempt, else mint the next one. */
  ghost predicate OpenWaitEffect(db: Tables, tx: Tx, latest: Option<nat>, tx': Tx) {
    && tx.phase.Locked? && tx.op.OpenGate?
    && var k := tx.op.k;
    && Latest(db.attempts, k, latest)
    && var a := AttemptKey(k, NextNumber(latest));
    && tx' == if latest.Some? && db.attempts[AttemptKey(k, latest.value)].Running? then tx.(phase := Tail)
              else tx.(
         locks := AddLock(tx.locks, AttemptRow(a), Exclusive),
         attempts := tx.attempts[a := Outcome.Running],
                todoEvents := [Event(k.run, AttemptStarted(k.step, a.n))],
                phase := Tail)
  }

  /** `resolve_gate_wait` closes the fenced (or open) wait, only while it is running. */
  ghost predicate CloseWaitEffect(db: Tables, tx: Tx, n: nat, tx': Tx) {
    && tx.phase.Locked? && tx.op.ResolveGate?
    && var a := AttemptKey(tx.op.k, n);
    && (if tx.op.fence.Some? then n == tx.op.fence.value else Latest(db.attempts, tx.op.k, Some(n)))
    && a in db.attempts && db.attempts[a].Running?
    && tx' == tx.(
         locks := AddLock(tx.locks, AttemptRow(a), Exclusive),
         attempts := tx.attempts[a := GateOutcome(tx.op.passed)], phase := Verdict(n))
  }

  /** ... or, unfenced and with no open wait, mints the Attempt already closed. */
  ghost predicate MintClosedEffect(db: Tables, tx: Tx, latest: Option<nat>, tx': Tx) {
    && tx.phase.Locked? && tx.op.ResolveGate? && tx.op.fence.None?
    && var k := tx.op.k;
    && Latest(db.attempts, k, latest)
    && (latest.Some? ==> !db.attempts[AttemptKey(k, latest.value)].Running?)
    && var a := AttemptKey(k, NextNumber(latest));
    && tx' == tx.(
         locks := AddLock(tx.locks, AttemptRow(a), Exclusive),
         attempts := tx.attempts[a := GateOutcome(tx.op.passed)],
         todoEvents := [Event(k.run, AttemptStarted(k.step, a.n))],
         phase := Verdict(a.n))
  }

  /** The gate step's own move, and the journal of the verdict. */
  ghost predicate MoveGateEffect(db: Tables, tx: Tx, tx': Tx) {
    && tx.phase.Verdict? && tx.op.ResolveGate?
    && tx.op.k in db.steps && db.steps[tx.op.k].Pending?
    && tx' == tx.(
         steps := tx.steps[tx.op.k := StepMove(StepStatus.Pending, GateTarget(tx.op.passed))],
         todoEvents := tx.todoEvents + GateEvents(tx.op.k, tx.phase.n, tx.op.passed, tx.op.expired),
         phase := Resolved(tx.phase.n))
  }

  /** One journal insert: its sequence number is drawn here, not at the commit. */
  ghost predicate InsertEventEffect(nextSeq: nat, tx: Tx, tx': Tx) {
    && Inserting(tx.phase) && tx.todoEvents != []
    && tx' == tx.(events := tx.events[nextSeq := tx.todoEvents[0]], todoEvents := tx.todoEvents[1..])
  }

  /** One outbox insert, ON CONFLICT (idempotency_key) DO NOTHING. */
  ghost predicate InsertIntentEffect(db: Tables, tx: Tx, tx': Tx) {
    && Inserting(tx.phase) && tx.todoIntents != []
    && var i := tx.todoIntents[0];
    && tx' == tx.(
         locks := if i in db.intents then tx.locks else AddLock(tx.locks, IntentRow(i), Exclusive),
         intents := if i in db.intents then tx.intents else tx.intents + {i},
         todoIntents := tx.todoIntents[1..])
  }

  ghost predicate Effect(db: Tables, nextSeq: nat, tx: Tx, stmt: Statement, tx': Tx) {
    match stmt
    case CasStep => CasStepEffect(db, tx, tx')
    case CheckFrontier => CheckFrontierEffect(db, tx, tx')
    case StampTransition => StampEffect(db, tx, tx')
    case UpdateAttempt => UpdateAttemptEffect(db, tx, tx')
    case ClaimRows(picked) => ClaimRowsEffect(db, tx, picked, tx')
    case MintLaunch => MintLaunchEffect(db, tx, tx')
    case ShareStep => ShareStepEffect(db, tx, tx')
    case InsertAttempt => InsertAttemptEffect(db, tx, tx')
    case CasRun => CasRunEffect(db, tx, tx')
    case LockPendingStep => LockPendingStepEffect(db, tx, tx')
    case OpenWait(latest) => OpenWaitEffect(db, tx, latest, tx')
    case CloseWait(n) => CloseWaitEffect(db, tx, n, tx')
    case MintClosed(latest) => MintClosedEffect(db, tx, latest, tx')
    case MoveGate => MoveGateEffect(db, tx, tx')
    case InsertEvent => InsertEventEffect(nextSeq, tx, tx')
    case InsertIntent => InsertIntentEffect(db, tx, tx')
  }

  /** Every lock the statement takes can be granted now. */
  ghost predicate Granted(s: State, t: nat, tx: Tx, tx': Tx) {
    forall row :: row in tx'.locks && !(row in tx.locks && tx.locks[row] == tx'.locks[row]) ==>
      Free(s, t, row, tx'.locks[row])
  }

  predicate Inserting(p: Phase) {
    p.Tail? || p.Resolved? || p.Minting?
  }

  /** The method has issued its last statement. */
  predicate Finished(tx: Tx) {
    && tx.todoEvents == [] && tx.todoIntents == []
    && match tx.phase
       case Tail => true
       case Resolved(_) => true
       case Minting(rows) => rows == []
       case _ => false
  }

  function Applied(db: Tables, tx: Tx): Tables {
    Tables(
      map k | k in db.steps :: if k in tx.steps then tx.steps[k].to else db.steps[k],
      db.attempts + tx.attempts,
      map r | r in db.runs :: if r in tx.runs then tx.runs[r].to else db.runs[r],
      db.events + tx.events,
      db.intents + tx.intents)
  }

  function RecordOf(db: Tables, tx: Tx): CommitRecord {
    CommitRecord(tx.op, tx.steps, tx.runs, set a | a in tx.attempts && a !in db.attempts)
  }

  // ------------------------------------------------------------------ the system

  datatype Action =
    | Begin(t: nat, op: Op)
    | Run(t: nat, stmt: Statement, tx': Tx)
    | Commit(t: nat)
    | Abort(t: nat)
    | CreateRun(r: RunId)
    | CreateStep(k: StepKey)

  function Fresh(op: Op): Tx {
    Tx(op, if op.AppendEvent? then Tail else Begun, map[], map[], map[], map[], map[], {},
       if op.AppendEvent? then [op.event] else [], [])
  }

  ghost predicate Init(s: State) {
    s.db == Tables(map[], map[], map[], map[], {}) && s.txs == map[] && s.hist == []
  }

  ghost predicate Step(s: State, action: Action, s': State) {
    match action
    case Begin(t, op) =>
      t !in s.txs && WellFormed(op, s.gates) && s' == s.(txs := s.txs[t := Fresh(op)])
    case Run(t, stmt, tx') =>
      && t in s.txs && Effect(s.db, s.nextSeq, s.txs[t], stmt, tx') && Granted(s, t, s.txs[t], tx')
      && s' == s.(txs := s.txs[t := tx'], nextSeq := s.nextSeq + if stmt.InsertEvent? then 1 else 0)
    case Commit(t) =>
      && t in s.txs && Finished(s.txs[t])
      && s' == s.(db := Applied(s.db, s.txs[t]), txs := s.txs - {t},
                  hist := s.hist + [RecordOf(s.db, s.txs[t])])
    case Abort(t) =>
      t in s.txs && s' == s.(txs := s.txs - {t})
    case CreateRun(r) =>
      r !in s.db.runs && s' == s.(db := s.db.(runs := s.db.runs[r := RunState(RunStatus.Pending, 0)]))
    case CreateStep(k) =>
      k !in s.db.steps && s' == s.(db := s.db.(steps := s.db.steps[k := StepStatus.Pending]))
  }

  /** A finite run of the store, from empty tables, under any interleaving. */
  ghost predicate IsRun(trace: seq<State>, acts: seq<Action>) {
    && |trace| == |acts| + 1 && Init(trace[0])
    && forall i :: 0 <= i < |acts| ==> Step(trace[i], acts[i], trace[i + 1])
  }
}
