/**
 The inductive invariant of the run store, and its preservation by every step.

 It has three parts: what each open transaction knows about the committed tables
 (`TxOk`), what two open transactions may not share (`Apart`), and what the committed
 tables and the history of commits satisfy (`DbOk`).
 */
module RunStoreInvariant {
  import opened Options
  import opened RunStore

  // ------------------------------------------------------------ one transaction

  type Locks = map<Row, Mode>
  type StepMoves = map<StepKey, StepMove>
  type Staged = map<AttemptKey, Outcome>
  type RunMoves = map<RunId, RunMove>
  type Journal = map<nat, Event>

  predicate Excl(locks: Locks, row: Row) {
    row in locks && locks[row].Exclusive?
  }

  /** Every staged write is on a row held exclusively; a staged new Attempt also holds its step row. */
  ghost predicate StepsLocked(locks: Locks, steps: StepMoves) {
    forall k :: k in steps ==> Excl(locks, StepRow(k))
  }

  ghost predicate RunsLocked(locks: Locks, runs: RunMoves) {
    forall r :: r in runs ==> Excl(locks, RunRow(r))
  }

  ghost predicate AttemptsLocked(db: Tables, locks: Locks, attempts: Staged) {
    forall a :: a in attempts ==>
      && Excl(locks, AttemptRow(a))
      && (a !in db.attempts ==> StepRow(a.step) in locks && a.step in db.steps)
      && (a in db.attempts ==> !ByIntent(db.attempts[a]))
  }

  predicate RunMoveOk(m: RunMove) {
    m.to.generation == m.from.generation + (if TerminalRun(m.from.status) then 1 else 0)
  }

  /** What the guarded statements read is still what is committed. */
  ghost predicate StepReads(db: Tables, steps: StepMoves) {
    forall k :: k in steps ==> k in db.steps && db.steps[k] == steps[k].from
  }

  ghost predicate RunReads(db: Tables, runs: RunMoves) {
    forall r :: r in runs ==> r in db.runs && db.runs[r] == runs[r].from && RunMoveOk(runs[r])
  }

  /** A journal entry is about a row that the transaction moves. */
  ghost predicate EntryOk(steps: StepMoves, runs: RunMoves, e: Event) {
    && (forall k :: MovesStep(e, k) ==> k in steps)
    && (forall r :: MovesRun(e, r) ==> r in runs)
  }

  /** ... and comes after every committed entry of the rows it moves. */
  ghost predicate EntryLast(committed: Journal, e: Event, q: nat) {
    && (forall k, p :: MovesStep(e, k) && p in committed && MovesStep(committed[p], k) ==> p < q)
    && (forall r, p :: MovesRun(e, r) && p in committed && MovesRun(committed[p], r) ==> p < q)
  }

  ghost predicate StagedOk(committed: Journal, nextSeq: nat, steps: StepMoves, runs: RunMoves, events: Journal) {
    forall q :: q in events ==>
      q < nextSeq && q !in committed && EntryOk(steps, runs, events[q]) && EntryLast(committed, events[q], q)
  }

  ghost predicate TodoOk(steps: StepMoves, runs: RunMoves, todo: seq<Event>) {
    forall i :: 0 <= i < |todo| ==> EntryOk(steps, runs, todo[i])
  }

  ghost predicate StagesStep(events: Journal, k: StepKey) {
    exists q :: q in events && MovesStep(events[q], k)
  }

  ghost predicate StagesRun(events: Journal, r: RunId) {
    exists q :: q in events && MovesRun(events[q], r)
  }

  /** A move into or out of a terminal status has its entry, staged or still to come. */
  ghost predicate StepsNamed(steps: StepMoves, events: Journal, todo: seq<Event>) {
    forall k :: k in steps && (TerminalStep(steps[k].from) || TerminalStep(steps[k].to)) ==>
      StagesStep(events, k) || NamesStep(todo, k)
  }

  ghost predicate RunsNamed(runs: RunMoves, events: Journal, todo: seq<Event>) {
    forall r :: r in runs && (TerminalRun(runs[r].from.status) || TerminalRun(runs[r].to.status)) ==>
      StagesRun(events, r) || NamesRun(todo, r)
  }

  /** The last word on step `k`, over what is staged and then what is still to come, fits its move. */
  ghost predicate StepFits(m: StepMove, k: StepKey, events: Journal, todo: seq<Event>) {
    && (forall i :: LastMove(todo, k, i) ==> StepEntryFits(m, StepAfter(todo[i])))
    && (!NamesStep(todo, k) ==> forall q :: LastStepEvent(events, k, q) ==> StepEntryFits(m, StepAfter(events[q])))
  }

  ghost predicate RunFits(m: RunMove, r: RunId, events: Journal, todo: seq<Event>) {
    && (forall i :: LastRunMove(todo, r, i) ==> RunEntryFits(m, todo[i].payload.status))
    && (!NamesRun(todo, r) ==> forall q :: LastRunEvent(events, r, q) ==> RunEntryFits(m, events[q].payload.status))
  }

  ghost predicate StepsFit(steps: StepMoves, events: Journal, todo: seq<Event>) {
    forall k :: k in steps ==> StepFits(steps[k], k, events, todo)
  }

  ghost predicate RunsFit(runs: RunMoves, events: Journal, todo: seq<Event>) {
    forall r :: r in runs ==> RunFits(runs[r], r, events, todo)
  }

  function Ends(events: Journal, r: RunId): set<nat> {
    set q | q in events && EndsRun(events[q], r)
  }

  /** A move to a terminal run status has exactly one terminal entry. */
  ghost predicate EndsOnce(runs: RunMoves, events: Journal, todo: seq<Event>) {
    forall r :: |Ends(events, r)| + CountEnds(todo, r)
      == if r in runs && TerminalRun(runs[r].to.status) then 1 else 0
  }

  ghost predicate JournalOk(committed: Journal, nextSeq: nat, steps: StepMoves, runs: RunMoves,
                            events: Journal, todo: seq<Event>)
  {
    && StagedOk(committed, nextSeq, steps, runs, events) && TodoOk(steps, runs, todo)
    && StepsFit(steps, events, todo) && RunsFit(runs, events, todo)
    && StepsNamed(steps, events, todo) && RunsNamed(runs, events, todo) && EndsOnce(runs, events, todo)
  }

  /** Past its frontier check, a transition's named Attempt is still the latest. */
  ghost predicate FrontierOk(committed: Staged, op: Op, phase: Phase, steps: StepMoves) {
    op.StepTransition? && !phase.Begun? ==>
      && op.k in steps && steps[op.k] == StepMove(op.from, op.to)
      && (op.frontier.Is? && !phase.Moved? ==> Latest(committed, op.k, op.frontier.latest))
  }

  ghost predicate Launched(db: Tables, attempts: Staged, intents: set<Intent>, todo: seq<Intent>, k: StepKey, n: nat) {
    var a := AttemptKey(k, n);
    && a in attempts && a !in db.attempts && attempts[a].Running?
    && (Launch(a) in intents || Launch(a) in db.intents || Launch(a) in todo)
  }

  ghost predicate AllLaunched(db: Tables, steps: StepMoves, rows: seq<StepKey>, attempts: Staged,
                              intents: set<Intent>, todo: seq<Intent>)
  {
    && (forall k :: k in rows ==> k in steps)
    && (forall k :: k in steps ==> k in rows || exists n :: Launched(db, attempts, intents, todo, k, n))
  }

  /** A claimed row is still to be minted, or has its fresh Attempt and its launch intent. */
  ghost predicate ClaimOk(db: Tables, tx: Tx) {
    tx.op.Claim? ==>
      && (tx.phase.Begun? || tx.phase.Minting?)
      && (forall k :: k in tx.steps ==> tx.steps[k] == StepMove(StepStatus.Ready, StepStatus.Running))
      && (tx.phase.Minting? ==>
            AllLaunched(db, tx.steps, tx.phase.rows, tx.attempts, tx.intents, tx.todoIntents))
  }

  /** A gate mint: the only one staged, numbered past every committed Attempt, none of them running. */
  ghost predicate MintOk(committed: Staged, locks: Locks, attempts: Staged, a: AttemptKey) {
    && Excl(locks, StepRow(a.step))
    && (forall b :: b in committed && b.step == a.step ==> b.n < a.n && !committed[b].Running?)
    && (forall b :: b in attempts && b.step == a.step ==> b == a || b in committed)
  }

  /** An Attempt staged on a gate: an update closes it, a mint follows only closed ones. */
  ghost predicate GateAttempts(gates: set<StepKey>, committed: Staged, locks: Locks, attempts: Staged) {
    forall a :: a in attempts && a.step in gates ==>
      if a in committed then !attempts[a].Running? else MintOk(committed, locks, attempts, a)
  }

  ghost predicate GateMoves(gates: set<StepKey>, steps: StepMoves) {
    forall k :: k in steps && k in gates ==> !steps[k].to.Ready? && !steps[k].to.Running?
  }

  /** The verdict closes Attempt `a`, and no other Attempt of the gate is running. */
  ghost predicate VerdictOk(committed: Staged, attempts: Staged, a: AttemptKey, passed: bool) {
    && attempts == map[a := GateOutcome(passed)]
    && (a in committed ==> committed[a].Running?)
    && (forall b :: b in committed && b.step == a.step && b != a ==> !committed[b].Running?)
  }

  ghost predicate ResolveOk(db: Tables, tx: Tx) {
    tx.op.ResolveGate? ==>
      && (tx.phase.Begun? || tx.phase.Locked? || tx.phase.Verdict? || tx.phase.Resolved?)
      && (!tx.phase.Begun? ==> Excl(tx.locks, StepRow(tx.op.k)) && tx.op.k in db.steps && db.steps[tx.op.k].Pending?)
      && (tx.phase.Verdict? || tx.phase.Resolved? ==>
            VerdictOk(db.attempts, tx.attempts, AttemptKey(tx.op.k, tx.phase.n), tx.op.passed))
      && (tx.phase.Resolved? ==>
            tx.op.k in tx.steps && tx.steps[tx.op.k] == StepMove(StepStatus.Pending, GateTarget(tx.op.passed)))
  }

  /** Phases and staging go together. */
  ghost predicate ShapeOk(db: Tables, tx: Tx) {
    && (tx.phase.Begun? ==> tx == Fresh(tx.op))
    && (tx.phase.Locked? && tx.op.RecordAttempt? ==>
          StepRow(tx.op.a.step) in tx.locks && tx.op.a.step in db.steps && tx.attempts == map[])
    && (tx.phase.Locked? && (tx.op.OpenGate? || tx.op.ResolveGate?) ==>
          && Excl(tx.locks, StepRow(tx.op.k)) && tx.op.k in db.steps
          && tx.attempts == map[] && tx.steps == map[] && tx.runs == map[] && tx.todoEvents == [] && tx.events == map[])
    && (tx.phase.Verdict? ==>
          tx.steps == map[] && tx.runs == map[] && tx.events == map[] && MovesNothing(tx.todoEvents))
    && (tx.op.StepTransition? ==> forall a :: a in tx.attempts ==> a in db.attempts)
    && (tx.op.RunTransition? && !tx.phase.Begun? ==>
          && tx.op.r in tx.runs
          && tx.runs[tx.op.r].from.status == tx.op.runFrom && tx.runs[tx.op.r].to.status == tx.op.runTo
          && (tx.op.generation.Some? ==> tx.runs[tx.op.r].from.generation == tx.op.generation.value))
  }

  ghost predicate LocksOk(db: Tables, tx: Tx) {
    && StepsLocked(tx.locks, tx.steps) && RunsLocked(tx.locks, tx.runs) && AttemptsLocked(db, tx.locks, tx.attempts)
  }

  ghost predicate CallOk(gates: set<StepKey>, db: Tables, tx: Tx) {
    && StepReads(db, tx.steps) && RunReads(db, tx.runs)
    && FrontierOk(db.attempts, tx.op, tx.phase, tx.steps)
    && ClaimOk(db, tx)
    && GateAttempts(gates, db.attempts, tx.locks, tx.attempts) && GateMoves(gates, tx.steps)
    && ResolveOk(db, tx) && ShapeOk(db, tx)
  }

  /** What an open transaction knows, apart from its journal entries. */
  ghost predicate DataOk(gates: set<StepKey>, db: Tables, tx: Tx) {
    LocksOk(db, tx) && CallOk(gates, db, tx)
  }

  ghost predicate EntriesOk(db: Tables, nextSeq: nat, tx: Tx) {
    JournalOk(db.events, nextSeq, tx.steps, tx.runs, tx.events, tx.todoEvents)
  }

  ghost predicate TxOk(gates: set<StepKey>, db: Tables, nextSeq: nat, tx: Tx) {
    WellFormed(tx.op, gates) && DataOk(gates, db, tx) && EntriesOk(db, nextSeq, tx)
  }

  // ----------------------------------------------------------- two transactions

  ghost predicate Apart(tx: Tx, ux: Tx) {
    && (forall row :: row in tx.locks && row in ux.locks ==> tx.locks[row].Share? && ux.locks[row].Share?)
    && (forall q :: q in tx.events ==> q !in ux.events)
  }

  // -------------------------------------------------------- tables and history

  /** `q` is the last committed event that moves step `k`. */
  ghost predicate LastStepEvent(events: map<nat, Event>, k: StepKey, q: nat) {
    && q in events && MovesStep(events[q], k)
    && forall p :: p in events && MovesStep(events[p], k) ==> p <= q
  }

  ghost predicate LastRunEvent(events: map<nat, Event>, r: RunId, q: nat) {
    && q in events && MovesRun(events[q], r)
    && forall p :: p in events && MovesRun(events[p], r) ==> p <= q
  }

  /** The journal of step `k` folds to its row whenever either is terminal; no event folds to pending. */
  ghost predicate StepAgrees(db: Tables, k: StepKey)
    requires k in db.steps
  {
    && (TerminalStep(db.steps[k]) ==> StagesStep(db.events, k))
    && (forall q :: LastStepEvent(db.events, k, q) ==>
          TerminalStep(StepAfter(db.events[q])) || TerminalStep(db.steps[k]) ==> StepAfter(db.events[q]) == db.steps[k])
  }

  ghost predicate RunAgrees(db: Tables, r: RunId)
    requires r in db.runs
  {
    && (TerminalRun(db.runs[r].status) ==> StagesRun(db.events, r))
    && (forall q :: LastRunEvent(db.events, r, q) ==>
          TerminalRun(db.events[q].payload.status) || TerminalRun(db.runs[r].status) ==>
            db.events[q].payload.status == db.runs[r].status)
  }

  ghost predicate JournalAgrees(db: Tables) {
    && (forall k :: k in db.steps ==> StepAgrees(db, k))
    && (forall r :: r in db.runs ==> RunAgrees(db, r))
    && (forall q, k :: q in db.events && MovesStep(db.events[q], k) ==> k in db.steps)
    && (forall q, r :: q in db.events && MovesRun(db.events[q], r) ==> r in db.runs)
  }

  /** On a gate only the highest-numbered Attempt may be running. */
  ghost predicate OneWait(attempts: map<AttemptKey, Outcome>, k: StepKey) {
    forall a, b :: a in attempts && b in attempts && a.step == k && b.step == k && a.n < b.n ==> !attempts[a].Running?
  }

  ghost predicate GatesOk(gates: set<StepKey>, db: Tables) {
    && (forall k :: k in gates ==> OneWait(db.attempts, k))
    && (forall k :: k in gates && k in db.steps ==> !db.steps[k].Ready? && !db.steps[k].Running?)
    && (forall a :: a in db.attempts ==> a.step in db.steps)
  }

  /** The status of step `k` after the commits of `hist`. */
  function StatusAfter(hist: seq<CommitRecord>, k: StepKey): StepStatus {
    if hist == [] then StepStatus.Pending
    else if k in hist[|hist| - 1].steps then hist[|hist| - 1].steps[k].to
    else StatusAfter(hist[..|hist| - 1], k)
  }

  function RunAfter(hist: seq<CommitRecord>, r: RunId): RunState {
    if hist == [] then RunState(RunStatus.Pending, 0)
    else if r in hist[|hist| - 1].runs then hist[|hist| - 1].runs[r].to
    else RunAfter(hist[..|hist| - 1], r)
  }

  /** Each commit moved its rows from the status the earlier commits left. */
  ghost predicate Chain(hist: seq<CommitRecord>) {
    hist != [] ==>
      var before, last := hist[..|hist| - 1], hist[|hist| - 1];
      && Chain(before)
      && (forall k :: k in last.steps ==> last.steps[k].from == StatusAfter(before, k))
      && (forall r :: r in last.runs ==> last.runs[r].from == RunAfter(before, r) && RunMoveOk(last.runs[r]))
  }

  /** What the record of one commit says about the call that made it. */
  ghost predicate RecordOk(c: CommitRecord) {
    && (c.op.Claim? ==> forall k :: k in c.steps ==> c.steps[k] == StepMove(StepStatus.Ready, StepStatus.Running))
    && (c.op.ResolveGate? ==>
          c.op.k in c.steps && c.steps[c.op.k] == StepMove(StepStatus.Pending, GateTarget(c.op.passed)))
    && (c.op.RunTransition? ==>
          && c.op.r in c.runs
          && (c.op.generation.Some? ==> c.runs[c.op.r].from.generation == c.op.generation.value))
  }

  /** The commit claimed `k` with a fresh Attempt and launch intent that are in the tables. */
  ghost predicate ClaimBacked(db: Tables, c: CommitRecord, k: StepKey, n: nat) {
    AttemptKey(k, n) in c.minted && AttemptKey(k, n) in db.attempts && Launch(AttemptKey(k, n)) in db.intents
  }

  ghost predicate ClaimsBacked(db: Tables, hist: seq<CommitRecord>) {
    forall i, k :: 0 <= i < |hist| && hist[i].op.Claim? && k in hist[i].steps ==>
      exists n :: ClaimBacked(db, hist[i], k, n)
  }

  /** No Attempt is minted twice. */
  ghost predicate MintsDistinct(db: Tables, hist: seq<CommitRecord>) {
    && (forall i, a :: 0 <= i < |hist| && a in hist[i].minted ==> a in db.attempts)
    && (forall i, j, a :: 0 <= i < j < |hist| && a in hist[i].minted ==> a !in hist[j].minted)
  }

  function EndsIn(c: CommitRecord, r: RunId): nat {
    if r in c.runs && TerminalRun(c.runs[r].to.status) then 1 else 0
  }

  /** How often the commits of `hist` entered a terminal status of run `r`. */
  function TerminalEntries(hist: seq<CommitRecord>, r: RunId): nat {
    if hist == [] then 0 else TerminalEntries(hist[..|hist| - 1], r) + EndsIn(hist[|hist| - 1], r)
  }

  ghost predicate DbOk(gates: set<StepKey>, db: Tables, nextSeq: nat, hist: seq<CommitRecord>) {
    && (forall q :: q in db.events ==> q < nextSeq)
    && JournalAgrees(db) && GatesOk(gates, db)
    && Chain(hist)
    && (forall k :: k in db.steps ==> db.steps[k] == StatusAfter(hist, k))
    && (forall k :: k !in db.steps ==> StatusAfter(hist, k) == StepStatus.Pending)
    && (forall r :: r in db.runs ==> db.runs[r] == RunAfter(hist, r))
    && (forall r :: r !in db.runs ==> RunAfter(hist, r) == RunState(RunStatus.Pending, 0))
    && (forall i :: 0 <= i < |hist| ==> RecordOk(hist[i]))
    && ClaimsBacked(db, hist) && MintsDistinct(db, hist)
    && (forall r :: |Ends(db.events, r)| == TerminalEntries(hist, r))
  }

  ghost predicate TxsOk(s: State) {
    forall t :: t in s.txs ==> TxOk(s.gates, s.db, s.nextSeq, s.txs[t])
  }

  ghost predicate AllApart(s: State) {
    forall t, u :: t in s.txs && u in s.txs && t != u ==> Apart(s.txs[t], s.txs[u])
  }

  ghost predicate Inv(s: State) {
    TxsOk(s) && AllApart(s) && DbOk(s.gates, s.db, s.nextSeq, s.hist)
  }
}
