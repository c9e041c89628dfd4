/** What an open transaction has staged and still has to write is what its call does, and no more. */
module RunStorePlans {
  import opened Options
  import opened RunStore
  import opened RunStoreInvariant
  import opened RunStoreCommit
  import opened RunStoreAtomic

  // ------------------------------------------------------------------ rows, journal, outbox

  predicate Bare(tx: Tx) {
    tx.steps == map[] && tx.attempts == map[] && tx.runs == map[]
  }

  function Hit(committed: Staged, a: AttemptKey, o: Outcome): Staged {
    if a in committed && !ByIntent(committed[a]) then map[a := o] else map[]
  }

  ghost predicate TransitionPlan(db: Tables, tx: Tx)
    requires tx.op.StepTransition?
  {
    && tx.runs == map[] && tx.steps == map[tx.op.k := StepMove(tx.op.from, tx.op.to)]
    && (tx.phase.Moved? || tx.phase.Locked? || tx.phase.Tail?)
    && tx.attempts == if tx.phase.Tail? && tx.op.stamp.Some?
                      then Hit(db.attempts, AttemptKey(tx.op.k, tx.op.stamp.value.attempt), tx.op.stamp.value.outcome)
                      else map[]
  }

  ghost predicate PromotePlan(tx: Tx)
    requires tx.op.Promote?
  {
    && tx.phase.Tail? && tx.runs == map[] && tx.attempts == map[]
    && tx.steps == map[tx.op.k := StepMove(StepStatus.Pending, StepStatus.Ready)]
  }

  predicate IsNextOf(committed: Staged, a: AttemptKey) {
    a !in committed && a.n == |AttemptsOf(committed, a.step)| + 1
  }

  function StepsOf(named: seq<AttemptKey>): seq<StepKey> {
    seq(|named|, i requires 0 <= i < |named| => named[i].step)
  }

  ghost predicate Distinct(keys: seq<StepKey>) {
    forall i, j :: 0 <= i < j < |keys| ==> keys[i] != keys[j]
  }

  ghost predicate ClaimPlan(db: Tables, tx: Tx, named: seq<AttemptKey>)
    requires tx.op.Claim?
  {
    && tx.phase.Minting? && tx.runs == map[]
    && var picked := StepsOf(named) + tx.phase.rows;
    && |picked| <= tx.op.limit && Distinct(picked)
    && tx.steps == (map k | k in picked :: StepMove(StepStatus.Ready, StepStatus.Running))
    && (forall a :: a in named ==> IsNextOf(db.attempts, a))
    && tx.attempts == (map a | a in named :: Outcome.Running)
  }

  ghost predicate RecordPlan(db: Tables, tx: Tx)
    requires tx.op.RecordAttempt?
  {
    && tx.steps == map[] && tx.runs == map[] && tx.op.a.step in db.steps && (tx.phase.Locked? || tx.phase.Tail?)
    && if tx.phase.Tail? && !(tx.op.a in db.attempts) then tx.attempts == map[tx.op.a := tx.op.outcome]
       else tx.attempts == map[]
  }

  ghost predicate StampPlan(db: Tables, tx: Tx)
    requires tx.op.StampAttempt?
  {
    && tx.phase.Tail? && tx.steps == map[] && tx.runs == map[]
    && (tx.attempts == map[] || (tx.op.a in db.attempts && tx.attempts == map[tx.op.a := tx.op.outcome]))
  }

  ghost predicate ClosePlan(db: Tables, tx: Tx)
    requires tx.op.CloseAttempt?
  {
    && tx.phase.Tail? && tx.steps == map[] && tx.runs == map[]
    && tx.op.a in db.attempts && db.attempts[tx.op.a].Running? && tx.attempts == map[tx.op.a := tx.op.outcome]
  }

  ghost predicate RunPlan(db: Tables, tx: Tx)
    requires tx.op.RunTransition?
  {
    && tx.phase.Tail? && tx.steps == map[] && tx.attempts == map[]
    && tx.op.r in db.runs && db.runs[tx.op.r].status == tx.op.runFrom
    && tx.runs == map[tx.op.r := RunMove(db.runs[tx.op.r],
         RunState(tx.op.runTo, db.runs[tx.op.r].generation + if TerminalRun(tx.op.runFrom) then 1 else 0))]
  }

  /** A gate call past its lock: nothing, a wait kept, or one minted. */
  ghost predicate OpenPlan(db: Tables, tx: Tx, named: seq<AttemptKey>)
    requires tx.op.OpenGate?
  {
    && tx.steps == map[] && tx.runs == map[] && (tx.phase.Locked? || tx.phase.Tail?)
    && Excl(tx.locks, StepRow(tx.op.k)) && tx.op.k in db.steps && db.steps[tx.op.k].Pending?
    && if named == []
       then tx.attempts == map[] && (tx.phase.Tail? ==> exists a :: a in db.attempts && a.step == tx.op.k)
       else tx.phase.Tail? && MintPlan(db.attempts, tx.attempts, tx.op.k, named)
  }

  ghost predicate MintPlan(committed: Staged, attempts: Staged, k: StepKey, named: seq<AttemptKey>)
    requires named != []
  {
    && named == [AttemptKey(k, named[0].n)] && attempts == map[named[0] := Outcome.Running]
    && named[0] !in committed && NextWait(committed, k, named[0].n)
  }

  /** The wait that the verdict closes, or the Attempt that it mints closed. */
  ghost predicate VerdictPlan(committed: Staged, op: Op, n: nat, named: seq<AttemptKey>)
    requires op.ResolveGate?
  {
    var a := AttemptKey(op.k, n);
    if named == []
    then a in committed && committed[a].Running?
      && if op.fence.Some? then op.fence.value == n else Latest(committed, op.k, Some(n))
    else named == [a] && a !in committed && op.fence.None? && NextWait(committed, op.k, n)
  }

  ghost predicate ResolvePlan(db: Tables, tx: Tx, named: seq<AttemptKey>)
    requires tx.op.ResolveGate?
  {
    && tx.runs == map[] && (tx.phase.Locked? || tx.phase.Verdict? || tx.phase.Resolved?)
    && (tx.phase.Locked? ==> Bare(tx) && named == [])
    && (!tx.phase.Locked? ==>
          && VerdictPlan(db.attempts, tx.op, tx.phase.n, named)
          && tx.attempts == map[AttemptKey(tx.op.k, tx.phase.n) :=
                if tx.op.passed then Outcome.Succeeded else Outcome.Failed]
          && tx.steps == if tx.phase.Verdict? then map[]
                         else map[tx.op.k := StepMove(StepStatus.Pending,
                                    if tx.op.passed then StepStatus.Succeeded else StepStatus.Failed)])
  }

  /** The writes staged so far, with the Attempts minted so far. */
  ghost predicate RowsPlanned(db: Tables, tx: Tx, named: seq<AttemptKey>) {
    && (tx.phase.Begun? ==> Bare(tx))
    && (tx.phase.Begun? || !(tx.op.Claim? || tx.op.OpenGate? || tx.op.ResolveGate?) ==> named == [])
    && (!tx.phase.Begun? ==>
          match tx.op
          case StepTransition(_, _, _, _, _, _, _) => TransitionPlan(db, tx)
          case Promote(_, _) => PromotePlan(tx)
          case Claim(_) => ClaimPlan(db, tx, named)
          case RecordAttempt(_, _) => RecordPlan(db, tx)
          case StampAttempt(_, _) => StampPlan(db, tx)
          case CloseAttempt(_, _, _) => ClosePlan(db, tx)
          case RunTransition(_, _, _, _, _, _) => RunPlan(db, tx)
          case OpenGate(_) => OpenPlan(db, tx, named)
          case ResolveGate(_, _, _, _) => ResolvePlan(db, tx, named)
          case AppendEvent(_) => Bare(tx))
  }

  /** What the call journals from where it stands, the entries of its mints first. */
  function Script(op: Op, phase: Phase, named: seq<AttemptKey>): seq<Event> {
    if phase.Begun? then []
    else
      match op
      case StepTransition(_, _, _, _, _, events, _) => events
      case Promote(_, events) => events
      case CloseAttempt(_, _, events) => events
      case RunTransition(_, _, _, _, events, _) => events
      case AppendEvent(event) => [event]
      case ResolveGate(k, passed, expired, _) =>
        Starts(named) + if phase.Resolved? then GateEvents(k, phase.n, passed, expired) else []
      case _ => Starts(named)
  }

  /** The first entries of the script are staged, in order and under ascending numbers; the rest is to come. */
  ghost predicate Drawn(events: Journal, todo: seq<Event>, script: seq<Event>, numbers: seq<nat>) {
    && |numbers| + |todo| == |script| && todo == script[|numbers|..]
    && (forall i, j :: 0 <= i < j < |numbers| ==> numbers[i] < numbers[j])
    && (forall i :: 0 <= i < |numbers| ==> numbers[i] in events && events[numbers[i]] == script[i])
    && (forall q :: q in events ==> q in numbers)
  }

  function Mail(op: Op, phase: Phase, named: seq<AttemptKey>): set<Intent> {
    if phase.Begun? then {}
    else if op.StepTransition? || op.RunTransition? then set x | x in op.intents
    else if op.Claim? then set a | a in named :: Launch(a)
    else {}
  }

  /** Each message is to come, staged or in the outbox, and nothing else is to come or staged. */
  ghost predicate Posted(outbox: set<Intent>, staged: set<Intent>, todo: seq<Intent>, mail: set<Intent>) {
    && (forall x :: x in mail ==> x in outbox || x in staged || x in todo)
    && staged <= mail && forall x :: x in todo ==> x in mail
  }

  ghost predicate PlannedAs(db: Tables, tx: Tx, named: seq<AttemptKey>, numbers: seq<nat>) {
    && RowsPlanned(db, tx, named)
    && Drawn(tx.events, tx.todoEvents, Script(tx.op, tx.phase, named), numbers)
    && Posted(db.intents, tx.intents, tx.todoIntents, Mail(tx.op, tx.phase, named))
  }

  ghost predicate Planned(db: Tables, tx: Tx) {
    exists named, numbers :: PlannedAs(db, tx, named, numbers)
  }

  // ------------------------------------------------------------------------- the statements

  lemma FreshIsPlanned(db: Tables, op: Op)
    ensures PlannedAs(db, Fresh(op), [], [])
  {
  }

  /** The statements that start a call's writes. */
  predicate Opening(stmt: Statement) {
    stmt.CasStep? || stmt.UpdateAttempt? || stmt.ClaimRows? || stmt.ShareStep? || stmt.CasRun? || stmt.LockPendingStep?
  }

  lemma CasPlanned(db: Tables, tx: Tx, stmt: Statement, tx': Tx)
    requires (stmt.CasStep? || stmt.CasRun?) && Effect(db, 0, tx, stmt, tx') && tx == Fresh(tx.op)
    ensures PlannedAs(db, tx', [], [])
  {
  }

  lemma UpdatePlanned(db: Tables, tx: Tx, tx': Tx)
    requires UpdateAttemptEffect(db, tx, tx') && tx == Fresh(tx.op)
    ensures PlannedAs(db, tx', [], [])
  {
  }

  lemma LockPlanned(db: Tables, tx: Tx, stmt: Statement, tx': Tx)
    requires (stmt.ShareStep? || stmt.LockPendingStep?) && Effect(db, 0, tx, stmt, tx') && tx == Fresh(tx.op)
    ensures PlannedAs(db, tx', [], [])
  {
  }

  lemma PickPlanned(db: Tables, tx: Tx, picked: seq<StepKey>, tx': Tx)
    requires ClaimRowsEffect(db, tx, picked, tx') && tx == Fresh(tx.op)
    ensures PlannedAs(db, tx', [], [])
  {
    PickRows(db, tx, picked, tx');
  }

  lemma PickRows(db: Tables, tx: Tx, picked: seq<StepKey>, tx': Tx)
    requires ClaimRowsEffect(db, tx, picked, tx') && tx == Fresh(tx.op)
    ensures tx'.op.Claim? && ClaimPlan(db, tx', [])
  {
    var none: StepMoves := map[];
    var moves := map k | k in picked :: StepMove(StepStatus.Ready, StepStatus.Running);
    assert none + moves == moves;
    assert StepsOf([]) + picked == picked;
    assert Distinct(picked);
  }

  lemma OpeningPlanned(db: Tables, nextSeq: nat, tx: Tx, stmt: Statement, tx': Tx)
    requires Opening(stmt) && Effect(db, nextSeq, tx, stmt, tx') && tx == Fresh(tx.op)
    ensures Planned(db, tx')
  {
    match stmt
    case UpdateAttempt => UpdatePlanned(db, tx, tx');
    case ClaimRows(picked) => PickPlanned(db, tx, picked, tx');
    case CasStep => CasPlanned(db, tx, stmt, tx');
    case CasRun => CasPlanned(db, tx, stmt, tx');
    case ShareStep => LockPlanned(db, tx, stmt, tx');
    case LockPendingStep => LockPlanned(db, tx, stmt, tx');
    assert PlannedAs(db, tx', [], []);
  }

  lemma FrontierPlanned(db: Tables, tx: Tx, tx': Tx, named: seq<AttemptKey>, numbers: seq<nat>)
    requires PlannedAs(db, tx, named, numbers) && CheckFrontierEffect(db, tx, tx')
    ensures PlannedAs(db, tx', named, numbers)
  {
  }

  lemma StampPlanned(db: Tables, tx: Tx, tx': Tx, named: seq<AttemptKey>, numbers: seq<nat>)
    requires PlannedAs(db, tx, named, numbers) && StampEffect(db, tx, tx')
    ensures PlannedAs(db, tx', named, numbers)
  {
  }

  lemma RecordPlanned(db: Tables, tx: Tx, tx': Tx, named: seq<AttemptKey>, numbers: seq<nat>)
    requires PlannedAs(db, tx, named, numbers) && InsertAttemptEffect(db, tx, tx') && tx.attempts == map[]
    ensures PlannedAs(db, tx', named, numbers)
  {
  }

  /** More to write, at the end of the script. */
  lemma DrawnMore(events: Journal, todo: seq<Event>, script: seq<Event>, more: seq<Event>, numbers: seq<nat>)
    requires Drawn(events, todo, script, numbers)
    ensures Drawn(events, todo + more, script + more, numbers)
  {
    assert (script + more)[|numbers|..] == todo + more;
  }

  lemma StartsMore(named: seq<AttemptKey>, a: AttemptKey)
    ensures Starts(named + [a]) == Starts(named) + [Started(a)]
  {
  }

  lemma PicksShift(named: seq<AttemptKey>, a: AttemptKey, rows: seq<StepKey>)
    requires rows != [] && a.step == rows[0]
    ensures StepsOf(named + [a]) + rows[1..] == StepsOf(named) + rows
  {
  }

  lemma LaunchPlanned(db: Tables, tx: Tx, tx': Tx, named: seq<AttemptKey>, numbers: seq<nat>)
    requires PlannedAs(db, tx, named, numbers) && MintLaunchEffect(db, tx, tx')
    ensures Planned(db, tx')
  {
    var k := tx.phase.rows[0];
    var a := AttemptKey(k, |AttemptsOf(db.attempts, k)| + 1);
    StartsMore(named, a);
    PicksShift(named, a, tx.phase.rows);
    DrawnMore(tx.events, [], Script(tx.op, tx.phase, named), [Started(a)], numbers);
    LaunchRows(db, tx, tx', named, a);
    assert PlannedAs(db, tx', named + [a], numbers);
  }

  lemma LaunchRows(db: Tables, tx: Tx, tx': Tx, named: seq<AttemptKey>, a: AttemptKey)
    requires tx.op.Claim? && tx.phase.Minting? && ClaimPlan(db, tx, named) && MintLaunchEffect(db, tx, tx')
    requires a == AttemptKey(tx.phase.rows[0], |AttemptsOf(db.attempts, tx.phase.rows[0])| + 1)
    ensures ClaimPlan(db, tx', named + [a])
  {
    PicksShift(named, a, tx.phase.rows);
    assert (map b | b in named + [a] :: Outcome.Running)
        == (map b | b in named :: Outcome.Running)[a := Outcome.Running];
  }

  lemma OpenPlanned(db: Tables, tx: Tx, latest: Option<nat>, tx': Tx, named: seq<AttemptKey>, numbers: seq<nat>)
    requires PlannedAs(db, tx, named, numbers) && OpenWaitEffect(db, tx, latest, tx')
    ensures Planned(db, tx')
  {
    var a := AttemptKey(tx.op.k, NextNumber(latest));
    assert OpenPlan(db, tx, named);
    if latest.Some? && db.attempts[AttemptKey(tx.op.k, latest.value)].Running? {
      assert PlannedAs(db, tx', [], numbers);
    } else {
      StartsMore([], a);
      assert Starts([]) == [] && numbers == [];
      assert PlannedAs(db, tx', [a], []);
    }
  }

  lemma ClosePlanned(db: Tables, tx: Tx, n: nat, tx': Tx, named: seq<AttemptKey>, numbers: seq<nat>)
    requires PlannedAs(db, tx, named, numbers) && CloseWaitEffect(db, tx, n, tx')
    ensures PlannedAs(db, tx', named, numbers)
  {
  }

  lemma MintClosedPlanned(db: Tables, tx: Tx, latest: Option<nat>, tx': Tx, named: seq<AttemptKey>, numbers: seq<nat>)
    requires PlannedAs(db, tx, named, numbers) && MintClosedEffect(db, tx, latest, tx')
    ensures Planned(db, tx')
  {
    var a := AttemptKey(tx.op.k, NextNumber(latest));
    StartsMore([], a);
    assert Starts([]) == [] && numbers == [];
    assert PlannedAs(db, tx', [a], []);
  }

  lemma MovePlanned(db: Tables, tx: Tx, tx': Tx, named: seq<AttemptKey>, numbers: seq<nat>)
    requires PlannedAs(db, tx, named, numbers) && MoveGateEffect(db, tx, tx')
    ensures PlannedAs(db, tx', named, numbers)
  {
    MoveRows(db, tx, tx', named);
    DrawnMore(tx.events, tx.todoEvents, Script(tx.op, tx.phase, named),
              GateEvents(tx.op.k, tx.phase.n, tx.op.passed, tx.op.expired), numbers);
  }

  lemma MoveRows(db: Tables, tx: Tx, tx': Tx, named: seq<AttemptKey>)
    requires RowsPlanned(db, tx, named) && MoveGateEffect(db, tx, tx')
    ensures RowsPlanned(db, tx', named)
  {
    assert ResolvePlan(db, tx', named);
  }

  lemma DrawnNext(events: Journal, todo: seq<Event>, script: seq<Event>, numbers: seq<nat>, q: nat)
    requires Drawn(events, todo, script, numbers) && todo != [] && forall p :: p in events ==> p < q
    ensures Drawn(events[q := todo[0]], todo[1..], script, numbers + [q])
  {
    assert forall i :: 0 <= i < |numbers| ==> numbers[i] in events;
  }

  lemma EntryPlanned(db: Tables, nextSeq: nat, tx: Tx, tx': Tx, named: seq<AttemptKey>, numbers: seq<nat>)
    requires PlannedAs(db, tx, named, numbers) && InsertEventEffect(nextSeq, tx, tx')
    requires forall p :: p in tx.events ==> p < nextSeq
    ensures PlannedAs(db, tx', named, numbers + [nextSeq])
  {
    DrawnNext(tx.events, tx.todoEvents, Script(tx.op, tx.phase, named), numbers, nextSeq);
    EntryRows(db, tx, tx', named);
  }

  lemma EntryRows(db: Tables, tx: Tx, tx': Tx, named: seq<AttemptKey>)
    requires RowsPlanned(db, tx, named) && tx' == tx.(events := tx'.events, todoEvents := tx'.todoEvents)
    ensures RowsPlanned(db, tx', named)
  {
  }

  lemma MessagePlanned(db: Tables, tx: Tx, tx': Tx, named: seq<AttemptKey>, numbers: seq<nat>)
    requires PlannedAs(db, tx, named, numbers) && InsertIntentEffect(db, tx, tx')
    ensures PlannedAs(db, tx', named, numbers)
  {
    assert tx.todoIntents == [tx.todoIntents[0]] + tx.todoIntents[1..];
  }

  lemma LaterPlanned(db: Tables, nextSeq: nat, tx: Tx, stmt: Statement, tx': Tx)
    requires !Opening(stmt) && Effect(db, nextSeq, tx, stmt, tx') && Planned(db, tx) && ShapeOk(db, tx)
    requires forall p :: p in tx.events ==> p < nextSeq
    ensures Planned(db, tx')
  {
    var named, numbers :| PlannedAs(db, tx, named, numbers);
    match stmt
    case CheckFrontier =>
      FrontierPlanned(db, tx, tx', named, numbers);
      assert PlannedAs(db, tx', named, numbers);
    case StampTransition =>
      StampPlanned(db, tx, tx', named, numbers);
      assert PlannedAs(db, tx', named, numbers);
    case MintLaunch => LaunchPlanned(db, tx, tx', named, numbers);
    case InsertAttempt =>
      RecordPlanned(db, tx, tx', named, numbers);
      assert PlannedAs(db, tx', named, numbers);
    case OpenWait(latest) => OpenPlanned(db, tx, latest, tx', named, numbers);
    case CloseWait(n) =>
      ClosePlanned(db, tx, n, tx', named, numbers);
      assert PlannedAs(db, tx', named, numbers);
    case MintClosed(latest) => MintClosedPlanned(db, tx, latest, tx', named, numbers);
    case MoveGate =>
      MovePlanned(db, tx, tx', named, numbers);
      assert PlannedAs(db, tx', named, numbers);
    case InsertEvent =>
      EntryPlanned(db, nextSeq, tx, tx', named, numbers);
      assert PlannedAs(db, tx', named, numbers + [nextSeq]);
    case InsertIntent =>
      MessagePlanned(db, tx, tx', named, numbers);
      assert PlannedAs(db, tx', named, numbers);
  }

  lemma StatementPlanned(db: Tables, nextSeq: nat, tx: Tx, stmt: Statement, tx': Tx)
    requires ShapeOk(db, tx) && Planned(db, tx) && Effect(db, nextSeq, tx, stmt, tx')
    requires forall p :: p in tx.events ==> p < nextSeq
    ensures Planned(db, tx')
  {
    if Opening(stmt) {
      OpeningPlanned(db, nextSeq, tx, stmt, tx');
    } else {
      LaterPlanned(db, nextSeq, tx, stmt, tx');
    }
  }

  // ------------------------------------------------------------- another transaction's commit

  /** What a commit leaves alone for whoever holds the step row of `k`. */
  lemma HeldStep(db: Tables, tx: Tx, ux: Tx, k: StepKey)
    requires LocksOk(db, tx) && Apart(tx, ux) && Excl(ux.locks, StepRow(k))
    ensures var db' := Applied(db, tx);
            && (k in db.steps ==> k in db'.steps && db'.steps[k] == db.steps[k])
            && (forall a: AttemptKey :: a.step == k ==> (a in db'.attempts <==> a in db.attempts))
            && AttemptsOf(db'.attempts, k) == AttemptsOf(db.attempts, k)
  {
    HeldRowsKept(db, tx, ux);
    NoForeignMint(db, tx, ux, k);
  }

  lemma OthersTransition(db: Tables, tx: Tx, ux: Tx)
    requires LocksOk(db, tx) && LocksOk(db, ux) && Apart(tx, ux)
    requires ux.op.StepTransition? && TransitionPlan(db, ux)
    ensures TransitionPlan(Applied(db, tx), ux)
  {
    if ux.op.stamp.Some? {
      var a := AttemptKey(ux.op.k, ux.op.stamp.value.attempt);
      HeldRowsKept(db, tx, ux);
      HeldStep(db, tx, ux, ux.op.k);
      assert a in tx.attempts ==> a in db.attempts && !ByIntent(db.attempts[a]);
      assert a in ux.attempts ==> a !in tx.attempts;
    }
  }

  lemma OthersPicks(db: Tables, tx: Tx, ux: Tx, named: seq<AttemptKey>)
    requires LocksOk(db, tx) && LocksOk(db, ux) && Apart(tx, ux) && ux.op.Claim? && ClaimPlan(db, ux, named)
    ensures ClaimPlan(Applied(db, tx), ux, named)
  {
    forall a | a in named ensures IsNextOf(Applied(db, tx).attempts, a) {
      assert a.step in StepsOf(named) + ux.phase.rows by {
        var i :| 0 <= i < |named| && named[i] == a;
        assert (StepsOf(named) + ux.phase.rows)[i] == a.step;
      }
      assert a.step in ux.steps;
      HeldStep(db, tx, ux, a.step);
    }
  }

  lemma OthersRecord(db: Tables, tx: Tx, ux: Tx)
    requires LocksOk(db, tx) && LocksOk(db, ux) && Apart(tx, ux) && ux.op.RecordAttempt? && RecordPlan(db, ux)
    ensures RecordPlan(Applied(db, tx), ux)
  {
    HeldRowsKept(db, tx, ux);
  }

  lemma OthersClose(db: Tables, tx: Tx, ux: Tx)
    requires LocksOk(db, tx) && LocksOk(db, ux) && Apart(tx, ux) && ux.op.CloseAttempt? && ClosePlan(db, ux)
    ensures ClosePlan(Applied(db, tx), ux)
  {
    HeldRowsKept(db, tx, ux);
  }

  lemma OthersRun(db: Tables, tx: Tx, ux: Tx)
    requires LocksOk(db, tx) && LocksOk(db, ux) && Apart(tx, ux) && ux.op.RunTransition? && RunPlan(db, ux)
    ensures RunPlan(Applied(db, tx), ux)
  {
    HeldRowsKept(db, tx, ux);
    assert ux.op.r in ux.runs;
  }

  lemma OthersNextWait(gates: set<StepKey>, db: Tables, tx: Tx, ux: Tx, k: StepKey, n: nat)
    requires LocksOk(db, tx) && Apart(tx, ux) && Excl(ux.locks, StepRow(k)) && k in gates
    requires GateAttempts(gates, db.attempts, tx.locks, tx.attempts) && NextWait(db.attempts, k, n)
    ensures NextWait(Applied(db, tx).attempts, k, n)
  {
    HeldStep(db, tx, ux, k);
    GateUpdatesClose(gates, db, tx);
  }

  lemma OthersOpen(gates: set<StepKey>, db: Tables, tx: Tx, ux: Tx, named: seq<AttemptKey>)
    requires LocksOk(db, tx) && LocksOk(db, ux) && Apart(tx, ux) && ux.op.OpenGate? && OpenPlan(db, ux, named)
    requires GateAttempts(gates, db.attempts, tx.locks, tx.attempts) && ux.op.k in gates
    ensures OpenPlan(Applied(db, tx), ux, named)
  {
    HeldStep(db, tx, ux, ux.op.k);
    if named != [] {
      OthersNextWait(gates, db, tx, ux, ux.op.k, named[0].n);
    }
  }

  lemma OthersVerdict(gates: set<StepKey>, db: Tables, tx: Tx, ux: Tx, named: seq<AttemptKey>)
    requires LocksOk(db, tx) && LocksOk(db, ux) && Apart(tx, ux) && ux.op.ResolveGate? && ResolvePlan(db, ux, named)
    requires GateAttempts(gates, db.attempts, tx.locks, tx.attempts) && ux.op.k in gates
    requires Excl(ux.locks, StepRow(ux.op.k))
    ensures ResolvePlan(Applied(db, tx), ux, named)
  {
    if !ux.phase.Locked? {
      HeldRowsKept(db, tx, ux);
      HeldStep(db, tx, ux, ux.op.k);
      if named == [] {
        assert AttemptKey(ux.op.k, ux.phase.n) in ux.attempts;
      } else {
        OthersNextWait(gates, db, tx, ux, ux.op.k, ux.phase.n);
      }
    }
  }

  lemma OthersRows(gates: set<StepKey>, db: Tables, tx: Tx, ux: Tx, named: seq<AttemptKey>)
    requires LocksOk(db, tx) && LocksOk(db, ux) && Apart(tx, ux) && WellFormed(ux.op, gates)
    requires GateAttempts(gates, db.attempts, tx.locks, tx.attempts) && ResolveOk(db, ux)
    requires RowsPlanned(db, ux, named)
    ensures RowsPlanned(Applied(db, tx), ux, named)
  {
    if !ux.phase.Begun? {
      match ux.op
      case StepTransition(_, _, _, _, _, _, _) => OthersTransition(db, tx, ux);
      case Claim(_) => OthersPicks(db, tx, ux, named);
      case RecordAttempt(_, _) => OthersRecord(db, tx, ux);
      case CloseAttempt(_, _, _) => OthersClose(db, tx, ux);
      case RunTransition(_, _, _, _, _, _) => OthersRun(db, tx, ux);
      case OpenGate(_) => OthersOpen(gates, db, tx, ux, named);
      case ResolveGate(_, _, _, _) => OthersVerdict(gates, db, tx, ux, named);
      case _ =>
    }
  }

  lemma OthersPlanned(gates: set<StepKey>, db: Tables, nextSeq: nat, tx: Tx, ux: Tx)
    requires TxOk(gates, db, nextSeq, tx) && TxOk(gates, db, nextSeq, ux) && Apart(tx, ux) && Planned(db, ux)
    ensures Planned(Applied(db, tx), ux)
  {
    var named, numbers :| PlannedAs(db, ux, named, numbers);
    OthersRows(gates, db, tx, ux, named);
    assert PlannedAs(Applied(db, tx), ux, named, numbers);
  }

  lemma CreateRows(db: Tables, db': Tables, tx: Tx, named: seq<AttemptKey>)
    requires RowsPlanned(db, tx, named) && db'.attempts == db.attempts
    requires forall k :: k in db.steps ==> k in db'.steps && db'.steps[k] == db.steps[k]
    requires forall r :: r in db.runs ==> r in db'.runs && db'.runs[r] == db.runs[r]
    ensures RowsPlanned(db', tx, named)
  {
    if !tx.phase.Begun? {
      match tx.op
      case Claim(_) => assert ClaimPlan(db', tx, named);
      case OpenGate(_) => assert OpenPlan(db', tx, named);
      case RunTransition(_, _, _, _, _, _) => assert RunPlan(db', tx);
      case _ =>
    }
  }

  /** Creating a row changes nothing an open transaction has planned. */
  lemma CreatePlanned(db: Tables, db': Tables, tx: Tx)
    requires Planned(db, tx)
    requires db'.attempts == db.attempts && db'.events == db.events && db'.intents == db.intents
    requires forall k :: k in db.steps ==> k in db'.steps && db'.steps[k] == db.steps[k]
    requires forall r :: r in db.runs ==> r in db'.runs && db'.runs[r] == db.runs[r]
    ensures Planned(db', tx)
  {
    var named, numbers :| PlannedAs(db, tx, named, numbers);
    CreateRows(db, db', tx, named);
    assert PlannedAs(db', tx, named, numbers);
  }
}
