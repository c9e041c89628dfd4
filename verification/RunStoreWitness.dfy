/** The theorems are about something: a run in which a step is armed, claimed and launched. */
module RunStoreWitness {
  import opened Options
  import opened RunStore
  import opened RunStoreInvariant

  /** A run, with the steps it took. */
  datatype History = History(states: seq<State>, acts: seq<Action>)

  /** The run reaches state `s`. */
  ghost predicate Reaches(h: History, s: State) {
    IsRun(h.states, h.acts) && h.states[|h.states| - 1] == s
  }

  lemma Extends(h: History, s: State, action: Action, s': State) returns (h': History)
    requires Reaches(h, s) && Step(s, action, s')
    ensures Reaches(h', s')
  {
    h' := History(h.states + [s'], h.acts + [action]);
  }

  function WithTx(s: State, tx: Tx): State {
    s.(txs := map[0 := tx])
  }

  function AfterRun(s: State, stmt: Statement, tx': Tx): State {
    WithTx(s, tx').(nextSeq := s.nextSeq + if stmt.InsertEvent? then 1 else 0)
  }

  lemma Runs(h: History, s: State, tx: Tx, stmt: Statement, tx': Tx) returns (h': History)
    requires Reaches(h, WithTx(s, tx)) && Effect(s.db, s.nextSeq, tx, stmt, tx')
    ensures Reaches(h', AfterRun(s, stmt, tx'))
  {
    assert map[0 := tx][0 := tx'] == map[0 := tx'];
    h' := Extends(h, WithTx(s, tx), Run(0, stmt, tx'), AfterRun(s, stmt, tx'));
  }

  lemma Begins(h: History, s: State, op: Op) returns (h': History)
    requires Reaches(h, s) && s.txs == map[] && WellFormed(op, s.gates)
    ensures Reaches(h', WithTx(s, Fresh(op)))
  {
    h' := Extends(h, s, Begin(0, op), WithTx(s, Fresh(op)));
  }

  function AfterCommit(s: State, tx: Tx): State {
    s.(db := Applied(s.db, tx), txs := map[], hist := s.hist + [RecordOf(s.db, tx)])
  }

  lemma Commits(h: History, s: State, tx: Tx) returns (h': History)
    requires Reaches(h, WithTx(s, tx)) && Finished(tx)
    ensures Reaches(h', AfterCommit(s, tx))
  {
    assert map[0 := tx] - {0} == map[];
    h' := Extends(h, WithTx(s, tx), Commit(0), AfterCommit(s, tx));
  }

  function Created(k: StepKey): State {
    State({}, Tables(map[k := StepStatus.Pending], map[], map[], map[], {}), 0, map[], [])
  }

  lemma Creates(k: StepKey) returns (h: History)
    ensures Reaches(h, Created(k))
  {
    var s := State({}, Tables(map[], map[], map[], map[], {}), 0, map[], []);
    h := Extends(History([s], []), s, CreateStep(k), Created(k));
  }

  /** The step row taken by its compare-and-set, with the call's entries still to come. */
  function Moved(op: Op, k: StepKey, m: StepMove, events: seq<Event>, phase: Phase): Tx {
    Fresh(op).(locks := map[StepRow(k) := Exclusive], steps := map[k := m], todoEvents := events, phase := phase)
  }

  // ------------------------------------------------------------------ armed and claimed

  function Promoted(k: StepKey): Tx {
    Moved(Promote(k, []), k, StepMove(StepStatus.Pending, StepStatus.Ready), [], Tail)
  }

  function Armed(k: StepKey): State {
    AfterCommit(Created(k), Promoted(k))
  }

  lemma Arms(k: StepKey) returns (h: History)
    ensures Reaches(h, Armed(k)) && Armed(k).db == Tables(map[k := StepStatus.Ready], map[], map[], map[], {})
  {
    h := Creates(k);
    h := Begins(h, Created(k), Promote(k, []));
    assert CasStepEffect(Created(k).db, Fresh(Promote(k, [])), Promoted(k));
    h := Runs(h, Created(k), Fresh(Promote(k, [])), CasStep, Promoted(k));
    h := Commits(h, Created(k), Promoted(k));
    ArmedTables(k);
  }

  lemma ArmedTables(k: StepKey)
    ensures Armed(k).db == Tables(map[k := StepStatus.Ready], map[], map[], map[], {})
  {
    assert Armed(k).db.steps == map[k := StepStatus.Ready];
  }

  function Picked(k: StepKey): Tx {
    Moved(Claim(1), k, StepMove(StepStatus.Ready, StepStatus.Running), [], Minting([k]))
  }

  function Minted(k: StepKey): Tx {
    var a := AttemptKey(k, 1);
    Picked(k).(locks := Picked(k).locks[AttemptRow(a) := Exclusive], attempts := map[a := Outcome.Running],
               todoEvents := [Event(k.run, AttemptStarted(k.step, 1))], todoIntents := [Launch(a)],
                   phase := Minting([]))
  }

  function Journalled(k: StepKey): Tx {
    Minted(k).(events := map[0 := Event(k.run, AttemptStarted(k.step, 1))], todoEvents := [])
  }

  function Enqueued(k: StepKey): Tx {
    var launch := Launch(AttemptKey(k, 1));
    Journalled(k).(locks := Journalled(k).locks[IntentRow(launch) := Exclusive], intents := {launch}, todoIntents := [])
  }

  lemma Picks(db: Tables, k: StepKey)
    requires db == Tables(map[k := StepStatus.Ready], map[], map[], map[], {})
    ensures ClaimRowsEffect(db, Fresh(Claim(1)), [k], Picked(k))
  {
    assert StepRows([k]) == {StepRow(k)};
    assert map[] + (map row | row in StepRows([k]) :: Exclusive) == Picked(k).locks;
    assert map[] + (map j | j in [k] :: StepMove(StepStatus.Ready, StepStatus.Running)) == Picked(k).steps;
  }

  lemma Mints(db: Tables, k: StepKey)
    requires db.attempts == map[]
    ensures MintLaunchEffect(db, Picked(k), Minted(k))
  {
    assert AttemptsOf(db.attempts, k) == {};
    assert [k][1..] == [];
  }

  lemma Inserts(db: Tables, k: StepKey)
    requires db.intents == {}
    ensures InsertEventEffect(0, Minted(k), Journalled(k)) && InsertIntentEffect(db, Journalled(k), Enqueued(k))
  {
  }

  lemma Claims(k: StepKey) returns (h: History)
    ensures Reaches(h, WithTx(Armed(k), Minted(k)))
  {
    var s := Armed(k);
    h := Arms(k);
    h := Begins(h, s, Claim(1));
    Picks(s.db, k);
    h := Runs(h, s, Fresh(Claim(1)), ClaimRows([k]), Picked(k));
    Mints(s.db, k);
    h := Runs(h, s, Picked(k), MintLaunch, Minted(k));
  }

  lemma Launches(k: StepKey) returns (h: History)
    ensures Reaches(h, WithTx(Armed(k).(nextSeq := 1), Enqueued(k)))
  {
    var s := Armed(k);
    h := Claims(k);
    Inserts(s.db, k);
    h := Runs(h, s, Minted(k), InsertEvent, Journalled(k));
    h := Runs(h, s.(nextSeq := 1), Journalled(k), InsertIntent, Enqueued(k));
  }

  /** A claimed step with its Attempt and its launch intent is reachable, for any step. */
  lemma ClaimIsReachable(k: StepKey) returns (h: History, s: State)
    ensures Reaches(h, s)
    ensures s.db.steps == map[k := StepStatus.Running] && s.db.attempts == map[AttemptKey(k, 1) := Outcome.Running]
    ensures s.db.intents == {Launch(AttemptKey(k, 1))} && |s.hist| == 2 && s.hist[1].op.Claim? && k in s.hist[1].steps
  {
    var before := Armed(k).(nextSeq := 1);
    ArmedTables(k);
    h := Launches(k);
    h := Commits(h, before, Enqueued(k));
    s := AfterCommit(before, Enqueued(k));
    ClaimedTables(k, before.db);
  }

  lemma ClaimedTables(k: StepKey, db: Tables)
    requires db == Tables(map[k := StepStatus.Ready], map[], map[], map[], {})
    ensures var db' := Applied(db, Enqueued(k));
            && db'.steps == map[k := StepStatus.Running] && db'.attempts == map[AttemptKey(k, 1) := Outcome.Running]
            && db'.intents == {Launch(AttemptKey(k, 1))}
  {
  }

  // ------------------------------------------------------------------ skipped as unchanged

  /** What the scheduler journals for a step whose inputs are unchanged: two entries that disagree. */
  function SkipEvents(k: StepKey): seq<Event> {
    [Event(k.run, StepSkipped(k.step)), Event(k.run, StepTransitioned(k.step, StepStatus.Succeeded))]
  }

  function SkipOp(k: StepKey): Op {
    StepTransition(k, StepStatus.Pending, StepStatus.Succeeded, Any, None, SkipEvents(k), [])
  }

  function Skipping(k: StepKey, phase: Phase, drawn: nat): Tx
    requires drawn <= 2
  {
    Moved(SkipOp(k), k, StepMove(StepStatus.Pending, StepStatus.Succeeded), SkipEvents(k)[drawn..], phase)
      .(events := map q: nat | q < drawn :: SkipEvents(k)[q])
  }

  lemma SkipIsWellFormed(k: StepKey)
    ensures WellFormed(SkipOp(k), {})
  {
    assert MovesStep(SkipEvents(k)[1], k);
    assert forall i :: LastMove(SkipEvents(k), k, i) ==> i == 1;
  }

  lemma SkipStatements(k: StepKey)
    ensures CasStepEffect(Created(k).db, Fresh(SkipOp(k)), Skipping(k, Phase.Moved, 0))
    ensures CheckFrontierEffect(Created(k).db, Skipping(k, Phase.Moved, 0), Skipping(k, Tail, 0))
    ensures InsertEventEffect(0, Skipping(k, Tail, 0), Skipping(k, Tail, 1))
    ensures InsertEventEffect(1, Skipping(k, Tail, 1), Skipping(k, Tail, 2))
  {
    assert SkipEvents(k)[0..] == SkipEvents(k);
    assert SkipEvents(k)[0..][1..] == SkipEvents(k)[1..] && SkipEvents(k)[1..][1..] == SkipEvents(k)[2..] == [];
  }

  lemma SkipMoves(k: StepKey) returns (h: History)
    ensures Reaches(h, WithTx(Created(k), Skipping(k, Tail, 0)))
  {
    h := Creates(k);
    SkipIsWellFormed(k);
    SkipStatements(k);
    h := Begins(h, Created(k), SkipOp(k));
    h := Runs(h, Created(k), Fresh(SkipOp(k)), CasStep, Skipping(k, Phase.Moved, 0));
    h := Runs(h, Created(k), Skipping(k, Phase.Moved, 0), CheckFrontier, Skipping(k, Tail, 0));
  }

  lemma SkipJournals(k: StepKey) returns (h: History)
    ensures Reaches(h, WithTx(Created(k).(nextSeq := 2), Skipping(k, Tail, 2)))
  {
    h := SkipMoves(k);
    SkipStatements(k);
    h := Runs(h, Created(k), Skipping(k, Tail, 0), InsertEvent, Skipping(k, Tail, 1));
    h := Runs(h, Created(k).(nextSeq := 1), Skipping(k, Tail, 1), InsertEvent, Skipping(k, Tail, 2));
  }

  /** The commit is reachable: the journal says skipped, then succeeded, and the row says succeeded. */
  lemma SkipIsReachable(k: StepKey) returns (h: History, s: State)
    ensures Reaches(h, s)
    ensures s.db.steps == map[k := StepStatus.Succeeded]
    ensures s.db.events == map[0 := SkipEvents(k)[0], 1 := SkipEvents(k)[1]]
  {
    var c := Created(k);
    h := SkipJournals(k);
    h := Commits(h, c.(nextSeq := 2), Skipping(k, Tail, 2));
    s := AfterCommit(c.(nextSeq := 2), Skipping(k, Tail, 2));
    SkippedTables(k);
  }

  lemma SkippedTables(k: StepKey)
    ensures var db' := Applied(Created(k).db, Skipping(k, Tail, 2));
            && db'.steps == map[k := StepStatus.Succeeded]
            && db'.events == map[0 := SkipEvents(k)[0], 1 := SkipEvents(k)[1]]
  {
  }

  // ------------------------------------------------------------------ a gate passed

  function Gated(k: StepKey): State {
    Created(k).(gates := {k})
  }

  lemma CreatesGate(k: StepKey) returns (h: History)
    ensures Reaches(h, Gated(k))
  {
    var s := State({k}, Tables(map[], map[], map[], map[], {}), 0, map[], []);
    h := Extends(History([s], []), s, CreateStep(k), Gated(k));
  }

  function PassOp(k: StepKey): Op {
    ResolveGate(k, true, false, None)
  }

  function Wait(k: StepKey): AttemptKey {
    AttemptKey(k, 1)
  }

  /** What a passed gate journals: the Attempt's start and end, its release, the move and the resolution. */
  function PassEvents(k: StepKey): seq<Event> {
    [Event(k.run, AttemptStarted(k.step, 1)), Event(k.run, AttemptFinished(k.step, 1)),
     Event(k.run, GateReleased(k.step)),
     Event(k.run, StepTransitioned(k.step, StepStatus.Succeeded)), Event(k.run, GateResolved(k.step, 1, true))]
  }

  function Waiting(k: StepKey): Tx {
    Fresh(PassOp(k)).(locks := map[StepRow(k) := Exclusive], phase := Locked)
  }

  function Judged(k: StepKey): Tx {
    Waiting(k).(locks := map[StepRow(k) := Exclusive, AttemptRow(Wait(k)) := Exclusive],
                attempts := map[Wait(k) := Outcome.Succeeded], todoEvents := PassEvents(k)[..1], phase := Verdict(1))
  }

  function Passing(k: StepKey, drawn: nat): Tx
    requires drawn <= 5
  {
    Judged(k).(steps := map[k := StepMove(StepStatus.Pending, StepStatus.Succeeded)], phase := Resolved(1),
               events := map q: nat | q < drawn :: PassEvents(k)[q], todoEvents := PassEvents(k)[drawn..])
  }

  lemma GateJudged(k: StepKey) returns (h: History)
    ensures Reaches(h, WithTx(Gated(k), Judged(k)))
  {
    h := CreatesGate(k);
    h := Begins(h, Gated(k), PassOp(k));
    h := Runs(h, Gated(k), Fresh(PassOp(k)), LockPendingStep, Waiting(k));
    h := Runs(h, Gated(k), Waiting(k), MintClosed(None), Judged(k));
  }

  lemma PassMoves(k: StepKey)
    ensures MoveGateEffect(Gated(k).db, Judged(k), Passing(k, 0))
  {
    assert PassEvents(k)[..1] + GateEvents(k, 1, true, false) == PassEvents(k)[0..];
  }

  lemma PassDraws(k: StepKey, drawn: nat)
    requires drawn < 5
    ensures InsertEventEffect(drawn, Passing(k, drawn), Passing(k, drawn + 1))
  {
    assert PassEvents(k)[drawn..][1..] == PassEvents(k)[drawn + 1..];
  }

  lemma {:induction false} GateJournals(k: StepKey, drawn: nat) returns (h: History)
    requires drawn <= 5
    ensures Reaches(h, WithTx(Gated(k).(nextSeq := drawn), Passing(k, drawn)))
  {
    if drawn == 0 {
      h := GateJudged(k);
      PassMoves(k);
      h := Runs(h, Gated(k), Judged(k), MoveGate, Passing(k, 0));
    } else {
      h := GateJournals(k, drawn - 1);
      PassDraws(k, drawn - 1);
      h := Runs(h, Gated(k).(nextSeq := drawn - 1), Passing(k, drawn - 1), InsertEvent, Passing(k, drawn));
    }
  }

  /** A gate can pass: its step and its Attempt succeed, and the journal says so in order. */
  lemma PassIsReachable(k: StepKey) returns (h: History, s: State)
    ensures Reaches(h, s) && k in s.gates
    ensures s.db.steps == map[k := StepStatus.Succeeded]
    ensures s.db.attempts == map[AttemptKey(k, 1) := Outcome.Succeeded]
    ensures s.db.events == map q: nat | q < 5 :: PassEvents(k)[q]
  {
    var before := Gated(k).(nextSeq := 5);
    h := GateJournals(k, 5);
    h := Commits(h, before, Passing(k, 5));
    s := AfterCommit(before, Passing(k, 5));
    PassedTables(k);
  }

  lemma PassedTables(k: StepKey)
    ensures var db' := Applied(Gated(k).db, Passing(k, 5));
            && db'.steps == map[k := StepStatus.Succeeded] && db'.attempts == map[AttemptKey(k, 1) := Outcome.Succeeded]
            && db'.events == map q: nat | q < 5 :: PassEvents(k)[q]
  {
    var none: Journal := map[];
    assert none + Passing(k, 5).events == Passing(k, 5).events;
  }
}
