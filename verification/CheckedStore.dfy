/**
 The checker against the store: facts read off any reachable state of the run store,
 none of whose runs was reopened, pass T1 and I5.
 */
module CheckedStore {
  import opened Options
  import RunStore
  import RunStoreInvariant
  import RunStoreRuns
  import RunStoreTheorems
  import RunStoreMarks
  import RunStoreEngine
  import Decimals
  import opened Checker

  // ------------------------------------------------------------------ how rows are read

  function RunName(s: RunStore.RunStatus): Token {
    match s
    case Pending => Token("Pending")
    case Running => Token("Running")
    case Suspended => Token("Suspended")
    case Succeeded => Token("Succeeded")
    case Failed => Token("Failed")
    case Cancelled => Token("Cancelled")
    case DeadLettered => Token("DeadLettered")
  }

  function RunColumn(s: RunStore.RunStatus): Token {
    match s
    case Pending => Token("pending")
    case Running => Token("running")
    case Suspended => Token("suspended")
    case Succeeded => Token("succeeded")
    case Failed => Token("failed")
    case Cancelled => Token("cancelled")
    case DeadLettered => Token("dead_lettered")
  }

  function StepStatusName(s: RunStore.StepStatus): Token {
    match s
    case Pending => Token("Pending")
    case Ready => Token("Ready")
    case Running => Token("Running")
    case Succeeded => Token("Succeeded")
    case Failed => Token("Failed")
    case Skipped => Token("Skipped")
    case Cancelled => Token("Cancelled")
  }

  function StepColumn(s: RunStore.StepStatus): Token {
    match s
    case Pending => Token("pending")
    case Ready => Token("ready")
    case Running => Token("running")
    case Succeeded => Token("succeeded")
    case Failed => Token("failed")
    case Skipped => Token("skipped")
    case Cancelled => Token("cancelled")
  }

  /** The journal's spelling, lower-cased, is the column's. */
  lemma RunSpelling(s: RunStore.RunStatus)
    ensures StatusToken(RunName(s)) == RunColumn(s)
    ensures RunName(s) in TerminalTargets <==> RunStore.TerminalRun(s)
    ensures RunColumn(s) in RunTerminal <==> RunStore.TerminalRun(s)
    ensures RunColumn(s) != Missing
  {
    assert RunName(s) != Token("DeadLettered") ==> Lower(RunName(s)).text == RunColumn(s).text;
  }

  lemma StepSpelling(s: RunStore.StepStatus)
    ensures Lower(StepStatusName(s)) == StepColumn(s)
    ensures StepColumn(s) in StepTerminal <==> RunStore.TerminalStep(s)
  {
    assert Lower(StepStatusName(s)).text == StepColumn(s).text;
  }

  function RunOf(id: Id): RunStore.RunId {
    RunStore.RunId(id.text)
  }

  function StepOf(run: Id, step: Id): RunStore.StepKey {
    RunStore.StepKey(RunOf(run), RunStore.StepId(step.text))
  }

  /** The n-th Attempt of a step. */
  function AttemptId(n: nat): Id {
    Id("a" + Decimals.Decimal(n))
  }

  /** Journal row `row` is event `e`, as far as the checker reads it. */
  predicate Renders(row: EventRow, e: RunStore.Event) {
    && RunOf(row.run) == e.run
    && match e.payload
       case StepTransitioned(step, to) =>
         row.kind == StepTransitioned && row.step == Some(Id(step.id)) && row.to == Some(StepStatusName(to))
       case StepSkipped(step) => row.kind == StepSkipped && row.step == Some(Id(step.id))
       case RunTransitioned(status) => row.kind == RunTransitioned && row.to == Some(RunName(status))
       case AttemptStarted(step, n) =>
         row.kind == AttemptStarted && row.step == Some(Id(step.id)) && row.attempt == Some(AttemptId(n))
       case AttemptFinished(step, n) =>
         row.kind == AttemptFinished && row.step == Some(Id(step.id)) && row.attempt == Some(AttemptId(n))
       case _ => row.kind !in {StepTransitioned, StepSkipped, RunTransitioned, AttemptStarted, AttemptFinished}
  }

  ghost predicate Covers(events: seq<EventRow>, journal: map<nat, RunStore.Event>, r: RunStore.RunId) {
    forall q :: q in journal && journal[q].run == r ==> exists i :: 0 <= i < |events| && events[i].number == q
  }

  /** The gathered events are committed ones, each once. */
  ghost predicate EventsRead(events: seq<EventRow>, journal: map<nat, RunStore.Event>) {
    && (forall i :: 0 <= i < |events| ==>
          0 <= events[i].number && events[i].number in journal && Renders(events[i], journal[events[i].number]))
    && (forall i, j :: 0 <= i < j < |events| ==> events[i].number != events[j].number)
  }

  /** A run row as gathered: its column, or `missing` when there is none. */
  predicate RunRead(r: RunRow, db: RunStore.Tables) {
    r.status == if RunOf(r.id) in db.runs then RunColumn(db.runs[RunOf(r.id)].status) else Missing
  }

  predicate StepRead(s: StepRow, db: RunStore.Tables) {
    StepOf(s.run, s.step) in db.steps && s.status == StepColumn(db.steps[StepOf(s.run, s.step)])
  }

  /** What `gather` reads in one state of the store. */
  ghost predicate Reports(f: Facts, db: RunStore.Tables) {
    && EventsRead(f.events, db.events)
    && (forall i :: 0 <= i < |f.runs| ==> RunRead(f.runs[i], db) && Covers(f.events, db.events, RunOf(f.runs[i].id)))
    && (forall i :: 0 <= i < |f.steps| ==>
          StepRead(f.steps[i], db) && Covers(f.events, db.events, RunOf(f.steps[i].run)))
  }

  // --------------------------------------------------------------------- the two folds

  lemma RunRowMoves(row: EventRow, e: RunStore.Event, run: Id)
    requires Renders(row, e)
    ensures MovesRun(row, run) <==> RunStore.MovesRun(e, RunOf(run))
    ensures MovesRun(row, run) ==> RunTarget(row) == RunColumn(e.payload.status)
    ensures EndsRun(row, run) <==> RunStore.MovesRun(e, RunOf(run)) && RunStore.TerminalRun(e.payload.status)
  {
    if e.payload.RunTransitioned? {
      RunSpelling(e.payload.status);
    }
  }

  lemma StepRowMoves(row: EventRow, e: RunStore.Event, k: StepName)
    requires Renders(row, e)
    ensures MovesStep(row, k) <==> RunStore.MovesStep(e, StepOf(k.run, k.step))
    ensures MovesStep(row, k) ==> StepTarget(row) == StepColumn(RunStore.StepAfter(e))
  {
    if e.payload.StepTransitioned? {
      StepSpelling(e.payload.to);
    }
  }

  lemma RunLastRead(events: seq<EventRow>, journal: map<nat, RunStore.Event>, run: Id, i: nat)
    requires EventsRead(events, journal) && Covers(events, journal, RunOf(run)) && LastBy(events, RunMoves(run), i)
    ensures RunStoreInvariant.LastRunEvent(journal, RunOf(run), events[i].number)
    ensures RunTarget(events[i]) == RunColumn(journal[events[i].number].payload.status)
  {
    RunRowMoves(events[i], journal[events[i].number], run);
    forall q | q in journal && RunStore.MovesRun(journal[q], RunOf(run)) ensures q <= events[i].number {
      var j :| 0 <= j < |events| && events[j].number == q;
      RunRowMoves(events[j], journal[q], run);
      assert RunMoves(run)(events[j]);
    }
  }

  lemma StepLastRead(events: seq<EventRow>, journal: map<nat, RunStore.Event>, k: StepName, i: nat)
    requires EventsRead(events, journal) && Covers(events, journal, RunOf(k.run)) && LastBy(events, StepMoves(k), i)
    ensures RunStoreInvariant.LastStepEvent(journal, StepOf(k.run, k.step), events[i].number)
    ensures StepTarget(events[i]) == StepColumn(RunStore.StepAfter(journal[events[i].number]))
  {
    StepRowMoves(events[i], journal[events[i].number], k);
    forall q | q in journal && RunStore.MovesStep(journal[q], StepOf(k.run, k.step)) ensures q <= events[i].number {
      var j :| 0 <= j < |events| && events[j].number == q;
      StepRowMoves(events[j], journal[q], k);
      assert StepMoves(k)(events[j]);
    }
  }

  lemma NoRunMoveRead(events: seq<EventRow>, journal: map<nat, RunStore.Event>, run: Id, q: nat) returns (i: nat)
    requires EventsRead(events, journal) && Covers(events, journal, RunOf(run))
    requires RunStoreInvariant.LastRunEvent(journal, RunOf(run), q)
    ensures i < |events| && RunMoves(run)(events[i])
  {
    i :| 0 <= i < |events| && events[i].number == q;
    RunRowMoves(events[i], journal[q], run);
  }

  lemma NoStepMoveRead(events: seq<EventRow>, journal: map<nat, RunStore.Event>, k: StepName, q: nat) returns (i: nat)
    requires EventsRead(events, journal) && Covers(events, journal, RunOf(k.run))
    requires RunStoreInvariant.LastStepEvent(journal, StepOf(k.run, k.step), q)
    ensures i < |events| && StepMoves(k)(events[i])
  {
    i :| 0 <= i < |events| && events[i].number == q;
    StepRowMoves(events[i], journal[q], k);
  }

  /** The checker's run fold is the store's, spelled as the column. */
  lemma RunFoldIsStoreFold(events: seq<EventRow>, journal: map<nat, RunStore.Event>, run: Id, folded: Token)
    requires EventsRead(events, journal) && Covers(events, journal, RunOf(run))
    requires FoldsTo(events, RunMoves(run), RunTarget, folded)
    ensures folded == RunColumn(RunStoreTheorems.FoldRun(journal, RunOf(run)))
  {
    if i: nat :| LastBy(events, RunMoves(run), i) && RunTarget(events[i]) == folded {
      RunLastRead(events, journal, run, i);
    } else if q :| RunStoreInvariant.LastRunEvent(journal, RunOf(run), q) {
      var i := NoRunMoveRead(events, journal, run, q);
    }
  }

  lemma StepFoldIsStoreFold(events: seq<EventRow>, journal: map<nat, RunStore.Event>, k: StepName, folded: Token)
    requires EventsRead(events, journal) && Covers(events, journal, RunOf(k.run))
    requires FoldsTo(events, StepMoves(k), StepTarget, folded)
    ensures folded == StepColumn(RunStoreTheorems.FoldStep(journal, StepOf(k.run, k.step)))
  {
    if i: nat :| LastBy(events, StepMoves(k), i) && StepTarget(events[i]) == folded {
      StepLastRead(events, journal, k, i);
    } else if q :| RunStoreInvariant.LastStepEvent(journal, StepOf(k.run, k.step), q) {
      var i := NoStepMoveRead(events, journal, k, q);
    }
  }

  // -------------------------------------------------------------------------- T1

  lemma SingletonOf<T>(xs: set<T>, x: T)
    requires |xs| == 1 && x in xs
    ensures forall y :: y in xs ==> y == x
  {
    var rest := xs - {x};
    assert |rest| == 0;
    assert forall y :: y in xs && y != x ==> y in rest;
  }

  /** One terminal entry in the journal is one terminal row among the facts. */
  lemma EndsAreRead(events: seq<EventRow>, journal: map<nat, RunStore.Event>, r: RunRow, status: RunStore.RunStatus)
    requires EventsRead(events, journal) && Covers(events, journal, RunOf(r.id))
    requires RunStore.TerminalRun(status) && r.status == RunColumn(status)
    requires |RunStoreInvariant.Ends(journal, RunOf(r.id))| == 1
        && RunStoreTheorems.FoldRun(journal, RunOf(r.id)) == status
    ensures OneEnd(events, r)
  {
    var q :| RunStoreInvariant.LastRunEvent(journal, RunOf(r.id), q) && journal[q].payload.status == status;
    var ends := RunStoreInvariant.Ends(journal, RunOf(r.id));
    SingletonOf(ends, q);
    var i :| 0 <= i < |events| && events[i].number == q;
    RunRowMoves(events[i], journal[q], r.id);
    forall j | 0 <= j < |events| && EndsRun(events[j], r.id) ensures j == i {
      RunRowMoves(events[j], journal[events[j].number], r.id);
      assert events[j].number in ends;
    }
    assert events[i].to == Some(RunName(status));
    RunSpelling(status);
  }

  lemma NoEndsRead(events: seq<EventRow>, journal: map<nat, RunStore.Event>, run: Id)
    requires EventsRead(events, journal) && RunStoreInvariant.Ends(journal, RunOf(run)) == {}
    ensures forall i :: 0 <= i < |events| ==> !EndsRun(events[i], run)
  {
    forall i | 0 <= i < |events| ensures !EndsRun(events[i], run) {
      RunRowMoves(events[i], journal[events[i].number], run);
      assert events[i].number !in RunStoreInvariant.Ends(journal, RunOf(run));
    }
  }

  lemma MissingHasNoMoves(trace: seq<RunStore.State>, acts: seq<RunStore.Action>, i: nat, r: RunStore.RunId)
    requires RunStore.IsRun(trace, acts) && i < |trace| && r !in trace[i].db.runs
    ensures RunStoreInvariant.Ends(trace[i].db.events, r) == {}
  {
    RunStoreRuns.RunInv(trace, acts, i);
    assert RunStoreInvariant.JournalAgrees(trace[i].db);
    assert forall q :: q in trace[i].db.events ==> !RunStore.MovesRun(trace[i].db.events[q], r);
  }

  lemma EndsHold(trace: seq<RunStore.State>, acts: seq<RunStore.Action>, i: nat, events: seq<EventRow>, r: RunRow)
    requires RunStore.IsRun(trace, acts) && i < |trace| && EventsRead(events, trace[i].db.events)
    requires RunRead(r, trace[i].db) && Covers(events, trace[i].db.events, RunOf(r.id))
    requires RunOf(r.id) in trace[i].db.runs ==> trace[i].db.runs[RunOf(r.id)].generation == 0
    ensures EndsMatch(events, r)
  {
    var db := trace[i].db;
    if RunOf(r.id) in db.runs {
      var status := db.runs[RunOf(r.id)].status;
      RunSpelling(status);
      RunStoreTheorems.OneTerminalEntry(trace, acts, i, RunOf(r.id));
      if RunStore.TerminalRun(status) {
        RunStoreTheorems.JournalFoldsToRows(trace, acts, i);
        EndsAreRead(events, db.events, r, status);
      } else {
        NoEndsRead(events, db.events, r.id);
      }
    } else {
      MissingHasNoMoves(trace, acts, i, RunOf(r.id));
      NoEndsRead(events, db.events, r.id);
    }
  }

  lemma SecondOf<T>(xs: set<T>, x: T) returns (y: T)
    requires |xs| > 1
    ensures y in xs && y != x
  {
    var rest := xs - {x};
    assert |rest| >= |xs| - 1;
    y :| y in rest;
  }

  lemma EndRead(events: seq<EventRow>, journal: map<nat, RunStore.Event>, run: Id, q: nat) returns (i: nat)
    requires EventsRead(events, journal) && Covers(events, journal, RunOf(run))
    requires q in RunStoreInvariant.Ends(journal, RunOf(run))
    ensures i < |events| && events[i].number == q && EndsRun(events[i], run)
  {
    i :| 0 <= i < |events| && events[i].number == q;
    RunRowMoves(events[i], journal[q], run);
  }

  lemma ReopenedFails(trace: seq<RunStore.State>, acts: seq<RunStore.Action>, i: nat, events: seq<EventRow>, r: RunRow)
    requires RunStore.IsRun(trace, acts) && i < |trace| && EventsRead(events, trace[i].db.events)
    requires RunRead(r, trace[i].db) && Covers(events, trace[i].db.events, RunOf(r.id))
    requires RunOf(r.id) in trace[i].db.runs && trace[i].db.runs[RunOf(r.id)].generation > 0
    ensures !EndsMatch(events, r)
  {
    var journal, row := trace[i].db.events, trace[i].db.runs[RunOf(r.id)];
    var ends := RunStoreInvariant.Ends(journal, RunOf(r.id));
    RunStoreTheorems.EndsAreGenerations(trace, acts, i, RunOf(r.id));
    RunSpelling(row.status);
    var q :| q in ends;
    var n := EndRead(events, journal, r.id, q);
    if RunStore.TerminalRun(row.status) {
      var q' := SecondOf(ends, q);
      var m := EndRead(events, journal, r.id, q');
      assert m != n;
    }
  }

  /** T1 passes exactly for the runs that were never reopened. */
  lemma EndsMatchIffNotReopened(trace: seq<RunStore.State>, acts: seq<RunStore.Action>, i: nat, events: seq<EventRow>,
      r: RunRow)
    requires RunStore.IsRun(trace, acts) && i < |trace| && EventsRead(events, trace[i].db.events)
    requires RunRead(r, trace[i].db) && Covers(events, trace[i].db.events, RunOf(r.id))
    ensures EndsMatch(events, r) <==>
            (RunOf(r.id) in trace[i].db.runs ==> trace[i].db.runs[RunOf(r.id)].generation == 0)
  {
    if RunOf(r.id) in trace[i].db.runs && trace[i].db.runs[RunOf(r.id)].generation > 0 {
      ReopenedFails(trace, acts, i, events, r);
    } else {
      EndsHold(trace, acts, i, events, r);
    }
  }

  // ------------------------------------------------------------------ the theorem

  lemma FoldsHold(trace: seq<RunStore.State>, acts: seq<RunStore.Action>, i: nat, f: Facts)
    requires RunStore.IsRun(trace, acts) && i < |trace| && Reports(f, trace[i].db)
    ensures JournalFolds(f)
  {
    var db := trace[i].db;
    RunStoreTheorems.JournalFoldsToRows(trace, acts, i);
    forall n | 0 <= n < |f.runs| ensures !RunDiffers(f, n, true) {
      RunFoldHolds(f.events, db, f.runs[n]);
    }
    forall n | 0 <= n < |f.steps| ensures !StepDiffers(f, n, true) {
      StepFoldHolds(f.events, db, f.steps[n]);
    }
  }

  lemma RunFoldHolds(events: seq<EventRow>, db: RunStore.Tables, r: RunRow)
    requires EventsRead(events, db.events) && Covers(events, db.events, RunOf(r.id)) && RunRead(r, db)
    requires RunOf(r.id) in db.runs ==>
               var folded, row := RunStoreTheorems.FoldRun(db.events, RunOf(r.id)), db.runs[RunOf(r.id)].status;
               RunStore.TerminalRun(folded) || RunStore.TerminalRun(row) ==> folded == row
    ensures forall folded :: FoldsTo(events, RunMoves(r.id), RunTarget, folded) && r.status != Missing ==>
              (folded in RunTerminal || r.status in RunTerminal ==> folded == r.status)
  {
    forall folded | FoldsTo(events, RunMoves(r.id), RunTarget, folded) && r.status != Missing
      ensures folded in RunTerminal || r.status in RunTerminal ==> folded == r.status
    {
      RunFoldIsStoreFold(events, db.events, r.id, folded);
      RunSpelling(RunStoreTheorems.FoldRun(db.events, RunOf(r.id)));
      RunSpelling(db.runs[RunOf(r.id)].status);
    }
  }

  lemma StepFoldHolds(events: seq<EventRow>, db: RunStore.Tables, s: StepRow)
    requires EventsRead(events, db.events) && Covers(events, db.events, RunOf(s.run)) && StepRead(s, db)
    requires var folded, row := RunStoreTheorems.FoldStep(db.events, StepOf(s.run, s.step)),
        db.steps[StepOf(s.run, s.step)];
             RunStore.TerminalStep(folded) || RunStore.TerminalStep(row) ==> folded == row
    ensures forall folded :: FoldsTo(events, StepMoves(StepName(s.run, s.step)), StepTarget, folded) ==>
              (folded in StepTerminal || s.status in StepTerminal ==> folded == s.status)
  {
    var k := StepName(s.run, s.step);
    forall folded | FoldsTo(events, StepMoves(k), StepTarget, folded)
      ensures folded in StepTerminal || s.status in StepTerminal ==> folded == s.status
    {
      StepFoldIsStoreFold(events, db.events, k, folded);
      StepSpelling(RunStoreTheorems.FoldStep(db.events, StepOf(s.run, s.step)));
      StepSpelling(db.steps[StepOf(s.run, s.step)]);
    }
  }

  /** Facts gathered in any reachable state whose runs were never reopened pass T1 and I5. */
  lemma ReachableStatesPass(trace: seq<RunStore.State>, acts: seq<RunStore.Action>, i: nat, f: Facts)
    requires RunStore.IsRun(trace, acts) && i < |trace| && Reports(f, trace[i].db)
    requires forall r :: r in trace[i].db.runs ==> trace[i].db.runs[r].generation == 0
    ensures EndsAllMatch(f) && JournalFolds(f)
  {
    FoldsHold(trace, acts, i, f);
    forall n | 0 <= n < |f.runs| ensures EndsMatch(f.events, f.runs[n]) {
      EndsHold(trace, acts, i, f.events, f.runs[n]);
    }
  }

  // ------------------------------------------------------------------ I1c, the journal half

  lemma AttemptIdIsOwn(m: nat, n: nat)
    requires AttemptId(m) == AttemptId(n)
    ensures m == n
  {
    assert ("a" + Decimals.Decimal(m))[1..] == Decimals.Decimal(m);
    assert ("a" + Decimals.Decimal(n))[1..] == Decimals.Decimal(n);
    Decimals.DecimalIsOwn(m, n);
  }

  /** Rows of one Attempt and kind render events that mark one Attempt. */
  lemma SameEntrySameMark(a: EventRow, d: RunStore.Event, b: EventRow, e: RunStore.Event, x: Entry)
    requires Renders(a, d) && Renders(b, e) && IsEntry(a, x) && IsEntry(b, x)
    ensures RunStoreMarks.MarkOf(d).Some? && RunStoreMarks.MarkOf(d) == RunStoreMarks.MarkOf(e)
  {
    assert d.payload.AttemptStarted? || d.payload.AttemptFinished?;
    assert e.payload.AttemptStarted? <==> d.payload.AttemptStarted?;
    AttemptIdIsOwn(d.payload.attempt, e.payload.attempt);
  }

  lemma TwoMarks(journal: map<nat, RunStore.Event>, p: nat, q: nat, x: RunStoreMarks.Mark)
    requires p in journal && q in journal && p != q
    requires RunStoreMarks.MarkOf(journal[p]) == Some(x) && RunStoreMarks.MarkOf(journal[q]) == Some(x)
    ensures |RunStoreMarks.Marks(journal, x)| > 1
  {
    var marks := RunStoreMarks.Marks(journal, x);
    var rest := marks - {p};
    assert p in marks && q in rest && |rest| == |marks| - 1;
  }

  lemma MarkedOnce(trace: seq<RunStore.State>, acts: seq<RunStore.Action>, i: nat, x: RunStoreMarks.Mark)
    requires RunStore.IsRun(trace, acts) && RunStoreMarks.EngineRun(acts) && i < |trace|
    ensures |RunStoreMarks.Marks(trace[i].db.events, x)| <= 1
  {
    if x.Start? {
      RunStoreEngine.StartedIffMinted(trace, acts, i, x.a);
    } else {
      RunStoreEngine.FinishedOnce(trace, acts, i, x.a);
    }
  }

  /** Facts gathered in any reachable state of the engine's calls have no Attempt journalled started or finished
      twice. */
  lemma NothingIsJournalledTwice(trace: seq<RunStore.State>, acts: seq<RunStore.Action>, i: nat, f: Facts)
    requires RunStore.IsRun(trace, acts) && RunStoreMarks.EngineRun(acts) && i < |trace| && Reports(f, trace[i].db)
    ensures forall x :: !JournalledTwice(f.events, x)
  {
    var journal := trace[i].db.events;
    forall x ensures !JournalledTwice(f.events, x) {
      if JournalledTwice(f.events, x) {
        var m, n :| 0 <= m < n < |f.events| && IsEntry(f.events[m], x) && IsEntry(f.events[n], x);
        var p, q := f.events[m].number, f.events[n].number;
        SameEntrySameMark(f.events[m], journal[p], f.events[n], journal[q], x);
        var mark := RunStoreMarks.MarkOf(journal[p]).value;
        TwoMarks(journal, p, q, mark);
        MarkedOnce(trace, acts, i, mark);
      }
    }
  }
}
