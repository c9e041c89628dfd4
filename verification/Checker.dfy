/**
 The invariant checker: loops that gather facts into maps and report findings, each
 proved to report exactly what a quantified statement over the facts rules out.
 */
module Checker {
  import opened Options

  datatype Id = Id(text: string)
  datatype Token = Token(text: string)

  datatype RunRow = RunRow(id: Id, status: Token)
  datatype AttemptRow = AttemptRow(run: Id, step: Id, attempt: Id, outcome: Option<Token>)
  datatype StepRow = StepRow(run: Id, step: Id, status: Token, evidence: Option<Id>)
  datatype PodRecord = PodRecord(run: Option<Id>, step: Option<Id>, attempt: Option<Id>, uid: Id)

  /** A journal row: the payload's kind, and the fields the checker reads off it. */
  datatype EventRow = EventRow(
    run: Id, number: int, kind: Token, step: Option<Id>, attempt: Option<Id>, to: Option<Token>)

  datatype Facts = Facts(
    runs: seq<RunRow>, events: seq<EventRow>, attempts: seq<AttemptRow>, steps: seq<StepRow>, pods: seq<PodRecord>)

  datatype StepName = StepName(run: Id, step: Id)
  datatype AttemptName = AttemptName(run: Id, step: Id, attempt: Id)
  datatype Entry = Entry(name: AttemptName, kind: Token)

  const RunTransitioned := Token("RunTransitioned")
  const StepTransitioned := Token("StepTransitioned")
  const StepSkipped := Token("StepSkipped")
  const AttemptStarted := Token("AttemptStarted")
  const AttemptFinished := Token("AttemptFinished")
  const Pending := Token("pending")
  const Succeeded := Token("succeeded")
  const Missing := Token("missing")

  /** Terminal targets of a `RunTransitioned`. */
  const TerminalTargets: set<Token> := {Token("Succeeded"), Token("Failed"), Token("Cancelled"), Token("DeadLettered")}
  const RunTerminal: set<Token> := {Token("succeeded"), Token("failed"), Token("cancelled"), Token("dead_lettered")}
  const StepTerminal: set<Token> := {Token("succeeded"), Token("failed"), Token("skipped"), Token("cancelled")}

  function LowerChar(c: char): char {
    if 'A' <= c <= 'Z' then (c as int - 'A' as int + 'a' as int) as char else c
  }

  function Lower(t: Token): Token {
    Token(seq(|t.text|, i requires 0 <= i < |t.text| => LowerChar(t.text[i])))
  }

  function StatusToken(to: Token): Token {
    if to == Token("DeadLettered") then Token("dead_lettered") else Lower(to)
  }

  // ------------------------------------------------------- the quantified statements

  function PodName(r: PodRecord): Option<AttemptName> {
    if r.run.Some? && r.step.Some? && r.attempt.Some?
    then Some(AttemptName(r.run.value, r.step.value, r.attempt.value)) else None
  }

  /** The record is of a Pod labelled with this run, step and Attempt. */
  predicate PodOf(r: PodRecord, name: AttemptName) {
    r.run == Some(name.run) && r.step == Some(name.step) && r.attempt == Some(name.attempt)
  }

  ghost predicate TwoUids(pods: seq<PodRecord>, name: AttemptName) {
    exists i, j :: 0 <= i < j < |pods| && PodOf(pods[i], name) && PodOf(pods[j], name) && pods[i].uid != pods[j].uid
  }

  /** I1a: one Pod per Attempt. */
  ghost predicate OnePodEach(f: Facts) {
    forall name :: !TwoUids(f.pods, name)
  }

  predicate IsGreen(a: AttemptRow, k: StepName) {
    a.run == k.run && a.step == k.step && a.outcome == Some(Succeeded)
  }

  ghost predicate TwoGreens(attempts: seq<AttemptRow>, k: StepName) {
    exists i, j :: 0 <= i < j < |attempts| && IsGreen(attempts[i], k) && IsGreen(attempts[j], k)
  }

  ghost predicate HasAttempt(attempts: seq<AttemptRow>, k: StepName) {
    exists i :: 0 <= i < |attempts| && attempts[i].run == k.run && attempts[i].step == k.step
  }

  predicate IsRowOf(s: StepRow, k: StepName) {
    s.run == k.run && s.step == k.step
  }

  ghost predicate FirstRowOf(steps: seq<StepRow>, k: StepName, i: int) {
    0 <= i < |steps| && IsRowOf(steps[i], k) && forall j :: 0 <= j < i ==> !IsRowOf(steps[j], k)
  }

  /** Exactly one succeeded Attempt, and the step's evidence names it. */
  ghost predicate Backed(attempts: seq<AttemptRow>, k: StepName, evidence: Option<Id>) {
    exists i :: 0 <= i < |attempts| && IsGreen(attempts[i], k) && evidence == Some(attempts[i].attempt)
                && forall j :: 0 <= j < |attempts| && IsGreen(attempts[j], k) ==> j == i
  }

  ghost predicate Unbacked(f: Facts, k: StepName) {
    HasAttempt(f.attempts, k) && exists i :: FirstRowOf(f.steps, k, i) && f.steps[i].status == Succeeded
                                             && !Backed(f.attempts, k, f.steps[i].evidence)
  }

  function EntryOf(e: EventRow): Option<Entry> {
    if (e.kind == AttemptStarted || e.kind == AttemptFinished) && e.step.Some? && e.attempt.Some?
    then Some(Entry(AttemptName(e.run, e.step.value, e.attempt.value), e.kind)) else None
  }

  /** The row journals the start or the finish of this Attempt. */
  predicate IsEntry(e: EventRow, x: Entry) {
    && (x.kind == AttemptStarted || x.kind == AttemptFinished)
    && e.kind == x.kind && e.run == x.name.run && e.step == Some(x.name.step) && e.attempt == Some(x.name.attempt)
  }

  ghost predicate JournalledTwice(events: seq<EventRow>, x: Entry) {
    exists i, j :: 0 <= i < j < |events| && IsEntry(events[i], x) && IsEntry(events[j], x)
  }

  /** I1c: no double execution. */
  ghost predicate NoDoubleExecution(f: Facts) {
    && (forall k :: !TwoGreens(f.attempts, k) && !Unbacked(f, k))
    && (forall x :: !JournalledTwice(f.events, x))
  }

  predicate EndsRun(e: EventRow, run: Id) {
    e.run == run && e.kind == RunTransitioned && e.to.Some? && e.to.value in TerminalTargets
  }

  ghost predicate OneEnd(events: seq<EventRow>, r: RunRow) {
    exists i :: 0 <= i < |events| && EndsRun(events[i], r.id) && StatusToken(events[i].to.value) == r.status
                && forall j :: 0 <= j < |events| && EndsRun(events[j], r.id) ==> j == i
  }

  /** T1: a terminal run has exactly one terminal entry, of its status; any other run has none. */
  ghost predicate EndsMatch(events: seq<EventRow>, r: RunRow) {
    if r.status in RunTerminal then OneEnd(events, r)
    else forall i :: 0 <= i < |events| ==> !EndsRun(events[i], r.id)
  }

  ghost predicate EndsAllMatch(f: Facts) {
    forall i :: 0 <= i < |f.runs| ==> EndsMatch(f.events, f.runs[i])
  }

  predicate MovesRun(e: EventRow, run: Id) {
    e.run == run && e.kind == RunTransitioned
  }

  predicate MovesStep(e: EventRow, k: StepName) {
    e.run == k.run && e.step == Some(k.step) && (e.kind == StepTransitioned || e.kind == StepSkipped)
  }

  function RunTarget(e: EventRow): Token {
    if e.to.Some? then StatusToken(e.to.value) else Pending
  }

  function StepTarget(e: EventRow): Token {
    if e.kind == StepSkipped then Token("skipped") else if e.to.Some? then Lower(e.to.value) else Token("")
  }

  /** Index `i` holds the last event by sequence number that satisfies `p`; of equals, the later row. */
  ghost predicate LastBy(events: seq<EventRow>, p: EventRow -> bool, i: int) {
    && 0 <= i < |events| && p(events[i])
    && forall j :: 0 <= j < |events| && p(events[j]) ==>
                     events[j].number <= events[i].number && (i < j ==> events[j].number < events[i].number)
  }

  /** `status` is what the events that satisfy `p` fold to. */
  ghost predicate FoldsTo(events: seq<EventRow>, p: EventRow -> bool, target: EventRow -> Token, status: Token) {
    if exists i :: 0 <= i < |events| && p(events[i])
    then exists i :: LastBy(events, p, i) && target(events[i]) == status
    else status == Pending
  }

  ghost predicate RunDiffers(f: Facts, i: nat, failure: bool)
    requires i < |f.runs|
  {
    var r := f.runs[i];
    && r.status != Missing
    && exists folded :: FoldsTo(f.events, RunMoves(r.id), RunTarget, folded) && folded != r.status
                        && (failure <==> folded in RunTerminal || r.status in RunTerminal)
  }

  ghost predicate StepDiffers(f: Facts, i: nat, failure: bool)
    requires i < |f.steps|
  {
    var s := f.steps[i];
    exists folded :: FoldsTo(f.events, StepMoves(StepName(s.run, s.step)), StepTarget, folded)
                     && folded != s.status && (failure <==> folded in StepTerminal || s.status in StepTerminal)
  }

  /** I5: the journal folds to the projected rows, whenever either is terminal. */
  ghost predicate JournalFolds(f: Facts) {
    && (forall i :: 0 <= i < |f.runs| ==> !RunDiffers(f, i, true))
    && (forall i :: 0 <= i < |f.steps| ==> !StepDiffers(f, i, true))
  }

  // ------------------------------------------------------------ filters and their meaning

  predicate OfStep(a: AttemptRow, k: StepName) {
    a.run == k.run && a.step == k.step
  }

  function RowsOf(k: StepName): AttemptRow -> bool { a => OfStep(a, k) }
  function GreenRows(k: StepName): AttemptRow -> bool { a => IsGreen(a, k) }
  function EntriesOf(x: Entry): EventRow -> bool { e => EntryOf(e) == Some(x) }
  function EndsOf(run: Id): EventRow -> bool { e => EndsRun(e, run) }
  function RunMoves(run: Id): EventRow -> bool { e => MovesRun(e, run) }
  function StepMoves(k: StepName): EventRow -> bool { e => MovesStep(e, k) }

  function Where<T>(rows: seq<T>, p: T -> bool): seq<T> {
    if rows == [] then []
    else if p(rows[|rows| - 1]) then Where(rows[..|rows| - 1], p) + [rows[|rows| - 1]]
    else Where(rows[..|rows| - 1], p)
  }

  lemma {:induction false} WhereEmpty<T>(rows: seq<T>, p: T -> bool)
    ensures Where(rows, p) == [] <==> forall i :: 0 <= i < |rows| ==> !p(rows[i])
  {
    if rows != [] {
      WhereEmpty(rows[..|rows| - 1], p);
      assert forall i :: 0 <= i < |rows| - 1 ==> rows[..|rows| - 1][i] == rows[i];
    }
  }

  ghost predicate Only<T>(rows: seq<T>, p: T -> bool, i: int) {
    0 <= i < |rows| && p(rows[i]) && forall j :: 0 <= j < |rows| && p(rows[j]) ==> j == i
  }

  ghost predicate Twice<T>(rows: seq<T>, p: T -> bool) {
    exists i, j :: 0 <= i < j < |rows| && p(rows[i]) && p(rows[j])
  }

  lemma {:induction false} WhereOne<T>(rows: seq<T>, p: T -> bool)
    ensures |Where(rows, p)| == 1 <==> exists i :: Only(rows, p, i)
    ensures forall i :: Only(rows, p, i) ==> Where(rows, p) == [rows[i]]
    ensures |Where(rows, p)| > 1 <==> Twice(rows, p)
  {
    if rows != [] {
      var front, last := rows[..|rows| - 1], |rows| - 1;
      WhereEmpty(front, p);
      WhereOne(front, p);
      if p(rows[last]) {
        if Where(front, p) == [] {
          assert Only(rows, p, last);
        } else {
          var i :| 0 <= i < last && p(front[i]);
          assert p(rows[i]) && p(rows[last]);
        }
      } else {
        assert forall i :: Only(front, p, i) <==> Only(rows, p, i);
        assert Twice(rows, p) <==> Twice(front, p);
      }
    }
  }

  /** `max_by_key` of the sequence number: of equals, the last. */
  function LastBySeq(rows: seq<EventRow>): Option<EventRow> {
    if rows == [] then None
    else
      var best := LastBySeq(rows[..|rows| - 1]);
      if best.None? || best.value.number <= rows[|rows| - 1].number then Some(rows[|rows| - 1]) else best
  }

  /** The fold over the matching rows, and what it means. */
  ghost predicate BestIsLast(events: seq<EventRow>, p: EventRow -> bool, best: Option<EventRow>) {
    if best.None? then forall i :: 0 <= i < |events| ==> !p(events[i])
    else exists i :: LastBy(events, p, i) && events[i] == best.value
  }

  lemma BestIsKept(events: seq<EventRow>, p: EventRow -> bool, best: Option<EventRow>, e: EventRow)
    requires BestIsLast(events, p, best) && (p(e) ==> best.Some? && e.number < best.value.number)
    ensures BestIsLast(events + [e], p, best)
  {
    if best.Some? {
      var i :| LastBy(events, p, i) && events[i] == best.value;
      assert LastBy(events + [e], p, i);
    }
  }

  lemma BestIsTaken(events: seq<EventRow>, p: EventRow -> bool, best: Option<EventRow>, e: EventRow)
    requires BestIsLast(events, p, best) && p(e) && (best.Some? ==> best.value.number <= e.number)
    ensures BestIsLast(events + [e], p, Some(e))
  {
    assert LastBy(events + [e], p, |events|);
  }

  lemma {:induction false} LastBySeqIsLast(events: seq<EventRow>, p: EventRow -> bool)
    ensures var best := LastBySeq(Where(events, p));
            if best.None? then forall i :: 0 <= i < |events| ==> !p(events[i])
            else exists i :: LastBy(events, p, i) && events[i] == best.value
  {
    if events != [] {
      var front, last := events[..|events| - 1], events[|events| - 1];
      assert events == front + [last];
      LastBySeqIsLast(front, p);
      var best := LastBySeq(Where(front, p));
      assert p(last) ==> Where(events, p)[..|Where(events, p)| - 1] == Where(front, p);
      if p(last) && (best.None? || best.value.number <= last.number) {
        BestIsTaken(front, p, best, last);
      } else {
        BestIsKept(front, p, best, last);
      }
    }
  }

  function Fold(events: seq<EventRow>, p: EventRow -> bool, target: EventRow -> Token): Token {
    match LastBySeq(Where(events, p))
    case None => Pending
    case Some(e) => target(e)
  }

  /** The fold is the one status the journal folds to. */
  lemma FoldIsUnique(events: seq<EventRow>, p: EventRow -> bool, target: EventRow -> Token, status: Token)
    ensures FoldsTo(events, p, target, status) <==> status == Fold(events, p, target)
  {
    LastBySeqIsLast(events, p);
    assert forall i, j :: LastBy(events, p, i) && LastBy(events, p, j) ==> i == j;
  }
}
