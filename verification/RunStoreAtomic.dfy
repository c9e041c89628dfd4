/**
 What a committed call does to the tables, all at once.

 `Does` says it without the statements the call is made of, and without what the transaction staged.
 The theorem of `RunStoreSerial` is that every commit of every interleaving does exactly that to the
 tables as they stand at the commit: the run is the serial execution of its committed calls.
 */
module RunStoreAtomic {
  import opened Options
  import opened RunStore
  import opened RunStoreInvariant

  /** `after` is `before` with `events` added, in list order, under fresh ascending numbers. */
  ghost predicate NumberedAs(before: Journal, after: Journal, events: seq<Event>, numbers: seq<nat>) {
    && |numbers| == |events|
    && (forall i, j :: 0 <= i < j < |numbers| ==> numbers[i] < numbers[j])
    && (forall i :: 0 <= i < |numbers| ==>
          numbers[i] !in before && numbers[i] in after && after[numbers[i]] == events[i])
    && (forall q :: q in before ==> q in after && after[q] == before[q])
    && (forall q :: q in after ==> q in before || q in numbers)
  }

  ghost predicate Appends(before: Journal, after: Journal, events: seq<Event>) {
    exists numbers :: NumberedAs(before, after, events, numbers)
  }

  /** The tables change in the named parts at most. */
  predicate OnlyAttempts(db: Tables, db': Tables) {
    db'.steps == db.steps && db'.runs == db.runs && db'.intents == db.intents
  }

  function Started(a: AttemptKey): Event {
    Event(a.step.run, AttemptStarted(a.step.step, a.n))
  }

  function Starts(minted: seq<AttemptKey>): seq<Event> {
    seq(|minted|, i requires 0 <= i < |minted| => Started(minted[i]))
  }

  ghost predicate DoesTransition(op: Op, db: Tables, db': Tables)
    requires op.StepTransition?
  {
    && op.k in db.steps && db.steps[op.k] == op.from && db'.steps == db.steps[op.k := op.to]
    && (op.frontier.Is? ==> Latest(db.attempts, op.k, op.frontier.latest))
    && db'.runs == db.runs
    && db'.attempts == (
         if op.stamp.None? then db.attempts
         else
           var a := AttemptKey(op.k, op.stamp.value.attempt);
           if a !in db.attempts || db.attempts[a].Superseded? || db.attempts[a].Cancelled? then db.attempts
           else db.attempts[a := op.stamp.value.outcome])
    && Appends(db.events, db'.events, op.events)
    && db'.intents == db.intents + (set x | x in op.intents)
  }

  ghost predicate DoesPromote(op: Op, db: Tables, db': Tables)
    requires op.Promote?
  {
    && op.k in db.steps && db.steps[op.k].Pending? && db'.steps == db.steps[op.k := StepStatus.Ready]
    && db'.attempts == db.attempts && db'.runs == db.runs && db'.intents == db.intents
    && Appends(db.events, db'.events, op.events)
  }

  /** The Attempts `minted` launch one ready step each. */
  ghost predicate ClaimsAs(op: Op, db: Tables, db': Tables, minted: seq<AttemptKey>)
    requires op.Claim?
  {
    && |minted| <= op.limit && (forall i, j :: 0 <= i < j < |minted| ==> minted[i].step != minted[j].step)
    && (forall a :: a in minted ==>
          && a.step in db.steps && db.steps[a.step].Ready? && a !in db.attempts
          && a.n == 1 + |set b | b in db.attempts && b.step == a.step|)
    && db'.steps.Keys == db.steps.Keys && db'.runs == db.runs
    && (forall a :: a in minted ==> a.step in db'.steps && db'.steps[a.step].Running?)
    && (forall k :: k in db.steps && (forall a :: a in minted ==> a.step != k) ==> db'.steps[k] == db.steps[k])
    && db'.attempts == db.attempts + (map a | a in minted :: Outcome.Running)
    && Appends(db.events, db'.events, Starts(minted))
    && db'.intents == db.intents + (set a | a in minted :: Launch(a))
  }

  ghost predicate DoesRecord(op: Op, db: Tables, db': Tables)
    requires op.RecordAttempt?
  {
    && OnlyAttempts(db, db') && db'.events == db.events && op.a.step in db.steps
    && db'.attempts == if op.a in db.attempts then db.attempts else db.attempts[op.a := op.outcome]
  }

  /** A stamp that finds no row to write leaves the tables alone; `NothingDoneIsExcused` says when it may. */
  ghost predicate DoesStamp(op: Op, db: Tables, db': Tables)
    requires op.StampAttempt?
  {
    || db' == db
    || (&& op.a in db.attempts && !db.attempts[op.a].Superseded? && !db.attempts[op.a].Cancelled?
        && db' == db.(attempts := db.attempts[op.a := op.outcome]))
  }

  ghost predicate DoesClose(op: Op, db: Tables, db': Tables)
    requires op.CloseAttempt?
  {
    && OnlyAttempts(db, db') && op.a in db.attempts && db.attempts[op.a].Running?
    && db'.attempts == db.attempts[op.a := op.outcome]
    && Appends(db.events, db'.events, op.events)
  }

  ghost predicate DoesRunTransition(op: Op, db: Tables, db': Tables)
    requires op.RunTransition?
  {
    && op.r in db.runs && db.runs[op.r].status == op.runFrom
    && (op.generation.Some? ==> db.runs[op.r].generation == op.generation.value)
    && db'.steps == db.steps && db'.attempts == db.attempts
    && (var from := op.runFrom;
        var reopened := from.Succeeded? || from.Failed? || from.Cancelled? || from.DeadLettered?;
        db'.runs == db.runs[op.r := RunState(op.runTo, db.runs[op.r].generation + if reopened then 1 else 0)])
    && Appends(db.events, db'.events, op.events)
    && db'.intents == db.intents + (set x | x in op.intents)
  }

  /** `n` numbers the gate's next Attempt: one past its last, which is not running, or the first. */
  ghost predicate NextWait(attempts: Staged, k: StepKey, n: nat) {
    || (n == 1 && forall a :: a in attempts ==> a.step != k)
    || (&& n > 0 && AttemptKey(k, n - 1) in attempts && !attempts[AttemptKey(k, n - 1)].Running?
        && forall a :: a in attempts && a.step == k ==> a.n < n)
  }

  /** A wait that is kept leaves the tables alone; `NothingDoneIsExcused` says when it may. */
  ghost predicate DoesOpen(op: Op, db: Tables, db': Tables)
    requires op.OpenGate?
  {
    && op.k in db.steps && db.steps[op.k].Pending? && OnlyAttempts(db, db')
    && ((db' == db && exists a :: a in db.attempts && a.step == op.k)
        || exists n :: OpensAs(op, db, db', n))
  }

  ghost predicate OpensAs(op: Op, db: Tables, db': Tables, n: nat)
    requires op.OpenGate?
  {
    && NextWait(db.attempts, op.k, n)
    && db'.attempts == db.attempts[AttemptKey(op.k, n) := Outcome.Running]
    && Appends(db.events, db'.events, [Started(AttemptKey(op.k, n))])
  }

  /** The verdict closes the fenced wait, or the latest, which runs; or mints the next Attempt closed. */
  ghost predicate ResolvesAs(op: Op, db: Tables, db': Tables, n: nat)
    requires op.ResolveGate?
  {
    var a := AttemptKey(op.k, n);
    && (if a in db.attempts
        then db.attempts[a].Running?
          && if op.fence.Some? then op.fence.value == n else Latest(db.attempts, op.k, Some(n))
        else op.fence.None? && NextWait(db.attempts, op.k, n))
    && db'.attempts == db.attempts[a := if op.passed then Outcome.Succeeded else Outcome.Failed]
    && Appends(db.events, db'.events,
         (if a in db.attempts then [] else [Event(op.k.run, AttemptStarted(op.k.step, n))])
         + [Event(op.k.run, AttemptFinished(op.k.step, n))]
         + (if op.passed then [Event(op.k.run, GateReleased(op.k.step))]
            else if op.expired then [Event(op.k.run, GateExpired(op.k.step))] else [])
         + [Event(op.k.run, StepTransitioned(op.k.step,
                                             if op.passed then StepStatus.Succeeded else StepStatus.Failed)),
            Event(op.k.run, GateResolved(op.k.step, n, op.passed))])
  }

  ghost predicate DoesResolve(op: Op, db: Tables, db': Tables)
    requires op.ResolveGate?
  {
    && op.k in db.steps && db.steps[op.k].Pending?
    && db'.steps == db.steps[op.k := if op.passed then StepStatus.Succeeded else StepStatus.Failed]
    && db'.runs == db.runs && db'.intents == db.intents
    && exists n :: ResolvesAs(op, db, db', n)
  }

  ghost predicate Does(op: Op, db: Tables, db': Tables) {
    match op
    case StepTransition(_, _, _, _, _, _, _) => DoesTransition(op, db, db')
    case Promote(_, _) => DoesPromote(op, db, db')
    case Claim(_) => exists minted :: ClaimsAs(op, db, db', minted)
    case RecordAttempt(_, _) => DoesRecord(op, db, db')
    case StampAttempt(_, _) => DoesStamp(op, db, db')
    case CloseAttempt(_, _, _) => DoesClose(op, db, db')
    case RunTransition(_, _, _, _, _, _) => DoesRunTransition(op, db, db')
    case OpenGate(_) => DoesOpen(op, db, db')
    case ResolveGate(_, _, _, _) => DoesResolve(op, db, db')
    case AppendEvent(event) =>
      OnlyAttempts(db, db') && db'.attempts == db.attempts && Appends(db.events, db'.events, [event])
  }
}
