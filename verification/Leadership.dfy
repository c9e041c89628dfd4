/**
 The leadership lease, its terms, and leader-fenced transactions.

 One `leases` row.  A fenced transaction holds it FOR SHARE from its fence check to its
 end; `lease()` updates it exclusively.  Time is explicit: Postgres ends a fenced
 transaction whose running statement, or whose idle time, reaches the bound.  A stopped
 process issues nothing more, but a statement it already sent runs on in the server.
 */
module Leadership {
  import opened Options

  /** A server replica: the process that holds leases and runs transactions. */
  datatype Replica = Replica(id: string)

  datatype Lease = Lease(owner: Replica, expiresAt: int, term: nat)

  /** The fencing token of an owner at a term. */
  datatype LeaderTerm = LeaderTerm(owner: Replica, term: nat)

  /** `Lease::held_by`: a token only for the owner the lease names. */
  function HeldBy(lease: Lease, owner: Replica): Option<LeaderTerm> {
    if lease.owner == owner then Some(LeaderTerm(owner, lease.term)) else None
  }

  /** An open fenced transaction: busy with a statement, or idle, since `since`.  It holds the lease
      row once its fence check has passed. */
  datatype Fenced = Fenced(leader: LeaderTerm, passed: bool, busy: bool, committing: bool, since: int)

  datatype CallPhase =
    | Reading
    | Inserting
    | Found(seen: Lease)                 // a lease that is its own or has expired
    | Trying(seen: Lease, start: int)    // in its transaction; `start` is that transaction's now()
    | Updated(staged: Lease)             // the row is updated and held exclusively
    | Done(result: Lease, timedOut: bool)

  /** A call of `lease(me, ttl)`; `tries` counts the lost races of its retry loop. */
  datatype Call = Call(me: Replica, ttl: int, tries: nat, phase: CallPhase)

  /** What has happened, in commit order. */
  datatype Entry = TermBegan(leader: LeaderTerm) | Wrote(leader: LeaderTerm)

  datatype State = State(
    now: int, row: Option<Lease>, fenced: map<nat, Fenced>, calls: map<nat, Call>,
    stoppedAt: map<Replica, int>, log: seq<Entry>)

  const LEADER_TX_BOUND_MS: nat := 5000
  const TAKEOVER_WAIT_MS: nat := 1000
  const MAX_TRIES: nat := 3

  datatype Action =
    | Tick(d: nat)
    | Stop(p: Replica)
    | SendFence(t: nat, leader: LeaderTerm)
    | Issue(t: nat, commit: bool)
    | Complete(t: nat)
    | Rollback(t: nat)
    | Timeout(t: nat)
    | StartCall(c: nat, me: Replica, ttl: int)
    | Read(c: nat)
    | Insert(c: nat)
    | Open(c: nat)
    | Update(c: nat)
    | LockTimeout(c: nat)
    | CommitUpdate(c: nat)
    | DropCall(c: nat)
    | LastRead(c: nat)

  ghost predicate RowHeld(s: State, c: nat) {
    || (exists t :: t in s.fenced && s.fenced[t].passed)
    || (exists d :: d in s.calls && d != c && s.calls[d].phase.Updated?)
  }

  /** Some call holds the row exclusively. */
  ghost predicate Held(s: State) {
    exists c :: c in s.calls && s.calls[c].phase.Updated?
  }

  predicate IsToken(row: Option<Lease>, leader: LeaderTerm) {
    row.Some? && TokenOf(row.value) == leader
  }

  predicate Alive(s: State, p: Replica) {
    p !in s.stoppedAt
  }

  predicate Expired(row: Lease, at: int) {
    row.expiresAt < at
  }

  /** The WHERE clause of the guarded update, on the row as it stands. */
  predicate Matches(row: Option<Lease>, seen: Lease, me: Replica, start: int) {
    && row.Some? && row.value.owner == seen.owner && row.value.term == seen.term
    && (row.value.owner == me || Expired(row.value, start))
  }

  function Renewed(row: Lease, me: Replica, start: int, ttl: int): Lease {
    Lease(me, start + ttl, if row.owner == me then row.term else row.term + 1)
  }

  function Retry(call: Call): Call {
    call.(tries := call.tries + 1, phase := Reading)
  }

  function TokenOf(lease: Lease): LeaderTerm {
    LeaderTerm(lease.owner, lease.term)
  }

  ghost predicate Step(s: State, action: Action, s': State) {
    match action
    case Tick(d) =>
      // Postgres enforces the bounds: time never passes a deadline with the transaction still open.
      && (forall t :: t in s.fenced ==> s.now + d <= s.fenced[t].since + LEADER_TX_BOUND_MS)
      && s' == s.(now := s.now + d)
    case Stop(p) =>
      Alive(s, p) && s' == s.(stoppedAt := s.stoppedAt[p := s.now])
    case SendFence(t, leader) =>
      && Alive(s, leader.owner) && t !in s.fenced
      && s' == s.(fenced := s.fenced[t := Fenced(leader, false, true, false, s.now)])
    case Issue(t, commit) =>
      && t in s.fenced && Alive(s, s.fenced[t].leader.owner) && s.fenced[t].passed && !s.fenced[t].busy
      && s' == s.(fenced := s.fenced[t := s.fenced[t].(busy := true, committing := commit, since := s.now)])
    case Complete(t) =>
      // The statement ends in the server, whether or not its process still runs.
      && t in s.fenced && s.fenced[t].busy && (s.fenced[t].passed || !Held(s))
      && s' == if !s.fenced[t].passed && !IsToken(s.row, s.fenced[t].leader) then s.(fenced := s.fenced - {t})
               else if s.fenced[t].committing
               then s.(fenced := s.fenced - {t}, log := s.log + [Wrote(s.fenced[t].leader)])
               else s.(fenced := s.fenced[t := s.fenced[t].(passed := true, busy := false, since := s.now)])
    case Rollback(t) =>
      t in s.fenced && Alive(s, s.fenced[t].leader.owner) && s' == s.(fenced := s.fenced - {t})
    case Timeout(t) =>
      && t in s.fenced && s.fenced[t].since + LEADER_TX_BOUND_MS <= s.now
      && s' == s.(fenced := s.fenced - {t})
    case StartCall(c, me, ttl) =>
      c !in s.calls && Alive(s, me) && s' == s.(calls := s.calls[c := Call(me, ttl, 0, Reading)])
    case Read(c) =>
      && c in s.calls && Alive(s, s.calls[c].me) && s.calls[c].phase.Reading? && s.calls[c].tries < MAX_TRIES
      && var call := s.calls[c];
      && s' == s.(calls := s.calls[c := call.(phase :=
           if s.row.None? then Inserting
           else if s.row.value.owner != call.me && !Expired(s.row.value, s.now) then Done(s.row.value, false)
           else Found(s.row.value))])
    case Open(c) =>
      && c in s.calls && Alive(s, s.calls[c].me) && s.calls[c].phase.Found?
      && s' == s.(calls := s.calls[c := s.calls[c].(phase := Trying(s.calls[c].phase.seen, s.now))])
    // An insert, an update or a COMMIT that was sent runs on in the server, so a stopped process may
    // still be seen to finish one.
    case Insert(c) =>
      && c in s.calls && s.calls[c].phase.Inserting?
      && var call := s.calls[c];
      && var first := Lease(call.me, s.now + call.ttl, 1);
      && s' == if s.row.None?
               then s.(row := Some(first), calls := s.calls[c := call.(phase := Done(first, false))],
                       log := s.log + [TermBegan(TokenOf(first))])
               else s.(calls := s.calls[c := Retry(call)])
    case Update(c) =>
      && c in s.calls && s.calls[c].phase.Trying?
      && var call := s.calls[c];
      && if Matches(s.row, call.phase.seen, call.me, call.phase.start) then
           && !RowHeld(s, c)
           && s' == s.(calls := s.calls[c := call.(phase :=
                Updated(Renewed(s.row.value, call.me, call.phase.start, call.ttl)))])
         else s' == s.(calls := s.calls[c := Retry(call)])
    case LockTimeout(c) =>
      && c in s.calls && s.calls[c].phase.Trying?
      && s.calls[c].phase.start + TAKEOVER_WAIT_MS <= s.now && RowHeld(s, c)
      && s' == s.(calls := s.calls[c := s.calls[c].(phase := Done(s.calls[c].phase.seen, true))])
    case CommitUpdate(c) =>
      && c in s.calls && s.calls[c].phase.Updated?
      && var staged := s.calls[c].phase.staged;
      && s' == s.(row := Some(staged), calls := s.calls[c := s.calls[c].(phase := Done(staged, false))],
                  log := if s.row.Some? && s.row.value.term == staged.term then s.log
                         else s.log + [TermBegan(TokenOf(staged))])
    case DropCall(c) =>
      c in s.calls && s' == s.(calls := s.calls - {c})
    case LastRead(c) =>
      && c in s.calls && Alive(s, s.calls[c].me) && s.calls[c].phase.Reading? && s.calls[c].tries >= MAX_TRIES
      && s.row.Some?
      && s' == s.(calls := s.calls[c := s.calls[c].(phase := Done(s.row.value, false))])
  }

  ghost predicate Init(s: State) {
    s.row == None && s.fenced == map[] && s.calls == map[] && s.stoppedAt == map[] && s.log == []
  }

  ghost predicate IsRun(trace: seq<State>, acts: seq<Action>) {
    && |trace| == |acts| + 1 && Init(trace[0])
    && forall i :: 0 <= i < |acts| ==> Step(trace[i], acts[i], trace[i + 1])
  }

  // ------------------------------------------------------------------- invariant

  /** The leader of the last term begun. */
  function Current(log: seq<Entry>): Option<LeaderTerm> {
    if log == [] then None
    else if log[|log| - 1].TermBegan? then Some(log[|log| - 1].leader)
    else Current(log[..|log| - 1])
  }

  function TermNumber(current: Option<LeaderTerm>): nat {
    if current.Some? then current.value.term else 0
  }

  /** Each write is by the leader of its moment; each term is one past the last. */
  ghost predicate LogOk(log: seq<Entry>) {
    log != [] ==>
      var before, last := log[..|log| - 1], log[|log| - 1];
      && LogOk(before)
      && (last.Wrote? ==> Current(before) == Some(last.leader))
      && (last.TermBegan? ==> last.leader.term == TermNumber(Current(before)) + 1)
  }

  ghost predicate StagedOk(row: Option<Lease>, call: Call) {
    call.phase.Updated? ==>
      && row.Some? && call.phase.staged.owner == call.me
      && (if row.value.owner == call.me then call.phase.staged.term == row.value.term
          else call.phase.staged.term == row.value.term + 1)
  }

  /** Share and exclusive holders of the row exclude each other, and fenced ones are its leader. */
  ghost predicate RowInv(s: State) {
    && (forall t :: t in s.fenced && s.fenced[t].passed ==> IsToken(s.row, s.fenced[t].leader))
    && (forall t :: t in s.fenced && s.fenced[t].committing ==> s.fenced[t].passed)
    && (forall t, c :: t in s.fenced && s.fenced[t].passed && c in s.calls ==> !s.calls[c].phase.Updated?)
    && (forall c, d :: c in s.calls && d in s.calls && s.calls[c].phase.Updated? && s.calls[d].phase.Updated? ==>
        c == d)
    && (forall c :: c in s.calls ==> StagedOk(s.row, s.calls[c]))
  }

  ghost predicate LogInv(s: State) {
    && LogOk(s.log)
    && Current(s.log) == (if s.row.Some? then Some(TokenOf(s.row.value)) else None)
  }

  /** Deadlines are kept, and a stopped process starts nothing new. */
  ghost predicate TimeInv(s: State) {
    && (forall t :: t in s.fenced ==>
          s.fenced[t].since <= s.now <= s.fenced[t].since + LEADER_TX_BOUND_MS)
    && (forall t :: t in s.fenced && !Alive(s, s.fenced[t].leader.owner) ==>
          s.fenced[t].since <= s.stoppedAt[s.fenced[t].leader.owner] + (if s.fenced[t].busy then 0
              else LEADER_TX_BOUND_MS))
    && (forall p :: p in s.stoppedAt ==> s.stoppedAt[p] <= s.now)
  }

  ghost predicate Inv(s: State) {
    RowInv(s) && LogInv(s) && TimeInv(s)
  }

  predicate OfCall(action: Action) {
    && !action.Tick? && !action.Stop? && !action.SendFence? && !action.Issue?
    && !action.Complete? && !action.Rollback? && !action.Timeout?
  }

  lemma CallKeepsTimers(s: State, action: Action, s': State)
    requires Step(s, action, s') && OfCall(action)
    ensures s'.now == s.now && s'.fenced == s.fenced && s'.stoppedAt == s.stoppedAt
  {
  }

  lemma WriteKeepsRow(s: State, action: Action, s': State)
    requires RowInv(s) && Step(s, action, s') && (action.Insert? || action.CommitUpdate?)
    ensures RowInv(s')
  {
  }

  lemma UpdateKeepsRow(s: State, c: nat, s': State)
    requires RowInv(s) && Step(s, Update(c), s')
    ensures RowInv(s')
  {
  }

  /** The other steps of a call write nothing and hold nothing. */
  ghost predicate OnlyReads(s: State, s': State) {
    && s'.row == s.row && s'.fenced == s.fenced
    && forall d :: d in s'.calls && s'.calls[d].phase.Updated? ==> d in s.calls && s'.calls[d] == s.calls[d]
  }

  lemma CallOnlyReads(s: State, action: Action, s': State)
    requires Step(s, action, s') && OfCall(action)
    requires !action.Insert? && !action.CommitUpdate? && !action.Update?
    ensures OnlyReads(s, s')
  {
  }

  lemma ReadsKeepRow(s: State, s': State)
    requires RowInv(s) && OnlyReads(s, s')
    ensures RowInv(s')
  {
  }

  lemma CallKeepsRow(s: State, action: Action, s': State)
    requires RowInv(s) && Step(s, action, s') && OfCall(action)
    requires !action.Insert? && !action.CommitUpdate? && !action.Update?
    ensures RowInv(s')
  {
    CallOnlyReads(s, action, s');
    ReadsKeepRow(s, s');
  }

  lemma TransactionKeepsRow(s: State, action: Action, s': State)
    requires RowInv(s) && Step(s, action, s') && !OfCall(action)
    ensures RowInv(s')
  {
  }

  lemma TransactionKeepsTime(s: State, action: Action, s': State)
    requires TimeInv(s) && Step(s, action, s') && !OfCall(action) && !action.Issue? && !action.Complete?
    ensures TimeInv(s')
  {
  }

  lemma StatementKeepsTime(s: State, action: Action, s': State)
    requires TimeInv(s) && Step(s, action, s') && (action.Issue? || action.Complete?)
    ensures TimeInv(s')
  {
  }

  lemma Extend(log: seq<Entry>, e: Entry)
    ensures (log + [e])[..|log|] == log && (log + [e])[|log|] == e
  {
  }

  lemma StepKeepsLog(s: State, action: Action, s': State)
    requires RowInv(s) && LogInv(s) && Step(s, action, s')
    ensures LogInv(s')
  {
    match action
    case Complete(t) => Extend(s.log, Wrote(s.fenced[t].leader));
    case Insert(c) => Extend(s.log, TermBegan(LeaderTerm(s.calls[c].me, 1)));
    case CommitUpdate(c) =>
      assert StagedOk(s.row, s.calls[c]);
      Extend(s.log, TermBegan(TokenOf(s.calls[c].phase.staged)));
    case _ =>
  }

  lemma StepKeepsInv(s: State, action: Action, s': State)
    requires Inv(s) && Step(s, action, s')
    ensures Inv(s')
  {
    if OfCall(action) {
      if action.Insert? || action.CommitUpdate? {
        WriteKeepsRow(s, action, s');
      } else if action.Update? {
        UpdateKeepsRow(s, action.c, s');
      } else {
        CallKeepsRow(s, action, s');
      }
      CallKeepsTimers(s, action, s');
    } else {
      TransactionKeepsRow(s, action, s');
      if action.Issue? || action.Complete? {
        StatementKeepsTime(s, action, s');
      } else {
        TransactionKeepsTime(s, action, s');
      }
    }
    StepKeepsLog(s, action, s');
  }

  lemma {:induction false} RunInv(trace: seq<State>, acts: seq<Action>, i: nat)
    requires IsRun(trace, acts) && i < |trace|
    ensures Inv(trace[i])
  {
    if i > 0 {
      RunInv(trace, acts, i - 1);
      StepKeepsInv(trace[i - 1], acts[i - 1], trace[i]);
    }
  }

  // --------------------------------------------------------------------- fencing

  lemma {:induction false} LogPrefix(log: seq<Entry>, i: nat)
    requires LogOk(log) && i < |log|
    ensures LogOk(log[..i])
    ensures log[i].Wrote? ==> Current(log[..i]) == Some(log[i].leader)
    ensures log[i].TermBegan? ==> log[i].leader.term == TermNumber(Current(log[..i])) + 1
    decreases |log|
  {
    if i < |log| - 1 {
      LogPrefix(log[..|log| - 1], i);
      assert log[..|log| - 1][..i] == log[..i];
    }
  }

  /** Terms only move forward, and within a term the leader is the same. */
  lemma {:induction false} CurrentGrows(log: seq<Entry>, i: nat, j: nat)
    requires LogOk(log) && i <= j <= |log|
    ensures TermNumber(Current(log[..i])) <= TermNumber(Current(log[..j]))
    ensures TermNumber(Current(log[..i])) == TermNumber(Current(log[..j])) ==> Current(log[..i]) == Current(log[..j])
    ensures forall m :: i <= m < j && log[m].TermBegan? ==> log[m].leader.term <= TermNumber(Current(log[..j]))
    decreases j
  {
    if i < j {
      CurrentGrows(log, i, j - 1);
      LogPrefix(log, j - 1);
      assert log[..j][..j - 1] == log[..j - 1];
    }
  }

  lemma EntryIsCurrent(log: seq<Entry>, i: nat)
    requires LogOk(log) && i < |log|
    ensures Current(log[..i + 1]) == Some(log[i].leader)
  {
    LogPrefix(log, i);
    assert log[..i + 1][..i] == log[..i];
  }

  /** Fencing: writes commit in term order, none of a term after a later one began, one owner per term. */
  lemma FencedWritesInTermOrder(trace: seq<State>, acts: seq<Action>, n: nat, i: nat, j: nat)
    requires IsRun(trace, acts) && n < |trace| && i < j < |trace[n].log|
    ensures var a, b := trace[n].log[i], trace[n].log[j];
            && a.leader.term <= b.leader.term
            && (b.TermBegan? ==> a.leader.term < b.leader.term)
            && (a.leader.term == b.leader.term ==> a.leader.owner == b.leader.owner)
  {
    RunInv(trace, acts, n);
    var log := trace[n].log;
    EntryIsCurrent(log, i);
    EntryIsCurrent(log, j);
    CurrentGrows(log, i + 1, j + 1);
    if log[j].TermBegan? {
      LogPrefix(log, j);
      CurrentGrows(log, i + 1, j);
    }
  }

  /** A fenced commit lands while its own owner and term hold the row: the token is the one `HeldBy` gives. */
  lemma FencedCommitHoldsTheLease(trace: seq<State>, acts: seq<Action>, i: nat, t: nat)
    requires IsRun(trace, acts) && i + 1 < |trace| && Step(trace[i], Complete(t), trace[i + 1])
    requires trace[i].fenced[t].committing
    ensures trace[i].row.Some? && trace[i + 1].row == trace[i].row
    ensures HeldBy(trace[i].row.value, trace[i].fenced[t].leader.owner) == Some(trace[i].fenced[t].leader)
    ensures trace[i + 1].log == trace[i].log + [Wrote(trace[i].fenced[t].leader)]
  {
    RunInv(trace, acts, i);
  }

  // ------------------------------------------------------------- bounded takeover

  /** A process stopped inside a fenced transaction loses it within one statement bound plus one idle bound. */
  lemma StoppedFenceIsGone(trace: seq<State>, acts: seq<Action>, i: nat, p: Replica, t: nat)
    requires IsRun(trace, acts) && i < |trace| && p in trace[i].stoppedAt
    requires trace[i].now > trace[i].stoppedAt[p] + 2 * LEADER_TX_BOUND_MS
    ensures t in trace[i].fenced ==> trace[i].fenced[t].leader.owner != p
  {
    RunInv(trace, acts, i);
  }

  /** Process `p` is stopped for good: no fenced transaction left, no lease call of its own in flight. */
  ghost predicate Gone(s: State, p: Replica) {
    && p in s.stoppedAt
    && (forall t :: t in s.fenced ==> s.fenced[t].leader.owner != p)
    && (forall c :: c in s.calls && s.calls[c].me == p ==> s.calls[c].phase.Done?)
  }

  lemma TransactionKeepsGone(s: State, action: Action, s': State, p: Replica)
    requires Step(s, action, s') && Gone(s, p) && !OfCall(action)
    ensures Gone(s', p)
  {
  }

  lemma CallKeepsGone(s: State, action: Action, s': State, p: Replica)
    requires Step(s, action, s') && Gone(s, p) && OfCall(action)
    ensures Gone(s', p)
  {
    CallKeepsTimers(s, action, s');
  }

  lemma StepKeepsGone(s: State, action: Action, s': State, p: Replica)
    requires Step(s, action, s') && Gone(s, p)
    ensures Gone(s', p)
  {
    if OfCall(action) {
      CallKeepsGone(s, action, s', p);
    } else {
      TransactionKeepsGone(s, action, s', p);
    }
  }

  /** Once `p` is gone its lease is only ever overwritten by a takeover. */
  lemma StepKeepsLapsed(s: State, action: Action, s': State, p: Replica, lapsed: Lease)
    requires RowInv(s) && Step(s, action, s') && Gone(s, p) && lapsed.owner == p
    requires s.row.Some? && (s.row.value.owner == p ==> s.row.value == lapsed)
    ensures s'.row.Some? && (s'.row.value.owner == p ==> s'.row.value == lapsed && s.row.value.owner == p)
  {
  }

  /** A lease read by a call: what it says of `p` is what the row says, if the row is still `p`'s. */
  predicate SeenOk(row: Lease, seen: Lease, p: Replica, lapsed: Lease) {
    if seen.owner == p then row.owner == p ==> seen == lapsed else row.owner != p
  }

  /** What a peer's call knows, when it started after `p` was gone and `lapsed` had expired. */
  predicate CallPast(row: Lease, call: Call, p: Replica, lapsed: Lease) {
    && call.me != p && !call.phase.Inserting?
    && (call.tries > 0 ==> row.owner != p)
    && (call.phase.Found? || call.phase.Trying? ==> SeenOk(row, call.phase.seen, p, lapsed))
    && (call.phase.Done? && !call.phase.timedOut ==> call.phase.result.owner != p)
  }

  ghost predicate PastExpiry(s: State, p: Replica, lapsed: Lease, c: nat) {
    && Gone(s, p) && lapsed.owner == p && Expired(lapsed, s.now)
    && s.row.Some? && (s.row.value.owner == p ==> s.row.value == lapsed)
    && c in s.calls && CallPast(s.row.value, s.calls[c], p, lapsed)
    && (s.calls[c].phase.Trying? && s.calls[c].phase.seen.owner == p ==> Expired(lapsed, s.calls[c].phase.start))
  }

  lemma StepKeepsPastExpiry(s: State, action: Action, s': State, p: Replica, lapsed: Lease, c: nat)
    requires RowInv(s) && Step(s, action, s') && PastExpiry(s, p, lapsed, c) && c in s'.calls
    ensures PastExpiry(s', p, lapsed, c)
  {
    StepKeepsGone(s, action, s', p);
    StepKeepsLapsed(s, action, s', p, lapsed);
  }

  /** Call `c` is a peer's, made from state `i` on: `p` is gone and its lease expired by then. */
  ghost predicate CallsPast(trace: seq<State>, acts: seq<Action>, i: nat, j: nat, p: Replica, c: nat) {
    && IsRun(trace, acts) && i <= j < |trace| && (forall m :: i <= m <= j ==> c in trace[m].calls)
    && Gone(trace[i], p) && trace[i].row.Some? && trace[i].row.value.owner == p
    && trace[i].row.value.expiresAt < trace[i].now
    && trace[i].calls[c].me != p && trace[i].calls[c].phase.Reading? && trace[i].calls[c].tries == 0
  }

  lemma {:induction false} PastExpiryPersists(trace: seq<State>, acts: seq<Action>, i: nat, j: nat, p: Replica, c: nat)
    requires CallsPast(trace, acts, i, j, p, c)
    ensures PastExpiry(trace[j], p, trace[i].row.value, c)
    decreases j
  {
    if i < j {
      var m := j - 1;
      PastExpiryPersists(trace, acts, i, m, p, c);
      RunKeepsPastExpiry(trace, acts, m, p, trace[i].row.value, c);
    }
  }

  lemma RunKeepsPastExpiry(trace: seq<State>, acts: seq<Action>, m: nat, p: Replica, lapsed: Lease, c: nat)
    requires IsRun(trace, acts) && m + 1 < |trace| && PastExpiry(trace[m], p, lapsed, c) && c in trace[m + 1].calls
    ensures PastExpiry(trace[m + 1], p, lapsed, c)
  {
    RunInv(trace, acts, m);
    StepKeepsPastExpiry(trace[m], acts[m], trace[m + 1], p, lapsed, c);
  }

  // ----------------------------------------------------- when no peer is taking over too

  /** No call but `c` holds the row. */
  ghost predicate NoPeerUpdates(s: State, c: nat) {
    forall d :: d in s.calls && d != c ==> !s.calls[d].phase.Updated?
  }

  /** The row stays the stopped holder's until call `c` itself has taken it. */
  ghost predicate OnlyTaker(s: State, lapsed: Lease, c: nat) {
    && c in s.calls
    && (if s.calls[c].phase.Done? then s.calls[c].phase.result.owner != lapsed.owner
        else s.row == Some(lapsed) && s.calls[c].tries == 0)
    && (s.calls[c].phase.Found? || s.calls[c].phase.Trying? ==> s.calls[c].phase.seen == lapsed)
  }

  /** With `p` gone, no fenced transaction holds `p`'s row. */
  lemma NotHeld(s: State, p: Replica, c: nat)
    requires RowInv(s) && Gone(s, p) && s.row.Some? && s.row.value.owner == p && NoPeerUpdates(s, c)
    ensures !RowHeld(s, c)
  {
  }

  lemma OthersKeepTaker(s: State, action: Action, s': State, p: Replica, lapsed: Lease, c: nat)
    requires RowInv(s) && Step(s, action, s') && PastExpiry(s, p, lapsed, c) && NoPeerUpdates(s, c)
    requires OnlyTaker(s, lapsed, c) && c in s'.calls && s'.calls[c] == s.calls[c]
    ensures OnlyTaker(s', lapsed, c)
  {
  }

  lemma StepKeepsTaker(s: State, action: Action, s': State, p: Replica, lapsed: Lease, c: nat)
    requires RowInv(s) && Step(s, action, s') && PastExpiry(s, p, lapsed, c) && NoPeerUpdates(s, c)
    requires OnlyTaker(s, lapsed, c) && c in s'.calls
    ensures OnlyTaker(s', lapsed, c)
  {
    if s'.calls[c] == s.calls[c] {
      OthersKeepTaker(s, action, s', p, lapsed, c);
    } else {
      NotHeld(s, p, c);
    }
  }

  lemma {:induction false} TakerPersists(trace: seq<State>, acts: seq<Action>, i: nat, j: nat, p: Replica, c: nat)
    requires CallsPast(trace, acts, i, j, p, c) && forall m :: i <= m < j ==> NoPeerUpdates(trace[m], c)
    ensures OnlyTaker(trace[j], trace[i].row.value, c)
    decreases j
  {
    if i < j {
      var m := j - 1;
      TakerPersists(trace, acts, i, m, p, c);
      PastExpiryPersists(trace, acts, i, m, p, c);
      RunKeepsTaker(trace, acts, m, p, trace[i].row.value, c);
    }
  }

  lemma RunKeepsTaker(trace: seq<State>, acts: seq<Action>, m: nat, p: Replica, lapsed: Lease, c: nat)
    requires IsRun(trace, acts) && m + 1 < |trace| && PastExpiry(trace[m], p, lapsed, c) && c in trace[m + 1].calls
    requires NoPeerUpdates(trace[m], c) && OnlyTaker(trace[m], lapsed, c)
    ensures OnlyTaker(trace[m + 1], lapsed, c)
  {
    RunInv(trace, acts, m);
    StepKeepsTaker(trace[m], acts[m], trace[m + 1], p, lapsed, c);
  }

  /** Takeover: past the lease's expiry, with the stopped holder gone and no other call holding the row, a
      peer's call that finishes reports a holder other than the stopped one. */
  lemma LaterCallReportsAnother(trace: seq<State>, acts: seq<Action>, i: nat, j: nat, p: Replica, c: nat)
    requires CallsPast(trace, acts, i, j, p, c) && forall m :: i <= m < j ==> NoPeerUpdates(trace[m], c)
    ensures trace[j].calls[c].phase.Done? ==> trace[j].calls[c].phase.result.owner != p
  {
    TakerPersists(trace, acts, i, j, p, c);
  }

  /** Nor can it be blocked: whenever such a call comes to its update, the update is granted at once and takes
      the next term. */
  lemma TakeoverIsGranted(trace: seq<State>, acts: seq<Action>, i: nat, j: nat, p: Replica, c: nat)
    requires CallsPast(trace, acts, i, j, p, c) && forall m :: i <= m <= j ==> NoPeerUpdates(trace[m], c)
    requires trace[j].calls[c].phase.Trying?
    ensures exists s' :: Step(trace[j], Update(c), s') && s'.calls[c].phase.Updated?
              && s'.calls[c].phase.staged.owner == trace[j].calls[c].me
              && s'.calls[c].phase.staged.term == trace[i].row.value.term + 1
  {
    TakerPersists(trace, acts, i, j, p, c);
    PastExpiryPersists(trace, acts, i, j, p, c);
    RunInv(trace, acts, j);
    var s, lapsed := trace[j], trace[i].row.value;
    var call := s.calls[c];
    NotHeld(s, p, c);
    var s' := s.(calls := s.calls[c := call.(phase := Updated(Renewed(lapsed, call.me, call.phase.start, call.ttl)))]);
    assert Step(s, Update(c), s');
  }

  // -------------------------------------------------------- once another has the lease

  /** The row has passed from `p` to another, and call `c` knows of no lease of `p`. */
  ghost predicate Passed(s: State, p: Replica, c: nat) {
    && Gone(s, p) && s.row.Some? && s.row.value.owner != p && c in s.calls && s.calls[c].me != p
    && (s.calls[c].phase.Found? || s.calls[c].phase.Trying? ==> s.calls[c].phase.seen.owner != p)
    && (s.calls[c].phase.Done? ==> s.calls[c].phase.result.owner != p)
  }

  lemma RowStaysPassed(s: State, action: Action, s': State, p: Replica)
    requires RowInv(s) && Step(s, action, s') && Gone(s, p) && s.row.Some? && s.row.value.owner != p
    ensures s'.row.Some? && s'.row.value.owner != p
  {
  }

  lemma StepKeepsPassed(s: State, action: Action, s': State, p: Replica, c: nat)
    requires RowInv(s) && Step(s, action, s') && Passed(s, p, c) && c in s'.calls
    ensures Passed(s', p, c)
  {
    StepKeepsGone(s, action, s', p);
    RowStaysPassed(s, action, s', p);
  }

  /** A peer's call made after that reports another holder, whatever else happens. */
  lemma {:induction false} PassedForGood(trace: seq<State>, acts: seq<Action>, i: nat, j: nat, p: Replica, c: nat)
    requires IsRun(trace, acts) && i <= j < |trace| && (forall m :: i <= m <= j ==> c in trace[m].calls)
    requires Gone(trace[i], p) && trace[i].row.Some? && trace[i].row.value.owner != p
    requires trace[i].calls[c].me != p && trace[i].calls[c].phase.Reading?
    ensures Passed(trace[j], p, c)
    ensures trace[j].calls[c].phase.Done? ==> trace[j].calls[c].phase.result.owner != p
    decreases j
  {
    if i < j {
      var m := j - 1;
      PassedForGood(trace, acts, i, m, p, c);
      RunInv(trace, acts, m);
      StepKeepsPassed(trace[m], acts[m], trace[m + 1], p, c);
    }
  }

  // ---------------------------------------------------------------- exactly when it fails

  /** At step `m` the lock wait of call `c` ran out, while it tried to take over the lease of `p`. */
  ghost predicate WaitRanOut(trace: seq<State>, acts: seq<Action>, m: nat, p: Replica, c: nat)
    requires m < |acts| && m < |trace|
  {
    && acts[m] == LockTimeout(c) && c in trace[m].calls && trace[m].calls[c].phase.Trying?
    && trace[m].calls[c].phase.seen.owner == p
  }

  lemma DoneStays(s: State, action: Action, s': State, c: nat)
    requires Step(s, action, s') && c in s.calls && c in s'.calls && s.calls[c].phase.Done?
    ensures s'.calls[c] == s.calls[c]
  {
  }

  lemma DoneStaysAt(trace: seq<State>, acts: seq<Action>, n: nat, c: nat)
    requires IsRun(trace, acts) && n + 1 < |trace| && c in trace[n].calls && c in trace[n + 1].calls
    requires trace[n].calls[c].phase.Done?
    ensures trace[n + 1].calls[c] == trace[n].calls[c]
  {
    DoneStays(trace[n], acts[n], trace[n + 1], c);
  }

  lemma OnlyTimeoutsTimeOut(s: State, action: Action, s': State, c: nat)
    requires Step(s, action, s') && c in s.calls && c in s'.calls && !s.calls[c].phase.Done?
    requires s'.calls[c].phase.Done? && s'.calls[c].phase.timedOut
    ensures action == LockTimeout(c) && s'.calls[c].phase.result == s.calls[c].phase.seen
  {
  }

  /** The step at which the call finished. */
  lemma {:induction false} Finishes(trace: seq<State>, acts: seq<Action>, i: nat, j: nat, p: Replica, c: nat)
    returns (m: nat)
    requires CallsPast(trace, acts, i, j, p, c) && trace[j].calls[c].phase.Done?
    ensures i <= m < j && !trace[m].calls[c].phase.Done? && trace[m + 1].calls[c] == trace[j].calls[c]
    decreases j
  {
    if trace[j - 1].calls[c].phase.Done? {
      var n := j - 1;
      m := Finishes(trace, acts, i, n, p, c);
      DoneStaysAt(trace, acts, n, c);
    } else {
      m := j - 1;
    }
  }

  /** A finished call reports the stopped holder iff its lock wait ran out on that holder's lease, ... */
  lemma ReportsStoppedIffWaitRanOut(trace: seq<State>, acts: seq<Action>, i: nat, j: nat, p: Replica, c: nat)
    requires CallsPast(trace, acts, i, j, p, c) && trace[j].calls[c].phase.Done?
    ensures trace[j].calls[c].phase.result.owner == p <==> exists m :: i <= m < j && WaitRanOut(trace, acts, m, p, c)
  {
    if trace[j].calls[c].phase.result.owner == p {
      PastExpiryPersists(trace, acts, i, j, p, c);
      var m := Finishes(trace, acts, i, j, p, c);
      OnlyTimeoutsTimeOut(trace[m], acts[m], trace[m + 1], c);
      assert WaitRanOut(trace, acts, m, p, c);
    }
    if m :| i <= m < j && WaitRanOut(trace, acts, m, p, c) {
      DoneUntil(trace, acts, m + 1, j, c);
    }
  }

  lemma {:induction false} DoneUntil(trace: seq<State>, acts: seq<Action>, m: nat, j: nat, c: nat)
    requires IsRun(trace, acts) && m <= j < |trace| && (forall n :: m <= n <= j ==> c in trace[n].calls)
    requires trace[m].calls[c].phase.Done?
    ensures trace[j].calls[c] == trace[m].calls[c]
    decreases j
  {
    if m < j {
      var n := j - 1;
      DoneUntil(trace, acts, m, n, c);
      DoneStaysAt(trace, acts, n, c);
    }
  }

  /** ... and then another peer's update of the row was in flight while the call ran. */
  lemma WaitRanOutBehindPeer(trace: seq<State>, acts: seq<Action>, i: nat, j: nat, p: Replica, c: nat)
    requires CallsPast(trace, acts, i, j, p, c) && trace[j].calls[c].phase.Done?
        && trace[j].calls[c].phase.result.owner == p
    ensures exists m, d :: i <= m < j && d in trace[m].calls && d != c
              && trace[m].calls[d].me != p && trace[m].calls[d].phase.Updated?
  {
    if forall m :: i <= m < j ==> NoPeerUpdates(trace[m], c) {
      LaterCallReportsAnother(trace, acts, i, j, p, c);
    }
    var m :| i <= m < j && !NoPeerUpdates(trace[m], c);
    var d :| d in trace[m].calls && d != c && trace[m].calls[d].phase.Updated?;
    PastExpiryPersists(trace, acts, i, m, p, c);
    assert Gone(trace[m], p);
  }

  // ------------------------------------------------------------------ a run in which it fails

  lemma Extends(trace: seq<State>, acts: seq<Action>, action: Action, s': State)
    requires IsRun(trace, acts) && Step(trace[|trace| - 1], action, s')
    ensures IsRun(trace + [s'], acts + [action])
  {
  }

  function Calling(me: Replica, ttl: nat, phase: CallPhase): Call {
    Call(me, ttl, 0, phase)
  }

  /** Replica `a` took the first term and stopped; its lease and every bound have run out. */
  function Stopped(a: Replica, ttl: nat, now: int, calls: map<nat, Call>): State {
    State(now, Some(Lease(a, ttl, 1)), map[], calls[0 := Calling(a, ttl, Done(Lease(a, ttl, 1), false))],
          map[a := 0], [TermBegan(LeaderTerm(a, 1))])
  }

  function TimeOut(ttl: nat): int {
    ttl + 2 * LEADER_TX_BOUND_MS + 1
  }

  lemma StopsHolding(a: Replica, ttl: nat) returns (trace: seq<State>, acts: seq<Action>)
    ensures IsRun(trace, acts) && trace[|trace| - 1] == Stopped(a, ttl, TimeOut(ttl), map[])
  {
    var s0 := State(0, None, map[], map[], map[], []);
    var s1 := s0.(calls := map[0 := Calling(a, ttl, Reading)]);
    var s2 := s0.(calls := map[0 := Calling(a, ttl, Inserting)]);
    var s3 := Stopped(a, ttl, 0, map[]).(stoppedAt := map[]);
    trace, acts := [s0], [];
    Extends(trace, acts, StartCall(0, a, ttl), s1);
    trace, acts := trace + [s1], acts + [StartCall(0, a, ttl)];
    Extends(trace, acts, Read(0), s2);
    trace, acts := trace + [s2], acts + [Read(0)];
    Extends(trace, acts, Insert(0), s3);
    trace, acts := trace + [s3], acts + [Insert(0)];
    Extends(trace, acts, Stop(a), Stopped(a, ttl, 0, map[]));
    trace, acts := trace + [Stopped(a, ttl, 0, map[])], acts + [Stop(a)];
    Extends(trace, acts, Tick(TimeOut(ttl)), Stopped(a, ttl, TimeOut(ttl), map[]));
    trace, acts := trace + [Stopped(a, ttl, TimeOut(ttl), map[])], acts + [Tick(TimeOut(ttl))];
  }

  /** The state in which call 2, of `c`, is about to take over and call 1, of `b`, stands in `phase`. */
  function Racing(a: Replica, b: Replica, c: Replica, ttl: nat, phase: CallPhase): State {
    Stopped(a, ttl, TimeOut(ttl),
            map[2 := Calling(c, ttl, Trying(Lease(a, ttl, 1), TimeOut(ttl))), 1 := Calling(b, ttl, phase)])
  }

  lemma RivalReads(a: Replica, c: Replica, ttl: nat) returns (trace: seq<State>, acts: seq<Action>)
    requires a != c
    ensures IsRun(trace, acts)
    ensures trace[|trace| - 1] == Stopped(a, ttl, TimeOut(ttl), map[2 := Calling(c, ttl, Found(Lease(a, ttl, 1)))])
  {
    var now, lapsed := TimeOut(ttl), Lease(a, ttl, 1);
    trace, acts := StopsHolding(a, ttl);
    var s1 := Stopped(a, ttl, now, map[2 := Calling(c, ttl, Reading)]);
    var s2 := Stopped(a, ttl, now, map[2 := Calling(c, ttl, Found(lapsed))]);
    Extends(trace, acts, StartCall(2, c, ttl), s1);
    trace, acts := trace + [s1], acts + [StartCall(2, c, ttl)];
    Extends(trace, acts, Read(2), s2);
    trace, acts := trace + [s2], acts + [Read(2)];
  }

  lemma RivalStarts(a: Replica, b: Replica, c: Replica, ttl: nat) returns (trace: seq<State>, acts: seq<Action>)
    requires a != b && a != c
    ensures IsRun(trace, acts) && trace[|trace| - 1] == Racing(a, b, c, ttl, Reading)
  {
    var now, lapsed := TimeOut(ttl), Lease(a, ttl, 1);
    trace, acts := RivalReads(a, c, ttl);
    var s3 := Stopped(a, ttl, now, map[2 := Calling(c, ttl, Trying(lapsed, now))]);
    Extends(trace, acts, Open(2), s3);
    trace, acts := trace + [s3], acts + [Open(2)];
    Extends(trace, acts, StartCall(1, b, ttl), Racing(a, b, c, ttl, Reading));
    trace, acts := trace + [Racing(a, b, c, ttl, Reading)], acts + [StartCall(1, b, ttl)];
  }

  /** From there: call 1 finds the lapsed lease and tries, call 2 updates, and the wait of call 1 runs out. */
  function RaceState(a: Replica, b: Replica, c: Replica, ttl: nat, n: nat): State {
    var now, lapsed := TimeOut(ttl), Lease(a, ttl, 1);
    if n == 0 then Racing(a, b, c, ttl, Reading)
    else if n == 1 then Racing(a, b, c, ttl, Found(lapsed))
    else
      var s := Racing(a, b, c, ttl, Trying(lapsed, now));
      var updated := s.(calls := s.calls[2 := Calling(c, ttl, Updated(Lease(c, now + ttl, 2)))]);
      if n == 2 then s
      else if n == 3 then updated
      else if n == 4 then updated.(now := now + TAKEOVER_WAIT_MS)
      else updated.(now := now + TAKEOVER_WAIT_MS, calls := updated.calls[1 := Calling(b, ttl, Done(lapsed, true))])
  }

  const RaceActs: seq<Action> := [Read(1), Open(1), Update(2), Tick(TAKEOVER_WAIT_MS), LockTimeout(1)]

  lemma RaceTries(a: Replica, b: Replica, c: Replica, ttl: nat, n: nat)
    requires a != b && a != c && n < 3
    ensures Step(RaceState(a, b, c, ttl, n), RaceActs[n], RaceState(a, b, c, ttl, n + 1))
  {
  }

  lemma RaceEnds(a: Replica, b: Replica, c: Replica, ttl: nat, n: nat)
    requires a != b && a != c && 3 <= n < 5
    ensures Step(RaceState(a, b, c, ttl, n), RaceActs[n], RaceState(a, b, c, ttl, n + 1))
  {
    assert RaceState(a, b, c, ttl, n).calls[2].phase.Updated?;
  }

  lemma RaceSteps(a: Replica, b: Replica, c: Replica, ttl: nat, n: nat)
    requires a != b && a != c && n < 5
    ensures Step(RaceState(a, b, c, ttl, n), RaceActs[n], RaceState(a, b, c, ttl, n + 1))
  {
    if n < 3 {
      RaceTries(a, b, c, ttl, n);
    } else {
      RaceEnds(a, b, c, ttl, n);
    }
  }

  /** Without the condition the claim is false, for any two peers of the stopped holder: a call waiting behind
      another's takeover reports it. */
  lemma StoppedHolderCanBeReported(a: Replica, b: Replica, c: Replica, ttl: nat)
    returns (trace: seq<State>, acts: seq<Action>, i: nat, j: nat)
    requires a != b && a != c
    ensures CallsPast(trace, acts, i, j, a, 1)
    ensures a in trace[i].stoppedAt && trace[i].now > trace[i].stoppedAt[a] + 2 * LEADER_TX_BOUND_MS
    ensures trace[j].calls[1].phase.Done? && trace[j].calls[1].phase.result.owner == a
  {
    trace, acts := RivalStarts(a, b, c, ttl);
    i, j := |trace| - 1, |trace| - 1;
    while j < i + 5
      invariant i <= j <= i + 5 && IsRun(trace, acts) && |trace| == j + 1
      invariant forall m :: i <= m <= j ==> trace[m] == RaceState(a, b, c, ttl, m - i)
    {
      RaceSteps(a, b, c, ttl, j - i);
      var s' := RaceState(a, b, c, ttl, j - i + 1);
      Extends(trace, acts, RaceActs[j - i], s');
      trace, acts, j := trace + [s'], acts + [RaceActs[j - i]], j + 1;
    }
  }
}
