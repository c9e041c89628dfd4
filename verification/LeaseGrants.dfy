/** How long a granted lease lasts, over every run: from a step of the call that was granted it, for that call's ttl. */
module LeaseGrants {
  import opened Options
  import opened Leadership

  /** Call `c` is the same call, of the same caller and ttl, from state `o` to state `j`. */
  ghost predicate SameCall(trace: seq<State>, o: nat, j: nat, c: nat) {
    && o <= j < |trace|
    && (forall m :: o <= m <= j ==> c in trace[m].calls)
    && forall m :: o <= m <= j ==>
         trace[m].calls[c].me == trace[j].calls[c].me && trace[m].calls[c].ttl == trace[j].calls[c].ttl
  }

  /** Step `o` of call `c`, as it stands at state `j`, opened the transaction of its update. */
  ghost predicate OpenedAt(trace: seq<State>, acts: seq<Action>, o: nat, j: nat, c: nat) {
    o < j && o < |acts| && acts[o] == Open(c) && SameCall(trace, o, j, c)
  }

  /** `lease` is the caller's, and lasts the call's ttl from its own step `o`, which opened its update or inserted
      the row. */
  ghost predicate GrantedBy(trace: seq<State>, acts: seq<Action>, o: nat, j: nat, c: nat, lease: Lease) {
    && o < j && o < |acts| && (acts[o] == Open(c) || acts[o] == Insert(c)) && SameCall(trace, o, j, c)
    && lease.owner == trace[j].calls[c].me && lease.expiresAt == trace[o].now + trace[j].calls[c].ttl
  }

  /** Step `m` of call `c` wrote `lease` to the row. */
  ghost predicate WrittenAt(trace: seq<State>, acts: seq<Action>, m: nat, c: nat, lease: Lease) {
    && m < |acts| && m + 1 < |trace| && (acts[m] == CommitUpdate(c) || acts[m] == Insert(c))
    && trace[m + 1].row == Some(lease)
  }

  /** The call was granted `lease`, which it then wrote. */
  ghost predicate Granted(trace: seq<State>, acts: seq<Action>, o: nat, m: nat, j: nat, c: nat, lease: Lease) {
    o <= m < j && GrantedBy(trace, acts, o, j, c, lease) && WrittenAt(trace, acts, m, c, lease)
  }

  /** The update that call `c` has ready was opened at `o`, past the expiry of any other owner's lease. */
  ghost predicate Ready(trace: seq<State>, acts: seq<Action>, o: nat, j: nat, c: nat, staged: Lease) {
    && OpenedAt(trace, acts, o, j, c) && GrantedBy(trace, acts, o, j, c, staged)
    && trace[j].row.Some?
    && var row := trace[j].row.value;
    && (row.owner != staged.owner ==> row.expiresAt < trace[o].now && staged.term == row.term + 1)
    && (row.owner == staged.owner ==> staged.term == row.term)
  }

  /** What the past says of a call in each phase. */
  ghost predicate CallOk(trace: seq<State>, acts: seq<Action>, j: nat, c: nat)
    requires j < |trace| && c in trace[j].calls
  {
    var call := trace[j].calls[c];
    && (call.phase.Trying? ==> exists o: nat :: OpenedAt(trace, acts, o, j, c) && trace[o].now == call.phase.start)
    && (call.phase.Updated? ==> exists o: nat :: Ready(trace, acts, o, j, c, call.phase.staged))
    && (call.phase.Done? && !call.phase.timedOut && call.phase.result.owner == call.me && call.tries < 3 ==>
        exists o: nat, m: nat :: Granted(trace, acts, o, m, j, c, call.phase.result))
  }

  lemma SameNext(trace: seq<State>, acts: seq<Action>, o: nat, n: nat, c: nat)
    requires IsRun(trace, acts) && n < |acts| && SameCall(trace, o, n, c) && c in trace[n + 1].calls
    ensures SameCall(trace, o, n + 1, c)
  {
    assert Step(trace[n], acts[n], trace[n + 1]);
    CallerStays(trace[n], acts[n], trace[n + 1], c);
  }

  lemma CallerStays(s: State, action: Action, s': State, c: nat)
    requires Step(s, action, s') && c in s.calls && c in s'.calls
    ensures s'.calls[c].me == s.calls[c].me && s'.calls[c].ttl == s.calls[c].ttl
  {
  }

  /** A call that the step leaves alone. */
  lemma QuietCall(trace: seq<State>, acts: seq<Action>, n: nat, c: nat)
    requires IsRun(trace, acts) && n < |acts| && c in trace[n].calls && CallOk(trace, acts, n, c)
    requires c in trace[n + 1].calls && trace[n + 1].calls[c] == trace[n].calls[c]
    ensures CallOk(trace, acts, n + 1, c)
  {
    var call := trace[n].calls[c];
    if call.phase.Trying? {
      var o: nat :| OpenedAt(trace, acts, o, n, c) && trace[o].now == call.phase.start;
      SameNext(trace, acts, o, n, c);
      assert OpenedAt(trace, acts, o, n + 1, c);
    } else if call.phase.Updated? {
      var o: nat :| Ready(trace, acts, o, n, c, call.phase.staged);
      SameNext(trace, acts, o, n, c);
      RunInv(trace, acts, n);
      HeldRowStays(trace[n], acts[n], trace[n + 1], c);
      assert Ready(trace, acts, o, n + 1, c, call.phase.staged);
    } else if call.phase.Done? && !call.phase.timedOut && call.phase.result.owner == call.me && call.tries < 3 {
      var o: nat, m: nat :| Granted(trace, acts, o, m, n, c, call.phase.result);
      SameNext(trace, acts, o, n, c);
      assert Granted(trace, acts, o, m, n + 1, c, call.phase.result);
    }
  }

  /** While a call holds the row exclusively, nobody else writes it. */
  lemma HeldRowStays(s: State, action: Action, s': State, c: nat)
    requires RowInv(s) && Step(s, action, s') && c in s.calls && s.calls[c].phase.Updated?
    requires c in s'.calls && s'.calls[c] == s.calls[c]
    ensures s'.row == s.row
  {
  }

  lemma OpenedNow(trace: seq<State>, acts: seq<Action>, n: nat, c: nat)
    requires IsRun(trace, acts) && n < |acts| && acts[n] == Open(c) && c in trace[n + 1].calls
    ensures CallOk(trace, acts, n + 1, c)
  {
    assert Step(trace[n], acts[n], trace[n + 1]);
    assert SameCall(trace, n, n + 1, c);
    assert OpenedAt(trace, acts, n, n + 1, c);
  }

  lemma InsertedNow(trace: seq<State>, acts: seq<Action>, n: nat, c: nat)
    requires IsRun(trace, acts) && n < |acts| && acts[n] == Insert(c) && c in trace[n + 1].calls
    ensures CallOk(trace, acts, n + 1, c)
  {
    assert Step(trace[n], acts[n], trace[n + 1]);
    assert SameCall(trace, n, n + 1, c);
    var call := trace[n + 1].calls[c];
    assert call.phase.Done? ==> Granted(trace, acts, n, n, n + 1, c, call.phase.result);
  }

  lemma UpdatedNow(trace: seq<State>, acts: seq<Action>, n: nat, c: nat)
    requires IsRun(trace, acts) && n < |acts| && acts[n] == Update(c) && c in trace[n + 1].calls
    requires c in trace[n].calls && CallOk(trace, acts, n, c)
    ensures CallOk(trace, acts, n + 1, c)
  {
    assert Step(trace[n], acts[n], trace[n + 1]);
    var o: nat :| OpenedAt(trace, acts, o, n, c) && trace[o].now == trace[n].calls[c].phase.start;
    SameNext(trace, acts, o, n, c);
    var call := trace[n + 1].calls[c];
    assert call.phase.Updated? ==> Ready(trace, acts, o, n + 1, c, call.phase.staged);
  }

  lemma CommittedNow(trace: seq<State>, acts: seq<Action>, n: nat, c: nat)
    requires IsRun(trace, acts) && n < |acts| && acts[n] == CommitUpdate(c) && c in trace[n + 1].calls
    requires c in trace[n].calls && CallOk(trace, acts, n, c)
    ensures CallOk(trace, acts, n + 1, c)
  {
    assert Step(trace[n], acts[n], trace[n + 1]);
    var o: nat :| Ready(trace, acts, o, n, c, trace[n].calls[c].phase.staged);
    SameNext(trace, acts, o, n, c);
    assert Granted(trace, acts, o, n, n + 1, c, trace[n].calls[c].phase.staged);
  }

  lemma OtherNow(s: State, action: Action, s': State, c: nat)
    requires Step(s, action, s') && c in s'.calls && (c in s.calls ==> s'.calls[c] != s.calls[c])
    requires action != Open(c) && action != Insert(c) && action != Update(c) && action != CommitUpdate(c)
    ensures var call := s'.calls[c];
            && !call.phase.Trying? && !call.phase.Updated?
            && (call.phase.Done? && !call.phase.timedOut ==> call.phase.result.owner != call.me || call.tries >= 3)
  {
  }

  lemma CallNext(trace: seq<State>, acts: seq<Action>, n: nat, c: nat)
    requires IsRun(trace, acts) && n < |acts| && c in trace[n + 1].calls
    requires c in trace[n].calls ==> CallOk(trace, acts, n, c)
    ensures CallOk(trace, acts, n + 1, c)
  {
    assert Step(trace[n], acts[n], trace[n + 1]);
    if c in trace[n].calls && trace[n + 1].calls[c] == trace[n].calls[c] {
      QuietCall(trace, acts, n, c);
    } else if acts[n] == Open(c) {
      OpenedNow(trace, acts, n, c);
    } else if acts[n] == Insert(c) {
      InsertedNow(trace, acts, n, c);
    } else if acts[n] == Update(c) {
      UpdatedNow(trace, acts, n, c);
    } else if acts[n] == CommitUpdate(c) {
      CommittedNow(trace, acts, n, c);
    } else {
      OtherNow(trace[n], acts[n], trace[n + 1], c);
    }
  }

  lemma {:induction false} CallsOk(trace: seq<State>, acts: seq<Action>, j: nat, c: nat)
    requires IsRun(trace, acts) && j < |trace| && c in trace[j].calls
    ensures CallOk(trace, acts, j, c)
    decreases j
  {
    if j > 0 {
      var n := j - 1;
      if c in trace[n].calls {
        CallsOk(trace, acts, n, c);
      }
      CallNext(trace, acts, n, c);
    }
  }

  /** A call that reports its own caller was granted a lease that lasts its ttl from one of its own steps, and wrote
      it to the row; only a call that lost three races reports the row as it finds it. */
  lemma GrantLastsTtl(trace: seq<State>, acts: seq<Action>, j: nat, c: nat)
    requires IsRun(trace, acts) && j < |trace| && c in trace[j].calls
    requires trace[j].calls[c].phase.Done? && !trace[j].calls[c].phase.timedOut
    requires trace[j].calls[c].phase.result.owner == trace[j].calls[c].me && trace[j].calls[c].tries < 3
    ensures exists o: nat, m: nat :: Granted(trace, acts, o, m, j, c, trace[j].calls[c].phase.result)
  {
    CallsOk(trace, acts, j, c);
  }

  /** The row changes only to a lease so granted: a renewal keeps the term, and a takeover begins the next one, by an
      update opened after the lease it replaces had expired. */
  lemma RowChanges(trace: seq<State>, acts: seq<Action>, n: nat)
    requires IsRun(trace, acts) && n < |acts| && trace[n + 1].row != trace[n].row
    ensures trace[n + 1].row.Some? && (acts[n].Insert? || acts[n].CommitUpdate?)
    ensures exists o: nat :: o <= n && GrantedBy(trace, acts, o, n + 1, acts[n].c, trace[n + 1].row.value)
                        && (trace[n].row.Some? ==> Succeeds(trace[n].row.value, trace[n + 1].row.value, trace[o].now))
    ensures trace[n].row.None? ==> trace[n + 1].row.value.term == 1
  {
    assert Step(trace[n], acts[n], trace[n + 1]);
    var c := acts[n].c;
    if acts[n].Insert? {
      assert SameCall(trace, n, n + 1, c);
      assert GrantedBy(trace, acts, n, n + 1, c, trace[n + 1].row.value);
    } else {
      CallsOk(trace, acts, n, c);
      var o: nat :| Ready(trace, acts, o, n, c, trace[n].calls[c].phase.staged);
      SameNext(trace, acts, o, n, c);
      assert GrantedBy(trace, acts, o, n + 1, c, trace[n + 1].row.value);
    }
  }

  /** `next` may follow `row` by an update opened at `start`. */
  predicate Succeeds(row: Lease, next: Lease, start: int) {
    if next.owner == row.owner then next.term == row.term else next.term == row.term + 1 && row.expiresAt < start
  }

  /** Terms begin only when the lease passes to another owner, and then the one it replaces has expired. */
  lemma TermBeginsAfterExpiry(trace: seq<State>, acts: seq<Action>, n: nat, leader: LeaderTerm)
    requires IsRun(trace, acts) && n < |acts| && trace[n + 1].log == trace[n].log + [TermBegan(leader)]
    requires trace[n].row.Some?
    ensures leader.owner != trace[n].row.value.owner && acts[n].CommitUpdate?
    ensures exists o: nat :: OpenedAt(trace, acts, o, n + 1, acts[n].c) && trace[n].row.value.expiresAt < trace[o].now
  {
    assert Step(trace[n], acts[n], trace[n + 1]);
    assert trace[n + 1].log[|trace[n].log|] == TermBegan(leader);
    var c := acts[n].c;
    CallsOk(trace, acts, n, c);
    var o: nat :| Ready(trace, acts, o, n, c, trace[n].calls[c].phase.staged);
    SameNext(trace, acts, o, n, c);
    assert OpenedAt(trace, acts, o, n + 1, c);
  }

  lemma {:induction false} TimeGoesOn(trace: seq<State>, acts: seq<Action>, i: nat, j: nat)
    requires IsRun(trace, acts) && i <= j < |trace|
    ensures trace[i].now <= trace[j].now
    decreases j
  {
    if i < j {
      var n := j - 1;
      TimeGoesOn(trace, acts, i, n);
      assert Step(trace[n], acts[n], trace[n + 1]);
    }
  }

  /** A lease in the row stands until it has expired, unless its own owner renews it. */
  lemma {:induction false} LeaseStands(trace: seq<State>, acts: seq<Action>, i: nat, j: nat, lease: Lease)
    requires IsRun(trace, acts) && i <= j < |trace| && trace[i].row == Some(lease) && trace[j].now <= lease.expiresAt
    requires forall n, c :: i <= n < j && acts[n] == CommitUpdate(c) && c in trace[n].calls ==>
               trace[n].calls[c].me != lease.owner
    ensures trace[j].row == Some(lease)
    decreases j
  {
    if i < j {
      var n := j - 1;
      TimeGoesOn(trace, acts, n, j);
      LeaseStands(trace, acts, i, n, lease);
      if trace[n + 1].row != trace[n].row {
        RowChanges(trace, acts, n);
        var o: nat :| o <= n && GrantedBy(trace, acts, o, n + 1, acts[n].c, trace[n + 1].row.value)
                 && Succeeds(lease, trace[n + 1].row.value, trace[o].now);
        assert Step(trace[n], acts[n], trace[n + 1]);
        TimeGoesOn(trace, acts, o, j);
      }
    }
  }

  // ------------------------------------------------------------------ guarded on what was read

  /** Step `r` of call `c`, as it stands at state `j`, read this owner and term. */
  ghost predicate ReadAt(trace: seq<State>, acts: seq<Action>, r: nat, j: nat, c: nat, leader: LeaderTerm) {
    && r < j && r < |acts| && acts[r] == Read(c) && SameCall(trace, r, j, c)
    && trace[r].row.Some? && trace[r].row.value.owner == leader.owner && trace[r].row.value.term == leader.term
  }

  /** Until it is done, a call that has read a lease goes on from that lease. */
  ghost predicate GoesOn(trace: seq<State>, acts: seq<Action>, j: nat, c: nat)
    requires j < |trace| && c in trace[j].calls
  {
    var phase := trace[j].calls[c].phase;
    && (phase.Found? || phase.Trying? ==>
          exists r: nat :: ReadAt(trace, acts, r, j, c, LeaderTerm(phase.seen.owner, phase.seen.term)))
    && (phase.Updated? ==>
          && trace[j].row.Some?
          && exists r: nat ::
               ReadAt(trace, acts, r, j, c, LeaderTerm(trace[j].row.value.owner, trace[j].row.value.term)))
  }

  lemma ReadNext(trace: seq<State>, acts: seq<Action>, r: nat, n: nat, c: nat, leader: LeaderTerm)
    requires IsRun(trace, acts) && n < |acts| && ReadAt(trace, acts, r, n, c, leader) && c in trace[n + 1].calls
    ensures ReadAt(trace, acts, r, n + 1, c, leader)
  {
    SameNext(trace, acts, r, n, c);
  }

  lemma GoesOnQuietly(trace: seq<State>, acts: seq<Action>, n: nat, c: nat)
    requires IsRun(trace, acts) && n < |acts| && c in trace[n].calls && GoesOn(trace, acts, n, c)
    requires c in trace[n + 1].calls && trace[n + 1].calls[c] == trace[n].calls[c]
    ensures GoesOn(trace, acts, n + 1, c)
  {
    var phase := trace[n].calls[c].phase;
    if phase.Found? || phase.Trying? {
      var leader := LeaderTerm(phase.seen.owner, phase.seen.term);
      var r: nat :| ReadAt(trace, acts, r, n, c, leader);
      ReadNext(trace, acts, r, n, c, leader);
    } else if phase.Updated? {
      RunInv(trace, acts, n);
      HeldRowStays(trace[n], acts[n], trace[n + 1], c);
      var leader := LeaderTerm(trace[n].row.value.owner, trace[n].row.value.term);
      var r: nat :| ReadAt(trace, acts, r, n, c, leader);
      ReadNext(trace, acts, r, n, c, leader);
    }
  }

  lemma GoesOnMoving(trace: seq<State>, acts: seq<Action>, n: nat, c: nat)
    requires IsRun(trace, acts) && n < |acts| && c in trace[n].calls && GoesOn(trace, acts, n, c)
    requires c in trace[n + 1].calls && (acts[n] == Open(c) || acts[n] == Update(c))
    ensures GoesOn(trace, acts, n + 1, c)
  {
    assert Step(trace[n], acts[n], trace[n + 1]);
    var seen := trace[n].calls[c].phase.seen;
    var leader := LeaderTerm(seen.owner, seen.term);
    var r: nat :| ReadAt(trace, acts, r, n, c, leader);
    ReadNext(trace, acts, r, n, c, leader);
  }

  lemma GoesOnReading(trace: seq<State>, acts: seq<Action>, n: nat, c: nat)
    requires IsRun(trace, acts) && n < |acts| && acts[n] == Read(c) && c in trace[n + 1].calls
    ensures GoesOn(trace, acts, n + 1, c)
  {
    assert Step(trace[n], acts[n], trace[n + 1]);
    assert SameCall(trace, n, n + 1, c);
    var phase := trace[n + 1].calls[c].phase;
    assert phase.Found? ==> ReadAt(trace, acts, n, n + 1, c, LeaderTerm(phase.seen.owner, phase.seen.term));
  }

  lemma OtherStops(s: State, action: Action, s': State, c: nat)
    requires Step(s, action, s') && c in s'.calls && (c in s.calls ==> s'.calls[c] != s.calls[c])
    requires action != Open(c) && action != Read(c) && action != Update(c)
    ensures !s'.calls[c].phase.Found? && !s'.calls[c].phase.Trying? && !s'.calls[c].phase.Updated?
  {
  }

  lemma {:induction false} AllGoOn(trace: seq<State>, acts: seq<Action>, j: nat, c: nat)
    requires IsRun(trace, acts) && j < |trace| && c in trace[j].calls
    ensures GoesOn(trace, acts, j, c)
    decreases j
  {
    if j > 0 {
      var n := j - 1;
      if c in trace[n].calls {
        AllGoOn(trace, acts, n, c);
      }
      GoOnNext(trace, acts, n, c);
    }
  }

  lemma GoOnNext(trace: seq<State>, acts: seq<Action>, n: nat, c: nat)
    requires IsRun(trace, acts) && n < |acts| && c in trace[n + 1].calls
    requires c in trace[n].calls ==> GoesOn(trace, acts, n, c)
    ensures GoesOn(trace, acts, n + 1, c)
  {
    assert Step(trace[n], acts[n], trace[n + 1]);
    if c in trace[n].calls && trace[n + 1].calls[c] == trace[n].calls[c] {
      GoesOnQuietly(trace, acts, n, c);
    } else if acts[n] == Read(c) {
      GoesOnReading(trace, acts, n, c);
    } else if acts[n] == Open(c) || acts[n] == Update(c) {
      GoesOnMoving(trace, acts, n, c);
    } else {
      OtherStops(trace[n], acts[n], trace[n + 1], c);
    }
  }

  /** An update replaces only the owner and term that its own call had read: a lost race is never overwritten. */
  lemma ReplacesWhatWasRead(trace: seq<State>, acts: seq<Action>, n: nat, c: nat)
    requires IsRun(trace, acts) && n < |acts| && acts[n] == CommitUpdate(c)
    ensures trace[n].row.Some?
    ensures exists r: nat ::
              ReadAt(trace, acts, r, n, c, LeaderTerm(trace[n].row.value.owner, trace[n].row.value.term))
  {
    assert Step(trace[n], acts[n], trace[n + 1]);
    AllGoOn(trace, acts, n, c);
  }

  // -------------------------------------------------------------------------- three tries

  /** How often call `c` opened an update or inserted, from step `i` to step `j`. */
  function Tries(acts: seq<Action>, i: nat, j: nat, c: nat): nat
    requires j <= |acts|
    decreases j
  {
    if j <= i then 0
    else Tries(acts, i, j - 1, c) + if acts[j - 1] == Open(c) || acts[j - 1] == Insert(c) then 1 else 0
  }

  predicate TryingNow(phase: CallPhase) {
    phase.Trying? || phase.Updated? || phase.Done?
  }

  /** `n` tries so far: the races lost, and the one under way or done. */
  predicate TriesOk(call: Call, n: nat) {
    && n <= call.tries + (if TryingNow(call.phase) then 1 else 0) && call.tries <= MAX_TRIES
    && (call.tries == MAX_TRIES ==> (call.phase.Reading? || call.phase.Done?) && n <= MAX_TRIES)
  }

  lemma TryCounts(s: State, action: Action, s': State, c: nat, n: nat)
    requires Step(s, action, s') && c in s.calls && c in s'.calls && TriesOk(s.calls[c], n)
    ensures TriesOk(s'.calls[c], n + if action == Open(c) || action == Insert(c) then 1 else 0)
  {
  }

  ghost predicate TriesOkAt(trace: seq<State>, acts: seq<Action>, i: nat, j: nat, c: nat)
    requires j < |trace| && j <= |acts|
  {
    c in trace[j].calls && TriesOk(trace[j].calls[c], Tries(acts, i, j, c))
  }

  lemma TryNext(trace: seq<State>, acts: seq<Action>, i: nat, m: nat, c: nat)
    requires IsRun(trace, acts) && i < m < |acts| && TriesOkAt(trace, acts, i, m, c) && c in trace[m + 1].calls
    ensures TriesOkAt(trace, acts, i, m + 1, c)
  {
    TryCounts(trace[m], acts[m], trace[m + 1], c, Tries(acts, i, m, c));
  }

  lemma TriesStart(trace: seq<State>, acts: seq<Action>, i: nat, c: nat)
    requires IsRun(trace, acts) && i < |acts| && acts[i].StartCall? && acts[i].c == c
    ensures TriesOkAt(trace, acts, i, i + 1, c)
  {
    assert Step(trace[i], acts[i], trace[i + 1]);
    assert Tries(acts, i, i, c) == 0;
  }

  lemma {:induction false} TriesCounted(trace: seq<State>, acts: seq<Action>, i: nat, j: nat, c: nat)
    requires IsRun(trace, acts) && i < j < |trace| && acts[i].StartCall? && acts[i].c == c
    requires forall m :: i < m <= j ==> c in trace[m].calls
    ensures TriesOkAt(trace, acts, i, j, c)
    decreases j
  {
    var m := j - 1;
    if i < m {
      TriesCounted(trace, acts, i, m, c);
      TryNext(trace, acts, i, m, c);
    } else {
      TriesStart(trace, acts, i, c);
    }
  }

  /** A call tries three times at most. */
  lemma AtMostThreeTries(trace: seq<State>, acts: seq<Action>, i: nat, j: nat, c: nat)
    requires IsRun(trace, acts) && i < j < |trace| && acts[i].StartCall? && acts[i].c == c
    requires forall m :: i < m <= j ==> c in trace[m].calls
    ensures Tries(acts, i, j, c) <= 3
  {
    TriesCounted(trace, acts, i, j, c);
  }
}
