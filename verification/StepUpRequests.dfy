/**
 Step-up requests: a machine's call parked for its human, raised under pending caps, begun
 and finished at most once, its sealed body cleared when it can no longer run.
 */
module StepUpRequests {
  import opened Options

  datatype RequestId = RequestId(id: string)
  datatype Human = Human(id: string)
  datatype Requester = ApiToken(id: string) | BearerSession(hash: string)

  datatype RequestState = Pending | Executing | Executed | Failed

  datatype Request = Request(
    human: Human, requester: Requester, expiresAt: int, state: RequestState, sealed: bool,
    confirmedAt: int, executedAt: int)

  type Rows = map<RequestId, Request>

  const RequestTtl: int := 5 * 60 * 1000

  predicate Terminal(s: RequestState) {
    s.Executed? || s.Failed?
  }

  predicate LiveAt(r: Request, now: int) {
    r.state.Pending? && r.expiresAt > now
  }

  function LiveFor(rows: Rows, human: Human, now: int): set<RequestId> {
    set id | id in rows && rows[id].human == human && LiveAt(rows[id], now)
  }

  function LiveBy(rows: Rows, requester: Requester, now: int): set<RequestId> {
    set id | id in rows && rows[id].requester == requester && LiveAt(rows[id], now)
  }

  // -------------------------------------------------------------------- the statements

  datatype Begin = Begun(request: Request) | NotFound | Expired | NotPending(state: RequestState)

  function BeginDecision(rows: Rows, id: RequestId, now: int): Begin {
    if id !in rows then NotFound
    else if LiveAt(rows[id], now) then Begun(rows[id].(state := Executing, confirmedAt := now))
    else if rows[id].state.Pending? then Expired
    else NotPending(rows[id].state)
  }

  function AfterBegin(rows: Rows, id: RequestId, now: int): Rows {
    var decision := BeginDecision(rows, id, now);
    if decision.Begun? then rows[id := decision.request] else rows
  }

  predicate Finishes(rows: Rows, id: RequestId, state: RequestState) {
    Terminal(state) && id in rows && rows[id].state.Executing?
  }

  function AfterFinish(rows: Rows, id: RequestId, state: RequestState, now: int): Rows {
    if Finishes(rows, id, state) then rows[id := rows[id].(state := state, executedAt := now, sealed := false)]
        else rows
  }

  predicate Clears(r: Request, now: int) {
    (r.state.Pending? && r.expiresAt <= now) || (r.state.Executing? && r.confirmedAt <= now - RequestTtl)
  }

  predicate Outlived(r: Request, olderThan: int) {
    || (Terminal(r.state) && r.executedAt < olderThan)
    || (r.state.Pending? && r.expiresAt < olderThan)
    || (r.state.Executing? && r.confirmedAt < olderThan)
  }

  function AfterReap(rows: Rows, now: int, olderThan: int): Rows {
    map id | id in rows && !Outlived(rows[id], olderThan) ::
      if Clears(rows[id], now) then rows[id].(sealed := false) else rows[id]
  }

  datatype Caps = Caps(perRequester: nat, perHuman: nat)
  datatype Raise = RequesterFull(pending: nat) | HumanFull(pending: nat) | Duplicate | Raised

  /** The `step_up_requests` table. */
  class RequestStore {
    var rows: Rows

    constructor ()
      ensures rows == map[]
    {
      rows := map[];
    }

    /** `raise_request` when nothing else runs: the two counts, in order, then the insert. */
    method RaiseRequest(id: RequestId, r: Request, caps: Caps, now: int) returns (raised: Raise)
      modifies this
      ensures var live := set x | x in old(rows) && old(rows)[x].requester == r.requester
                                  && old(rows)[x].state.Pending? && now < old(rows)[x].expiresAt;
              && (raised.RequesterFull? <==> |live| >= caps.perRequester)
              && (raised.RequesterFull? ==> raised.pending == |live|)
      ensures var live := set x | x in old(rows) && old(rows)[x].human == r.human
                                  && old(rows)[x].state.Pending? && now < old(rows)[x].expiresAt;
              && (raised.HumanFull? <==> !raised.RequesterFull? && |live| >= caps.perHuman)
              && (raised.HumanFull? ==> raised.pending == |live|)
      ensures raised.Raised? <==> !raised.RequesterFull? && !raised.HumanFull? && id !in old(rows)
      ensures rows == if raised.Raised? then old(rows)[id := r] else old(rows)
    {
      assert LiveBy(rows, r.requester, now) == set x | x in rows && rows[x].requester == r.requester
                                                       && rows[x].state.Pending? && now < rows[x].expiresAt;
      assert LiveFor(rows, r.human, now) == set x | x in rows && rows[x].human == r.human
                                                    && rows[x].state.Pending? && now < rows[x].expiresAt;
      var byRequester := |LiveBy(rows, r.requester, now)|;
      if byRequester >= caps.perRequester {
        return RequesterFull(byRequester);
      }
      var forHuman := |LiveFor(rows, r.human, now)|;
      if forHuman >= caps.perHuman {
        return HumanFull(forHuman);
      }
      if id in rows {
        return Duplicate;
      }
      rows := rows[id := r];
      return Raised;
    }

    /** `begin_execution`: the pending-to-executing update, else why not. */
    method BeginExecution(id: RequestId, now: int) returns (begin: Begin)
      modifies this
      ensures begin == BeginDecision(old(rows), id, now)
      ensures begin.NotFound? <==> id !in old(rows)
      ensures begin.Begun? <==> id in old(rows) && old(rows)[id].state.Pending? && now < old(rows)[id].expiresAt
      ensures begin.Expired? <==> id in old(rows) && old(rows)[id].state.Pending? && old(rows)[id].expiresAt <= now
      ensures begin.NotPending? ==> begin.state == old(rows)[id].state
      ensures begin.Begun? ==> begin.request == old(rows)[id].(state := Executing, confirmedAt := now)
      ensures rows == if begin.Begun? then old(rows)[id := begin.request] else old(rows)
    {
      if id in rows && rows[id].state.Pending? && rows[id].expiresAt > now {
        rows := rows[id := rows[id].(state := Executing, confirmedAt := now)];
        return Begun(rows[id]);
      }
      if id !in rows {
        return NotFound;
      }
      begin := if rows[id].state.Pending? then Expired else NotPending(rows[id].state);
    }

    /** `finish_request`: refused for a state that is not terminal. */
    method FinishRequest(id: RequestId, state: RequestState, now: int) returns (finished: Option<bool>)
      modifies this
      ensures finished.None? <==> !Terminal(state)
      ensures finished == Some(true) <==>
                (state.Executed? || state.Failed?) && id in old(rows) && old(rows)[id].state.Executing?
      ensures finished == Some(true) ==>
                id in rows && rows[id].state == state && rows[id].executedAt == now && !rows[id].sealed
                && rows == old(rows)[id := old(rows)[id].(state := rows[id].state, executedAt := now, sealed := false)]
      ensures finished != Some(true) ==> rows == old(rows)
      ensures rows == AfterFinish(old(rows), id, state, now)
    {
      if !Terminal(state) {
        return None;
      }
      if id in rows && rows[id].state.Executing? {
        rows := rows[id := rows[id].(state := state, executedAt := now, sealed := false)];
        return Some(true);
      }
      return Some(false);
    }

    /** `reap`, its two statements over requests: clear bodies, then delete. */
    method Reap(now: int, olderThan: int)
      modifies this
      ensures forall id :: id in rows ==> id in old(rows)
      ensures forall id :: id in old(rows) ==>
                var r := old(rows)[id];
                var terminal, pending := r.state.Executed? || r.state.Failed?, r.state.Pending?;
                id !in rows <==> (terminal && r.executedAt < olderThan) || (pending && r.expiresAt < olderThan)
                                 || (r.state.Executing? && r.confirmedAt < olderThan)
      ensures forall id :: id in rows ==> rows[id] == old(rows)[id].(sealed := rows[id].sealed)
      ensures forall id :: id in rows ==>
                var r := old(rows)[id];
                rows[id].sealed <==> r.sealed && !(r.state.Pending? && r.expiresAt <= now)
                                     && !(r.state.Executing? && r.confirmedAt + RequestTtl <= now)
      ensures rows == AfterReap(old(rows), now, olderThan)
    {
      rows := map id | id in rows :: if Clears(rows[id], now) then rows[id].(sealed := false) else rows[id];
      rows := map id | id in rows && !Outlived(rows[id], olderThan) :: rows[id];
    }
  }

  // ------------------------------------------------------------- concurrent callers

  /** A raise that holds the advisory lock of its human, between its statements. */
  datatype Phase = Locked | RequesterCounted | BothCounted
  datatype Raising = Raising(id: RequestId, request: Request, now: int, phase: Phase)

  /** `clock` is the latest time any call has seen, `reapedTo` the latest any reap has.  The advisory lock is the
      key of `raising`: one raise per human at a time. */
  datatype State = State(
    rows: Rows, raising: map<Human, Raising>, clock: int, reapedTo: int,
    issued: set<RequestId>, begun: seq<RequestId>, finished: seq<RequestId>)

  datatype Action =
    | Lock(id: RequestId, request: Request, now: int)
    | CountRequester(human: Human)
    | CountHuman(human: Human)
    | Insert(human: Human)
    | Abandon(human: Human)                       // a full cap, an error, a crash
    | BeginAt(id: RequestId, now: int)
    | FinishAt(id: RequestId, state: RequestState, now: int)
    | ReapAt(now: int, olderThan: int)

  function Later(a: int, b: int): int {
    if a < b then b else a
  }

  ghost predicate InPhase(s: State, h: Human, phase: Phase) {
    h in s.raising && s.raising[h].phase == phase
  }

  ghost predicate Step(s: State, caps: Caps, action: Action, s': State) {
    match action
    case Lock(id, r, now) =>
      && r.human !in s.raising && r.state.Pending? && r.sealed
      && s' == s.(raising := s.raising[r.human := Raising(id, r, now, Locked)], clock := Later(s.clock, now))
    case CountRequester(h) =>
      && InPhase(s, h, Locked)
      && |LiveBy(s.rows, s.raising[h].request.requester, s.raising[h].now)| < caps.perRequester
      && s' == s.(raising := s.raising[h := s.raising[h].(phase := RequesterCounted)])
    case CountHuman(h) =>
      && InPhase(s, h, RequesterCounted) && |LiveFor(s.rows, h, s.raising[h].now)| < caps.perHuman
      && s' == s.(raising := s.raising[h := s.raising[h].(phase := BothCounted)])
    case Insert(h) =>
      && InPhase(s, h, BothCounted) && s.raising[h].id !in s.issued
      && s' == s.(rows := s.rows[s.raising[h].id := s.raising[h].request], raising := s.raising - {h},
                  issued := s.issued + {s.raising[h].id})
    case Abandon(h) =>
      h in s.raising && s' == s.(raising := s.raising - {h})
    case BeginAt(id, now) =>
      s' == s.(rows := AfterBegin(s.rows, id, now), clock := Later(s.clock, now),
               begun := if BeginDecision(s.rows, id, now).Begun? then s.begun + [id] else s.begun)
    case FinishAt(id, state, now) =>
      s' == s.(rows := AfterFinish(s.rows, id, state, now), clock := Later(s.clock, now),
               finished := if Finishes(s.rows, id, state) then s.finished + [id] else s.finished)
    case ReapAt(now, olderThan) =>
      s' == s.(rows := AfterReap(s.rows, now, olderThan), clock := Later(s.clock, now),
          reapedTo := Later(s.reapedTo, now))
  }

  ghost predicate IsRun(trace: seq<State>, caps: Caps, actions: seq<Action>) {
    && |trace| == |actions| + 1
    && trace[0] == State(map[], map[], trace[0].clock, trace[0].clock, {}, [], [])
    && forall i :: 0 <= i < |actions| ==> Step(trace[i], caps, actions[i], trace[i + 1])
  }

  // ------------------------------------------------------------------- execute once

  ghost predicate Distinct(ids: seq<RequestId>) {
    forall i, j :: 0 <= i < j < |ids| ==> ids[i] != ids[j]
  }

  /** What the row still says about what was begun and finished. */
  ghost predicate OnceOk(s: State) {
    && s.rows.Keys <= s.issued
    && Distinct(s.begun) && Distinct(s.finished)
    && (forall id :: id in s.begun ==> id in s.issued && (id in s.rows ==> !s.rows[id].state.Pending?))
    && (forall id :: id in s.finished ==> id in s.begun && (id in s.rows ==> Terminal(s.rows[id].state)))
    && (forall id :: id in s.rows && !s.rows[id].state.Pending? ==> id in s.begun)
  }

  ghost predicate FinishLogged(s: State) {
    forall id :: id in s.rows && Terminal(s.rows[id].state) ==> id in s.finished
  }

  lemma StepKeepsLogged(s: State, caps: Caps, action: Action, s': State)
    requires FinishLogged(s) && RaisingOk(s) && Step(s, caps, action, s')
    ensures FinishLogged(s')
  {
  }

  ghost predicate RaisingOk(s: State) {
    forall h :: h in s.raising ==>
      s.raising[h].request.state.Pending? && s.raising[h].now <= s.clock && s.raising[h].request.human == h
  }

  lemma StepKeepsOnce(s: State, caps: Caps, action: Action, s': State)
    requires OnceOk(s) && RaisingOk(s) && Step(s, caps, action, s')
    ensures OnceOk(s')
  {
  }

  lemma StepKeepsRaising(s: State, caps: Caps, action: Action, s': State)
    requires RaisingOk(s) && Step(s, caps, action, s')
    ensures RaisingOk(s')
  {
  }

  lemma {:induction false} RunOnce(trace: seq<State>, caps: Caps, actions: seq<Action>, i: nat)
    requires IsRun(trace, caps, actions) && i < |trace|
    ensures OnceOk(trace[i]) && RaisingOk(trace[i]) && FinishLogged(trace[i])
  {
    if i > 0 {
      RunOnce(trace, caps, actions, i - 1);
      StepKeepsOnce(trace[i - 1], caps, actions[i - 1], trace[i]);
      StepKeepsRaising(trace[i - 1], caps, actions[i - 1], trace[i]);
      StepKeepsLogged(trace[i - 1], caps, actions[i - 1], trace[i]);
    }
  }

  /** Each request begins at most once, finishes at most once, and only after it began. */
  lemma ExecutesOnce(trace: seq<State>, caps: Caps, actions: seq<Action>, i: nat)
    requires IsRun(trace, caps, actions) && i < |trace|
    ensures Distinct(trace[i].begun) && Distinct(trace[i].finished)
    ensures forall id :: id in trace[i].finished ==> id in trace[i].begun
    ensures forall id :: id in trace[i].rows ==>
              (id in trace[i].begun <==> !trace[i].rows[id].state.Pending?)
              && (id in trace[i].finished <==> trace[i].rows[id].state.Executed? || trace[i].rows[id].state.Failed?)
  {
    RunOnce(trace, caps, actions, i);
  }

  // ------------------------------------------------------------------- what is recorded

  /** Request `id` was finished as `state` at time `now`. */
  predicate Recorded(r: Request, state: RequestState, now: int) {
    r.state == state && r.executedAt == now && !r.sealed
  }

  lemma RecordStays(s: State, caps: Caps, action: Action, s': State, id: RequestId, state: RequestState, now: int)
    requires Step(s, caps, action, s') && id in s.issued && (state.Executed? || state.Failed?)
    requires id in s.rows ==> Recorded(s.rows[id], state, now)
    ensures id in s'.issued && (id in s'.rows ==> Recorded(s'.rows[id], state, now))
  {
  }

  /** A finished request still in the table says what its one effective finish named, and when. */
  lemma {:induction false} FinishedAsNamed(trace: seq<State>, caps: Caps, actions: seq<Action>, k: nat, i: nat)
    requires IsRun(trace, caps, actions) && k < i < |trace| && actions[k].FinishAt?
    requires actions[k].id in trace[k].rows && trace[k].rows[actions[k].id].state.Executing?
    requires actions[k].state.Executed? || actions[k].state.Failed?
    ensures var id := actions[k].id;
            && id in trace[i].issued
            && (id in trace[i].rows ==> Recorded(trace[i].rows[id], actions[k].state, actions[k].now))
    decreases i
  {
    var m := i - 1;
    if m == k {
      RunOnce(trace, caps, actions, k);
      assert Step(trace[k], caps, actions[k], trace[k + 1]);
    } else {
      FinishedAsNamed(trace, caps, actions, k, m);
      RecordStays(trace[m], caps, actions[m], trace[m + 1], actions[k].id, actions[k].state, actions[k].now);
    }
  }

  /** No two steps of a run begin one request, and no two finish one. */
  lemma EffectiveOnce(trace: seq<State>, caps: Caps, actions: seq<Action>, k: nat, m: nat)
    requires IsRun(trace, caps, actions) && k < m < |actions|
    ensures actions[k].BeginAt? && BeginDecision(trace[k].rows, actions[k].id, actions[k].now).Begun?
            && actions[m].BeginAt? && BeginDecision(trace[m].rows, actions[m].id, actions[m].now).Begun? ==>
              actions[k].id != actions[m].id
    ensures actions[k].FinishAt? && actions[m].FinishAt?
            && FinishesNow(trace[k], actions[k]) && FinishesNow(trace[m], actions[m]) ==>
              actions[k].id != actions[m].id
  {
    assert Step(trace[k], caps, actions[k], trace[k + 1]);
    if actions[k].BeginAt? && BeginDecision(trace[k].rows, actions[k].id, actions[k].now).Begun? {
      BegunStays(trace, caps, actions, k + 1, m, actions[k].id);
      RunOnce(trace, caps, actions, m);
    }
    if actions[k].FinishAt? && FinishesNow(trace[k], actions[k]) {
      FinishedAsNamed(trace, caps, actions, k, m);
    }
  }

  predicate FinishesNow(s: State, action: Action)
    requires action.FinishAt?
  {
    && action.id in s.rows && s.rows[action.id].state.Executing?
    && (action.state.Executed? || action.state.Failed?)
  }

  /** A reap keeps every live request, if its retention ends no later than it runs. */
  lemma ReapKeepsLive(s: State, caps: Caps, now: int, olderThan: int, s': State, id: RequestId)
    requires Step(s, caps, ReapAt(now, olderThan), s') && olderThan <= now
    requires id in s.rows && s.rows[id].state.Pending? && s.rows[id].expiresAt > now
    ensures id in s'.rows && s'.rows[id] == s.rows[id]
  {
  }

  // ------------------------------------------------------------------ the sealed body

  /** A request that stays pending, or stays executing, loses its body to a reap that clears it and to nothing else. */
  lemma BodyStep(s: State, caps: Caps, action: Action, s': State, id: RequestId)
    requires OnceOk(s) && Step(s, caps, action, s') && id in s.rows && id in s'.rows
    requires s'.rows[id].state == s.rows[id].state && !Terminal(s.rows[id].state)
    ensures s'.rows[id] == s.rows[id].(sealed := s'.rows[id].sealed)
    ensures s'.rows[id].sealed <==> s.rows[id].sealed && !(action.ReapAt? && Clears(s.rows[id], action.now))
  {
  }

  /** Request `id` is in one state from `a` to `i`. */
  ghost predicate StaysIn(trace: seq<State>, a: nat, i: nat, id: RequestId, state: RequestState) {
    && a <= i < |trace|
    && forall m :: a <= m <= i ==> id in trace[m].rows && trace[m].rows[id].state == state
  }

  ghost predicate NotCleared(actions: seq<Action>, a: nat, i: nat, r: Request) {
    forall m :: a <= m < i && m < |actions| && actions[m].ReapAt? ==> !Clears(r, actions[m].now)
  }

  lemma {:induction false} BodySince(trace: seq<State>, caps: Caps, actions: seq<Action>, a: nat, i: nat, id: RequestId,
                                     state: RequestState)
    requires IsRun(trace, caps, actions) && StaysIn(trace, a, i, id, state) && !Terminal(state)
    ensures trace[i].rows[id] == trace[a].rows[id].(sealed := trace[i].rows[id].sealed)
    ensures trace[i].rows[id].sealed <==> trace[a].rows[id].sealed && NotCleared(actions, a, i, trace[a].rows[id])
    decreases i
  {
    if a < i {
      var m := i - 1;
      BodySince(trace, caps, actions, a, m, id, state);
      RunOnce(trace, caps, actions, m);
      BodyStep(trace[m], caps, actions[m], trace[m + 1], id);
    }
  }

  lemma PendingBefore(s: State, caps: Caps, action: Action, s': State, id: RequestId)
    requires Step(s, caps, action, s') && id in s.issued && id in s'.rows && s'.rows[id].state.Pending?
    ensures id in s.rows && s.rows[id].state.Pending?
  {
  }

  lemma {:induction false} IssuedStays(trace: seq<State>, caps: Caps, actions: seq<Action>, a: nat, i: nat,
                                       id: RequestId)
    requires IsRun(trace, caps, actions) && a <= i < |trace| && id in trace[a].issued
    ensures id in trace[i].issued
    decreases i
  {
    if a < i {
      IssuedStays(trace, caps, actions, a, i - 1, id);
      assert Step(trace[i - 1], caps, actions[i - 1], trace[i - 1 + 1]);
    }
  }

  /** Request `id` is inserted at step `k`. */
  ghost predicate InsertsAt(trace: seq<State>, actions: seq<Action>, k: nat, id: RequestId) {
    && k < |actions| && k < |trace| && actions[k].Insert?
    && actions[k].human in trace[k].raising && trace[k].raising[actions[k].human].id == id
  }

  lemma {:induction false} PendingSince(trace: seq<State>, caps: Caps, actions: seq<Action>, a: nat, i: nat,
                                        id: RequestId)
    requires IsRun(trace, caps, actions) && a <= i < |trace| && id in trace[a].issued
    requires id in trace[i].rows && trace[i].rows[id].state.Pending?
    ensures StaysIn(trace, a, i, id, Pending)
    decreases i
  {
    if a < i {
      var m := i - 1;
      IssuedStays(trace, caps, actions, a, m, id);
      PendingBefore(trace[m], caps, actions[m], trace[m + 1], id);
      PendingSince(trace, caps, actions, a, m, id);
    }
  }

  lemma {:induction false} RaisedSealed(trace: seq<State>, caps: Caps, actions: seq<Action>, i: nat)
    requires IsRun(trace, caps, actions) && i < |trace|
    ensures forall h :: h in trace[i].raising ==> trace[i].raising[h].request.sealed
  {
    if i > 0 {
      RaisedSealed(trace, caps, actions, i - 1);
      assert Step(trace[i - 1], caps, actions[i - 1], trace[i - 1 + 1]);
    }
  }

  /** A pending request has its body iff no reap at or past its expiry has run since it was inserted. */
  lemma PendingHasBodyIff(trace: seq<State>, caps: Caps, actions: seq<Action>, k: nat, i: nat, id: RequestId)
    requires IsRun(trace, caps, actions) && k < i < |trace| && InsertsAt(trace, actions, k, id)
    requires id in trace[i].rows && trace[i].rows[id].state.Pending?
    ensures trace[i].rows[id].sealed <==>
            forall m :: k < m < i && actions[m].ReapAt? ==> actions[m].now < trace[i].rows[id].expiresAt
  {
    RaisedSealed(trace, caps, actions, k);
    assert Step(trace[k], caps, actions[k], trace[k + 1]);
    PendingSince(trace, caps, actions, k + 1, i, id);
    BodySince(trace, caps, actions, k + 1, i, id, Pending);
  }

  /** Every request in the table was inserted. */
  lemma {:induction false} WasInserted(trace: seq<State>, caps: Caps, actions: seq<Action>, i: nat, id: RequestId)
    returns (k: nat)
    requires IsRun(trace, caps, actions) && i < |trace| && id in trace[i].rows
    ensures k < i && InsertsAt(trace, actions, k, id)
    decreases i
  {
    var m := i - 1;
    assert Step(trace[m], caps, actions[m], trace[m + 1]);
    if id in trace[m].rows {
      k := WasInserted(trace, caps, actions, m, id);
    } else {
      k := m;
    }
  }

  /** So a begun request has its body iff no such reap ran: whatever time the begin is stamped with, only the
      reaps' times and its expiry count. */
  lemma BegunHasBodyIff(trace: seq<State>, caps: Caps, actions: seq<Action>, k: nat, i: nat, id: RequestId, now: int)
    requires IsRun(trace, caps, actions) && k < i < |trace| && InsertsAt(trace, actions, k, id)
    requires BeginDecision(trace[i].rows, id, now).Begun?
    ensures BeginDecision(trace[i].rows, id, now).request.sealed <==>
            forall m :: k < m < i && actions[m].ReapAt? ==> actions[m].now < trace[i].rows[id].expiresAt
  {
    PendingHasBodyIff(trace, caps, actions, k, i, id);
  }

  lemma {:induction false} ReapsSeen(trace: seq<State>, caps: Caps, actions: seq<Action>, i: nat)
    requires IsRun(trace, caps, actions) && i < |trace|
    ensures forall m :: 0 <= m < i && actions[m].ReapAt? ==> actions[m].now <= trace[i].reapedTo
  {
    if i > 0 {
      ReapsSeen(trace, caps, actions, i - 1);
      assert Step(trace[i - 1], caps, actions[i - 1], trace[i - 1 + 1]);
    }
  }

  /** In particular, a request begun at a time no earlier than the last reap's has its body. */
  lemma BegunHasBody(trace: seq<State>, caps: Caps, actions: seq<Action>, i: nat, id: RequestId, now: int)
    requires IsRun(trace, caps, actions) && i < |trace| && trace[i].reapedTo <= now
    requires BeginDecision(trace[i].rows, id, now).Begun?
    ensures BeginDecision(trace[i].rows, id, now).request.sealed
  {
    var k := WasInserted(trace, caps, actions, i, id);
    ReapsSeen(trace, caps, actions, i);
    BegunHasBodyIff(trace, caps, actions, k, i, id, now);
  }

  /** A clock that runs back breaks it: a reap at the expiry, then a begin stamped just before it. */
  lemma StaleBeginHasNoBody(id: RequestId, r: Request) returns (h: History, s: State)
    requires r.state.Pending? && r.sealed
    ensures Reaches(h, Caps(10, 20), s)
    ensures var decision := BeginDecision(s.rows, id, r.expiresAt - 1); decision.Begun? && !decision.request.sealed
  {
    var caps, t := Caps(10, 20), r.expiresAt;
    var s0 := Start(t - 1);
    assert LiveBy(s0.rows, r.requester, t - 1) == {} && LiveFor(s0.rows, r.human, t - 1) == {};
    h := CountsBoth(History([s0], []), caps, s0, id, r);
    h := InsertsOne(h, caps, RaisingIn(s0, id, r, BothCounted), r.human);
    var s1 := Inserted(RaisingIn(s0, id, r, BothCounted), r.human);
    s := s1.(rows := AfterReap(s1.rows, t, t), clock := t, reapedTo := t);
    h := Extends(h, caps, s1, ReapAt(t, t), s);
  }

  lemma ExecutingBefore(s: State, caps: Caps, action: Action, s': State, id: RequestId)
    requires OnceOk(s) && RaisingOk(s) && Step(s, caps, action, s') && id in s.begun
    requires id in s'.rows && s'.rows[id].state.Executing?
    ensures id in s.rows && s.rows[id].state.Executing?
  {
  }

  lemma {:induction false} ExecutingSince(trace: seq<State>, caps: Caps, actions: seq<Action>, i: nat, j: nat,
                                          id: RequestId)
    requires IsRun(trace, caps, actions) && i <= j < |trace|
    requires id in trace[i].rows && trace[i].rows[id].state.Executing?
    requires id in trace[j].rows && trace[j].rows[id].state.Executing?
    ensures StaysIn(trace, i, j, id, Executing)
    decreases j
  {
    if i < j {
      var m := j - 1;
      BegunStays(trace, caps, actions, i, m, id);
      RunOnce(trace, caps, actions, m);
      ExecutingBefore(trace[m], caps, actions[m], trace[m + 1], id);
      ExecutingSince(trace, caps, actions, i, m, id);
    }
  }

  /** And while it executes it keeps its body iff no reap has run one request lifetime or more after it was
      confirmed. */
  lemma ExecutingKeepsBodyIff(trace: seq<State>, caps: Caps, actions: seq<Action>, i: nat, j: nat, id: RequestId)
    requires IsRun(trace, caps, actions) && i <= j < |trace|
    requires id in trace[i].rows && trace[i].rows[id].state.Executing?
    requires id in trace[j].rows && trace[j].rows[id].state.Executing?
    ensures trace[j].rows[id].sealed <==>
            && trace[i].rows[id].sealed
            && forall m :: i <= m < j && actions[m].ReapAt? ==>
                 actions[m].now < trace[j].rows[id].confirmedAt + RequestTtl
  {
    ExecutingSince(trace, caps, actions, i, j, id);
    BodySince(trace, caps, actions, i, j, id, Executing);
  }

  lemma {:induction false} BegunStays(trace: seq<State>, caps: Caps, actions: seq<Action>, i: nat, j: nat,
      id: RequestId)
    requires IsRun(trace, caps, actions) && i <= j < |trace| && id in trace[i].rows && !trace[i].rows[id].state.Pending?
    ensures id in trace[j].begun
    decreases j
  {
    if i < j {
      BegunStays(trace, caps, actions, i, j - 1, id);
      assert Step(trace[j - 1], caps, actions[j - 1], trace[j - 1 + 1]);
    } else {
      RunOnce(trace, caps, actions, i);
    }
  }

  ghost predicate SettledCleared(s: State) {
    forall id :: id in s.rows && Terminal(s.rows[id].state) ==> !s.rows[id].sealed
  }

  lemma StepKeepsCleared(s: State, caps: Caps, action: Action, s': State)
    requires RaisingOk(s) && SettledCleared(s) && Step(s, caps, action, s')
    ensures SettledCleared(s')
  {
  }

  lemma {:induction false} RunCleared(trace: seq<State>, caps: Caps, actions: seq<Action>, i: nat)
    requires IsRun(trace, caps, actions) && i < |trace|
    ensures SettledCleared(trace[i])
  {
    if i > 0 {
      RunCleared(trace, caps, actions, i - 1);
      RunOnce(trace, caps, actions, i - 1);
      StepKeepsCleared(trace[i - 1], caps, actions[i - 1], trace[i]);
    }
  }

  /** No body is kept past its use: after a reap only live pending requests and those confirmed within a
      request lifetime still have one. */
  lemma ReapLeavesNoDeadBody(trace: seq<State>, caps: Caps, actions: seq<Action>, i: nat, id: RequestId)
    requires IsRun(trace, caps, actions) && i < |actions| && actions[i].ReapAt?
    requires id in trace[i + 1].rows && trace[i + 1].rows[id].sealed
    ensures var r, now := trace[i + 1].rows[id], actions[i].now;
            LiveAt(r, now) || (r.state.Executing? && now < r.confirmedAt + RequestTtl)
  {
    RunCleared(trace, caps, actions, i);
  }

  // ------------------------------------------------------------------------- the caps

  lemma {:induction false} SubsetSize(a: set<RequestId>, b: set<RequestId>)
    requires a <= b
    ensures |a| <= |b|
    decreases a
  {
    if x :| x in a {
      SubsetSize(a - {x}, b - {x});
    }
  }

  /** Nothing but an insert makes a request live. */
  lemma OnlyInsertAdds(s: State, caps: Caps, action: Action, s': State, t: int)
    requires Step(s, caps, action, s') && !action.Insert?
    ensures forall h :: LiveFor(s'.rows, h, t) <= LiveFor(s.rows, h, t)
    ensures forall q :: LiveBy(s'.rows, q, t) <= LiveBy(s.rows, q, t)
  {
  }

  lemma InsertAddsOne(rows: Rows, id: RequestId, r: Request, t: int)
    requires id !in rows
    ensures forall h :: LiveFor(rows[id := r], h, t) <= LiveFor(rows, h, t) + (if h == r.human then {id} else {})
    ensures forall q :: LiveBy(rows[id := r], q, t) <= LiveBy(rows, q, t) + (if q == r.requester then {id} else {})
  {
  }

  /** Room for one more where the human was counted, and the cap everywhere. */
  ghost predicate HumanOk(s: State, caps: Caps, h: Human) {
    && |LiveFor(s.rows, h, s.clock)| <= caps.perHuman
    && (InPhase(s, h, BothCounted) ==> |LiveFor(s.rows, h, s.raising[h].now)| < caps.perHuman)
  }

  lemma StepKeepsHuman(s: State, caps: Caps, action: Action, s': State, h: Human)
    requires OnceOk(s) && RaisingOk(s) && HumanOk(s, caps, h) && Step(s, caps, action, s')
    ensures HumanOk(s', caps, h)
  {
    assert LiveFor(s.rows, h, s'.clock) <= LiveFor(s.rows, h, s.clock);
    SubsetSize(LiveFor(s.rows, h, s'.clock), LiveFor(s.rows, h, s.clock));
    if action.Insert? {
      var x := s.raising[action.human];
      InsertAddsOne(s.rows, x.id, x.request, s.clock);
      assert LiveFor(s.rows, h, s.clock) <= LiveFor(s.rows, h, x.now);
      SubsetSize(LiveFor(s.rows, h, s.clock), LiveFor(s.rows, h, x.now));
      SubsetSize(LiveFor(s'.rows, h, s.clock),
          LiveFor(s.rows, h, s.clock) + (if h == action.human then {x.id} else {}));
      if InPhase(s', h, BothCounted) {
        InsertAddsOne(s.rows, x.id, x.request, s.raising[h].now);
        SubsetSize(LiveFor(s'.rows, h, s.raising[h].now), LiveFor(s.rows, h, s.raising[h].now));
      }
    } else {
      OnlyInsertAdds(s, caps, action, s', s'.clock);
      SubsetSize(LiveFor(s'.rows, h, s'.clock), LiveFor(s.rows, h, s'.clock));
      if InPhase(s', h, BothCounted) {
        OnlyInsertAdds(s, caps, action, s', s.raising[h].now);
        SubsetSize(LiveFor(s'.rows, h, s.raising[h].now), LiveFor(s.rows, h, s.raising[h].now));
      }
    }
  }

  lemma {:induction false} RunHuman(trace: seq<State>, caps: Caps, actions: seq<Action>, i: nat, h: Human)
    requires IsRun(trace, caps, actions) && i < |trace|
    ensures HumanOk(trace[i], caps, h)
  {
    if i == 0 {
      assert LiveFor(trace[0].rows, h, trace[0].clock) == {};
    } else {
      RunHuman(trace, caps, actions, i - 1, h);
      RunOnce(trace, caps, actions, i - 1);
      StepKeepsHuman(trace[i - 1], caps, actions[i - 1], trace[i], h);
    }
  }

  /** However raises, executions and reaps interleave, a human's live requests never pass the cap. */
  lemma HumanCapHolds(trace: seq<State>, caps: Caps, actions: seq<Action>, i: nat, h: Human)
    requires IsRun(trace, caps, actions) && i < |trace|
    ensures var rows, now := trace[i].rows, trace[i].clock;
            |set id | id in rows && rows[id].human == h && rows[id].state.Pending? && now < rows[id].expiresAt|
            <= caps.perHuman
  {
    RunHuman(trace, caps, actions, i, h);
    var rows, now := trace[i].rows, trace[i].clock;
    assert LiveFor(rows, h, now)
        == set id | id in rows && rows[id].human == h && rows[id].state.Pending? && now < rows[id].expiresAt;
  }

  // --------------------------------------------------------------------- building runs

  /** A run, with the steps it took. */
  datatype History = History(states: seq<State>, actions: seq<Action>)

  ghost predicate Reaches(h: History, caps: Caps, s: State) {
    IsRun(h.states, caps, h.actions) && h.states[|h.states| - 1] == s
  }

  lemma Extends(h: History, caps: Caps, s: State, action: Action, s': State) returns (h': History)
    requires Reaches(h, caps, s) && Step(s, caps, action, s')
    ensures Reaches(h', caps, s') && h'.actions == h.actions + [action]
  {
    h' := History(h.states + [s'], h.actions + [action]);
  }

  function Start(clock: int): State {
    State(map[], map[], clock, clock, {}, [], [])
  }

  /** A raise in its lock's hands, up to the insert. */
  function RaisingIn(s: State, id: RequestId, r: Request, phase: Phase): State {
    s.(raising := s.raising[r.human := Raising(id, r, s.clock, phase)])
  }

  function Inserted(s: State, h: Human): State
    requires h in s.raising
  {
    s.(rows := s.rows[s.raising[h].id := s.raising[h].request], raising := s.raising - {h},
       issued := s.issued + {s.raising[h].id})
  }

  lemma CountsBoth(h: History, caps: Caps, s: State, id: RequestId, r: Request) returns (h': History)
    requires Reaches(h, caps, s) && r.human !in s.raising && r.state.Pending? && r.sealed
    requires |LiveBy(s.rows, r.requester, s.clock)| < caps.perRequester
        && |LiveFor(s.rows, r.human, s.clock)| < caps.perHuman
    ensures Reaches(h', caps, RaisingIn(s, id, r, BothCounted))
    ensures h'.actions == h.actions + [Lock(id, r, s.clock), CountRequester(r.human), CountHuman(r.human)]
  {
    h' := Extends(h, caps, s, Lock(id, r, s.clock), RaisingIn(s, id, r, Locked));
    h' := Extends(h', caps, RaisingIn(s, id, r, Locked), CountRequester(r.human),
        RaisingIn(s, id, r, RequesterCounted));
    h' := Extends(h', caps, RaisingIn(s, id, r, RequesterCounted), CountHuman(r.human),
        RaisingIn(s, id, r, BothCounted));
  }

  lemma InsertsOne(h: History, caps: Caps, s: State, human: Human) returns (h': History)
    requires Reaches(h, caps, s) && InPhase(s, human, BothCounted) && s.raising[human].id !in s.issued
    ensures Reaches(h', caps, Inserted(s, human)) && h'.actions == h.actions + [Insert(human)]
  {
    h' := Extends(h, caps, s, Insert(human), Inserted(s, human));
  }
}
