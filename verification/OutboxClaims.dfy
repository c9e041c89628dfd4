/**
 Outbox claims: drainers take undispatched messages for a visibility window, renew
 them while they work, and mark them dispatched or dead-lettered.
 */
module OutboxClaims {
  import opened Options

  datatype Drainer = Drainer(id: string)
  datatype Kind = Kind(name: string)

  datatype Message = Message(
    kind: Kind, claimedBy: Option<Drainer>, claimedUntil: Option<int>, dispatched: bool, deadLettered: bool)

  /** One owner's hold on a message: from its claim to the end its last renewal set. */
  datatype Tenure = Tenure(owner: Drainer, start: int, until: int)

  type Rows = map<nat, Message>
  type Tenures = map<nat, seq<Tenure>>

  predicate Open(m: Message) {
    !m.dispatched && !m.deadLettered
  }

  /** The WHERE clause of the claim's inner SELECT. */
  predicate Claimable(m: Message, scope: Option<Kind>, now: int) {
    Open(m) && (scope.None? || m.kind == scope.value) && (m.claimedUntil.None? || m.claimedUntil.value <= now)
  }

  predicate Renewable(rows: Rows, id: nat, owner: Drainer) {
    id in rows && rows[id].claimedBy == Some(owner) && Open(rows[id])
  }

  // ------------------------------------------------------------- the statements

  function Takeable(rows: Rows, scope: Option<Kind>, now: int, locked: set<nat>): set<nat> {
    set id | id in rows && id !in locked && Claimable(rows[id], scope, now)
  }

  function Elements(ids: seq<nat>): set<nat> {
    set id | id in ids
  }

  datatype Op =
    | Enqueue(id: nat, kind: Kind)
    | Claim(ids: set<nat>, owner: Drainer, scope: Option<Kind>, now: int, until: int)
    | Renew(id: nat, owner: Drainer, now: int, until: int)
    | MarkDispatched(id: nat)
    | DeadLetter(id: nat)

  /** The table, who held what so far, and the time of the latest claim or renewal. */
  datatype State = State(rows: Rows, tenures: Tenures, clock: int)

  function Claimed(rows: Rows, ids: set<nat>, owner: Drainer, until: int): Rows {
    map id | id in rows ::
      if id in ids then rows[id].(claimedBy := Some(owner), claimedUntil := Some(until)) else rows[id]
  }

  function ClaimedTenures(tenures: Tenures, ids: set<nat>, t: Tenure): Tenures {
    map id | id in tenures :: if id in ids then tenures[id] + [t] else tenures[id]
  }

  function AfterClaim(s: State, ids: set<nat>, t: Tenure): State {
    State(Claimed(s.rows, ids, t.owner, t.until), ClaimedTenures(s.tenures, ids, t), t.start)
  }

  function Extended(ts: seq<Tenure>, until: int): seq<Tenure> {
    if ts == [] then ts else ts[|ts| - 1 := ts[|ts| - 1].(until := until)]
  }

  /** One statement of the table's methods. */
  ghost predicate Step(s: State, op: Op, s': State) {
    match op
    case Enqueue(id, kind) =>
      && id !in s.rows
      && s' == s.(rows := s.rows[id := Message(kind, None, None, false, false)], tenures := s.tenures[id := []])
    case Claim(ids, owner, scope, now, until) =>
      && s.clock <= now && (forall id :: id in ids ==> id in s.rows && Claimable(s.rows[id], scope, now))
      && s' == AfterClaim(s, ids, Tenure(owner, now, until))
    case Renew(id, owner, now, until) =>
      && s.clock <= now
      && if Renewable(s.rows, id, owner) && id in s.tenures
         then s' == State(s.rows[id := s.rows[id].(claimedUntil := Some(until))],
                          s.tenures[id := Extended(s.tenures[id], until)], now)
         else s' == s.(clock := now)
    case MarkDispatched(id) =>
      s' == if id in s.rows then s.(rows := s.rows[id := s.rows[id].(dispatched := true)]) else s
    case DeadLetter(id) =>
      s' == if id in s.rows then s.(rows := s.rows[id := s.rows[id].(deadLettered := true)]) else s
  }

  // ---------------------------------------------------------------- the invariant

  ghost predicate InOrder(ts: seq<Tenure>, clock: int) {
    && (forall i :: 0 <= i < |ts| ==> ts[i].start <= clock)
    && (forall i, j :: 0 <= i < j < |ts| ==> ts[i].start <= ts[j].start && ts[i].until <= ts[j].start)
  }

  /** The claim record on a row is its last tenure, and tenures follow one another in time. */
  ghost predicate RowOk(m: Message, ts: seq<Tenure>, clock: int) {
    && m.claimedBy == (if ts == [] then None else Some(ts[|ts| - 1].owner))
    && m.claimedUntil == (if ts == [] then None else Some(ts[|ts| - 1].until))
    && InOrder(ts, clock)
  }

  ghost predicate HistoryOk(s: State) {
    && s.tenures.Keys == s.rows.Keys
    && forall id :: id in s.rows ==> RowOk(s.rows[id], s.tenures[id], s.clock)
  }

  lemma ClaimRowOk(m: Message, ts: seq<Tenure>, clock: int, t: Tenure)
    requires RowOk(m, ts, clock) && clock <= t.start && Claimable(m, None, t.start)
    ensures RowOk(m.(claimedBy := Some(t.owner), claimedUntil := Some(t.until)), ts + [t], t.start)
  {
    if ts != [] {
      var last := |ts| - 1;
      assert forall i :: 0 <= i < last ==> ts[i].until <= ts[last].start <= clock;
    }
  }

  lemma RowAges(m: Message, ts: seq<Tenure>, clock: int, now: int)
    requires RowOk(m, ts, clock) && clock <= now
    ensures RowOk(m, ts, now)
  {
  }

  lemma ClaimKeepsHistory(s: State, ids: set<nat>, t: Tenure)
    requires HistoryOk(s) && s.clock <= t.start
    requires forall id :: id in ids ==> id in s.rows && Claimable(s.rows[id], None, t.start)
    ensures HistoryOk(AfterClaim(s, ids, t))
  {
    var s' := AfterClaim(s, ids, t);
    forall id | id in s'.rows ensures RowOk(s'.rows[id], s'.tenures[id], t.start) {
      assert RowOk(s.rows[id], s.tenures[id], s.clock);
      if id in ids {
        ClaimRowOk(s.rows[id], s.tenures[id], s.clock, t);
      } else {
        RowAges(s.rows[id], s.tenures[id], s.clock, t.start);
      }
    }
  }

  lemma ExtendRowOk(m: Message, ts: seq<Tenure>, clock: int, until: int)
    requires RowOk(m, ts, clock) && m.claimedBy.Some?
    ensures RowOk(m.(claimedUntil := Some(until)), Extended(ts, until), clock)
  {
  }

  lemma RenewKeepsHistory(s: State, op: Op, s': State)
    requires HistoryOk(s) && Step(s, op, s') && op.Renew?
    ensures HistoryOk(s')
  {
    forall id | id in s'.rows ensures RowOk(s'.rows[id], s'.tenures[id], s'.clock) {
      assert RowOk(s.rows[id], s.tenures[id], s.clock);
      if id == op.id && Renewable(s.rows, id, op.owner) {
        ExtendRowOk(s.rows[id], s.tenures[id], s.clock, op.until);
      }
      RowAges(s'.rows[id], s'.tenures[id], s.clock, s'.clock);
    }
  }

  lemma OtherKeepsHistory(s: State, op: Op, s': State)
    requires HistoryOk(s) && Step(s, op, s') && !op.Claim? && !op.Renew?
    ensures HistoryOk(s')
  {
  }

  lemma StepKeepsHistory(s: State, op: Op, s': State)
    requires HistoryOk(s) && Step(s, op, s')
    ensures HistoryOk(s')
  {
    if op.Claim? {
      ClaimKeepsHistory(s, op.ids, Tenure(op.owner, op.now, op.until));
    } else if op.Renew? {
      RenewKeepsHistory(s, op, s');
    } else {
      OtherKeepsHistory(s, op, s');
    }
  }

  // -------------------------------------------------------------------- the table

  /** The `outbox` table, with the history of who held what. */
  class Outbox {
    var rows: Rows
    ghost var tenures: Tenures
    ghost var clock: int

    ghost function View(): State
      reads this
    {
      State(rows, tenures, clock)
    }

    ghost predicate Valid()
      reads this
    {
      HistoryOk(View())
    }

    constructor ()
      ensures Valid() && rows == map[] && tenures == map[]
    {
      rows, tenures := map[], map[];
    }

    /** `claim_outbox`: from now to now plus the visibility window, as the tenure says. */
    method Claim(owner: Drainer, scope: Option<Kind>, limit: nat, visibility: int, now: int, locked: set<nat>)
      returns (ids: seq<nat>, ghost t: Tenure)
      requires Valid() && clock <= now
      modifies this
      ensures t == Tenure(owner, now, now + visibility)
      ensures Valid() && Step(old(View()), Op.Claim(Elements(ids), t.owner, scope, t.start, t.until), View())
      ensures Lists(ids, Takeable(old(rows), scope, t.start, locked), limit)
      ensures forall id :: id in Takeable(old(rows), scope, t.start, locked) <==>
                && id in old(rows) && id !in locked
                && !old(rows)[id].dispatched && !old(rows)[id].deadLettered
                && (scope.Some? ==> old(rows)[id].kind == scope.value)
                && (old(rows)[id].claimedUntil.Some? ==> old(rows)[id].claimedUntil.value <= t.start)
      ensures rows.Keys == old(rows).Keys && forall id :: id in rows ==>
                rows[id] == if id in ids then old(rows)[id].(claimedBy := Some(t.owner), claimedUntil := Some(t.until))
                            else old(rows)[id]
    {
      var tenure := Tenure(owner, now, now + visibility);
      t := tenure;
      ids := ClaimLowest(tenure, scope, limit, locked);
    }

    /** The claim's statement: the lowest ids first, skipping rows another statement has locked. */
    method ClaimLowest(t: Tenure, scope: Option<Kind>, limit: nat, locked: set<nat>) returns (ids: seq<nat>)
      requires Valid() && clock <= t.start
      modifies this
      ensures Valid() && Step(old(View()), Op.Claim(Elements(ids), t.owner, scope, t.start, t.until), View())
      ensures Lists(ids, Takeable(old(rows), scope, t.start, locked), limit)
    {
      ids := PickLowest(rows, scope, limit, t.start, locked);
      SelectedIsStep(View(), scope, limit, locked, ids, t);
      Take(Elements(ids), t);
    }

    method Take(ids: set<nat>, t: Tenure)
      requires HistoryOk(AfterClaim(View(), ids, t))
      modifies this
      ensures Valid() && View() == AfterClaim(old(View()), ids, t)
    {
      rows := Claimed(rows, ids, t.owner, t.until);
      tenures := ClaimedTenures(tenures, ids, t);
      clock := t.start;
    }

    /** `renew_outbox_claim`: only the recorded owner of an open message. */
    method Renew(id: nat, owner: Drainer, visibility: int, now: int) returns (renewed: bool)
      requires Valid() && clock <= now
      modifies this
      ensures Valid()
      ensures renewed <==>
                && id in old(rows) && old(rows)[id].claimedBy == Some(owner)
                && !old(rows)[id].dispatched && !old(rows)[id].deadLettered
      ensures rows == if renewed then old(rows)[id := old(rows)[id].(claimedUntil := Some(now + visibility))]
                      else old(rows)
      ensures Step(old(View()), Op.Renew(id, owner, now, now + visibility), View())
    {
      ghost var before := View();
      renewed := Renewable(rows, id, owner);
      if renewed {
        tenures := tenures[id := Extended(tenures[id], now + visibility)];
        rows := rows[id := rows[id].(claimedUntil := Some(now + visibility))];
      }
      clock := now;
      StepKeepsHistory(before, Op.Renew(id, owner, now, now + visibility), View());
    }

    method MarkDispatched(id: nat)
      requires Valid()
      modifies this
      ensures Valid()
      ensures Step(old(View()), Op.MarkDispatched(id), View())
      ensures rows.Keys == old(rows).Keys && (id in rows ==> rows[id] == old(rows)[id].(dispatched := true))
      ensures forall other :: other in rows && other != id ==> other in old(rows) && rows[other] == old(rows)[other]
    {
      ghost var before := View();
      if id in rows {
        rows := rows[id := rows[id].(dispatched := true)];
      }
      StepKeepsHistory(before, Op.MarkDispatched(id), View());
    }

    method DeadLetter(id: nat)
      requires Valid()
      modifies this
      ensures Valid()
      ensures Step(old(View()), Op.DeadLetter(id), View())
      ensures rows.Keys == old(rows).Keys && (id in rows ==> rows[id] == old(rows)[id].(deadLettered := true))
      ensures forall other :: other in rows && other != id ==> other in old(rows) && rows[other] == old(rows)[other]
    {
      ghost var before := View();
      if id in rows {
        rows := rows[id := rows[id].(deadLettered := true)];
      }
      StepKeepsHistory(before, Op.DeadLetter(id), View());
    }
  }

  /** `ids` lists the lowest `limit` rows of `all`, in order. */
  ghost predicate Lists(ids: seq<nat>, all: set<nat>, limit: nat) {
    && |ids| <= limit && (forall i, j :: 0 <= i < j < |ids| ==> ids[i] < ids[j])
    && Elements(ids) <= all
    && (forall i, id :: 0 <= i < |ids| && id in all - Elements(ids) ==> |ids| == limit && ids[i] < id)
    && (|ids| < limit ==> Elements(ids) == all)
  }

  lemma SelectedIsStep(s: State, scope: Option<Kind>, limit: nat, locked: set<nat>, ids: seq<nat>, t: Tenure)
    requires HistoryOk(s) && s.clock <= t.start && Lists(ids, Takeable(s.rows, scope, t.start, locked), limit)
    ensures HistoryOk(AfterClaim(s, Elements(ids), t))
    ensures Step(s, Op.Claim(Elements(ids), t.owner, scope, t.start, t.until), AfterClaim(s, Elements(ids), t))
  {
    ClaimKeepsHistory(s, Elements(ids), t);
  }

  predicate Lowest(ids: set<nat>, id: nat) {
    id in ids && forall other :: other in ids ==> id <= other
  }

  /** The claim's inner SELECT: `ORDER BY id FOR UPDATE SKIP LOCKED LIMIT`. */
  method PickLowest(rows: Rows, scope: Option<Kind>, limit: nat, now: int, locked: set<nat>) returns (ids: seq<nat>)
    ensures Lists(ids, Takeable(rows, scope, now, locked), limit)
  {
    var all := Takeable(rows, scope, now, locked);
    var left := all;
    ids := [];
    while |ids| < limit && left != {}
      invariant |ids| <= limit && left <= all
      invariant forall i, j :: 0 <= i < j < |ids| ==> ids[i] < ids[j]
      invariant left == all - Elements(ids) && Elements(ids) <= all
      invariant forall i, id :: 0 <= i < |ids| && id in left ==> ids[i] < id
      decreases left
    {
      SmallestExists(left);
      var id :| Lowest(left, id);
      ids, left := ids + [id], left - {id};
    }
    assert forall id :: id in all ==> id in left || id in Elements(ids);
  }

  lemma {:induction false} SmallestExists(ids: set<nat>)
    requires ids != {}
    ensures exists id :: Lowest(ids, id)
  {
    var id :| id in ids;
    var rest := ids - {id};
    if rest == {} {
      forall other | other in ids ensures id <= other { assert other in rest || other == id; }
      assert Lowest(ids, id);
    } else {
      SmallestExists(rest);
      var least :| Lowest(rest, least);
      var low := if id < least then id else least;
      forall other | other in ids ensures low <= other { assert other in rest || other == id; }
      assert Lowest(ids, low);
    }
  }

  // ----------------------------------------------------------------- whole runs

  ghost predicate IsRun(trace: seq<State>, ops: seq<Op>) {
    && |trace| == |ops| + 1 && trace[0].rows == map[] && trace[0].tenures == map[]
    && forall i :: 0 <= i < |ops| ==> Step(trace[i], ops[i], trace[i + 1])
  }

  lemma {:induction false} RunHistory(trace: seq<State>, ops: seq<Op>, i: nat)
    requires IsRun(trace, ops) && i < |trace|
    ensures HistoryOk(trace[i])
  {
    if i > 0 {
      RunHistory(trace, ops, i - 1);
      StepKeepsHistory(trace[i - 1], ops[i - 1], trace[i]);
    }
  }

  predicate LiveAt(t: Tenure, at: int) {
    t.start <= at < t.until
  }

  /** Claims are exclusive: at no time are two tenures of one message live. */
  lemma ClaimsAreExclusive(trace: seq<State>, ops: seq<Op>, i: nat, id: nat, a: nat, b: nat, at: int)
    requires IsRun(trace, ops) && i < |trace| && id in trace[i].tenures
    requires a < |trace[i].tenures[id]| && b < |trace[i].tenures[id]|
    requires LiveAt(trace[i].tenures[id][a], at) && LiveAt(trace[i].tenures[id][b], at)
    ensures a == b
  {
    RunHistory(trace, ops, i);
    assert RowOk(trace[i].rows[id], trace[i].tenures[id], trace[i].clock);
  }

  /** Whoever may renew is the last to have claimed. */
  lemma OnlyLastClaimantRenews(trace: seq<State>, ops: seq<Op>, i: nat, id: nat, owner: Drainer)
    requires IsRun(trace, ops) && i < |trace| && Renewable(trace[i].rows, id, owner)
    ensures id in trace[i].tenures && trace[i].tenures[id] != []
    ensures trace[i].tenures[id][|trace[i].tenures[id]| - 1].owner == owner
  {
    RunHistory(trace, ops, i);
    assert RowOk(trace[i].rows[id], trace[i].tenures[id], trace[i].clock);
  }

  /** A claim retaken by another is never renewed by the first owner, unless that owner claims again. */
  lemma {:induction false} RetakenIsNeverRenewed(trace: seq<State>, ops: seq<Op>, i: nat, j: nat, id: nat,
      owner: Drainer)
    requires IsRun(trace, ops) && i <= j < |trace| && id in trace[i].rows && trace[i].rows[id].claimedBy != Some(owner)
    requires forall m :: i <= m < j ==> !(ops[m].Claim? && id in ops[m].ids && ops[m].owner == owner)
    ensures id in trace[j].rows && trace[j].rows[id].claimedBy != Some(owner) && !Renewable(trace[j].rows, id, owner)
    decreases j
  {
    if i < j {
      RetakenIsNeverRenewed(trace, ops, i, j - 1, id, owner);
      assert Step(trace[j - 1], ops[j - 1], trace[j - 1 + 1]);
    }
  }

  /** Dispatched or dead-lettered is for good: the message is never claimed or renewed again. */
  lemma {:induction false} ClosedStaysClosed(trace: seq<State>, ops: seq<Op>, i: nat, j: nat, id: nat)
    requires IsRun(trace, ops) && i <= j < |trace| && id in trace[i].rows && !Open(trace[i].rows[id])
    ensures id in trace[j].rows && !Open(trace[j].rows[id])
    ensures forall m :: i <= m < j && ops[m].Claim? ==> id !in ops[m].ids
    ensures forall owner :: !Renewable(trace[j].rows, id, owner)
    decreases j
  {
    if i < j {
      ClosedStaysClosed(trace, ops, i, j - 1, id);
      assert Step(trace[j - 1], ops[j - 1], trace[j - 1 + 1]);
    }
  }

  /** The flag that the call `op` sets. */
  predicate Flag(m: Message, op: Op) {
    (op.MarkDispatched? && m.dispatched) || (op.DeadLetter? && m.deadLettered)
  }

  lemma FlagNext(trace: seq<State>, ops: seq<Op>, p: nat, i: nat, id: nat, op: Op)
    requires IsRun(trace, ops) && p < |ops| && i == p + 1 && id in trace[i].rows
    requires op == MarkDispatched(id) || op == DeadLetter(id)
    requires forall m :: 0 <= m < p && id !in trace[p].rows ==> id !in trace[m].rows
    requires id in trace[p].rows ==> (Flag(trace[p].rows[id], op) <==> exists m :: Marked(trace, ops, m, p, id, op))
    ensures Flag(trace[i].rows[id], op) <==> exists m :: Marked(trace, ops, m, i, id, op)
  {
    assert Step(trace[p], ops[p], trace[p + 1]);
    if m :| Marked(trace, ops, m, i, id, op) {
      assert m != p ==> Marked(trace, ops, m, p, id, op);
    }
    if Flag(trace[i].rows[id], op) {
      if ops[p] == op && id in trace[p].rows {
        assert Marked(trace, ops, p, i, id, op);
      } else {
        var m :| Marked(trace, ops, m, p, id, op);
        assert Marked(trace, ops, m, i, id, op);
      }
    }
  }

  lemma {:induction false} FlagIffMarked(trace: seq<State>, ops: seq<Op>, i: nat, id: nat, op: Op)
    requires IsRun(trace, ops) && i < |trace| && id in trace[i].rows
    requires op == MarkDispatched(id) || op == DeadLetter(id)
    ensures Flag(trace[i].rows[id], op) <==> exists m :: Marked(trace, ops, m, i, id, op)
    decreases i
  {
    var p := i - 1;
    if id in trace[p].rows {
      FlagIffMarked(trace, ops, p, id, op);
    } else {
      NotBefore(trace, ops, p, id);
    }
    FlagNext(trace, ops, p, i, id, op);
  }

  /** A message says it was dispatched iff it was marked so, and dead-lettered iff it was dead-lettered. */
  lemma FlagsSayWhatWasDone(trace: seq<State>, ops: seq<Op>, i: nat, id: nat)
    requires IsRun(trace, ops) && i < |trace| && id in trace[i].rows
    ensures trace[i].rows[id].dispatched <==> exists m :: Marked(trace, ops, m, i, id, MarkDispatched(id))
    ensures trace[i].rows[id].deadLettered <==> exists m :: Marked(trace, ops, m, i, id, DeadLetter(id))
  {
    FlagIffMarked(trace, ops, i, id, MarkDispatched(id));
    FlagIffMarked(trace, ops, i, id, DeadLetter(id));
  }

  /** The call `op` on message `id` is made before state `i`, while the message is in the table. */
  ghost predicate Marked(trace: seq<State>, ops: seq<Op>, m: int, i: nat, id: nat, op: Op) {
    0 <= m < i && m < |ops| && m < |trace| && ops[m] == op && id in trace[m].rows
  }

  lemma {:induction false} NotBefore(trace: seq<State>, ops: seq<Op>, i: nat, id: nat)
    requires IsRun(trace, ops) && i < |trace| && id !in trace[i].rows
    ensures forall m :: 0 <= m <= i ==> id !in trace[m].rows
    decreases i
  {
    if i > 0 {
      assert Step(trace[i - 1], ops[i - 1], trace[i - 1 + 1]);
      NotBefore(trace, ops, i - 1, id);
    }
  }
}
