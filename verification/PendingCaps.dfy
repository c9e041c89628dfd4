/**
 How many live requests one requester can have.  Its raises for one human run under that human's lock; raises for
 different humans do not wait for each other.
 */
module PendingCaps {
  import opened Options
  import opened StepUpRequests

  /** Requester `q` acts for these humans. */
  ghost predicate ActsFor(actions: seq<Action>, q: Requester, humans: set<Human>) {
    forall i :: 0 <= i < |actions| && actions[i].Lock? && actions[i].request.requester == q ==>
      actions[i].request.human in humans
  }

  ghost predicate RaisersIn(s: State, q: Requester, humans: set<Human>) {
    forall h :: h in s.raising && s.raising[h].request.requester == q ==> h in humans
  }

  /** The raises of `q` that have counted its requests and not yet inserted. */
  function Counted(s: State, q: Requester): set<Human> {
    set h | h in s.raising && s.raising[h].request.requester == q && !s.raising[h].phase.Locked?
  }

  /** Every raise past its count may still add one. */
  ghost predicate RequesterOk(s: State, caps: Caps, q: Requester, n: nat) {
    |LiveBy(s.rows, q, s.clock)| + |Counted(s, q)| <= caps.perRequester + n - 1
  }

  lemma {:induction false} HumansSize(a: set<Human>, b: set<Human>)
    requires a <= b
    ensures |a| <= |b|
    decreases a
  {
    if x :| x in a {
      HumansSize(a - {x}, b - {x});
    }
  }

  lemma CountKeepsRequester(s: State, caps: Caps, h: Human, s': State, q: Requester, humans: set<Human>)
    requires RaisingOk(s) && RaisersIn(s, q, humans) && RequesterOk(s, caps, q, |humans|)
    requires Step(s, caps, CountRequester(h), s')
    ensures RequesterOk(s', caps, q, |humans|)
  {
    if s.raising[h].request.requester == q {
      assert LiveBy(s.rows, q, s.clock) <= LiveBy(s.rows, q, s.raising[h].now);
      SubsetSize(LiveBy(s.rows, q, s.clock), LiveBy(s.rows, q, s.raising[h].now));
      HumansSize(Counted(s', q), humans);
    } else {
      assert Counted(s', q) == Counted(s, q);
    }
  }

  lemma InsertLive(rows: Rows, id: RequestId, r: Request, q: Requester, t: int)
    requires id !in rows
    ensures |LiveBy(rows[id := r], q, t)| <= |LiveBy(rows, q, t)| + (if q == r.requester then 1 else 0)
  {
    var added: set<RequestId> := if q == r.requester then {id} else {};
    SubsetSize(LiveBy(rows[id := r], q, t), LiveBy(rows, q, t) + added);
  }

  lemma InsertCounted(s: State, h: Human, q: Requester)
    requires InPhase(s, h, BothCounted)
    ensures |Counted(Inserted(s, h), q)| == |Counted(s, q)| - (if q == s.raising[h].request.requester then 1 else 0)
  {
    var gone: set<Human> := if q == s.raising[h].request.requester then {h} else {};
    assert Counted(Inserted(s, h), q) == Counted(s, q) - gone;
  }

  lemma InsertKeepsRequester(s: State, caps: Caps, h: Human, s': State, q: Requester, n: nat)
    requires s.rows.Keys <= s.issued && RequesterOk(s, caps, q, n) && Step(s, caps, Insert(h), s')
    ensures RequesterOk(s', caps, q, n)
  {
    InsertLive(s.rows, s.raising[h].id, s.raising[h].request, q, s.clock);
    InsertCounted(s, h, q);
  }

  lemma OtherKeepsRequester(s: State, caps: Caps, action: Action, s': State, q: Requester, n: nat)
    requires RequesterOk(s, caps, q, n) && Step(s, caps, action, s') && !action.Insert? && !action.CountRequester?
    ensures RequesterOk(s', caps, q, n)
  {
    OnlyInsertAdds(s, caps, action, s', s'.clock);
    assert LiveBy(s'.rows, q, s'.clock) <= LiveBy(s.rows, q, s.clock);
    SubsetSize(LiveBy(s'.rows, q, s'.clock), LiveBy(s.rows, q, s.clock));
    assert Counted(s', q) <= Counted(s, q);
    HumansSize(Counted(s', q), Counted(s, q));
  }

  lemma {:induction false} RunRequester(trace: seq<State>, caps: Caps, actions: seq<Action>, i: nat, q: Requester,
                                        humans: set<Human>)
    requires IsRun(trace, caps, actions) && i < |trace| && ActsFor(actions, q, humans) && humans != {}
    ensures RaisersIn(trace[i], q, humans) && RequesterOk(trace[i], caps, q, |humans|)
  {
    if i == 0 {
      assert LiveBy(trace[0].rows, q, trace[0].clock) == {} && Counted(trace[0], q) == {};
    } else {
      var m := i - 1;
      RunRequester(trace, caps, actions, m, q, humans);
      RequesterNext(trace, caps, actions, m, q, humans);
    }
  }

  lemma RequesterNext(trace: seq<State>, caps: Caps, actions: seq<Action>, m: nat, q: Requester, humans: set<Human>)
    requires IsRun(trace, caps, actions) && m < |actions| && ActsFor(actions, q, humans)
    requires RaisersIn(trace[m], q, humans) && RequesterOk(trace[m], caps, q, |humans|)
    ensures RaisersIn(trace[m + 1], q, humans) && RequesterOk(trace[m + 1], caps, q, |humans|)
  {
    RunOnce(trace, caps, actions, m);
    StepKeepsRequester(trace[m], caps, actions[m], trace[m + 1], q, humans);
  }

  lemma StepKeepsRaisers(s: State, caps: Caps, action: Action, s': State, q: Requester, humans: set<Human>)
    requires RaisersIn(s, q, humans) && Step(s, caps, action, s')
    requires action.Lock? && action.request.requester == q ==> action.request.human in humans
    ensures RaisersIn(s', q, humans)
  {
  }

  lemma StepKeepsRequester(s: State, caps: Caps, action: Action, s': State, q: Requester, humans: set<Human>)
    requires OnceOk(s) && RaisingOk(s) && RaisersIn(s, q, humans) && RequesterOk(s, caps, q, |humans|)
    requires Step(s, caps, action, s')
    requires action.Lock? && action.request.requester == q ==> action.request.human in humans
    ensures RaisersIn(s', q, humans) && RequesterOk(s', caps, q, |humans|)
  {
    StepKeepsRaisers(s, caps, action, s', q, humans);
    if action.CountRequester? {
      CountKeepsRequester(s, caps, action.human, s', q, humans);
    } else if action.Insert? {
      InsertKeepsRequester(s, caps, action.human, s', q, |humans|);
    } else {
      OtherKeepsRequester(s, caps, action, s', q, |humans|);
    }
  }

  /** The requests of `q` are for these humans. */
  ghost predicate RowsIn(s: State, q: Requester, humans: set<Human>) {
    forall id :: id in s.rows && s.rows[id].requester == q ==> s.rows[id].human in humans
  }

  lemma StepKeepsRows(s: State, caps: Caps, action: Action, s': State, q: Requester, humans: set<Human>)
    requires RowsIn(s, q, humans) && RaisersIn(s, q, humans) && RaisingOk(s) && Step(s, caps, action, s')
    ensures RowsIn(s', q, humans)
  {
  }

  lemma {:induction false} RunRows(trace: seq<State>, caps: Caps, actions: seq<Action>, i: nat, q: Requester,
                                   humans: set<Human>)
    requires IsRun(trace, caps, actions) && i < |trace| && ActsFor(actions, q, humans) && humans != {}
    ensures RowsIn(trace[i], q, humans)
  {
    if i > 0 {
      RunRows(trace, caps, actions, i - 1, q, humans);
      RunRequester(trace, caps, actions, i - 1, q, humans);
      RunOnce(trace, caps, actions, i - 1);
      StepKeepsRows(trace[i - 1], caps, actions[i - 1], trace[i], q, humans);
    }
  }

  function LiveWithin(rows: Rows, q: Requester, humans: set<Human>, t: int): set<RequestId> {
    set id | id in rows && rows[id].requester == q && rows[id].human in humans && LiveAt(rows[id], t)
  }

  lemma {:induction false} SumOfHumans(rows: Rows, q: Requester, humans: set<Human>, t: int, each: nat)
    requires forall h :: h in humans ==> |LiveFor(rows, h, t)| <= each
    ensures |LiveWithin(rows, q, humans, t)| <= |humans| * each
    decreases humans
  {
    if h :| h in humans {
      var rest := humans - {h};
      SumOfHumans(rows, q, rest, t, each);
      SubsetSize(LiveWithin(rows, q, humans, t), LiveWithin(rows, q, rest, t) + LiveFor(rows, h, t));
      assert |humans| == |rest| + 1;
      Distributes(|rest|, each);
    } else {
      assert LiveWithin(rows, q, humans, t) == {};
    }
  }

  lemma Distributes(n: nat, each: nat)
    ensures (n + 1) * each == n * each + each
  {
  }

  /** With a cap of nothing, nothing is ever counted, and so nothing inserted. */
  lemma {:induction false} NoneWithoutCap(trace: seq<State>, caps: Caps, actions: seq<Action>, i: nat)
    requires IsRun(trace, caps, actions) && i < |trace| && caps.perRequester == 0
    ensures trace[i].rows == map[] && forall h :: h in trace[i].raising ==> trace[i].raising[h].phase.Locked?
  {
    if i > 0 {
      NoneWithoutCap(trace, caps, actions, i - 1);
      assert Step(trace[i - 1], caps, actions[i - 1], trace[i - 1 + 1]);
    }
  }

  function Least(a: int, b: int): int {
    if a < b then a else b
  }

  /** The most live requests of a requester that acts for `n` humans. */
  function Most(caps: Caps, n: nat): int {
    if caps.perRequester == 0 then 0 else Least(caps.perRequester + n - 1, n * caps.perHuman)
  }

  /** A requester that acts for n humans never has more live requests than its cap plus n - 1, nor than the n humans'
      caps together. */
  lemma RequesterCapHolds(trace: seq<State>, caps: Caps, actions: seq<Action>, i: nat, q: Requester,
                          humans: set<Human>)
    requires IsRun(trace, caps, actions) && i < |trace| && ActsFor(actions, q, humans) && humans != {}
    ensures |LiveBy(trace[i].rows, q, trace[i].clock)| <= Most(caps, |humans|)
    ensures var rows, now := trace[i].rows, trace[i].clock;
            var live :=
              set id | id in rows && rows[id].requester == q && rows[id].state.Pending? && now < rows[id].expiresAt;
            && |live| <= |humans| * caps.perHuman
            && if caps.perRequester == 0 then live == {} else |live| <= caps.perRequester + |humans| - 1
  {
    var s := trace[i];
    assert LiveBy(s.rows, q, s.clock) == set id | id in s.rows && s.rows[id].requester == q
                                                  && s.rows[id].state.Pending? && s.clock < s.rows[id].expiresAt;
    if caps.perRequester == 0 {
      NoneWithoutCap(trace, caps, actions, i);
      assert LiveBy(s.rows, q, s.clock) == {};
    } else {
      RunRequester(trace, caps, actions, i, q, humans);
      RunRows(trace, caps, actions, i, q, humans);
      forall h | h in humans ensures |LiveFor(s.rows, h, s.clock)| <= caps.perHuman {
        RunHuman(trace, caps, actions, i, h);
      }
      SumOfHumans(s.rows, q, humans, s.clock, caps.perHuman);
      assert LiveBy(s.rows, q, s.clock) == LiveWithin(s.rows, q, humans, s.clock);
    }
  }

  // ------------------------------------------------------------------- the bound is reached

  /** The run reaches `s`, and requester `q` raises only for `group` in it. */
  ghost predicate ReachesFor(h: History, caps: Caps, s: State, q: Requester, group: set<Human>) {
    Reaches(h, caps, s) && ActsFor(h.actions, q, group)
  }

  lemma ActsForMore(actions: seq<Action>, more: seq<Action>, q: Requester, group: set<Human>)
    requires ActsFor(actions, q, group) && ActsFor(more, q, group)
    ensures ActsFor(actions + more, q, group)
  {
  }

  ghost predicate Distinct(humans: seq<Human>) {
    forall i, j :: 0 <= i < j < |humans| ==> humans[i] != humans[j]
  }

  function Group(humans: seq<Human>): set<Human> {
    set h | h in humans
  }

  lemma CountsFor(h: History, caps: Caps, s: State, id: RequestId, q: Requester, humans: seq<Human>, human: Human)
    returns (h': History)
    requires ReachesFor(h, caps, s, q, Group(humans)) && human in humans && human !in s.raising && s.clock == 0
    requires |LiveBy(s.rows, q, 0)| < caps.perRequester && |LiveFor(s.rows, human, 0)| < caps.perHuman
    ensures ReachesFor(h', caps, RaisingIn(s, id, Parked(q, human), BothCounted), q, Group(humans))
  {
    h' := CountsBoth(h, caps, s, id, Parked(q, human));
    ActsForMore(h.actions, [Lock(id, Parked(q, human), 0), CountRequester(human), CountHuman(human)], q, Group(humans));
  }

  lemma InsertsFor(h: History, caps: Caps, s: State, q: Requester, group: set<Human>, human: Human)
    returns (h': History)
    requires ReachesFor(h, caps, s, q, group) && InPhase(s, human, BothCounted)
    requires s.raising[human].id !in s.issued
    ensures ReachesFor(h', caps, Inserted(s, human), q, group)
  {
    h' := InsertsOne(h, caps, s, human);
    ActsForMore(h.actions, [Insert(human)], q, group);
  }

  lemma InsertedIsLive(rows: Rows, id: RequestId, r: Request, t: int)
    requires id !in rows && LiveAt(r, t)
    ensures LiveBy(rows[id := r], r.requester, t) == LiveBy(rows, r.requester, t) + {id}
    ensures LiveFor(rows[id := r], r.human, t) == LiveFor(rows, r.human, t) + {id}
    ensures forall g :: g != r.human ==> LiveFor(rows[id := r], g, t) == LiveFor(rows, g, t)
  {
    forall g | g != r.human ensures LiveFor(rows[id := r], g, t) == LiveFor(rows, g, t) {}
  }

  /** A live request of `q` for `h`. */
  function Parked(q: Requester, h: Human): Request {
    Request(h, q, 10, Pending, true, 0, 0)
  }

  ghost predicate Injective(ids: nat -> RequestId) {
    forall i: nat, j: nat :: ids(i) == ids(j) ==> i == j
  }

  function FirstIds(ids: nat -> RequestId, n: nat): set<RequestId> {
    set i: nat | i < n :: ids(i)
  }

  /** `total` requests are live; of the humans, the one at `k` has at most `c`, later ones none, and nobody more
      than `each`. */
  ghost predicate Filled(rows: Rows, q: Requester, humans: seq<Human>, total: nat, k: nat, c: nat, each: nat) {
    && |LiveBy(rows, q, 0)| == total && total == k * each + c && c <= each && k < |humans|
    && (forall h :: |LiveFor(rows, h, 0)| <= each) && |LiveFor(rows, humans[k], 0)| <= c
    && (forall i :: k < i < |humans| ==> |LiveFor(rows, humans[i], 0)| == 0)
  }

  ghost predicate Quiet(s: State, ids: nat -> RequestId, total: nat) {
    s.clock == 0 && s.raising == map[] && s.rows.Keys == FirstIds(ids, total) && s.issued == FirstIds(ids, total)
  }

  lemma FilledGrows(rows: Rows, q: Requester, humans: seq<Human>, id: RequestId, total: nat, k: nat, c: nat, each: nat)
    requires Filled(rows, q, humans, total, k, c, each) && c < each && id !in rows
    requires Distinct(humans)
    ensures Filled(rows[id := Parked(q, humans[k])], q, humans, total + 1, k, c + 1, each)
  {
    var rows' := rows[id := Parked(q, humans[k])];
    InsertedIsLive(rows, id, Parked(q, humans[k]), 0);
    assert id !in LiveBy(rows, q, 0) && id !in LiveFor(rows, humans[k], 0);
    assert |LiveFor(rows', humans[k], 0)| == |LiveFor(rows, humans[k], 0)| + 1;
    forall h ensures |LiveFor(rows', h, 0)| <= each {
      assert h == humans[k] || LiveFor(rows', h, 0) == LiveFor(rows, h, 0);
    }
  }

  lemma RaisesOne(h: History, caps: Caps, s: State, q: Requester, humans: seq<Human>, human: Human,
                  ids: nat -> RequestId, total: nat)
    returns (h': History, s': State)
    requires ReachesFor(h, caps, s, q, Group(humans)) && human in humans && Quiet(s, ids, total) && Injective(ids)
    requires |LiveBy(s.rows, q, 0)| < caps.perRequester && |LiveFor(s.rows, human, 0)| < caps.perHuman
    ensures ReachesFor(h', caps, s', q, Group(humans)) && Quiet(s', ids, total + 1)
    ensures s'.rows == s.rows[ids(total) := Parked(q, human)]
  {
    assert ids(total) !in FirstIds(ids, total);
    h' := CountsFor(h, caps, s, ids(total), q, humans, human);
    h' := InsertsFor(h', caps, RaisingIn(s, ids(total), Parked(q, human), BothCounted), q, Group(humans), human);
    s' := Inserted(RaisingIn(s, ids(total), Parked(q, human), BothCounted), human);
    assert FirstIds(ids, total + 1) == FirstIds(ids, total) + {ids(total)};
  }

  lemma FillsOne(h: History, caps: Caps, s: State, q: Requester, humans: seq<Human>, ids: nat -> RequestId,
                 total: nat, k: nat, c: nat) returns (h': History, s': State)
    requires ReachesFor(h, caps, s, q, Group(humans)) && Quiet(s, ids, total) && Injective(ids) && caps.perHuman > 0
    requires Filled(s.rows, q, humans, total, k, c, caps.perHuman - 1) && Distinct(humans)
    requires total < caps.perRequester && c < caps.perHuman - 1
    ensures ReachesFor(h', caps, s', q, Group(humans)) && Quiet(s', ids, total + 1)
    ensures Filled(s'.rows, q, humans, total + 1, k, c + 1, caps.perHuman - 1)
  {
    FilledGrows(s.rows, q, humans, ids(total), total, k, c, caps.perHuman - 1);
    h', s' := RaisesOne(h, caps, s, q, humans, humans[k], ids, total);
  }

  /** One requester fills up to `goal`, below its cap, leaving every human room for one more. */
  lemma {:induction false} Fills(h: History, caps: Caps, s: State, q: Requester, humans: seq<Human>,
                                 ids: nat -> RequestId, total: nat, k: nat, c: nat, goal: nat)
    returns (h': History, s': State)
    requires ReachesFor(h, caps, s, q, Group(humans)) && Quiet(s, ids, total) && Injective(ids) && caps.perHuman > 0
    requires Filled(s.rows, q, humans, total, k, c, caps.perHuman - 1) && Distinct(humans)
    requires total <= goal < caps.perRequester && goal <= |humans| * (caps.perHuman - 1)
    ensures ReachesFor(h', caps, s', q, Group(humans)) && Quiet(s', ids, goal)
    ensures |LiveBy(s'.rows, q, 0)| == goal && forall x :: |LiveFor(s'.rows, x, 0)| < caps.perHuman
    decreases goal - total
  {
    h', s' := h, s;
    if total < goal {
      var k', c' := k, c;
      if c == caps.perHuman - 1 {
        NextHuman(total, k, caps.perHuman - 1, goal, |humans|);
        k', c' := k + 1, 0;
      }
      h', s' := FillsOne(h, caps, s, q, humans, ids, total, k', c');
      h', s' := Fills(h', caps, s', q, humans, ids, total + 1, k', c' + 1, goal);
    }
  }

  lemma NothingFilled(q: Requester, humans: seq<Human>, each: nat)
    requires humans != []
    ensures Filled(map[], q, humans, 0, 0, 0, each)
  {
    var rows: Rows := map[];
    assert LiveBy(rows, q, 0) == {};
    forall g ensures LiveFor(rows, g, 0) == {} {}
  }

  lemma NextHuman(total: nat, k: nat, each: nat, goal: nat, n: nat)
    requires total == k * each + each && total < goal <= n * each && k < n
    ensures k + 1 < n && total == (k + 1) * each && each > 0
  {
    Distributes(k, each);
    assert (n - (k + 1)) * each > 0;
    PositiveFactors(n - (k + 1), each);
  }

  lemma PositiveFactors(x: int, y: nat)
    requires x * y > 0
    ensures x > 0 && y > 0
  {
  }

  // --------------------------------------------------------------------- and all at once

  /** The first `n` humans have a raise of `q` past both counts, under their own locks. */
  ghost predicate AllCounted(s: State, q: Requester, humans: seq<Human>, ids: nat -> RequestId, base: nat, from: nat,
      n: nat) {
    && from <= n <= |humans|
    && (forall i :: from <= i < n ==>
          humans[i] in s.raising
              && s.raising[humans[i]] == Raising(ids(base + i), Parked(q, humans[i]), 0, BothCounted))
    && (forall h :: h in s.raising ==> exists i :: from <= i < n && h == humans[i])
  }

  lemma CountsAll(h: History, caps: Caps, s: State, q: Requester, humans: seq<Human>, ids: nat -> RequestId, base: nat)
    returns (h': History, s': State)
    requires ReachesFor(h, caps, s, q, Group(humans)) && s.clock == 0 && s.raising == map[] && Distinct(humans)
    requires |LiveBy(s.rows, q, 0)| < caps.perRequester
    requires forall i :: 0 <= i < |humans| ==> |LiveFor(s.rows, humans[i], 0)| < caps.perHuman
    ensures ReachesFor(h', caps, s', q, Group(humans)) && AllCounted(s', q, humans, ids, base, 0, |humans|)
    ensures s'.rows == s.rows && s'.issued == s.issued && s'.clock == 0
  {
    h', s' := h, s;
    for n := 0 to |humans|
      invariant ReachesFor(h', caps, s', q, Group(humans)) && AllCounted(s', q, humans, ids, base, 0, n)
      invariant s'.rows == s.rows && s'.issued == s.issued && s'.clock == 0
    {
      h' := CountsFor(h', caps, s', ids(base + n), q, humans, humans[n]);
      OneMoreCounted(s', q, humans, ids, base, n);
      s' := RaisingIn(s', ids(base + n), Parked(q, humans[n]), BothCounted);
    }
  }

  lemma OneMoreCounted(s: State, q: Requester, humans: seq<Human>, ids: nat -> RequestId, base: nat, n: nat)
    requires n < |humans| && AllCounted(s, q, humans, ids, base, 0, n) && s.clock == 0
    requires Distinct(humans)
    ensures AllCounted(RaisingIn(s, ids(base + n), Parked(q, humans[n]), BothCounted), q, humans, ids, base, 0, n + 1)
  {
  }

  ghost predicate Issued(s: State, ids: nat -> RequestId, n: nat) {
    s.clock == 0 && s.rows.Keys == FirstIds(ids, n) && s.issued == FirstIds(ids, n)
  }

  lemma InsertLeavesRest(s: State, q: Requester, humans: seq<Human>, ids: nat -> RequestId, base: nat, n: nat)
    requires n < |humans| && AllCounted(s, q, humans, ids, base, n, |humans|)
    requires Distinct(humans)
    ensures AllCounted(Inserted(s, humans[n]), q, humans, ids, base, n + 1, |humans|)
  {
    var s' := Inserted(s, humans[n]);
    forall i | n + 1 <= i < |humans| ensures humans[i] in s'.raising && s'.raising[humans[i]] == s.raising[humans[i]] {
      assert humans[i] != humans[n];
    }
    forall h | h in s'.raising ensures exists i :: n + 1 <= i < |humans| && h == humans[i] {
      var i :| n <= i < |humans| && h == humans[i];
      assert i != n;
    }
  }

  lemma InsertAddsLive(s: State, q: Requester, h: Human, ids: nat -> RequestId, n: nat)
    requires h in s.raising && s.raising[h].id == ids(n) && s.raising[h].request == Parked(q, h)
    requires Issued(s, ids, n) && Injective(ids)
    ensures Issued(Inserted(s, h), ids, n + 1) && |LiveBy(Inserted(s, h).rows, q, 0)| == |LiveBy(s.rows, q, 0)| + 1
  {
    assert ids(n) !in FirstIds(ids, n);
    InsertedIsLive(s.rows, ids(n), Parked(q, h), 0);
    assert ids(n) !in LiveBy(s.rows, q, 0);
    assert FirstIds(ids, n + 1) == FirstIds(ids, n) + {ids(n)};
  }

  lemma InsertsNext(h: History, caps: Caps, s: State, q: Requester, humans: seq<Human>, ids: nat -> RequestId,
                    base: nat, n: nat)
    returns (h': History)
    requires ReachesFor(h, caps, s, q, Group(humans)) && n < |humans|
    requires AllCounted(s, q, humans, ids, base, n, |humans|)
    requires Injective(ids) && Issued(s, ids, base + n) && Distinct(humans)
    ensures ReachesFor(h', caps, Inserted(s, humans[n]), q, Group(humans))
    ensures AllCounted(Inserted(s, humans[n]), q, humans, ids, base, n + 1, |humans|)
    ensures Issued(Inserted(s, humans[n]), ids, base + n + 1)
    ensures |LiveBy(Inserted(s, humans[n]).rows, q, 0)| == |LiveBy(s.rows, q, 0)| + 1
  {
    assert ids(base + n) !in FirstIds(ids, base + n);
    h' := InsertsFor(h, caps, s, q, Group(humans), humans[n]);
    InsertLeavesRest(s, q, humans, ids, base, n);
    InsertAddsLive(s, q, humans[n], ids, base + n);
  }

  lemma {:induction false} InsertsAll(h: History, caps: Caps, s: State, q: Requester, humans: seq<Human>,
                                      ids: nat -> RequestId, base: nat, n: nat)
    returns (h': History, s': State)
    requires ReachesFor(h, caps, s, q, Group(humans)) && n <= |humans|
    requires AllCounted(s, q, humans, ids, base, n, |humans|) && Distinct(humans)
    requires Injective(ids) && Issued(s, ids, base + n)
    ensures ReachesFor(h', caps, s', q, Group(humans)) && s'.clock == 0
    ensures |LiveBy(s'.rows, q, 0)| == |LiveBy(s.rows, q, 0)| + |humans| - n
    decreases |humans| - n
  {
    h', s' := h, s;
    if n < |humans| {
      h' := InsertsNext(h, caps, s, q, humans, ids, base, n);
      h', s' := InsertsAll(h', caps, Inserted(s, humans[n]), q, humans, ids, base, n + 1);
    }
  }

  /** The bound is exact: a requester acting for n humans can have that many live requests, whatever the caps. */
  lemma RequesterReachesMost(caps: Caps, q: Requester, humans: seq<Human>, ids: nat -> RequestId)
    returns (h: History, s: State)
    requires humans != [] && Injective(ids) && Distinct(humans)
    ensures ReachesFor(h, caps, s, q, Group(humans)) && |LiveBy(s.rows, q, s.clock)| == Most(caps, |humans|)
    ensures caps.perRequester > 0 ==>
              || |LiveBy(s.rows, q, s.clock)| == caps.perRequester + |humans| - 1
              || |LiveBy(s.rows, q, s.clock)| == |humans| * caps.perHuman
  {
    var n := |humans|;
    h, s := History([Start(0)], []), Start(0);
    assert LiveBy(s.rows, q, 0) == {} && FirstIds(ids, 0) == {};
    if caps.perRequester > 0 && caps.perHuman > 0 {
      var goal := Least(caps.perRequester - 1, n * (caps.perHuman - 1));
      assert n * caps.perHuman == n * (caps.perHuman - 1) + n;
      h, s := FillsTo(caps, q, humans, ids, goal);
      h, s := RaisesAtOnce(h, caps, s, q, humans, ids, goal);
    }
  }

  lemma FillsTo(caps: Caps, q: Requester, humans: seq<Human>, ids: nat -> RequestId, goal: nat)
    returns (h: History, s: State)
    requires humans != [] && Injective(ids) && Distinct(humans) && caps.perHuman > 0
    requires goal < caps.perRequester && goal <= |humans| * (caps.perHuman - 1)
    ensures ReachesFor(h, caps, s, q, Group(humans)) && Quiet(s, ids, goal)
    ensures |LiveBy(s.rows, q, 0)| == goal && forall x :: |LiveFor(s.rows, x, 0)| < caps.perHuman
  {
    assert FirstIds(ids, 0) == {};
    NothingFilled(q, humans, caps.perHuman - 1);
    h, s := Fills(History([Start(0)], []), caps, Start(0), q, humans, ids, 0, 0, 0, goal);
  }

  /** Every human's lock is taken and both counts made before any insert. */
  lemma RaisesAtOnce(h: History, caps: Caps, s: State, q: Requester, humans: seq<Human>, ids: nat -> RequestId,
                     base: nat)
    returns (h': History, s': State)
    requires ReachesFor(h, caps, s, q, Group(humans)) && Quiet(s, ids, base) && Injective(ids) && Distinct(humans)
    requires |LiveBy(s.rows, q, 0)| < caps.perRequester && forall x :: |LiveFor(s.rows, x, 0)| < caps.perHuman
    ensures ReachesFor(h', caps, s', q, Group(humans)) && s'.clock == 0
    ensures |LiveBy(s'.rows, q, 0)| == |LiveBy(s.rows, q, 0)| + |humans|
  {
    h', s' := CountsAll(h, caps, s, q, humans, ids, base);
    h', s' := InsertsAll(h', caps, s', q, humans, ids, base, 0);
  }

  lemma {:induction false} GroupSize(humans: seq<Human>)
    requires Distinct(humans)
    ensures |Group(humans)| == |humans|
    decreases |humans|
  {
    if humans != [] {
      var front, last := humans[..|humans| - 1], humans[|humans| - 1];
      GroupSize(front);
      assert Group(humans) == Group(front) + {last};
    }
  }

  /** Exactly when the requester's cap holds in every run: it acts for one human, or the humans' caps together are
      within it, or it may raise nothing. */
  lemma RequesterCapHoldsIff(caps: Caps, q: Requester, humans: seq<Human>, ids: nat -> RequestId)
    requires humans != [] && Injective(ids) && Distinct(humans)
    ensures (forall h, s :: ReachesFor(h, caps, s, q, Group(humans)) ==>
               |LiveBy(s.rows, q, s.clock)| <= caps.perRequester) <==>
            |humans| == 1 || |humans| * caps.perHuman <= caps.perRequester || caps.perRequester == 0
  {
    var reached, most := RequesterReachesMost(caps, q, humans, ids);
    GroupSize(humans);
    assert humans[0] in Group(humans);
    forall h, s | ReachesFor(h, caps, s, q, Group(humans))
      ensures |LiveBy(s.rows, q, s.clock)| <= Most(caps, |humans|)
    {
      RequesterCapHolds(h.states, caps, h.actions, |h.states| - 1, q, Group(humans));
    }
  }
}
