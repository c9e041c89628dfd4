/**
 One-shot confirmations.  A WebAuthn challenge and an action confirmation are both spent by one
 conditional update, by the session they are bound to, before they expire.
 */
module Confirmations {
  import opened Options

  datatype Session = Session(hash: string)
  datatype Digest = Digest(bytes: seq<int>)

  /** What a row is for: a ceremony's challenge, or a confirmation of one of three kinds. */
  datatype Purpose = Challenge | Window(principal: string) | Action(principal: string,
      digest: Digest) | Request(principal: string)

  datatype Ticket = Ticket(session: Session, purpose: Purpose, at: int, expiresAt: int, consumedAt: Option<int>)

  /** Either table; ids are ordered as the query orders them. */
  type Tickets = map<nat, Ticket>

  predicate Spendable(t: Ticket, session: Session, now: int) {
    t.session == session && t.consumedAt.None? && t.expiresAt > now
  }

  predicate Matches(t: Ticket, session: Session, principal: string, digest: Digest, now: int) {
    Spendable(t, session, now) && t.purpose == Action(principal, digest)
  }

  function Spent(tickets: Tickets, id: nat, now: int): Tickets
    requires id in tickets
  {
    tickets[id := tickets[id].(consumedAt := Some(now))]
  }

  /** `a` comes before `b` in the order the confirmation is picked by. */
  predicate Before(tickets: Tickets, a: nat, b: nat)
    requires a in tickets && b in tickets
  {
    tickets[a].at < tickets[b].at || (tickets[a].at == tickets[b].at && a <= b)
  }

  ghost predicate FirstOf(tickets: Tickets, ids: set<nat>, id: nat) {
    id in ids && id in tickets && forall other :: other in ids && other in tickets ==> Before(tickets, id, other)
  }

  method PickFirst(tickets: Tickets, ids: set<nat>) returns (id: nat)
    requires ids != {} && ids <= tickets.Keys
    ensures FirstOf(tickets, ids, id)
  {
    id :| id in ids;
    var todo := ids - {id};
    while todo != {}
      invariant todo <= ids && id in ids - todo
      invariant forall other :: other in ids - todo ==> Before(tickets, id, other)
      decreases todo
    {
      var next :| next in todo;
      assert forall other :: other in ids - (todo - {next}) ==> other == next || other in ids - todo;
      if !Before(tickets, id, next) {
        id := next;
      }
      todo := todo - {next};
    }
  }

  class TicketTable {
    var tickets: Tickets

    constructor ()
      ensures tickets == map[]
    {
      tickets := map[];
    }

    /** `consume`: the challenge, to its own session, once. */
    method Consume(id: nat, session: Session, now: int) returns (spent: Option<Ticket>)
      modifies this
      ensures spent.Some? <==>
                && id in old(tickets) && old(tickets)[id].session == session
                && old(tickets)[id].consumedAt.None? && now < old(tickets)[id].expiresAt
      ensures spent.Some? ==>
                spent.value == old(tickets)[id].(consumedAt := Some(now)) && tickets == old(tickets)[id := spent.value]
      ensures spent.None? ==> tickets == old(tickets)
    {
      if id in tickets && Spendable(tickets[id], session, now) {
        tickets := tickets[id := tickets[id].(consumedAt := Some(now))];
        return Some(tickets[id]);
      }
      return None;
    }

    /** `consume_action`: one matching confirmation, the oldest that nobody else has locked. */
    method ConsumeAction(session: Session, principal: string, digest: Digest, now: int, locked: set<nat>)
      returns (spent: Option<nat>)
      modifies this
      ensures spent.None? <==> forall id :: id in old(tickets) && id !in locked ==>
                !Confirms(old(tickets)[id], session, principal, digest, now)
      ensures spent.None? ==> tickets == old(tickets)
      ensures spent.Some? ==>
                && spent.value in old(tickets) && spent.value !in locked
                && Confirms(old(tickets)[spent.value], session, principal, digest, now)
                && tickets == old(tickets)[spent.value := old(tickets)[spent.value].(consumedAt := Some(now))]
      ensures forall id :: spent.Some? && id in old(tickets) && id !in locked ==>
                Confirms(old(tickets)[id], session, principal, digest, now) ==>
                  || old(tickets)[spent.value].at < old(tickets)[id].at
                  || (old(tickets)[spent.value].at == old(tickets)[id].at && spent.value <= id)
    {
      var free := Matching(tickets, session, principal, digest, now) - locked;
      assert forall id :: id in tickets && id !in locked && Confirms(tickets[id], session, principal, digest, now) <==>
          id in free;
      if free == {} {
        return None;
      }
      var id := PickFirst(tickets, free);
      tickets := tickets[id := tickets[id].(consumedAt := Some(now))];
      return Some(id);
    }
  }

  /** An unspent confirmation of this action, by this session for this principal, not expired. */
  ghost predicate Confirms(t: Ticket, session: Session, principal: string, digest: Digest, now: int) {
    && t.purpose.Action? && t.purpose.principal == principal && t.purpose.digest == digest
    && t.session == session && t.consumedAt.None? && now < t.expiresAt
  }

  function Matching(tickets: Tickets, session: Session, principal: string, digest: Digest, now: int): set<nat> {
    set id | id in tickets && Matches(tickets[id], session, principal, digest, now)
  }

  // ------------------------------------------------------------------------ whole runs

  datatype Op =
    | Put(id: nat, ticket: Ticket)
    | Spend(id: nat, session: Session, now: int)
    | Delete(ids: set<nat>)          // reaps, and deletions of a Principal's or a passkey's rows

  datatype Spending = Spending(id: nat, session: Session, now: int)

  /** `issued` keeps every ticket as it was put; ids are random and never put twice. */
  datatype State = State(tickets: Tickets, issued: Tickets, spent: seq<Spending>)

  predicate Spends(s: State, op: Op) {
    op.Spend? && op.id in s.tickets && Spendable(s.tickets[op.id], op.session, op.now)
  }

  ghost predicate Step(s: State, op: Op, s': State) {
    match op
    case Put(id, t) => id !in s.issued && s' == s.(tickets := s.tickets[id := t], issued := s.issued[id := t])
    case Spend(id, session, now) =>
      s' == if Spends(s, op)
          then s.(tickets := Spent(s.tickets, id, now), spent := s.spent + [Spending(id, session, now)]) else s
    case Delete(ids) => s' == s.(tickets := s.tickets - ids)
  }

  ghost predicate IsRun(trace: seq<State>, ops: seq<Op>) {
    && |trace| == |ops| + 1 && trace[0] == State(map[], map[], [])
    && forall i :: 0 <= i < |ops| ==> Step(trace[i], ops[i], trace[i + 1])
  }

  /** A row is the ticket as put, but for having been spent. */
  ghost predicate RowsOk(s: State) {
    forall id :: id in s.tickets ==>
      && id in s.issued && s.tickets[id] == s.issued[id].(consumedAt := s.tickets[id].consumedAt)
      && (s.tickets[id].consumedAt.None? ==> s.issued[id].consumedAt.None?)
  }

  ghost predicate SpentOk(s: State) {
    && (forall i :: 0 <= i < |s.spent| ==>
          && s.spent[i].id in s.issued && Spendable(s.issued[s.spent[i].id], s.spent[i].session, s.spent[i].now)
          && (s.spent[i].id in s.tickets ==> s.tickets[s.spent[i].id].consumedAt.Some?))
    && (forall i, j :: 0 <= i < j < |s.spent| ==> s.spent[i].id != s.spent[j].id)
  }

  lemma StepKeeps(s: State, op: Op, s': State)
    requires RowsOk(s) && SpentOk(s) && Step(s, op, s')
    ensures RowsOk(s') && SpentOk(s')
  {
  }

  lemma {:induction false} RunOk(trace: seq<State>, ops: seq<Op>, i: nat)
    requires IsRun(trace, ops) && i < |trace|
    ensures RowsOk(trace[i]) && SpentOk(trace[i])
  {
    if i > 0 {
      RunOk(trace, ops, i - 1);
      StepKeeps(trace[i - 1], ops[i - 1], trace[i]);
    }
  }

  /** Each ticket is spent by at most one call, and only by the session it was put for, before it expired. */
  lemma SpentOnce(trace: seq<State>, ops: seq<Op>, i: nat)
    requires IsRun(trace, ops) && i < |trace|
    ensures forall a, b :: 0 <= a < b < |trace[i].spent| ==> trace[i].spent[a].id != trace[i].spent[b].id
    ensures forall a :: 0 <= a < |trace[i].spent| ==>
              var x := trace[i].spent[a];
              x.id in trace[i].issued && trace[i].issued[x.id].session == x.session
                  && x.now < trace[i].issued[x.id].expiresAt
  {
    RunOk(trace, ops, i);
  }

  ghost predicate SpentBy(s: State, id: nat) {
    exists a :: 0 <= a < |s.spent| && s.spent[a].id == id
  }

  /** A ticket put unspent is spent iff some call spent it, and a call may spend it exactly until then. */
  lemma {:induction false} SpentIff(trace: seq<State>, ops: seq<Op>, i: nat, id: nat)
    requires IsRun(trace, ops) && i < |trace| && id in trace[i].tickets
    requires id in trace[i].issued && trace[i].issued[id].consumedAt.None?
    ensures trace[i].tickets[id].consumedAt.Some? <==> SpentBy(trace[i], id)
    ensures forall session, now ::
              Spends(trace[i], Spend(id, session, now)) <==>
                && !SpentBy(trace[i], id) && session == trace[i].issued[id].session
                && now < trace[i].issued[id].expiresAt
    decreases i
  {
    RunOk(trace, ops, i);
    if i > 0 {
      var m := i - 1;
      assert Step(trace[m], ops[m], trace[m + 1]);
      RunOk(trace, ops, m);
      if id in trace[m].tickets {
        SpentIff(trace, ops, m, id);
        assert trace[m].spent <= trace[i].spent;
        if Spends(trace[m], ops[m]) {
          assert trace[i].spent[|trace[m].spent|].id == ops[m].id;
        }
        assert SpentBy(trace[m], id) ==> SpentBy(trace[i], id);
      }
    }
  }
}
