/**
 Passkey uses: the signature-counter compare-and-set of sections 6.1.1 and 7.2 of W3C Web
 Authentication Level 2, with verifications that overlap.
 */
module Passkeys {
  import opened Options

  datatype KeyId = KeyId(id: string)
  datatype Passkey = Passkey(count: nat, backupEligible: bool, backedUp: bool, flagged: bool)

  type Keys = map<KeyId, Passkey>

  // ------------------------------------------------------------------- the statements

  /** The WHERE clause of the counter update, for an assertion verified against `read`. */
  predicate Accepts(k: Passkey, read: nat, count: nat) {
    && !k.flagged
    && (k.count < count || (count == 0 && k.count == 0) || (count > read && k.count != count) || k.backupEligible)
  }

  function Recorded(k: Passkey, count: nat, backedUp: bool): Passkey {
    k.(count := if k.count < count then count else k.count, backedUp := backedUp)
  }

  datatype Use = Accepted | CloneSuspected | NotFound

  class PasskeyStore {
    var keys: Keys

    constructor ()
      ensures keys == map[]
    {
      keys := map[];
    }

    /** `record_use` alone: the conditional update, and the flag when it matched no row. */
    method RecordUse(id: KeyId, read: nat, count: nat, backedUp: bool) returns (use: Use)
      modifies this
      ensures use.NotFound? <==> id !in old(keys)
      ensures use.Accepted? <==> id in old(keys) && Accepts(old(keys)[id], read, count)
      ensures use.Accepted? ==>
                var k := old(keys)[id];
                keys == old(keys)[id := Passkey(if k.count < count then count else k.count, k.backupEligible, backedUp,
                                                k.flagged)]
      ensures use.CloneSuspected? ==> keys == old(keys)[id := old(keys)[id].(flagged := true)]
      ensures use.NotFound? ==> keys == old(keys)
    {
      if id in keys && Accepts(keys[id], read, count) {
        keys := keys[id := Recorded(keys[id], count, backedUp)];
        return Accepted;
      }
      var marked := MarkClone(id);
      use := if marked then CloneSuspected else NotFound;
    }

    method MarkClone(id: KeyId) returns (marked: bool)
      modifies this
      ensures marked <==> id in old(keys)
      ensures keys == if marked then old(keys)[id := old(keys)[id].(flagged := true)] else old(keys)
    {
      marked := id in keys;
      if marked {
        keys := keys[id := keys[id].(flagged := true)];
      }
    }
  }

  // -------------------------------------------------------- overlapping verifications

  /** A verification under way: the counter it read, and how many uses were accepted before. */
  datatype Pending = Pending(id: KeyId, read: nat, since: nat, refused: bool)
  datatype Entry = Entry(id: KeyId, count: nat)

  datatype State = State(keys: Keys, uses: map<nat, Pending>, accepted: seq<Entry>)

  datatype Action =
    | Insert(id: KeyId, key: Passkey)
    | Read(use: nat, id: KeyId)
    | Record(use: nat, count: nat, backedUp: bool)   // the conditional update
    | Flag(use: nat)                                 // a refused use flags the passkey
    | Mark(id: KeyId)                                // `mark_clone` from elsewhere

  predicate RecordAccepts(s: State, use: nat, count: nat) {
    use in s.uses && s.uses[use].id in s.keys && Accepts(s.keys[s.uses[use].id], s.uses[use].read, count)
  }

  ghost predicate Step(s: State, action: Action, s': State) {
    match action
    case Insert(id, key) =>
      id !in s.keys && s' == s.(keys := s.keys[id := key])
    case Read(use, id) =>
      && use !in s.uses && id in s.keys
      && s' == s.(uses := s.uses[use := Pending(id, s.keys[id].count, |s.accepted|, false)])
    case Record(use, count, backedUp) =>
      && use in s.uses && !s.uses[use].refused
      && var id := s.uses[use].id;
         if RecordAccepts(s, use, count)
         then s' == State(s.keys[id := Recorded(s.keys[id], count, backedUp)], s.uses - {use},
             s.accepted + [Entry(id, count)])
         else s' == s.(uses := s.uses[use := s.uses[use].(refused := true)])
    case Flag(use) =>
      && use in s.uses && s.uses[use].refused && s.uses[use].id in s.keys
      && s' == s.(keys := s.keys[s.uses[use].id := s.keys[s.uses[use].id].(flagged := true)], uses := s.uses - {use})
    case Mark(id) =>
      id in s.keys && s' == s.(keys := s.keys[id := s.keys[id].(flagged := true)])
  }

  ghost predicate IsRun(trace: seq<State>, actions: seq<Action>) {
    && |trace| == |actions| + 1 && trace[0] == State(map[], map[], [])
    && forall i :: 0 <= i < |actions| ==> Step(trace[i], actions[i], trace[i + 1])
  }

  /** A use of `id` was accepted after the first `since`. */
  ghost predicate Overlapped(accepted: seq<Entry>, id: KeyId, since: nat) {
    exists m :: since <= m < |accepted| && accepted[m].id == id
  }

  ghost predicate UseOk(s: State, p: Pending) {
    && p.id in s.keys && p.since <= |s.accepted| && p.read <= s.keys[p.id].count
    && (s.keys[p.id].count != p.read ==> Overlapped(s.accepted, p.id, p.since))
  }

  ghost predicate Inv(s: State) {
    && (forall m :: 0 <= m < |s.accepted| ==>
          s.accepted[m].id in s.keys && s.accepted[m].count <= s.keys[s.accepted[m].id].count)
    && (forall use :: use in s.uses ==> UseOk(s, s.uses[use]))
  }

  lemma UseStaysOk(s: State, action: Action, s': State, p: Pending)
    requires Step(s, action, s') && UseOk(s, p)
    ensures UseOk(s', p)
  {
    assert s.accepted <= s'.accepted;
    if action.Record? && RecordAccepts(s, action.use, action.count) && s.uses[action.use].id == p.id {
      assert s'.accepted[|s.accepted|].id == p.id;
    } else if Overlapped(s.accepted, p.id, p.since) {
      var m :| p.since <= m < |s.accepted| && s.accepted[m].id == p.id;
      assert s'.accepted[m].id == p.id;
    }
  }

  lemma StepKeeps(s: State, action: Action, s': State)
    requires Inv(s) && Step(s, action, s')
    ensures Inv(s')
  {
    forall use | use in s'.uses ensures UseOk(s', s'.uses[use]) {
      if use in s.uses {
        UseStaysOk(s, action, s', s.uses[use]);
      }
    }
  }

  lemma {:induction false} RunInv(trace: seq<State>, actions: seq<Action>, i: nat)
    requires IsRun(trace, actions) && i < |trace|
    ensures Inv(trace[i])
  {
    if i > 0 {
      RunInv(trace, actions, i - 1);
      StepKeeps(trace[i - 1], actions[i - 1], trace[i]);
    }
  }

  // ------------------------------------------------------------------------ theorems

  /** The stored counter never falls, and a flag stays. */
  lemma {:induction false} CounterNeverFalls(trace: seq<State>, actions: seq<Action>, i: nat, j: nat, id: KeyId)
    requires IsRun(trace, actions) && i <= j < |trace| && id in trace[i].keys
    ensures id in trace[j].keys && trace[i].keys[id].count <= trace[j].keys[id].count
    ensures trace[i].keys[id].flagged ==> trace[j].keys[id].flagged
    ensures trace[i].keys[id].backupEligible == trace[j].keys[id].backupEligible
    decreases j
  {
    if i < j {
      CounterNeverFalls(trace, actions, i, j - 1, id);
      assert Step(trace[j - 1], actions[j - 1], trace[j - 1 + 1]);
    }
  }

  /** Once flagged, no use of the passkey is ever accepted. */
  lemma FlaggedIsNeverAccepted(trace: seq<State>, actions: seq<Action>, i: nat, j: nat, use: nat, count: nat)
    requires IsRun(trace, actions) && i <= j < |trace| && use in trace[j].uses
    requires trace[j].uses[use].id in trace[i].keys && trace[i].keys[trace[j].uses[use].id].flagged
    ensures !RecordAccepts(trace[j], use, count)
  {
    CounterNeverFalls(trace, actions, i, j, trace[j].uses[use].id);
  }

  /** A refused use flags its passkey, whatever was recorded in between, and no use of it is accepted after. */
  lemma RefusedIsFlagged(trace: seq<State>, actions: seq<Action>, m: nat, j: nat, id: KeyId)
    requires IsRun(trace, actions) && m < j < |trace|
    requires || actions[m] == Mark(id)
             || (actions[m].Flag? && actions[m].use in trace[m].uses && trace[m].uses[actions[m].use].id == id)
    ensures id in trace[j].keys && trace[j].keys[id].flagged
    ensures forall use, count :: use in trace[j].uses && trace[j].uses[use].id == id ==>
              !RecordAccepts(trace[j], use, count)
  {
    assert Step(trace[m], actions[m], trace[m + 1]);
    CounterNeverFalls(trace, actions, m + 1, j, id);
  }

  /** The stored counter is the highest accepted: it was there before, or a use accepted since brought it. */
  lemma {:induction false} CounterIsAccepted(trace: seq<State>, actions: seq<Action>, i: nat, j: nat, id: KeyId)
    requires IsRun(trace, actions) && i <= j < |trace| && id in trace[i].keys
    ensures trace[i].accepted <= trace[j].accepted && id in trace[j].keys
    ensures || trace[j].keys[id].count == trace[i].keys[id].count
            || Entry(id, trace[j].keys[id].count) in trace[j].accepted[|trace[i].accepted|..]
    ensures forall e :: e in trace[j].accepted && e.id == id ==> e.count <= trace[j].keys[id].count
    decreases j
  {
    RunInv(trace, actions, j);
    if i < j {
      var m := j - 1;
      CounterIsAccepted(trace, actions, i, m, id);
      assert Step(trace[m], actions[m], trace[m + 1]);
      var before := |trace[i].accepted|;
      if trace[j].accepted != trace[m].accepted {
        var last := trace[j].accepted[|trace[m].accepted|];
        assert trace[j].accepted[before..] == trace[m].accepted[before..] + [last];
      }
    }
  }

  ghost predicate AboveAll(accepted: seq<Entry>, id: KeyId, count: nat) {
    forall m :: 0 <= m < |accepted| && accepted[m].id == id ==> accepted[m].count < count
  }

  /** A use that overlaps no other accepted one is accepted iff its counter is above the stored one, and so
      above every counter accepted before, or the passkey keeps no counter at all. */
  lemma AloneIsStrict(trace: seq<State>, actions: seq<Action>, i: nat, use: nat, count: nat)
    requires IsRun(trace, actions) && i < |trace| && use in trace[i].uses
    requires var p := trace[i].uses[use];
             !Overlapped(trace[i].accepted, p.id, p.since)
             && p.id in trace[i].keys && !trace[i].keys[p.id].backupEligible && !trace[i].keys[p.id].flagged
    ensures var p := trace[i].uses[use];
            RecordAccepts(trace[i], use, count) <==>
              trace[i].keys[p.id].count < count || (count == 0 && trace[i].keys[p.id].count == 0)
    ensures RecordAccepts(trace[i], use, count) && count > 0 ==>
        AboveAll(trace[i].accepted, trace[i].uses[use].id, count)
  {
    RunInv(trace, actions, i);
    assert UseOk(trace[i], trace[i].uses[use]);
  }

  /** A counter at or behind the stored one is accepted (not backup-eligible, not zero) iff it was ahead of what
      was read and the store has moved past it; then another use was accepted since the read. */
  lemma BehindMeansOverlap(trace: seq<State>, actions: seq<Action>, i: nat, use: nat, count: nat)
    requires IsRun(trace, actions) && i < |trace| && use in trace[i].uses
    requires var p := trace[i].uses[use];
             && p.id in trace[i].keys && !trace[i].keys[p.id].backupEligible && !trace[i].keys[p.id].flagged
             && 0 < count <= trace[i].keys[p.id].count
    ensures var p := trace[i].uses[use];
            RecordAccepts(trace[i], use, count) <==> p.read < count < trace[i].keys[p.id].count
    ensures var p := trace[i].uses[use];
            RecordAccepts(trace[i], use, count) ==> Overlapped(trace[i].accepted, p.id, p.since)
  {
    RunInv(trace, actions, i);
    assert UseOk(trace[i], trace[i].uses[use]);
  }

  /** A backup-eligible passkey's devices share no counter: while it is not flagged any count is accepted. */
  lemma BackupEligibleIsAccepted(trace: seq<State>, actions: seq<Action>, i: nat, use: nat, count: nat)
    requires IsRun(trace, actions) && i < |trace| && use in trace[i].uses
    requires var p := trace[i].uses[use];
             p.id in trace[i].keys && trace[i].keys[p.id].backupEligible && !trace[i].keys[p.id].flagged
    ensures RecordAccepts(trace[i], use, count)
  {
    RunInv(trace, actions, i);
  }

  /** Any other is refused exactly when its count is not ahead of the store and no race explains it. */
  lemma RefusedIff(trace: seq<State>, actions: seq<Action>, i: nat, use: nat, count: nat)
    requires IsRun(trace, actions) && i < |trace| && use in trace[i].uses
    requires var p := trace[i].uses[use];
             p.id in trace[i].keys && !trace[i].keys[p.id].backupEligible && !trace[i].keys[p.id].flagged
    ensures var p, stored := trace[i].uses[use], trace[i].keys[trace[i].uses[use].id].count;
            !RecordAccepts(trace[i], use, count) <==>
              (count == stored && stored > 0) || (count < stored && count <= p.read)
  {
    RunInv(trace, actions, i);
    assert UseOk(trace[i], trace[i].uses[use]);
  }

  /** The store's contract says that two uses with one non-zero counter are never taken for a race.  They are,
      when a third use moves the counter on in between: reads at 0, then 5, 7 and 5 again are all accepted. */
  lemma RepeatIsAccepted() returns (trace: seq<State>, actions: seq<Action>)
    ensures IsRun(trace, actions)
    ensures var last := trace[|trace| - 1];
            last.accepted == [Entry(KeyId("k"), 5), Entry(KeyId("k"), 7), Entry(KeyId("k"), 5)]
            && KeyId("k") in last.keys && !last.keys[KeyId("k")].flagged
  {
    var id := KeyId("k");
    var k0 := Passkey(0, false, false, false);
    var k5, k7 := k0.(count := 5), k0.(count := 7);
    var p := Pending(id, 0, 0, false);
    actions := [Insert(id, k0), Read(1, id), Read(2, id), Read(3, id), Record(1, 5, false), Record(2, 7, false),
        Record(3, 5, false)];
    var s1 := State(map[id := k0], map[], []);
    var s2 := s1.(uses := map[1 := p]);
    var s3 := s1.(uses := map[1 := p, 2 := p]);
    var s4 := s1.(uses := map[1 := p, 2 := p, 3 := p]);
    var s5 := State(map[id := k5], map[2 := p, 3 := p], [Entry(id, 5)]);
    var s6 := State(map[id := k7], map[3 := p], [Entry(id, 5), Entry(id, 7)]);
    var s7 := State(map[id := k7], map[], [Entry(id, 5), Entry(id, 7), Entry(id, 5)]);
    assert Step(s4, actions[4], s5) by { assert s4.uses - {1} == s5.uses; }
    assert Step(s5, actions[5], s6) by { assert s5.uses - {2} == s6.uses; }
    assert Step(s6, actions[6], s7) by { assert s6.uses - {3} == s7.uses; }
    trace := [State(map[], map[], []), s1, s2, s3, s4, s5, s6, s7];
  }
}
