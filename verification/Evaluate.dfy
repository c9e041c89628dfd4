/** The checker's loops, each against its quantified statement. */
module Evaluate {
  import opened Options
  import opened Checker

  /** Each finding is listed once. */
  ghost predicate Distinct<T>(xs: seq<T>) {
    forall i, j :: 0 <= i < j < |xs| ==> xs[i] != xs[j]
  }

  /** I1a. */
  method CheckPods(pods: seq<PodRecord>) returns (failed: seq<AttemptName>)
    ensures forall name :: name in failed <==> TwoUids(pods, name)
    ensures Distinct(failed)
  {
    var uids: map<AttemptName, set<Id>> := GatherUids(pods);
    failed := [];
    var todo := uids.Keys;
    while todo != {}
      invariant todo <= uids.Keys && Distinct(failed)
      invariant forall name :: name in failed <==> name in uids.Keys - todo && TwoUids(pods, name)
      decreases todo
    {
      var name :| name in todo;
      if |uids[name]| > 1 {
        failed := failed + [name];
      }
      UidsTellApart(pods, uids[name], name);
      todo := todo - {name};
    }
  }

  ghost predicate UidsOf(pods: seq<PodRecord>, name: AttemptName, uids: set<Id>) {
    && (forall i :: 0 <= i < |pods| && PodName(pods[i]) == Some(name) ==> pods[i].uid in uids)
    && (forall uid :: uid in uids ==>
          exists i :: 0 <= i < |pods| && PodName(pods[i]) == Some(name) && pods[i].uid == uid)
  }

  method GatherUids(pods: seq<PodRecord>) returns (uids: map<AttemptName, set<Id>>)
    ensures forall name :: name in uids ==> UidsOf(pods, name, uids[name])
    ensures forall i :: 0 <= i < |pods| && PodName(pods[i]).Some? ==> PodName(pods[i]).value in uids
  {
    uids := map[];
    for n := 0 to |pods|
      invariant forall name :: name in uids ==> UidsOf(pods[..n], name, uids[name])
      invariant forall i :: 0 <= i < n && PodName(pods[i]).Some? ==> PodName(pods[i]).value in uids
    {
      ghost var before := uids;
      var key := PodName(pods[n]);
      if key.Some? {
        uids := uids[key.value := (if key.value in uids then uids[key.value] else {}) + {pods[n].uid}];
      }
      forall name | name in uids ensures UidsOf(pods[..n + 1], name, uids[name]) {
        UidsGrow(pods, n, name, if name in before then before[name] else {});
      }
    }
    assert pods[..|pods|] == pods;
  }

  lemma UidsGrow(pods: seq<PodRecord>, n: nat, name: AttemptName, uids: set<Id>)
    requires n < |pods|
    requires UidsOf(pods[..n], name, uids)
    ensures UidsOf(pods[..n + 1], name, if PodName(pods[n]) == Some(name) then uids + {pods[n].uid} else uids)
  {
    var front, all := pods[..n], pods[..n + 1];
    forall uid | uid in uids
      ensures exists i :: 0 <= i < |all| && PodName(all[i]) == Some(name) && all[i].uid == uid
    {
      var i :| 0 <= i < |front| && PodName(front[i]) == Some(name) && front[i].uid == uid;
      assert all[i] == front[i];
    }
    assert all[n] == pods[n];
  }

  lemma UidsTellApart(pods: seq<PodRecord>, uids: set<Id>, name: AttemptName)
    requires UidsOf(pods, name, uids)
    ensures |uids| > 1 <==> TwoUids(pods, name)
  {
    if |uids| > 1 {
      var a, b := TwoOf(uids);
      var i :| 0 <= i < |pods| && PodName(pods[i]) == Some(name) && pods[i].uid == a;
      var j :| 0 <= j < |pods| && PodName(pods[j]) == Some(name) && pods[j].uid == b;
      assert i < j || j < i;
    }
    if i, j :| 0 <= i < j < |pods| && PodName(pods[i]) == Some(name) && PodName(pods[j]) == Some(name)
               && pods[i].uid != pods[j].uid {
      TwoAreMany(uids, pods[i].uid, pods[j].uid);
    }
  }

  lemma TwoOf<T>(xs: set<T>) returns (a: T, b: T)
    requires |xs| > 1
    ensures a in xs && b in xs && a != b
  {
    a :| a in xs;
    var rest := xs - {a};
    assert |rest| == |xs| - 1;
    b :| b in rest;
  }

  lemma TwoAreMany<T>(xs: set<T>, a: T, b: T)
    requires a in xs && b in xs && a != b
    ensures |xs| > 1
  {
    var rest := xs - {a};
    assert b in rest && |rest| == |xs| - 1;
  }

  // ------------------------------------------------------------------------- I1c

  method GroupAttempts(attempts: seq<AttemptRow>) returns (byStep: map<StepName, seq<AttemptRow>>)
    ensures forall k :: k in byStep <==> HasAttempt(attempts, k)
    ensures forall k :: k in byStep ==> byStep[k] == Where(attempts, RowsOf(k))
  {
    byStep := map[];
    for n := 0 to |attempts|
      invariant forall k :: k in byStep <==> HasAttempt(attempts[..n], k)
      invariant forall k :: k in byStep ==> byStep[k] == Where(attempts[..n], RowsOf(k))
    {
      var a := attempts[n];
      var key := StepName(a.run, a.step);
      forall k ensures Where(attempts[..n + 1], RowsOf(k))
                       == Where(attempts[..n], RowsOf(k)) + (if k == key then [a] else [])
      {
        assert attempts[..n + 1][..n] == attempts[..n];
      }
      forall k ensures HasAttempt(attempts[..n + 1], k) <==> HasAttempt(attempts[..n], k) || k == key {
        HasGrows(attempts, n, k);
      }
      if key !in byStep {
        WhereEmpty(attempts[..n], RowsOf(key));
      }
      byStep := byStep[key := (if key in byStep then byStep[key] else []) + [a]];
    }
    assert attempts[..|attempts|] == attempts;
  }

  lemma HasGrows(attempts: seq<AttemptRow>, n: nat, k: StepName)
    requires n < |attempts|
    ensures HasAttempt(attempts[..n + 1], k) <==> HasAttempt(attempts[..n], k) || OfStep(attempts[n], k)
  {
    var front, all := attempts[..n], attempts[..n + 1];
    assert all[n] == attempts[n] && forall i :: 0 <= i < n ==> all[i] == front[i];
    if HasAttempt(front, k) {
      var i :| 0 <= i < |front| && front[i].run == k.run && front[i].step == k.step;
      assert all[i] == front[i];
    }
  }

  predicate IsSucceeded(a: AttemptRow) {
    a.outcome == Some(Succeeded)
  }

  /** Filtering a step's group for successes is filtering the whole table. */
  lemma {:induction false} GreensOfGroup(attempts: seq<AttemptRow>, k: StepName)
    ensures Where(Where(attempts, RowsOf(k)), IsSucceeded)
            == Where(attempts, GreenRows(k))
  {
    if attempts != [] {
      var front, last := attempts[..|attempts| - 1], attempts[|attempts| - 1];
      GreensOfGroup(front, k);
      var group := Where(front, RowsOf(k));
      if OfStep(last, k) {
        assert (group + [last])[..|group|] == group;
      }
    }
  }

  lemma GreensMean(attempts: seq<AttemptRow>, k: StepName, evidence: Option<Id>)
    ensures var green := Where(attempts, GreenRows(k));
            && (|green| > 1 <==> TwoGreens(attempts, k))
            && ((|green| == 1 && evidence == Some(green[0].attempt)) <==> Backed(attempts, k, evidence))
  {
    var p := GreenRows(k);
    WhereOne(attempts, p);
    if i :| Only(attempts, p, i) {
      assert evidence == Some(attempts[i].attempt) ==> Backed(attempts, k, evidence);
    }
    if Backed(attempts, k, evidence) {
      var i :| 0 <= i < |attempts| && IsGreen(attempts[i], k) && evidence == Some(attempts[i].attempt)
               && forall j :: 0 <= j < |attempts| && IsGreen(attempts[j], k) ==> j == i;
      assert Only(attempts, p, i);
    }
    assert Twice(attempts, p) <==> TwoGreens(attempts, k);
  }

  /** The first row of step `k`, as `iter().find` returns it. */
  method FindRow(steps: seq<StepRow>, k: StepName) returns (found: Option<nat>)
    ensures forall i :: FirstRowOf(steps, k, i) <==> found == Some(i)
  {
    for n := 0 to |steps|
      invariant forall i :: 0 <= i < n ==> !IsRowOf(steps[i], k)
    {
      if IsRowOf(steps[n], k) {
        return Some(n);
      }
    }
    found := None;
  }

  /** I1c, over the `attempts` and `step_runs` rows. */
  method CheckEvidence(f: Facts) returns (greens: seq<StepName>, unbacked: seq<StepName>)
    ensures forall k :: k in greens <==> TwoGreens(f.attempts, k)
    ensures forall k :: k in unbacked <==> Unbacked(f, k)
    ensures Distinct(greens) && Distinct(unbacked)
  {
    var byStep := GroupAttempts(f.attempts);
    greens, unbacked := [], [];
    var todo := byStep.Keys;
    while todo != {}
      invariant todo <= byStep.Keys && Distinct(greens) && Distinct(unbacked)
      invariant forall k :: k in greens <==> k in byStep.Keys - todo && TwoGreens(f.attempts, k)
      invariant forall k :: k in unbacked <==> k in byStep.Keys - todo && Unbacked(f, k)
      decreases todo
    {
      var k :| k in todo;
      var many, wrong := CheckStep(f, k, byStep[k]);
      greens := if many then greens + [k] else greens;
      unbacked := if wrong then unbacked + [k] else unbacked;
      todo := todo - {k};
    }
    forall k | TwoGreens(f.attempts, k) ensures k in byStep {
      var i :| 0 <= i < |f.attempts| && IsGreen(f.attempts[i], k);
    }
  }

  method CheckStep(f: Facts, k: StepName, group: seq<AttemptRow>) returns (many: bool, wrong: bool)
    requires HasAttempt(f.attempts, k) && group == Where(f.attempts, RowsOf(k))
    ensures many <==> TwoGreens(f.attempts, k)
    ensures wrong <==> Unbacked(f, k)
  {
    var green := Where(group, IsSucceeded);
    GreensOfGroup(f.attempts, k);
    GreensMean(f.attempts, k, None);
    many, wrong := |green| > 1, false;
    var row := FindRow(f.steps, k);
    if row.Some? && f.steps[row.value].status == Succeeded {
      GreensMean(f.attempts, k, f.steps[row.value].evidence);
      wrong := !(|green| == 1 && f.steps[row.value].evidence == Some(green[0].attempt));
      assert FirstRowOf(f.steps, k, row.value);
    }
  }

  /** I1c, over the journal: the events per Attempt and kind, counted in a map. */
  method CheckEntries(events: seq<EventRow>) returns (failed: seq<Entry>)
    ensures forall x :: x in failed <==> JournalledTwice(events, x)
    ensures Distinct(failed)
  {
    var count := CountEntries(events);
    failed := [];
    var todo := count.Keys;
    while todo != {}
      invariant todo <= count.Keys && Distinct(failed)
      invariant forall x :: x in failed <==> x in count.Keys - todo && JournalledTwice(events, x)
      decreases todo
    {
      var x :| x in todo;
      var p := EntriesOf(x);
      WhereOne(events, p);
      assert Twice(events, p) <==> JournalledTwice(events, x);
      if count[x] > 1 {
        failed := failed + [x];
      }
      todo := todo - {x};
    }
  }

  method CountEntries(events: seq<EventRow>) returns (count: map<Entry, nat>)
    ensures forall x :: x in count ==> count[x] == |Where(events, EntriesOf(x))|
    ensures forall i :: 0 <= i < |events| && EntryOf(events[i]).Some? ==> EntryOf(events[i]).value in count
  {
    count := map[];
    for n := 0 to |events|
      invariant forall x :: x in count ==> count[x] == |Where(events[..n], EntriesOf(x))|
      invariant forall i :: 0 <= i < n && EntryOf(events[i]).Some? ==> EntryOf(events[i]).value in count
    {
      var key := EntryOf(events[n]);
      assert events[..n + 1][..n] == events[..n];
      if key.Some? {
        if key.value !in count {
          WhereEmpty(events[..n], EntriesOf(key.value));
        }
        count := count[key.value := (if key.value in count then count[key.value] else 0) + 1];
      }
    }
    assert events[..|events|] == events;
  }

  // -------------------------------------------------------------------------- T1

  lemma EndsMean(events: seq<EventRow>, r: RunRow)
    ensures var ends := Where(events, EndsOf(r.id));
            && (ends == [] <==> forall i :: 0 <= i < |events| ==> !EndsRun(events[i], r.id))
            && ((|ends| == 1 && ends[0].to.Some? && StatusToken(ends[0].to.value) == r.status) <==> OneEnd(events, r))
  {
    var p := EndsOf(r.id);
    WhereEmpty(events, p);
    WhereOne(events, p);
    if i :| Only(events, p, i) {
      assert EndsRun(events[i], r.id);
    }
    if OneEnd(events, r) {
      var i :| 0 <= i < |events| && EndsRun(events[i], r.id) && StatusToken(events[i].to.value) == r.status
               && forall j :: 0 <= j < |events| && EndsRun(events[j], r.id) ==> j == i;
      assert Only(events, p, i);
    }
  }

  /** T1. */
  method CheckEnds(f: Facts) returns (failed: seq<nat>)
    ensures forall i: int :: i in failed <==> 0 <= i < |f.runs| && !EndsMatch(f.events, f.runs[i])
    ensures Distinct(failed)
  {
    failed := [];
    for n := 0 to |f.runs|
      invariant Distinct(failed)
      invariant forall i: int :: i in failed <==> 0 <= i < n && !EndsMatch(f.events, f.runs[i])
    {
      var r := f.runs[n];
      var ends := Where(f.events, EndsOf(r.id));
      EndsMean(f.events, r);
      var ok;
      if r.status in RunTerminal {
        ok := |ends| == 1 && ends[0].to.Some? && StatusToken(ends[0].to.value) == r.status;
      } else {
        ok := ends == [];
      }
      if !ok {
        failed := failed + [n];
      }
    }
  }

  // -------------------------------------------------------------------------- I5

  datatype Difference = Difference(row: nat, failure: bool)

  /** None when the row agrees with the fold, else whether the difference is a failure. */
  function RunDifference(f: Facts, n: nat): Option<bool>
    requires n < |f.runs|
  {
    var row := f.runs[n];
    var folded := Fold(f.events, RunMoves(row.id), RunTarget);
    if row.status == Missing || folded == row.status then None
    else Some(folded in RunTerminal || row.status in RunTerminal)
  }

  lemma RunDifferenceMeans(f: Facts, n: nat, failure: bool)
    requires n < |f.runs|
    ensures RunDiffers(f, n, failure) <==> RunDifference(f, n) == Some(failure)
  {
    var row := f.runs[n];
    var folded := Fold(f.events, RunMoves(row.id), RunTarget);
    forall status ensures FoldsTo(f.events, RunMoves(row.id), RunTarget, status) <==> status == folded {
      FoldIsUnique(f.events, RunMoves(row.id), RunTarget, status);
    }
    assert FoldsTo(f.events, RunMoves(row.id), RunTarget, folded);
  }

  method CheckRunFolds(f: Facts) returns (found: seq<Difference>)
    ensures forall d :: d in found <==> d.row < |f.runs| && RunDiffers(f, d.row, d.failure)
    ensures Distinct(found)
  {
    found := [];
    for n := 0 to |f.runs|
      invariant Distinct(found)
      invariant forall d :: d in found <==> d.row < n && RunDifference(f, d.row) == Some(d.failure)
    {
      var d := RunDifference(f, n);
      if d.Some? {
        found := found + [Difference(n, d.value)];
      }
    }
    forall d: Difference | d.row < |f.runs|
      ensures RunDiffers(f, d.row, d.failure) <==> RunDifference(f, d.row) == Some(d.failure)
    {
      RunDifferenceMeans(f, d.row, d.failure);
    }
  }

  function StepDifference(f: Facts, n: nat): Option<bool>
    requires n < |f.steps|
  {
    var row := f.steps[n];
    var folded := Fold(f.events, StepMoves(StepName(row.run, row.step)), StepTarget);
    if folded == row.status then None else Some(folded in StepTerminal || row.status in StepTerminal)
  }

  lemma StepDifferenceMeans(f: Facts, n: nat, failure: bool)
    requires n < |f.steps|
    ensures StepDiffers(f, n, failure) <==> StepDifference(f, n) == Some(failure)
  {
    var row := f.steps[n];
    var folded := Fold(f.events, StepMoves(StepName(row.run, row.step)), StepTarget);
    forall status ensures FoldsTo(f.events, StepMoves(StepName(row.run, row.step)), StepTarget, status) <==>
        status == folded {
      FoldIsUnique(f.events, StepMoves(StepName(row.run, row.step)), StepTarget, status);
    }
    assert FoldsTo(f.events, StepMoves(StepName(row.run, row.step)), StepTarget, folded);
  }

  method CheckStepFolds(f: Facts) returns (found: seq<Difference>)
    ensures forall d :: d in found <==> d.row < |f.steps| && StepDiffers(f, d.row, d.failure)
    ensures Distinct(found)
  {
    found := [];
    for n := 0 to |f.steps|
      invariant Distinct(found)
      invariant forall d :: d in found <==> d.row < n && StepDifference(f, d.row) == Some(d.failure)
    {
      var d := StepDifference(f, n);
      if d.Some? {
        found := found + [Difference(n, d.value)];
      }
    }
    forall d: Difference | d.row < |f.steps|
      ensures StepDiffers(f, d.row, d.failure) <==> StepDifference(f, d.row) == Some(d.failure)
    {
      StepDifferenceMeans(f, d.row, d.failure);
    }
  }

  // -------------------------------------------------------------------- the verdict

  datatype Verdict = Verdict(
    pods: seq<AttemptName>,                                               // I1a
    greens: seq<StepName>, unbacked: seq<StepName>, entries: seq<Entry>,  // I1c
    ends: seq<nat>,                                                       // T1
    runFolds: seq<Difference>, stepFolds: seq<Difference>)                // I5, failures and warnings

  predicate PassesI1c(v: Verdict) {
    v.greens == [] && v.unbacked == [] && v.entries == []
  }

  predicate PassesI5(v: Verdict) {
    && (forall i :: 0 <= i < |v.runFolds| ==> !v.runFolds[i].failure)
    && (forall i :: 0 <= i < |v.stepFolds| ==> !v.stepFolds[i].failure)
  }

  /** `evaluate`, for I1a, I1c, T1 and I5: no failure is found iff the four statements hold. */
  method Evaluate(f: Facts) returns (v: Verdict)
    ensures v.pods == [] <==> OnePodEach(f)
    ensures PassesI1c(v) <==> NoDoubleExecution(f)
    ensures v.ends == [] <==> EndsAllMatch(f)
    ensures PassesI5(v) <==> JournalFolds(f)
  {
    var pods := CheckPods(f.pods);
    var greens, unbacked := CheckEvidence(f);
    var entries := CheckEntries(f.events);
    var ends := CheckEnds(f);
    var runFolds := CheckRunFolds(f);
    var stepFolds := CheckStepFolds(f);
    v := Verdict(pods, greens, unbacked, entries, ends, runFolds, stepFolds);
    NoneIsEmpty(pods);
    NoneIsEmpty(greens);
    NoneIsEmpty(unbacked);
    NoneIsEmpty(entries);
    NoneIsEmpty(ends);
    NoRunFails(f, runFolds);
    NoStepFails(f, stepFolds);
  }

  lemma NoneIsEmpty<T>(xs: seq<T>)
    ensures xs == [] <==> forall x :: x !in xs
  {
    if xs != [] {
      assert xs[0] in xs;
    }
  }

  lemma NoRunFails(f: Facts, found: seq<Difference>)
    requires forall d :: d in found <==> d.row < |f.runs| && RunDiffers(f, d.row, d.failure)
    ensures (forall i :: 0 <= i < |found| ==> !found[i].failure) <==>
            forall i :: 0 <= i < |f.runs| ==> !RunDiffers(f, i, true)
  {
    if i :| 0 <= i < |found| && found[i].failure {
      assert found[i] in found;
    }
    if i :| 0 <= i < |f.runs| && RunDiffers(f, i, true) {
      assert Difference(i, true) in found;
    }
  }

  lemma NoStepFails(f: Facts, found: seq<Difference>)
    requires forall d :: d in found <==> d.row < |f.steps| && StepDiffers(f, d.row, d.failure)
    ensures (forall i :: 0 <= i < |found| ==> !found[i].failure) <==>
            forall i :: 0 <= i < |f.steps| ==> !StepDiffers(f, i, true)
  {
    if i :| 0 <= i < |found| && found[i].failure {
      assert found[i] in found;
    }
    if i :| 0 <= i < |f.steps| && StepDiffers(f, i, true) {
      assert Difference(i, true) in found;
    }
  }

  // ------------------------------------------------------------------------------ D1

  /** One completed drain of a Pod by a server replica. */
  datatype DrainSpan = DrainSpan(replica: Id, pod: Id, start: int, end: int)

  predicate AtOnce(a: DrainSpan, b: DrainSpan) {
    a.pod == b.pod && a.replica != b.replica && a.start < b.end && b.start < a.end
  }

  predicate Drains(a: DrainSpan, at: int) {
    a.start <= at < a.end
  }

  /** The overlap test finds a shared instant, for drains that took any time at all. */
  lemma AtOnceIsShared(a: DrainSpan, b: DrainSpan)
    requires a.start < a.end && b.start < b.end
    ensures AtOnce(a, b) <==>
            a.pod == b.pod && a.replica != b.replica && exists at :: Drains(a, at) && Drains(b, at)
  {
    var t := if a.start < b.start then b.start else a.start;
    if AtOnce(a, b) {
      assert Drains(a, t) && Drains(b, t);
    }
  }

  /** `second_drain_drivers`: every pair of the scenario's drains that two replicas ran at once, each once. */
  method SecondDrainDrivers(spans: seq<DrainSpan>) returns (pairs: seq<(nat, nat)>)
    ensures forall x :: x in pairs <==> x.0 < x.1 < |spans| && AtOnce(spans[x.0], spans[x.1])
    ensures Distinct(pairs)
  {
    pairs := [];
    for i := 0 to |spans|
      invariant Distinct(pairs)
      invariant forall x :: x in pairs <==> x.0 < i && x.0 < x.1 < |spans| && AtOnce(spans[x.0], spans[x.1])
    {
      for j := i + 1 to |spans|
        invariant Distinct(pairs)
        invariant forall x :: x in pairs <==>
                    && x.0 < x.1 < |spans| && AtOnce(spans[x.0], spans[x.1])
                    && (x.0 < i || (x.0 == i && x.1 < j))
      {
        if AtOnce(spans[i], spans[j]) {
          pairs := pairs + [(i, j)];
        }
      }
    }
  }
}
