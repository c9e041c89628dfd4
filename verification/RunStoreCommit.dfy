/** A commit keeps what every other open transaction knows, and what the tables satisfy. */
module RunStoreCommit {
  import opened Options
  import opened RunStore
  import opened RunStoreInvariant

  // ------------------------------------------------- the other open transactions

  /** A row held exclusively by another transaction is untouched by this commit. */
  lemma HeldRowsKept(db: Tables, tx: Tx, ux: Tx)
    requires LocksOk(db, tx) && Apart(tx, ux)
    ensures forall k :: Excl(ux.locks, StepRow(k)) ==> k !in tx.steps
    ensures forall r :: Excl(ux.locks, RunRow(r)) ==> r !in tx.runs
    ensures forall a :: Excl(ux.locks, AttemptRow(a)) ==> a !in tx.attempts
    ensures forall a :: a in tx.attempts && a !in db.attempts ==> !Excl(ux.locks, StepRow(a.step))
  {
  }

  lemma OthersLocks(db: Tables, tx: Tx, ux: Tx)
    requires LocksOk(db, tx) && LocksOk(db, ux) && Apart(tx, ux)
    ensures LocksOk(Applied(db, tx), ux)
  {
    HeldRowsKept(db, tx, ux);
  }

  lemma OthersReads(db: Tables, tx: Tx, ux: Tx)
    requires LocksOk(db, tx) && LocksOk(db, ux) && Apart(tx, ux)
    requires StepReads(db, ux.steps) && RunReads(db, ux.runs)
    ensures StepReads(Applied(db, tx), ux.steps) && RunReads(Applied(db, tx), ux.runs)
  {
    HeldRowsKept(db, tx, ux);
  }

  /** Whoever holds a step row exclusively sees no Attempt of it appear. */
  lemma NoForeignMint(db: Tables, tx: Tx, ux: Tx, k: StepKey)
    requires LocksOk(db, tx) && Apart(tx, ux) && Excl(ux.locks, StepRow(k))
    ensures forall a :: a in Applied(db, tx).attempts && a.step == k ==> a in db.attempts
  {
    HeldRowsKept(db, tx, ux);
  }

  lemma OthersFrontier(db: Tables, tx: Tx, ux: Tx)
    requires LocksOk(db, tx) && LocksOk(db, ux) && Apart(tx, ux)
    requires FrontierOk(db.attempts, ux.op, ux.phase, ux.steps)
    ensures FrontierOk(Applied(db, tx).attempts, ux.op, ux.phase, ux.steps)
  {
    if ux.op.StepTransition? && !ux.phase.Begun? {
      NoForeignMint(db, tx, ux, ux.op.k);
    }
  }

  lemma OthersClaim(db: Tables, tx: Tx, ux: Tx)
    requires LocksOk(db, tx) && LocksOk(db, ux) && Apart(tx, ux) && ClaimOk(db, ux)
    ensures ClaimOk(Applied(db, tx), ux)
  {
    var db' := Applied(db, tx);
    if ux.op.Claim? && ux.phase.Minting? {
      HeldRowsKept(db, tx, ux);
      forall k | k in ux.steps && k !in ux.phase.rows
        ensures exists n :: Launched(db', ux.attempts, ux.intents, ux.todoIntents, k, n)
      {
        var n :| Launched(db, ux.attempts, ux.intents, ux.todoIntents, k, n);
        assert Launched(db', ux.attempts, ux.intents, ux.todoIntents, k, n);
      }
    }
  }

  /** Committed Attempts of a gate are only ever closed by a commit, or minted. */
  lemma GateUpdatesClose(gates: set<StepKey>, db: Tables, tx: Tx)
    requires GateAttempts(gates, db.attempts, tx.locks, tx.attempts)
    ensures forall b :: b in db.attempts && b.step in gates && !db.attempts[b].Running? ==>
              !Applied(db, tx).attempts[b].Running?
  {
  }

  lemma OthersGate(gates: set<StepKey>, db: Tables, tx: Tx, ux: Tx)
    requires LocksOk(db, tx) && LocksOk(db, ux) && Apart(tx, ux)
    requires GateAttempts(gates, db.attempts, tx.locks, tx.attempts)
    requires GateAttempts(gates, db.attempts, ux.locks, ux.attempts)
    ensures GateAttempts(gates, Applied(db, tx).attempts, ux.locks, ux.attempts)
  {
    var db' := Applied(db, tx);
    HeldRowsKept(db, tx, ux);
    GateUpdatesClose(gates, db, tx);
    forall a | a in ux.attempts && a.step in gates && a !in db'.attempts
      ensures MintOk(db'.attempts, ux.locks, ux.attempts, a)
    {
      assert MintOk(db.attempts, ux.locks, ux.attempts, a);
      NoForeignMint(db, tx, ux, a.step);
    }
  }

  lemma OthersResolve(gates: set<StepKey>, db: Tables, tx: Tx, ux: Tx)
    requires LocksOk(db, tx) && LocksOk(db, ux) && Apart(tx, ux) && WellFormed(ux.op, gates)
    requires GateAttempts(gates, db.attempts, tx.locks, tx.attempts) && ResolveOk(db, ux)
    ensures ResolveOk(Applied(db, tx), ux)
  {
    if ux.op.ResolveGate? && !ux.phase.Begun? {
      HeldRowsKept(db, tx, ux);
      GateUpdatesClose(gates, db, tx);
      NoForeignMint(db, tx, ux, ux.op.k);
    }
  }

  lemma OthersEntries(db: Tables, nextSeq: nat, tx: Tx, ux: Tx)
    requires LocksOk(db, tx) && LocksOk(db, ux) && Apart(tx, ux)
    requires EntriesOk(db, nextSeq, tx) && EntriesOk(db, nextSeq, ux)
    ensures EntriesOk(Applied(db, tx), nextSeq, ux)
  {
    HeldRowsKept(db, tx, ux);
    OthersStaged(db.events, nextSeq, tx.steps, tx.runs, tx.events, ux.steps, ux.runs, ux.events);
  }

  /** Transactions that move different rows journal different rows: neither overtakes the other's entries. */
  lemma OthersStaged(committed: Journal, nextSeq: nat, steps: StepMoves, runs: RunMoves, events: Journal,
                     uSteps: StepMoves, uRuns: RunMoves, uEvents: Journal)
    requires StagedOk(committed, nextSeq, steps, runs, events) && StagedOk(committed, nextSeq, uSteps, uRuns, uEvents)
    requires (forall k :: k in uSteps ==> k !in steps) && (forall r :: r in uRuns ==> r !in runs)
    requires forall q :: q in events ==> q !in uEvents
    ensures StagedOk(committed + events, nextSeq, uSteps, uRuns, uEvents)
  {
    forall q | q in uEvents ensures EntryLast(committed + events, uEvents[q], q) {
      forall k, p | MovesStep(uEvents[q], k) && p in events ensures !MovesStep(events[p], k) {
        assert k in uSteps && k !in steps;
      }
      forall r, p | MovesRun(uEvents[q], r) && p in events ensures !MovesRun(events[p], r) {
        assert r in uRuns && r !in runs;
      }
    }
  }

  lemma OthersShape(db: Tables, tx: Tx, ux: Tx)
    requires ShapeOk(db, ux)
    ensures ShapeOk(Applied(db, tx), ux)
  {
  }

  lemma OthersSurvive(gates: set<StepKey>, db: Tables, nextSeq: nat, tx: Tx, ux: Tx)
    requires TxOk(gates, db, nextSeq, tx) && TxOk(gates, db, nextSeq, ux) && Apart(tx, ux)
    ensures TxOk(gates, Applied(db, tx), nextSeq, ux)
  {
    OthersLocks(db, tx, ux);
    OthersReads(db, tx, ux);
    OthersFrontier(db, tx, ux);
    OthersClaim(db, tx, ux);
    OthersGate(gates, db, tx, ux);
    OthersResolve(gates, db, tx, ux);
    OthersShape(db, tx, ux);
    OthersEntries(db, nextSeq, tx, ux);
  }

  // ------------------------------------------------------------ the committed tables

  /** The heart of the journal theorem: entries staged under the row lock land last, and say what the row says. */
  lemma CommitStepAgrees(db: Tables, nextSeq: nat, tx: Tx, k: StepKey)
    requires StagedOk(db.events, nextSeq, tx.steps, tx.runs, tx.events) && StepsNamed(tx.steps, tx.events, [])
    requires StepsFit(tx.steps, tx.events, []) && StepReads(db, tx.steps)
    requires k in db.steps && StepAgrees(db, k)
    ensures StepAgrees(Applied(db, tx), k)
  {
    var db' := Applied(db, tx);
    if k in tx.steps {
      var m := tx.steps[k];
      if TerminalStep(m.from) || TerminalStep(m.to) {
        var p :| p in tx.events && MovesStep(tx.events[p], k);
        assert p in db'.events && MovesStep(db'.events[p], k);
        forall q: nat | LastStepEvent(db'.events, k, q) ensures StepAfter(db'.events[q]) == m.to {
          StagedIsLast(db, tx, k, q);
        }
      } else {
        forall q: nat | LastStepEvent(db'.events, k, q) ensures !TerminalStep(StepAfter(db'.events[q])) {
          if q in tx.events {
            StagedIsLast(db, tx, k, q);
          } else {
            assert LastStepEvent(db.events, k, q);
          }
        }
      }
    } else {
      forall q ensures q in tx.events ==> !MovesStep(tx.events[q], k) {}
      if StagesStep(db.events, k) {
        var p :| p in db.events && MovesStep(db.events[p], k);
        assert p in db'.events && MovesStep(db'.events[p], k);
      }
      forall q | LastStepEvent(db'.events, k, q) ensures LastStepEvent(db.events, k, q) {}
    }
  }

  /** The last entry after the commit, if staged, is the last staged one. */
  lemma StagedIsLast(db: Tables, tx: Tx, k: StepKey, q: nat)
    requires q in tx.events && LastStepEvent(Applied(db, tx).events, k, q)
    ensures LastStepEvent(tx.events, k, q) && Applied(db, tx).events[q] == tx.events[q]
  {
    forall p | p in tx.events && MovesStep(tx.events[p], k) ensures p <= q {
      assert Applied(db, tx).events[p] == tx.events[p];
    }
  }

  lemma StagedRunIsLast(db: Tables, tx: Tx, r: RunId, q: nat)
    requires q in tx.events && LastRunEvent(Applied(db, tx).events, r, q)
    ensures LastRunEvent(tx.events, r, q) && Applied(db, tx).events[q] == tx.events[q]
  {
    forall p | p in tx.events && MovesRun(tx.events[p], r) ensures p <= q {
      assert Applied(db, tx).events[p] == tx.events[p];
    }
  }

  lemma CommitRunAgrees(db: Tables, nextSeq: nat, tx: Tx, r: RunId)
    requires StagedOk(db.events, nextSeq, tx.steps, tx.runs, tx.events) && RunsNamed(tx.runs, tx.events, [])
    requires RunsFit(tx.runs, tx.events, []) && RunReads(db, tx.runs)
    requires r in db.runs && RunAgrees(db, r)
    ensures RunAgrees(Applied(db, tx), r)
  {
    if r in tx.runs && (TerminalRun(tx.runs[r].from.status) || TerminalRun(tx.runs[r].to.status)) {
      EndAgrees(db, nextSeq, tx, r);
    } else {
      LaterAgrees(db, nextSeq, tx, r);
    }
  }

  lemma EndAgrees(db: Tables, nextSeq: nat, tx: Tx, r: RunId)
    requires StagedOk(db.events, nextSeq, tx.steps, tx.runs, tx.events) && RunsNamed(tx.runs, tx.events, [])
    requires r in db.runs && r in tx.runs && RunFits(tx.runs[r], r, tx.events, [])
    requires TerminalRun(tx.runs[r].from.status) || TerminalRun(tx.runs[r].to.status)
    ensures RunAgrees(Applied(db, tx), r)
  {
    var events := Applied(db, tx).events;
    var p :| p in tx.events && MovesRun(tx.events[p], r);
    assert p in events && MovesRun(events[p], r);
    forall q: nat | LastRunEvent(events, r, q) ensures events[q].payload.status == tx.runs[r].to.status {
      StagedRunIsLast(db, tx, r, q);
    }
  }

  lemma LaterAgrees(db: Tables, nextSeq: nat, tx: Tx, r: RunId)
    requires StagedOk(db.events, nextSeq, tx.steps, tx.runs, tx.events) && RunReads(db, tx.runs)
    requires r in db.runs && RunAgrees(db, r)
    requires r in tx.runs ==> !TerminalRun(tx.runs[r].from.status) && !TerminalRun(tx.runs[r].to.status)
    requires r in tx.runs ==> RunFits(tx.runs[r], r, tx.events, [])
    ensures RunAgrees(Applied(db, tx), r)
  {
    var events := Applied(db, tx).events;
    if TerminalRun(db.runs[r].status) {
      var p :| p in db.events && MovesRun(db.events[p], r);
      assert p in events && MovesRun(events[p], r);
    }
    forall q: nat | LastRunEvent(events, r, q) && q in tx.events
      ensures r in tx.runs && !TerminalRun(events[q].payload.status)
    {
      StagedRunIsLast(db, tx, r, q);
    }
    forall q: nat | LastRunEvent(events, r, q) && q !in tx.events ensures LastRunEvent(db.events, r, q) {
      CommittedIsLast(db, tx, r, q);
    }
  }

  lemma CommittedIsLast(db: Tables, tx: Tx, r: RunId, q: nat)
    requires LastRunEvent(Applied(db, tx).events, r, q) && q !in tx.events
    requires forall p :: p in tx.events ==> p !in db.events
    ensures LastRunEvent(db.events, r, q)
  {
    forall p | p in db.events && MovesRun(db.events[p], r) ensures p <= q {
      assert Applied(db, tx).events[p] == db.events[p];
    }
  }

  lemma CommitAgrees(db: Tables, nextSeq: nat, tx: Tx)
    requires EntriesOk(db, nextSeq, tx) && tx.todoEvents == [] && StepReads(db, tx.steps) && RunReads(db, tx.runs)
    requires JournalAgrees(db)
    ensures JournalAgrees(Applied(db, tx))
  {
    CommitStepsAgree(db, nextSeq, tx);
    CommitRunsAgree(db, nextSeq, tx);
    CommitEventsKnown(db, nextSeq, tx);
  }

  lemma CommitEventsKnown(db: Tables, nextSeq: nat, tx: Tx)
    requires StagedOk(db.events, nextSeq, tx.steps, tx.runs, tx.events)
    requires StepReads(db, tx.steps) && RunReads(db, tx.runs)
    requires forall q, k :: q in db.events && MovesStep(db.events[q], k) ==> k in db.steps
    requires forall q, r :: q in db.events && MovesRun(db.events[q], r) ==> r in db.runs
    ensures var db' := Applied(db, tx);
            && (forall q, k :: q in db'.events && MovesStep(db'.events[q], k) ==> k in db'.steps)
            && (forall q, r :: q in db'.events && MovesRun(db'.events[q], r) ==> r in db'.runs)
  {
  }

  lemma CommitStepsAgree(db: Tables, nextSeq: nat, tx: Tx)
    requires StagedOk(db.events, nextSeq, tx.steps, tx.runs, tx.events) && StepsNamed(tx.steps, tx.events, [])
    requires StepsFit(tx.steps, tx.events, []) && StepReads(db, tx.steps)
    requires forall k :: k in db.steps ==> StepAgrees(db, k)
    ensures forall k :: k in Applied(db, tx).steps ==> StepAgrees(Applied(db, tx), k)
  {
    forall k | k in db.steps ensures StepAgrees(Applied(db, tx), k) {
      CommitStepAgrees(db, nextSeq, tx, k);
    }
  }

  lemma CommitRunsAgree(db: Tables, nextSeq: nat, tx: Tx)
    requires StagedOk(db.events, nextSeq, tx.steps, tx.runs, tx.events) && RunsNamed(tx.runs, tx.events, [])
    requires RunsFit(tx.runs, tx.events, []) && RunReads(db, tx.runs)
    requires forall r :: r in db.runs ==> RunAgrees(db, r)
    ensures forall r :: r in Applied(db, tx).runs ==> RunAgrees(Applied(db, tx), r)
  {
    forall r | r in db.runs ensures RunAgrees(Applied(db, tx), r) {
      CommitRunAgrees(db, nextSeq, tx, r);
    }
  }

  lemma CommitGates(gates: set<StepKey>, db: Tables, tx: Tx)
    requires LocksOk(db, tx) && GateMoves(gates, tx.steps) && GateAttempts(gates, db.attempts, tx.locks, tx.attempts)
    requires GatesOk(gates, db)
    ensures GatesOk(gates, Applied(db, tx))
  {
    var db' := Applied(db, tx);
    forall k | k in gates ensures OneWait(db'.attempts, k) {
      forall a, b | a in db'.attempts && b in db'.attempts && a.step == k && b.step == k && a.n < b.n
        ensures !db'.attempts[a].Running?
      {
        assert OneWait(db.attempts, k);
        assert a !in db.attempts ==> MintOk(db.attempts, tx.locks, tx.attempts, a);
        assert b !in db.attempts ==> MintOk(db.attempts, tx.locks, tx.attempts, b);
      }
    }
  }

  lemma CommitEnds(db: Tables, nextSeq: nat, tx: Tx, hist: seq<CommitRecord>, r: RunId)
    requires EntriesOk(db, nextSeq, tx) && tx.todoEvents == []
    requires |Ends(db.events, r)| == TerminalEntries(hist, r)
    ensures |Ends(Applied(db, tx).events, r)| == TerminalEntries(hist + [RecordOf(db, tx)], r)
  {
    var before, staged := Ends(db.events, r), Ends(tx.events, r);
    assert Ends(Applied(db, tx).events, r) == before + staged;
    assert before !! staged;
    assert (hist + [RecordOf(db, tx)])[..|hist|] == hist;
  }

  lemma CommitChain(db: Tables, tx: Tx, hist: seq<CommitRecord>)
    requires StepReads(db, tx.steps) && RunReads(db, tx.runs) && Chain(hist)
    requires forall k :: k in db.steps ==> db.steps[k] == StatusAfter(hist, k)
    requires forall r :: r in db.runs ==> db.runs[r] == RunAfter(hist, r)
    ensures Chain(hist + [RecordOf(db, tx)])
  {
    assert (hist + [RecordOf(db, tx)])[..|hist|] == hist;
  }

  lemma CommitSteps(db: Tables, tx: Tx, hist: seq<CommitRecord>)
    requires StepReads(db, tx.steps)
    requires forall k :: k in db.steps ==> db.steps[k] == StatusAfter(hist, k)
    requires forall k :: k !in db.steps ==> StatusAfter(hist, k) == StepStatus.Pending
    ensures var db', hist' := Applied(db, tx), hist + [RecordOf(db, tx)];
            && (forall k :: k in db'.steps ==> db'.steps[k] == StatusAfter(hist', k))
            && (forall k :: k !in db'.steps ==> StatusAfter(hist', k) == StepStatus.Pending)
  {
    assert (hist + [RecordOf(db, tx)])[..|hist|] == hist;
  }

  lemma CommitRuns(db: Tables, tx: Tx, hist: seq<CommitRecord>)
    requires RunReads(db, tx.runs)
    requires forall r :: r in db.runs ==> db.runs[r] == RunAfter(hist, r)
    requires forall r :: r !in db.runs ==> RunAfter(hist, r) == RunState(RunStatus.Pending, 0)
    ensures var db', hist' := Applied(db, tx), hist + [RecordOf(db, tx)];
            && (forall r :: r in db'.runs ==> db'.runs[r] == RunAfter(hist', r))
            && (forall r :: r !in db'.runs ==> RunAfter(hist', r) == RunState(RunStatus.Pending, 0))
  {
    assert (hist + [RecordOf(db, tx)])[..|hist|] == hist;
  }

  lemma CommitRecordOk(gates: set<StepKey>, db: Tables, tx: Tx)
    requires CallOk(gates, db, tx) && Finished(tx)
    ensures RecordOk(RecordOf(db, tx))
  {
  }

  lemma CommitClaims(db: Tables, tx: Tx, hist: seq<CommitRecord>)
    requires ClaimOk(db, tx) && Finished(tx) && ClaimsBacked(db, hist)
    ensures ClaimsBacked(Applied(db, tx), hist + [RecordOf(db, tx)])
  {
    var db', c := Applied(db, tx), RecordOf(db, tx);
    var hist' := hist + [c];
    forall i, k | 0 <= i < |hist'| && hist'[i].op.Claim? && k in hist'[i].steps
      ensures exists n :: ClaimBacked(db', hist'[i], k, n)
    {
      if i < |hist| {
        var n :| ClaimBacked(db, hist[i], k, n);
        assert ClaimBacked(db', hist'[i], k, n);
      } else {
        var n :| Launched(db, tx.attempts, tx.intents, tx.todoIntents, k, n);
        assert ClaimBacked(db', c, k, n);
      }
    }
  }

  lemma CommitMints(db: Tables, tx: Tx, hist: seq<CommitRecord>)
    requires MintsDistinct(db, hist)
    ensures MintsDistinct(Applied(db, tx), hist + [RecordOf(db, tx)])
  {
  }

  lemma CommitKeepsDb(gates: set<StepKey>, db: Tables, nextSeq: nat, tx: Tx, hist: seq<CommitRecord>)
    requires TxOk(gates, db, nextSeq, tx) && Finished(tx) && DbOk(gates, db, nextSeq, hist)
    ensures DbOk(gates, Applied(db, tx), nextSeq, hist + [RecordOf(db, tx)])
  {
    CommitAgrees(db, nextSeq, tx);
    CommitGates(gates, db, tx);
    CommitChain(db, tx, hist);
    CommitSteps(db, tx, hist);
    CommitRuns(db, tx, hist);
    CommitRecordOk(gates, db, tx);
    CommitClaims(db, tx, hist);
    CommitMints(db, tx, hist);
    forall r ensures |Ends(Applied(db, tx).events, r)| == TerminalEntries(hist + [RecordOf(db, tx)], r) {
      CommitEnds(db, nextSeq, tx, hist, r);
    }
  }
}
