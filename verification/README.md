# A verified model of the Scarab run store, step-up confirmation, identities and checker

This project models the concurrent core of Scarab in Dafny and proves what it keeps over every
run. `dafny verify dfyconfig.toml` checks all of it.

| file | what it models |
|---|---|
| `RunStore.dfy` | the Postgres run store as a transition system: tables, open transactions with their row locks and staged writes, and every store method split into its SQL statements |
| `RunStoreInvariant.dfy`, `RunStoreSteps.dfy`, `RunStoreCommit.dfy`, `RunStoreRuns.dfy` | the inductive invariant: what an open transaction may rely on, why each statement keeps it, why a commit breaks no other transaction |
| `RunStoreTheorems.dfy` | the results over whole runs: journal, frontier, claims, gate waits, reopening |
| `RunStoreAtomic.dfy`, `RunStorePlans.dfy`, `RunStoreSerial.dfy` | what each committed call does all at once, and that every interleaving is the serial execution of its committed calls |
| `RunStoreMarks.dfy`, `RunStoreEngine.dfy` | how often the journal starts and finishes an Attempt, when the callers are the engine |
| `RunStoreWitness.dfy` | runs that reach a claimed and launched step, a step skipped as unchanged and a passed gate, so the theorems are not about nothing |
| `Leadership.dfy` | the leadership lease, its terms, leader-fenced transactions and their time bounds |
| `LeaseGrants.dfy` | what a granted lease lasts, when another may replace it, and how often a call tries |
| `FencedStore.dfy` | the run store and the lease side by side: which token each commit was made under |
| `OutboxClaims.dfy` | claiming, renewing and closing outbox messages |
| `Checker.dfy`, `Evaluate.dfy` | the chaos checker's statements I1a, I1c, T1, I5 and D1, and the loops that decide them |
| `CheckedStore.dfy` | the checker's T1, I5 and the journal half of I1c against the run store's reachable states |
| `SnapshotWalk.dfy` | the Merkle closure walk with its worklist and its memo of byte ranges |
| `Identities.dfy` | Principals, accounts, sign-in, link, merge, unlink, aliases |
| `IdentityRaces.dfy` | link with its merge split from its count, and other calls in between |
| `RoleBindings.dfy` | native and imported role bindings, and their fold when two Principals merge |
| `Passkeys.dfy`, `Confirmations.dfy`, `StepUpRequests.dfy` | step-up: the signature counter, one-shot confirmations, parked requests and the cap per human |
| `PendingCaps.dfy` | the cap per requester, and how far it holds |
| `Calendar.dfy` | the two directions of the civil-date arithmetic |
| `Options.dfy`, `Decimals.dfy` | optional values; numbers spelled in ids |

## How concurrency is modelled

A transaction is a list of statements still to issue, the row locks it holds (share or exclusive)
and the writes it has staged. A statement runs only when its locks can be granted, and evaluates
its `WHERE` clause on the committed row as it stands at that moment, which is READ COMMITTED's
re-evaluation after a lock wait. Between any two statements every other transaction may move. A
crash, a mint error, a timeout, a refused fence and a lost compare-and-set are all the same step:
the transaction is dropped with what it staged. Event sequence numbers are drawn at the insert.
A ghost history lists what each commit moved. Against this, `RunStoreAtomic.Does` says what one call
does to the tables if it runs alone and at once, and `RunStoreSerial.RunIsSerial` proves that each
commit of each interleaving does exactly that to the tables it finds. A theorem "over every run" quantifies over every
finite trace of such steps from empty tables.

What callers supply is stated as `WellFormed` in `RunStore.dfy`: the events of a transition
journal only the step or run it moves, and the last of them names the move when either end is
terminal (an earlier one may disagree: a step skipped as unchanged is journalled as skipped and then
as moved to succeeded); a terminal run status is named exactly once; a lone appended event moves
nothing; a gate is never made ready or running and gets no recorded Attempt from the scheduler; a
stamped outcome is not `running`. The scheduler's launch closure (`crates/scarab-engine/src/scheduler.rs`, around lines
2946-2984) numbers an Attempt one past the count of the step's Attempts and journals only
`AttemptStarted`, so a running step can have no `StepTransitioned`; that is why the journal
theorem speaks of rows or folds that are terminal, as the checker's I5 does.

The theorems that count an Attempt's start and finish entries ask more of the callers, as `EngineOp`
in `RunStoreMarks.dfy`, which is what the engine's calls do: it never records an Attempt on its own
nor sets a step running but by a claim; it writes a start only in the claim or the gate wait that
mints; and it writes a finish only in the transition that takes the step off running and names that
Attempt as its frontier (`crates/scarab-engine/src/scheduler.rs:5013-5060`, `5133-5225`), or in a
gate's verdict.

## Where the code and its description differ

- The description of a passkey use says that two uses with one non-zero counter are never taken
  for a race. With three overlapping uses they are: `Passkeys.RepeatIsAccepted` gives the run, and
  `Passkeys.BehindMeansOverlap` says exactly which counters at or behind the stored one are
  accepted.
- A call of `lease` that reports its own caller was granted a lease of its own `ttl`
  (`LeaseGrants.GrantLastsTtl`), except after three lost races: then it reports the row as it finds
  it, which another call of the same process may have written.
- "A later call to `lease` past expiry reports another holder" holds when no other call's update
  is in flight (`Leadership.LaterCallReportsAnother`). It fails exactly when the caller's one-second
  lock wait runs out on the stopped holder's lease, and that happens only behind another peer's
  update (`Leadership.ReportsStoppedIffWaitRanOut`, `Leadership.WaitRanOutBehindPeer`);
  `Leadership.StoppedHolderCanBeReported` gives the run.
- A link for a Principal that was itself merged away breaks the identity invariants exactly when the
  account is free, or its holder has only it and no passkey is in the way (`Identities.LinkKeepsIff`);
  `Identities.MergedLinkBreaks` gives the run.
- A link counts the accounts of the Principal it merges without locking it. What breaks the
  invariants is exactly an account given to that Principal between the count and the merge, or a
  linking Principal that was itself merged meanwhile (`IdentityRaces.InvariantsHoldIff`,
  `IdentityRaces.MergeSoundIff`); `IdentityRaces.LateAttachBreaks` gives the run.
- The per-requester cap holds in every run exactly when the requester acts for one human, or its
  humans' caps together are within it, or it may raise nothing (`PendingCaps.RequesterCapHoldsIff`);
  the most it can have is proved and reached.
- A begun request has its body iff no reap at or past its expiry has run since it was inserted
  (`StepUpRequests.BegunHasBodyIff`): a begin stamped before such a reap finds none
  (`StepUpRequests.StaleBeginHasNoBody`).
- The walk's memo is keyed by byte range. It misjudges a blob exactly when the range was read for
  another address and holds the bytes of one of the two (`SnapshotWalk.MisjudgedIff`). So a corrupt
  blob is passed whenever an earlier snapshot reaches a good blob at its range and reads it for that
  blob alone, and the rest of the later snapshot is good and shares no range
  (`SnapshotWalk.SharedRangeMisleads`).
- T1 passes exactly for runs that were never reopened (`CheckedStore.EndsMatchIffNotReopened`).

## Model

| member | source | states |
|---|---|---|
| `RunStoreRuns.RunInv` | crates/scarab-db-postgres/src/lib.rs:2083-2142 | in every state of every run, each open transaction still finds the rows it read under its locks, no two hold conflicting locks, and the committed tables agree with the journal and the history of commits |
| `RunStoreSerial.RunIsSerial` | crates/scarab-db-postgres/src/lib.rs:2083-2483 | whatever runs beside it, every commit does to the tables it finds exactly what its call says, all at once: the statuses, outcomes and generation named, each entry in list order under fresh numbers, each message and no other, and nothing else; all else that changes them is a new run or a new pending step |
| `RunStoreSerial.TransitionIsDelivered` | crates/scarab-db-postgres/src/lib.rs:2132-2141 | a committed step or run transition has every one of its messages in the outbox and all its entries in the journal, in order |
| `RunStoreSerial.NewMessageIsNamed` | crates/scarab-db-postgres/src/lib.rs:2132-2141 | every new outbox row is a message of the transition committed there or the launch of an Attempt a claim minted there |
| `RunStoreSerial.NothingIsLost` | crates/scarab-db-postgres/src/lib.rs:3965-3986 | no outbox row, journal entry or Attempt is lost over any run, and no entry is rewritten |
| `RunStoreSerial.NothingDoneIsExcused` | crates/scarab-db-postgres/src/lib.rs:4014-4036 | a stamp that commits without its outcome on the Attempt, or a gate wait opened without a new Attempt, found at some moment while open no Attempt to stamp or the gate's latest one running |
| `RunStoreTheorems.JournalFoldsToRows` | crates/scarab-db-postgres/src/lib.rs:2083-2142 | in every reachable state the last move by sequence number of a step or run is its row's status whenever either is terminal, though numbers are drawn at insert and commits may overtake each other |
| `RunStoreTheorems.RawCasKeepsAgreementIff` | crates/scarab-db-postgres/src/lib.rs:2068-2081 | the step compare-and-set that writes no event keeps journal and row in agreement iff it changes nothing or moves between non-terminal statuses |
| `RunStoreTheorems.FrontierHoldsAtCommit` | crates/scarab-db-postgres/src/lib.rs:2083-2142 | a transition that names its frontier Attempt commits only while no higher-numbered Attempt is committed, whatever mints run beside it, and moves the step from exactly the status it named |
| `RunStoreTheorems.ClaimsAreAtomic` | crates/scarab-db-postgres/src/lib.rs:217-279 | in every reachable state each step a claim moved to running has the Attempt that claim minted and its launch intent in the tables, and no Attempt is minted twice |
| `RunStoreWitness.ClaimIsReachable` | crates/scarab-db-postgres/src/lib.rs:217-279 | for any step, a run in which it is armed, claimed, and running with its first Attempt and launch intent |
| `RunStoreWitness.SkipIsReachable` | crates/scarab-engine/src/scheduler.rs:4802-4838 | for any step, a run in which it is skipped as unchanged: the journal says skipped and then succeeded, and the row says succeeded |
| `RunStoreWitness.PassIsReachable` | crates/scarab-db-postgres/src/lib.rs:2368-2483 | for any gate, a run that passes it: the step and its Attempt succeed, and the journal lists the Attempt's start and end, the release, the move to succeeded and the resolution |
| `RunStoreTheorems.ClaimedOncePerArming` | crates/scarab-db-postgres/src/lib.rs:217-279 | between two claims of one step some commit made it ready again |
| `RunStoreTheorems.GateHasOneWait` | crates/scarab-db-postgres/src/lib.rs:2319-2366 | a gate has at most one running Attempt in every reachable state, and no Attempt of the gate is numbered higher |
| `RunStoreTheorems.ResolveLeavesNoneRunning` | crates/scarab-db-postgres/src/lib.rs:2368-2483 | a committed verdict found the gate pending, leaves it succeeded if passed and failed if not, gives that outcome to one Attempt that was running or is minted, changes no other, and leaves none running |
| `RunStoreTheorems.ResolvedOncePerArming` | crates/scarab-db-postgres/src/lib.rs:2368-2483 | between two committed verdicts of one gate some commit made it pending again |
| `RunStoreTheorems.ByIntentIsKept` | crates/scarab-db-postgres/src/lib.rs:2235-2269 | a superseded or cancelled Attempt keeps that outcome through any run of verdicts, closes and stamps |
| `RunStoreTheorems.ReopenGeneration` | crates/scarab-db-postgres/src/lib.rs:3933-3963 | over any history a run entered a terminal status as often as its generation says, plus once while it is terminal |
| `RunStoreTheorems.GuardedMeansNotReopened` | crates/scarab-db-postgres/src/lib.rs:2287-2313 | a transition guarded on a generation commits only if no reopen was committed since that generation was read |
| `RunStoreTheorems.EndsAreGenerations` | crates/scarab-db-postgres/src/lib.rs:2287-2313 | the journal holds exactly as many terminal entries of a run as its generation, plus one while it is terminal |
| `RunStoreTheorems.OneTerminalEntry` | crates/scarab-db-postgres/src/lib.rs:2287-2313 | a run never reopened has exactly one terminal journal entry if it is terminal and none otherwise |
| `RunStoreEngine.StartedIffMinted` | crates/scarab-db-postgres/src/lib.rs:235-279 | over every run of the engine's calls an Attempt has exactly one start entry if a committed claim or gate wait minted it, and none otherwise |
| `RunStoreEngine.FinishedOnce` | crates/scarab-db-postgres/src/lib.rs:2083-2142 | over every run of the engine's calls an Attempt is journalled finished at most once, whatever re-arms, retries and verdicts run, and is then no running step's latest nor a gate's open one |
| `Leadership.FencedWritesInTermOrder` | crates/scarab-db-postgres/src/lib.rs:106-134 | over every interleaving, fenced writes commit in non-decreasing term order, none of a term after a later term began, and each term has one owner |
| `Leadership.FencedCommitHoldsTheLease` | crates/scarab-engine/src/ports.rs:17-63 | at the moment a fenced transaction commits, the lease row still gives its owner the very token the transaction was begun with |
| `Leadership.StoppedFenceIsGone` | crates/scarab-db-postgres/src/lib.rs:90-134 | a process stopped inside a fenced transaction, its fence check still waiting included, has none left after one statement bound plus one idle bound |
| `Leadership.LaterCallReportsAnother` | crates/scarab-db-postgres/src/lib.rs:2960-3057 | past expiry, with the stopped holder's transactions gone and no other call's update in flight meanwhile, a peer's call that finishes reports a holder other than the stopped one |
| `Leadership.TakeoverIsGranted` | crates/scarab-db-postgres/src/lib.rs:2960-3057 | under the same conditions, whenever the call comes to its update the update is granted at once and takes the next term |
| `Leadership.ReportsStoppedIffWaitRanOut` | crates/scarab-db-postgres/src/lib.rs:2960-3057 | a finished call past expiry reports the stopped holder iff its lock wait ran out on that holder's lease |
| `Leadership.WaitRanOutBehindPeer` | crates/scarab-db-postgres/src/lib.rs:3028-3050 | then another peer's update of the row was in flight while the call ran |
| `Leadership.PassedForGood` | crates/scarab-db-postgres/src/lib.rs:2960-3057 | once the lease has passed from a stopped holder, no call made after reports that holder, whatever else happens |
| `Leadership.StoppedHolderCanBeReported` | crates/scarab-db-postgres/src/lib.rs:2960-3057 | for any holder and two peers, a run in which a call waiting behind the other peer's takeover reports the stopped holder |
| `LeaseGrants.GrantLastsTtl` | crates/scarab-db-postgres/src/lib.rs:2984-3043 | a finished call that reports its own caller, its lock wait not run out nor three races lost, wrote to the row a lease that expires its ttl after a step of its own, the one that opened its update or inserted the row |
| `LeaseGrants.RowChanges` | crates/scarab-db-postgres/src/lib.rs:3018-3027 | the row changes only to a lease so granted: the owner's renewal keeps the term, and another's takes the next term by an update opened after the expiry it replaces |
| `LeaseGrants.TermBeginsAfterExpiry` | crates/scarab-db-postgres/src/lib.rs:3018-3027 | a later term begins only for another owner, by an update opened after the expiry of the lease in the row |
| `LeaseGrants.LeaseStands` | crates/scarab-db-postgres/src/lib.rs:3003-3027 | a lease in the row stands through any run until its expiry has passed, unless its own owner renews it |
| `LeaseGrants.ReplacesWhatWasRead` | crates/scarab-db-postgres/src/lib.rs:3018-3034 | an update replaces only the owner and term that its own call had read, so a race it lost is never overwritten |
| `LeaseGrants.AtMostThreeTries` | crates/scarab-db-postgres/src/lib.rs:2968-2984 | from its start on, a call inserts or opens an update three times at most |
| `FencedStore.TokenMoves` | crates/scarab-db-postgres/src/lib.rs:106-134 | from the row locks alone: the lease's token changes only while no transaction is past its fence check, and then to the next term |
| `FencedStore.LedRunIsBoth` | crates/scarab-db-postgres/src/lib.rs:106-134 | a run of store and lease together is a run of each, so every theorem about either holds of it |
| `FencedStore.FencedCommitsInTermOrder` | crates/scarab-db-postgres/src/lib.rs:217-234 | every committed claim, promotion and opened gate wait was made under a lease token, and commits under tokens are in term order with one owner a term |
| `FencedStore.FencedCommitIsLeaders` | crates/scarab-db-postgres/src/lib.rs:106-134 | a committed claim, promotion or opened gate wait is made while its own token is the lease row's |
| `FencedStore.ClaimsByLeadersInOrder` | crates/scarab-db-postgres/src/lib.rs:217-279 | two claims of one step, by any leaders, are in term order with a re-arming between them |
| `OutboxClaims.PickLowest` | crates/scarab-db-postgres/src/lib.rs:2533-2546 | the claim's inner select lists the lowest claimable, unlocked ids, in order, and stops short of the limit only when none is left |
| `OutboxClaims.Outbox.Claim` | crates/scarab-db-postgres/src/lib.rs:2520-2568 | a claim takes exactly the selected rows for its owner from now to now plus the visibility, and tenures of a message stay in time order |
| `OutboxClaims.Outbox.Renew` | crates/scarab-db-postgres/src/lib.rs:2570-2594 | a renewal extends the last tenure iff the caller is the recorded owner of an open message |
| `OutboxClaims.ClaimsAreExclusive` | crates/scarab-db-postgres/src/lib.rs:2520-2594 | under a monotone clock no two tenures of a message are live at one instant, in any run |
| `OutboxClaims.OnlyLastClaimantRenews` | crates/scarab-db-postgres/src/lib.rs:2570-2594 | whoever may renew is the last to have claimed |
| `OutboxClaims.RetakenIsNeverRenewed` | crates/scarab-db-postgres/src/lib.rs:2576-2579 | a drainer whose claim was retaken can never renew it again without claiming anew |
| `OutboxClaims.ClosedStaysClosed` | crates/scarab-db-postgres/src/lib.rs:2596-2647 | a dispatched or dead-lettered message is never claimed or renewed again |
| `OutboxClaims.FlagsSayWhatWasDone` | crates/scarab-db-postgres/src/lib.rs:2596-2647 | a message says it was dispatched iff it was marked so while in the table, and dead-lettered iff it was dead-lettered |
| `Evaluate.CheckPods` | crates/scarab-chaos/src/check.rs:592-609 | I1a reports an Attempt, once, iff two Pod records of it carry different uids |
| `Evaluate.CheckEvidence` | crates/scarab-chaos/src/check.rs:748-775 | I1c reports a step iff it has two succeeded Attempt rows, and iff it is succeeded on evidence that is not its one succeeded Attempt |
| `Evaluate.CheckEntries` | crates/scarab-chaos/src/check.rs:776-793 | I1c reports an Attempt and kind iff the journal has that entry twice |
| `Evaluate.CheckEnds` | crates/scarab-chaos/src/check.rs:795-824 | T1 reports a run iff it does not have exactly one terminal entry of its own status while terminal, and none otherwise |
| `Checker.LastBySeqIsLast` | crates/scarab-chaos/src/check.rs:833-837 | the filter and maximum give the matching event with the highest sequence number, the later row of equals, and none only when nothing matches |
| `Checker.FoldIsUnique` | crates/scarab-chaos/src/check.rs:826-877 | the checker's fold is the one status that the last matching event by sequence number names, `pending` when none matches |
| `Evaluate.CheckRunFolds` | crates/scarab-chaos/src/check.rs:826-850 | I5 reports a run row iff the fold differs from it, as a failure iff either is terminal |
| `Evaluate.CheckStepFolds` | crates/scarab-chaos/src/check.rs:851-877 | I5 reports a step row iff the fold differs from it, as a failure iff either is terminal |
| `Evaluate.Evaluate` | crates/scarab-chaos/src/check.rs:588-877 | no I1a, I1c, T1 or I5 failure is found iff the four quantified statements hold of the facts |
| `Evaluate.SecondDrainDrivers` | crates/scarab-chaos/src/check.rs:343-358 | D1 lists each pair of drains by two replicas of one Pod that overlap, once, and no other |
| `Evaluate.AtOnceIsShared` | crates/scarab-chaos/src/check.rs:348-348 | for drains that took time, the overlap test holds iff some instant belongs to both |
| `CheckedStore.ReachableStatesPass` | crates/scarab-chaos/src/check.rs:795-877 | facts gathered in any reachable state of the run store, no run of which was reopened, satisfy T1 and I5 |
| `CheckedStore.EndsMatchIffNotReopened` | crates/scarab-chaos/src/check.rs:795-824 | of facts gathered in a reachable state, T1 holds of a run iff it was never reopened |
| `CheckedStore.NothingIsJournalledTwice` | crates/scarab-chaos/src/check.rs:776-793 | facts gathered in any reachable state of the engine's calls have no Attempt journalled started or finished twice |
| `CheckedStore.RunFoldIsStoreFold` | crates/scarab-chaos/src/check.rs:833-841 | the checker's run fold over gathered rows is the store journal's fold, in the column's spelling |
| `CheckedStore.StepFoldIsStoreFold` | crates/scarab-chaos/src/check.rs:851-864 | the checker's step fold over gathered rows is the store journal's fold, in the column's spelling |
| `SnapshotWalk.PickIsRight` | crates/scarab-chaos/src/check.rs:1434-1456 | a member is picked iff a committed own or borrowed one exists, an own one first, and a refusal gives the reason that holds |
| `SnapshotWalk.LoadsIffGood` | crates/scarab-chaos/src/check.rs:1485-1531 | a tree loads, and is descended into, iff the member picked for it reads back as content that hashes to its address and parses; it names what that content lists, and its bytes count iff they hash to the address |
| `SnapshotWalk.WalkTrees` | crates/scarab-chaos/src/check.rs:1485-1531 | on any finite index, cyclic ones included, the worklist ends having visited exactly the reachable trees once each and noted exactly the reachable blobs, with the bytes of the trees that hash to their address, and no problem iff every one loads |
| `SnapshotWalk.WalkSnapshot` | crates/scarab-chaos/src/check.rs:1458-1570 | counts each reachable object once and the bytes of each tree and each newly read blob that hash to their address, adds to the memo only checks of reachable blobs, and reports exactly what each reachable tree fails to load for, each reachable blob that may not be read with its reason, and what the memo holds against each other's range |
| `SnapshotWalk.WalkIsSound` | crates/scarab-chaos/src/check.rs:1543-1568 | with one address per range the memo keeps agreeing with re-reading, and the walk is clean iff every reachable tree and blob is in a committed own or borrowed pack and hashes to its address |
| `SnapshotWalk.WalkAll` | crates/scarab-chaos/src/check.rs:1319-1323 | with one memo carried over all snapshots, each is reported clean iff it is good by itself |
| `SnapshotWalk.MisjudgedIff` | crates/scarab-chaos/src/check.rs:1543-1568 | a blob is clean and bad iff its range was read for another address and holds its bytes, reported and good iff it was read for another and holds its own |
| `SnapshotWalk.SharedRangeMisleads` | crates/scarab-chaos/src/check.rs:1543-1568 | in every world where a first snapshot reaches a good blob, alone at its range, and a second, otherwise good and sharing no other range, reaches another blob there, the second walk is clean and its snapshot is not good |
| `SnapshotWalk.SharedWorldMisleads` | crates/scarab-chaos/src/check.rs:1319-1323 | such a world, walked from an empty memo over two roots |
| `Identities.LinkKeepsIff` | crates/scarab-db-postgres/src/lib.rs:4920-5026 | a link breaks one holder per account, one account per provider, no lockout, no accounts on merged Principals or one-level merging exactly when its Principal is merged and the account is free, or its holder has only it and no passkey is in the way |
| `Identities.MergedLinkBreaks` | crates/scarab-db-postgres/src/lib.rs:4920-5026 | a run of two sign-ins and two links, each but the last for an unmerged Principal, whose last link breaks the invariants |
| `Identities.MergeHandsOn` | crates/scarab-db-postgres/src/lib.rs:4717-4752 | a merge moves exactly the holder's passkeys to the survivor and reports them, only with leave to move any, and makes the holder and all its aliases aliases of the survivor |
| `Identities.IdentityStore.Link` | crates/scarab-db-postgres/src/lib.rs:4920-5026 | each outcome of a link is given exactly when its conditions on accounts, Principals and passkeys hold, a refusal changes nothing, and a refusal after the merge rolls it back |
| `Identities.UnlinkKeeps` | crates/scarab-db-postgres/src/lib.rs:5028-5059 | an unlink keeps the invariants, no lockout among them |
| `Identities.UnlinkRemovesOne` | crates/scarab-db-postgres/src/lib.rs:5028-5059 | an unlink that goes through removes exactly one account and leaves its Principal another |
| `Identities.IdentityStore.Unlink` | crates/scarab-db-postgres/src/lib.rs:5028-5059 | the statements of an unlink refuse an account that is not there or the last one, and else remove it |
| `Identities.IdentityStore.FindFree` | crates/scarab-db-postgres/src/lib.rs:4822-4850 | the suffix search finds the first free id, and fails only when all ten thousand are taken |
| `Identities.IdentityStore.PinOrMint` | crates/scarab-db-postgres/src/lib.rs:4754-4882 | whatever others do after its lookups and between its passes, the call keeps the invariants, returns the Principal the account was found pinned to or one minted for it, and gives up only if others pinned, unpinned and pinned the account again meanwhile |
| `Identities.PinsUnlessMoved` | crates/scarab-db-postgres/src/lib.rs:4768-4818 | on return the account is pinned to what the call returns unless others moved it after the lookup |
| `Identities.RunKeeps` | crates/scarab-db-postgres/src/lib.rs:4754-5059 | over any run of sign-ins, imports, links for unmerged Principals and unlinks, one call at a time, the identity invariants hold |
| `IdentityRaces.InvariantsHoldIff` | crates/scarab-db-postgres/src/lib.rs:4957-5026 | with a link split at its count, under any interleaving the identity invariants hold throughout iff every attach finds its Principal unmerged and every merge finds that and its holder with no other account |
| `IdentityRaces.MergeSoundIff` | crates/scarab-db-postgres/src/lib.rs:4977-5014 | a merge that goes through finds its holder so iff no commit since its count gave the holder an account |
| `IdentityRaces.RacedMergeHandsOn` | crates/scarab-db-postgres/src/lib.rs:4717-4752 | a merge that goes through hands on the account and exactly the passkeys and aliases its holder has by then, passkeys only with leave, whatever ran since its count |
| `IdentityRaces.AloneIsWhole` | crates/scarab-db-postgres/src/lib.rs:4957-5026 | with nothing in between, the split link is the whole one |
| `IdentityRaces.LateAttachBreaks` | crates/scarab-db-postgres/src/lib.rs:4977-5014 | from any tables in which a merge is due, a run in which the holder links another account between the count and the merge and is left merged with it |
| `Identities.AccountMoves` | crates/scarab-db-postgres/src/lib.rs:4957-5026 | an account changes hands only by a link that merges its holder, whose only account it was, and goes only by its holder's unlink |
| `Identities.NewAccountIsFresh` | crates/scarab-db-postgres/src/lib.rs:4822-4874 | a new account never lands on an existing Principal except by link |
| `Identities.ClaimedBySignIn` | crates/scarab-db-postgres/src/lib.rs:4754-4874 | a Principal becomes claimed exactly by a sign-in with an account it holds or that mints it; an import, a link with its merge and an unlink leave every claim as it was |
| `Identities.MergedStaysMerged` | crates/scarab-db-postgres/src/lib.rs:4745-4752 | a merged Principal stays merged, always into a live one |
| `Identities.AliasesOf` | crates/scarab-db-postgres/src/lib.rs:5061-5074 | the recursive query, round by round, returns exactly the ids folded into the given one through any chain, cycles included |
| `Identities.AliasesAreDirect` | crates/scarab-db-postgres/src/lib.rs:5061-5074 | under the invariants that is the direct preimage of the merge pointer |
| `RoleBindings.RbacStore.ImportSeeds` | crates/scarab-db-postgres/src/lib.rs:4458-4506 | after an import every seeded subject has the last seed's role unless native, pruned rows are exactly the unseeded imports of this source or of none, counted, and all else stays |
| `RoleBindings.RbacStore.Fold` | crates/scarab-db-postgres/src/lib.rs:4579-4655 | the merge loop leaves the survivor at every scope its own native row, else the other's native row, else the higher import, leaves the other none, and touches no third subject |
| `RoleBindings.NativeIsKept` | crates/scarab-db-postgres/src/lib.rs:4299-4523 | a native grant or tombstone stands unaltered through any run without its own grant or revoke or the fold of its subject |
| `RoleBindings.FoldMovesOnly` | crates/scarab-db-postgres/src/lib.rs:4562-4655 | the survivor's row was one of the two, and it is native iff either was |
| `RoleBindings.FoldRule` | crates/scarab-db-postgres/src/lib.rs:4600-4622 | at every scope the survivor's own native row stays, else the other's native row, else the only one there is, and of two imports the other's iff its role is above: owner above admin, admin above member, member above viewer, any above none |
| `RoleBindings.FoldKeepsCapabilities` | crates/scarab-identity/src/lib.rs:64-74 | folding imports, the survivor's row allows an action iff one of the two did |
| `Passkeys.PasskeyStore.RecordUse` | crates/scarab-db-postgres/src/step_up.rs:322-362 | a use is recorded iff the row exists and the counter clause holds, and else flags the passkey if there is one |
| `Passkeys.CounterNeverFalls` | crates/scarab-db-postgres/src/step_up.rs:331-351 | over any interleaving of verifications the stored counter never falls and a flag stays |
| `Passkeys.FlaggedIsNeverAccepted` | crates/scarab-db-postgres/src/step_up.rs:322-376 | once flagged, a passkey has no use accepted, even one read before the flag |
| `Passkeys.RefusedIsFlagged` | crates/scarab-db-postgres/src/step_up.rs:352-376 | once a refused use's flag statement or a mark has run, the passkey is flagged for good and no use of it is accepted |
| `Passkeys.CounterIsAccepted` | crates/scarab-db-postgres/src/step_up.rs:331-351 | the stored counter is at least every accepted one, and has changed only to one accepted since |
| `Passkeys.AloneIsStrict` | crates/scarab-db-postgres/src/step_up.rs:331-351 | a use that overlaps no accepted one is accepted iff its counter is above the stored one or both are zero, and then above every counter accepted before |
| `Passkeys.BehindMeansOverlap` | crates/scarab-db-postgres/src/step_up.rs:331-351 | a non-zero counter at or behind the stored one is accepted iff it lies strictly between what was read and what is stored, and then another use was accepted since the read |
| `Passkeys.RefusedIff` | crates/scarab-db-postgres/src/step_up.rs:331-351 | an unflagged passkey that is not backup-eligible refuses a counter iff it repeats a non-zero stored one, or is behind the stored one and not ahead of what was read |
| `Passkeys.BackupEligibleIsAccepted` | crates/scarab-db-postgres/src/step_up.rs:331-351 | a backup-eligible passkey that is not flagged has any counter accepted |
| `Passkeys.RepeatIsAccepted` | crates/scarab-db-postgres/src/step_up.rs:331-351 | a run in which one counter is accepted twice |
| `Confirmations.PickFirst` | crates/scarab-db-postgres/src/step_up.rs:700-710 | the confirmation picked is the first by confirmation time and id |
| `Confirmations.TicketTable.Consume` | crates/scarab-db-postgres/src/step_up.rs:468-488 | a challenge is spent iff it is the session's, unspent and unexpired |
| `Confirmations.TicketTable.ConsumeAction` | crates/scarab-db-postgres/src/step_up.rs:689-719 | exactly one matching confirmation is spent, the oldest that is not locked, and none only if all are locked |
| `Confirmations.SpentOnce` | crates/scarab-db-postgres/src/step_up.rs:468-719 | over any run each challenge and each action confirmation is spent by at most one call, of the session it was put for, before it expired |
| `Confirmations.SpentIff` | crates/scarab-db-postgres/src/step_up.rs:468-719 | a ticket still in the table is marked spent iff a call spent it, and until then exactly its own session's calls before its expiry spend it |
| `StepUpRequests.RequestStore.RaiseRequest` | crates/scarab-db-postgres/src/step_up.rs:747-798 | alone, a raise is refused iff a cap is reached, the requester's first, or the id is taken, and else inserts |
| `StepUpRequests.RequestStore.BeginExecution` | crates/scarab-db-postgres/src/step_up.rs:813-855 | begins iff pending and unexpired, and else says which reason holds |
| `StepUpRequests.RequestStore.FinishRequest` | crates/scarab-db-postgres/src/step_up.rs:857-887 | finishes iff the state is terminal and the request executing; then the row says that state and that time, its body is gone, and nothing else changes |
| `StepUpRequests.RequestStore.Reap` | crates/scarab-db-postgres/src/step_up.rs:924-958 | clears exactly the bodies of expired and long-executing requests, deletes exactly those past the retention of their state, and changes nothing else |
| `StepUpRequests.ExecutesOnce` | crates/scarab-db-postgres/src/step_up.rs:813-887 | over any interleaving each request begins at most once, finishes at most once, and only after it began; one in the table has begun iff it is not pending and finished iff it is executed or failed |
| `StepUpRequests.EffectiveOnce` | crates/scarab-db-postgres/src/step_up.rs:813-887 | no two begins of a run go through for one request, and no two finishes |
| `StepUpRequests.FinishedAsNamed` | crates/scarab-db-postgres/src/step_up.rs:857-887 | through any run, a finished request still in the table says the state and the time its one effective finish named, and has no body |
| `StepUpRequests.ReapKeepsLive` | crates/scarab-db-postgres/src/step_up.rs:924-958 | a reap whose retention ends no later than it runs keeps every live request as it was |
| `StepUpRequests.PendingHasBodyIff` | crates/scarab-db-postgres/src/step_up.rs:930-944 | in any run a pending request has its sealed body iff no reap at or past its expiry has run since it was inserted |
| `StepUpRequests.BegunHasBodyIff` | crates/scarab-db-postgres/src/step_up.rs:813-837 | so a begun request has its body iff no such reap ran, whatever time the begin is stamped with |
| `StepUpRequests.StaleBeginHasNoBody` | crates/scarab-db-postgres/src/step_up.rs:930-944 | for any request, a run in which a begin stamped before a reap finds no body |
| `StepUpRequests.ExecutingKeepsBodyIff` | crates/scarab-db-postgres/src/step_up.rs:930-944 | an executing request keeps its body iff no reap has run one request lifetime or more after it was confirmed |
| `StepUpRequests.ReapLeavesNoDeadBody` | crates/scarab-db-postgres/src/step_up.rs:930-944 | after a reap, in any run, only live pending requests and those confirmed within a request lifetime still have a body |
| `StepUpRequests.HumanCapHolds` | crates/scarab-db-postgres/src/step_up.rs:747-798 | with raises, begins, finishes and reaps interleaved between the counts and the insert, a human's live requests never pass the cap |
| `PendingCaps.RequesterCapHolds` | crates/scarab-db-postgres/src/step_up.rs:747-798 | a requester acting for n humans never has more live requests than its cap plus n - 1, nor than the humans' caps together |
| `PendingCaps.RequesterReachesMost` | crates/scarab-db-postgres/src/step_up.rs:747-798 | for any caps and any n humans, a run in which it has that many |
| `PendingCaps.RequesterCapHoldsIff` | crates/scarab-db-postgres/src/step_up.rs:747-798 | the requester's cap holds in every run iff it acts for one human, or the humans' caps together are within it, or it is zero |
| `Calendar.DaysCountsDays` | crates/scarab-chaos/src/time.rs:55-65 | the day number of the next Gregorian date is one more, for every valid date |
| `Calendar.EpochIsZero` | crates/scarab-chaos/src/time.rs:55-65 | 1970-01-01 is day 0 |
| `Calendar.CivilOfDays` | crates/scarab-cli/src/security.rs:326-346 | the printed date of a valid date's day number is that date, for every year |
| `Calendar.DaysOfCivil` | crates/scarab-cli/src/security.rs:326-346 | the day number of the printed date is the day number, for every integer, and the date is valid |
| `Calendar.PrintedStampReadsBack` | crates/scarab-cli/src/security.rs:326-346 | the fields printed for an instant are valid and read back, with its milliseconds, to the instant |
| `Calendar.ReadStampPrintsBack` | crates/scarab-chaos/src/time.rs:50-52 | valid fields read in any offset and printed give the fields of that offset's instant back |

## Left out

- Column getters and setters, row decoding, JSON and SQL text of the run store: single reads or writes.
- Failure class and detail, start times, results, the evidence columns and the legacy NULL outcome of an Attempt: the run store model keeps an Attempt's outcome only.
- Creation of run and step rows is one step each, always pending; the creating flag is not modelled.
- The launch closure and the gate resolution's events are fixed to what the engine supplies (crates/scarab-engine/src/scheduler.rs:2946-2984, crates/scarab-engine/src/lib.rs:532-575), not taken as parameters.
- Time in the run store: a timed-out fence is an aborted transaction there; bounds and stops are in the leadership model, for one lease resource.
- The bounded takeover is for a holder stopped inside a fenced transaction with no lease call of its own in flight: the lease call's own transaction sets only a lock timeout.
- OutboxClaims: the delivery-attempt counter is not modelled.
- Evaluate.Evaluate: I1b, I3, W1, I4, I8, I10, L1, N1 and C1 are not modelled; the order of findings and their texts are not.
- Evaluate.SecondDrainDrivers: the spans come in parsed and filtered to the scenario's Pods; the informational lines about failed record posts are not modelled.
- SnapshotWalk.WalkSnapshot: database errors that abort the walk are not modelled, and the hash is any function.
- Identities: handles, e-mail addresses, names and times; tokens, sessions and approver lists moved by a merge are not modelled. Calls are taken one at a time, but for the windows inside `pin_or_mint` and, in `IdentityRaces`, between the count and the merge of a link.
- RoleBindings: reading roles and listing orgs are not modelled; an unreadable role is none.
- RoleBindings.RbacStore.Fold: asks that the two subjects differ, which a link guarantees, since it stops at an account the Principal already holds.
- Passkeys: insertion is a fresh row; removal and re-registration of a passkey end the run considered.
- Confirmations: text ids are numbers in the order of the query; ids are random and taken never to be put twice.
- StepUpRequests: a request is raised pending and sealed, and ids are taken never to be reused; a reap is one step, and so is an insert with its commit.
- Calendar: integers are unbounded, so 64-bit overflow is not modelled; of parsing and formatting only the arithmetic is.
- Forge connections, sessions, API tokens, environments, policies, libraries, plugins and schedules: mostly one guarded statement each, which would repeat what is proved here.
- The live half of the chaos harness, the executor, log streams, rendering, the CLI and the pipeline compiler: I/O, presentation or thin wrappers.
