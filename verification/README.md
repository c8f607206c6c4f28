# A verified model of the PBFT replica

This project models the replica of the `pbft` package, the protocol that N such replicas run, and the
timer they use. It proves what the code promises, that correct replicas agree, and shows exactly where the
code does not keep that promise.

The replica (`Replica.dfy`) is a class with the fields of `pbftCore`. Its methods are the handlers,
branch for branch, and they re-enter each other as the originals do: a prepare can cause a commit, an
execution, a checkpoint, a watermark move, a resubmission and a view change in one call chain. A ghost
log follows them as a run of atomic protocol steps (`ReplicaSteps.dfy`), so that

- termination of the whole chain is proved, with the new-views still to be entered and then the null
  requests still to be executed as the measure, and of the recursion of `sendViewChange` and
  `recvViewChange` with the stored view-changes above the present view;
- every handler keeps an invariant (`ReplicaInvariant.dfy` and the `Invariant*.dfy` files);
- what the handlers of a replica object do is a run of the system (`PbftSystem.dfy`, `Deployment.dfy`),
  in which up to f replicas send anything in their own names, and to which the safety theorems of
  `Agreement.dfy` apply;
- every view that the handlers leave they leave for a reason, one of those for which the code calls
  `sendViewChange` (`ViewChangeCauses.dfy`).

What a handler does to all that a replica remembers, from the log to the outbox, the tracked reports and the
transfer target, is a relation between before and after (`ReplicaEffects.dfy`): exact wherever the handler ends
at once, and up to the re-entrant call of another handler otherwise, which it names with the state in which it
was made. Every handler is proved against its relation, and says beside it what can be seen from outside.

The decision procedure of a view change is defined in `NewViewRule.dfy` by the counts that the code makes, said
once more by sets of replicas in `NewViewMeaning.dfy`, and shown to keep decisions in `NewViewSafety.dfy`; its
loops are proved against the definition in `NewViewLoops.dfy`.
`ViewChangeProgress.dfy` proves that it cannot get stuck, from what replicas keep on record
(`ReplicaBackers.dfy`) and from why they leave a view (`PromptRuns.dfy`). `Timer.dfy` is the timer loop,
`Restore.dfy` what a replica reads back when it starts again and `Restart.dfy` what that means for its votes,
`Window.dfy` the 64-bit arithmetic of the window test, and `ReplicaRuns.dfy` what holds over the runs of one
replica.

Where the code does not keep a promise, a run from the initial state shows it, built event by event with
`SystemRuns.dfy` and `ExampleRuns.dfy`: `LostDecision.dfy`, `StuckRuns.dfy`, `LostBatch.dfy` and `Restart.dfy`.
`WorkedRuns.dfy` has a run that meets the conditions of the agreement results. In these runs of the system the
primary of view 0 is faulty; the first correct replica leaves that view because the primary contradicts itself,
the others because they hear f + 1 view-changes.

A step of the protocol may leave a view at any time, as a timeout would make it do, and the safety theorems hold
of all runs of such steps. But `ProcessEvent` handles no timer event: the code leaves a view only if the primary
proposes beyond the end of the view or contradicts itself, if the last number of the view is committed, if f + 1
replicas are ahead, or if the new-view does not verify. A run in which every view is left for one of these
reasons is called prompt. With more than one replica the handlers make prompt runs (`HandlersRunPromptly`); the
one case that could be an exception, a primary whose own proposal is committed while it still handles another
commit, is ruled out by `NothingIsForeseen`. `NewViewNeverStuck` is about prompt runs, and the runs that show
failures are prompt.

Go map iteration is modelled as picking any remaining key, so every result holds for every order. Digests
are an idealised injective hash with a null value. Sequence numbers and views are unbounded.

## Where the code departs from the protocol

Each of these is modelled as the code has it, and what can be proved follows from it.

- The null branch of `assignSequenceNumbers` counts messages whatever their low watermark, so it can
  discard a decided batch: `DecisionIsLost` is a run with one faulty replica of four in which correct
  replicas execute different requests at one number. A decided batch survives exactly if a guard holds
  wherever a later view takes the null branch for its number (`DecidedValuesSurvive`). `NullIsSafeIff` says
  that the guard is the weakest condition on the view-changes themselves; the test of the original
  protocol implies it (`PaperGuardSuffices`), and so do low watermarks that are not above the initial
  checkpoint (`LowWatermarksGuardNulls`).
- `moveWatermarks` deletes batches by digest, so a certificate that shares its digest with one that goes
  is no longer prepared (`SharedBatchIsLost`), and a decision can go with it (`DecisionGoesWithBatch`).
  `MoveKeepsPreparedIff` says exactly when a certificate is hit; the survival of decisions is proved for
  runs in which none was (`NoBatchLost`).
- A certificate with the null digest can be overwritten by a later pre-prepare
  (`PreparedNullIsOverwritten`, `AcceptKeepsPreparedIff`), so decided null requests need not survive; the
  results about later views are for batches.
- Given the view-changes of all correct replicas, the decision procedure can still be stuck, because a faulty
  primary can put a batch in the place of a prepared null request (`StuckOnOverwrittenNull`).
  `NewViewNeverStuck` excludes this case, and lost batches, and no more. It needs the record of the correct
  primary of each view, which nothing makes enter its own view; but without that no correct replica has a reason
  to leave the view (`LeavingNeedsPrimary`). With a timeout that would be another condition, which
  `SupportedNeverStuck` states.
- `recvNewView` checks neither that the senders in Vset differ nor that each view-change is well formed
  (`RepeatedMessageIsAQuorum`), nor that C sets have no duplicates. No code sends a new-view; in the system
  new-views come from outside, and those that are sent are assumed to meet these conditions, to contain
  only view-changes that correct senders made, and to be one per view if the primary is correct
  (`SoundNewView`, `SignedBy`, `OneNewViewPerView`).
- `committed` counts commits without looking at their digest; that this is sound is a theorem
  (`CommitCountingIsSound`). `assignSequenceNumbers` never compares the number of the entry that it selects
  with n; that this does no harm is another (`CandidateKeepsDecision`).
- Nothing ever clears `skipInProgress`. While it is set, and only then, the watermark can be above execution
  between events, and an own view-change may fail the tests of its receivers (`OwnViewChangesPass`).
- The comment on `SoftReset` says that it does not clear a pending event. The loop does clear it, and the
  model follows the loop.
- Votes sent are not persisted, so a restarted replica can contradict itself (`RestartForgetsVotes`), exactly
  if no stored entry is from a later view than the vote and the restored watermark is below its number
  (`Restart`). The results about votes, agreement and execution are for runs without restarts.

## Model

| member | source | states |
|---|---|---|
| Quorums.QuorumFacts | pbft/core.go:1325-1335 | two intersection quorums share f + 1 replicas, a quorum fits into the correct replicas, and without f of its members it still has f + 1 |
| Quorums.AllCorrectAre | pbft/core.go:1333-1335 | whichever f replicas are faulty, the view-change quorum is the number of the others |
| Quorums.FloorIsRounding | pbft/core.go:609-611 | dividing and multiplying by K rounds down to the greatest multiple of K, and `% K == 0` recognises the multiples |
| Quorums.FloorMonotone | pbft/core.go:609-611 | rounding keeps the order and does not go below a multiple of K that it starts above |
| Quorums.LogSize | pbft/pbft.go:250-254 | the log size is a multiple of K and at least two periods |
| WindowArithmetic.WindowTestIsExact | pbft/core.go:1425-1427 | the wrapping 64-bit test means h < n <= h + L for every n exactly when h + L does not overflow |
| NewViewRule.PickFinds | pbft/viewchange.go:35-81 | the search over all P entries finds a digest exactly if some entry passes A1 and A2, and what it finds is such an entry's |
| NewViewRule.CountIsCard | pbft/viewchange.go:43-56 | with distinct senders the loops count replicas |
| NewViewRule.A2CountsMessages | pbft/viewchange.go:60-74 | A2 counts Q entries; with one entry per digest and number in each message that is at most the number of messages with a supporting entry |
| NewViewRule.SelectedIsUnique | pbft/core.go:886-935 | the number of the initial checkpoint is determined by the view-changes |
| NewViewRule.SelectedIsGreatest | pbft/core.go:901-930 | whatever the view-changes, no checkpoint that f + 1 replicas list, and that a quorum of low watermarks is not above, is greater than the initial one |
| NewViewMeaning.SelectedIff | pbft/core.go:886-935 | with distinct senders and no checkpoint listed twice, the initial checkpoint is at the greatest number that f + 1 replicas list and that is not below the watermarks of a quorum |
| NewViewMeaning.CandidateIff | pbft/viewchange.go:39-74 | an entry passes A1 and A2 exactly if a quorum of replicas from below n prepared nothing at n that is against it, and f + 1 replicas pre-prepared its digest at n in its view or later |
| NewViewMeaning.NullQuorumIff | pbft/viewchange.go:83-101 | the null branch is open exactly if a quorum of replicas prepared nothing at n |
| NewViewMeaning.AssignmentMeans | pbft/viewchange.go:28-115 | every number of an assignment has the digest of such an entry, or the null request where there is none and the null branch is open |
| NewViewMeaning.AssignmentFailsIff | pbft/viewchange.go:96-105 | there is no assignment exactly if some number in the window has neither |
| NewViewLoops.CheckViewChange | pbft/viewchange.go:7-26 | accepts exactly the view-changes whose P and Q entries are from earlier views and in (h, h + L], and whose checkpoints are in [h, h + L] |
| NewViewLoops.CountA1 | pbft/viewchange.go:40-56 | counts the messages from below n all of whose P entries at n yield to the candidate |
| NewViewLoops.CountA2 | pbft/viewchange.go:60-69 | counts the Q entries for the candidate's digest at n that are not older |
| NewViewLoops.CountNull | pbft/viewchange.go:83-94 | counts the messages without a P entry at n, whatever their watermark |
| NewViewLoops.SelectRequest | pbft/viewchange.go:36-81 | the nested search with early exits returns the digest that the rule picks |
| NewViewLoops.AssignSequenceNumbers | pbft/viewchange.go:28-115 | returns the assignment that the rule defines from the view-changes alone, or nothing if some number can be given nothing |
| NewViewLoops.Prune | pbft/viewchange.go:107-112 | in any order of the keys, only null requests above the last request taken from a P entry go |
| NewViewLoops.CountCheckpoints | pbft/core.go:887-893 | for every listed checkpoint, how often it is listed |
| NewViewLoops.SelectInitialCheckpoint | pbft/core.go:886-935 | in any order of the candidates, the number that the rule selects: none that f + 1 replicas list with a quorum of low watermarks not above it is greater, and if there is one, one is found |
| NewViewSafety.CandidateKeepsDecision | pbft/viewchange.go:33-74 | an entry that passes A1 and A2 carries the digest that a deciding set prepared; the missing test of its own number does no harm |
| NewViewSafety.NullIsSafeIff | pbft/viewchange.go:83-101 | a null request at n contradicts no possible decision for d exactly if enough messages from below n lack an entry for d |
| NewViewSafety.PaperGuardSuffices | pbft/viewchange.go:83-101 | the original protocol's test, messages from below n without an entry at n, is enough for that |
| NewViewExamples.NullBranchLosesDecision | pbft/viewchange.go:83-101 | view-changes of four replicas from which the code assigns the null request to a decided number, because the null branch does not test the watermark |
| NewViewSafety.AssignmentKeepsDecision | pbft/viewchange.go:28-115 | a batch that was decided at n in the window is assigned to n exactly if the guard holds where the null branch is taken for n |
| NewViewSafety.DecisionIsInRange | pbft/core.go:901-930 | a decided number above the initial checkpoint is at most L above it |
| NewViewSafety.AssignmentShape | pbft/viewchange.go:28-115 | the keys of the assignment are h + 1 up to the last request taken from a P entry |
| NewViewSafety.CorrectVoucher | pbft/core.go:901-930 | a correct replica lists the initial checkpoint |
| NewViewSafety.RepeatedMessageIsAQuorum | pbft/core.go:348-353 | without distinct senders in Vset one faulty view-change, repeated, decides any number |
| ReplicaInvariant.InitialInv | pbft/pbft.go:304-326 | a fresh replica satisfies the replica invariant |
| InvariantSteps.CountedPreparersDistinct | pbft/core.go:1353-1362 | the counting loop over the prepares of a certificate counts distinct senders |
| InvariantSteps.PreparedIsEvidence | pbft/core.go:1338-1363 | where `prepared` holds, prepares for that digest came from a quorum less one of replicas other than the primary |
| InvariantSteps.CommittedIsEvidence | pbft/core.go:1387-1408 | where `committed` holds, commits came from a quorum of replicas, whatever their digest |
| InvariantSteps.KeptByAcceptPrePrepare | pbft/core.go:146-155 | filing a pre-prepare keeps the replica invariant |
| InvariantSteps.KeptByIssuePrePrepare | pbft/core.go:1223-1235 | giving out the next number keeps it: no number is given out twice in a view |
| InvariantSteps.KeptByCastPrepare | pbft/core.go:172-183 | sending a prepare keeps it: one prepare per view and number |
| InvariantSteps.KeptByCastNewViewPrepare | pbft/core.go:1034-1048 | preparing an assignment of a new view keeps it, also at or below the watermark |
| InvariantSteps.KeptByCountPrepare | pbft/core.go:209-218 | filing a prepare keeps it: lists hold one vote per sender, none from the primary |
| InvariantSteps.KeptByCastCommit | pbft/core.go:1241-1256 | sending a commit keeps it: one commit per view and number, for a prepared digest |
| InvariantSteps.KeptByCountCommit | pbft/core.go:240-247 | filing a commit keeps it |
| InvariantMoves.KeptByStartExec | pbft/core.go:379-416 | starting an execution keeps it: the next number, backed by a commit quorum |
| InvariantMoves.KeptByFinishExec | pbft/core.go:419-421 | finishing an execution keeps it |
| InvariantMoves.KeptByTakeCheckpoint | pbft/core.go:436-457 | taking a checkpoint keeps it: checkpoints are at executed multiples of K |
| InvariantMoves.KeptByMoveOnQuorum | pbft/core.go:524-555 | moving the watermark on a checkpoint quorum keeps it |
| InvariantMoves.KeptByMoveOnReports | pbft/core.go:589-602 | moving it on f + 1 reports beyond the log keeps it |
| InvariantMoves.KeptByMoveOnNewView | pbft/core.go:827-829 | moving it to the checkpoint of a new view keeps it |
| InvariantMoves.JumpDiscardsLog | pbft/core.go:589-656 | falling behind raises the watermark and discards every certificate and P and Q entry, because h and L are multiples of K |
| InvariantViews.CalcPIsGreatest | pbft/core.go:1120-1154 | the P set holds, per number, the record of greatest view among those carried over and the certificates prepared here |
| InvariantViews.CalcQIsGreatest | pbft/core.go:1156-1192 | the Q set does the same per digest and number |
| InvariantViews.ViewChangeIsCorrect | pbft/core.go:1282-1307 | an own view-change passes the tests of its receivers and has one Q entry per digest and number, unless the watermark has passed execution |
| InvariantViews.KeptByChangeView | pbft/core.go:1260-1318 | leaving a view keeps the replica invariant: no certificate survives, and what was committed is in the P set sent out |
| InvariantViews.KeptByActivate | pbft/core.go:997-1032 | entering a view keeps it: every assignment above the watermark is filed, and nothing in that view was voted for before |
| InvariantViews.StepKeepsInv | pbft/core.go:43-77 | every step of every handler keeps the replica invariant |
| ReplicaLog.RunInv | pbft/core.go:43-77 | every state of every run of a replica satisfies the invariant |
| ReplicaLog.RunGoesOn | pbft/core.go:609-650 | over any run watermark, view and last execution never fall, and no message, acceptance or execution is undone |
| ReplicaFacts.ChangeViewIsStep | pbft/core.go:1260-1275 | every certificate is of the view being left, so leaving it empties the log; and the view-change is a new message |
| ReplicaFacts.NoVotesWhileInactive | pbft/core.go:1034-1048 | in a view that is not entered yet nothing has been prepared |
| ReplicaFacts.EarlyVotesStay | pbft/core.go:1022-1027 | votes for a view that came before it was entered are kept when it is, also where an assignment is filed |
| ReplicaFacts.JumpClearsLog | pbft/core.go:589-593 | a target more than L above the watermark is, rounded, still at least L above it |
| ReplicaFacts.MoveLeaves | pbft/core.go:609-650 | a watermark move takes away what is at or below the new mark, with the batches of the certificates that go, and own checkpoints below it; all else stays |
| ReplicaFacts.PreparedIff | pbft/core.go:1338-1385 | in every reachable state `prepared` is true exactly of a batch at hand, pre-prepared here, that is in the P set or has prepares of a quorum less one of replicas in its certificate |
| ReplicaFacts.CommittedIff | pbft/core.go:1387-1408 | and `committed` exactly of what is prepared and has commits of a quorum of replicas in its certificate, whatever their digest |
| ReplicaEffects.WaitsIff | pbft/core.go:763-806 | a new-view is delayed exactly while every number up to its checkpoint has a certificate of the present view with commits of a quorum of replicas |
| ReplicaEffects.TargetReaches | pbft/core.go:937-945 | the transfer target is raised as far as asked, and never lowered |
| ReplicaLoops.CountMatchingPrepares | pbft/core.go:1353-1357 | counts the prepares for the view, number and digest |
| ReplicaLoops.CountMatchingCommits | pbft/core.go:1398-1402 | counts the commits for the view and number |
| ReplicaLoops.DropCerts | pbft/core.go:613-621 | in any order, the certificates at or below the watermark go, and with each the batch of its digest |
| ReplicaLoops.EntriesAbove | pbft/core.go:631-635 | the P entries above the watermark stay |
| ReplicaLoops.KeysAbove | pbft/core.go:637-641 | the Q entries above the watermark stay |
| ReplicaLoops.CheckpointsAbove | pbft/core.go:623-629 | the checkpoint messages above the watermark stay |
| ReplicaLoops.OwnCheckpointsFrom | pbft/core.go:643-648 | the own checkpoints at or above the watermark stay |
| ReplicaLoops.CountMatching | pbft/core.go:487-501 | the number of replicas that reported this checkpoint, and the set of values reported for its number |
| ReplicaLoops.WeakCertMembers | pbft/core.go:697-706 | the first weak certificate fills its array of f + 1 members exactly, in bounds, with the replicas that vouch |
| ReplicaLoops.PlaceFromTop | pbft/core.go:584-589 | at least c replicas reported the c-th largest number or more |
| ReplicaLoops.PlaceFromTopIsGreatest | pbft/core.go:584-589 | fewer than c reported more than it |
| ReplicaLoops.KeepReports | pbft/core.go:577-583 | the reports below the high watermark are forgotten |
| ReplicaLoops.ListCheckpoints | pbft/core.go:1288-1293 | the C set lists every own checkpoint once |
| ReplicaLoops.ListP | pbft/core.go:1295-1300 | the P set of the message lists every record once |
| ReplicaLoops.ListQ | pbft/core.go:1302-1307 | the Q set of the message lists every record once |
| ReplicaLoops.CanExecuteTo | pbft/core.go:771-806 | every number up to the checkpoint has a commit quorum in the log |
| ReplicaLoops.ViewChangesAbove | pbft/core.go:297-309 | who sent stored view-changes for later views, and the smallest such view |
| ReplicaLoops.StoredAreAhead | pbft/core.go:297-309 | any replicas with a stored view-change for a later view are counted as ahead, and the view joined is not above any of theirs |
| ReplicaLoops.StoredAreCounted | pbft/core.go:320-325 | the replicas with a stored view-change for a view are counted for it, once each |
| ReplicaLoops.CountView | pbft/core.go:320-325 | how many view-changes for the present view are stored |
| ReplicaLoops.JoiningShrinks | pbft/core.go:311-317 | jumping to the smallest later view leaves fewer stored view-changes above: the measure of the recursion with `sendViewChange` |
| ReplicaLoops.CertsFrom | pbft/core.go:1271-1275 | the certificates of earlier views go |
| ReplicaLoops.ViewChangesFrom | pbft/core.go:1276-1280 | the view-changes of earlier views go |
| ReplicaLoops.FindCertificate | pbft/core.go:676-681 | whether some certificate carries the digest |
| ReplicaLoops.NumberedHasCertificate | pbft/core.go:676-681 | a batch that was given a number, here or by another primary, has a certificate and is not handed in again |
| ReplicaLoops.SubmissionOrder | pbft/core.go:672-684 | exactly the outstanding batches without a certificate, each once |
| ReplicaMeasure.EnteringShrinks | pbft/core.go:997-1005 | entering a view leaves fewer new-views to enter: the first component of the measure of the handler chain |
| ReplicaMeasure.ExecutingShrinks | pbft/core.go:400-411 | starting a null request leaves fewer of them above execution: the second component |
| PbftReplica.Replica.constructor | pbft/pbft.go:304-326 | a fresh replica is valid, has nothing unsent, and remembers nothing |
| PbftReplica.Replica.UpdateViewChangeSeqNo | pbft/core.go:1061-1068 | with a period, the view ends that many checkpoints after the last number given out, at a multiple of K |
| PbftReplica.Replica.IsPrePrepared | pbft/core.go:1365-1385 | decides the pre-prepared predicate of the present state |
| PbftReplica.Replica.IsPrepared | pbft/core.go:1338-1363 | decides the prepared predicate |
| PbftReplica.Replica.IsCommitted | pbft/core.go:1387-1408 | decides the committed predicate |
| PbftReplica.Replica.CalcPSet | pbft/core.go:1120-1154 | in any order of the certificates, the P set of the present state |
| PbftReplica.Replica.CalcQSet | pbft/core.go:1156-1192 | in any order of the certificates, the Q set of the present state |
| PbftReplica.Replica.Broadcast | pbft/core.go:1479-1484 | only messages that were made are broadcast, and each counts as sent then |
| PbftReplica.Replica.RecvRequestBatch | pbft/core.go:81-99 | the batch is kept and outstanding; the primary of an active view gives it a number if it may, and then commits to it if that number is prepared already; in any other case nothing else changes |
| PbftReplica.Replica.SendPrePrepare | pbft/core.go:1199-1237 | the next number is given and broadcast exactly if no other live certificate carries the batch, it is in the lower half of the log, and no automatic view change lies before it; else nothing changes |
| PbftReplica.Replica.RecvPrePrepare | pbft/core.go:115-187 | ignored outside the active view and window; a differing digest in the slot, or a number beyond the automatic view change, ends the view with a view-change for the next; else it is filed, a batch that is named and missing is kept, and a backup broadcasts its one prepare and counts it |
| PbftReplica.Replica.RecvPrepare | pbft/core.go:190-221 | filed exactly if it is in the window, not from the primary and the first of its sender; the commit of a certificate that it makes prepared is made, counted and broadcast; in any other case nothing else changes |
| PbftReplica.Replica.MaybeSendCommit | pbft/core.go:1241-1256 | a prepared certificate whose commit was not sent gets exactly that commit made, counted and broadcast; else nothing changes |
| PbftReplica.Replica.RecvCommit | pbft/core.go:224-263 | filed exactly if it is in the window and the first of its sender; once committed, the batch is no longer outstanding, what can be executed is executed, and at the appointed number the view is left with a view-change for the next; in any other case nothing else changes |
| PbftReplica.Replica.ExecuteOutstanding | pbft/core.go:360-376 | the next number is executed if that is possible, whatever the order of the certificates, and nothing else changes if it is not |
| PbftReplica.Replica.ExecuteOne | pbft/core.go:379-416 | executes exactly if the certificate is the next, committed, and nothing is in flight |
| PbftReplica.Replica.ExecDoneSync | pbft/core.go:418-434 | the execution in flight becomes the last, its checkpoint is taken if it is due, the replica is free, and the next execution is the next step if it can start; with none in flight the replica is marked as out of date, and nothing else |
| PbftReplica.Replica.TakeCheckpoint | pbft/core.go:436-457 | at a multiple of K, and only there, the own checkpoint is recorded, counted and broadcast |
| PbftReplica.Replica.RecvCheckpoint | pbft/core.go:467-558 | f + 1 reports beyond the log make the replica jump; in the window the report is stored, and a quorum moves the watermark there if the replica reached the checkpoint, or is catching up and half a log behind; after the first of these a stored new-view is answered as the moved state demands; in any other case nothing else happens |
| PbftReplica.Replica.TrackReport | pbft/core.go:560-589 | the jump target is the (f + 1)-th largest tracked report, and there is one exactly if that is beyond the high watermark |
| PbftReplica.Replica.JumpAhead | pbft/core.go:589-602 | the whole log is left behind, waiting batches are dropped, and the replica starts to catch up |
| PbftReplica.Replica.WeighCheckpoint | pbft/core.go:487-522 | the replica stops exactly on too many values or a weak certificate against the own checkpoint; the first weak certificate, and no other, sets a target and asks for a transfer while catching up |
| PbftReplica.Replica.WitnessCheckpointWeakCert | pbft/core.go:697-730 | the target is raised to the certified checkpoint, and a replica that catches up and executes nothing asks for the transfer |
| PbftReplica.Replica.MoveWatermarks | pbft/core.go:609-656 | the state becomes that of the rounded watermark, a primary hands in every waiting batch without certificate again, and a replica that waits for a view changes nothing else |
| PbftReplica.Replica.DropBelow | pbft/core.go:609-650 | certificates, batches, checkpoints and P and Q entries are exactly those the new watermark leaves |
| PbftReplica.Replica.ResubmitRequestBatches | pbft/core.go:667-695 | a primary hands in every outstanding batch without certificate again, and gives it a number at once if there is room; while the view is not active only the batches at hand change; a backup changes nothing |
| PbftReplica.Replica.SendViewChange | pbft/core.go:1260-1318 | terminates in a later view, inactive and with an empty log; the view-change for the next view was broadcast, describes the state that was left, and was then handled like any other: on file, unless the watermark had passed execution |
| PbftReplica.Replica.OffenceIsReason | pbft/core.go:137-151 | a pre-prepare that makes the replica leave is a reason: it is beyond the end of the view or contradicts the certificate |
| PbftReplica.Replica.EndOfView | pbft/core.go:247-260 | a commit at the last number of a view is a reason to leave the present view: the replica is still in that one, or it was the primary and found its next number prepared |
| PbftReplica.Replica.AheadJoins | pbft/core.go:285-318 | f + 1 stored view-changes for later views are a reason: they were sent by f + 1 replicas |
| PbftReplica.Replica.RefusalIsReason | pbft/core.go:757-825 | a new-view that is refused is a reason: no initial checkpoint goes with its assignment |
| PbftReplica.Replica.RoomForNext | pbft/core.go:1202-1221 | when the primary may give out the next number, in terms of its fields |
| PbftReplica.Replica.SubmitAll | pbft/core.go:689-694 | every batch of the list is handed in |
| PbftReplica.Replica.AcceptPrePrepare | pbft/core.go:153-187 | the accepted pre-prepare is filed, its batch kept if it is missing and the one named, and prepared by a backup that had not |
| PbftReplica.Replica.SendPrepare | pbft/core.go:172-183 | the prepare is made, counted and broadcast |
| PbftReplica.Replica.EndView | pbft/core.go:254-259 | the view is left exactly if this was its last number, or had been left before |
| PbftReplica.Replica.Stabilise | pbft/core.go:553-557 | the watermark moves to a checkpoint that the replica reached, and a new-view that waited for it is answered |
| PbftReplica.Replica.ReachCheckpoint | pbft/core.go:827-851 | the watermark rises to the checkpoint; a replica that has not executed so far names it as target and asks for the transfer |
| PbftReplica.Replica.EnterOrFetch | pbft/core.go:853-883 | the view is entered exactly if no batch is missing; batches newly missed are asked for |
| PbftReplica.Replica.MakeViewChange | pbft/core.go:1260-1310 | the view-change is broadcast, and exactly the stored view-changes for the new view and later ones stay |
| PbftReplica.Replica.JoinView | pbft/core.go:311-317 | the replica leaves for the least view ahead, with a view-change made from its present state |
| PbftReplica.Replica.LeaveView | pbft/core.go:1260-1310 | the view-change lists exactly the checkpoints and the P and Q sets of the view being left |
| PbftReplica.Replica.RecvViewChange | pbft/core.go:266-335 | filed exactly if it passes the tests and is new; f + 1 replicas ahead make the replica join the smallest later view; else the result tells a quorum for the present view |
| PbftReplica.Replica.RecvNewView | pbft/core.go:338-357 | stored exactly once per view and only from its primary; then the stored new-view for the present view, this one or an earlier one, is answered |
| PbftReplica.Replica.JudgeNewView | pbft/core.go:757-825 | the verdict on a new-view depends on its view-changes, its assignment and what can be executed, and on nothing else |
| PbftReplica.Replica.ProcessNewView | pbft/core.go:743-884 | a new-view that does not verify ends the view with a view-change for the next; one that verifies is entered, or waits for missing batches that were asked for; while its checkpoint can be reached by executing nothing changes |
| PbftReplica.Replica.AcceptNewView | pbft/core.go:827-883 | the watermark reaches the checkpoint; the view is entered, by a new primary that hands in what is outstanding or a backup that prepares the assignments, or assigned batches are missing and those newly missed are asked for |
| PbftReplica.Replica.NoteMissing | pbft/core.go:853-875 | exactly the assigned batches above the watermark that are not at hand are missed |
| PbftReplica.Replica.FetchRequestBatches | pbft/core.go:947-958 | every missing batch is asked for |
| PbftReplica.Replica.ProcessNewView2 | pbft/core.go:997-1059 | the view is entered; a backup stays in it and broadcasts its prepare for every assignment, which it counts above the watermark; a new primary hands in every outstanding batch that no certificate of the entered state carries, and gives it a number at once if there is room |
| PbftReplica.Replica.EnterView | pbft/core.go:1003-1030 | every assignment above the watermark is filed as a pre-prepare, and the last number given out is the highest one |
| PbftReplica.Replica.PrepareAssignments | pbft/core.go:1034-1048 | the nested handlers cannot end the view before the last assignment is prepared |
| PbftReplica.Replica.Dispatch | pbft/core.go:43-77 | each kind of message has exactly the effect of its handler (`Handled`), among it what can be seen from outside (`Responds`) |
| PbftReplica.Replica.ProcessEvent | pbft/core.go:43-77 | any message at any time leaves a valid replica with nothing unsent, and has the effect of its handler in the state after it was heard: the prepare of a pre-prepare that is accepted, the commit owed after a prepare, the view-change at the last number of a view, the answer to a new-view, and so on |
| PbftReplica.Replica.ExecutionDone | pbft/core.go:418-434 | so does the report that an execution is done: a checkpoint if one is due, and the next execution if it can start |
| PbftSystem.NewViewIsAligned | pbft/core.go:901-930 | the initial checkpoint of every new-view that is sent is a multiple of K, because a correct replica vouches for it |
| PbftSystem.NetIsHearable | pbft/core.go:43-77 | every message that was sent meets what a correct replica's invariant asks of its input |
| PbftSystem.RunKeepsInv | pbft/core.go:43-77 | the invariant of the whole system holds in every state of every run, with up to f replicas sending anything in their own names |
| PbftSystem.ReachableInv | pbft/core.go:43-77 | every reachable state satisfies it |
| Agreement.CorrectPrimaryBinds | pbft/core.go:1199-1237 | under a correct primary two correct replicas accept the same digest at one view and number |
| Agreement.SharedPreparer | pbft/core.go:1338-1363 | under a faulty primary two quorums of prepares share a correct replica that sent both |
| Agreement.SameViewAgreement | pbft/core.go:1338-1385 | two correct replicas for which the code finds (v, n) prepared agree on the digest |
| Agreement.CommitCountingIsSound | pbft/core.go:1387-1408 | where the code finds d committed, IQ - f correct replicas prepared and committed to that same d, although commits are counted without their digest |
| Agreement.LowWatermarksGuardNulls | pbft/viewchange.go:83-101 | the guard holds for every number where no view-change comes from above the initial checkpoint |
| Agreement.EnteredViewKeepsIff | pbft/viewchange.go:28-105 | a view that a correct replica entered keeps a batch decided earlier exactly if the guard holds where its null branch is taken, as long as the views between bound correct replicas to that batch |
| Agreement.DecisionBindsLaterViews | pbft/viewchange.go:28-105 | by induction over views, under the guard a decided batch is the only one that correct replicas accept at its number later |
| Agreement.NewViewKeepsDecision | pbft/core.go:814-829 | a new-view that is sent starts at or above a decided number, or assigns the decided batch to it exactly if the guard holds where it takes the null branch |
| Agreement.DecidedValuesSurvive | pbft/viewchange.go:28-105 | in every reachable state without a lost batch, all later views that correct replicas entered keep a committed batch exactly if the guard holds wherever one of them takes the null branch for its number |
| Agreement.DecidedValuesBind | pbft/viewchange.go:28-105 | under the guard no correct replica accepts another digest at that number in a later view |
| Agreement.SameViewExecution | pbft/core.go:378-416 | two correct replicas execute the same request at one number in one view |
| Agreement.ExecutionAgreement | pbft/core.go:378-416 | once one executed a batch there, also in different views, if the guard holds for that batch |
| Agreement.WatermarkBehindExecution | pbft/core.go:524-602 | no correct replica's watermark is above the last execution of every correct replica, by whichever route it was raised |
| Agreement.ReportedIsExecuted | pbft/core.go:560-589 | where f + 1 replicas report a number or more, a correct one executed that far |
| WorkedRuns.DecisionIsCarried | pbft/viewchange.go:28-115 | a prompt run in which a batch is committed in view 0 and carried into view 1, with all conditions of the agreement results met |
| LostDecision.DecisionIsLost | pbft/viewchange.go:83-101 | a prompt run with one faulty replica of four, no batch lost and well-formed new-views, after which one correct replica has executed a batch and another the null request at the same number |
| ReplicaBackers.StepKeepsBackers | pbft/core.go:1156-1192 | whatever a replica prepared, proposed or took over from a new-view stays on record as pre-prepared, and is reported in every later view-change, until its watermark passes the number |
| ViewChangeProgress.ReplicasRun | pbft/core.go:43-77 | in every run of the system each correct replica goes through a run of its own |
| ViewChangeProgress.BackerTells | pbft/core.go:1282-1307 | a correct replica that stands behind an entry reports it in its Q set in every later view-change from below that number |
| ViewChangeProgress.PreparedIsBacked | pbft/core.go:1338-1363 | f + 1 correct replicas stand behind a prepared entry if the primary of its view is faulty or entered the view, or if there are more than 3f + 1 replicas |
| PromptRuns.LeavingNeedsPrimary | pbft/core.go:137-826 | where every view is left for one of the reasons for which the code calls `sendViewChange`, no correct replica gets past a view of a correct primary that did not enter it, unless its new-view does not verify |
| PromptRuns.NothingIsForeseen | pbft/core.go:1199-1257 | with more than one replica, no correct primary finds a number prepared that it has not given out |
| ViewChangeProgress.NewViewNeverStuck | pbft/viewchange.go:33-105 | in every state of a prompt run without a lost batch, the view-changes of all correct replicas from at most h give every number a digest, if no faulty primary put a batch in the place of a null request that one of them reports |
| ViewChangeProgress.SupportedNeverStuck | pbft/viewchange.go:33-105 | the same whatever makes replicas leave their views, if for each of their P entries a correct primary of its view entered it, or there are more than 3f + 1 replicas |
| StuckRuns.StuckOnOverwrittenNull | pbft/viewchange.go:57-105 | a prompt run after which they do not, because a faulty primary put a batch in the place of a prepared null request |
| ReplicaRuns.OneVotePerSlot | pbft/core.go:172-183 | over a whole run, at most one prepare, one commit and one pre-prepare per view and number |
| ReplicaRuns.ExecutionStarts | pbft/core.go:360-416 | executions are at 1, 2, 3 and so on, each started once, in a state where its certificate was committed, nothing was in flight and the replica was not catching up |
| ReplicaRuns.RecordsNeverFall | pbft/core.go:1260-1275 | over any number of view changes the view recorded for a number, or a digest and number, never falls while it is above the watermark |
| ReplicaRuns.MoveKeepsPreparedIff | pbft/core.go:613-621 | a prepared certificate above the new watermark stays prepared exactly if no certificate that goes carries its non-null digest |
| LostBatch.DecisionGoesWithBatch | pbft/core.go:613-621 | a prompt run in which a lost batch takes a decision with it: a correct replica committed and executed the batch and entered a later view that assigns the null request to its number, although the guard holds everywhere |
| LostBatch.SharedBatchIsLost | pbft/core.go:613-621 | a run that ends where it does not: two certificates share a batch, and the watermark passes the first |
| ReplicaRuns.AcceptKeepsPreparedIff | pbft/core.go:146-155 | a prepared certificate stays prepared for its digest under a further pre-prepare exactly if the digest is not null or the new one is |
| StuckRuns.PreparedNullIsOverwritten | pbft/core.go:146-155 | a run that ends where it does not: a prepared null request, and a batch that the primary proposes for its number |
| Deployment.HandlersRunInSystem | pbft/core.go:43-77 | what the handlers record is a run of the system, so the theorems about reachable states hold of replica objects |
| Deployment.HandlersRunPromptly | pbft/core.go:43-77 | with more than one replica it is a prompt run: every view that the handlers leave they leave for a reason in that view |
| Deployment.ConsumersAgree | pbft/core.go:400-416 | the consumers of correct replica objects are given the same batch at each number, if no batch was lost and the guard holds for what was executed there |
| Deployment.ConsumerSeesOrder | pbft/core.go:378-416 | a consumer is given batches in ascending order, each number once |
| Deployment.OwnViewChangesPass | pbft/core.go:1282-1309 | between events every view-change that a replica sent passes the tests of its receivers, unless it is catching up |
| PbftTimer.TimerImpl.constructor | pbft/tools/timer.go:43-52 | a new timer is stopped |
| PbftTimer.TimerImpl.OnStart | pbft/tools/timer.go:62-77 | a soft start while counting changes nothing; any other starts anew and clears a waiting event |
| PbftTimer.TimerImpl.OnStop | pbft/tools/timer.go:78-88 | afterwards nothing counts and nothing waits |
| PbftTimer.TimerImpl.OnFire | pbft/tools/timer.go:89-92 | the countdown turns into a waiting event |
| PbftTimer.TimerImpl.OnDeliver | pbft/tools/timer.go:93-95 | the event handed out is that of the start in charge |
| PbftTimer.TimerImpl.Loop | pbft/tools/timer.go:55-101 | takes the cases as they are offered, a start or a stop always, a firing while a countdown runs, a delivery while an event waits; and every delivery is justified: by the latest accepted start, not stopped, fired once |
| PbftTimer.StartsAndStopsAreTaken | pbft/tools/timer.go:62-88 | until the timer is halted every start and every stop is acted on, in order |
| PbftTimer.InChargeIsLatest | pbft/tools/timer.go:9-12 | the start whose event may be delivered is the latest accepted one |
| PbftTimer.OneDeliveryPerStart | pbft/tools/timer.go:9-12 | each delivery needs an accepted start of its own, after the delivery before |
| PbftTimer.StopSilences | pbft/tools/timer.go:9-12 | after a stop nothing is delivered before a start is accepted |
| PbftTimer.LatestIsDelivered | pbft/tools/timer.go:62-77 | a restart replaces an event that waits for delivery |
| PbftRestore.RestoredReplica.constructor | pbft/pbft.go:331-395 | view and last number bound every entry read back, of which the last for each key is kept; every readable batch is at hand; with readable checkpoints the watermark is the greatest multiple of K not above the last execution and every stored checkpoint, none of which is dropped, and no entry is at or below it |
| PbftRestore.RestoredReplica.UpdateSeqView | pbft/pbft.go:332-341 | the view and the number become the greatest seen |
| PbftRestore.RestoredReplica.RestoreBatches | pbft/pbft.go:353-366 | exactly the batches that can be read are at hand, under their digests |
| PbftRestore.RestoredReplica.RestoreCheckpoints | pbft/pbft.go:372-388 | every stored checkpoint is taken over, and the result is the lowest of them and the last execution |
| PbftRestart.LaterVotesOnly | pbft/pbft.go:331-341 | over any run after a restart, every prepare is in the restored view or a later one, and in the restored view above the restored watermark |
| PbftRestart.RestartContradictsIff | pbft/pbft.go:331-395 | a replica that starts again, not before the view of an old prepare, can contradict that prepare exactly if it starts in its very view and below its number; this is about all runs of that replica alone, whatever messages reach it and from however many senders |
| PbftRestart.VoteIsStored | pbft/core.go:1088-1096 | after a prepare for a batch above the watermark, the stored Q set holds an entry of at least its view, unless a batch was lost |
| PbftRestart.Restart | pbft/pbft.go:331-395 | for every store written after such a prepare, the restarted replica can contradict it exactly if no stored entry is from a later view and the restored watermark is below its number |
| PbftRestart.RestartForgetsVotes | pbft/pbft.go:331-395 | a run in which a backup prepares a batch, stores its sets, starts again, and can contradict its prepare |

## Left out

- NewViewNeverStuck: for prompt runs in which no correct replica lost a batch (`NoBatchLost`), as explained above.
- DecidedValuesSurvive: for batches, in runs in which no correct replica lost one.
- ExecutionAgreement: for numbers at which some correct replica executes a batch, in such runs, under the guard.
- PbftReplica.Replica.WeighCheckpoint: a `logger.Panic` stops the process in the original; the model sets `panicked` and goes on, so it allows more runs than the code.
- PbftReplica.Replica.TakeCheckpoint: the consumer's state id is arbitrary, and its base64 encoding is the identity; decoding failures are not part of the model.
- PbftReplica.Replica.ReachCheckpoint: completion of a state transfer is decided by no code, so nothing follows the request for one.
- PbftReplica.Replica.ProcessEvent: the returned events, the signature checks and the message kinds without a handler are left out; senders are authentic instead.
- PbftReplica.Replica.ResubmitRequestBatches: in an active view it is stated that every such batch is handed in and numbered, not in which order, and not what the commits that may follow do.
- PbftReplica.Replica.ExecDoneSync: of the execution that is tried next the first step is stated, not the whole chain behind it; `ExecuteOutstanding` states that chain in its turn.
- PbftReplica.Replica.GetCert: reads an absent certificate as an empty one instead of inserting it.
- PbftReplica.Replica.UpdateViewChangeSeqNo: an infinite number stands for the greatest 64-bit word, and sums do not wrap around.
- PbftTimer.TimerImpl.Loop: durations are left out; a countdown may fire at any time after it started.
- PbftRestore.RestoredReplica.constructor: the store's answers are parameters; that what was written earlier is what is read back is a hypothesis of `Restart`, for the Q set.
- Starting, stopping and doubling the view-change timers inside the handlers: they change no protocol state.
- Persisting batches, checkpoints and P and Q sets, and deleting them.
- A checkpoint period of zero, with which the original divides by zero.
- The list of replicas that goes with the initial checkpoint, and which id wins among checkpoints with equal numbers: both depend on the order of a map.
- The random misbehaviour switch of `innerBroadcast`: faulty replicas send anything in their own names instead.
- Network transport, protobuf encoding, configuration, logging, hashing and signing.
- RestartContradictsIff: no bound on who sends the messages that the restarted replica hears.
- Liveness: real time, timeouts and delivery.
