# Protocols and algorithms of the NemesisBot gateway, verified

This project models the coordination protocols and the small algorithms of the gateway: how a worker's
delivery gets merged, how approvals and credentials meet their askers, how the ACP server frames and orders
what it says, how a worker keeps its place in the discussion ledger, how the replanner spaces its proposals,
and how files, byte streams and requests cross the cluster bridge. Each module states what the rest of the
program relies on and proves it for every input, every run or every interleaving.

Two forms are used throughout.

* An algorithm with a loop is a method with that loop, proved against a specification function or a
  declarative postcondition; objects that change in place are classes whose methods state the new state.
* A concurrent protocol is a transition system: a state, an event for every lock section or store call of
  every thread, `Apply` for what the event does, and `Run` for a whole run. An event that is not enabled
  changes nothing, so a run is any list of events. An invariant is kept by every step; the theorems speak of
  every run. Timeouts and grace periods expire at any moment. The lock sections are also methods of a class,
  and those methods are proved to compute the table functions that `Apply` is made of.

| file | what it models |
|---|---|
| `MergeTrigger.dfy` | attempts, registry, freeze queue, replay, automatic resolver: states, steps and the invariant |
| `MergeTriggerEffects.dfy`, `MergeTriggerPlaces.dfy`, `MergeTriggerSerial.dfy` | every step keeps each part of the invariant |
| `MergeTriggerSafety.dfy`, `MergeTriggerDone.dfy` | where each landed delivery is, what is committed, over every run |
| `MergeTriggerGates.dfy`, `MergeTriggerAnswers.dfy` | the checks of an attempt: nobody gets past one that stands; every answer has its reason; what cannot go on is parked |
| `MergeTriggerListed.dfy` | the merged list holds what was merged in |
| `MergeTriggerLegs.dfy` | no lost trigger and no double take, for the two legs, the emergency stop and the re-run |
| `MergeTriggerStop.dfy` | for which orders of stop calls and announcements nothing is lost |
| `MergeTriggerQueue.dfy` | when a deferred delivery is seen to after the thaw; one delivery per task in a queue |
| `MergeTriggerRuns.dfy`, `MergeTriggerLimits.dfy` | runs that show what the merge trigger does not guarantee |
| `MergeReplay.dfy` | the registry and the store changed in place, the replay loop, and that it does what the replay's steps do |
| `ChannelApproval.dfy`, `ChannelApprovalJournal.dfy` | approval by chat reply: waiter, watcher, stale replies, cleaner; what it owes to the journal |
| `CredentialBroker.dfy`, `CredentialOutcome.dfy` | credential cards: waiter, responder, closing; what a waiter returns, and when a denied one is stored |
| `AcpPermissions.dfy` | the permission requests of the ACP server |
| `AcpFraming.dfy` | the capped line reader |
| `AcpTurns.dfy` | prompts, turns and cancels of ACP sessions |
| `BoardBus.dfy`, `BoardBusCoverage.dfy`, `BoardBusDelivery.dfy`, `BoardBusTakingPart.dfy` | wake posts, the periodic pull, cursors, watermark, snapshots; when an entry is covered and when delivered, because it names the node or because the node takes part in its thread |
| `Replan.dfy`, `ReplanExecution.dfy` | the replanner's proposals; its policy gates and execution |
| `BridgeRpc.dfy`, `BridgeRpcOutcome.dfy`, `ConnPump.dfy` | requests over the bridge and what they return; byte pumps of tunnelled connections |
| `AssetTransfer.dfy` | chunked fetching of an asset |
| `ConflictResolver.dfy` | validation of automatic conflict resolutions |
| `ReviewAssets.dfy` | finding JSON objects in comments |
| `ApprovalDiff.dfy` | the diff shown with an approval |
| `CivilDate.dfy` | days since 1970 to a calendar date |
| `Common.dfy` | optional values and trimming |

## Where the code and its comments part

* The merge trigger's comments promise a single merge per task. The registry guarantees one merge per
  registration (`MergeTriggerSafety.CommitsAreBounded`), and one per task for one registration and no more
  (`MergeTriggerLimits.OneCommitIff`). The merged list holds back every attempt that looks at it once the task is
  on it (`MergeTriggerGates.NothingMoreIsTaken`), but it does not close the gap: an attempt reads it long before it
  merges (`MergeTriggerLimits.CommittedTwice`), the replay does not read it, and the automatic resolver does not
  enter it (`MergeTriggerLimits.CommittedAgainAfterResolver`, a run without any overlap).
* Setting and lifting the emergency stop store the flag first and announce second, so overlapping calls can be
  announced crosswise, and the watcher then skips the re-run. For an order of calls and announcements that ends
  with the flag off, nothing is ever lost if and only if the value announced last is the flag's
  (`MergeTriggerStop.NeverLosesIff`). Calls that do not overlap meet that condition
  (`MergeTriggerStop.UncrossedAgrees`); calls that overlap and are announced in order meet it, too
  (`MergeTriggerStop.CrossedAnnouncementsStrand`).
* A deferred delivery is replayed after the thaw only as long as somebody sees to its queue: the project is
  frozen, or a replay is at work. That holds throughout a run if and only if no event strands the queue
  (`MergeTriggerQueue.AlwaysAttendedIff`), and which events do is named in `MergeTriggerQueue.Strands`. It is
  enough that the commit behind the thaw, each pop and each freeze mark succeed, that no attempt is between its
  freeze check and its deferral when the project is thawed, and that the process does not end in the middle of a
  replay (`MergeTriggerQueue.CarefulIsAttended`); for each of these conditions there is a run that breaks it alone.
* In the channel approvals, Approved on record does not mean that the waiter returned approved
  (`ChannelApproval.ApprovedYetDenied`): that is so exactly when a stale reply made the decision
  (`ChannelApprovalJournal.RecordedIsReturnedIff`).
* A journal that is missing or fails counts as a win for the reply, the expiry or the cleaner that asked it. With
  only certain callers unanswered: approved returned means Approved on record if and only if the replies are
  answered (`ChannelApprovalJournal.RecordedIff`); what wins the journal is what is returned if and only if the
  expiry is answered (`ChannelApprovalJournal.WinnersIff`); and there is at most one outcome notice if and only if
  all but the stale replies are answered (`ChannelApprovalJournal.OneNoticeIff`).
* A credential may be stored although its waiter returned denied (`CredentialBroker.DeniedYetStored`). With
  distinct request ids that is so exactly when the waiter gave up its grace wait and the responder that had its
  card wrote the credential (`CredentialOutcome.DeniedIsStoredIff`); one denied by closing, or by taking its own
  card out, is never stored (`CredentialOutcome.DeniedForGood`). With a repeated id it can be
  (`CredentialOutcome.SameIdDeniedYetStored`). Whatever the ids and the result, a waiter that has left is never
  stored if and only if it is not stored yet and nobody is still to write (`CredentialOutcome.NeverStoredIff`).
* The watermark can go past an entry that names the node without its cursor having reached it: when the new
  entries do not fit on one page (`BoardBus.TruncatedPagePassesOver`), or when it is appended between the reading
  of the page and that of the latest number (`BoardBusCoverage.AppendedBetweenPassesOver`). Every run whose pulls
  find at most a given number of new entries covers all that names the node if and only if nothing is appended
  between the two reads and that number is within a page (`BoardBusCoverage.CoverageIff`).
* A cursor that has passed an entry does not mean that it was delivered. An entry that names the node and is not
  above the watermark was delivered exactly when no push and no pull went past it: no higher number of its thread
  was pushed and accepted, or went through on a page on which the entry itself did not
  (`BoardBusDelivery.DeliveredIff`; runs of both kinds are `BoardBusDelivery.MissedPushIsNotPulled` and
  `BoardBus.FailedEntryIsDropped`).
* The replanner recognises its own proposals exactly when the mention can be stripped: when the creator's id
  has no space, or goes on with the proposal prefix behind its first one (`Replan.HistoryIsOrderlyIff`).
* A request that the hub routes by an outdated mapping is answered by an error that goes to the wrong device
  (`BridgeRpc.AnswerComesBackIff`).

## Model

| member | source | states |
|---|---|---|
| MergeTriggerSafety.RunKeepsInv | nemesisbot/src/board_archive_ingest.rs:530-784 | every interleaving of attempts, legs, stop, replay and resolver keeps the invariant: the containers hold exactly what is recorded, commits declare the recorded base, queues repeat nothing, the serial section has one owner |
| MergeTriggerSafety.InOnePlace | nemesisbot/src/board_archive_ingest.rs:556-784 | each registration is in exactly one place: registry, one attempt's hands, queue, one replay's hands, or at rest; registry, attempts, queues and replays hold precisely that |
| MergeTriggerSafety.CommitsAreBounded | nemesisbot/src/board_archive_ingest.rs:679-783 | a task's commits never outnumber its registrations, no registration is committed twice, and every commit's declared base is the base its dispatch recorded |
| MergeTriggerSafety.QueueIsFifo | crates/nemesis-board/src/store.rs:1935-2004 | what a project's queue has given out, followed by what it still holds, is what it took in, in order, over every run |
| MergeTriggerSafety.OneMergeAtATime | nemesisbot/src/board_archive_ingest.rs:472-476 | at most one attempt or replay is inside the serial section, and it is its recorded owner |
| MergeTriggerSafety.NewCommit | nemesisbot/src/board_archive_ingest.rs:694-736 | a step that commits does so for a placement in hand whose changeset declares the recorded base, and which was not committed before |
| MergeTriggerSafety.MergedStays | nemesisbot/src/board_archive_ingest.rs:164-179 | a merged placement is never taken, overwritten or moved again |
| MergeTriggerGates.ShutGateHolds | nemesisbot/src/board_archive_ingest.rs:530-641 | for each check: while what it asks about stays as it is, an attempt in front of it stays in front of it or ends with an answer given there or before, with nothing in its hands (or, at the freeze, nothing it could merge) |
| MergeTriggerGates.MergedIsLeftAlone | nemesisbot/src/board_archive_ingest.rs:542-549 | once a task is on the merged list, an attempt that has not looked at it yet never has a placement in its hands and ends as merged, or as no archive delivery |
| MergeTriggerGates.NothingMoreIsTaken | nemesisbot/src/board_archive_ingest.rs:542-549 | with nobody past the list by then, whatever is registered for the task, before or later, is never taken, and nobody commits it |
| MergeTriggerGates.FailedIsNotMerged | nemesisbot/src/board_archive_ingest.rs:550-566 | no attempt gets past a dispatch that has failed; it ends as superseded |
| MergeTriggerAnswers.AnswersHaveReasons | nemesisbot/src/board_archive_ingest.rs:489-519 | every answer was given at one event of the run for what it stands for: the base or its reading missing, the dispatch under way or failed, the stop on, nothing registered, the changeset out of date; and merged, parked, deferred or handed over is what was in hand |
| MergeTriggerAnswers.ParkedForGood | nemesisbot/src/board_archive_ingest.rs:585-677 | what cannot be read, queued or decoded is parked for good, and so the attempt answers |
| MergeTriggerAnswers.ReplayParksForGood | nemesisbot/src/board_archive_ingest.rs:1138-1148 | a queued delivery whose issue cannot be read is parked for good, and the replay goes on |
| MergeTriggerAnswers.MergeDecides | nemesisbot/src/board_archive_ingest.rs:679-784 | merged in, superseded, handed over, parked, committed and frozen, each exactly when changeset, recorded base and git say so |
| MergeTriggerAnswers.ReplayDecides | nemesisbot/src/board_archive_ingest.rs:1149-1272 | the same for a replay: a missing base parks, no conflict is handed over, and a conflict ends the replay |
| MergeTriggerAnswers.ResolverDecides | nemesisbot/src/conflict_resolver.rs:183-240 | a resolver that commits leaves the placement merged in for good, one that gives up leaves it parked for good and its project frozen if the mark can be set |
| MergeTriggerListed.MergedIsListed | nemesisbot/src/board_archive_ingest.rs:743-749 | while the process lives, a placement that an attempt or a replay merged in has its task on the merged list, or about to be entered |
| MergeTriggerListed.ListedIff | nemesisbot/src/board_archive_ingest.rs:465-471 | with nobody in between and no automatic resolution, a task is on the list exactly when a placement of it is merged in |
| MergeTriggerPlaces.StepQueue | nemesisbot/src/board_archive_ingest.rs:617-669 | deferring and popping keep a queue free of repetitions and its history in order |
| MergeTriggerLegs.RunResponsible | nemesisbot/src/board_archive_ingest.rs:530-583 | as long as a placement sits in the registry unmerged, somebody is still responsible: the dispatch is open, an attempt is owed or under way, or the stop is on or its end still on the way to the re-run |
| MergeTriggerLegs.NothingIsForgotten | nemesisbot/src/board_archive_ingest.rs:917-935 | when both legs and the stop have come to rest, a placement is left in the registry only if its task was merged already |
| MergeTriggerLegs.TakenExactlyOnce | nemesisbot/src/board_archive_ingest.rs:446-459 | the placement of a task placed once, with its base recorded before, has by then been taken by exactly one attempt: no lost trigger, no double take |
| MergeTriggerStop.NeverLosesIff | nemesisbot/src/board_review/parent_project.rs:1519-1557 | for every order of stop calls and announcements that ends with the flag off and nothing to announce: no run with that order loses a task placed once, if and only if the value announced last is the flag's |
| MergeTriggerStop.CallsDecide | crates/nemesis-agent/src/estop.rs:36-46 | flag, value announced last and announcements to come depend on the order of the calls alone, whatever else happens |
| MergeTriggerStop.TakenOnceTheStopIsOff | nemesisbot/src/board_review/parent_project.rs:1519-1557 | the same conclusion from what a caller sees, when the calls that set and lift the stop do not overlap |
| MergeTriggerStop.UncrossedAgrees | crates/nemesis-agent/src/estop.rs:36-46 | when the calls do not overlap, flag and announced value agree once nothing is left to announce |
| MergeTriggerLegs.RunMergedOk | nemesisbot/src/board_archive_ingest.rs:465-471 | every task on the merged list has a merged placement |
| MergeTriggerLegs.TakeNeedsPlaced | nemesisbot/src/board_archive_ingest.rs:577-583 | only a registered placement is taken, and taking it removes it |
| MergeTriggerLegs.NotTakenAgain | nemesisbot/src/board_archive_ingest.rs:577-583 | a placement that has left the registry never comes back to it |
| MergeTriggerLegs.TakenAt | nemesisbot/src/board_archive_ingest.rs:577-583 | a placement registered alone that has left the registry was taken at one point of the run |
| MergeTriggerDone.OnlyDoneIsMerged | nemesisbot/src/board_archive_ingest.rs:554-566 | whatever is in hand, queued, replayed, with the resolver, parked, merged or committed is the delivery of a dispatch that is done: a failed or cancelled one is never merged |
| MergeTriggerLimits.OneCommitIff | nemesisbot/src/board_archive_ingest.rs:446-459 | every run with at most n registrations of a task commits it at most once, if and only if n is at most 1 |
| MergeTriggerLimits.CommittedTwice | nemesisbot/src/board_archive_ingest.rs:543-549 | a run in which one task is committed twice, once for each of two registrations |
| MergeTriggerLimits.CommittedAgainAfterResolver | nemesisbot/src/conflict_resolver.rs:183-240 | a run with no overlap at all in which the resolver commits a task and a later landing commits it again |
| MergeTriggerQueue.AlwaysAttendedIff | nemesisbot/src/board_archive_ingest.rs:1056-1125 | at every point of every run a queue that is not empty belongs to a frozen project or a live replay, if and only if no event of the run strands it |
| MergeTriggerQueue.StepAttended | nemesisbot/src/board_archive_ingest.rs:1056-1125 | from an attended queue, exactly the named events leave it to nobody |
| MergeTriggerQueue.OnePerTask | crates/nemesis-board/src/store.rs:1935-1967 | in every run, a project's queue holds at most one placement of each task |
| MergeTriggerQueue.CarefulIsAttended | nemesisbot/src/board_archive_ingest.rs:1056-1125 | with commit, pops and freeze marks succeeding, no attempt about to defer at the thaw, and no restart in mid-replay, every queue is attended at the end of every run |
| MergeTriggerLimits.QueuedInThawedProject | nemesisbot/src/board_archive_ingest.rs:617-641 | a run in which a placement deferred too late stays behind in a project that is thawed, with no thread at work and no replay able to start |
| MergeTriggerLimits.FailedCommitStrands | nemesisbot/src/board_archive_ingest.rs:1077-1088 | the same behind a careful run when the commit behind the thaw fails |
| MergeTriggerLimits.FailedPopStrands | nemesisbot/src/board_archive_ingest.rs:1107 | the same when a pop fails |
| MergeTriggerLimits.RestartStrands | nemesisbot/src/board_archive_ingest.rs:1077-1118 | the same when the process ends between thaw and the end of the replay |
| MergeTriggerLimits.UnmarkedConflictStrands | nemesisbot/src/board_archive_ingest.rs:1244-1250 | the same when a conflict ends the replay and the freeze mark cannot be set |
| MergeTriggerStop.CrossedAnnouncementsStrand | nemesisbot/src/board_review/parent_project.rs:1519-1524 | of two overlapping calls, announced crosswise there is a run that loses the delivery, announced in order there is none |
| MergeReplay.MergeStore.ReplayPendingMerges | nemesisbot/src/board_archive_ingest.rs:1056-1125 | the loop handles a prefix of the queue in order and leaves the rest as it was; it stops behind the first conflict, with an empty queue, when a pop fails, or at once when the commit behind the thaw fails; the project is frozen again exactly after a conflict whose mark was set |
| MergeReplay.MergeStore.ReplayOnePending | nemesisbot/src/board_archive_ingest.rs:1138-1272 | one entry: merged, superseded, parked or frozen again, from changeset, what can be read of issue and base, and git's answer; never handed to the automatic resolver |
| MergeReplay.MergeIsTheSteps | nemesisbot/src/board_archive_ingest.rs:1149-1272 | one entry in the loop does to ledger, board and projects what the replay's merge and the entering of the task do in the transition system |
| MergeReplay.PopIsAStep | crates/nemesis-board/src/store.rs:1972-2004 | the pop of the loop is the replay's pop |
| MergeReplay.MergeStore.TakePlaced | nemesisbot/src/board_archive_ingest.rs:577-583 | the registry step of `Apply`: the first caller gets the placement, whoever comes after finds nothing, other tasks keep theirs |
| MergeReplay.MergeStore.RegisterPlaced | nemesisbot/src/board_archive_ingest.rs:174-179 | the registry step of `Apply`: the next take of the task finds this registration and no earlier one, other tasks keep theirs |
| MergeReplay.MergeStore.AppendPendingMerge | crates/nemesis-board/src/store.rs:1935-1967 | a placement is queued at the end unless its task is queued already |
| MergeReplay.MergeStore.PopPendingMerge | crates/nemesis-board/src/store.rs:1972-2004 | the head leaves the queue; an empty queue gives nothing |
| ChannelApprovalJournal.ApprovedIffReplyWon | nemesisbot/src/channel_approval.rs:442-597 | a waiter returns approved only because of an approving reply that came while its card was in the table; Approved is then on record where the journal answered the replies to that request; and exactly such a reply leads to approved where it answered replies and expiry |
| ChannelApprovalJournal.RecordedIff | nemesisbot/src/channel_approval.rs:131-149 | for every set of callers that may go unanswered: approved returned means Approved on record, in all runs, if and only if the replies are not in it |
| ChannelApprovalJournal.HeardIff | nemesisbot/src/channel_approval.rs:131-149 | a waiter returns approved exactly when an approving reply was heard, in all runs, if and only if neither replies nor expiry are in it |
| ChannelApprovalJournal.WinningReplyIsReturned | nemesisbot/src/channel_approval.rs:199-247 | a reply that wins while the card is in the table is what the waiter returns, even if its timeout had fired, where the journal answered the expiry of that request |
| ChannelApprovalJournal.WinnersIff | nemesisbot/src/channel_approval.rs:540-580 | that holds in all runs if and only if the expiry is answered |
| ChannelApprovalJournal.AtMostOneNotice | nemesisbot/src/channel_approval.rs:360-415 | where the journal answered replies, expiry and cleaner of a request, at most one outcome notice is published for it, and none before the journal has a decision |
| ChannelApprovalJournal.OneNoticeIff | nemesisbot/src/channel_approval.rs:360-415 | at most one outcome notice per request, in all runs, if and only if replies, expiry and cleaner are answered; unanswered stale replies do no harm |
| ChannelApprovalJournal.ReturnsWhatItWasTold | nemesisbot/src/channel_approval.rs:540-597 | where the journal answers replies and expiry of a request, its waiter returns approved exactly when it was told so while it listened |
| ChannelApprovalJournal.FirstAnswerDecides | crates/nemesis-taskstore/src/approvals.rs:90-113 | the first caller that is answered on a pending request decides it for good: reply, stale reply, expiry or closing |
| ChannelApprovalJournal.OrphanIsTold | nemesisbot/src/channel_approval.rs:360-415 | when the cleaner is through with a request it decided, a waiter that still listens has been told no |
| ChannelApproval.FactsStay | crates/nemesis-taskstore/src/approvals.rs:90-113 | the first decision, the reply that was heard and a return are final, whatever the journal does |
| ChannelApproval.RunKeepsInv | nemesisbot/src/channel_approval.rs:168-322 | every interleaving of waiters, watcher, stale replies, cleaners and restarts keeps the invariant |
| ChannelApproval.ApprovedYetDenied | nemesisbot/src/channel_approval.rs:274-322 | a run in which a stale reply records Approved and the waiter returns denied |
| ChannelApprovalJournal.RecordedIsReturnedIff | nemesisbot/src/channel_approval.rs:274-322 | with Approved on record and the journal answering replies and expiry, a waiter that has returned has returned approved if and only if no stale reply made the decision |
| ChannelApprovalJournal.ApprovedUnrecorded | nemesisbot/src/channel_approval.rs:131-149 | a run in which a reply is not answered, approved is returned and only Pending is on record |
| ChannelApprovalJournal.LateEnds | nemesisbot/src/channel_approval.rs:540-580 | runs in which the reply or the expiry is not answered: two notices, and denied is returned although an approving reply was heard |
| ChannelApprovalJournal.ClosedTwice | nemesisbot/src/channel_approval.rs:360-415 | a run in which the cleaner is not answered: two notices |
| ChannelApproval.FirstFreeIsGood | nemesisbot/src/channel_approval.rs:463-475 | the short id is a prefix at least as long as the first length tried, free unless the whole request id is taken, and longer than that length only if that prefix is taken |
| ChannelApproval.CardTable.Register | nemesisbot/src/channel_approval.rs:463-489 | the lengthening loop picks that short id and enters the card in the same section |
| ChannelApproval.CardTable.Drain | nemesisbot/src/channel_approval.rs:360-372 | the drain step of `Apply`: exactly the cards that were in the table go to the cleaner, and no reply finds any of them after that |
| ChannelApproval.CardTable.Remove | nemesisbot/src/channel_approval.rs:250-256 | the removal step of `Apply`: a reply to this card finds nothing, the others stay |
| ChannelApproval.Journal.RecordPending | crates/nemesis-taskstore/src/approvals.rs:61-88 | a row that exists is left as it is |
| ChannelApproval.Journal.RecordDecision | crates/nemesis-taskstore/src/approvals.rs:90-113 | a decision lands on a pending row only, and says whether it did |
| CredentialBroker.PendingCardsAreLive | nemesisbot/src/credential_broker.rs:71-87 | a card in the table always has a live waiter, the one it was made for |
| CredentialBroker.GoneForGood | nemesisbot/src/credential_broker.rs:169-185 | a waiter that has left stays as it is and its card never appears again |
| CredentialBroker.StoredMeansWritten | nemesisbot/src/credential_broker.rs:266-282 | Stored is returned only after a successful vault write by a responder holding that very card |
| CredentialBroker.AtMostOneDecision | nemesisbot/src/credential_broker.rs:227-247 | a waiter is sent at most one decision, whoever races |
| CredentialBroker.RunKeepsInv | nemesisbot/src/credential_broker.rs:117-185 | every interleaving keeps each card in at most one hand |
| CredentialBroker.DeniedYetStored | nemesisbot/src/credential_broker.rs:157-172 | a run in which the write outlasts the grace wait: denied is returned, the credential is stored |
| CredentialOutcome.DeniedIsStoredIff | nemesisbot/src/credential_broker.rs:155-185 | with distinct ids, the credential of a denied waiter is in the vault exactly when it gave up its grace wait and the responder that had its card wrote it |
| CredentialOutcome.DeniedForGood | nemesisbot/src/credential_broker.rs:218-247 | a waiter denied by closing, or by taking its own card out, is never stored, whatever comes later |
| CredentialOutcome.DeniedIsOut | nemesisbot/src/credential_broker.rs:155-185 | a waiter denied without giving up a grace wait has a card that is in no table and no hand |
| CredentialOutcome.NeverStoredIff | nemesisbot/src/credential_broker.rs:255-306 | a waiter that has left, whatever its result and the ids, is stored by no continuation of the run if and only if it is not stored yet and no responder still has to write its credential |
| CredentialOutcome.GotIsTold | nemesisbot/src/credential_broker.rs:227-282 | a waiter is sent a decision exactly when a responder reports its write, or the closing its denial, while the waiter is there |
| CredentialOutcome.ReturnsStoredIff | nemesisbot/src/credential_broker.rs:146-185 | with distinct ids, a waiter that has left returned stored exactly when it was told so, did not give up its grace wait and was not dropped; told denied it returns denied; it leaves without a result exactly when it is dropped |
| CredentialOutcome.NobodyWaitsInVain | nemesisbot/src/credential_broker.rs:218-306 | with distinct ids, the card of a waiter that is still in its wait or its grace wait is in the table, with a responder or with the closing, or the waiter has been told |
| CredentialOutcome.SameIdDeniedYetStored | nemesisbot/src/credential_broker.rs:125-145 | a run with a repeated id in which a waiter is denied and stored without any grace wait |
| CredentialBroker.PendingMap.PutBack | nemesisbot/src/credential_broker.rs:283-300 | a card goes back only for a waiter whose guard is still there, decided in the same section |
| CredentialBroker.PendingMap.DropGuard | nemesisbot/src/credential_broker.rs:77-87 | card and live mark go in one section |
| CredentialBroker.PendingMap.Remove | nemesisbot/src/credential_broker.rs:259-265 | whoever removes the card has it, the others find nothing |
| CredentialBroker.PendingMap.Enter | nemesisbot/src/credential_broker.rs:125-145 | guard first, then the card |
| CredentialBroker.PendingMap.Drain | nemesisbot/src/credential_broker.rs:227-231 | closing takes all cards at once |
| AcpPermissions.MintedIdsNeverRepeat | nemesisbot/src/acp.rs:262-266 | over every run of all sessions, two minted ids differ |
| AcpPermissions.AllowedHasItsFrame | nemesisbot/src/acp.rs:322-366 | a request returns allowed only because a frame with its own id and an allow option arrived while it was pending |
| AcpPermissions.AllowedIff | nemesisbot/src/acp.rs:322-366 | a request that has returned returned allowed exactly when a frame with its id and an allow option came while it was in the table, its send did not fail and its wait did not run out |
| AcpPermissions.FinishedLeavesNoEntry | nemesisbot/src/acp.rs:322-366 | a finished request leaves no entry in the table |
| AcpPermissions.ReturnsOnce | nemesisbot/src/acp.rs:322-366 | a request's result never changes |
| AcpPermissions.AllowedOnlyByOption | nemesisbot/src/acp.rs:182-193 | the verdict is allowed exactly for a selected allow option |
| AcpPermissions.RpcIdInjective | nemesisbot/src/acp.rs:262-266 | different numbers give different ids |
| AcpPermissions.PendingPermissions.Resolve | nemesisbot/src/acp.rs:279-293 | takes the entry out and wakes its waiter with the verdict; an unknown id changes nothing |
| AcpPermissions.PendingPermissions.MintId | nemesisbot/src/acp.rs:262-266 | the next number, and the counter moves on |
| AcpPermissions.PendingPermissions.Register | nemesisbot/src/acp.rs:268-275 | the waiter is entered under its id |
| AcpFraming.LineReader.NextLine | nemesisbot/src/acp.rs:806-858 | whatever the chunks, a call settles the first line of the stream, capped, and leaves the rest; the buffer stays within the cap and one chunk; a failed read loses nothing |
| AcpFraming.ByteSource.Read | nemesisbot/src/acp.rs:806-858 | any nonempty amount up to a chunk, nothing only at the end, or a failure |
| AcpFraming.PiecesJoin | nemesisbot/src/acp.rs:778-794 | splitting at newlines loses nothing |
| AcpFraming.PiecesUnique | nemesisbot/src/acp.rs:778-794 | newline-free pieces that join to the stream are the split: there is no other |
| AcpFraming.CutInFront | nemesisbot/src/acp.rs:806-858 | a newline in the buffer decides the first line, whatever is still to be read |
| AcpFraming.CutBehind | nemesisbot/src/acp.rs:806-858 | an over-long buffer decides the line's bytes, and dropping it changes nothing behind the newline |
| AcpFraming.ReadDispatchLoop | nemesisbot/src/acp.rs:748-777 | the loop handles the split of the whole stream, truncated, in order; on a failed read a prefix of it |
| AcpTurns.SessionStreamIsTurns | nemesisbot/src/acp.rs:595-673 | a session's frames are whole turns one after the other, updates, closing text if any, answer, and at the end the beginning of one more |
| AcpTurns.OneTurnAtATime | nemesisbot/src/acp.rs:595-673 | at most one turn of a session is in flight |
| AcpTurns.CancelHitsTurnInFlight | nemesisbot/src/acp.rs:675-689 | a cancelled turn was in flight when its cancel came |
| AcpTurns.CancelledIff | nemesisbot/src/acp.rs:675-689 | a turn's token is triggered exactly when a cancel of its session comes while the driver is at work on it or its updates are being forwarded |
| AcpTurns.TurnSaysItsOutcome | nemesisbot/src/acp.rs:595-673 | an answered turn has sent its updates as produced, then the closing text and the stop reason that its driver's outcome calls for |
| AcpTurns.QueuedTurnsAreNotCancelled | nemesisbot/src/acp.rs:675-689 | a turn that waits for the session lock has not been cancelled |
| AcpTurns.RunKeepsInv | nemesisbot/src/acp.rs:595-689 | every interleaving of prompts and cancels keeps the invariant |
| BoardBus.NothingIsPassedOver | nemesisbot/src/board_bus.rs:1925-2058 | with complete replies, every entry that names the node, and every entry a pull judged to be for it, has a cursor at least its number once the watermark has passed it; on disk too |
| BoardBus.NeverBackwards | nemesisbot/src/board_bus.rs:1635-1670 | while the process lives, cursors, participation and watermark never go back |
| BoardBus.RestoredIsBehind | nemesisbot/src/board_bus.rs:1606-1626 | a restored state is nowhere ahead of the one it replaces |
| BoardBus.SentAscends | nemesisbot/src/board_bus.rs:1773-1799 | between restarts, the numbers handed over for a thread ascend strictly, pushed and pulled together |
| BoardBus.CompleteIff | nemesisbot/src/board_bus.rs:1052-1079 | a reply is complete exactly when the new entries fit on one page and nothing was appended between the two reads |
| BoardBus.JudgedIsCovered | nemesisbot/src/board_bus.rs:1990-2051 | after the loop, a judged entry is passed by its cursor or not above the first failed delivery |
| BoardBus.PullCovers | nemesisbot/src/board_bus.rs:2064-2069 | the watermark stops short of whatever was not delivered |
| BoardBus.TruncatedPagePassesOver | nemesisbot/src/board_bus.rs:1557-1559 | a run in which one entry more than a page is passed over |
| BoardBusCoverage.CoverageIff | nemesisbot/src/board_bus.rs:1052-1079 | for every bound, with or without appends between the two reads of a reply: every run whose pulls find at most that many new entries covers all that names the node, live and on disk, if and only if there are no such appends and the bound is within a page |
| BoardBusCoverage.AppendedBetweenPassesOver | nemesisbot/src/board_bus.rs:1052-1079 | a run of one pull in which an entry appended between the two reads is passed over |
| BoardBus.FailedEntryIsDropped | nemesisbot/src/board_bus.rs:1990-2058 | a run in which a failed entry is taken for a duplicate because a later one of its thread went through on its page |
| BoardBusDelivery.DeliveredIff | nemesisbot/src/board_bus.rs:1773-2058 | over every run without a restart and with complete replies: an entry that names the node and is not above the watermark was handed to the inbox exactly when no push and no pull of the run went past it |
| BoardBusDelivery.DeliveredUnlessOvertaken | nemesisbot/src/board_bus.rs:1773-2058 | the same read off the inbox: exactly when no higher number of its thread was handed over before it |
| BoardBusDelivery.PassedOrSent | nemesisbot/src/board_bus.rs:1635-1656 | over every run without a restart: an entry the cursor has reached was handed over exactly when nothing went past it; one it has not reached, neither |
| BoardBusDelivery.PagePasses | nemesisbot/src/board_bus.rs:1990-2051 | one pull: an entry is handed over exactly when it goes through itself, and passed exactly when it or a higher one of its thread goes through |
| BoardBusDelivery.FailedIsPassedIff | nemesisbot/src/board_bus.rs:1990-2051 | an undelivered target of a page is passed by its cursor exactly when a later target of its thread on that page is delivered |
| BoardBusDelivery.MissedPushIsNotPulled | nemesisbot/src/board_bus.rs:1773-1799 | a run in which no delivery fails: the first push is missed, the second accepted, and the pull never brings the first entry |
| BoardBusTakingPart.PartDeliveredIff | nemesisbot/src/board_bus.rs:1990-2092 | over every run without a restart and with complete replies: once something of a thread was handed over, a later entry of it that is not the node's own is covered when the watermark has passed it, and was handed over exactly when nothing went past it, that is, when no higher number of the thread was handed over before it |
| BoardBusTakingPart.PartIsCovered | nemesisbot/src/board_bus.rs:1990-2058 | from the moment the node takes part in a thread, whatever it starts from: nothing of the thread that the watermark has not passed by then is passed over later; on disk too |
| BoardBusTakingPart.TakesPartIff | nemesisbot/src/board_bus.rs:1606-1650 | a node takes part in the threads of its snapshot and in those of which something was handed over, and in no others |
| BoardBusTakingPart.NothingElseIsPulled | nemesisbot/src/board_bus.rs:2075-2092 | what a pull hands over is new and not the node's own, and names it, or belongs to a thread of the snapshot or to one of which something was handed over before |
| BoardBusDelivery.WatermarkReachesIff | nemesisbot/src/board_bus.rs:2052-2069 | the watermark gets to a number exactly when that is not above the latest and no delivery up to it failed |
| BoardBusDelivery.SavedPullSurvives | nemesisbot/src/board_bus.rs:1606-1700 | after a pull whose last snapshot reached the disk and a restart that can read it, the process goes on where it stopped |
| BoardBus.WorkerWakeState.WorkerSyncOnce | nemesisbot/src/board_bus.rs:1990-2058 | the loop leaves the state and hands over the entries that the specification gives |
| BoardBus.WorkerWakeState.HandleWakePost | nemesisbot/src/board_bus.rs:1773-1799 | a duplicate changes nothing; a failed delivery is not accounted |
| BoardBus.WorkerWakeState.Commit | nemesisbot/src/board_bus.rs:1635-1650 | the cursor moves to the number if that is higher, and the thread is one the node takes part in |
| BoardBus.WorkerWakeState.AdvanceWatermark | nemesisbot/src/board_bus.rs:1657-1670 | the watermark moves up or stays |
| BoardBus.WorkerWakeState.LoadOrCreate | nemesisbot/src/board_bus.rs:1606-1626 | the saved cursors and watermark, participation rebuilt from the threads; empty when there is no readable snapshot |
| BoardBus.NewerAscends | crates/nemesis-board/src/store.rs:3560-3604 | what is newer is in ledger order |
| Replan.HistoryIsOrderlyIff | nemesisbot/src/board_replan.rs:407-472 | over every interleaving of drafts and comments, the proposals of a root are numbered 1, 2, 3, ... with an admin comment between any two in a row, if and only if the mention of its creator can be undone |
| Replan.OneDraftPerRoot | nemesisbot/src/board_replan.rs:114-141 | at most one live draft works on a root |
| Replan.ClaimIffLive | nemesisbot/src/board_replan.rs:116-141 | over every run, a root is claimed exactly as long as a live draft works on it: no claim is left behind |
| Replan.PostedIsFollowedUp | nemesisbot/src/board_replan.rs:497-513 | a proposal posted on its own authority keeps its draft executing, and its root claimed, until it is carried out, refused, failed or lost with the process |
| Replan.ProposalRecognised | nemesisbot/src/board_replan.rs:66-75 | a posted proposal is recognised exactly when it carries no mention or the mention can be undone |
| Replan.BlockedRecognised | nemesisbot/src/board_replan.rs:543-558 | a refusal is a marker but not a proposal |
| Replan.ProposalState | nemesisbot/src/board_replan.rs:81-112 | the scan says whether a replanner comment is newer than every admin comment, and gives the number of proposals plus one |
| Replan.NumberedTwice | nemesisbot/src/board_replan.rs:66-75 | otherwise there is a run with two proposals numbered 1 |
| Replan.RunKeepsInv | nemesisbot/src/board_replan.rs:407-472 | every run keeps claims exclusive, counts faithful and unposted drafts current |
| ReplanExecution.EvaluatePolicyGates | nemesisbot/src/board_replan.rs:766-821 | no violation is reported exactly when the plan is admitted, and the reported ones are exactly the real ones |
| ReplanExecution.AutonomousExecute | nemesisbot/src/board_replan.rs:517-755 | nothing runs under a stop or when a gate objects; otherwise exactly the effective cancels and modifies are reported done, and exactly the others skipped, with their reason |
| ReplanExecution.RunCancels | nemesisbot/src/board_replan.rs:583-651 | the cancel loop accounts for each cancel action |
| ReplanExecution.RunModifies | nemesisbot/src/board_replan.rs:652-683 | the modify loop accounts for each modify action |
| ReplanExecution.AdmittedIsTame | nemesisbot/src/board_replan.rs:766-821 | an admitted plan cancels active work only with permission, and misses no target |
| ReplanExecution.OneFate | nemesisbot/src/board_replan.rs:583-683 | every cancel or modify action of an admitted plan has exactly one fate |
| ReplanExecution.CancelTakesEffectIff | nemesisbot/src/board_replan.rs:583-651 | with children numbered apart, a cancel takes effect exactly when its number, trimmed, is that of a child that has not ended and the board accepts |
| ReplanExecution.ModifyTakesEffectIff | nemesisbot/src/board_replan.rs:652-683 | a modification takes effect exactly when its number, trimmed, is a child's, the board accepts, and title, description or acceptance criteria say something |
| ReplanExecution.OnlyAddsAdmittedIff | nemesisbot/src/board_replan.rs:766-821 | a plan of additions alone is admitted exactly up to the number allowed |
| BridgeRpc.ReturnedIsClean | nemesisbot/src/bridge_rpc.rs:64-117 | a returned request has no entry left, whichever way it ended, and a frame it returned is a response with its own id |
| BridgeRpc.ReturnsOnce | nemesisbot/src/bridge_rpc.rs:64-101 | a request's result never changes |
| BridgeRpc.ReturnedFrameWasDelivered | nemesisbot/src/bridge_rpc.rs:106-117 | the frame a request returned was delivered while the request was in the table |
| BridgeRpcOutcome.ResultIff | nemesisbot/src/bridge_rpc.rs:64-125 | a request that has returned says what happened to it: unreachable exactly when its send failed, timed out exactly when its wait ran out, otherwise the answer that came while the table had it, exactly when one came, and a dead link exactly when the session ended first |
| BridgeRpcOutcome.AnswerIsReturned | nemesisbot/src/bridge_rpc.rs:87-117 | an answer that found its request in the table is what the request returns, unless its send failed or its wait had run out |
| BridgeRpc.EntryMeansUnfinished | nemesisbot/src/bridge_rpc.rs:64-125 | an entry in the table belongs to a request that has not returned |
| BridgeRpc.ChainIsShort | nemesisbot/src/bridge_rpc.rs:260-329 | whatever changes between the hops, a frame causes at most three more |
| BridgeRpc.RequestHandedOnOnce | nemesisbot/src/bridge_rpc.rs:192-220 | a request is handed on at most once, by the hub, unchanged, and not over the link it came from |
| BridgeRpc.AnswerComesBackIff | nemesisbot/src/bridge_rpc.rs:280-329 | between two devices, the requester gets an answer with its id after four hops exactly when the link mapped to the target is the target's |
| BridgeRpc.UnreachableIsAnswered | nemesisbot/src/bridge_rpc.rs:308-325 | a request that cannot be handed on is answered over the link it came from |
| BridgeRpc.BridgeRpcChannel.Deliver | nemesisbot/src/bridge_rpc.rs:106-117 | the delivery step of `Apply`: wakes the waiter of the frame's id, a second frame with that id wakes nobody, other requests keep their entries |
| BridgeRpc.BridgeRpcChannel.Insert | nemesisbot/src/bridge_rpc.rs:70-76 | the registration step of `Apply`: a frame with this id will find this request, other requests keep their entries |
| BridgeRpc.BridgeRpcChannel.Remove | nemesisbot/src/bridge_rpc.rs:77-99 | the step of `Apply` on a failed send and on a timeout: a later frame with this id wakes nobody, other requests keep their entries |
| BridgeRpc.BridgeRpcChannel.Clear | nemesisbot/src/bridge_rpc.rs:121-125 | the session end of `Apply`: no frame wakes anybody any more |
| BridgeRpc.ReachableIff | nemesisbot/src/bridge_rpc.rs:400-492 | over any sequence of sessions and syncs, a peer is reachable exactly when a session is up and the last list of members, no older than the end of the session before, has it online |
| BridgeRpc.DeviceBridge.HandleMemberSync | nemesisbot/src/bridge_rpc.rs:414-492 | the member table becomes exactly the online members other than this node; a sync without a list changes nothing |
| BridgeRpc.DeviceBridge.AttachUplink | nemesisbot/src/bridge_rpc.rs:392-395 | the attach step of `Reached`: a session is up, the members are as before |
| BridgeRpc.DeviceBridge.DetachUplink | nemesisbot/src/bridge_rpc.rs:400-404 | nobody is reachable any more, and every request in flight loses its entry |
| ConnPump.WrittenIsPrefix | nemesisbot/src/bridge_client.rs:623-672 | for every connection of every run, the bytes written are a prefix of the offered payloads in order; a payload is refused only by closing, and nothing is accepted after that |
| ConnPump.IdleWriterIsDone | nemesisbot/src/bridge_client.rs:283-298 | a live writer with nothing to do has written all that was accepted |
| ConnPump.NothingIsLost | nemesisbot/src/bridge_client.rs:283-298 | unless its socket fails, a writer that has stopped has written everything that was accepted, and it stops only behind the closing of its connection |
| ConnPump.RefusalHasReason | nemesisbot/src/bridge_client.rs:655-672 | a payload that was not accepted met a full queue or a writer that was gone |
| ConnPump.ClosesIff | nemesisbot/src/bridge_client.rs:623-672 | a close, an undecodable payload, a refused one and a second open with the same id close the connection the id names, and nothing else does |
| ConnPump.ClosedForGood | nemesisbot/src/bridge_client.rs:623-672 | a connection that was closed is never offered anything again |
| ConnPump.FramesCarryTheSocket | nemesisbot/src/bridge_client.rs:299-342 | upstream frames are numbered 0, 1, 2, ..., concatenate to the bytes read, and only the last may be the empty end frame |
| ConnPump.ReadPump | nemesisbot/src/bridge_client.rs:299-342 | the read loop over any sequence of reads: numbering, bytes, and an end frame exactly when the end was reached before a failure |
| ConnPump.AcceptKeeps | nemesisbot/src/bridge_client.rs:655-663 | an accepted payload is neither lost nor reordered |
| ConnPump.RefuseKeeps | nemesisbot/src/bridge_client.rs:664-672 | a refused payload closes the connection and leaves the rest in order |
| AssetTransfer.ServeChunk | nemesisbot/src/board_asset_rpc.rs:129-171 | whatever the pattern of short reads, the reply is the slice of the file within the clamp, with the right end mark and the right refusals |
| AssetTransfer.FetchViaRpc | nemesisbot/src/board_asset_tool.rs:498-592 | the loop accepts exactly when meta agrees, the size is within the limit and the assembly has meta's size and the expected hash; and then in as many calls as there are chunks |
| AssetTransfer.LengthTellsAll | nemesisbot/src/board_asset_tool.rs:551-583 | the assembled length is right exactly when every call delivered its whole piece |
| AssetTransfer.AcceptedWhileChanging | nemesisbot/src/board_asset_tool.rs:551-592 | even if the file changes, what is accepted has meta's size and the expected hash, and each piece is what the file held at its call |
| AssetTransfer.UnchangedFile | nemesisbot/src/board_asset_rpc.rs:129-171 | for an unchanged file no offset is refused, the end mark is on the last chunk only, and the assembly is the file so far |
| AssetTransfer.TransferUnchanged | nemesisbot/src/board_asset_tool.rs:498-592 | an unchanged file within the limit arrives whole, in as many calls as its size takes pieces, rounded up; a larger one is refused before the first chunk |
| AssetTransfer.WholeIffWithinClamp | nemesisbot/src/board_asset_rpc.rs:35-37 | a piece arrives whole exactly when it is within the server's clamp |
| AssetTransfer.AssetFiles.FinalizeDownload | nemesisbot/src/board_asset_tool.rs:457-469 | the asset is replaced exactly by a part file with the expected hash; on any failure the asset stays, and the part goes if it can be removed |
| AssetTransfer.AssetFiles.FinalizeStep | nemesisbot/src/board_asset_tool.rs:471-489 | hash check, then rename |
| ConflictResolver.ParseItems | nemesisbot/src/conflict_resolver.rs:613-699 | success exactly for a valid answer; a failure names a real fault of the first entry that has any, or all files nobody handled |
| ConflictResolver.CheckItem | nemesisbot/src/conflict_resolver.rs:617-683 | an entry passes exactly when it is valid and its path is new |
| ConflictResolver.ParseResolutions | nemesisbot/src/conflict_resolver.rs:595-614 | from the raw answer: success exactly when a text from the first opening to the last closing brace is there, parses and is valid; for an object in prose, exactly when the object parses and is valid |
| ConflictResolver.JsonTextIsBody | nemesisbot/src/conflict_resolver.rs:600-604 | an object text in prose with no opening brace before it and no closing brace behind it is found as it is, whatever braces are inside |
| ConflictResolver.NoJsonTextIff | nemesisbot/src/conflict_resolver.rs:600-604 | nothing is found exactly when a kind of brace is missing, or the last closing one stands before the first opening one with something in between |
| ConflictResolver.LockfileNeedsAdvice | nemesisbot/src/conflict_resolver.rs:642-648 | a valid answer that touches a lock file, in whatever directory, has the advice to generate it anew in its reason |
| ConflictResolver.ActionIff | nemesisbot/src/conflict_resolver.rs:70-78 | an action is read exactly from its word with white space around it |
| ConflictResolver.SuccessIsExactCover | nemesisbot/src/conflict_resolver.rs:684-697 | a valid answer handles each conflict path exactly once and nothing else |
| ConflictResolver.OverrideSucceeds | nemesisbot/src/conflict_resolver.rs:504-527 | every validated resolution has content: the chosen side, or the merged text of a file that is not binary |
| ConflictResolver.AssembleOverrides | nemesisbot/src/conflict_resolver.rs:196-209 | the assembly succeeds exactly when every resolution has content |
| ConflictResolver.HardResolve | nemesisbot/src/conflict_resolver.rs:131-176 | at most three answers are asked for; overrides result exactly when a valid answer comes before a failed call, and they cover each conflict once |
| ConflictResolver.ResolvableIff | nemesisbot/src/conflict_resolver.rs:595-699 | some answer is valid exactly when every path is nonempty and survives trimming and every binary file has a side to take |
| ReviewAssets.ScanObject | nemesisbot/src/board_review_assets.rs:52-79 | the inner loop finds the end that the automaton defines; the depth never goes below zero |
| ReviewAssets.ExtractBundles | nemesisbot/src/board_review_assets.rs:43-90 | the outer loop visits exactly the specified spans and keeps those that parse, in order |
| ReviewAssets.SpanEndsAtDepthZero | nemesisbot/src/board_review_assets.rs:52-79 | a span ends at the first point where the string-aware depth is back at zero |
| ReviewAssets.SpansAreOrdered | nemesisbot/src/board_review_assets.rs:43-90 | spans are nonempty, start at a brace, and follow each other without overlap |
| ReviewAssets.ObjectCloses | nemesisbot/src/board_review_assets.rs:52-79 | a serialized object closes exactly at its own end, whatever follows |
| ReviewAssets.ObjectIsFirstSpan | nemesisbot/src/board_review_assets.rs:43-90 | an object in text is the first span exactly when no brace opens before it |
| ReviewAssets.AllObjectsFound | nemesisbot/src/board_review_assets.rs:43-90 | in brace-free prose with objects in between, the spans are exactly the objects |
| ReviewAssets.StrayBraceHides | nemesisbot/src/board_review_assets.rs:79-80 | a stray opening brace hides the object behind it |
| ReviewAssets.ValueSkips | nemesisbot/src/board_review_assets.rs:58-78 | the scan passes over any serialized value and is as before |
| ApprovalDiff.UnifiedDiff | nemesisbot/src/approval_preview.rs:380-450 | the preview is empty exactly for equal texts; otherwise the hunk turns old into new and, read backwards, new into old, its counts are those of its lines, a side starts at 0 exactly when that text is empty, and it has what lies between the longest common ends with the one line before and the one behind it |
| ApprovalDiff.SmallestReplacement | nemesisbot/src/approval_preview.rs:402-415 | no single contiguous replacement changes fewer lines than the hunk's block |
| ApprovalDiff.HunkPatches | nemesisbot/src/approval_preview.rs:416-446 | the hunk around maximal common ends is a correct patch both ways |
| ApprovalDiff.FindCommonEnds | nemesisbot/src/approval_preview.rs:401-411 | the two loops find common ends that cannot be longer |
| ApprovalDiff.TruncatePreview | nemesisbot/src/approval_preview.rs:363-376 | the longest beginning within the limit that does not split a character |
| CivilDate.CivilRoundTrip | crates/nemesis-data/build.rs:186-198 | for every integer day number the result is a valid calendar date whose day count is that number |
| CivilDate.DaysRoundTrip | crates/nemesis-data/build.rs:186-198 | every valid date is the image of its own day number |
| CivilDate.CivilMonotone | crates/nemesis-data/build.rs:186-198 | later days give later dates |
| CivilDate.CivilSuccessor | crates/nemesis-data/build.rs:186-198 | the next day number gives the next calendar day |
| CivilDate.NextDayCounts | crates/nemesis-data/build.rs:184-186 | counting one day further is moving to the next calendar day |
| CivilDate.YearOfEra | crates/nemesis-data/build.rs:190-192 | the nested divisions find the March-based year that holds the day |
| CivilDate.Epoch | crates/nemesis-data/build.rs:172-183 | day 0 is 1970-01-01 |
| CivilDate.NoOverflow | crates/nemesis-data/build.rs:173-198 | for every 64-bit second count no intermediate value leaves the 64-bit range |

## Left out

- Git, the board store, the journal's database, the vault, sockets and the file system are outcomes of events or parameters.
- A merge dependency that is not installed is not modelled; the placement of a landed archive and the comments and notices about merges are not modelled.
- MergeTriggerSafety.RunKeepsInv: an automatic resolution is one step that commits or gives up; the redispatch that follows a failure is not part of this model.
- MergeReplay.MergeStore.ReplayPendingMerges: one caller at a time; concurrent replays are events of `MergeTrigger.dfy`.
- The manual retry of an issue's archive is a registration and an attempt; its scan of the directories is not modelled.
- MergeTriggerLegs.TakenExactlyOnce: assumes that no store read about the task fails and that the process lives on; after a restart the registry is empty by design.
- ChannelApprovalJournal.ApprovedIffReplyWon: assumes distinct request ids; short ids may collide.
- BoardBusDelivery.DeliveredIff: what went to the inbox before a restart is not counted, because the inbox does not outlive the process.
- CredentialOutcome.DeniedIsStoredIff: assumes distinct request ids, which the program takes from its callers.
- CredentialOutcome.ReturnsStoredIff: assumes distinct request ids, too.
- CredentialBroker.AtMostOneDecision: the broadcasts to the web client, whose number rests on the grace period, are not modelled.
- AcpFraming.LineReader.NextLine: works on bytes; the lossy UTF-8 decoding of a settled line and the parsing of the frame are not modelled.
- AcpTurns.SessionStreamIsTurns: the closing of the outbound channel and its bounded size are not modelled, nor the session set-up.
- BoardBus.NothingIsPassedOver: one master with one ledger, and handlers one at a time; the thread key is a string, and what mentions a node is a property of the entry.
- Replan.HistoryIsOrderlyIff: others' comments are any comments that are not replanner markers; the drafting itself and the configuration are not modelled.
- ReplanExecution.AutonomousExecute: the board's answers are given; the cancelling of dispatches and the texts of comments are not modelled.
- BridgeRpc.ChainIsShort: assumes that local handlers answer with a response or an error; frames that do not parse are dropped by the program and not modelled.
- ConnPump.WrittenIsPrefix: the web-socket session around the pumps, its handshake, heartbeat and backoff are not modelled; base64 is an invertible encoding.
- AssetTransfer.FetchViaRpc: tokens and authorisation are a refusal; SHA-256 is a function of the bytes; hash texts are compared as already trimmed and lower-cased; the HTTP leg is not modelled.
- ConflictResolver.ParseResolutions: JSON parsing is a parameter, and the content of a merged file is given by its bytes.
- ReviewAssets.ExtractBundles: what parses as a bundle, with its image suffix, is a parameter.
- ApprovalDiff.UnifiedDiff: works on lists of lines; splitting a text into lines and printing the hunk are not modelled.
- CivilDate.CivilRoundTrip: the zero-padded text of the date is not modelled.
- Agents, the delivery gate, the cluster service, the command line, adapters, loggers and configuration files are not modelled.
