# Community exchange: verified model

A Dafny model of a community bot in which members publish paid tasks, perform each other's tasks and
send each other credits, together with the operational scripts that move it between releases.

Publishing a member task puts its reward for every performer slot into escrow. Slots are accepted,
submitted, reviewed, rejected, disputed, left, cancelled by consent or missed, and each path pays a
performer or refunds the creator under its own guard and idempotency key. The safety argument is spread
over many methods; the model makes it explicit and proves it over whole runs.

## How the project is laid out

- `Ledger`, `LedgerStore`: the keyed, append-only ledger with cached totals. The specification is a
  function on values; the class checks, stages and appends in place and is proved against it.
- `Tasks`, `Escrow`: tasks with the acceptance history of their slots, and what each workflow does to one
  locked task: its next state and the batch it commits, or the reason it is refused.
- `EscrowInvariants`, `EscrowSteps`, `EscrowPerformer`, `EscrowCreator`, `EscrowDeadline`: the invariant of
  one task together with the ledger, and that every workflow keeps it; whether its escrow comes out even is
  carried along beside it.
- `Exchange`, `ExchangeInvariants`, `ExchangeRuns`: all members, drafts, tasks, receipts and the clock;
  transactions, runs, what every run keeps, and exactly which transactions lose the escrow of a task.
- `ExchangeOutcomes`, `ExchangeTerms`: for every transaction, exactly when it goes through, and what it then
  does to the task, the assignments and the balances of everybody. `ExchangeRefusals`: otherwise, why not.
- `Guarantees`, `ExchangeDelivery`, `ExchangeMoney`, `ExchangeLife`, `Transitions`: the properties of runs.
  `ExchangeWitness` holds the concrete runs on which the escrow does not come out even.
- `ExchangeIdle`, `ExchangeStranded`, `ExchangeRecovery`: the reserve of slots nobody holds, when it is lost
  and how it comes back. `ExchangeCancelled`: when a cancelled task stays cancelled. `ExchangeReserved`: the
  reserved amount of the wallet summary.
- `ExchangeService`: the services in their own imperative form, loops included, proved against `Exchange`.
- `SlotHistory`: the latest assignment of every slot, by loop, by query and by counting.
- `Gates`: concurrent transactions one statement at a time.
- `Wallet`, `WalletService`: peer transfers. `Cutover`, `Releases`, `Faults`: the operational protocols, with
  a failure or a crash possible at every effect. `TaskDrafts`, `Codec`, `Receipts`, `Text`: the draft step
  machine and the receipt codecs.

## What the proofs found

- The escrow identity of a task does not survive every run. Closing intake a second time, from the partially
  completed state, counts slots released by consent as free again and refunds them twice.
  `ExchangeRuns.KeepsExactlyWhenSafe` gives the exact condition, `EscrowCreator.OverdrawnBy` the amount, and
  `ExchangeWitness.OverdraftIsReachable` a run from an empty exchange. No other task is affected.
- A moderation resolution that cancels without fault refunds a slot although the task may stay published,
  so that the slot is offered again without a reserve. `EscrowPerformer.GuardIsExact` says when: before the
  deadline of a published task, while another slot is active or some slot has never been taken.
  `ExchangeWitness.ResolutionReopens` is a run.
- The reserve of a slot that nobody holds need not come back. `ExchangeIdle.InReach` lists the states from
  which it can: from every other state no run safe for the task ever returns any of it, and from these one does
  (`Guarantees.StrandedForGood`). `ExchangeStranded.Strands` is the guard of the transactions that move it
  out of reach, and the condition is exact (`ExchangeStranded.StrandsExactly`):
  - an assignment ends at or after the deadline of a published task, ahead of the deadline pass
    (`ExchangeWitness.ReviewAtDeadlineStrands`);
  - the last active assignment of a published task ends before the deadline, every slot has been taken at
    some time, and nobody is paid or the slot is cancelled without fault: the task expires early, because
    the count of taken slots includes those left again (`ExchangeWitness.EarlyExpiryStrands`);
  - the clock passes the deadline of a closed or partially completed task with an unheld slot
    (`ExchangeWitness.WaitingStrands`), or the last dispute window of a closed one nobody else can be paid in;
  - in a closed task, an ending gives back a reserve, after which a further close would overdraw, or takes
    away the last hope of a payment, without which the task is never partially completed and so closed again;
  - a performer leaves a task out of reach without being the last one active in a closed task.
- A cancelled task does not always stay cancelled. The derivation in the code has no guard for it, while the
  repair migration leaves cancelled tasks out, so a deadline pass over a cancelled task makes it expired if
  none of its slots has been paid, and otherwise partially completed, or completed if they all had been. No
  other transaction changes its status (`ExchangeCancelled.CancelledStays`). The query for due tasks never
  selects a cancelled one, so this takes a race: the scheduler has read the task's id before its last
  performer leaves (`ExchangeCancelled.CancellationIsUndone`).
- A rollback whose last journal entry was written by a process that then died reports an error when it is
  repeated, although it is complete (`Releases.RollBackTwice`); `Releases.Host.Retry` therefore promises the
  state it reaches, not the report.

A run is called safe for a task when neither of the first two transactions happens to that task in it; both
conditions can be read off the state before the transaction. Only what is said of the escrow of a task needs
this, and only of that task: lifecycle, consent, occupancy, settlement, the transition tables, the ledger,
delivery and conservation hold after every run.

## Conventions

An assignment is named by its task and its position in that task's acceptance history; identities of the
source (UUIDs, name-based UUIDs of section 5.5 of RFC 9562, digests) are taken to be injective. Time is an
integer number of seconds and never runs backwards. A transaction is one step; a refused one changes
nothing. The active limit is fixed during a run.

## Model

| member | source | states |
|---|---|---|
| Guarantees.EscrowIdentity | src/community_bot/application/assignments.py:830-1449 | In every world reached without overdrawing this task, whatever was done to others, a member task holds its reward for each slot neither settled nor released, at least what its active assignments may be owed, and everything while it is open |
| Guarantees.LifecycleHolds | src/community_bot/application/assignments.py:1738-1751 | After any run: terminal states have no active slot, settling occurs only from the deadline on, partially completed has a paid slot, completed has all of them, expired has none |
| Guarantees.ConsentHolds | src/community_bot/application/tasks.py:1818-1976 | After any run: one request per task in its life, pending exactly while an answer is missing, and every missing answer is about an assignment still accepted for which nothing has been booked |
| Guarantees.PaidAsDue | src/community_bot/application/assignments.py:1056-1153 | After any run: what an assignment was paid and what came back for it is determined by its status; on a member task the two add up to the reward once it is settled |
| Guarantees.OccupancyHolds | src/community_bot/application/assignments.py:1401-1408 | After any run: the slots the one-pass map counts as occupied are as many as the assignments not cancelled, and no more than the task has |
| Guarantees.MoneyReachesTheRightPeople | src/community_bot/application/assignments.py:1090-1125 | After any run, safe or not, every reward booked for an assignment went to its performer with equal experience, and everything else booked about a task to its creator |
| Guarantees.NothingLost | ops/restore_drill.py:37-52 | After any run, safe or not, every cached balance is the sum of the entries of its member, and balances plus escrow are what came from outside |
| Guarantees.IntakeStaysClosed | src/community_bot/application/assignments.py:1738-1751 | From any world any run reaches, no continuation reopens intake once it has closed |
| Guarantees.SettledForGood | src/community_bot/application/assignments.py:1056-1153 | From any world any run reaches, no continuation by the modelled transactions touches, pays or refunds a settled assignment again |
| Guarantees.DrainedOnce | src/community_bot/application/assignments.py:1373-1449 | In a world where this task was not overdrawn, one deadline pass over the published task leaves nobody accepted and the reward of the slots under review; after any later run another pass moves nothing |
| Guarantees.StrandedForGood | src/community_bot/application/assignments.py:1409-1418 | In every world reached without overdrawing this task: idle reserve is stranded, by the status, clock and ledger of the task, if and only if no continuation that does not overdraw it brings any of it back |
| Guarantees.IdleIsCounted | src/community_bot/application/assignments.py:1401-1418 | What a member task holds beyond what its active assignments may be owed is its reward for every slot neither held nor released |
| Guarantees.StrandedExactlyBy | src/community_bot/domain/tasks.py:74-105 | From such a world a transaction that does not overdraw this task leaves reserve stranded if and only if it was stranded before or the guard `Strands` holds |
| Guarantees.SettlementsGoThrough | src/community_bot/application/assignments.py:1229-1449 | After any run the ledger refuses no scheduled settlement its workflow allows |
| Guarantees.RequestsGoThrough | src/community_bot/application/assignments.py:880-915 | After any run the ledger refuses no request to leave, review, withdraw or answer that its workflow allows |
| Guarantees.EntriesMeanTheirKind | src/community_bot/domain/economy.py:580-660 | After any run, safe or not, every entry moves credit and experience as its kind says, and exactly the reversals name an entry they undo |
| Guarantees.LimitHolds | src/community_bot/domain/assignments.py:52-60 | After any run no member is accepted, under review, rejected and open to dispute, disputed or waiting for a reviewer in more tasks than the limit |
| Guarantees.StatusFollows | src/community_bot/domain/tasks.py:74-105 | After any run every transaction moves the status of every task along its table, and a cancelled task stays cancelled exactly if no deadline pass comes over it |
| Guarantees.LostExactlyBy | src/community_bot/application/tasks.py:1722-1783 | In a world where this task was not overdrawn, the next transaction loses its escrow identity if and only if it is one of the two that overdraw this task |
| ExchangeRuns.RunSound | src/community_bot/application/economy.py:99-143 | Every run whatsoever keeps keys unique, caches equal to the sums of the entries, reversals exact, and task entries about existing tasks |
| ExchangeRuns.RunKeeps | src/community_bot/application/assignments.py:395-1449 | Every run whatsoever keeps shape, lifecycle, consent, explained keys and settlement of every task, the ledger and the active limit |
| ExchangeRuns.SafeRunKeeps | src/community_bot/application/assignments.py:395-1449 | Every run that does not overdraw a task keeps the escrow identity of that task, whatever it does to others |
| ExchangeRuns.KeepsExactlyWhenSafe | src/community_bot/application/tasks.py:1722-1783 | A transaction loses the escrow identity of a task if and only if it is, for this task, a second close after a released slot or a no-fault cancellation that leaves it open; everything else survives it |
| ExchangeRuns.SecondCloseBreaks | src/community_bot/application/tasks.py:1726-1773 | A second close after consent released a slot is accepted, leaves less than nothing in the escrow and ends its identity |
| ExchangeRuns.ReopeningBreaks | src/community_bot/infrastructure/db/moderation.py:353-555 | A no-fault resolution that leaves the task published breaks the escrow identity |
| ExchangeRuns.JobsNeverRefused | src/community_bot/application/assignments.py:1229-1449 | Under what every run keeps, a scheduled settlement or resolution whose own guards pass is never refused by the ledger |
| ExchangeRuns.SettlingRequestsNeverRefused | src/community_bot/application/assignments.py:880-915 | Under what every run keeps, leaving, reviewing, withdrawing and answering a cancellation request are never refused by the ledger once their guards pass |
| ExchangeRuns.RunReversals | migrations/versions/0009_moderation.py:414-459 | After any run, safe or not, each reversal takes one earlier entry of the same member back to zero, no entry is reversed twice, and never a transfer leg |
| ExchangeDelivery.RedeliveryIsInvisible | src/community_bot/application/assignments.py:1452-1454 | Removing the re-delivered updates from any run ends in the very same world |
| ExchangeDelivery.EssentialDeliversOnce | src/community_bot/application/assignments.py:1499-1519 | What is left after removing redeliveries contains no update id again once it has succeeded |
| ExchangeDelivery.HandledForGood | src/community_bot/application/tasks.py:2031-2033 | An update once handled is answered without effect at any later time, whatever it then asks for |
| ExchangeDelivery.OneReserve | src/community_bot/application/tasks.py:1320-1331 | A published member draft has exactly one reserve entry, of its reward times its slots, on its creator |
| ExchangeDelivery.PublishedOnce | src/community_bot/application/tasks.py:1338-1362 | Publishing a published draft again under any update, after any run, changes neither books nor tasks |
| ExchangeMoney.Conservation | ops/restore_drill.py:37-52 | Balances of all members plus the escrow of all tasks equal the credits booked by entries not about tasks |
| ExchangeMoney.MembersConserve | src/community_bot/application/assignments.py:1090-1128 | Balances plus the escrow of member tasks change only by outside credits and community rewards |
| ExchangeMoney.RunConserves | src/community_bot/application/assignments.py:830-1449 | Over any run, balances and escrow together change by exactly what starting grants and non-task batches bring in |
| ExchangeLife.NeverPublishedAgain | src/community_bot/application/assignments.py:1738-1751 | Once a task has left the published state no run, safe or not, brings it back |
| ExchangeLife.SettledOnce | src/community_bot/application/assignments.py:1056-1153 | Once an assignment is settled, no run of any length, safe or not, pays or returns anything more for it; payment and return add up to the reward |
| ExchangeLife.DeadlineLeavesReviews | src/community_bot/application/assignments.py:1373-1449 | The deadline pass over a published task leaves nobody accepted and exactly the reward of the slots under review |
| ExchangeLife.DeadlineDrains | src/community_bot/application/assignments.py:1373-1449 | The first pass over a task not overdrawn succeeds and drains it; after any later run a repeated pass moves no credit |
| ExchangeStranded.StrandedStays | src/community_bot/application/assignments.py:889-915 | Out of reach is for good: over any run safe for the task what is idle grows by the reward of every slot left behind and is otherwise unchanged, before the deadline and after it |
| ExchangeStranded.StrandsExactly | src/community_bot/application/tasks.py:1722-1783 | A transaction that does not overdraw the task leaves its reserve stranded exactly if it already was, or its guard on the state before it holds |
| ExchangeStranded.StrandedByStep | src/community_bot/application/assignments.py:830-1449 | Over any run safe for the task its reserve ends up stranded exactly if it was so at the start or one of the transactions stranded it |
| ExchangeStranded.DrainedNeverChanges | src/community_bot/application/assignments.py:1388-1418 | Where nobody is merely accepted any more, as in every ended task, no performer can leave, so what is idle never changes again |
| ExchangeStranded.EndingStaysOut | src/community_bot/application/assignments.py:1738-1751 | Ending an assignment never brings idle reserve back in reach |
| ExchangeStranded.EndingStrands | src/community_bot/domain/tasks.py:85-105 | Ending an assignment of a task in reach strands reserve exactly under the guards for open and for closed tasks |
| ExchangeIdle.IdleIsUnheld | src/community_bot/application/assignments.py:1401-1418 | What is idle is the reward of every slot neither held nor released, and the number of released slots is determined by ledger and history |
| ExchangeIdle.EndingAfter | src/community_bot/application/assignments.py:830-1371 | Which assignment a transaction ends, in which status, with which task status and at what cost to the escrow follows from the guards before it |
| ExchangeIdle.QuietAfter | src/community_bot/application/assignments.py:395-1371 | Every transaction that ends nothing and is not about the task as a whole leaves its escrow, counts, status and prospects alone |
| ExchangeIdle.OpenAfter | src/community_bot/application/tasks.py:1622-1800 | Withdrawing, closing, editing or finishing a published task leaves it published or nothing idle |
| ExchangeIdle.PassAfter | src/community_bot/application/assignments.py:1373-1449 | A deadline pass over a task that is no longer published leaves what is idle alone |
| ExchangeIdle.CloseAgain | src/community_bot/application/tasks.py:1762-1783 | A close out of reach that does not overdraw finds its refund stored and moves no credit |
| ExchangeRecovery.Recover | src/community_bot/application/tasks.py:1722-1783 | Whatever is idle and in reach is returned by some run safe for the task, found by ending the active assignments one after another and then closing |
| ExchangeRecovery.StrandedIsForGood | src/community_bot/application/assignments.py:1409-1418 | Stranded reserve is exactly what no run safe for the task gives back |
| ExchangeRecovery.RunStamped | src/community_bot/infrastructure/db/assignments.py:500-516 | After any run every rejection awaiting dispute knows when it was made and until when it can be disputed |
| ExchangeWitness.ClosingTwiceOverdraws | src/community_bot/application/tasks.py:1726-1773 | Six ordinary requests on an untouched two-slot task, then a second close, leave its escrow negative |
| ExchangeWitness.StageExists | src/community_bot/application/tasks.py:1220-1435 | Three registrations, a draft and its publication lead from an empty exchange to the world every example starts in, with two people free to take the slots |
| ExchangeWitness.OverdraftIsReachable | src/community_bot/application/tasks.py:1726-1773 | From an empty exchange, twelve transactions leave a task with less than nothing in escrow |
| ExchangeWitness.ReviewAtDeadlineStrands | src/community_bot/application/assignments.py:1409-1418 | A review delivered at the deadline before the deadline pass leaves the untaken slot reserve in escrow for ever |
| ExchangeWitness.EarlyExpiryStrands | src/community_bot/domain/tasks.py:85-89 | Two performers take both slots, one leaves, the other is rejected and does not dispute: the task expires before its deadline with one reward idle, which neither withdrawing, closing nor the deadline pass returns |
| ExchangeWitness.WaitingStrands | src/community_bot/application/tasks.py:1722-1726 | The other is paid instead: the reserve could be returned by closing the task, until its deadline passes |
| ExchangeWitness.ResolutionReopens | src/community_bot/infrastructure/db/moderation.py:873-946 | Four ordinary requests lead to a dispute whose no-fault resolution leaves the task open and underfunded |
| Transitions.StepFollows | src/community_bot/application/assignments.py:395-1449 | Every transaction moves every assignment along one transition table with its time conditions, and adds assignments only to the lowest free slot of an open task |
| Transitions.StepMovesTask | src/community_bot/domain/tasks.py:74-105 | Every transaction moves the status of every task along a second table, by the latest assignments of its slots |
| Transitions.LateIsNeverPaid | src/community_bot/domain/assignments.py:120-128 | Whoever has not submitted by the deadline is never paid, in any run |
| Transitions.SilenceApproves | src/community_bot/application/assignments.py:1073-1080 | After the review window of a member task has closed, the result is submitted or approved in full in every later world |
| ExchangeOutcomes.CaseGoesThrough | src/community_bot/domain/moderation.py:82-90 | A resolution goes through exactly for a disputed assignment, and on a community task only with a code that knows no creator |
| ExchangeOutcomes.CaseSettles | src/community_bot/infrastructure/db/moderation.py:900-946 | By its code a resolution leaves the status of an independent table, pays the reward, half of it rounded up or nothing to the performer, and returns the rest of a member task's reward; no other balance, assignment or task moves |
| ExchangeOutcomes.ReviewGoesThrough | src/community_bot/application/assignments.py:1056-1080 | A review goes through exactly if it is the first, in time and does not split a single credit, or repeats the decision made |
| ExchangeOutcomes.DecisionSettles | src/community_bot/application/assignments.py:1081-1153 | By its decision a first review leaves the status of an independent table, pays and returns, is recorded with its command, and a rejection opens 24 hours for dispute; nothing else moves |
| ExchangeOutcomes.RepeatedDecision | src/community_bot/application/assignments.py:1056-1067 | Repeating a decision only leaves the receipt of its update |
| ExchangeOutcomes.ReviewJobGoesThrough | src/community_bot/application/assignments.py:1229-1308 | The review job goes through exactly if nothing is waiting for review or its window is over |
| ExchangeOutcomes.ReviewJobSettles | src/community_bot/application/assignments.py:1229-1308 | It pays a submission in full, hands one of a community task with an unfit reviewer on unpaid, and leaves anything else as it is |
| ExchangeOutcomes.RejectionJobGoesThrough | src/community_bot/application/assignments.py:1310-1371 | The rejection job goes through exactly if no rejection is open to dispute or its window is over |
| ExchangeOutcomes.RejectionJobSettles | src/community_bot/application/assignments.py:1310-1371 | It makes an undisputed rejection final and returns the whole reward of a member task, and leaves anything else as it is |
| ExchangeOutcomes.AcceptGoesThrough | src/community_bot/application/assignments.py:402-471 | A request for a slot goes through exactly if the member is known, new to the task, not its creator and below the limit, and the task is open, in time, not waiting for consent and has fewer assignments than slots |
| ExchangeOutcomes.AcceptTakesSlot | src/community_bot/infrastructure/db/assignments.py:75-95 | It adds one assignment, on the lowest slot nobody held, and changes nothing else |
| ExchangeOutcomes.Submits | src/community_bot/infrastructure/db/assignments.py:376-390 | A submission goes through exactly for an accepted assignment before the deadline; it opens 72 hours for review unless they had been opened, lets pending requests lapse and changes nothing else |
| ExchangeOutcomes.Disputes | src/community_bot/application/assignments.py:1155-1227 | A dispute goes through exactly within the window of its rejection and only marks the assignment |
| ExchangeOutcomes.LeaveGoesThrough | src/community_bot/application/assignments.py:830-880 | Leaving goes through exactly for an accepted assignment |
| ExchangeOutcomes.LeaveSettles | src/community_bot/application/assignments.py:880-931 | It cancels the assignment and lets pending requests lapse; the reward of its slot goes back, and the task ends, exactly if it was the last active one of a closed member task |
| ExchangeOutcomes.AnswerGoesThrough | src/community_bot/application/tasks.py:1845-1883 | An answer to a cancellation request goes through exactly if it is awaited or its request has lapsed |
| ExchangeOutcomes.AnswerSettles | src/community_bot/application/tasks.py:1880-1976 | The first answer in time is recorded as consent exactly if consent was given and as refusal otherwise; consent cancels the assignment, returns its reward and ends the task if it was the last active one, refusal changes nothing else |
| ExchangeOutcomes.LateAnswer | src/community_bot/application/tasks.py:1845-1879 | An awaited answer at or after the deadline lets its request lapse, an answer to a lapsed one changes nothing; no money moves |
| ExchangeOutcomes.PassGoesThrough | src/community_bot/application/assignments.py:1384-1387 | The deadline pass goes through exactly from the deadline on |
| ExchangeOutcomes.PassSettles | src/community_bot/application/assignments.py:1388-1449 | It marks exactly the accepted assignments as no-shows; the creator of a member task gets the reward of each of them and, while the task is open, of every slot nobody holds, and nobody else gains or loses |
| ExchangeTerms.EditGoesThrough | src/community_bot/application/tasks.py:739-857 | An edit goes through exactly for a published member task before its deadline that nobody holds, with positive terms, a deadline to come and a creator who can pay for what it reserves more |
| ExchangeTerms.EditStoresTerms | src/community_bot/application/tasks.py:801-843 | The task then has the reward, slots and deadline asked for and reserves their product; the difference of the reserves moves from or to the creator's balance, nobody else's, and nothing else about the task changes |
| ExchangeTerms.PublishGoesThrough | src/community_bot/application/tasks.py:1220-1435 | A draft is published exactly if its terms are positive, its deadline is to come, and its known creator can pay for the reserve or has paid it |
| ExchangeTerms.PublishOpens | src/community_bot/application/tasks.py:2500-2538 | A first publication opens a task with exactly the terms of its draft, and the reserve leaves the creator's balance, nobody else's |
| ExchangeTerms.WithdrawGoesThrough | src/community_bot/application/tasks.py:1640-1650 | Withdrawing goes through exactly for a published member task before its deadline that nobody holds |
| ExchangeTerms.WithdrawReturns | src/community_bot/application/tasks.py:1651-1679 | It cancels the task and returns its whole reserve |
| ExchangeTerms.CloseGoesThrough | src/community_bot/application/tasks.py:1681-1773 | Closing goes through exactly for a member task cancelled already, or before its deadline published, or partially completed with a slot nobody holds whose refund is new or the one stored |
| ExchangeTerms.CloseSettles | src/community_bot/application/tasks.py:1726-1800 | It leaves a cancelled task alone, ends one nobody holds and returns its reserve, and otherwise returns the reward of the slots nobody holds, once, and asks exactly the merely accepted performers for consent |
| ExchangeTerms.RegisterGrants | src/community_bot/domain/economy.py:216-225 | Registering goes through exactly if the account is open or its grant is not stored; it opens an account with exactly 20 credits, once, and touches nobody else's |
| ExchangeTerms.EconomyMoves | src/community_bot/application/economy.py:113-119 | A batch from outside the task workflows goes through exactly if its keys are of that kind and the ledger takes it; a new one moves every balance by what it brings, a stored one nothing |
| ExchangeRefusals.RefusedForAReason | src/community_bot/application/assignments.py:395-1227 | Every refused request names a reason that is true of the world it met, and only a reserve that is not covered and a changed close refund are refused by the ledger |
| ExchangeRefusals.JobRefusedForAReason | src/community_bot/application/assignments.py:1229-1449 | Every refused job or resolution names a true reason, and none is refused by the ledger |
| EscrowCreator.AcceptKeeps | src/community_bot/application/assignments.py:402-471 | Accepting keeps the task invariant and books nothing |
| EscrowCreator.AcceptEffect | src/community_bot/infrastructure/db/assignments.py:75-95 | An accepted performer gets a slot in range that nobody holds, in an open task without a pending request, and is new to the task |
| EscrowPerformer.SubmitKeeps | src/community_bot/application/assignments.py:933-985 | Submitting keeps the task invariant and lets open requests lapse |
| EscrowPerformer.CancelAssignmentKeeps | src/community_bot/application/assignments.py:830-931 | Leaving keeps the task invariant; in a closed task without other active slots the slot reserve goes back |
| EscrowPerformer.DecideKeeps | src/community_bot/application/assignments.py:1056-1153 | Any decision, and any repeated decision, keeps the task invariant under keys the ledger has not seen |
| EscrowPerformer.DisputeKeeps | src/community_bot/application/assignments.py:1155-1227 | A dispute keeps the task invariant and books nothing |
| EscrowPerformer.FinalizeReviewKeeps | src/community_bot/application/assignments.py:1229-1308 | Autoconfirmation keeps the task invariant |
| EscrowPerformer.FinalizeRejectionKeeps | src/community_bot/application/assignments.py:1310-1371 | Finalising a rejection keeps the task invariant |
| EscrowPerformer.ResolveKeeps | src/community_bot/infrastructure/db/moderation.py:353-555 | The first resolution of a dispute keeps the task invariant, and the escrow even unless it leaves the cancelled slot open; who is paid by which code is stated by `ExchangeOutcomes.CaseSettles` |
| EscrowPerformer.GuardIsExact | src/community_bot/infrastructure/db/moderation.py:353-555 | A resolution leaves its cancelled slot on offer if and only if the task is a published member task before its deadline with another active or a never taken slot |
| EscrowPerformer.ReopenedSlotIsUnfunded | src/community_bot/infrastructure/db/moderation.py:873-946 | If it does, the open task is short of exactly one reward |
| EscrowPerformer.RespondKeeps | src/community_bot/application/tasks.py:1818-1976 | Every answer, late answer and repeated answer to a cancellation request keeps the task invariant |
| EscrowPerformer.ConsentMatchesSlot | src/community_bot/application/tasks.py:1912-1932 | The unconditional refund of a consent matches exactly one slot, cancelled in the same transaction and never refunded before |
| EscrowCreator.EditKeeps | src/community_bot/application/tasks.py:816-843 | An edit moves the difference of the reserves and keeps the task invariant under the new terms, which `ExchangeTerms.EditStoresTerms` states |
| EscrowCreator.CancelTaskKeeps | src/community_bot/application/tasks.py:1622-1679 | Withdrawing an unclaimed task returns what it holds and keeps the task invariant |
| EscrowCreator.RequestKeeps | src/community_bot/application/tasks.py:1722-1800 | Closing intake keeps the task invariant, and the escrow even unless it would return a slot twice; a stored close refund is replayed |
| EscrowCreator.SecondCloseCommits | src/community_bot/application/tasks.py:1762-1773 | In the state that closes twice the request is not refused and asks for a refund under an unused key |
| EscrowCreator.OverdrawnBy | src/community_bot/application/tasks.py:1727-1730 | A second close overdraws by the reward of every slot already released |
| EscrowCreator.SecondCloseOverdraws | src/community_bot/application/tasks.py:1762-1773 | Posting it makes the escrow negative and ends the escrow identity |
| EscrowCreator.BalancedIsSolvent | src/community_bot/application/assignments.py:1090-1128 | A balanced escrow covers the reward of every active assignment |
| EscrowCreator.PublishedKeeps | src/community_bot/application/tasks.py:2500-2538 | A freshly published task with its reserve on the ledger satisfies the invariant and its escrow comes out even |
| EscrowCreator.OthersKeep | src/community_bot/application/economy.py:99-143 | What is booked about other tasks leaves a task and its escrow alone |
| EscrowCreator.LaterKeeps | src/community_bot/application/assignments.py:1384-1385 | The invariant survives the passing of time |
| EscrowCreator.ClosingAsksExactlyTheAccepted | src/community_bot/application/tasks.py:1774-1783 | Closing an open task asks for consent exactly the performers who have merely accepted |
| Escrow.HalfUp | src/community_bot/domain/assignments.py:113-117 | Half the reward rounded up: strictly between nothing and the reward from two credits on |
| EscrowDeadline.FinalizeDeadlineKeeps | src/community_bot/application/assignments.py:1373-1449 | The deadline pass keeps the task invariant from every state |
| EscrowDeadline.DeadlineBalance | src/community_bot/application/assignments.py:1392-1418 | From the published state the pass releases exactly the slots without a holder |
| EscrowDeadline.DeadlineColumns | src/community_bot/application/assignments.py:1392-1418 | The batch returns one reward for each no-show and one for each unfilled slot, and pays nobody |
| ExchangeInvariants.StepSound | src/community_bot/application/economy.py:99-143 | Every transaction, however unwise, keeps the books and their ownership |
| ExchangeInvariants.StepKeeps | src/community_bot/application/assignments.py:395-1449 | Every transaction keeps the whole invariant, and the escrow identity of every task that it does not itself overdraw |
| ExchangeInvariants.StepLimit | src/community_bot/application/assignments.py:451-457 | No transaction lets a member exceed the active assignment limit |
| ExchangeInvariants.PublishedAlready | src/community_bot/application/tasks.py:1338-1362 | Publishing a draft that is already a task finds its reserve stored and changes nothing |
| Tasks.LatestAgrees | src/community_bot/application/assignments.py:1401-1408 | With one holder a slot, the last-entry-wins map finds as many slots of a class as there are assignments of it |
| SlotHistory.OccupiedCountIsExact | src/community_bot/application/assignments.py:1401-1408 | The occupied count equals the assignments not cancelled if and only if each of those is the last of its slot |
| SlotHistory.LoopIsQuery | migrations/versions/0030_repair_moderated_task_statuses.py:26-36 | The one-pass loop leaves for every slot the status of the row the latest-row-per-slot query selects |
| SlotHistory.OrdersSuffice | src/community_bot/infrastructure/db/assignments.py:310-323 | Both the query order and acceptance order list the rows of a slot oldest first |
| SlotHistory.ReadingOrderIrrelevant | src/community_bot/infrastructure/db/assignments.py:310-323 | Reading rows by slot or by acceptance gives the same map |
| SlotHistory.DerivedAsRepaired | migrations/versions/0030_repair_moderated_task_statuses.py:66-86 | The derived status is the one the repair query computes, for every task not cancelled |
| ExchangeCancelled.CancelledStays | src/community_bot/domain/tasks.py:74-105 | A cancelled task stays cancelled through a transaction unless, and only unless, it is a deadline pass at or after the deadline; that pass makes it expired exactly if no slot is paid |
| ExchangeCancelled.CancelledUnlessPassed | migrations/versions/0030_repair_moderated_task_statuses.py:56 | Over any run a cancelled task is still cancelled exactly if no such pass came over it |
| ExchangeCancelled.CancellationIsUndone | src/community_bot/infrastructure/db/assignment_deadlines.py:25-47 | A run on which a task is selected at its deadline, then cancelled by its last performer, then made partially completed by the selected pass |
| Ledger.ApplyOutcome | src/community_bot/application/economy.py:110-143 | A batch either appends exactly its commands under new keys or is recognised as stored and changes nothing |
| Ledger.RedeliveryMovesNothing | src/community_bot/infrastructure/db/economy.py:858-867 | A committed batch applied again, however much later, moves nothing |
| Ledger.ChangedPayloadIsRefused | src/community_bot/infrastructure/db/economy.py:869-876 | A batch that reuses a stored key with another payload is refused |
| Ledger.PostAllKeepsInv | src/community_bot/infrastructure/db/economy.py:259-335 | Posting keeps unique keys, reconciliation, balance snapshots and exact reversals |
| Ledger.GivingBatchPosts | src/community_bot/infrastructure/db/economy.py:277-279 | A batch that takes from nobody cannot fail for lack of balance |
| Ledger.PostKeepsReversals | migrations/versions/0009_moderation.py:414-459 | Each reversal undoes one earlier reversible entry exactly, and no entry is undone twice |
| Ledger.UndoGoesThrough | src/community_bot/infrastructure/db/economy.py:141-257 | Under a new key an entry can be undone exactly if it is no reversal and no leg of a transfer, has not been undone, moved something, and its member still has what it brought; both totals then go back by as much |
| LedgerStore.Store.Lookup | src/community_bot/infrastructure/db/economy.py:199-207 | Finds the stored command of a key, or that there is none |
| LedgerStore.Store.Classify | src/community_bot/infrastructure/db/economy.py:102-139 | Tells stored, new, mixed, conflicting and malformed batches apart |
| LedgerStore.Store.Stage | src/community_bot/infrastructure/db/economy.py:259-305 | Totals and rows of a batch from running totals, or that one would go negative |
| LedgerStore.Store.WriteCaches | src/community_bot/infrastructure/db/economy.py:308-335 | Writes exactly the staged totals over the member caches |
| LedgerStore.Store.ApplyBatch | src/community_bot/infrastructure/db/economy.py:95-100 | The ledger after a batch is what the batch contract says, and is untouched by a refused one |
| ExchangeService.LatestSlots | src/community_bot/application/tasks.py:2665-2669 | The loop builds the map of every slot to its last row |
| ExchangeService.CountSlots | src/community_bot/application/assignments.py:1404-1407 | Counts the slots whose last row is of a class |
| ExchangeService.Rederive | src/community_bot/domain/tasks.py:74-105 | Derives the lifecycle state from the last row of every slot |
| ExchangeService.FindFreeSlot | src/community_bot/infrastructure/db/assignments.py:79-90 | Finds the lowest slot nobody holds |
| ExchangeService.ObsoletePending | src/community_bot/infrastructure/db/task_cancellations.py:377-385 | Marks every pending request and its open responses as lapsed |
| ExchangeService.CollectNoShows | src/community_bot/application/assignments.py:1391-1400 | One refund for each assignment still accepted |
| ExchangeService.MarkNoShows | src/community_bot/application/assignments.py:1420-1434 | Marks every accepted assignment a no-show and leaves the others |
| ExchangeService.DeadlineBatch | src/community_bot/application/assignments.py:1388-1418 | The whole batch of the deadline pass |
| ExchangeService.CountActive | src/community_bot/infrastructure/db/assignments.py:63-72 | Counts the tasks in which a member is active |
| ExchangeService.Service.PublishDraft | src/community_bot/application/tasks.py:1220-1435 | Publishing reserves reward times slots and opens the task; a published draft only repeats its stored reserve, and a refusal changes nothing; the new state is that of the specified step |
| ExchangeService.Service.Register | src/community_bot/domain/economy.py:216-225 | Registration opens an account at zero and books the starting grant, or changes nothing; repeating it changes nothing; the new state is that of the specified step |
| ExchangeService.Service.Economy | src/community_bot/application/economy.py:113-119 | A batch that is not about tasks goes through the batch contract of the ledger, and a refused one leaves everything as it was; the new state is that of the specified step |
| ExchangeService.Service.ResolveCase | src/community_bot/infrastructure/db/moderation.py:353-555 | The first resolution of a dispute settles the assignment as its code says, books reward, remainder or refund, and rederives the task status; the new state is that of the specified step |
| ExchangeService.Service.EditPublished | src/community_bot/application/tasks.py:739-857 | An edit of an unclaimed published task takes over the new terms and books the difference of the reserves under the key of its update; the new state is that of the specified step |
| ExchangeService.Service.AcceptWithTask | src/community_bot/application/assignments.py:400-471 | An accept adds the performer to the lowest slot nobody holds, once every eligibility check and the active limit allow it; the new state is that of the specified step |
| ExchangeService.Service.SubmitResult | src/community_bot/application/assignments.py:933-985 | A submission before the deadline opens the review window and lets the pending request lapse; the new state is that of the specified step |
| ExchangeService.Service.Cancel | src/community_bot/application/assignments.py:830-931 | Leaving cancels the assignment; the last active performer of a closed task also ends it and returns the reserve of the slot; the new state is that of the specified step |
| ExchangeService.Service.Decide | src/community_bot/application/assignments.py:987-1153 | A decision pays in full, in part with the remainder returned, or rejects and opens the dispute window; a repeated one is replayed, a different one refused; the new state is that of the specified step |
| ExchangeService.Service.Dispute | src/community_bot/application/assignments.py:1155-1227 | A dispute within its window marks the rejected assignment as disputed and books nothing; the new state is that of the specified step |
| ExchangeService.Service.CancelTask | src/community_bot/application/tasks.py:1622-1679 | Withdrawing an unclaimed published task before its deadline returns its whole reserve and cancels it; the new state is that of the specified step |
| ExchangeService.Service.RequestCancellation | src/community_bot/application/tasks.py:1681-1800 | Closing intake cancels an unclaimed task, or returns the reserve of the free slots and asks every accepted performer for consent; the new state is that of the specified step |
| ExchangeService.Service.RespondCancellation | src/community_bot/application/tasks.py:1818-1976 | An answer records consent or refusal; consent cancels the assignment, returns its reserve and ends the task when nobody is active; a late or lapsed one changes no money; the new state is that of the specified step |
| ExchangeService.Service.FinalizeReview | src/community_bot/application/assignments.py:1229-1308 | Autoconfirmation pays a submission in full once its review window is over, or hands a community task without a fit reviewer on; the new state is that of the specified step |
| ExchangeService.Service.FinalizeRejection | src/community_bot/application/assignments.py:1310-1371 | A rejection becomes final at the end of its dispute window and the slot reward goes back; the new state is that of the specified step |
| ExchangeService.Service.FinalizeDeadline | src/community_bot/application/assignments.py:1373-1449 | The deadline pass marks every accepted assignment a no-show, returns those rewards and the unfilled slots of a published task in one batch, and rederives the status; the new state is that of the specified step |
| Gates.EveryInterleavingSafe | src/community_bot/application/assignments.py:418-457 | Over every interleaving of statements nobody exceeds the limit, live assignments sit on distinct existing slots, and each cancellation pays back what the locked row says |
| Gates.AcceptDisturbsNobody | src/community_bot/application/assignments.py:418-457 | An accept that commits invalidates no count or free slot another transaction has read |
| Gates.EditDisturbsNobody | src/community_bot/application/tasks.py:739-767 | An edit that commits invalidates no amount a cancellation of the same task has read |
| Gates.NextKeepsRefunds | src/community_bot/application/tasks.py:1630-1665 | The amount read before the row lock is the amount of the locked row at commit |
| Gates.UndisturbedIsAtOnce | src/community_bot/application/assignments.py:418-471 | A transaction whose gates are free and which nobody interrupts does, statement by statement, exactly what it would do at once: take the lowest free slot below the limit, withdraw and refund, store the new reserve and slots, or end the assignment, and nothing if its checks fail |
| Wallet.EveryRunPaired | migrations/versions/0032_wallet_transfers.py:82-116 | After any run every recorded transfer satisfies the pair rule, every leg belongs to one, and no record was altered |
| Wallet.TransfersConserve | src/community_bot/application/wallet.py:96-112 | Any run of transfers preserves total credits |
| Wallet.RepeatMovesNothing | src/community_bot/application/wallet.py:161-175 | Repeating an operation key moves nothing; it is answered exactly when recipient, amount, normalised comment and sender status allow |
| Wallet.FirstTransfer | src/community_bot/application/wallet.py:161-190 | An operation not yet recorded goes through exactly if it is well-formed, both sides are known and active, the sender has earned fifty credits by tasks, and his balance covers the amount |
| Wallet.FirstTransferMoves | src/community_bot/application/wallet.py:176-188 | The amount then moves from the sender to the recipient, nobody else's balance changes, and the operation is recorded under the terms asked for |
| Wallet.RefusedForAReason | src/community_bot/application/wallet.py:85-112 | Every refusal names a reason that is true of the request, the two accounts or the recorded operation |
| Wallet.EarnedIsStanding | src/community_bot/infrastructure/db/wallet.py:31-41 | What counts as earned is the sum of the task rewards that no entry has reversed since |
| Wallet.SentOnce | src/community_bot/application/wallet.py:161-190 | A transfer that succeeded is never made again, whatever happens in between |
| Wallet.LegsStoredIffRecorded | migrations/versions/0032_wallet_transfers.py:82-116 | An operation is recorded exactly when both of its legs are on the ledger |
| Wallet.QuotingTheNote | src/community_bot/application/wallet.py:93-95 | Quoting the stored comment is the same request as the original |
| Wallet.ReversalsNetToZero | migrations/versions/0009_moderation.py:414-459 | After any run of transfers, registrations and other batches, the same holds of every entry of the ledger it leads to |
| WalletService.Service.Transfer | src/community_bot/application/wallet.py:161-190 | The transfer transaction: the new accounts are the specified ones, and a replay is told from a new transfer |
| WalletService.Service.Summary | src/community_bot/infrastructure/db/wallet.py:31-41 | Sums the task credits a member has earned, reversals taken off |
| ExchangeReserved.SummaryShowsEscrow | src/community_bot/infrastructure/db/wallet.py:37-56 | After any run whose batches from outside the task workflows post no reserve, refund or reward, the reserved amount computed from kinds, members and task references is what the tasks the member created hold, reversals counted in; without reversals it is their escrow |
| ExchangeReserved.RunFits | src/community_bot/domain/economy.py:225-330 | After any run every entry about a task has the kind its key stands for, and only member tasks move reserves |
| Cutover.Host.Operate | ops/wallet_cutover.py:621-668 | Any sequence of apply, recover and idle, with any failure or crash at any effect, loses no acknowledged write, swaps at most once and never after the target has run without maintenance |
| Cutover.Host.RecoverStopped | ops/wallet_cutover.py:650-663 | Recovery keeps the invariant from every crash; when its effects complete it ends rolled back or ready |
| Cutover.Host.ApplyPrepared | ops/wallet_cutover.py:647-649 | Applying keeps the invariant and is refused unless the receipt is prepared; if its effects complete and the migrations lead the data frozen at the stop to the target and the clone back, it ends ready, with open writers over exactly the acknowledged data |
| Cutover.Host.Execute | ops/wallet_cutover.py:445-475 | One cutover keeps the invariant through every failure; success means the target runs on exactly the acknowledged data, and when its effects complete and the migrations lead there and back it succeeds |
| Cutover.Host.Transition | ops/wallet_cutover.py:448-461 | Whenever the live head has changed, memory and disk agree that the restore was verified and holds the frozen data; when its effects complete and the migrations lead there and back it succeeds |
| Cutover.Host.Upgrade | ops/wallet_cutover.py:456-461 | The live database is migrated and the target verified in maintenance; if the migration leads the frozen data to the target and the effects complete, this succeeds |
| Cutover.Host.CopyOut | ops/wallet_cutover.py:274-330 | The fingerprint, the dump and the restored database are those of the frozen data, or the step fails; it succeeds when its effects complete |
| Cutover.Host.BackupRestore | ops/wallet_cutover.py:274-353 | Success means the restored database is the frozen one, the receipt proves it, and a clone of it has come back from the rehearsal unchanged |
| Cutover.Host.Rehearse | ops/wallet_cutover.py:332-353 | The rehearsal succeeds only if the clone, migrated forward, is the frozen data under the target schema and, migrated back, the restore again, which itself is left alone |
| Cutover.Host.Promote | ops/wallet_cutover.py:430-440 | The swap happens only onto the checked restore, with both services stopped |
| Cutover.Host.Rollback | ops/wallet_cutover.py:426-442 | Rollback never swaps after open writers, and completes when its effects do |
| Cutover.Host.Abandon | ops/wallet_cutover.py:462-468 | The handler rolls back and reports the failure; when its effects complete the old services run on the source again |
| Cutover.Host.Enable | ops/wallet_cutover.py:469-475 | Writers are enabled only over the verified target, and when the effects complete they are open and the receipt is ready |
| Cutover.Host.Activate | ops/wallet_cutover.py:478-485 | Activation retries once and only moves forward |
| Releases.Host.Retry | ops/release_contract.py:773-969 | However often an operation is killed or fails, a completed retry leaves the current and previous release of the uninterrupted run; and if its checks hold, one attempt for every effect that may still fail, and one more, reach it |
| Releases.StoppingKeepsTheGoal | ops/release_contract.py:773-969 | Stopping anywhere on the way does not change where an operation ends up |
| Releases.Host.Operate | ops/release_contract.py:319-347 | Every durable state reads back, never names a release as its own predecessor, and fits the live head outside a pending cutover |
| Releases.Host.Activate | ops/release_contract.py:773-838 | Activation reaches its goal or stays on the way, changes nothing while another operation is pending, and when its effects complete succeeds exactly if its checks hold |
| Releases.Host.CutOver | ops/release_contract.py:841-920 | The cutover reaches its goal only with the target head and a stored proof, changes nothing while another operation is pending, and when its effects complete succeeds exactly if its checks hold |
| Releases.Host.Rollback | ops/release_contract.py:923-969 | Rollback consumes the previous release without migrating, changes nothing while another operation is pending, and when its effects complete succeeds exactly if its checks hold |
| Releases.RollBackTwice | ops/release_contract.py:923-969 | Two activations and a rollback whose process dies writing the last journal entry: the rollback is complete, and repeating it reports an error |
| Releases.Host.BringForward | ops/release_contract.py:904-918 | The head is migrated only with both services stopped and the proof stored, or recognised as migrated by its proof |
| Releases.Host.Migrate | ops/release_contract.py:914-914 | The migration may only start with both services stopped and the proof on disk |
| Releases.Host.Lifecycle | ops/release_contract.py:723-730 | A running web always has the release of the worker |
| Releases.Host.Preflight | ops/release_contract.py:461-479 | Target, current and live heads agree |
| TaskDrafts.PreviewIsPublishable | src/community_bot/application/tasks.py:2095-2221 | Whatever answers, edits and slot adjustments led there, a draft at preview has every field, slots that match its kind and a reward valid for its size |
| TaskDrafts.RunKeeps | src/community_bot/application/tasks.py:1001-1115 | Every draft has valid answers and is either complete or has answered exactly the questions before its step |
| TaskDrafts.AnswersCountDown | src/community_bot/application/tasks.py:2095-2221 | Every accepted answer strictly shortens the way to the preview |
| TaskDrafts.ElevenAnswersAtMost | src/community_bot/application/tasks.py:2095-2221 | From the first question the preview is reached after exactly ten accepted answers for a solo task and eleven for a group task |
| TaskDrafts.EditsReturn | src/community_bot/application/tasks.py:1001-1070 | An edit of a finished draft is back at the preview within two accepted answers, and within one unless it changes the size or turns solo into group |
| TaskDrafts.AnswerGoesThrough | src/community_bot/application/tasks.py:2095-2221 | An answer is accepted exactly if it fits the question asked, with the bounds of every question written out |
| TaskDrafts.AnswerIsStored | src/community_bot/application/tasks.py:2095-2221 | The field asked for then holds the answer, trimmed, and no other answer has changed but the slots with the kind |
| TaskDrafts.AnswerStands | src/community_bot/application/tasks.py:2095-2221 | Whatever is answered, revisited or adjusted afterwards, an accepted answer stands until the same question is answered again |
| TaskDrafts.AdjustCounts | src/community_bot/application/tasks.py:1072-1115 | A button of the slots question goes through exactly for the draft it was shown for, and sets the slots to the number shown plus the button, never below two |
| TaskDrafts.RevisitAsks | src/community_bot/application/tasks.py:1001-1070 | A question of a draft at preview can be asked again exactly if it has one, and asking changes no answer |
| Receipts.DraftDecodesExactly | src/community_bot/application/reputation.py:758-808 | A stored draft outcome decodes to its step and signed revision exactly when action, actor, target and fingerprint match |
| Receipts.VoteDecodesExactly | src/community_bot/application/reputation.py:811-871 | A stored vote outcome decodes to its signed counts exactly when actor, target and fingerprint match |
| Receipts.KarmaOutcomesApart | src/community_bot/application/reputation.py:758-871 | Neither decoder accepts what the other printer wrote |
| Receipts.CancellationRoundTrip | src/community_bot/application/tasks.py:2036-2061 | Every cancellation outcome decodes to the status, request and reason it was stored for |
| Receipts.PrefixesApart | src/community_bot/application/tasks.py:2039-2046 | No outcome starts with two of the prefixes |
| Codec.SplitJoin | src/community_bot/application/reputation.py:787-789 | Splitting at as many colons as there were undoes joining, whatever the last field contains |
| Codec.UuidRoundTrip | src/community_bot/application/reputation.py:790-791 | A printed identifier parses to itself |
| Codec.IntRoundTrip | src/community_bot/application/reputation.py:793-793 | A printed signed integer parses to itself |

## Left out

- Permissions, member levels, moderation restrictions, test-run scoping and the optimistic edit timestamp: they only refuse more requests.
- Notifications, outbox, audit, reliability and interaction alerts: they move no credits and no task state.
- Result payloads, submission drafts and their versions: only the status and the review window of a submission matter to escrow.
- Appeals, fraud reversals, sanctions and karma moderation: reversals appear only as ledger batches, whose soundness is proved.
- Community reviewer replacement and draft approval by administrators: they change who may decide, not what is decided.
- Template drafts and payload schemas: more steps of the same machine.
- Uniqueness of terminal command ids across assignments: a clash only refuses a decision.
- Changes of the product configuration: the active limit is a constant of a run.
- Levels derived from experience: only the experience totals are kept.
- Escrow.Edit: checks only positive terms and a future deadline; the rules for rewards, slots and texts are those of `TaskDrafts`.
- ExchangeRuns.SettlingRequestsNeverRefused: does not cover closing intake, because a second close with a different amount under the stored key is refused by the ledger.
- ExchangeReserved.SummaryShowsEscrow: is stated for runs in which reserves, refunds and rewards are booked by the task workflows only; the display of negative amounts as zero is not modelled.
- ExchangeLife.DeadlineDrains: states the held amount for member tasks only; community tasks reserve nothing.
- Guarantees.EscrowIdentity: is stated for runs that do not overdraw the task in question, because the two transactions named above break it.
- Guarantees.SettledForGood: is limited to the modelled transactions; an appeal (second version of a case) and a fraud case after payment, src/community_bot/infrastructure/db/moderation.py:353-555, do change a settled assignment.
- ExchangeLife.SettledOnce: is limited in the same way.
- Cutover.Host.Migrate: an interrupted migration either leaves the source revision with its data untouched or leaves anything under another revision; a half-applied revision under the old head is excluded, as the database runs each revision in one transaction.
- Cutover.Host.BackupRestore: fingerprints and digests identify contents, and the schema-specific invariant queries are part of the head.
- Releases.Host.CreateProof: backup and restore drill are represented by their outcome, and the backup file is assumed to stay unchanged.
- Releases.Host.Install: bundle verification and file permissions are represented by the digest naming its manifest.
- Wallet.Transfer: account status is a set of active members, and the recipient search and receipts are not modelled.
- Codec.ParseInt: underscores and surrounding blanks, which the source's integer parser also accepts, are refused; no printed outcome contains them.
- Codec.ParseUuid: the forms prefixed with `urn:` or `uuid:` are refused; a colon cannot occur inside a field.
- TaskDrafts.CleanMaterials: the verdict on links inside public text is an input.
- Gates.Next: models accepting, cancelling, editing and ending assignments; the other workflows take the same gates.
