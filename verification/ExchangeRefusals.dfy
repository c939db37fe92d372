/**
 Why a transaction is refused: the reason it is refused for is always true of the world it meets.
 */
module ExchangeRefusals {
  import opened Wrappers
  import opened Ledger
  import opened Tasks
  import opened Escrow
  import opened EscrowInvariants
  import opened Exchange
  import opened ExchangeInvariants
  import opened ExchangeRuns
  import opened Transitions
  import opened ExchangeOutcomes
  import opened ExchangeTerms

  function IndexOfRequest(r: Request): Option<nat> {
    match r
    case SubmitResult(_, i) => Some(i)
    case LeaveSlot(_, i) => Some(i)
    case Review(_, i, _, _) => Some(i)
    case OpenDispute(_, i) => Some(i)
    case _ => None
  }

  /** What a refusal of a request says about the task it names, and the assignment in it. */
  ghost predicate TrueOf(w: World, t: Task, r: Request, e: Refusal) {
    var i := IndexOfRequest(r);
    match e
    case AwaitingConsent => HasPending(t)
    case AlreadyPerformer => r.AcceptSlot? && exists k | 0 <= k < |t.history| :: t.history[k].performer == r.performer
    case NotPublished => t.status != Published
    case OwnTask => r.AcceptSlot? && t.origin == Member && t.creator == r.performer
    case DeadlinePassed => w.now >= t.deadline
    case ActiveLimitReached => r.AcceptSlot? && |ActiveTasks(w.tasks, r.performer)| >= w.limit
    case NoFreeSlot => Count(t.history, Live) >= t.slots
    case UnknownMember => r.AcceptSlot? && r.performer !in w.book.credit
    case UnknownAssignment => i.Some? && i.value >= |t.history|
    case WrongAssignmentState =>
      && i.Some? && i.value < |t.history|
      && (r.SubmitResult? || r.LeaveSlot? ==> t.history[i.value].status != Accepted)
      && (r.Review? ==> t.history[i.value].status in {Accepted, Disputed, Rejected, Cancelled, NoShow})
      && (r.OpenDispute? ==>
            t.history[i.value].status != RejectedPendingDispute || t.history[i.value].rejectedAt.None?
            || t.history[i.value].disputeDeadline.None?)
    case ReviewWindowClosed =>
      && i.Some? && i.value < |t.history|
      && (r.Review? ==> Passed(t.history[i.value].reviewDeadline, w.now))
      && (r.OpenDispute? ==> !Passed(t.history[i.value].rejectedAt, w.now) || Passed(t.history[i.value].disputeDeadline, w.now))
    case OtherOutcome =>
      r.Review? && r.index < |t.history| && t.history[r.index].status in {Approved, PartiallyApproved, RejectedPendingDispute}
      && !DecidedAs(t.history[r.index], r.decision, r.command)
    case RewardTooSmall => r.Review? && r.decision == Partial && t.reward < 2
    case CommunityTask => t.origin == Community
    case WrongTaskState => t.status != Published || w.now >= t.deadline
    case HasPerformer => exists k | 0 <= k < |t.history| :: t.history[k].status != Cancelled
    case NoFreeSlotsToRelease => t.status == PartiallyCompleted && Count(t.history, Live) >= t.slots
    case InvalidEdit => r.EditTerms? && (r.reward == 0 || r.slots == 0 || r.deadline <= w.now)
    case RequestInactive => r.Respond? && !Awaited(t, r.request, r.response)
    case LedgerRefused(InsufficientBalance) =>
      r.EditTerms? && t.creator in w.book.credit && w.book.credit[t.creator] + t.reserved < r.reward * r.slots
    case LedgerRefused(PayloadConflict) =>
      r.CloseIntake? && HasKey(w.book.entries, CloseRefund(r.task)) && !Recorded(w.book.entries, CloseRefundOf(r.task, t))
    case _ => false
  }

  lemma AssignmentRefuses(w: World, u: UpdateId, r: Request)
    requires !r.PublishDraft? && r.task in w.tasks && RequestEffect(w, u, r).Failure?
    requires r.SubmitResult? || r.LeaveSlot? || r.Review? || r.OpenDispute?
    ensures TrueOf(w, w.tasks[r.task], r, RequestEffect(w, u, r).error)
  {
    hide ActiveTasks, Count, SlotsOf, FreeSlotFrom, SlotHeld, Aggregated, DecisionCommands, Answered, Withdraw, WithdrawPending, HasKey, Recorded, FreeSlots, ConsentRequests, AllAnswered, HasPending, CloseRefundOf;
  }

  lemma TaskRefuses(w: World, u: UpdateId, r: Request)
    requires !r.PublishDraft? && r.task in w.tasks && RequestEffect(w, u, r).Failure?
    requires r.EditTerms? || r.WithdrawTask? || r.Respond?
    ensures TrueOf(w, w.tasks[r.task], r, RequestEffect(w, u, r).error)
  {
    hide ActiveTasks, Count, SlotsOf, FreeSlotFrom, SlotHeld, Aggregated, DecisionCommands, Answered, Withdraw, WithdrawPending, HasKey, Recorded, FreeSlots, ConsentRequests, AllAnswered, HasPending, CloseRefundOf;
  }

  lemma SlotRefuses(w: World, u: UpdateId, r: Request)
    requires !r.PublishDraft? && r.task in w.tasks && RequestEffect(w, u, r).Failure?
    requires r.AcceptSlot? || r.CloseIntake?
    requires FreeSlotFrom(w.tasks[r.task].history, 1, w.tasks[r.task].slots).Some? <==> Count(w.tasks[r.task].history, Live) < w.tasks[r.task].slots
    requires FreeSlots(w.tasks[r.task]) == w.tasks[r.task].slots - Count(w.tasks[r.task].history, Live)
    requires w.tasks[r.task].status == Published || w.tasks[r.task].status == PartiallyCompleted ==> !HasPending(w.tasks[r.task])
    ensures TrueOf(w, w.tasks[r.task], r, RequestEffect(w, u, r).error)
  {
    hide ActiveTasks, Count, SlotsOf, FreeSlotFrom, SlotHeld, Aggregated, DecisionCommands, Answered, Withdraw, WithdrawPending, HasKey, Recorded, FreeSlots, ConsentRequests, AllAnswered, HasPending, CloseRefundOf;
  }

  lemma WorkflowRefuses(w: World, u: UpdateId, r: Request)
    requires WorldInv(w) && r.task in w.tasks && !r.PublishDraft? && RequestEffect(w, u, r).Failure?
    ensures TrueOf(w, w.tasks[r.task], r, RequestEffect(w, u, r).error)
  {
    hide WorldInv, TaskInv, Grounded, BookInv, RequestEffect, TrueOf, HasPending, Count, FreeSlotFrom, FreeSlots;
    if r.AcceptSlot? || r.CloseIntake? {
      Facts(w, r.task);
      FreeIsUnheld(w.book.entries, r.task, w.tasks[r.task], w.now);
      FreeSlotExists(w.tasks[r.task], w.now, w.book.entries, r.task);
      SlotRefuses(w, u, r);
    } else if r.EditTerms? || r.WithdrawTask? || r.Respond? {
      TaskRefuses(w, u, r);
    } else {
      AssignmentRefuses(w, u, r);
    }
  }

  lemma OneRefused(b: Book, c: Command)
    requires BookInv(b) && ValidCommand(c) && c.reversed.None? && !HasKey(b.entries, c.key) && c.member in b.credit
    ensures Settle(b, [c]).Failure? ==> Settle(b, [c]).error == LedgerRefused(InsufficientBalance)
  {
    assert c.member in b.credit.Keys;
    hide BookInv, ValidCommand, HasKey, Apply;
    OneApplies(b, c);
  }

  lemma StoredRefused(b: Book, c: Command)
    requires ValidCommand(c) && HasKey(b.entries, c.key)
    ensures Settle(b, [c]).Failure? ==> Settle(b, [c]).error == LedgerRefused(PayloadConflict) && !Recorded(b.entries, c)
  {
    hide ValidCommand, HasKey, Recorded;
    assert [c][0] == c;
    assert !AllNew(b.entries, [c]) && AllStored(b.entries, [c]);
  }

  lemma EditRefused(w: World, u: UpdateId, r: Request)
    requires WorldInv(w) && u !in w.receipts && r.EditTerms? && r.task in w.tasks && RequestEffect(w, u, r).Success?
    requires Step(w, Deliver(u, r)).Failure?
    ensures TrueOf(w, w.tasks[r.task], r, Step(w, Deliver(u, r)).error)
  {
    hide WorldInv, BookInv, TaskInv, Grounded, HasKey, Settle;
    var t := w.tasks[r.task];
    EditGoesThrough(w, u, r.task, r.reward, r.slots, r.deadline);
    EditKeysAreNew(w, u, r.task);
    Owed(w, r.task);
    Facts(w, r.task);
    var delta := r.reward * r.slots - t.reserved;
    if delta > 0 {
      OneRefused(w.book, Reserve(t.creator, delta, EditReserve(r.task, u)));
    } else if delta < 0 {
      OneRefused(w.book, Refund(t.creator, -delta, EditRefund(r.task, u)));
    } else {
      SettleNothing(w.book);
    }
  }

  lemma CloseRefused(w: World, u: UpdateId, r: Request)
    requires WorldInv(w) && u !in w.receipts && r.CloseIntake? && r.task in w.tasks && RequestEffect(w, u, r).Success?
    requires Step(w, Deliver(u, r)).Failure?
    ensures TrueOf(w, w.tasks[r.task], r, Step(w, Deliver(u, r)).error)
  {
    hide WorldInv, BookInv, TaskInv, Grounded, HasKey, Recorded, Settle, RequestCancellation, FreeSlots, Count;
    var tid, t := r.task, w.tasks[r.task];
    CloseGoesThrough(w, u, tid);
    Owed(w, tid);
    Facts(w, tid);
    CloseEffect(w.book.entries, tid, t, w.now);
    FreeIsUnheld(w.book.entries, tid, t, w.now);
    SettleNothing(w.book);
    if t.status == PartiallyCompleted {
      StoredRefused(w.book, CloseRefundOf(tid, t));
    }
  }

  /** Every refused request is refused for a true reason: an unknown draft, task, assignment or member, terms
      that are not positive, a state or a time that does not allow it, another outcome, a limit, or a balance
      that does not suffice. Nothing that settles is ever refused by the ledger. */
  lemma RefusedForAReason(w: World, u: UpdateId, r: Request)
    requires WorldInv(w) && Step(w, Deliver(u, r)).Failure?
    ensures var e := Step(w, Deliver(u, r)).error;
            if r.PublishDraft? then PublishReason(w, r.task, e)
            else if r.task !in w.tasks then e == UnknownTask
            else TrueOf(w, w.tasks[r.task], r, e)
  {
    hide WorldInv, TrueOf, RequestEffect, Publish, Settle, PublishReason;
    if r.PublishDraft? {
      PublishRefused(w, u, r.task);
    } else if r.task in w.tasks {
      if RequestEffect(w, u, r).Failure? {
        WorkflowRefuses(w, u, r);
      } else if r.EditTerms? {
        EditRefused(w, u, r);
      } else if r.CloseIntake? {
        CloseRefused(w, u, r);
      } else if SettlesSomething(r) {
        SettlingRequestsNeverRefused(w, u, r);
      } else {
        BooksNothing(w, u, r);
        SettleNothing(w.book);
      }
    }
  }

  lemma BooksNothing(w: World, u: UpdateId, r: Request)
    requires (r.AcceptSlot? || r.SubmitResult? || r.OpenDispute?) && r.task in w.tasks && RequestEffect(w, u, r).Success?
    ensures RequestEffect(w, u, r).value.commands == []
  {
    hide FreeSlotFrom, ActiveTasks, HasPending, WithdrawPending;
  }

  ghost predicate PublishReason(w: World, tid: TaskId, e: Refusal) {
    match e
    case UnknownTask => tid !in w.drafts
    case InvalidDraft => tid in w.drafts && (w.drafts[tid].reward == 0 || w.drafts[tid].slots == 0 || w.drafts[tid].deadline <= w.now)
    case UnknownMember => tid in w.drafts && w.drafts[tid].creator !in w.book.credit
    case LedgerRefused(InsufficientBalance) =>
      && tid in w.drafts && tid !in w.tasks && w.drafts[tid].origin == Member && w.drafts[tid].creator in w.book.credit
      && w.book.credit[w.drafts[tid].creator] < w.drafts[tid].reward * w.drafts[tid].slots
    case _ => false
  }

  lemma PublishRefused(w: World, u: UpdateId, tid: TaskId)
    requires WorldInv(w) && Step(w, Deliver(u, PublishDraft(tid))).Failure?
    ensures PublishReason(w, tid, Step(w, Deliver(u, PublishDraft(tid))).error)
  {
    hide Settle, BookInv, Owned, RightPeople, Grounded, HasKey, AllRecorded, TasksSound, WithinLimit;
    PublishGoesThrough(w, u, tid);
    if tid in w.drafts && w.drafts[tid].creator in w.book.credit {
      var d := w.drafts[tid];
      if d.reward > 0 && d.slots > 0 && d.deadline > w.now {
        Times(d.reward, 1, d.slots);
        NewReserveIsNew(w, tid);
        OneRefused(w.book, Reserve(d.creator, d.reward * d.slots, PublishReserve(tid)));
      }
    }
  }

  /** What a refusal of scheduled or moderation work says about the task and the assignment it is about. */
  ghost predicate JobReason(w: World, j: Job, e: Refusal) {
    match e
    case UnknownTask => j.task !in w.tasks
    case UnknownAssignment => j.task in w.tasks && !j.DeadlineDue? && j.index >= |w.tasks[j.task].history|
    case WrongAssignmentState =>
      j.task in w.tasks && j.ResolveCase? && j.index < |w.tasks[j.task].history| && w.tasks[j.task].history[j.index].status != Disputed
    case CodeNotApplicable =>
      j.task in w.tasks && j.ResolveCase? && w.tasks[j.task].origin == Community && j.code in {CreatorAbuse, CancelWithoutFault}
    case TooEarly =>
      && j.task in w.tasks && !j.ResolveCase?
      && (j.DeadlineDue? ==> w.now < w.tasks[j.task].deadline)
      && (j.ReviewDue? ==> j.index < |w.tasks[j.task].history| && !Passed(w.tasks[j.task].history[j.index].reviewDeadline, w.now))
      && (j.RejectionDue? ==> j.index < |w.tasks[j.task].history| && !Passed(w.tasks[j.task].history[j.index].disputeDeadline, w.now))
    case _ => false
  }

  /** So is every refused job and resolution; the ledger never refuses one. */
  lemma JobRefusedForAReason(w: World, j: Job)
    requires WorldInv(w) && Step(w, Perform(j)).Failure?
    ensures JobReason(w, j, Step(w, Perform(j)).error)
  {
    hide WorldInv, Aggregated, DeadlineCommands, ResolutionCommands, NoShows, WithdrawPending, Settle;
    if j.task in w.tasks && JobEffect(w, j).Success? {
      JobsNeverRefused(w, j);
    }
  }
}
