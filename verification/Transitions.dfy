/**
 The transition table of an assignment: which status may follow which, and when. The table is
 written down independently of the workflows; every transaction is shown to follow it.
 */
module Transitions {
  import opened Wrappers
  import opened Ledger
  import opened Tasks
  import opened Escrow
  import opened EscrowInvariants
  import opened EscrowCreator
  import opened EscrowDeadline
  import opened Exchange
  import opened ExchangeInvariants
  import opened ExchangeRuns
  import opened ExchangeLife

  predicate Passed(at: Option<int>, now: int) {
    at.Some? && now >= at.value
  }

  predicate Reviewable(a: Assignment, now: int) {
    a.status == ReviewerRequired || (a.status == Submitted && !Passed(a.reviewDeadline, now))
  }

  /** What may become of an assignment in one transaction at time `now`. */
  predicate MayBecome(o: Origin, deadline: int, now: int, a: Assignment, b: Assignment) {
    && a.performer == b.performer && a.slot == b.slot
    && (a == b
        || match b.status
           case Submitted =>
             a.status == Accepted && now < deadline
             && b.reviewDeadline == (if a.reviewDeadline.Some? then a.reviewDeadline else Some(now + REVIEW_WINDOW))
           case Cancelled => a.status == Accepted || (a.status == Disputed && o == Member)
           case NoShow => (a.status == Accepted && now >= deadline) || a.status == Disputed
           case PartiallyApproved => Reviewable(a, now) || a.status == Disputed
           case Approved =>
             || (Reviewable(a, now) && b.outcome == Some(Decided(Full)))
             || (a.status == Submitted && Passed(a.reviewDeadline, now) && b.outcome == Some(Autoconfirmed))
             || a.status == Disputed
           case RejectedPendingDispute =>
             Reviewable(a, now) && b.rejectedAt == Some(now) && b.disputeDeadline == Some(now + DISPUTE_WINDOW)
           case ReviewerRequired => o == Community && a.status == Submitted && Passed(a.reviewDeadline, now)
           case Disputed =>
             a.status == RejectedPendingDispute && a.rejectedAt.Some? && a.rejectedAt.value <= now
             && a.disputeDeadline.Some? && now < a.disputeDeadline.value
           case Rejected =>
             (a.status == RejectedPendingDispute && Passed(a.disputeDeadline, now)) || a.status == Disputed
           case Accepted => false)
  }

  /** A new assignment takes the lowest slot nobody holds, in an open task, before its deadline. */
  predicate MayJoin(t: Task, now: int, a: Assignment) {
    && a.status == Accepted && t.status == Published && now < t.deadline
    && 1 <= a.slot <= t.slots && !SlotHeld(t.history, a.slot) && (forall s | 1 <= s < a.slot :: SlotHeld(t.history, s))
    && (forall i | 0 <= i < |t.history| :: t.history[i].performer != a.performer)
    && (t.origin == Member ==> a.performer != t.creator)
  }

  /** What may become of a task in one transaction, by the latest assignments of its slots. */
  predicate TaskMayBecome(now: int, t: Task, u: Task) {
    var active, paid := SlotsOf(u.history, Class.Active), SlotsOf(u.history, Class.Paid);
    u.status == t.status
    || match u.status
       case Published => false
       case ClosedForNewPerformers =>
         t.origin == Member && (t.status == Published || t.status == PartiallyCompleted)
         && now < t.deadline && SlotsOf(t.history, Class.Live) != {} && u.history == t.history
       case TaskCancelled =>
         && t.origin == Member
         && ((t.status == Published && now < t.deadline && SlotsOf(t.history, Class.Live) == {} && u.history == t.history)
             || ((t.status == Published || t.status == ClosedForNewPerformers) && active == {}))
       case Settling => now >= t.deadline && active != {}
       case Completed => active == {} && |paid| == t.slots
       case PartiallyCompleted => active == {} && 0 < |paid| != t.slots
       case Expired => active == {} && |paid| == 0
  }

  ghost predicate Follows(now: int, t: Task, u: Task) {
    && |t.history| <= |u.history| <= |t.history| + 1
    && (forall i | 0 <= i < |t.history| :: MayBecome(t.origin, t.deadline, now, t.history[i], u.history[i]))
    && (|u.history| > |t.history| ==> MayJoin(t, now, u.history[|t.history|]))
  }

  lemma {:induction false} LowerSlotsHeld(h: seq<Assignment>, s: nat, slots: nat)
    ensures FreeSlotFrom(h, s, slots).Some? ==> forall k | s <= k < FreeSlotFrom(h, s, slots).value :: SlotHeld(h, k)
    decreases slots + 1 - s
  {
    if s <= slots && SlotHeld(h, s) {
      LowerSlotsHeld(h, s + 1, slots);
    }
  }

  lemma RequestFollows(w: World, update: UpdateId, r: Request)
    requires r.task in w.tasks && !r.PublishDraft? && RequestEffect(w, update, r).Success?
    ensures Follows(w.now, w.tasks[r.task], RequestEffect(w, update, r).value.task)
  {
    var t := w.tasks[r.task];
    if r.AcceptSlot? {
      hide SlotHeld, FreeSlotFrom;
      LowerSlotsHeld(t.history, 1, t.slots);
    } else {
      hide SlotsOf, LatestBySlot, Derive, FreeSlotFrom, ConsentRequests, WithdrawPending, HasPending, AllAnswered;
    }
  }

  lemma JobFollows(w: World, j: Job)
    requires j.task in w.tasks && JobEffect(w, j).Success?
    ensures Follows(w.now, w.tasks[j.task], JobEffect(w, j).value.task)
  {
    hide DeadlineCommands, Derive, WithdrawPending;
  }

  lemma StayingFollows(now: int, t: Task)
    ensures Follows(now, t, t)
  {
  }

  /** Every transaction moves every assignment of every task along the table. */
  lemma StepFollows(w: World, op: Op, tid: TaskId)
    requires tid in w.tasks
    ensures tid in After(w, op).tasks && Follows(w.now, w.tasks[tid], After(w, op).tasks[tid])
  {
    hide Follows;
    StayingFollows(w.now, w.tasks[tid]);
    if Step(w, op).Success? {
      match op
      case Deliver(update, r) =>
        if update !in w.receipts && !r.PublishDraft? && r.task == tid {
          RequestFollows(w, update, r);
        }
      case Perform(j) =>
        if j.task == tid {
          JobFollows(w, j);
        }
      case _ =>
    }
  }

  // ---------- the status of the task ----------

  lemma DerivedMayBecome(now: int, t: Task, x: Task)
    requires x.status == t.status && x.slots == t.slots && x.deadline == t.deadline
    requires Aggregated(x, now).status == Published ==> t.status == Published
    ensures TaskMayBecome(now, t, Aggregated(x, now))
  {
    hide SlotsOf, LatestBySlot;
  }

  lemma RequestMovesTask(w: World, update: UpdateId, r: Request)
    requires r.task in w.tasks && !r.PublishDraft? && RequestEffect(w, update, r).Success?
    requires TaskInv(w.book.entries, r.task, w.tasks[r.task], w.now)
    ensures TaskMayBecome(w.now, w.tasks[r.task], RequestEffect(w, update, r).value.task)
  {
    hide TaskInv, RequestEffect, TaskMayBecome, SlotsOf;
    Unclaimed(w.book.entries, r.task, w.tasks[r.task], w.now);
    RequestStaysClosed(w, update, r);
    if r.Review? {
      ReviewMovesTask(w, update, r);
    } else {
      OtherRequestMovesTask(w, update, r);
    }
  }

  lemma Unclaimed(entries: seq<Entry>, tid: TaskId, t: Task, now: int)
    requires TaskInv(entries, tid, t, now)
    ensures SlotsOf(t.history, Class.Live) == {} <==> forall i | 0 <= i < |t.history| :: t.history[i].status == Cancelled
    ensures t.status == PartiallyCompleted ==> SlotsOf(t.history, Class.Live) != {}
  {
    assert Shape(t) && (t.status == PartiallyCompleted ==> Count(t.history, Class.Paid) > 0);
    hide TaskInv, SlotsOf, Shape, Count;
    NobodyHolds(t);
    CountSplits(t.history);
  }

  lemma RequestStaysClosed(w: World, update: UpdateId, r: Request)
    requires r.task in w.tasks && !r.PublishDraft? && RequestEffect(w, update, r).Success?
    requires TaskInv(w.book.entries, r.task, w.tasks[r.task], w.now)
    ensures RequestEffect(w, update, r).value.task.status == Published ==> w.tasks[r.task].status == Published
  {
    hide TaskInv, RequestEffect;
    RequestMovesOnward(w, update, r);
  }

  lemma OtherRequestMovesTask(w: World, update: UpdateId, r: Request)
    requires r.task in w.tasks && !r.PublishDraft? && !r.Review? && RequestEffect(w, update, r).Success?
    requires SlotsOf(w.tasks[r.task].history, Class.Live) == {} <==>
               forall i | 0 <= i < |w.tasks[r.task].history| :: w.tasks[r.task].history[i].status == Cancelled
    requires w.tasks[r.task].status == PartiallyCompleted ==> SlotsOf(w.tasks[r.task].history, Class.Live) != {}
    ensures TaskMayBecome(w.now, w.tasks[r.task], RequestEffect(w, update, r).value.task)
  {
    hide SlotsOf, LatestBySlot, Derive, FreeSlotFrom, SlotHeld, ConsentRequests, WithdrawPending, HasPending, AllAnswered, ActiveTasks;
  }

  lemma ReviewMovesTask(w: World, update: UpdateId, r: Request)
    requires r.task in w.tasks && r.Review? && RequestEffect(w, update, r).Success?
    requires RequestEffect(w, update, r).value.task.status == Published ==> w.tasks[r.task].status == Published
    ensures TaskMayBecome(w.now, w.tasks[r.task], RequestEffect(w, update, r).value.task)
  {
    hide SlotsOf, LatestBySlot, Aggregated;
    var t, i := w.tasks[r.task], r.index;
    if (t.history[i].status == Submitted || t.history[i].status == ReviewerRequired) && r.decision != Reject {
      var decided := t.history[i].(status := DecidedStatus(r.decision), outcome := Some(Decided(r.decision)), command := Some(r.command));
      DerivedMayBecome(w.now, t, WithAssignment(t, i, decided));
    }
  }

  lemma JobMovesTask(w: World, j: Job)
    requires j.task in w.tasks && JobEffect(w, j).Success?
    requires TaskInv(w.book.entries, j.task, w.tasks[j.task], w.now)
    ensures TaskMayBecome(w.now, w.tasks[j.task], JobEffect(w, j).value.task)
  {
    JobStaysClosed(w, j);
    hide TaskInv, SlotsOf, LatestBySlot, Aggregated, WithdrawPending, NoShows, DeadlineCommands;
    var t := w.tasks[j.task];
    match j
    case DeadlineDue(tid, cid) =>
      DerivedMayBecome(w.now, t, Obsoleted(t).(history := NoShows(t.history, cid)));
    case ReviewDue(tid, i, cid, fit) =>
      if t.history[i].status == Submitted && !(t.origin == Community && !fit) {
        DerivedMayBecome(w.now, t, WithAssignment(t, i, t.history[i].(status := Approved, outcome := Some(Autoconfirmed), command := Some(cid))));
      }
    case RejectionDue(tid, i, cid) =>
      if t.history[i].status == RejectedPendingDispute {
        DerivedMayBecome(w.now, t, WithAssignment(t, i, t.history[i].(status := Rejected, outcome := Some(RejectionFinal), command := Some(cid))));
      }
    case ResolveCase(tid, i, code, cid) =>
      DerivedMayBecome(w.now, t, WithAssignment(t, i, t.history[i].(status := ResolvedStatus(code), outcome := Some(Resolved(code)), command := Some(cid))));
  }

  /** Every transaction moves every task's status along its table, too. */
  lemma StepMovesTask(w: World, op: Op, tid: TaskId)
    requires TasksSound(w) && tid in w.tasks
    ensures tid in After(w, op).tasks && TaskMayBecome(w.now, w.tasks[tid], After(w, op).tasks[tid])
  {
    assert TaskInv(w.book.entries, tid, w.tasks[tid], w.now);
    hide TaskInv, TasksSound;
    if Step(w, op).Success? {
      match op
      case Deliver(update, r) =>
        if update !in w.receipts && !r.PublishDraft? && r.task == tid {
          RequestMovesTask(w, update, r);
        }
      case Perform(j) =>
        if j.task == tid {
          JobMovesTask(w, j);
        }
      case _ =>
    }
  }

  // ---------- what the table means over time ----------

  predicate Unpaid(s: AssignmentStatus) {
    s == Accepted || s == NoShow || s == Cancelled
  }

  /** Whoever has not submitted by the deadline is never paid: in every later world, whatever the
      run, the assignment is still waiting, a no-show, or cancelled. */
  lemma {:induction false} LateIsNeverPaid(w: World, ops: seq<Op>, tid: TaskId, i: nat)
    requires tid in w.tasks && i < |w.tasks[tid].history|
    requires w.now >= w.tasks[tid].deadline && Unpaid(w.tasks[tid].history[i].status)
    ensures var v := Run(w, ops);
            && tid in v.tasks && i < |v.tasks[tid].history| && Unpaid(v.tasks[tid].history[i].status)
            && v.now >= v.tasks[tid].deadline
  {
    if ops != [] {
      LateIsNeverPaid(w, ops[..|ops| - 1], tid, i);
      hide Unpaid, After;
      LateStep(Run(w, ops[..|ops| - 1]), ops[|ops| - 1], tid, i);
    }
  }

  lemma LateStep(w: World, op: Op, tid: TaskId, i: nat)
    requires tid in w.tasks && i < |w.tasks[tid].history|
    requires w.now >= w.tasks[tid].deadline && Unpaid(w.tasks[tid].history[i].status)
    ensures var v := After(w, op);
            && tid in v.tasks && i < |v.tasks[tid].history| && Unpaid(v.tasks[tid].history[i].status)
            && v.now >= v.tasks[tid].deadline
  {
    hide Step, After, MayJoin;
    StepFollows(w, op, tid);
    ClockAndDeadline(w, op, tid);
    UnpaidStays(w.tasks[tid].origin, w.tasks[tid].deadline, w.now, w.tasks[tid].history[i], After(w, op).tasks[tid].history[i]);
  }

  lemma UnpaidStays(o: Origin, deadline: int, now: int, a: Assignment, b: Assignment)
    requires MayBecome(o, deadline, now, a, b) && Unpaid(a.status) && now >= deadline
    ensures Unpaid(b.status)
  {
  }

  /** The clock never runs backwards, and a deadline that has passed is not moved. */
  lemma ClockAndDeadline(w: World, op: Op, tid: TaskId)
    requires tid in w.tasks && w.now >= w.tasks[tid].deadline
    ensures After(w, op).now >= w.now && tid in After(w, op).tasks
    ensures After(w, op).tasks[tid].deadline == w.tasks[tid].deadline
    ensures SameOwner(w.tasks[tid], After(w, op).tasks[tid])
  {
    if Step(w, op).Success? {
      match op
      case Deliver(update, r) =>
        if update !in w.receipts && !r.PublishDraft? && r.task == tid {
          RequestTouches(w, update, r);
          DeadlineStaysRequest(w, update, r);
        }
      case Perform(j) =>
        if j.task == tid {
          JobTouches(w, j);
          DeadlineStaysJob(w, j);
        }
      case _ =>
    }
  }

  lemma DeadlineStaysRequest(w: World, update: UpdateId, r: Request)
    requires r.task in w.tasks && !r.PublishDraft? && RequestEffect(w, update, r).Success?
    requires w.now >= w.tasks[r.task].deadline
    ensures RequestEffect(w, update, r).value.task.deadline == w.tasks[r.task].deadline
  {
    hide SlotsOf, Derive, ConsentRequests, WithdrawPending, AllAnswered, FreeSlotFrom, SlotHeld;
  }

  lemma DeadlineStaysJob(w: World, j: Job)
    requires j.task in w.tasks && JobEffect(w, j).Success?
    ensures JobEffect(w, j).value.task.deadline == w.tasks[j.task].deadline
  {
    hide DeadlineCommands, Derive, WithdrawPending;
  }

  /** Once the review window of a submitted result has closed, its creator can no longer reject or
      cut it: in every later world of a run on a member task it is submitted or paid in full. */
  lemma {:induction false} SilenceApproves(w: World, ops: seq<Op>, tid: TaskId, i: nat)
    requires tid in w.tasks && i < |w.tasks[tid].history| && w.tasks[tid].origin == Member
    requires w.tasks[tid].history[i].status == Submitted && Passed(w.tasks[tid].history[i].reviewDeadline, w.now)
    ensures var v := Run(w, ops);
            && tid in v.tasks && i < |v.tasks[tid].history| && v.tasks[tid].origin == Member && v.now >= w.now
            && (v.tasks[tid].history[i] == w.tasks[tid].history[i]
                || (v.tasks[tid].history[i].status == Approved && v.tasks[tid].history[i].outcome == Some(Autoconfirmed)))
  {
    if ops != [] {
      var front, op := ops[..|ops| - 1], ops[|ops| - 1];
      SilenceApproves(w, front, tid, i);
      var v := Run(w, front);
      hide Run;
      StepFollows(v, op, tid);
      ClockRuns(v, op, tid);
      hide Step;
    }
  }

  lemma ClockRuns(w: World, op: Op, tid: TaskId)
    requires tid in w.tasks
    ensures After(w, op).now >= w.now && tid in After(w, op).tasks
    ensures SameOwner(w.tasks[tid], After(w, op).tasks[tid])
  {
    if Step(w, op).Success? {
      match op
      case Deliver(update, r) =>
        if update !in w.receipts && !r.PublishDraft? && r.task == tid {
          RequestTouches(w, update, r);
        }
      case Perform(j) =>
        if j.task == tid {
          JobTouches(w, j);
        }
      case _ =>
    }
  }
}
