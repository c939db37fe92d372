/**
 Whether a cancelled task stays cancelled. It does not when a deadline pass reaches it: the pass
 rederives the status whatever it is. The query for due tasks leaves cancelled ones out, so this
 takes a race, in which the last performer leaves between the query and the pass.
 */
module ExchangeCancelled {
  import opened Wrappers
  import opened Ledger
  import opened Tasks
  import opened Escrow
  import opened EscrowInvariants
  import opened EscrowSteps
  import opened EscrowPerformer
  import opened EscrowCreator
  import opened EscrowDeadline
  import opened Exchange
  import opened ExchangeInvariants
  import opened ExchangeRuns
  import opened ExchangeDelivery
  import opened ExchangeLife
  import opened Transitions
  import opened ExchangeIdle
  import opened ExchangeWitness

  /** The tasks the scheduler selects for a deadline pass. */
  predicate Selected(t: Task, now: int) {
    && t.deadline <= now
    && (t.status == Published || t.status == ClosedForNewPerformers
        || (t.status == Settling && exists i | 0 <= i < |t.history| :: t.history[i].status == Accepted))
  }

  predicate PassesDeadline(w: World, op: Op, tid: TaskId)
    requires tid in w.tasks
  {
    op.Perform? && op.job.DeadlineDue? && op.job.task == tid && w.now >= w.tasks[tid].deadline
  }

  /** What a deadline pass makes of a task with nobody active. */
  function StatusWhenOver(t: Task): TaskStatus {
    if Count(t.history, Paid) == 0 then Expired
    else if Count(t.history, Paid) == t.slots then Completed
    else PartiallyCompleted
  }

  ghost predicate NobodyActive(t: Task) {
    forall i | 0 <= i < |t.history| :: !Is(Class.Active, t.history[i].status)
  }

  lemma EndedHasNobody(w: World, tid: TaskId)
    requires WorldInv(w) && tid in w.tasks && IsFinal(w.tasks[tid].status)
    ensures NobodyActive(w.tasks[tid]) && Shape(w.tasks[tid]) && Consent(w.tasks[tid])
    ensures Count(w.tasks[tid].history, Class.Active) == 0
  {
    hide WorldInv, TaskInv, BookInv, Grounded;
    Facts(w, tid);
    ShapeOf(w.book.entries, tid, w.tasks[tid], w.now);
    CountWitness(w.tasks[tid].history, Class.Active);
  }

  lemma RequestLeavesCancelled(w: World, update: UpdateId, r: Request)
    requires r.task in w.tasks && w.tasks[r.task].status == TaskCancelled
    requires NobodyActive(w.tasks[r.task]) && Consent(w.tasks[r.task])
    requires !r.PublishDraft? && RequestEffect(w, update, r).Success?
    ensures RequestEffect(w, update, r).value.task.status == TaskCancelled
  {
    hide SlotsOf, Derive, ConsentRequests, WithdrawPending, AllAnswered, FreeSlotFrom, SlotHeld, ActiveTasks;
    if r.Respond? {
      assert r.request < |w.tasks[r.task].requests| && r.response < |w.tasks[r.task].requests[r.request].responses|;
      assert ResponseSound(w.tasks[r.task], r.request, r.response);
    }
  }

  lemma JobLeavesCancelled(w: World, j: Job)
    requires j.task in w.tasks && w.tasks[j.task].status == TaskCancelled && NobodyActive(w.tasks[j.task])
    requires JobEffect(w, j).Success? && !j.DeadlineDue?
    ensures JobEffect(w, j).value.task.status == TaskCancelled
  {
    hide Derive;
  }

  /** Rederiving a task nobody is active in depends on who has been paid alone. */
  lemma DerivedWhenOver(t: Task, u: Task, now: int, cid: nat)
    requires Shape(t) && NobodyActive(t) && Count(t.history, Class.Active) == 0 && t.status != Published
    requires u == Obsoleted(t).(history := NoShows(t.history, cid))
    ensures Aggregated(u, now).status == StatusWhenOver(t) && u.history == t.history
  {
    assert forall i | 0 <= i < |t.history| :: t.history[i].status != Accepted;
    assert NoShows(t.history, cid) == t.history;
    LatestAgrees(t.history, Class.Active);
    LatestAgrees(t.history, Paid);
    hide Shape, SlotsOf, LatestBySlot, Count, NoShows, WithdrawPending;
    assert |SlotsOf(t.history, Class.Active)| == 0 ==> SlotsOf(t.history, Class.Active) == {};
  }

  lemma PassOverEnded(w: World, op: Op, tid: TaskId)
    requires WorldInv(w) && tid in w.tasks && IsFinal(w.tasks[tid].status) && PassesDeadline(w, op, tid)
    ensures var v := After(w, op);
            && tid in v.tasks && v.now == w.now
            && v.tasks[tid].status == StatusWhenOver(w.tasks[tid])
            && v.tasks[tid].history == w.tasks[tid].history && SameTerms(w.tasks[tid], v.tasks[tid])
  {
    hide WorldInv, Settle, Aggregated, DeadlineCommands, NoShows, NobodyActive, Shape, Consent, Count, WithdrawPending;
    var t, cid := w.tasks[tid], op.job.command;
    EndedHasNobody(w, tid);
    JobsNeverRefused(w, op.job);
    DerivedWhenOver(t, Obsoleted(t).(history := NoShows(t.history, cid)), w.now, cid);
    PassTerms(t, w.now, cid);
  }

  /** A cancelled task stays cancelled through every transaction but a deadline pass at or after its
      deadline; that pass makes it expired exactly if none of its slots has been paid. */
  lemma CancelledStays(w: World, op: Op, tid: TaskId)
    requires WorldInv(w) && tid in w.tasks && w.tasks[tid].status == TaskCancelled
    ensures tid in After(w, op).tasks
    ensures After(w, op).tasks[tid].status != TaskCancelled <==>
            op.Perform? && op.job.DeadlineDue? && op.job.task == tid && w.now >= w.tasks[tid].deadline
    ensures PassesDeadline(w, op, tid) ==> After(w, op).tasks[tid].status == StatusWhenOver(w.tasks[tid])
  {
    hide WorldInv, Settle, RequestEffect, NobodyActive, Shape, Consent;
    if PassesDeadline(w, op, tid) {
      PassOverEnded(w, op, tid);
    } else {
      EndedHasNobody(w, tid);
      PartsOf(w);
      if !Concerns(op, tid) || Step(w, op).Failure? {
        Bystander(w, op, tid);
      } else {
        match op
        case Deliver(update, r) =>
          if update !in w.receipts {
            RequestLeavesCancelled(w, update, r);
          }
        case Perform(j) =>
          if !j.DeadlineDue? {
            hide JobEffect;
            JobLeavesCancelled(w, j);
          }
      }
    }
  }

  // ---------- over a whole run ----------

  predicate PassesAt(w: World, ops: seq<Op>, k: nat, tid: TaskId)
    requires k < |ops|
  {
    tid in Run(w, ops[..k]).tasks && PassesDeadline(Run(w, ops[..k]), ops[k], tid)
  }

  predicate PassesDuring(w: World, ops: seq<Op>, tid: TaskId) {
    exists k | 0 <= k < |ops| :: PassesAt(w, ops, k, tid)
  }

  lemma PassesBack(w: World, ops: seq<Op>, tid: TaskId)
    requires ops != [] && tid in Run(w, ops[..|ops| - 1]).tasks
    ensures PassesDuring(w, ops, tid) <==>
            PassesDuring(w, ops[..|ops| - 1], tid) || PassesDeadline(Run(w, ops[..|ops| - 1]), ops[|ops| - 1], tid)
  {
    hide PassesDeadline, Run;
    var n := |ops| - 1;
    var front := ops[..n];
    forall k | 0 <= k < n
      ensures PassesAt(w, ops, k, tid) <==> PassesAt(w, front, k, tid)
    {
      assert front[..k] == ops[..k] && front[k] == ops[k];
    }
    assert PassesAt(w, ops, n, tid) <==> PassesDeadline(Run(w, front), ops[n], tid);
    if PassesDuring(w, front, tid) {
      var k :| 0 <= k < n && PassesAt(w, front, k, tid);
      assert PassesAt(w, ops, k, tid);
    }
    if PassesDuring(w, ops, tid) {
      var k :| 0 <= k < |ops| && PassesAt(w, ops, k, tid);
      assert k < n ==> PassesAt(w, front, k, tid);
    }
  }

  /** Rederived once, a task past its deadline is never cancelled again. */
  ghost predicate OverForGood(w: World, tid: TaskId) {
    && tid in w.tasks && w.now >= w.tasks[tid].deadline
    && (w.tasks[tid].status == Expired || w.tasks[tid].status == PartiallyCompleted || w.tasks[tid].status == Completed)
  }

  lemma StepOverForGood(w: World, op: Op, tid: TaskId)
    requires WorldInv(w) && OverForGood(w, tid)
    ensures OverForGood(After(w, op), tid)
  {
    hide WorldInv, After, SlotsOf;
    PartsOf(w);
    EndedHasNobody(w, tid);
    ClockAndDeadline(w, op, tid);
    StepMovesTask(w, op, tid);
    StepOnward(w, op, tid);
    NobodyComesBack(w.tasks[tid], After(w, op).tasks[tid]);
  }

  lemma NobodyComesBack(t: Task, u: Task)
    requires NobodyActive(t) && Onward(t, u) && t.status != Published
    ensures SlotsOf(u.history, Class.Active) == {}
  {
    assert u.history == t.history;
    forall s | s in SlotsOf(u.history, Class.Active)
      ensures false
    {
      LatestIsSomeEntry(u.history, s);
    }
  }

  lemma CancelledOrOver(w: World, op: Op, tid: TaskId)
    requires WorldInv(w) && tid in w.tasks && (w.tasks[tid].status == TaskCancelled || OverForGood(w, tid))
    ensures var v := After(w, op);
            && tid in v.tasks
            && (v.tasks[tid].status == TaskCancelled <==> w.tasks[tid].status == TaskCancelled && !PassesDeadline(w, op, tid))
            && (v.tasks[tid].status != TaskCancelled ==> OverForGood(v, tid))
  {
    hide WorldInv, After, Count;
    if w.tasks[tid].status == TaskCancelled {
      CancelledStays(w, op, tid);
      if PassesDeadline(w, op, tid) {
        PassOverEnded(w, op, tid);
      }
    } else {
      StepOverForGood(w, op, tid);
    }
  }

  /** Over any run a cancelled task is still cancelled exactly if no deadline pass has come over
      it, at or after its deadline, on the way. */
  lemma {:induction false} CancelledUnlessPassed(w: World, ops: seq<Op>, tid: TaskId)
    requires WorldInv(w) && tid in w.tasks && w.tasks[tid].status == TaskCancelled
    ensures var v := Run(w, ops);
            && tid in v.tasks
            && (v.tasks[tid].status == TaskCancelled <==> !PassesDuring(w, ops, tid))
            && (v.tasks[tid].status != TaskCancelled ==> OverForGood(v, tid))
  {
    if ops != [] {
      hide WorldInv, Run, After, PassesDuring, PassesDeadline, OverForGood;
      var front := ops[..|ops| - 1];
      CancelledUnlessPassed(w, front, tid);
      RunKeeps(w, front);
      RunBack(w, ops);
      PassesBack(w, ops, tid);
      CancelledOrOver(Run(w, front), ops[|ops| - 1], tid);
    }
  }

  // ---------- a run on which it does not ----------

  /** Intake has closed with both slots taken, and the first performer has submitted. */
  function OneSubmitted(t: Task, now: int, p: MemberId, q: MemberId): Task {
    Asking(t, p, q).(
      history := [Submitted1(t, now, p).history[0], Taken(q, 2)],
      requests := [CancelRequest(Obsolete, [Response(0, Withdrawn), Response(1, Withdrawn)])])
  }

  function PaidFirst(t: Task, now: int, p: MemberId, q: MemberId, cid: nat): Task {
    var s := OneSubmitted(t, now, p, q);
    s.(history := [s.history[0].(status := Approved, outcome := Some(Decided(Full)), command := Some(cid)), Taken(q, 2)])
  }

  /** The second performer has left, as the last one active: the task is cancelled. */
  function LastGone(t: Task, now: int, p: MemberId, q: MemberId, cid: nat): Task {
    PaidFirst(t, now, p, q, cid).(history := [PaidFirst(t, now, p, q, cid).history[0], SecondGone(q)], status := TaskCancelled)
  }

  lemma SubmitsWhileClosed(w: World, tid: TaskId, t: Task, u: UpdateId, p: MemberId, q: MemberId) returns (v: World)
    requires Stage(w, tid, Asking(t, p, q), u) && Untouched(t, w.now)
    ensures v == After(w, Deliver(u, SubmitResult(tid, 0))) && v.now == w.now
    ensures Stage(v, tid, OneSubmitted(t, w.now, p, q), u + 1)
  {
    hide WorldInv;
    var a, s := Asking(t, p, q), OneSubmitted(t, w.now, p, q);
    assert Submit(a, w.now, 0) == Success(Effect(s, [])) by {
      assert Withdraw(a.requests[0]).responses == s.requests[0].responses;
      assert WithdrawPending(a.requests) == s.requests;
      assert a.history[0 := s.history[0]] == s.history;
    }
    hide Submit, Asking, OneSubmitted;
    v := Delivered(w, tid, a, u, SubmitResult(tid, 0), Effect(s, []));
  }

  lemma FirstPaymentGoesThrough(tid: TaskId, t: Task, now: int, p: MemberId, q: MemberId, cid: nat)
    requires Untouched(t, now)
    ensures Decide(tid, OneSubmitted(t, now, p, q), now, 0, Full, cid)
         == Success(Effect(PaidFirst(t, now, p, q, cid), [Earn(TaskRewardEarned, p, t.reward, OutcomeReward(tid, 0, Approved))]))
  {
    var s, d := OneSubmitted(t, now, p, q), PaidFirst(t, now, p, q, cid);
    TwoSlots(d.history[0], d.history[1], Class.Active);
    hide LatestBySlot;
    assert 2 in SlotsOf([d.history[0], d.history[1]], Class.Active);
    hide SlotsOf;
    assert s.history[0 := d.history[0]] == d.history == [d.history[0], d.history[1]];
  }

  lemma FirstIsPaid(w: World, tid: TaskId, t: Task, u: UpdateId, p: MemberId, q: MemberId, cid: nat) returns (v: World)
    requires Stage(w, tid, OneSubmitted(t, w.now, p, q), u) && Untouched(t, w.now)
    ensures v == After(w, Deliver(u, Review(tid, 0, Full, cid))) && v.now == w.now
    ensures Stage(v, tid, PaidFirst(t, w.now, p, q, cid), u + 1)
  {
    hide WorldInv, Backed, Decide, OneSubmitted, PaidFirst;
    FirstPaymentGoesThrough(tid, t, w.now, p, q, cid);
    v := Delivered(w, tid, OneSubmitted(t, w.now, p, q), u, Review(tid, 0, Full, cid),
                   Effect(PaidFirst(t, w.now, p, q, cid), [Earn(TaskRewardEarned, p, t.reward, OutcomeReward(tid, 0, Approved))]));
  }

  lemma LastLeaves(w: World, tid: TaskId, t: Task, u: UpdateId, now: int, p: MemberId, q: MemberId, cid: nat) returns (v: World)
    requires Stage(w, tid, PaidFirst(t, now, p, q, cid), u) && Untouched(t, now)
    ensures v == After(w, Deliver(u, LeaveSlot(tid, 1))) && v.now == w.now
    ensures Stage(v, tid, LastGone(t, now, p, q, cid), u + 1)
  {
    hide WorldInv;
    var s, d := PaidFirst(t, now, p, q, cid), LastGone(t, now, p, q, cid);
    var eff := Effect(d, [Refund(t.creator, t.reward, SlotCancelRefund(tid, 1))]);
    assert CancelAssignment(tid, s, 1) == Success(eff) by {
      TwoSlots(d.history[0], d.history[1], Class.Active);
      assert WithdrawPending(s.requests) == s.requests;
      assert s.history[1 := d.history[1]] == d.history == [d.history[0], d.history[1]];
    }
    hide CancelAssignment, PaidFirst, LastGone;
    v := Delivered(w, tid, s, u, LeaveSlot(tid, 1), eff);
  }

  /** Up to the query: at the deadline the task is closed, one slot paid and one merely accepted. */
  function UntilSelected(tid: TaskId, u: UpdateId, p: MemberId, q: MemberId, cid: nat, deadline: int): seq<Op> {
    [Deliver(u, AcceptSlot(tid, p)), Deliver(u + 1, AcceptSlot(tid, q)), Deliver(u + 2, CloseIntake(tid)),
     Deliver(u + 3, SubmitResult(tid, 0)), Deliver(u + 4, Review(tid, 0, Full, cid)), Tick(deadline)]
  }

  lemma SelectedInTime(w: World, tid: TaskId, t: Task, u: UpdateId, p: MemberId, q: MemberId, cid: nat) returns (v: World)
    requires Stage(w, tid, t, u) && Untouched(t, w.now) && p != q && Candidate(w, tid, p) && Candidate(w, tid, q)
    ensures v == Run(w, UntilSelected(tid, u, p, q, cid, t.deadline))
    ensures Stage(v, tid, PaidFirst(t, w.now, p, q, cid), u + 5) && v.now == t.deadline
  {
    hide Stage, Candidate, After, Run, OneSubmitted, PaidFirst, Asking, Grew;
    var w1 := FirstAccepts(w, tid, t, u, p);
    NowTaken(w, tid, t, u, p, q, w1);
    var w2 := SecondAccepts(w1, tid, t, u + 1, p, q);
    var w3 := CreatorCloses(w2, tid, t, u + 2, p, q);
    var w4 := SubmitsWhileClosed(w3, tid, t, u + 3, p, q);
    var w5 := FirstIsPaid(w4, tid, t, u + 4, p, q, cid);
    v := TimePasses(w5, tid, PaidFirst(t, w.now, p, q, cid), u + 5, t.deadline);
    RunSix(w, Deliver(u, AcceptSlot(tid, p)), Deliver(u + 1, AcceptSlot(tid, q)), Deliver(u + 2, CloseIntake(tid)),
           Deliver(u + 3, SubmitResult(tid, 0)), Deliver(u + 4, Review(tid, 0, Full, cid)), Tick(t.deadline));
  }

  lemma LastGoneCounts(w: World, tid: TaskId, t: Task, u: UpdateId, now: int, p: MemberId, q: MemberId, cid: nat)
    requires Stage(w, tid, LastGone(t, now, p, q, cid), u) && Untouched(t, now)
    ensures w.tasks[tid].status == TaskCancelled && StatusWhenOver(w.tasks[tid]) == PartiallyCompleted
    ensures w.tasks[tid].deadline == t.deadline && WorldInv(w)
  {
    hide WorldInv;
    var d := LastGone(t, now, p, q, cid);
    assert d.history[..1] == [d.history[0]];
    OneSlot(d.history[0], Paid);
  }

  /** The task is selected at its deadline, its last performer leaves and so cancels it, and only
      then does the selected pass run: the cancelled task becomes partially completed. */
  lemma CancellationIsUndone(w: World, tid: TaskId, t: Task, u: UpdateId, p: MemberId, q: MemberId, cid: nat, again: nat)
    requires Stage(w, tid, t, u) && Untouched(t, w.now) && p != q && Candidate(w, tid, p) && Candidate(w, tid, q)
    ensures var v := Run(w, UntilSelected(tid, u, p, q, cid, t.deadline));
            var left := After(v, Deliver(u + 5, LeaveSlot(tid, 1)));
            var passed := After(left, Perform(DeadlineDue(tid, again)));
            && tid in v.tasks && Selected(v.tasks[tid], v.now)
            && tid in left.tasks && left.tasks[tid].status == TaskCancelled && !Selected(left.tasks[tid], left.now)
            && tid in passed.tasks && passed.tasks[tid].status == PartiallyCompleted
  {
    hide Stage, Candidate, After, Run, WorldInv, LastGone, StatusWhenOver;
    var v := SelectedInTime(w, tid, t, u, p, q, cid);
    PaidIsSelected(v, tid, t, u + 5, w.now, p, q, cid);
    var left := LastLeaves(v, tid, t, u + 5, w.now, p, q, cid);
    LastGoneCounts(left, tid, t, u + 6, w.now, p, q, cid);
    StageHas(left, tid, LastGone(t, w.now, p, q, cid), u + 6);
    CancelledStays(left, Perform(DeadlineDue(tid, again)), tid);
  }

  lemma StageHas(w: World, tid: TaskId, t: Task, u: UpdateId)
    requires Stage(w, tid, t, u)
    ensures tid in w.tasks && WorldInv(w)
  {
  }

  lemma PaidIsSelected(w: World, tid: TaskId, t: Task, u: UpdateId, now: int, p: MemberId, q: MemberId, cid: nat)
    requires Stage(w, tid, PaidFirst(t, now, p, q, cid), u) && w.now == t.deadline
    ensures tid in w.tasks && Selected(w.tasks[tid], w.now)
  {
    hide WorldInv;
  }
}
