/**
 The workflows that move a single assignment, each shown to book exactly what the assignment's
 new status is due, under keys the ledger has never seen.
 */
module EscrowPerformer {
  import opened Wrappers
  import opened Ledger
  import opened Tasks
  import opened Escrow
  import opened EscrowInvariants
  import opened EscrowSteps

  /** The batch, if it was new, is what the ledger grew by. */
  ghost predicate Posted(before: seq<Entry>, after: seq<Entry>, cmds: seq<Command>) {
    AllNew(before, cmds) ==> Grew(before, after, cmds)
  }

  /** A batch the ledger can only post, after which the task invariant holds again; and with `safe` a
      funded task stays funded. */
  ghost predicate Keeps(before: seq<Entry>, after: seq<Entry>, tid: TaskId, t: Task, eff: Effect, now: int, safe: bool) {
    && FreshBatch(before, tid, eff.commands)
    && Carried(before, if eff.commands == [] then before else after, tid, t, eff.task, now, safe)
  }

  lemma AskedNone(col: Column)
    ensures Asked([], col) == 0
  {
  }

  lemma AskedOne(c: Command, col: Column)
    ensures Asked([c], col) == if InColumn(col, c.key) then c.credit else 0
  {
    assert [c][..0] == [];
  }

  lemma AskedTwo(c: Command, d: Command, col: Column)
    ensures Asked([c, d], col)
         == (if InColumn(col, c.key) then c.credit else 0) + (if InColumn(col, d.key) then d.credit else 0)
  {
    assert [c, d][..1] == [c];
    AskedOne(c, col);
  }

  // ---------- consent requests along a move ----------

  lemma LapsedConsent(t: Task, u: Task)
    requires Consent(t) && u.requests == WithdrawPending(t.requests)
    requires |u.history| == |t.history| && (u.status == Published ==> t.status == Published)
    ensures Consent(u) && !HasPending(u)
  {
    if t.requests != [] {
      var r, w := t.requests[0], u.requests[0];
      forall k | 0 <= k < |w.responses|
        ensures ResponseSound(u, 0, k)
        ensures w.responses[k].status != Unanswered
        ensures w.responses[k].index == r.responses[k].index
      {
        assert ResponseSound(t, 0, k);
      }
    }
  }

  lemma UntouchedConsent(t: Task, u: Task, i: nat)
    requires Consent(t) && u.requests == t.requests && Moved(t, u, i)
    requires t.history[i].status != Accepted && (u.status == Published ==> t.status == Published)
    ensures Consent(u)
  {
    if t.requests != [] {
      forall k | 0 <= k < |u.requests[0].responses|
        ensures ResponseSound(u, 0, k)
      {
        assert ResponseSound(t, 0, k);
      }
    }
  }

  // ---------- batches about one assignment ----------

  lemma NothingIsFresh(before: seq<Entry>, tid: TaskId)
    ensures FreshBatch(before, tid, [])
  {
  }

  lemma OneIsFresh(before: seq<Entry>, tid: TaskId, t: Task, i: nat, c: Command, now: int)
    requires KeysExplained(before, tid, t, now) && i < |t.history| && Is(Active, t.history[i].status)
    requires ValidCommand(c) && c.reversed.None? && TaskOf(c.key) == Some(tid) && IndexOf(c.key) == Some(i)
    ensures FreshBatch(before, tid, [c])
  {
    ActiveHasNoKeys(before, tid, t, i, now);
  }

  lemma TwoAreFresh(before: seq<Entry>, tid: TaskId, t: Task, i: nat, c: Command, d: Command, now: int)
    requires KeysExplained(before, tid, t, now) && i < |t.history| && Is(Active, t.history[i].status)
    requires ValidCommand(c) && c.reversed.None? && TaskOf(c.key) == Some(tid) && IndexOf(c.key) == Some(i)
    requires ValidCommand(d) && d.reversed.None? && TaskOf(d.key) == Some(tid) && IndexOf(d.key) == Some(i)
    requires c.key != d.key
    ensures FreshBatch(before, tid, [c, d])
  {
    ActiveHasNoKeys(before, tid, t, i, now);
  }

  /** A move to a status that is due nothing books nothing. */
  lemma QuietMove(before: seq<Entry>, tid: TaskId, t: Task, u: Task, i: nat, now: int)
    requires TaskInv(before, tid, t, now) && Moved(t, u, i)
    requires Lifecycle(u, now) && Consent(u)
    requires u.status == Published ==> t.status == Published
    requires Is(Active, u.history[i].status) || u.history[i].status == Cancelled
    ensures Carried(before, before, tid, t, u, now, true)
  {
    AskedNone(PaidFor(tid, i));
    AskedNone(ReturnedFor(tid, i));
    AskedNone(Escrowed(tid));
    MovedKeepsInv(before, before, tid, t, u, i, [], now);
  }

  // ---------- the workflows ----------

  lemma SameStatusLifecycle(t: Task, u: Task, i: nat, now: int)
    requires Lifecycle(t, now) && Moved(t, u, i) && u.status == t.status
    ensures Lifecycle(u, now) && !IsFinal(t.status)
  {
    CountWitness(t.history, Active);
  }

  lemma SubmitKeeps(before: seq<Entry>, after: seq<Entry>, tid: TaskId, t: Task, now: int, i: nat)
    requires TaskInv(before, tid, t, now) && Submit(t, now, i).Success?
    ensures Keeps(before, after, tid, t, Submit(t, now, i).value, now, true)
  {
    var u := Submit(t, now, i).value.task;
    LapsedConsent(t, u);
    SameStatusLifecycle(t, u, i, now);
    QuietMove(before, tid, t, u, i, now);
  }

  lemma DisputeKeeps(before: seq<Entry>, after: seq<Entry>, tid: TaskId, t: Task, now: int, i: nat)
    requires TaskInv(before, tid, t, now) && Dispute(t, now, i).Success?
    ensures Keeps(before, after, tid, t, Dispute(t, now, i).value, now, true)
  {
    var u := Dispute(t, now, i).value.task;
    UntouchedConsent(t, u, i);
    SameStatusLifecycle(t, u, i, now);
    QuietMove(before, tid, t, u, i, now);
  }

  /** Booking a single refund of the whole reward. */
  lemma RefundMove(before: seq<Entry>, after: seq<Entry>, tid: TaskId, t: Task, u: Task, i: nat, key: Key, now: int)
    requires TaskInv(before, tid, t, now) && Moved(t, u, i)
    requires t.origin == Member
    requires Lifecycle(u, now) && Consent(u)
    requires u.status == Published ==> t.status == Published
    requires InColumn(ReturnedFor(tid, i), key) && Explained(key, u, now)
    requires u.history[i].status in {Rejected, NoShow, Cancelled}
    requires Posted(before, after, [Refund(t.creator, t.reward, key)])
    ensures FreshBatch(before, tid, [Refund(t.creator, t.reward, key)])
    ensures Carried(before, after, tid, t, u, now, u.history[i].status == Cancelled ==> u.status != Published)
  {
    var c := Refund(t.creator, t.reward, key);
    OneIsFresh(before, tid, t, i, c, now);
    AskedOne(c, PaidFor(tid, i));
    AskedOne(c, ReturnedFor(tid, i));
    AskedOne(c, Escrowed(tid));
    MovedKeepsInv(before, after, tid, t, u, i, [c], now);
  }

  /** Booking a single payment of the whole reward. */
  lemma RewardMove(before: seq<Entry>, after: seq<Entry>, tid: TaskId, t: Task, u: Task, i: nat, key: Key, now: int)
    requires TaskInv(before, tid, t, now) && Moved(t, u, i)
    requires Lifecycle(u, now) && Consent(u)
    requires u.status == Published ==> t.status == Published
    requires InColumn(PaidFor(tid, i), key) && Explained(key, u, now)
    requires u.history[i].status == Approved
    requires Posted(before, after, [Earn(FullKind(t), t.history[i].performer, t.reward, key)])
    ensures FreshBatch(before, tid, [Earn(FullKind(t), t.history[i].performer, t.reward, key)])
    ensures Carried(before, after, tid, t, u, now, true)
  {
    var c := Earn(FullKind(t), t.history[i].performer, t.reward, key);
    OneIsFresh(before, tid, t, i, c, now);
    AskedOne(c, PaidFor(tid, i));
    AskedOne(c, ReturnedFor(tid, i));
    AskedOne(c, Escrowed(tid));
    MovedKeepsInv(before, after, tid, t, u, i, [c], now);
  }

  function PartialBatch(t: Task, performer: MemberId, pay: Key, back: Key): seq<Command> {
    [Earn(PartialKind(t), performer, HalfUp(t.reward), pay)]
    + if t.origin == Member && t.reward > HalfUp(t.reward) then
        [Refund(t.creator, t.reward - HalfUp(t.reward), back)]
      else []
  }

  lemma PartialBooks(tid: TaskId, t: Task, u: Task, i: nat, pay: Key, back: Key, now: int)
    requires Moved(t, u, i) && u.history[i].status == PartiallyApproved && t.reward > 0
    requires InColumn(PaidFor(tid, i), pay) && Explained(pay, u, now)
    requires InColumn(ReturnedFor(tid, i), back) && Explained(back, u, now)
    ensures AboutAssignment(tid, u, i, PartialBatch(t, t.history[i].performer, pay, back), now)
    ensures BooksDue(tid, t, u, i, PartialBatch(t, t.history[i].performer, pay, back))
  {
    hide Asked, Explained;
    var cmds := PartialBatch(t, t.history[i].performer, pay, back);
    var c := Earn(PartialKind(t), t.history[i].performer, HalfUp(t.reward), pay);
    if t.origin == Member && t.reward > HalfUp(t.reward) {
      var d := Refund(t.creator, t.reward - HalfUp(t.reward), back);
      assert cmds == [c, d];
      AskedTwo(c, d, PaidFor(tid, i));
      AskedTwo(c, d, ReturnedFor(tid, i));
      AskedTwo(c, d, Escrowed(tid));
    } else {
      assert cmds == [c];
      AskedOne(c, PaidFor(tid, i));
      AskedOne(c, ReturnedFor(tid, i));
      AskedOne(c, Escrowed(tid));
    }
  }

  lemma PartialIsFresh(before: seq<Entry>, tid: TaskId, t: Task, i: nat, pay: Key, back: Key, now: int)
    requires KeysExplained(before, tid, t, now) && t.reward > 0
    requires i < |t.history| && Is(Active, t.history[i].status)
    requires InColumn(PaidFor(tid, i), pay) && InColumn(ReturnedFor(tid, i), back)
    ensures FreshBatch(before, tid, PartialBatch(t, t.history[i].performer, pay, back))
  {
    var c := Earn(PartialKind(t), t.history[i].performer, HalfUp(t.reward), pay);
    if t.origin == Member && t.reward > HalfUp(t.reward) {
      var d := Refund(t.creator, t.reward - HalfUp(t.reward), back);
      assert PartialBatch(t, t.history[i].performer, pay, back) == [c, d];
      TwoAreFresh(before, tid, t, i, c, d, now);
    } else {
      assert PartialBatch(t, t.history[i].performer, pay, back) == [c];
      OneIsFresh(before, tid, t, i, c, now);
    }
  }

  /** Booking half the reward, rounded up, and returning the rest. */
  lemma PartialMove(before: seq<Entry>, after: seq<Entry>, tid: TaskId, t: Task, u: Task, i: nat, pay: Key, back: Key, now: int)
    requires TaskInv(before, tid, t, now) && Moved(t, u, i)
    requires Lifecycle(u, now) && Consent(u)
    requires u.status == Published ==> t.status == Published
    requires InColumn(PaidFor(tid, i), pay) && Explained(pay, u, now)
    requires InColumn(ReturnedFor(tid, i), back) && Explained(back, u, now)
    requires u.history[i].status == PartiallyApproved
    requires Posted(before, after, PartialBatch(t, t.history[i].performer, pay, back))
    ensures FreshBatch(before, tid, PartialBatch(t, t.history[i].performer, pay, back))
    ensures Carried(before, after, tid, t, u, now, true)
  {
    var cmds := PartialBatch(t, t.history[i].performer, pay, back);
    PartialBooks(tid, t, u, i, pay, back, now);
    PartialIsFresh(before, tid, t, i, pay, back, now);
    hide Asked, PartialBatch;
    MovedKeepsInv(before, after, tid, t, u, i, cmds, now);
  }

  lemma CancelAssignmentKeeps(before: seq<Entry>, after: seq<Entry>, tid: TaskId, t: Task, now: int, i: nat)
    requires TaskInv(before, tid, t, now) && CancelAssignment(tid, t, i).Success?
    requires Posted(before, after, CancelAssignment(tid, t, i).value.commands)
    ensures Keeps(before, after, tid, t, CancelAssignment(tid, t, i).value, now, true)
  {
    var eff := CancelAssignment(tid, t, i).value;
    var u := eff.task;
    LapsedConsent(t, u);
    if eff.commands == [] {
      SameStatusLifecycle(t, u, i, now);
      QuietMove(before, tid, t, u, i, now);
    } else {
      EndedLifecycle(t, u, i, now);
      RefundMove(before, after, tid, t, u, i, SlotCancelRefund(tid, i), now);
    }
  }

  lemma EndedLifecycle(t: Task, u: Task, i: nat, now: int)
    requires Shape(t) && Moved(t, u, i) && u.status == TaskCancelled && SlotsOf(u.history, Active) == {}
    ensures Lifecycle(u, now)
  {
    MovedShape(t, u, i);
    LatestAgrees(u.history, Active);
  }

  lemma AggregatedMove(t: Task, w: Task, i: nat, now: int)
    requires Shape(t) && Lifecycle(t, now) && Moved(t, w, i) && w.status == t.status
    ensures Lifecycle(Aggregated(w, now), now) && Moved(t, Aggregated(w, now), i)
    ensures Aggregated(w, now).status == Published ==> t.status == Published
  {
    MovedShape(t, w, i);
    DerivedLifecycle(w, now);
    SameStatusLifecycle(t, w, i, now);
    NeverReopens(t.status, t.slots, t.deadline, now, w.history);
  }

  /** Deciding an assignment that is past mere acceptance, and rederiving the task's state. */
  lemma DecidedMove(entries: seq<Entry>, tid: TaskId, t: Task, done: Assignment, i: nat, now: int)
    requires TaskInv(entries, tid, t, now) && i < |t.history|
    requires Is(Active, t.history[i].status) && t.history[i].status != Accepted
    requires done.slot == t.history[i].slot && done.performer == t.history[i].performer
    ensures var u := Aggregated(WithAssignment(t, i, done), now);
            && Moved(t, u, i) && Lifecycle(u, now) && Consent(u)
            && (u.status == Published ==> t.status == Published)
            && u.history[i] == done && t.reward > 0
            && Count(u.history, Settled) == Count(t.history, Settled) + if Is(Settled, done.status) then 1 else 0
  {
    AggregatedMove(t, WithAssignment(t, i, done), i, now);
    CountUpdate(t.history, i, done, Settled);
    hide Shape, Lifecycle, KeysExplained, Settlement, Derive;
    UntouchedConsent(t, Aggregated(WithAssignment(t, i, done), now), i);
  }

  lemma OutcomeExplained(tid: TaskId, t: Task, u: Task, i: nat, now: int)
    requires Moved(t, u, i) && Is(Paid, u.history[i].status)
    ensures Explained(OutcomeReward(tid, i, u.history[i].status), u, now) && InColumn(PaidFor(tid, i), OutcomeReward(tid, i, u.history[i].status))
    ensures Explained(OutcomeRefund(tid, i, u.history[i].status), u, now) && InColumn(ReturnedFor(tid, i), OutcomeRefund(tid, i, u.history[i].status))
  {
  }

  lemma PaidDecisionKeeps(before: seq<Entry>, after: seq<Entry>, tid: TaskId, t: Task, now: int, i: nat, d: Decision, cid: nat)
    requires TaskInv(before, tid, t, now) && Decide(tid, t, now, i, d, cid).Success?
    requires d != Reject && (t.history[i].status == Submitted || t.history[i].status == ReviewerRequired)
    requires Posted(before, after, Decide(tid, t, now, i, d, cid).value.commands)
    ensures FreshBatch(before, tid, Decide(tid, t, now, i, d, cid).value.commands)
    ensures Carried(before, after, tid, t, Decide(tid, t, now, i, d, cid).value.task, now, true)
  {
    hide TaskInv, Funded, Carried, Moved, Lifecycle, Consent, Posted, Aggregated, FreshBatch, Explained;
    var u := Decide(tid, t, now, i, d, cid).value.task;
    var decided := t.history[i].(status := DecidedStatus(d), outcome := Some(Decided(d)), command := Some(cid));
    DecidedMove(before, tid, t, decided, i, now);
    OutcomeExplained(tid, t, u, i, now);
    if d == Full {
      RewardMove(before, after, tid, t, u, i, OutcomeReward(tid, i, Approved), now);
    } else {
      PartialMove(before, after, tid, t, u, i, OutcomeReward(tid, i, PartiallyApproved), OutcomeRefund(tid, i, PartiallyApproved), now);
    }
  }

  lemma DecideKeeps(before: seq<Entry>, after: seq<Entry>, tid: TaskId, t: Task, now: int, i: nat, d: Decision, cid: nat)
    requires TaskInv(before, tid, t, now) && Decide(tid, t, now, i, d, cid).Success?
    requires Posted(before, after, Decide(tid, t, now, i, d, cid).value.commands)
    ensures Keeps(before, after, tid, t, Decide(tid, t, now, i, d, cid).value, now, true)
  {
    hide Aggregated, FreshBatch, Settlement, KeysExplained, Shape;
    var u := Decide(tid, t, now, i, d, cid).value.task;
    NothingIsFresh(before, tid);
    if t.history[i].status == Submitted || t.history[i].status == ReviewerRequired {
      if d == Reject {
        UntouchedConsent(t, u, i);
        SameStatusLifecycle(t, u, i, now);
        QuietMove(before, tid, t, u, i, now);
      } else {
        PaidDecisionKeeps(before, after, tid, t, now, i, d, cid);
      }
    }
  }

  lemma FinalizeReviewKeeps(before: seq<Entry>, after: seq<Entry>, tid: TaskId, t: Task, now: int, i: nat, cid: nat, fit: bool)
    requires TaskInv(before, tid, t, now) && FinalizeReview(tid, t, now, i, cid, fit).Success?
    requires Posted(before, after, FinalizeReview(tid, t, now, i, cid, fit).value.commands)
    ensures Keeps(before, after, tid, t, FinalizeReview(tid, t, now, i, cid, fit).value, now, true)
  {
    hide Aggregated, FreshBatch, Settlement, KeysExplained, Shape, Posted;
    var u := FinalizeReview(tid, t, now, i, cid, fit).value.task;
    NothingIsFresh(before, tid);
    if t.history[i].status == Submitted {
      if t.origin == Community && !fit {
        UntouchedConsent(t, u, i);
        SameStatusLifecycle(t, u, i, now);
        QuietMove(before, tid, t, u, i, now);
      } else {
        var done := t.history[i].(status := Approved, outcome := Some(Autoconfirmed), command := Some(cid));
        DecidedMove(before, tid, t, done, i, now);
        hide TaskInv, Moved, Lifecycle, Consent;
        RewardMove(before, after, tid, t, u, i, OutcomeReward(tid, i, Approved), now);
      }
    }
  }

  lemma FinalizeRejectionKeeps(before: seq<Entry>, after: seq<Entry>, tid: TaskId, t: Task, now: int, i: nat, cid: nat)
    requires TaskInv(before, tid, t, now) && FinalizeRejection(tid, t, now, i, cid).Success?
    requires Posted(before, after, FinalizeRejection(tid, t, now, i, cid).value.commands)
    ensures Keeps(before, after, tid, t, FinalizeRejection(tid, t, now, i, cid).value, now, true)
  {
    hide Aggregated, FreshBatch, Posted, TaskInv, Lifecycle, Consent;
    var u := FinalizeRejection(tid, t, now, i, cid).value.task;
    NothingIsFresh(before, tid);
    if t.history[i].status == RejectedPendingDispute {
      var done := t.history[i].(status := Rejected, outcome := Some(RejectionFinal), command := Some(cid));
      DecidedMove(before, tid, t, done, i, now);
      ReturnOrNothing(before, after, tid, t, u, i, OutcomeRefund(tid, i, Rejected), now);
    }
  }

  /** A member task returns the slot's reward; a community task reserved nothing to return. */
  lemma ReturnOrNothing(before: seq<Entry>, after: seq<Entry>, tid: TaskId, t: Task, u: Task, i: nat, key: Key, now: int)
    requires TaskInv(before, tid, t, now) && Moved(t, u, i)
    requires Lifecycle(u, now) && Consent(u)
    requires u.status == Published ==> t.status == Published
    requires u.history[i].status == Cancelled ==> t.origin == Member
    requires InColumn(ReturnedFor(tid, i), key) && Explained(key, u, now)
    requires u.history[i].status in {Rejected, NoShow, Cancelled}
    requires Posted(before, after, if t.origin == Member then [Refund(t.creator, t.reward, key)] else [])
    ensures FreshBatch(before, tid, if t.origin == Member then [Refund(t.creator, t.reward, key)] else [])
    ensures Carried(before, if t.origin == Member then after else before, tid, t, u, now,
                    u.history[i].status == Cancelled ==> u.status != Published)
  {
    if t.origin == Member {
      RefundMove(before, after, tid, t, u, i, key, now);
    } else {
      AskedNone(PaidFor(tid, i));
      AskedNone(ReturnedFor(tid, i));
      AskedNone(Escrowed(tid));
      MovedKeepsInv(before, before, tid, t, u, i, [], now);
    }
  }

  // ---------- dispute resolution ----------

  /** A resolution that cancels without fault gives a slot's reserve back; it is harmless exactly
      when the task does not stay open for somebody else to take that slot. It stays open before its
      deadline while another slot is active or some slot has never been taken. */
  predicate LeavesSlotOpen(t: Task, now: int, i: nat, code: ResolutionCode) {
    && code == CancelWithoutFault
    && i < |t.history| && t.history[i].status == Disputed
    && t.origin == Member && t.status == Published && now < t.deadline
    && (Count(t.history, Active) > 1 || |LatestBySlot(t.history)| < t.slots)
  }

  /** Moving an assignment changes neither which slots have been taken, nor their number. */
  lemma TakenSlotsStay(h: seq<Assignment>, i: nat, a: Assignment)
    requires i < |h| && a.slot == h[i].slot
    ensures LatestBySlot(h[i := a]).Keys == LatestBySlot(h).Keys
    ensures |LatestBySlot(h[i := a])| == |LatestBySlot(h)|
  {
    var g := h[i := a];
    forall s: nat
      ensures s in LatestBySlot(g) <==> s in LatestBySlot(h)
    {
      LatestIsSomeEntry(h, s);
      LatestIsSomeEntry(g, s);
      assert forall k | 0 <= k < |h| :: g[k].slot == h[k].slot;
    }
    assert LatestBySlot(g).Keys == LatestBySlot(h).Keys;
    assert |LatestBySlot(g)| == |LatestBySlot(g).Keys|;
    assert |LatestBySlot(h)| == |LatestBySlot(h).Keys|;
  }

  /** Ending an active assignment, read off the history before. */
  lemma EndingCounts(t: Task, i: nat, done: Assignment)
    requires Shape(t) && i < |t.history| && Is(Active, t.history[i].status) && !Is(Active, done.status)
    requires done.slot == t.history[i].slot && done.performer == t.history[i].performer
    ensures SlotsOf(t.history[i := done], Active) != {} <==> Count(t.history, Active) > 1
    ensures |SlotsOf(t.history[i := done], Paid)| == Count(t.history, Paid) + if Is(Paid, done.status) then 1 else 0
    ensures |LatestBySlot(t.history[i := done])| == |LatestBySlot(t.history)|
    ensures Count(t.history, Active) > 0
  {
    hide LatestBySlot, Count;
    var u := WithAssignment(t, i, done);
    MovedShape(t, u, i);
    LatestAgrees(u.history, Active);
    LatestAgrees(u.history, Paid);
    CountUpdate(t.history, i, done, Active);
    CountUpdate(t.history, i, done, Paid);
    CountWitness(t.history, Active);
    TakenSlotsStay(t.history, i, done);
    assert |SlotsOf(u.history, Active)| == 0 <==> SlotsOf(u.history, Active) == {};
  }

  /** The guard describes exactly the resolutions after which a cancelled slot is on offer again. */
  lemma GuardIsExact(tid: TaskId, t: Task, now: int, i: nat, code: ResolutionCode, cid: nat)
    requires Shape(t) && Lifecycle(t, now)
    ensures LeavesSlotOpen(t, now, i, code) <==>
              && code == CancelWithoutFault && Resolve(tid, t, now, i, code, cid).Success?
              && Resolve(tid, t, now, i, code, cid).value.task.status == Published
  {
    hide Shape, LatestBySlot, SlotsOf, Count;
    if code == CancelWithoutFault && i < |t.history| && t.history[i].status == Disputed && t.origin == Member {
      var done := t.history[i].(status := Cancelled, outcome := Some(Resolved(code)), command := Some(cid));
      EndingCounts(t, i, done);
      var u := Resolve(tid, t, now, i, code, cid).value.task;
      assert u.status == Derive(t.status, t.slots, t.deadline, now, t.history[i := done]);
    }
  }

  lemma CaseExplained(tid: TaskId, t: Task, u: Task, i: nat, now: int)
    requires Moved(t, u, i)
    ensures !Is(Active, u.history[i].status) ==>
              && Explained(CaseFull(tid, i), u, now) && Explained(CasePartial(tid, i), u, now)
              && Explained(CaseRemainder(tid, i), u, now) && Explained(CaseRefund(tid, i), u, now)
  {
  }

  lemma ClosedUnlessOpen(before: seq<Entry>, tid: TaskId, t: Task, now: int, i: nat, code: ResolutionCode, cid: nat)
    requires TaskInv(before, tid, t, now) && Resolve(tid, t, now, i, code, cid).Success?
    ensures code == CancelWithoutFault ==> t.origin == Member
    ensures code == CancelWithoutFault && Resolve(tid, t, now, i, code, cid).value.task.status == Published ==> LeavesSlotOpen(t, now, i, code)
  {
    hide LeavesSlotOpen, KeysExplained, Settlement, Consent, Shape, Lifecycle, Aggregated;
    GuardIsExact(tid, t, now, i, code, cid);
  }

  lemma ResolveKeeps(before: seq<Entry>, after: seq<Entry>, tid: TaskId, t: Task, now: int, i: nat, code: ResolutionCode, cid: nat)
    requires TaskInv(before, tid, t, now) && Resolve(tid, t, now, i, code, cid).Success?
    requires Posted(before, after, Resolve(tid, t, now, i, code, cid).value.commands)
    ensures Keeps(before, after, tid, t, Resolve(tid, t, now, i, code, cid).value, now, !LeavesSlotOpen(t, now, i, code))
  {
    hide Aggregated, TaskInv, Funded, Lifecycle, Consent, Posted, FreshBatch, LeavesSlotOpen, Moved, Explained;
    ClosedUnlessOpen(before, tid, t, now, i, code, cid);
    var u := Resolve(tid, t, now, i, code, cid).value.task;
    var done := t.history[i].(status := ResolvedStatus(code), outcome := Some(Resolved(code)), command := Some(cid));
    DecidedMove(before, tid, t, done, i, now);
    CaseExplained(tid, t, u, i, now);
    if ResolvedStatus(code) == Approved {
      RewardMove(before, after, tid, t, u, i, CaseFull(tid, i), now);
    } else if ResolvedStatus(code) == PartiallyApproved {
      PartialMove(before, after, tid, t, u, i, CasePartial(tid, i), CaseRemainder(tid, i), now);
    } else {
      ReturnOrNothing(before, after, tid, t, u, i, CaseRefund(tid, i), now);
    }
  }

  lemma ReopeningMove(before: seq<Entry>, tid: TaskId, t: Task, now: int, i: nat, code: ResolutionCode, cid: nat)
    requires TaskInv(before, tid, t, now) && LeavesSlotOpen(t, now, i, code)
    ensures Resolve(tid, t, now, i, code, cid).Success?
    ensures Resolve(tid, t, now, i, code, cid).value.commands == [Refund(t.creator, t.reward, CaseRefund(tid, i))]
    ensures FreshBatch(before, tid, [Refund(t.creator, t.reward, CaseRefund(tid, i))])
    ensures var u := Resolve(tid, t, now, i, code, cid).value.task;
            && t.status == u.status == Published && t.origin == u.origin == Member && SameTerms(t, u)
            && Count(u.history, Settled) == Count(t.history, Settled)
  {
    hide Aggregated, Lifecycle, Consent, Shape, Settlement, FreshBatch, Count, KeysExplained, LatestBySlot;
    GuardIsExact(tid, t, now, i, code, cid);
    var u := Resolve(tid, t, now, i, code, cid).value.task;
    var done := t.history[i].(status := ResolvedStatus(code), outcome := Some(Resolved(code)), command := Some(cid));
    DecidedMove(before, tid, t, done, i, now);
    OneIsFresh(before, tid, t, i, Refund(t.creator, t.reward, CaseRefund(tid, i)), now);
  }

  lemma OpenHolds(entries: seq<Entry>, tid: TaskId, t: Task, now: int)
    requires TaskInv(entries, tid, t, now) && Funded(entries, tid, t) && t.status == Published && t.origin == Member
    ensures Held(entries, tid) == t.reward * (t.slots - Count(t.history, Settled)) && t.reward > 0
  {
    hide Held, Lifecycle, Consent, Settlement, KeysExplained, TaskLevelRefunded, SlotReturned, Count, OneHolder;
    var released: nat :| EscrowBalanced(entries, tid, t, released);
    assert released == 0;
  }

  /** And exactly then the task stays open with one slot's reserve missing. */
  lemma ReopenedSlotIsUnfunded(before: seq<Entry>, after: seq<Entry>, tid: TaskId, t: Task, now: int, i: nat, code: ResolutionCode, cid: nat)
    requires TaskInv(before, tid, t, now) && Funded(before, tid, t) && LeavesSlotOpen(t, now, i, code)
    requires Resolve(tid, t, now, i, code, cid).Success? ==> Grew(before, after, Resolve(tid, t, now, i, code, cid).value.commands)
    ensures Resolve(tid, t, now, i, code, cid).Success?
    ensures var u := Resolve(tid, t, now, i, code, cid).value.task;
            && Held(after, tid) == u.reward * (u.slots - Count(u.history, Settled)) - u.reward
            && !Funded(after, tid, u)
  {
    hide LeavesSlotOpen, Count, Grew, FreshBatch, TaskInv, Booked, Funded;
    ReopeningMove(before, tid, t, now, i, code, cid);
    ResolveKeeps(before, after, tid, t, now, i, code, cid);
    hide Resolve;
    OpenHolds(before, tid, t, now);
    var u, c := Resolve(tid, t, now, i, code, cid).value.task, Refund(t.creator, t.reward, CaseRefund(tid, i));
    AskedOne(c, Escrowed(tid));
    GrewBooks(before, after, [c], Escrowed(tid));
    if Funded(after, tid, u) {
      OpenHolds(after, tid, u, now);
    }
  }

  // ---------- answers to a cancellation request ----------

  lemma AnsweredConsent(t: Task, u: Task, k: nat, s: ResponseStatus)
    requires Consent(t) && |t.requests| == 1 && k < |t.requests[0].responses|
    requires t.requests[0].status == Pending && t.requests[0].responses[k].status == Unanswered
    requires s == Consented || s == Declined
    requires u.requests == Answered(t, 0, k, s).requests && u.status != Published
    requires |u.history| == |t.history|
    requires forall j | 0 <= j < |t.history| && j != t.requests[0].responses[k].index :: u.history[j] == t.history[j]
    requires s == Declined ==> u.history == t.history
    ensures Consent(u)
  {
    var r, w := t.requests[0], u.requests[0];
    forall j | 0 <= j < |w.responses|
      ensures ResponseSound(u, 0, j)
      ensures w.responses[j].index == r.responses[j].index
    {
      assert ResponseSound(t, 0, j);
      if j != k {
        assert r.responses[j].index != r.responses[k].index;
      }
    }
  }

  lemma DeclineKeeps(before: seq<Entry>, tid: TaskId, t: Task, u: Task, now: int)
    requires TaskInv(before, tid, t, now)
    requires SameTerms(t, u) && u.status == t.status && u.history == t.history && Consent(u)
    ensures Carried(before, before, tid, t, u, now, true)
  {
    hide Booked, Held, Count, TaskLevelRefunded;
    assert forall n | 0 <= n < |before| && TaskOf(before[n].command.key) == Some(tid) ::
        Explained(before[n].command.key, t, now) ==> Explained(before[n].command.key, u, now);
    forall i | 0 <= i < |u.history|
      ensures SettledAsDue(before, tid, u, i)
    {
      assert SettledAsDue(before, tid, t, i);
    }
    if t.origin == Member && Funded(before, tid, t) {
      var released: nat :| EscrowBalanced(before, tid, t, released);
      assert SlotReturned(before, tid, t) == SlotReturned(before, tid, u);
      assert EscrowBalanced(before, tid, u, released);
    }
  }

  lemma WithdrawnConsent(t: Task, u: Task)
    requires Consent(t) && |t.requests| == 1 && t.requests[0].status == Pending
    requires u == t.(requests := [Withdraw(t.requests[0])]) && t.status != Published
    ensures Consent(u)
  {
    assert u.requests == WithdrawPending(t.requests);
    LapsedConsent(t, u);
  }

  lemma RespondKeeps(before: seq<Entry>, after: seq<Entry>, tid: TaskId, t: Task, now: int, q: nat, k: nat, consent: bool)
    requires TaskInv(before, tid, t, now) && RespondCancellation(tid, t, now, q, k, consent).Success?
    requires Posted(before, after, RespondCancellation(tid, t, now, q, k, consent).value.commands)
    ensures Keeps(before, after, tid, t, RespondCancellation(tid, t, now, q, k, consent).value, now, true)
  {
    var eff := RespondCancellation(tid, t, now, q, k, consent).value;
    var u := eff.task;
    assert q == 0 && |t.requests| == 1;
    if u.history == t.history && eff.commands == [] {
      if u != t {
        if u.requests[0] == Withdraw(t.requests[0]) && now >= t.deadline {
          WithdrawnConsent(t, u);
        } else {
          AnsweredConsent(t, u, k, Declined);
        }
        DeclineKeeps(before, tid, t, u, now);
      }
    } else {
      ConsentKeeps(before, after, tid, t, now, k);
    }
  }

  /** The unconditional refund of a consent always matches exactly one slot that was just
      cancelled: the response's assignment is still accepted and nothing was booked for it. */
  lemma ConsentMatchesSlot(before: seq<Entry>, tid: TaskId, t: Task, now: int, k: nat)
    requires TaskInv(before, tid, t, now)
    requires RespondCancellation(tid, t, now, 0, k, true).Success?
    requires RespondCancellation(tid, t, now, 0, k, true).value.commands != []
    ensures |t.requests| == 1 && k < |t.requests[0].responses|
    ensures var i := t.requests[0].responses[k].index;
            i < |t.history| && t.history[i].status == Accepted
            && RespondCancellation(tid, t, now, 0, k, true).value.task.history == t.history[i := t.history[i].(status := Cancelled)]
            && !HasKey(before, SlotCancelRefund(tid, i))
  {
    assert ResponseSound(t, 0, k);
    ActiveHasNoKeys(before, tid, t, t.requests[0].responses[k].index, now);
  }

  lemma ConsentKeeps(before: seq<Entry>, after: seq<Entry>, tid: TaskId, t: Task, now: int, k: nat)
    requires TaskInv(before, tid, t, now)
    requires RespondCancellation(tid, t, now, 0, k, true).Success?
    requires RespondCancellation(tid, t, now, 0, k, true).value.commands != []
    requires Posted(before, after, RespondCancellation(tid, t, now, 0, k, true).value.commands)
    ensures Keeps(before, after, tid, t, RespondCancellation(tid, t, now, 0, k, true).value, now, true)
  {
    var u := RespondCancellation(tid, t, now, 0, k, true).value.task;
    ConsentMatchesSlot(before, tid, t, now, k);
    var i := t.requests[0].responses[k].index;
    AnsweredConsent(t, u, k, Consented);
    if u.status == TaskCancelled {
      EndedLifecycle(t, u, i, now);
    } else {
      SameStatusLifecycle(t, u, i, now);
    }
    RefundMove(before, after, tid, t, u, i, SlotCancelRefund(tid, i), now);
  }
}
