/**
 The services that run the workflows: one object that locks a task, walks its assignment rows,
 assembles a batch, applies it to the ledger and stores the new rows. Each method is one
 transaction of `Exchange.Step`.
 */
module ExchangeService {
  import opened Wrappers
  import opened Ledger
  import opened LedgerStore
  import opened Tasks
  import opened Escrow
  import opened EscrowInvariants
  import opened Exchange
  import opened ExchangeInvariants

  // ---------- walking a task's rows ----------

  lemma Next<T>(s: seq<T>, i: nat)
    requires i < |s|
    ensures s[..i + 1] == s[..i] + [s[i]] && s[..i + 1][..i] == s[..i] && s[..i + 1][i] == s[i]
  {
  }

  /** The one-pass loop: the last row of every slot wins. */
  method LatestSlots(h: seq<Assignment>) returns (latest: map<nat, AssignmentStatus>)
    ensures latest == LatestBySlot(h)
  {
    latest := map[];
    var i := 0;
    while i < |h|
      invariant 0 <= i <= |h|
      invariant latest == LatestBySlot(h[..i])
    {
      Next(h, i);
      latest := latest[h[i].slot := h[i].status];
      i := i + 1;
    }
    assert h[..i] == h;
  }

  /** Count the slots whose latest row is of a class. */
  method CountSlots(h: seq<Assignment>, c: Class) returns (n: nat)
    ensures n == |SlotsOf(h, c)|
  {
    var latest := LatestSlots(h);
    var rest := latest.Keys;
    ghost var seen: set<nat> := {};
    n := 0;
    while rest != {}
      invariant rest <= latest.Keys
      invariant seen == (set s | s in latest && s !in rest && Is(c, latest[s]))
      invariant n == |seen|
      decreases rest
    {
      var s :| s in rest;
      if Is(c, latest[s]) {
        seen := seen + {s};
        n := n + 1;
      }
      rest := rest - {s};
    }
    assert seen == SlotsOf(h, c);
  }

  method Rederive(t: Task, now: int) returns (s: TaskStatus)
    ensures s == Derive(t.status, t.slots, t.deadline, now, t.history)
  {
    var latest := LatestSlots(t.history);
    var active := CountSlots(t.history, Active);
    var hasOpenSlots := t.status == Published && now < t.deadline && |latest| < t.slots;
    assert active > 0 <==> SlotsOf(t.history, Active) != {};
    if active > 0 || hasOpenSlots {
      if t.status == ClosedForNewPerformers && now < t.deadline {
        return ClosedForNewPerformers;
      }
      return if now < t.deadline then Published else Settling;
    }
    var paid := CountSlots(t.history, Paid);
    if paid == t.slots {
      return Completed;
    }
    return if paid > 0 then PartiallyCompleted else Expired;
  }

  lemma {:induction false} SkipsHeld(h: seq<Assignment>, s: nat, n: nat, slots: nat)
    requires s <= n <= slots + 1 && forall k | s <= k < n :: SlotHeld(h, k)
    ensures FreeSlotFrom(h, s, slots) == FreeSlotFrom(h, n, slots)
    decreases n - s
  {
    if s < n {
      SkipsHeld(h, s + 1, n, slots);
    }
  }

  lemma HeldGrows(h: seq<Assignment>, a: Assignment)
    ensures forall s: nat :: SlotHeld(h + [a], s) <==> SlotHeld(h, s) || (a.slot == s && a.status != Cancelled)
  {
    forall s: nat
      ensures SlotHeld(h + [a], s) <==> SlotHeld(h, s) || (a.slot == s && a.status != Cancelled)
    {
      if SlotHeld(h, s) {
        var i :| 0 <= i < |h| && h[i].slot == s && h[i].status != Cancelled;
        assert (h + [a])[i] == h[i];
      }
      assert (h + [a])[|h|] == a;
    }
  }

  /** The lowest slot not in the set of held ones. */
  method FindFreeSlot(h: seq<Assignment>, slots: nat) returns (r: Option<nat>)
    ensures r == FreeSlotFrom(h, 1, slots)
  {
    var held: set<nat> := {};
    var i := 0;
    while i < |h|
      invariant 0 <= i <= |h|
      invariant forall s: nat :: s in held <==> SlotHeld(h[..i], s)
    {
      Next(h, i);
      HeldGrows(h[..i], h[i]);
      if h[i].status != Cancelled {
        held := held + {h[i].slot};
      }
      i := i + 1;
    }
    assert h[..i] == h;
    var n := 1;
    while n <= slots
      invariant 1 <= n <= slots + 1
      invariant forall k | 1 <= k < n :: SlotHeld(h, k)
    {
      SkipsHeld(h, 1, n, slots);
      if n !in held {
        return Some(n);
      }
      n := n + 1;
    }
    SkipsHeld(h, 1, n, slots);
    return None;
  }

  method KnownPerformer(h: seq<Assignment>, m: MemberId) returns (found: bool)
    ensures found <==> exists i | 0 <= i < |h| :: h[i].performer == m
  {
    found := false;
    var i := 0;
    while i < |h| && !found
      invariant 0 <= i <= |h|
      invariant found <==> exists j | 0 <= j < i :: h[j].performer == m
    {
      found := h[i].performer == m;
      i := i + 1;
    }
  }

  method AnyoneHolds(h: seq<Assignment>) returns (found: bool)
    ensures found <==> exists i | 0 <= i < |h| :: h[i].status != Cancelled
  {
    found := false;
    var i := 0;
    while i < |h| && !found
      invariant 0 <= i <= |h|
      invariant found <==> exists j | 0 <= j < i :: h[j].status != Cancelled
    {
      found := h[i].status != Cancelled;
      i := i + 1;
    }
  }

  method PendingRequest(t: Task) returns (found: bool)
    ensures found <==> HasPending(t)
  {
    found := false;
    var q := 0;
    while q < |t.requests| && !found
      invariant 0 <= q <= |t.requests|
      invariant found <==> exists j | 0 <= j < q :: t.requests[j].status == Pending
    {
      found := t.requests[q].status == Pending;
      q := q + 1;
    }
  }

  method WithdrawAll(r: CancelRequest) returns (w: CancelRequest)
    ensures w == Withdraw(r)
  {
    var rs := r.responses;
    var k := 0;
    while k < |rs|
      invariant 0 <= k <= |rs| == |r.responses|
      invariant forall j | 0 <= j < k :: rs[j] == WithdrawResponses(r.responses)[j]
      invariant forall j | k <= j < |rs| :: rs[j] == r.responses[j]
    {
      if rs[k].status == Unanswered {
        rs := rs[k := rs[k].(status := Withdrawn)];
      }
      k := k + 1;
    }
    assert rs == WithdrawResponses(r.responses);
    return CancelRequest(Obsolete, rs);
  }

  /** Mark every pending request, and its open responses, as lapsed. */
  method ObsoletePending(t: Task) returns (u: Task)
    ensures u == Obsoleted(t)
  {
    var qs := t.requests;
    var q := 0;
    while q < |qs|
      invariant 0 <= q <= |qs| == |t.requests|
      invariant forall j | 0 <= j < q :: qs[j] == WithdrawPending(t.requests)[j]
      invariant forall j | q <= j < |qs| :: qs[j] == t.requests[j]
    {
      if qs[q].status == Pending {
        var w := WithdrawAll(qs[q]);
        qs := qs[q := w];
      }
      q := q + 1;
    }
    assert qs == WithdrawPending(t.requests);
    return t.(requests := qs);
  }

  /** Ask every accepted performer who is the latest of his slot. */
  method AskAccepted(h: seq<Assignment>) returns (responses: seq<Response>)
    ensures responses == ConsentRequests(h, |h|)
    ensures forall i | 0 <= i < |h| ::
              h[i].status == Accepted && IsLatest(h, i) <==> Response(i, Unanswered) in responses
  {
    responses := [];
    var i := 0;
    while i < |h|
      invariant 0 <= i <= |h|
      invariant responses == ConsentRequests(h, i)
    {
      if h[i].status == Accepted && IsLatest(h, i) {
        responses := responses + [Response(i, Unanswered)];
      }
      i := i + 1;
    }
  }

  method EveryoneAnswered(r: CancelRequest) returns (all: bool)
    ensures all <==> AllAnswered(r)
  {
    all := true;
    var k := 0;
    while k < |r.responses| && all
      invariant 0 <= k <= |r.responses|
      invariant all <==> forall j | 0 <= j < k :: r.responses[j].status != Unanswered
    {
      all := r.responses[k].status != Unanswered;
      k := k + 1;
    }
  }

  /** The refunds of everyone who never submitted. */
  method CollectNoShows(tid: TaskId, t: Task) returns (refunds: seq<Command>)
    ensures refunds == NoShowRefunds(tid, t, |t.history|)
  {
    refunds := [];
    var i := 0;
    while i < |t.history|
      invariant 0 <= i <= |t.history|
      invariant refunds == NoShowRefunds(tid, t, i)
    {
      if t.history[i].status == Accepted {
        refunds := refunds + [Refund(t.creator, t.reward, OutcomeRefund(tid, i, NoShow))];
      }
      i := i + 1;
    }
  }

  method MarkNoShows(h: seq<Assignment>, cid: nat) returns (r: seq<Assignment>)
    ensures r == NoShows(h, cid)
  {
    r := h;
    var i := 0;
    while i < |h|
      invariant 0 <= i <= |h| == |r|
      invariant forall j | 0 <= j < i :: r[j] == NoShows(h, cid)[j]
      invariant forall j | i <= j < |h| :: r[j] == h[j]
    {
      if r[i].status == Accepted {
        r := r[i := MissedBy(r[i], cid)];
      }
      i := i + 1;
    }
    assert r == NoShows(h, cid);
  }

  method DeadlineBatch(tid: TaskId, t: Task) returns (cmds: seq<Command>)
    ensures cmds == DeadlineCommands(tid, t)
  {
    if t.origin == Community {
      return [];
    }
    cmds := CollectNoShows(tid, t);
    var occupied := CountSlots(t.history, Live);
    var unfilled := t.slots - occupied;
    if unfilled != 0 && t.status == Published {
      cmds := cmds + [Refund(t.creator, t.reward * unfilled, UnfilledRefund(tid))];
    }
  }

  /** Count the tasks in which a member has an active assignment. */
  method CountActive(tasks: map<TaskId, Task>, m: MemberId) returns (n: nat)
    ensures n == |ActiveTasks(tasks, m)|
  {
    var rest := tasks.Keys;
    ghost var seen: set<TaskId> := {};
    n := 0;
    while rest != {}
      invariant rest <= tasks.Keys
      invariant seen == (set t | t in tasks && t !in rest && ActiveIn(tasks[t], m))
      invariant n == |seen|
      decreases rest
    {
      var t :| t in rest;
      if ActiveIn(tasks[t], m) {
        seen := seen + {t};
        n := n + 1;
      }
      rest := rest - {t};
    }
    assert seen == ActiveTasks(tasks, m);
  }

  // ---------- the service ----------

  class Service {
    const ledger: Store
    const limit: nat
    var now: int
    var drafts: map<TaskId, Draft>
    var tasks: map<TaskId, Task>
    var receipts: set<UpdateId>

    ghost function State(): (w: World)
      reads this, ledger
    {
      World(now, limit, ledger.Contents(), drafts, tasks, receipts)
    }

    /** The books are sound; what the tasks satisfy is proved about `State`. */
    ghost predicate Valid()
      reads this, ledger
    {
      BookInv(ledger.Contents())
    }

    constructor (start: int, limit: nat)
      ensures Valid() && fresh(ledger) && State() == Start(start, limit)
    {
      ledger := new Store();
      this.limit := limit;
      now, drafts, tasks, receipts := start, map[], map[], {};
    }

    /** Apply a batch, if there is one. */
    method Apply(cmds: seq<Command>) returns (r: Result<(), Refusal>)
      requires Valid()
      modifies ledger
      ensures Valid()
      ensures r.Failure? ==> Settle(old(ledger.Contents()), cmds) == Failure(r.error) && ledger.Contents() == old(ledger.Contents())
      ensures r.Success? ==> Settle(old(ledger.Contents()), cmds) == Success(ledger.Contents())
    {
      if cmds == [] {
        return Success(());
      }
      ghost var before := ledger.Contents();
      var applied := ledger.ApplyBatch(cmds);
      if applied.Failure? {
        return Failure(LedgerRefused(applied.error));
      }
      SettleOutcome(before, cmds);
      return Success(());
    }

    /** Apply the batch of a workflow and store its task. */
    method Save(tid: TaskId, task: Task, cmds: seq<Command>) returns (r: Result<(), Refusal>)
      requires Valid() && tid in tasks
      modifies this`tasks, ledger
      ensures Valid()
      ensures Transacted(Commit(old(State()), tid, Success(Effect(task, cmds))), old(State()), r, State())
      ensures cmds == [] ==> r.Success?
    {
      var applied := Apply(cmds);
      if applied.Failure? {
        return applied;
      }
      tasks := tasks[tid := task];
      return Success(());
    }

    method Tick(to: int) returns (r: Result<(), Refusal>)
      modifies this`now
      ensures Transacted(Step(old(State()), Op.Tick(to)), old(State()), r, State())
    {
      if to < now {
        return Failure(ClockWentBack);
      }
      now := to;
      return Success(());
    }

    /** A new member gets accounts and the starting grant together, or nothing. */
    method Register(m: MemberId) returns (r: Result<(), Refusal>)
      requires Valid()
      modifies ledger
      ensures Valid()
      ensures Transacted(Step(old(State()), Op.Register(m)), old(State()), r, State())
    {
      hide BookInv, Settle;
      if m in ledger.credit {
        return Success(());
      }
      var credit, experience := ledger.credit, ledger.experience;
      GrantSettles(ledger.Contents(), m);
      ledger.AddMember(m);
      r := Apply([GrantOf(m)]);
      if r.Failure? {
        ledger.credit, ledger.experience := credit, experience;
      }
    }

    /** Transfers, manual grants, adjustments and reversals. */
    method Economy(cmds: seq<Command>) returns (r: Result<(), Refusal>)
      requires Valid()
      modifies ledger
      ensures Valid()
      ensures Transacted(Step(old(State()), Op.Economy(cmds)), old(State()), r, State())
    {
      if !NotAboutTasks(cmds) {
        return Failure(ForeignKey);
      }
      r := Apply(cmds);
    }

    method SaveDraft(tid: TaskId, draft: Draft) returns (r: Result<(), Refusal>)
      modifies this`drafts
      ensures Transacted(Step(old(State()), Op.SaveDraft(tid, draft)), old(State()), r, State())
    {
      if tid in tasks {
        return Failure(InvalidDraft);
      }
      drafts := drafts[tid := draft];
      return Success(());
    }

    method PublishDraft(update: UpdateId, tid: TaskId) returns (r: Result<(), Refusal>)
      requires Valid()
      modifies this`tasks, this`receipts, ledger
      ensures Valid()
      ensures Transacted(Step(old(State()), Deliver(update, Request.PublishDraft(tid))), old(State()), r, State())
    {
      hide BookInv, Settle;
      if update in receipts {
        return Success(());
      }
      if tid !in drafts {
        return Failure(UnknownTask);
      }
      var d := drafts[tid];
      if d.reward == 0 || d.slots == 0 || d.deadline <= now {
        return Failure(InvalidDraft);
      }
      if d.creator !in ledger.credit {
        return Failure(Refusal.UnknownMember);
      }
      var applied := Apply(PublishCommands(tid, d));
      if applied.Failure? {
        return applied;
      }
      if tid !in tasks {
        tasks := tasks[tid := Opened(d)];
      }
      receipts := receipts + {update};
      return Success(());
    }

    method EditPublished(update: UpdateId, tid: TaskId, reward: nat, slots: nat, deadline: int) returns (r: Result<(), Refusal>)
      requires Valid()
      modifies this`tasks, this`receipts, ledger
      ensures Valid()
      ensures Transacted(Step(old(State()), Deliver(update, EditTerms(tid, reward, slots, deadline))), old(State()), r, State())
    {
      hide BookInv, Settle;
      if update in receipts {
        return Success(());
      }
      if tid !in tasks {
        return Failure(UnknownTask);
      }
      var t := tasks[tid];
      if t.origin != Member {
        return Failure(CommunityTask);
      }
      if t.status != Published || now >= t.deadline {
        return Failure(WrongTaskState);
      }
      var held := AnyoneHolds(t.history);
      if held {
        return Failure(Refusal.HasPerformer);
      }
      if reward == 0 || slots == 0 || deadline <= now {
        return Failure(InvalidEdit);
      }
      var total := reward * slots;
      var delta := total - t.reserved;
      var cmds := [];
      if delta > 0 {
        cmds := [Reserve(t.creator, delta, EditReserve(tid, update))];
      } else if delta < 0 {
        cmds := [Refund(t.creator, -delta, EditRefund(tid, update))];
      }
      r := Save(tid, t.(reward := reward, slots := slots, reserved := total, deadline := deadline), cmds);
      if r.Success? {
        receipts := receipts + {update};
      }
    }

    method AcceptWithTask(update: UpdateId, tid: TaskId, performer: MemberId) returns (r: Result<(), Refusal>)
      requires Valid()
      modifies this`tasks, this`receipts, ledger
      ensures Valid()
      ensures Transacted(Step(old(State()), Deliver(update, AcceptSlot(tid, performer))), old(State()), r, State())
    {
      hide BookInv, Settle;
      if update in receipts {
        return Success(());
      }
      if tid !in tasks {
        return Failure(UnknownTask);
      }
      if performer !in ledger.credit {
        return Failure(Refusal.UnknownMember);
      }
      var t := tasks[tid];
      var pending := PendingRequest(t);
      if pending {
        return Failure(AwaitingConsent);
      }
      var known := KnownPerformer(t.history, performer);
      if known {
        return Failure(AlreadyPerformer);
      }
      if t.status != Published {
        return Failure(NotPublished);
      }
      if t.origin == Member && t.creator == performer {
        return Failure(OwnTask);
      }
      if now >= t.deadline {
        return Failure(DeadlinePassed);
      }
      var active := CountActive(tasks, performer);
      if active >= limit {
        return Failure(ActiveLimitReached);
      }
      var slot := FindFreeSlot(t.history, t.slots);
      if slot.None? {
        return Failure(NoFreeSlot);
      }
      var row := Assignment(performer, slot.value, Accepted, None, None, None, None, None);
      r := Save(tid, t.(history := t.history + [row]), []);
      receipts := receipts + {update};
    }

    method SubmitResult(update: UpdateId, tid: TaskId, i: nat) returns (r: Result<(), Refusal>)
      requires Valid()
      modifies this`tasks, this`receipts, ledger
      ensures Valid()
      ensures Transacted(Step(old(State()), Deliver(update, Request.SubmitResult(tid, i))), old(State()), r, State())
    {
      hide BookInv, Settle;
      if update in receipts {
        return Success(());
      }
      if tid !in tasks {
        return Failure(UnknownTask);
      }
      var t := tasks[tid];
      if i >= |t.history| {
        return Failure(UnknownAssignment);
      }
      var a := t.history[i];
      if a.status != Accepted {
        return Failure(WrongAssignmentState);
      }
      if now >= t.deadline {
        return Failure(DeadlinePassed);
      }
      var u := ObsoletePending(t);
      var due := a.reviewDeadline;
      if due.None? {
        due := Some(now + REVIEW_WINDOW);
      }
      r := Save(tid, u.(history := u.history[i := a.(status := Submitted, reviewDeadline := due)]), []);
      receipts := receipts + {update};
    }

    method Cancel(update: UpdateId, tid: TaskId, i: nat) returns (r: Result<(), Refusal>)
      requires Valid()
      modifies this`tasks, this`receipts, ledger
      ensures Valid()
      ensures Transacted(Step(old(State()), Deliver(update, LeaveSlot(tid, i))), old(State()), r, State())
    {
      hide BookInv, Settle;
      if update in receipts {
        return Success(());
      }
      if tid !in tasks {
        return Failure(UnknownTask);
      }
      var t := tasks[tid];
      if i >= |t.history| {
        return Failure(UnknownAssignment);
      }
      if t.history[i].status != Accepted {
        return Failure(WrongAssignmentState);
      }
      var u := ObsoletePending(t);
      u := u.(history := u.history[i := u.history[i].(status := Cancelled)]);
      var cmds := [];
      if t.status == ClosedForNewPerformers && t.origin == Member {
        var active := CountSlots(u.history, Active);
        assert active == 0 <==> SlotsOf(u.history, Active) == {};
        if active == 0 {
          cmds := [Refund(t.creator, t.reward, SlotCancelRefund(tid, i))];
          u := u.(status := TaskCancelled);
        }
      }
      r := Save(tid, u, cmds);
      if r.Success? {
        receipts := receipts + {update};
      }
    }

    method Decide(update: UpdateId, tid: TaskId, i: nat, d: Decision, cid: nat) returns (r: Result<(), Refusal>)
      requires Valid()
      modifies this`tasks, this`receipts, ledger
      ensures Valid()
      ensures Transacted(Step(old(State()), Deliver(update, Review(tid, i, d, cid))), old(State()), r, State())
    {
      hide BookInv, Settle, Derive, DecisionCommands, HalfUp, ActiveTasks;
      if update in receipts {
        return Success(());
      }
      if tid !in tasks {
        return Failure(UnknownTask);
      }
      var t := tasks[tid];
      if i >= |t.history| {
        return Failure(UnknownAssignment);
      }
      var a := t.history[i];
      if a.status == Approved || a.status == PartiallyApproved || a.status == RejectedPendingDispute {
        if a.outcome != Some(Decided(d)) || a.command != Some(cid) {
          return Failure(OtherOutcome);
        }
        r := Save(tid, t, []);
        receipts := receipts + {update};
        return;
      }
      if a.status != Submitted && a.status != ReviewerRequired {
        return Failure(WrongAssignmentState);
      }
      if a.status == Submitted && a.reviewDeadline.Some? && now >= a.reviewDeadline.value {
        return Failure(ReviewWindowClosed);
      }
      if d == Partial && t.reward < 2 {
        return Failure(RewardTooSmall);
      }
      a := a.(status := DecidedStatus(d), outcome := Some(Decided(d)), command := Some(cid));
      if d == Reject {
        a := a.(rejectedAt := Some(now), disputeDeadline := Some(now + DISPUTE_WINDOW));
      }
      var u, cmds := t.(history := t.history[i := a]), [];
      if d != Reject {
        var status := Rederive(u, now);
        u := u.(status := status);
        cmds := DecisionCommands(tid, t, i, d);
      }
      r := Save(tid, u, cmds);
      if r.Success? {
        receipts := receipts + {update};
      }
    }

    method Dispute(update: UpdateId, tid: TaskId, i: nat) returns (r: Result<(), Refusal>)
      requires Valid()
      modifies this`tasks, this`receipts, ledger
      ensures Valid()
      ensures Transacted(Step(old(State()), Deliver(update, OpenDispute(tid, i))), old(State()), r, State())
    {
      hide BookInv, Settle;
      if update in receipts {
        return Success(());
      }
      if tid !in tasks {
        return Failure(UnknownTask);
      }
      var t := tasks[tid];
      if i >= |t.history| {
        return Failure(UnknownAssignment);
      }
      var a := t.history[i];
      if a.status != RejectedPendingDispute || a.rejectedAt.None? || a.disputeDeadline.None? {
        return Failure(WrongAssignmentState);
      }
      if now < a.rejectedAt.value || now >= a.disputeDeadline.value {
        return Failure(ReviewWindowClosed);
      }
      r := Save(tid, t.(history := t.history[i := a.(status := Disputed)]), []);
      receipts := receipts + {update};
    }

    method CancelTask(update: UpdateId, tid: TaskId) returns (r: Result<(), Refusal>)
      requires Valid()
      modifies this`tasks, this`receipts, ledger
      ensures Valid()
      ensures Transacted(Step(old(State()), Deliver(update, WithdrawTask(tid))), old(State()), r, State())
    {
      hide BookInv, Settle;
      if update in receipts {
        return Success(());
      }
      if tid !in tasks {
        return Failure(UnknownTask);
      }
      var t := tasks[tid];
      if t.origin != Member {
        return Failure(CommunityTask);
      }
      if t.status != Published {
        return Failure(WrongTaskState);
      }
      if now >= t.deadline {
        return Failure(DeadlinePassed);
      }
      var held := AnyoneHolds(t.history);
      if held {
        return Failure(Refusal.HasPerformer);
      }
      r := Save(tid, t.(status := TaskCancelled), [Refund(t.creator, t.reserved, TaskCancelRefund(tid))]);
      if r.Success? {
        receipts := receipts + {update};
      }
    }

    method RequestCancellation(update: UpdateId, tid: TaskId) returns (r: Result<(), Refusal>)
      requires Valid()
      modifies this`tasks, this`receipts, ledger
      ensures Valid()
      ensures Transacted(Step(old(State()), Deliver(update, CloseIntake(tid))), old(State()), r, State())
    {
      hide BookInv, Settle, HasPending, ConsentRequests;
      if update in receipts {
        return Success(());
      }
      if tid !in tasks {
        return Failure(UnknownTask);
      }
      var t := tasks[tid];
      if t.origin != Member {
        return Failure(CommunityTask);
      }
      if t.status == TaskCancelled {
        r := Save(tid, t, []);
        receipts := receipts + {update};
        return;
      }
      if t.status != Published && t.status != PartiallyCompleted {
        return Failure(WrongTaskState);
      }
      if now >= t.deadline {
        return Failure(DeadlinePassed);
      }
      var occupied := CountSlots(t.history, Live);
      assert occupied == 0 <==> SlotsOf(t.history, Live) == {};
      var free := if t.slots > occupied then t.slots - occupied else 0;
      if t.status == PartiallyCompleted && free == 0 {
        return Failure(NoFreeSlotsToRelease);
      }
      var u, cmds := t, [];
      if occupied == 0 {
        cmds := [Refund(t.creator, t.reserved, TaskCancelRefund(tid))];
        u := t.(status := TaskCancelled);
      } else {
        var pending := PendingRequest(t);
        if pending {
          return Failure(RequestPending);
        }
        if free > 0 {
          cmds := [Refund(t.creator, free * t.reward, CloseRefund(tid))];
        }
        var asked := AskAccepted(t.history);
        u := t.(status := ClosedForNewPerformers);
        if asked != [] {
          u := u.(requests := u.requests + [CancelRequest(Pending, asked)]);
        } else {
          assert u.requests + [] == u.requests;
        }
      }
      r := Save(tid, u, cmds);
      if r.Success? {
        receipts := receipts + {update};
      }
    }

    method RespondCancellation(update: UpdateId, tid: TaskId, q: nat, k: nat, consent: bool) returns (r: Result<(), Refusal>)
      requires Valid()
      modifies this`tasks, this`receipts, ledger
      ensures Valid()
      ensures Transacted(Step(old(State()), Deliver(update, Respond(tid, q, k, consent))), old(State()), r, State())
    {
      hide BookInv, Settle, AllAnswered;
      if update in receipts {
        return Success(());
      }
      if tid !in tasks {
        return Failure(UnknownTask);
      }
      var t := tasks[tid];
      if q >= |t.requests| || k >= |t.requests[q].responses| {
        return Failure(RequestInactive);
      }
      if t.origin != Member {
        return Failure(CommunityTask);
      }
      var request := t.requests[q];
      var open := t.status == Published || t.status == ClosedForNewPerformers;
      var unanswered := request.responses[k].status == Unanswered;
      var u, cmds := t, [];
      if open && request.status == Pending && unanswered && now >= t.deadline {
        var lapsed := WithdrawAll(request);
        u := t.(requests := t.requests[q := lapsed]);
      } else if request.status != Obsolete {
        if request.status != Pending || !unanswered || !open {
          return Failure(RequestInactive);
        }
        var answer := if consent then Consented else Declined;
        request := request.(responses := request.responses[k := request.responses[k].(status := answer)]);
        var all := EveryoneAnswered(request);
        if all {
          request := request.(status := RequestCompleted);
        }
        u := t.(requests := t.requests[q := request]);
        if consent {
          var i := request.responses[k].index;
          if i < |t.history| && t.history[i].status == Accepted {
            u := u.(history := u.history[i := u.history[i].(status := Cancelled)]);
          }
          cmds := [Refund(t.creator, t.reward, SlotCancelRefund(tid, i))];
          var active := CountSlots(u.history, Active);
          assert active == 0 <==> SlotsOf(u.history, Active) == {};
          if active == 0 {
            u := u.(status := TaskCancelled);
          }
        }
      }
      r := Save(tid, u, cmds);
      if r.Success? {
        receipts := receipts + {update};
      }
    }

    method FinalizeReview(tid: TaskId, i: nat, cid: nat, reviewerFit: bool) returns (r: Result<(), Refusal>)
      requires Valid()
      modifies this`tasks, ledger
      ensures Valid()
      ensures Transacted(Step(old(State()), Perform(ReviewDue(tid, i, cid, reviewerFit))), old(State()), r, State())
    {
      hide BookInv, Settle, Derive;
      if tid !in tasks {
        return Failure(UnknownTask);
      }
      var t := tasks[tid];
      if i >= |t.history| {
        return Failure(UnknownAssignment);
      }
      var a := t.history[i];
      if a.status != Submitted {
        r := Save(tid, t, []);
        return;
      }
      if a.reviewDeadline.None? || now < a.reviewDeadline.value {
        return Failure(TooEarly);
      }
      if t.origin == Community && !reviewerFit {
        r := Save(tid, t.(history := t.history[i := a.(status := ReviewerRequired, reviewDeadline := None)]), []);
        return;
      }
      var u := t.(history := t.history[i := a.(status := Approved, outcome := Some(Autoconfirmed), command := Some(cid))]);
      var status := Rederive(u, now);
      r := Save(tid, u.(status := status), [Earn(FullKind(t), a.performer, t.reward, OutcomeReward(tid, i, Approved))]);
    }

    method FinalizeRejection(tid: TaskId, i: nat, cid: nat) returns (r: Result<(), Refusal>)
      requires Valid()
      modifies this`tasks, ledger
      ensures Valid()
      ensures Transacted(Step(old(State()), Perform(RejectionDue(tid, i, cid))), old(State()), r, State())
    {
      hide BookInv, Settle, Derive;
      if tid !in tasks {
        return Failure(UnknownTask);
      }
      var t := tasks[tid];
      if i >= |t.history| {
        return Failure(UnknownAssignment);
      }
      var a := t.history[i];
      if a.status != RejectedPendingDispute {
        r := Save(tid, t, []);
        return;
      }
      if a.disputeDeadline.None? || now < a.disputeDeadline.value {
        return Failure(TooEarly);
      }
      var cmds := [];
      if t.origin == Member {
        cmds := [Refund(t.creator, t.reward, OutcomeRefund(tid, i, Rejected))];
      }
      var u := t.(history := t.history[i := a.(status := Rejected, outcome := Some(RejectionFinal), command := Some(cid))]);
      var status := Rederive(u, now);
      r := Save(tid, u.(status := status), cmds);
    }

    method ResolveCase(tid: TaskId, i: nat, code: ResolutionCode, cid: nat) returns (r: Result<(), Refusal>)
      requires Valid()
      modifies this`tasks, ledger
      ensures Valid()
      ensures Transacted(Step(old(State()), Perform(Job.ResolveCase(tid, i, code, cid))), old(State()), r, State())
    {
      hide BookInv, Settle, Derive, ResolutionCommands;
      if tid !in tasks {
        return Failure(UnknownTask);
      }
      var t := tasks[tid];
      if i >= |t.history| {
        return Failure(UnknownAssignment);
      }
      if t.history[i].status != Disputed {
        return Failure(WrongAssignmentState);
      }
      if !Applicable(code, t.origin) {
        return Failure(CodeNotApplicable);
      }
      var a := t.history[i].(status := ResolvedStatus(code), outcome := Some(Resolved(code)), command := Some(cid));
      var u := t.(history := t.history[i := a]);
      var status := Rederive(u, now);
      r := Save(tid, u.(status := status), ResolutionCommands(tid, t, i, code));
    }

    method FinalizeDeadline(tid: TaskId, cid: nat) returns (r: Result<(), Refusal>)
      requires Valid()
      modifies this`tasks, ledger
      ensures Valid()
      ensures Transacted(Step(old(State()), Perform(DeadlineDue(tid, cid))), old(State()), r, State())
    {
      hide BookInv, Settle, Derive, DeadlineCommands;
      if tid !in tasks {
        return Failure(UnknownTask);
      }
      var t := tasks[tid];
      if now < t.deadline {
        return Failure(TooEarly);
      }
      var cmds := DeadlineBatch(tid, t);
      var u := ObsoletePending(t);
      var marked := MarkNoShows(t.history, cid);
      u := u.(history := marked);
      var status := Rederive(u, now);
      r := Save(tid, u.(status := status), cmds);
    }
  }

  /** How a method reports a transaction: a refusal leaves the state, a success replaces it. */
  ghost predicate Transacted(step: Result<World, Refusal>, before: World, r: Result<(), Refusal>, after: World) {
    && (r.Failure? ==> step == Failure(r.error) && after == before)
    && (r.Success? ==> step == Success(after))
  }
}
