/**
 The other half: idle reserve that is in reach does come back in some safe run, so that what is
 called stranded is exactly what no safe run can give back.
 */
module ExchangeRecovery {
  import opened Wrappers
  import opened Ledger
  import opened Tasks
  import opened Escrow
  import opened EscrowInvariants
  import opened EscrowSteps
  import opened EscrowPerformer
  import opened EscrowCreator
  import opened EscrowDeadline
  import opened Exchange
  import opened ExchangeInvariants
  import opened ExchangeRuns
  import opened ExchangeDelivery
  import opened ExchangeLife
  import opened Transitions
  import opened ExchangeIdle
  import opened ExchangeStranded

  // ---------- rejections carry their dispute window ----------

  predicate WindowSet(a: Assignment, now: int) {
    a.status == RejectedPendingDispute ==> a.rejectedAt.Some? && a.rejectedAt.value <= now && a.disputeDeadline.Some?
  }

  ghost predicate Stamped(w: World) {
    forall tid, i | tid in w.tasks && 0 <= i < |w.tasks[tid].history| :: WindowSet(w.tasks[tid].history[i], w.now)
  }

  lemma NewTasksAreEmpty(w: World, op: Op, tid: TaskId)
    requires tid in After(w, op).tasks && tid !in w.tasks
    ensures After(w, op).tasks[tid].history == []
  {
    hide RequestEffect, JobEffect, Settle;
  }

  lemma MayBecomeStamped(o: Origin, deadline: int, now: int, later: int, a: Assignment, b: Assignment)
    requires MayBecome(o, deadline, now, a, b) && WindowSet(a, now) && now <= later
    ensures WindowSet(b, later)
  {
  }

  lemma StepStamped(w: World, op: Op)
    requires Stamped(w)
    ensures Stamped(After(w, op))
  {
    hide After, WindowSet, MayBecome;
    var v := After(w, op);
    forall tid, i | tid in v.tasks && 0 <= i < |v.tasks[tid].history|
      ensures WindowSet(v.tasks[tid].history[i], v.now)
    {
      if tid in w.tasks {
        ClockRuns(w, op, tid);
        StepFollows(w, op, tid);
        if i < |w.tasks[tid].history| {
          MayBecomeStamped(w.tasks[tid].origin, w.tasks[tid].deadline, w.now, v.now, w.tasks[tid].history[i], v.tasks[tid].history[i]);
        } else {
          JoinedStamped(w.tasks[tid], w.now, v.tasks[tid].history[i], v.now);
        }
      } else {
        NewTasksAreEmpty(w, op, tid);
      }
    }
  }

  lemma JoinedStamped(t: Task, now: int, a: Assignment, later: int)
    requires MayJoin(t, now, a)
    ensures WindowSet(a, later)
  {
  }

  /** After any run, safe or not, every rejection knows when it was made and until when it can be
      disputed. */
  lemma {:induction false} RunStamped(w: World, ops: seq<Op>)
    requires Stamped(w)
    ensures Stamped(Run(w, ops))
  {
    if ops != [] {
      hide Stamped, After;
      RunStamped(w, ops[..|ops| - 1]);
      StepStamped(Run(w, ops[..|ops| - 1]), ops[|ops| - 1]);
    }
  }

  // ---------- the way of an assignment to its end ----------

  function Work(s: AssignmentStatus): nat {
    match s
    case Accepted => 2
    case RejectedPendingDispute => 2
    case Submitted => 1
    case ReviewerRequired => 1
    case Disputed => 1
    case _ => 0
  }

  function WorkLeft(h: seq<Assignment>): nat {
    if h == [] then 0 else WorkLeft(h[..|h| - 1]) + Work(h[|h| - 1].status)
  }

  lemma {:induction false} WorkUpdate(h: seq<Assignment>, i: nat, a: Assignment)
    requires i < |h|
    ensures WorkLeft(h[i := a]) == WorkLeft(h) - Work(h[i].status) + Work(a.status)
  {
    var n := |h| - 1;
    if i == n {
      assert h[i := a][..n] == h[..n];
    } else {
      assert h[i := a][..n] == h[..n][i := a];
      WorkUpdate(h[..n], i, a);
    }
  }

  /** The transaction that takes an active assignment one step nearer to being paid. */
  function NextMove(tid: TaskId, i: nat, a: Assignment, now: int, update: UpdateId): Op {
    match a.status
    case Accepted => Deliver(update, SubmitResult(tid, i))
    case Submitted =>
      if Passed(a.reviewDeadline, now) then Perform(ReviewDue(tid, i, 0, true)) else Deliver(update, Review(tid, i, Full, 0))
    case RejectedPendingDispute =>
      if Passed(a.disputeDeadline, now) then Perform(RejectionDue(tid, i, 0)) else Deliver(update, OpenDispute(tid, i))
    case Disputed => Perform(ResolveCase(tid, i, FullPayment, 0))
    case _ => Deliver(update, Review(tid, i, Full, 0))
  }

  lemma SubmitMoves(w: World, tid: TaskId, i: nat, update: UpdateId)
    requires tid in w.tasks && i < |w.tasks[tid].history| && w.tasks[tid].history[i].status == Accepted
    requires w.now < w.tasks[tid].deadline && update !in w.receipts
    ensures var v := After(w, Deliver(update, SubmitResult(tid, i)));
            tid in v.tasks && WorkLeft(v.tasks[tid].history) < WorkLeft(w.tasks[tid].history)
  {
    hide WithdrawPending;
    var t := w.tasks[tid];
    var u := Submit(t, w.now, i).value.task;
    WorkUpdate(t.history, i, u.history[i]);
  }

  lemma DisputeMoves(w: World, tid: TaskId, i: nat, update: UpdateId)
    requires tid in w.tasks && i < |w.tasks[tid].history| && w.tasks[tid].history[i].status == RejectedPendingDispute
    requires WindowSet(w.tasks[tid].history[i], w.now) && !Passed(w.tasks[tid].history[i].disputeDeadline, w.now)
    requires update !in w.receipts
    ensures var v := After(w, Deliver(update, OpenDispute(tid, i)));
            tid in v.tasks && WorkLeft(v.tasks[tid].history) < WorkLeft(w.tasks[tid].history)
  {
    var t := w.tasks[tid];
    var u := Escrow.Dispute(t, w.now, i).value.task;
    WorkUpdate(t.history, i, u.history[i]);
  }

  lemma EndingMoves(w: World, op: Op, tid: TaskId, e: Ending)
    requires WorldInv(w) && tid in w.tasks && w.tasks[tid].origin == Member && EndedBy(w, op, tid) == Some(e)
    ensures tid in After(w, op).tasks
    ensures WorkLeft(After(w, op).tasks[tid].history) < WorkLeft(w.tasks[tid].history)
  {
    hide WorldInv, After, EndedBy, StatusAfter, Abandons, Held, HasKey;
    EndingAfter(w, op, tid, e);
    WorkUpdate(w.tasks[tid].history, e.index, After(w, op).tasks[tid].history[e.index]);
  }

  lemma MoveEnds(w: World, tid: TaskId, i: nat, update: UpdateId)
    requires tid in w.tasks && i < |w.tasks[tid].history| && update !in w.receipts
    requires Is(Class.Active, w.tasks[tid].history[i].status) && w.tasks[tid].status == ClosedForNewPerformers
    ensures var a, op := w.tasks[tid].history[i], NextMove(tid, i, w.tasks[tid].history[i], w.now, update);
            && !OnWhole(op, tid) && !op.Tick? && !Overdraws(w, op, tid)
            && match EndedBy(w, op, tid)
               case None => a.status == Accepted || (a.status == RejectedPendingDispute && !Passed(a.disputeDeadline, w.now))
               case Some(e) => e == Ending(i, Approved) || (e == Ending(i, Rejected) && !Payable(a, w.now))
  {
  }

  lemma MoveStrandsNothing(w: World, tid: TaskId, i: nat, update: UpdateId)
    requires tid in w.tasks && InReach(w, tid) && w.tasks[tid].status == ClosedForNewPerformers
    requires i < |w.tasks[tid].history| && Is(Class.Active, w.tasks[tid].history[i].status) && update !in w.receipts
    ensures !Strands(w, NextMove(tid, i, w.tasks[tid].history[i], w.now, update), tid)
  {
    var t := w.tasks[tid];
    var op := NextMove(tid, i, t.history[i], w.now, update);
    assert Hopeful(t.history, w.now, NOBODY);
    MoveEnds(w, tid, i, update);
    if !Payable(t.history[i], w.now) {
      OthersGiveHope(t, i, w.now);
    }
    hide InReach, EndedBy, Count, Hopeful, NextMove;
  }

  lemma QuietMoveHelps(w: World, tid: TaskId, i: nat, update: UpdateId)
    requires LedgerSound(w) && tid in w.tasks && w.tasks[tid].origin == Member && w.now < w.tasks[tid].deadline
    requires i < |w.tasks[tid].history| && Is(Class.Active, w.tasks[tid].history[i].status) && update !in w.receipts
    requires w.tasks[tid].status == ClosedForNewPerformers && WindowSet(w.tasks[tid].history[i], w.now)
    requires EndedBy(w, NextMove(tid, i, w.tasks[tid].history[i], w.now, update), tid).None?
    ensures var op := NextMove(tid, i, w.tasks[tid].history[i], w.now, update);
            var v := After(w, op);
            && tid in v.tasks && WorkLeft(v.tasks[tid].history) < WorkLeft(w.tasks[tid].history)
            && Idle(v.book.entries, tid, v.tasks[tid]) == Idle(w.book.entries, tid, w.tasks[tid])
  {
    hide LedgerSound, After, Idle, InReach, Overdraws, EndedBy, SameAccount, Alike, OnWhole, WindowSet;
    var op := NextMove(tid, i, w.tasks[tid].history[i], w.now, update);
    MoveEnds(w, tid, i, update);
    QuietAfter(w, op, tid);
    AlikeReach(w, After(w, op), tid);
    if w.tasks[tid].history[i].status == Accepted {
      SubmitMoves(w, tid, i, update);
    } else {
      DisputeMoves(w, tid, i, update);
    }
  }

  /** Each such step is safe, strands nothing, keeps what is idle, and shortens the way. */
  lemma MoveHelps(w: World, tid: TaskId, i: nat, update: UpdateId)
    requires WorldInv(w) && Backed(w, tid) && Stamped(w) && tid in w.tasks && w.tasks[tid].origin == Member
    requires InReach(w, tid) && w.tasks[tid].status == ClosedForNewPerformers
    requires i < |w.tasks[tid].history| && Is(Class.Active, w.tasks[tid].history[i].status) && update !in w.receipts
    ensures var op := NextMove(tid, i, w.tasks[tid].history[i], w.now, update);
            var v := After(w, op);
            && !Overdraws(w, op, tid) && tid in v.tasks && v.tasks[tid].origin == Member
            && WorkLeft(v.tasks[tid].history) < WorkLeft(w.tasks[tid].history)
            && Idle(v.book.entries, tid, v.tasks[tid]) == Idle(w.book.entries, tid, w.tasks[tid])
            && !Strands(w, op, tid)
  {
    var op := NextMove(tid, i, w.tasks[tid].history[i], w.now, update);
    assert w.now < w.tasks[tid].deadline && WindowSet(w.tasks[tid].history[i], w.now);
    hide WorldInv, Backed, After, Idle, InReach, Overdraws, EndedBy, EndedIn, Stamped, WindowSet, Strands, NextMove, WorkLeft, OnWhole;
    OwnersStay(w, op, tid);
    MoveEnds(w, tid, i, update);
    MoveStrandsNothing(w, tid, i, update);
    PartsOf(w);
    match EndedBy(w, op, tid)
    case Some(e) =>
      EndingMoves(w, op, tid, e);
      EndingAfter(w, op, tid, e);
      MoveKeepsIdle(w, op, tid, e);
    case None =>
      QuietMoveHelps(w, tid, i, update);
  }

  lemma MoveKeepsIdle(w: World, op: Op, tid: TaskId, e: Ending)
    requires WorldInv(w) && Backed(w, tid) && tid in w.tasks && w.tasks[tid].origin == Member
    requires EndedBy(w, op, tid) == Some(e) && e.status != Cancelled && EndedIn(w, After(w, op), op, tid, e)
    ensures Idle(After(w, op).book.entries, tid, After(w, op).tasks[tid]) == Idle(w.book.entries, tid, w.tasks[tid])
  {
    hide WorldInv, Backed, After, Idle, Untapped, EndedIn, EndedBy, Abandons;
    AbandonedIsCancelled(w, op, tid, e);
    AccountAfterEnding(w, After(w, op), op, tid, e);
  }

  lemma OthersGiveHope(t: Task, i: nat, now: int)
    requires i < |t.history| && Hopeful(t.history, now, NOBODY) && !Promising(t.history[i], now)
    ensures Hopeful(t.history, now, i)
  {
    var k :| 0 <= k < |t.history| && k != NOBODY && Promising(t.history[k], now);
    assert k != i;
  }

  // ---------- giving the reserve back ----------

  lemma {:induction false} UpperBound(s: set<nat>) returns (b: nat)
    ensures forall x | x in s :: x < b
    decreases s
  {
    if s == {} {
      b := 0;
    } else {
      var x :| x in s;
      var c := UpperBound(s - {x});
      b := if x < c then c else x + 1;
      assert forall y | y in s :: y == x || y in s - {x};
    }
  }

  /** The close of a task in reach commits, and ends its intake. */
  lemma CloseEnds(w: World, update: UpdateId, tid: TaskId)
    requires WorldInv(w) && Backed(w, tid) && tid in w.tasks && w.tasks[tid].origin == Member && update !in w.receipts
    requires InReach(w, tid) && w.now < w.tasks[tid].deadline && Count(w.tasks[tid].history, Live) < w.tasks[tid].slots
    requires w.tasks[tid].status == Published || w.tasks[tid].status == PartiallyCompleted
    ensures var op := Deliver(update, CloseIntake(tid));
            && Step(w, op).Success? && tid in After(w, op).tasks && !Overdraws(w, op, tid)
            && Idle(After(w, op).book.entries, tid, After(w, op).tasks[tid]) == 0
  {
    hide WorldInv, Backed, BookInv, Grounded, TaskInv, Idle, Held, Count, FreshBatch, SettlementBatch, RequestCancellation, HasKey, InReach, ClosesTwice, Commit;
    var t := w.tasks[tid];
    Facts(w, tid);
    ShapeOf(w.book.entries, tid, t, w.now);
    ReachIsFull(w, tid);
    CloseIsFresh(w, tid);
    var eff := RequestCancellation(tid, t, w.now).value;
    SettlementCommits(w, tid, eff);
    FirstCloseIsSafe(w, tid);
    hide Shape, Lifecycle, Consent;
    if t.status == Published {
      OpenAfter(w, Deliver(update, CloseIntake(tid)), tid);
    } else {
      CloseAfter(w, update, tid);
    }
  }

  lemma FirstCloseIsSafe(w: World, tid: TaskId)
    requires WorldInv(w) && Backed(w, tid) && tid in w.tasks && w.tasks[tid].origin == Member && InReach(w, tid)
    ensures !ClosesTwice(w.book.entries, tid, w.tasks[tid])
  {
    hide WorldInv, Backed, Funded, BookInv, Grounded, TaskInv, Held, Count, HasKey, FreeSlots, Untapped;
    FundsOf(w, tid);
    Facts(w, tid);
    if w.tasks[tid].status == PartiallyCompleted {
      UntappedClosesOnce(w.book.entries, tid, w.tasks[tid], w.now);
    }
  }

  lemma UntappedClosesOnce(entries: seq<Entry>, tid: TaskId, t: Task, now: int)
    requires TaskInv(entries, tid, t, now) && Funded(entries, tid, t)
    requires t.origin == Member && now < t.deadline && Untapped(entries, tid, t)
    ensures !ClosesTwice(entries, tid, t)
  {
    hide TaskInv, Funded, EscrowBalanced, ClosesTwice, Held, Count, HasKey;
    if ClosesTwice(entries, tid, t) {
      var released := IdleIsUnheld(entries, tid, t, now);
      ReleasedSomething(entries, tid, t, now, released);
      BalancedHolds(entries, tid, t, released);
      PositiveTerms(entries, tid, t, now);
      SameProduct(t.reward, t.slots - released - Count(t.history, Settled), t.slots - Count(t.history, Settled));
      assert false;
    }
  }

  lemma BalancedHolds(entries: seq<Entry>, tid: TaskId, t: Task, released: nat)
    requires EscrowBalanced(entries, tid, t, released)
    ensures Held(entries, tid) == t.reward * (t.slots - released - Count(t.history, Settled))
  {
  }

  lemma CloseSucceeds(tid: TaskId, t: Task, now: int)
    requires Shape(t) && t.origin == Member && now < t.deadline && !HasPending(t) && Count(t.history, Live) < t.slots
    requires t.status == Published || t.status == PartiallyCompleted
    ensures RequestCancellation(tid, t, now).Success?
    ensures var eff := RequestCancellation(tid, t, now).value;
            && eff.task.status != Published
            && (eff.commands == [Refund(t.creator, t.reward * t.slots, TaskCancelRefund(tid))]
                || eff.commands == [Refund(t.creator, FreeSlots(t) * t.reward, CloseRefund(tid))])
    ensures FreeSlots(t) > 0
    ensures SlotsOf(t.history, Live) == {} <==> RequestCancellation(tid, t, now).value.commands == [Refund(t.creator, t.reward * t.slots, TaskCancelRefund(tid))]
    ensures SlotsOf(t.history, Live) == {} <==> Count(t.history, Live) == 0
  {
    FreeSlotsCounted(t);
    hide Shape, SlotsOf, Count, FreeSlots, ConsentRequests, HasPending;
  }

  lemma ReleaseIsFresh(b: Book, tid: TaskId, c: Command, creator: MemberId, amount: int)
    requires c == Refund(creator, amount, c.key) && amount > 0 && creator in b.credit
    requires c.key == TaskCancelRefund(tid) || c.key == CloseRefund(tid)
    requires !HasKey(b.entries, c.key)
    ensures FreshBatch(b.entries, tid, [c]) && SettlementBatch(b, [c])
  {
  }

  lemma CloseIsFresh(w: World, tid: TaskId)
    requires WorldInv(w) && Backed(w, tid) && tid in w.tasks && w.tasks[tid].origin == Member
    requires InReach(w, tid) && w.now < w.tasks[tid].deadline && Count(w.tasks[tid].history, Live) < w.tasks[tid].slots
    requires w.tasks[tid].status == Published || w.tasks[tid].status == PartiallyCompleted
    ensures RequestCancellation(tid, w.tasks[tid], w.now).Success?
    ensures var eff := RequestCancellation(tid, w.tasks[tid], w.now).value;
            && eff.task.status != Published
            && FreshBatch(w.book.entries, tid, eff.commands) && SettlementBatch(w.book, eff.commands)
  {
    var t := w.tasks[tid];
    hide WorldInv, Backed, BookInv, Held, Count, HasKey, TaskInv, RequestCancellation, FreshBatch, SettlementBatch, FreeSlots, SlotsOf, AllRecorded, InReach;
    CloseKeysUnused(w, tid);
    CloseSucceeds(tid, t, w.now);
    ReachIsFull(w, tid);
    Facts(w, tid);
    PositiveTerms(w.book.entries, tid, t, w.now);
    Times(t.reward, 1, FreeSlots(t));
    Times(t.reward, 1, t.slots);
    var c := RequestCancellation(tid, t, w.now).value.commands[0];
    hide Grounded;
    assert RequestCancellation(tid, t, w.now).value.commands == [c];
    ReleaseIsFresh(w.book, tid, c, t.creator, c.credit);
  }

  lemma CloseKeysUnused(w: World, tid: TaskId)
    requires WorldInv(w) && tid in w.tasks && InReach(w, tid)
    requires w.tasks[tid].status == Published || w.tasks[tid].status == PartiallyCompleted
    ensures Shape(w.tasks[tid]) && !HasPending(w.tasks[tid])
    ensures !HasKey(w.book.entries, CloseRefund(tid))
    ensures w.tasks[tid].status == PartiallyCompleted ==> Count(w.tasks[tid].history, Live) > 0
    ensures w.tasks[tid].status == Published ==> !HasKey(w.book.entries, TaskCancelRefund(tid))
  {
    var t := w.tasks[tid];
    hide WorldInv, BookInv, Held, Count, HasKey, TaskInv, Shape, Grounded;
    Facts(w, tid);
    ShapeOf(w.book.entries, tid, t, w.now);
    CountSplits(t.history);
    if t.status == Published {
      FreshFromPublished(w, tid);
    } else {
      NoPendingWhenIdle(t, w.now);
    }
  }

  lemma PassEnds(w: World, tid: TaskId)
    requires WorldInv(w) && Backed(w, tid) && tid in w.tasks && w.tasks[tid].origin == Member
    requires w.tasks[tid].status == Published && w.now >= w.tasks[tid].deadline
    ensures var op := Perform(DeadlineDue(tid, 0));
            && tid in After(w, op).tasks && !Overdraws(w, op, tid)
            && Idle(After(w, op).book.entries, tid, After(w, op).tasks[tid]) == 0
  {
    hide WorldInv, Backed, After, Held, Count, Drained, Step;
    FirstPass(w, tid, 0);
  }

  /** The last transaction on the way back. */
  lemma LastMove(w: World, tid: TaskId, update: UpdateId) returns (op: Op)
    requires WorldInv(w) && Backed(w, tid) && tid in w.tasks && w.tasks[tid].origin == Member && update !in w.receipts
    requires InReach(w, tid) && w.tasks[tid].status != ClosedForNewPerformers && Idle(w.book.entries, tid, w.tasks[tid]) > 0
    ensures tid in After(w, op).tasks && !Overdraws(w, op, tid)
    ensures Idle(After(w, op).book.entries, tid, After(w, op).tasks[tid]) == 0
  {
    assert w.tasks[tid].status == Published || (w.tasks[tid].status == PartiallyCompleted && w.now < w.tasks[tid].deadline);
    hide WorldInv, Backed, After, Step, Idle, InReach, Overdraws, Count, Untapped;
    ReachIsFull(w, tid);
    if w.now < w.tasks[tid].deadline {
      op := Deliver(update, CloseIntake(tid));
      CloseEnds(w, update, tid);
    } else {
      op := Perform(DeadlineDue(tid, 0));
      PassEnds(w, tid);
    }
  }

  lemma SafeStepThen(w: World, op: Op, rest: seq<Op>, tid: TaskId)
    requires !Overdraws(w, op, tid) && SafeRun(After(w, op), rest, tid)
    ensures SafeRun(w, [op] + rest, tid) && Run(w, [op] + rest) == Run(After(w, op), rest)
  {
    hide After, Overdraws;
    OneStep(w, op);
    RunConcat(w, [op], rest);
    var ops := [op] + rest;
    forall k | 0 <= k < |ops|
      ensures !Overdraws(Run(w, ops[..k]), ops[k], tid)
    {
      if k == 0 {
        assert ops[..0] == [];
      } else {
        assert ops[..k] == [op] + rest[..k - 1];
        RunConcat(w, [op], rest[..k - 1]);
        assert !Overdraws(Run(After(w, op), rest[..k - 1]), rest[k - 1], tid);
      }
    }
  }

  lemma OneStep(w: World, op: Op)
    ensures Run(w, [op]) == After(w, op) && Run(w, []) == w
  {
    hide After;
    assert [op][..0] == [];
  }

  /** Some active assignment is left to move in a closed task that is in reach. */
  lemma SomebodyActive(w: World, tid: TaskId) returns (i: nat)
    requires tid in w.tasks && InReach(w, tid) && w.tasks[tid].status == ClosedForNewPerformers
    ensures i < |w.tasks[tid].history| && Is(Class.Active, w.tasks[tid].history[i].status)
  {
    CountWitness(w.tasks[tid].history, Class.Active);
    i :| 0 <= i < |w.tasks[tid].history| && Is(Class.Active, w.tasks[tid].history[i].status);
  }

  /** Whatever is idle and in reach comes back in some safe run. */
  lemma {:induction false} Recover(w: World, tid: TaskId) returns (ops: seq<Op>)
    requires WorldInv(w) && Backed(w, tid) && Stamped(w) && tid in w.tasks && w.tasks[tid].origin == Member && InReach(w, tid)
    ensures SafeRun(w, ops, tid) && tid in Run(w, ops).tasks
    ensures Idle(Run(w, ops).book.entries, tid, Run(w, ops).tasks[tid]) == 0
    decreases WorkLeft(w.tasks[tid].history)
  {
    hide WorldInv, Backed, Stamped, After, Idle, InReach, Overdraws, SafeRun, Strands, NextMove, WorkLeft;
    IdleNeverNegative(w, tid);
    if Idle(w.book.entries, tid, w.tasks[tid]) == 0 {
      ops := [];
      NothingIsSafe(w, tid);
    } else {
      var update := UpperBound(w.receipts);
      if w.tasks[tid].status != ClosedForNewPerformers {
        var op := LastMove(w, tid, update);
        NothingIsSafe(After(w, op), tid);
        SafeStepThen(w, op, [], tid);
        ops := [op] + [];
      } else {
        var i := SomebodyActive(w, tid);
        var op := NextMove(tid, i, w.tasks[tid].history[i], w.now, update);
        MoveHelps(w, tid, i, update);
        StepBacked(w, op, tid);
        StepStamped(w, op);
        StrandsExactly(w, op, tid);
        var rest := Recover(After(w, op), tid);
        SafeStepThen(w, op, rest, tid);
        ops := [op] + rest;
      }
    }
  }

  lemma NothingIsSafe(w: World, tid: TaskId)
    ensures SafeRun(w, [], tid) && Run(w, []) == w
  {
  }

  /** Stranded is exactly what no safe run can give back. */
  lemma StrandedIsForGood(w: World, tid: TaskId)
    requires WorldInv(w) && Backed(w, tid) && Stamped(w) && tid in w.tasks && w.tasks[tid].origin == Member
    requires Idle(w.book.entries, tid, w.tasks[tid]) > 0
    ensures Stranded(w, tid) <==>
            forall ops | SafeRun(w, ops, tid) ::
              var v := Run(w, ops);
              tid in v.tasks && Idle(v.book.entries, tid, v.tasks[tid]) >= Idle(w.book.entries, tid, w.tasks[tid])
  {
    hide WorldInv, Backed, Stamped, Idle, InReach, SafeRun, Run, Abandoned;
    if Stranded(w, tid) {
      forall ops | SafeRun(w, ops, tid)
        ensures var v := Run(w, ops);
                tid in v.tasks && Idle(v.book.entries, tid, v.tasks[tid]) >= Idle(w.book.entries, tid, w.tasks[tid])
      {
        StrandedStays(w, ops, tid);
        Times(w.tasks[tid].reward, 0, Abandoned(w, ops, tid));
      }
    } else {
      var ops := Recover(w, tid);
      assert SafeRun(w, ops, tid);
    }
  }
}
