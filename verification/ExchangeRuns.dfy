/**
 Properties of whole runs: safety, and exactly when it is lost; redelivery; who may be refused;
 how long a settlement lasts.
 */
module ExchangeRuns {
  import opened Wrappers
  import opened Ledger
  import opened Tasks
  import opened Escrow
  import opened EscrowInvariants
  import opened EscrowSteps
  import opened EscrowPerformer
  import opened EscrowCreator
  import opened EscrowDeadline
  import opened Exchange
  import opened ExchangeInvariants

  /** No transaction of the run overdraws the escrow of this task. */
  ghost predicate SafeRun(w: World, ops: seq<Op>, tid: TaskId) {
    forall k | 0 <= k < |ops| :: !Overdraws(Run(w, ops[..k]), ops[k], tid)
  }

  lemma SafeFront(w: World, ops: seq<Op>, tid: TaskId)
    requires ops != [] && SafeRun(w, ops, tid)
    ensures SafeRun(w, ops[..|ops| - 1], tid) && !Overdraws(Run(w, ops[..|ops| - 1]), ops[|ops| - 1], tid)
  {
    var front := ops[..|ops| - 1];
    forall k | 0 <= k < |front|
      ensures !Overdraws(Run(w, front[..k]), front[k], tid)
    {
      assert front[..k] == ops[..k] && front[k] == ops[k];
    }
  }

  lemma RunBack(w: World, ops: seq<Op>)
    requires ops != []
    ensures Run(w, ops) == After(Run(w, ops[..|ops| - 1]), ops[|ops| - 1])
  {
  }

  /** Every run keeps the books. */
  lemma {:induction false} RunSound(w: World, ops: seq<Op>)
    requires LedgerSound(w)
    ensures LedgerSound(Run(w, ops))
  {
    if ops != [] {
      RunSound(w, ops[..|ops| - 1]);
      StepSound(Run(w, ops[..|ops| - 1]), ops[|ops| - 1]);
    }
  }

  /** After every run, safe or not, each reversal takes one entry back to zero, once, and never a leg
      of a transfer. */
  lemma RunReversals(w: World, ops: seq<Op>, i: nat)
    requires LedgerSound(w) && i < |Run(w, ops).book.entries|
    ensures UndoesOnce(Run(w, ops).book.entries, i)
  {
    hide Run, UndoesOnce, BookInv, Owned, RightPeople, Grounded;
    RunSound(w, ops);
    SoundUndoes(Run(w, ops).book, i);
  }

  /** Every run whatsoever keeps the shape, lifecycle, consent, keys and settlement of every task. */
  lemma {:induction false} RunKeeps(w: World, ops: seq<Op>)
    requires WorldInv(w)
    ensures WorldInv(Run(w, ops))
  {
    if ops != [] {
      hide WorldInv, After;
      RunKeeps(w, ops[..|ops| - 1]);
      StepKeeps(Run(w, ops[..|ops| - 1]), ops[|ops| - 1]);
    }
  }

  lemma StepBacked(w: World, op: Op, tid: TaskId)
    requires WorldInv(w) && Backed(w, tid) && !Overdraws(w, op, tid)
    ensures WorldInv(After(w, op)) && Backed(After(w, op), tid)
  {
    hide WorldInv, Backed, After;
    StepKeeps(w, op);
    assert StaysBacked(w, After(w, op), tid);
  }

  /** And every run that does not overdraw a task keeps the escrow identity of that task, whatever it
      does to others. */
  lemma {:induction false} SafeRunKeeps(w: World, ops: seq<Op>, tid: TaskId)
    requires WorldInv(w) && Backed(w, tid) && SafeRun(w, ops, tid)
    ensures WorldInv(Run(w, ops)) && Backed(Run(w, ops), tid)
  {
    if ops != [] {
      hide WorldInv, Backed, SafeRun, After, Overdraws;
      SafeFront(w, ops, tid);
      SafeRunKeeps(w, ops[..|ops| - 1], tid);
      StepBacked(Run(w, ops[..|ops| - 1]), ops[|ops| - 1], tid);
    }
  }

  // ---------- the ledger never refuses a settlement ----------

  /** Entries that would result from posting a batch, whatever the balances. */
  function Imagined(before: seq<Entry>, cmds: seq<Command>): (after: seq<Entry>)
    ensures Grew(before, after, cmds)
  {
    before + seq(|cmds|, k requires 0 <= k < |cmds| => Entry(cmds[k], 0))
  }

  predicate Gives(kind: Kind) {
    kind == TaskRewardRefunded || IsReward(kind)
  }

  /** A batch of refunds and rewards for people with accounts. */
  ghost predicate SettlementBatch(b: Book, cmds: seq<Command>) {
    forall k | 0 <= k < |cmds| :: Gives(cmds[k].kind) && cmds[k].member in b.credit
  }

  lemma GivesOnly(b: Book, cmds: seq<Command>)
    requires BookInv(b) && SettlementBatch(b, cmds) && forall k | 0 <= k < |cmds| :: ValidCommand(cmds[k])
    ensures MembersKnown(b, cmds)
    ensures forall k | 0 <= k < |cmds| :: cmds[k].credit >= 0 && cmds[k].experience >= 0
  {
    assert forall k | 0 <= k < |cmds| :: cmds[k].member in b.credit.Keys && Gives(cmds[k].kind);
  }

  lemma NoNegativeTotals(b: Book)
    requires BookInv(b)
    ensures forall m | m in b.credit :: b.credit[m] >= 0
    ensures forall m | m in b.experience :: b.experience[m] >= 0
  {
  }

  lemma FreshSettlementPosts(b: Book, tid: TaskId, cmds: seq<Command>)
    requires BookInv(b) && FreshBatch(b.entries, tid, cmds) && SettlementBatch(b, cmds)
    ensures Settle(b, cmds).Success?
  {
    if cmds != [] {
      GivesOnly(b, cmds);
      hide BookInv, ValidCommand, Gives, SettlementBatch;
      NoNegativeTotals(b);
      NothingReversed(b.entries, cmds);
      GivingBatchPosts(b, cmds);
    }
  }

  lemma Facts(w: World, tid: TaskId)
    requires WorldInv(w) && tid in w.tasks
    ensures TaskInv(w.book.entries, tid, w.tasks[tid], w.now)
    ensures Grounded(w, tid) && BookInv(w.book)
  {
    assert TasksSound(w);
  }

  lemma FundsOf(w: World, tid: TaskId)
    requires Backed(w, tid) && tid in w.tasks
    ensures Funded(w.book.entries, tid, w.tasks[tid])
  {
  }

  /** A fresh settlement commits: the task moves on, and the ledger grows by exactly its batch. */
  lemma SettlementCommits(w: World, tid: TaskId, eff: Effect)
    requires BookInv(w.book) && FreshBatch(w.book.entries, tid, eff.commands) && SettlementBatch(w.book, eff.commands)
    ensures Commit(w, tid, Success(eff)).Success?
    ensures var v := Commit(w, tid, Success(eff)).value;
            v.tasks == w.tasks[tid := eff.task] && v.now == w.now && Grew(w.book.entries, v.book.entries, eff.commands)
  {
    FreshSettlementPosts(w.book, tid, eff.commands);
    SettleOutcome(w.book, eff.commands);
    hide BookInv, SettlementBatch;
  }

  lemma DeadlineSettles(b: Book, tid: TaskId, t: Task)
    requires t.creator in b.credit
    ensures SettlementBatch(b, DeadlineCommands(tid, t))
  {
    NoShowBatch(tid, t, |t.history|);
    var missed := NoShowRefunds(tid, t, |t.history|);
    hide NoShowRefunds, LatestBySlot;
    forall k | 0 <= k < |DeadlineCommands(tid, t)|
      ensures Gives(DeadlineCommands(tid, t)[k].kind) && DeadlineCommands(tid, t)[k].member in b.credit
    {
      assert k < |missed| ==> DeadlineCommands(tid, t)[k] == missed[k];
    }
  }

  lemma JobSettles(w: World, j: Job)
    requires j.task in w.tasks && Grounded(w, j.task) && JobEffect(w, j).Success?
    ensures SettlementBatch(w.book, JobEffect(w, j).value.commands)
  {
    DeadlineSettles(w.book, j.task, w.tasks[j.task]);
    hide DeadlineCommands, Derive, WithdrawPending, AllRecorded, PublishCommands;
  }

  lemma JobIsFresh(w: World, j: Job)
    requires WorldInv(w) && j.task in w.tasks && JobEffect(w, j).Success?
    ensures FreshBatch(w.book.entries, j.task, JobEffect(w, j).value.commands)
  {
    var before, t, now, cmds := w.book.entries, w.tasks[j.task], w.now, JobEffect(w, j).value.commands;
    var after := Imagined(before, cmds);
    assert TaskInv(before, j.task, t, now);
    hide TaskInv, WorldInv, Imagined, FinalizeReview, FinalizeRejection, FinalizeDeadline, Resolve;
    match j
    case ReviewDue(tid, i, cid, fit) => FinalizeReviewKeeps(before, after, tid, t, now, i, cid, fit);
    case RejectionDue(tid, i, cid) => FinalizeRejectionKeeps(before, after, tid, t, now, i, cid);
    case DeadlineDue(tid, cid) => FinalizeDeadlineKeeps(before, after, tid, t, now, cid);
    case ResolveCase(tid, i, code, cid) =>
      ResolveKeeps(before, after, tid, t, now, i, code, cid);
  }

  /** Once its own guards pass, no scheduled settlement is ever refused by the ledger: its keys
      are new and everyone it pays has an account. */
  lemma JobsNeverRefused(w: World, j: Job)
    requires WorldInv(w) && j.task in w.tasks && JobEffect(w, j).Success?
    ensures Step(w, Perform(j)).Success?
  {
    hide FreshBatch, SettlementBatch, JobEffect, WorldInv, TaskInv, Grounded, BookInv, Commit;
    Facts(w, j.task);
    JobIsFresh(w, j);
    JobSettles(w, j);
    SettlementCommits(w, j.task, JobEffect(w, j).value);
  }

  /** The requests that settle something: leaving, reviewing, withdrawing, answering. */
  predicate SettlesSomething(r: Request) {
    r.LeaveSlot? || r.Review? || r.WithdrawTask? || r.Respond?
  }

  lemma RequestSettles(w: World, update: UpdateId, r: Request)
    requires SettlesSomething(r) && r.task in w.tasks && Grounded(w, r.task) && RequestEffect(w, update, r).Success?
    ensures SettlementBatch(w.book, RequestEffect(w, update, r).value.commands)
  {
    hide Derive, WithdrawPending, AllRecorded, PublishCommands, SlotsOf, AllAnswered;
  }

  lemma RequestIsFresh(w: World, update: UpdateId, r: Request)
    requires WorldInv(w) && SettlesSomething(r) && r.task in w.tasks && RequestEffect(w, update, r).Success?
    ensures FreshBatch(w.book.entries, r.task, RequestEffect(w, update, r).value.commands)
  {
    var before, t, now := w.book.entries, w.tasks[r.task], w.now;
    var after := Imagined(before, RequestEffect(w, update, r).value.commands);
    assert TaskInv(before, r.task, t, now);
    hide TaskInv, WorldInv, Imagined, CancelAssignment, Decide, CancelTask, RespondCancellation;
    match r
    case LeaveSlot(tid, i) => CancelAssignmentKeeps(before, after, tid, t, now, i);
    case Review(tid, i, d, cid) => DecideKeeps(before, after, tid, t, now, i, d, cid);
    case WithdrawTask(tid) => CancelTaskKeeps(before, after, tid, t, now);
    case Respond(tid, q, k, consent) => RespondKeeps(before, after, tid, t, now, q, k, consent);
  }

  /** The same for every request that settles something. */
  lemma SettlingRequestsNeverRefused(w: World, update: UpdateId, r: Request)
    requires WorldInv(w) && SettlesSomething(r) && r.task in w.tasks && RequestEffect(w, update, r).Success?
    ensures Step(w, Deliver(update, r)).Success?
  {
    hide FreshBatch, SettlementBatch, RequestEffect, WorldInv, TaskInv, Grounded, BookInv, Commit;
    Facts(w, r.task);
    RequestIsFresh(w, update, r);
    RequestSettles(w, update, r);
    SettlementCommits(w, r.task, RequestEffect(w, update, r).value);
  }

  // ---------- exactly when safety is lost ----------

  lemma SecondCloseBreaks(w: World, update: UpdateId, tid: TaskId)
    requires WorldInv(w) && Backed(w, tid) && Overdraws(w, Deliver(update, CloseIntake(tid)), tid)
    ensures !Backed(After(w, Deliver(update, CloseIntake(tid))), tid)
    ensures Held(After(w, Deliver(update, CloseIntake(tid))).book.entries, tid) < 0
  {
    hide ClosesTwice, TaskInv, Funded, WorldInv, RequestCancellation, Held, BookInv, FreshBatch, Commit;
    Facts(w, tid);
    var t, before := w.tasks[tid], w.book.entries;
    SecondCloseCommits(before, tid, t, w.now);
    var eff := RequestCancellation(tid, t, w.now).value;
    assert SettlementBatch(w.book, eff.commands);
    SettlementCommits(w, tid, eff);
    var v := After(w, Deliver(update, CloseIntake(tid)));
    assert tid in v.tasks && v.tasks[tid] == eff.task && v.now == w.now;
    SecondCloseOverdraws(before, v.book.entries, tid, t, w.now);
  }

  lemma ReopeningBreaks(w: World, tid: TaskId, i: nat, code: ResolutionCode, cid: nat)
    requires WorldInv(w) && Backed(w, tid) && Overdraws(w, Perform(ResolveCase(tid, i, code, cid)), tid)
    ensures !Backed(After(w, Perform(ResolveCase(tid, i, code, cid))), tid)
  {
    var j, t, before := ResolveCase(tid, i, code, cid), w.tasks[tid], w.book.entries;
    assert JobEffect(w, j).Success?;
    hide LeavesSlotOpen, TaskInv, Funded, WorldInv, Grounded, Held, BookInv, FreshBatch, Commit;
    Facts(w, tid);
    JobSettles(w, j);
    ReopeningMove(before, tid, t, w.now, i, code, cid);
    var eff := JobEffect(w, j).value;
    SettlementCommits(w, tid, eff);
    var v := After(w, Perform(j));
    assert tid in v.tasks && v.tasks[tid] == eff.task && v.now == w.now;
    ReopenedSlotIsUnfunded(before, v.book.entries, tid, t, w.now, i, code, cid);
  }

  /** A transaction loses the escrow of a task that comes out even if and only if it overdraws this
      task; everything else the invariant says of this and all other tasks survives it. */
  lemma KeepsExactlyWhenSafe(w: World, op: Op, tid: TaskId)
    requires WorldInv(w) && Backed(w, tid)
    ensures WorldInv(After(w, op))
    ensures Backed(After(w, op), tid) <==> !Overdraws(w, op, tid)
  {
    StepKeeps(w, op);
    if Overdraws(w, op, tid) {
      match op
      case Deliver(update, r) => SecondCloseBreaks(w, update, tid);
      case Perform(j) => ReopeningBreaks(w, tid, j.index, j.code, j.command);
    } else {
      StepBacked(w, op, tid);
    }
  }
}
