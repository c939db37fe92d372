/**
 How a task lives through a run: intake never reopens, what is settled stays settled, and what
 the deadline leaves behind.
 */
module ExchangeLife {
  import opened Wrappers
  import opened Ledger
  import opened Tasks
  import opened Escrow
  import opened EscrowInvariants
  import opened EscrowSteps
  import opened EscrowPerformer
  import opened EscrowCreator
  import opened EscrowDeadline
  import opened Exchange
  import opened ExchangeInvariants
  import opened ExchangeRuns

  // ---------- one step of one task ----------

  /** What no transaction on a task can do: reopen intake, touch an assignment that is no longer
      active, or change the terms once somebody holds a slot. */
  ghost predicate Onward(t: Task, u: Task) {
    && (u.status == Published ==> t.status == Published)
    && |t.history| <= |u.history|
    && (forall i | 0 <= i < |t.history| && !Is(Active, t.history[i].status) :: u.history[i] == t.history[i])
    && (t.status != Published ==> |u.history| == |t.history|)
    && (forall i | 0 <= i < |t.history| :: u.history[i].performer == t.history[i].performer)
    && (t.status != Published || (exists i | 0 <= i < |t.history| :: t.history[i].status != Cancelled) ==> SameTerms(t, u))
  }

  lemma RequestMovesOnward(w: World, update: UpdateId, r: Request)
    requires r.task in w.tasks && !r.PublishDraft? && RequestEffect(w, update, r).Success?
    requires TaskInv(w.book.entries, r.task, w.tasks[r.task], w.now)
    ensures Onward(w.tasks[r.task], RequestEffect(w, update, r).value.task)
  {
    var t := w.tasks[r.task];
    if r.AcceptSlot? {
      var a := AcceptEffect(t, w.now, r.performer, |ActiveTasks(w.tasks, r.performer)|, w.limit);
    } else {
      RequestReopensNothing(w, update, r);
      if r.Review? {
        hide Shape, Lifecycle, Consent, KeysExplained, Settlement, Funded, ActiveTasks;
        ReviewStaysClosed(w.book.entries, r.task, t, w.now, r.index, r.decision, r.command);
      } else {
        hide TaskInv, NothingReopened, SlotsOf, ConsentRequests, WithdrawPending, AllAnswered;
      }
    }
  }

  lemma ReviewStaysClosed(entries: seq<Entry>, tid: TaskId, t: Task, now: int, i: nat, d: Decision, cid: nat)
    requires TaskInv(entries, tid, t, now) && Decide(tid, t, now, i, d, cid).Success?
    ensures var u := Decide(tid, t, now, i, d, cid).value.task;
            SameTerms(t, u) && (u.status == Published ==> t.status == Published)
  {
    hide TaskInv, Aggregated;
    if (t.history[i].status == Submitted || t.history[i].status == ReviewerRequired) && d != Reject {
      var decided := t.history[i].(status := DecidedStatus(d), outcome := Some(Decided(d)), command := Some(cid));
      DecidedMove(entries, tid, t, decided, i, now);
    }
  }

  lemma JobStaysClosed(w: World, j: Job)
    requires j.task in w.tasks && JobEffect(w, j).Success?
    requires TaskInv(w.book.entries, j.task, w.tasks[j.task], w.now)
    ensures var t, u := w.tasks[j.task], JobEffect(w, j).value.task;
            SameTerms(t, u) && (u.status == Published ==> t.status == Published)
  {
    var entries, t, now := w.book.entries, w.tasks[j.task], w.now;
    match j
    case DeadlineDue(_, _) =>
      hide TaskInv;
    case ReviewDue(tid, i, cid, fit) =>
      hide TaskInv, Aggregated;
      if t.history[i].status == Submitted && !(t.origin == Community && !fit) {
        DecidedMove(entries, tid, t, t.history[i].(status := Approved, outcome := Some(Autoconfirmed), command := Some(cid)), i, now);
      }
    case RejectionDue(tid, i, cid) =>
      hide TaskInv, Aggregated;
      if t.history[i].status == RejectedPendingDispute {
        DecidedMove(entries, tid, t, t.history[i].(status := Rejected, outcome := Some(RejectionFinal), command := Some(cid)), i, now);
      }
    case ResolveCase(tid, i, code, cid) =>
      hide TaskInv, Aggregated;
      DecidedMove(entries, tid, t, t.history[i].(status := ResolvedStatus(code), outcome := Some(Resolved(code)), command := Some(cid)), i, now);
  }

  lemma JobMovesOnward(w: World, j: Job)
    requires j.task in w.tasks && JobEffect(w, j).Success?
    requires TaskInv(w.book.entries, j.task, w.tasks[j.task], w.now)
    ensures Onward(w.tasks[j.task], JobEffect(w, j).value.task)
  {
    JobReopensNothing(w, j);
    JobStaysClosed(w, j);
    hide TaskInv, JobEffect;
  }

  lemma OnwardSelf(t: Task)
    ensures Onward(t, t)
  {
  }

  lemma StepOnward(w: World, op: Op, tid: TaskId)
    requires TasksSound(w) && tid in w.tasks
    ensures tid in After(w, op).tasks && Onward(w.tasks[tid], After(w, op).tasks[tid])
  {
    OnwardSelf(w.tasks[tid]);
    if Step(w, op).Success? {
      match op
      case Deliver(update, r) =>
        if update !in w.receipts && !r.PublishDraft? && r.task == tid {
          hide Onward, TaskInv;
          RequestMovesOnward(w, update, r);
        }
      case Perform(j) =>
        if j.task == tid {
          hide Onward, TaskInv;
          JobMovesOnward(w, j);
        }
      case _ =>
    }
  }

  /** Over any run, a task that has left the published state never returns to it. */
  lemma {:induction false} NeverPublishedAgain(w: World, ops: seq<Op>, tid: TaskId)
    requires WorldInv(w) && tid in w.tasks && w.tasks[tid].status != Published
    ensures tid in Run(w, ops).tasks && Run(w, ops).tasks[tid].status != Published
  {
    if ops != [] {
      var front := ops[..|ops| - 1];
      NeverPublishedAgain(w, front, tid);
      RunKeeps(w, front);
      StepOnward(Run(w, front), ops[|ops| - 1], tid);
    }
  }

  // ---------- settled once, for good ----------

  ghost predicate SettledAlike(w: World, v: World, tid: TaskId, i: nat)
    requires tid in w.tasks && i < |w.tasks[tid].history|
  {
    && tid in v.tasks && i < |v.tasks[tid].history|
    && v.tasks[tid].history[i] == w.tasks[tid].history[i]
    && SameTerms(w.tasks[tid], v.tasks[tid])
  }

  lemma StepLeavesSettled(w: World, op: Op, tid: TaskId, i: nat)
    requires TasksSound(w) && tid in w.tasks && i < |w.tasks[tid].history|
    requires Is(Settled, w.tasks[tid].history[i].status)
    ensures SettledAlike(w, After(w, op), tid, i)
  {
    hide TaskInv, TasksSound, Step;
    StepOnward(w, op, tid);
    assert w.tasks[tid].history[i].status != Cancelled;
  }

  lemma {:induction false} RunLeavesSettled(w: World, ops: seq<Op>, tid: TaskId, i: nat)
    requires WorldInv(w) && tid in w.tasks && i < |w.tasks[tid].history|
    requires Is(Settled, w.tasks[tid].history[i].status)
    ensures SettledAlike(w, Run(w, ops), tid, i)
  {
    if ops != [] {
      var front := ops[..|ops| - 1];
      RunLeavesSettled(w, front, tid, i);
      RunKeeps(w, front);
      hide WorldInv;
      PartsOf(Run(w, front));
      StepLeavesSettled(Run(w, front), ops[|ops| - 1], tid, i);
    }
  }

  lemma PartsOf(w: World)
    requires WorldInv(w)
    ensures TasksSound(w) && LedgerSound(w)
  {
  }

  lemma SettledBooks(w: World, tid: TaskId, i: nat)
    requires WorldInv(w) && tid in w.tasks && i < |w.tasks[tid].history|
    ensures SettledAsDue(w.book.entries, tid, w.tasks[tid], i)
  {
    hide WorldInv, Shape, Lifecycle, Consent, KeysExplained, SettledAsDue, BookInv, Grounded;
    Facts(w, tid);
  }

  /** Once an assignment is settled, no run of any length, safe or not, pays or returns anything more for
      it; on a member task what was paid and what was returned add up to the slot's reward. */
  lemma SettledOnce(w: World, ops: seq<Op>, tid: TaskId, i: nat)
    requires WorldInv(w) && tid in w.tasks && i < |w.tasks[tid].history|
    requires Is(Settled, w.tasks[tid].history[i].status)
    ensures var v := Run(w, ops);
            && SettledAlike(w, v, tid, i)
            && Booked(v.book.entries, PaidFor(tid, i)) == Booked(w.book.entries, PaidFor(tid, i))
            && Booked(v.book.entries, ReturnedFor(tid, i)) == Booked(w.book.entries, ReturnedFor(tid, i))
            && (w.tasks[tid].origin == Member ==>
                  Booked(v.book.entries, PaidFor(tid, i)) + Booked(v.book.entries, ReturnedFor(tid, i)) == w.tasks[tid].reward)
  {
    hide Run, WorldInv, Booked;
    var v := Run(w, ops);
    RunLeavesSettled(w, ops, tid, i);
    RunKeeps(w, ops);
    SettledBooks(w, tid, i);
    SettledBooks(v, tid, i);
  }

  // ---------- the deadline ----------

  predicate Drained(t: Task) {
    t.status != Published && forall i | 0 <= i < |t.history| :: t.history[i].status != Accepted
  }

  lemma {:induction false} NoAcceptedNoRefunds(tid: TaskId, t: Task, n: nat)
    requires n <= |t.history| && Drained(t)
    ensures NoShowRefunds(tid, t, n) == []
  {
    if n > 0 {
      NoAcceptedNoRefunds(tid, t, n - 1);
    }
  }

  /** The deadline pass over a published task leaves nobody merely accepted, and exactly the
      reward of every slot still under review, dispute or replacement in escrow. */
  lemma DeadlineLeavesReviews(before: seq<Entry>, after: seq<Entry>, tid: TaskId, t: Task, now: int, cid: nat)
    requires TaskInv(before, tid, t, now) && Funded(before, tid, t)
    requires t.origin == Member && t.status == Published && now >= t.deadline
    requires Posted(before, after, DeadlineCommands(tid, t))
    requires DeadlineCommands(tid, t) == [] ==> after == before
    ensures FinalizeDeadline(tid, t, now, cid).Success?
    ensures var u := FinalizeDeadline(tid, t, now, cid).value.task;
            Drained(u) && Held(after, tid) == u.reward * Count(u.history, Active)
  {
    hide Shape, Lifecycle, Consent, KeysExplained, Settlement, FreshBatch, DeadlineCommands, EscrowBalanced, NoShows, Held, Count;
    var u := FinalizeDeadline(tid, t, now, cid).value.task;
    DeadlineFresh(before, tid, t, now);
    BatchGrew(before, after, tid, DeadlineCommands(tid, t));
    var released: nat :| EscrowBalanced(before, tid, t, released);
    var released' := DeadlineBalance(before, after, tid, t, u, now, cid, released);
    CountSplits(u.history);
    HeldWhenReleased(after, tid, u, released');
    NoneAccepted(t.history, cid);
  }

  lemma NoneAccepted(h: seq<Assignment>, cid: nat)
    ensures forall i | 0 <= i < |h| :: NoShows(h, cid)[i].status != Accepted
  {
  }

  lemma BatchGrew(before: seq<Entry>, after: seq<Entry>, tid: TaskId, cmds: seq<Command>)
    requires FreshBatch(before, tid, cmds) && Posted(before, after, cmds)
    ensures Grew(before, after, cmds)
  {
  }

  lemma HeldWhenReleased(entries: seq<Entry>, tid: TaskId, u: Task, released: nat)
    requires EscrowBalanced(entries, tid, u, released) && released == u.slots - Count(u.history, Live)
    requires Count(u.history, Live) == Count(u.history, Active) + Count(u.history, Settled)
    ensures Held(entries, tid) == u.reward * Count(u.history, Active)
  {
    hide Held, Count, SlotReturned, TaskLevelRefunded;
  }

  lemma StepKeepsDrained(w: World, op: Op, tid: TaskId)
    requires TasksSound(w) && tid in w.tasks && Drained(w.tasks[tid])
    ensures tid in After(w, op).tasks && Drained(After(w, op).tasks[tid])
  {
    hide TaskInv, TasksSound, RequestEffect, JobEffect;
    StepOnward(w, op, tid);
    if Step(w, op).Success? {
      match op
      case Deliver(update, r) =>
        if update !in w.receipts && !r.PublishDraft? && r.task == tid {
          RequestAcceptsNobody(w, update, r);
        }
      case Perform(j) =>
        if j.task == tid {
          JobAcceptsNobody(w, j);
        }
      case _ =>
    }
  }

  lemma RequestAcceptsNobody(w: World, update: UpdateId, r: Request)
    requires r.task in w.tasks && !r.PublishDraft? && RequestEffect(w, update, r).Success? && Drained(w.tasks[r.task])
    ensures var u := RequestEffect(w, update, r).value.task;
            forall i | 0 <= i < |u.history| :: u.history[i].status != Accepted
  {
    hide SlotsOf, Derive, ConsentRequests, WithdrawPending, AllAnswered, FreeSlotFrom, SlotHeld;
  }

  lemma JobAcceptsNobody(w: World, j: Job)
    requires j.task in w.tasks && JobEffect(w, j).Success? && Drained(w.tasks[j.task])
    ensures var u := JobEffect(w, j).value.task;
            forall i | 0 <= i < |u.history| :: u.history[i].status != Accepted
  {
    hide DeadlineCommands, Derive, WithdrawPending;
  }

  lemma {:induction false} RunKeepsDrained(w: World, ops: seq<Op>, tid: TaskId)
    requires WorldInv(w) && tid in w.tasks && Drained(w.tasks[tid])
    ensures tid in Run(w, ops).tasks && Drained(Run(w, ops).tasks[tid])
  {
    if ops != [] {
      var front := ops[..|ops| - 1];
      RunKeepsDrained(w, front, tid);
      RunKeeps(w, front);
      hide WorldInv, Drained;
      PartsOf(Run(w, front));
      StepKeepsDrained(Run(w, front), ops[|ops| - 1], tid);
    }
  }

  lemma DrainedAsksNothing(tid: TaskId, t: Task)
    requires Drained(t)
    ensures DeadlineCommands(tid, t) == []
  {
    NoAcceptedNoRefunds(tid, t, |t.history|);
  }

  /** Deadline drain: the first pass from a published state succeeds, leaves the escrow of the
      slots under review and nothing else, and no later pass, after any run, moves a credit. */
  lemma DeadlineDrains(w: World, tid: TaskId, cid: nat, ops: seq<Op>, again: nat)
    requires WorldInv(w) && Backed(w, tid) && tid in w.tasks && w.tasks[tid].origin == Member
    requires w.tasks[tid].status == Published && w.now >= w.tasks[tid].deadline
    ensures Step(w, Perform(DeadlineDue(tid, cid))).Success?
    ensures var v := After(w, Perform(DeadlineDue(tid, cid)));
            && tid in v.tasks && Drained(v.tasks[tid])
            && Held(v.book.entries, tid) == v.tasks[tid].reward * Count(v.tasks[tid].history, Active)
            && After(Run(v, ops), Perform(DeadlineDue(tid, again))).book == Run(v, ops).book
  {
    hide WorldInv, Backed, Run, After, Step, Drained, Held, Count;
    var op := Perform(DeadlineDue(tid, cid));
    var v := After(w, op);
    FirstPass(w, tid, cid);
    StepKeeps(w, op);
    RunKeepsDrained(v, ops, tid);
    DrainedPassIsQuiet(Run(v, ops), tid, again);
  }

  lemma DrainedPassIsQuiet(w: World, tid: TaskId, cid: nat)
    requires tid in w.tasks && Drained(w.tasks[tid])
    ensures After(w, Perform(DeadlineDue(tid, cid))).book == w.book
  {
    DrainedAsksNothing(tid, w.tasks[tid]);
    hide DeadlineCommands, Drained, Aggregated, NoShows;
  }

  /** The deadline pass commits as soon as the deadline has come. */
  lemma PassCommits(w: World, tid: TaskId, cid: nat)
    requires WorldInv(w) && tid in w.tasks && w.now >= w.tasks[tid].deadline
    ensures Step(w, Perform(DeadlineDue(tid, cid))).Success?
    ensures var v, t := After(w, Perform(DeadlineDue(tid, cid))), w.tasks[tid];
            && v.tasks == w.tasks[tid := FinalizeDeadline(tid, t, w.now, cid).value.task] && v.now == w.now
            && Grew(w.book.entries, v.book.entries, DeadlineCommands(tid, t))
  {
    hide WorldInv, FreshBatch, SettlementBatch, BookInv, Grounded, TaskInv, Commit, DeadlineCommands, Aggregated, NoShows, Grew;
    var j := DeadlineDue(tid, cid);
    Facts(w, tid);
    JobIsFresh(w, j);
    JobSettles(w, j);
    SettlementCommits(w, tid, JobEffect(w, j).value);
  }

  lemma GrewByNothing(before: seq<Entry>, after: seq<Entry>)
    requires Grew(before, after, [])
    ensures after == before
  {
    assert after == after[..|before|];
  }

  lemma FirstPass(w: World, tid: TaskId, cid: nat)
    requires WorldInv(w) && Backed(w, tid) && tid in w.tasks && w.tasks[tid].origin == Member
    requires w.tasks[tid].status == Published && w.now >= w.tasks[tid].deadline
    ensures Step(w, Perform(DeadlineDue(tid, cid))).Success?
    ensures var v := After(w, Perform(DeadlineDue(tid, cid)));
            && tid in v.tasks && Drained(v.tasks[tid])
            && Held(v.book.entries, tid) == v.tasks[tid].reward * Count(v.tasks[tid].history, Active)
  {
    hide BookInv, TaskInv, Funded, Grounded, Grew, WorldInv, Drained, Held, Count, DeadlineCommands, FinalizeDeadline, After, Step;
    var v := After(w, Perform(DeadlineDue(tid, cid)));
    Facts(w, tid);
    FundsOf(w, tid);
    PassCommits(w, tid, cid);
    if DeadlineCommands(tid, w.tasks[tid]) == [] {
      GrewByNothing(w.book.entries, v.book.entries);
    }
    DeadlineLeavesReviews(w.book.entries, v.book.entries, tid, w.tasks[tid], w.now, cid);
  }
}
