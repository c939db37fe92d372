/**
 The reserve of slots that nobody holds and that has not been given back: how it can still leave
 escrow, and what one transaction does to it.
 */
module ExchangeIdle {
  import opened Wrappers
  import opened Ledger
  import opened Tasks
  import opened Escrow
  import opened EscrowInvariants
  import opened EscrowSteps
  import opened EscrowPerformer
  import opened EscrowCreator
  import opened EscrowDeadline
  import opened Exchange
  import opened ExchangeInvariants
  import opened ExchangeRuns
  import opened ExchangeLife
  import opened Transitions

  /** Escrow beyond what the assignments still active could ever be owed. */
  function Idle(entries: seq<Entry>, tid: TaskId, t: Task): int {
    Held(entries, tid) - t.reward * Count(t.history, Active)
  }

  lemma SameProduct(r: nat, a: int, b: int)
    requires r > 0 && r * a == r * b
    ensures a == b
  {
    Distributes(r, a, b);
    if a < b {
      Times(r, 1, b - a);
      Distributes(r, b, a);
    } else if b < a {
      Times(r, 1, a - b);
    }
  }

  lemma BalancedIdle(entries: seq<Entry>, tid: TaskId, t: Task, released: nat)
    requires EscrowBalanced(entries, tid, t, released)
    ensures Idle(entries, tid, t) == t.reward * (t.slots - released - Count(t.history, Live)) >= 0
  {
    hide SlotReturned, TaskLevelRefunded, Held, Count;
    CountSplits(t.history);
    var left := t.slots - released - Count(t.history, Settled);
    Distributes(t.reward, left, Count(t.history, Class.Active));
    Times(t.reward, 0, left - Count(t.history, Class.Active));
  }

  lemma ReleasedOnce(entries: seq<Entry>, tid: TaskId, t: Task, released: nat, r: nat)
    requires t.reward > 0 && EscrowBalanced(entries, tid, t, released) && EscrowBalanced(entries, tid, t, r)
    ensures r == released
  {
    hide EscrowBalanced, Held, Count, Idle;
    BalancedIdle(entries, tid, t, released);
    BalancedIdle(entries, tid, t, r);
    SameProduct(t.reward, t.slots - r - Count(t.history, Live), t.slots - released - Count(t.history, Live));
  }

  /** It is the reward of every slot neither held nor released, and how many slots have been
      released follows from the ledger and the history. */
  lemma IdleIsUnheld(entries: seq<Entry>, tid: TaskId, t: Task, now: int) returns (released: nat)
    requires TaskInv(entries, tid, t, now) && Funded(entries, tid, t) && t.origin == Member
    ensures EscrowBalanced(entries, tid, t, released)
    ensures Idle(entries, tid, t) == t.reward * (t.slots - released - Count(t.history, Live)) >= 0
    ensures forall r: nat | EscrowBalanced(entries, tid, t, r) :: r == released
  {
    hide Shape, Lifecycle, Consent, KeysExplained, Settlement, Held, Count, EscrowBalanced, Idle;
    PositiveTerms(entries, tid, t, now);
    released :| EscrowBalanced(entries, tid, t, released);
    BalancedIdle(entries, tid, t, released);
    forall r: nat | EscrowBalanced(entries, tid, t, r)
      ensures r == released
    {
      ReleasedOnce(entries, tid, t, released, r);
    }
  }

  // ---------- whether it can still come back ----------

  /** Nothing has been given back yet, so the creator may still close intake without overdrawing. */
  predicate Untapped(entries: seq<Entry>, tid: TaskId, t: Task) {
    !HasKey(entries, CloseRefund(tid)) && Held(entries, tid) == t.reward * (t.slots - Count(t.history, Settled))
  }

  /** An active assignment that can still end paid: any but a rejected one whose dispute window is over. */
  predicate Payable(a: Assignment, now: int) {
    Is(Active, a.status) && !(a.status == RejectedPendingDispute && Passed(a.disputeDeadline, now))
  }

  predicate Promising(a: Assignment, now: int) {
    Is(Paid, a.status) || Payable(a, now)
  }

  /** Somebody other than assignment `except` has been paid or can still be. */
  predicate Hopeful(h: seq<Assignment>, now: int, except: int) {
    exists i | 0 <= i < |h| && i != except :: Promising(h[i], now)
  }

  const NOBODY := -1

  /** The states from which idle reserve can come back. While the task is published, its creator can
      withdraw or close it, and from the deadline on the deadline pass returns what is unfilled. A
      partially completed task can be closed before its deadline if nothing has been given back yet;
      and a closed one can get there, if an assignment is still to end and somebody can be paid. */
  predicate InReach(w: World, tid: TaskId)
    requires tid in w.tasks
  {
    var t := w.tasks[tid];
    match t.status
    case Published => true
    case PartiallyCompleted => w.now < t.deadline && Untapped(w.book.entries, tid, t)
    case ClosedForNewPerformers =>
      && w.now < t.deadline && Untapped(w.book.entries, tid, t)
      && Count(t.history, Class.Active) > 0 && Hopeful(t.history, w.now, NOBODY)
    case _ => false
  }

  /** Idle reserve that can never come back. */
  predicate Stranded(w: World, tid: TaskId)
    requires tid in w.tasks
  {
    !InReach(w, tid) && Idle(w.book.entries, tid, w.tasks[tid]) > 0
  }

  // ---------- the assignment a transaction ends ----------

  datatype Ending = Ending(index: nat, status: AssignmentStatus)

  function EndedByRequest(t: Task, now: int, r: Request): Option<Ending> {
    match r
    case Review(_, i, d, _) =>
      if i < |t.history| && Reviewable(t.history[i], now) && d != Reject && (d == Partial ==> t.reward >= 2) then
        Some(Ending(i, DecidedStatus(d)))
      else None
    case LeaveSlot(_, i) =>
      if i < |t.history| && t.history[i].status == Accepted then Some(Ending(i, Cancelled)) else None
    case Respond(_, q, k, consent) =>
      if consent && q < |t.requests| && k < |t.requests[q].responses|
         && (t.status == Published || t.status == ClosedForNewPerformers) && t.requests[q].status == Pending
         && t.requests[q].responses[k].status == Unanswered && now < t.deadline then
        Some(Ending(t.requests[q].responses[k].index, Cancelled))
      else None
    case _ => None
  }

  function EndedByJob(t: Task, now: int, j: Job): Option<Ending> {
    match j
    case ReviewDue(_, i, _, _) =>
      if i < |t.history| && t.history[i].status == Submitted && Passed(t.history[i].reviewDeadline, now) then
        Some(Ending(i, Approved))
      else None
    case RejectionDue(_, i, _) =>
      if i < |t.history| && t.history[i].status == RejectedPendingDispute && Passed(t.history[i].disputeDeadline, now) then
        Some(Ending(i, Rejected))
      else None
    case ResolveCase(_, i, code, _) =>
      if i < |t.history| && t.history[i].status == Disputed then Some(Ending(i, ResolvedStatus(code))) else None
    case DeadlineDue(_, _) => None
  }

  /** The active assignment of a member task that a transaction ends, and how, by its guards. */
  function EndedBy(w: World, op: Op, tid: TaskId): Option<Ending>
    requires tid in w.tasks
  {
    match op
    case Deliver(update, r) =>
      if update in w.receipts || r.task != tid then None else EndedByRequest(w.tasks[tid], w.now, r)
    case Perform(j) => if j.task != tid then None else EndedByJob(w.tasks[tid], w.now, j)
    case _ => None
  }

  predicate Leaving(op: Op) {
    op.Deliver? && op.request.LeaveSlot?
  }

  predicate Consenting(op: Op) {
    op.Deliver? && op.request.Respond?
  }

  /** The last active performer of a closed task takes the reserve of the slot along; anybody else
      who leaves does not. */
  predicate Abandons(w: World, op: Op, tid: TaskId)
    requires tid in w.tasks
  {
    var t := w.tasks[tid];
    Leaving(op) && EndedBy(w, op, tid).Some? && !(t.status == ClosedForNewPerformers && Count(t.history, Class.Active) == 1)
  }

  /** The status derived once one active assignment has ended as `s`. */
  function DerivedAfter(t: Task, now: int, s: AssignmentStatus): TaskStatus {
    var paid := Count(t.history, Class.Paid) + if Is(Class.Paid, s) then 1 else 0;
    if Count(t.history, Class.Active) > 1 || (t.status == Published && now < t.deadline && |LatestBySlot(t.history)| < t.slots) then
      if t.status == ClosedForNewPerformers && now < t.deadline then ClosedForNewPerformers
      else if now < t.deadline then Published
      else Settling
    else if paid == t.slots then Completed
    else if paid > 0 then PartiallyCompleted
    else Expired
  }

  function StatusAfter(t: Task, now: int, op: Op, s: AssignmentStatus): TaskStatus {
    if Leaving(op) then
      if t.status == ClosedForNewPerformers && Count(t.history, Class.Active) == 1 then TaskCancelled else t.status
    else if Consenting(op) then
      if Count(t.history, Class.Active) == 1 then TaskCancelled else t.status
    else DerivedAfter(t, now, s)
  }

  lemma DerivedAfterEnding(t: Task, now: int, i: nat, done: Assignment)
    requires Shape(t) && i < |t.history| && Is(Class.Active, t.history[i].status) && !Is(Class.Active, done.status)
    requires done.slot == t.history[i].slot && done.performer == t.history[i].performer
    ensures Aggregated(WithAssignment(t, i, done), now).status == DerivedAfter(t, now, done.status)
  {
    EndingCounts(t, i, done);
    hide Shape, SlotsOf, LatestBySlot, Count;
  }

  /** Assignment `e.index`, active so far, ends as `e.status`, and `credit` leaves the escrow for it. */
  ghost predicate Ended(tid: TaskId, t: Task, eff: Effect, e: Ending, credit: int) {
    && Moved(t, eff.task, e.index) && eff.task.history[e.index].status == e.status
    && !Is(Class.Active, e.status)
    && Asked(eff.commands, Escrowed(tid)) == credit
    && forall k | 0 <= k < |eff.commands| :: IndexOf(eff.commands[k].key) == Some(e.index)
  }

  lemma EndedForOne(tid: TaskId, t: Task, eff: Effect, e: Ending, c: Command)
    requires Moved(t, eff.task, e.index) && eff.task.history[e.index].status == e.status && !Is(Class.Active, e.status)
    requires eff.commands == [c] && TaskOf(c.key) == Some(tid) && IndexOf(c.key) == Some(e.index) && c.credit == t.reward
    ensures Ended(tid, t, eff, e, t.reward)
  {
    AskedOne(c, Escrowed(tid));
  }

  lemma EndedForTwo(tid: TaskId, t: Task, eff: Effect, e: Ending, pay: Key, back: Key)
    requires Moved(t, eff.task, e.index) && eff.task.history[e.index].status == e.status && !Is(Class.Active, e.status)
    requires t.origin == Member && TaskOf(pay) == TaskOf(back) == Some(tid) && IndexOf(pay) == IndexOf(back) == Some(e.index)
    requires eff.commands == PartialBatch(t, t.history[e.index].performer, pay, back)
    ensures Ended(tid, t, eff, e, t.reward)
  {
    hide Asked;
    var c := Earn(PartialKind(t), t.history[e.index].performer, HalfUp(t.reward), pay);
    var d := Refund(t.creator, t.reward - HalfUp(t.reward), back);
    if t.reward > HalfUp(t.reward) {
      assert eff.commands == [c, d];
      AskedTwo(c, d, Escrowed(tid));
    } else {
      assert eff.commands == [c];
      AskedOne(c, Escrowed(tid));
    }
  }

  lemma LeaveEnds(tid: TaskId, t: Task, i: nat)
    requires Shape(t) && t.origin == Member && i < |t.history| && t.history[i].status == Accepted
    ensures CancelAssignment(tid, t, i).Success?
    ensures var last := t.status == ClosedForNewPerformers && Count(t.history, Class.Active) == 1;
            var eff := CancelAssignment(tid, t, i).value;
            && Ended(tid, t, eff, Ending(i, Cancelled), if last then t.reward else 0)
            && eff.task.status == if last then TaskCancelled else t.status
  {
    hide SlotsOf, WithdrawPending, Asked, Count;
    EndingCounts(t, i, t.history[i].(status := Cancelled));
    hide Shape;
    AskedNone(Escrowed(tid));
    AskedOne(Refund(t.creator, t.reward, SlotCancelRefund(tid, i)), Escrowed(tid));
  }

  lemma ConsentEnds(tid: TaskId, t: Task, now: int, q: nat, k: nat)
    requires Shape(t) && Consent(t) && t.origin == Member
    requires q < |t.requests| && k < |t.requests[q].responses| && t.status == ClosedForNewPerformers
    requires t.requests[q].status == Pending && t.requests[q].responses[k].status == Unanswered && now < t.deadline
    ensures RespondCancellation(tid, t, now, q, k, true).Success?
    ensures var eff, i := RespondCancellation(tid, t, now, q, k, true).value, t.requests[q].responses[k].index;
            && Ended(tid, t, eff, Ending(i, Cancelled), t.reward)
            && eff.task.status == if Count(t.history, Class.Active) == 1 then TaskCancelled else t.status
  {
    assert ResponseSound(t, 0, k);
    var i := t.requests[q].responses[k].index;
    hide SlotsOf, Asked, Count, AllAnswered, Consent;
    EndingCounts(t, i, t.history[i].(status := Cancelled));
    hide Shape;
    AskedOne(Refund(t.creator, t.reward, SlotCancelRefund(tid, i)), Escrowed(tid));
  }

  lemma ReviewEnds(tid: TaskId, t: Task, now: int, i: nat, d: Decision, cid: nat)
    requires Shape(t) && t.origin == Member && i < |t.history| && Reviewable(t.history[i], now)
    requires d != Reject && (d == Partial ==> t.reward >= 2)
    ensures Decide(tid, t, now, i, d, cid).Success?
    ensures var eff := Decide(tid, t, now, i, d, cid).value;
            && Ended(tid, t, eff, Ending(i, DecidedStatus(d)), t.reward)
            && eff.task.status == DerivedAfter(t, now, DecidedStatus(d))
  {
    var done := t.history[i].(status := DecidedStatus(d), outcome := Some(Decided(d)), command := Some(cid));
    DerivedAfterEnding(t, now, i, done);
    hide Shape, Derive, DerivedAfter, Ended, SlotsOf, LatestBySlot;
    var eff := Decide(tid, t, now, i, d, cid).value;
    if d == Full {
      EndedForOne(tid, t, eff, Ending(i, Approved), eff.commands[0]);
    } else {
      EndedForTwo(tid, t, eff, Ending(i, PartiallyApproved), OutcomeReward(tid, i, PartiallyApproved), OutcomeRefund(tid, i, PartiallyApproved));
    }
  }

  lemma ResolutionEnds(tid: TaskId, t: Task, now: int, i: nat, code: ResolutionCode, cid: nat)
    requires Shape(t) && t.origin == Member && i < |t.history| && t.history[i].status == Disputed
    ensures Resolve(tid, t, now, i, code, cid).Success?
    ensures var eff := Resolve(tid, t, now, i, code, cid).value;
            && Ended(tid, t, eff, Ending(i, ResolvedStatus(code)), t.reward)
            && eff.task.status == DerivedAfter(t, now, ResolvedStatus(code))
  {
    var done := t.history[i].(status := ResolvedStatus(code), outcome := Some(Resolved(code)), command := Some(cid));
    DerivedAfterEnding(t, now, i, done);
    hide Shape, Derive, DerivedAfter, Ended, SlotsOf, LatestBySlot;
    var eff := Resolve(tid, t, now, i, code, cid).value;
    if ResolvedStatus(code) == PartiallyApproved {
      EndedForTwo(tid, t, eff, Ending(i, PartiallyApproved), CasePartial(tid, i), CaseRemainder(tid, i));
    } else {
      EndedForOne(tid, t, eff, Ending(i, ResolvedStatus(code)), eff.commands[0]);
    }
  }

  lemma JobEnds(w: World, j: Job)
    requires j.task in w.tasks && w.tasks[j.task].origin == Member && Shape(w.tasks[j.task])
    requires EndedByJob(w.tasks[j.task], w.now, j).Some?
    ensures JobEffect(w, j).Success?
    ensures var t, e := w.tasks[j.task], EndedByJob(w.tasks[j.task], w.now, j).value;
            && Ended(j.task, t, JobEffect(w, j).value, e, t.reward)
            && JobEffect(w, j).value.task.status == DerivedAfter(t, w.now, e.status)
  {
    var t, now := w.tasks[j.task], w.now;
    match j
    case ReviewDue(tid, i, cid, _) =>
      DerivedAfterEnding(t, now, i, t.history[i].(status := Approved, outcome := Some(Autoconfirmed), command := Some(cid)));
      hide Shape, Derive, DerivedAfter, Ended;
      EndedForOne(tid, t, JobEffect(w, j).value, Ending(i, Approved), JobEffect(w, j).value.commands[0]);
    case RejectionDue(tid, i, cid) =>
      DerivedAfterEnding(t, now, i, t.history[i].(status := Rejected, outcome := Some(RejectionFinal), command := Some(cid)));
      hide Shape, Derive, DerivedAfter, Ended;
      EndedForOne(tid, t, JobEffect(w, j).value, Ending(i, Rejected), JobEffect(w, j).value.commands[0]);
    case ResolveCase(tid, i, code, cid) =>
      ResolutionEnds(tid, t, now, i, code, cid);
  }

  lemma RequestEnds(w: World, update: UpdateId, r: Request)
    requires r.task in w.tasks && w.tasks[r.task].origin == Member && Shape(w.tasks[r.task]) && Consent(w.tasks[r.task])
    requires EndedByRequest(w.tasks[r.task], w.now, r).Some?
    ensures SettlesSomething(r) && RequestEffect(w, update, r).Success?
    ensures var t, e := w.tasks[r.task], EndedByRequest(w.tasks[r.task], w.now, r).value;
            var last := t.status == ClosedForNewPerformers && Count(t.history, Class.Active) == 1;
            && Ended(r.task, t, RequestEffect(w, update, r).value, e, if r.LeaveSlot? && !last then 0 else t.reward)
            && RequestEffect(w, update, r).value.task.status == StatusAfter(t, w.now, Deliver(update, r), e.status)
  {
    var t, now := w.tasks[r.task], w.now;
    match r
    case Review(tid, i, d, cid) =>
      hide Shape, Consent, DerivedAfter, Ended;
      ReviewEnds(tid, t, now, i, d, cid);
    case LeaveSlot(tid, i) =>
      hide Shape, Consent, Ended;
      LeaveEnds(tid, t, i);
    case Respond(tid, q, k, consent) =>
      assert t.status == ClosedForNewPerformers;
      hide Shape, Consent, Ended;
      ConsentEnds(tid, t, now, q, k);
  }

  // ---------- what is left of the account ----------

  /** The ledger holds as much for the task as before, and its close refund is as used as before. */
  ghost predicate SameAccount(before: seq<Entry>, after: seq<Entry>, tid: TaskId) {
    && Held(after, tid) == Held(before, tid)
    && (HasKey(after, CloseRefund(tid)) <==> HasKey(before, CloseRefund(tid)))
  }

  lemma KeyOnlyByBatch(before: seq<Entry>, after: seq<Entry>, cmds: seq<Command>, key: Key)
    requires Grew(before, after, cmds) && forall k | 0 <= k < |cmds| :: cmds[k].key != key
    ensures HasKey(after, key) <==> HasKey(before, key)
  {
    KeysStay(before, after, cmds, key);
    if HasKey(after, key) {
      var n :| 0 <= n < |after| && after[n].command.key == key;
      assert n >= |before| ==> after[|before| + (n - |before|)].command == cmds[n - |before|];
      assert after[..|before|][n] == after[n];
    }
  }

  lemma BatchElsewhere(b: Book, cmds: seq<Command>, tid: TaskId)
    requires BookInv(b) && Settle(b, cmds).Success?
    requires forall k | 0 <= k < |cmds| :: TaskOf(cmds[k].key) != Some(tid)
    ensures SameAccount(b.entries, Settle(b, cmds).value.entries, tid)
  {
    hide BookInv, Settle, Grew, AllNew, AllRecorded, Booked, Asked, HasKey;
    SettleOutcome(b, cmds);
    NotAsked(cmds, tid, Escrowed(tid));
    if AllNew(b.entries, cmds) {
      GrewBooks(b.entries, Settle(b, cmds).value.entries, cmds, Escrowed(tid));
      KeyOnlyByBatch(b.entries, Settle(b, cmds).value.entries, cmds, CloseRefund(tid));
    }
  }

  /** Nothing about the task has changed. */
  ghost predicate SameTask(w: World, v: World, tid: TaskId) {
    && tid in w.tasks && tid in v.tasks && v.tasks[tid] == w.tasks[tid]
    && SameAccount(w.book.entries, v.book.entries, tid)
  }

  predicate Concerns(op: Op, tid: TaskId) {
    || (op.Deliver? && op.request.task == tid && !op.request.PublishDraft?)
    || (op.Perform? && op.job.task == tid)
  }

  lemma CommitElsewhere(w: World, other: TaskId, eff: Effect, tid: TaskId)
    requires LedgerSound(w) && tid in w.tasks && other != tid && Commit(w, other, Success(eff)).Success?
    requires forall k | 0 <= k < |eff.commands| :: TaskOf(eff.commands[k].key) == Some(other)
    ensures SameTask(w, Commit(w, other, Success(eff)).value, tid)
  {
    BatchElsewhere(w.book, eff.commands, tid);
    hide SameAccount, Settle, LedgerSound;
  }

  lemma PublishElsewhere(w: World, other: TaskId, tid: TaskId)
    requires LedgerSound(w) && tid in w.tasks && Publish(w, other).Success?
    ensures SameTask(w, Publish(w, other).value, tid)
  {
    hide BookInv, Settle, Publish, Held, HasKey;
    if other in w.tasks {
      PublishedAlready(w, other);
    } else {
      PublishEffect(w, other);
      PublishAbout(other, w.drafts[other]);
      BatchElsewhere(w.book, PublishCommands(other, w.drafts[other]), tid);
    }
  }

  lemma Bystander(w: World, op: Op, tid: TaskId)
    requires LedgerSound(w) && tid in w.tasks && (Concerns(op, tid) ==> Step(w, op).Failure?)
    ensures SameTask(w, After(w, op), tid) && After(w, op).now == if op.Tick? && w.now <= op.to then op.to else w.now
  {
    hide Handle, BookInv, Settle, Grounded, Owned, RightPeople, Held, HasKey;
    if Step(w, op).Success? {
      match op
      case Tick(_) =>
      case Register(m) =>
        if m !in w.book.credit {
          GrantSettles(w.book, m);
          BatchElsewhere(w.book.(credit := w.book.credit[m := 0], experience := w.book.experience[m := 0]), [GrantOf(m)], tid);
        }
      case SaveDraft(_, _) =>
      case Economy(cmds) =>
        BatchElsewhere(w.book, cmds, tid);
      case Deliver(update, r) =>
        if update !in w.receipts {
          DeliveredElsewhere(w, update, r, tid);
        }
      case Perform(j) =>
        JobTouches(w, j);
        CommitElsewhere(w, j.task, JobEffect(w, j).value, tid);
    }
  }

  lemma DeliveredElsewhere(w: World, update: UpdateId, r: Request, tid: TaskId)
    requires LedgerSound(w) && tid in w.tasks && (r.PublishDraft? || r.task != tid) && Handle(w, update, r).Success?
    ensures SameTask(w, Handle(w, update, r).value, tid) && Handle(w, update, r).value.now == w.now
  {
    hide LedgerSound, Publish, RequestEffect, SameTask;
    if r.PublishDraft? {
      PublishElsewhere(w, r.task, tid);
      PublishEffect(w, r.task);
    } else {
      RequestTouches(w, update, r);
      CommitElsewhere(w, r.task, RequestEffect(w, update, r).value, tid);
    }
  }

  // ---------- transactions that end an assignment ----------

  lemma EndingPosts(before: seq<Entry>, after: seq<Entry>, tid: TaskId, t: Task, eff: Effect, e: Ending, credit: int)
    requires Ended(tid, t, eff, e, credit) && Grew(before, after, eff.commands)
    ensures Held(after, tid) == Held(before, tid) - credit
    ensures HasKey(after, CloseRefund(tid)) <==> HasKey(before, CloseRefund(tid))
  {
    hide Booked, Asked, HasKey, Moved;
    GrewBooks(before, after, eff.commands, Escrowed(tid));
    KeyOnlyByBatch(before, after, eff.commands, CloseRefund(tid));
  }

  /** How the task and its account stand after a transaction that has ended an assignment. */
  ghost predicate EndedIn(w: World, v: World, op: Op, tid: TaskId, e: Ending)
    requires tid in w.tasks
  {
    var t := w.tasks[tid];
    && v.now == w.now && tid in v.tasks
    && Moved(t, v.tasks[tid], e.index)
    && v.tasks[tid].history[e.index].status == e.status && !Is(Class.Active, e.status)
    && v.tasks[tid].status == StatusAfter(t, w.now, op, e.status)
    && Held(v.book.entries, tid) == Held(w.book.entries, tid) - (if Abandons(w, op, tid) then 0 else t.reward)
    && (HasKey(v.book.entries, CloseRefund(tid)) <==> HasKey(w.book.entries, CloseRefund(tid)))
  }

  lemma RequestEnding(w: World, update: UpdateId, r: Request, e: Ending)
    requires WorldInv(w) && r.task in w.tasks && w.tasks[r.task].origin == Member
    requires update !in w.receipts && EndedByRequest(w.tasks[r.task], w.now, r) == Some(e)
    ensures EndedIn(w, After(w, Deliver(update, r)), Deliver(update, r), r.task, e)
  {
    hide WorldInv, FreshBatch, SettlementBatch, BookInv, Grounded, RequestEffect, EndedByRequest, Ended, StatusAfter, Commit, TaskInv, Held, HasKey, Moved;
    var tid, op := r.task, Deliver(update, r);
    Facts(w, tid);
    ShapeOf(w.book.entries, tid, w.tasks[tid], w.now);
    RequestEnds(w, update, r);
    var eff := RequestEffect(w, update, r).value;
    RequestIsFresh(w, update, r);
    RequestSettles(w, update, r);
    SettlementCommits(w, tid, eff);
    var v := Commit(w, tid, Success(eff)).value;
    EndingPosts(w.book.entries, v.book.entries, tid, w.tasks[tid], eff, e,
                if r.LeaveSlot? && !(w.tasks[tid].status == ClosedForNewPerformers && Count(w.tasks[tid].history, Class.Active) == 1) then 0
                else w.tasks[tid].reward);
    EndedMoves(tid, w.tasks[tid], eff, e, if Abandons(w, op, tid) then 0 else w.tasks[tid].reward);
    assert After(w, op) == v.(receipts := w.receipts + {update});
  }

  lemma EndedMoves(tid: TaskId, t: Task, eff: Effect, e: Ending, credit: int)
    requires Ended(tid, t, eff, e, credit)
    ensures Moved(t, eff.task, e.index) && eff.task.history[e.index].status == e.status && !Is(Class.Active, e.status)
  {
  }

  lemma ShapeOf(entries: seq<Entry>, tid: TaskId, t: Task, now: int)
    requires TaskInv(entries, tid, t, now)
    ensures Shape(t) && Lifecycle(t, now) && Consent(t)
  {
  }

  lemma JobEnding(w: World, j: Job, e: Ending)
    requires WorldInv(w) && j.task in w.tasks && w.tasks[j.task].origin == Member
    requires EndedByJob(w.tasks[j.task], w.now, j) == Some(e)
    ensures EndedIn(w, After(w, Perform(j)), Perform(j), j.task, e)
  {
    hide WorldInv, FreshBatch, SettlementBatch, BookInv, Grounded, JobEffect, EndedByJob, Ended, DerivedAfter, Commit, TaskInv, Held, HasKey, Moved;
    var tid := j.task;
    Facts(w, tid);
    ShapeOf(w.book.entries, tid, w.tasks[tid], w.now);
    JobEnds(w, j);
    var eff := JobEffect(w, j).value;
    JobIsFresh(w, j);
    JobSettles(w, j);
    SettlementCommits(w, tid, eff);
    var v := Commit(w, tid, Success(eff)).value;
    EndingPosts(w.book.entries, v.book.entries, tid, w.tasks[tid], eff, e, w.tasks[tid].reward);
    EndedMoves(tid, w.tasks[tid], eff, e, w.tasks[tid].reward);
    assert After(w, Perform(j)) == v;
  }

  lemma EndingAfter(w: World, op: Op, tid: TaskId, e: Ending)
    requires WorldInv(w) && tid in w.tasks && w.tasks[tid].origin == Member && EndedBy(w, op, tid) == Some(e)
    ensures EndedIn(w, After(w, op), op, tid, e)
  {
    hide WorldInv, EndedIn, EndedByRequest, EndedByJob, After;
    match op
    case Deliver(update, r) => RequestEnding(w, update, r, e);
    case Perform(j) => JobEnding(w, j, e);
  }

  // ---------- transactions that end nothing ----------

  /** The task stands as before, except that assignments which can be paid may have moved on. */
  ghost predicate Alike(t: Task, u: Task, now: int) {
    && SameTerms(t, u) && u.status == t.status && |u.history| == |t.history|
    && forall j | 0 <= j < |t.history| ::
         u.history[j] == t.history[j] || (Payable(t.history[j], now) && Payable(u.history[j], now))
  }

  lemma {:induction false} AlikeCounts(h: seq<Assignment>, g: seq<Assignment>, now: int, c: Class)
    requires |h| == |g| && forall j | 0 <= j < |h| :: g[j] == h[j] || (Payable(h[j], now) && Payable(g[j], now))
    ensures Count(g, c) == Count(h, c)
  {
    if h != [] {
      AlikeCounts(h[..|h| - 1], g[..|g| - 1], now, c);
    }
  }

  lemma QuietRequest(w: World, update: UpdateId, r: Request)
    requires r.task in w.tasks && w.tasks[r.task].origin == Member && ByPerformer(r)
    requires EndedByRequest(w.tasks[r.task], w.now, r).None? && RequestEffect(w, update, r).Success?
    ensures RequestEffect(w, update, r).value.commands == []
    ensures Alike(w.tasks[r.task], RequestEffect(w, update, r).value.task, w.now)
  {
    hide Derive, SlotsOf, WithdrawPending, AllAnswered;
  }

  lemma QuietJob(w: World, j: Job)
    requires j.task in w.tasks && w.tasks[j.task].origin == Member && !j.DeadlineDue?
    requires EndedByJob(w.tasks[j.task], w.now, j).None? && JobEffect(w, j).Success?
    ensures JobEffect(w, j).value == Effect(w.tasks[j.task], [])
  {
    hide Derive;
  }

  /** The transactions about the task as a whole, and the deadline pass. */
  predicate OnWhole(op: Op, tid: TaskId) {
    Concerns(op, tid) && if op.Deliver? then !ByPerformer(op.request) else op.job.DeadlineDue?
  }

  lemma QuietAfter(w: World, op: Op, tid: TaskId)
    requires LedgerSound(w) && tid in w.tasks && w.tasks[tid].origin == Member
    requires EndedBy(w, op, tid).None? && !OnWhole(op, tid)
    ensures var v := After(w, op);
            && tid in v.tasks && Alike(w.tasks[tid], v.tasks[tid], w.now) && SameAccount(w.book.entries, v.book.entries, tid)
            && v.now == if op.Tick? && w.now <= op.to then op.to else w.now
  {
    hide LedgerSound, EndedByRequest, EndedByJob, RequestEffect, JobEffect, Held, HasKey, Payable;
    if !Concerns(op, tid) || Step(w, op).Failure? {
      Bystander(w, op, tid);
    } else {
      match op
      case Deliver(update, r) =>
        if update !in w.receipts {
          QuietRequest(w, update, r);
        }
      case Perform(j) =>
        QuietJob(w, j);
    }
  }

  // ---------- the task as a whole, and its deadline ----------

  /** Giving back every slot without a holder, when nothing had been given back, leaves nothing idle. */
  lemma ReleaseLeavesNothing(before: seq<Entry>, after: seq<Entry>, tid: TaskId, t: Task, u: Task, c: Command)
    requires Shape(t) && SameTerms(t, u) && u.history == t.history
    requires Held(before, tid) == t.reward * (t.slots - Count(t.history, Settled))
    requires TaskOf(c.key) == Some(tid) && c.credit == t.reward * (t.slots - Count(t.history, Live))
    requires Grew(before, after, [c])
    ensures Idle(after, tid, u) == 0
  {
    hide Shape, Grew, Booked, Asked, Count;
    AskedOne(c, Escrowed(tid));
    GrewBooks(before, after, [c], Escrowed(tid));
    CountSplits(t.history);
    Distributes(t.reward, t.slots - Count(t.history, Settled), t.slots - Count(t.history, Live));
  }

  lemma NothingToRelease(entries: seq<Entry>, tid: TaskId, t: Task, u: Task)
    requires Shape(t) && SameTerms(t, u) && u.history == t.history
    requires Held(entries, tid) == t.reward * (t.slots - Count(t.history, Settled)) && t.slots == Count(t.history, Live)
    ensures Idle(entries, tid, u) == 0
  {
    hide Shape, Booked, Count;
    CountSplits(t.history);
  }

  /** The single command of a fresh release is posted when its transaction commits. */
  lemma ReleasePosts(w: World, tid: TaskId, t: Task, eff: Effect)
    requires BookInv(w.book) && tid in w.tasks && Shape(t) && SameTerms(t, eff.task) && eff.task.history == t.history
    requires Held(w.book.entries, tid) == t.reward * (t.slots - Count(t.history, Settled))
    requires eff.commands == [] ==> t.slots == Count(t.history, Live)
    requires eff.commands != [] ==>
               && |eff.commands| == 1 && TaskOf(eff.commands[0].key) == Some(tid) && !HasKey(w.book.entries, eff.commands[0].key)
               && eff.commands[0].credit == t.reward * (t.slots - Count(t.history, Live))
    requires Commit(w, tid, Success(eff)).Success?
    ensures Idle(Commit(w, tid, Success(eff)).value.book.entries, tid, eff.task) == 0
  {
    hide Idle, Shape, BookInv, Held, Count, HasKey, AllRecorded, SameTerms;
    var after := Commit(w, tid, Success(eff)).value.book.entries;
    if eff.commands == [] {
      NothingToRelease(w.book.entries, tid, t, eff.task);
    } else {
      SettleOutcome(w.book, eff.commands);
      assert AllNew(w.book.entries, eff.commands);
      assert eff.commands == [eff.commands[0]];
      hide Settle, Grew;
      ReleaseLeavesNothing(w.book.entries, after, tid, t, eff.task, eff.commands[0]);
    }
  }

  /** A release asks, in one command, for the reward of every slot without a holder. */
  ghost predicate AsksForFree(tid: TaskId, t: Task, eff: Effect) {
    && SameTerms(t, eff.task) && eff.task.history == t.history
    && |eff.commands| <= 1
    && (eff.commands == [] ==> t.slots == Count(t.history, Live))
    && (eff.commands != [] ==>
          && eff.commands[0].key == (if eff.task.status == TaskCancelled then TaskCancelRefund(tid) else CloseRefund(tid))
          && eff.commands[0].credit == t.reward * (t.slots - Count(t.history, Live)))
  }

  lemma FreeSlotsCounted(t: Task)
    requires Shape(t)
    ensures FreeSlots(t) == t.slots - Count(t.history, Live) >= 0
    ensures SlotsOf(t.history, Live) == {} <==> Count(t.history, Live) == 0
    ensures SlotsOf(t.history, Live) == {} <==> forall i | 0 <= i < |t.history| :: t.history[i].status == Cancelled
    ensures t.origin == Member ==> t.reserved == t.reward * t.slots
  {
    OccupiedFits(t);
    NobodyHolds(t);
  }

  lemma WithdrawAsks(tid: TaskId, t: Task, now: int)
    requires Shape(t) && CancelTask(tid, t, now).Success?
    ensures AsksForFree(tid, t, CancelTask(tid, t, now).value)
  {
    FreeSlotsCounted(t);
    hide Shape, SlotsOf, Count;
  }

  lemma CloseAsks(tid: TaskId, t: Task, now: int)
    requires Shape(t) && (t.status == Published || t.status == PartiallyCompleted) && RequestCancellation(tid, t, now).Success?
    requires t.status == PartiallyCompleted ==> Count(t.history, Class.Paid) > 0
    ensures AsksForFree(tid, t, RequestCancellation(tid, t, now).value)
    ensures RequestCancellation(tid, t, now).value.task.status == TaskCancelled ==> t.status == Published
  {
    FreeSlotsCounted(t);
    CountSplits(t.history);
    hide Shape, SlotsOf, Count, FreeSlots, ConsentRequests, HasPending;
    var eff := RequestCancellation(tid, t, now).value;
    if eff.task.status != TaskCancelled && eff.commands != [] {
      assert eff.commands[0].credit == FreeSlots(t) * t.reward == t.reward * FreeSlots(t);
    }
  }

  /** Whatever is done to a published task as a whole, it stays published or nothing is idle. */
  lemma OpenAfter(w: World, op: Op, tid: TaskId)
    requires WorldInv(w) && Backed(w, tid) && tid in w.tasks && w.tasks[tid].origin == Member && w.tasks[tid].status == Published
    requires OnWhole(op, tid)
    ensures tid in After(w, op).tasks && After(w, op).now == w.now
    ensures After(w, op).tasks[tid].status == Published || Idle(After(w, op).book.entries, tid, After(w, op).tasks[tid]) == 0
  {
    hide WorldInv, BookInv, Grounded, TaskInv, Backed, Idle, Held;
    if Step(w, op).Success? {
      match op
      case Deliver(update, r) =>
        if update !in w.receipts {
          OpenRequestAfter(w, update, r);
        }
      case Perform(j) =>
        OpenDeadlineAfter(w, tid, j.command);
    }
  }

  lemma OpenDeadlineAfter(w: World, tid: TaskId, cid: nat)
    requires WorldInv(w) && Backed(w, tid) && tid in w.tasks && w.tasks[tid].origin == Member && w.tasks[tid].status == Published
    requires Step(w, Perform(DeadlineDue(tid, cid))).Success?
    ensures var v := After(w, Perform(DeadlineDue(tid, cid)));
            tid in v.tasks && v.now == w.now && Idle(v.book.entries, tid, v.tasks[tid]) == 0
  {
    hide WorldInv, Backed, Held, Count, Drained;
    assert w.now >= w.tasks[tid].deadline;
    FirstPass(w, tid, cid);
    hide Settle, Aggregated, DeadlineCommands, NoShows;
  }

  lemma OpenRequestAfter(w: World, update: UpdateId, r: Request)
    requires WorldInv(w) && Backed(w, r.task) && r.task in w.tasks && w.tasks[r.task].origin == Member && w.tasks[r.task].status == Published
    requires !r.PublishDraft? && !ByPerformer(r) && Handle(w, update, r).Success?
    ensures var v := Handle(w, update, r).value;
            && r.task in v.tasks && v.now == w.now
            && (v.tasks[r.task].status == Published || Idle(v.book.entries, r.task, v.tasks[r.task]) == 0)
  {
    hide WorldInv, BookInv, Grounded, TaskInv, Funded, Idle, Held, Settle, Count, SameTerms, Edit, Accept, CancelTask, RequestCancellation, ActiveTasks;
    var tid := r.task;
    Facts(w, tid);
    FundsOf(w, tid);
    ShapeOf(w.book.entries, tid, w.tasks[tid], w.now);
    OpenHolds(w.book.entries, tid, w.tasks[tid], w.now);
    FreshFromPublished(w, tid);
    hide Shape, Lifecycle, Consent;
    if r.WithdrawTask? {
      WithdrawAsks(tid, w.tasks[tid], w.now);
    } else if r.CloseIntake? {
      CloseAsks(tid, w.tasks[tid], w.now);
    }
    if r.WithdrawTask? || r.CloseIntake? {
      hide HasKey, SameTerms, Count;
      ReleasePosts(w, tid, w.tasks[tid], RequestEffect(w, update, r).value);
    } else {
      StaysPublished(w, update, r);
    }
  }

  lemma StaysPublished(w: World, update: UpdateId, r: Request)
    requires r.task in w.tasks && w.tasks[r.task].status == Published && (r.EditTerms? || r.AcceptSlot?)
    requires RequestEffect(w, update, r).Success?
    ensures RequestEffect(w, update, r).value.task.status == Published
  {
    hide FreeSlotFrom;
  }

  lemma FreshFromPublished(w: World, tid: TaskId)
    requires WorldInv(w) && tid in w.tasks && w.tasks[tid].status == Published
    ensures !HasKey(w.book.entries, TaskCancelRefund(tid)) && !HasKey(w.book.entries, CloseRefund(tid))
  {
    hide WorldInv, Grounded, BookInv, Shape, Lifecycle, Consent, Settlement, KeysExplained, HasKey;
    Facts(w, tid);
    CloseIsFreshFromPublished(w.book.entries, tid, w.tasks[tid], w.now);
  }

  lemma RepeatedPassHolds(before: seq<Entry>, after: seq<Entry>, tid: TaskId, t: Task, u: Task, cid: nat)
    requires Shape(t) && t.origin == Member && t.status != Published
    requires SameTerms(t, u) && u.history == NoShows(t.history, cid) && Grew(before, after, DeadlineCommands(tid, t))
    ensures Idle(after, tid, u) == Idle(before, tid, t)
  {
    hide Shape, NoShows, NoShowRefunds, DeadlineCommands, Unfilled, Grew, Count, Booked, Asked;
    MissedSettles(tid, t, cid);
    DeadlineColumns(tid, t);
    GrewBooks(before, after, DeadlineCommands(tid, t), Escrowed(tid));
    CountSplits(t.history);
    CountSplits(u.history);
    var missed := |NoShowRefunds(tid, t, |t.history|)|;
    assert Count(u.history, Class.Active) == Count(t.history, Class.Active) - missed;
    Distributes(t.reward, Count(t.history, Class.Active), missed);
  }

  /** A deadline pass over a task that is no longer published leaves what is idle alone. */
  lemma PassAfter(w: World, tid: TaskId, cid: nat)
    requires WorldInv(w) && tid in w.tasks && w.tasks[tid].origin == Member && w.tasks[tid].status != Published
    requires w.now >= w.tasks[tid].deadline
    ensures var v := After(w, Perform(DeadlineDue(tid, cid)));
            && tid in v.tasks && v.now == w.now && SameTerms(w.tasks[tid], v.tasks[tid])
            && Idle(v.book.entries, tid, v.tasks[tid]) == Idle(w.book.entries, tid, w.tasks[tid])
  {
    hide WorldInv, BookInv, Grounded, TaskInv, Held, Idle, After, Step, DeadlineCommands, Aggregated, NoShows, Shape, Grew;
    var t, v := w.tasks[tid], After(w, Perform(DeadlineDue(tid, cid)));
    Facts(w, tid);
    ShapeOf(w.book.entries, tid, t, w.now);
    PassCommits(w, tid, cid);
    PassTerms(t, w.now, cid);
    RepeatedPassHolds(w.book.entries, v.book.entries, tid, t, v.tasks[tid], cid);
  }

  lemma PassTerms(t: Task, now: int, cid: nat)
    ensures var u := Aggregated(Obsoleted(t).(history := NoShows(t.history, cid)), now);
            SameTerms(t, u) && u.history == NoShows(t.history, cid)
  {
    hide Derive, NoShows;
  }

  /** The first close of a partially completed task: it gives back everything idle. */
  lemma CloseAfter(w: World, update: UpdateId, tid: TaskId)
    requires WorldInv(w) && tid in w.tasks && w.tasks[tid].origin == Member && w.tasks[tid].status == PartiallyCompleted
    requires InReach(w, tid) && Handle(w, update, CloseIntake(tid)).Success?
    ensures var v := Handle(w, update, CloseIntake(tid)).value;
            tid in v.tasks && v.now == w.now && Idle(v.book.entries, tid, v.tasks[tid]) == 0
  {
    hide WorldInv, BookInv, Grounded, TaskInv, Idle, Held, Settle, HasKey, Shape, Count, RequestCancellation, SameTerms;
    Facts(w, tid);
    ShapeOf(w.book.entries, tid, w.tasks[tid], w.now);
    CloseAsks(tid, w.tasks[tid], w.now);
    ReleasePosts(w, tid, w.tasks[tid], RequestEffect(w, update, CloseIntake(tid)).value);
  }

  /** A later close moves nothing, unless it overdraws: its refund is already on the ledger. */
  lemma CloseAgain(w: World, update: UpdateId, tid: TaskId)
    requires WorldInv(w) && Backed(w, tid) && tid in w.tasks && w.tasks[tid].origin == Member && w.tasks[tid].status == PartiallyCompleted
    requires update !in w.receipts && !InReach(w, tid) && !Overdraws(w, Deliver(update, CloseIntake(tid)), tid)
    requires Handle(w, update, CloseIntake(tid)).Success?
    ensures var v := Handle(w, update, CloseIntake(tid)).value;
            && tid in v.tasks && v.now == w.now && v.book == w.book
            && v.tasks[tid].status == ClosedForNewPerformers && SameTerms(w.tasks[tid], v.tasks[tid])
            && v.tasks[tid].history == w.tasks[tid].history
    ensures HasKey(w.book.entries, CloseRefund(tid))
  {
    hide WorldInv, Backed, BookInv, Grounded, TaskInv, Idle, Held, HasKey, Shape, Count, RequestCancellation, SameTerms, InReach, FreeSlots, ClosesTwice;
    var t, entries := w.tasks[tid], w.book.entries;
    Facts(w, tid);
    ShapeOf(entries, tid, t, w.now);
    LaterCloseEffect(tid, t, w.now);
    SecondCloseTaps(w, tid);
    var eff := RequestCancellation(tid, t, w.now).value;
    assert !AllNew(entries, eff.commands);
    hide AllNew, AllRecorded;
    SettleOutcome(w.book, eff.commands);
  }

  lemma LaterCloseEffect(tid: TaskId, t: Task, now: int)
    requires t.status == PartiallyCompleted && RequestCancellation(tid, t, now).Success?
    requires Shape(t) && Count(t.history, Class.Paid) > 0
    ensures var eff := RequestCancellation(tid, t, now).value;
            && now < t.deadline && FreeSlots(t) > 0
            && eff.commands == [Refund(t.creator, FreeSlots(t) * t.reward, CloseRefund(tid))]
            && eff.task.status == ClosedForNewPerformers && eff.task.history == t.history && SameTerms(t, eff.task)
  {
    FreeSlotsCounted(t);
    CountSplits(t.history);
    hide Shape, SlotsOf, Count, FreeSlots, ConsentRequests, HasPending;
  }

  lemma SecondCloseTaps(w: World, tid: TaskId)
    requires WorldInv(w) && Backed(w, tid) && tid in w.tasks && w.tasks[tid].origin == Member && w.tasks[tid].status == PartiallyCompleted
    requires !InReach(w, tid) && !ClosesTwice(w.book.entries, tid, w.tasks[tid])
    requires w.now < w.tasks[tid].deadline && FreeSlots(w.tasks[tid]) > 0
    ensures HasKey(w.book.entries, CloseRefund(tid))
  {
    hide WorldInv, Backed, BookInv, Grounded, ClosesTwice, Held, Count, HasKey, FreeSlots, SlotReturned, TaskLevelRefunded, Shape, Lifecycle, Consent, KeysExplained, Settlement, ReturnedWhole;
    FundsOf(w, tid);
    Facts(w, tid);
    var t, entries := w.tasks[tid], w.book.entries;
    if !HasKey(entries, CloseRefund(tid)) {
      var released: nat :| EscrowBalanced(entries, tid, t, released);
      NothingReleasedYet(entries, tid, t, w.now, released);
    }
  }
}
