/**
 What can be relied on, stated without the invariants' vocabulary: most of it in any world any run
 reaches, and what is said of the escrow of a task in any world reached without overdrawing that task.
 */
module Guarantees {
  import opened Wrappers
  import opened Ledger
  import opened Tasks
  import opened Escrow
  import opened EscrowInvariants
  import opened EscrowSteps
  import opened EscrowCreator
  import opened Exchange
  import opened ExchangeInvariants
  import opened ExchangeRuns
  import opened ExchangeLife
  import opened Transitions
  import opened ExchangeCancelled
  import opened ExchangeMoney
  import opened ExchangeIdle
  import opened ExchangeStranded
  import opened ExchangeRecovery

  /** Consecutive worlds, each the outcome of one transaction, none of which overdraws the task that is
      to be spared. */
  ghost predicate Steps(worlds: seq<World>, ops: seq<Op>, spared: Option<TaskId>) {
    && |worlds| == |ops| + 1
    && forall k {:trigger ops[k]} | 0 <= k < |ops| ::
         worlds[k + 1] == After(worlds[k], ops[k]) && (spared.Some? ==> !Overdraws(worlds[k], ops[k], spared.value))
  }

  /** Some run takes the one world to the other. */
  ghost predicate Leads(w: World, v: World, spared: Option<TaskId>) {
    exists worlds, ops :: Steps(worlds, ops, spared) && worlds[0] == w && worlds[|ops|] == v
  }

  /** A world that some run, whatever it contains, reaches from an empty exchange. */
  ghost predicate Reachable(w: World) {
    exists now: int, limit: nat :: Leads(Start(now, limit), w, None)
  }

  /** A world reached by a run that never overdrew this task, whatever it did to others. */
  ghost predicate Intact(w: World, tid: TaskId) {
    exists now: int, limit: nat :: Leads(Start(now, limit), w, Some(tid))
  }

  lemma StepsFront(worlds: seq<World>, ops: seq<Op>, spared: Option<TaskId>, n: nat)
    requires Steps(worlds, ops, spared) && n <= |ops|
    ensures Steps(worlds[..n + 1], ops[..n], spared)
  {
    hide After, Overdraws;
    forall k {:trigger ops[..n][k]} | 0 <= k < n
      ensures worlds[..n + 1][k + 1] == After(worlds[..n + 1][k], ops[..n][k])
      ensures spared.Some? ==> !Overdraws(worlds[..n + 1][k], ops[..n][k], spared.value)
    {
      assert ops[k] == ops[..n][k];
    }
  }

  lemma {:induction false} StepsAreRun(worlds: seq<World>, ops: seq<Op>, spared: Option<TaskId>)
    requires Steps(worlds, ops, spared)
    ensures worlds[|ops|] == Run(worlds[0], ops)
    decreases |ops|
  {
    hide After, Overdraws;
    if ops != [] {
      var n := |ops| - 1;
      StepsFront(worlds, ops, spared, n);
      StepsAreRun(worlds[..n + 1], ops[..n], spared);
      assert worlds[n + 1] == After(worlds[n], ops[n]);
    }
  }

  lemma StepsAreSafe(worlds: seq<World>, ops: seq<Op>, tid: TaskId)
    requires Steps(worlds, ops, Some(tid))
    ensures SafeRun(worlds[0], ops, tid)
  {
    hide After, Overdraws, Run;
    forall k | 0 <= k < |ops|
      ensures !Overdraws(Run(worlds[0], ops[..k]), ops[k], tid)
    {
      StepsFront(worlds, ops, Some(tid), k);
      StepsAreRun(worlds[..k + 1], ops[..k], Some(tid));
    }
  }

  lemma LeadsByRun(w: World, v: World, spared: Option<TaskId>) returns (ops: seq<Op>)
    requires Leads(w, v, spared)
    ensures v == Run(w, ops) && (spared.Some? ==> SafeRun(w, ops, spared.value))
  {
    hide Run, SafeRun;
    var worlds, o :| Steps(worlds, o, spared) && worlds[0] == w && worlds[|o|] == v;
    hide Steps;
    StepsAreRun(worlds, o, spared);
    if spared.Some? {
      StepsAreSafe(worlds, o, spared.value);
    }
    ops := o;
  }

  lemma ReachableIsSound(w: World)
    requires Reachable(w)
    ensures WorldInv(w) && Stamped(w)
  {
    hide WorldInv, SafeRun, Run, Leads;
    var now: int, limit: nat :| Leads(Start(now, limit), w, None);
    StartHolds(now, limit);
    var ops := LeadsByRun(Start(now, limit), w, None);
    RunKeeps(Start(now, limit), ops);
    RunStamped(Start(now, limit), ops);
  }

  lemma Reached(w: World, tid: TaskId)
    requires Reachable(w) && tid in w.tasks
    ensures TaskInv(w.book.entries, tid, w.tasks[tid], w.now)
  {
    hide WorldInv, TaskInv, Reachable;
    ReachableIsSound(w);
    Facts(w, tid);
  }

  lemma IntactIsBacked(w: World, tid: TaskId)
    requires Intact(w, tid)
    ensures WorldInv(w) && Stamped(w) && Backed(w, tid)
  {
    hide WorldInv, Backed, SafeRun, Run, Leads;
    var now: int, limit: nat :| Leads(Start(now, limit), w, Some(tid));
    StartHolds(now, limit);
    var ops := LeadsByRun(Start(now, limit), w, Some(tid));
    SafeRunKeeps(Start(now, limit), ops, tid);
    RunStamped(Start(now, limit), ops);
  }

  lemma IntactFunds(w: World, tid: TaskId)
    requires Intact(w, tid) && tid in w.tasks
    ensures TaskInv(w.book.entries, tid, w.tasks[tid], w.now) && Funded(w.book.entries, tid, w.tasks[tid])
  {
    hide WorldInv, TaskInv, Intact;
    IntactIsBacked(w, tid);
    Facts(w, tid);
  }

  /** The escrow identity: what a member task holds is its reward for every slot neither settled nor
      released, never less than the assignments still active may be owed; while the task is open
      nothing has been released. */
  lemma EscrowIdentity(w: World, tid: TaskId) returns (released: nat)
    requires Intact(w, tid) && tid in w.tasks && w.tasks[tid].origin == Member
    ensures var t := w.tasks[tid];
            && Held(w.book.entries, tid) == t.reward * (t.slots - released - Count(t.history, Settled))
            && released + Count(t.history, Live) <= t.slots
            && Held(w.book.entries, tid) >= t.reward * Count(t.history, Active) >= 0
            && (t.status == Published ==> released == 0)
  {
    hide Intact, Held, Count, Shape, Lifecycle, Consent, KeysExplained, Settlement, SlotReturned, TaskLevelRefunded, ReturnedWhole;
    IntactFunds(w, tid);
    released :| EscrowBalanced(w.book.entries, tid, w.tasks[tid], released);
    BalancedIsSolvent(w.book.entries, tid, w.tasks[tid], released);
  }

  /** The lifecycle, read off the latest assignment of every slot. */
  lemma LifecycleHolds(w: World, tid: TaskId)
    requires Reachable(w) && tid in w.tasks
    ensures var t := w.tasks[tid];
            && (IsFinal(t.status) ==> SlotsOf(t.history, Active) == {})
            && (t.status == Settling ==> w.now >= t.deadline)
            && (t.status == PartiallyCompleted ==> SlotsOf(t.history, Paid) != {})
            && (t.status == Completed ==> |SlotsOf(t.history, Paid)| == t.slots)
            && (t.status == Expired ==> SlotsOf(t.history, Paid) == {})
  {
    hide Reachable, Count, SlotsOf, Consent, KeysExplained, Settlement;
    Reached(w, tid);
    var t := w.tasks[tid];
    LatestAgrees(t.history, Active);
    LatestAgrees(t.history, Paid);
    assert |SlotsOf(t.history, Active)| == 0 ==> SlotsOf(t.history, Active) == {};
    assert |SlotsOf(t.history, Paid)| == 0 ==> SlotsOf(t.history, Paid) == {};
  }

  /** Consent safety: a task is asked about at most once in its life, its request is pending exactly
      while an answer is missing, and each missing answer is about an assignment that is still merely
      accepted and about which nothing has been booked. */
  lemma ConsentHolds(w: World, tid: TaskId, q: nat, k: nat)
    requires Reachable(w) && tid in w.tasks
    requires q < |w.tasks[tid].requests| && k < |w.tasks[tid].requests[q].responses|
    ensures var t := w.tasks[tid];
            && |t.requests| == 1 && q == 0
            && (t.requests[0].status == Pending <==> !AllAnswered(t.requests[0]))
            && (t.requests[0].responses[k].status == Unanswered ==>
                  var i := t.requests[0].responses[k].index;
                  && i < |t.history| && t.history[i].status == Accepted
                  && forall n | 0 <= n < |w.book.entries| && TaskOf(w.book.entries[n].command.key) == Some(tid) ::
                       IndexOf(w.book.entries[n].command.key) != Some(i))
  {
    hide Reachable, Settlement, Lifecycle, Shape, KeysExplained;
    Reached(w, tid);
    var t := w.tasks[tid];
    assert ResponseSound(t, 0, k);
    if t.requests[0].responses[k].status == Unanswered {
      ActiveHasNoKeys(w.book.entries, tid, t, t.requests[0].responses[k].index, w.now);
    }
  }

  /** What one assignment has been paid and what came back for it follow from its status alone. */
  lemma PaidAsDue(w: World, tid: TaskId, i: nat)
    requires Reachable(w) && tid in w.tasks && i < |w.tasks[tid].history|
    ensures var t, s := w.tasks[tid], w.tasks[tid].history[i].status;
            && Booked(w.book.entries, PaidFor(tid, i)) == DuePayment(t, s)
            && (s != Cancelled ==> Booked(w.book.entries, ReturnedFor(tid, i)) == DueReturn(t, s))
            && (t.origin == Member && Is(Class.Settled, s) ==> DuePayment(t, s) + DueReturn(t, s) == t.reward)
            && (!Is(Class.Settled, s) ==> Booked(w.book.entries, PaidFor(tid, i)) == 0)
  {
    hide Reachable, WorldInv, Booked;
    ReachableIsSound(w);
    SettledBooks(w, tid, i);
  }

  /** The slots counted as occupied are the assignments not cancelled, and fit the task. */
  lemma OccupancyHolds(w: World, tid: TaskId)
    requires Reachable(w) && tid in w.tasks
    ensures var t := w.tasks[tid];
            |SlotsOf(t.history, Live)| == Count(t.history, Live) <= t.slots
  {
    hide Reachable, Count, SlotsOf;
    Reached(w, tid);
    OccupiedFits(w.tasks[tid]);
  }

  /** After any run, safe or not, every reward booked for an assignment went to its performer, and
      everything else booked about a task to its creator. */
  lemma MoneyReachesTheRightPeople(now: int, limit: nat, w: World, n: nat)
    requires Leads(Start(now, limit), w, None)
    requires n < |w.book.entries| && TaskOf(w.book.entries[n].command.key).Some?
    ensures var c := w.book.entries[n].command;
            var tid := TaskOf(c.key).value;
            && tid in w.tasks
            && (IsReward(c.kind) ==> c.experience == c.credit > 0)
            && (forall i: nat | InColumn(PaidFor(tid, i), c.key) :: i < |w.tasks[tid].history| && c.member == w.tasks[tid].history[i].performer)
            && ((forall i: nat :: !InColumn(PaidFor(tid, i), c.key)) ==> c.member == w.tasks[tid].creator)
  {
    hide Run, Start, WorldInv, Leads;
    StartHolds(now, limit);
    PartsOf(Start(now, limit));
    var ops := LeadsByRun(Start(now, limit), w, None);
    RunSound(Start(now, limit), ops);
    BookedRight(w, n);
  }

  lemma BookedRight(w: World, n: nat)
    requires LedgerSound(w) && n < |w.book.entries| && TaskOf(w.book.entries[n].command.key).Some?
    ensures var c := w.book.entries[n].command;
            && OwnedKey(c.key, w.tasks, w.receipts) && ValidCommand(c)
            && TaskOf(c.key).value in w.tasks && RightPerson(c, w.tasks[TaskOf(c.key).value])
            && (forall i: nat | InColumn(PaidFor(TaskOf(c.key).value, i), c.key) :: i == IndexOf(c.key).value)
            && ((c.key.OutcomeReward? || c.key.CaseFull? || c.key.CasePartial?) ==>
                  InColumn(PaidFor(TaskOf(c.key).value, IndexOf(c.key).value), c.key))
  {
    hide Grounded, Reconciled, BalancesAfter, ReversalsWellFormed, UniqueKeys;
    assert OwnedKey(w.book.entries[n].command.key, w.tasks, w.receipts);
  }

  // ---------- from any reachable world on ----------

  /** Intake never reopens. */
  lemma IntakeStaysClosed(w: World, v: World, tid: TaskId)
    requires Reachable(w) && Leads(w, v, None) && tid in w.tasks && w.tasks[tid].status != Published
    ensures tid in v.tasks && v.tasks[tid].status != Published
  {
    hide WorldInv, Reachable, Leads, Run;
    ReachableIsSound(w);
    var ops := LeadsByRun(w, v, None);
    NeverPublishedAgain(w, ops, tid);
  }

  /** A settled assignment is never touched, paid or refunded again. */
  lemma SettledForGood(w: World, v: World, tid: TaskId, i: nat)
    requires Reachable(w) && Leads(w, v, None) && tid in w.tasks && i < |w.tasks[tid].history|
    requires Is(Class.Settled, w.tasks[tid].history[i].status)
    ensures tid in v.tasks && i < |v.tasks[tid].history| && v.tasks[tid].history[i] == w.tasks[tid].history[i]
    ensures Booked(v.book.entries, PaidFor(tid, i)) == Booked(w.book.entries, PaidFor(tid, i))
    ensures Booked(v.book.entries, ReturnedFor(tid, i)) == Booked(w.book.entries, ReturnedFor(tid, i))
  {
    hide WorldInv, Reachable, Leads, Run, Booked;
    ReachableIsSound(w);
    var ops := LeadsByRun(w, v, None);
    SettledOnce(w, ops, tid, i);
  }

  /** The deadline pass drains a published task, once. */
  lemma DrainedOnce(w: World, v: World, later: World, tid: TaskId, cid: nat, again: nat)
    requires Intact(w, tid) && tid in w.tasks && w.tasks[tid].origin == Member
    requires w.tasks[tid].status == Published && w.now >= w.tasks[tid].deadline
    requires v == After(w, Perform(DeadlineDue(tid, cid))) && Leads(v, later, None)
    ensures tid in v.tasks && forall i | 0 <= i < |v.tasks[tid].history| :: v.tasks[tid].history[i].status != Accepted
    ensures Held(v.book.entries, tid) == v.tasks[tid].reward * Count(v.tasks[tid].history, Active)
    ensures After(later, Perform(DeadlineDue(tid, again))).book == later.book
  {
    hide WorldInv, Backed, Intact, Leads, Run, After, Held, Count;
    IntactIsBacked(w, tid);
    var ops := LeadsByRun(v, later, None);
    DeadlineDrains(w, tid, cid, ops, again);
  }

  /** What is idle in a task, the escrow beyond what its active assignments may be owed, is the reward
      of its slots neither held nor released. */
  lemma IdleIsCounted(w: World, tid: TaskId) returns (released: nat)
    requires Intact(w, tid) && tid in w.tasks && w.tasks[tid].origin == Member
    ensures var t := w.tasks[tid];
            && Held(w.book.entries, tid) - t.reward * Count(t.history, Active) == Idle(w.book.entries, tid, t)
            && Idle(w.book.entries, tid, t) == t.reward * (t.slots - released - Count(t.history, Live)) >= 0
            && Held(w.book.entries, tid) == t.reward * (t.slots - released - Count(t.history, Class.Settled))
  {
    hide Intact, Held, Count, TaskInv, Funded;
    IntactFunds(w, tid);
    released := IdleIsUnheld(w.book.entries, tid, w.tasks[tid], w.now);
    hide SlotReturned, TaskLevelRefunded;
  }

  /** Idle reserve is stranded, by the state of its task, if and only if nothing that can happen
      afterwards ever brings any of it back. */
  lemma StrandedForGood(w: World, tid: TaskId)
    requires Intact(w, tid) && tid in w.tasks && w.tasks[tid].origin == Member
    requires Idle(w.book.entries, tid, w.tasks[tid]) > 0
    ensures Stranded(w, tid) <==>
            forall v | Leads(w, v, Some(tid)) ::
              tid in v.tasks && Idle(v.book.entries, tid, v.tasks[tid]) >= Idle(w.book.entries, tid, w.tasks[tid])
  {
    hide WorldInv, Backed, Intact, Leads, SafeRun, Run, Idle, InReach, Stamped;
    IntactIsBacked(w, tid);
    StrandedIsForGood(w, tid);
    if Stranded(w, tid) {
      forall v | Leads(w, v, Some(tid))
        ensures tid in v.tasks && Idle(v.book.entries, tid, v.tasks[tid]) >= Idle(w.book.entries, tid, w.tasks[tid])
      {
        var ops := LeadsByRun(w, v, Some(tid));
      }
    } else {
      var ops := Recover(w, tid);
      RunLeads(w, ops, tid);
    }
  }

  function Worlds(w: World, ops: seq<Op>): (worlds: seq<World>)
    ensures |worlds| == |ops| + 1
    ensures forall k | 0 <= k <= |ops| :: worlds[k] == Run(w, ops[..k])
  {
    seq(|ops| + 1, k requires 0 <= k <= |ops| => Run(w, ops[..k]))
  }

  lemma PrefixStep(w: World, ops: seq<Op>, k: nat)
    requires k < |ops|
    ensures Run(w, ops[..k + 1]) == After(Run(w, ops[..k]), ops[k])
  {
    hide After, Run;
    RunBack(w, ops[..k + 1]);
    assert ops[..k + 1][..k] == ops[..k];
  }

  lemma RunLeads(w: World, ops: seq<Op>, tid: TaskId)
    requires SafeRun(w, ops, tid)
    ensures Leads(w, Run(w, ops), Some(tid))
  {
    hide After, Overdraws, Worlds, Run;
    var worlds := Worlds(w, ops);
    forall k {:trigger ops[k]} | 0 <= k < |ops|
      ensures worlds[k + 1] == After(worlds[k], ops[k]) && !Overdraws(worlds[k], ops[k], tid)
    {
      PrefixStep(w, ops, k);
    }
    assert Steps(worlds, ops, Some(tid));
    hide Steps, SafeRun;
    NothingIsSafe(w, tid);
    assert ops[..0] == [] && ops[..|ops|] == ops;
  }

  /** One transaction leaves reserve stranded if and only if it was stranded or the guard holds. */
  lemma StrandedExactlyBy(w: World, op: Op, tid: TaskId)
    requires Intact(w, tid) && tid in w.tasks && w.tasks[tid].origin == Member && !Overdraws(w, op, tid)
    ensures tid in After(w, op).tasks && (Stranded(After(w, op), tid) <==> Stranded(w, tid) || Strands(w, op, tid))
  {
    hide WorldInv, Backed, Intact, Stranded, Strands, Overdraws, After;
    IntactIsBacked(w, tid);
    StrandsExactly(w, op, tid);
  }

  /** Credits are neither made nor lost: a member's balance is the sum of his entries, and all
      balances with all escrow are what came from outside, after any run, safe or not. */
  lemma NothingLost(now: int, limit: nat, w: World)
    requires Leads(Start(now, limit), w, None)
    ensures forall m | m in w.book.credit :: w.book.credit[m] == CreditSum(w.book.entries, m) >= 0
    ensures TotalBalance(w.book) + TotalHeld(w.book.entries, w.tasks.Keys) == OutsideCredit(w.book.entries)
  {
    hide Run, Start, WorldInv, Leads, CreditSum, TotalBalance, TotalHeld, OutsideCredit;
    StartHolds(now, limit);
    PartsOf(Start(now, limit));
    var ops := LeadsByRun(Start(now, limit), w, None);
    RunSound(Start(now, limit), ops);
    Conservation(w);
  }

  /** A transaction loses the escrow of a task that comes out even exactly if it overdraws this task. */
  lemma LostExactlyBy(w: World, op: Op, tid: TaskId)
    requires Intact(w, tid)
    ensures Backed(After(w, op), tid) <==> !Overdraws(w, op, tid)
  {
    hide WorldInv, Backed, Intact, After, Overdraws;
    IntactIsBacked(w, tid);
    KeepsExactlyWhenSafe(w, op, tid);
  }

  /** In every world any run reaches, the next transaction moves the status of every task along its
      table, and a cancelled task stays cancelled unless a deadline pass comes over it. */
  lemma StatusFollows(w: World, op: Op, tid: TaskId)
    requires Reachable(w) && tid in w.tasks
    ensures tid in After(w, op).tasks && TaskMayBecome(w.now, w.tasks[tid], After(w, op).tasks[tid])
    ensures w.tasks[tid].status == TaskCancelled ==>
              (After(w, op).tasks[tid].status == TaskCancelled <==> !PassesDeadline(w, op, tid))
  {
    hide WorldInv, Reachable, After, TaskMayBecome;
    ReachableIsSound(w);
    PartsOf(w);
    StepMovesTask(w, op, tid);
    if w.tasks[tid].status == TaskCancelled {
      CancelledStays(w, op, tid);
    }
  }

  /** The ledger never refuses a settlement that its workflow allows. */
  lemma SettlementsGoThrough(w: World, j: Job)
    requires Reachable(w) && j.task in w.tasks && JobEffect(w, j).Success?
    ensures Step(w, Perform(j)).Success?
  {
    hide WorldInv, Reachable, JobEffect, Step;
    ReachableIsSound(w);
    JobsNeverRefused(w, j);
  }

  /** Nor a request that settles something. */
  lemma RequestsGoThrough(w: World, update: UpdateId, r: Request)
    requires Reachable(w) && SettlesSomething(r) && r.task in w.tasks && RequestEffect(w, update, r).Success?
    ensures Step(w, Deliver(update, r)).Success?
  {
    hide WorldInv, Reachable, RequestEffect, Step;
    ReachableIsSound(w);
    SettlingRequestsNeverRefused(w, update, r);
  }

  /** After any run, safe or not, every entry moves credit and experience as its kind says: reserves,
      penalties and transfers sent take, refunds, grants and transfers received give, and only rewards,
      which bring as much experience as credit, adjustments and reversals touch experience. */
  lemma EntriesMeanTheirKind(now: int, limit: nat, w: World, n: nat)
    requires Leads(Start(now, limit), w, None) && n < |w.book.entries|
    ensures MeansItsKind(w.book.entries[n].command)
    ensures w.book.entries[n].command.reversed.Some? <==> IsReversal(w.book.entries[n].command.kind)
  {
    hide Run, Start, WorldInv, Leads, Owned, RightPeople, Grounded;
    StartHolds(now, limit);
    PartsOf(Start(now, limit));
    var ops := LeadsByRun(Start(now, limit), w, None);
    RunSound(Start(now, limit), ops);
    assert AllValid(w.book.entries);
  }

  /** After any run no member is accepted, under review, rejected and open to dispute, disputed or waiting
      for a reviewer in more tasks than the limit. */
  lemma LimitHolds(w: World, m: MemberId, busy: set<TaskId>)
    requires Reachable(w)
    requires forall tid | tid in busy ::
               tid in w.tasks && exists i | 0 <= i < |w.tasks[tid].history| ::
                 && w.tasks[tid].history[i].performer == m
                 && w.tasks[tid].history[i].status in {Accepted, Submitted, RejectedPendingDispute, Disputed, ReviewerRequired}
    ensures |busy| <= w.limit
  {
    hide Reachable, LedgerSound, TasksSound;
    ReachableIsSound(w);
    assert busy <= ActiveTasks(w.tasks, m);
    SubsetSize(busy, ActiveTasks(w.tasks, m));
    assert |ActiveTasks(w.tasks, m)| <= w.limit;
  }
}
