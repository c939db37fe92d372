/**
 The reserved amount of the wallet summary. It is read off kinds, members and task references of
 ledger entries, and comes out as what the member's tasks hold.
 */
module ExchangeReserved {
  import opened Wrappers
  import opened Ledger
  import opened Tasks
  import opened Escrow
  import opened EscrowInvariants
  import opened EscrowDeadline
  import opened Exchange
  import opened ExchangeInvariants
  import opened ExchangeRuns
  import opened ExchangeDelivery
  import opened ExchangeMoney

  predicate MovesReserve(kind: Kind) {
    kind == TaskRewardReserved || kind == TaskRewardRefunded
  }

  // ---------- kinds follow keys ----------

  /** Rewards are booked under reward keys; everything else about a task moves a member's reserve. */
  predicate KindFits(c: Command, o: Origin) {
    if c.key.OutcomeReward? || c.key.CaseFull? || c.key.CasePartial? then IsReward(c.kind)
    else o == Member && MovesReserve(c.kind)
  }

  predicate AllFit(cmds: seq<Command>, o: Origin) {
    forall k | 0 <= k < |cmds| :: KindFits(cmds[k], o)
  }

  ghost predicate KindsFit(entries: seq<Entry>, tasks: map<TaskId, Task>) {
    forall n | 0 <= n < |entries| && TaskOf(entries[n].command.key).Some? && TaskOf(entries[n].command.key).value in tasks ::
      KindFits(entries[n].command, tasks[TaskOf(entries[n].command.key).value].origin)
  }

  lemma RequestFits(w: World, update: UpdateId, r: Request)
    requires r.task in w.tasks && !r.PublishDraft? && RequestEffect(w, update, r).Success?
    ensures AllFit(RequestEffect(w, update, r).value.commands, w.tasks[r.task].origin)
  {
    hide SlotsOf, LatestBySlot, Derive, FreeSlotFrom, ConsentRequests, WithdrawPending, HasPending, AllAnswered, ActiveTasks;
  }

  lemma JobFits(w: World, j: Job)
    requires j.task in w.tasks && JobEffect(w, j).Success?
    ensures AllFit(JobEffect(w, j).value.commands, w.tasks[j.task].origin)
  {
    DeadlineFits(j.task, w.tasks[j.task]);
    hide DeadlineCommands, Derive, WithdrawPending;
  }

  lemma DeadlineFits(tid: TaskId, t: Task)
    ensures AllFit(DeadlineCommands(tid, t), t.origin)
  {
    NoShowBatch(tid, t, |t.history|);
    var missed := NoShowRefunds(tid, t, |t.history|);
    hide NoShowRefunds, LatestBySlot;
    forall k | 0 <= k < |DeadlineCommands(tid, t)|
      ensures KindFits(DeadlineCommands(tid, t)[k], t.origin)
    {
      assert k < |missed| ==> DeadlineCommands(tid, t)[k] == missed[k];
    }
  }

  lemma KindsGrow(before: seq<Entry>, after: seq<Entry>, cmds: seq<Command>, tasks: map<TaskId, Task>, tid: TaskId, u: Task)
    requires KindsFit(before, tasks) && (Grew(before, after, cmds) || after == before)
    requires tid in tasks ==> u.origin == tasks[tid].origin
    requires tid !in tasks ==> forall n | 0 <= n < |before| :: TaskOf(before[n].command.key) != Some(tid)
    requires AllFit(cmds, u.origin) && forall k | 0 <= k < |cmds| :: TaskOf(cmds[k].key) == Some(tid)
    ensures KindsFit(after, tasks[tid := u])
  {
    hide KindFits;
    forall n | 0 <= n < |after| && TaskOf(after[n].command.key).Some? && TaskOf(after[n].command.key).value in tasks[tid := u]
      ensures KindFits(after[n].command, tasks[tid := u][TaskOf(after[n].command.key).value].origin)
    {
      if n < |before| {
        assert Grew(before, after, cmds) ==> after[..|before|][n] == after[n];
        assert after[n] == before[n];
      } else {
        assert after[|before| + (n - |before|)].command == cmds[n - |before|];
      }
    }
  }

  lemma OutsideKindsGrow(before: seq<Entry>, after: seq<Entry>, cmds: seq<Command>, tasks: map<TaskId, Task>)
    requires KindsFit(before, tasks) && (Grew(before, after, cmds) || after == before)
    requires forall k | 0 <= k < |cmds| :: TaskOf(cmds[k].key).None?
    ensures KindsFit(after, tasks)
  {
    hide KindFits;
    forall n | 0 <= n < |after| && TaskOf(after[n].command.key).Some? && TaskOf(after[n].command.key).value in tasks
      ensures KindFits(after[n].command, tasks[TaskOf(after[n].command.key).value].origin)
    {
      assert n >= |before| ==> after[|before| + (n - |before|)].command == cmds[n - |before|];
      assert Grew(before, after, cmds) ==> after[..|before|][n] == after[n];
    }
  }

  lemma CommitFits(w: World, tid: TaskId, eff: Effect)
    requires BookInv(w.book) && KindsFit(w.book.entries, w.tasks) && tid in w.tasks && Commit(w, tid, Success(eff)).Success?
    requires AllFit(eff.commands, w.tasks[tid].origin) && SameOwner(w.tasks[tid], eff.task)
    requires forall k | 0 <= k < |eff.commands| :: TaskOf(eff.commands[k].key) == Some(tid)
    ensures KindsFit(Commit(w, tid, Success(eff)).value.book.entries, Commit(w, tid, Success(eff)).value.tasks)
  {
    hide BookInv, Settle, AllNew, AllRecorded, Grew, KindsFit, AllFit;
    SettleOutcome(w.book, eff.commands);
    KindsGrow(w.book.entries, Commit(w, tid, Success(eff)).value.book.entries, eff.commands, w.tasks, tid, eff.task);
  }

  lemma PublishFits(w: World, tid: TaskId)
    requires LedgerSound(w) && KindsFit(w.book.entries, w.tasks) && Publish(w, tid).Success?
    ensures KindsFit(Publish(w, tid).value.book.entries, Publish(w, tid).value.tasks)
  {
    hide BookInv, Settle, AllNew, AllRecorded, Grew, Publish, KindsFit, Grounded, Owned, RightPeople;
    PublishEffect(w, tid);
    if tid in w.tasks {
      PublishedAlready(w, tid);
    } else {
      var d := w.drafts[tid];
      SettleOutcome(w.book, PublishCommands(tid, d));
      NothingAboutNewTask(w, tid);
      KindsGrow(w.book.entries, Publish(w, tid).value.book.entries, PublishCommands(tid, d), w.tasks, tid, Opened(d));
    }
  }

  lemma OutsideFits(w: World, b: Book, cmds: seq<Command>)
    requires BookInv(b) && b.entries == w.book.entries && KindsFit(w.book.entries, w.tasks) && Settle(b, cmds).Success?
    requires forall k | 0 <= k < |cmds| :: TaskOf(cmds[k].key).None?
    ensures KindsFit(Settle(b, cmds).value.entries, w.tasks)
  {
    hide BookInv, Settle, AllNew, AllRecorded, Grew, KindsFit;
    SettleOutcome(b, cmds);
    OutsideKindsGrow(b.entries, Settle(b, cmds).value.entries, cmds, w.tasks);
  }

  lemma StepFits(w: World, op: Op)
    requires LedgerSound(w) && KindsFit(w.book.entries, w.tasks)
    ensures KindsFit(After(w, op).book.entries, After(w, op).tasks)
  {
    hide BookInv, KindsFit, RequestEffect, JobEffect, Publish, Owned, RightPeople, Grounded, Settle;
    if Step(w, op).Success? {
      match op
      case Tick(_) =>
      case Register(m) =>
        if m !in w.book.credit {
          GrantSettles(w.book, m);
          OutsideFits(w, w.book.(credit := w.book.credit[m := 0], experience := w.book.experience[m := 0]), [GrantOf(m)]);
        }
      case SaveDraft(_, _) =>
      case Economy(cmds) =>
        OutsideFits(w, w.book, cmds);
      case Deliver(update, r) =>
        if update !in w.receipts {
          if r.PublishDraft? {
            PublishFits(w, r.task);
          } else {
            RequestTouches(w, update, r);
            RequestFits(w, update, r);
            hide AllFit;
            CommitFits(w, r.task, RequestEffect(w, update, r).value);
          }
        }
      case Perform(j) =>
        JobTouches(w, j);
        JobFits(w, j);
        hide AllFit;
        CommitFits(w, j.task, JobEffect(w, j).value);
    }
  }

  lemma {:induction false} RunFits(w: World, ops: seq<Op>)
    requires LedgerSound(w) && KindsFit(w.book.entries, w.tasks)
    ensures KindsFit(Run(w, ops).book.entries, Run(w, ops).tasks)
  {
    if ops != [] {
      hide LedgerSound, KindsFit, After;
      RunFits(w, ops[..|ops| - 1]);
      RunSound(w, ops[..|ops| - 1]);
      StepFits(Run(w, ops[..|ops| - 1]), ops[|ops| - 1]);
    }
  }

  // ---------- the query ----------

  /** The task an entry refers to, by itself or through the entry it reverses. */
  function TaskAbout(entries: seq<Entry>, i: nat): Option<TaskId>
    requires i < |entries|
  {
    var c := entries[i].command;
    if TaskOf(c.key).Some? then TaskOf(c.key)
    else if c.reversed.Some? && c.reversed.value < |entries| then TaskOf(entries[c.reversed.value].command.key)
    else None
  }

  function TasksOf(tasks: map<TaskId, Task>, m: MemberId): set<TaskId> {
    set t | t in tasks && tasks[t].origin == Member && tasks[t].creator == m
  }

  /** What one entry adds to the reserved amount of a member: reserves and refunds by whose they are,
      rewards by whose task they are about, each together with its reversal. */
  function Adds(entries: seq<Entry>, tasks: map<TaskId, Task>, m: MemberId, i: nat): int
    requires i < |entries|
  {
    var c := entries[i].command;
    if MovesReserve(CountsAs(entries, i)) then (if c.member == m then -c.credit else 0)
    else if IsReward(CountsAs(entries, i)) then
      (if TaskAbout(entries, i).Some? && TaskAbout(entries, i).value in TasksOf(tasks, m) then -c.credit else 0)
    else 0
  }

  /** The reserved amount over the first `n` entries. */
  function Reserved(entries: seq<Entry>, tasks: map<TaskId, Task>, m: MemberId, n: nat): int
    requires n <= |entries|
  {
    if n == 0 then 0 else Reserved(entries, tasks, m, n - 1) + Adds(entries, tasks, m, n - 1)
  }

  /** What a task holds when the reversals of its entries are counted in. */
  function NetHeld(entries: seq<Entry>, tid: TaskId, n: nat): int
    requires n <= |entries|
  {
    if n == 0 then 0
    else NetHeld(entries, tid, n - 1) - if TaskAbout(entries, n - 1) == Some(tid) then entries[n - 1].command.credit else 0
  }

  /** No entry of a task's kind is booked apart from every task. */
  ghost predicate NoStrays(entries: seq<Entry>) {
    forall i | 0 <= i < |entries| && TaskOf(entries[i].command.key).None? ::
      !MovesReserve(entries[i].command.kind) && !IsReward(entries[i].command.kind)
  }

  predicate OffTask(c: Command) {
    TaskOf(c.key).None? ==> !MovesReserve(c.kind) && !IsReward(c.kind)
  }

  /** Batches from outside the task workflows post no reserves, refunds or rewards. */
  predicate KeepsToItsKinds(op: Op) {
    op.Economy? ==> forall k | 0 <= k < |op.commands| :: OffTask(op.commands[k])
  }

  lemma StraysGrow(before: seq<Entry>, after: seq<Entry>, cmds: seq<Command>)
    requires NoStrays(before) && (Grew(before, after, cmds) || after == before)
    requires forall k | 0 <= k < |cmds| :: OffTask(cmds[k])
    ensures NoStrays(after)
  {
    forall i | 0 <= i < |after| && TaskOf(after[i].command.key).None?
      ensures !MovesReserve(after[i].command.kind) && !IsReward(after[i].command.kind)
    {
      assert i >= |before| ==> after[|before| + (i - |before|)].command == cmds[i - |before|];
      assert Grew(before, after, cmds) && i < |before| ==> after[..|before|][i] == after[i];
      assert i >= |before| ==> OffTask(cmds[i - |before|]);
    }
  }

  lemma SettleStrays(b: Book, cmds: seq<Command>)
    requires BookInv(b) && NoStrays(b.entries) && Settle(b, cmds).Success?
    requires forall k | 0 <= k < |cmds| :: OffTask(cmds[k])
    ensures NoStrays(Settle(b, cmds).value.entries)
  {
    hide BookInv, Settle, AllNew, AllRecorded, Grew, NoStrays, OffTask;
    SettleOutcome(b, cmds);
    StraysGrow(b.entries, Settle(b, cmds).value.entries, cmds);
  }

  lemma StepStrays(w: World, op: Op)
    requires LedgerSound(w) && NoStrays(w.book.entries) && KeepsToItsKinds(op)
    ensures NoStrays(After(w, op).book.entries)
  {
    hide BookInv, NoStrays, RequestEffect, JobEffect, Publish, Owned, RightPeople, Grounded, Settle;
    if Step(w, op).Success? {
      match op
      case Tick(_) =>
      case Register(m) =>
        if m !in w.book.credit {
          GrantSettles(w.book, m);
          SettleStrays(w.book.(credit := w.book.credit[m := 0], experience := w.book.experience[m := 0]), [GrantOf(m)]);
        }
      case SaveDraft(_, _) =>
      case Economy(cmds) =>
        SettleStrays(w.book, cmds);
      case Deliver(update, r) =>
        if update !in w.receipts {
          if r.PublishDraft? {
            PublishEffect(w, r.task);
            PublishAbout(r.task, w.drafts[r.task]);
            SettleStrays(w.book, PublishCommands(r.task, w.drafts[r.task]));
          } else {
            RequestTouches(w, update, r);
            SettleStrays(w.book, RequestEffect(w, update, r).value.commands);
          }
        }
      case Perform(j) =>
        JobTouches(w, j);
        SettleStrays(w.book, JobEffect(w, j).value.commands);
    }
  }

  lemma {:induction false} RunStrays(w: World, ops: seq<Op>)
    requires LedgerSound(w) && NoStrays(w.book.entries) && forall k | 0 <= k < |ops| :: KeepsToItsKinds(ops[k])
    ensures NoStrays(Run(w, ops).book.entries)
  {
    if ops != [] {
      hide LedgerSound, NoStrays, After, KeepsToItsKinds;
      var front := ops[..|ops| - 1];
      assert forall k | 0 <= k < |front| :: front[k] == ops[k];
      RunStrays(w, front);
      RunSound(w, front);
      StepStrays(Run(w, front), ops[|ops| - 1]);
    }
  }

  lemma EntryAdds(w: World, m: MemberId, i: nat)
    requires LedgerSound(w) && KindsFit(w.book.entries, w.tasks) && NoStrays(w.book.entries) && i < |w.book.entries|
    ensures Adds(w.book.entries, w.tasks, m, i)
         == if TaskAbout(w.book.entries, i).Some? && TaskAbout(w.book.entries, i).value in TasksOf(w.tasks, m) then
              -w.book.entries[i].command.credit
            else 0
  {
    hide Grounded, Reconciled, BalancesAfter, UniqueKeys;
    var entries := w.book.entries;
    assert OwnedKey(entries[i].command.key, w.tasks, w.receipts) && ValidCommand(entries[i].command);
    if entries[i].command.reversed.Some? {
      assert ReversesEarlier(entries, i);
      var s := entries[i].command.reversed.value;
      assert OwnedKey(entries[s].command.key, w.tasks, w.receipts) && ValidCommand(entries[s].command);
    }
    hide BookInv, DeltasValid;
  }

  /** What several tasks hold together, by the first `n` entries. */
  ghost function NetTotal(entries: seq<Entry>, tasks: set<TaskId>, n: nat): int
    requires n <= |entries|
  {
    Sum(tasks, (t: nat) => NetHeld(entries, t, n))
  }

  lemma NetMoves(entries: seq<Entry>, mine: set<TaskId>, n: nat)
    requires n < |entries|
    ensures NetTotal(entries, mine, n + 1)
         == NetTotal(entries, mine, n)
            + (if TaskAbout(entries, n).Some? && TaskAbout(entries, n).value in mine then -entries[n].command.credit else 0)
  {
    hide TaskAbout, Sum;
    var about := TaskAbout(entries, n);
    if about.Some? {
      SumMoves(mine, (t: nat) => NetHeld(entries, t, n), (t: nat) => NetHeld(entries, t, n + 1), about.value, -entries[n].command.credit);
    } else {
      SumSame(mine, (t: nat) => NetHeld(entries, t, n), (t: nat) => NetHeld(entries, t, n + 1));
    }
  }

  lemma NothingNetYet(entries: seq<Entry>, mine: set<TaskId>)
    ensures NetTotal(entries, mine, 0) == 0
  {
    SumZero(mine, (t: nat) => NetHeld(entries, t, 0));
  }

  lemma {:induction false} ReservedIsNet(w: World, m: MemberId, n: nat)
    requires LedgerSound(w) && KindsFit(w.book.entries, w.tasks) && NoStrays(w.book.entries) && n <= |w.book.entries|
    ensures Reserved(w.book.entries, w.tasks, m, n) == NetTotal(w.book.entries, TasksOf(w.tasks, m), n)
  {
    hide LedgerSound, KindsFit, NoStrays, Adds, TaskAbout, TasksOf, NetTotal, NetHeld, Sum;
    if n == 0 {
      NothingNetYet(w.book.entries, TasksOf(w.tasks, m));
    } else {
      ReservedIsNet(w, m, n - 1);
      EntryAdds(w, m, n - 1);
      NetMoves(w.book.entries, TasksOf(w.tasks, m), n - 1);
    }
  }

  lemma {:induction false} NetIsHeld(entries: seq<Entry>, tid: TaskId, n: nat)
    requires n <= |entries| && forall i | 0 <= i < |entries| :: entries[i].command.reversed.None?
    ensures NetHeld(entries, tid, n) == Held(entries[..n], tid)
  {
    if n > 0 {
      NetIsHeld(entries, tid, n - 1);
      assert entries[..n][..n - 1] == entries[..n - 1];
    }
  }

  lemma NothingStrays(now: int, limit: nat)
    ensures NoStrays(Start(now, limit).book.entries)
  {
  }

  /** After any run from an empty exchange, the reserved amount shown to a member is what the tasks
      he created hold, reversals of their entries counted in; without reversals, their escrow. */
  lemma SummaryShowsEscrow(now: int, limit: nat, ops: seq<Op>, m: MemberId)
    requires forall k | 0 <= k < |ops| :: KeepsToItsKinds(ops[k])
    ensures var w := Run(Start(now, limit), ops);
            var mine := TasksOf(w.tasks, m);
            && Reserved(w.book.entries, w.tasks, m, |w.book.entries|)
               == NetTotal(w.book.entries, mine, |w.book.entries|)
            && ((forall i | 0 <= i < |w.book.entries| :: w.book.entries[i].command.reversed.None?) ==>
                  Reserved(w.book.entries, w.tasks, m, |w.book.entries|) == TotalHeld(w.book.entries, mine))
  {
    hide LedgerSound, Run, Reserved, TasksOf, Held, NetHeld, NoStrays, KeepsToItsKinds, WithinLimit, TasksSound;
    var w := Run(Start(now, limit), ops);
    StartHolds(now, limit);
    RunSound(Start(now, limit), ops);
    RunFits(Start(now, limit), ops);
    NothingStrays(now, limit);
    RunStrays(Start(now, limit), ops);
    ReservedIsNet(w, m, |w.book.entries|);
    var n := |w.book.entries|;
    if forall i | 0 <= i < n :: w.book.entries[i].command.reversed.None? {
      assert w.book.entries[..n] == w.book.entries;
      forall t: nat
        ensures NetHeld(w.book.entries, t, n) == Held(w.book.entries, t)
      {
        NetIsHeld(w.book.entries, t, n);
      }
      SumSame(TasksOf(w.tasks, m), (t: nat) => NetHeld(w.book.entries, t, n), (t: nat) => Held(w.book.entries, t));
    }
  }
}
