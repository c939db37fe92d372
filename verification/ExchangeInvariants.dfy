/**
 What every world reached by a run satisfies, and why each step keeps it.
 */
module ExchangeInvariants {
  import opened Wrappers
  import opened Ledger
  import opened Tasks
  import opened Escrow
  import opened EscrowInvariants
  import opened EscrowSteps
  import opened EscrowPerformer
  import opened EscrowCreator
  import opened EscrowDeadline
  import opened Exchange

  // ---------- the ledger and its owners ----------

  /** Task entries belong to existing tasks, and edit entries to updates already delivered. */
  ghost predicate Owned(entries: seq<Entry>, tasks: map<TaskId, Task>, receipts: set<UpdateId>) {
    forall n | 0 <= n < |entries| :: OwnedKey(entries[n].command.key, tasks, receipts)
  }

  predicate OwnedKey(key: Key, tasks: map<TaskId, Task>, receipts: set<UpdateId>) {
    && (TaskOf(key).Some? ==> TaskOf(key).value in tasks)
    && (key.EditReserve? || key.EditRefund? ==> key.update in receipts)
  }

  /** Rewards go to the performer of the assignment they are about, everything else about a task is
      between its creator and its escrow. */
  predicate RightPerson(c: Command, t: Task) {
    match c.key
    case OutcomeReward(_, i, _) => i < |t.history| && c.member == t.history[i].performer
    case CaseFull(_, i) => i < |t.history| && c.member == t.history[i].performer
    case CasePartial(_, i) => i < |t.history| && c.member == t.history[i].performer
    case _ => c.member == t.creator
  }

  ghost predicate RightPeople(entries: seq<Entry>, tasks: map<TaskId, Task>) {
    forall n | 0 <= n < |entries| && TaskOf(entries[n].command.key).Some? && TaskOf(entries[n].command.key).value in tasks ::
      RightPerson(entries[n].command, tasks[TaskOf(entries[n].command.key).value])
  }

  /** A task comes from its draft, and everyone in it has an account. */
  ghost predicate Grounded(w: World, tid: TaskId)
    requires tid in w.tasks
  {
    var t := w.tasks[tid];
    && tid in w.drafts
    && t.origin == w.drafts[tid].origin && t.creator == w.drafts[tid].creator
    && AllRecorded(w.book.entries, PublishCommands(tid, w.drafts[tid]))
    && t.creator in w.book.credit
    && forall i | 0 <= i < |t.history| :: t.history[i].performer in w.book.credit
  }

  /** Holds after every run, safe or not. */
  ghost predicate LedgerSound(w: World) {
    && BookInv(w.book)
    && Owned(w.book.entries, w.tasks, w.receipts)
    && RightPeople(w.book.entries, w.tasks)
    && forall tid | tid in w.tasks :: Grounded(w, tid)
  }

  ghost predicate TasksSound(w: World) {
    forall tid | tid in w.tasks :: TaskInv(w.book.entries, tid, w.tasks[tid], w.now)
  }

  /** The escrow of one task comes out even; of a task that does not exist yet there is nothing to say. */
  ghost predicate Backed(w: World, tid: TaskId) {
    tid in w.tasks ==> Funded(w.book.entries, tid, w.tasks[tid])
  }

  ghost predicate WithinLimit(tasks: map<TaskId, Task>, limit: nat) {
    forall m: MemberId :: |ActiveTasks(tasks, m)| <= limit
  }

  /** Holds after every run; whether a task is backed besides is a matter of that task alone. */
  ghost predicate WorldInv(w: World) {
    LedgerSound(w) && TasksSound(w) && WithinLimit(w.tasks, w.limit)
  }

  // ---------- batches ----------

  lemma SettleOutcome(b: Book, cmds: seq<Command>)
    requires BookInv(b) && Settle(b, cmds).Success?
    ensures BookInv(Settle(b, cmds).value)
    ensures Settle(b, cmds).value.credit.Keys == b.credit.Keys
    ensures b.entries <= Settle(b, cmds).value.entries
    ensures AllRecorded(Settle(b, cmds).value.entries, cmds)
    ensures AllNew(b.entries, cmds) ==> Grew(b.entries, Settle(b, cmds).value.entries, cmds)
    ensures !AllNew(b.entries, cmds) ==> Settle(b, cmds).value == b
  {
    if cmds != [] {
      ApplyOutcome(b, cmds);
    }
  }

  /** Every key of the batch is about this task, and edits carry the update being delivered. */
  predicate AboutTask(cmds: seq<Command>, tid: TaskId, update: Option<UpdateId>) {
    forall k | 0 <= k < |cmds| ::
      && TaskOf(cmds[k].key) == Some(tid)
      && !cmds[k].key.PublishReserve?
      && (cmds[k].key.EditReserve? || cmds[k].key.EditRefund? ==> Some(cmds[k].key.update) == update)
  }

  lemma DeadlineAboutTask(tid: TaskId, t: Task)
    ensures AboutTask(DeadlineCommands(tid, t), tid, None)
    ensures forall k | 0 <= k < |DeadlineCommands(tid, t)| :: RightPerson(DeadlineCommands(tid, t)[k], t)
  {
    NoShowBatch(tid, t, |t.history|);
    var missed := NoShowRefunds(tid, t, |t.history|);
    hide NoShowRefunds, LatestBySlot;
    forall k | 0 <= k < |DeadlineCommands(tid, t)|
      ensures TaskOf(DeadlineCommands(tid, t)[k].key) == Some(tid)
      ensures DeadlineCommands(tid, t)[k].key.OutcomeRefund? || DeadlineCommands(tid, t)[k].key.UnfilledRefund?
      ensures DeadlineCommands(tid, t)[k].member == t.creator
    {
      assert k < |missed| ==> DeadlineCommands(tid, t)[k] == missed[k];
    }
  }

  ghost predicate SameOwner(t: Task, u: Task) {
    u.origin == t.origin && u.creator == t.creator
  }

  predicate PaysRightPeople(cmds: seq<Command>, u: Task) {
    forall k | 0 <= k < |cmds| :: RightPerson(cmds[k], u)
  }

  /** Nobody appears in the history of a task but by accepting a slot. */
  ghost predicate SamePerformers(t: Task, u: Task, joined: set<MemberId>) {
    && |t.history| <= |u.history|
    && (forall i | 0 <= i < |t.history| :: u.history[i].performer == t.history[i].performer)
    && forall i | |t.history| <= i < |u.history| :: u.history[i].performer in joined
  }

  lemma SamePeopleJoined(t: Task, u: Task, joined: set<MemberId>)
    requires SamePerformers(t, u, {})
    ensures SamePerformers(t, u, joined)
  {
  }

  lemma RequestTouches(w: World, update: UpdateId, r: Request)
    requires r.task in w.tasks && !r.PublishDraft? && RequestEffect(w, update, r).Success?
    ensures AboutTask(RequestEffect(w, update, r).value.commands, r.task, Some(update))
    ensures SameOwner(w.tasks[r.task], RequestEffect(w, update, r).value.task)
    ensures SamePerformers(w.tasks[r.task], RequestEffect(w, update, r).value.task, w.book.credit.Keys)
    ensures PaysRightPeople(RequestEffect(w, update, r).value.commands, RequestEffect(w, update, r).value.task)
  {
    hide SlotsOf, LatestBySlot, Derive, FreeSlotFrom, ConsentRequests, WithdrawPending, HasPending, AllAnswered;
  }

  lemma JobTouches(w: World, j: Job)
    requires j.task in w.tasks && JobEffect(w, j).Success?
    ensures AboutTask(JobEffect(w, j).value.commands, j.task, None)
    ensures SameOwner(w.tasks[j.task], JobEffect(w, j).value.task)
    ensures SamePerformers(w.tasks[j.task], JobEffect(w, j).value.task, {})
    ensures PaysRightPeople(JobEffect(w, j).value.commands, JobEffect(w, j).value.task)
  {
    hide DeadlineCommands, Derive, WithdrawPending, RightPerson;
    JobPaysRightPeople(w, j);
    DeadlineAboutTask(j.task, w.tasks[j.task]);
  }

  lemma JobPaysRightPeople(w: World, j: Job)
    requires j.task in w.tasks && JobEffect(w, j).Success?
    ensures PaysRightPeople(JobEffect(w, j).value.commands, JobEffect(w, j).value.task)
  {
    hide DeadlineCommands, Derive, WithdrawPending;
    DeadlineAboutTask(j.task, w.tasks[j.task]);
  }

  // ---------- the ledger stays sound ----------

  lemma OwnedGrows(before: seq<Entry>, after: seq<Entry>, cmds: seq<Command>, tasks: map<TaskId, Task>, receipts: set<UpdateId>, tasks': map<TaskId, Task>, receipts': set<UpdateId>)
    requires Owned(before, tasks, receipts) && tasks.Keys <= tasks'.Keys && receipts <= receipts'
    requires Grew(before, after, cmds) || after == before
    requires forall k | 0 <= k < |cmds| :: OwnedKey(cmds[k].key, tasks', receipts')
    ensures Owned(after, tasks', receipts')
  {
    forall n | 0 <= n < |after|
      ensures OwnedKey(after[n].command.key, tasks', receipts')
    {
      if n < |before| {
        assert Grew(before, after, cmds) ==> after[..|before|][n] == after[n];
        assert OwnedKey(before[n].command.key, tasks, receipts);
      } else {
        var k := n - |before|;
        assert after[|before| + k].command == cmds[k];
      }
    }
  }

  lemma PersonStays(c: Command, t: Task, u: Task, joined: set<MemberId>)
    requires RightPerson(c, t) && SameOwner(t, u) && SamePerformers(t, u, joined)
    ensures RightPerson(c, u)
  {
  }

  /** Who was paid stays who should have been paid, and the new batch pays whom it should. */
  lemma PeopleGrow(before: seq<Entry>, after: seq<Entry>, cmds: seq<Command>, tasks: map<TaskId, Task>, tid: TaskId, u: Task, joined: set<MemberId>)
    requires RightPeople(before, tasks) && (Grew(before, after, cmds) || after == before)
    requires tid in tasks ==> SameOwner(tasks[tid], u) && SamePerformers(tasks[tid], u, joined)
    requires tid !in tasks ==> forall n | 0 <= n < |before| :: TaskOf(before[n].command.key) != Some(tid)
    requires PaysRightPeople(cmds, u) && forall k | 0 <= k < |cmds| :: TaskOf(cmds[k].key) == Some(tid)
    ensures RightPeople(after, tasks[tid := u])
  {
    var tasks' := tasks[tid := u];
    forall n | 0 <= n < |after| && TaskOf(after[n].command.key).Some? && TaskOf(after[n].command.key).value in tasks'
      ensures RightPerson(after[n].command, tasks'[TaskOf(after[n].command.key).value])
    {
      hide RightPerson, SamePerformers;
      if n < |before| {
        assert Grew(before, after, cmds) ==> after[..|before|][n] == after[n];
        assert after[n] == before[n];
        var other := TaskOf(before[n].command.key).value;
        if other == tid {
          assert other in tasks;
          PersonStays(before[n].command, tasks[tid], u, joined);
        }
      } else {
        var k := n - |before|;
        assert after[|before| + k].command == cmds[k];
      }
    }
  }

  lemma OutsidersGrow(before: seq<Entry>, after: seq<Entry>, cmds: seq<Command>, tasks: map<TaskId, Task>)
    requires RightPeople(before, tasks) && (Grew(before, after, cmds) || after == before)
    requires forall k | 0 <= k < |cmds| :: TaskOf(cmds[k].key).None?
    ensures RightPeople(after, tasks)
  {
    forall n | 0 <= n < |after| && TaskOf(after[n].command.key).Some? && TaskOf(after[n].command.key).value in tasks
      ensures RightPerson(after[n].command, tasks[TaskOf(after[n].command.key).value])
    {
      hide RightPerson;
      assert n >= |before| ==> after[|before| + (n - |before|)].command == cmds[n - |before|];
      assert Grew(before, after, cmds) ==> after[..|before|][n] == after[n];
    }
  }

  lemma GroundedStays(w: World, v: World, tid: TaskId)
    requires tid in w.tasks && tid in v.tasks && Grounded(w, tid)
    requires tid in v.drafts && v.drafts[tid] == w.drafts[tid]
    requires w.book.entries <= v.book.entries && w.book.credit.Keys <= v.book.credit.Keys
    requires SameOwner(w.tasks[tid], v.tasks[tid])
    requires SamePerformers(w.tasks[tid], v.tasks[tid], v.book.credit.Keys)
    ensures Grounded(v, tid)
  {
    RecordedStays(w.book.entries, v.book.entries, PublishCommands(tid, w.drafts[tid]));
    hide AllRecorded, PublishCommands;
    var t, u := w.tasks[tid], v.tasks[tid];
    forall i | 0 <= i < |u.history|
      ensures u.history[i].performer in v.book.credit
    {
      if i < |t.history| {
        assert t.history[i].performer in w.book.credit.Keys;
      }
      assert u.history[i].performer in v.book.credit.Keys;
    }
  }

  lemma DraftOf(w: World, tid: TaskId)
    requires tid in w.tasks && Grounded(w, tid)
    ensures tid in w.drafts
  {
  }

  lemma SameTaskSamePeople(t: Task, joined: set<MemberId>)
    ensures SameOwner(t, t) && SamePerformers(t, t, joined)
  {
  }

  lemma CommitSound(w: World, tid: TaskId, eff: Effect, update: Option<UpdateId>, receipts: set<UpdateId>)
    requires LedgerSound(w) && tid in w.tasks && Commit(w, tid, Success(eff)).Success?
    requires AboutTask(eff.commands, tid, update) && SameOwner(w.tasks[tid], eff.task)
    requires SamePerformers(w.tasks[tid], eff.task, w.book.credit.Keys) && PaysRightPeople(eff.commands, eff.task)
    requires receipts == w.receipts + if update.Some? then {update.value} else {}
    ensures LedgerSound(Commit(w, tid, Success(eff)).value.(receipts := receipts))
  {
    hide BookInv, Settle, AllNew, AllRecorded, Grew, Owned, SamePerformers, Grounded, RightPeople, PaysRightPeople;
    var v := Commit(w, tid, Success(eff)).value.(receipts := receipts);
    SettleOutcome(w.book, eff.commands);
    OwnedGrows(w.book.entries, v.book.entries, eff.commands, w.tasks, w.receipts, v.tasks, receipts);
    PeopleGrow(w.book.entries, v.book.entries, eff.commands, w.tasks, tid, eff.task, w.book.credit.Keys);
    forall other | other in v.tasks
      ensures Grounded(v, other)
    {
      assert Grounded(w, other);
      DraftOf(w, other);
      if other != tid {
        SameTaskSamePeople(w.tasks[other], v.book.credit.Keys);
      }
      GroundedStays(w, v, other);
    }
  }

  /** What publishing does, once its checks pass. */
  lemma PublishEffect(w: World, tid: TaskId)
    requires Publish(w, tid).Success?
    ensures tid in w.drafts
    ensures var d, v := w.drafts[tid], Publish(w, tid).value;
            && d.reward > 0 && d.slots > 0 && d.deadline > w.now && d.creator in w.book.credit
            && Settle(w.book, PublishCommands(tid, d)).Success?
            && v == w.(book := Settle(w.book, PublishCommands(tid, d)).value,
                       tasks := if tid in w.tasks then w.tasks else w.tasks[tid := Opened(d)])
  {
    hide Settle;
  }

  lemma OpenedGrounded(v: World, tid: TaskId)
    requires tid in v.tasks && tid in v.drafts && v.tasks[tid] == Opened(v.drafts[tid])
    requires v.drafts[tid].creator in v.book.credit.Keys
    requires AllRecorded(v.book.entries, PublishCommands(tid, v.drafts[tid]))
    ensures Grounded(v, tid)
  {
  }

  lemma PublishPeople(w: World, tid: TaskId)
    requires LedgerSound(w) && Publish(w, tid).Success?
    ensures RightPeople(Publish(w, tid).value.book.entries, Publish(w, tid).value.tasks)
  {
    hide BookInv, Settle, AllNew, AllRecorded, Grew, Publish, SamePerformers, RightPeople, Grounded;
    PublishEffect(w, tid);
    if tid in w.tasks {
      PublishedAlready(w, tid);
    } else {
      var d := w.drafts[tid];
      SettleOutcome(w.book, PublishCommands(tid, d));
      NothingAboutNewTask(w, tid);
      PeopleGrow(w.book.entries, Publish(w, tid).value.book.entries, PublishCommands(tid, d), w.tasks, tid, Opened(d), {});
    }
  }

  lemma PublishSound(w: World, tid: TaskId, receipts: set<UpdateId>)
    requires LedgerSound(w) && Publish(w, tid).Success? && w.receipts <= receipts
    ensures LedgerSound(Publish(w, tid).value.(receipts := receipts))
  {
    hide BookInv, Settle, AllNew, AllRecorded, Grew, Owned, Grounded, Publish, SamePerformers, RightPeople;
    PublishEffect(w, tid);
    PublishPeople(w, tid);
    var v := Publish(w, tid).value.(receipts := receipts);
    var cmds := PublishCommands(tid, w.drafts[tid]);
    SettleOutcome(w.book, cmds);
    OwnedGrows(w.book.entries, v.book.entries, cmds, w.tasks, w.receipts, v.tasks, receipts);
    hide PublishCommands, Opened;
    forall other | other in v.tasks
      ensures Grounded(v, other)
    {
      if other in w.tasks {
        DraftOf(w, other);
        SameTaskSamePeople(w.tasks[other], v.book.credit.Keys);
        GroundedStays(w, v, other);
      } else {
        OpenedGrounded(v, tid);
      }
    }
  }

  lemma GrantSettles(b: Book, m: MemberId)
    requires BookInv(b) && m !in b.credit
    ensures BookInv(b.(credit := b.credit[m := 0], experience := b.experience[m := 0]))
  {
    NobodyHasEntries(b, m);
    var k := b.(credit := b.credit[m := 0], experience := b.experience[m := 0]);
    assert forall x | x in k.credit :: k.credit[x] == CreditSum(k.entries, x) >= 0;
    assert forall x | x in k.experience :: k.experience[x] == ExperienceSum(k.entries, x) >= 0;
    assert k.credit.Keys == b.credit.Keys + {m} && k.experience.Keys == b.experience.Keys + {m};
  }

  lemma NobodyHasEntries(b: Book, m: MemberId)
    requires Reconciled(b) && m !in b.credit
    ensures CreditSum(b.entries, m) == ExperienceSum(b.entries, m) == 0
  {
    assert forall i | 0 <= i < |b.entries| :: b.entries[i].command.member != m;
    NothingBookedFor(b.entries, m);
  }

  lemma {:induction false} NothingBookedFor(entries: seq<Entry>, m: MemberId)
    ensures (forall i | 0 <= i < |entries| :: entries[i].command.member != m) ==>
              CreditSum(entries, m) == ExperienceSum(entries, m) == 0
  {
    if entries != [] {
      NothingBookedFor(entries[..|entries| - 1], m);
    }
  }

  lemma AllGroundedStay(w: World, v: World)
    requires forall tid | tid in w.tasks :: Grounded(w, tid)
    requires v.tasks == w.tasks
    requires forall tid | tid in w.tasks :: tid in v.drafts && tid in w.drafts && v.drafts[tid] == w.drafts[tid]
    requires w.book.entries <= v.book.entries && w.book.credit.Keys <= v.book.credit.Keys
    ensures forall tid | tid in v.tasks :: Grounded(v, tid)
  {
    forall tid | tid in v.tasks
      ensures Grounded(v, tid)
    {
      assert Grounded(w, tid);
      GroundedStays(w, v, tid);
    }
  }

  lemma BatchSound(w: World, b: Book, cmds: seq<Command>)
    requires LedgerSound(w) && BookInv(b) && b.entries == w.book.entries && w.book.credit.Keys <= b.credit.Keys
    requires Settle(b, cmds).Success?
    requires forall k | 0 <= k < |cmds| :: TaskOf(cmds[k].key).None?
    ensures LedgerSound(w.(book := Settle(b, cmds).value))
  {
    hide BookInv, Settle, AllNew, AllRecorded, Grew, Owned, Grounded, RightPeople;
    var v := w.(book := Settle(b, cmds).value);
    SettleOutcome(b, cmds);
    OwnedGrows(w.book.entries, v.book.entries, cmds, w.tasks, w.receipts, w.tasks, w.receipts);
    OutsidersGrow(w.book.entries, v.book.entries, cmds, w.tasks);
    forall tid | tid in w.tasks
      ensures tid in w.drafts
    {
      DraftOf(w, tid);
    }
    AllGroundedStay(w, v);
  }

  /** Every transaction, however unwise, keeps the books: unique keys, caches equal to the sums of
      the entries, exact reversals, and entries only about tasks that exist. */
  lemma StepSound(w: World, op: Op)
    requires LedgerSound(w)
    ensures LedgerSound(After(w, op))
  {
    if Step(w, op).Success? {
      match op
      case Tick(_) =>
        AllGroundedStay(w, After(w, op));
      case Register(m) =>
        if m !in w.book.credit {
          GrantSettles(w.book, m);
          BatchSound(w, w.book.(credit := w.book.credit[m := 0], experience := w.book.experience[m := 0]), [GrantOf(m)]);
        }
      case SaveDraft(tid, d) =>
        AllGroundedStay(w, After(w, op));
      case Economy(cmds) =>
        BatchSound(w, w.book, cmds);
      case Deliver(update, r) =>
        hide LedgerSound, RequestEffect, Publish;
        if update !in w.receipts {
          if r.PublishDraft? {
            PublishSound(w, r.task, w.receipts + {update});
          } else {
            RequestTouches(w, update, r);
            CommitSound(w, r.task, RequestEffect(w, update, r).value, Some(update), w.receipts + {update});
          }
        }
      case Perform(j) =>
        hide LedgerSound, JobEffect;
        JobTouches(w, j);
        SamePeopleJoined(w.tasks[j.task], JobEffect(w, j).value.task, w.book.credit.Keys);
        CommitSound(w, j.task, JobEffect(w, j).value, None, w.receipts);
    }
  }

  // ---------- every task stays sound, and its escrow even ----------

  /** The two transactions that give back the reserve of a slot of this task although that slot can be
      taken, or returned, again. Both conditions can be read off the state before the transaction. */
  predicate Overdraws(w: World, op: Op, tid: TaskId) {
    match op
    case Deliver(update, CloseIntake(task)) =>
      && task == tid && update !in w.receipts && tid in w.tasks
      && w.tasks[tid].origin == Member && w.now < w.tasks[tid].deadline
      && ClosesTwice(w.book.entries, tid, w.tasks[tid])
    case Perform(ResolveCase(task, i, code, _)) =>
      task == tid && tid in w.tasks && LeavesSlotOpen(w.tasks[tid], w.now, i, code)
    case _ => false
  }

  lemma UndeliveredEditIsNew(w: World, update: UpdateId, tid: TaskId)
    requires LedgerSound(w) && update !in w.receipts
    ensures !HasKey(w.book.entries, EditReserve(tid, update)) && !HasKey(w.book.entries, EditRefund(tid, update))
  {
    forall n | 0 <= n < |w.book.entries|
      ensures w.book.entries[n].command.key != EditReserve(tid, update)
      ensures w.book.entries[n].command.key != EditRefund(tid, update)
    {
      assert OwnedKey(w.book.entries[n].command.key, w.tasks, w.receipts);
    }
  }

  predicate ByPerformer(r: Request) {
    r.SubmitResult? || r.LeaveSlot? || r.Review? || r.OpenDispute? || r.Respond?
  }

  lemma AssignmentRequestKeeps(w: World, update: UpdateId, r: Request, after: seq<Entry>)
    requires LedgerSound(w) && r.task in w.tasks && !r.PublishDraft? && update !in w.receipts
    requires TaskInv(w.book.entries, r.task, w.tasks[r.task], w.now)
    requires RequestEffect(w, update, r).Success? && ByPerformer(r)
    requires Posted(w.book.entries, after, RequestEffect(w, update, r).value.commands)
    requires !AllNew(w.book.entries, RequestEffect(w, update, r).value.commands) ==> after == w.book.entries
    ensures var eff := RequestEffect(w, update, r).value;
            Carried(w.book.entries, if eff.commands == [] then w.book.entries else after, r.task, w.tasks[r.task], eff.task, w.now, true)
  {
    hide TaskInv, Funded, LedgerSound, Posted, AllNew, HasKey, Submit, CancelAssignment, Decide, Dispute, RespondCancellation;
    var before, t, now := w.book.entries, w.tasks[r.task], w.now;
    match r
    case SubmitResult(tid, i) => SubmitKeeps(before, after, tid, t, now, i);
    case LeaveSlot(tid, i) => CancelAssignmentKeeps(before, after, tid, t, now, i);
    case Review(tid, i, d, cid) => DecideKeeps(before, after, tid, t, now, i, d, cid);
    case OpenDispute(tid, i) => DisputeKeeps(before, after, tid, t, now, i);
    case Respond(tid, q, k, consent) => RespondKeeps(before, after, tid, t, now, q, k, consent);
  }

  lemma TaskRequestKeeps(w: World, update: UpdateId, r: Request, after: seq<Entry>)
    requires LedgerSound(w) && r.task in w.tasks && !r.PublishDraft? && update !in w.receipts
    requires TaskInv(w.book.entries, r.task, w.tasks[r.task], w.now)
    requires RequestEffect(w, update, r).Success? && !ByPerformer(r)
    requires Posted(w.book.entries, after, RequestEffect(w, update, r).value.commands)
    requires !AllNew(w.book.entries, RequestEffect(w, update, r).value.commands) ==> after == w.book.entries
    ensures var eff := RequestEffect(w, update, r).value;
            Carried(w.book.entries, if eff.commands == [] then w.book.entries else after, r.task, w.tasks[r.task], eff.task, w.now,
                    !Overdraws(w, Deliver(update, r), r.task))
  {
    hide TaskInv, Funded, LedgerSound, Posted, AllNew, HasKey, ClosesTwice, ActiveTasks, Edit, Accept, CancelTask;
    var before, t, now := w.book.entries, w.tasks[r.task], w.now;
    match r
    case EditTerms(tid, reward, slots, deadline) =>
      UndeliveredEditIsNew(w, update, r.task);
      EditKeeps(before, after, tid, t, now, update, reward, slots, deadline);
    case AcceptSlot(tid, m) => AcceptKeeps(before, after, tid, t, now, m, |ActiveTasks(w.tasks, m)|, w.limit);
    case WithdrawTask(tid) => CancelTaskKeeps(before, after, tid, t, now);
    case CloseIntake(tid) => CloseKeeps(before, after, tid, t, now);
  }

  lemma RequestKeepsTask(w: World, update: UpdateId, r: Request, after: seq<Entry>)
    requires LedgerSound(w) && r.task in w.tasks && !r.PublishDraft? && update !in w.receipts
    requires TaskInv(w.book.entries, r.task, w.tasks[r.task], w.now)
    requires RequestEffect(w, update, r).Success?
    requires Posted(w.book.entries, after, RequestEffect(w, update, r).value.commands)
    requires !AllNew(w.book.entries, RequestEffect(w, update, r).value.commands) ==> after == w.book.entries
    ensures var eff := RequestEffect(w, update, r).value;
            Carried(w.book.entries, if eff.commands == [] then w.book.entries else after, r.task, w.tasks[r.task], eff.task, w.now,
                    !Overdraws(w, Deliver(update, r), r.task))
  {
    hide TaskInv, Funded, LedgerSound, Posted, AllNew, RequestEffect, Overdraws;
    if ByPerformer(r) {
      AssignmentRequestKeeps(w, update, r, after);
    } else {
      TaskRequestKeeps(w, update, r, after);
    }
  }

  /** The request to close carries the task's account over, unless it closes twice before the deadline. */
  lemma CloseKeeps(before: seq<Entry>, after: seq<Entry>, tid: TaskId, t: Task, now: int)
    requires TaskInv(before, tid, t, now) && RequestCancellation(tid, t, now).Success?
    requires Posted(before, after, RequestCancellation(tid, t, now).value.commands)
    requires !AllNew(before, RequestCancellation(tid, t, now).value.commands) ==> after == before
    ensures Carried(before, if RequestCancellation(tid, t, now).value.commands == [] then before else after,
                    tid, t, RequestCancellation(tid, t, now).value.task, now,
                    !(t.origin == Member && now < t.deadline && ClosesTwice(before, tid, t)))
  {
    hide TaskInv, Funded;
    RequestKeeps(before, after, tid, t, now);
  }

  lemma JobKeepsTask(w: World, j: Job, after: seq<Entry>)
    requires j.task in w.tasks && TaskInv(w.book.entries, j.task, w.tasks[j.task], w.now)
    requires JobEffect(w, j).Success?
    requires Posted(w.book.entries, after, JobEffect(w, j).value.commands)
    ensures var eff := JobEffect(w, j).value;
            Carried(w.book.entries, if eff.commands == [] then w.book.entries else after, j.task, w.tasks[j.task], eff.task, w.now,
                    !Overdraws(w, Perform(j), j.task))
  {
    var before, t, now := w.book.entries, w.tasks[j.task], w.now;
    hide TaskInv, Funded, Posted, AllNew, FinalizeReview, FinalizeRejection, FinalizeDeadline, Resolve;
    match j
    case ReviewDue(tid, i, cid, fit) => FinalizeReviewKeeps(before, after, tid, t, now, i, cid, fit);
    case RejectionDue(tid, i, cid) => FinalizeRejectionKeeps(before, after, tid, t, now, i, cid);
    case DeadlineDue(tid, cid) => FinalizeDeadlineKeeps(before, after, tid, t, now, cid);
    case ResolveCase(tid, i, code, cid) => ResolveKeeps(before, after, tid, t, now, i, code, cid);
  }

  lemma OtherKeeps(w: World, other: TaskId, after: seq<Entry>, cmds: seq<Command>)
    requires other in w.tasks && TaskInv(w.book.entries, other, w.tasks[other], w.now)
    requires Grew(w.book.entries, after, cmds) || after == w.book.entries
    requires forall k | 0 <= k < |cmds| :: TaskOf(cmds[k].key) != Some(other)
    ensures Carried(w.book.entries, after, other, w.tasks[other], w.tasks[other], w.now, true)
  {
    hide TaskInv, Funded, Grew;
    if after != w.book.entries {
      OthersKeep(w.book.entries, after, other, w.tasks[other], w.now, cmds);
    }
  }

  lemma OthersKeepAll(w: World, except: Option<TaskId>, after: seq<Entry>, cmds: seq<Command>)
    requires TasksSound(w)
    requires Grew(w.book.entries, after, cmds) || after == w.book.entries
    requires forall k | 0 <= k < |cmds| :: TaskOf(cmds[k].key) == except
    ensures forall other | other in w.tasks && Some(other) != except ::
              Carried(w.book.entries, after, other, w.tasks[other], w.tasks[other], w.now, true)
  {
    forall other | other in w.tasks && Some(other) != except
      ensures Carried(w.book.entries, after, other, w.tasks[other], w.tasks[other], w.now, true)
    {
      assert TaskInv(w.book.entries, other, w.tasks[other], w.now);
      hide TaskInv, Funded, Grew;
      OtherKeeps(w, other, after, cmds);
    }
  }

  ghost predicate StaysBacked(w: World, v: World, tid: TaskId) {
    Backed(w, tid) ==> Backed(v, tid)
  }

  lemma CommitEscrow(w: World, tid: TaskId, eff: Effect, update: Option<UpdateId>, safe: bool)
    requires LedgerSound(w) && TasksSound(w) && tid in w.tasks && Commit(w, tid, Success(eff)).Success?
    requires AboutTask(eff.commands, tid, update)
    requires Carried(w.book.entries, Settle(w.book, eff.commands).value.entries, tid, w.tasks[tid], eff.task, w.now, safe)
    ensures TasksSound(Commit(w, tid, Success(eff)).value)
    ensures forall other | other != tid || safe :: StaysBacked(w, Commit(w, tid, Success(eff)).value, other)
  {
    hide TaskInv, Funded, LedgerSound, BookInv, Settle, AllNew, AllRecorded, Grew, Commit, StaysBacked, TasksSound;
    var v := Commit(w, tid, Success(eff)).value;
    forall other | other in v.tasks
      ensures TaskInv(v.book.entries, other, v.tasks[other], v.now)
    {
      CommitCarries(w, tid, eff, update, safe, other);
    }
    SoundTaskByTask(v);
    forall other | other != tid || safe
      ensures StaysBacked(w, v, other)
    {
      CommitCarries(w, tid, eff, update, safe, other);
    }
  }

  lemma SoundTaskByTask(w: World)
    requires forall tid | tid in w.tasks :: TaskInv(w.book.entries, tid, w.tasks[tid], w.now)
    ensures TasksSound(w)
  {
  }

  lemma CommitCarries(w: World, tid: TaskId, eff: Effect, update: Option<UpdateId>, safe: bool, other: TaskId)
    requires LedgerSound(w) && TasksSound(w) && tid in w.tasks && Commit(w, tid, Success(eff)).Success?
    requires AboutTask(eff.commands, tid, update)
    requires Carried(w.book.entries, Settle(w.book, eff.commands).value.entries, tid, w.tasks[tid], eff.task, w.now, safe)
    ensures var v := Commit(w, tid, Success(eff)).value;
            && (other in v.tasks ==> TaskInv(v.book.entries, other, v.tasks[other], v.now))
            && (other != tid || safe ==> StaysBacked(w, v, other))
  {
    assert BookInv(w.book);
    hide TaskInv, Funded, LedgerSound, BookInv, Settle, AllNew, AllRecorded, Grew, TasksSound;
    if other in w.tasks && other != tid {
      SettleOutcome(w.book, eff.commands);
      EscrowAt(w, other);
      OtherKeeps(w, other, Settle(w.book, eff.commands).value.entries, eff.commands);
    }
  }

  lemma BatchEscrow(w: World, b: Book, cmds: seq<Command>)
    requires LedgerSound(w) && TasksSound(w) && BookInv(b) && b.entries == w.book.entries
    requires Settle(b, cmds).Success?
    requires forall k | 0 <= k < |cmds| :: TaskOf(cmds[k].key).None?
    ensures TasksSound(w.(book := Settle(b, cmds).value))
    ensures forall other :: StaysBacked(w, w.(book := Settle(b, cmds).value), other)
  {
    hide TaskInv, Funded, LedgerSound, BookInv, Settle, AllNew, AllRecorded, Grew;
    SettleOutcome(b, cmds);
    OthersKeepAll(w, None, Settle(b, cmds).value.entries, cmds);
  }

  lemma PublishAbout(tid: TaskId, d: Draft)
    ensures forall k | 0 <= k < |PublishCommands(tid, d)| :: TaskOf(PublishCommands(tid, d)[k].key) == Some(tid)
  {
  }

  lemma PublishEscrow(w: World, tid: TaskId)
    requires LedgerSound(w) && TasksSound(w) && Publish(w, tid).Success?
    ensures TasksSound(Publish(w, tid).value)
    ensures forall other :: StaysBacked(w, Publish(w, tid).value, other)
  {
    assert BookInv(w.book);
    hide TaskInv, Funded, LedgerSound, BookInv, Settle, AllNew, AllRecorded, Grew, Publish, PublishCommands, Opened;
    PublishEffect(w, tid);
    PublishAbout(tid, w.drafts[tid]);
    var d := w.drafts[tid];
    var cmds := PublishCommands(tid, d);
    SettleOutcome(w.book, cmds);
    var after := Publish(w, tid).value.book.entries;
    if tid in w.tasks {
      PublishedAlready(w, tid);
    } else {
      OpenedKeeps(w, tid, after);
      OthersKeepAll(w, Some(tid), after, cmds);
    }
  }

  /** Publishing a draft that is already a task finds its reserve on the ledger. */
  lemma PublishedAlready(w: World, tid: TaskId)
    requires LedgerSound(w) && tid in w.tasks && Publish(w, tid).Success?
    ensures Publish(w, tid).value == w
  {
    var cmds := PublishCommands(tid, w.drafts[tid]);
    assert Grounded(w, tid);
    if cmds != [] {
      assert w.drafts[tid].reward * w.drafts[tid].slots > 0;
      StoredBatchReplays(w.book, cmds);
    }
  }

  lemma NothingAboutNewTask(w: World, tid: TaskId)
    requires LedgerSound(w) && tid !in w.tasks
    ensures forall n | 0 <= n < |w.book.entries| :: TaskOf(w.book.entries[n].command.key) != Some(tid)
  {
    forall n | 0 <= n < |w.book.entries|
      ensures TaskOf(w.book.entries[n].command.key) != Some(tid)
    {
      assert OwnedKey(w.book.entries[n].command.key, w.tasks, w.receipts);
    }
  }

  /** After publishing, the ledger knows of the task only its reserve. */
  lemma OnlyTheReserve(before: seq<Entry>, after: seq<Entry>, tid: TaskId, d: Draft)
    requires forall n | 0 <= n < |before| :: TaskOf(before[n].command.key) != Some(tid)
    requires Grew(before, after, PublishCommands(tid, d))
    ensures forall n | 0 <= n < |after| && TaskOf(after[n].command.key) == Some(tid) :: after[n].command.key == PublishReserve(tid)
    ensures d.origin == Member ==> Held(after, tid) == d.reward * d.slots
  {
    var cmds := PublishCommands(tid, d);
    forall n | 0 <= n < |after|
      ensures TaskOf(after[n].command.key) == Some(tid) ==> after[n].command.key == PublishReserve(tid)
    {
      if n < |before| {
        assert after[..|before|][n] == after[n];
      } else {
        var k := n - |before|;
        assert after[|before| + k].command == cmds[k];
      }
    }
    hide Booked, Asked;
    NoKeyNothingBooked(before, Escrowed(tid));
    GrewBooks(before, after, cmds, Escrowed(tid));
    if d.origin == Member {
      assert cmds == [cmds[0]];
      AskedOne(cmds[0], Escrowed(tid));
    }
  }

  lemma OpenedKeeps(w: World, tid: TaskId, after: seq<Entry>)
    requires LedgerSound(w) && tid !in w.tasks && tid in w.drafts
    requires w.drafts[tid].reward > 0 && w.drafts[tid].slots > 0
    requires Posted(w.book.entries, after, PublishCommands(tid, w.drafts[tid]))
    ensures TaskInv(after, tid, Opened(w.drafts[tid]), w.now) && Funded(after, tid, Opened(w.drafts[tid]))
  {
    hide LedgerSound, TaskInv, Funded, Grew, Held;
    var d := w.drafts[tid];
    NothingAboutNewTask(w, tid);
    assert AllNew(w.book.entries, PublishCommands(tid, d));
    OnlyTheReserve(w.book.entries, after, tid, d);
    PublishedKeeps(after, tid, Opened(d), w.now);
  }

  lemma EscrowIgnoresReceipts(w: World, receipts: set<UpdateId>)
    requires TasksSound(w)
    ensures TasksSound(w.(receipts := receipts))
    ensures forall tid :: StaysBacked(w, w.(receipts := receipts), tid)
  {
    hide TaskInv, Funded;
  }

  /** Every transaction keeps what must hold of every task, and every backed task that it does not
      itself overdraw stays backed. */
  lemma StepEscrow(w: World, op: Op)
    requires LedgerSound(w) && TasksSound(w)
    ensures TasksSound(After(w, op))
    ensures forall tid | !Overdraws(w, op, tid) :: StaysBacked(w, After(w, op), tid)
  {
    if Step(w, op).Success? {
      match op
      case Tick(to) =>
        forall tid | tid in w.tasks
          ensures TaskInv(w.book.entries, tid, w.tasks[tid], to)
        {
          LaterKeeps(w.book.entries, tid, w.tasks[tid], w.now, to);
        }
      case Register(m) =>
        if m !in w.book.credit {
          GrantSettles(w.book, m);
          BatchEscrow(w, w.book.(credit := w.book.credit[m := 0], experience := w.book.experience[m := 0]), [GrantOf(m)]);
        }
      case SaveDraft(tid, d) =>
      case Economy(cmds) =>
        BatchEscrow(w, w.book, cmds);
      case Deliver(update, r) =>
        hide TasksSound;
        DeliverEscrow(w, update, r);
      case Perform(j) =>
        hide TasksSound;
        PerformEscrow(w, j);
    }
  }

  lemma EscrowAt(w: World, tid: TaskId)
    requires TasksSound(w) && tid in w.tasks
    ensures TaskInv(w.book.entries, tid, w.tasks[tid], w.now)
  {
  }

  lemma PerformEscrow(w: World, j: Job)
    requires LedgerSound(w) && TasksSound(w) && Step(w, Perform(j)).Success?
    ensures TasksSound(After(w, Perform(j)))
    ensures forall tid | !Overdraws(w, Perform(j), tid) :: StaysBacked(w, After(w, Perform(j)), tid)
  {
    hide TaskInv, Funded, JobEffect, TasksSound, Settle, BookInv, Grounded, Owned, RightPeople, LeavesSlotOpen;
    var eff := JobEffect(w, j).value;
    EscrowAt(w, j.task);
    SettleOutcome(w.book, eff.commands);
    JobTouches(w, j);
    hide AllNew, Grew, AllRecorded;
    JobKeepsTask(w, j, Settle(w.book, eff.commands).value.entries);
    SettleNothing(w.book);
    hide AboutTask;
    CommitEscrow(w, j.task, eff, None, !Overdraws(w, Perform(j), j.task));
  }

  lemma SettleNothing(b: Book)
    ensures Settle(b, []) == Success(b)
  {
  }

  lemma DeliverEscrow(w: World, update: UpdateId, r: Request)
    requires LedgerSound(w) && TasksSound(w) && Step(w, Deliver(update, r)).Success?
    ensures TasksSound(After(w, Deliver(update, r)))
    ensures forall tid | !Overdraws(w, Deliver(update, r), tid) :: StaysBacked(w, After(w, Deliver(update, r)), tid)
  {
    hide TaskInv, Funded, RequestEffect, TasksSound, Settle, BookInv, Grounded, Owned, RightPeople, Publish, ClosesTwice;
    if update !in w.receipts {
      if r.PublishDraft? {
        PublishEscrow(w, r.task);
      } else {
        var eff := RequestEffect(w, update, r).value;
        EscrowAt(w, r.task);
        SettleOutcome(w.book, eff.commands);
        RequestTouches(w, update, r);
        hide AllNew, Grew, AllRecorded;
        RequestKeepsTask(w, update, r, Settle(w.book, eff.commands).value.entries);
        SettleNothing(w.book);
        hide AboutTask;
        CommitEscrow(w, r.task, eff, Some(update), !Overdraws(w, Deliver(update, r), r.task));
      }
      var v := Handle(w, update, r).value;
      EscrowIgnoresReceipts(v, w.receipts + {update});
      forall tid | !Overdraws(w, Deliver(update, r), tid)
        ensures StaysBacked(w, After(w, Deliver(update, r)), tid)
      {
        assert StaysBacked(w, v, tid) && StaysBacked(v, v.(receipts := w.receipts + {update}), tid);
      }
    }
  }

  // ---------- nobody holds too many assignments ----------

  /** A step that reactivates no assignment; settled and cancelled ones stay as they are. */
  ghost predicate NothingReopened(t: Task, u: Task) {
    && |u.history| == |t.history|
    && (forall i | 0 <= i < |t.history| :: u.history[i].performer == t.history[i].performer)
    && (forall i | 0 <= i < |t.history| && !Is(Active, t.history[i].status) :: u.history[i] == t.history[i])
  }

  lemma RequestReopensNothing(w: World, update: UpdateId, r: Request)
    requires r.task in w.tasks && !r.PublishDraft? && !r.AcceptSlot? && RequestEffect(w, update, r).Success?
    ensures NothingReopened(w.tasks[r.task], RequestEffect(w, update, r).value.task)
  {
    hide SlotsOf, LatestBySlot, Derive, ConsentRequests, WithdrawPending, HasPending, AllAnswered;
  }

  lemma JobReopensNothing(w: World, j: Job)
    requires j.task in w.tasks && JobEffect(w, j).Success?
    ensures NothingReopened(w.tasks[j.task], JobEffect(w, j).value.task)
  {
    hide DeadlineCommands, Derive, WithdrawPending;
  }

  lemma LimitStays(tasks: map<TaskId, Task>, tid: TaskId, u: Task, limit: nat)
    requires WithinLimit(tasks, limit) && tid in tasks && NothingReopened(tasks[tid], u)
    ensures WithinLimit(tasks[tid := u], limit)
  {
    var after := tasks[tid := u];
    forall m: MemberId
      ensures |ActiveTasks(after, m)| <= limit
    {
      assert ActiveTasks(after, m) <= ActiveTasks(tasks, m);
      SubsetSize(ActiveTasks(after, m), ActiveTasks(tasks, m));
    }
  }

  lemma {:induction false} SubsetSize<T>(a: set<T>, b: set<T>)
    requires a <= b
    ensures |a| <= |b|
  {
    if a != {} {
      var x :| x in a;
      SubsetSize(a - {x}, b - {x});
    }
  }

  lemma AcceptWithinLimit(w: World, tid: TaskId, m: MemberId)
    requires WithinLimit(w.tasks, w.limit) && tid in w.tasks
    requires Accept(w.tasks[tid], w.now, m, |ActiveTasks(w.tasks, m)|, w.limit).Success?
    ensures WithinLimit(w.tasks[tid := Accept(w.tasks[tid], w.now, m, |ActiveTasks(w.tasks, m)|, w.limit).value.task], w.limit)
  {
    var t := w.tasks[tid];
    var u := Accept(t, w.now, m, |ActiveTasks(w.tasks, m)|, w.limit).value.task;
    var after := w.tasks[tid := u];
    forall x: MemberId
      ensures |ActiveTasks(after, x)| <= w.limit
    {
      var was, now' := ActiveTasks(w.tasks, x), ActiveTasks(after, x);
      assert x != m && ActiveIn(u, x) ==> ActiveIn(t, x);
      if x == m {
        assert now' <= was + {tid};
        SubsetSize(now', was + {tid});
      } else {
        assert now' <= was;
        SubsetSize(now', was);
      }
    }
  }

  lemma StepLimit(w: World, op: Op)
    requires WithinLimit(w.tasks, w.limit)
    ensures WithinLimit(After(w, op).tasks, w.limit) && After(w, op).limit == w.limit
  {
    if Step(w, op).Success? {
      match op
      case Deliver(update, r) =>
        if update !in w.receipts {
          if r.PublishDraft? {
            OpenedWithinLimit(w, r.task);
          } else if r.AcceptSlot? {
            AcceptWithinLimit(w, r.task, r.performer);
          } else {
            RequestReopensNothing(w, update, r);
            hide WithinLimit, NothingReopened, RequestEffect;
            LimitStays(w.tasks, r.task, RequestEffect(w, update, r).value.task, w.limit);
          }
        }
      case Perform(j) =>
        JobReopensNothing(w, j);
        hide WithinLimit, NothingReopened, JobEffect;
        LimitStays(w.tasks, j.task, JobEffect(w, j).value.task, w.limit);
      case _ =>
    }
  }

  lemma OpenedWithinLimit(w: World, tid: TaskId)
    requires WithinLimit(w.tasks, w.limit) && Publish(w, tid).Success?
    ensures WithinLimit(Publish(w, tid).value.tasks, w.limit)
  {
    var after := Publish(w, tid).value.tasks;
    forall m: MemberId
      ensures |ActiveTasks(after, m)| <= w.limit
    {
      assert ActiveTasks(after, m) == ActiveTasks(w.tasks, m);
    }
  }

  // ---------- the invariant ----------

  lemma StartHolds(now: int, limit: nat)
    ensures WorldInv(Start(now, limit)) && forall tid :: Backed(Start(now, limit), tid)
  {
    var w := Start(now, limit);
    forall m: MemberId
      ensures |ActiveTasks(w.tasks, m)| <= limit
    {
      assert ActiveTasks(w.tasks, m) == {};
    }
  }

  /** Every transaction keeps the invariant, and the escrow of every task that it does not overdraw. */
  lemma StepKeeps(w: World, op: Op)
    requires WorldInv(w)
    ensures WorldInv(After(w, op))
    ensures forall tid | !Overdraws(w, op, tid) :: StaysBacked(w, After(w, op), tid)
  {
    StepSound(w, op);
    StepEscrow(w, op);
    StepLimit(w, op);
  }
}
