/**
 Reserve that can never come back: exactly which transactions strand it, and that it stays.
 */
module ExchangeStranded {
  import opened Wrappers
  import opened Ledger
  import opened Tasks
  import opened Escrow
  import opened EscrowInvariants
  import opened EscrowSteps
  import opened EscrowPerformer
  import opened EscrowCreator
  import opened EscrowDeadline
  import opened Exchange
  import opened ExchangeInvariants
  import opened ExchangeRuns
  import opened ExchangeLife
  import opened Transitions
  import opened ExchangeIdle

  /** An ending strands the idle reserve of an open task when it comes at or after the deadline,
      ahead of the deadline pass; or when, before it, nobody else is active, every slot has been
      taken at some time, and either nobody has been paid or the slot was cancelled without fault. */
  predicate StrandsOpen(t: Task, now: int, op: Op, e: Ending) {
    && !Leaving(op) && Count(t.history, Live) < t.slots
    && (now >= t.deadline
        || (Count(t.history, Class.Active) == 1 && |LatestBySlot(t.history)| >= t.slots
            && (e.status == Cancelled || (Count(t.history, Paid) == 0 && !Is(Paid, e.status)))))
  }

  /** In a closed task that could still be closed again it does when it gives a reserve back, after
      which a further close would overdraw; or when it takes the last hope of a payment away. A slot
      left while somebody else is active becomes idle by that. */
  predicate StrandsClosed(t: Task, now: int, op: Op, e: Ending) {
    if e.status == Cancelled && (!Leaving(op) || Count(t.history, Class.Active) == 1) then Count(t.history, Live) < t.slots
    else
      && !Is(Paid, e.status) && !Hopeful(t.history, now, e.index)
      && (Leaving(op) || Count(t.history, Live) < t.slots)
  }

  /** The clock strands what is idle by passing the deadline, or the last dispute window, of a task
      that could still be closed. */
  predicate StrandsByTime(t: Task, now: int, to: int) {
    && now <= to && t.status != Published && Count(t.history, Live) < t.slots
    && (to >= t.deadline || (t.status == ClosedForNewPerformers && !Hopeful(t.history, to, NOBODY)))
  }

  /** The transactions that strand reserve, by the state before them. */
  predicate Strands(w: World, op: Op, tid: TaskId)
    requires tid in w.tasks
  {
    var t := w.tasks[tid];
    if !InReach(w, tid) then Abandons(w, op, tid)
    else if op.Tick? then StrandsByTime(t, w.now, op.to)
    else
      match EndedBy(w, op, tid)
      case None => false
      case Some(e) => if t.status == Published then StrandsOpen(t, w.now, op, e) else StrandsClosed(t, w.now, op, e)
  }

  // ---------- nothing ends ----------

  lemma AlikeReach(w: World, v: World, tid: TaskId)
    requires tid in w.tasks && tid in v.tasks && w.now <= v.now
    requires Alike(w.tasks[tid], v.tasks[tid], w.now) && SameAccount(w.book.entries, v.book.entries, tid)
    ensures Idle(v.book.entries, tid, v.tasks[tid]) == Idle(w.book.entries, tid, w.tasks[tid])
    ensures InReach(v, tid) ==> InReach(w, tid)
    ensures InReach(w, tid) && v.now == w.now ==> InReach(v, tid)
  {
    hide Held, HasKey, Count;
    var t, u := w.tasks[tid], v.tasks[tid];
    AlikeCounts(t.history, u.history, w.now, Class.Active);
    AlikeCounts(t.history, u.history, w.now, Settled);
    if Hopeful(u.history, v.now, NOBODY) {
      var i :| 0 <= i < |u.history| && i != NOBODY && Promising(u.history[i], v.now);
      assert Promising(t.history[i], w.now);
    }
    if Hopeful(t.history, w.now, NOBODY) && v.now == w.now {
      var i :| 0 <= i < |t.history| && i != NOBODY && Promising(t.history[i], w.now);
      assert Promising(u.history[i], v.now);
    }
  }

  // ---------- an assignment ends ----------

  lemma HopeAfterEnding(t: Task, u: Task, e: Ending, now: int)
    requires Moved(t, u, e.index) && u.history[e.index].status == e.status && !Is(Class.Active, e.status)
    ensures Hopeful(u.history, now, NOBODY) <==> Is(Paid, e.status) || Hopeful(t.history, now, e.index)
    ensures Hopeful(t.history, now, NOBODY) <==> Promising(t.history[e.index], now) || Hopeful(t.history, now, e.index)
  {
    if Hopeful(u.history, now, NOBODY) {
      var i :| 0 <= i < |u.history| && i != NOBODY && Promising(u.history[i], now);
      assert i != e.index ==> Promising(t.history[i], now);
    }
    if Is(Paid, e.status) {
      assert Promising(u.history[e.index], now);
    }
    if Hopeful(t.history, now, e.index) {
      var i :| 0 <= i < |t.history| && i != e.index && Promising(t.history[i], now);
      assert Promising(u.history[i], now);
    }
    if Hopeful(t.history, now, NOBODY) {
      var i :| 0 <= i < |t.history| && i != NOBODY && Promising(t.history[i], now);
      assert i == e.index || Hopeful(t.history, now, e.index);
    }
  }

  lemma CountsAfterEnding(t: Task, u: Task, e: Ending)
    requires Moved(t, u, e.index) && u.history[e.index].status == e.status && !Is(Class.Active, e.status)
    ensures Count(u.history, Class.Active) == Count(t.history, Class.Active) - 1
    ensures Count(u.history, Live) == Count(t.history, Live) - if e.status == Cancelled then 1 else 0
    ensures Count(u.history, Settled) == Count(t.history, Settled) + if e.status == Cancelled then 0 else 1
    ensures Count(u.history, Paid) == Count(t.history, Paid) + if Is(Paid, e.status) then 1 else 0
  {
    CountUpdate(t.history, e.index, u.history[e.index], Class.Active);
    CountUpdate(t.history, e.index, u.history[e.index], Live);
    CountUpdate(t.history, e.index, u.history[e.index], Settled);
    CountUpdate(t.history, e.index, u.history[e.index], Paid);
  }

  lemma RewardsApart(r: nat, held: int, held': int, slots: int, settled: nat, settled': nat, active: nat, active': nat, kept: bool, cancelled: bool)
    requires r > 0 && held <= r * (slots - settled) && (kept ==> cancelled)
    requires held' == held - (if kept then 0 else r)
    requires settled' == settled + (if cancelled then 0 else 1) && active' == active - 1
    ensures held' - r * active' == held - r * active + (if kept then r else 0)
    ensures held' == r * (slots - settled') <==> held == r * (slots - settled) && (kept || !cancelled)
  {
    Distributes(r, active, 1);
    Distributes(r, slots - settled, 1);
    assert slots - settled - 1 == slots - (settled + 1);
  }

  lemma AccountMoves(before: seq<Entry>, after: seq<Entry>, tid: TaskId, t: Task, u: Task, e: Ending, kept: bool)
    requires Moved(t, u, e.index) && u.history[e.index].status == e.status && !Is(Class.Active, e.status)
    requires t.reward > 0 && Held(before, tid) <= t.reward * (t.slots - Count(t.history, Settled))
    requires Held(after, tid) == Held(before, tid) - (if kept then 0 else t.reward) && (kept ==> e.status == Cancelled)
    requires HasKey(after, CloseRefund(tid)) <==> HasKey(before, CloseRefund(tid))
    ensures Idle(after, tid, u) == Idle(before, tid, t) + (if kept then t.reward else 0)
    ensures Untapped(after, tid, u) <==> Untapped(before, tid, t) && (kept || e.status != Cancelled)
  {
    hide Held, HasKey, Count;
    CountsAfterEnding(t, u, e);
    assert SameTerms(t, u);
    hide Moved;
    RewardsApart(t.reward, Held(before, tid), Held(after, tid), t.slots, Count(t.history, Settled), Count(u.history, Settled),
                 Count(t.history, Class.Active), Count(u.history, Class.Active), kept, e.status == Cancelled);
  }

  lemma AccountAfterEnding(w: World, v: World, op: Op, tid: TaskId, e: Ending)
    requires WorldInv(w) && Backed(w, tid) && tid in w.tasks && w.tasks[tid].origin == Member
    requires EndedIn(w, v, op, tid, e) && (Abandons(w, op, tid) ==> e.status == Cancelled)
    ensures var t := w.tasks[tid];
            && Idle(v.book.entries, tid, v.tasks[tid])
               == Idle(w.book.entries, tid, t) + (if Abandons(w, op, tid) then t.reward else 0)
            && (Untapped(v.book.entries, tid, v.tasks[tid]) <==>
                  Untapped(w.book.entries, tid, t) && (Abandons(w, op, tid) || e.status != Cancelled))
  {
    hide WorldInv, Backed, Funded, Grounded, BookInv, TaskInv, Held, HasKey, Count, Abandons, StatusAfter, Idle, Untapped, Moved;
    FundsOf(w, tid);
    Facts(w, tid);
    PositiveTerms(w.book.entries, tid, w.tasks[tid], w.now);
    AtMostFull(w.book.entries, tid, w.tasks[tid], w.now);
    AccountMoves(w.book.entries, v.book.entries, tid, w.tasks[tid], v.tasks[tid], e, Abandons(w, op, tid));
  }

  lemma AtMostFull(entries: seq<Entry>, tid: TaskId, t: Task, now: int)
    requires TaskInv(entries, tid, t, now) && Funded(entries, tid, t) && t.origin == Member
    ensures Held(entries, tid) <= t.reward * (t.slots - Count(t.history, Settled))
  {
    hide Shape, Lifecycle, Consent, KeysExplained, Settlement, SlotReturned, TaskLevelRefunded, Held, Count;
    var released: nat :| EscrowBalanced(entries, tid, t, released);
    Distributes(t.reward, t.slots - Count(t.history, Settled), released);
    Times(t.reward, 0, released);
  }

  lemma AbandonedIsCancelled(w: World, op: Op, tid: TaskId, e: Ending)
    requires tid in w.tasks && EndedBy(w, op, tid) == Some(e)
    ensures Abandons(w, op, tid) ==> e.status == Cancelled
    ensures !op.Tick? && (Leaving(op) || Consenting(op) ==> e.status == Cancelled)
    ensures Abandons(w, op, tid) <==>
              Leaving(op) && !(w.tasks[tid].status == ClosedForNewPerformers && Count(w.tasks[tid].history, Class.Active) == 1)
  {
  }

  lemma ConsentedWasAccepted(t: Task, now: int, r: Request, e: Ending)
    requires Consent(t) && r.Respond? && EndedByRequest(t, now, r) == Some(e)
    ensures e.index < |t.history| && t.history[e.index].status == Accepted && t.status == ClosedForNewPerformers
  {
    assert ResponseSound(t, r.request, r.response);
  }

  /** Only a rejection can end an assignment that can no longer be paid. */
  lemma HopelessEnding(w: World, op: Op, tid: TaskId, e: Ending)
    requires tid in w.tasks && EndedBy(w, op, tid) == Some(e) && e.index < |w.tasks[tid].history|
    requires Consent(w.tasks[tid])
    ensures !Payable(w.tasks[tid].history[e.index], w.now) ==> e.status == Rejected && !Leaving(op) && !Consenting(op)
  {
    if Consenting(op) {
      ConsentedWasAccepted(w.tasks[tid], w.now, op.request, e);
    }
  }

  lemma NobodyPaid(t: Task, now: int)
    requires !Hopeful(t.history, now, NOBODY)
    ensures Count(t.history, Paid) == 0
  {
    CountWitness(t.history, Paid);
    if i :| 0 <= i < |t.history| && Is(Paid, t.history[i].status) {
      assert Promising(t.history[i], now);
    }
  }

  lemma EndingStaysOut(w: World, v: World, op: Op, tid: TaskId, e: Ending)
    requires WorldInv(w) && Backed(w, tid) && tid in w.tasks && w.tasks[tid].origin == Member && !InReach(w, tid)
    requires EndedBy(w, op, tid) == Some(e) && EndedIn(w, v, op, tid, e)
    ensures !InReach(v, tid)
    ensures Idle(v.book.entries, tid, v.tasks[tid])
         == Idle(w.book.entries, tid, w.tasks[tid]) + (if Abandons(w, op, tid) then w.tasks[tid].reward else 0)
  {
    hide WorldInv, Backed, Grounded, BookInv, TaskInv, EndedBy, Held, HasKey, Count, Hopeful, Untapped, Abandons, Idle, LatestBySlot, Payable;
    var t, u := w.tasks[tid], v.tasks[tid];
    Facts(w, tid);
    ShapeOf(w.book.entries, tid, t, w.now);
    AbandonedIsCancelled(w, op, tid, e);
    AccountAfterEnding(w, v, op, tid, e);
    HopeAfterEnding(t, u, e, w.now);
    CountsAfterEnding(t, u, e);
    hide Shape;
    if !Hopeful(t.history, w.now, NOBODY) {
      NobodyPaid(t, w.now);
      HopelessEnding(w, op, tid, e);
    }
    hide Consent;
  }

  /** In reach, everything but the settled slots is still in escrow. */
  lemma ReachIsFull(w: World, tid: TaskId)
    requires WorldInv(w) && Backed(w, tid) && tid in w.tasks && w.tasks[tid].origin == Member && InReach(w, tid)
    ensures var t := w.tasks[tid];
            && Untapped(w.book.entries, tid, t) && t.reward > 0
            && Idle(w.book.entries, tid, t) == t.reward * (t.slots - Count(t.history, Live)) >= 0
            && (Idle(w.book.entries, tid, t) > 0 <==> Count(t.history, Live) < t.slots)
            && Count(t.history, Live) <= t.slots && Count(t.history, Paid) <= Count(t.history, Live) - Count(t.history, Class.Active)
  {
    hide WorldInv, Backed, Funded, Grounded, BookInv, TaskInv, Held, HasKey, Count, Hopeful;
    FundsOf(w, tid);
    var t := w.tasks[tid];
    Facts(w, tid);
    PositiveTerms(w.book.entries, tid, t, w.now);
    if t.status == Published {
      OpenHolds(w.book.entries, tid, t, w.now);
      FreshFromPublished(w, tid);
    }
    CountSplits(t.history);
    Distributes(t.reward, t.slots - Count(t.history, Settled), Count(t.history, Class.Active));
    ShapeOf(w.book.entries, tid, t, w.now);
    OccupiedFits(t);
    var left := t.slots - Count(t.history, Live);
    Times(t.reward, 0, left);
    if left > 0 {
      Times(t.reward, 1, left);
    }
  }

  lemma EndingStrands(w: World, v: World, op: Op, tid: TaskId, e: Ending)
    requires WorldInv(w) && Backed(w, tid) && tid in w.tasks && w.tasks[tid].origin == Member && InReach(w, tid)
    requires EndedBy(w, op, tid) == Some(e) && EndedIn(w, v, op, tid, e)
    ensures Stranded(v, tid) <==> Strands(w, op, tid)
  {
    hide WorldInv, Backed, Grounded, BookInv, TaskInv, EndedBy, Held, HasKey, Count, Hopeful, Untapped, Abandons, Idle, LatestBySlot, Promising;
    var t, u := w.tasks[tid], v.tasks[tid];
    Facts(w, tid);
    ShapeOf(w.book.entries, tid, t, w.now);
    ReachIsFull(w, tid);
    AbandonedIsCancelled(w, op, tid, e);
    AccountAfterEnding(w, v, op, tid, e);
    HopeAfterEnding(t, u, e, w.now);
    CountsAfterEnding(t, u, e);
    hide Shape;
    OpenConsentsNothing(w, op, tid, e);
    hide Consent;
    OthersPaidOrActive(t, e, w.now);
    assert SameTerms(t, u);
    hide Moved;
  }

  lemma OpenConsentsNothing(w: World, op: Op, tid: TaskId, e: Ending)
    requires tid in w.tasks && EndedBy(w, op, tid) == Some(e) && Consent(w.tasks[tid])
    ensures Consenting(op) ==> w.tasks[tid].status != Published
  {
  }

  /** When nobody else is active, whoever else gives hope has been paid. */
  lemma OthersPaidOrActive(t: Task, e: Ending, now: int)
    requires e.index < |t.history| && Is(Class.Active, t.history[e.index].status)
    ensures Count(t.history, Class.Active) >= 1
    ensures Count(t.history, Class.Active) == 1 ==> (Hopeful(t.history, now, e.index) <==> Count(t.history, Paid) > 0)
  {
    CountWitness(t.history, Paid);
    CountWitness(t.history, Class.Active);
    if Count(t.history, Class.Active) == 1 {
      var done := t.history[e.index].(status := Cancelled);
      CountUpdate(t.history, e.index, done, Class.Active);
      CountWitness(t.history[e.index := done], Class.Active);
      if Hopeful(t.history, now, e.index) {
        var i :| 0 <= i < |t.history| && i != e.index && Promising(t.history[i], now);
        assert t.history[e.index := done][i] == t.history[i];
      }
      if i :| 0 <= i < |t.history| && Is(Paid, t.history[i].status) {
        assert i != e.index && Promising(t.history[i], now);
      }
    }
  }

  // ---------- one step ----------

  lemma WholeStaysOut(w: World, op: Op, tid: TaskId)
    requires WorldInv(w) && Backed(w, tid) && !Overdraws(w, op, tid) && tid in w.tasks && w.tasks[tid].origin == Member
    requires !InReach(w, tid) && OnWhole(op, tid)
    ensures var v := After(w, op);
            && tid in v.tasks && !InReach(v, tid)
            && Idle(v.book.entries, tid, v.tasks[tid]) == Idle(w.book.entries, tid, w.tasks[tid])
  {
    hide WorldInv, Backed, Grounded, BookInv, TaskInv, Held, HasKey, Count, Hopeful, Overdraws, Commit;
    if Step(w, op).Success? {
      match op
      case Deliver(update, r) =>
        if update !in w.receipts {
          hide After;
          WholeRequestStaysOut(w, update, r);
        }
      case Perform(j) =>
        hide Idle, InReach;
        PassStaysOut(w, tid, j.command);
    }
  }

  lemma WholeRequestStaysOut(w: World, update: UpdateId, r: Request)
    requires WorldInv(w) && Backed(w, r.task) && !Overdraws(w, Deliver(update, r), r.task) && r.task in w.tasks && w.tasks[r.task].origin == Member
    requires !InReach(w, r.task) && !r.PublishDraft? && !ByPerformer(r) && update !in w.receipts && Handle(w, update, r).Success?
    ensures var v := After(w, Deliver(update, r));
            && r.task in v.tasks && !InReach(v, r.task)
            && Idle(v.book.entries, r.task, v.tasks[r.task]) == Idle(w.book.entries, r.task, w.tasks[r.task])
  {
    hide WorldInv, Backed, Held, HasKey, Count, Hopeful, Overdraws, Commit, RequestCancellation;
    var tid, v := r.task, Handle(w, update, r).value;
    assert After(w, Deliver(update, r)) == v.(receipts := w.receipts + {update});
    WholeRequestCloses(w, update, r);
    if w.tasks[tid].status == PartiallyCompleted {
      CloseAgain(w, update, tid);
    }
  }

  /** Of the requests about a task as a whole only closing can succeed once intake is over. */
  lemma WholeRequestCloses(w: World, update: UpdateId, r: Request)
    requires r.task in w.tasks && w.tasks[r.task].status != Published
    requires !r.PublishDraft? && !ByPerformer(r) && Handle(w, update, r).Success?
    ensures r.CloseIntake? && (w.tasks[r.task].status == PartiallyCompleted || w.tasks[r.task].status == TaskCancelled)
    ensures w.tasks[r.task].status == TaskCancelled ==> Handle(w, update, r).value == w.(tasks := w.tasks[r.task := w.tasks[r.task]])
  {
    hide SlotsOf, FreeSlots, ConsentRequests, ActiveTasks;
  }

  lemma PassStaysOut(w: World, tid: TaskId, cid: nat)
    requires WorldInv(w) && tid in w.tasks && w.tasks[tid].origin == Member && !InReach(w, tid)
    ensures var op := Perform(DeadlineDue(tid, cid));
            var v := After(w, op);
            && tid in v.tasks && !InReach(v, tid)
            && Idle(v.book.entries, tid, v.tasks[tid]) == Idle(w.book.entries, tid, w.tasks[tid])
  {
    hide WorldInv, Held, HasKey, Count, Hopeful, Commit, After, Idle;
    var op := Perform(DeadlineDue(tid, cid));
    if w.now < w.tasks[tid].deadline {
      TooEarlyToPass(w, tid, cid);
    } else {
      PassAfter(w, tid, cid);
      StepNeverReopens(w, op, tid);
    }
  }

  lemma TooEarlyToPass(w: World, tid: TaskId, cid: nat)
    requires tid in w.tasks && w.now < w.tasks[tid].deadline
    ensures After(w, Perform(DeadlineDue(tid, cid))) == w
  {
  }

  lemma StepNeverReopens(w: World, op: Op, tid: TaskId)
    requires WorldInv(w) && tid in w.tasks && w.tasks[tid].status != Published
    ensures tid in After(w, op).tasks && After(w, op).tasks[tid].status != Published
    ensures SameTerms(w.tasks[tid], After(w, op).tasks[tid])
  {
    hide WorldInv, After;
    PartsOf(w);
    StepOnward(w, op, tid);
  }

  /** Out of reach once, out of reach for good; what is idle grows only by slots that are left. */
  lemma StepStaysOut(w: World, op: Op, tid: TaskId)
    requires WorldInv(w) && Backed(w, tid) && !Overdraws(w, op, tid) && tid in w.tasks && w.tasks[tid].origin == Member && !InReach(w, tid)
    ensures var v := After(w, op);
            && tid in v.tasks && !InReach(v, tid) && SameTerms(w.tasks[tid], v.tasks[tid])
            && Idle(v.book.entries, tid, v.tasks[tid])
               == Idle(w.book.entries, tid, w.tasks[tid]) + (if Abandons(w, op, tid) then w.tasks[tid].reward else 0)
  {
    assert w.tasks[tid].status != Published;
    hide WorldInv, Backed, After, Idle, InReach, Overdraws, EndedBy, EndedIn, SameAccount;
    StepNeverReopens(w, op, tid);
    match EndedBy(w, op, tid)
    case Some(e) =>
      EndingAfter(w, op, tid, e);
      EndingStaysOut(w, After(w, op), op, tid, e);
    case None =>
      if OnWhole(op, tid) {
        WholeStaysOut(w, op, tid);
      } else {
        PartsOf(w);
        QuietAfter(w, op, tid);
        AlikeReach(w, After(w, op), tid);
      }
  }

  lemma IdleNeverNegative(w: World, tid: TaskId)
    requires WorldInv(w) && Backed(w, tid) && tid in w.tasks && w.tasks[tid].origin == Member
    ensures Idle(w.book.entries, tid, w.tasks[tid]) >= 0 && w.tasks[tid].reward > 0
  {
    hide WorldInv, Backed, Funded, TaskInv, Grounded, BookInv, Idle;
    FundsOf(w, tid);
    Facts(w, tid);
    PositiveTerms(w.book.entries, tid, w.tasks[tid], w.now);
    var released := IdleIsUnheld(w.book.entries, tid, w.tasks[tid], w.now);
  }

  lemma OwnersStay(w: World, op: Op, tid: TaskId)
    requires tid in w.tasks
    ensures tid in After(w, op).tasks && After(w, op).tasks[tid].origin == w.tasks[tid].origin
  {
    hide After;
    ClockRuns(w, op, tid);
  }

  /** Nothing done to the task as a whole while it is in reach strands anything. */
  lemma WholeStrandsNothing(w: World, op: Op, tid: TaskId)
    requires WorldInv(w) && Backed(w, tid) && tid in w.tasks && w.tasks[tid].origin == Member && InReach(w, tid) && OnWhole(op, tid)
    ensures tid in After(w, op).tasks && !Stranded(After(w, op), tid)
  {
    hide WorldInv, Backed, Grounded, BookInv, TaskInv, Held, HasKey, Count, Hopeful, Commit, Idle, Untapped;
    OwnersStay(w, op, tid);
    if w.tasks[tid].status == Published {
      OpenAfter(w, op, tid);
    } else if Step(w, op).Success? {
      match op
      case Deliver(update, r) =>
        if update !in w.receipts {
          WholeRequestCloses(w, update, r);
          CloseAfter(w, update, tid);
        }
      case Perform(j) =>
        TooEarlyToPass(w, tid, j.command);
    }
  }

  /** Of what is done to others, or to nobody's end, only the passing of time strands reserve. */
  lemma QuietStrands(w: World, op: Op, tid: TaskId)
    requires WorldInv(w) && Backed(w, tid) && tid in w.tasks && w.tasks[tid].origin == Member && InReach(w, tid)
    requires EndedBy(w, op, tid).None? && !OnWhole(op, tid)
    ensures tid in After(w, op).tasks && (Stranded(After(w, op), tid) <==> op.Tick? && StrandsByTime(w.tasks[tid], w.now, op.to))
  {
    hide WorldInv, Backed, After, Idle, EndedBy, OnWhole, Hopeful, Untapped, Count;
    var v := After(w, op);
    PartsOf(w);
    QuietAfter(w, op, tid);
    AlikeReach(w, v, tid);
    ReachIsFull(w, tid);
    if op.Tick? {
      TimeOnly(w, op.to, tid);
    }
  }

  lemma TimeOnly(w: World, to: int, tid: TaskId)
    requires tid in w.tasks
    ensures After(w, Tick(to)) == if w.now <= to then w.(now := to) else w
  {
  }

  /** A safe transaction leaves reserve stranded exactly if it already was, or the guard holds. */
  lemma StrandsExactly(w: World, op: Op, tid: TaskId)
    requires WorldInv(w) && Backed(w, tid) && !Overdraws(w, op, tid) && tid in w.tasks && w.tasks[tid].origin == Member
    ensures tid in After(w, op).tasks && After(w, op).tasks[tid].origin == Member
    ensures Stranded(After(w, op), tid) <==> Stranded(w, tid) || Strands(w, op, tid)
  {
    hide WorldInv, Backed, After, Idle, InReach, Overdraws, EndedBy, EndedIn, StrandsOpen, StrandsClosed, StrandsByTime, Abandons, OnWhole;
    OwnersStay(w, op, tid);
    IdleNeverNegative(w, tid);
    if !InReach(w, tid) {
      StepStaysOut(w, op, tid);
    } else {
      EndingsAreNoTicks(w, op, tid);
      match EndedBy(w, op, tid)
      case Some(e) =>
        EndingAfter(w, op, tid, e);
        EndingStrands(w, After(w, op), op, tid, e);
      case None =>
        if OnWhole(op, tid) {
          WholeStrandsNothing(w, op, tid);
        } else {
          QuietStrands(w, op, tid);
        }
    }
  }

  lemma EndingsAreNoTicks(w: World, op: Op, tid: TaskId)
    requires tid in w.tasks
    ensures op.Tick? ==> EndedBy(w, op, tid).None? && !OnWhole(op, tid)
  {
  }

  // ---------- whole runs ----------

  predicate StrandsAt(w: World, ops: seq<Op>, k: nat, tid: TaskId)
    requires k < |ops|
  {
    tid in Run(w, ops[..k]).tasks && Strands(Run(w, ops[..k]), ops[k], tid)
  }

  predicate StrandsDuring(w: World, ops: seq<Op>, tid: TaskId) {
    exists k | 0 <= k < |ops| :: StrandsAt(w, ops, k, tid)
  }

  lemma DuringBack(w: World, ops: seq<Op>, tid: TaskId)
    requires ops != [] && tid in Run(w, ops[..|ops| - 1]).tasks
    ensures StrandsDuring(w, ops, tid) <==>
            StrandsDuring(w, ops[..|ops| - 1], tid) || Strands(Run(w, ops[..|ops| - 1]), ops[|ops| - 1], tid)
  {
    hide Strands, Run;
    var n := |ops| - 1;
    var front := ops[..n];
    forall k | 0 <= k < n
      ensures StrandsAt(w, ops, k, tid) <==> StrandsAt(w, front, k, tid)
    {
      assert front[..k] == ops[..k] && front[k] == ops[k];
    }
    assert StrandsAt(w, ops, n, tid) <==> Strands(Run(w, front), ops[n], tid);
    if StrandsDuring(w, front, tid) {
      var k :| 0 <= k < n && StrandsAt(w, front, k, tid);
      assert StrandsAt(w, ops, k, tid);
    }
    if StrandsDuring(w, ops, tid) {
      var k :| 0 <= k < |ops| && StrandsAt(w, ops, k, tid);
      assert k < n ==> StrandsAt(w, front, k, tid);
    }
  }

  /** Over any safe run the reserve of a task ends up stranded exactly if it was stranded already, or
      some transaction of the run stranded it. */
  lemma {:induction false} StrandedByStep(w: World, ops: seq<Op>, tid: TaskId)
    requires WorldInv(w) && Backed(w, tid) && SafeRun(w, ops, tid) && tid in w.tasks && w.tasks[tid].origin == Member
    ensures tid in Run(w, ops).tasks && Run(w, ops).tasks[tid].origin == Member
    ensures Stranded(Run(w, ops), tid) <==> Stranded(w, tid) || StrandsDuring(w, ops, tid)
  {
    if ops != [] {
      hide WorldInv, Backed, Stranded, Strands, StrandsDuring, Overdraws, After, SafeRun, Run;
      var front := ops[..|ops| - 1];
      RunBack(w, ops);
      SafeFront(w, ops, tid);
      StrandedByStep(w, front, tid);
      SafeRunKeeps(w, front, tid);
      StrandsExactly(Run(w, front), ops[|ops| - 1], tid);
      DuringBack(w, ops, tid);
    }
  }

  /** How many performers have left slots of a task behind during a run. */
  function Abandoned(w: World, ops: seq<Op>, tid: TaskId): nat {
    if ops == [] then 0
    else
      var front := ops[..|ops| - 1];
      Abandoned(w, front, tid) + if LeavesBehind(Run(w, front), ops[|ops| - 1], tid) then 1 else 0
  }

  lemma AbandonedBack(w: World, ops: seq<Op>, tid: TaskId)
    requires ops != []
    ensures Abandoned(w, ops, tid)
         == Abandoned(w, ops[..|ops| - 1], tid) + if LeavesBehind(Run(w, ops[..|ops| - 1]), ops[|ops| - 1], tid) then 1 else 0
  {
  }

  lemma NobodyLeaves(w: World, tid: TaskId)
    ensures Abandoned(w, [], tid) == 0
  {
  }

  predicate LeavesBehind(w: World, op: Op, tid: TaskId) {
    tid in w.tasks && Abandons(w, op, tid)
  }

  lemma LastStaysOut(w: World, op: Op, tid: TaskId, t: Task, idle: int, n: nat)
    requires WorldInv(w) && Backed(w, tid) && !Overdraws(w, op, tid) && tid in w.tasks && t.origin == Member && SameTerms(t, w.tasks[tid]) && !InReach(w, tid)
    requires Idle(w.book.entries, tid, w.tasks[tid]) == idle + t.reward * n
    ensures var v := After(w, op);
            && tid in v.tasks && !InReach(v, tid) && SameTerms(t, v.tasks[tid])
            && Idle(v.book.entries, tid, v.tasks[tid]) == idle + t.reward * (n + if LeavesBehind(w, op, tid) then 1 else 0)
  {
    hide WorldInv, Backed, InReach, Idle, Abandons, Overdraws, After;
    StepStaysOut(w, op, tid);
    Distributes(t.reward, n, 1);
  }

  /** No safe run, however long, gives anything back that is out of reach: what is idle grows by the
      reward of every slot left behind, and else stays as it is. */
  lemma {:induction false} StrandedStays(w: World, ops: seq<Op>, tid: TaskId)
    requires WorldInv(w) && Backed(w, tid) && SafeRun(w, ops, tid) && tid in w.tasks && w.tasks[tid].origin == Member && !InReach(w, tid)
    ensures var v := Run(w, ops);
            && tid in v.tasks && !InReach(v, tid) && SameTerms(w.tasks[tid], v.tasks[tid])
            && Idle(v.book.entries, tid, v.tasks[tid])
               == Idle(w.book.entries, tid, w.tasks[tid]) + w.tasks[tid].reward * Abandoned(w, ops, tid)
  {
    hide WorldInv, Backed, InReach, Idle, LeavesBehind, Overdraws, After, SafeRun, Abandoned;
    if ops == [] {
      NobodyLeaves(w, tid);
    } else {
      hide Run;
      var front := ops[..|ops| - 1];
      RunBack(w, ops);
      SafeFront(w, ops, tid);
      AbandonedBack(w, ops, tid);
      StrandedStays(w, front, tid);
      SafeRunKeeps(w, front, tid);
      LastStaysOut(Run(w, front), ops[|ops| - 1], tid, w.tasks[tid], Idle(w.book.entries, tid, w.tasks[tid]), Abandoned(w, front, tid));
    }
  }

  lemma DrainedLeavesNobody(w: World, op: Op, tid: TaskId)
    requires TasksSound(w) && tid in w.tasks && Drained(w.tasks[tid])
    ensures !LeavesBehind(w, op, tid) && tid in After(w, op).tasks && Drained(After(w, op).tasks[tid])
  {
    hide TasksSound, After;
    StepKeepsDrained(w, op, tid);
  }

  /** Where nobody is merely accepted any more, as in every task that has ended, nobody can leave,
      and what is idle never changes again. */
  lemma {:induction false} DrainedNeverChanges(w: World, ops: seq<Op>, tid: TaskId)
    requires WorldInv(w) && tid in w.tasks && Drained(w.tasks[tid])
    ensures tid in Run(w, ops).tasks && Drained(Run(w, ops).tasks[tid]) && Abandoned(w, ops, tid) == 0
  {
    if ops != [] {
      hide WorldInv, After, Run, Drained, LeavesBehind;
      var front := ops[..|ops| - 1];
      RunBack(w, ops);
      DrainedNeverChanges(w, front, tid);
      RunKeeps(w, front);
      PartsOf(Run(w, front));
      DrainedLeavesNobody(Run(w, front), ops[|ops| - 1], tid);
    }
  }
}
