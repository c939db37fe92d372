/**
 What the creator's transactions do to the terms, the reserve and the creator's balance, and exactly when
 they are accepted.
 */
module ExchangeTerms {
  import opened Wrappers
  import opened Ledger
  import opened Tasks
  import opened Escrow
  import opened EscrowInvariants
  import opened EscrowSteps
  import opened EscrowPerformer
  import opened EscrowCreator
  import opened Exchange
  import opened ExchangeInvariants
  import opened ExchangeRuns
  import opened ExchangeOutcomes

  /** One new command that moves no experience posts exactly if the balance of its member allows it. */
  lemma OnePosts(b: Book, c: Command)
    requires BookInv(b) && ValidCommand(c) && c.reversed.None? && !HasKey(b.entries, c.key) && c.member in b.credit
    requires c.experience == 0
    ensures Settle(b, [c]).Success? <==> b.credit[c.member] + c.credit >= 0
  {
    assert c.member in b.credit.Keys && b.experience[c.member] >= 0;
    assert [c][..0] == [] && [c][0] == c;
    hide ValidCommand, BookInv;
    assert PostAll(b, []) == Success(b);
    assert MembersKnown(b, [c]) && PostAll(b, [c]) == Post(b, c);
    assert AllNew(b.entries, [c]);
    NothingReversed(b.entries, [c]);
  }

  lemma Owed(w: World, tid: TaskId)
    requires WorldInv(w) && tid in w.tasks
    ensures w.tasks[tid].creator in w.book.credit && w.book.credit[w.tasks[tid].creator] >= 0
    ensures w.tasks[tid].reserved == if w.tasks[tid].origin == Member then w.tasks[tid].reward * w.tasks[tid].slots else 0
  {
    Facts(w, tid);
  }

  predicate Unclaimed(t: Task) {
    forall i | 0 <= i < |t.history| :: t.history[i].status == Cancelled
  }

  // ---------- editing ----------

  lemma EditKeysAreNew(w: World, u: UpdateId, tid: TaskId)
    requires WorldInv(w) && u !in w.receipts
    ensures !HasKey(w.book.entries, EditReserve(tid, u)) && !HasKey(w.book.entries, EditRefund(tid, u))
  {
    UndeliveredEditIsNew(w, u, tid);
  }

  lemma NewEditIsNew(w: World, u: UpdateId, tid: TaskId, reward: nat, slots: nat, deadline: int)
    requires WorldInv(w) && u !in w.receipts && tid in w.tasks
    requires Edit(tid, w.tasks[tid], w.now, u, reward, slots, deadline).Success?
    ensures AllNew(w.book.entries, Edit(tid, w.tasks[tid], w.now, u, reward, slots, deadline).value.commands)
  {
    hide WorldInv, HasKey;
    EditKeysAreNew(w, u, tid);
  }

  /** An edit goes through exactly for a published member task before its deadline that nobody holds,
      with positive terms and a deadline to come, and a creator who can pay for what it reserves more. */
  lemma EditGoesThrough(w: World, u: UpdateId, tid: TaskId, reward: nat, slots: nat, deadline: int)
    requires WorldInv(w) && u !in w.receipts
    ensures Step(w, Deliver(u, EditTerms(tid, reward, slots, deadline))).Success? <==>
              && tid in w.tasks && w.tasks[tid].creator in w.book.credit
              && var t := w.tasks[tid];
                 && t.origin == Member && t.status == Published && w.now < t.deadline && Unclaimed(t)
                 && reward > 0 && slots > 0 && deadline > w.now
                 && w.book.credit[t.creator] + t.reserved >= reward * slots
  {
    hide WorldInv, Settle, BookInv, TaskInv, Grounded, HasKey;
    if tid in w.tasks {
      Owed(w, tid);
      Facts(w, tid);
      var t := w.tasks[tid];
      if Edit(tid, t, w.now, u, reward, slots, deadline).Success? {
        EditKeysAreNew(w, u, tid);
        var delta := reward * slots - t.reserved;
        if delta > 0 {
          OnePosts(w.book, Reserve(t.creator, delta, EditReserve(tid, u)));
        } else if delta < 0 {
          OnePosts(w.book, Refund(t.creator, -delta, EditRefund(tid, u)));
        } else {
          SettleNothing(w.book);
        }
      }
    }
  }

  /** Then the task has the terms asked for and reserves exactly their product; what it reserves less or
      more moves from or to the creator's balance, nobody else's, and nothing else about the task changes. */
  lemma EditStoresTerms(w: World, u: UpdateId, tid: TaskId, reward: nat, slots: nat, deadline: int)
    requires WorldInv(w) && u !in w.receipts && Step(w, Deliver(u, EditTerms(tid, reward, slots, deadline))).Success?
    ensures var v := After(w, Deliver(u, EditTerms(tid, reward, slots, deadline)));
            && OnlyTask(w, v, tid) && v.receipts == w.receipts + {u}
            && var t, x := w.tasks[tid], v.tasks[tid];
               && x.reward == reward && x.slots == slots && x.deadline == deadline && x.reserved == reward * slots
               && x.origin == t.origin && x.creator == t.creator && x.status == t.status
               && x.history == t.history && x.requests == t.requests
               && Gains(w.book, v.book, t.creator, t.reserved - reward * slots, t.creator, 0)
               && Held(v.book.entries, tid) == Held(w.book.entries, tid) + reward * slots - t.reserved
  {
    hide WorldInv, MovedBy, Settle, AllNew, Held, Given;
    var r := EditTerms(tid, reward, slots, deadline);
    HandledOf(w, u, r);
    NewEditIsNew(w, u, tid, reward, slots, deadline);
    RequestMoves(w, u, r);
    var v, t := After(w, Deliver(u, r)), w.tasks[tid];
    hide Step, After;
    var delta := reward * slots - t.reserved;
    if delta > 0 {
      TermsMove(w, v, tid, Reserve(t.creator, delta, EditReserve(tid, u)));
    } else if delta < 0 {
      TermsMove(w, v, tid, Refund(t.creator, -delta, EditRefund(tid, u)));
    } else {
      NobodyGains(w.book, v.book, t.creator, t.creator);
    }
  }

  /** One command about a task as a whole, on its creator. */
  lemma TermsMove(w: World, v: World, tid: TaskId, c: Command)
    requires tid in w.tasks && MovedBy(w.book, v.book, [c]) && c.member == w.tasks[tid].creator && TaskOf(c.key) == Some(tid)
    ensures Gains(w.book, v.book, c.member, c.credit, c.member, 0)
    ensures Held(v.book.entries, tid) == Held(w.book.entries, tid) - c.credit
  {
    hide Booked, Asked;
    AskedOne(c, Escrowed(tid));
    GrewBooks(w.book.entries, v.book.entries, [c], Escrowed(tid));
    OneGains(w.book, v.book, c, c.member, c.member);
  }

  // ---------- publishing ----------

  /** A draft is published exactly if its terms are positive, its deadline is to come, its creator is
      known, and he can pay for the reserve or has already paid it. */
  lemma PublishGoesThrough(w: World, u: UpdateId, tid: TaskId)
    requires WorldInv(w) && u !in w.receipts
    ensures Step(w, Deliver(u, PublishDraft(tid))).Success? <==>
              && tid in w.drafts && w.drafts[tid].creator in w.book.credit
              && var d := w.drafts[tid];
                 && d.reward > 0 && d.slots > 0 && d.deadline > w.now
                 && (tid in w.tasks || d.origin == Community || w.book.credit[d.creator] >= d.reward * d.slots)
  {
    hide Settle, BookInv, Owned, RightPeople, Grounded, HasKey, AllRecorded, TasksSound, WithinLimit;
    if tid in w.drafts && w.drafts[tid].creator in w.book.credit {
      var d := w.drafts[tid];
      if d.reward > 0 && d.slots > 0 && d.deadline > w.now {
        if d.origin == Community {
          SettleNothing(w.book);
        } else if tid in w.tasks {
          StoredReserve(w, tid);
        } else {
          Times(d.reward, 1, d.slots);
          NewReserveIsNew(w, tid);
          OnePosts(w.book, Reserve(d.creator, d.reward * d.slots, PublishReserve(tid)));
        }
      }
    }
  }

  lemma StoredReserve(w: World, tid: TaskId)
    requires LedgerSound(w) && tid in w.tasks && tid in w.drafts
    requires w.drafts[tid].origin == Member && w.drafts[tid].reward > 0 && w.drafts[tid].slots > 0
    ensures Settle(w.book, PublishCommands(tid, w.drafts[tid])).Success?
  {
    assert Grounded(w, tid);
    Times(w.drafts[tid].reward, 1, w.drafts[tid].slots);
    StoredBatchReplays(w.book, PublishCommands(tid, w.drafts[tid]));
  }

  lemma NewReserveIsNew(w: World, tid: TaskId)
    requires LedgerSound(w) && tid !in w.tasks
    ensures !HasKey(w.book.entries, PublishReserve(tid))
    ensures tid in w.drafts ==> AllNew(w.book.entries, PublishCommands(tid, w.drafts[tid]))
  {
    NothingAboutNewTask(w, tid);
  }

  /** A draft published for the first time becomes an open task with exactly its terms, without history
      or requests; a member's reserve is their product and leaves the creator's balance, nobody else's. */
  lemma PublishOpens(w: World, u: UpdateId, tid: TaskId)
    requires WorldInv(w) && u !in w.receipts && tid !in w.tasks && Step(w, Deliver(u, PublishDraft(tid))).Success?
    ensures tid in w.drafts
    ensures var v, d := After(w, Deliver(u, PublishDraft(tid))), w.drafts[tid];
            && v.now == w.now && v.limit == w.limit && v.drafts == w.drafts && v.receipts == w.receipts + {u}
            && tid in v.tasks && v.tasks == w.tasks[tid := v.tasks[tid]]
            && var x := v.tasks[tid];
               && x.origin == d.origin && x.creator == d.creator && x.reward == d.reward && x.slots == d.slots
               && x.deadline == d.deadline && x.status == Published && x.history == [] && x.requests == []
               && x.reserved == (if d.origin == Member then d.reward * d.slots else 0)
               && Gains(w.book, v.book, d.creator, 0 - x.reserved, d.creator, 0)
  {
    hide Settle, BookInv, Owned, RightPeople, Grounded, HasKey, AllNew, Publish, Grew, AllRecorded, TasksSound, WithinLimit, Given;
    PublishEffect(w, tid);
    var d := w.drafts[tid];
    var v := After(w, Deliver(u, PublishDraft(tid)));
    NewReserveIsNew(w, tid);
    SettleOutcome(w.book, PublishCommands(tid, d));
    BalancesMove(w.book, v.book, PublishCommands(tid, d));
    hide MovedBy;
    if d.origin == Member {
      OneGains(w.book, v.book, Reserve(d.creator, d.reward * d.slots, PublishReserve(tid)), d.creator, d.creator);
    } else {
      NobodyGains(w.book, v.book, d.creator, d.creator);
    }
  }

  // ---------- withdrawing ----------

  lemma WithdrawGoesThrough(w: World, u: UpdateId, tid: TaskId)
    requires WorldInv(w) && u !in w.receipts
    ensures Step(w, Deliver(u, WithdrawTask(tid))).Success? <==>
              && tid in w.tasks
              && var t := w.tasks[tid];
                 t.origin == Member && t.status == Published && w.now < t.deadline && Unclaimed(t)
  {
    hide WorldInv, Settle;
    var r := WithdrawTask(tid);
    if tid in w.tasks && RequestEffect(w, u, r).Success? {
      SettlingRequestsNeverRefused(w, u, r);
    }
  }

  /** An unclaimed task is cancelled and its whole reserve goes back to its creator. */
  lemma WithdrawReturns(w: World, u: UpdateId, tid: TaskId)
    requires WorldInv(w) && u !in w.receipts && Step(w, Deliver(u, WithdrawTask(tid))).Success?
    ensures var v := After(w, Deliver(u, WithdrawTask(tid)));
            && OnlyTask(w, v, tid) && v.tasks[tid] == w.tasks[tid].(status := TaskCancelled)
            && Gains(w.book, v.book, w.tasks[tid].creator, w.tasks[tid].reward * w.tasks[tid].slots, w.tasks[tid].creator, 0)
            && Held(v.book.entries, tid) == Held(w.book.entries, tid) - w.tasks[tid].reward * w.tasks[tid].slots
  {
    hide WorldInv, MovedBy, Settle, AllNew, Held, Given, OnlyTask;
    var r := WithdrawTask(tid);
    HandledOf(w, u, r);
    SettlingIsNew(w, u, r);
    RequestMoves(w, u, r);
    Owed(w, tid);
    var v, t := After(w, Deliver(u, r)), w.tasks[tid];
    hide Step, After;
    TermsMove(w, v, tid, Refund(t.creator, t.reserved, TaskCancelRefund(tid)));
  }

  // ---------- closing intake ----------

  /** The refund a close asks for, when it asks for one. */
  function CloseRefundOf(tid: TaskId, t: Task): Command {
    Refund(t.creator, FreeSlots(t) * t.reward, CloseRefund(tid))
  }

  lemma FreeIsUnheld(entries: seq<Entry>, tid: TaskId, t: Task, now: int)
    requires TaskInv(entries, tid, t, now)
    ensures FreeSlots(t) == t.slots - Count(t.history, Live)
    ensures SlotsOf(t.history, Live) == {} <==> Count(t.history, Live) == 0
    ensures t.status == PartiallyCompleted ==> Count(t.history, Live) > 0
    ensures t.status == Published || t.status == PartiallyCompleted ==> !HasPending(t)
    ensures t.status == Published ==> !TaskLevelRefunded(entries, tid)
    ensures t.reward > 0 && t.slots > 0
  {
    assert Shape(t) && Consent(t) && Lifecycle(t, now) && KeysExplained(entries, tid, t, now);
    hide TaskInv, Shape, Count, SlotsOf, KeysExplained, TaskLevelRefunded, Lifecycle;
    OccupiedFits(t);
    NobodyHolds(t);
    CountSplits(t.history);
    PartlyPaid(t, now);
    if t.status == PartiallyCompleted {
      NoPendingWhenIdle(t, now);
    }
    if t.status == Published {
      CloseIsFreshFromPublished(entries, tid, t, now);
    }
    PositiveShape(t);
  }

  lemma PartlyPaid(t: Task, now: int)
    requires Lifecycle(t, now)
    ensures t.status == PartiallyCompleted ==> Count(t.history, Paid) > 0
  {
  }

  lemma PositiveShape(t: Task)
    requires Shape(t)
    ensures t.reward > 0 && t.slots > 0
  {
  }

  /** What a close asks for, by what the invariant says of the task. */
  lemma CloseEffect(entries: seq<Entry>, tid: TaskId, t: Task, now: int)
    requires TaskInv(entries, tid, t, now)
    ensures RequestCancellation(tid, t, now).Success? <==>
              && t.origin == Member
              && (t.status == TaskCancelled
                  || (now < t.deadline && (t.status == Published || (t.status == PartiallyCompleted && Count(t.history, Live) < t.slots))))
    ensures RequestCancellation(tid, t, now).Success? ==>
              var eff := RequestCancellation(tid, t, now).value;
              if t.status == TaskCancelled then eff == Effect(t, [])
              else if Count(t.history, Live) == 0 then
                t.status == Published && eff == Effect(t.(status := TaskCancelled), [Refund(t.creator, t.reserved, TaskCancelRefund(tid))])
              else
                && eff.task == t.(status := ClosedForNewPerformers, requests := eff.task.requests)
                && eff.commands == if Count(t.history, Live) < t.slots then [CloseRefundOf(tid, t)] else []
  {
    hide TaskInv, Count, SlotsOf, FreeSlots, HasPending, ConsentRequests, TaskLevelRefunded;
    FreeIsUnheld(entries, tid, t, now);
  }

  lemma CloseBatchSettles(w: World, tid: TaskId, c: Command)
    requires WorldInv(w) && tid in w.tasks
    requires c == Refund(w.tasks[tid].creator, c.credit, c.key) && c.credit > 0
    ensures Settle(w.book, [c]).Success? <==> HasKey(w.book.entries, c.key) ==> Recorded(w.book.entries, c)
  {
    hide WorldInv, BookInv, HasKey, Recorded, TaskInv, Grounded;
    Owed(w, tid);
    Facts(w, tid);
    if !HasKey(w.book.entries, c.key) {
      OnePosts(w.book, c);
    } else if Recorded(w.book.entries, c) {
      StoredBatchReplays(w.book, [c]);
    } else {
      ChangedPayloadIsRefused(w.book, [c], 0);
    }
  }

  /** Closing intake goes through for a member task that is cancelled already, or before its deadline
      published, or partially completed with a slot nobody holds; then, if its refund is already stored,
      exactly if it would be the same again. */
  lemma CloseGoesThrough(w: World, u: UpdateId, tid: TaskId)
    requires WorldInv(w) && u !in w.receipts
    ensures Step(w, Deliver(u, CloseIntake(tid))).Success? <==>
              && tid in w.tasks && w.tasks[tid].origin == Member
              && var t := w.tasks[tid];
                 || t.status == TaskCancelled
                 || (w.now < t.deadline && t.status == Published)
                 || (w.now < t.deadline && t.status == PartiallyCompleted && Count(t.history, Live) < t.slots
                     && (HasKey(w.book.entries, CloseRefund(tid)) ==> Recorded(w.book.entries, CloseRefundOf(tid, t))))
  {
    hide WorldInv, Settle, BookInv, TaskInv, Grounded, HasKey, Recorded, Count, FreeSlots, RequestCancellation;
    if tid in w.tasks {
      var t := w.tasks[tid];
      Owed(w, tid);
      Facts(w, tid);
      CloseEffect(w.book.entries, tid, t, w.now);
      FreeIsUnheld(w.book.entries, tid, t, w.now);
      SettleNothing(w.book);
      if Count(t.history, Live) == 0 {
        Times(t.reward, 1, t.slots);
        if t.origin == Member && t.status == Published {
          CloseBatchSettles(w, tid, Refund(t.creator, t.reserved, TaskCancelRefund(tid)));
        }
      } else if Count(t.history, Live) < t.slots {
        Times(t.reward, 1, FreeSlots(t));
        CloseBatchSettles(w, tid, CloseRefundOf(tid, t));
      }
    }
  }

  /** A cancelled task stays as it is. An unclaimed one is cancelled and its whole reserve goes back. Any
      other is closed for new performers: the reward of the slots nobody holds goes back unless that had
      happened before, and exactly the performers who have merely accepted are asked for consent. */
  lemma CloseSettles(w: World, u: UpdateId, tid: TaskId)
    requires WorldInv(w) && u !in w.receipts && Step(w, Deliver(u, CloseIntake(tid))).Success?
    ensures var v, t := After(w, Deliver(u, CloseIntake(tid))), w.tasks[tid];
            && OnlyTask(w, v, tid)
            && var x := v.tasks[tid];
               var free := t.slots - Count(t.history, Live);
               if t.status == TaskCancelled then x == t && v.book == w.book
               else if Count(t.history, Live) == 0 then
                 x == t.(status := TaskCancelled) && Gains(w.book, v.book, t.creator, t.reward * t.slots, t.creator, 0)
               else
                 && x == t.(status := ClosedForNewPerformers, requests := x.requests)
                 && Asks(t, x)
                 && Gains(w.book, v.book, t.creator, if HasKey(w.book.entries, CloseRefund(tid)) then 0 else free * t.reward, t.creator, 0)
  {
    hide WorldInv, After, Settle, BookInv, TaskInv, Grounded, Count, FreeSlots, RequestCancellation, Asks, Gains, Given, OnlyTask, MovedBy, AllNew;
    HandledOf(w, u, CloseIntake(tid));
    var t := w.tasks[tid];
    Owed(w, tid);
    Facts(w, tid);
    CloseEffect(w.book.entries, tid, t, w.now);
    FreeIsUnheld(w.book.entries, tid, t, w.now);
    var v := After(w, Deliver(u, CloseIntake(tid)));
    CloseMoves(w, u, tid);
    if t.status != TaskCancelled && Count(t.history, Live) > 0 {
      CloseAsks(w.book.entries, tid, t, w.now);
      BatchGains(w.book, v.book, t.creator, CloseRefundOf(tid, t), Count(t.history, Live) < t.slots);
    } else if t.status != TaskCancelled {
      BatchGains(w.book, v.book, t.creator, Refund(t.creator, t.reserved, TaskCancelRefund(tid)), true);
    }
  }

  lemma BatchGains(b: Book, c: Book, p: MemberId, cmd: Command, asked: bool)
    requires cmd.member == p
    requires var cmds := if asked then [cmd] else [];
             && (cmds == [] || !AllNew(b.entries, cmds) ==> c == b)
             && (AllNew(b.entries, cmds) ==> MovedBy(b, c, cmds))
    ensures Gains(b, c, p, if asked && !HasKey(b.entries, cmd.key) then cmd.credit else 0, p, 0)
  {
    hide HasKey, MovedBy, Given;
    if asked {
      assert AllNew(b.entries, [cmd]) <==> !HasKey(b.entries, cmd.key) by {
        assert [cmd][0] == cmd;
      }
      if !HasKey(b.entries, cmd.key) {
        OneGains(b, c, cmd, p, p);
      }
    }
  }

  /** The performers asked for consent: those who have merely accepted, once intake closes. */
  ghost predicate Asks(t: Task, x: Task) {
    if t.status == Published then
      && |x.requests| <= 1 && (x.requests != [] ==> x.requests[0].status == Pending)
      && forall i | 0 <= i < |t.history| ::
           t.history[i].status == Accepted <==> |x.requests| == 1 && Response(i, Unanswered) in x.requests[0].responses
    else x.requests == t.requests
  }

  lemma CloseAsks(entries: seq<Entry>, tid: TaskId, t: Task, now: int)
    requires TaskInv(entries, tid, t, now) && RequestCancellation(tid, t, now).Success?
    requires RequestCancellation(tid, t, now).value.task.status == ClosedForNewPerformers && t.status != TaskCancelled
    ensures Asks(t, RequestCancellation(tid, t, now).value.task)
  {
    hide KeysExplained, Settlement, SlotsOf, FreeSlots, Count, ConsentRequests, Shape;
    var x := RequestCancellation(tid, t, now).value.task;
    if t.status == Published {
      forall i | 0 <= i < |t.history|
        ensures t.history[i].status == Accepted <==> |x.requests| == 1 && Response(i, Unanswered) in x.requests[0].responses
      {
        hide RequestCancellation;
        ClosingAsksExactlyTheAccepted(tid, t, now, i);
      }
    } else {
      IdleAsksNobody(t);
    }
  }

  lemma CloseMoves(w: World, u: UpdateId, tid: TaskId)
    requires WorldInv(w) && u !in w.receipts && Step(w, Deliver(u, CloseIntake(tid))).Success?
    ensures tid in w.tasks && RequestCancellation(tid, w.tasks[tid], w.now).Success?
    ensures var v, eff := After(w, Deliver(u, CloseIntake(tid))), RequestCancellation(tid, w.tasks[tid], w.now).value;
            && OnlyTask(w, v, tid) && v.tasks[tid] == eff.task
            && (eff.commands == [] || !AllNew(w.book.entries, eff.commands) ==> v.book == w.book)
            && (AllNew(w.book.entries, eff.commands) ==> MovedBy(w.book, v.book, eff.commands))
  {
    hide WorldInv, BookInv, TaskInv, Grounded, AllNew, RequestCancellation, MovedBy, Settle;
    Facts(w, tid);
    var eff := RequestCancellation(tid, w.tasks[tid], w.now).value;
    SettleOutcome(w.book, eff.commands);
    if AllNew(w.book.entries, eff.commands) {
      CommitMoves(w, tid, eff);
    }
  }

  // ---------- registering ----------

  /** Registering goes through exactly if the account is open or its grant is not stored. It opens an account
      with exactly the starting grant, once, and touches nobody else's. */
  lemma RegisterGrants(w: World, m: MemberId)
    requires WorldInv(w)
    ensures Step(w, Register(m)).Success? <==> m in w.book.credit || !HasKey(w.book.entries, GrantKey(m))
    ensures Step(w, Register(m)).Success? ==>
              var v := After(w, Register(m));
              && v == w.(book := v.book)
              && (m in w.book.credit ==> v == w)
              && (m !in w.book.credit ==> v.book.credit == w.book.credit[m := 20] && v.book.experience == w.book.experience[m := 0])
  {
    if m !in w.book.credit {
      assert BookInv(w.book);
      hide WorldInv, BookInv, HasKey, Recorded, Apply;
      NoGrantYet(w.book, m);
      var known := w.book.(credit := w.book.credit[m := 0], experience := w.book.experience[m := 0]);
      if HasKey(w.book.entries, GrantKey(m)) {
        GrantStored(known, GrantOf(m));
      } else {
        OneApplies(known, GrantOf(m));
      }
    }
  }

  lemma GrantStored(b: Book, c: Command)
    requires HasKey(b.entries, c.key) && !Recorded(b.entries, c)
    ensures Apply(b, [c]).Failure?
  {
    hide HasKey, Recorded;
    assert [c][0] == c;
    assert !AllNew(b.entries, [c]) && !AllRecorded(b.entries, [c]);
  }

  lemma NoGrantYet(b: Book, m: MemberId)
    requires BookInv(b) && m !in b.credit
    ensures !Recorded(b.entries, GrantOf(m))
  {
    assert forall i | 0 <= i < |b.entries| :: b.entries[i].command.member in b.credit.Keys;
  }

  // ---------- batches about something else ----------

  /** A batch from outside the task workflows goes through exactly if its keys are those of transfers and
      manual entries and the batch contract of the ledger takes it; a new one moves every balance by what
      it brings, a stored one nothing, and no task is touched. */
  lemma EconomyMoves(w: World, cmds: seq<Command>)
    requires WorldInv(w)
    ensures Step(w, Economy(cmds)).Success? <==>
              && (forall i | 0 <= i < |cmds| :: cmds[i].key.TransferOut? || cmds[i].key.TransferIn? || cmds[i].key.ManualKey?)
              && (cmds == [] || Apply(w.book, cmds).Success?)
    ensures Step(w, Economy(cmds)).Success? ==>
              var v := After(w, Economy(cmds));
              && v == w.(book := v.book)
              && (if AllNew(w.book.entries, cmds) then MovedBy(w.book, v.book, cmds) else v.book == w.book)
  {
    hide Apply, BookInv, AllNew, Grew, AllRecorded, TasksSound, WithinLimit, Owned, RightPeople, Grounded;
    if Step(w, Economy(cmds)).Success? {
      SettleOutcome(w.book, cmds);
      var v := After(w, Economy(cmds));
      if AllNew(w.book.entries, cmds) {
        BalancesMove(w.book, v.book, cmds);
      }
    }
  }
}
