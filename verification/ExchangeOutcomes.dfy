/**
 What every accepted transaction does, read off the world before it and after it, and exactly when it
 is accepted: who is paid how much, which assignment moves where, and that nothing else changes.
 */
module ExchangeOutcomes {
  import opened Wrappers
  import opened Ledger
  import opened Tasks
  import opened Escrow
  import opened EscrowInvariants
  import opened EscrowSteps
  import opened EscrowPerformer
  import opened EscrowCreator
  import opened EscrowDeadline
  import opened Exchange
  import opened ExchangeInvariants
  import opened ExchangeRuns
  import opened Transitions

  // ---------- what a committed batch moves ----------

  /** What a batch brings one member. */
  function Given(cmds: seq<Command>, m: MemberId): int {
    if cmds == [] then 0
    else
      var last := cmds[|cmds| - 1];
      Given(cmds[..|cmds| - 1], m) + if last.member == m then last.credit else 0
  }

  lemma GivenOne(c: Command, m: MemberId)
    ensures Given([c], m) == if c.member == m then c.credit else 0
  {
    assert [c][..0] == [];
  }

  lemma GivenTwo(c: Command, d: Command, m: MemberId)
    ensures Given([c, d], m) == (if c.member == m then c.credit else 0) + (if d.member == m then d.credit else 0)
  {
    assert [c, d][..1] == [c];
    GivenOne(c, m);
  }

  lemma {:induction false} GrewCredits(before: seq<Entry>, after: seq<Entry>, cmds: seq<Command>, m: MemberId)
    requires Grew(before, after, cmds)
    ensures CreditSum(after, m) == CreditSum(before, m) + Given(cmds, m)
    decreases |cmds|
  {
    if cmds == [] {
      assert after == after[..|before|] == before;
    } else {
      var n := |cmds| - 1;
      var mid := after[..|after| - 1];
      assert mid[..|before|] == after[..|before|];
      GrewCredits(before, mid, cmds[..n], m);
      assert after[|before| + n].command == cmds[n];
    }
  }

  /** The balances of `p` and `q` have moved by these amounts, and nobody else's has. */
  ghost predicate Gains(b: Book, c: Book, p: MemberId, x: int, q: MemberId, y: int) {
    && c.credit.Keys == b.credit.Keys
    && forall m | m in b.credit && m in c.credit ::
         c.credit[m] == b.credit[m] + (if m == p then x else 0) + (if m == q then y else 0)
  }

  /** Apart from the ledger, nothing but this task has changed. */
  ghost predicate OnlyTask(w: World, v: World, tid: TaskId) {
    && tid in w.tasks && tid in v.tasks
    && v.now == w.now && v.limit == w.limit && v.drafts == w.drafts
    && v.tasks == w.tasks[tid := v.tasks[tid]]
  }

  /** Every balance has moved by what the batch brings its owner. */
  ghost predicate MovedBy(b: Book, c: Book, cmds: seq<Command>) {
    && c.credit.Keys == b.credit.Keys
    && Grew(b.entries, c.entries, cmds)
    && forall m | m in b.credit && m in c.credit :: c.credit[m] == b.credit[m] + Given(cmds, m)
  }

  lemma BalancesMove(b: Book, c: Book, cmds: seq<Command>)
    requires BookInv(b) && BookInv(c) && Grew(b.entries, c.entries, cmds) && c.credit.Keys == b.credit.Keys
    ensures MovedBy(b, c, cmds)
  {
    hide CreditSum, Given;
    forall m | m in b.credit && m in c.credit
      ensures c.credit[m] == b.credit[m] + Given(cmds, m)
    {
      GrewCredits(b.entries, c.entries, cmds, m);
    }
  }

  lemma CommitMoves(w: World, tid: TaskId, eff: Effect)
    requires BookInv(w.book) && tid in w.tasks && AllNew(w.book.entries, eff.commands)
    requires Commit(w, tid, Success(eff)).Success?
    ensures var v := Commit(w, tid, Success(eff)).value;
            && OnlyTask(w, v, tid) && v.tasks[tid] == eff.task && v.receipts == w.receipts && MovedBy(w.book, v.book, eff.commands)
            && (eff.commands == [] ==> v.book == w.book)
  {
    hide BookInv, AllNew, Grew, AllRecorded;
    SettleOutcome(w.book, eff.commands);
    BalancesMove(w.book, Commit(w, tid, Success(eff)).value.book, eff.commands);
    hide Settle;
  }

  lemma FreshIsNew(entries: seq<Entry>, tid: TaskId, cmds: seq<Command>)
    requires FreshBatch(entries, tid, cmds)
    ensures AllNew(entries, cmds)
  {
  }

  /** A job that goes through leaves its task as its workflow says, and moves every balance by what
      its batch brings. */
  lemma JobMoves(w: World, j: Job)
    requires WorldInv(w) && Step(w, Perform(j)).Success?
    ensures j.task in w.tasks && JobEffect(w, j).Success?
    ensures var v, eff := After(w, Perform(j)), JobEffect(w, j).value;
            OnlyTask(w, v, j.task) && j.task in v.tasks && v.tasks[j.task] == eff.task && MovedBy(w.book, v.book, eff.commands)
  {
    hide WorldInv, JobEffect, AllNew, BookInv, TaskInv, Grounded, FreshBatch, MovedBy, OnlyTask, Settle;
    Facts(w, j.task);
    JobIsFresh(w, j);
    FreshIsNew(w.book.entries, j.task, JobEffect(w, j).value.commands);
    CommitMoves(w, j.task, JobEffect(w, j).value);
  }

  lemma RequestMoves(w: World, update: UpdateId, r: Request)
    requires WorldInv(w) && update !in w.receipts && Step(w, Deliver(update, r)).Success?
    requires !r.PublishDraft? && r.task in w.tasks && RequestEffect(w, update, r).Success?
    requires AllNew(w.book.entries, RequestEffect(w, update, r).value.commands)
    ensures var v, eff := After(w, Deliver(update, r)), RequestEffect(w, update, r).value;
            && OnlyTask(w, v, r.task) && r.task in v.tasks && v.tasks[r.task] == eff.task && MovedBy(w.book, v.book, eff.commands)
            && v.receipts == w.receipts + {update} && (eff.commands == [] ==> v.book == w.book)
  {
    hide WorldInv, RequestEffect, AllNew, BookInv, TaskInv, Grounded, MovedBy, Settle;
    Facts(w, r.task);
    CommitMoves(w, r.task, RequestEffect(w, update, r).value);
  }

  lemma NobodyGains(b: Book, c: Book, p: MemberId, q: MemberId)
    requires MovedBy(b, c, [])
    ensures Gains(b, c, p, 0, q, 0)
  {
  }

  lemma OneGains(b: Book, c: Book, cmd: Command, p: MemberId, q: MemberId)
    requires MovedBy(b, c, [cmd]) && (cmd.member == p || cmd.member == q)
    ensures cmd.member == p ==> Gains(b, c, p, cmd.credit, q, 0)
    ensures cmd.member == q ==> Gains(b, c, p, 0, q, cmd.credit)
  {
    hide Given;
    forall m | m in b.credit
      ensures Given([cmd], m) == if cmd.member == m then cmd.credit else 0
    {
      GivenOne(cmd, m);
    }
  }

  lemma TwoGain(b: Book, c: Book, first: Command, second: Command)
    requires MovedBy(b, c, [first, second])
    ensures Gains(b, c, first.member, first.credit, second.member, second.credit)
  {
    hide Given;
    forall m | m in b.credit
      ensures Given([first, second], m)
           == (if m == first.member then first.credit else 0) + (if m == second.member then second.credit else 0)
    {
      GivenTwo(first, second, m);
    }
  }

  // ---------- resolving a dispute ----------

  /** What each code of a case means: the status it leaves, what it pays the performer, and what of the
      reward is left for the creator. */
  predicate CaseTable(code: ResolutionCode, status: AssignmentStatus, reward: nat, paid: int, left: int) {
    match code
    case FullPayment => status == Approved && paid == reward && left == 0
    case PartialPayment => status == PartiallyApproved && reward <= 2 * paid <= reward + 1 && left == reward - paid
    case FullRefund => status == Rejected && paid == 0 && left == reward
    case CancelWithoutFault => status == Cancelled && paid == 0 && left == reward
    case PerformerNoShow => status == NoShow && paid == 0 && left == reward
    case CreatorAbuse => status == Approved && paid == reward && left == 0
    case Fraud => status == Rejected && paid == 0 && left == reward
  }

  /** A resolution goes through exactly for a disputed assignment, and on a community task only with a
      code that knows no creator. */
  lemma CaseGoesThrough(w: World, tid: TaskId, i: nat, code: ResolutionCode, cid: nat)
    requires WorldInv(w)
    ensures Step(w, Perform(ResolveCase(tid, i, code, cid))).Success? <==>
              && tid in w.tasks && i < |w.tasks[tid].history| && w.tasks[tid].history[i].status == Disputed
              && (w.tasks[tid].origin == Community ==> code != CreatorAbuse && code != CancelWithoutFault)
  {
    hide WorldInv, Aggregated, ResolutionCommands, Settle;
    var j := ResolveCase(tid, i, code, cid);
    if tid in w.tasks && JobEffect(w, j).Success? {
      JobsNeverRefused(w, j);
    }
  }

  /** An assignment of which nothing had been booked has been paid and returned this much, on the ledger
      and on the balances of its performer and creator; nobody else has gained or lost. */
  ghost predicate PaysAndReturns(w: World, v: World, tid: TaskId, i: nat, paid: int, returned: int)
    requires tid in w.tasks && i < |w.tasks[tid].history|
  {
    && Booked(w.book.entries, PaidFor(tid, i)) == Booked(w.book.entries, ReturnedFor(tid, i)) == 0
    && Booked(v.book.entries, PaidFor(tid, i)) == paid
    && Booked(v.book.entries, ReturnedFor(tid, i)) == returned
    && Gains(w.book, v.book, w.tasks[tid].history[i].performer, paid, w.tasks[tid].creator, returned)
  }

  ghost predicate Unbooked(w: World, tid: TaskId, i: nat) {
    Booked(w.book.entries, PaidFor(tid, i)) == Booked(w.book.entries, ReturnedFor(tid, i)) == 0
  }

  lemma ActiveIsUnbooked(w: World, tid: TaskId, i: nat)
    requires WorldInv(w) && tid in w.tasks && i < |w.tasks[tid].history| && Is(Active, w.tasks[tid].history[i].status)
    ensures Unbooked(w, tid, i)
  {
    Facts(w, tid);
    assert SettledAsDue(w.book.entries, tid, w.tasks[tid], i);
  }

  lemma Nothing(w: World, v: World, tid: TaskId, i: nat)
    requires tid in w.tasks && i < |w.tasks[tid].history| && Unbooked(w, tid, i) && MovedBy(w.book, v.book, [])
    ensures PaysAndReturns(w, v, tid, i, 0, 0)
  {
    GrewBooks(w.book.entries, v.book.entries, [], PaidFor(tid, i));
    GrewBooks(w.book.entries, v.book.entries, [], ReturnedFor(tid, i));
    NobodyGains(w.book, v.book, w.tasks[tid].history[i].performer, w.tasks[tid].creator);
  }

  lemma OnePayment(w: World, v: World, tid: TaskId, i: nat, c: Command)
    requires tid in w.tasks && i < |w.tasks[tid].history| && Unbooked(w, tid, i) && MovedBy(w.book, v.book, [c])
    requires c.member == w.tasks[tid].history[i].performer && InColumn(PaidFor(tid, i), c.key)
    ensures PaysAndReturns(w, v, tid, i, c.credit, 0)
  {
    hide Booked, Asked, Given;
    AskedOne(c, PaidFor(tid, i));
    AskedOne(c, ReturnedFor(tid, i));
    GrewBooks(w.book.entries, v.book.entries, [c], PaidFor(tid, i));
    GrewBooks(w.book.entries, v.book.entries, [c], ReturnedFor(tid, i));
    OneGains(w.book, v.book, c, c.member, w.tasks[tid].creator);
  }

  lemma OneReturn(w: World, v: World, tid: TaskId, i: nat, c: Command)
    requires tid in w.tasks && i < |w.tasks[tid].history| && Unbooked(w, tid, i) && MovedBy(w.book, v.book, [c])
    requires c.member == w.tasks[tid].creator && InColumn(ReturnedFor(tid, i), c.key)
    ensures PaysAndReturns(w, v, tid, i, 0, c.credit)
  {
    hide Booked, Asked, Given;
    AskedOne(c, PaidFor(tid, i));
    AskedOne(c, ReturnedFor(tid, i));
    GrewBooks(w.book.entries, v.book.entries, [c], PaidFor(tid, i));
    GrewBooks(w.book.entries, v.book.entries, [c], ReturnedFor(tid, i));
    OneGains(w.book, v.book, c, w.tasks[tid].history[i].performer, c.member);
  }

  lemma PaymentAndReturn(w: World, v: World, tid: TaskId, i: nat, c: Command, d: Command)
    requires tid in w.tasks && i < |w.tasks[tid].history| && Unbooked(w, tid, i) && MovedBy(w.book, v.book, [c, d])
    requires c.member == w.tasks[tid].history[i].performer && InColumn(PaidFor(tid, i), c.key)
    requires d.member == w.tasks[tid].creator && InColumn(ReturnedFor(tid, i), d.key)
    ensures PaysAndReturns(w, v, tid, i, c.credit, d.credit)
  {
    hide Booked, Asked, Given;
    AskedTwo(c, d, PaidFor(tid, i));
    AskedTwo(c, d, ReturnedFor(tid, i));
    GrewBooks(w.book.entries, v.book.entries, [c, d], PaidFor(tid, i));
    GrewBooks(w.book.entries, v.book.entries, [c, d], ReturnedFor(tid, i));
    TwoGain(w.book, v.book, c, d);
  }

  /** Half the reward paid, and on a member task the rest returned. */
  lemma HalfAndRest(w: World, v: World, tid: TaskId, i: nat, pay: Key, back: Key)
    requires tid in w.tasks && i < |w.tasks[tid].history| && Unbooked(w, tid, i)
    requires MovedBy(w.book, v.book, PartialBatch(w.tasks[tid], w.tasks[tid].history[i].performer, pay, back))
    requires InColumn(PaidFor(tid, i), pay) && InColumn(ReturnedFor(tid, i), back)
    ensures var t := w.tasks[tid];
            PaysAndReturns(w, v, tid, i, HalfUp(t.reward), if t.origin == Member then t.reward - HalfUp(t.reward) else 0)
  {
    hide MovedBy, PaysAndReturns, Unbooked;
    var t := w.tasks[tid];
    var c := Earn(PartialKind(t), t.history[i].performer, HalfUp(t.reward), pay);
    var d := Refund(t.creator, t.reward - HalfUp(t.reward), back);
    if t.origin == Member && t.reward > HalfUp(t.reward) {
      assert PartialBatch(t, t.history[i].performer, pay, back) == [c, d];
      PaymentAndReturn(w, v, tid, i, c, d);
    } else {
      assert PartialBatch(t, t.history[i].performer, pay, back) == [c];
      OnePayment(w, v, tid, i, c);
    }
  }

  /** Ending one assignment and rederiving the status of its task changes nothing else in it. */
  lemma EndedMoves(t: Task, i: nat, done: Assignment, now: int)
    requires i < |t.history| && Is(Active, t.history[i].status)
    requires done.slot == t.history[i].slot && done.performer == t.history[i].performer
    ensures var u := Aggregated(WithAssignment(t, i, done), now);
            Moved(t, u, i) && u.history[i] == done && u.requests == t.requests
  {
    hide Derive;
  }

  /** By its code, a resolution pays the performer, returns the rest of a member task's reward to the
      creator, and leaves the assignment in the status of the table; nobody else gains or loses, and
      no other assignment or task moves. */
  lemma CaseSettles(w: World, tid: TaskId, i: nat, code: ResolutionCode, cid: nat) returns (paid: int, left: int)
    requires WorldInv(w) && Step(w, Perform(ResolveCase(tid, i, code, cid))).Success?
    ensures tid in w.tasks && i < |w.tasks[tid].history|
    ensures var v := After(w, Perform(ResolveCase(tid, i, code, cid)));
            && OnlyTask(w, v, tid) && Moved(w.tasks[tid], v.tasks[tid], i)
            && CaseTable(code, v.tasks[tid].history[i].status, w.tasks[tid].reward, paid, left)
            && v.tasks[tid].history[i].outcome == Some(Resolved(code)) && v.tasks[tid].history[i].command == Some(cid)
            && v.tasks[tid].requests == w.tasks[tid].requests
            && PaysAndReturns(w, v, tid, i, paid, if w.tasks[tid].origin == Member then left else 0)
  {
    hide WorldInv, Aggregated, MovedBy, PaysAndReturns, Unbooked, Settle, OnlyTask, After;
    var j := ResolveCase(tid, i, code, cid);
    CaseGoesThrough(w, tid, i, code, cid);
    JobMoves(w, j);
    var v, t := After(w, Perform(j)), w.tasks[tid];
    ActiveIsUnbooked(w, tid, i);
    EndedMoves(t, i, t.history[i].(status := ResolvedStatus(code), outcome := Some(Resolved(code)), command := Some(cid)), w.now);
    hide Step, Moved;
    var s := ResolvedStatus(code);
    if s == Approved {
      paid, left := t.reward, 0;
      OnePayment(w, v, tid, i, Earn(FullKind(t), t.history[i].performer, t.reward, CaseFull(tid, i)));
    } else if s == PartiallyApproved {
      paid, left := HalfUp(t.reward), t.reward - HalfUp(t.reward);
      assert ResolutionCommands(tid, t, i, code) == PartialBatch(t, t.history[i].performer, CasePartial(tid, i), CaseRemainder(tid, i));
      HalfAndRest(w, v, tid, i, CasePartial(tid, i), CaseRemainder(tid, i));
    } else {
      paid, left := 0, t.reward;
      if t.origin == Member {
        OneReturn(w, v, tid, i, Refund(t.creator, t.reward, CaseRefund(tid, i)));
      } else {
        Nothing(w, v, tid, i);
      }
    }
  }

  // ---------- reviewing ----------

  /** What each decision means: the status it leaves, what it pays, and what of the reward it frees. */
  predicate DecisionTable(d: Decision, status: AssignmentStatus, reward: nat, paid: int, left: int) {
    match d
    case Full => status == Approved && paid == reward && left == 0
    case Partial => status == PartiallyApproved && reward <= 2 * paid <= reward + 1 && left == reward - paid
    case Reject => status == RejectedPendingDispute && paid == 0 && left == 0
  }

  predicate DecidedAs(a: Assignment, d: Decision, cid: nat) {
    && a.status in {Approved, PartiallyApproved, RejectedPendingDispute}
    && a.outcome == Some(Decided(d)) && a.command == Some(cid)
  }

  /** A review goes through exactly if it is the first and in time, and does not split a single credit,
      or repeats the decision that was made. */
  lemma ReviewGoesThrough(w: World, u: UpdateId, tid: TaskId, i: nat, d: Decision, cid: nat)
    requires WorldInv(w) && u !in w.receipts
    ensures Step(w, Deliver(u, Review(tid, i, d, cid))).Success? <==>
              && tid in w.tasks && i < |w.tasks[tid].history|
              && var a := w.tasks[tid].history[i];
                 DecidedAs(a, d, cid) || (Reviewable(a, w.now) && (d == Partial ==> w.tasks[tid].reward >= 2))
  {
    hide WorldInv, Aggregated, DecisionCommands, Settle;
    var r := Review(tid, i, d, cid);
    if tid in w.tasks && RequestEffect(w, u, r).Success? {
      SettlingRequestsNeverRefused(w, u, r);
    }
  }

  lemma SettlingIsNew(w: World, u: UpdateId, r: Request)
    requires WorldInv(w) && SettlesSomething(r) && r.task in w.tasks && RequestEffect(w, u, r).Success?
    ensures AllNew(w.book.entries, RequestEffect(w, u, r).value.commands)
  {
    hide WorldInv, RequestEffect, AllNew, FreshBatch;
    RequestIsFresh(w, u, r);
    FreshIsNew(w.book.entries, r.task, RequestEffect(w, u, r).value.commands);
  }

  lemma HandledOf(w: World, u: UpdateId, r: Request)
    requires u !in w.receipts && Step(w, Deliver(u, r)).Success? && !r.PublishDraft?
    ensures r.task in w.tasks && RequestEffect(w, u, r).Success?
  {
    hide RequestEffect, Settle;
  }

  /** A first decision pays, returns and leaves the status of its table, and is recorded with its
      command; nobody else gains or loses, and no other assignment or task moves. */
  lemma DecisionSettles(w: World, u: UpdateId, tid: TaskId, i: nat, d: Decision, cid: nat) returns (paid: int, left: int)
    requires WorldInv(w) && u !in w.receipts && Step(w, Deliver(u, Review(tid, i, d, cid))).Success?
    ensures tid in w.tasks && i < |w.tasks[tid].history|
    ensures var v, t := After(w, Deliver(u, Review(tid, i, d, cid))), w.tasks[tid];
            Reviewable(t.history[i], w.now) ==>
              && OnlyTask(w, v, tid) && Moved(t, v.tasks[tid], i) && v.tasks[tid].requests == t.requests
              && DecisionTable(d, v.tasks[tid].history[i].status, t.reward, paid, left)
              && DecidedAs(v.tasks[tid].history[i], d, cid)
              && (d == Reject ==> v.tasks[tid].history[i].rejectedAt == Some(w.now)
                                  && v.tasks[tid].history[i].disputeDeadline == Some(w.now + 24 * 3600))
              && PaysAndReturns(w, v, tid, i, paid, if t.origin == Member then left else 0)
  {
    hide WorldInv, Aggregated, MovedBy, PaysAndReturns, Unbooked, Settle, OnlyTask, After, AllNew, MayBecome;
    paid, left := 0, 0;
    var r := Review(tid, i, d, cid);
    HandledOf(w, u, r);
    SettlingIsNew(w, u, r);
    RequestMoves(w, u, r);
    hide Step;
    var v, t := After(w, Deliver(u, r)), w.tasks[tid];
    if Reviewable(t.history[i], w.now) {
      ActiveIsUnbooked(w, tid, i);
      EndedMoves(t, i, t.history[i].(status := DecidedStatus(d), outcome := Some(Decided(d)), command := Some(cid)), w.now);
      match d
      case Full =>
        paid, left := t.reward, 0;
        OnePayment(w, v, tid, i, Earn(FullKind(t), t.history[i].performer, t.reward, OutcomeReward(tid, i, Approved)));
      case Partial =>
        paid, left := HalfUp(t.reward), t.reward - HalfUp(t.reward);
        HalfAndRest(w, v, tid, i, OutcomeReward(tid, i, PartiallyApproved), OutcomeRefund(tid, i, PartiallyApproved));
      case Reject =>
        Nothing(w, v, tid, i);
    }
  }

  /** Repeating a decision only leaves the receipt of its update. */
  lemma RepeatedDecision(w: World, u: UpdateId, tid: TaskId, i: nat, d: Decision, cid: nat)
    requires u !in w.receipts && tid in w.tasks && i < |w.tasks[tid].history| && DecidedAs(w.tasks[tid].history[i], d, cid)
    ensures After(w, Deliver(u, Review(tid, i, d, cid))) == w.(receipts := w.receipts + {u})
  {
    assert w.tasks[tid := w.tasks[tid]] == w.tasks;
  }

  // ---------- the scheduler ----------

  /** The review job goes through exactly if the assignment is not waiting for review, or its window is
      over. */
  lemma ReviewJobGoesThrough(w: World, tid: TaskId, i: nat, cid: nat, fit: bool)
    requires WorldInv(w)
    ensures Step(w, Perform(ReviewDue(tid, i, cid, fit))).Success? <==>
              && tid in w.tasks && i < |w.tasks[tid].history|
              && (w.tasks[tid].history[i].status == Submitted ==> Passed(w.tasks[tid].history[i].reviewDeadline, w.now))
  {
    hide WorldInv, Aggregated, Settle;
    var j := ReviewDue(tid, i, cid, fit);
    if tid in w.tasks && JobEffect(w, j).Success? {
      JobsNeverRefused(w, j);
    }
  }

  /** What is not waiting for review stays as it is. A submission is paid in full, unless it is one of a
      community task whose reviewer is unfit, which then waits for another reviewer. */
  lemma ReviewJobSettles(w: World, tid: TaskId, i: nat, cid: nat, fit: bool)
    requires WorldInv(w) && Step(w, Perform(ReviewDue(tid, i, cid, fit))).Success?
    ensures tid in w.tasks && i < |w.tasks[tid].history|
    ensures var v, t := After(w, Perform(ReviewDue(tid, i, cid, fit))), w.tasks[tid];
            && (t.history[i].status != Submitted ==> v == w)
            && (t.history[i].status == Submitted ==>
                  && OnlyTask(w, v, tid) && Moved(t, v.tasks[tid], i) && v.tasks[tid].requests == t.requests
                  && v.tasks[tid].history[i].status == (if t.origin == Member || fit then Approved else ReviewerRequired)
                  && (t.origin == Member || fit ==>
                        v.tasks[tid].history[i].outcome == Some(Autoconfirmed) && v.tasks[tid].history[i].command == Some(cid))
                  && PaysAndReturns(w, v, tid, i, if t.origin == Member || fit then t.reward else 0, 0))
  {
    hide WorldInv, Aggregated, MovedBy, PaysAndReturns, Unbooked, Settle, OnlyTask, AllNew, MayBecome;
    var j := ReviewDue(tid, i, cid, fit);
    JobMoves(w, j);
    var v, t := After(w, Perform(j)), w.tasks[tid];
    if t.history[i].status == Submitted {
      ActiveIsUnbooked(w, tid, i);
      EndedMoves(t, i, t.history[i].(status := Approved, outcome := Some(Autoconfirmed), command := Some(cid)), w.now);
      hide Step, After;
      if t.origin == Member || fit {
        OnePayment(w, v, tid, i, Earn(FullKind(t), t.history[i].performer, t.reward, OutcomeReward(tid, i, Approved)));
      } else {
        Nothing(w, v, tid, i);
      }
    } else {
      assert w.tasks[tid := t] == w.tasks;
      SettleNothing(w.book);
    }
  }

  /** The rejection job goes through exactly if there is no rejection open to dispute, or its window is
      over. */
  lemma RejectionJobGoesThrough(w: World, tid: TaskId, i: nat, cid: nat)
    requires WorldInv(w)
    ensures Step(w, Perform(RejectionDue(tid, i, cid))).Success? <==>
              && tid in w.tasks && i < |w.tasks[tid].history|
              && (w.tasks[tid].history[i].status == RejectedPendingDispute ==> Passed(w.tasks[tid].history[i].disputeDeadline, w.now))
  {
    hide WorldInv, Aggregated, Settle;
    var j := RejectionDue(tid, i, cid);
    if tid in w.tasks && JobEffect(w, j).Success? {
      JobsNeverRefused(w, j);
    }
  }

  /** An undisputed rejection becomes final, and the reward of a member task goes back whole. */
  lemma RejectionJobSettles(w: World, tid: TaskId, i: nat, cid: nat)
    requires WorldInv(w) && Step(w, Perform(RejectionDue(tid, i, cid))).Success?
    ensures tid in w.tasks && i < |w.tasks[tid].history|
    ensures var v, t := After(w, Perform(RejectionDue(tid, i, cid))), w.tasks[tid];
            && (t.history[i].status != RejectedPendingDispute ==> v == w)
            && (t.history[i].status == RejectedPendingDispute ==>
                  && OnlyTask(w, v, tid) && Moved(t, v.tasks[tid], i) && v.tasks[tid].requests == t.requests
                  && v.tasks[tid].history[i].status == Rejected
                  && v.tasks[tid].history[i].outcome == Some(RejectionFinal) && v.tasks[tid].history[i].command == Some(cid)
                  && PaysAndReturns(w, v, tid, i, 0, if t.origin == Member then t.reward else 0))
  {
    hide WorldInv, Aggregated, MovedBy, PaysAndReturns, Unbooked, Settle, OnlyTask, AllNew, MayBecome;
    var j := RejectionDue(tid, i, cid);
    JobMoves(w, j);
    var v, t := After(w, Perform(j)), w.tasks[tid];
    if t.history[i].status == RejectedPendingDispute {
      ActiveIsUnbooked(w, tid, i);
      EndedMoves(t, i, t.history[i].(status := Rejected, outcome := Some(RejectionFinal), command := Some(cid)), w.now);
      hide Step, After;
      if t.origin == Member {
        OneReturn(w, v, tid, i, Refund(t.creator, t.reward, OutcomeRefund(tid, i, Rejected)));
      } else {
        Nothing(w, v, tid, i);
      }
    } else {
      assert w.tasks[tid := t] == w.tasks;
      SettleNothing(w.book);
    }
  }

  // ---------- performers ----------

  /** A request for a slot goes through exactly if the member is known, new to the task, not its creator
      and below the limit, and the task is open, in time, not waiting for consent, and has a slot nobody
      holds. */
  lemma AcceptGoesThrough(w: World, u: UpdateId, tid: TaskId, m: MemberId)
    requires WorldInv(w) && u !in w.receipts
    ensures Step(w, Deliver(u, AcceptSlot(tid, m))).Success? <==>
              && tid in w.tasks && m in w.book.credit
              && var t := w.tasks[tid];
                 && t.status == Published && !HasPending(t) && w.now < t.deadline
                 && (forall i | 0 <= i < |t.history| :: t.history[i].performer != m)
                 && (t.origin == Member ==> m != t.creator)
                 && |ActiveTasks(w.tasks, m)| < w.limit && Count(t.history, Live) < t.slots
  {
    hide WorldInv, SlotHeld, FreeSlotFrom, ActiveTasks, HasPending, TaskInv, Shape;
    if tid in w.tasks {
      Facts(w, tid);
      FreeSlotExists(w.tasks[tid], w.now, w.book.entries, tid);
    }
  }

  lemma FreeSlotExists(t: Task, now: int, entries: seq<Entry>, tid: TaskId)
    requires TaskInv(entries, tid, t, now)
    ensures FreeSlotFrom(t.history, 1, t.slots).Some? <==> Count(t.history, Live) < t.slots
  {
    assert Shape(t);
    hide TaskInv, Shape, SlotHeld, FreeSlotFrom, Count, SlotsOf;
    OccupiedFits(t);
    SomeSlotIsFree(t);
  }

  /** The slots of a task, by number. */
  function Numbers(n: nat): (s: set<nat>)
    ensures forall k :: k in s <==> 1 <= k <= n
    ensures |s| == n
  {
    if n == 0 then {} else Numbers(n - 1) + {n}
  }

  lemma SomeSlotIsFree(t: Task)
    requires Shape(t)
    ensures FreeSlotFrom(t.history, 1, t.slots).Some? <==> |SlotsOf(t.history, Live)| < t.slots
  {
    hide SlotsOf, FreeSlotFrom, SlotHeld, Numbers;
    var held, all := SlotsOf(t.history, Live), Numbers(t.slots);
    OccupiedFits(t);
    match FreeSlotFrom(t.history, 1, t.slots)
    case Some(s) =>
      HeldSlots(t.history, s);
      assert held <= all - {s};
      SubsetSize(held, all - {s});
    case None =>
      forall k | k in all
        ensures k in held
      {
        HeldSlots(t.history, k);
      }
      SubsetSize(all, held);
  }

  /** Then the task has one more assignment, on the lowest slot nobody held, and nothing else changes. */
  lemma AcceptTakesSlot(w: World, u: UpdateId, tid: TaskId, m: MemberId)
    requires WorldInv(w) && u !in w.receipts && Step(w, Deliver(u, AcceptSlot(tid, m))).Success?
    ensures var v := After(w, Deliver(u, AcceptSlot(tid, m)));
            && OnlyTask(w, v, tid) && v.book == w.book && |v.tasks[tid].history| == |w.tasks[tid].history| + 1
            && var t, a := w.tasks[tid], v.tasks[tid].history[|w.tasks[tid].history|];
               && v.tasks[tid] == t.(history := t.history + [a])
               && a == Assignment(m, a.slot, Accepted, None, None, None, None, None)
               && MayJoin(t, w.now, a)
  {
    hide WorldInv, SlotHeld, FreeSlotFrom, ActiveTasks, HasPending;
    HandledOf(w, u, AcceptSlot(tid, m));
    RequestMoves(w, u, AcceptSlot(tid, m));
    LowerSlotsHeld(w.tasks[tid].history, 1, w.tasks[tid].slots);
  }

  /** Every pending request has lapsed, with the answers still missing; the others are as they were. */
  ghost predicate Lapsed(was: seq<CancelRequest>, now': seq<CancelRequest>) {
    && |now'| == |was|
    && forall q | 0 <= q < |was| ::
         if was[q].status != Pending then now'[q] == was[q]
         else
           && now'[q].status == Obsolete && |now'[q].responses| == |was[q].responses|
           && forall k | 0 <= k < |was[q].responses| ::
                && now'[q].responses[k].index == was[q].responses[k].index
                && now'[q].responses[k].status
                   == if was[q].responses[k].status == Unanswered then Withdrawn else was[q].responses[k].status
  }

  lemma WithdrawnLapse(qs: seq<CancelRequest>)
    ensures Lapsed(qs, WithdrawPending(qs))
  {
  }

  /** A submission goes through exactly for an accepted assignment before the deadline; it opens the
      review window, lets a pending request lapse, and changes nothing else. */
  lemma Submits(w: World, u: UpdateId, tid: TaskId, i: nat)
    requires WorldInv(w) && u !in w.receipts
    ensures var v := After(w, Deliver(u, SubmitResult(tid, i)));
            && (Step(w, Deliver(u, SubmitResult(tid, i))).Success? <==>
                  && tid in w.tasks && i < |w.tasks[tid].history|
                  && w.tasks[tid].history[i].status == Accepted && w.now < w.tasks[tid].deadline)
            && (Step(w, Deliver(u, SubmitResult(tid, i))).Success? ==>
                  && OnlyTask(w, v, tid) && v.book == w.book && Moved(w.tasks[tid], v.tasks[tid], i)
                  && v.tasks[tid].status == w.tasks[tid].status && v.tasks[tid].history[i].status == Submitted
                  && v.tasks[tid].history[i].reviewDeadline
                     == (if w.tasks[tid].history[i].reviewDeadline.None? then Some(w.now + 72 * 3600)
                         else w.tasks[tid].history[i].reviewDeadline)
                  && Lapsed(w.tasks[tid].requests, v.tasks[tid].requests))
  {
    hide WorldInv, WithdrawPending, Lapsed, MovedBy;
    var r := SubmitResult(tid, i);
    if Step(w, Deliver(u, r)).Success? {
      HandledOf(w, u, r);
      RequestMoves(w, u, r);
      WithdrawnLapse(w.tasks[tid].requests);
    }
  }

  /** A dispute goes through exactly within the window of its rejection; it only marks the assignment. */
  lemma Disputes(w: World, u: UpdateId, tid: TaskId, i: nat)
    requires WorldInv(w) && u !in w.receipts
    ensures var v := After(w, Deliver(u, OpenDispute(tid, i)));
            && (Step(w, Deliver(u, OpenDispute(tid, i))).Success? <==>
                  && tid in w.tasks && i < |w.tasks[tid].history|
                  && var a := w.tasks[tid].history[i];
                     && a.status == RejectedPendingDispute && Passed(a.rejectedAt, w.now)
                     && a.disputeDeadline.Some? && w.now < a.disputeDeadline.value)
            && (Step(w, Deliver(u, OpenDispute(tid, i))).Success? ==>
                  && OnlyTask(w, v, tid) && v.book == w.book && Moved(w.tasks[tid], v.tasks[tid], i)
                  && v.tasks[tid].status == w.tasks[tid].status && v.tasks[tid].requests == w.tasks[tid].requests
                  && v.tasks[tid].history[i] == w.tasks[tid].history[i].(status := Disputed))
  {
    hide WorldInv, MovedBy;
    var r := OpenDispute(tid, i);
    if Step(w, Deliver(u, r)).Success? {
      HandledOf(w, u, r);
      RequestMoves(w, u, r);
    }
  }

  /** Leaving goes through exactly for an accepted assignment. */
  lemma LeaveGoesThrough(w: World, u: UpdateId, tid: TaskId, i: nat)
    requires WorldInv(w) && u !in w.receipts
    ensures Step(w, Deliver(u, LeaveSlot(tid, i))).Success? <==>
              tid in w.tasks && i < |w.tasks[tid].history| && w.tasks[tid].history[i].status == Accepted
  {
    hide WorldInv, SlotsOf, WithdrawPending, Settle;
    var r := LeaveSlot(tid, i);
    if tid in w.tasks && RequestEffect(w, u, r).Success? {
      SettlingRequestsNeverRefused(w, u, r);
    }
  }

  /** It cancels the assignment and lets a pending request lapse. The reward of its slot goes back, and
      the task ends, exactly if it is the last active one of a member task closed for new performers. */
  lemma LeaveSettles(w: World, u: UpdateId, tid: TaskId, i: nat)
    requires WorldInv(w) && u !in w.receipts && Step(w, Deliver(u, LeaveSlot(tid, i))).Success?
    ensures tid in w.tasks && i < |w.tasks[tid].history|
    ensures var v, t := After(w, Deliver(u, LeaveSlot(tid, i))), w.tasks[tid];
            var ends := t.status == ClosedForNewPerformers && t.origin == Member && Count(t.history, Active) == 1;
            && OnlyTask(w, v, tid) && Moved(t, v.tasks[tid], i) && Lapsed(t.requests, v.tasks[tid].requests)
            && v.tasks[tid].history[i].status == Cancelled
            && v.tasks[tid].status == (if ends then TaskCancelled else t.status)
            && PaysAndReturns(w, v, tid, i, 0, if ends then t.reward else 0)
  {
    hide WorldInv, Lapsed, MovedBy, PaysAndReturns, Unbooked, OnlyTask, After, AllNew, Moved, Count, Shape, TaskInv, Consent, Lifecycle, Grounded, BookInv, CancelAssignment;
    var r := LeaveSlot(tid, i);
    LeaveGoesThrough(w, u, tid, i);
    HandledOf(w, u, r);
    SettlingIsNew(w, u, r);
    RequestMoves(w, u, r);
    hide Step;
    Facts(w, tid);
    var v, t := After(w, Deliver(u, r)), w.tasks[tid];
    ShapeOf(w.book.entries, tid, t, w.now);
    ActiveIsUnbooked(w, tid, i);
    LeaveEffect(tid, t, i);
    if t.status == ClosedForNewPerformers && t.origin == Member && Count(t.history, Active) == 1 {
      OneReturn(w, v, tid, i, Refund(t.creator, t.reward, SlotCancelRefund(tid, i)));
    } else {
      Nothing(w, v, tid, i);
    }
  }

  lemma LeaveEffect(tid: TaskId, t: Task, i: nat)
    requires Shape(t) && i < |t.history| && t.history[i].status == Accepted
    ensures CancelAssignment(tid, t, i).Success?
    ensures var u := CancelAssignment(tid, t, i).value.task;
            var ends := t.status == ClosedForNewPerformers && t.origin == Member && Count(t.history, Active) == 1;
            && Moved(t, u, i) && Lapsed(t.requests, u.requests) && u.history[i].status == Cancelled
            && u.status == (if ends then TaskCancelled else t.status)
            && CancelAssignment(tid, t, i).value.commands
               == if ends then [Refund(t.creator, t.reward, SlotCancelRefund(tid, i))] else []
  {
    hide Shape, Count, SlotsOf, WithdrawPending, Lapsed;
    EndingCounts(t, i, t.history[i].(status := Cancelled));
    WithdrawnLapse(t.requests);
  }

  lemma ShapeOf(entries: seq<Entry>, tid: TaskId, t: Task, now: int)
    requires TaskInv(entries, tid, t, now)
    ensures Shape(t) && Consent(t) && Lifecycle(t, now)
  {
  }

  // ---------- answers to a request to cancel ----------

  /** The answer is still missing, in a pending request of a task that performers may still be in. */
  predicate Awaited(t: Task, q: nat, k: nat) {
    && q < |t.requests| && k < |t.requests[q].responses|
    && t.requests[q].status == Pending && t.requests[q].responses[k].status == Unanswered
    && (t.status == Published || t.status == ClosedForNewPerformers)
  }

  /** An answer goes through exactly if it is awaited, or its request has lapsed. */
  lemma AnswerGoesThrough(w: World, u: UpdateId, tid: TaskId, q: nat, k: nat, consent: bool)
    requires WorldInv(w) && u !in w.receipts
    ensures Step(w, Deliver(u, Respond(tid, q, k, consent))).Success? <==>
              && tid in w.tasks && w.tasks[tid].origin == Member
              && q < |w.tasks[tid].requests| && k < |w.tasks[tid].requests[q].responses|
              && (w.tasks[tid].requests[q].status == Obsolete || Awaited(w.tasks[tid], q, k))
  {
    hide WorldInv, SlotsOf, Settle, Answered, Withdraw;
    var r := Respond(tid, q, k, consent);
    if tid in w.tasks && RequestEffect(w, u, r).Success? {
      SettlingRequestsNeverRefused(w, u, r);
    }
  }

  /** The first answer in time is recorded as what it says, the others stay as they were, and the request
      is completed once none is missing. */
  ghost predicate Records(t: Task, v: Task, q: nat, k: nat, consent: bool)
    requires q < |t.requests| && k < |t.requests[q].responses|
  {
    && |v.requests| == |t.requests| && (forall p | 0 <= p < |t.requests| && p != q :: v.requests[p] == t.requests[p])
    && |v.requests[q].responses| == |t.requests[q].responses|
    && v.requests[q].responses[k] == Response(t.requests[q].responses[k].index, if consent then Consented else Declined)
    && (forall j | 0 <= j < |t.requests[q].responses| && j != k :: v.requests[q].responses[j] == t.requests[q].responses[j])
    && v.requests[q].status == if AllAnswered(v.requests[q]) then RequestCompleted else Pending
  }

  lemma AnswerRecords(t: Task, v: Task, q: nat, k: nat, consent: bool)
    requires Awaited(t, q, k) && v.requests == Answered(t, q, k, if consent then Consented else Declined).requests
    ensures Records(t, v, q, k, consent)
  {
  }

  /** Of an awaited answer, in time. A refusal changes nothing but the request. A consent cancels the
      assignment asked about, returns the reward of its slot, and ends the task if it was the last active
      one; nobody else gains or loses. */
  lemma AnswerSettles(w: World, u: UpdateId, tid: TaskId, q: nat, k: nat, consent: bool)
    requires WorldInv(w) && u !in w.receipts && Step(w, Deliver(u, Respond(tid, q, k, consent))).Success?
    requires tid in w.tasks && Awaited(w.tasks[tid], q, k) && w.now < w.tasks[tid].deadline
    ensures var v, t := After(w, Deliver(u, Respond(tid, q, k, consent))), w.tasks[tid];
            var i := t.requests[q].responses[k].index;
            && OnlyTask(w, v, tid) && Records(t, v.tasks[tid], q, k, consent)
            && i < |t.history| && t.history[i].status == Accepted
            && (!consent ==> v.book == w.book && v.tasks[tid] == t.(requests := v.tasks[tid].requests))
            && (consent ==>
                  && Moved(t, v.tasks[tid], i) && v.tasks[tid].history[i].status == Cancelled
                  && v.tasks[tid].status == (if Count(t.history, Active) == 1 then TaskCancelled else t.status)
                  && PaysAndReturns(w, v, tid, i, 0, t.reward))
  {
    hide WorldInv, Answered, Records, MovedBy, PaysAndReturns, Unbooked, OnlyTask, After, AllNew, SlotsOf, Count, Shape, TaskInv, Awaited, Consent;
    var r := Respond(tid, q, k, consent);
    HandledOf(w, u, r);
    SettlingIsNew(w, u, r);
    RequestMoves(w, u, r);
    hide Step;
    Facts(w, tid);
    var v, t := After(w, Deliver(u, r)), w.tasks[tid];
    ShapeOf(w.book.entries, tid, t, w.now);
    AwaitedIsAccepted(t, q, k);
    AwaitedAnswer(tid, t, w.now, q, k, consent);
    var i := t.requests[q].responses[k].index;
    hide RespondCancellation;
    AnswerRecords(t, v.tasks[tid], q, k, consent);
    if consent {
      EndingCounts(t, i, t.history[i].(status := Cancelled));
      ActiveIsUnbooked(w, tid, i);
      OneReturn(w, v, tid, i, Refund(t.creator, t.reward, SlotCancelRefund(tid, i)));
    }
  }

  lemma AwaitedIsAccepted(t: Task, q: nat, k: nat)
    requires Consent(t) && Awaited(t, q, k)
    ensures var i := t.requests[q].responses[k].index;
            i < |t.history| && t.history[i].status == Accepted
  {
    assert ResponseSound(t, 0, k);
  }

  lemma AwaitedAnswer(tid: TaskId, t: Task, now: int, q: nat, k: nat, consent: bool)
    requires Awaited(t, q, k) && now < t.deadline && t.origin == Member
    requires t.requests[q].responses[k].index < |t.history| && t.history[t.requests[q].responses[k].index].status == Accepted
    ensures RespondCancellation(tid, t, now, q, k, consent).Success?
    ensures var i, eff := t.requests[q].responses[k].index, RespondCancellation(tid, t, now, q, k, consent).value;
            && eff.task.requests == Answered(t, q, k, if consent then Consented else Declined).requests
            && (!consent ==> eff.commands == [] && eff.task == t.(requests := eff.task.requests))
            && (consent ==>
                  && eff.commands == [Refund(t.creator, t.reward, SlotCancelRefund(tid, i))]
                  && Moved(t, eff.task, i) && eff.task.history == t.history[i := t.history[i].(status := Cancelled)]
                  && eff.task.status == if SlotsOf(eff.task.history, Active) == {} then TaskCancelled else t.status)
  {
    hide SlotsOf, AllAnswered;
  }

  /** An answer that is awaited but late lets its request lapse instead; an answer to a lapsed request
      changes nothing. No money moves either way. */
  lemma LateAnswer(w: World, u: UpdateId, tid: TaskId, q: nat, k: nat, consent: bool)
    requires WorldInv(w) && u !in w.receipts && Step(w, Deliver(u, Respond(tid, q, k, consent))).Success?
    requires tid in w.tasks && (Awaited(w.tasks[tid], q, k) ==> w.now >= w.tasks[tid].deadline)
    ensures var v, t := After(w, Deliver(u, Respond(tid, q, k, consent))), w.tasks[tid];
            && OnlyTask(w, v, tid) && v.book == w.book && v.tasks[tid] == t.(requests := v.tasks[tid].requests)
            && (if Awaited(t, q, k) then Lapsed(t.requests, v.tasks[tid].requests) else v.tasks[tid] == t)
  {
    hide WorldInv, Answered, Lapsed, MovedBy, PaysAndReturns, Unbooked, OnlyTask, After, AllNew, SlotsOf, Consent, TaskInv, Withdraw, WithdrawPending;
    var r := Respond(tid, q, k, consent);
    HandledOf(w, u, r);
    AnswerGoesThrough(w, u, tid, q, k, consent);
    SettlingIsNew(w, u, r);
    RequestMoves(w, u, r);
    hide Step;
    Facts(w, tid);
    var t := w.tasks[tid];
    ShapeOf(w.book.entries, tid, t, w.now);
    if Awaited(t, q, k) {
      OneRequest(t);
      WithdrawnLapse(t.requests);
    }
  }

  lemma OneRequest(t: Task)
    requires Consent(t) && t.requests != [] && t.requests[0].status == Pending
    ensures |t.requests| == 1 && WithdrawPending(t.requests) == t.requests[0 := Withdraw(t.requests[0])]
  {
  }

  // ---------- the deadline ----------

  lemma {:induction false} OneOwner(cmds: seq<Command>, tid: TaskId, p: MemberId, m: MemberId)
    requires forall k | 0 <= k < |cmds| :: cmds[k].member == p && TaskOf(cmds[k].key) == Some(tid)
    ensures Given(cmds, m) == if m == p then Asked(cmds, Escrowed(tid)) else 0
  {
    if cmds != [] {
      OneOwner(cmds[..|cmds| - 1], tid, p, m);
    }
  }

  /** How many slots the pass gives back: those of the no-shows, and while the task is open those that
      nobody holds. */
  ghost function GivenBack(t: Task): int {
    AcceptedCount(t.history) + if t.status == Published then t.slots - Count(t.history, Live) else 0
  }

  lemma GivenNothing()
    ensures forall m :: Given([], m) == 0
  {
  }

  lemma DeadlineCreatorOnly(tid: TaskId, t: Task)
    ensures forall k | 0 <= k < |DeadlineCommands(tid, t)| ::
              DeadlineCommands(tid, t)[k].member == t.creator && TaskOf(DeadlineCommands(tid, t)[k].key) == Some(tid)
  {
    hide DeadlineCommands, NoShowRefunds, SlotsOf;
    DeadlineAboutTask(tid, t);
    forall k | 0 <= k < |DeadlineCommands(tid, t)|
      ensures DeadlineCommands(tid, t)[k].member == t.creator
    {
      DeadlineKeyKinds(tid, t, k);
      assert RightPerson(DeadlineCommands(tid, t)[k], t);
    }
  }

  lemma DeadlineKeyKinds(tid: TaskId, t: Task, k: nat)
    requires k < |DeadlineCommands(tid, t)|
    ensures DeadlineCommands(tid, t)[k].key.OutcomeRefund? || DeadlineCommands(tid, t)[k].key.UnfilledRefund?
  {
    hide NoShowRefunds, LatestBySlot, SlotsOf, Unfilled, Refund;
    NoShowBatch(tid, t, |t.history|);
    var missed := NoShowRefunds(tid, t, |t.history|);
    if t.origin == Member {
      if k < |missed| {
        assert DeadlineCommands(tid, t)[k] == missed[k];
      } else {
        assert DeadlineCommands(tid, t)[k] == Refund(t.creator, t.reward * Unfilled(t), UnfilledRefund(tid));
        RefundKey(t.creator, t.reward * Unfilled(t), UnfilledRefund(tid));
      }
    }
  }

  lemma RefundKey(m: MemberId, amount: int, key: Key)
    ensures Refund(m, amount, key).key == key
  {
  }

  lemma DeadlineBatchGives(tid: TaskId, t: Task)
    requires Shape(t)
    ensures forall m :: Given(DeadlineCommands(tid, t), m)
                     == if m == t.creator && t.origin == Member then t.reward * GivenBack(t) else 0
  {
    hide Given, Asked, NoShowRefunds, SlotsOf, LatestBySlot, Shape;
    if t.origin == Member {
      DeadlineColumns(tid, t);
      OneRefundEach(tid, t, |t.history|);
      assert t.history[..|t.history|] == t.history;
      UnfilledIsFree(t);
      DeadlineAboutTask(tid, t);
      hide DeadlineCommands;
      forall m
        ensures Given(DeadlineCommands(tid, t), m) == if m == t.creator then t.reward * GivenBack(t) else 0
      {
        DeadlineCreatorOnly(tid, t);
        OneOwner(DeadlineCommands(tid, t), tid, t.creator, m);
      }
    } else {
      GivenNothing();
    }
  }

  /** The deadline pass goes through exactly from the deadline on. */
  lemma PassGoesThrough(w: World, tid: TaskId, cid: nat)
    requires WorldInv(w)
    ensures Step(w, Perform(DeadlineDue(tid, cid))).Success? <==> tid in w.tasks && w.now >= w.tasks[tid].deadline
  {
    hide WorldInv, Aggregated, Settle, DeadlineCommands, NoShows, WithdrawPending;
    var j := DeadlineDue(tid, cid);
    if tid in w.tasks && JobEffect(w, j).Success? {
      JobsNeverRefused(w, j);
    }
  }

  /** It marks every accepted assignment as a no-show and lets pending requests lapse. On a member task
      the creator gets the reward of every slot given back, and nobody else gains or loses. */
  lemma PassSettles(w: World, tid: TaskId, cid: nat)
    requires WorldInv(w) && Step(w, Perform(DeadlineDue(tid, cid))).Success?
    ensures var v := After(w, Perform(DeadlineDue(tid, cid)));
            && OnlyTask(w, v, tid) && SameTerms(w.tasks[tid], v.tasks[tid])
            && |v.tasks[tid].history| == |w.tasks[tid].history|
            && Lapsed(w.tasks[tid].requests, v.tasks[tid].requests)
            && (forall i | 0 <= i < |w.tasks[tid].history| ::
                  var a, b := w.tasks[tid].history[i], v.tasks[tid].history[i];
                  b == if a.status == Accepted then a.(status := NoShow, outcome := Some(Absent), command := Some(cid)) else a)
            && Gains(w.book, v.book, w.tasks[tid].creator,
                     if w.tasks[tid].origin == Member then w.tasks[tid].reward * GivenBack(w.tasks[tid]) else 0,
                     w.tasks[tid].creator, 0)
  {
    hide WorldInv, Derive, NoShows, WithdrawPending, DeadlineCommands, Lapsed, Given, AllNew, TaskInv, Settle, GivenBack, Shape;
    var j := DeadlineDue(tid, cid);
    JobMoves(w, j);
    Facts(w, tid);
    ShapeOf(w.book.entries, tid, w.tasks[tid], w.now);
    WithdrawnLapse(w.tasks[tid].requests);
    DeadlineBatchGives(tid, w.tasks[tid]);
  }
}
