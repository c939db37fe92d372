/**
 Concrete runs on which the escrow does not come out even. Each starts in any world with
 a two-slot member task that nobody has touched yet.
 */
module ExchangeWitness {
  import opened Wrappers
  import opened Ledger
  import opened Tasks
  import opened Escrow
  import opened EscrowInvariants
  import opened EscrowSteps
  import opened EscrowPerformer
  import opened EscrowCreator
  import opened EscrowDeadline
  import opened Exchange
  import opened ExchangeInvariants
  import opened ExchangeRuns
  import opened ExchangeDelivery
  import opened ExchangeLife
  import opened Transitions
  import opened ExchangeIdle
  import opened ExchangeStranded

  /** A world that keeps the invariant, in which the task is backed and stands as given, and updates from
      `u` on are undelivered. */
  ghost predicate Stage(w: World, tid: TaskId, t: Task, u: UpdateId) {
    WorldInv(w) && Backed(w, tid) && tid in w.tasks && w.tasks[tid] == t && forall x | x in w.receipts :: x < u
  }

  /** An untouched two-slot task whose deadline is ahead, but within the review window. */
  predicate Untouched(t: Task, now: int) {
    && t.origin == Member && t.slots == 2 && t.status == Published && t.history == [] && t.requests == []
    && now < t.deadline < now + REVIEW_WINDOW
  }

  /** Somebody with an account who may still take a slot of the task. */
  predicate Candidate(w: World, tid: TaskId, p: MemberId) {
    p in w.book.credit && tid in w.tasks && p != w.tasks[tid].creator && |ActiveTasks(w.tasks, p)| < w.limit
  }

  // ---------- such a world is reached from an empty exchange ----------

  /** A single new command for a member who can afford it is posted. */
  lemma PostsOne(b: Book, c: Command)
    requires ValidCommand(c) && c.reversed.None? && !HasKey(b.entries, c.key)
    requires c.member in b.credit && c.member in b.experience
    requires b.credit[c.member] + c.credit >= 0 && b.experience[c.member] + c.experience >= 0
    ensures Settle(b, [c]) == Success(Book(b.entries + [Entry(c, b.credit[c.member] + c.credit)],
                                           b.credit[c.member := b.credit[c.member] + c.credit],
                                           b.experience[c.member := b.experience[c.member] + c.experience]))
  {
    assert [c][..0] == [] && [c][0] == c;
    assert PostAll(b, []) == Success(b);
    hide ValidCommand, HasKey;
  }

  function Grown(w: World, c: Command, credit: int): World
  {
    w.(book := Book(w.book.entries + [Entry(c, credit)], w.book.credit[c.member := credit],
                    if c.member in w.book.experience then w.book.experience else w.book.experience[c.member := 0]))
  }

  lemma Registers(w: World, m: MemberId)
    requires m !in w.book.credit && m !in w.book.experience && !HasKey(w.book.entries, GrantKey(m))
    ensures After(w, Register(m)) == Grown(w, GrantOf(m), STARTING_GRANT_AMOUNT)
  {
    var known := w.book.(credit := w.book.credit[m := 0], experience := w.book.experience[m := 0]);
    PostsOne(known, GrantOf(m));
    assert w.book.credit[m := 0][m := STARTING_GRANT_AMOUNT] == w.book.credit[m := STARTING_GRANT_AMOUNT];
    assert w.book.experience[m := 0][m := 0] == w.book.experience[m := 0];
    hide Settle, HasKey;
  }

  lemma Publishes(w: World, tid: TaskId, update: UpdateId, d: Draft)
    requires tid in w.drafts && w.drafts[tid] == d && tid !in w.tasks && update !in w.receipts
    requires d.origin == Member && d.reward > 0 && d.slots > 0 && w.now < d.deadline
    requires d.creator in w.book.credit && d.creator in w.book.experience && w.book.experience[d.creator] >= 0
    requires w.book.credit[d.creator] >= d.reward * d.slots && !HasKey(w.book.entries, PublishReserve(tid))
    ensures var v := After(w, Deliver(update, PublishDraft(tid)));
            && v.tasks == w.tasks[tid := Opened(d)] && v.receipts == w.receipts + {update}
            && v.now == w.now && v.limit == w.limit && v.book.credit.Keys == w.book.credit.Keys
  {
    var c := Reserve(d.creator, d.reward * d.slots, PublishReserve(tid));
    Times(d.reward, 1, d.slots);
    PostsOne(w.book, c);
    assert PublishCommands(tid, d) == [c];
    assert w.book.credit[c.member := w.book.credit[c.member] + c.credit].Keys == w.book.credit.Keys + {c.member} == w.book.credit.Keys;
    hide Settle, HasKey;
  }

  /** Three people register, one of them drafts a task with two slots, and publishes it. */
  function Opening(tid: TaskId, u: UpdateId, d: Draft, p: MemberId, q: MemberId): seq<Op> {
    [Register(d.creator), Register(p), Register(q), SaveDraft(tid, d), Deliver(u, PublishDraft(tid))]
  }

  lemma RunFive(w: World, a: Op, b: Op, c: Op, d: Op, e: Op)
    ensures Run(w, [a, b, c, d, e]) == After(After(After(After(After(w, a), b), c), d), e)
  {
    hide After;
    RunFour(w, a, b, c, d);
    RunSnoc(w, [a, b, c, d], e);
    assert [a, b, c, d] + [e] == [a, b, c, d, e];
  }

  lemma OpeningIsSafe(w: World, tid: TaskId, u: UpdateId, d: Draft, p: MemberId, q: MemberId)
    ensures SafeRun(w, Opening(tid, u, d, p, q), tid)
  {
    hide Run;
  }

  lemma OpeningEffect(now: int, limit: nat, tid: TaskId, u: UpdateId, d: Draft, p: MemberId, q: MemberId)
    requires d.origin == Member && d.slots == 2 && 0 < d.reward <= 10 && now < d.deadline
    requires d.creator != p && p != q && d.creator != q
    ensures var v := Run(Start(now, limit), Opening(tid, u, d, p, q));
            && v.tasks == map[tid := Opened(d)] && v.receipts == {u} && v.now == now && v.limit == limit
            && v.book.credit.Keys == {d.creator, p, q}
  {
    var w0 := Start(now, limit);
    hide After, Run, ValidCommand;
    var w1 := Grown(w0, GrantOf(d.creator), STARTING_GRANT_AMOUNT);
    Registers(w0, d.creator);
    var w2 := Grown(w1, GrantOf(p), STARTING_GRANT_AMOUNT);
    Registers(w1, p);
    var w3 := Grown(w2, GrantOf(q), STARTING_GRANT_AMOUNT);
    Registers(w2, q);
    var w4 := w3.(drafts := w3.drafts[tid := d]);
    DraftSaved(w3, tid, d);
    assert w4.book.credit[d.creator] == STARTING_GRANT_AMOUNT && w4.book.experience[d.creator] == 0;
    assert w4.book.credit.Keys == {d.creator, p, q};
    Publishes(w4, tid, u, d);
    RunFive(w0, Register(d.creator), Register(p), Register(q), SaveDraft(tid, d), Deliver(u, PublishDraft(tid)));
  }

  lemma DraftSaved(w: World, tid: TaskId, d: Draft)
    requires tid !in w.tasks
    ensures After(w, SaveDraft(tid, d)) == w.(drafts := w.drafts[tid := d])
  {
  }

  /** The stage on which every example below begins: reached from an empty exchange in five
      transactions, with an untouched two-slot task and two people who may take its slots. */
  lemma StageExists(now: int, limit: nat, tid: TaskId, u: UpdateId, d: Draft, p: MemberId, q: MemberId)
    requires d.origin == Member && d.slots == 2 && 0 < d.reward <= 10 && now < d.deadline < now + REVIEW_WINDOW
    requires d.creator != p && p != q && d.creator != q && limit > 0
    ensures var w := Run(Start(now, limit), Opening(tid, u, d, p, q));
            && Stage(w, tid, Opened(d), u + 1) && Untouched(Opened(d), w.now)
            && Candidate(w, tid, p) && Candidate(w, tid, q)
  {
    hide WorldInv, Backed, Run, SafeRun, Opening, Start;
    var w := Run(Start(now, limit), Opening(tid, u, d, p, q));
    StartHolds(now, limit);
    OpeningIsSafe(Start(now, limit), tid, u, d, p, q);
    SafeRunKeeps(Start(now, limit), Opening(tid, u, d, p, q), tid);
    OpeningEffect(now, limit, tid, u, d, p, q);
    assert ActiveTasks(w.tasks, p) == {} && ActiveTasks(w.tasks, q) == {};
    assert p in w.book.credit.Keys && q in w.book.credit.Keys;
  }

  // ---------- committing ----------

  /** A committed effect: the task becomes what the effect says, the ledger grows by its batch. */
  ghost predicate Committed(w: World, tid: TaskId, eff: Effect, v: World) {
    && v.tasks == w.tasks[tid := eff.task]
    && v.now == w.now && v.limit == w.limit && v.receipts == w.receipts && v.drafts == w.drafts
    && v.book.credit.Keys == w.book.credit.Keys
    && Grew(w.book.entries, v.book.entries, eff.commands)
  }

  lemma QuietCommits(w: World, tid: TaskId, eff: Effect)
    requires eff.commands == []
    ensures Commit(w, tid, Success(eff)).Success? && Committed(w, tid, eff, Commit(w, tid, Success(eff)).value)
  {
  }

  lemma FreshCommits(w: World, tid: TaskId, eff: Effect)
    requires BookInv(w.book) && FreshBatch(w.book.entries, tid, eff.commands) && SettlementBatch(w.book, eff.commands)
    ensures Commit(w, tid, Success(eff)).Success? && Committed(w, tid, eff, Commit(w, tid, Success(eff)).value)
  {
    hide BookInv, FreshBatch, SettlementBatch, Settle, Grew, AllRecorded;
    SettlementCommits(w, tid, eff);
    SettleOutcome(w.book, eff.commands);
  }

  lemma RequestCommits(w: World, tid: TaskId, u: UpdateId, r: Request, eff: Effect)
    requires WorldInv(w) && tid in w.tasks && r.task == tid && !r.PublishDraft?
    requires RequestEffect(w, u, r) == Success(eff) && (eff.commands == [] || SettlesSomething(r))
    ensures Commit(w, tid, Success(eff)).Success? && Committed(w, tid, eff, Commit(w, tid, Success(eff)).value)
  {
    hide WorldInv, RequestEffect, Commit, Committed, TaskInv, Grounded, BookInv, SettlementBatch, FreshBatch;
    if eff.commands == [] {
      QuietCommits(w, tid, eff);
    } else {
      Facts(w, tid);
      RequestIsFresh(w, u, r);
      RequestSettles(w, u, r);
      FreshCommits(w, tid, eff);
    }
  }

  lemma Delivered(w: World, tid: TaskId, t: Task, u: UpdateId, r: Request, eff: Effect) returns (v: World)
    requires Stage(w, tid, t, u) && r.task == tid && !r.PublishDraft?
    requires RequestEffect(w, u, r) == Success(eff) && (eff.commands == [] || SettlesSomething(r))
    requires !Overdraws(w, Deliver(u, r), tid)
    ensures v == After(w, Deliver(u, r)) && Stage(v, tid, eff.task, u + 1)
    ensures Committed(w, tid, eff, v.(receipts := w.receipts))
  {
    hide WorldInv, RequestEffect, Overdraws, Grew, Commit;
    v := After(w, Deliver(u, r));
    StepBacked(w, Deliver(u, r), tid);
    RequestCommits(w, tid, u, r, eff);
  }

  function Taken(p: MemberId, slot: nat): Assignment {
    Assignment(p, slot, Accepted, None, None, None, None, None)
  }

  lemma StaysCandidate(w: World, tid: TaskId, eff: Effect, v: World, q: MemberId)
    requires Candidate(w, tid, q) && Committed(w, tid, eff, v.(receipts := w.receipts))
    requires eff.task.creator == w.tasks[tid].creator && !ActiveIn(eff.task, q)
    ensures Candidate(v, tid, q)
  {
    assert q in w.book.credit.Keys;
    assert ActiveTasks(v.tasks, q) <= ActiveTasks(w.tasks, q);
    SubsetSize(ActiveTasks(v.tasks, q), ActiveTasks(w.tasks, q));
  }

  lemma SlotOneIsFree(t: Task, now: int, p: MemberId, active: nat, limit: nat)
    requires Untouched(t, now) && p != t.creator && active < limit
    ensures Accept(t, now, p, active, limit) == Success(Effect(t.(history := [Taken(p, 1)]), []))
  {
    assert FreeSlotFrom(t.history, 1, t.slots) == Some(1);
    assert [] + [Taken(p, 1)] == [Taken(p, 1)];
  }

  /** The first candidate takes slot 1. */
  lemma FirstAccepts(w: World, tid: TaskId, t: Task, u: UpdateId, p: MemberId) returns (v: World)
    requires Stage(w, tid, t, u) && Untouched(t, w.now) && Candidate(w, tid, p)
    ensures v == After(w, Deliver(u, AcceptSlot(tid, p)))
    ensures Stage(v, tid, t.(history := [Taken(p, 1)]), u + 1)
    ensures Committed(w, tid, Effect(t.(history := [Taken(p, 1)]), []), v.(receipts := w.receipts))
  {
    hide WorldInv, Accept;
    SlotOneIsFree(t, w.now, p, |ActiveTasks(w.tasks, p)|, w.limit);
    hide Untouched, Committed;
    v := Delivered(w, tid, t, u, AcceptSlot(tid, p), Effect(t.(history := [Taken(p, 1)]), []));
  }

  // ---------- closing twice ----------

  lemma TwoSlots(a: Assignment, b: Assignment, c: Class)
    requires a.slot != b.slot
    ensures LatestBySlot([a, b]) == map[a.slot := a.status, b.slot := b.status]
    ensures SlotsOf([a, b], c) == (if Is(c, a.status) then {a.slot} else {}) + (if Is(c, b.status) then {b.slot} else {})
  {
    assert [a, b][..1] == [a] && [a][..0] == [];
    assert LatestBySlot([a]) == map[a.slot := a.status];
  }

  lemma SlotTwoIsFree(t: Task, now: int, p: MemberId, q: MemberId, active: nat, limit: nat)
    requires Untouched(t, now) && q != t.creator && q != p && active < limit
    ensures Accept(t.(history := [Taken(p, 1)]), now, q, active, limit)
         == Success(Effect(t.(history := [Taken(p, 1), Taken(q, 2)]), []))
  {
    var t1 := t.(history := [Taken(p, 1)]);
    assert t1.history[0] == Taken(p, 1);
    assert SlotHeld(t1.history, 1) && !SlotHeld(t1.history, 2);
    assert FreeSlotFrom(t1.history, 1, t1.slots) == Some(2);
    assert [Taken(p, 1)] + [Taken(q, 2)] == [Taken(p, 1), Taken(q, 2)];
  }

  lemma SecondAccepts(w: World, tid: TaskId, t: Task, u: UpdateId, p: MemberId, q: MemberId) returns (v: World)
    requires Stage(w, tid, t.(history := [Taken(p, 1)]), u) && Untouched(t, w.now) && Candidate(w, tid, q) && p != q
    ensures v == After(w, Deliver(u, AcceptSlot(tid, q)))
    ensures Stage(v, tid, t.(history := [Taken(p, 1), Taken(q, 2)]), u + 1)
    ensures Committed(w, tid, Effect(t.(history := [Taken(p, 1), Taken(q, 2)]), []), v.(receipts := w.receipts))
  {
    hide WorldInv, Accept;
    SlotTwoIsFree(t, w.now, p, q, |ActiveTasks(w.tasks, q)|, w.limit);
    hide Untouched, Committed;
    v := Delivered(w, tid, t.(history := [Taken(p, 1)]), u, AcceptSlot(tid, q),
                   Effect(t.(history := [Taken(p, 1), Taken(q, 2)]), []));
  }

  /** The full task once intake has closed: both performers are asked for consent. */
  function Asking(t: Task, p: MemberId, q: MemberId): Task {
    t.(history := [Taken(p, 1), Taken(q, 2)],
       status := ClosedForNewPerformers,
       requests := [CancelRequest(Pending, [Response(0, Unanswered), Response(1, Unanswered)])])
  }

  lemma BothAsked(p: MemberId, q: MemberId)
    ensures ConsentRequests([Taken(p, 1), Taken(q, 2)], 2) == [Response(0, Unanswered), Response(1, Unanswered)]
  {
    var h := [Taken(p, 1), Taken(q, 2)];
    assert IsLatest(h, 0) && IsLatest(h, 1);
    hide IsLatest;
    assert ConsentRequests(h, 0) == [];
    assert ConsentRequests(h, 1) == [] + [Response(0, Unanswered)] == [Response(0, Unanswered)];
    assert ConsentRequests(h, 2) == [Response(0, Unanswered)] + [Response(1, Unanswered)];
  }

  lemma FullTaskCloses(tid: TaskId, t: Task, now: int, p: MemberId, q: MemberId)
    requires Untouched(t, now)
    ensures RequestCancellation(tid, t.(history := [Taken(p, 1), Taken(q, 2)]), now) == Success(Effect(Asking(t, p, q), []))
  {
    var h := [Taken(p, 1), Taken(q, 2)];
    var t2 := t.(history := h);
    TwoSlots(h[0], h[1], Live);
    assert FreeSlots(t2) == 0 && SlotsOf(h, Live) != {};
    BothAsked(p, q);
    hide ConsentRequests, SlotsOf, LatestBySlot, FreeSlots;
    assert [] + [CancelRequest(Pending, ConsentRequests(h, 2))] == [CancelRequest(Pending, ConsentRequests(h, 2))];
    assert t2.requests + [CancelRequest(Pending, ConsentRequests(h, 2))] == Asking(t, p, q).requests;
  }

  lemma CreatorCloses(w: World, tid: TaskId, t: Task, u: UpdateId, p: MemberId, q: MemberId) returns (v: World)
    requires Stage(w, tid, t.(history := [Taken(p, 1), Taken(q, 2)]), u) && Untouched(t, w.now)
    ensures v == After(w, Deliver(u, CloseIntake(tid)))
    ensures Stage(v, tid, Asking(t, p, q), u + 1)
    ensures Committed(w, tid, Effect(Asking(t, p, q), []), v.(receipts := w.receipts))
  {
    hide WorldInv, RequestCancellation, Asking;
    FullTaskCloses(tid, t, w.now, p, q);
    hide Committed;
    v := Delivered(w, tid, t.(history := [Taken(p, 1), Taken(q, 2)]), u, CloseIntake(tid), Effect(Asking(t, p, q), []));
  }

  /** The second performer has consented to the cancellation of his slot. */
  function Consenting(t: Task, p: MemberId, q: MemberId): Task {
    Asking(t, p, q).(history := [Taken(p, 1), Taken(q, 2).(status := Cancelled)],
                     requests := [CancelRequest(Pending, [Response(0, Unanswered), Response(1, Consented)])])
  }

  lemma ConsentGoesThrough(tid: TaskId, t: Task, now: int, p: MemberId, q: MemberId)
    requires Untouched(t, now)
    ensures RespondCancellation(tid, Asking(t, p, q), now, 0, 1, true)
         == Success(Effect(Consenting(t, p, q), [Refund(t.creator, t.reward, SlotCancelRefund(tid, 1))]))
  {
    var a, c := Asking(t, p, q), Consenting(t, p, q);
    TwoSlots(c.history[0], c.history[1], Active);
    assert a.history[1 := a.history[1].(status := Cancelled)] == c.history;
    assert a.requests[0].responses[1 := Response(1, Consented)] == c.requests[0].responses;
    assert c.requests[0].responses[0].status == Unanswered;
    assert a.requests[0 := c.requests[0]] == c.requests;
    assert SlotsOf(c.history, Active) == {1};
  }

  lemma SecondConsents(w: World, tid: TaskId, t: Task, u: UpdateId, p: MemberId, q: MemberId) returns (v: World)
    requires Stage(w, tid, Asking(t, p, q), u) && Untouched(t, w.now)
    ensures v == After(w, Deliver(u, Respond(tid, 0, 1, true)))
    ensures Stage(v, tid, Consenting(t, p, q), u + 1)
    ensures Committed(w, tid, Effect(Consenting(t, p, q), [Refund(t.creator, t.reward, SlotCancelRefund(tid, 1))]), v.(receipts := w.receipts))
  {
    hide WorldInv, RespondCancellation, Asking, Consenting;
    ConsentGoesThrough(tid, t, w.now, p, q);
    hide Committed;
    v := Delivered(w, tid, Asking(t, p, q), u, Respond(tid, 0, 1, true),
                   Effect(Consenting(t, p, q), [Refund(t.creator, t.reward, SlotCancelRefund(tid, 1))]));
  }

  /** The first performer has submitted: the open request has lapsed. */
  function Submitting(t: Task, now: int, p: MemberId, q: MemberId): Task {
    Consenting(t, p, q).(
      history := [Taken(p, 1).(status := Submitted, reviewDeadline := Some(now + REVIEW_WINDOW)), Taken(q, 2).(status := Cancelled)],
      requests := [CancelRequest(Obsolete, [Response(0, Withdrawn), Response(1, Consented)])])
  }

  lemma SubmissionGoesThrough(t: Task, now: int, p: MemberId, q: MemberId)
    requires Untouched(t, now)
    ensures Submit(Consenting(t, p, q), now, 0) == Success(Effect(Submitting(t, now, p, q), []))
  {
    var c, s := Consenting(t, p, q), Submitting(t, now, p, q);
    assert WithdrawPending(c.requests) == s.requests by {
      assert Withdraw(c.requests[0]).responses == s.requests[0].responses;
    }
    assert c.history[0 := s.history[0]] == s.history;
  }

  lemma FirstSubmits(w: World, tid: TaskId, t: Task, u: UpdateId, p: MemberId, q: MemberId) returns (v: World)
    requires Stage(w, tid, Consenting(t, p, q), u) && Untouched(t, w.now)
    ensures v == After(w, Deliver(u, SubmitResult(tid, 0)))
    ensures Stage(v, tid, Submitting(t, w.now, p, q), u + 1)
    ensures Committed(w, tid, Effect(Submitting(t, w.now, p, q), []), v.(receipts := w.receipts))
  {
    hide WorldInv, Submit, Consenting, Submitting;
    SubmissionGoesThrough(t, w.now, p, q);
    hide Committed;
    v := Delivered(w, tid, Consenting(t, p, q), u, SubmitResult(tid, 0), Effect(Submitting(t, w.now, p, q), []));
  }

  /** The creator has paid the first performer in full; nobody is active any more. */
  function Paying(t: Task, now: int, p: MemberId, q: MemberId, cid: nat): Task {
    var s := Submitting(t, now, p, q);
    s.(history := [s.history[0].(status := Approved, outcome := Some(Decided(Full)), command := Some(cid)), s.history[1]],
       status := PartiallyCompleted)
  }

  lemma OneOfTwoPaid(a: Assignment, b: Assignment, s: TaskStatus, deadline: int, now: int)
    requires a.slot != b.slot && Is(Paid, a.status) && b.status == Cancelled && s != Published
    ensures Derive(s, 2, deadline, now, [a, b]) == PartiallyCompleted
  {
    TwoSlots(a, b, Active);
    TwoSlots(a, b, Paid);
    assert SlotsOf([a, b], Paid) == {a.slot};
  }

  lemma ReviewGoesThrough(tid: TaskId, t: Task, now: int, p: MemberId, q: MemberId, cid: nat)
    requires Untouched(t, now)
    ensures Decide(tid, Submitting(t, now, p, q), now, 0, Full, cid)
         == Success(Effect(Paying(t, now, p, q, cid), [Earn(TaskRewardEarned, p, t.reward, OutcomeReward(tid, 0, Approved))]))
  {
    var s, d := Submitting(t, now, p, q), Paying(t, now, p, q, cid);
    OneOfTwoPaid(d.history[0], d.history[1], ClosedForNewPerformers, t.deadline, now);
    hide Derive;
    assert [d.history[0], d.history[1]] == d.history;
    assert s.history[0 := d.history[0]] == d.history;
  }

  lemma CreatorPays(w: World, tid: TaskId, t: Task, u: UpdateId, p: MemberId, q: MemberId, cid: nat) returns (v: World)
    requires Stage(w, tid, Submitting(t, w.now, p, q), u) && Untouched(t, w.now)
    ensures v == After(w, Deliver(u, Review(tid, 0, Full, cid)))
    ensures Stage(v, tid, Paying(t, w.now, p, q, cid), u + 1)
    ensures Committed(w, tid, Effect(Paying(t, w.now, p, q, cid), [Earn(TaskRewardEarned, p, t.reward, OutcomeReward(tid, 0, Approved))]),
                      v.(receipts := w.receipts))
  {
    hide WorldInv, Decide, Submitting, Paying;
    ReviewGoesThrough(tid, t, w.now, p, q, cid);
    hide Committed;
    v := Delivered(w, tid, Submitting(t, w.now, p, q), u, Review(tid, 0, Full, cid),
                   Effect(Paying(t, w.now, p, q, cid), [Earn(TaskRewardEarned, p, t.reward, OutcomeReward(tid, 0, Approved))]));
  }

  /** What the ledger shows about the second slot: its close refund is unused, and this much of
      its reward has gone back. */
  ghost predicate Trail(entries: seq<Entry>, tid: TaskId, returned: int) {
    !HasKey(entries, CloseRefund(tid)) && Booked(entries, ReturnedFor(tid, 1)) == returned
  }

  lemma TrailGrows(before: seq<Entry>, after: seq<Entry>, tid: TaskId, cmds: seq<Command>, returned: int)
    requires Trail(before, tid, returned) && Grew(before, after, cmds)
    requires |cmds| <= 1 && forall k | 0 <= k < |cmds| :: cmds[k].key != CloseRefund(tid)
    ensures Trail(after, tid, returned + if |cmds| == 1 && InColumn(ReturnedFor(tid, 1), cmds[0].key) then cmds[0].credit else 0)
  {
    GrewBooks(before, after, cmds, ReturnedFor(tid, 1));
    if |cmds| == 1 {
      assert cmds == [cmds[0]];
      AskedOne(cmds[0], ReturnedFor(tid, 1));
      OneGrew(before, after, cmds[0]);
    } else {
      assert cmds == [];
      assert after == after[..|before|] == before;
    }
  }

  lemma TrailStart(w: World, tid: TaskId, t: Task, u: UpdateId)
    requires Stage(w, tid, t, u) && Untouched(t, w.now)
    ensures Trail(w.book.entries, tid, 0)
  {
    hide WorldInv, Shape, Lifecycle, Consent, Settlement, Grounded, BookInv, Trail, KeysExplained;
    Facts(w, tid);
    NothingReturned(w.book.entries, tid, t, w.now);
  }

  lemma NothingReturned(entries: seq<Entry>, tid: TaskId, t: Task, now: int)
    requires KeysExplained(entries, tid, t, now) && t.status == Published && t.history == []
    ensures Trail(entries, tid, 0)
  {
    CloseIsFreshFromPublished(entries, tid, t, now);
    forall n | 0 <= n < |entries|
      ensures !InColumn(ReturnedFor(tid, 1), entries[n].command.key)
    {
      assert TaskOf(entries[n].command.key) == Some(tid) ==> Explained(entries[n].command.key, t, now);
    }
    NoKeyNothingBooked(entries, ReturnedFor(tid, 1));
  }

  /** Fill both slots, close, let one performer consent and the other be paid, and close again. */
  function ClosingTwice(tid: TaskId, u: UpdateId, p: MemberId, q: MemberId, cid: nat): seq<Op> {
    [Deliver(u, AcceptSlot(tid, p)), Deliver(u + 1, AcceptSlot(tid, q)), Deliver(u + 2, CloseIntake(tid)),
     Deliver(u + 3, Respond(tid, 0, 1, true)), Deliver(u + 4, SubmitResult(tid, 0)), Deliver(u + 5, Review(tid, 0, Full, cid))]
  }

  lemma RunSnoc(w: World, ops: seq<Op>, op: Op)
    ensures Run(w, ops + [op]) == After(Run(w, ops), op)
  {
    assert (ops + [op])[..|ops + [op]| - 1] == ops;
  }

  lemma RunSix(w: World, a: Op, b: Op, c: Op, d: Op, e: Op, f: Op)
    ensures Run(w, [a, b, c, d, e, f]) == After(After(After(After(After(After(w, a), b), c), d), e), f)
  {
    hide After;
    RunSnoc(w, [], a);
    assert [] + [a] == [a];
    RunSnoc(w, [a], b);
    assert [a] + [b] == [a, b];
    RunSnoc(w, [a, b], c);
    assert [a, b] + [c] == [a, b, c];
    RunSnoc(w, [a, b, c], d);
    assert [a, b, c] + [d] == [a, b, c, d];
    RunSnoc(w, [a, b, c, d], e);
    assert [a, b, c, d] + [e] == [a, b, c, d, e];
    RunSnoc(w, [a, b, c, d, e], f);
    assert [a, b, c, d, e] + [f] == [a, b, c, d, e, f];
  }

  /** The six steps, each of them safe, and what they leave on the ledger. */
  lemma SixSteps(w: World, tid: TaskId, t: Task, u: UpdateId, p: MemberId, q: MemberId, cid: nat) returns (v: World)
    requires Stage(w, tid, t, u) && Untouched(t, w.now) && p != q
    requires Candidate(w, tid, p) && Candidate(w, tid, q)
    ensures v == Run(w, ClosingTwice(tid, u, p, q, cid))
    ensures Stage(v, tid, Paying(t, w.now, p, q, cid), u + 6) && v.now == w.now
    ensures Trail(v.book.entries, tid, t.reward)
  {
    hide Stage, Untouched, Candidate, Trail, After, Run, Paying, Submitting, Consenting, Asking, Grew;
    var e := w.book.entries;
    TrailStart(w, tid, t, u);
    var w1 := FirstAccepts(w, tid, t, u, p);
    NowTaken(w, tid, t, u, p, q, w1);
    TrailGrows(e, w1.book.entries, tid, [], 0);
    var w2 := SecondAccepts(w1, tid, t, u + 1, p, q);
    TrailGrows(w1.book.entries, w2.book.entries, tid, [], 0);
    var w3 := CreatorCloses(w2, tid, t, u + 2, p, q);
    TrailGrows(w2.book.entries, w3.book.entries, tid, [], 0);
    var w4 := SecondConsents(w3, tid, t, u + 3, p, q);
    TrailGrows(w3.book.entries, w4.book.entries, tid, [Refund(t.creator, t.reward, SlotCancelRefund(tid, 1))], 0);
    var w5 := FirstSubmits(w4, tid, t, u + 4, p, q);
    TrailGrows(w4.book.entries, w5.book.entries, tid, [], t.reward);
    v := CreatorPays(w5, tid, t, u + 5, p, q, cid);
    TrailGrows(w5.book.entries, v.book.entries, tid, [Earn(TaskRewardEarned, p, t.reward, OutcomeReward(tid, 0, Approved))], t.reward);
    RunSix(w, Deliver(u, AcceptSlot(tid, p)), Deliver(u + 1, AcceptSlot(tid, q)), Deliver(u + 2, CloseIntake(tid)),
           Deliver(u + 3, Respond(tid, 0, 1, true)), Deliver(u + 4, SubmitResult(tid, 0)), Deliver(u + 5, Review(tid, 0, Full, cid)));
  }

  lemma NowTaken(w: World, tid: TaskId, t: Task, u: UpdateId, p: MemberId, q: MemberId, v: World)
    requires Stage(w, tid, t, u) && Candidate(w, tid, q) && p != q
    requires Committed(w, tid, Effect(t.(history := [Taken(p, 1)]), []), v.(receipts := w.receipts))
    ensures Candidate(v, tid, q)
  {
    StaysCandidate(w, tid, Effect(t.(history := [Taken(p, 1)]), []), v, q);
  }

  lemma PaidTaskClosesTwice(entries: seq<Entry>, tid: TaskId, t: Task, now: int, p: MemberId, q: MemberId, cid: nat)
    requires Untouched(t, now) && t.reward > 0 && Trail(entries, tid, t.reward)
    ensures ClosesTwice(entries, tid, Paying(t, now, p, q, cid))
  {
    var d := Paying(t, now, p, q, cid);
    TwoSlots(d.history[0], d.history[1], Live);
    assert d.history == [d.history[0], d.history[1]];
    assert SlotsOf(d.history, Live) == {1} && FreeSlots(d) == 1;
    assert d.history[1].status == Cancelled;
  }

  /** A second close gives one slot's reserve back twice. Starting from any sound world with an
      untouched two-slot task, six ordinary and safe requests lead to a world where the creator's
      next request to close is accepted and leaves less than nothing in the task's escrow. */
  lemma ClosingTwiceOverdraws(w: World, tid: TaskId, t: Task, u: UpdateId, p: MemberId, q: MemberId, cid: nat)
    requires Stage(w, tid, t, u) && Untouched(t, w.now) && p != q
    requires Candidate(w, tid, p) && Candidate(w, tid, q)
    ensures var v := Run(w, ClosingTwice(tid, u, p, q, cid));
            && WorldInv(v) && Backed(v, tid)
            && Step(v, Deliver(u + 6, CloseIntake(tid))).Success?
            && Held(After(v, Deliver(u + 6, CloseIntake(tid))).book.entries, tid) < 0
  {
    hide Run, Held, ClosingTwice, ClosesTwice, WorldInv, Trail, Paying;
    var v := SixSteps(w, tid, t, u, p, q, cid);
    PositiveReward(w, tid);
    PaidTaskClosesTwice(v.book.entries, tid, t, w.now, p, q, cid);
    SameTermsPaid(t, w.now, p, q, cid);
    var op := Deliver(u + 6, CloseIntake(tid));
    assert Overdraws(v, op, tid);
    hide Stage, Untouched, Overdraws, After, Step, Candidate;
    SecondCloseBreaks(v, u + 6, tid);
    BreaksOnlyByCommitting(v, op, tid);
  }

  /** So a run from an empty exchange can leave a task with less than nothing in escrow. */
  lemma OverdraftIsReachable(now: int, limit: nat, tid: TaskId, u: UpdateId, d: Draft, p: MemberId, q: MemberId, cid: nat)
    requires d.origin == Member && d.slots == 2 && 0 < d.reward <= 10 && now < d.deadline < now + REVIEW_WINDOW
    requires d.creator != p && p != q && d.creator != q && limit > 0
    ensures var ops := Opening(tid, u, d, p, q) + ClosingTwice(tid, u + 1, p, q, cid) + [Deliver(u + 7, CloseIntake(tid))];
            Held(Run(Start(now, limit), ops).book.entries, tid) < 0
  {
    hide Run, Held, Stage, Untouched, Candidate, Opening, ClosingTwice, Start, After, Step, WorldInv, Backed;
    var w := Run(Start(now, limit), Opening(tid, u, d, p, q));
    StageExists(now, limit, tid, u, d, p, q);
    ClosingTwiceOverdraws(w, tid, Opened(d), u + 1, p, q, cid);
    RunConcat(Start(now, limit), Opening(tid, u, d, p, q), ClosingTwice(tid, u + 1, p, q, cid));
    RunSnoc(Start(now, limit), Opening(tid, u, d, p, q) + ClosingTwice(tid, u + 1, p, q, cid), Deliver(u + 7, CloseIntake(tid)));
  }

  lemma PositiveReward(w: World, tid: TaskId)
    requires WorldInv(w) && tid in w.tasks
    ensures w.tasks[tid].reward > 0
  {
    Facts(w, tid);
  }

  lemma SameTermsPaid(t: Task, now: int, p: MemberId, q: MemberId, cid: nat)
    ensures Paying(t, now, p, q, cid).origin == t.origin && Paying(t, now, p, q, cid).deadline == t.deadline
  {
  }

  /** A refused transaction changes nothing, so it cannot be what broke the invariant. */
  lemma BreaksOnlyByCommitting(w: World, op: Op, tid: TaskId)
    requires Backed(w, tid) && !Backed(After(w, op), tid)
    ensures Step(w, op).Success?
  {
    hide Step, Backed;
  }

  // ---------- a slot paid for at the deadline, and one left behind ----------

  function Submitted1(t: Task, now: int, p: MemberId): Task {
    t.(history := [Taken(p, 1).(status := Submitted, reviewDeadline := Some(now + REVIEW_WINDOW))])
  }

  lemma LoneSubmission(t: Task, now: int, p: MemberId)
    requires Untouched(t, now)
    ensures Submit(t.(history := [Taken(p, 1)]), now, 0) == Success(Effect(Submitted1(t, now, p), []))
  {
    var t1, s := t.(history := [Taken(p, 1)]), Submitted1(t, now, p);
    assert WithdrawPending(t1.requests) == [];
    assert t1.history[0 := s.history[0]] == s.history;
  }

  lemma LoneSubmits(w: World, tid: TaskId, t: Task, u: UpdateId, p: MemberId) returns (v: World)
    requires Stage(w, tid, t.(history := [Taken(p, 1)]), u) && Untouched(t, w.now)
    ensures v == After(w, Deliver(u, SubmitResult(tid, 0)))
    ensures Stage(v, tid, Submitted1(t, w.now, p), u + 1)
    ensures Committed(w, tid, Effect(Submitted1(t, w.now, p), []), v.(receipts := w.receipts))
  {
    hide WorldInv, Submit, Submitted1, Committed;
    LoneSubmission(t, w.now, p);
    v := Delivered(w, tid, t.(history := [Taken(p, 1)]), u, SubmitResult(tid, 0), Effect(Submitted1(t, w.now, p), []));
  }

  lemma OneSlot(a: Assignment, c: Class)
    ensures LatestBySlot([a]) == map[a.slot := a.status]
    ensures SlotsOf([a], c) == if Is(c, a.status) then {a.slot} else {}
    ensures Count([a], c) == if Is(c, a.status) then 1 else 0
  {
    assert [a][..0] == [];
  }

  /** The task after its creator has paid its only performer at the deadline. */
  function PaidLate(t: Task, now: int, p: MemberId, cid: nat): Task {
    var s := Submitted1(t, now, p);
    s.(history := [s.history[0].(status := Approved, outcome := Some(Decided(Full)), command := Some(cid))],
       status := PartiallyCompleted)
  }

  lemma LateReview(tid: TaskId, t: Task, now: int, p: MemberId, cid: nat)
    requires Untouched(t, now)
    ensures Decide(tid, Submitted1(t, now, p), t.deadline, 0, Full, cid)
         == Success(Effect(PaidLate(t, now, p, cid), [Earn(TaskRewardEarned, p, t.reward, OutcomeReward(tid, 0, Approved))]))
  {
    var s, d := Submitted1(t, now, p), PaidLate(t, now, p, cid);
    OneSlot(d.history[0], Active);
    OneSlot(d.history[0], Paid);
    assert s.history[0 := d.history[0]] == d.history == [d.history[0]];
    assert Derive(Published, 2, t.deadline, t.deadline, d.history) == PartiallyCompleted;
  }

  lemma TimePasses(w: World, tid: TaskId, t: Task, u: UpdateId, to: int) returns (v: World)
    requires Stage(w, tid, t, u) && w.now <= to
    ensures v == After(w, Tick(to)) && Stage(v, tid, t, u) && v.now == to && v.book == w.book
  {
    v := After(w, Tick(to));
    StepBacked(w, Tick(to), tid);
  }

  lemma LatePays(w: World, tid: TaskId, t: Task, u: UpdateId, now: int, p: MemberId, cid: nat) returns (v: World)
    requires Stage(w, tid, Submitted1(t, now, p), u) && Untouched(t, now) && w.now == t.deadline
    ensures v == After(w, Deliver(u, Review(tid, 0, Full, cid)))
    ensures Stage(v, tid, PaidLate(t, now, p, cid), u + 1)
    ensures Committed(w, tid, Effect(PaidLate(t, now, p, cid), [Earn(TaskRewardEarned, p, t.reward, OutcomeReward(tid, 0, Approved))]),
                      v.(receipts := w.receipts))
  {
    hide WorldInv, Decide, Submitted1, PaidLate, Committed;
    LateReview(tid, t, now, p, cid);
    v := Delivered(w, tid, Submitted1(t, now, p), u, Review(tid, 0, Full, cid),
                   Effect(PaidLate(t, now, p, cid), [Earn(TaskRewardEarned, p, t.reward, OutcomeReward(tid, 0, Approved))]));
  }

  /** One of two slots is taken and submitted in time; the creator reviews it at the deadline,
      before the deadline pass has run. */
  function PayingLate(tid: TaskId, u: UpdateId, p: MemberId, deadline: int, cid: nat): seq<Op> {
    [Deliver(u, AcceptSlot(tid, p)), Deliver(u + 1, SubmitResult(tid, 0)), Tick(deadline), Deliver(u + 2, Review(tid, 0, Full, cid))]
  }

  lemma RunFour(w: World, a: Op, b: Op, c: Op, d: Op)
    ensures Run(w, [a, b, c, d]) == After(After(After(After(w, a), b), c), d)
  {
    hide After;
    RunSnoc(w, [], a);
    assert [] + [a] == [a];
    RunSnoc(w, [a], b);
    assert [a] + [b] == [a, b];
    RunSnoc(w, [a, b], c);
    assert [a, b] + [c] == [a, b, c];
    RunSnoc(w, [a, b, c], d);
    assert [a, b, c] + [d] == [a, b, c, d];
  }

  lemma UntouchedHolds(w: World, tid: TaskId, t: Task, u: UpdateId)
    requires Stage(w, tid, t, u) && Untouched(t, w.now)
    ensures Held(w.book.entries, tid) == 2 * t.reward && t.reward > 0
  {
    hide WorldInv, Funded, TaskInv, Grounded, BookInv, Held;
    Facts(w, tid);
    OpenHolds(w.book.entries, tid, t, w.now);
    assert Count([], Settled) == 0;
  }

  lemma HeldMoves(before: seq<Entry>, after: seq<Entry>, tid: TaskId, cmds: seq<Command>)
    requires Grew(before, after, cmds) && |cmds| <= 1
    requires forall k | 0 <= k < |cmds| :: TaskOf(cmds[k].key) == Some(tid)
    ensures Held(after, tid) == Held(before, tid) - if |cmds| == 1 then cmds[0].credit else 0
  {
    GrewBooks(before, after, cmds, Escrowed(tid));
    if |cmds| == 1 {
      assert cmds == [cmds[0]];
      AskedOne(cmds[0], Escrowed(tid));
    }
  }

  lemma FourSteps(w: World, tid: TaskId, t: Task, u: UpdateId, p: MemberId, cid: nat) returns (v: World)
    requires Stage(w, tid, t, u) && Untouched(t, w.now) && Candidate(w, tid, p)
    ensures v == Run(w, PayingLate(tid, u, p, t.deadline, cid))
    ensures Stage(v, tid, PaidLate(t, w.now, p, cid), u + 3) && v.now == t.deadline
    ensures Held(v.book.entries, tid) == t.reward > 0
  {
    hide Stage, Candidate, After, Run, PaidLate, Submitted1, Grew, Held;
    UntouchedHolds(w, tid, t, u);
    var w1 := FirstAccepts(w, tid, t, u, p);
    HeldMoves(w.book.entries, w1.book.entries, tid, []);
    var w2 := LoneSubmits(w1, tid, t, u + 1, p);
    HeldMoves(w1.book.entries, w2.book.entries, tid, []);
    var w3 := TimePasses(w2, tid, Submitted1(t, w.now, p), u + 2, t.deadline);
    v := LatePays(w3, tid, t, u + 2, w.now, p, cid);
    HeldMoves(w3.book.entries, v.book.entries, tid, [Earn(TaskRewardEarned, p, t.reward, OutcomeReward(tid, 0, Approved))]);
    RunFour(w, Deliver(u, AcceptSlot(tid, p)), Deliver(u + 1, SubmitResult(tid, 0)), Tick(t.deadline), Deliver(u + 2, Review(tid, 0, Full, cid)));
  }

  lemma PaidLateIsOut(w: World, tid: TaskId, t: Task, u: UpdateId, now: int, p: MemberId, cid: nat)
    requires Stage(w, tid, PaidLate(t, now, p, cid), u) && Untouched(t, now) && w.now == t.deadline
    ensures !InReach(w, tid) && Drained(w.tasks[tid]) && w.tasks[tid].origin == Member
    ensures Idle(w.book.entries, tid, w.tasks[tid]) == Held(w.book.entries, tid)
  {
    hide WorldInv, Held;
    var d := PaidLate(t, now, p, cid);
    OneSlot(d.history[0], Class.Active);
    assert d.history == [d.history[0]];
  }

  /** A slot nobody took is lost when a review comes first at the deadline: the task ends partially
      completed, its second reward stays in escrow, and no safe run ever moves it. */
  lemma ReviewAtDeadlineStrands(w: World, tid: TaskId, t: Task, u: UpdateId, p: MemberId, cid: nat, ops: seq<Op>)
    requires Stage(w, tid, t, u) && Untouched(t, w.now) && Candidate(w, tid, p)
    requires SafeRun(Run(w, PayingLate(tid, u, p, t.deadline, cid)), ops, tid)
    ensures var v := Run(Run(w, PayingLate(tid, u, p, t.deadline, cid)), ops);
            tid in v.tasks && Stranded(v, tid) && Idle(v.book.entries, tid, v.tasks[tid]) == t.reward
  {
    hide Run, PayingLate, SafeRun, Untouched, Candidate, WorldInv, InReach, Idle, Held, PaidLate, Drained;
    var v := FourSteps(w, tid, t, u, p, cid);
    PaidLateIsOut(v, tid, t, u + 3, w.now, p, cid);
    StrandedStays(v, ops, tid);
    DrainedNeverChanges(v, ops, tid);
  }

  // ---------- a slot left, and a task that ends without being full ----------

  /** Both slots have been taken, and the second performer has left again. */
  function SecondGone(q: MemberId): Assignment {
    Taken(q, 2).(status := Cancelled)
  }

  function LeftAlone(t: Task, p: MemberId, q: MemberId): Task {
    t.(history := [Taken(p, 1), SecondGone(q)])
  }

  lemma LeavingGoesThrough(tid: TaskId, t: Task, now: int, p: MemberId, q: MemberId)
    requires Untouched(t, now)
    ensures CancelAssignment(tid, t.(history := [Taken(p, 1), Taken(q, 2)]), 1) == Success(Effect(LeftAlone(t, p, q), []))
  {
    var h := [Taken(p, 1), Taken(q, 2)];
    assert h[1 := SecondGone(q)] == LeftAlone(t, p, q).history;
    assert WithdrawPending(t.requests) == t.requests;
  }

  lemma SecondLeaves(w: World, tid: TaskId, t: Task, u: UpdateId, p: MemberId, q: MemberId) returns (v: World)
    requires Stage(w, tid, t.(history := [Taken(p, 1), Taken(q, 2)]), u) && Untouched(t, w.now)
    ensures v == After(w, Deliver(u, LeaveSlot(tid, 1)))
    ensures Stage(v, tid, LeftAlone(t, p, q), u + 1) && v.now == w.now
  {
    hide WorldInv, CancelAssignment, LeftAlone;
    LeavingGoesThrough(tid, t, w.now, p, q);
    v := Delivered(w, tid, t.(history := [Taken(p, 1), Taken(q, 2)]), u, LeaveSlot(tid, 1), Effect(LeftAlone(t, p, q), []));
  }

  function SubmittedAlone(t: Task, now: int, p: MemberId, q: MemberId): Task {
    t.(history := [Submitted1(t, now, p).history[0], SecondGone(q)])
  }

  lemma AloneSubmits(w: World, tid: TaskId, t: Task, u: UpdateId, p: MemberId, q: MemberId) returns (v: World)
    requires Stage(w, tid, LeftAlone(t, p, q), u) && Untouched(t, w.now)
    ensures v == After(w, Deliver(u, SubmitResult(tid, 0)))
    ensures Stage(v, tid, SubmittedAlone(t, w.now, p, q), u + 1) && v.now == w.now
  {
    hide WorldInv;
    assert Submit(LeftAlone(t, p, q), w.now, 0) == Success(Effect(SubmittedAlone(t, w.now, p, q), [])) by {
      assert LeftAlone(t, p, q).history[0 := Submitted1(t, w.now, p).history[0]] == SubmittedAlone(t, w.now, p, q).history;
      assert WithdrawPending(t.requests) == t.requests;
    }
    hide Submit, LeftAlone, SubmittedAlone;
    v := Delivered(w, tid, LeftAlone(t, p, q), u, SubmitResult(tid, 0), Effect(SubmittedAlone(t, w.now, p, q), []));
  }

  /** The way both examples begin. */
  function LeavingOne(tid: TaskId, u: UpdateId, p: MemberId, q: MemberId): seq<Op> {
    [Deliver(u, AcceptSlot(tid, p)), Deliver(u + 1, AcceptSlot(tid, q)), Deliver(u + 2, LeaveSlot(tid, 1)), Deliver(u + 3, SubmitResult(tid, 0))]
  }

  lemma OneLeft(w: World, tid: TaskId, t: Task, u: UpdateId, p: MemberId, q: MemberId) returns (v: World)
    requires Stage(w, tid, t, u) && Untouched(t, w.now) && p != q
    requires Candidate(w, tid, p) && Candidate(w, tid, q)
    ensures v == Run(w, LeavingOne(tid, u, p, q))
    ensures Stage(v, tid, SubmittedAlone(t, w.now, p, q), u + 4) && v.now == w.now
  {
    hide Stage, Untouched, Candidate, After, Run, LeftAlone, SubmittedAlone, Grew;
    var w1 := FirstAccepts(w, tid, t, u, p);
    NowTaken(w, tid, t, u, p, q, w1);
    var w2 := SecondAccepts(w1, tid, t, u + 1, p, q);
    var w3 := SecondLeaves(w2, tid, t, u + 2, p, q);
    v := AloneSubmits(w3, tid, t, u + 3, p, q);
    RunFour(w, Deliver(u, AcceptSlot(tid, p)), Deliver(u + 1, AcceptSlot(tid, q)), Deliver(u + 2, LeaveSlot(tid, 1)), Deliver(u + 3, SubmitResult(tid, 0)));
  }

  /** The counts of a history of one assignment still active and one cancelled. */
  lemma AloneCounts(a: Assignment, q: MemberId)
    requires a.slot == 1 && Is(Class.Active, a.status)
    ensures Count([a, SecondGone(q)], Class.Active) == Count([a, SecondGone(q)], Live) == 1
    ensures Count([a, SecondGone(q)], Class.Paid) == 0 && |LatestBySlot([a, SecondGone(q)])| == 2
  {
    var h := [a, SecondGone(q)];
    assert h[..1] == [a];
    OneSlot(a, Class.Active);
    OneSlot(a, Live);
    OneSlot(a, Class.Paid);
    TwoSlots(a, SecondGone(q), Live);
    assert LatestBySlot(h).Keys == {1, 2};
    assert |LatestBySlot(h)| == |LatestBySlot(h).Keys|;
  }

  function RejectedAlone(t: Task, now: int, p: MemberId, q: MemberId, cid: nat): Task {
    t.(history := [Rejected1(t, now, p, cid).history[0], SecondGone(q)])
  }

  lemma AloneRejected(w: World, tid: TaskId, t: Task, u: UpdateId, p: MemberId, q: MemberId, cid: nat) returns (v: World)
    requires Stage(w, tid, SubmittedAlone(t, w.now, p, q), u) && Untouched(t, w.now)
    ensures v == After(w, Deliver(u, Review(tid, 0, Reject, cid)))
    ensures Stage(v, tid, RejectedAlone(t, w.now, p, q, cid), u + 1) && v.now == w.now
  {
    hide WorldInv;
    assert Decide(tid, SubmittedAlone(t, w.now, p, q), w.now, 0, Reject, cid) == Success(Effect(RejectedAlone(t, w.now, p, q, cid), [])) by {
      assert SubmittedAlone(t, w.now, p, q).history[0 := Rejected1(t, w.now, p, cid).history[0]] == RejectedAlone(t, w.now, p, q, cid).history;
    }
    hide Decide, SubmittedAlone, RejectedAlone;
    v := Delivered(w, tid, SubmittedAlone(t, w.now, p, q), u, Review(tid, 0, Reject, cid), Effect(RejectedAlone(t, w.now, p, q, cid), []));
  }

  /** Both slots are taken, one performer leaves, the other is rejected, and nobody disputes it. */
  function ExpiringEarly(tid: TaskId, u: UpdateId, p: MemberId, q: MemberId, now: int, cid: nat, last: nat): seq<Op> {
    LeavingOne(tid, u, p, q)
    + [Deliver(u + 4, Review(tid, 0, Reject, cid)), Tick(now + DISPUTE_WINDOW), Perform(RejectionDue(tid, 0, last))]
  }

  lemma RunThreeMore(w: World, ops: seq<Op>, a: Op, b: Op, c: Op)
    ensures Run(w, ops + [a, b, c]) == After(After(After(Run(w, ops), a), b), c)
  {
    hide After, Run;
    RunSnoc(w, ops, a);
    RunSnoc(w, ops + [a], b);
    RunSnoc(w, ops + [a] + [b], c);
    assert ops + [a, b, c] == ops + [a] + [b] + [c];
  }

  /** Rejecting the only result left ends the task at the end of its dispute window. */
  lemma LastRejection(w: World, tid: TaskId, t: Task, u: UpdateId, now: int, p: MemberId, q: MemberId, cid: nat, last: nat)
    requires Stage(w, tid, RejectedAlone(t, now, p, q, cid), u) && Untouched(t, now)
    requires w.now == now + DISPUTE_WINDOW < t.deadline
    ensures var v := After(w, Perform(RejectionDue(tid, 0, last)));
            && WorldInv(v) && Backed(v, tid) && v.now == w.now && tid in v.tasks && v.tasks[tid].status == Expired && v.tasks[tid].origin == Member
            && Stranded(v, tid) && Idle(v.book.entries, tid, v.tasks[tid]) == t.reward
  {
    hide WorldInv, After, Idle, Held, HasKey, Count, LatestBySlot, Abandons;
    var op, r := Perform(RejectionDue(tid, 0, last)), RejectedAlone(t, now, p, q, cid);
    AloneCounts(r.history[0], q);
    assert r.history == [r.history[0], SecondGone(q)];
    assert EndedBy(w, op, tid) == Some(Ending(0, Rejected));
    StepBacked(w, op, tid);
    EndingAfter(w, op, tid, Ending(0, Rejected));
    StrandsExactly(w, op, tid);
    assert Strands(w, op, tid);
    ReachIsFull(w, tid);
    AbandonedIsCancelled(w, op, tid, Ending(0, Rejected));
    AccountAfterEnding(w, After(w, op), op, tid, Ending(0, Rejected));
  }

  lemma NobodyCanClose(w: World, tid: TaskId)
    requires tid in w.tasks && w.tasks[tid].status == Expired && w.tasks[tid].origin == Member && Drained(w.tasks[tid])
    ensures forall x: UpdateId | x !in w.receipts ::
              Step(w, Deliver(x, WithdrawTask(tid))).Failure? && Step(w, Deliver(x, CloseIntake(tid))).Failure?
    ensures DeadlineCommands(tid, w.tasks[tid]) == []
  {
    DrainedAsksNothing(tid, w.tasks[tid]);
    hide DeadlineCommands;
  }

  lemma ExpiredIsDrained(w: World, tid: TaskId)
    requires WorldInv(w) && tid in w.tasks && w.tasks[tid].status == Expired
    ensures Drained(w.tasks[tid])
  {
    hide WorldInv, Count, Shape, Consent, KeysExplained, Settlement, BookInv, Grounded;
    Facts(w, tid);
    CountWitness(w.tasks[tid].history, Class.Active);
    forall i | 0 <= i < |w.tasks[tid].history|
      ensures w.tasks[tid].history[i].status != Accepted
    {
      assert !Is(Class.Active, w.tasks[tid].history[i].status);
    }
  }

  /** A task can expire before its deadline although one of its slots is unheld: the count of slots
      that have ever been taken includes those left again. Neither its creator nor the deadline pass
      can then return the reserve of that slot. */
  lemma EarlyExpiryStrands(w: World, tid: TaskId, t: Task, u: UpdateId, p: MemberId, q: MemberId, cid: nat, last: nat)
    requires Stage(w, tid, t, u) && Untouched(t, w.now) && p != q && w.now + DISPUTE_WINDOW < t.deadline
    requires Candidate(w, tid, p) && Candidate(w, tid, q)
    ensures var v := Run(w, ExpiringEarly(tid, u, p, q, w.now, cid, last));
            && WorldInv(v) && Backed(v, tid) && v.now < t.deadline && tid in v.tasks && v.tasks[tid].status == Expired
            && Stranded(v, tid) && Idle(v.book.entries, tid, v.tasks[tid]) == t.reward
            && (forall x: UpdateId | x !in v.receipts ::
                  Step(v, Deliver(x, WithdrawTask(tid))).Failure? && Step(v, Deliver(x, CloseIntake(tid))).Failure?)
            && DeadlineCommands(tid, v.tasks[tid]) == []
  {
    hide Run, Stage, Untouched, Candidate, WorldInv, After, Stranded, Idle, RejectedAlone, SubmittedAlone, Step, DeadlineCommands;
    var w4 := OneLeft(w, tid, t, u, p, q);
    var w5 := AloneRejected(w4, tid, t, u + 4, p, q, cid);
    var w6 := TimePasses(w5, tid, RejectedAlone(t, w.now, p, q, cid), u + 5, w.now + DISPUTE_WINDOW);
    LastRejection(w6, tid, t, u + 5, w.now, p, q, cid, last);
    RunThreeMore(w, LeavingOne(tid, u, p, q), Deliver(u + 4, Review(tid, 0, Reject, cid)), Tick(w.now + DISPUTE_WINDOW),
                 Perform(RejectionDue(tid, 0, last)));
    var v := After(w6, Perform(RejectionDue(tid, 0, last)));
    ExpiredIsDrained(v, tid);
    NobodyCanClose(v, tid);
  }

  /** The other performer is paid instead: the task is partially completed before its deadline, and
      what is idle can still be returned by closing it. */
  lemma LastPayment(w: World, tid: TaskId, t: Task, u: UpdateId, p: MemberId, q: MemberId, cid: nat)
    requires Stage(w, tid, SubmittedAlone(t, w.now, p, q), u) && Untouched(t, w.now)
    ensures var v := After(w, Deliver(u, Review(tid, 0, Full, cid)));
            && WorldInv(v) && Backed(v, tid) && v.now == w.now && tid in v.tasks && v.tasks[tid].status == PartiallyCompleted
            && InReach(v, tid) && Idle(v.book.entries, tid, v.tasks[tid]) == t.reward && SameTerms(t, v.tasks[tid])
  {
    hide WorldInv, After, Held, HasKey, Count, LatestBySlot, Abandons;
    var op, r, e := Deliver(u, Review(tid, 0, Full, cid)), SubmittedAlone(t, w.now, p, q), Ending(0, Approved);
    AloneCounts(r.history[0], q);
    assert r.history == [r.history[0], SecondGone(q)];
    assert EndedBy(w, op, tid) == Some(e);
    StepBacked(w, op, tid);
    EndingAfter(w, op, tid, e);
    ReachIsFull(w, tid);
    AbandonedIsCancelled(w, op, tid, e);
    AccountAfterEnding(w, After(w, op), op, tid, e);
  }

  function PayingThenWaiting(tid: TaskId, u: UpdateId, p: MemberId, q: MemberId, deadline: int, cid: nat): seq<Op> {
    LeavingOne(tid, u, p, q) + [Deliver(u + 4, Review(tid, 0, Full, cid)), Tick(deadline)]
  }

  lemma RunTwoMore(w: World, ops: seq<Op>, a: Op, b: Op)
    ensures Run(w, ops + [a, b]) == After(After(Run(w, ops), a), b)
  {
    hide After, Run;
    RunSnoc(w, ops, a);
    RunSnoc(w, ops + [a], b);
    assert ops + [a, b] == ops + [a] + [b];
  }

  /** Unless its creator does close it in time: the passing of the deadline alone strands it. */
  lemma WaitingStrands(w: World, tid: TaskId, t: Task, u: UpdateId, p: MemberId, q: MemberId, cid: nat)
    requires Stage(w, tid, t, u) && Untouched(t, w.now) && p != q && Candidate(w, tid, p) && Candidate(w, tid, q)
    ensures var v := Run(w, PayingThenWaiting(tid, u, p, q, t.deadline, cid));
            && WorldInv(v) && Backed(v, tid) && tid in v.tasks && v.tasks[tid].status == PartiallyCompleted
            && Stranded(v, tid) && Idle(v.book.entries, tid, v.tasks[tid]) == t.reward
  {
    hide Run, Stage, Candidate, WorldInv, After, Idle, SubmittedAlone, Untapped;
    var w4 := OneLeft(w, tid, t, u, p, q);
    LastPayment(w4, tid, t, u + 4, p, q, cid);
    var w5 := After(w4, Deliver(u + 4, Review(tid, 0, Full, cid)));
    TimeOnly(w5, t.deadline, tid);
    StepBacked(w5, Tick(t.deadline), tid);
    IdleNeverNegative(w5, tid);
    RunTwoMore(w, LeavingOne(tid, u, p, q), Deliver(u + 4, Review(tid, 0, Full, cid)), Tick(t.deadline));
  }

  // ---------- a resolution that reopens a slot ----------

  function Rejected1(t: Task, now: int, p: MemberId, cid: nat): Task {
    t.(history := [Submitted1(t, now, p).history[0].(status := RejectedPendingDispute, outcome := Some(Decided(Reject)),
                     command := Some(cid), rejectedAt := Some(now), disputeDeadline := Some(now + DISPUTE_WINDOW))])
  }

  function Disputed1(t: Task, now: int, p: MemberId, cid: nat): Task {
    t.(history := [Rejected1(t, now, p, cid).history[0].(status := Disputed)])
  }

  lemma RejectionAndDispute(tid: TaskId, t: Task, now: int, p: MemberId, cid: nat)
    requires Untouched(t, now)
    ensures Decide(tid, Submitted1(t, now, p), now, 0, Reject, cid) == Success(Effect(Rejected1(t, now, p, cid), []))
    ensures Escrow.Dispute(Rejected1(t, now, p, cid), now, 0) == Success(Effect(Disputed1(t, now, p, cid), []))
  {
    var s, r, d := Submitted1(t, now, p), Rejected1(t, now, p, cid), Disputed1(t, now, p, cid);
    assert s.history[0 := r.history[0]] == r.history;
    assert r.history[0 := d.history[0]] == d.history;
  }

  lemma CreatorRejects(w: World, tid: TaskId, t: Task, u: UpdateId, p: MemberId, cid: nat) returns (v: World)
    requires Stage(w, tid, Submitted1(t, w.now, p), u) && Untouched(t, w.now)
    ensures v == After(w, Deliver(u, Review(tid, 0, Reject, cid)))
    ensures Stage(v, tid, Rejected1(t, w.now, p, cid), u + 1) && v.now == w.now
  {
    hide WorldInv, Decide, Submitted1, Rejected1;
    RejectionAndDispute(tid, t, w.now, p, cid);
    v := Delivered(w, tid, Submitted1(t, w.now, p), u, Review(tid, 0, Reject, cid), Effect(Rejected1(t, w.now, p, cid), []));
  }

  lemma PerformerDisputes(w: World, tid: TaskId, t: Task, u: UpdateId, p: MemberId, cid: nat) returns (v: World)
    requires Stage(w, tid, Rejected1(t, w.now, p, cid), u) && Untouched(t, w.now)
    ensures v == After(w, Deliver(u, OpenDispute(tid, 0)))
    ensures Stage(v, tid, Disputed1(t, w.now, p, cid), u + 1) && v.now == w.now
  {
    hide WorldInv, Rejected1, Disputed1;
    RejectionAndDispute(tid, t, w.now, p, cid);
    v := Delivered(w, tid, Rejected1(t, w.now, p, cid), u, OpenDispute(tid, 0), Effect(Disputed1(t, w.now, p, cid), []));
  }

  /** While the other slot has never been taken, cancelling the disputed one leaves the task open. */
  lemma DisputedSlotCanReopen(t: Task, now: int, p: MemberId, cid: nat)
    requires Untouched(t, now)
    ensures LeavesSlotOpen(Disputed1(t, now, p, cid), now, 0, CancelWithoutFault)
  {
    OneSlot(Disputed1(t, now, p, cid).history[0], Active);
    assert Disputed1(t, now, p, cid).history == [Disputed1(t, now, p, cid).history[0]];
  }

  /** A rejected result is disputed, and the case is resolved by cancelling without fault. */
  function Disputing(tid: TaskId, u: UpdateId, p: MemberId, cid: nat): seq<Op> {
    [Deliver(u, AcceptSlot(tid, p)), Deliver(u + 1, SubmitResult(tid, 0)), Deliver(u + 2, Review(tid, 0, Reject, cid)),
     Deliver(u + 3, OpenDispute(tid, 0))]
  }

  /** A resolution can reopen a slot whose reserve it returns: four ordinary requests after any
      sound world with an untouched two-slot task, it leaves the task open and underfunded. */
  lemma ResolutionReopens(w: World, tid: TaskId, t: Task, u: UpdateId, p: MemberId, cid: nat, again: nat)
    requires Stage(w, tid, t, u) && Untouched(t, w.now) && Candidate(w, tid, p)
    ensures var v := Run(w, Disputing(tid, u, p, cid));
            var op := Perform(ResolveCase(tid, 0, CancelWithoutFault, again));
            && WorldInv(v) && Backed(v, tid) && Step(v, op).Success? && !Backed(After(v, op), tid)
  {
    hide WorldInv, Candidate, Run, After, Step, Submitted1, Rejected1, Disputed1, LeavesSlotOpen, Committed, Backed;
    var w1 := FirstAccepts(w, tid, t, u, p);
    ClockKept(w, tid, Effect(t.(history := [Taken(p, 1)]), []), w1);
    var w2 := LoneSubmits(w1, tid, t, u + 1, p);
    ClockKept(w1, tid, Effect(Submitted1(t, w1.now, p), []), w2);
    var w3 := CreatorRejects(w2, tid, t, u + 2, p, cid);
    var v := PerformerDisputes(w3, tid, t, u + 3, p, cid);
    RunFour(w, Deliver(u, AcceptSlot(tid, p)), Deliver(u + 1, SubmitResult(tid, 0)), Deliver(u + 2, Review(tid, 0, Reject, cid)),
            Deliver(u + 3, OpenDispute(tid, 0)));
    DisputedSlotCanReopen(t, v.now, p, cid);
    assert Overdraws(v, Perform(ResolveCase(tid, 0, CancelWithoutFault, again)), tid);
    ReopeningBreaks(v, tid, 0, CancelWithoutFault, again);
    BreaksOnlyByCommitting(v, Perform(ResolveCase(tid, 0, CancelWithoutFault, again)), tid);
  }

  lemma ClockKept(w: World, tid: TaskId, eff: Effect, v: World)
    requires Committed(w, tid, eff, v.(receipts := w.receipts))
    ensures v.now == w.now
  {
  }
}
