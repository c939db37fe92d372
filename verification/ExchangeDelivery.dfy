/**
 Delivery: updates arrive at least once, their effect happens at most once.
 */
module ExchangeDelivery {
  import opened Wrappers
  import opened Ledger
  import opened Tasks
  import opened Escrow
  import opened EscrowInvariants
  import opened Exchange
  import opened ExchangeInvariants
  import opened ExchangeRuns

  lemma {:induction false} RunConcat(w: World, first: seq<Op>, second: seq<Op>)
    ensures Run(w, first + second) == Run(Run(w, first), second)
  {
    if second == [] {
      assert first + second == first;
    } else {
      var n := |second| - 1;
      assert (first + second)[..|first + second| - 1] == first + second[..n];
      RunConcat(w, first, second[..n]);
    }
  }

  /** What a transaction can never take back: receipts, tasks, and the drafts they came from. */
  ghost predicate Extends(w: World, v: World) {
    && w.receipts <= v.receipts
    && w.tasks.Keys <= v.tasks.Keys
    && w.book.entries <= v.book.entries
    && forall tid | tid in w.tasks && tid in w.drafts :: tid in v.drafts && v.drafts[tid] == w.drafts[tid]
  }

  lemma StepExtends(w: World, op: Op)
    requires LedgerSound(w)
    ensures Extends(w, After(w, op))
  {
    hide BookInv, Settle, AllNew, AllRecorded, Grew, Owned, Grounded, RequestEffect, JobEffect, Publish;
    if Step(w, op).Success? {
      match op
      case Tick(_) =>
      case Register(m) =>
        if m !in w.book.credit {
          GrantSettles(w.book, m);
          SettleOutcome(w.book.(credit := w.book.credit[m := 0], experience := w.book.experience[m := 0]), [GrantOf(m)]);
        }
      case SaveDraft(_, _) =>
      case Economy(cmds) => SettleOutcome(w.book, cmds);
      case Deliver(update, r) =>
        if update !in w.receipts {
          if r.PublishDraft? {
            PublishEffect(w, r.task);
            SettleOutcome(w.book, PublishCommands(r.task, w.drafts[r.task]));
          } else {
            SettleOutcome(w.book, RequestEffect(w, update, r).value.commands);
          }
        }
      case Perform(j) =>
        SettleOutcome(w.book, JobEffect(w, j).value.commands);
    }
  }

  lemma {:induction false} RunExtends(w: World, ops: seq<Op>)
    requires LedgerSound(w)
    ensures Extends(w, Run(w, ops))
  {
    if ops != [] {
      var front := ops[..|ops| - 1];
      RunExtends(w, front);
      RunSound(w, front);
      StepExtends(Run(w, front), ops[|ops| - 1]);
    }
  }

  // ---------- removing redeliveries ----------

  predicate Redelivered(w: World, op: Op) {
    op.Deliver? && op.update in w.receipts
  }

  /** The run without the deliveries whose update had already been handled. */
  function Essential(w: World, ops: seq<Op>): (kept: seq<Op>)
    ensures |kept| <= |ops|
  {
    if ops == [] then []
    else
      var front := Essential(w, ops[..|ops| - 1]);
      if Redelivered(Run(w, front), ops[|ops| - 1]) then front else front + [ops[|ops| - 1]]
  }

  /** Removing re-delivered updates from any run changes nothing: not one balance, entry,
      assignment, task or receipt. */
  lemma {:induction false} RedeliveryIsInvisible(w: World, ops: seq<Op>)
    ensures Run(w, Essential(w, ops)) == Run(w, ops)
  {
    if ops != [] {
      var n := |ops| - 1;
      var front := Essential(w, ops[..n]);
      RedeliveryIsInvisible(w, ops[..n]);
      if !Redelivered(Run(w, front), ops[n]) {
        assert (front + [ops[n]])[..|front|] == front;
      }
    }
  }

  /** What is left delivers every update's effect at most once: after a delivery has succeeded its
      update id does not occur again. */
  lemma {:induction false} EssentialDeliversOnce(w: World, ops: seq<Op>, i: nat, j: nat)
    requires LedgerSound(w)
    requires i < j < |Essential(w, ops)|
    requires Essential(w, ops)[i].Deliver? && Essential(w, ops)[j].Deliver?
    requires Step(Run(w, Essential(w, ops)[..i]), Essential(w, ops)[i]).Success?
    ensures Essential(w, ops)[i].update != Essential(w, ops)[j].update
  {
    hide LedgerSound, Step, After, Run, Extends;
    var n := |ops| - 1;
    var kept := Essential(w, ops);
    var front := Essential(w, ops[..n]);
    if j < |front| {
      assert kept[..i] == front[..i];
      EssentialDeliversOnce(w, ops[..n], i, j);
    } else {
      assert kept == front + [ops[n]] && kept[..|front|] == front;
      var mid := Run(w, kept[..i + 1]);
      SuccessLeavesReceipt(w, kept, i);
      assert front == kept[..i + 1] + front[i + 1..];
      RunConcat(w, kept[..i + 1], front[i + 1..]);
      RunSound(w, kept[..i + 1]);
      ReceiptsStay(mid, front[i + 1..]);
    }
  }

  lemma SuccessLeavesReceipt(w: World, ops: seq<Op>, i: nat)
    requires i < |ops| && ops[i].Deliver? && Step(Run(w, ops[..i]), ops[i]).Success?
    ensures ops[i].update in Run(w, ops[..i + 1]).receipts
  {
    assert ops[..i + 1][..i] == ops[..i];
  }

  lemma ReceiptsStay(w: World, ops: seq<Op>)
    requires LedgerSound(w)
    ensures w.receipts <= Run(w, ops).receipts
  {
    hide LedgerSound, Run;
    RunExtends(w, ops);
  }

  /** Once an update has been handled, delivering it again, at any later time and with any
      request, is answered without doing anything. */
  lemma HandledForGood(w: World, update: UpdateId, r: Request, ops: seq<Op>, again: Request)
    requires LedgerSound(w) && Step(w, Deliver(update, r)).Success?
    ensures var later := Run(After(w, Deliver(update, r)), ops);
            Step(later, Deliver(update, again)) == Success(later)
  {
    StepSound(w, Deliver(update, r));
    RunExtends(After(w, Deliver(update, r)), ops);
  }

  // ---------- one draft, one task, one reserve ----------

  /** A published draft has exactly one reserve entry, for its reward times its slots. */
  lemma OneReserve(w: World, tid: TaskId) returns (n: nat)
    requires LedgerSound(w) && tid in w.tasks && w.tasks[tid].origin == Member
    ensures n < |w.book.entries| && tid in w.drafts
    ensures w.book.entries[n].command.key == PublishReserve(tid)
    ensures w.book.entries[n].command.credit == -(w.drafts[tid].reward * w.drafts[tid].slots)
    ensures w.book.entries[n].command.member == w.drafts[tid].creator
    ensures forall k | 0 <= k < |w.book.entries| && w.book.entries[k].command.key == PublishReserve(tid) :: k == n
  {
    assert Grounded(w, tid) && UniqueKeys(w.book.entries);
    var cmds := PublishCommands(tid, w.drafts[tid]);
    assert Recorded(w.book.entries, cmds[0]);
    n :| 0 <= n < |w.book.entries| && w.book.entries[n].command == cmds[0];
  }

  /** However often a published draft is published again, under fresh update ids and after any
      run, the books, the tasks and every balance stay as they are. */
  lemma PublishedOnce(w: World, tid: TaskId, ops: seq<Op>, update: UpdateId)
    requires LedgerSound(w) && tid in w.tasks
    ensures var later := Run(w, ops);
            && tid in later.tasks
            && After(later, Deliver(update, PublishDraft(tid))).book == later.book
            && After(later, Deliver(update, PublishDraft(tid))).tasks == later.tasks
  {
    hide LedgerSound, Publish, Run;
    var later := Run(w, ops);
    RunSound(w, ops);
    RunExtends(w, ops);
    assert tid in w.tasks.Keys;
    if Publish(later, tid).Success? {
      PublishedAlready(later, tid);
    }
  }
}
