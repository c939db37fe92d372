/**
 The deadline: one pass marks every no-show, returns every slot nobody earned, and derives the
 task's state.
 */
module EscrowDeadline {
  import opened Wrappers
  import opened Ledger
  import opened Tasks
  import opened Escrow
  import opened EscrowInvariants
  import opened EscrowSteps
  import opened EscrowPerformer
  import opened EscrowCreator

  lemma AskedAppend(cmds: seq<Command>, c: Command, col: Column)
    ensures Asked(cmds + [c], col) == Asked(cmds, col) + if InColumn(col, c.key) then c.credit else 0
  {
    assert (cmds + [c])[..|cmds|] == cmds;
  }

  /** Refunds for the no-shows among the first `n` assignments: their keys, and what they book. */
  lemma {:induction false} NoShowBatch(tid: TaskId, t: Task, n: nat)
    requires n <= |t.history|
    ensures forall k | 0 <= k < |NoShowRefunds(tid, t, n)| ::
              var c := NoShowRefunds(tid, t, n)[k];
              && c.key.OutcomeRefund? && c.key.task == tid && c.key.outcome == NoShow
              && c.key.index < n && t.history[c.key.index].status == Accepted
              && c == Refund(t.creator, t.reward, c.key)
    ensures DistinctKeys(NoShowRefunds(tid, t, n))
    ensures Asked(NoShowRefunds(tid, t, n), Escrowed(tid)) == t.reward * |NoShowRefunds(tid, t, n)|
  {
    if n > 0 {
      NoShowBatch(tid, t, n - 1);
      var front := NoShowRefunds(tid, t, n - 1);
      var c := Refund(t.creator, t.reward, OutcomeRefund(tid, n - 1, NoShow));
      assert NoShowRefunds(tid, t, n) == if t.history[n - 1].status == Accepted then front + [c] else front;
      hide NoShowRefunds, Asked;
      AskedAppend(front, c, Escrowed(tid));
      Distributes(t.reward, |front|, 1);
    }
  }

  lemma {:induction false} NoShowColumns(tid: TaskId, t: Task, n: nat, i: nat)
    requires n <= |t.history| && i < |t.history|
    ensures Asked(NoShowRefunds(tid, t, n), PaidFor(tid, i)) == 0
    ensures Asked(NoShowRefunds(tid, t, n), ReturnedFor(tid, i))
         == if i < n && t.history[i].status == Accepted then t.reward else 0
  {
    if n > 0 {
      NoShowColumns(tid, t, n - 1, i);
      var front := NoShowRefunds(tid, t, n - 1);
      var c := Refund(t.creator, t.reward, OutcomeRefund(tid, n - 1, NoShow));
      assert NoShowRefunds(tid, t, n) == if t.history[n - 1].status == Accepted then front + [c] else front;
      hide NoShowRefunds, Asked;
      AskedAppend(front, c, PaidFor(tid, i));
      AskedAppend(front, c, ReturnedFor(tid, i));
    }
  }

  function AcceptedCount(h: seq<Assignment>): nat {
    if h == [] then 0
    else AcceptedCount(h[..|h| - 1]) + if h[|h| - 1].status == Accepted then 1 else 0
  }

  lemma {:induction false} OneRefundEach(tid: TaskId, t: Task, n: nat)
    requires n <= |t.history|
    ensures |NoShowRefunds(tid, t, n)| == AcceptedCount(t.history[..n])
  {
    if n > 0 {
      OneRefundEach(tid, t, n - 1);
      assert t.history[..n][..n - 1] == t.history[..n - 1];
    }
  }

  /** Marking no-shows settles every assignment that was still accepted, and frees no slot. */
  lemma {:induction false} NoShowCounts(h: seq<Assignment>, cid: nat)
    ensures Count(NoShows(h, cid), Settled) == Count(h, Settled) + AcceptedCount(h)
    ensures Count(NoShows(h, cid), Live) == Count(h, Live)
  {
    if h != [] {
      var f, last := h[..|h| - 1], h[|h| - 1];
      var x := if last.status == Accepted then MissedBy(last, cid) else last;
      NoShowCounts(f, cid);
      assert NoShows(h, cid) == NoShows(f, cid) + [x] && h == f + [last];
      assert AcceptedCount(h) == AcceptedCount(f) + if last.status == Accepted then 1 else 0;
      hide NoShows, Count, AcceptedCount;
      CountAppend(f, last, Settled);
      CountAppend(f, last, Live);
      CountAppend(NoShows(f, cid), x, Settled);
      CountAppend(NoShows(f, cid), x, Live);
    }
  }

  lemma UnfilledIsFree(t: Task)
    requires Shape(t)
    ensures Unfilled(t) == t.slots - Count(t.history, Live) >= 0
  {
    OccupiedFits(t);
  }

  /** The whole deadline batch, column by column. */
  lemma DeadlineColumns(tid: TaskId, t: Task)
    requires Shape(t) && t.origin == Member
    ensures var released := if t.status == Published then Unfilled(t) else 0;
            Asked(DeadlineCommands(tid, t), Escrowed(tid))
              == t.reward * (|NoShowRefunds(tid, t, |t.history|)| + released)
    ensures forall i | 0 <= i < |t.history| ::
              && Asked(DeadlineCommands(tid, t), PaidFor(tid, i)) == 0
              && Asked(DeadlineCommands(tid, t), ReturnedFor(tid, i))
                 == if t.history[i].status == Accepted then t.reward else 0
  {
    hide NoShowRefunds, Asked, SlotsOf, LatestBySlot;
    UnfilledIsFree(t);
    var missed := NoShowRefunds(tid, t, |t.history|);
    NoShowBatch(tid, t, |t.history|);
    var c := Refund(t.creator, t.reward * Unfilled(t), UnfilledRefund(tid));
    var unfilled := Unfilled(t) != 0 && t.status == Published;
    assert DeadlineCommands(tid, t) == missed + if unfilled then [c] else [];
    hide DeadlineCommands, Shape, Unfilled;
    Distributes(t.reward, |missed|, Unfilled(t));
    AskedAppend(missed, c, Escrowed(tid));
    assert missed + [] == missed;
    forall i | 0 <= i < |t.history|
      ensures Asked(DeadlineCommands(tid, t), PaidFor(tid, i)) == 0
      ensures Asked(DeadlineCommands(tid, t), ReturnedFor(tid, i))
           == if t.history[i].status == Accepted then t.reward else 0
    {
      NoShowColumns(tid, t, |t.history|, i);
      AskedAppend(missed, c, PaidFor(tid, i));
      AskedAppend(missed, c, ReturnedFor(tid, i));
    }
  }

  lemma NoShowsFresh(before: seq<Entry>, tid: TaskId, t: Task, now: int)
    requires KeysExplained(before, tid, t, now) && t.reward > 0
    ensures FreshBatch(before, tid, NoShowRefunds(tid, t, |t.history|))
  {
    NoShowBatch(tid, t, |t.history|);
    var missed := NoShowRefunds(tid, t, |t.history|);
    forall k | 0 <= k < |missed|
      ensures !HasKey(before, missed[k].key)
      ensures ValidCommand(missed[k]) && missed[k].reversed.None? && TaskOf(missed[k].key) == Some(tid)
    {
      ActiveHasNoKeys(before, tid, t, missed[k].key.index, now);
    }
  }

  lemma FreshPlusOne(before: seq<Entry>, tid: TaskId, cmds: seq<Command>, c: Command)
    requires FreshBatch(before, tid, cmds) && FreshBatch(before, tid, [c])
    requires forall k | 0 <= k < |cmds| :: cmds[k].key != c.key
    ensures FreshBatch(before, tid, cmds + [c])
  {
    assert [c][0] == c;
  }

  lemma UnfilledFresh(before: seq<Entry>, tid: TaskId, t: Task, now: int)
    requires TaskInv(before, tid, t, now) && t.status == Published && Unfilled(t) > 0
    ensures FreshBatch(before, tid, [Refund(t.creator, t.reward * Unfilled(t), UnfilledRefund(tid))])
  {
    CloseIsFreshFromPublished(before, tid, t, now);
    PositiveTerms(before, tid, t, now);
    hide TaskInv, Unfilled;
    var c := Refund(t.creator, t.reward * Unfilled(t), UnfilledRefund(tid));
    assert t.reward * Unfilled(t) > 0;
    assert ValidCommand(c);
  }

  lemma DeadlineFresh(before: seq<Entry>, tid: TaskId, t: Task, now: int)
    requires TaskInv(before, tid, t, now)
    ensures FreshBatch(before, tid, DeadlineCommands(tid, t))
  {
    if t.origin == Member {
      UnfilledIsFree(t);
      NoShowsFresh(before, tid, t, now);
      NoShowBatch(tid, t, |t.history|);
      var missed := NoShowRefunds(tid, t, |t.history|);
      if Unfilled(t) != 0 && t.status == Published {
        UnfilledFresh(before, tid, t, now);
        hide TaskInv, FreshBatch, NoShowRefunds;
        FreshPlusOne(before, tid, missed, Refund(t.creator, t.reward * Unfilled(t), UnfilledRefund(tid)));
      } else {
        assert missed + [] == missed;
      }
    }
  }

  lemma NoShowsShape(t: Task, u: Task, cid: nat)
    requires Shape(t) && SameTerms(t, u) && u.history == NoShows(t.history, cid)
    ensures Shape(u)
  {
  }

  /** Old keys stay explained when no-shows are marked. */
  lemma NoShowsKeepKeys(before: seq<Entry>, tid: TaskId, t: Task, u: Task, now: int, cid: nat)
    requires KeysExplained(before, tid, t, now) && SameTerms(t, u)
    requires u.history == NoShows(t.history, cid) && u.status != Published && now >= t.deadline
    ensures KeysExplained(before, tid, u, now)
  {
    forall n | 0 <= n < |before| && TaskOf(before[n].command.key) == Some(tid)
      ensures Explained(before[n].command.key, u, now)
    {
      assert Explained(before[n].command.key, t, now);
    }
  }

  lemma DeadlineExplains(tid: TaskId, t: Task, u: Task, now: int, cid: nat, k: nat)
    requires SameTerms(t, u)
    requires u.history == NoShows(t.history, cid) && u.status != Published && now >= t.deadline
    requires k < |DeadlineCommands(tid, t)|
    ensures Explained(DeadlineCommands(tid, t)[k].key, u, now)
  {
    hide NoShowRefunds, LatestBySlot, Unfilled, NoShows;
    NoShowBatch(tid, t, |t.history|);
    var missed, key := NoShowRefunds(tid, t, |t.history|), DeadlineCommands(tid, t)[k].key;
    assert key == UnfilledRefund(tid)
           || (key.OutcomeRefund? && key.outcome == NoShow && key.index < |t.history| && t.history[key.index].status == Accepted);
    hide DeadlineCommands;
  }

  lemma DeadlineKeys(before: seq<Entry>, after: seq<Entry>, tid: TaskId, t: Task, u: Task, now: int, cid: nat)
    requires KeysExplained(before, tid, t, now) && SameTerms(t, u)
    requires u.history == NoShows(t.history, cid) && u.status != Published && now >= t.deadline
    requires Grew(before, after, DeadlineCommands(tid, t))
    ensures KeysExplained(after, tid, u, now)
  {
    NoShowsKeepKeys(before, tid, t, u, now, cid);
    var cmds := DeadlineCommands(tid, t);
    hide DeadlineCommands, NoShows, Explained, TaskOf;
    forall n | 0 <= n < |after| && TaskOf(after[n].command.key) == Some(tid)
      ensures Explained(after[n].command.key, u, now)
    {
      if n < |before| {
        assert after[..|before|][n] == after[n];
      } else {
        var k := n - |before|;
        assert after[|before| + k].command == cmds[k];
        DeadlineExplains(tid, t, u, now, cid, k);
      }
    }
  }

  lemma DeadlineSettlement(before: seq<Entry>, after: seq<Entry>, tid: TaskId, t: Task, u: Task, cid: nat)
    requires Settlement(before, tid, t) && Shape(t)
    requires SameTerms(t, u) && u.history == NoShows(t.history, cid)
    requires Grew(before, after, DeadlineCommands(tid, t))
    ensures Settlement(after, tid, u)
    ensures SlotReturned(after, tid, u) <==> SlotReturned(before, tid, t)
    ensures ReturnedWhole(before, tid, t) ==> ReturnedWhole(after, tid, u)
  {
    var cmds := DeadlineCommands(tid, t);
    if t.origin == Member {
      DeadlineColumns(tid, t);
    }
    forall i | 0 <= i < |u.history|
      ensures SettledAsDue(after, tid, u, i)
      ensures u.history[i].status == Cancelled <==> t.history[i].status == Cancelled
      ensures u.history[i].status == Cancelled ==> Booked(after, ReturnedFor(tid, i)) == Booked(before, ReturnedFor(tid, i))
    {
      assert SettledAsDue(before, tid, t, i);
      GrewBooks(before, after, cmds, PaidFor(tid, i));
      GrewBooks(before, after, cmds, ReturnedFor(tid, i));
    }
  }

  /** Every no-show settles one slot and returns one reward. */
  lemma MissedSettles(tid: TaskId, t: Task, cid: nat)
    ensures Count(NoShows(t.history, cid), Settled) == Count(t.history, Settled) + |NoShowRefunds(tid, t, |t.history|)|
    ensures Count(NoShows(t.history, cid), Live) == Count(t.history, Live)
  {
    OneRefundEach(tid, t, |t.history|);
    assert t.history[..|t.history|] == t.history;
    NoShowCounts(t.history, cid);
  }

  /** The slots still owed after the deadline pass. */
  lemma DeadlineHeld(before: seq<Entry>, after: seq<Entry>, tid: TaskId, t: Task, u: Task, cid: nat, released: nat, released': nat)
    requires Shape(t) && t.origin == Member && EscrowBalanced(before, tid, t, released)
    requires SameTerms(t, u) && u.history == NoShows(t.history, cid)
    requires released' == released + if t.status == Published then Unfilled(t) else 0
    requires Grew(before, after, DeadlineCommands(tid, t))
    ensures Held(after, tid) == u.reward * (u.slots - released' - Count(u.history, Settled))
  {
    hide Shape, NoShows, NoShowRefunds, DeadlineCommands, Unfilled, Grew, Count, Booked, Asked, SlotReturned, TaskLevelRefunded;
    MissedSettles(tid, t, cid);
    DeadlineColumns(tid, t);
    GrewBooks(before, after, DeadlineCommands(tid, t), Escrowed(tid));
    var left := t.slots - released - Count(t.history, Settled);
    var gone := |NoShowRefunds(tid, t, |t.history|)| + released' - released;
    assert t.reward * (left - gone) == t.reward * left - t.reward * gone;
  }

  lemma DeadlineRefunded(before: seq<Entry>, after: seq<Entry>, tid: TaskId, t: Task)
    requires t.origin == Member && Grew(before, after, DeadlineCommands(tid, t))
    ensures TaskLevelRefunded(before, tid) ==> TaskLevelRefunded(after, tid)
    ensures t.status == Published && Unfilled(t) != 0 ==> TaskLevelRefunded(after, tid)
  {
    var cmds := DeadlineCommands(tid, t);
    KeysStay(before, after, cmds, TaskCancelRefund(tid));
    KeysStay(before, after, cmds, CloseRefund(tid));
    KeysStay(before, after, cmds, UnfilledRefund(tid));
    if t.status == Published && Unfilled(t) != 0 {
      var k := |cmds| - 1;
      assert after[|before| + k].command == cmds[k];
      assert HasKey(after, UnfilledRefund(tid));
    }
  }

  lemma RebalancedAt(before: seq<Entry>, after: seq<Entry>, tid: TaskId, t: Task, u: Task, released: nat, released': nat)
    requires EscrowBalanced(before, tid, t, released) && u.status != Published && released <= released'
    requires Held(after, tid) == u.reward * (u.slots - released' - Count(u.history, Settled))
    requires released' + Count(u.history, Live) <= u.slots
    requires TaskLevelRefunded(before, tid) || released < released' ==> TaskLevelRefunded(after, tid)
    requires SlotReturned(after, tid, u) <==> SlotReturned(before, tid, t)
    ensures EscrowBalanced(after, tid, u, released')
  {
    hide Held, Count, TaskLevelRefunded, SlotReturned;
  }

  lemma DeadlineBalance(before: seq<Entry>, after: seq<Entry>, tid: TaskId, t: Task, u: Task, now: int, cid: nat, released: nat)
    returns (released': nat)
    requires TaskInv(before, tid, t, now) && t.origin == Member && EscrowBalanced(before, tid, t, released)
    requires SameTerms(t, u) && u.history == NoShows(t.history, cid) && u.status != Published
    requires Grew(before, after, DeadlineCommands(tid, t))
    ensures EscrowBalanced(after, tid, u, released')
    ensures t.status == Published ==> released' == t.slots - Count(u.history, Live)
  {
    assert Shape(t) && Settlement(before, tid, t);
    hide TaskInv, DeadlineCommands, NoShows, NoShowRefunds, Grew, Shape, Settlement, TaskLevelRefunded, SlotReturned, Unfilled, Held, Count;
    UnfilledIsFree(t);
    released' := released + if t.status == Published then Unfilled(t) else 0;
    MissedSettles(tid, t, cid);
    DeadlineHeld(before, after, tid, t, u, cid, released, released');
    DeadlineRefunded(before, after, tid, t);
    DeadlineSettlement(before, after, tid, t, u, cid);
    RebalancedAt(before, after, tid, t, u, released, released');
  }

  lemma KeysStay(before: seq<Entry>, after: seq<Entry>, cmds: seq<Command>, key: Key)
    requires Grew(before, after, cmds)
    ensures HasKey(before, key) ==> HasKey(after, key)
  {
    if HasKey(before, key) {
      var n :| 0 <= n < |before| && before[n].command.key == key;
      assert after[..|before|][n] == after[n];
    }
  }

  lemma FinalizeDeadlineKeeps(before: seq<Entry>, after: seq<Entry>, tid: TaskId, t: Task, now: int, cid: nat)
    requires TaskInv(before, tid, t, now) && FinalizeDeadline(tid, t, now, cid).Success?
    requires Posted(before, after, FinalizeDeadline(tid, t, now, cid).value.commands)
    ensures Keeps(before, after, tid, t, FinalizeDeadline(tid, t, now, cid).value, now, true)
  {
    var u := FinalizeDeadline(tid, t, now, cid).value.task;
    var cmds := DeadlineCommands(tid, t);
    var now' := if cmds == [] then before else after;
    DeadlineFresh(before, tid, t, now);
    assert Grew(before, now', cmds);
    NeverReopens(t.status, t.slots, t.deadline, now, u.history);
    NoShowsShape(t, Obsoleted(t).(history := NoShows(t.history, cid)), cid);
    DerivedLifecycle(Obsoleted(t).(history := NoShows(t.history, cid)), now);
    NoShowsShape(t, u, cid);
    LapsedConsent(t, u);
    DeadlineKeys(before, now', tid, t, u, now, cid);
    DeadlineSettlement(before, now', tid, t, u, cid);
    if t.origin == Member && Funded(before, tid, t) {
      var released: nat :| EscrowBalanced(before, tid, t, released);
      var released' := DeadlineBalance(before, now', tid, t, u, now, cid, released);
    }
  }
}
