/**
 One step at a time: every workflow keeps the task invariant, provided its batch is posted.
 */
module EscrowSteps {
  import opened Wrappers
  import opened Ledger
  import opened Tasks
  import opened Escrow
  import opened EscrowInvariants

  // ---------- lifecycle ----------

  /** A derived status is always consistent with the history it was derived from. */
  lemma DerivedLifecycle(t: Task, now: int)
    requires Shape(t)
    ensures Lifecycle(Aggregated(t, now), now)
  {
    LatestAgrees(t.history, Active);
    LatestAgrees(t.history, Paid);
  }

  /** Deriving never reopens intake: only a published task comes out published. */
  lemma NeverReopens(s: TaskStatus, slots: nat, deadline: int, now: int, h: seq<Assignment>)
    requires s == Published || s == ClosedForNewPerformers || (s == Settling && now >= deadline) || now >= deadline
    ensures Derive(s, slots, deadline, now, h) == Published ==> s == Published
  {
  }

  // ---------- one assignment moves ----------

  ghost predicate SameTerms(t: Task, u: Task) {
    && u.origin == t.origin && u.creator == t.creator && u.reward == t.reward && u.slots == t.slots
    && u.reserved == t.reserved && u.deadline == t.deadline
  }

  ghost predicate Moved(t: Task, u: Task, i: nat) {
    && SameTerms(t, u)
    && i < |t.history| == |u.history|
    && u.history == t.history[i := u.history[i]]
    && u.history[i].slot == t.history[i].slot
    && u.history[i].performer == t.history[i].performer
    && Is(Active, t.history[i].status)
  }

  lemma MovedShape(t: Task, u: Task, i: nat)
    requires Shape(t) && Moved(t, u, i)
    ensures Shape(u)
  {
  }

  lemma ActiveHasNoKeys(entries: seq<Entry>, tid: TaskId, t: Task, i: nat, now: int)
    requires KeysExplained(entries, tid, t, now)
    requires i < |t.history| && Is(Active, t.history[i].status)
    ensures forall n | 0 <= n < |entries| && TaskOf(entries[n].command.key) == Some(tid) ::
              IndexOf(entries[n].command.key) != Some(i)
  {
    forall n | 0 <= n < |entries| && TaskOf(entries[n].command.key) == Some(tid)
      ensures IndexOf(entries[n].command.key) != Some(i)
    {
      assert Explained(entries[n].command.key, t, now);
    }
  }

  /** A batch about assignment `i`, each of whose keys states a fact of the next task. */
  ghost predicate AboutAssignment(tid: TaskId, u: Task, i: nat, cmds: seq<Command>, now: int) {
    forall n | 0 <= n < |cmds| ::
      TaskOf(cmds[n].key) == Some(tid) && IndexOf(cmds[n].key) == Some(i) && Explained(cmds[n].key, u, now)
  }

  lemma MovedKeys(before: seq<Entry>, after: seq<Entry>, tid: TaskId, t: Task, u: Task, i: nat, cmds: seq<Command>, now: int)
    requires KeysExplained(before, tid, t, now) && Moved(t, u, i)
    requires u.status == Published ==> t.status == Published
    requires Grew(before, after, cmds) && AboutAssignment(tid, u, i, cmds, now)
    ensures KeysExplained(after, tid, u, now)
    ensures TaskLevelRefunded(after, tid) <==> TaskLevelRefunded(before, tid)
  {
    ActiveHasNoKeys(before, tid, t, i, now);
    forall n | 0 <= n < |after|
      ensures n < |before| ==> after[n] == before[n]
      ensures n >= |before| ==> after[n].command == cmds[n - |before|]
    {
      if n < |before| {
        assert after[n] == after[..|before|][n];
      } else {
        var k := n - |before|;
        assert after[|before| + k].command == cmds[k];
      }
    }
    TaskLevelKeysStay(before, after, tid, i, cmds, TaskCancelRefund(tid));
    TaskLevelKeysStay(before, after, tid, i, cmds, CloseRefund(tid));
    TaskLevelKeysStay(before, after, tid, i, cmds, UnfilledRefund(tid));
  }

  lemma TaskLevelKeysStay(before: seq<Entry>, after: seq<Entry>, tid: TaskId, i: nat, cmds: seq<Command>, key: Key)
    requires Grew(before, after, cmds)
    requires forall n | 0 <= n < |cmds| :: IndexOf(cmds[n].key) == Some(i)
    requires IndexOf(key) == None
    ensures HasKey(after, key) <==> HasKey(before, key)
  {
    if HasKey(before, key) {
      var n :| 0 <= n < |before| && before[n].command.key == key;
      assert after[..|before|][n] == after[n];
    }
    if HasKey(after, key) {
      var n :| 0 <= n < |after| && after[n].command.key == key;
      assert n >= |before| ==> after[|before| + (n - |before|)].command == cmds[n - |before|];
      assert after[..|before|][n] == after[n];
    }
  }

  /** Columns of other assignments are untouched by a batch about assignment `i`. */
  lemma {:induction false} OtherColumns(tid: TaskId, i: nat, j: nat, cmds: seq<Command>)
    requires i != j && forall n | 0 <= n < |cmds| :: IndexOf(cmds[n].key) == Some(i)
    ensures Asked(cmds, PaidFor(tid, j)) == Asked(cmds, ReturnedFor(tid, j)) == 0
  {
    if cmds != [] {
      OtherColumns(tid, i, j, cmds[..|cmds| - 1]);
      assert IndexOf(cmds[|cmds| - 1].key) == Some(i);
    }
  }

  /** What a batch about assignment `i` books: its columns add up, and match the new status. */
  ghost predicate BooksDue(tid: TaskId, t: Task, u: Task, i: nat, cmds: seq<Command>)
    requires i < |u.history|
  {
    var s := u.history[i].status;
    var paid, returned := Asked(cmds, PaidFor(tid, i)), Asked(cmds, ReturnedFor(tid, i));
    && paid == DuePayment(t, s)
    && (s != Cancelled ==> returned == DueReturn(t, s))
    && (s == Cancelled ==> returned == 0 || (t.origin == Member && returned == t.reward))
    && Asked(cmds, Escrowed(tid)) == paid + returned
  }

  /** A slot's reserve goes back although the slot is on offer again. */
  ghost predicate Reopens(tid: TaskId, u: Task, i: nat, cmds: seq<Command>)
    requires i < |u.history|
  {
    u.history[i].status == Cancelled && Asked(cmds, ReturnedFor(tid, i)) != 0 && u.status == Published
  }

  lemma MovedSettlement(before: seq<Entry>, after: seq<Entry>, tid: TaskId, t: Task, u: Task, i: nat, cmds: seq<Command>, now: int)
    requires Settlement(before, tid, t) && Moved(t, u, i)
    requires Grew(before, after, cmds) && AboutAssignment(tid, u, i, cmds, now) && BooksDue(tid, t, u, i, cmds)
    ensures Settlement(after, tid, u)
    ensures forall j | 0 <= j < |t.history| && j != i ::
              Booked(after, ReturnedFor(tid, j)) == Booked(before, ReturnedFor(tid, j))
    ensures Booked(after, ReturnedFor(tid, i)) == Asked(cmds, ReturnedFor(tid, i))
    ensures Booked(before, ReturnedFor(tid, i)) == 0
  {
    assert SettledAsDue(before, tid, t, i);
    GrewBooks(before, after, cmds, PaidFor(tid, i));
    GrewBooks(before, after, cmds, ReturnedFor(tid, i));
    forall j | 0 <= j < |t.history|
      ensures j != i ==> Booked(after, ReturnedFor(tid, j)) == Booked(before, ReturnedFor(tid, j))
      ensures SettledAsDue(after, tid, u, j)
    {
      assert SettledAsDue(before, tid, t, j);
      if j != i {
        OtherColumns(tid, i, j, cmds);
        GrewBooks(before, after, cmds, PaidFor(tid, j));
        GrewBooks(before, after, cmds, ReturnedFor(tid, j));
      }
    }
  }

  /** Moving one assignment keeps the escrow identity; a cancelled slot whose reward went back
      counts as released from then on. */
  lemma MovedBalance(before: seq<Entry>, after: seq<Entry>, tid: TaskId, t: Task, u: Task, i: nat, cmds: seq<Command>, released: nat, now: int)
    returns (released': nat)
    requires t.origin == Member && EscrowBalanced(before, tid, t, released) && Shape(t)
    requires Moved(t, u, i) && (u.status == Published ==> t.status == Published)
    requires KeysExplained(before, tid, t, now) && Settlement(before, tid, t)
    requires Grew(before, after, cmds) && AboutAssignment(tid, u, i, cmds, now) && BooksDue(tid, t, u, i, cmds)
    requires !Reopens(tid, u, i, cmds) && ReturnedWhole(before, tid, t)
    ensures EscrowBalanced(after, tid, u, released')
    ensures released' == released + if u.history[i].status == Cancelled && Asked(cmds, ReturnedFor(tid, i)) != 0 then 1 else 0
  {
    hide Booked, Asked, Count, KeysExplained, Settlement, Grew, Shape, OneHolder, AboutAssignment, SlotReturned, TaskLevelRefunded, Held;
    var back := u.history[i].status == Cancelled && Asked(cmds, ReturnedFor(tid, i)) != 0;
    released' := released + if back then 1 else 0;
    assert MovedTotals(before, after, tid, t, u, released, released') by {
      GrewBooks(before, after, cmds, Escrowed(tid));
      MovedArithmetic(before, after, tid, t, u, i, cmds, released, released');
    }
    assert TaskLevelRefunded(after, tid) <==> TaskLevelRefunded(before, tid) by {
      MovedKeys(before, after, tid, t, u, i, cmds, now);
    }
    assert SlotReturned(after, tid, u) <==> back || SlotReturned(before, tid, t) by {
      MovedSettlement(before, after, tid, t, u, i, cmds, now);
      MovedReturns(before, after, tid, t, u, i, back);
    }
  }

  ghost predicate MovedTotals(before: seq<Entry>, after: seq<Entry>, tid: TaskId, t: Task, u: Task, released: nat, released': nat) {
    && Held(after, tid) == u.reward * (u.slots - released' - Count(u.history, Settled))
    && released' + Count(u.history, Live) <= u.slots
  }

  lemma MovedArithmetic(before: seq<Entry>, after: seq<Entry>, tid: TaskId, t: Task, u: Task, i: nat, cmds: seq<Command>, released: nat, released': nat)
    requires t.origin == Member && Moved(t, u, i) && BooksDue(tid, t, u, i, cmds)
    requires Held(before, tid) == t.reward * (t.slots - released - Count(t.history, Settled))
    requires released + Count(t.history, Live) <= t.slots
    requires Booked(after, Escrowed(tid)) == Booked(before, Escrowed(tid)) + Asked(cmds, Escrowed(tid))
    requires released' == released + if u.history[i].status == Cancelled && Asked(cmds, ReturnedFor(tid, i)) != 0 then 1 else 0
    ensures MovedTotals(before, after, tid, t, u, released, released')
  {
    hide Booked, Asked, Count;
    var s := u.history[i].status;
    CountUpdate(t.history, i, u.history[i], Live);
    CountUpdate(t.history, i, u.history[i], Settled);
    var left := t.slots - released - Count(t.history, Settled);
    var gone := if Is(Settled, s) || released' > released then 1 else 0;
    assert gone == 0 || gone == 1;
    assert Asked(cmds, Escrowed(tid)) == if gone == 1 then t.reward else 0;
    assert u.slots - released' - Count(u.history, Settled) == left - gone;
    Distributes(t.reward, left, gone);
  }

  lemma MovedReturns(before: seq<Entry>, after: seq<Entry>, tid: TaskId, t: Task, u: Task, i: nat, back: bool)
    requires Moved(t, u, i)
    requires forall j | 0 <= j < |t.history| && j != i ::
               Booked(after, ReturnedFor(tid, j)) == Booked(before, ReturnedFor(tid, j))
    requires back <==> u.history[i].status == Cancelled && Booked(after, ReturnedFor(tid, i)) != 0
    ensures SlotReturned(after, tid, u) <==> back || SlotReturned(before, tid, t)
  {
    if SlotReturned(before, tid, t) {
      var j :| 0 <= j < |t.history| && t.history[j].status == Cancelled && Booked(before, ReturnedFor(tid, j)) != 0;
      assert u.history[j].status == Cancelled && Booked(after, ReturnedFor(tid, j)) != 0;
    }
    if SlotReturned(after, tid, u) {
      var j :| 0 <= j < |u.history| && u.history[j].status == Cancelled && Booked(after, ReturnedFor(tid, j)) != 0;
      if j != i {
        assert t.history[j].status == Cancelled && Booked(before, ReturnedFor(tid, j)) != 0;
      }
    }
  }

  lemma MovedWhole(before: seq<Entry>, after: seq<Entry>, tid: TaskId, t: Task, u: Task, i: nat, cmds: seq<Command>, now: int)
    requires ReturnedWhole(before, tid, t) && Settlement(before, tid, t) && Moved(t, u, i)
    requires Grew(before, after, cmds) && AboutAssignment(tid, u, i, cmds, now) && BooksDue(tid, t, u, i, cmds)
    ensures ReturnedWhole(after, tid, u)
  {
    MovedSettlement(before, after, tid, t, u, i, cmds, now);
  }

  /** Everything about a step that moves one assignment and books what its new status is due. */
  lemma MovedKeepsInv(before: seq<Entry>, after: seq<Entry>, tid: TaskId, t: Task, u: Task, i: nat, cmds: seq<Command>, now: int)
    requires TaskInv(before, tid, t, now) && Moved(t, u, i)
    requires Lifecycle(u, now) && Consent(u)
    requires u.status == Published ==> t.status == Published
    requires Grew(before, after, cmds) && AboutAssignment(tid, u, i, cmds, now) && BooksDue(tid, t, u, i, cmds)
    ensures Carried(before, after, tid, t, u, now, !Reopens(tid, u, i, cmds))
  {
    MovedShape(t, u, i);
    MovedKeys(before, after, tid, t, u, i, cmds, now);
    MovedSettlement(before, after, tid, t, u, i, cmds, now);
    if Funded(before, tid, t) && !Reopens(tid, u, i, cmds) {
      MovedFunds(before, after, tid, t, u, i, cmds, now);
    }
  }

  lemma MovedFunds(before: seq<Entry>, after: seq<Entry>, tid: TaskId, t: Task, u: Task, i: nat, cmds: seq<Command>, now: int)
    requires TaskInv(before, tid, t, now) && Moved(t, u, i) && Funded(before, tid, t)
    requires u.status == Published ==> t.status == Published
    requires Grew(before, after, cmds) && AboutAssignment(tid, u, i, cmds, now) && BooksDue(tid, t, u, i, cmds)
    requires !Reopens(tid, u, i, cmds)
    ensures Funded(after, tid, u)
  {
    hide BooksDue, Reopens, AboutAssignment, Grew, KeysExplained, Settlement, EscrowBalanced, ReturnedWhole;
    MovedWhole(before, after, tid, t, u, i, cmds, now);
    if t.origin == Member {
      var released: nat :| EscrowBalanced(before, tid, t, released);
      var released' := MovedBalance(before, after, tid, t, u, i, cmds, released, now);
    }
  }
}
