/**
 The workflows that act on a task as a whole: accepting a slot, editing, cancelling, closing
 intake, and the deadline.
 */
module EscrowCreator {
  import opened Wrappers
  import opened Ledger
  import opened Tasks
  import opened Escrow
  import opened EscrowInvariants
  import opened EscrowSteps
  import opened EscrowPerformer

  // ---------- accepting ----------

  lemma HeldSlots(h: seq<Assignment>, s: nat)
    requires OneHolder(h)
    ensures SlotHeld(h, s) <==> s in SlotsOf(h, Live)
  {
    LatestIsSomeEntry(h, s);
    if SlotHeld(h, s) {
      var i :| 0 <= i < |h| && h[i].slot == s && h[i].status != Cancelled;
      LastOfSlot(h, i);
    }
  }

  /** A live assignment is the one its slot's map entry shows. */
  lemma {:induction false} LastOfSlot(h: seq<Assignment>, i: nat)
    requires OneHolder(h) && i < |h| && h[i].status != Cancelled
    ensures h[i].slot in LatestBySlot(h) && LatestBySlot(h)[h[i].slot] == h[i].status
  {
    var n := |h| - 1;
    if i < n {
      assert h[n].slot != h[i].slot;
      LastOfSlot(h[..n], i);
    }
  }

  /** The slots with a holder are as many as the assignments not cancelled, and fit the task. */
  lemma OccupiedFits(t: Task)
    requires Shape(t)
    ensures |SlotsOf(t.history, Live)| == Count(t.history, Live) <= t.slots
    ensures forall s | s in SlotsOf(t.history, Live) :: 1 <= s <= t.slots
  {
    LatestAgrees(t.history, Live);
    forall s | s in SlotsOf(t.history, Live)
      ensures 1 <= s <= t.slots
    {
      HeldSlots(t.history, s);
    }
    SubrangeSize(SlotsOf(t.history, Live), t.slots);
  }

  lemma AcceptShape(t: Task, a: Assignment)
    requires Shape(t) && a.status == Accepted
    requires 1 <= a.slot <= t.slots && !SlotHeld(t.history, a.slot)
    requires forall i | 0 <= i < |t.history| :: t.history[i].performer != a.performer
    requires t.origin == Member ==> a.performer != t.creator
    ensures Shape(t.(history := t.history + [a]))
    ensures Count(t.history, Live) < t.slots
  {
    OccupiedFits(t);
    HeldSlots(t.history, a.slot);
    SubrangeSize(SlotsOf(t.history, Live) + {a.slot}, t.slots);
  }

  lemma AcceptSettlement(before: seq<Entry>, tid: TaskId, t: Task, a: Assignment, now: int)
    requires Settlement(before, tid, t) && KeysExplained(before, tid, t, now) && a.status == Accepted
    ensures Settlement(before, tid, t.(history := t.history + [a]))
    ensures SlotReturned(before, tid, t.(history := t.history + [a])) <==> SlotReturned(before, tid, t)
    ensures ReturnedWhole(before, tid, t) ==> ReturnedWhole(before, tid, t.(history := t.history + [a]))
  {
    var u, n := t.(history := t.history + [a]), |t.history|;
    forall k | 0 <= k < |before|
      ensures !InColumn(PaidFor(tid, n), before[k].command.key)
      ensures !InColumn(ReturnedFor(tid, n), before[k].command.key)
    {
      if TaskOf(before[k].command.key) == Some(tid) {
        assert Explained(before[k].command.key, t, now);
      }
    }
    NoKeyNothingBooked(before, PaidFor(tid, n));
    NoKeyNothingBooked(before, ReturnedFor(tid, n));
    forall i | 0 <= i < |u.history|
      ensures SettledAsDue(before, tid, u, i)
    {
      if i < n {
        assert SettledAsDue(before, tid, t, i);
      }
    }
    if SlotReturned(before, tid, t) {
      var j :| 0 <= j < |t.history| && t.history[j].status == Cancelled && Booked(before, ReturnedFor(tid, j)) != 0;
      assert u.history[j].status == Cancelled;
    }
  }

  lemma AcceptKeys(before: seq<Entry>, tid: TaskId, t: Task, u: Task, now: int)
    requires KeysExplained(before, tid, t, now) && t.status == Published
    requires |t.history| < |u.history| && u == t.(history := u.history)
    requires u.history[..|t.history|] == t.history
    ensures KeysExplained(before, tid, u, now)
  {
    assert forall i | 0 <= i < |t.history| :: u.history[..|t.history|][i] == u.history[i];
    forall n | 0 <= n < |before| && TaskOf(before[n].command.key) == Some(tid)
      ensures Explained(before[n].command.key, u, now)
    {
      assert Explained(before[n].command.key, t, now);
    }
  }

  /** What accepting promises: one more entry, for a slot nobody holds. */
  lemma AcceptEffect(t: Task, now: int, performer: MemberId, active: nat, limit: nat) returns (a: Assignment)
    requires Accept(t, now, performer, active, limit).Success?
    ensures Accept(t, now, performer, active, limit).value == Effect(t.(history := t.history + [a]), [])
    ensures a.status == Accepted && a.performer == performer && 1 <= a.slot <= t.slots && !SlotHeld(t.history, a.slot)
    ensures forall i | 0 <= i < |t.history| :: t.history[i].performer != performer
    ensures t.origin == Member ==> performer != t.creator
    ensures t.status == Published && !HasPending(t) && now < t.deadline
  {
    var u := Accept(t, now, performer, active, limit).value.task;
    hide SlotHeld;
    a := u.history[|t.history|];
    assert u.history == t.history + [a];
  }

  lemma AcceptKeeps(before: seq<Entry>, after: seq<Entry>, tid: TaskId, t: Task, now: int, performer: MemberId, active: nat, limit: nat)
    requires TaskInv(before, tid, t, now) && Accept(t, now, performer, active, limit).Success?
    ensures Keeps(before, after, tid, t, Accept(t, now, performer, active, limit).value, now, true)
  {
    hide Accept, Shape, Booked, Held, Count, KeysExplained, Settlement, SlotReturned, TaskLevelRefunded, SlotHeld, ReturnedWhole;
    var a := AcceptEffect(t, now, performer, active, limit);
    var u := t.(history := t.history + [a]);
    AcceptShape(t, a);
    AcceptSettlement(before, tid, t, a, now);
    AcceptKeys(before, tid, t, u, now);
    CountAppend(t.history, a, Live);
    CountAppend(t.history, a, Settled);
    CountAppend(t.history, a, Active);
    if t.origin == Member && Funded(before, tid, t) {
      var released: nat :| EscrowBalanced(before, tid, t, released);
      assert EscrowBalanced(before, tid, u, released);
    }
  }

  // ---------- one command about the task as a whole ----------

  /** A single new key of this task, under which nothing is booked for any assignment. */
  lemma TaskLevelStep(before: seq<Entry>, after: seq<Entry>, tid: TaskId, t: Task, u: Task, c: Command, i: nat)
    requires Grew(before, after, [c]) && TaskOf(c.key) == Some(tid) && IndexOf(c.key) == None
    requires i < |t.history| && u.history == t.history && u.origin == t.origin
    requires u.reward == t.reward || t.history[i].status == Cancelled
    requires SettledAsDue(before, tid, t, i)
    ensures SettledAsDue(after, tid, u, i)
    ensures Booked(after, ReturnedFor(tid, i)) == Booked(before, ReturnedFor(tid, i))
  {
    AskedOne(c, PaidFor(tid, i));
    AskedOne(c, ReturnedFor(tid, i));
    GrewBooks(before, after, [c], PaidFor(tid, i));
    GrewBooks(before, after, [c], ReturnedFor(tid, i));
  }

  lemma OneGrew(before: seq<Entry>, after: seq<Entry>, c: Command)
    requires Grew(before, after, [c])
    ensures |after| == |before| + 1 && after[|before|].command == c
    ensures forall n | 0 <= n < |before| :: after[n] == before[n]
    ensures forall key :: HasKey(after, key) <==> HasKey(before, key) || key == c.key
  {
    var k := 0;
    assert after[|before| + k].command == [c][k];
    assert forall n | 0 <= n < |before| :: after[n] == after[..|before|][n];
    forall key
      ensures HasKey(after, key) <==> HasKey(before, key) || key == c.key
    {
      if HasKey(before, key) {
        var n :| 0 <= n < |before| && before[n].command.key == key;
        assert after[n].command.key == key;
      }
      if key == c.key {
        assert after[|before|].command.key == key;
      }
    }
  }

  lemma TaskLevelSettlement(before: seq<Entry>, after: seq<Entry>, tid: TaskId, t: Task, u: Task, c: Command)
    requires Settlement(before, tid, t) && SameTerms(t, u) && u.history == t.history
    requires Grew(before, after, [c]) && TaskOf(c.key) == Some(tid) && IndexOf(c.key) == None
    ensures Settlement(after, tid, u)
    ensures ReturnedWhole(before, tid, t) ==> ReturnedWhole(after, tid, u)
  {
    forall i | 0 <= i < |u.history|
      ensures SettledAsDue(after, tid, u, i)
      ensures Booked(after, ReturnedFor(tid, i)) == Booked(before, ReturnedFor(tid, i))
    {
      assert SettledAsDue(before, tid, t, i);
      TaskLevelStep(before, after, tid, t, u, c, i);
    }
  }

  lemma TaskLevelKeys(before: seq<Entry>, after: seq<Entry>, tid: TaskId, t: Task, u: Task, c: Command, now: int)
    requires KeysExplained(before, tid, t, now) && u.history == t.history
    requires u.status == Published ==> t.status == Published
    requires IndexOf(c.key) == None
    requires t.status != Published ==> u.deadline == t.deadline
    requires Grew(before, after, [c]) && (TaskOf(c.key) == Some(tid) ==> Explained(c.key, u, now))
    ensures KeysExplained(after, tid, u, now)
  {
    OneGrew(before, after, c);
    forall k | 0 <= k < |after| && TaskOf(after[k].command.key) == Some(tid)
      ensures Explained(after[k].command.key, u, now)
    {
      if k < |before| {
        assert Explained(before[k].command.key, t, now);
      }
    }
  }

  lemma ReleaseBalance(before: seq<Entry>, after: seq<Entry>, tid: TaskId, t: Task, u: Task, c: Command, released: nat, n: nat)
    requires EscrowBalanced(before, tid, t, released)
    requires SameTerms(t, u) && u.history == t.history && u.status != Published
    requires c == Refund(t.creator, t.reward * n, c.key)
    requires c.key == TaskCancelRefund(tid) || c.key == CloseRefund(tid) || c.key == UnfilledRefund(tid)
    requires released + n + Count(t.history, Live) <= t.slots
    requires Grew(before, after, [c])
    ensures EscrowBalanced(after, tid, u, released + n)
  {
    hide Booked, Asked, Count, SlotReturned;
    assert TaskLevelRefunded(after, tid) by {
      OneGrew(before, after, c);
      assert HasKey(after, c.key);
    }
    hide HasKey, TaskLevelRefunded, Grew;
    AskedOne(c, Escrowed(tid));
    GrewBooks(before, after, [c], Escrowed(tid));
    var left := t.slots - released - Count(t.history, Settled);
    Distributes(t.reward, left, n);
  }

  /** A refund about the task as a whole, and closing intake for good. */
  lemma ReleaseKeeps(before: seq<Entry>, after: seq<Entry>, tid: TaskId, t: Task, u: Task, now: int, c: Command)
    requires TaskInv(before, tid, t, now)
    requires SameTerms(t, u) && u.history == t.history
    requires u.status != Published && Lifecycle(u, now) && Consent(u)
    requires TaskOf(c.key) == Some(tid) && IndexOf(c.key) == None && Explained(c.key, u, now)
    requires Grew(before, after, [c])
    ensures TaskInv(after, tid, u, now)
  {
    hide Shape, Lifecycle, Consent, KeysExplained, Settlement, Grew, ReturnedWhole;
    SameHistoryShape(t, u);
    TaskLevelSettlement(before, after, tid, t, u, c);
    TaskLevelKeys(before, after, tid, t, u, c, now);
  }

  /** If it gives back the reserve of `n` slots that nobody holds, the escrow still comes out even. */
  lemma ReleaseFunds(before: seq<Entry>, after: seq<Entry>, tid: TaskId, t: Task, u: Task, c: Command, released: nat, n: nat)
    requires Settlement(before, tid, t) && ReturnedWhole(before, tid, t) && EscrowBalanced(before, tid, t, released)
    requires SameTerms(t, u) && u.history == t.history && u.status != Published
    requires c == Refund(t.creator, t.reward * n, c.key)
    requires c.key == TaskCancelRefund(tid) || c.key == CloseRefund(tid) || c.key == UnfilledRefund(tid)
    requires released + n + Count(t.history, Live) <= t.slots
    requires Grew(before, after, [c])
    ensures Funded(after, tid, u)
    ensures EscrowBalanced(after, tid, u, released + n)
  {
    hide EscrowBalanced, Grew, Settlement, ReturnedWhole;
    TaskLevelSettlement(before, after, tid, t, u, c);
    ReleaseBalance(before, after, tid, t, u, c, released, n);
  }

  lemma SameHistoryShape(t: Task, u: Task)
    requires Shape(t) && SameTerms(t, u) && u.history == t.history
    ensures Shape(u)
  {
  }

  // ---------- cancelling and closing intake ----------

  lemma NobodyHolds(t: Task)
    requires Shape(t)
    ensures SlotsOf(t.history, Live) == {} <==> forall i | 0 <= i < |t.history| :: t.history[i].status == Cancelled
    ensures SlotsOf(t.history, Live) == {} <==> Count(t.history, Live) == 0
  {
    LatestAgrees(t.history, Live);
    CountWitness(t.history, Live);
  }

  lemma NoLiveNoActive(t: Task)
    requires Count(t.history, Live) == 0
    ensures Count(t.history, Active) == Count(t.history, Settled) == Count(t.history, Paid) == 0
  {
    CountSplits(t.history);
  }

  lemma EndedWhole(before: seq<Entry>, tid: TaskId, t: Task, now: int)
    requires TaskInv(before, tid, t, now) && t.origin == Member && t.status == Published
    requires SlotsOf(t.history, Live) == {}
    ensures var u := t.(status := TaskCancelled);
            Consent(u) && Lifecycle(u, now) && Explained(TaskCancelRefund(tid), u, now)
    ensures t.reserved == t.reward * t.slots > 0 && Count(t.history, Live) == 0
    ensures !HasKey(before, TaskCancelRefund(tid))
    ensures Funded(before, tid, t) ==> EscrowBalanced(before, tid, t, 0)
  {
    hide Count, Booked, Held, Settlement, LatestBySlot, SlotReturned, ReturnedWhole;
    NobodyHolds(t);
    NoLiveNoActive(t);
    CloseIsFreshFromPublished(before, tid, t, now);
    Times(t.reward, 1, t.slots);
    if Funded(before, tid, t) {
      var released: nat :| EscrowBalanced(before, tid, t, released);
      assert released == 0;
    }
  }

  /** Ending a published task that nobody holds returns its whole reserve. */
  lemma WholeReserveKeeps(before: seq<Entry>, after: seq<Entry>, tid: TaskId, t: Task, now: int)
    requires TaskInv(before, tid, t, now) && t.origin == Member && t.status == Published
    requires SlotsOf(t.history, Live) == {}
    requires Posted(before, after, [Refund(t.creator, t.reserved, TaskCancelRefund(tid))])
    ensures Keeps(before, after, tid, t, Effect(t.(status := TaskCancelled), [Refund(t.creator, t.reserved, TaskCancelRefund(tid))]), now, true)
  {
    var c, u := Refund(t.creator, t.reserved, TaskCancelRefund(tid)), t.(status := TaskCancelled);
    EndedWhole(before, tid, t, now);
    assert Settlement(before, tid, t);
    hide TaskInv, Shape, Lifecycle, Consent, Grew, LatestBySlot, EscrowBalanced, Settlement, ReturnedWhole;
    assert [c][0] == c;
    assert Grew(before, after, [c]);
    ReleaseKeeps(before, after, tid, t, u, now, c);
    if Funded(before, tid, t) {
      ReleaseFunds(before, after, tid, t, u, c, 0, t.slots);
    }
  }

  lemma CancelTaskKeeps(before: seq<Entry>, after: seq<Entry>, tid: TaskId, t: Task, now: int)
    requires TaskInv(before, tid, t, now) && CancelTask(tid, t, now).Success?
    requires Posted(before, after, CancelTask(tid, t, now).value.commands)
    ensures Keeps(before, after, tid, t, CancelTask(tid, t, now).value, now, true)
  {
    NobodyHolds(t);
    WholeReserveKeeps(before, after, tid, t, now);
  }

  /** Closing again after a cancelled slot's reserve went back, with the close refund unused,
      counts that slot as free once more. */
  predicate ClosesTwice(entries: seq<Entry>, tid: TaskId, t: Task) {
    && t.status == PartiallyCompleted
    && FreeSlots(t) > 0
    && !HasKey(entries, CloseRefund(tid))
    && exists i | 0 <= i < |t.history| ::
         t.history[i].status == Cancelled && Booked(entries, ReturnedFor(tid, i)) != 0
  }

  lemma FirstCloseConsent(t: Task, u: Task)
    requires Consent(t) && t.status == Published
    requires u.history == t.history && u.status == ClosedForNewPerformers
    requires var asked := ConsentRequests(t.history, |t.history|);
             u.requests == t.requests + if asked == [] then [] else [CancelRequest(Pending, asked)]
    ensures Consent(u)
  {
    var asked := ConsentRequests(t.history, |t.history|);
    if asked != [] {
      assert u.requests == [CancelRequest(Pending, asked)];
      assert asked[0].status == Unanswered;
    }
  }

  lemma {:induction false} NoneAcceptedNoneAsked(h: seq<Assignment>, n: nat)
    requires n <= |h| && forall i | 0 <= i < n :: h[i].status != Accepted
    ensures ConsentRequests(h, n) == []
  {
    if n > 0 {
      NoneAcceptedNoneAsked(h, n - 1);
    }
  }

  lemma IdleAsksNobody(t: Task)
    requires Count(t.history, Active) == 0
    ensures ConsentRequests(t.history, |t.history|) == []
  {
    CountWitness(t.history, Active);
    assert forall i | 0 <= i < |t.history| :: !Is(Active, t.history[i].status);
    NoneAcceptedNoneAsked(t.history, |t.history|);
  }

  lemma SecondCloseConsent(t: Task, u: Task)
    requires Consent(t) && u.history == t.history && u.requests == t.requests
    requires u.status == ClosedForNewPerformers
    ensures Consent(u)
  {
    if t.requests != [] {
      forall k | 0 <= k < |u.requests[0].responses|
        ensures ResponseSound(u, 0, k)
      {
        assert ResponseSound(t, 0, k);
      }
    }
  }

  lemma CloseIsFreshFromPublished(before: seq<Entry>, tid: TaskId, t: Task, now: int)
    requires KeysExplained(before, tid, t, now) && t.status == Published
    ensures !TaskLevelRefunded(before, tid)
  {
    forall n | 0 <= n < |before|
      ensures before[n].command.key != CloseRefund(tid)
      ensures before[n].command.key != TaskCancelRefund(tid)
      ensures before[n].command.key != UnfilledRefund(tid)
    {
      if TaskOf(before[n].command.key) == Some(tid) {
        assert Explained(before[n].command.key, t, now);
      }
    }
  }

  lemma OnlyCloseAfterPayment(before: seq<Entry>, tid: TaskId, t: Task, now: int)
    requires KeysExplained(before, tid, t, now) && Count(t.history, Paid) > 0 && now < t.deadline
    ensures TaskLevelRefunded(before, tid) <==> HasKey(before, CloseRefund(tid))
  {
    CountWitness(t.history, Paid);
    forall n | 0 <= n < |before|
      ensures before[n].command.key != TaskCancelRefund(tid)
      ensures before[n].command.key != UnfilledRefund(tid)
    {
      if TaskOf(before[n].command.key) == Some(tid) {
        assert Explained(before[n].command.key, t, now);
      }
    }
  }

  /** Closing an open task asks every performer who has merely accepted, and nobody else. */
  lemma ClosingAsksExactlyTheAccepted(tid: TaskId, t: Task, now: int, i: nat)
    requires Shape(t) && Consent(t) && t.status == Published && RequestCancellation(tid, t, now).Success? && i < |t.history|
    requires RequestCancellation(tid, t, now).value.task.status == ClosedForNewPerformers
    ensures var u := RequestCancellation(tid, t, now).value.task;
            t.history[i].status == Accepted <==> |u.requests| == 1 && Response(i, Unanswered) in u.requests[0].responses
  {
    hide SlotsOf, FreeSlots;
    var u, asked := RequestCancellation(tid, t, now).value.task, ConsentRequests(t.history, |t.history|);
    assert t.requests == [];
    assert asked != [] ==> u.requests == [CancelRequest(Pending, asked)];
    if t.history[i].status == Accepted {
      assert IsLatest(t.history, i);
      assert Response(i, Unanswered) in asked;
    }
  }

  lemma ClosedConsent(tid: TaskId, t: Task, now: int)
    requires Consent(t) && Lifecycle(t, now) && RequestCancellation(tid, t, now).Success?
    requires RequestCancellation(tid, t, now).value.task.status == ClosedForNewPerformers
    ensures Consent(RequestCancellation(tid, t, now).value.task)
  {
    var u := RequestCancellation(tid, t, now).value.task;
    if t.status == Published {
      FirstCloseConsent(t, u);
    } else {
      IdleAsksNobody(t);
      SecondCloseConsent(t, u);
    }
  }

  /** Before a safe close that returns anything, no slot has been released. */
  lemma NothingReleasedYet(before: seq<Entry>, tid: TaskId, t: Task, now: int, released: nat)
    requires TaskInv(before, tid, t, now) && EscrowBalanced(before, tid, t, released)
    requires t.status == Published || (t.status == PartiallyCompleted && now < t.deadline && FreeSlots(t) > 0)
    requires !ClosesTwice(before, tid, t) && !HasKey(before, CloseRefund(tid))
    ensures released == 0
  {
    if t.status != Published {
      OnlyCloseAfterPayment(before, tid, t, now);
      assert !SlotReturned(before, tid, t);
    }
  }

  lemma ClosingKeeps(before: seq<Entry>, after: seq<Entry>, tid: TaskId, t: Task, u: Task, now: int, cmds: seq<Command>)
    requires TaskInv(before, tid, t, now) && t.origin == Member
    requires t.status == Published || (t.status == PartiallyCompleted && now < t.deadline)
    requires SameTerms(t, u) && u.history == t.history && u.status == ClosedForNewPerformers && Consent(u)
    requires cmds == if FreeSlots(t) > 0 then [Refund(t.creator, FreeSlots(t) * t.reward, CloseRefund(tid))] else []
    requires Posted(before, after, cmds)
    requires !AllNew(before, cmds) ==> after == before
    ensures Carried(before, if cmds == [] then before else after, tid, t, u, now, !ClosesTwice(before, tid, t))
  {
    if cmds == [] || HasKey(before, CloseRefund(tid)) {
      assert cmds == [] || !AllNew(before, cmds) by {
        assert cmds != [] ==> cmds[0].key == CloseRefund(tid);
      }
      hide TaskInv, ClosesTwice, Funded, Consent;
      CloseQuietly(before, tid, t, u, now);
    } else {
      var c := Refund(t.creator, t.reward * FreeSlots(t), CloseRefund(tid));
      assert cmds == [c];
      assert Grew(before, after, [c]);
      hide ClosesTwice, Shape, KeysExplained, Settlement, Grew, EscrowBalanced;
      ReleaseKeeps(before, after, tid, t, u, now, c);
      if Funded(before, tid, t) && !ClosesTwice(before, tid, t) {
        ClosingFunds(before, after, tid, t, u, now, c);
      }
    }
  }

  /** A first close gives back the free slots of a task none of whose slots had been given back. */
  lemma ClosingFunds(before: seq<Entry>, after: seq<Entry>, tid: TaskId, t: Task, u: Task, now: int, c: Command)
    requires TaskInv(before, tid, t, now) && Funded(before, tid, t) && t.origin == Member && !ClosesTwice(before, tid, t)
    requires t.status == Published || (t.status == PartiallyCompleted && now < t.deadline)
    requires SameTerms(t, u) && u.history == t.history && u.status == ClosedForNewPerformers
    requires FreeSlots(t) > 0 && !HasKey(before, CloseRefund(tid))
    requires c == Refund(t.creator, t.reward * FreeSlots(t), CloseRefund(tid)) && Grew(before, after, [c])
    ensures Funded(after, tid, u)
  {
    var released: nat :| EscrowBalanced(before, tid, t, released);
    NothingReleasedYet(before, tid, t, now, released);
    assert Shape(t) && Settlement(before, tid, t);
    OccupiedFits(t);
    hide TaskInv, ClosesTwice, EscrowBalanced, Consent, Shape, ReturnedWhole, Settlement, HasKey, Grew;
    ReleaseFunds(before, after, tid, t, u, c, released, FreeSlots(t));
  }

  /** Closing intake keeps the invariant, and the escrow even unless it would return a slot's reserve
      twice. When the close refund is already stored the ledger does not change. */
  lemma RequestKeeps(before: seq<Entry>, after: seq<Entry>, tid: TaskId, t: Task, now: int)
    requires TaskInv(before, tid, t, now) && RequestCancellation(tid, t, now).Success?
    requires Posted(before, after, RequestCancellation(tid, t, now).value.commands)
    requires !AllNew(before, RequestCancellation(tid, t, now).value.commands) ==> after == before
    ensures Carried(before, if RequestCancellation(tid, t, now).value.commands == [] then before else after,
                    tid, t, RequestCancellation(tid, t, now).value.task, now, !ClosesTwice(before, tid, t))
  {
    var eff := RequestCancellation(tid, t, now).value;
    assert Shape(t) && Consent(t) && Lifecycle(t, now);
    NobodyHolds(t);
    CountSplits(t.history);
    hide TaskInv, ClosesTwice, Consent, Shape, Posted, FreeSlots, Funded;
    if eff.task == t {
    } else if eff.task.status == TaskCancelled {
      WholeReserveKeeps(before, after, tid, t, now);
    } else {
      ClosedConsent(tid, t, now);
      ClosingKeeps(before, after, tid, t, eff.task, now, eff.commands);
    }
  }

  lemma CloseQuietly(before: seq<Entry>, tid: TaskId, t: Task, u: Task, now: int)
    requires TaskInv(before, tid, t, now)
    requires SameTerms(t, u) && u.history == t.history && u.status == ClosedForNewPerformers && Consent(u)
    ensures Carried(before, before, tid, t, u, now, true)
  {
    forall n | 0 <= n < |before| && TaskOf(before[n].command.key) == Some(tid)
      ensures Explained(before[n].command.key, u, now)
    {
      assert Explained(before[n].command.key, t, now);
    }
    forall i | 0 <= i < |u.history|
      ensures SettledAsDue(before, tid, u, i)
    {
      assert SettledAsDue(before, tid, t, i);
    }
    if t.origin == Member && Funded(before, tid, t) {
      var released: nat :| EscrowBalanced(before, tid, t, released);
      assert SlotReturned(before, tid, u) == SlotReturned(before, tid, t);
      assert EscrowBalanced(before, tid, u, released);
    }
  }

  lemma SecondCloseEffect(tid: TaskId, t: Task, now: int)
    requires t.origin == Member && now < t.deadline && t.status == PartiallyCompleted
    requires FreeSlots(t) > 0 && SlotsOf(t.history, Live) != {} && !HasPending(t)
    ensures RequestCancellation(tid, t, now).Success?
    ensures var eff := RequestCancellation(tid, t, now).value;
            && eff.commands == [Refund(t.creator, FreeSlots(t) * t.reward, CloseRefund(tid))]
            && eff.task.history == t.history && SameTerms(t, eff.task)
  {
    hide FreeSlots, SlotsOf, HasPending, ConsentRequests;
  }

  /** In that state closing is not refused, and asks for a refund the ledger has not seen. */
  lemma SecondCloseCommits(before: seq<Entry>, tid: TaskId, t: Task, now: int)
    requires TaskInv(before, tid, t, now) && t.origin == Member && now < t.deadline
    requires ClosesTwice(before, tid, t)
    ensures RequestCancellation(tid, t, now).Success?
    ensures RequestCancellation(tid, t, now).value.commands
         == [Refund(t.creator, FreeSlots(t) * t.reward, CloseRefund(tid))]
    ensures FreshBatch(before, tid, RequestCancellation(tid, t, now).value.commands)
    ensures RequestCancellation(tid, t, now).value.task.history == t.history
    ensures SameTerms(t, RequestCancellation(tid, t, now).value.task)
  {
    hide Booked, Settlement, KeysExplained, SlotsOf, HasPending, FreeSlots, RequestCancellation;
    NobodyHolds(t);
    CountSplits(t.history);
    NoPendingWhenIdle(t, now);
    SecondCloseEffect(tid, t, now);
    Times(t.reward, 1, FreeSlots(t));
  }

  lemma ReleasedSomething(before: seq<Entry>, tid: TaskId, t: Task, now: int, released: nat)
    requires TaskInv(before, tid, t, now) && t.origin == Member && now < t.deadline
    requires ClosesTwice(before, tid, t) && EscrowBalanced(before, tid, t, released)
    ensures released > 0 && FreeSlots(t) == t.slots - Count(t.history, Settled)
  {
    hide Booked, Count, Held, Settlement, LatestBySlot;
    OccupiedFits(t);
    CountSplits(t.history);
    OnlyCloseAfterPayment(before, tid, t, now);
    assert SlotReturned(before, tid, t);
  }

  /** How far a second close overdraws: by the reward of every slot already released. */
  lemma OverdrawnBy(before: seq<Entry>, tid: TaskId, t: Task, now: int, released: nat)
    requires TaskInv(before, tid, t, now) && t.origin == Member && now < t.deadline
    requires ClosesTwice(before, tid, t) && EscrowBalanced(before, tid, t, released)
    ensures released > 0
    ensures Held(before, tid) - FreeSlots(t) * t.reward == -(t.reward * released)
  {
    ReleasedSomething(before, tid, t, now, released);
    hide TaskInv, ClosesTwice, FreeSlots, Count, Booked, SlotReturned, TaskLevelRefunded;
    Distributes(t.reward, FreeSlots(t), released);
  }

  lemma BalancedIsSolvent(entries: seq<Entry>, tid: TaskId, t: Task, released: nat)
    requires EscrowBalanced(entries, tid, t, released)
    ensures Held(entries, tid) >= t.reward * Count(t.history, Active) >= 0
  {
    hide Booked, Count, SlotReturned, TaskLevelRefunded;
    CountSplits(t.history);
    var left := t.slots - released - Count(t.history, Settled);
    Times(t.reward, Count(t.history, Active), left);
  }

  /** And exactly then it breaks the identity: the close refund gives back a slot a second time,
      and more has left escrow than was ever put in. */
  lemma SecondCloseOverdraws(before: seq<Entry>, after: seq<Entry>, tid: TaskId, t: Task, now: int)
    requires TaskInv(before, tid, t, now) && Funded(before, tid, t) && t.origin == Member && now < t.deadline
    requires ClosesTwice(before, tid, t)
    requires RequestCancellation(tid, t, now).Success?
    requires Grew(before, after, RequestCancellation(tid, t, now).value.commands)
    ensures Held(after, tid) < 0
    ensures !Funded(after, tid, RequestCancellation(tid, t, now).value.task)
  {
    hide RequestCancellation, EscrowBalanced, Shape, Lifecycle, Consent, KeysExplained, Settlement, ClosesTwice, FreeSlots, Booked, Grew, FreshBatch, Count;
    SecondCloseCommits(before, tid, t, now);
    var released: nat :| EscrowBalanced(before, tid, t, released);
    OverdrawnBy(before, tid, t, now, released);
    PositiveTerms(before, tid, t, now);
    var u, c := RequestCancellation(tid, t, now).value.task, Refund(t.creator, FreeSlots(t) * t.reward, CloseRefund(tid));
    AskedOne(c, Escrowed(tid));
    GrewBooks(before, after, [c], Escrowed(tid));
    Times(t.reward, 1, released);
    if Funded(after, tid, u) {
      var r: nat :| EscrowBalanced(after, tid, u, r);
      BalancedIsSolvent(after, tid, u, r);
    }
  }

  lemma PositiveTerms(entries: seq<Entry>, tid: TaskId, t: Task, now: int)
    requires TaskInv(entries, tid, t, now)
    ensures t.reward > 0 && t.slots > 0
  {
  }

  lemma NoPendingWhenIdle(t: Task, now: int)
    requires Consent(t) && Lifecycle(t, now) && IsFinal(t.status)
    ensures !HasPending(t)
  {
    CountWitness(t.history, Active);
    if t.requests != [] {
      var r := t.requests[0];
      forall k | 0 <= k < |r.responses|
        ensures r.responses[k].status != Unanswered
      {
        assert ResponseSound(t, 0, k);
        assert r.responses[k].status == Unanswered ==> Is(Active, t.history[r.responses[k].index].status);
      }
    }
  }

  // ---------- editing ----------

  lemma UnclaimedFacts(before: seq<Entry>, tid: TaskId, t: Task, now: int)
    requires TaskInv(before, tid, t, now) && Funded(before, tid, t) && t.origin == Member && t.status == Published
    requires forall i | 0 <= i < |t.history| :: t.history[i].status == Cancelled
    ensures Count(t.history, Live) == Count(t.history, Settled) == 0
    ensures !TaskLevelRefunded(before, tid) && !SlotReturned(before, tid, t)
    ensures Held(before, tid) == t.reserved
    ensures forall i | 0 <= i < |t.history| :: Booked(before, ReturnedFor(tid, i)) == 0
  {
    NobodyHolds(t);
    NoLiveNoActive(t);
    CloseIsFreshFromPublished(before, tid, t, now);
    var released: nat :| EscrowBalanced(before, tid, t, released);
    assert released == 0;
    forall i | 0 <= i < |t.history|
      ensures Booked(before, ReturnedFor(tid, i)) == 0
    {
      assert SettledAsDue(before, tid, t, i);
    }
  }

  /** New terms for a task nobody holds. */
  ghost predicate NewTerms(t: Task, u: Task, now: int) {
    && t.origin == Member && t.status == Published && now < u.deadline
    && (forall i | 0 <= i < |t.history| :: t.history[i].status == Cancelled)
    && u == t.(reward := u.reward, slots := u.slots, reserved := u.reward * u.slots, deadline := u.deadline)
    && u.reward > 0 && u.slots > 0
  }

  ghost predicate SameColumns(before: seq<Entry>, after: seq<Entry>, tid: TaskId) {
    forall i: nat ::
      && Booked(after, PaidFor(tid, i)) == Booked(before, PaidFor(tid, i))
      && Booked(after, ReturnedFor(tid, i)) == Booked(before, ReturnedFor(tid, i))
  }

  lemma NewTermsKeep(before: seq<Entry>, after: seq<Entry>, tid: TaskId, t: Task, u: Task, now: int)
    requires TaskInv(before, tid, t, now) && NewTerms(t, u, now)
    requires KeysExplained(after, tid, u, now) && SameColumns(before, after, tid)
    ensures TaskInv(after, tid, u, now)
  {
    NobodyHolds(t);
    NoLiveNoActive(t);
    forall i | 0 <= i < |u.history|
      ensures SettledAsDue(after, tid, u, i)
    {
      assert SettledAsDue(before, tid, t, i);
    }
  }

  /** Once the ledger holds exactly their reserve, the escrow comes out even. */
  lemma NewTermsFund(before: seq<Entry>, after: seq<Entry>, tid: TaskId, t: Task, u: Task, now: int)
    requires TaskInv(before, tid, t, now) && Funded(before, tid, t) && NewTerms(t, u, now)
    requires TaskInv(after, tid, u, now) && SameColumns(before, after, tid)
    requires Held(after, tid) == Held(before, tid) + u.reserved - t.reserved
    ensures Funded(after, tid, u)
  {
    UnclaimedFacts(before, tid, t, now);
    CloseIsFreshFromPublished(after, tid, u, now);
    assert EscrowBalanced(after, tid, u, 0);
  }

  lemma EditColumns(before: seq<Entry>, after: seq<Entry>, tid: TaskId, c: Command)
    requires (c.key.EditReserve? || c.key.EditRefund?) && c.key.task == tid && Grew(before, after, [c])
    ensures SameColumns(before, after, tid) && Held(after, tid) == Held(before, tid) - c.credit
  {
    AskedOne(c, Escrowed(tid));
    GrewBooks(before, after, [c], Escrowed(tid));
    forall i: nat
      ensures Booked(after, PaidFor(tid, i)) == Booked(before, PaidFor(tid, i))
      ensures Booked(after, ReturnedFor(tid, i)) == Booked(before, ReturnedFor(tid, i))
    {
      AskedOne(c, PaidFor(tid, i));
      AskedOne(c, ReturnedFor(tid, i));
      GrewBooks(before, after, [c], PaidFor(tid, i));
      GrewBooks(before, after, [c], ReturnedFor(tid, i));
    }
  }

  /** Moving the difference between two reserves leaves exactly the new reserve in escrow. */
  lemma EditPosted(before: seq<Entry>, after: seq<Entry>, tid: TaskId, t: Task, u: Task, now: int, c: Command)
    requires TaskInv(before, tid, t, now) && NewTerms(t, u, now)
    requires c.credit == t.reserved - u.reserved && (c.key.EditReserve? || c.key.EditRefund?) && c.key.task == tid
    requires Grew(before, after, [c])
    ensures Carried(before, after, tid, t, u, now, true)
  {
    TaskLevelKeys(before, after, tid, t, u, c, now);
    EditColumns(before, after, tid, c);
    hide TaskInv, KeysExplained, SameColumns, Funded, NewTerms, Grew;
    NewTermsKeep(before, after, tid, t, u, now);
    if Funded(before, tid, t) {
      NewTermsFund(before, after, tid, t, u, now);
    }
  }

  lemma EditUnposted(before: seq<Entry>, tid: TaskId, t: Task, u: Task, now: int)
    requires TaskInv(before, tid, t, now) && NewTerms(t, u, now) && u.reserved == t.reserved
    ensures Carried(before, before, tid, t, u, now, true)
  {
    forall n | 0 <= n < |before| && TaskOf(before[n].command.key) == Some(tid)
      ensures Explained(before[n].command.key, u, now)
    {
      assert Explained(before[n].command.key, t, now);
    }
    hide TaskInv, Funded;
    NewTermsKeep(before, before, tid, t, u, now);
    if Funded(before, tid, t) {
      NewTermsFund(before, before, tid, t, u, now);
    }
  }

  lemma EditKeeps(before: seq<Entry>, after: seq<Entry>, tid: TaskId, t: Task, now: int, update: UpdateId, reward: nat, slots: nat, deadline: int)
    requires TaskInv(before, tid, t, now) && Edit(tid, t, now, update, reward, slots, deadline).Success?
    requires !HasKey(before, EditReserve(tid, update)) && !HasKey(before, EditRefund(tid, update))
    requires Posted(before, after, Edit(tid, t, now, update, reward, slots, deadline).value.commands)
    ensures Keeps(before, after, tid, t, Edit(tid, t, now, update, reward, slots, deadline).value, now, true)
  {
    var eff := Edit(tid, t, now, update, reward, slots, deadline).value;
    hide TaskInv;
    if eff.commands == [] {
      EditUnposted(before, tid, t, eff.task, now);
    } else {
      var c := eff.commands[0];
      assert eff.commands == [c];
      assert AllNew(before, [c]);
      EditPosted(before, after, tid, t, eff.task, now, c);
    }
  }

  // ---------- a new task, other tasks, later times ----------

  /** A task as published: nothing has happened to it, and its reserve is on the ledger. */
  lemma PublishedKeeps(after: seq<Entry>, tid: TaskId, t: Task, now: int)
    requires t.reward > 0 && t.slots > 0 && t.status == Published && t.history == [] && t.requests == []
    requires t.reserved == if t.origin == Member then t.reward * t.slots else 0
    requires forall n | 0 <= n < |after| && TaskOf(after[n].command.key) == Some(tid) ::
               after[n].command.key == PublishReserve(tid)
    requires t.origin == Member ==> Held(after, tid) == t.reserved
    ensures TaskInv(after, tid, t, now) && Funded(after, tid, t)
  {
    assert !TaskLevelRefunded(after, tid);
    if t.origin == Member {
      assert EscrowBalanced(after, tid, t, 0);
    }
  }

  /** What is booked about other tasks leaves this one alone. */
  lemma OthersKeep(before: seq<Entry>, after: seq<Entry>, tid: TaskId, t: Task, now: int, cmds: seq<Command>)
    requires TaskInv(before, tid, t, now) && Grew(before, after, cmds)
    requires forall n | 0 <= n < |cmds| :: TaskOf(cmds[n].key) != Some(tid)
    ensures Carried(before, after, tid, t, t, now, true)
    ensures Held(after, tid) == Held(before, tid)
  {
    forall n | 0 <= n < |after| && TaskOf(after[n].command.key) == Some(tid)
      ensures n < |before| && before[n] == after[n]
    {
      assert n >= |before| ==> after[|before| + (n - |before|)].command == cmds[n - |before|];
      assert after[..|before|][n] == after[n];
    }
    assert forall n | 0 <= n < |before| :: after[..|before|][n] == after[n];
    assert TaskLevelRefunded(after, tid) <==> TaskLevelRefunded(before, tid);
    NotAsked(cmds, tid, Escrowed(tid));
    GrewBooks(before, after, cmds, Escrowed(tid));
    forall i: nat
      ensures Booked(after, PaidFor(tid, i)) == Booked(before, PaidFor(tid, i))
      ensures Booked(after, ReturnedFor(tid, i)) == Booked(before, ReturnedFor(tid, i))
    {
      NotAsked(cmds, tid, PaidFor(tid, i));
      NotAsked(cmds, tid, ReturnedFor(tid, i));
      GrewBooks(before, after, cmds, PaidFor(tid, i));
      GrewBooks(before, after, cmds, ReturnedFor(tid, i));
    }
    forall i | 0 <= i < |t.history|
      ensures SettledAsDue(after, tid, t, i)
    {
      assert SettledAsDue(before, tid, t, i);
    }
    if t.origin == Member && Funded(before, tid, t) {
      var released: nat :| EscrowBalanced(before, tid, t, released);
      assert SlotReturned(after, tid, t) == SlotReturned(before, tid, t);
      assert EscrowBalanced(after, tid, t, released);
    }
  }

  lemma {:induction false} NotAsked(cmds: seq<Command>, tid: TaskId, col: Column)
    requires col.task == tid && forall n | 0 <= n < |cmds| :: TaskOf(cmds[n].key) != Some(tid)
    ensures Asked(cmds, col) == 0
  {
    if cmds != [] {
      NotAsked(cmds[..|cmds| - 1], tid, col);
    }
  }

  lemma LaterKeeps(entries: seq<Entry>, tid: TaskId, t: Task, now: int, later: int)
    requires TaskInv(entries, tid, t, now) && now <= later
    ensures TaskInv(entries, tid, t, later)
  {
    forall n | 0 <= n < |entries| && TaskOf(entries[n].command.key) == Some(tid)
      ensures Explained(entries[n].command.key, t, later)
    {
      assert Explained(entries[n].command.key, t, now);
    }
  }
}
