/**
 Tasks, their slots, and the assignments that have ever held a slot. A task's history lists its
 assignments in the order they were accepted; an assignment is named by its position in it.
 */
module Tasks {
  import opened Wrappers
  import opened Ledger

  datatype Origin = Member | Community

  datatype TaskStatus =
    | Published
    | ClosedForNewPerformers
    | Settling
    | Expired
    | PartiallyCompleted
    | Completed
    | TaskCancelled

  datatype Decision = Full | Partial | Reject

  datatype Outcome =
    | Decided(decision: Decision)
    | Autoconfirmed
    | RejectionFinal
    | Absent
    | Resolved(code: ResolutionCode)

  datatype ResolutionCode =
    | FullPayment
    | PartialPayment
    | FullRefund
    | CancelWithoutFault
    | PerformerNoShow
    | CreatorAbuse
    | Fraud

  datatype Assignment = Assignment(
    performer: MemberId,
    slot: nat,
    status: AssignmentStatus,
    reviewDeadline: Option<int>,
    rejectedAt: Option<int>,
    disputeDeadline: Option<int>,
    outcome: Option<Outcome>,
    command: Option<nat>)

  datatype RequestStatus = Pending | RequestCompleted | Obsolete

  datatype ResponseStatus = Unanswered | Consented | Declined | Withdrawn

  datatype Response = Response(index: nat, status: ResponseStatus)

  datatype CancelRequest = CancelRequest(status: RequestStatus, responses: seq<Response>)

  datatype Task = Task(
    origin: Origin,
    creator: MemberId,
    reward: nat,
    slots: nat,
    reserved: nat,
    deadline: int,
    status: TaskStatus,
    history: seq<Assignment>,
    requests: seq<CancelRequest>)

  /** The groups of assignment statuses the source distinguishes. */
  datatype Class = Live | Active | Paid | Settled

  predicate Is(c: Class, s: AssignmentStatus) {
    match c
    case Live => s != Cancelled
    case Active => s == Accepted || s == Submitted || s == RejectedPendingDispute || s == Disputed
                   || s == ReviewerRequired
    case Paid => s == Approved || s == PartiallyApproved
    case Settled => s == Approved || s == PartiallyApproved || s == Rejected || s == NoShow
  }

  // ---------- the latest assignment of every slot ----------

  /** Folding a history, oldest first, into a map leaves each slot's last entry. */
  function LatestBySlot(h: seq<Assignment>): (m: map<nat, AssignmentStatus>) {
    if h == [] then map[]
    else
      var last := h[|h| - 1];
      LatestBySlot(h[..|h| - 1])[last.slot := last.status]
  }

  function SlotsOf(h: seq<Assignment>, c: Class): (r: set<nat>) {
    var latest := LatestBySlot(h);
    set s | s in latest && Is(c, latest[s])
  }

  /** The lifecycle state derived from the latest assignment of every slot. */
  function Derive(current: TaskStatus, slots: nat, deadline: int, now: int, h: seq<Assignment>): (s: TaskStatus) {
    var hasOpenSlots := current == Published && now < deadline && |LatestBySlot(h)| < slots;
    if SlotsOf(h, Active) != {} || hasOpenSlots then
      if current == ClosedForNewPerformers && now < deadline then ClosedForNewPerformers
      else if now < deadline then Published
      else Settling
    else if |SlotsOf(h, Paid)| == slots then Completed
    else if |SlotsOf(h, Paid)| > 0 then PartiallyCompleted
    else Expired
  }

  // ---------- counting assignments ----------

  function Count(h: seq<Assignment>, c: Class): nat {
    if h == [] then 0
    else Count(h[..|h| - 1], c) + if Is(c, h[|h| - 1].status) then 1 else 0
  }

  lemma CountAppend(h: seq<Assignment>, a: Assignment, c: Class)
    ensures Count(h + [a], c) == Count(h, c) + if Is(c, a.status) then 1 else 0
  {
    assert (h + [a])[..|h|] == h;
  }

  lemma {:induction false} CountUpdate(h: seq<Assignment>, i: nat, a: Assignment, c: Class)
    requires i < |h|
    ensures Count(h[i := a], c)
         == Count(h, c) - (if Is(c, h[i].status) then 1 else 0) + (if Is(c, a.status) then 1 else 0)
  {
    var n := |h| - 1;
    if i == n {
      assert h[i := a][..n] == h[..n];
    } else {
      assert h[i := a][..n] == h[..n][i := a];
      CountUpdate(h[..n], i, a, c);
    }
  }

  lemma {:induction false} CountSplits(h: seq<Assignment>)
    ensures Count(h, Live) == Count(h, Active) + Count(h, Settled)
    ensures Count(h, Paid) <= Count(h, Settled)
  {
    if h != [] {
      CountSplits(h[..|h| - 1]);
    }
  }

  lemma {:induction false} CountWitness(h: seq<Assignment>, c: Class)
    ensures Count(h, c) > 0 <==> exists i | 0 <= i < |h| :: Is(c, h[i].status)
  {
    if h != [] {
      var f := h[..|h| - 1];
      CountWitness(f, c);
      assert forall i | 0 <= i < |f| :: f[i] == h[i];
      if Is(c, h[|h| - 1].status) {
        assert Is(c, h[|h| - 1].status);
      }
    }
  }

  // ---------- the map against the whole history ----------

  /** Only a slot's last assignment may still hold it; every earlier one was cancelled. */
  ghost predicate OneHolder(h: seq<Assignment>) {
    forall i, j | 0 <= i < j < |h| && h[i].slot == h[j].slot :: h[i].status == Cancelled
  }

  lemma {:induction false} LatestIsSomeEntry(h: seq<Assignment>, s: nat)
    ensures s in LatestBySlot(h) <==> exists i | 0 <= i < |h| :: h[i].slot == s
    ensures s in LatestBySlot(h) ==>
              exists i | 0 <= i < |h| :: h[i].slot == s && h[i].status == LatestBySlot(h)[s]
  {
    if h != [] {
      var n := |h| - 1;
      LatestIsSomeEntry(h[..n], s);
      if s != h[n].slot && s in LatestBySlot(h) {
        var i :| 0 <= i < n && h[..n][i].slot == s && h[..n][i].status == LatestBySlot(h[..n])[s];
        assert h[i].slot == s && h[i].status == LatestBySlot(h)[s];
      }
      if s == h[n].slot {
        assert h[n].slot == s;
      }
      if i :| 0 <= i < |h| && h[i].slot == s && i < n {
        assert h[..n][i].slot == s;
      }
    }
  }

  lemma SlotsOfStep(f: seq<Assignment>, a: Assignment, c: Class)
    ensures SlotsOf(f + [a], c) == SlotsOf(f, c) - {a.slot} + (if Is(c, a.status) then {a.slot} else {})
  {
    assert (f + [a])[..|f|] == f;
  }

  lemma LastEntrySlotWasFree(f: seq<Assignment>, a: Assignment, c: Class)
    requires OneHolder(f + [a])
    ensures OneHolder(f) && a.slot !in SlotsOf(f, c)
  {
    var h := f + [a];
    forall i, j | 0 <= i < j < |f| && f[i].slot == f[j].slot
      ensures f[i].status == Cancelled
    {
      assert h[i] == f[i] && h[j] == f[j];
    }
    LatestIsSomeEntry(f, a.slot);
    if a.slot in LatestBySlot(f) {
      var i :| 0 <= i < |f| && f[i].slot == a.slot && f[i].status == LatestBySlot(f)[a.slot];
      assert h[i] == f[i] && h[|f|] == a;
    }
  }

  /** In a history with one holder a slot, the one-pass map loses nothing: it finds as many
      slots of every class as there are assignments of that class. */
  lemma {:induction false} LatestAgrees(h: seq<Assignment>, c: Class)
    requires OneHolder(h)
    ensures |SlotsOf(h, c)| == Count(h, c)
  {
    if h != [] {
      hide OneHolder;
      var f, a := h[..|h| - 1], h[|h| - 1];
      assert h == f + [a];
      LastEntrySlotWasFree(f, a, c);
      LatestAgrees(f, c);
      SlotsOfStep(f, a, c);
      CountAppend(f, a, c);
    }
  }

  lemma {:induction false} SubrangeSize(s: set<nat>, n: nat)
    requires forall x | x in s :: 1 <= x <= n
    ensures |s| <= n
  {
    if n == 0 {
      assert forall x | x in s :: false;
    } else {
      SubrangeSize(s - {n}, n - 1);
    }
  }
}
