/**
 What every reachable task satisfies, together with the ledger entries made about it.
 */
module EscrowInvariants {
  import opened Wrappers
  import opened Ledger
  import opened Tasks
  import opened Escrow

  // ---------- attributing ledger entries ----------

  function TaskOf(key: Key): Option<TaskId> {
    match key
    case PublishReserve(t) => Some(t)
    case EditReserve(t, _) => Some(t)
    case EditRefund(t, _) => Some(t)
    case TaskCancelRefund(t) => Some(t)
    case CloseRefund(t) => Some(t)
    case UnfilledRefund(t) => Some(t)
    case SlotCancelRefund(t, _) => Some(t)
    case OutcomeReward(t, _, _) => Some(t)
    case OutcomeRefund(t, _, _) => Some(t)
    case CaseFull(t, _) => Some(t)
    case CasePartial(t, _) => Some(t)
    case CaseRemainder(t, _) => Some(t)
    case CaseRefund(t, _) => Some(t)
    case _ => None
  }

  /** The assignment a key is about, if it is about one. */
  function IndexOf(key: Key): Option<nat> {
    match key
    case SlotCancelRefund(_, i) => Some(i)
    case OutcomeReward(_, i, _) => Some(i)
    case OutcomeRefund(_, i, _) => Some(i)
    case CaseFull(_, i) => Some(i)
    case CasePartial(_, i) => Some(i)
    case CaseRemainder(_, i) => Some(i)
    case CaseRefund(_, i) => Some(i)
    case _ => None
  }

  /** The columns of the per-task account: everything booked about a task, what one of its
      assignments was paid, and what went back to the creator for one of its assignments. */
  datatype Column = Escrowed(task: TaskId) | PaidFor(task: TaskId, index: nat) | ReturnedFor(task: TaskId, index: nat)

  predicate InColumn(col: Column, key: Key) {
    match col
    case Escrowed(t) => TaskOf(key) == Some(t)
    case PaidFor(t, i) =>
      (key.OutcomeReward? && key.task == t && key.index == i) || key == CaseFull(t, i) || key == CasePartial(t, i)
    case ReturnedFor(t, i) =>
      (key.OutcomeRefund? && key.task == t && key.index == i)
      || key == SlotCancelRefund(t, i) || key == CaseRemainder(t, i) || key == CaseRefund(t, i)
  }

  function Booked(entries: seq<Entry>, col: Column): int {
    if entries == [] then 0
    else
      var last := entries[|entries| - 1].command;
      Booked(entries[..|entries| - 1], col) + if InColumn(col, last.key) then last.credit else 0
  }

  function Asked(cmds: seq<Command>, col: Column): int {
    if cmds == [] then 0
    else
      var last := cmds[|cmds| - 1];
      Asked(cmds[..|cmds| - 1], col) + if InColumn(col, last.key) then last.credit else 0
  }

  /** The credits still held in escrow for a task: reserved, neither paid out nor returned. */
  function Held(entries: seq<Entry>, tid: TaskId): int {
    -Booked(entries, Escrowed(tid))
  }

  lemma {:induction false} GrewBooks(before: seq<Entry>, after: seq<Entry>, cmds: seq<Command>, col: Column)
    requires Grew(before, after, cmds)
    ensures Booked(after, col) == Booked(before, col) + Asked(cmds, col)
    decreases |cmds|
  {
    if cmds == [] {
      assert after == after[..|before|] == before;
    } else {
      var n := |cmds| - 1;
      var mid := after[..|after| - 1];
      assert mid[..|before|] == after[..|before|];
      GrewBooks(before, mid, cmds[..n], col);
      assert after[|before| + n].command == cmds[n];
    }
  }

  lemma Distributes(r: int, a: int, b: int)
    ensures r * (a - b) == r * a - r * b
    ensures r * (a + b) == r * a + r * b
  {
  }

  lemma Times(r: nat, a: nat, b: int)
    requires a <= b
    ensures 0 <= r * a <= r * b
  {
  }

  lemma {:induction false} NoKeyNothingBooked(entries: seq<Entry>, col: Column)
    requires forall i | 0 <= i < |entries| :: !InColumn(col, entries[i].command.key)
    ensures Booked(entries, col) == 0
  {
    if entries != [] {
      NoKeyNothingBooked(entries[..|entries| - 1], col);
    }
  }

  // ---------- the task itself ----------

  ghost predicate Shape(t: Task) {
    && t.reward > 0 && t.slots > 0
    && t.reserved == (if t.origin == Member then t.reward * t.slots else 0)
    && OneHolder(t.history)
    && (forall i | 0 <= i < |t.history| :: 1 <= t.history[i].slot)
    && (forall i | 0 <= i < |t.history| && t.history[i].status != Cancelled :: t.history[i].slot <= t.slots)
    && (forall i, j | 0 <= i < j < |t.history| :: t.history[i].performer != t.history[j].performer)
    && (forall i | 0 <= i < |t.history| && t.origin == Member :: t.history[i].performer != t.creator)
  }

  predicate IsFinal(s: TaskStatus) {
    s == Expired || s == PartiallyCompleted || s == Completed || s == TaskCancelled
  }

  ghost predicate Lifecycle(t: Task, now: int) {
    && (t.status == Settling ==> now >= t.deadline)
    && (IsFinal(t.status) ==> Count(t.history, Active) == 0)
    && (t.status == PartiallyCompleted ==> Count(t.history, Paid) > 0)
    && (t.status == Completed ==> Count(t.history, Paid) == t.slots)
    && (t.status == Expired ==> Count(t.history, Paid) == 0)
  }

  ghost predicate ResponseSound(t: Task, q: nat, k: nat)
    requires q < |t.requests| && k < |t.requests[q].responses|
  {
    var p := t.requests[q].responses[k];
    && p.index < |t.history|
    && (p.status == Unanswered ==> t.requests[q].status == Pending && t.history[p.index].status == Accepted)
  }

  /** Consent safety: an unanswered response is about an assignment still merely accepted, a
      request is pending exactly when a response is unanswered, and a task is asked about once. */
  ghost predicate Consent(t: Task) {
    && |t.requests| <= 1
    && (t.status == Published ==> t.requests == [])
    && (t.requests != [] ==>
          && (forall k | 0 <= k < |t.requests[0].responses| :: ResponseSound(t, 0, k))
          && (forall j, k | 0 <= j < k < |t.requests[0].responses| ::
                t.requests[0].responses[j].index != t.requests[0].responses[k].index)
          && (t.requests[0].status == Pending <==> !AllAnswered(t.requests[0])))
  }

  // ---------- the task against the ledger ----------

  /** Every stored key about a task is explained by a fact the task can no longer lose. */
  predicate Explained(key: Key, t: Task, now: int) {
    match key
    case TaskCancelRefund(_) =>
      t.status != Published && forall i | 0 <= i < |t.history| :: t.history[i].status == Cancelled
    case CloseRefund(_) => t.status != Published
    case UnfilledRefund(_) => t.status != Published && now >= t.deadline
    case SlotCancelRefund(_, i) => i < |t.history| && t.history[i].status == Cancelled
    case OutcomeReward(_, i, o) => i < |t.history| && t.history[i].status == o && Is(Paid, o)
    case OutcomeRefund(_, i, o) => i < |t.history| && t.history[i].status == o && Is(Settled, o)
    case CaseFull(_, i) => i < |t.history| && !Is(Active, t.history[i].status)
    case CasePartial(_, i) => i < |t.history| && !Is(Active, t.history[i].status)
    case CaseRemainder(_, i) => i < |t.history| && !Is(Active, t.history[i].status)
    case CaseRefund(_, i) => i < |t.history| && !Is(Active, t.history[i].status)
    case _ => true
  }

  ghost predicate KeysExplained(entries: seq<Entry>, tid: TaskId, t: Task, now: int) {
    forall n | 0 <= n < |entries| && TaskOf(entries[n].command.key) == Some(tid) ::
      Explained(entries[n].command.key, t, now)
  }

  function DuePayment(t: Task, s: AssignmentStatus): int {
    match s
    case Approved => t.reward
    case PartiallyApproved => HalfUp(t.reward)
    case _ => 0
  }

  function DueReturn(t: Task, s: AssignmentStatus): int {
    if t.origin == Community then 0
    else
      match s
      case PartiallyApproved => t.reward - HalfUp(t.reward)
      case Rejected => t.reward
      case NoShow => t.reward
      case _ => 0
  }

  /** One assignment's ledger: it was paid what its status says, once, and unless it was cancelled the
      rest of its slot's reward went back exactly when its status says so. */
  ghost predicate SettledAsDue(entries: seq<Entry>, tid: TaskId, t: Task, i: nat)
    requires i < |t.history|
  {
    var s := t.history[i].status;
    && Booked(entries, PaidFor(tid, i)) == DuePayment(t, s)
    && (s != Cancelled ==> Booked(entries, ReturnedFor(tid, i)) == DueReturn(t, s))
  }

  ghost predicate Settlement(entries: seq<Entry>, tid: TaskId, t: Task) {
    forall i | 0 <= i < |t.history| :: SettledAsDue(entries, tid, t, i)
  }

  predicate TaskLevelRefunded(entries: seq<Entry>, tid: TaskId) {
    HasKey(entries, TaskCancelRefund(tid)) || HasKey(entries, CloseRefund(tid)) || HasKey(entries, UnfilledRefund(tid))
  }

  /** Some slot's reserve went back when its assignment was cancelled. */
  ghost predicate SlotReturned(entries: seq<Entry>, tid: TaskId, t: Task) {
    exists i | 0 <= i < |t.history| ::
      t.history[i].status == Cancelled && Booked(entries, ReturnedFor(tid, i)) != 0
  }

  /** The escrow identity with `released` slots, all of them without a holder, given back: what
      is held is the reward of every slot neither settled nor released. */
  ghost predicate EscrowBalanced(entries: seq<Entry>, tid: TaskId, t: Task, released: nat) {
    && Held(entries, tid) == t.reward * (t.slots - released - Count(t.history, Settled))
    && released + Count(t.history, Live) <= t.slots
    && (t.status == Published ==> released == 0)
    && (!TaskLevelRefunded(entries, tid) ==> (released == 0 <==> !SlotReturned(entries, tid, t)))
  }

  /** The reserve of a cancelled slot went back whole or not at all. */
  ghost predicate ReturnedWhole(entries: seq<Entry>, tid: TaskId, t: Task) {
    forall i | 0 <= i < |t.history| && t.history[i].status == Cancelled ::
      Booked(entries, ReturnedFor(tid, i)) == 0
      || (t.origin == Member && Booked(entries, ReturnedFor(tid, i)) == t.reward)
  }

  /** The escrow of the task comes out even: lost only by a transaction that overdraws this task. */
  ghost predicate Funded(entries: seq<Entry>, tid: TaskId, t: Task) {
    && ReturnedWhole(entries, tid, t)
    && (t.origin == Member ==> exists released: nat :: EscrowBalanced(entries, tid, t, released))
  }

  /** What every transaction keeps, whatever the escrow holds. */
  ghost predicate TaskInv(entries: seq<Entry>, tid: TaskId, t: Task, now: int) {
    && Shape(t)
    && Lifecycle(t, now)
    && Consent(t)
    && KeysExplained(entries, tid, t, now)
    && Settlement(entries, tid, t)
  }

  /** What a transaction leads to: the invariant again, and with `safe` a funded task stays funded. */
  ghost predicate Carried(before: seq<Entry>, after: seq<Entry>, tid: TaskId, t: Task, u: Task, now: int, safe: bool) {
    TaskInv(after, tid, u, now) && (safe && Funded(before, tid, t) ==> Funded(after, tid, u))
  }

  // ---------- what an effect may ask of the ledger ----------

  /** A batch about one task whose keys the ledger has not seen. */
  ghost predicate FreshBatch(entries: seq<Entry>, tid: TaskId, cmds: seq<Command>) {
    && (forall i | 0 <= i < |cmds| ::
          ValidCommand(cmds[i]) && cmds[i].reversed.None? && TaskOf(cmds[i].key) == Some(tid))
    && DistinctKeys(cmds)
    && AllNew(entries, cmds)
  }
}
