/**
 What each task and assignment workflow does to one locked task: the next state of the task and
 the ledger batch it commits, or the reason it is refused. Nothing here writes the ledger.
 */
module Escrow {
  import opened Wrappers
  import opened Ledger
  import opened Tasks

  const REVIEW_WINDOW := 72 * 3600
  const DISPUTE_WINDOW := 24 * 3600

  datatype Refusal =
    | AwaitingConsent
    | AlreadyPerformer
    | NotPublished
    | OwnTask
    | DeadlinePassed
    | ActiveLimitReached
    | NoFreeSlot
    | WrongAssignmentState
    | ReviewWindowClosed
    | OtherOutcome
    | RewardTooSmall
    | TooEarly
    | CommunityTask
    | HasPerformer
    | WrongTaskState
    | NoFreeSlotsToRelease
    | RequestPending
    | RequestInactive
    | InvalidEdit
    | CodeNotApplicable
    | UnknownTask
    | UnknownAssignment
    | UnknownMember
    | InvalidDraft
    | ForeignKey
    | ClockWentBack
    | LedgerRefused(error: LedgerError)

  datatype Effect = Effect(task: Task, commands: seq<Command>)

  // ---------- commands ----------

  function Reserve(member: MemberId, amount: int, key: Key): Command {
    Command(TaskRewardReserved, member, key, -amount, 0, None, "", None)
  }

  function Refund(member: MemberId, amount: int, key: Key): Command {
    Command(TaskRewardRefunded, member, key, amount, 0, None, "", None)
  }

  function Earn(kind: Kind, member: MemberId, amount: int, key: Key): Command {
    Command(kind, member, key, amount, amount, None, "", None)
  }

  function FullKind(t: Task): Kind {
    if t.origin == Community then CommunityTaskReward else TaskRewardEarned
  }

  function PartialKind(t: Task): Kind {
    if t.origin == Community then CommunityTaskReward else PartialTaskReward
  }

  /** Half the reward, rounded up. */
  function HalfUp(reward: nat): (r: nat)
    ensures reward <= 2 * r <= reward + 1
    ensures reward >= 2 ==> 0 < r < reward
  {
    (reward + 1) / 2
  }

  // ---------- pieces of a task ----------

  function WithAssignment(t: Task, i: nat, a: Assignment): Task
    requires i < |t.history|
  {
    t.(history := t.history[i := a])
  }

  /** Recompute the lifecycle state from the task's own history. */
  function Aggregated(t: Task, now: int): Task {
    t.(status := Derive(t.status, t.slots, t.deadline, now, t.history))
  }

  predicate SlotHeld(h: seq<Assignment>, s: nat) {
    exists i | 0 <= i < |h| :: h[i].slot == s && h[i].status != Cancelled
  }

  /** The lowest slot number, from `s` up, that nobody holds. */
  function FreeSlotFrom(h: seq<Assignment>, s: nat, slots: nat): (r: Option<nat>)
    ensures r.Some? ==> s <= r.value <= slots && !SlotHeld(h, r.value)
    ensures r.None? ==> forall k | s <= k <= slots :: SlotHeld(h, k)
    decreases slots + 1 - s
  {
    if s > slots then None
    else if SlotHeld(h, s) then FreeSlotFrom(h, s + 1, slots)
    else Some(s)
  }

  predicate HasPending(t: Task) {
    exists q | 0 <= q < |t.requests| :: t.requests[q].status == Pending
  }

  function Withdraw(r: CancelRequest): CancelRequest {
    CancelRequest(Obsolete, WithdrawResponses(r.responses))
  }

  function WithdrawResponses(rs: seq<Response>): (w: seq<Response>)
    ensures |w| == |rs|
    ensures forall k | 0 <= k < |rs| ::
              w[k] == if rs[k].status == Unanswered then rs[k].(status := Withdrawn) else rs[k]
  {
    if rs == [] then []
    else
      var last := rs[|rs| - 1];
      WithdrawResponses(rs[..|rs| - 1])
      + [if last.status == Unanswered then last.(status := Withdrawn) else last]
  }

  function WithdrawPending(qs: seq<CancelRequest>): (w: seq<CancelRequest>)
    ensures |w| == |qs|
    ensures forall q | 0 <= q < |qs| :: w[q] == if qs[q].status == Pending then Withdraw(qs[q]) else qs[q]
  {
    if qs == [] then []
    else
      var last := qs[|qs| - 1];
      WithdrawPending(qs[..|qs| - 1]) + [if last.status == Pending then Withdraw(last) else last]
  }

  /** Work has started, a performer left, or the deadline came: open requests lapse. */
  function Obsoleted(t: Task): Task {
    t.(requests := WithdrawPending(t.requests))
  }

  predicate AllAnswered(r: CancelRequest) {
    forall k | 0 <= k < |r.responses| :: r.responses[k].status != Unanswered
  }

  predicate IsLatest(h: seq<Assignment>, i: nat)
    requires i < |h|
  {
    forall j | i < j < |h| :: h[j].slot != h[i].slot
  }

  /** Requests for consent go to every accepted assignment that is the latest of its slot. */
  function ConsentRequests(h: seq<Assignment>, n: nat): (rs: seq<Response>)
    requires n <= |h|
    ensures forall k | 0 <= k < |rs| ::
              rs[k].index < n && rs[k].status == Unanswered
              && h[rs[k].index].status == Accepted && IsLatest(h, rs[k].index)
    ensures forall j, k | 0 <= j < k < |rs| :: rs[j].index < rs[k].index
    ensures forall i | 0 <= i < n && h[i].status == Accepted && IsLatest(h, i) :: Response(i, Unanswered) in rs
  {
    if n == 0 then []
    else
      ConsentRequests(h, n - 1)
      + if h[n - 1].status == Accepted && IsLatest(h, n - 1) then [Response(n - 1, Unanswered)] else []
  }

  // ---------- performer workflows ----------

  function Accept(t: Task, now: int, performer: MemberId, active: nat, limit: nat): Result<Effect, Refusal> {
    if HasPending(t) then Failure(AwaitingConsent)
    else if exists i | 0 <= i < |t.history| :: t.history[i].performer == performer then Failure(AlreadyPerformer)
    else if t.status != Published then Failure(NotPublished)
    else if t.origin == Member && t.creator == performer then Failure(OwnTask)
    else if now >= t.deadline then Failure(DeadlinePassed)
    else if active >= limit then Failure(ActiveLimitReached)
    else
      match FreeSlotFrom(t.history, 1, t.slots)
      case None => Failure(NoFreeSlot)
      case Some(s) =>
        var a := Assignment(performer, s, Accepted, None, None, None, None, None);
        Success(Effect(t.(history := t.history + [a]), []))
  }

  function Submit(t: Task, now: int, i: nat): Result<Effect, Refusal> {
    if i >= |t.history| then Failure(UnknownAssignment)
    else if t.history[i].status != Accepted then Failure(WrongAssignmentState)
    else if now >= t.deadline then Failure(DeadlinePassed)
    else
      var a := t.history[i];
      var due := if a.reviewDeadline.None? then Some(now + REVIEW_WINDOW) else a.reviewDeadline;
      Success(Effect(WithAssignment(Obsoleted(t), i, a.(status := Submitted, reviewDeadline := due)), []))
  }

  /** A performer leaves. Only in a task closed for new performers, and only when nobody else is
      active, does the slot's reserve go back and the task end. */
  function CancelAssignment(tid: TaskId, t: Task, i: nat): Result<Effect, Refusal> {
    if i >= |t.history| then Failure(UnknownAssignment)
    else if t.history[i].status != Accepted then Failure(WrongAssignmentState)
    else
      var left := WithAssignment(Obsoleted(t), i, t.history[i].(status := Cancelled));
      if t.status == ClosedForNewPerformers && t.origin == Member && SlotsOf(left.history, Active) == {} then
        Success(Effect(left.(status := TaskCancelled),
                       [Refund(t.creator, t.reward, SlotCancelRefund(tid, i))]))
      else Success(Effect(left, []))
  }

  function Dispute(t: Task, now: int, i: nat): Result<Effect, Refusal> {
    if i >= |t.history| then Failure(UnknownAssignment)
    else
      var a := t.history[i];
      if a.status != RejectedPendingDispute || a.rejectedAt.None? || a.disputeDeadline.None? then
        Failure(WrongAssignmentState)
      else if !(a.rejectedAt.value <= now < a.disputeDeadline.value) then Failure(ReviewWindowClosed)
      else Success(Effect(WithAssignment(t, i, a.(status := Disputed)), []))
  }

  // ---------- review ----------

  function DecidedStatus(d: Decision): AssignmentStatus {
    match d
    case Full => Approved
    case Partial => PartiallyApproved
    case Reject => RejectedPendingDispute
  }

  function DecisionCommands(tid: TaskId, t: Task, i: nat, d: Decision): seq<Command>
    requires i < |t.history|
  {
    match d
    case Full =>
      [Earn(FullKind(t), t.history[i].performer, t.reward, OutcomeReward(tid, i, Approved))]
    case Partial =>
      [Earn(PartialKind(t), t.history[i].performer, HalfUp(t.reward), OutcomeReward(tid, i, PartiallyApproved))]
      + if t.origin == Member && t.reward > HalfUp(t.reward) then
          [Refund(t.creator, t.reward - HalfUp(t.reward), OutcomeRefund(tid, i, PartiallyApproved))]
        else []
    case Reject => []
  }

  function Decide(tid: TaskId, t: Task, now: int, i: nat, d: Decision, cid: nat): Result<Effect, Refusal> {
    if i >= |t.history| then Failure(UnknownAssignment)
    else
      var a := t.history[i];
      if a.status == Approved || a.status == PartiallyApproved || a.status == RejectedPendingDispute then
        if a.outcome != Some(Decided(d)) || a.command != Some(cid) then Failure(OtherOutcome)
        else Success(Effect(t, []))
      else if a.status != Submitted && a.status != ReviewerRequired then Failure(WrongAssignmentState)
      else if a.status == Submitted && a.reviewDeadline.Some? && now >= a.reviewDeadline.value then
        Failure(ReviewWindowClosed)
      else if d == Partial && t.reward < 2 then Failure(RewardTooSmall)
      else
        var decided := a.(status := DecidedStatus(d), outcome := Some(Decided(d)), command := Some(cid));
        if d == Reject then
          var rejected := decided.(rejectedAt := Some(now), disputeDeadline := Some(now + DISPUTE_WINDOW));
          Success(Effect(WithAssignment(t, i, rejected), []))
        else
          Success(Effect(Aggregated(WithAssignment(t, i, decided), now), DecisionCommands(tid, t, i, d)))
  }

  /** Autoconfirm at the review boundary. A community task whose reviewer is no longer
      independent and active waits for another one instead. */
  function FinalizeReview(tid: TaskId, t: Task, now: int, i: nat, cid: nat, reviewerFit: bool): Result<Effect, Refusal> {
    if i >= |t.history| then Failure(UnknownAssignment)
    else
      var a := t.history[i];
      if a.status != Submitted then Success(Effect(t, []))
      else if a.reviewDeadline.None? || now < a.reviewDeadline.value then Failure(TooEarly)
      else if t.origin == Community && !reviewerFit then
        Success(Effect(WithAssignment(t, i, a.(status := ReviewerRequired, reviewDeadline := None)), []))
      else
        var done := a.(status := Approved, outcome := Some(Autoconfirmed), command := Some(cid));
        Success(Effect(Aggregated(WithAssignment(t, i, done), now),
                       [Earn(FullKind(t), a.performer, t.reward, OutcomeReward(tid, i, Approved))]))
  }

  function FinalizeRejection(tid: TaskId, t: Task, now: int, i: nat, cid: nat): Result<Effect, Refusal> {
    if i >= |t.history| then Failure(UnknownAssignment)
    else
      var a := t.history[i];
      if a.status != RejectedPendingDispute then Success(Effect(t, []))
      else if a.disputeDeadline.None? || now < a.disputeDeadline.value then Failure(TooEarly)
      else
        var done := a.(status := Rejected, outcome := Some(RejectionFinal), command := Some(cid));
        Success(Effect(Aggregated(WithAssignment(t, i, done), now),
                       if t.origin == Member then
                         [Refund(t.creator, t.reward, OutcomeRefund(tid, i, Rejected))]
                       else []))
  }

  // ---------- dispute resolution ----------

  predicate Applicable(code: ResolutionCode, origin: Origin) {
    origin == Community ==> code != CreatorAbuse && code != CancelWithoutFault
  }

  function ResolvedStatus(code: ResolutionCode): AssignmentStatus {
    match code
    case FullPayment => Approved
    case PartialPayment => PartiallyApproved
    case FullRefund => Rejected
    case CancelWithoutFault => Cancelled
    case PerformerNoShow => NoShow
    case CreatorAbuse => Approved
    case Fraud => Rejected
  }

  function ResolutionCommands(tid: TaskId, t: Task, i: nat, code: ResolutionCode): seq<Command>
    requires i < |t.history|
  {
    match ResolvedStatus(code)
    case Approved =>
      [Earn(FullKind(t), t.history[i].performer, t.reward, CaseFull(tid, i))]
    case PartiallyApproved =>
      [Earn(PartialKind(t), t.history[i].performer, HalfUp(t.reward), CasePartial(tid, i))]
      + if t.origin == Member && HalfUp(t.reward) < t.reward then
          [Refund(t.creator, t.reward - HalfUp(t.reward), CaseRemainder(tid, i))]
        else []
    case _ =>
      if t.origin == Member then [Refund(t.creator, t.reward, CaseRefund(tid, i))] else []
  }

  /** The first resolution of an open dispute. */
  function Resolve(tid: TaskId, t: Task, now: int, i: nat, code: ResolutionCode, cid: nat): Result<Effect, Refusal> {
    if i >= |t.history| then Failure(UnknownAssignment)
    else if t.history[i].status != Disputed then Failure(WrongAssignmentState)
    else if !Applicable(code, t.origin) then Failure(CodeNotApplicable)
    else
      var done := t.history[i].(status := ResolvedStatus(code), outcome := Some(Resolved(code)), command := Some(cid));
      Success(Effect(Aggregated(WithAssignment(t, i, done), now), ResolutionCommands(tid, t, i, code)))
  }

  // ---------- deadline ----------

  /** The history with every assignment still merely accepted marked as a no-show. */
  function NoShows(h: seq<Assignment>, cid: nat): (r: seq<Assignment>)
    ensures |r| == |h|
    ensures forall i | 0 <= i < |h| :: r[i] == if h[i].status == Accepted then MissedBy(h[i], cid) else h[i]
  {
    if h == [] then []
    else
      var last := h[|h| - 1];
      NoShows(h[..|h| - 1], cid) + [if last.status == Accepted then MissedBy(last, cid) else last]
  }

  function MissedBy(a: Assignment, cid: nat): Assignment {
    a.(status := NoShow, outcome := Some(Absent), command := Some(cid))
  }

  function NoShowRefunds(tid: TaskId, t: Task, n: nat): seq<Command>
    requires n <= |t.history|
  {
    if n == 0 then []
    else
      NoShowRefunds(tid, t, n - 1)
      + if t.history[n - 1].status == Accepted then
          [Refund(t.creator, t.reward, OutcomeRefund(tid, n - 1, NoShow))]
        else []
  }

  function Unfilled(t: Task): int {
    t.slots - |SlotsOf(t.history, Live)|
  }

  function DeadlineCommands(tid: TaskId, t: Task): seq<Command> {
    if t.origin == Community then []
    else
      NoShowRefunds(tid, t, |t.history|)
      + if Unfilled(t) != 0 && t.status == Published then
          [Refund(t.creator, t.reward * Unfilled(t), UnfilledRefund(tid))]
        else []
  }

  function FinalizeDeadline(tid: TaskId, t: Task, now: int, cid: nat): Result<Effect, Refusal> {
    if now < t.deadline then Failure(TooEarly)
    else
      Success(Effect(Aggregated(Obsoleted(t).(history := NoShows(t.history, cid)), now),
                     DeadlineCommands(tid, t)))
  }

  // ---------- creator workflows ----------

  /** Editing a published member task nobody holds moves the difference between the reserves. */
  function Edit(tid: TaskId, t: Task, now: int, update: UpdateId, reward: nat, slots: nat, deadline: int): Result<Effect, Refusal> {
    if t.origin != Member then Failure(CommunityTask)
    else if t.status != Published || now >= t.deadline then Failure(WrongTaskState)
    else if exists i | 0 <= i < |t.history| :: t.history[i].status != Cancelled then Failure(HasPerformer)
    else if reward == 0 || slots == 0 || deadline <= now then Failure(InvalidEdit)
    else
      var delta := reward * slots - t.reserved;
      var edited := t.(reward := reward, slots := slots, reserved := reward * slots, deadline := deadline);
      Success(Effect(edited,
                     if delta > 0 then [Reserve(t.creator, delta, EditReserve(tid, update))]
                     else if delta < 0 then [Refund(t.creator, -delta, EditRefund(tid, update))]
                     else []))
  }

  function CancelTask(tid: TaskId, t: Task, now: int): Result<Effect, Refusal> {
    if t.origin != Member then Failure(CommunityTask)
    else if t.status != Published then Failure(WrongTaskState)
    else if now >= t.deadline then Failure(DeadlinePassed)
    else if exists i | 0 <= i < |t.history| :: t.history[i].status != Cancelled then Failure(HasPerformer)
    else
      Success(Effect(t.(status := TaskCancelled), [Refund(t.creator, t.reserved, TaskCancelRefund(tid))]))
  }

  function FreeSlots(t: Task): nat {
    var occupied := |SlotsOf(t.history, Live)|;
    if t.slots > occupied then t.slots - occupied else 0
  }

  /** Close intake: end an unoccupied task outright, otherwise return the free slots' reserve and
      ask the accepted performers for consent. */
  function RequestCancellation(tid: TaskId, t: Task, now: int): Result<Effect, Refusal> {
    if t.origin != Member then Failure(CommunityTask)
    else if t.status == TaskCancelled then Success(Effect(t, []))
    else if t.status != Published && t.status != PartiallyCompleted then Failure(WrongTaskState)
    else if now >= t.deadline then Failure(DeadlinePassed)
    else if t.status == PartiallyCompleted && FreeSlots(t) == 0 then Failure(NoFreeSlotsToRelease)
    else if SlotsOf(t.history, Live) == {} then
      Success(Effect(t.(status := TaskCancelled), [Refund(t.creator, t.reserved, TaskCancelRefund(tid))]))
    else if HasPending(t) then Failure(RequestPending)
    else
      var asked := ConsentRequests(t.history, |t.history|);
      Success(Effect(t.(status := ClosedForNewPerformers,
                        requests := t.requests + if asked == [] then [] else [CancelRequest(Pending, asked)]),
                     if FreeSlots(t) > 0 then
                       [Refund(t.creator, FreeSlots(t) * t.reward, CloseRefund(tid))]
                     else []))
  }

  function Answered(t: Task, q: nat, k: nat, s: ResponseStatus): Task
    requires q < |t.requests| && k < |t.requests[q].responses|
  {
    var r := t.requests[q];
    var answered := r.(responses := r.responses[k := r.responses[k].(status := s)]);
    var closed := if AllAnswered(answered) then answered.(status := RequestCompleted) else answered;
    t.(requests := t.requests[q := closed])
  }

  function RespondCancellation(tid: TaskId, t: Task, now: int, q: nat, k: nat, consent: bool): Result<Effect, Refusal> {
    if q >= |t.requests| || k >= |t.requests[q].responses| then Failure(RequestInactive)
    else if t.origin != Member then Failure(CommunityTask)
    else
      var r := t.requests[q];
      var open := t.status == Published || t.status == ClosedForNewPerformers;
      if open && r.status == Pending && r.responses[k].status == Unanswered && now >= t.deadline then
        Success(Effect(t.(requests := t.requests[q := Withdraw(r)]), []))
      else if r.status == Obsolete then Success(Effect(t, []))
      else if r.status != Pending || r.responses[k].status != Unanswered then Failure(RequestInactive)
      else if !open then Failure(RequestInactive)
      else if !consent then Success(Effect(Answered(t, q, k, Declined), []))
      else
        var i := r.responses[k].index;
        var answered := Answered(t, q, k, Consented);
        var left :=
          if i < |t.history| && t.history[i].status == Accepted then
            WithAssignment(answered, i, t.history[i].(status := Cancelled))
          else answered;
        Success(Effect(if SlotsOf(left.history, Active) == {} then left.(status := TaskCancelled) else left,
                       [Refund(t.creator, t.reward, SlotCancelRefund(tid, i))]))
  }
}
