/**
 The whole exchange: members, drafts, tasks, the shared ledger, and the receipts of delivered
 updates. Every workflow is one transaction; one that is refused changes nothing.
 */
module Exchange {
  import opened Wrappers
  import opened Ledger
  import opened Tasks
  import opened Escrow

  datatype Draft = Draft(origin: Origin, creator: MemberId, reward: nat, slots: nat, deadline: int)

  datatype World = World(
    now: int,
    limit: nat,
    book: Book,
    drafts: map<TaskId, Draft>,
    tasks: map<TaskId, Task>,
    receipts: set<UpdateId>)

  /** Requests made by members; each is delivered under an update id. */
  datatype Request =
    | PublishDraft(task: TaskId)
    | EditTerms(task: TaskId, reward: nat, slots: nat, deadline: int)
    | AcceptSlot(task: TaskId, performer: MemberId)
    | SubmitResult(task: TaskId, index: nat)
    | LeaveSlot(task: TaskId, index: nat)
    | Review(task: TaskId, index: nat, decision: Decision, command: nat)
    | OpenDispute(task: TaskId, index: nat)
    | WithdrawTask(task: TaskId)
    | CloseIntake(task: TaskId)
    | Respond(task: TaskId, request: nat, response: nat, consent: bool)

  /** Work the scheduler and the moderators start; it leaves no receipt. */
  datatype Job =
    | ReviewDue(task: TaskId, index: nat, command: nat, reviewerFit: bool)
    | RejectionDue(task: TaskId, index: nat, command: nat)
    | DeadlineDue(task: TaskId, command: nat)
    | ResolveCase(task: TaskId, index: nat, code: ResolutionCode, command: nat)

  datatype Op =
    | Tick(to: int)
    | Register(member: MemberId)
    | SaveDraft(task: TaskId, draft: Draft)
    | Economy(commands: seq<Command>)
    | Deliver(update: UpdateId, request: Request)
    | Perform(job: Job)

  // ---------- active assignments of one member ----------

  predicate ActiveIn(t: Task, m: MemberId) {
    exists i | 0 <= i < |t.history| :: t.history[i].performer == m && Is(Active, t.history[i].status)
  }

  /** A member has at most one assignment in a task, so tasks count active assignments. */
  function ActiveTasks(tasks: map<TaskId, Task>, m: MemberId): set<TaskId> {
    set t | t in tasks && ActiveIn(tasks[t], m)
  }

  // ---------- the effect of a request or a job on its task ----------

  function RequestEffect(w: World, update: UpdateId, r: Request): Result<Effect, Refusal>
    requires r.task in w.tasks && !r.PublishDraft?
  {
    var t := w.tasks[r.task];
    match r
    case EditTerms(tid, reward, slots, deadline) => Edit(tid, t, w.now, update, reward, slots, deadline)
    case AcceptSlot(_, performer) =>
      if performer !in w.book.credit then Failure(Refusal.UnknownMember)
      else Accept(t, w.now, performer, |ActiveTasks(w.tasks, performer)|, w.limit)
    case SubmitResult(_, i) => Submit(t, w.now, i)
    case LeaveSlot(tid, i) => CancelAssignment(tid, t, i)
    case Review(tid, i, d, cid) => Decide(tid, t, w.now, i, d, cid)
    case OpenDispute(_, i) => Dispute(t, w.now, i)
    case WithdrawTask(tid) => CancelTask(tid, t, w.now)
    case CloseIntake(tid) => RequestCancellation(tid, t, w.now)
    case Respond(tid, q, k, consent) => RespondCancellation(tid, t, w.now, q, k, consent)
  }

  function JobEffect(w: World, j: Job): Result<Effect, Refusal>
    requires j.task in w.tasks
  {
    var t := w.tasks[j.task];
    match j
    case ReviewDue(tid, i, cid, fit) => FinalizeReview(tid, t, w.now, i, cid, fit)
    case RejectionDue(tid, i, cid) => FinalizeRejection(tid, t, w.now, i, cid)
    case DeadlineDue(tid, cid) => FinalizeDeadline(tid, t, w.now, cid)
    case ResolveCase(tid, i, code, cid) => Resolve(tid, t, w.now, i, code, cid)
  }

  // ---------- transactions ----------

  /** Apply a batch, if there is one; an empty one does not reach the ledger. */
  function Settle(b: Book, cmds: seq<Command>): Result<Book, Refusal> {
    if cmds == [] then Success(b)
    else
      match Apply(b, cmds)
      case Failure(e) => Failure(LedgerRefused(e))
      case Success(p) => Success(p)
  }

  function Commit(w: World, tid: TaskId, outcome: Result<Effect, Refusal>): Result<World, Refusal> {
    match outcome
    case Failure(e) => Failure(e)
    case Success(eff) =>
      match Settle(w.book, eff.commands)
      case Failure(e) => Failure(e)
      case Success(b) => Success(w.(book := b, tasks := w.tasks[tid := eff.task]))
  }

  function Opened(d: Draft): Task {
    Task(d.origin, d.creator, d.reward, d.slots, if d.origin == Member then d.reward * d.slots else 0,
         d.deadline, Published, [], [])
  }

  function PublishCommands(tid: TaskId, d: Draft): seq<Command> {
    if d.origin == Member then [Reserve(d.creator, d.reward * d.slots, PublishReserve(tid))] else []
  }

  /** Publishing reserves first; a draft that is already a task only repeats its stored reserve. */
  function Publish(w: World, tid: TaskId): Result<World, Refusal> {
    if tid !in w.drafts then Failure(UnknownTask)
    else
      var d := w.drafts[tid];
      if d.reward == 0 || d.slots == 0 || d.deadline <= w.now then Failure(InvalidDraft)
      else if d.creator !in w.book.credit then Failure(Refusal.UnknownMember)
      else
        match Settle(w.book, PublishCommands(tid, d))
        case Failure(e) => Failure(e)
        case Success(b) =>
          Success(w.(book := b, tasks := if tid in w.tasks then w.tasks else w.tasks[tid := Opened(d)]))
  }

  function Handle(w: World, update: UpdateId, r: Request): Result<World, Refusal> {
    if r.PublishDraft? then Publish(w, r.task)
    else if r.task !in w.tasks then Failure(UnknownTask)
    else Commit(w, r.task, RequestEffect(w, update, r))
  }

  function GrantOf(m: MemberId): Command {
    Command(StartingGrant, m, GrantKey(m), STARTING_GRANT_AMOUNT, 0, None, "", None)
  }

  predicate NotAboutTasks(cmds: seq<Command>) {
    forall i | 0 <= i < |cmds| ::
      match cmds[i].key
      case TransferOut(_, _) => true
      case TransferIn(_, _) => true
      case ManualKey(_) => true
      case _ => false
  }

  function Step(w: World, op: Op): Result<World, Refusal> {
    match op
    case Tick(to) => if to < w.now then Failure(ClockWentBack) else Success(w.(now := to))
    case Register(m) =>
      if m in w.book.credit then Success(w)
      else
        var known := w.book.(credit := w.book.credit[m := 0], experience := w.book.experience[m := 0]);
        (match Settle(known, [GrantOf(m)])
         case Failure(e) => Failure(e)
         case Success(b) => Success(w.(book := b)))
    case SaveDraft(tid, d) =>
      if tid in w.tasks then Failure(InvalidDraft) else Success(w.(drafts := w.drafts[tid := d]))
    case Economy(cmds) =>
      if !NotAboutTasks(cmds) then Failure(ForeignKey)
      else
        (match Settle(w.book, cmds)
         case Failure(e) => Failure(e)
         case Success(b) => Success(w.(book := b)))
    case Deliver(update, r) =>
      if update in w.receipts then Success(w)
      else
        (match Handle(w, update, r)
         case Failure(e) => Failure(e)
         case Success(v) => Success(v.(receipts := w.receipts + {update})))
    case Perform(j) =>
      if j.task !in w.tasks then Failure(UnknownTask) else Commit(w, j.task, JobEffect(w, j))
  }

  /** A refused transaction is rolled back. */
  function After(w: World, op: Op): World {
    match Step(w, op)
    case Success(v) => v
    case Failure(_) => w
  }

  function Run(w: World, ops: seq<Op>): World {
    if ops == [] then w else After(Run(w, ops[..|ops| - 1]), ops[|ops| - 1])
  }

  function Start(now: int, limit: nat): World {
    World(now, limit, Book([], map[], map[]), map[], map[], {})
  }
}
