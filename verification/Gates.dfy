/**
 Concurrent transactions, one statement at a time. Each takes its gates in order, reads committed
 rows, and commits; gates are held until then. Reads see whatever others have committed meanwhile.
 */
module Gates {
  import opened Wrappers

  type Person = nat
  type TaskId = nat

  datatype Gate = Identity(person: Person) | ActiveLimit(person: Person) | TaskGate(task: TaskId)

  datatype RowState = Active | Finished | Cancelled

  datatype Row = Row(task: TaskId, slot: nat, person: Person, state: RowState)

  datatype TaskRow = TaskRow(creator: Person, slots: nat, reserved: nat, published: bool)

  datatype Work =
    | Accept(person: Person, task: TaskId)
    | CancelTask(person: Person, task: TaskId)
    | EditTask(person: Person, task: TaskId, reserve: nat, slots: nat)
    | EndAssignment(person: Person, task: TaskId, row: nat, to: RowState)

  /** How far a transaction has come; from `Identified` on it holds its caller's identity gate. */
  datatype Stage =
    | Begun
    | Identified
    | Limited
    | Read(amount: nat)
    | Tasked
    | TaskedAfter(amount: nat)
    | Counted(active: nat)
    | Picked(slot: nat)
    | Over

  datatype Process = Process(work: Work, stage: Stage)

  /** `refunds` records, for every committed task cancellation, what was paid back and what the row
      said at that moment. */
  datatype State = State(
    limit: nat,
    gates: map<Gate, nat>,
    rows: seq<Row>,
    tasks: map<TaskId, TaskRow>,
    processes: seq<Process>,
    refunds: seq<(nat, nat)>)

  predicate Live(r: Row) {
    r.state != Cancelled
  }

  predicate Held(rows: seq<Row>, t: TaskId, s: nat) {
    exists i | 0 <= i < |rows| :: rows[i].task == t && rows[i].slot == s && Live(rows[i])
  }

  predicate Untaken(rows: seq<Row>, t: TaskId) {
    forall i | 0 <= i < |rows| && rows[i].task == t :: !Live(rows[i])
  }

  function ActiveCount(rows: seq<Row>, p: Person): nat {
    if rows == [] then 0
    else
      var last := rows[|rows| - 1];
      ActiveCount(rows[..|rows| - 1], p) + if last.person == p && last.state == Active then 1 else 0
  }

  function LowestFree(rows: seq<Row>, t: TaskId, s: nat, slots: nat): (r: Option<nat>)
    ensures r.Some? ==> s <= r.value <= slots && !Held(rows, t, r.value)
    decreases slots + 1 - s
  {
    if s > slots then None
    else if Held(rows, t, s) then LowestFree(rows, t, s + 1, slots)
    else Some(s)
  }

  // ---------- transactions ----------

  /** The gates a transaction holds at a stage. */
  predicate Holds(p: Process, g: Gate) {
    match g
    case Identity(who) => who == p.work.person && p.stage != Begun && p.stage != Over
    case ActiveLimit(who) =>
      p.work.Accept? && who == p.work.person && p.stage != Begun && p.stage != Identified && p.stage != Over
    case TaskGate(t) =>
      t == p.work.task && (p.stage == Tasked || p.stage.TaskedAfter? || p.stage.Counted? || p.stage.Picked?)
  }

  function MovedTo(s: State, i: nat, stage: Stage): State
    requires i < |s.processes|
  {
    s.(processes := s.processes[i := s.processes[i].(stage := stage)])
  }

  /** Wait for a gate, or take it. */
  function Acquire(s: State, i: nat, g: Gate, stage: Stage): State
    requires i < |s.processes|
  {
    if g in s.gates then s else MovedTo(s, i, stage).(gates := s.gates[g := i])
  }

  /** The end of a transaction, committed or not, releases everything it held. */
  function Release(s: State, i: nat): State
    requires i < |s.processes|
  {
    MovedTo(s, i, Over).(gates := map g | g in s.gates && s.gates[g] != i :: s.gates[g])
  }

  function StepAccept(s: State, i: nat): State
    requires i < |s.processes| && s.processes[i].work.Accept?
  {
    var p, t := s.processes[i].work.person, s.processes[i].work.task;
    match s.processes[i].stage
    case Begun => Acquire(s, i, Identity(p), Identified)
    case Identified => Acquire(s, i, ActiveLimit(p), Limited)
    case Limited => Acquire(s, i, TaskGate(t), Tasked)
    case Tasked =>
      if t !in s.tasks || !s.tasks[t].published || ActiveCount(s.rows, p) >= s.limit then Release(s, i)
      else MovedTo(s, i, Counted(ActiveCount(s.rows, p)))
    case Counted(_) =>
      if t !in s.tasks then Release(s, i)
      else
        (match LowestFree(s.rows, t, 1, s.tasks[t].slots)
         case None => Release(s, i)
         case Some(slot) => MovedTo(s, i, Picked(slot)))
    case Picked(slot) => Release(s, i).(rows := s.rows + [Row(t, slot, p, Active)])
    case _ => Release(s, i)
  }

  /** Cancelling reads the amount to refund before it has locked the task. */
  function StepCancel(s: State, i: nat): State
    requires i < |s.processes| && s.processes[i].work.CancelTask?
  {
    var p, t := s.processes[i].work.person, s.processes[i].work.task;
    match s.processes[i].stage
    case Begun => Acquire(s, i, Identity(p), Identified)
    case Identified => if t !in s.tasks then Release(s, i) else MovedTo(s, i, Read(s.tasks[t].reserved))
    case Read(amount) => Acquire(s, i, TaskGate(t), TaskedAfter(amount))
    case TaskedAfter(amount) =>
      if t !in s.tasks || s.tasks[t].creator != p || !s.tasks[t].published || !Untaken(s.rows, t) then Release(s, i)
      else
        Release(s, i).(tasks := s.tasks[t := s.tasks[t].(published := false)],
                       refunds := s.refunds + [(amount, s.tasks[t].reserved)])
    case _ => Release(s, i)
  }

  function StepEdit(s: State, i: nat): State
    requires i < |s.processes| && s.processes[i].work.EditTask?
  {
    var p, t := s.processes[i].work.person, s.processes[i].work.task;
    match s.processes[i].stage
    case Begun => Acquire(s, i, Identity(p), Identified)
    case Identified => Acquire(s, i, TaskGate(t), Tasked)
    case Tasked =>
      if t !in s.tasks || s.tasks[t].creator != p || !s.tasks[t].published || !Untaken(s.rows, t) then Release(s, i)
      else Release(s, i).(tasks := s.tasks[t := s.tasks[t].(reserved := s.processes[i].work.reserve, slots := s.processes[i].work.slots)])
    case _ => Release(s, i)
  }

  function StepEnd(s: State, i: nat): State
    requires i < |s.processes| && s.processes[i].work.EndAssignment?
  {
    var w := s.processes[i].work;
    match s.processes[i].stage
    case Begun => Acquire(s, i, Identity(w.person), Identified)
    case Identified => Acquire(s, i, TaskGate(w.task), Tasked)
    case Tasked =>
      if w.row >= |s.rows| || s.rows[w.row].task != w.task || s.rows[w.row].state != Active then Release(s, i)
      else Release(s, i).(rows := s.rows[w.row := s.rows[w.row].(state := w.to)])
    case _ => Release(s, i)
  }

  datatype Event = Start(work: Work) | Proceed(process: nat) | Abort(process: nat)

  /** One statement of one transaction. */
  function Next(s: State, e: Event): State {
    match e
    case Start(work) => s.(processes := s.processes + [Process(work, Begun)])
    case Proceed(i) =>
      if i >= |s.processes| || s.processes[i].stage == Over then s
      else
        (match s.processes[i].work
         case Accept(_, _) => StepAccept(s, i)
         case CancelTask(_, _) => StepCancel(s, i)
         case EditTask(_, _, _, _) => StepEdit(s, i)
         case EndAssignment(_, _, _, to) => if to == Active then s else StepEnd(s, i))
    case Abort(i) => if i >= |s.processes| || s.processes[i].stage == Over then s else Release(s, i)
  }

  function Run(s: State, events: seq<Event>): State {
    if events == [] then s else Next(Run(s, events[..|events| - 1]), events[|events| - 1])
  }

  // ---------- the invariant ----------

  /** A gate is recorded for exactly the one transaction that holds it. */
  ghost predicate GatesRight(s: State) {
    && (forall g | g in s.gates :: s.gates[g] < |s.processes| && Holds(s.processes[s.gates[g]], g))
    && forall i, g | 0 <= i < |s.processes| && Holds(s.processes[i], g) :: g in s.gates && s.gates[g] == i
  }

  /** Live assignments of a task are on different slots, all of them existing ones. */
  ghost predicate SlotsDistinct(s: State) {
    && (forall i, j | 0 <= i < j < |s.rows| && s.rows[i].task == s.rows[j].task && s.rows[i].slot == s.rows[j].slot ::
          !Live(s.rows[i]) || !Live(s.rows[j]))
    && forall i | 0 <= i < |s.rows| && Live(s.rows[i]) ::
         s.rows[i].task in s.tasks && 1 <= s.rows[i].slot <= s.tasks[s.rows[i].task].slots
  }

  ghost predicate WithinLimit(s: State) {
    forall p: Person :: ActiveCount(s.rows, p) <= s.limit
  }

  /** What a transaction has read is still good enough to act on. */
  ghost predicate StillGood(s: State, p: Process) {
    match p.stage
    case Counted(n) => p.work.Accept? && ActiveCount(s.rows, p.work.person) <= n < s.limit
    case Picked(slot) =>
      && p.work.Accept? && ActiveCount(s.rows, p.work.person) < s.limit
      && p.work.task in s.tasks && 1 <= slot <= s.tasks[p.work.task].slots && !Held(s.rows, p.work.task, slot)
    case Read(amount) => AmountGood(s, p, amount)
    case TaskedAfter(amount) => AmountGood(s, p, amount)
    case _ => true
  }

  ghost predicate AmountGood(s: State, p: Process, amount: nat) {
    && p.work.CancelTask? && p.work.task in s.tasks
    && (s.tasks[p.work.task].creator == p.work.person ==> s.tasks[p.work.task].reserved == amount)
  }

  ghost predicate ReadsGood(s: State) {
    forall i | 0 <= i < |s.processes| :: StillGood(s, s.processes[i])
  }

  ghost predicate RefundsRight(s: State) {
    forall k | 0 <= k < |s.refunds| :: s.refunds[k].0 == s.refunds[k].1
  }

  ghost predicate Inv(s: State) {
    GatesRight(s) && SlotsDistinct(s) && WithinLimit(s) && ReadsGood(s) && RefundsRight(s)
  }

  // ---------- gates ----------

  lemma AcquireKeepsGates(s: State, i: nat, g: Gate, stage: Stage)
    requires GatesRight(s) && i < |s.processes| && g !in s.gates
    requires forall h :: Holds(s.processes[i].(stage := stage), h) <==> Holds(s.processes[i], h) || h == g
    ensures GatesRight(Acquire(s, i, g, stage))
  {
  }

  lemma MoveKeepsGates(s: State, i: nat, stage: Stage)
    requires GatesRight(s) && i < |s.processes|
    requires forall h :: Holds(s.processes[i].(stage := stage), h) <==> Holds(s.processes[i], h)
    ensures GatesRight(MovedTo(s, i, stage))
  {
  }

  lemma ReleaseKeepsGates(s: State, i: nat)
    requires GatesRight(s) && i < |s.processes|
    ensures GatesRight(Release(s, i))
  {
    var r := Release(s, i);
    assert forall h :: !Holds(r.processes[i], h);
  }

  lemma NextKeepsGates(s: State, e: Event)
    requires GatesRight(s) && ReadsGood(s)
    ensures GatesRight(Next(s, e))
  {
    match e
    case Start(work) =>
      assert forall h :: !Holds(Process(work, Begun), h);
    case Abort(i) =>
      if i < |s.processes| {
        ReleaseKeepsGates(s, i);
      }
    case Proceed(i) =>
      if i < |s.processes| && s.processes[i].stage != Over {
        assert StillGood(s, s.processes[i]);
        ReleaseKeepsGates(s, i);
        hide GatesRight, ReadsGood, LowestFree, ActiveCount, Held, Untaken;
        AcquireForAll(s, i);
        MoveForAll(s, i);
        ReleasedAlike(s, i, Next(s, e));
      }
  }

  /** Every acquisition in the transactions' order adds exactly the gate asked for. */
  lemma AcquireForAll(s: State, i: nat)
    requires GatesRight(s) && i < |s.processes|
    ensures var p := s.processes[i];
            && (p.stage == Begun && Identity(p.work.person) !in s.gates ==>
                  GatesRight(Acquire(s, i, Identity(p.work.person), Identified)))
            && (p.stage == Identified && p.work.Accept? && ActiveLimit(p.work.person) !in s.gates ==>
                  GatesRight(Acquire(s, i, ActiveLimit(p.work.person), Limited)))
            && (p.stage == Limited && p.work.Accept? && TaskGate(p.work.task) !in s.gates ==>
                  GatesRight(Acquire(s, i, TaskGate(p.work.task), Tasked)))
            && (p.stage == Identified && !p.work.Accept? && TaskGate(p.work.task) !in s.gates ==>
                  GatesRight(Acquire(s, i, TaskGate(p.work.task), Tasked)))
            && (p.stage.Read? && p.work.CancelTask? && TaskGate(p.work.task) !in s.gates ==>
                  GatesRight(Acquire(s, i, TaskGate(p.work.task), TaskedAfter(p.stage.amount))))
  {
    var p := s.processes[i];
    if p.stage == Begun && Identity(p.work.person) !in s.gates {
      AcquireKeepsGates(s, i, Identity(p.work.person), Identified);
    }
    if p.stage == Identified && p.work.Accept? && ActiveLimit(p.work.person) !in s.gates {
      AcquireKeepsGates(s, i, ActiveLimit(p.work.person), Limited);
    }
    if TaskGate(p.work.task) !in s.gates {
      if p.stage == Limited && p.work.Accept? {
        AcquireKeepsGates(s, i, TaskGate(p.work.task), Tasked);
      }
      if p.stage == Identified && !p.work.Accept? {
        AcquireKeepsGates(s, i, TaskGate(p.work.task), Tasked);
      }
      if p.stage.Read? && p.work.CancelTask? {
        AcquireKeepsGates(s, i, TaskGate(p.work.task), TaskedAfter(p.stage.amount));
      }
    }
  }

  /** Reading changes no gate. */
  lemma MoveForAll(s: State, i: nat)
    requires GatesRight(s) && i < |s.processes|
    ensures var p := s.processes[i];
            && (p.stage == Tasked && p.work.Accept? ==> forall n :: GatesRight(MovedTo(s, i, Counted(n))))
            && (p.stage.Counted? && p.work.Accept? ==> forall n :: GatesRight(MovedTo(s, i, Picked(n))))
            && (p.stage == Identified && p.work.CancelTask? ==> forall n :: GatesRight(MovedTo(s, i, Read(n))))
  {
    var p := s.processes[i];
    forall n: nat
      ensures p.stage == Tasked && p.work.Accept? ==> GatesRight(MovedTo(s, i, Counted(n)))
      ensures p.stage.Counted? && p.work.Accept? ==> GatesRight(MovedTo(s, i, Picked(n)))
      ensures p.stage == Identified && p.work.CancelTask? ==> GatesRight(MovedTo(s, i, Read(n)))
    {
      if p.stage == Tasked && p.work.Accept? {
        MoveKeepsGates(s, i, Counted(n));
      }
      if p.stage.Counted? && p.work.Accept? {
        MoveKeepsGates(s, i, Picked(n));
      }
      if p.stage == Identified && p.work.CancelTask? {
        MoveKeepsGates(s, i, Read(n));
      }
    }
  }

  lemma ReleasedAlike(s: State, i: nat, after: State)
    requires i < |s.processes| && GatesRight(Release(s, i))
    ensures after.gates == Release(s, i).gates && after.processes == Release(s, i).processes ==> GatesRight(after)
  {
  }

  // ---------- counts ----------

  lemma CountAppend(rows: seq<Row>, r: Row, p: Person)
    ensures ActiveCount(rows + [r], p) == ActiveCount(rows, p) + if r.person == p && r.state == Active then 1 else 0
  {
    assert (rows + [r])[..|rows|] == rows;
  }

  lemma {:induction false} CountFalls(rows: seq<Row>, i: nat, to: RowState, p: Person)
    requires i < |rows| && to != Active
    ensures ActiveCount(rows[i := rows[i].(state := to)], p) <= ActiveCount(rows, p)
  {
    var n, after := |rows| - 1, rows[i := rows[i].(state := to)];
    if i == n {
      assert after[..n] == rows[..n];
    } else {
      assert after[..n] == rows[..n][i := rows[..n][i].(state := to)];
      CountFalls(rows[..n], i, to, p);
    }
  }

  // ---------- what one commit does to the others ----------

  /** Two transactions that hold the same gate are the same transaction. */
  lemma GateExcludes(s: State, i: nat, j: nat, g: Gate)
    requires GatesRight(s) && i < |s.processes| && j < |s.processes|
    requires Holds(s.processes[i], g) && Holds(s.processes[j], g)
    ensures i == j
  {
    hide Holds;
    assert s.gates[g] == i;
    assert s.gates[g] == j;
  }

  lemma HeldGrows(rows: seq<Row>, r: Row, t: TaskId, slot: nat)
    ensures Held(rows + [r], t, slot) ==> Held(rows, t, slot) || (r.task == t && r.slot == slot && Live(r))
  {
    if Held(rows + [r], t, slot) {
      var i :| 0 <= i < |rows + [r]| && (rows + [r])[i].task == t && (rows + [r])[i].slot == slot && Live((rows + [r])[i]);
      if i < |rows| {
        assert rows[i] == (rows + [r])[i];
      }
    }
  }

  lemma HeldShrinks(rows: seq<Row>, i: nat, to: RowState, t: TaskId, slot: nat)
    requires i < |rows| && Live(rows[i])
    ensures Held(rows[i := rows[i].(state := to)], t, slot) ==> Held(rows, t, slot)
  {
    var after := rows[i := rows[i].(state := to)];
    if Held(after, t, slot) {
      var k :| 0 <= k < |after| && after[k].task == t && after[k].slot == slot && Live(after[k]);
      assert rows[k].task == t && rows[k].slot == slot && Live(rows[k]);
    }
  }

  /** An accept that commits disturbs nobody: whoever relies on the same count or the same slots
      would hold one of the gates it holds. */
  lemma AcceptDisturbsNobody(s: State, i: nat, j: nat, row: Row)
    requires GatesRight(s) && ReadsGood(s) && i < |s.processes| && j < |s.processes| && i != j
    requires s.processes[i].work.Accept? && s.processes[i].stage.Picked?
    requires row == Row(s.processes[i].work.task, s.processes[i].stage.slot, s.processes[i].work.person, Active)
    ensures StillGood(s.(rows := s.rows + [row]), s.processes[j])
  {
    var p, q := s.processes[i], s.processes[j];
    assert StillGood(s, q);
    CountAppend(s.rows, row, q.work.person);
    if q.work.Accept? && (q.stage.Counted? || q.stage.Picked?) {
      if q.work.person == p.work.person {
        GateExcludes(s, i, j, ActiveLimit(p.work.person));
      }
      if q.work.task == p.work.task {
        GateExcludes(s, i, j, TaskGate(p.work.task));
      }
      if q.stage.Picked? {
        HeldGrows(s.rows, row, q.work.task, q.stage.slot);
      }
    }
  }

  lemma EndDisturbsNobody(s: State, q: Process, i: nat, to: RowState)
    requires StillGood(s, q) && i < |s.rows| && s.rows[i].state == Active && to != Active
    ensures StillGood(s.(rows := s.rows[i := s.rows[i].(state := to)]), q)
  {
    CountFalls(s.rows, i, to, q.work.person);
    if q.stage.Picked? {
      HeldShrinks(s.rows, i, to, q.work.task, q.stage.slot);
    }
  }

  /** An edit that commits disturbs nobody: a cancellation by the same creator would hold the
      creator's identity gate, and an accept on the same task the task's gate. */
  lemma EditDisturbsNobody(s: State, i: nat, j: nat, row: TaskRow)
    requires GatesRight(s) && ReadsGood(s) && i < |s.processes| && j < |s.processes| && i != j
    requires s.processes[i].work.EditTask? && s.processes[i].stage == Tasked
    requires s.processes[i].work.task in s.tasks && s.tasks[s.processes[i].work.task].creator == s.processes[i].work.person
    requires row.creator == s.processes[i].work.person
    ensures StillGood(s.(tasks := s.tasks[s.processes[i].work.task := row]), s.processes[j])
  {
    var p, q := s.processes[i], s.processes[j];
    assert StillGood(s, q);
    if q.work.task == p.work.task {
      if q.stage.Picked? {
        GateExcludes(s, i, j, TaskGate(p.work.task));
      }
      if (q.stage.Read? || q.stage.TaskedAfter?) && q.work.person == p.work.person {
        GateExcludes(s, i, j, Identity(p.work.person));
      }
    }
  }

  // ---------- one statement ----------

  /** What the other transactions rely on, after one statement of transaction `i`. */
  lemma OthersStayGood(s: State, i: nat, j: nat)
    requires Inv(s) && i < |s.processes| && j < |s.processes| && i != j && s.processes[i].stage != Over
    ensures StillGood(Next(s, Proceed(i)), s.processes[j])
  {
    var p, v := s.processes[i], Next(s, Proceed(i));
    assert StillGood(s, s.processes[i]) && StillGood(s, s.processes[j]);
    hide GatesRight, SlotsDistinct, WithinLimit, RefundsRight, ReadsGood, LowestFree, Held, ActiveCount;
    assert v.limit == s.limit;
    match p.work
    case Accept(who, t) =>
      if p.stage.Picked? {
        var row := Row(t, p.stage.slot, who, Active);
        AcceptDisturbsNobody(s, i, j, row);
        RowsAndTasks(s.(rows := s.rows + [row]), v, s.processes[j]);
      } else {
        RowsAndTasks(s, v, s.processes[j]);
      }
    case EndAssignment(_, _, row, to) =>
      if v.rows != s.rows {
        EndDisturbsNobody(s, s.processes[j], row, to);
        RowsAndTasks(s.(rows := s.rows[row := s.rows[row].(state := to)]), v, s.processes[j]);
      } else {
        RowsAndTasks(s, v, s.processes[j]);
      }
    case EditTask(_, t, reserve, slots) =>
      if v.tasks != s.tasks {
        var row := s.tasks[t].(reserved := reserve, slots := slots);
        EditDisturbsNobody(s, i, j, row);
        RowsAndTasks(s.(tasks := s.tasks[t := row]), v, s.processes[j]);
      } else {
        RowsAndTasks(s, v, s.processes[j]);
      }
    case CancelTask(_, t) =>
  }

  lemma RowsAndTasks(s: State, v: State, q: Process)
    requires StillGood(s, q) && v.rows == s.rows && v.tasks == s.tasks && v.limit == s.limit
    ensures StillGood(v, q)
  {
  }

  /** What transaction `i` itself has just read. */
  lemma OwnReadsGood(s: State, i: nat)
    requires Inv(s) && i < |s.processes| && s.processes[i].stage != Over
    ensures |Next(s, Proceed(i)).processes| == |s.processes|
    ensures StillGood(Next(s, Proceed(i)), Next(s, Proceed(i)).processes[i])
    ensures forall j | 0 <= j < |s.processes| && j != i :: Next(s, Proceed(i)).processes[j] == s.processes[j]
  {
    assert StillGood(s, s.processes[i]);
    hide GatesRight, SlotsDistinct, WithinLimit, RefundsRight, ReadsGood, Held, ActiveCount, Untaken;
  }

  lemma NextKeepsReads(s: State, e: Event)
    requires Inv(s)
    ensures ReadsGood(Next(s, e))
  {
    match e
    case Start(work) =>
      forall j | 0 <= j < |s.processes|
        ensures StillGood(Next(s, e), s.processes[j])
      {
        assert StillGood(s, s.processes[j]);
      }
    case Abort(i) =>
      forall j | 0 <= j < |s.processes|
        ensures StillGood(Next(s, e), s.processes[j])
      {
        assert StillGood(s, s.processes[j]);
      }
    case Proceed(i) =>
      if i < |s.processes| && s.processes[i].stage != Over {
        OwnReadsGood(s, i);
        forall j | 0 <= j < |s.processes|
          ensures StillGood(Next(s, e), Next(s, e).processes[j])
        {
          if j != i {
            hide Next;
            OthersStayGood(s, i, j);
          }
        }
      }
  }

  lemma SlotsAfterAccept(s: State, row: Row)
    requires SlotsDistinct(s) && row.task in s.tasks && 1 <= row.slot <= s.tasks[row.task].slots
    requires !Held(s.rows, row.task, row.slot)
    ensures SlotsDistinct(s.(rows := s.rows + [row]))
  {
  }

  lemma SlotsAfterEnd(s: State, i: nat, to: RowState)
    requires SlotsDistinct(s) && i < |s.rows| && s.rows[i].state == Active
    ensures SlotsDistinct(s.(rows := s.rows[i := s.rows[i].(state := to)]))
  {
  }

  lemma SlotsAfterTaskChange(s: State, t: TaskId, row: TaskRow)
    requires SlotsDistinct(s) && t in s.tasks && (Untaken(s.rows, t) || row.slots == s.tasks[t].slots)
    ensures SlotsDistinct(s.(tasks := s.tasks[t := row]))
  {
  }

  lemma NextKeepsSlots(s: State, e: Event)
    requires Inv(s)
    ensures SlotsDistinct(Next(s, e))
  {
    if e.Proceed? && e.process < |s.processes| && s.processes[e.process].stage != Over {
      var p := s.processes[e.process];
      assert StillGood(s, p);
      hide GatesRight, WithinLimit, RefundsRight, ReadsGood, ActiveCount, LowestFree, Held, Untaken;
      match p.work
      case Accept(who, t) =>
        if p.stage.Picked? {
          SlotsAfterAccept(s, Row(t, p.stage.slot, who, Active));
        }
      case EndAssignment(_, t, row, to) =>
        if row < |s.rows| && s.rows[row].state == Active {
          SlotsAfterEnd(s, row, to);
        }
      case EditTask(who, t, reserve, slots) =>
        if t in s.tasks && Untaken(s.rows, t) {
          SlotsAfterTaskChange(s, t, s.tasks[t].(reserved := reserve, slots := slots));
        }
      case CancelTask(who, t) =>
        if t in s.tasks {
          SlotsAfterTaskChange(s, t, s.tasks[t].(published := false));
        }
    }
  }

  /** The rows only ever change by an accept below the limit, or by ending an assignment. */
  lemma RowChange(s: State, i: nat)
    requires Inv(s) && i < |s.processes| && s.processes[i].stage != Over && Next(s, Proceed(i)).rows != s.rows
    ensures var w := s.processes[i].work;
            || (w.Accept? && ActiveCount(s.rows, w.person) < s.limit
                && exists slot :: Next(s, Proceed(i)).rows == s.rows + [Row(w.task, slot, w.person, Active)])
            || (w.EndAssignment? && w.row < |s.rows| && w.to != Active
                && Next(s, Proceed(i)).rows == s.rows[w.row := s.rows[w.row].(state := w.to)])
  {
    hide GatesRight, SlotsDistinct, RefundsRight, LowestFree, Held, ActiveCount, Untaken;
    assert StillGood(s, s.processes[i]);
    if s.processes[i].work.Accept? {
      assert Next(s, Proceed(i)).rows == s.rows + [Row(s.processes[i].work.task, s.processes[i].stage.slot, s.processes[i].work.person, Active)];
    }
  }

  lemma NextKeepsLimit(s: State, e: Event)
    requires Inv(s)
    ensures WithinLimit(Next(s, e))
  {
    hide GatesRight, SlotsDistinct, RefundsRight, ReadsGood, ActiveCount;
    var v := Next(s, e);
    assert v.limit == s.limit by {
      hide LowestFree, Held, Untaken;
    }
    if v.rows != s.rows {
      RowChange(s, e.process);
      var w := s.processes[e.process].work;
      hide Next;
      forall p: Person
        ensures ActiveCount(v.rows, p) <= v.limit
      {
        if w.Accept? && ActiveCount(s.rows, w.person) < s.limit {
          var slot :| v.rows == s.rows + [Row(w.task, slot, w.person, Active)];
          CountAppend(s.rows, Row(w.task, slot, w.person, Active), p);
        } else {
          CountFalls(s.rows, w.row, w.to, p);
        }
      }
    }
  }

  /** A cancellation that commits pays back what the row says at that moment. */
  lemma NextKeepsRefunds(s: State, e: Event)
    requires Inv(s)
    ensures RefundsRight(Next(s, e))
  {
    hide GatesRight, SlotsDistinct, WithinLimit, LowestFree, Held, ActiveCount, Untaken;
    if e.Proceed? && e.process < |s.processes| && s.processes[e.process].stage != Over {
      assert StillGood(s, s.processes[e.process]);
    }
  }

  lemma NextKeeps(s: State, e: Event)
    requires Inv(s)
    ensures Inv(Next(s, e))
  {
    NextKeepsGates(s, e);
    NextKeepsReads(s, e);
    NextKeepsSlots(s, e);
    NextKeepsLimit(s, e);
    NextKeepsRefunds(s, e);
  }

  ghost predicate Fresh(s: State) {
    && s.gates == map[] && s.processes == [] && s.refunds == []
    && SlotsDistinct(s) && WithinLimit(s)
  }

  /** Whatever the interleaving of statements: nobody exceeds the active limit, live assignments of
      a task sit on distinct slots within its number, and every cancellation paid back exactly what
      the locked row said, although it had read the amount before taking the lock. */
  lemma {:induction false} EveryInterleavingSafe(s: State, events: seq<Event>)
    requires Fresh(s)
    ensures Inv(Run(s, events))
  {
    if events != [] {
      EveryInterleavingSafe(s, events[..|events| - 1]);
      NextKeeps(Run(s, events[..|events| - 1]), events[|events| - 1]);
    }
  }

  // ---------- one transaction on its own ----------

  /** Six statements of the same transaction, more than any of them has left once it is over. */
  function Alone(i: nat): (events: seq<Event>)
    ensures |events| == 6 && forall k | 0 <= k < 6 :: events[k] == Proceed(i)
  {
    seq(6, _ => Proceed(i))
  }

  lemma {:induction false} AloneSteps(s: State, events: seq<Event>, e: Event)
    requires |events| == 6 && forall k | 0 <= k < 6 :: events[k] == e
    ensures Run(s, events) == Next(Next(Next(Next(Next(Next(s, e), e), e), e), e), e)
  {
    hide Next;
    assert Run(s, events[..0]) == s;
    assert forall k | 0 <= k < 6 :: events[..k + 1][..k] == events[..k];
    assert Run(s, events[..1]) == Next(s, e);
    assert Run(s, events[..2]) == Next(Next(s, e), e);
    assert Run(s, events[..3]) == Next(Next(Next(s, e), e), e);
    assert Run(s, events[..4]) == Next(Next(Next(Next(s, e), e), e), e);
    assert Run(s, events[..5]) == Next(Next(Next(Next(Next(s, e), e), e), e), e);
    assert events[..6] == events;
  }

  /** Nobody holds a gate the transaction will ask for. */
  predicate Unhindered(s: State, w: Work) {
    Identity(w.person) !in s.gates && ActiveLimit(w.person) !in s.gates && TaskGate(w.task) !in s.gates
  }

  /** What the rows, tasks and refunds become when the whole transaction happens at once. */
  ghost predicate AtOnce(s: State, v: State, w: Work) {
    match w
    case Accept(p, t) =>
      && v.tasks == s.tasks && v.refunds == s.refunds
      && (if t in s.tasks && s.tasks[t].published && ActiveCount(s.rows, p) < s.limit
             && exists k :: 1 <= k <= s.tasks[t].slots && !Held(s.rows, t, k)
          then |v.rows| == |s.rows| + 1 && v.rows[..|s.rows|] == s.rows
               && var slot := v.rows[|s.rows|].slot;
                  && v.rows[|s.rows|] == Row(t, slot, p, Active) && 1 <= slot <= s.tasks[t].slots
                  && !Held(s.rows, t, slot) && (forall k | 1 <= k < slot :: Held(s.rows, t, k))
          else v.rows == s.rows)
    case CancelTask(p, t) =>
      && v.rows == s.rows
      && (if t in s.tasks && s.tasks[t].creator == p && s.tasks[t].published && Untaken(s.rows, t)
          then v.tasks == s.tasks[t := TaskRow(p, s.tasks[t].slots, s.tasks[t].reserved, false)]
               && v.refunds == s.refunds + [(s.tasks[t].reserved, s.tasks[t].reserved)]
          else v.tasks == s.tasks && v.refunds == s.refunds)
    case EditTask(p, t, reserve, slots) =>
      && v.rows == s.rows && v.refunds == s.refunds
      && v.tasks == (if t in s.tasks && s.tasks[t].creator == p && s.tasks[t].published && Untaken(s.rows, t)
                     then s.tasks[t := TaskRow(p, slots, reserve, true)] else s.tasks)
    case EndAssignment(p, t, row, to) =>
      && v.tasks == s.tasks && v.refunds == s.refunds
      && v.rows == (if to != Active && row < |s.rows| && s.rows[row].task == t && s.rows[row].state == Active
                    then s.rows[row := Row(t, s.rows[row].slot, s.rows[row].person, to)] else s.rows)
  }

  lemma {:induction false} LowestIsLowest(rows: seq<Row>, t: TaskId, s: nat, slots: nat)
    ensures LowestFree(rows, t, s, slots).Some? ==>
              forall k | s <= k < LowestFree(rows, t, s, slots).value :: Held(rows, t, k)
    ensures LowestFree(rows, t, s, slots).None? ==> forall k | s <= k <= slots :: Held(rows, t, k)
    decreases slots + 1 - s
  {
    hide Held;
    if s <= slots && Held(rows, t, s) {
      LowestIsLowest(rows, t, s + 1, slots);
    }
  }

  /** The transaction has come this far, changed nothing, and holds these gates more than before. */
  ghost predicate At(s: State, v: State, i: nat, stage: Stage, mine: set<Gate>)
    requires i < |s.processes|
  {
    && |v.processes| == |s.processes| && v.processes[i] == Process(s.processes[i].work, stage)
    && v.limit == s.limit && v.rows == s.rows && v.tasks == s.tasks && v.refunds == s.refunds
    && forall g | g in v.gates :: g in s.gates || g in mine
  }

  lemma Takes(s: State, v: State, i: nat, from: Stage, mine: set<Gate>, g: Gate, to: Stage)
    requires i < |s.processes| && At(s, v, i, from, mine) && g !in s.gates && g !in mine
    ensures At(s, Acquire(v, i, g, to), i, to, mine + {g})
  {
  }

  lemma Moves(s: State, v: State, i: nat, from: Stage, mine: set<Gate>, to: Stage)
    requires i < |s.processes| && At(s, v, i, from, mine)
    ensures At(s, MovedTo(v, i, to), i, to, mine)
  {
  }

  lemma OverStays(v: State, i: nat)
    requires i < |v.processes| && v.processes[i].stage == Over
    ensures Next(v, Proceed(i)) == v
  {
  }

  lemma ReleasedIsOver(v: State, i: nat)
    requires i < |v.processes|
    ensures var r := Release(v, i);
            && |r.processes| == |v.processes| && r.processes[i].stage == Over
            && r.rows == v.rows && r.tasks == v.tasks && r.refunds == v.refunds
  {
  }

  lemma AcceptAtOnce(s: State, i: nat, e: Event)
    requires i < |s.processes| && s.processes[i].stage == Begun && Unhindered(s, s.processes[i].work)
    requires s.processes[i].work.Accept? && e == Proceed(i)
    ensures AtOnce(s, Next(Next(Next(Next(Next(Next(s, e), e), e), e), e), e), s.processes[i].work)
  {
    hide Held, ActiveCount, LowestFree, Acquire, Release, MovedTo, At;
    var w := s.processes[i].work;
    var identity, limited, tasked := Identity(w.person), ActiveLimit(w.person), TaskGate(w.task);
    assert At(s, s, i, Begun, {}) by {
      Begins(s, i);
    }
    Takes(s, s, i, Begun, {}, identity, Identified);
    var s1 := Acquire(s, i, identity, Identified);
    AtHas(s, s1, i, Identified, {} + {identity});
    Takes(s, s1, i, Identified, {} + {identity}, limited, Limited);
    var s2 := Acquire(s1, i, limited, Limited);
    AtHas(s, s2, i, Limited, {} + {identity} + {limited});
    Takes(s, s2, i, Limited, {} + {identity} + {limited}, tasked, Tasked);
    var s3 := Acquire(s2, i, tasked, Tasked);
    var mine := {} + {identity} + {limited} + {tasked};
    AtHas(s, s3, i, Tasked, mine);
    assert Next(Next(Next(s, e), e), e) == s3;
    hide AtOnce;
    AcceptFromTask(s, s3, i, e, mine);
  }

  lemma Begins(s: State, i: nat)
    requires i < |s.processes| && s.processes[i].stage == Begun
    ensures At(s, s, i, Begun, {})
  {
  }

  lemma AtHas(s: State, v: State, i: nat, stage: Stage, mine: set<Gate>)
    requires i < |s.processes| && At(s, v, i, stage, mine)
    ensures |v.processes| == |s.processes| && v.processes[i] == Process(s.processes[i].work, stage)
    ensures v.limit == s.limit && v.rows == s.rows && v.tasks == s.tasks && v.refunds == s.refunds
  {
  }

  lemma AcceptFromTask(s: State, v: State, i: nat, e: Event, mine: set<Gate>)
    requires i < |s.processes| && At(s, v, i, Tasked, mine) && s.processes[i].work.Accept? && e == Proceed(i)
    ensures AtOnce(s, Next(Next(Next(v, e), e), e), s.processes[i].work)
  {
    hide Held, ActiveCount, LowestFree, Acquire, Release, MovedTo, At;
    var w := s.processes[i].work;
    var p, t := w.person, w.task;
    AtHas(s, v, i, Tasked, mine);
    ReleasedIsOver(v, i);
    OverStays(Release(v, i), i);
    if t in s.tasks && s.tasks[t].published && ActiveCount(s.rows, p) < s.limit {
      LowestIsLowest(s.rows, t, 1, s.tasks[t].slots);
      var counted := Counted(ActiveCount(s.rows, p));
      var v1 := MovedTo(v, i, counted);
      Moves(s, v, i, Tasked, mine, counted);
      AtHas(s, v1, i, counted, mine);
      ReleasedIsOver(v1, i);
      OverStays(Release(v1, i), i);
      match LowestFree(s.rows, t, 1, s.tasks[t].slots)
      case None =>
      case Some(slot) =>
        var v2 := MovedTo(v1, i, Picked(slot));
        Moves(s, v1, i, counted, mine, Picked(slot));
        AtHas(s, v2, i, Picked(slot), mine);
        ReleasedIsOver(v2, i);
    }
  }

  lemma CancelAtOnce(s: State, i: nat, e: Event)
    requires i < |s.processes| && s.processes[i].stage == Begun && Unhindered(s, s.processes[i].work)
    requires s.processes[i].work.CancelTask? && e == Proceed(i)
    ensures AtOnce(s, Next(Next(Next(Next(Next(Next(s, e), e), e), e), e), e), s.processes[i].work)
  {
    hide Untaken, Acquire, Release, MovedTo, At;
    var w := s.processes[i].work;
    var identity, tasked := Identity(w.person), TaskGate(w.task);
    Begins(s, i);
    Takes(s, s, i, Begun, {}, identity, Identified);
    var s1 := Acquire(s, i, identity, Identified);
    AtHas(s, s1, i, Identified, {} + {identity});
    ReleasedIsOver(s1, i);
    OverStays(Release(s1, i), i);
    if w.task in s.tasks {
      var amount := s.tasks[w.task].reserved;
      Moves(s, s1, i, Identified, {} + {identity}, Read(amount));
      var s2 := MovedTo(s1, i, Read(amount));
      AtHas(s, s2, i, Read(amount), {} + {identity});
      Takes(s, s2, i, Read(amount), {} + {identity}, tasked, TaskedAfter(amount));
      var s3 := Acquire(s2, i, tasked, TaskedAfter(amount));
      AtHas(s, s3, i, TaskedAfter(amount), {} + {identity} + {tasked});
      ReleasedIsOver(s3, i);
      OverStays(Next(s3, e), i);
    }
  }

  lemma TaskedAtOnce(s: State, i: nat, e: Event)
    requires i < |s.processes| && s.processes[i].stage == Begun && Unhindered(s, s.processes[i].work)
    requires (s.processes[i].work.EditTask? || s.processes[i].work.EndAssignment?) && e == Proceed(i)
    ensures AtOnce(s, Next(Next(Next(Next(Next(Next(s, e), e), e), e), e), e), s.processes[i].work)
  {
    hide Untaken, Acquire, Release, MovedTo, At;
    var w := s.processes[i].work;
    var identity, tasked := Identity(w.person), TaskGate(w.task);
    Begins(s, i);
    Takes(s, s, i, Begun, {}, identity, Identified);
    var s1 := Acquire(s, i, identity, Identified);
    AtHas(s, s1, i, Identified, {} + {identity});
    Takes(s, s1, i, Identified, {} + {identity}, tasked, Tasked);
    var s2 := Acquire(s1, i, tasked, Tasked);
    AtHas(s, s2, i, Tasked, {} + {identity} + {tasked});
    ReleasedIsOver(s2, i);
    if !(w.EndAssignment? && w.to == Active) {
      assert Next(Next(s, e), e) == s2;
      OverStays(Next(s2, e), i);
    }
  }

  /** Statement by statement, but undisturbed, a transaction does exactly what it would do at once. */
  lemma UndisturbedIsAtOnce(s: State, i: nat)
    requires i < |s.processes| && s.processes[i].stage == Begun && Unhindered(s, s.processes[i].work)
    ensures AtOnce(s, Run(s, Alone(i)), s.processes[i].work)
  {
    hide AtOnce, Next, Run;
    var e := Proceed(i);
    AloneSteps(s, Alone(i), e);
    match s.processes[i].work
    case Accept(_, _) => AcceptAtOnce(s, i, e);
    case CancelTask(_, _) => CancelAtOnce(s, i, e);
    case _ => TaskedAtOnce(s, i, e);
  }
}
