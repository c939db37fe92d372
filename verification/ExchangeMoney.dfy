/**
 Conservation: no request, job or clock tick creates or destroys a credit.
 */
module ExchangeMoney {
  import opened Wrappers
  import opened Ledger
  import opened Tasks
  import opened Escrow
  import opened EscrowInvariants
  import opened EscrowPerformer
  import opened Exchange
  import opened ExchangeInvariants
  import opened ExchangeRuns

  // ---------- sums over finite sets ----------

  ghost function Sum(s: set<nat>, f: nat -> int): int {
    if s == {} then 0
    else
      var x :| x in s;
      f(x) + Sum(s - {x}, f)
  }

  lemma {:induction false} SumPick(s: set<nat>, f: nat -> int, x: nat)
    requires x in s
    ensures Sum(s, f) == f(x) + Sum(s - {x}, f)
    decreases |s|
  {
    var y :| y in s && Sum(s, f) == f(y) + Sum(s - {y}, f);
    if y != x {
      SumPick(s - {y}, f, x);
      SumPick(s - {x}, f, y);
      assert s - {y} - {x} == s - {x} - {y};
    }
  }

  lemma {:induction false} SumSame(s: set<nat>, f: nat -> int, g: nat -> int)
    requires forall x | x in s :: f(x) == g(x)
    ensures Sum(s, f) == Sum(s, g)
  {
    if s != {} {
      var x :| x in s;
      SumPick(s, f, x);
      SumPick(s, g, x);
      SumSame(s - {x}, f, g);
    }
  }

  lemma {:induction false} SumZero(s: set<nat>, f: nat -> int)
    requires forall x | x in s :: f(x) == 0
    ensures Sum(s, f) == 0
  {
    if s != {} {
      var x :| x in s;
      SumPick(s, f, x);
      SumZero(s - {x}, f);
    }
  }

  /** Moving one summand moves the sum by as much. */
  lemma SumMoves(s: set<nat>, f: nat -> int, g: nat -> int, x: nat, d: int)
    requires forall y | y in s :: g(y) == f(y) + if y == x then d else 0
    ensures Sum(s, g) == Sum(s, f) + if x in s then d else 0
  {
    if x in s {
      SumPick(s, f, x);
      SumPick(s, g, x);
      SumSame(s - {x}, f, g);
    } else {
      SumSame(s, f, g);
    }
  }

  lemma {:induction false} SumSplits(a: set<nat>, b: set<nat>, f: nat -> int)
    requires a !! b
    ensures Sum(a + b, f) == Sum(a, f) + Sum(b, f)
  {
    if a == {} {
      assert a + b == b;
    } else {
      var x :| x in a;
      SumPick(a, f, x);
      SumPick(a + b, f, x);
      assert a + b - {x} == (a - {x}) + b;
      SumSplits(a - {x}, b, f);
    }
  }

  // ---------- where the credits are ----------

  ghost function TotalBalance(b: Book): int {
    Sum(b.credit.Keys, (m: nat) => if m in b.credit then b.credit[m] else 0)
  }

  ghost function TotalHeld(entries: seq<Entry>, tasks: set<TaskId>): int {
    Sum(tasks, (t: nat) => Held(entries, t))
  }

  /** Credits booked by entries that are not about any task: grants, transfers, adjustments. */
  function OutsideCredit(entries: seq<Entry>): int {
    if entries == [] then 0
    else
      var last := entries[|entries| - 1].command;
      OutsideCredit(entries[..|entries| - 1]) + if TaskOf(last.key).None? then last.credit else 0
  }

  lemma {:induction false} MembersOwnEverything(entries: seq<Entry>, members: set<MemberId>)
    requires forall i | 0 <= i < |entries| :: entries[i].command.member in members
    ensures Sum(members, (m: nat) => CreditSum(entries, m)) == TotalCredit(entries)
  {
    if entries == [] {
      SumZero(members, (m: nat) => CreditSum(entries, m));
    } else {
      var front, c := entries[..|entries| - 1], entries[|entries| - 1].command;
      MembersOwnEverything(front, members);
      SumMoves(members, (m: nat) => CreditSum(front, m), (m: nat) => CreditSum(entries, m), c.member, c.credit);
    }
  }

  lemma {:induction false} TasksOrOutside(entries: seq<Entry>, tasks: set<TaskId>)
    requires forall i | 0 <= i < |entries| :: TaskOf(entries[i].command.key).Some? ==> TaskOf(entries[i].command.key).value in tasks
    ensures TotalHeld(entries, tasks) == OutsideCredit(entries) - TotalCredit(entries)
  {
    if entries == [] {
      SumZero(tasks, (t: nat) => Held(entries, t));
    } else {
      var front, c := entries[..|entries| - 1], entries[|entries| - 1].command;
      TasksOrOutside(front, tasks);
      assert forall t: nat :: Held(entries, t) == Held(front, t) - if TaskOf(c.key) == Some(t) then c.credit else 0;
      if TaskOf(c.key).Some? {
        SumMoves(tasks, (t: nat) => Held(front, t), (t: nat) => Held(entries, t), TaskOf(c.key).value, -c.credit);
      } else {
        SumSame(tasks, (t: nat) => Held(front, t), (t: nat) => Held(entries, t));
      }
    }
  }

  /** Conservation: what members have, plus what tasks hold, is what came from outside. */
  lemma Conservation(w: World)
    requires LedgerSound(w)
    ensures TotalBalance(w.book) + TotalHeld(w.book.entries, w.tasks.Keys) == OutsideCredit(w.book.entries)
  {
    var b := w.book;
    forall i | 0 <= i < |b.entries|
      ensures TaskOf(b.entries[i].command.key).Some? ==> TaskOf(b.entries[i].command.key).value in w.tasks.Keys
    {
      assert OwnedKey(b.entries[i].command.key, w.tasks, w.receipts);
    }
    TasksOrOutside(b.entries, w.tasks.Keys);
    MembersOwnEverything(b.entries, b.credit.Keys);
    SumSame(b.credit.Keys, (m: nat) => if m in b.credit then b.credit[m] else 0, (m: nat) => CreditSum(b.entries, m));
  }

  // ---------- what moves credits from outside ----------

  /** What a step brings in from outside the exchange. */
  function BroughtIn(w: World, op: Op): int {
    match op
    case Register(m) => if m in w.book.credit || Step(w, op).Failure? then 0 else STARTING_GRANT_AMOUNT
    case Economy(cmds) =>
      if Step(w, op).Failure? || cmds == [] || !AllNew(w.book.entries, cmds) then 0 else CommandCredit(cmds)
    case _ => 0
  }

  function CommandCredit(cmds: seq<Command>): int {
    if cmds == [] then 0 else CommandCredit(cmds[..|cmds| - 1]) + cmds[|cmds| - 1].credit
  }

  lemma {:induction false} OutsideGrows(before: seq<Entry>, after: seq<Entry>, cmds: seq<Command>, outside: bool)
    requires Grew(before, after, cmds)
    requires forall k | 0 <= k < |cmds| :: TaskOf(cmds[k].key).None? <==> outside
    ensures OutsideCredit(after) == OutsideCredit(before) + if outside then CommandCredit(cmds) else 0
    decreases |cmds|
  {
    if cmds == [] {
      assert after == after[..|before|] == before;
    } else {
      var n := |cmds| - 1;
      var mid := after[..|after| - 1];
      assert mid[..|before|] == after[..|before|];
      OutsideGrows(before, mid, cmds[..n], outside);
      assert after[|before| + n].command == cmds[n];
    }
  }

  lemma SettledOutside(b: Book, cmds: seq<Command>, outside: bool)
    requires BookInv(b) && Settle(b, cmds).Success?
    requires forall k | 0 <= k < |cmds| :: TaskOf(cmds[k].key).None? <==> outside
    ensures OutsideCredit(Settle(b, cmds).value.entries)
         == OutsideCredit(b.entries) + if outside && AllNew(b.entries, cmds) then CommandCredit(cmds) else 0
  {
    SettleOutcome(b, cmds);
    hide BookInv, Settle;
    if AllNew(b.entries, cmds) {
      OutsideGrows(b.entries, Settle(b, cmds).value.entries, cmds, outside);
    }
  }

  lemma StepOutside(w: World, op: Op)
    requires LedgerSound(w)
    ensures OutsideCredit(After(w, op).book.entries) == OutsideCredit(w.book.entries) + BroughtIn(w, op)
  {
    if Step(w, op).Success? {
      match op
      case Tick(_) =>
      case Register(m) =>
        if m !in w.book.credit {
          GrantSettles(w.book, m);
          var known := w.book.(credit := w.book.credit[m := 0], experience := w.book.experience[m := 0]);
          GrantIsNew(w.book, known, m);
          SettledOutside(known, [GrantOf(m)], true);
          assert CommandCredit([GrantOf(m)]) == STARTING_GRANT_AMOUNT;
        }
      case SaveDraft(_, _) =>
      case Economy(cmds) =>
        SettledOutside(w.book, cmds, true);
      case Deliver(update, r) =>
        hide BookInv, Settle, AllNew, OutsideCredit;
        if update !in w.receipts {
          if r.PublishDraft? {
            hide Publish;
            PublishEffect(w, r.task);
            SettledOutside(w.book, PublishCommands(r.task, w.drafts[r.task]), false);
          } else {
            RequestTouches(w, update, r);
            hide RequestEffect;
            SettledOutside(w.book, RequestEffect(w, update, r).value.commands, false);
          }
        }
      case Perform(j) =>
        hide BookInv, Settle, AllNew, OutsideCredit;
        JobTouches(w, j);
        hide JobEffect;
        SettledOutside(w.book, JobEffect(w, j).value.commands, false);
    }
  }

  /** A member not yet known has no entry, so a starting grant that succeeds is not a replay. */
  lemma GrantIsNew(b: Book, known: Book, m: MemberId)
    requires Reconciled(b) && m !in b.credit && known.entries == b.entries && Settle(known, [GrantOf(m)]).Success?
    ensures AllNew(b.entries, [GrantOf(m)])
  {
    forall n | 0 <= n < |b.entries|
      ensures b.entries[n].command != GrantOf(m)
    {
      assert b.entries[n].command.member in b.credit.Keys;
    }
    assert !Recorded(b.entries, GrantOf(m));
    assert [GrantOf(m)][0] == GrantOf(m);
  }

  function TotalBroughtIn(w: World, ops: seq<Op>): int {
    if ops == [] then 0
    else TotalBroughtIn(w, ops[..|ops| - 1]) + BroughtIn(Run(w, ops[..|ops| - 1]), ops[|ops| - 1])
  }

  lemma {:induction false} RunOutside(w: World, ops: seq<Op>)
    requires LedgerSound(w)
    ensures OutsideCredit(Run(w, ops).book.entries) == OutsideCredit(w.book.entries) + TotalBroughtIn(w, ops)
  {
    if ops != [] {
      RunOutside(w, ops[..|ops| - 1]);
      RunSound(w, ops[..|ops| - 1]);
      StepOutside(Run(w, ops[..|ops| - 1]), ops[|ops| - 1]);
    }
  }

  /** Over any run whatsoever, balances and escrow together change only by what is brought in:
      starting grants and the ledger batches that are not about tasks. */
  lemma RunConserves(w: World, ops: seq<Op>)
    requires LedgerSound(w)
    ensures var v := Run(w, ops);
            TotalBalance(v.book) + TotalHeld(v.book.entries, v.tasks.Keys)
              == TotalBalance(w.book) + TotalHeld(w.book.entries, w.tasks.Keys) + TotalBroughtIn(w, ops)
  {
    Conservation(w);
    RunSound(w, ops);
    Conservation(Run(w, ops));
    RunOutside(w, ops);
  }

  // ---------- member tasks and community tasks ----------

  function TasksOf(w: World, o: Origin): set<TaskId> {
    set t | t in w.tasks && w.tasks[t].origin == o
  }

  /** Everything community tasks have paid out; they reserve nothing. */
  ghost function CommunityPaid(w: World): int {
    -TotalHeld(w.book.entries, TasksOf(w, Community))
  }

  /** Balances and the escrow of member tasks together change only with what comes from outside
      and with community rewards. */
  lemma MembersConserve(w: World)
    requires LedgerSound(w)
    ensures TotalBalance(w.book) + TotalHeld(w.book.entries, TasksOf(w, Member))
         == OutsideCredit(w.book.entries) + CommunityPaid(w)
  {
    Conservation(w);
    assert w.tasks.Keys == TasksOf(w, Member) + TasksOf(w, Community);
    SumSplits(TasksOf(w, Member), TasksOf(w, Community), (t: nat) => Held(w.book.entries, t));
  }
}
