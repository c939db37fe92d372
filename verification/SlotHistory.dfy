/**
 The latest assignment of every slot, computed three ways: by one pass over the rows, by the
 database's latest-row-per-slot query, and by counting the rows that are not cancelled.
 */
module SlotHistory {
  import opened Ledger
  import opened Tasks
  import opened EscrowCreator

  /** An assignment row with the columns the history is ordered by. */
  datatype Row = Row(id: nat, slot: nat, acceptedAt: int, assignment: Assignment)

  predicate RowsMatch(rows: seq<Row>) {
    forall i | 0 <= i < |rows| :: rows[i].assignment.slot == rows[i].slot
  }

  function History(rows: seq<Row>): (h: seq<Assignment>)
    ensures |h| == |rows| && forall i | 0 <= i < |rows| :: h[i] == rows[i].assignment
  {
    seq(|rows|, i requires 0 <= i < |rows| => rows[i].assignment)
  }

  /** Within a slot, rows are ordered by acceptance time and then by id. */
  predicate Later(a: Row, b: Row) {
    a.acceptedAt < b.acceptedAt || (a.acceptedAt == b.acceptedAt && a.id < b.id)
  }

  /** The one thing the loop needs of its input: each slot's own rows come oldest first. Both the
      query's order by slot and plain acceptance order satisfy it. */
  predicate SlotsInOrder(rows: seq<Row>) {
    forall i, j | 0 <= i < j < |rows| && rows[i].slot == rows[j].slot :: Later(rows[i], rows[j])
  }

  /** The query's order: by slot, then by acceptance. */
  predicate CanonicalOrder(rows: seq<Row>) {
    forall i, j | 0 <= i < j < |rows| ::
      rows[i].slot < rows[j].slot || (rows[i].slot == rows[j].slot && Later(rows[i], rows[j]))
  }

  predicate AcceptanceOrder(rows: seq<Row>) {
    forall i, j | 0 <= i < j < |rows| :: Later(rows[i], rows[j])
  }

  /** The rows kept by selecting, for every slot, the first one when sorted newest first. */
  function Distinct(rows: set<Row>): set<Row> {
    set r | r in rows && forall other | other in rows && other.slot == r.slot :: other == r || Later(other, r)
  }

  function RowSet(rows: seq<Row>): set<Row> {
    set i | 0 <= i < |rows| :: rows[i]
  }

  lemma OrdersSuffice(rows: seq<Row>)
    ensures CanonicalOrder(rows) || AcceptanceOrder(rows) ==> SlotsInOrder(rows)
  {
  }

  /** What the loop leaves for a slot is the status of the row the query selects for it. */
  lemma {:induction false} LoopIsQuery(rows: seq<Row>, s: nat)
    requires RowsMatch(rows) && SlotsInOrder(rows)
    ensures s in LatestBySlot(History(rows)) <==> exists r | r in Distinct(RowSet(rows)) :: r.slot == s
    ensures forall r | r in Distinct(RowSet(rows)) && r.slot == s :: LatestBySlot(History(rows))[s] == r.assignment.status
  {
    if rows != [] {
      var n := |rows| - 1;
      var front, last := rows[..n], rows[n];
      LoopIsQuery(front, s);
      assert History(rows)[..n] == History(front);
      assert RowSet(rows) == RowSet(front) + {last};
      forall r | r in Distinct(RowSet(rows)) && r.slot == s
        ensures if last.slot == s then r == last else r in Distinct(RowSet(front))
      {
        assert r in RowSet(front) && last.slot == s ==> Later(r, last);
      }
      if last.slot == s {
        assert last in Distinct(RowSet(rows));
      } else {
        forall r | r in Distinct(RowSet(front)) && r.slot == s
          ensures r in Distinct(RowSet(rows))
        {
        }
      }
    }
  }

  /** The order in which rows of different slots are read does not matter. */
  lemma ReadingOrderIrrelevant(a: seq<Row>, b: seq<Row>)
    requires RowsMatch(a) && SlotsInOrder(a) && RowsMatch(b) && SlotsInOrder(b)
    requires RowSet(a) == RowSet(b)
    ensures LatestBySlot(History(a)) == LatestBySlot(History(b))
  {
    forall s: nat
      ensures s in LatestBySlot(History(a)) <==> s in LatestBySlot(History(b))
      ensures s in LatestBySlot(History(a)) ==> LatestBySlot(History(a))[s] == LatestBySlot(History(b))[s]
    {
      LoopIsQuery(a, s);
      LoopIsQuery(b, s);
    }
  }

  // ---------- the derived status ----------

  /** The status expression of the repair query, over the selected rows; it leaves cancelled
      tasks out. */
  function RepairedStatus(current: TaskStatus, slots: nat, deadline: int, now: int, latest: set<Row>): TaskStatus {
    var paid := |set r | r in latest && Is(Paid, r.assignment.status)|;
    var hasActive := exists r | r in latest :: Is(Active, r.assignment.status);
    if hasActive || (current == Published && now < deadline && |latest| < slots) then
      if current == ClosedForNewPerformers && now < deadline then ClosedForNewPerformers
      else if now < deadline then Published
      else Settling
    else if paid == slots then Completed
    else if paid > 0 then PartiallyCompleted
    else Expired
  }

  lemma {:induction false} SameSize(rows: set<Row>, slots: set<nat>)
    requires forall r | r in rows :: r.slot in slots
    requires forall s | s in slots :: exists r | r in rows :: r.slot == s
    requires forall a, b | a in rows && b in rows && a.slot == b.slot :: a == b
    ensures |rows| == |slots|
  {
    if rows == {} {
      assert slots == {};
    } else {
      var r :| r in rows;
      SameSize(rows - {r}, slots - {r.slot});
    }
  }

  lemma QueryCounts(rows: seq<Row>, c: Class)
    requires RowsMatch(rows) && SlotsInOrder(rows)
    ensures |Distinct(RowSet(rows))| == |LatestBySlot(History(rows))|
    ensures |set r | r in Distinct(RowSet(rows)) && Is(c, r.assignment.status)| == |SlotsOf(History(rows), c)|
  {
    var latest, m := Distinct(RowSet(rows)), LatestBySlot(History(rows));
    forall s: nat
      ensures s in m <==> exists r | r in latest :: r.slot == s
      ensures forall r | r in latest && r.slot == s :: s in m && m[s] == r.assignment.status
    {
      LoopIsQuery(rows, s);
    }
    hide LatestBySlot, Distinct, RowSet;
    OnePerSlot(rows);
    SameSize(latest, m.Keys);
    var chosen := set r | r in latest && Is(c, r.assignment.status);
    forall s | s in SlotsOf(History(rows), c)
      ensures exists r | r in chosen :: r.slot == s
    {
      var r :| r in latest && r.slot == s;
      assert r in chosen;
    }
    SameSize(chosen, SlotsOf(History(rows), c));
  }

  lemma OnePerSlot(rows: seq<Row>)
    ensures forall a, b | a in Distinct(RowSet(rows)) && b in Distinct(RowSet(rows)) && a.slot == b.slot :: a == b
  {
  }

  /** The status derived by the one-pass loop is the one the repair query assigns. */
  lemma DerivedAsRepaired(current: TaskStatus, slots: nat, deadline: int, now: int, rows: seq<Row>)
    requires RowsMatch(rows) && SlotsInOrder(rows) && current != TaskCancelled
    ensures Derive(current, slots, deadline, now, History(rows))
         == RepairedStatus(current, slots, deadline, now, Distinct(RowSet(rows)))
  {
    QueryCounts(rows, Active);
    QueryCounts(rows, Paid);
    var latest := Distinct(RowSet(rows));
    hide LatestBySlot, Distinct, RowSet;
    var active := set r | r in latest && Is(Active, r.assignment.status);
    assert active != {} <==> exists r | r in latest :: Is(Active, r.assignment.status) by {
      if r :| r in latest && Is(Active, r.assignment.status) {
        assert r in active;
      }
    }
    assert |active| == 0 <==> active == {};
    assert |SlotsOf(History(rows), Active)| == 0 <==> SlotsOf(History(rows), Active) == {};
  }

  // ---------- occupied slots against live assignments ----------

  lemma SlotsOfSize(f: seq<Assignment>, a: Assignment)
    ensures |SlotsOf(f + [a], Live)|
         == |SlotsOf(f, Live)| - (if a.slot in SlotsOf(f, Live) then 1 else 0) + (if a.status != Cancelled then 1 else 0)
  {
    SlotsOfStep(f, a, Live);
    var rest := SlotsOf(f, Live) - {a.slot};
    assert a.slot !in rest;
    if a.slot !in SlotsOf(f, Live) {
      assert rest == SlotsOf(f, Live);
    }
  }

  lemma {:induction false} NeverMoreSlots(h: seq<Assignment>)
    ensures |SlotsOf(h, Live)| <= Count(h, Live)
  {
    if h != [] {
      var f, a := h[..|h| - 1], h[|h| - 1];
      assert h == f + [a];
      NeverMoreSlots(f);
      SlotsOfSize(f, a);
      CountAppend(f, a, Live);
    }
  }

  /** The number of occupied slots found by the loop is the number of assignments that are not
      cancelled if and only if each of those is the last of its slot. A unique index on live
      assignments is not enough: a live assignment followed by a cancelled one would be missed. */
  lemma {:induction false} OccupiedCountIsExact(h: seq<Assignment>)
    ensures |SlotsOf(h, Live)| == Count(h, Live) <==> OneHolder(h)
  {
    if OneHolder(h) {
      LatestAgrees(h, Live);
    }
    if |SlotsOf(h, Live)| == Count(h, Live) && h != [] {
      var f, a := h[..|h| - 1], h[|h| - 1];
      assert h == f + [a];
      NeverMoreSlots(f);
      SlotsOfSize(f, a);
      CountAppend(f, a, Live);
      OccupiedCountIsExact(f);
      LastSlotFree(f, a);
    }
  }

  lemma LastSlotFree(f: seq<Assignment>, a: Assignment)
    requires OneHolder(f) && a.slot !in SlotsOf(f, Live)
    ensures OneHolder(f + [a])
  {
    var h := f + [a];
    HeldSlots(f, a.slot);
    forall i, j | 0 <= i < j < |h| && h[i].slot == h[j].slot
      ensures h[i].status == Cancelled
    {
      assert h[i] == f[i];
      if j < |f| {
        assert h[j] == f[j];
      } else {
        assert f[i].slot == a.slot;
      }
    }
  }
}
