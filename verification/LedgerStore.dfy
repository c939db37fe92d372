/**
 The persistent ledger. One batch is checked against the stored keys, staged against running
 totals, and only then appended together with the member caches.
 */
module LedgerStore {
  import opened Wrappers
  import opened Ledger

  class Store {
    var entries: seq<Entry>
    var credit: map<MemberId, int>
    var experience: map<MemberId, int>

    ghost function Contents(): (b: Book)
      reads this
    {
      Book(entries, credit, experience)
    }

    constructor ()
      ensures Contents() == Book([], map[], map[])
    {
      entries := [];
      credit := map[];
      experience := map[];
    }

    /** A newly registered member starts with nothing. */
    method AddMember(m: MemberId)
      modifies this
      ensures Contents() == (if m in old(credit) then old(Contents())
                             else Book(old(entries), old(credit)[m := 0], old(experience)[m := 0]))
    {
      if m !in credit {
        credit := credit[m := 0];
        experience := experience[m := 0];
      }
    }

    method Lookup(key: Key) returns (r: Option<Command>)
      ensures r.None? ==> !HasKey(entries, key)
      ensures r.Some? ==> r.value.key == key && Recorded(entries, r.value)
    {
      r := None;
      var i := 0;
      while i < |entries|
        invariant 0 <= i <= |entries|
        invariant forall k | 0 <= k < i :: entries[k].command.key != key
      {
        if entries[i].command.key == key {
          return Some(entries[i].command);
        }
        i := i + 1;
      }
    }

    /** The preflight: refuse malformed batches, then tell stored, new and mixed ones apart. */
    method Classify(cmds: seq<Command>) returns (r: Result<bool, LedgerError>)
      requires UniqueKeys(entries)
      ensures r.Success? && r.value ==>
        Apply(Contents(), cmds) == Success(Contents()) && !AllNew(entries, cmds)
      ensures r.Success? && !r.value ==>
        && cmds != [] && DistinctKeys(cmds) && AllNew(entries, cmds)
        && forall i | 0 <= i < |cmds| :: ValidCommand(cmds[i])
      ensures r.Failure? ==> Apply(Contents(), cmds) == Failure(r.error) && r.error != InsufficientBalance
    {
      if cmds == [] {
        return Failure(EmptyBatch);
      }
      var keys: set<Key> := {};
      var valid, distinct, stored, matching := true, true, 0, 0;
      var i := 0;
      while i < |cmds|
        invariant 0 <= i <= |cmds|
        invariant forall k: Key :: k in keys <==> exists j | 0 <= j < i :: cmds[j].key == k
        invariant valid <==> forall j | 0 <= j < i :: ValidCommand(cmds[j])
        invariant distinct <==> DistinctKeys(cmds[..i])
        invariant 0 <= matching <= stored <= i
        invariant stored == 0 <==> AllNew(entries, cmds[..i])
        invariant stored == i <==> AllStored(entries, cmds[..i])
        invariant stored == i ==> (matching == i <==> AllRecorded(entries, cmds[..i]))
      {
        var c := cmds[i];
        valid := valid && ValidCommand(c);
        distinct := distinct && c.key !in keys;
        keys := keys + {c.key};
        var found := Lookup(c.key);
        LookupDecides(entries, c, found);
        Extend(entries, cmds, i);
        if found.Some? {
          stored := stored + 1;
          if found.value == c {
            matching := matching + 1;
          }
        }
        i := i + 1;
      }
      assert cmds[..i] == cmds;
      if !valid {
        return Failure(InvalidCommand);
      }
      if !distinct {
        return Failure(DuplicateKeys);
      }
      if stored == 0 {
        return Success(false);
      }
      if stored != |cmds| {
        return Failure(MixedBatch);
      }
      if matching != |cmds| {
        return Failure(PayloadConflict);
      }
      return Success(true);
    }

    /** Run the batch against running totals, without touching the ledger or the caches. */
    method Stage(cmds: seq<Command>) returns (failed: bool, rows: seq<Entry>, totals: map<MemberId, (int, int)>)
      requires MembersKnown(Contents(), cmds) && credit.Keys == experience.Keys
      ensures failed <==> PostAll(Contents(), cmds).Failure?
      ensures !failed ==> PostAll(Contents(), cmds) == Success(Staged(Contents(), rows, totals))
      ensures totals.Keys <= credit.Keys
    {
      failed, rows, totals := false, [], map[];
      ghost var b := Contents();
      var i := 0;
      assert Staged(b, rows, totals) == b by {
        assert b.entries + [] == b.entries;
      }
      while i < |cmds|
        invariant 0 <= i <= |cmds|
        invariant !failed && MembersKnown(b, cmds[..i])
        invariant totals.Keys <= credit.Keys
        invariant PostAll(b, cmds[..i]) == Success(Staged(b, rows, totals))
      {
        var c := cmds[i];
        var (currentCredit, currentExperience) :=
          if c.member in totals then totals[c.member] else (credit[c.member], experience[c.member]);
        var creditTotal := currentCredit + c.credit;
        var experienceTotal := currentExperience + c.experience;
        assert cmds[..i + 1][..i] == cmds[..i];
        if creditTotal < 0 || experienceTotal < 0 {
          FailurePropagates(b, cmds, i + 1);
          return true, [], map[];
        }
        ghost var rows0, totals0 := rows, totals;
        totals := totals[c.member := (creditTotal, experienceTotal)];
        rows := rows + [Entry(c, creditTotal)];
        StageOne(b, rows0, totals0, c, creditTotal, experienceTotal);
        i := i + 1;
      }
      assert cmds[..i] == cmds;
    }

    method WriteCaches(totals: map<MemberId, (int, int)>)
      requires totals.Keys <= credit.Keys == experience.Keys
      modifies this`credit, this`experience
      ensures credit == Staged(old(Contents()), [], totals).credit
      ensures experience == Staged(old(Contents()), [], totals).experience
    {
      var rest := totals.Keys;
      while rest != {}
        invariant rest <= totals.Keys
        invariant credit.Keys == experience.Keys == old(credit).Keys
        invariant forall m | m in credit && (m !in totals || m in rest) ::
          credit[m] == old(credit)[m] && experience[m] == old(experience)[m]
        invariant forall m | m in totals && m !in rest ::
          credit[m] == totals[m].0 && experience[m] == totals[m].1
        decreases rest
      {
        var m :| m in rest;
        credit := credit[m := totals[m].0];
        experience := experience[m := totals[m].1];
        rest := rest - {m};
      }
    }

    /** Apply one batch; `replayed` tells a recognised batch from a posted one. */
    method ApplyBatch(cmds: seq<Command>) returns (r: Result<bool, LedgerError>)
      requires UniqueKeys(entries) && credit.Keys == experience.Keys
      modifies this
      ensures r.Failure? ==> Apply(old(Contents()), cmds) == Failure(r.error) && Contents() == old(Contents())
      ensures r.Success? ==> Apply(old(Contents()), cmds) == Success(Contents())
      ensures r.Success? ==> (r.value <==> !AllNew(old(entries), cmds))
    {
      ghost var b := Contents();
      var class' := Classify(cmds);
      if class'.Failure? {
        return Failure(class'.error);
      }
      if class'.value {
        return Success(true);
      }
      var i := 0;
      while i < |cmds|
        invariant 0 <= i <= |cmds|
        invariant forall j | 0 <= j < i :: cmds[j].member in credit
      {
        if cmds[i].member !in credit {
          return Failure(UnknownMember);
        }
        i := i + 1;
      }
      if !ReversalsSound(entries, cmds) {
        return Failure(UnsoundReversal);
      }
      var failed, rows, totals := Stage(cmds);
      if failed {
        return Failure(InsufficientBalance);
      }
      WriteCaches(totals);
      entries := entries + rows;
      return Success(false);
    }
  }

  /** The book a staged batch stands for: its rows appended, its totals laid over the caches. */
  ghost function Staged(b: Book, rows: seq<Entry>, totals: map<MemberId, (int, int)>): (p: Book)
    requires b.credit.Keys == b.experience.Keys
  {
    Book(b.entries + rows,
         map m | m in b.credit :: if m in totals then totals[m].0 else b.credit[m],
         map m | m in b.experience :: if m in totals then totals[m].1 else b.experience[m])
  }

  /** With unique keys, the entry found under a command's key settles whether it is recorded. */
  lemma LookupDecides(entries: seq<Entry>, c: Command, found: Option<Command>)
    requires UniqueKeys(entries)
    requires found.None? ==> !HasKey(entries, c.key)
    requires found.Some? ==> found.value.key == c.key && Recorded(entries, found.value)
    ensures HasKey(entries, c.key) <==> found.Some?
    ensures Recorded(entries, c) <==> found == Some(c)
  {
    if found.Some? {
      var k :| 0 <= k < |entries| && entries[k].command == found.value;
      if Recorded(entries, c) {
        var j :| 0 <= j < |entries| && entries[j].command == c;
        assert k == j;
      }
    }
  }

  lemma Extend(entries: seq<Entry>, cmds: seq<Command>, i: nat)
    requires i < |cmds|
    ensures AllNew(entries, cmds[..i + 1]) <==> AllNew(entries, cmds[..i]) && !HasKey(entries, cmds[i].key)
    ensures AllStored(entries, cmds[..i + 1]) <==> AllStored(entries, cmds[..i]) && HasKey(entries, cmds[i].key)
    ensures AllRecorded(entries, cmds[..i + 1]) <==> AllRecorded(entries, cmds[..i]) && Recorded(entries, cmds[i])
    ensures DistinctKeys(cmds[..i + 1]) <==>
              DistinctKeys(cmds[..i]) && forall j | 0 <= j < i :: cmds[j].key != cmds[i].key
  {
    assert cmds[..i + 1] == cmds[..i] + [cmds[i]];
  }

  lemma StageOne(b: Book, rows: seq<Entry>, totals: map<MemberId, (int, int)>, c: Command, credit: int, experience: int)
    requires b.credit.Keys == b.experience.Keys && totals.Keys <= b.credit.Keys && c.member in b.credit
    requires credit == c.credit + (if c.member in totals then totals[c.member].0 else b.credit[c.member]) >= 0
    requires experience == c.experience + (if c.member in totals then totals[c.member].1 else b.experience[c.member]) >= 0
    ensures Post(Staged(b, rows, totals), c)
         == Success(Staged(b, rows + [Entry(c, credit)], totals[c.member := (credit, experience)]))
  {
    var before := Staged(b, rows, totals);
    var after := Staged(b, rows + [Entry(c, credit)], totals[c.member := (credit, experience)]);
    assert before.entries + [Entry(c, credit)] == after.entries;
    assert before.credit[c.member := credit] == after.credit;
    assert before.experience[c.member := experience] == after.experience;
  }

  lemma {:induction false} FailurePropagates(b: Book, cmds: seq<Command>, i: nat)
    requires i <= |cmds| && MembersKnown(b, cmds) && MembersKnown(b, cmds[..i])
    requires PostAll(b, cmds[..i]).Failure?
    ensures PostAll(b, cmds).Failure?
  {
    if i == |cmds| {
      assert cmds[..i] == cmds;
    } else {
      var front := cmds[..|cmds| - 1];
      assert front[..i] == cmds[..i];
      FailurePropagates(b, front, i);
    }
  }
}
