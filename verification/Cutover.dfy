/**
 The schema cutover: stop the writers, back up and restore, migrate, verify in maintenance, and
 only then let the target write. Every effect consults a fate that says whether it completes,
 raises, or is the last thing the process does before it dies, and how far it got.
 */
module Cutover {
  import opened Wrappers
  import opened Faults

  datatype Phase =
    | Prepared
    | Stopping
    | Backup
    | Migrating
    | RollingBack
    | RolledBack
    | WritersEnabled
    | Ready

  datatype Mode = Stopped | Old | Maintenance | Open

  /** A database: its schema revision, and its business data as the list of accepted writes. */
  datatype Db = Db(head: string, data: seq<int>)

  /** The receipt; fingerprints and digests identify contents. */
  datatype Receipt = Receipt(phase: Phase, fingerprint: Option<seq<int>>, backup: Option<seq<int>>, verified: bool)

  /** How one effect turns out. `applied` tells whether an all-or-nothing effect took place although
      it did not complete, `web` and `worker` how far each service got, `debris` what an unfinished
      copy or migration leaves, and `traffic` what was written meanwhile by whoever may write. */
  datatype Fate = Fate(end: End, applied: bool, web: Progress, worker: Progress, debris: Db, traffic: seq<int>)

  datatype Command = Apply | Recover | Idle

  predicate Early(p: Phase) {
    p == Prepared || p == Stopping || p == Backup
  }

  predicate Enabled(p: Phase) {
    p == WritersEnabled || p == Ready
  }

  predicate Unfinished(p: Phase) {
    p == Stopping || p == Backup || p == Migrating || p == RollingBack
  }

  predicate Writes(m: Mode) {
    m == Old || m == Open
  }

  function Moved(m: Mode, target: Mode, p: Progress, end: End): Mode {
    if end == Completes then target
    else
      match p
      case Untouched => m
      case Halted => Stopped
      case Reached => target
  }

  class Host {
    const source: string
    const target: string
    const fates: seq<Fate>

    var next: nat
    var durable: Receipt
    var web: Mode
    var worker: Mode
    var live: Db
    var restore: Option<Db>
    var failed: Option<Db>
    var drill: Option<Db>
    var backup: Option<seq<int>>

    /** History: every write a member was told had succeeded, whether the target has ever run
        without maintenance, and how often databases were swapped. */
    var acknowledged: seq<int>
    var ranOpen: bool
    var swaps: nat

    predicate Writing()
      reads this
    {
      Writes(web) || Writes(worker)
    }

    predicate Quiet()
      reads this
    {
      web == Stopped && worker == Stopped
    }

    /** The restored database is the frozen one, and this receipt says so. */
    predicate Restorable(r: Receipt)
      reads this
    {
      && r.verified && r.fingerprint == Some(acknowledged)
      && r.backup.Some? && r.backup == backup
      && restore == Some(Db(source, acknowledged))
    }

    /** What must hold between any two effects if this were the receipt on disk. */
    predicate Sound(r: Receipt)
      reads this
    {
      && source != target && next <= |fates|
      && (ranOpen ==> Enabled(r.phase))
      && (web == Open || worker == Open ==> ranOpen)
      && (Early(r.phase) || r.phase == RolledBack ==> live.head == source)
      && (live.head == source ==> live.data == acknowledged)
      && (Enabled(r.phase) ==> live == Db(target, acknowledged) && web != Old && worker != Old && swaps == 0)
      && (live.head != source && !Enabled(r.phase) ==> Restorable(r) && !Writing() && swaps == 0)
      && swaps <= 1 && (swaps == 1 ==> live.head == source && !Early(r.phase))
    }

    /** What holds between any two effects, and so after a crash at any point. */
    predicate Valid()
      reads this
    {
      Sound(durable)
    }

    constructor (source: string, target: string, data: seq<int>, fates: seq<Fate>)
      requires source != target
      ensures Valid() && durable == Receipt(Prepared, None, None, false)
      ensures this.source == source && this.target == target && this.fates == fates
      ensures live == Db(source, data) && acknowledged == data && !ranOpen && swaps == 0
    {
      this.source, this.target, this.fates, next := source, target, fates, 0;
      durable := Receipt(Prepared, None, None, false);
      web, worker := Old, Old;
      live, restore, failed, drill, backup := Db(source, data), None, None, None, None;
      acknowledged, ranOpen, swaps := data, false, 0;
    }

    /** From here on, this many effects complete. */
    predicate Smooth(n: nat)
      reads this
    {
      next + n <= |fates| && forall k | next <= k < next + n :: fates[k].end == Completes
    }

    /** What is written over the next effects by whoever may write. */
    ghost function Traffic(from: nat, n: nat): seq<int>
      requires from + n <= |fates|
      decreases n
    {
      if n == 0 then [] else fates[from].traffic + Traffic(from + 1, n - 1)
    }

    lemma Ahead(data: seq<int>, from: nat, later: nat)
      requires from < |fates| && later == from + 1
      ensures data + Traffic(from, 1) == data + fates[from].traffic
      ensures forall n: nat | later + n <= |fates| ::
                data + Traffic(from, n + 1) == data + fates[from].traffic + Traffic(later, n)
    {
      assert Traffic(from, 1) == fates[from].traffic + [];
    }

    /** The live data this many effects from here, if nobody starts or stops writing before. */
    ghost function Frozen(n: nat): seq<int>
      reads this
      requires next + n <= |fates|
    {
      if Writing() then live.data + Traffic(next, n) else live.data
    }

    /** The next fate, with the traffic it brings already written. */
    method Meanwhile(r: Receipt) returns (f: Fate)
      requires Valid() && Sound(r)
      modifies this`next, this`live, this`acknowledged
      ensures Valid() && Sound(r)
      ensures old(next) <= next <= |fates| && old(acknowledged) <= acknowledged
      ensures live.head == old(live.head)
      ensures !Writing() ==> live == old(live) && acknowledged == old(acknowledged)
      ensures old(Smooth(1)) ==> f == fates[old(next)] && f.end == Completes && next == old(next) + 1
      ensures old(Smooth(1)) ==> live.data == old(Frozen(1))
      ensures old(Smooth(1)) ==> forall n: nat | next + n <= |fates| :: Frozen(n) == old(Frozen(n + 1))
    {
      hide Traffic;
      if next == |fates| {
        return Fate(Dies, false, Untouched, Untouched, live, []);
      }
      f := fates[next];
      ghost var was, from := live.data, next;
      next := next + 1;
      Ahead(was, from, next);
      if Writing() {
        live := live.(data := live.data + f.traffic);
        acknowledged := acknowledged + f.traffic;
      }
    }

    /** Journal a receipt; on failure the old or the new one is on disk. */
    method Save(r: Receipt) returns (st: Status)
      requires Valid() && Sound(r)
      modifies this`next, this`live, this`acknowledged, this`durable
      ensures Valid() && Sound(r) && (durable == r || durable == old(durable))
      ensures st == Good ==> durable == r
      ensures old(next) <= next <= |fates| && old(acknowledged) <= acknowledged
      ensures live.head == old(live.head)
      ensures !Writing() ==> live == old(live) && acknowledged == old(acknowledged)
      ensures old(Smooth(1)) ==> st == Good && next == old(next) + 1 && live.data == old(Frozen(1))
      ensures old(Smooth(1)) ==> forall n: nat | next + n <= |fates| :: Frozen(n) == old(Frozen(n + 1))
    {
      var f := Meanwhile(r);
      if f.end == Completes || f.applied {
        durable := r;
      }
      st := Reports(f.end);
    }

    /** Recreate both services in one mode, or stop both; each gets as far as it gets. */
    method Compose(mode: Mode, r: Receipt) returns (st: Status)
      requires Valid() && Sound(r)
      requires mode == Old ==> live.head == source && !Enabled(durable.phase) && !Enabled(r.phase)
      requires mode == Open ==> Enabled(durable.phase) && r == durable
      modifies this`next, this`live, this`acknowledged, this`web, this`worker, this`ranOpen
      ensures Valid() && Sound(r)
      ensures st == Good ==> web == worker == mode
      ensures old(next) <= next <= |fates| && old(acknowledged) <= acknowledged
      ensures live.head == old(live.head)
      ensures !old(Writing()) ==> live == old(live) && acknowledged == old(acknowledged)
      ensures ranOpen == (old(ranOpen) || mode == Open)
      ensures old(Smooth(1)) ==> st == Good && next == old(next) + 1 && live.data == old(Frozen(1))
    {
      var f := Meanwhile(r);
      ranOpen := ranOpen || mode == Open;
      web := Moved(web, mode, f.web, f.end);
      worker := Moved(worker, mode, f.worker, f.end);
      st := Reports(f.end);
    }

    /** Poll until both services report the expected release and mode, or give up. */
    method Verify(mode: Mode, r: Receipt) returns (st: Status)
      requires Valid() && Sound(r)
      modifies this`next, this`live, this`acknowledged
      ensures Valid() && Sound(r)
      ensures st == Good ==> web == worker == mode
      ensures old(next) <= next <= |fates| && old(acknowledged) <= acknowledged
      ensures live.head == old(live.head)
      ensures !Writing() ==> live == old(live) && acknowledged == old(acknowledged)
      ensures old(Smooth(1)) && web == mode && worker == mode ==> st == Good && next == old(next) + 1
    {
      var f := Meanwhile(r);
      st := Reports(f.end);
      if st == Good && (web != mode || worker != mode) {
        st := Raised;
      }
    }

    /** Require an exact schema and the frozen contents. */
    method CheckSnapshot(db: Option<Db>, head: string, r: Receipt) returns (st: Status)
      requires Valid() && Sound(r)
      modifies this`next, this`live, this`acknowledged
      ensures Valid() && Sound(r)
      ensures st == Good ==> db.Some? && db.value.head == head && Some(db.value.data) == r.fingerprint
      ensures old(next) <= next <= |fates| && old(acknowledged) <= acknowledged
      ensures live.head == old(live.head)
      ensures !Writing() ==> live == old(live) && acknowledged == old(acknowledged)
      ensures old(Smooth(1)) && db.Some? && db.value.head == head && Some(db.value.data) == r.fingerprint ==>
                st == Good && next == old(next) + 1
    {
      var f := Meanwhile(r);
      st := Reports(f.end);
      if st == Good && !(db.Some? && db.value.head == head && Some(db.value.data) == r.fingerprint) {
        st := Raised;
      }
    }

    /** The two migrations of the rehearsal, this many effects from here, lead there and back. */
    predicate Rehearses(n: nat)
      reads this
    {
      next + n + 3 <= |fates| && fates[next + n].debris == Db(target, live.data) && fates[next + n + 2].debris == Db(source, live.data)
    }

    /** This many effects from here, the rehearsal leads these data there and back, and the migration of the
        live database, six effects after the first of the rehearsal, leads them to the target. */
    predicate MigratesTo(n: nat, data: seq<int>)
      reads this
    {
      && next + n + 7 <= |fates|
      && fates[next + n].debris == Db(target, data) && fates[next + n + 2].debris == Db(source, data)
      && fates[next + n + 6].debris == Db(target, data)
    }

    /** Migrate a clone of the restore forward and back; the restore itself is left alone. */
    method Rehearse(r: Receipt) returns (st: Status, ghost forward: Option<Db>)
      requires Valid() && Sound(r) && Quiet()
      modifies this`next, this`live, this`acknowledged, this`drill
      ensures Valid() && Sound(r) && Quiet() && old(next) <= next
      ensures live == old(live) && acknowledged == old(acknowledged)
      ensures st == Good ==> restore.Some? && restore.value.head == source && Some(restore.value.data) == r.fingerprint
      ensures st == Good ==> forward == Some(Db(target, restore.value.data)) && drill == restore
      ensures old(Smooth(7)) && old(Rehearses(2)) && restore == Some(Db(source, live.data)) && r.fingerprint == Some(live.data) ==>
                st == Good && next == old(next) + 7
    {
      hide Sound, Restorable, Frozen, MigratesTo;
      forward := None;
      st := CheckSnapshot(restore, source, r);
      if st != Good {
        return;
      }
      st := CloneRestore(r);
      if st != Good {
        return;
      }
      st := MigrateDrill(r);
      forward := drill;
      if st != Good {
        return;
      }
      st := CheckSnapshot(drill, target, r);
      if st != Good {
        return;
      }
      st := MigrateDrill(r);
      if st != Good {
        return;
      }
      st := CheckSnapshot(drill, source, r);
      if st != Good {
        return;
      }
      st := CheckSnapshot(restore, source, r);
    }

    method CloneRestore(r: Receipt) returns (st: Status)
      requires Valid() && Sound(r) && Quiet()
      modifies this`next, this`live, this`acknowledged, this`drill
      ensures Valid() && Sound(r) && Quiet() && old(next) <= next && live == old(live) && acknowledged == old(acknowledged)
      ensures st == Good ==> drill == restore
      ensures old(Smooth(1)) ==> st == Good && next == old(next) + 1
    {
      var f := Meanwhile(r);
      st := Reports(f.end);
      drill := if st == Good then restore else Some(f.debris);
    }

    /** A migration of the clone, in either direction, may leave anything there. */
    method MigrateDrill(r: Receipt) returns (st: Status)
      requires Valid() && Sound(r) && Quiet()
      modifies this`next, this`live, this`acknowledged, this`drill
      ensures Valid() && Sound(r) && Quiet() && old(next) <= next && live == old(live) && acknowledged == old(acknowledged)
      ensures old(Smooth(1)) ==> st == Good && next == old(next) + 1 && drill == Some(fates[old(next)].debris)
    {
      var f := Meanwhile(r);
      drill := Some(f.debris);
      st := Reports(f.end);
    }

    /** Fingerprint, dump and restore the frozen database. `r` is the receipt in memory, kept by the caller
        even when this raises. */
    method CopyOut(before: Receipt) returns (st: Status, r: Receipt)
      requires Valid() && before == durable && before.phase == Backup && Quiet()
      modifies this`next, this`live, this`acknowledged, this`backup, this`restore
      ensures Valid() && Quiet() && Sound(r) && r.phase == Backup
      ensures live == old(live) && acknowledged == old(acknowledged) && old(next) <= next
      ensures st == Good ==> r == before.(fingerprint := Some(live.data), backup := Some(live.data)) && backup == r.backup
                             && restore == Some(Db(source, live.data))
      ensures old(Smooth(3)) ==> st == Good && next == old(next) + 3
    {
      hide Frozen, MigratesTo;
      r := before;
      var f := Meanwhile(durable);
      st := Reports(f.end);
      if st != Good {
        return;
      }
      r := r.(fingerprint := Some(live.data));
      f := Meanwhile(durable);
      st := Reports(f.end);
      backup := Some(if st == Good then live.data else f.debris.data);
      if st != Good {
        return;
      }
      r := r.(backup := backup);
      f := Meanwhile(durable);
      st := Reports(f.end);
      restore := Some(if st == Good then Db(source, backup.value) else f.debris);
    }

    /** Fresh frozen backup, real restore, rehearsal on a clone. */
    method BackupRestore(before: Receipt) returns (st: Status, r: Receipt)
      requires Valid() && before == durable && before.phase == Backup && Quiet()
      modifies this`next, this`live, this`acknowledged, this`backup, this`restore, this`drill
      ensures Valid() && Quiet() && Sound(r) && r.phase == Backup
      ensures live == old(live) && acknowledged == old(acknowledged) && old(next) <= next
      ensures st == Good ==> Restorable(r) && drill == restore
      ensures old(Smooth(10)) && old(Rehearses(5)) ==> st == Good && next == old(next) + 10
    {
      hide Frozen, MigratesTo;
      st, r := CopyOut(before);
      if st != Good {
        return;
      }
      ghost var forward;
      st, forward := Rehearse(r);
      if st == Good {
        r := r.(verified := true);
      }
    }

    /** Run the migrations; an interrupted or faulty run may leave anything under another revision. */
    method Migrate(r: Receipt) returns (st: Status)
      requires Valid() && r == durable && r.phase == Migrating && Quiet() && Restorable(r) && swaps == 0
      modifies this`next, this`live, this`acknowledged
      ensures Valid() && acknowledged == old(acknowledged) && old(next) <= next
      ensures old(Smooth(1)) && fates[old(next)].debris.head != source ==>
                st == Good && next == old(next) + 1 && live == fates[old(next)].debris
    {
      var f := Meanwhile(r);
      st := Reports(f.end);
      if f.debris.head != source {
        live := f.debris;
      }
    }

    /** Check the restored database once more and swap it in, in one transaction. */
    method Promote(r: Receipt) returns (st: Status)
      requires Valid() && Sound(r) && Unfinished(durable.phase) && Unfinished(r.phase)
      requires live.head != source && Quiet() && Restorable(r)
      modifies this`next, this`live, this`acknowledged, this`restore, this`failed, this`swaps
      ensures Valid() && Quiet() && old(next) <= next && acknowledged == old(acknowledged)
      ensures old(swaps) <= swaps
      ensures st == Good ==> live.head == source && swaps == 1 && Sound(r)
      ensures old(Smooth(2)) ==> st == Good && next == old(next) + 2
    {
      if !r.verified || r.backup != backup {
        return Raised;
      }
      st := CheckSnapshot(restore, source, r);
      if st != Good {
        return;
      }
      var f := Meanwhile(r);
      if f.end == Completes || f.applied {
        failed, live, restore := Some(live), restore.value, None;
        swaps := swaps + 1;
      }
      st := Reports(f.end);
    }

    /** Promote the verified restore, unless the live database still is the source. */
    method Rollback(r: Receipt) returns (st: Status)
      requires Valid() && Sound(r) && Unfinished(durable.phase) && Unfinished(r.phase)
      requires live.head != source ==> r.verified && Restorable(r)
      modifies this`next, this`live, this`acknowledged, this`web, this`worker, this`ranOpen, this`restore, this`failed, this`swaps
      ensures Valid() && durable == old(durable) && ranOpen == old(ranOpen) && old(next) <= next && old(acknowledged) <= acknowledged
      ensures old(swaps) <= swaps && (swaps > old(swaps) ==> !ranOpen)
      ensures st == Good ==> live.head == source && web == worker == Old && Sound(r)
      ensures old(Smooth(6)) ==> st == Good && next <= old(next) + 6
    {
      assert !ranOpen;
      st := Compose(Stopped, r);
      if st != Good {
        return;
      }
      if live.head != source {
        st := Promote(r);
        if st != Good {
          return;
        }
      }
      st := Compose(Old, durable);
      if st != Good {
        return;
      }
      st := Verify(Old, durable);
    }

    /** Migrate the live database and bring the target up in maintenance. */
    method Upgrade(r: Receipt) returns (st: Status)
      requires Valid() && r == durable && r.phase == Migrating && Quiet() && Restorable(r) && swaps == 0 && !ranOpen
      modifies this`next, this`live, this`acknowledged, this`web, this`worker, this`ranOpen
      ensures Valid() && swaps == 0 && !ranOpen
      ensures old(next) <= next && old(acknowledged) == acknowledged
      ensures live.head != source ==> r.verified && Restorable(r)
      ensures st == Good ==> live == Db(target, acknowledged) && web == worker == Maintenance
      ensures old(Smooth(5) && fates[next].debris == Db(target, acknowledged)) ==> st == Good && next == old(next) + 5
    {
      st := Migrate(r);
      if st != Good {
        return;
      }
      st := CheckSnapshot(Some(live), target, r);
      if st != Good {
        return;
      }
      st := Compose(Maintenance, r);
      if st != Good {
        return;
      }
      st := Verify(Maintenance, r);
      if st != Good {
        return;
      }
      st := CheckSnapshot(Some(live), target, r);
    }

    /** The body guarded by the handler: everything before the target may write. */
    method Transition(before: Receipt) returns (st: Status, r: Receipt)
      requires Valid() && before == durable && before.phase == Stopping && swaps == 0
      modifies this
      ensures Valid() && Sound(r) && Unfinished(r.phase) && Unfinished(durable.phase) && swaps == 0 && !ranOpen
      ensures old(next) <= next && old(acknowledged) <= acknowledged
      ensures live.head != source ==> r.verified && Restorable(r)
      ensures st == Good ==> r == durable && r.phase == Migrating && live == Db(target, acknowledged) && web == worker == Maintenance
      ensures old(Smooth(18)) && old(MigratesTo(7, Frozen(1))) ==> st == Good && next == old(next) + 18
    {
      hide Frozen, Traffic;
      r := before;
      st := Compose(Stopped, r);
      if st != Good {
        return;
      }
      r := r.(phase := Backup);
      st := Save(r);
      if st != Good {
        return;
      }
      st, r := BackupRestore(r);
      if st != Good {
        return;
      }
      r := r.(phase := Migrating);
      st := Save(r);
      if st != Good {
        return;
      }
      st := Upgrade(r);
    }

    /** Start the target without maintenance; one retry of the same image. */
    method Activate() returns (st: Status)
      requires Valid() && durable.phase == WritersEnabled
      modifies this`next, this`live, this`acknowledged, this`web, this`worker, this`ranOpen
      ensures Valid() && old(next) <= next && old(acknowledged) <= acknowledged
      ensures old(ranOpen) ==> ranOpen
      ensures st == Good ==> web == worker == Open
      ensures old(Smooth(2)) ==> st == Good && next == old(next) + 2
    {
      st := Compose(Open, durable);
      if st == Good {
        st := Verify(Open, durable);
      }
      if st == Raised {
        st := Compose(Open, durable);
        if st == Good {
          st := Verify(Open, durable);
        }
      }
    }

    /** The handler: roll back, then report the failure it was called for. */
    method Abandon(before: Receipt) returns (st: Status)
      requires Valid() && Sound(before) && Unfinished(before.phase) && Unfinished(durable.phase)
      requires live.head != source ==> before.verified && Restorable(before)
      modifies this
      ensures Valid() && old(next) <= next && old(acknowledged) <= acknowledged && st != Good
      ensures old(Smooth(8)) ==> st == Raised && durable.phase == RolledBack && live.head == source && web == worker == Old
    {
      hide Restorable;
      var r := before.(phase := RollingBack);
      SamePromise(before, r);
      st := Save(r);
      if st != Good {
        return;
      }
      st := Rollback(r);
      if st != Good {
        return;
      }
      st := Save(r.(phase := RolledBack));
      if st == Good {
        st := Raised;
      }
    }

    /** What a receipt promises about the restore does not depend on its phase. */
    lemma SamePromise(r: Receipt, other: Receipt)
      requires other == r.(phase := other.phase)
      ensures Restorable(r) <==> Restorable(other)
    {
    }

    /** Past this save background work may resume: recovery can only move forward. */
    method Enable(before: Receipt) returns (st: Status)
      requires Valid() && before == durable && before.phase == Migrating && swaps == 0
      requires live == Db(target, acknowledged) && web == worker == Maintenance
      modifies this
      ensures Valid() && old(next) <= next && old(acknowledged) <= acknowledged
      ensures st == Good ==> durable.phase == Ready && web == worker == Open && live == Db(target, acknowledged)
      ensures old(Smooth(4)) ==> st == Good
    {
      var r := before.(phase := WritersEnabled);
      st := Save(r);
      if st != Good {
        return;
      }
      st := Activate();
      if st != Good {
        return;
      }
      st := Save(r.(phase := Ready));
    }

    method Execute() returns (st: Status)
      requires Valid() && durable.phase == Prepared
      modifies this
      ensures Valid() && old(next) <= next && old(acknowledged) <= acknowledged
      ensures st == Good ==> durable.phase == Ready && web == worker == Open && live == Db(target, acknowledged)
      ensures old(Smooth(23)) && old(MigratesTo(8, Frozen(2))) ==> st == Good
    {
      hide Frozen, Traffic;
      var r := durable.(phase := Stopping);
      st := Save(r);
      if st != Good {
        return;
      }
      st, r := Transition(r);
      if st == Raised {
        st := Abandon(r);
      } else if st == Good {
        st := Enable(r);
      }
    }

    /** Resume a run that stopped, forward once writers may have run, backward before. */
    method RecoverStopped() returns (st: Status)
      requires Valid()
      modifies this
      ensures Valid() && old(next) <= next && old(acknowledged) <= acknowledged
      ensures old(swaps) <= swaps && (swaps > old(swaps) ==> !old(ranOpen) && !ranOpen)
      ensures old(ranOpen) ==> ranOpen
      ensures old(Smooth(8)) && Unfinished(old(durable).phase) ==>
                durable.phase == RolledBack && live.head == source && web == worker == Old
      ensures old(Smooth(8)) && old(durable).phase == WritersEnabled ==>
                durable.phase == Ready && live.head == target && web == worker == Open
    {
      if durable.phase == WritersEnabled {
        st := Activate();
        if st == Good {
          st := Save(durable.(phase := Ready));
        }
      } else if Unfinished(durable.phase) {
        st := Rollback(durable);
        if st == Good {
          st := Save(durable.(phase := RolledBack));
        }
      } else {
        st := Raised;
      }
    }

    /** Source and package drift are checked before anything is stopped. */
    method ApplyPrepared() returns (st: Status)
      requires Valid()
      modifies this
      ensures Valid() && old(next) <= next && old(acknowledged) <= acknowledged
      ensures old(swaps) <= swaps && (old(ranOpen) ==> ranOpen && swaps == old(swaps))
      ensures st == Good ==> durable.phase == Ready && web == worker == Open && live == Db(target, acknowledged)
      ensures old(durable.phase == Prepared && Smooth(24) && MigratesTo(9, Frozen(3))) ==> st == Good
    {
      hide Frozen, Traffic;
      if durable.phase != Prepared {
        return Raised;
      }
      var f := Meanwhile(durable);
      st := Reports(f.end);
      if st == Good && live.head != source {
        st := Raised;
      }
      if st == Good {
        st := Execute();
      }
    }

    /** Any sequence of operator commands, whatever goes wrong in each of them. */
    method Operate(commands: seq<Command>)
      requires Valid()
      modifies this
      ensures Valid()
      ensures old(acknowledged) <= acknowledged
      ensures Writing() ==> live.data == acknowledged
      ensures durable.phase == Ready || durable.phase == RolledBack ==> live.data == acknowledged
      ensures swaps <= 1 && !(swaps == 1 && ranOpen)
      ensures old(ranOpen) ==> swaps == old(swaps)
    {
      var i := 0;
      while i < |commands|
        invariant 0 <= i <= |commands|
        invariant Valid() && old(acknowledged) <= acknowledged && old(next) <= next
        invariant old(ranOpen) ==> ranOpen && swaps == old(swaps)
      {
        match commands[i] {
          case Apply => var _ := ApplyPrepared();
          case Recover => var _ := RecoverStopped();
          case Idle => var _ := Meanwhile(durable);
        }
        i := i + 1;
      }
    }
  }
}
