/**
 Release activation, the one schema cutover, and rollback: each rewrites a durable `active.json`
 around changes to the running services, and may be killed and repeated.
 */
module Releases {
  import opened Wrappers
  import opened Faults

  type Digest = nat

  const FROM_HEAD := 21
  const TO_HEAD := 22

  /** No operation has more effects than this. */
  const EFFECTS := 13

  datatype Manifest = Manifest(head: int, run: int, attempt: int)

  datatype Kind = Activation | Reversal | SchemaCutover

  datatype Operation = Operation(kind: Kind, target: Digest)

  /** The contents of active.json; a pending state names the operation that must be finished. */
  datatype Active = Active(pending: Option<Operation>, current: Digest, previous: Option<Digest>)

  datatype Proof = Proof(source: Digest, target: Digest)

  datatype Fate = Fate(end: End, applied: bool, web: Progress, worker: Progress, head: int)

  predicate Newer(a: Manifest, b: Manifest) {
    a.run > b.run || (a.run == b.run && a.attempt > b.attempt)
  }

  function Pending(kind: Kind, target: Digest, previous: Option<Digest>): Active {
    Active(Some(Operation(kind, target)), target, previous)
  }

  /** What a read of active.json accepts, besides the form of its digests. */
  predicate WellFormed(a: Active) {
    a.pending.Some? ==> a.pending.value.target == a.current
  }

  /** Where an operation ends up once it completes, from the state it starts or resumes in. */
  function Goal(active: Option<Active>, op: Operation): Option<Active> {
    match active
    case None => if op.kind == Activation then Some(Active(None, op.target, None)) else None
    case Some(a) =>
      if a.pending.Some? then (if a.pending == Some(op) then Some(a.(pending := None)) else active)
      else if op.kind == Reversal then
        (if a.previous == Some(op.target) then Some(Active(None, op.target, None)) else active)
      else if a.current == op.target then active
      else Some(Active(None, op.target, Some(a.current)))
  }

  /** The states from which an operation that was started and stopped can be found. */
  predicate OnTheWay(before: Option<Active>, after: Option<Active>, op: Operation) {
    after == before || after == Goal(before, op)
    || (Goal(before, op).Some? && Goal(before, op).value.pending == None
        && after == Some(Goal(before, op).value.(pending := Some(op))))
  }

  /** Stopping anywhere on the way does not change where the operation ends up. */
  lemma StoppingKeepsTheGoal(before: Option<Active>, after: Option<Active>, op: Operation)
    requires OnTheWay(before, after, op)
    requires before.Some? ==> WellFormed(before.value) && before.value.previous != Some(before.value.current)
    ensures Goal(after, op) == Goal(before, op)
  {
  }

  class Host {
    const manifests: map<Digest, Manifest>
    const fates: seq<Fate>

    var next: nat
    var installed: set<Digest>
    var active: Option<Active>
    var proofs: map<Digest, Proof>
    var head: int
    var web: Option<Digest>
    var worker: Option<Digest>

    predicate Cutting()
      reads this
    {
      active.Some? && active.value.pending.Some? && active.value.pending.value.kind == SchemaCutover
    }

    /** What is on disk always reads back, names installed releases, and never the same one twice. */
    predicate StateOk(a: Active)
      reads this
    {
      && WellFormed(a) && a.previous != Some(a.current)
      && a.current in installed && (a.previous.Some? ==> a.previous.value in installed)
      && (a.pending.Some? && a.pending.value.kind == Reversal ==> a.previous == None)
      && (a.pending.Some? && a.pending.value.kind == SchemaCutover ==>
            && a.previous.Some? && a.current in manifests && a.previous.value in manifests
            && manifests[a.previous.value].head == FROM_HEAD && manifests[a.current].head == TO_HEAD)
    }

    /** A service may only run against its own schema. */
    predicate Fits(service: Option<Digest>)
      reads this
    {
      service.Some? ==> service.value in manifests && manifests[service.value].head == head
    }

    predicate Valid()
      reads this
    {
      && next <= |fates| && installed <= manifests.Keys
      && (forall d | d in proofs :: d in manifests && manifests[d].head == TO_HEAD)
      && (active.Some? ==>
            && StateOk(active.value)
            && Fits(web) && Fits(worker)
            && (web.Some? ==> worker == None || worker == web)
            && (active.value.pending.Some? && active.value.pending.value.kind == Activation && active.value.previous == None ==>
                  web == None || web == Some(active.value.current))
            && (!Cutting() ==> head == manifests[active.value.current].head)
            && (Cutting() ==>
                  && (head == FROM_HEAD || head == TO_HEAD)
                  && (head == TO_HEAD ==>
                        active.value.current in proofs
                        && proofs[active.value.current] == Proof(active.value.previous.value, active.value.current))))
    }

    constructor (manifests: map<Digest, Manifest>, head: int, web: Option<Digest>, worker: Option<Digest>, fates: seq<Fate>)
      ensures Valid() && active == None && installed == {} && this.manifests == manifests && this.fates == fates
      ensures next == 0 && this.head == head && this.web == web && this.worker == worker
    {
      this.manifests, this.fates, next := manifests, fates, 0;
      installed, active, proofs := {}, None, map[];
      this.head, this.web, this.worker := head, web, worker;
    }

    /** From here on, this many effects complete, and a migration among them reaches its head. */
    predicate Smooth(n: nat)
      reads this
    {
      next + n <= |fates| && forall k | next <= k < next + n :: fates[k].end == Completes && fates[k].head == TO_HEAD
    }

    /** The process dies in this effect, which has taken place nevertheless. */
    predicate Interrupted(n: nat)
    {
      n < |fates| && fates[n].end == Dies && fates[n].applied
    }

    /** The checks an operation meets from here to its end, by the state before it. */
    predicate CanComplete(op: Operation)
      reads this
    {
      op.target in manifests
      && match op.kind
         case Activation => CanActivate(op.target)
         case Reversal => CanRollBack() && op.target == ReversalTarget(active.value)
         case SchemaCutover => CanCutOver(op.target)
    }

    predicate CanActivate(d: Digest)
      requires d in manifests
      reads this
    {
      match active
      case None => installed <= {d} && web == None && worker == None && head == manifests[d].head
      case Some(a) =>
        && a.current in manifests && manifests[a.current].head == manifests[d].head
        && (a.pending == Some(Operation(Activation, d))
            || (a.pending == None && (a.current == d || Newer(manifests[d], manifests[a.current]))))
    }

    predicate CanRollBack()
      reads this
    {
      && active.Some?
      && if active.value.pending.Some? then active.value.pending.value.kind == Reversal
         else
           && active.value.previous.Some? && active.value.current in manifests && active.value.previous.value in manifests
           && manifests[active.value.previous.value].head == manifests[active.value.current].head
    }

    predicate CanCutOver(d: Digest)
      requires d in manifests
      reads this
    {
      && active.Some?
      && var a := active.value;
         if a.pending == None && a.current == d then a.previous.Some? && d in proofs && proofs[d] == Proof(a.previous.value, d)
         else
           && (a.pending == None || (a.pending == Some(Operation(SchemaCutover, d)) && a.previous.Some?))
           && var source := if a.pending.Some? then a.previous.value else a.current;
              && source in manifests && Newer(manifests[d], manifests[source])
              && manifests[source].head == FROM_HEAD && manifests[d].head == TO_HEAD
    }

    method Fated() returns (f: Fate)
      requires next <= |fates|
      modifies this`next
      ensures old(next) <= next <= old(next) + 1 && next <= |fates| && (next == old(next) ==> next == |fates|)
      ensures old(next) < |fates| ==> next == old(next) + 1 && f == fates[old(next)]
    {
      if next == |fates| {
        return Fate(Dies, false, Untouched, Untouched, head);
      }
      f := fates[next];
      next := next + 1;
    }

    method Install(d: Digest) returns (st: Status)
      requires Valid() && d in manifests
      modifies this`next, this`installed
      ensures Valid() && old(installed) <= installed <= old(installed) + {d} && old(next) <= next <= old(next) + 1
      ensures st == Good ==> d in installed
      ensures st != Good ==> old(next) < next || next == |fates|
      ensures old(Smooth(1)) ==> st == Good && next == old(next) + if d in old(installed) then 0 else 1
      ensures CanCutOver(d) == old(CanCutOver(d))
    {
      if d in installed {
        return Good;
      }
      var f := Fated();
      if f.end == Completes || f.applied {
        installed := installed + {d};
      }
      st := Reports(f.end);
    }

    /** Anything that only reads may still fail. */
    method Read() returns (st: Status)
      requires next <= |fates|
      modifies this`next
      ensures old(next) <= next <= old(next) + 1 && next <= |fates| && (old(next) < next || next == |fates|)
      ensures old(Smooth(1)) ==> st == Good && next == old(next) + 1
    {
      var f := Fated();
      st := Reports(f.end);
    }

    method Journal(a: Active) returns (st: Status)
      requires next <= |fates|
      modifies this`next, this`active
      ensures old(next) <= next <= old(next) + 1 && next <= |fates| && (active == Some(a) || active == old(active))
      ensures st == Good ==> active == Some(a)
      ensures old(next) < next || next == |fates|
      ensures old(Smooth(1)) ==> st == Good && next == old(next) + 1
      ensures Interrupted(old(next)) ==> st == Died && active == Some(a)
    {
      var f := Fated();
      if f.end == Completes || f.applied {
        active := Some(a);
      }
      st := Reports(f.end);
    }

    /** Target, current and live database heads must agree. */
    method Preflight(d: Digest) returns (st: Status)
      requires Valid() && d in manifests
      modifies this`next
      ensures Valid() && old(next) <= next <= old(next) + 1 && (old(next) < next || next == |fates|)
      ensures st == Good ==> head == manifests[d].head
      ensures st == Good && active.Some? ==> manifests[active.value.current].head == manifests[d].head
      ensures old(Smooth(1)) && head == manifests[d].head
              && (active.Some? ==> manifests[active.value.current].head == manifests[d].head) ==>
                st == Good && next == old(next) + 1
    {
      st := Read();
      if st == Good && (head != manifests[d].head
                        || (active.Some? && manifests[active.value.current].head != manifests[d].head)) {
        st := Raised;
      }
    }

    method StopWeb() returns (st: Status)
      requires Valid()
      modifies this`next, this`web
      ensures Valid() && (web == None || web == old(web)) && (st == Good ==> web == None)
      ensures old(next) <= next <= old(next) + 1 && (old(Smooth(1)) ==> st == Good && next == old(next) + 1)
    {
      var f := Fated();
      if f.end == Completes || f.web != Untouched {
        web := None;
      }
      st := Reports(f.end);
    }

    method StopBoth() returns (st: Status)
      requires Valid()
      modifies this`next, this`web, this`worker
      ensures Valid() && (st == Good ==> web == None && worker == None)
      ensures old(next) <= next <= old(next) + 1 && (old(Smooth(1)) ==> st == Good && next == old(next) + 1)
    {
      var f := Fated();
      if f.end == Completes || f.web != Untouched {
        web := None;
      }
      if f.end == Completes || f.worker != Untouched {
        worker := None;
      }
      st := Reports(f.end);
    }

    method UpWorker(d: Digest) returns (st: Status)
      requires Valid() && active.Some? && active.value.current == d && manifests[d].head == head
      requires web == None || web == Some(d)
      modifies this`next, this`worker
      ensures Valid() && (st == Good ==> worker == Some(d))
      ensures old(next) <= next <= old(next) + 1 && (old(Smooth(1)) ==> st == Good && next == old(next) + 1)
    {
      var f := Fated();
      if f.end == Completes || f.worker == Reached {
        worker := Some(d);
      } else if f.worker == Halted {
        worker := None;
      }
      st := Reports(f.end);
    }

    method UpWeb(d: Digest) returns (st: Status)
      requires Valid() && active.Some? && active.value.current == d && worker == Some(d) && (web == None || web == Some(d))
      modifies this`next, this`web
      ensures Valid() && (st == Good ==> web == Some(d))
      ensures old(next) <= next <= old(next) + 1 && (old(Smooth(1)) ==> st == Good && next == old(next) + 1)
    {
      var f := Fated();
      if f.end == Completes || f.web == Reached {
        web := Some(d);
      } else if f.web == Halted {
        web := None;
      }
      st := Reports(f.end);
    }

    /** Stop the old web, then bring up the worker and the web of one release. */
    method Lifecycle(d: Digest, stopOld: bool) returns (st: Status)
      requires Valid() && active.Some? && active.value.current == d && manifests[d].head == head
      requires !stopOld ==> web == None || web == Some(d)
      modifies this`next, this`web, this`worker
      ensures Valid() && (st == Good ==> web == worker == Some(d))
      ensures old(next) <= next <= old(next) + 4 && (old(Smooth(4)) ==> st == Good && next == old(next) + if stopOld then 4 else 3)
    {
      if stopOld {
        st := StopWeb();
        if st != Good {
          return;
        }
      }
      st := UpWorker(d);
      if st != Good {
        return;
      }
      st := UpWeb(d);
      if st != Good {
        return;
      }
      st := Read();
    }

    /** Record what is about to happen, switch the services over, and record that it has happened. */
    method SwitchTo(kind: Kind, d: Digest, previous: Option<Digest>, stopOld: bool) returns (st: Status)
      requires Valid() && !Cutting() && kind != SchemaCutover
      requires d in manifests && manifests[d].head == head && StateOk(Pending(kind, d, previous))
      requires active == None ==> web == None && worker == None
      requires !stopOld || (kind == Activation && previous == None) ==> web == None || web == Some(d)
      modifies this`next, this`active, this`web, this`worker
      ensures Valid()
      ensures active == None ==> web == None && worker == None
      ensures active == old(active) || active == Some(Pending(kind, d, previous)) || active == Some(Active(None, d, previous))
      ensures st == Good ==> active == Some(Active(None, d, previous))
      ensures old(next) <= next <= old(next) + 6 && (st != Good ==> old(next) < next || next == |fates|)
      ensures old(Smooth(6)) ==> st == Good && next == old(next) + if stopOld then 6 else 5
      ensures old(Smooth(5)) && stopOld && Interrupted(old(next) + 5) ==> st == Died && active == Some(Active(None, d, previous))
    {
      st := Journal(Pending(kind, d, previous));
      if st != Good {
        return;
      }
      st := Lifecycle(d, stopOld);
      if st != Good {
        return;
      }
      st := Journal(Active(None, d, previous));
    }

    /** Stage a release and check that it may be activated. */
    method Admit(d: Digest) returns (st: Status)
      requires Valid() && d in manifests
      modifies this`next, this`installed
      ensures Valid() && old(installed) <= installed <= old(installed) + {d}
      ensures old(next) <= next <= old(next) + 2 && (old(CanActivate(d)) && st != Good ==> old(next) < next || next == |fates|)
      ensures st == Good ==> CanActivate(d) && old(CanActivate(d)) && d in installed && head == manifests[d].head
      ensures old(CanActivate(d)) ==> CanActivate(d)
      ensures old(Smooth(2)) && old(CanActivate(d)) ==> st == Good && next == old(next) + if d in old(installed) then 1 else 2
    {
      st := Install(d);
      if st != Good {
        return;
      }
      if active == None && installed != {d} {
        return Raised;
      }
      if active.Some? && active.value.pending.Some? && active.value.pending != Some(Operation(Activation, d)) {
        return Raised;
      }
      var done := active.Some? && active.value.pending == None && active.value.current == d;
      if active.Some? && active.value.pending == None && !done && !Newer(manifests[d], manifests[active.value.current]) {
        return Raised;
      }
      if active == None && (web.Some? || worker.Some?) {
        return Raised;
      }
      st := Preflight(d);
    }

    /** Stage and activate a release. */
    method Activate(d: Digest) returns (st: Status)
      requires Valid() && d in manifests
      modifies this
      ensures Valid() && OnTheWay(old(active), active, Operation(Activation, d))
      ensures st == Good ==> active == Goal(old(active), Operation(Activation, d)) && active.Some?
                             && active.value.pending == None && active.value.current == d
      ensures head == old(head) && proofs == old(proofs)
      ensures old(Smooth(EFFECTS)) ==> (st == Good <==> old(CanActivate(d)))
      ensures old(CanActivate(d)) && st != Good ==> (CanComplete(Operation(Activation, d)) || active == Goal(old(active), Operation(Activation, d)))
      ensures old(active) == Goal(old(active), Operation(Activation, d)) ==> active == old(active)
      ensures installed <= old(installed) + {d}
      ensures old(Smooth(EFFECTS) && CanActivate(d) && !(active.Some? && active.value.pending == None && active.value.current == d)) ==>
                next == old(next) + (if d in old(installed) then 0 else 1) + (if active.value.previous.Some? then 7 else 6)
      ensures old(next) <= next <= old(next) + EFFECTS && (old(CanActivate(d)) && st != Good ==> old(next) < next || next == |fates|)
      ensures old(active.Some? && active.value.pending.Some? && active.value.pending != Some(Operation(Activation, d))) ==>
                st != Good && active == old(active) && web == old(web) && worker == old(worker)
    {
      st := Admit(d);
      if st != Good {
        return;
      }
      if active.Some? && active.value.pending == None && active.value.current == d {
        st := Read();
        return;
      }
      var previous :=
        if active == None then None
        else if active.value.pending.Some? then active.value.previous
        else Some(active.value.current);
      st := SwitchTo(Activation, d, previous, previous.Some?);
    }

    /** Consume the single previous release and activate it without migrations. */
    method Rollback() returns (st: Status)
      requires Valid()
      modifies this
      ensures Valid() && head == old(head) && proofs == old(proofs)
      ensures old(active).Some? ==> OnTheWay(old(active), active, Operation(Reversal, ReversalTarget(old(active).value)))
      ensures st == Good ==> old(active).Some? && active == Goal(old(active), Operation(Reversal, ReversalTarget(old(active).value)))
      ensures st == Good ==> active == Some(Active(None, ReversalTarget(old(active).value), None))
      ensures old(active.Some? && active.value.pending.Some? && active.value.pending.value.kind != Reversal) ==>
                st != Good && active == old(active) && web == old(web) && worker == old(worker)
      ensures old(active) == None ==> active == None
      ensures old(Smooth(EFFECTS)) ==> (st == Good <==> old(CanRollBack()))
      ensures old(CanRollBack()) && st != Good ==> (CanComplete(Operation(Reversal, ReversalTarget(old(active).value))) || active == Goal(old(active), Operation(Reversal, ReversalTarget(old(active).value))))
      ensures old(active).Some? && old(active) == Goal(old(active), Operation(Reversal, ReversalTarget(old(active).value))) ==> active == old(active)
      ensures old(CanRollBack()) && old(Smooth(6)) && Interrupted(old(next) + 6) ==>
                st == Died && active == Some(Active(None, ReversalTarget(old(active).value), None))
      ensures old(active.Some? && active.value.pending == None && active.value.previous == None) ==> st == Raised
      ensures old(next) <= next <= old(next) + EFFECTS && (old(CanRollBack()) && st != Good ==> old(next) < next || next == |fates|)
    {
      if active == None {
        return Raised;
      }
      var a := active.value;
      if a.pending.Some? && a.pending.value.kind != Reversal {
        return Raised;
      }
      if a.pending == None && a.previous == None {
        return Raised;
      }
      var d := ReversalTarget(a);
      if a.pending == None && manifests[a.current].head != manifests[d].head {
        return Raised;
      }
      st := Preflight(d);
      if st != Good {
        return;
      }
      st := SwitchTo(Reversal, d, None, true);
    }

    /** Freeze a backup, restore it in isolation, and store the proof that this was done. */
    method CreateProof(source: Digest, target: Digest) returns (st: Status)
      requires Valid() && Cutting() && head == FROM_HEAD && active.value.current == target
      modifies this`next, this`proofs
      ensures Valid() && (st == Good ==> target in proofs && proofs[target] == Proof(source, target))
      ensures old(next) <= next <= old(next) + 3 && (old(Smooth(3)) ==> st == Good)
    {
      st := Read();
      if st != Good {
        return;
      }
      st := Read();
      if st != Good {
        return;
      }
      var f := Fated();
      if f.end == Completes || f.applied {
        proofs := proofs[target := Proof(source, target)];
      }
      st := Reports(f.end);
    }

    /** The one migration; it may only run with both services stopped and the proof stored. */
    method Migrate() returns (st: Status)
      requires Valid() && Cutting() && web == None && worker == None
      requires active.value.current in proofs
      requires proofs[active.value.current] == Proof(active.value.previous.value, active.value.current)
      modifies this`next, this`head
      ensures Valid() && (head == old(head) || head == TO_HEAD)
      ensures old(next) <= next <= old(next) + 1 && (old(Smooth(1)) ==> st == Good && head == TO_HEAD)
    {
      var f := Fated();
      if f.head == TO_HEAD {
        head := TO_HEAD;
      }
      st := Reports(f.end);
    }

    /** Back up and migrate, or recognise that this has been done; the head ends up migrated. */
    method BringForward(source: Digest, target: Digest, liveHead: int) returns (st: Status)
      requires Valid() && Cutting() && active == Some(Pending(SchemaCutover, target, Some(source)))
      requires web == None && worker == None && liveHead == head
      modifies this`next, this`proofs, this`head
      ensures Valid() && (st == Good ==> head == TO_HEAD)
      ensures old(next) <= next <= old(next) + 4 && (old(Smooth(4)) ==> st == Good)
    {
      if liveHead == FROM_HEAD {
        st := CreateProof(source, target);
        if st == Good {
          st := Migrate();
        }
      } else {
        st := Read();
        if st == Good && (target !in proofs || proofs[target] != Proof(source, target)) {
          st := Raised;
        }
      }
      if st == Good && head != TO_HEAD {
        st := Raised;
      }
    }

    /** Record the cutover, stop both services, migrate, start the new release, and record the end. */
    method MigrateTo(source: Digest, d: Digest, liveHead: int) returns (st: Status)
      requires Valid() && active.Some? && liveHead == head && StateOk(Pending(SchemaCutover, d, Some(source)))
      requires (active.value.pending == None && active.value.current == source) || active == Some(Pending(SchemaCutover, d, Some(source)))
      modifies this
      ensures Valid() && installed == old(installed)
      ensures active == old(active) || active == Some(Pending(SchemaCutover, d, Some(source))) || active == Some(Active(None, d, Some(source)))
      ensures active == Some(Active(None, d, Some(source))) ==> head == TO_HEAD && d in proofs && proofs[d] == Proof(source, d)
      ensures st == Good ==> active == Some(Active(None, d, Some(source)))
      ensures old(next) <= next <= old(next) + 11 && (st != Good ==> old(next) < next || next == |fates|)
      ensures old(CanCutOver(d)) ==> CanCutOver(d)
      ensures old(Smooth(11)) ==> st == Good
    {
      st := Journal(Pending(SchemaCutover, d, Some(source)));
      if st != Good {
        return;
      }
      st := StopBoth();
      if st != Good {
        return;
      }
      st := BringForward(source, d, liveHead);
      if st != Good {
        return;
      }
      st := Lifecycle(d, false);
      if st != Good {
        return;
      }
      st := Journal(Active(None, d, Some(source)));
    }

    /** A cutover that is already done only proves that it is. */
    method Confirm(d: Digest) returns (st: Status)
      requires Valid() && active.Some? && active.value.pending == None && active.value.current == d
      modifies this`next
      ensures Valid() && old(next) <= next <= old(next) + 2 && (old(next) < next || next == |fates|)
      ensures st == Good ==> active.value.previous.Some? && d in proofs && proofs[d] == Proof(active.value.previous.value, d)
      ensures CanCutOver(d) == old(CanCutOver(d)) && (st == Good ==> CanCutOver(d))
      ensures old(Smooth(2)) && CanCutOver(d) ==> st == Good
    {
      st := Preflight(d);
      if st == Good && (active.value.previous == None || d !in proofs || proofs[d] != Proof(active.value.previous.value, d)) {
        st := Raised;
      }
      if st == Good {
        st := Read();
      }
    }

    /** Check that an installed release may be cut over to, and read the live head. */
    method AdmitCutOver(d: Digest) returns (st: Status, source: Digest, liveHead: int)
      requires Valid() && d in installed && active.Some? && !(active.value.pending == None && active.value.current == d)
      modifies this`next
      ensures Valid() && old(next) <= next <= old(next) + 1 && (CanCutOver(d) && st != Good ==> old(next) < next || next == |fates|)
      ensures CanCutOver(d) == old(CanCutOver(d)) && (st == Good ==> CanCutOver(d))
      ensures st == Good ==> liveHead == head && StateOk(Pending(SchemaCutover, d, Some(source)))
      ensures st == Good ==> source == if active.value.pending.Some? then active.value.previous.value else active.value.current
      ensures old(Smooth(1)) && CanCutOver(d) ==> st == Good && next == old(next) + 1
    {
      var a := active.value;
      source, liveHead := a.current, head;
      if a.pending.Some? && (a.pending != Some(Operation(SchemaCutover, d)) || a.previous == None) {
        return Raised, source, liveHead;
      }
      source := if a.pending.Some? then a.previous.value else a.current;
      if !Newer(manifests[d], manifests[source]) {
        return Raised, source, liveHead;
      }
      if manifests[source].head != FROM_HEAD || manifests[d].head != TO_HEAD {
        return Raised, source, liveHead;
      }
      st := Read();
      if st == Good && liveHead != FROM_HEAD && liveHead != TO_HEAD {
        st := Raised;
      }
    }

    /** Activate the exact forward schema cutover. */
    method CutOver(d: Digest) returns (st: Status)
      requires Valid() && d in manifests
      modifies this
      ensures Valid() && OnTheWay(old(active), active, Operation(SchemaCutover, d))
      ensures st == Good ==> active == Goal(old(active), Operation(SchemaCutover, d)) && active.Some?
                             && active.value.pending == None && active.value.current == d
      ensures st == Good ==> head == TO_HEAD && active.value.previous.Some?
                             && d in proofs && proofs[d] == Proof(active.value.previous.value, d)
      ensures old(Smooth(EFFECTS)) ==> (st == Good <==> old(CanCutOver(d)))
      ensures old(CanCutOver(d)) && st != Good ==> (CanComplete(Operation(SchemaCutover, d)) || active == Goal(old(active), Operation(SchemaCutover, d)))
      ensures old(active) == Goal(old(active), Operation(SchemaCutover, d)) ==> active == old(active)
      ensures old(next) <= next <= old(next) + EFFECTS && (old(CanCutOver(d)) && st != Good ==> old(next) < next || next == |fates|)
      ensures old(active.Some? && active.value.pending.Some? && active.value.pending != Some(Operation(SchemaCutover, d))) ==>
                st != Good && active == old(active) && web == old(web) && worker == old(worker) && head == old(head)
    {
      assert CanCutOver(d) ==> active.Some?;
      hide CanCutOver;
      st := Install(d);
      if st != Good {
        return;
      }
      if active == None {
        return Raised;
      }
      if active.value.pending == None && active.value.current == d {
        st := Confirm(d);
        return;
      }
      var source, liveHead;
      st, source, liveHead := AdmitCutOver(d);
      if st != Good {
        return;
      }
      st := MigrateTo(source, d, liveHead);
    }

    method Attempt(op: Operation) returns (st: Status)
      requires Valid() && op.target in manifests
      requires op.kind == Reversal ==> active.Some? && op.target == ReversalTarget(active.value)
      modifies this
      ensures Valid() && OnTheWay(old(active), active, op)
      ensures st == Good ==> active == Goal(old(active), op) && active.Some? && active.value.pending == None
      ensures old(Smooth(EFFECTS)) ==> (st == Good <==> old(CanComplete(op)))
      ensures old(CanComplete(op)) && st != Good ==> CanComplete(op) || active == Goal(old(active), op)
      ensures old(active) == Goal(old(active), op) ==> active == old(active)
      ensures old(next) <= next <= old(next) + EFFECTS && (old(CanComplete(op)) && st != Good ==> old(next) < next || next == |fates|)
    {
      match op.kind {
        case Activation => st := Activate(op.target);
        case SchemaCutover => st := CutOver(op.target);
        case Reversal => st := Rollback();
      }
    }

    /** From effect `m` on everything completes, for long enough. */
    predicate CalmFrom(m: nat)
      reads this
    {
      m + 2 * EFFECTS <= |fates| && forall k | m <= k < |fates| :: fates[k].end == Completes && fates[k].head == TO_HEAD
    }

    /** However often an operation is killed or fails, once a retry completes, the release and its
        predecessor are those a single uninterrupted run would have left; and if its checks hold, one
        attempt for every effect that may still fail, and one more, are enough to get there. */
    method Retry(op: Operation, attempts: nat, ghost calm: nat) returns (st: Status)
      requires Valid() && op.target in manifests
      requires op.kind == Reversal ==> active.Some? && op.target == ReversalTarget(active.value)
      modifies this
      ensures Valid()
      ensures st == Good ==> active == Goal(old(active), op) && active.Some? && active.value.pending == None
      ensures Goal(active, op) == Goal(old(active), op)
      ensures old(CanComplete(op)) && CalmFrom(calm) && old(next) <= calm < old(next) + attempts ==>
                active == Goal(old(active), op)
    {
      st := Raised;
      var i := 0;
      while i < attempts && st != Good
        invariant Valid() && Goal(active, op) == Goal(old(active), op)
        invariant op.kind == Reversal ==> active.Some? && op.target == ReversalTarget(active.value)
        invariant st == Good ==> active == Goal(old(active), op) && active.Some? && active.value.pending == None
        invariant old(CanComplete(op)) ==> CanComplete(op) || active == Goal(old(active), op)
        invariant 0 <= i <= attempts && (i == 0 ==> next == old(next))
        invariant old(CanComplete(op)) && CalmFrom(calm) && old(next) <= calm && active != Goal(old(active), op) && i > 0 ==>
                    old(next) + i <= calm && old(next) + i <= next < calm + EFFECTS
        decreases attempts - i
      {
        ghost var before, smooth := active, Smooth(EFFECTS);
        assert CalmFrom(calm) && calm <= next < calm + EFFECTS ==> smooth;
        st := Attempt(op);
        StoppingKeepsTheGoal(before, active, op);
        i := i + 1;
      }
    }

    /** Any sequence of operations, whatever goes wrong in each of them. */
    method Operate(ops: seq<Operation>)
      requires Valid()
      modifies this
      ensures Valid()
      ensures active.Some? ==> WellFormed(active.value) && active.value.previous != Some(active.value.current)
      ensures active.Some? && !Cutting() ==> head == manifests[active.value.current].head
      ensures Cutting() && head == TO_HEAD ==> active.value.current in proofs
      ensures active.Some? && web.Some? ==> worker == None || worker == web
    {
      for i := 0 to |ops|
        invariant Valid()
      {
        if ops[i].kind == Reversal {
          var _ := Rollback();
        } else if ops[i].target in manifests {
          var _ := Attempt(ops[i]);
        }
      }
    }
  }

  /** Two releases are activated, the second is rolled back, and the process dies writing the last
      journal entry, which is written all the same: the rollback is complete, and repeating it reports
      an error. */
  method RollBackTwice() returns (host: Host, first: Status, second: Status)
    ensures host.active == Some(Active(None, 1, None)) && first == Died && second == Raised
  {
    var calm, last := Fate(Completes, true, Reached, Reached, TO_HEAD), Fate(Dies, true, Reached, Reached, TO_HEAD);
    var fates := seq(40, i => if i == 21 then last else calm);
    host := new Host(map[1 := Manifest(7, 1, 0), 2 := Manifest(7, 2, 0)], 7, None, None, fates);
    assert host.Smooth(EFFECTS);
    var a := host.Activate(1);
    assert a == Good && host.next == 7;
    assert host.Smooth(EFFECTS);
    var b := host.Activate(2);
    assert b == Good && host.next == 15;
    assert host.Smooth(6) && host.Interrupted(host.next + 6);
    first := host.Rollback();
    second := host.Rollback();
  }

  function ReversalTarget(a: Active): Digest {
    if a.pending.Some? || a.previous == None then a.current else a.previous.value
  }
}
