/** Any number of calls over one virtual machine, interleaved at the grain of API calls: the
    IPMI and Redfish servers share one resource manager and take no lock. */
module Concurrency {
  import opened Basics
  import opened VirtualMachines
  import opened Operations

  datatype System = System(world: World, calls: seq<Local>)

  /** `Touch` is a write by somebody else that leaves the spec alone, such as a status update. */
  datatype Event = Spawn(op: Op) | Advance(i: nat, outcome: Outcome) | Touch

  predicate AllWellFormed(calls: seq<Local>) {
    forall i :: 0 <= i < |calls| ==> WellFormed(calls[i])
  }

  function Next(s: System, e: Event): (s': System)
    requires AllWellFormed(s.calls)
    ensures AllWellFormed(s'.calls)
  {
    match e
    case Spawn(op) => s.(calls := s.calls + [Ready(op)])
    case Advance(i, o) =>
      if i >= |s.calls| then s
      else
        var r := Step(s.world, s.calls[i], o);
        System(r.0, s.calls[i := r.1])
    case Touch => s.(world := s.world.(cluster := s.world.cluster.(version := s.world.cluster.version + 1)))
  }

  function Execute(s: System, events: seq<Event>): (s': System)
    requires AllWellFormed(s.calls)
    ensures AllWellFormed(s'.calls)
    decreases |events|
  {
    if events == [] then s else Execute(Next(s, events[0]), events[1..])
  }

  // ---------- What an edit does to the media ----------

  /** The volumes of a spec that carry the name of its first CD-ROM disk. */
  function Attached(spec: VMSpec): seq<Volume> {
    if spec.template.None? || CdromOf(spec).None? then []
    else Named(spec.template.value.volumes, CdromOf(spec).value)
  }

  lemma BootEditKeepsCdrom(t: Template, device: string)
    ensures var r := SetBoot(t, device);
            r.Success? ==>
              && r.value.volumes == t.volumes
              && FirstCdrom(OrEmpty(r.value.disks)) == FirstCdrom(OrEmpty(t.disks))
  {
    var r := SetBoot(t, device);
    if r.Success? {
      CdromIgnoresBootOrder(OrEmpty(r.value.disks), OrEmpty(t.disks));
    }
  }

  lemma EditMedia(op: Op, spec: VMSpec, vmName: string)
    requires !op.PowerCycle? && Edit(op, spec, vmName).Success?
    ensures var e := Edit(op, spec, vmName).value;
            && CdromOf(e.spec) == CdromOf(spec)
            && (!IsMedia(op) ==> Attached(e.spec) == Attached(spec))
            && (op.InsertMedia? ==> CdromOf(spec).Some? && e.dvName == vmName
                                    && Attached(e.spec) == Attached(spec) + [MediaVolume(CdromOf(spec).value, vmName)])
            && (op.EjectMedia? ==> Attached(e.spec) == [] && Attached(spec) != []
                                   && e.dvName == LastDataVolume(Attached(spec)))
  {
    match op
    case PowerOn =>
    case PowerOff =>
    case SetBootDevice(device) => BootEditKeepsCdrom(spec.template.value, device);
    case InsertMedia(_, _) =>
      var cdrom := CdromOf(spec).value;
      WithoutAppend(spec.template.value.volumes, MediaVolume(cdrom, vmName), cdrom);
    case EjectMedia => NamedOfWithout(spec.template.value.volumes, CdromOf(spec).value);
  }

  // ---------- Serializability ----------

  /** A pending edit was made from the stored spec, unless that spec's version has moved on. */
  predicate Snapshot(c: Cluster, l: Local)
    requires WellFormed(l)
  {
    l.Creating? || l.Updating? ==>
      && l.version <= c.version
      && (l.version == c.version ==> Edit(l.op, c.spec, c.name) == Success(l.edited))
  }

  predicate AllSnapshots(s: System) {
    && AllWellFormed(s.calls)
    && forall i :: 0 <= i < |s.calls| ==> Snapshot(s.world.cluster, s.calls[i])
  }

  /** The operation whose update takes effect in an event, if any. */
  function Commit(s: System, e: Event): seq<Op> {
    if e.Advance? && e.i < |s.calls| && s.calls[e.i].Updating?
       && Accepted(s.world.cluster, s.calls[e.i].version, e.outcome)
    then [s.calls[e.i].op] else []
  }

  function Commits(s: System, events: seq<Event>): seq<Op>
    requires AllWellFormed(s.calls)
    decreases |events|
  {
    if events == [] then []
    else Commit(s, events[0]) + Commits(Next(s, events[0]), events[1..])
  }

  /** The edits of `ops` one at a time, each from the result of the one before; `None` if
      one of them fails. */
  function Replay(spec: VMSpec, ops: seq<Op>, vmName: string): Option<VMSpec>
    decreases |ops|
  {
    if ops == [] then Some(spec)
    else if ops[0].PowerCycle? then Replay(spec, ops[1..], vmName)
    else
      var e := Edit(ops[0], spec, vmName);
      if e.Failure? then None else Replay(e.value.spec, ops[1..], vmName)
  }

  lemma {:induction false} ReplayAppend(spec: VMSpec, a: seq<Op>, b: seq<Op>, vmName: string)
    ensures Replay(spec, a + b, vmName)
         == (var mid := Replay(spec, a, vmName);
             if mid.None? then None else Replay(mid.value, b, vmName))
    decreases |a|
  {
    if a == [] {
      assert a + b == b;
    } else {
      assert (a + b)[1..] == a[1..] + b;
      if a[0].PowerCycle? {
        ReplayAppend(spec, a[1..], b, vmName);
      } else if Edit(a[0], spec, vmName).Success? {
        ReplayAppend(Edit(a[0], spec, vmName).value.spec, a[1..], b, vmName);
      }
    }
  }

  lemma SnapshotStep(s: System, e: Event)
    requires AllSnapshots(s)
    ensures AllSnapshots(Next(s, e))
    ensures Replay(s.world.cluster.spec, Commit(s, e), s.world.cluster.name)
         == Some(Next(s, e).world.cluster.spec)
    ensures Next(s, e).world.cluster.name == s.world.cluster.name
  {
    var s' := Next(s, e);
    if e.Advance? && e.i < |s.calls| {
      var c, c' := s.world.cluster, s'.world.cluster;
      assert c'.version > c.version || (c'.spec == c.spec && c'.version == c.version);
      forall j | 0 <= j < |s'.calls| ensures Snapshot(c', s'.calls[j]) {
        if j != e.i {
          assert Snapshot(c, s.calls[j]);
        } else {
          assert Snapshot(c, s.calls[e.i]);
        }
      }
      assert Snapshot(c, s.calls[e.i]);
    }
  }

  /** Every interleaving leaves the spec that a serial execution of the operations whose
      update took effect leaves, in the order of those updates; none of them fails there. */
  lemma {:induction false} Serializable(s: System, events: seq<Event>)
    requires AllSnapshots(s)
    ensures Replay(s.world.cluster.spec, Commits(s, events), s.world.cluster.name)
         == Some(Execute(s, events).world.cluster.spec)
    ensures AllSnapshots(Execute(s, events))
    ensures Execute(s, events).world.cluster.name == s.world.cluster.name
    decreases |events|
  {
    if events != [] {
      SnapshotStep(s, events[0]);
      Serializable(Next(s, events[0]), events[1..]);
      ReplayAppend(s.world.cluster.spec, Commit(s, events[0]),
                   Commits(Next(s, events[0]), events[1..]), s.world.cluster.name);
    }
  }

  // ---------- The DataVolume as a single token ----------

  /** A call that answers for the DataVolume: an insert between create and update, an eject
      between update and delete, or a failed call that left the DataVolume behind. */
  predicate Holds(l: Local) {
    || (l.Updating? && l.op.InsertMedia?)
    || l.Deleting?
    || (l.Finished? && l.orphaned)
  }

  function Holders(calls: seq<Local>): nat {
    if calls == [] then 0
    else Holders(calls[..|calls| - 1]) + (if Holds(calls[|calls| - 1]) then 1 else 0)
  }

  lemma {:induction false} HoldersUpdate(calls: seq<Local>, i: nat, l: Local)
    requires i < |calls|
    ensures Holders(calls[i := l])
         == Holders(calls) - (if Holds(calls[i]) then 1 else 0) + (if Holds(l) then 1 else 0)
  {
    var n := |calls| - 1;
    if i == n {
      assert calls[i := l][..n] == calls[..n];
    } else {
      HoldersUpdate(calls[..n], i, l);
      assert calls[i := l][..n] == calls[..n][i := l];
    }
  }

  lemma {:induction false} HoldersAtLeast(calls: seq<Local>, i: nat, j: nat)
    requires i < j < |calls| && Holds(calls[j])
    ensures Holders(calls) >= 1
    ensures Holds(calls[i]) ==> Holders(calls) >= 2
  {
    HoldersUpdate(calls, j, Ready(PowerOn));
    var fewer := calls[j := Ready(PowerOn)];
    HoldersUpdate(fewer, i, Ready(PowerOn));
  }

  lemma HolderCounts(calls: seq<Local>, i: nat)
    requires i < |calls| && Holds(calls[i])
    ensures Holders(calls) >= 1
  {
    HoldersUpdate(calls, i, Ready(PowerOn));
  }

  /** The shape of the calls and volumes that the media protocol keeps. */
  predicate MediaCall(c: Cluster, l: Local) {
    && (l.Creating? ==> l.edited.dvName == c.name)
    && (l.Deleting? ==> l.dvName == c.name)
    && (l.Finished? && l.orphaned ==> IsMedia(l.op) && l.error.Some?)
  }

  predicate OwnVolumes(c: Cluster) {
    forall v :: v in Attached(c.spec) ==> v.source == DataVolumeSource(c.name, true)
  }

  /** The conservation law: holders and attached volumes are together as many as there are
      DataVolumes of the fixed name. */
  predicate TokenInvariant(s: System) {
    var c := s.world.cluster;
    && AllSnapshots(s)
    && (forall i :: 0 <= i < |s.calls| ==> MediaCall(c, s.calls[i]))
    && OwnVolumes(c)
    && Holders(s.calls) + |Attached(c.spec)| == (if c.name in c.dataVolumes then 1 else 0)
  }

  /** No call under way, no DataVolume of the fixed name and no volume on the CD-ROM disk. */
  predicate Clean(s: System) {
    && s.calls == []
    && s.world.cluster.name !in s.world.cluster.dataVolumes
    && Attached(s.world.cluster.spec) == []
  }

  lemma CleanIsConserved(s: System)
    requires Clean(s)
    ensures TokenInvariant(s)
  {
  }

  /** What one step of a call does to the two sides of the law. */
  lemma TokenBalance(w: World, l: Local, o: Outcome)
    requires var c := w.cluster;
             && WellFormed(l) && Snapshot(c, l) && MediaCall(c, l) && OwnVolumes(c)
             && |Attached(c.spec)| + (if Holds(l) then 1 else 0) <= (if c.name in c.dataVolumes then 1 else 0)
    ensures var r := Step(w, l, o);
            var c, c' := w.cluster, r.0.cluster;
            && MediaCall(c', r.1) && OwnVolumes(c') && c'.name == c.name
            && c'.dataVolumes - {c.name} == c.dataVolumes - {c.name}
            && |Attached(c'.spec)| - |Attached(c.spec)|
               + (if Holds(r.1) then 1 else 0) - (if Holds(l) then 1 else 0)
               == (if c.name in c'.dataVolumes then 1 else 0) - (if c.name in c.dataVolumes then 1 else 0)
  {
    if l.Updating? && Accepted(w.cluster, l.version, o) {
      EditMedia(l.op, w.cluster.spec, w.cluster.name);
    }
  }

  lemma TokenAdvance(s: System, i: nat, o: Outcome)
    requires TokenInvariant(s) && i < |s.calls|
    ensures TokenInvariant(Next(s, Advance(i, o)))
    ensures Next(s, Advance(i, o)).world.cluster.dataVolumes - {s.world.cluster.name}
         == s.world.cluster.dataVolumes - {s.world.cluster.name}
  {
    var s' := Next(s, Advance(i, o));
    var c, c' := s.world.cluster, s'.world.cluster;
    SnapshotStep(s, Advance(i, o));
    HoldersUpdate(s.calls, i, s'.calls[i]);
    if Holds(s.calls[i]) {
      HolderCounts(s.calls, i);
    }
    TokenBalance(s.world, s.calls[i], o);
    forall j | 0 <= j < |s'.calls| ensures MediaCall(c', s'.calls[j]) {
      assert j != i ==> MediaCall(c, s.calls[j]);
    }
  }

  lemma TokenStep(s: System, e: Event)
    requires TokenInvariant(s)
    ensures TokenInvariant(Next(s, e))
    ensures Next(s, e).world.cluster.dataVolumes - {s.world.cluster.name}
         == s.world.cluster.dataVolumes - {s.world.cluster.name}
  {
    var s' := Next(s, e);
    match e
    case Spawn(op) =>
      assert s'.calls[..|s'.calls| - 1] == s.calls;
    case Advance(i, o) =>
      if i < |s.calls| {
        TokenAdvance(s, i, o);
      }
    case Touch =>
  }

  lemma {:induction false} TokenConserved(s: System, events: seq<Event>)
    requires TokenInvariant(s)
    ensures TokenInvariant(Execute(s, events))
    ensures Execute(s, events).world.cluster.name == s.world.cluster.name
    ensures Execute(s, events).world.cluster.dataVolumes - {s.world.cluster.name}
         == s.world.cluster.dataVolumes - {s.world.cluster.name}
    decreases |events|
  {
    if events != [] {
      TokenStep(s, events[0]);
      SnapshotStep(s, events[0]);
      TokenConserved(Next(s, events[0]), events[1..]);
    }
  }

  /** Under every interleaving, failure and lost reply, the DataVolume exists exactly when
      one call holds it or one volume is attached, and never are there two of these.  What
      is attached names an existing DataVolume, and no other DataVolume is touched. */
  lemma SingleToken(s: System, events: seq<Event>)
    requires Clean(s)
    ensures var t := Execute(s, events);
            var c := t.world.cluster;
            var attached := |Attached(c.spec)|;
            && c.name == s.world.cluster.name
            && (c.name in c.dataVolumes <==>
                  attached == 1 || exists i :: 0 <= i < |t.calls| && Holds(t.calls[i]))
            && attached <= 1
            && (forall i :: 0 <= i < |t.calls| && Holds(t.calls[i]) ==> attached == 0)
            && (forall i, j :: 0 <= i < j < |t.calls| ==> !(Holds(t.calls[i]) && Holds(t.calls[j])))
            && (forall v :: v in Attached(c.spec) ==>
                  v.source == DataVolumeSource(c.name, true) && c.name in c.dataVolumes)
            && c.dataVolumes - {c.name} == s.world.cluster.dataVolumes
  {
    CleanIsConserved(s);
    TokenConserved(s, events);
    var t := Execute(s, events);
    var c := t.world.cluster;
    assert s.world.cluster.dataVolumes - {c.name} == s.world.cluster.dataVolumes;
    forall i | 0 <= i < |t.calls| && Holds(t.calls[i]) ensures Holders(t.calls) >= 1 {
      HolderCounts(t.calls, i);
    }
    forall i, j | 0 <= i < j < |t.calls| ensures !(Holds(t.calls[i]) && Holds(t.calls[j])) {
      if Holds(t.calls[j]) {
        HoldersAtLeast(t.calls, i, j);
      }
    }
    if Holders(t.calls) > 0 {
      var _ := SomeHolder(t.calls);
    }
  }

  lemma {:induction false} SomeHolder(calls: seq<Local>) returns (i: nat)
    requires Holders(calls) > 0
    ensures i < |calls| && Holds(calls[i])
  {
    if Holds(calls[|calls| - 1]) {
      i := |calls| - 1;
    } else {
      i := SomeHolder(calls[..|calls| - 1]);
    }
  }

  // ---------- An orphaned DataVolume is never cleared ----------

  predicate Won(l: Local) {
    IsMedia(l.op) && (l.Viewing? || (l.Finished? && l.error.None?))
  }

  lemma OrphanStep(s: System, e: Event, i: nat)
    requires TokenInvariant(s)
    requires i < |s.calls| && s.calls[i].Finished? && s.calls[i].orphaned
    ensures var t := Next(s, e);
            && TokenInvariant(t)
            && i < |t.calls| && t.calls[i] == s.calls[i] && |s.calls| <= |t.calls|
            && forall j :: 0 <= j < |t.calls| && Won(t.calls[j]) ==> j < |s.calls| && Won(s.calls[j])
  {
    TokenStep(s, e);
    HolderCounts(s.calls, i);
    if e.Advance? && e.i < |s.calls| && e.i != i && Holds(s.calls[e.i]) {
      HoldersAtLeast(s.calls, if i < e.i then i else e.i, if i < e.i then e.i else i);
    }
    if e.Advance? && e.i < |s.calls| && s.calls[e.i].Updating? && s.calls[e.i].op.EjectMedia? {
      assert Snapshot(s.world.cluster, s.calls[e.i]);
    }
  }

  /** Once a failed call has left the DataVolume behind, no media is ever attached again and
      no insert or eject that had not yet got through ever succeeds. */
  lemma {:induction false} OrphanIsForever(s: System, events: seq<Event>, i: nat)
    requires TokenInvariant(s)
    requires i < |s.calls| && s.calls[i].Finished? && s.calls[i].orphaned
    ensures var t := Execute(s, events);
            && i < |t.calls| && t.calls[i] == s.calls[i]
            && t.world.cluster.name in t.world.cluster.dataVolumes
            && Attached(t.world.cluster.spec) == []
            && forall j :: 0 <= j < |t.calls| && Won(t.calls[j]) ==> j < |s.calls| && Won(s.calls[j])
    decreases |events|
  {
    HolderCounts(s.calls, i);
    if events != [] {
      OrphanStep(s, events[0], i);
      OrphanIsForever(Next(s, events[0]), events[1..], i);
    }
  }

  // ---------- A call on its own is one interleaving ----------

  function HopOutcome(r: Run): Outcome {
    if IsCall(r.world, r.local) then Head(r.script) else Served
  }

  lemma HopIsEvent(r: Run, calls: seq<Local>)
    requires WellFormed(r.local) && AllWellFormed(calls)
    ensures Next(System(r.world, calls + [r.local]), Advance(|calls|, HopOutcome(r)))
         == System(Hop(r).world, calls + [Hop(r).local])
  {
    var s := calls + [r.local];
    assert forall l :: s[|calls| := l] == calls + [l];
  }

  /** What a sequential call does is what the interleaved system does when only the new call
      advances. */
  lemma CallIsExecution(w: World, calls: seq<Local>, op: Op, script: seq<Outcome>) returns (events: seq<Event>)
    requires AllWellFormed(calls)
    ensures Execute(System(w, calls), [Spawn(op)] + events)
         == System(Call(w, op, script).world, calls + [Call(w, op, script).local])
  {
    CallInFive(w, op, script);
    var r0 := Run(w, Ready(op), script);
    var r1 := Hop(r0);
    var r2 := Hop(r1);
    var r3 := Hop(r2);
    var r4 := Hop(r3);
    var e4 := ExecuteHop(r4, calls, []);
    var e3 := ExecuteHop(r3, calls, e4);
    var e2 := ExecuteHop(r2, calls, e3);
    var e1 := ExecuteHop(r1, calls, e2);
    events := ExecuteHop(r0, calls, e1);
    assert ([Spawn(op)] + events)[1..] == events;
  }

  lemma ExecuteHop(r: Run, calls: seq<Local>, rest: seq<Event>) returns (events: seq<Event>)
    requires WellFormed(r.local) && AllWellFormed(calls)
    ensures Execute(System(r.world, calls + [r.local]), events)
         == Execute(System(Hop(r).world, calls + [Hop(r).local]), rest)
  {
    HopIsEvent(r, calls);
    events := [Advance(|calls|, HopOutcome(r))] + rest;
    assert events[1..] == rest;
  }
}
