/** Boot devices, and what a run of operations leaves in each part of the spec. */
module BootAndPower {
  import opened Basics
  import opened VirtualMachines
  import opened Operations
  import opened Logs
  import opened Concurrency
  import opened MediaViewChain

  // ---------- One SetBootDevice ----------

  /** Device `i` of the class that `device` names gets boot order 1 if it is the first, and
      every other device gets none. */
  function OrderOf(device: string, class_: string, i: int): Option<nat> {
    if device == class_ && i == 0 then Some(1) else None
  }

  predicate BootOrders(t: Template, device: string) {
    && (device == "Pxe" ==> OrEmpty(t.interfaces) != [])
    && (device == "Hdd" ==> OrEmpty(t.disks) != [])
    && (forall i :: 0 <= i < |OrEmpty(t.interfaces)| ==>
          OrEmpty(t.interfaces)[i].bootOrder == OrderOf(device, "Pxe", i))
    && (forall i :: 0 <= i < |OrEmpty(t.disks)| ==>
          OrEmpty(t.disks)[i].bootOrder == OrderOf(device, "Hdd", i))
  }

  /** The same devices up to their boot orders. */
  predicate SameDevices(a: Template, b: Template) {
    && a.interfaces.Some? == b.interfaces.Some?
    && a.disks.Some? == b.disks.Some?
    && ClearInterfaces(OrEmpty(a.interfaces)) == ClearInterfaces(OrEmpty(b.interfaces))
    && ClearDisks(OrEmpty(a.disks)) == ClearDisks(OrEmpty(b.disks))
  }

  /** SetBoot succeeds unless the class it names has no device; then it leaves exactly one
      boot order, or none for other devices, and the same devices and volumes. */
  lemma SetBootEffect(t: Template, device: string)
    ensures SetBoot(t, device).Success? <==>
              (device == "Pxe" ==> OrEmpty(t.interfaces) != []) && (device == "Hdd" ==> OrEmpty(t.disks) != [])
    ensures var r := SetBoot(t, device);
            r.Success? ==> BootOrders(r.value, device) && SameDevices(r.value, t) && r.value.volumes == t.volumes
  {
    var r := SetBoot(t, device);
    if r.Success? {
      assert ClearInterfaces(OrEmpty(r.value.interfaces)) == ClearInterfaces(OrEmpty(t.interfaces));
      assert ClearDisks(OrEmpty(r.value.disks)) == ClearDisks(OrEmpty(t.disks));
    }
  }

  /** Those properties leave no choice. */
  lemma BootOrdersDetermine(a: Template, b: Template, device: string)
    requires BootOrders(a, device) && BootOrders(b, device)
    requires SameDevices(a, b) && a.volumes == b.volumes
    ensures a == b
  {
    DevicesEqual(OrEmpty(a.interfaces), OrEmpty(b.interfaces), OrEmpty(a.disks), OrEmpty(b.disks));
  }

  lemma DevicesEqual(i1: seq<Interface>, i2: seq<Interface>, d1: seq<Disk>, d2: seq<Disk>)
    requires ClearInterfaces(i1) == ClearInterfaces(i2) && ClearDisks(d1) == ClearDisks(d2)
    requires forall i :: 0 <= i < |i1| && i < |i2| ==> i1[i].bootOrder == i2[i].bootOrder
    requires forall i :: 0 <= i < |d1| && i < |d2| ==> d1[i].bootOrder == d2[i].bootOrder
    ensures i1 == i2 && d1 == d2
  {
    forall i | 0 <= i < |i1| ensures i1[i] == i2[i] {
      assert ClearInterfaces(i1)[i] == ClearInterfaces(i2)[i];
    }
    forall i | 0 <= i < |d1| ensures d1[i] == d2[i] {
      assert ClearDisks(d1)[i] == ClearDisks(d2)[i];
    }
  }

  /** The last successful SetBoot wins: what an earlier one set is of no account. */
  lemma LastBootWins(a: Template, b: Template, device: string)
    requires SameDevices(a, b)
    ensures SetBoot(a, device).Success? == SetBoot(b, device).Success?
    ensures SetBoot(a, device).Success? ==>
              && SetBoot(a, device).value.interfaces == SetBoot(b, device).value.interfaces
              && SetBoot(a, device).value.disks == SetBoot(b, device).value.disks
  {
    SetBootEffect(a, device);
    SetBootEffect(b, device);
    assert |OrEmpty(a.interfaces)| == |ClearInterfaces(OrEmpty(a.interfaces))|;
    assert |OrEmpty(b.interfaces)| == |ClearInterfaces(OrEmpty(b.interfaces))|;
    assert |OrEmpty(a.disks)| == |ClearDisks(OrEmpty(a.disks))|;
    assert |OrEmpty(b.disks)| == |ClearDisks(OrEmpty(b.disks))|;
    if SetBoot(a, device).Success? {
      var x, y := SetBoot(a, device).value, SetBoot(b, device).value;
      BootOrdersDetermine(x, y.(volumes := x.volumes), device);
    }
  }

  // ---------- The cached override ----------

  /** Once the override is in force, its target names the class that holds the boot order. */
  predicate OverrideAgrees(w: World) {
    w.view.system.Some? && w.view.system.value.enabled == "Continuous" ==>
      && w.cluster.spec.template.Some?
      && BootOrders(w.cluster.spec.template.value, w.view.system.value.target)
  }

  predicate OverrideMidway(r: Run) {
    var w, l := r.world, r.local;
    && WellFormed(l) && NoLost(r.script)
    && (l.Creating? || l.Updating? ==>
          l.version == w.cluster.version && Edit(l.op, w.cluster.spec, w.cluster.name) == Success(l.edited))
    && if l.Viewing? && l.op.SetBootDevice? then
         w.cluster.spec.template.Some? && BootOrders(w.cluster.spec.template.value, BootTarget(l.op.device))
       else OverrideAgrees(w)
  }

  lemma HopKeepsOverride(r: Run)
    requires OverrideMidway(r)
    ensures OverrideMidway(Hop(r))
  {
    if IsCall(r.world, r.local) {
      assert !Head(r.script).Lost?;
    }
    if r.local.Updating? && r.local.op.SetBootDevice? {
      SetBootEffect(r.world.cluster.spec.template.value, r.local.op.device);
    }
  }

  lemma CallKeepsOverride(w: World, op: Op, script: seq<Outcome>)
    requires OverrideAgrees(w) && NoLost(script)
    ensures OverrideAgrees(Call(w, op, script).world)
  {
    var r0 := Run(w, Ready(op), script);
    HopKeepsOverride(r0);
    HopKeepsOverride(Hop(r0));
    HopKeepsOverride(Hop(Hop(r0)));
    HopKeepsOverride(Hop(Hop(Hop(r0))));
    HopKeepsOverride(Hop(Hop(Hop(Hop(r0)))));
    CallInFive(w, op, script);
  }

  /** Over every run of calls, failing or not, the cached override agrees with the spec. */
  lemma {:induction false} OverrideOverRuns(w: World, requests: seq<Request>)
    requires OverrideAgrees(w)
    requires forall i :: 0 <= i < |requests| ==> NoLost(requests[i].script)
    ensures OverrideAgrees(Serve(w, requests))
    decreases |requests|
  {
    if requests != [] {
      CallKeepsOverride(w, requests[0].op, requests[0].script);
      OverrideOverRuns(Call(w, requests[0].op, requests[0].script).world, requests[1..]);
    }
  }

  /** When SetBootDevice succeeds; a successful call puts its own target in force and changes
      nothing else. */
  lemma BootCallEffect(w: World, device: string, script: seq<Outcome>)
    ensures Call(w, SetBootDevice(device), script).local.error.None? <==>
              && w.cluster.spec.template.Some? && ServedFor(script, 2)
              && (device == "Pxe" ==> OrEmpty(w.cluster.spec.template.value.interfaces) != [])
              && (device == "Hdd" ==> OrEmpty(w.cluster.spec.template.value.disks) != [])
    ensures var r := Call(w, SetBootDevice(device), script);
            var end := r.world;
            r.local.error.None? ==>
              && end.cluster.spec.template.Some?
              && var t := end.cluster.spec.template.value;
              && BootOrders(t, device)
              && SameDevices(t, w.cluster.spec.template.value)
              && t.volumes == w.cluster.spec.template.value.volumes
              && end.cluster == w.cluster.(spec := w.cluster.spec.(template := Some(t)), version := end.cluster.version)
              && end.view.media == w.view.media
              && end.view.system == (if w.view.system.None? then None
                                     else Some(BootView("Continuous", w.view.system.value.mode, BootTarget(device))))
  {
    CallInFive(w, SetBootDevice(device), script);
    assert Head(Tail(script)) == if |script| > 1 then script[1] else Served;
    var r1 := Hop(Run(w, Ready(SetBootDevice(device)), script));
    if w.cluster.spec.template.Some? {
      SetBootEffect(w.cluster.spec.template.value, device);
    }
    if !r1.local.Finished? {
      var r2 := Hop(r1);
    }
  }

  // ---------- One power call ----------

  /** A power call succeeds exactly if its two API calls do.  It leaves the machine on or off
      through one of the two power fields, and changes nothing else. */
  lemma PowerCallEffect(w: World, on: bool, script: seq<Outcome>)
    ensures var r := Call(w, if on then PowerOn else PowerOff, script);
            && (r.local.error.None? <==> ServedFor(script, 2))
            && (r.local.error.None? ==>
                  var spec, end := w.cluster.spec, r.world.cluster.spec;
                  && r.world == w.(cluster := w.cluster.(spec := end, version := r.world.cluster.version))
                  && end.template == spec.template
                  && (spec.runStrategy.None? ==> end.runStrategy.None? && end.running == Some(on))
                  && (spec.runStrategy.Some? ==>
                        && end.running == spec.running
                        && end.runStrategy == Some(if on then "RerunOnFailure" else "Halted")))
  {
    var op := if on then PowerOn else PowerOff;
    CallInFive(w, op, script);
    assert Head(Tail(script)) == if |script| > 1 then script[1] else Served;
    var r1 := Hop(Run(w, Ready(op), script));
    if !r1.local.Finished? {
      var r2 := Hop(r1);
    }
  }

  /** A power cycle takes the running instance away, whether or not its reply is lost, and
      touches nothing else. */
  lemma PowerCycleEffect(w: World, script: seq<Outcome>)
    ensures var r := Call(w, PowerCycle, script);
            && (r.local.error.None? <==> w.cluster.instance && ServedFor(script, 1))
            && r.world == w.(cluster := w.cluster.(instance := w.cluster.instance && Head(script).Refused?))
  {
    CallInFive(w, PowerCycle, script);
  }

  // ---------- Trace projection ----------

  predicate SamePower(a: VMSpec, b: VMSpec) {
    a.running == b.running && a.runStrategy == b.runStrategy
  }

  predicate SameMedia(a: VMSpec, b: VMSpec) {
    && a.template.Some? == b.template.Some?
    && CdromOf(a) == CdromOf(b)
    && (a.template.Some? ==> a.template.value.volumes == b.template.value.volumes)
  }

  predicate SameShape(a: VMSpec, b: VMSpec) {
    && a.template.Some? == b.template.Some?
    && (a.template.Some? ==> SameDevices(a.template.value, b.template.value))
  }

  predicate SameBoot(a: VMSpec, b: VMSpec) {
    && a.template.Some? == b.template.Some?
    && (a.template.Some? ==>
          && a.template.value.interfaces == b.template.value.interfaces
          && a.template.value.disks == b.template.value.disks)
  }

  lemma {:induction false} PowerProjection(a: VMSpec, b: VMSpec, ops: seq<Op>, n: string)
    requires SamePower(a, b) && Replay(a, ops, n).Some?
    ensures Replay(b, Only(ops, IsPower), n).Some?
    ensures SamePower(Replay(a, ops, n).value, Replay(b, Only(ops, IsPower), n).value)
    decreases |ops|
  {
    if ops != [] {
      var a' := if ops[0].PowerCycle? then a else Edit(ops[0], a, n).value.spec;
      if IsPower(ops[0]) {
        assert Only(ops, IsPower)[1..] == Only(ops[1..], IsPower);
        PowerProjection(a', Edit(ops[0], b, n).value.spec, ops[1..], n);
      } else {
        assert Only(ops, IsPower) == Only(ops[1..], IsPower);
        PowerProjection(a', b, ops[1..], n);
      }
    }
  }

  /** A media edit makes the same of the same media, and other edits leave them alone. */
  lemma EditOnMedia(op: Op, a: VMSpec, b: VMSpec, n: string)
    requires !op.PowerCycle? && Edit(op, a, n).Success? && SameMedia(a, b)
    ensures CdromOf(Edit(op, a, n).value.spec) == CdromOf(a)
    ensures if IsMedia(op) then
              Edit(op, b, n).Success? && SameMedia(Edit(op, a, n).value.spec, Edit(op, b, n).value.spec)
            else
              SameMedia(Edit(op, a, n).value.spec, b)
  {
    EditMedia(op, a, n);
    if IsMedia(op) {
      EditMedia(op, b, n);
    }
  }

  lemma {:induction false} MediaProjection(a: VMSpec, b: VMSpec, ops: seq<Op>, n: string)
    requires SameMedia(a, b) && Replay(a, ops, n).Some?
    ensures Replay(b, Only(ops, IsMedia), n).Some?
    ensures SameMedia(Replay(a, ops, n).value, Replay(b, Only(ops, IsMedia), n).value)
    ensures CdromOf(Replay(a, ops, n).value) == CdromOf(a)
    decreases |ops|
  {
    if ops != [] {
      if ops[0].PowerCycle? {
        assert Only(ops, IsMedia) == Only(ops[1..], IsMedia);
        MediaProjection(a, b, ops[1..], n);
      } else {
        EditOnMedia(ops[0], a, b, n);
        var a' := Edit(ops[0], a, n).value.spec;
        if IsMedia(ops[0]) {
          assert Only(ops, IsMedia)[1..] == Only(ops[1..], IsMedia);
          MediaProjection(a', Edit(ops[0], b, n).value.spec, ops[1..], n);
        } else {
          assert Only(ops, IsMedia) == Only(ops[1..], IsMedia);
          MediaProjection(a', b, ops[1..], n);
        }
      }
    }
  }

  lemma EditKeepsShape(op: Op, a: VMSpec, n: string)
    requires !op.PowerCycle? && Edit(op, a, n).Success?
    ensures SameShape(Edit(op, a, n).value.spec, a)
    ensures !op.SetBootDevice? ==> SameBoot(Edit(op, a, n).value.spec, a)
  {
    if op.SetBootDevice? {
      SetBootEffect(a.template.value, op.device);
    }
  }

  /** From specs with the same devices, a run leaves the boot orders of its last boot
      operation; with no boot operation it leaves them alone. */
  lemma {:induction false} BootProjection(a: VMSpec, b: VMSpec, ops: seq<Op>, n: string)
    requires SameShape(a, b) && Replay(a, ops, n).Some?
    ensures Replay(b, LastOf(ops, IsBoot), n).Some?
    ensures SameShape(Replay(a, ops, n).value, b)
    ensures LastOf(ops, IsBoot) == [] ==> SameBoot(Replay(a, ops, n).value, a)
    ensures LastOf(ops, IsBoot) != [] ==> SameBoot(Replay(a, ops, n).value, Replay(b, LastOf(ops, IsBoot), n).value)
    decreases |ops|
  {
    if ops != [] {
      var a' := if ops[0].PowerCycle? then a else Edit(ops[0], a, n).value.spec;
      if !ops[0].PowerCycle? {
        EditKeepsShape(ops[0], a, n);
      }
      BootProjection(a', b, ops[1..], n);
      if ops[0].SetBootDevice? && LastOf(ops[1..], IsBoot) == [] {
        LastBootWins(a.template.value, b.template.value, ops[0].device);
        assert LastOf(ops, IsBoot)[1..] == [];
      }
    }
  }

  lemma {:induction false} PowerFieldsApart(spec: VMSpec, ops: seq<Op>, n: string)
    requires Replay(spec, ops, n).Some?
    ensures var end := Replay(spec, ops, n).value;
            && end.runStrategy.Some? == spec.runStrategy.Some?
            && (end.running.Some? && end.runStrategy.Some? <==> spec.running.Some? && spec.runStrategy.Some?)
    decreases |ops|
  {
    if ops != [] {
      PowerFieldsApart(if ops[0].PowerCycle? then spec else Edit(ops[0], spec, n).value.spec, ops[1..], n);
    }
  }

  /** The last power operation wins.  It speaks through `running` unless the virtual machine
      has a run strategy, and then through that alone. */
  lemma {:induction false} LastPowerWins(spec: VMSpec, ops: seq<Op>, n: string)
    requires Replay(spec, ops, n).Some?
    ensures var end, p := Replay(spec, ops, n).value, LastOf(ops, IsPower);
            && (p == [] ==> SamePower(end, spec))
            && (p != [] && spec.runStrategy.None? ==> end.running == Some(p[0].PowerOn?) && end.runStrategy.None?)
            && (p != [] && spec.runStrategy.Some? ==>
                  && end.running == spec.running
                  && end.runStrategy == Some(if p[0].PowerOn? then "RerunOnFailure" else "Halted"))
    decreases |ops|
  {
    if ops != [] {
      LastPowerWins(if ops[0].PowerCycle? then spec else Edit(ops[0], spec, n).value.spec, ops[1..], n);
    }
  }

  /** Each part of the spec after a serial run is that of its own operations alone. */
  lemma TraceProjection(spec: VMSpec, ops: seq<Op>, n: string)
    requires Replay(spec, ops, n).Some?
    ensures var end := Replay(spec, ops, n).value;
            && Replay(spec, Only(ops, IsPower), n).Some? && SamePower(end, Replay(spec, Only(ops, IsPower), n).value)
            && Replay(spec, Only(ops, IsMedia), n).Some? && SameMedia(end, Replay(spec, Only(ops, IsMedia), n).value)
            && Replay(spec, LastOf(ops, IsBoot), n).Some? && SameBoot(end, Replay(spec, LastOf(ops, IsBoot), n).value)
            && CdromOf(end) == CdromOf(spec)
            && (end.running.Some? && end.runStrategy.Some? <==> spec.running.Some? && spec.runStrategy.Some?)
  {
    PowerProjection(spec, spec, ops, n);
    MediaProjection(spec, spec, ops, n);
    BootProjection(spec, spec, ops, n);
    PowerFieldsApart(spec, ops, n);
  }

  /** The projections hold of every interleaving, through the serial order of its updates. */
  lemma InterleavedProjection(s: System, events: seq<Event>)
    requires AllSnapshots(s)
    ensures var spec, n := s.world.cluster.spec, s.world.cluster.name;
            var end, ops := Execute(s, events).world.cluster.spec, Commits(s, events);
            && Replay(spec, Only(ops, IsPower), n).Some? && SamePower(end, Replay(spec, Only(ops, IsPower), n).value)
            && Replay(spec, Only(ops, IsMedia), n).Some? && SameMedia(end, Replay(spec, Only(ops, IsMedia), n).value)
            && Replay(spec, LastOf(ops, IsBoot), n).Some? && SameBoot(end, Replay(spec, LastOf(ops, IsBoot), n).value)
            && CdromOf(end) == CdromOf(spec)
  {
    Serializable(s, events);
    TraceProjection(s.world.cluster.spec, Commits(s, events), s.world.cluster.name);
  }
}
