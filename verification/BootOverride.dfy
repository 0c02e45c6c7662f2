/** The cached boot override against the boot orders, over calls made one at a time with any
    outcomes. */
module BootOverride {
  import opened Basics
  import opened VirtualMachines
  import opened Operations
  import opened MediaViewChain
  import opened BootAndPower

  // ---------- What is held and what is shown ----------

  /** Whether a machine has a template, and devices of the two classes. */
  datatype Machine = Machine(template: bool, interfaces: bool, disks: bool)

  function MachineOf(w: World): Machine {
    var t := w.cluster.spec.template;
    Machine(t.Some?, t.Some? && OrEmpty(t.value.interfaces) != [], t.Some? && OrEmpty(t.value.disks) != [])
  }

  predicate Bootable(m: Machine, device: string) {
    m.template && (device == "Pxe" ==> m.interfaces) && (device == "Hdd" ==> m.disks)
  }

  /** The target whose boot orders the spec holds, and the one that the view shows in force. */
  datatype Boot = Boot(held: Option<string>, shown: Option<string>)

  predicate Right(b: Boot) {
    b.shown.None? || b.shown == b.held
  }

  /** What a call does to the two, from the outcomes of its API calls alone. */
  function BootAfter(b: Boot, m: Machine, r: Request): Boot {
    if !r.op.SetBootDevice? || !Bootable(m, r.op.device) then b
    else if !Nth(r.script, 0).Served? || Nth(r.script, 1).Refused? then b
    else
      var target := Some(BootTarget(r.op.device));
      if Nth(r.script, 1).Lost? then b.(held := target) else Boot(target, target)
  }

  function BootOver(b: Boot, m: Machine, requests: seq<Request>): Boot
    decreases |requests|
  {
    if requests == [] then b else BootOver(BootAfter(b, m, requests[0]), m, requests[1..])
  }

  predicate InForce(w: World) {
    w.view.system.Some? && w.view.system.value.enabled == "Continuous"
  }

  predicate IsTarget(t: string) {
    t == "Pxe" || t == "Hdd" || t == ""
  }

  predicate Shows(w: World, b: Boot) {
    && w.view.system.Some?
    && (b.held.Some? ==>
          && IsTarget(b.held.value) && w.cluster.spec.template.Some?
          && BootOrders(w.cluster.spec.template.value, b.held.value))
    && (InForce(w) <==> b.shown.Some?)
    && (b.shown.Some? ==>
          b.held.Some? && IsTarget(b.shown.value) && w.view.system.value.target == b.shown.value)
  }

  /** A template holds the boot orders of one target only. */
  lemma OneTarget(t: Template, a: string, b: string)
    requires IsTarget(a) && IsTarget(b) && BootOrders(t, a) && BootOrders(t, b)
    ensures a == b
  {
    assert OrEmpty(t.interfaces) != [] ==> OrEmpty(t.interfaces)[0].bootOrder == OrderOf(a, "Pxe", 0);
    assert OrEmpty(t.disks) != [] ==> OrEmpty(t.disks)[0].bootOrder == OrderOf(a, "Hdd", 0);
  }

  lemma RightMeansAgrees(w: World, b: Boot)
    requires Shows(w, b)
    ensures OverrideAgrees(w) <==> Right(b)
  {
    if b.shown.Some? && OverrideAgrees(w) {
      OneTarget(w.cluster.spec.template.value, b.held.value, b.shown.value);
    }
  }

  // ---------- One call ----------

  lemma BootInCases(w: World, device: string, script: seq<Outcome>)
    ensures var w' := Call(w, SetBootDevice(device), script).world;
            if !Bootable(MachineOf(w), device) || !Nth(script, 0).Served? || Nth(script, 1).Refused? then w' == w
            else
              && w'.cluster.spec.template.Some?
              && BootOrders(w'.cluster.spec.template.value, BootTarget(device))
              && MachineOf(w') == MachineOf(w)
              && w'.view == (if Nth(script, 1).Lost? then w.view else Refresh(w.view, SetBootDevice(device)))
  {
    var op := SetBootDevice(device);
    FinishHop(Run(w, Ready(op), script));
    NthOfTail(script);
    if w.cluster.spec.template.Some? {
      SetBootEffect(w.cluster.spec.template.value, device);
      if Bootable(MachineOf(w), device) && Nth(script, 0).Served? {
        BootUpdates(w, device, Tail(script));
      }
    }
  }

  /** The update of a boot call, on the spec that was read. */
  lemma BootUpdates(w: World, device: string, script: seq<Outcome>)
    requires Bootable(MachineOf(w), device)
    ensures var op := SetBootDevice(device);
            && Edit(op, w.cluster.spec, w.cluster.name).Success?
            && var e := Edit(op, w.cluster.spec, w.cluster.name).value;
               var w' := Finish(Run(w, Updating(op, e, w.cluster.version), script)).world;
               if Head(script).Refused? then w' == w
               else
                 && w'.cluster.spec.template.Some?
                 && BootOrders(w'.cluster.spec.template.value, BootTarget(device))
                 && MachineOf(w') == MachineOf(w)
                 && w'.view == (if Head(script).Lost? then w.view else Refresh(w.view, op))
  {
    var op, t := SetBootDevice(device), w.cluster.spec.template.value;
    SetBootEffect(t, device);
    UpdateThenView(w, op, Edit(op, w.cluster.spec, w.cluster.name).value, w.cluster.version, script);
    SameLengths(SetBoot(t, device).value, t);
  }

  lemma SameLengths(a: Template, b: Template)
    requires SameDevices(a, b)
    ensures |OrEmpty(a.interfaces)| == |OrEmpty(b.interfaces)| && |OrEmpty(a.disks)| == |OrEmpty(b.disks)|
  {
    assert |ClearInterfaces(OrEmpty(a.interfaces))| == |ClearInterfaces(OrEmpty(b.interfaces))|;
    assert |ClearDisks(OrEmpty(a.disks))| == |ClearDisks(OrEmpty(b.disks))|;
  }

  /** Power and media calls leave devices and the boot view alone. */
  lemma OthersOnBoot(w: World, op: Op, script: seq<Outcome>)
    requires !op.SetBootDevice?
    ensures var w' := Call(w, op, script).world;
            SameBoot(w'.cluster.spec, w.cluster.spec) && w'.view.system == w.view.system
  {
    if op.InsertMedia? {
      InsertInCases(w, op.url, op.size, script);
    } else if op.EjectMedia? {
      EjectInCases(w, script);
    } else {
      var r0 := Run(w, Ready(op), script);
      FinishHop(r0);
      FinishHop(Hop(r0));
    }
  }

  lemma CallOnBoot(w: World, b: Boot, op: Op, script: seq<Outcome>)
    requires Shows(w, b)
    ensures var w' := Call(w, op, script).world;
            Shows(w', BootAfter(b, MachineOf(w), Request(op, script))) && MachineOf(w') == MachineOf(w)
  {
    if op.SetBootDevice? {
      BootInCases(w, op.device, script);
    } else {
      OthersOnBoot(w, op, script);
    }
  }

  // ---------- Runs ----------

  lemma {:induction false} BootOverRuns(w: World, b: Boot, requests: seq<Request>)
    requires Shows(w, b)
    ensures Shows(Serve(w, requests), BootOver(b, MachineOf(w), requests))
    ensures OverrideAgrees(Serve(w, requests)) <==> Right(BootOver(b, MachineOf(w), requests))
    decreases |requests|
  {
    if requests == [] {
      RightMeansAgrees(w, b);
    } else {
      CallOnBoot(w, b, requests[0].op, requests[0].script);
      BootOverRuns(Call(w, requests[0].op, requests[0].script).world,
                   BootAfter(b, MachineOf(w), requests[0]), requests[1..]);
    }
  }

  /** Over every run of calls from a fresh view, whatever is refused or lost, the cached override
      is right exactly if the automaton over outcomes says so. */
  lemma OverrideExactly(w: World, requests: seq<Request>)
    requires w.view.system == Some(INITIAL_BOOT)
    ensures OverrideAgrees(Serve(w, requests)) <==> Right(BootOver(Boot(None, None), MachineOf(w), requests))
  {
    BootOverRuns(w, Boot(None, None), requests);
  }

  /** An override in force, and a call for another target whose update takes effect without
      its caller being told. */
  predicate BreaksOverride(w: World, op: Op, script: seq<Outcome>) {
    && op.SetBootDevice? && InForce(w) && Bootable(MachineOf(w), op.device)
    && BootTarget(op.device) != w.view.system.value.target
    && Nth(script, 0).Served? && Nth(script, 1).Lost?
  }

  /** From a right override, a call ends with a wrong one exactly if it breaks it. */
  lemma CallBreaksOverrideExactly(w: World, op: Op, script: seq<Outcome>)
    requires w.view.system.Some? && IsTarget(w.view.system.value.target) && OverrideAgrees(w)
    ensures !OverrideAgrees(Call(w, op, script).world) <==> BreaksOverride(w, op, script)
  {
    var target := if InForce(w) then Some(w.view.system.value.target) else None;
    var b := Boot(target, target);
    CallOnBoot(w, b, op, script);
    RightMeansAgrees(Call(w, op, script).world, BootAfter(b, MachineOf(w), Request(op, script)));
  }

  /** From every fresh view of a machine with both classes of devices: after one call that
      succeeds, a second whose update loses its reply leaves the wrong override in force. */
  lemma LostReplyBreaksOverride(w: World)
    requires w.view.system == Some(INITIAL_BOOT) && MachineOf(w) == Machine(true, true, true)
    ensures var t := Serve(w, [Request(SetBootDevice("Pxe"), []), Request(SetBootDevice("Hdd"), [Served, Lost])]);
            && !OverrideAgrees(t) && InForce(t) && t.view.system.value.target == "Pxe"
            && t.cluster.spec.template.Some? && BootOrders(t.cluster.spec.template.value, "Hdd")
  {
    var first, second := Request(SetBootDevice("Pxe"), []), Request(SetBootDevice("Hdd"), [Served, Lost]);
    var b, m := Boot(None, None), MachineOf(w);
    BootOverRuns(w, b, [first, second]);
    assert [first, second][1..] == [second] && [second][1..] == [];
    var b1 := BootAfter(b, m, first);
    assert b1 == Boot(Some("Pxe"), Some("Pxe"));
    assert BootOver(b1, m, [second]) == BootOver(BootAfter(b1, m, second), m, []);
  }
}
