/** The two protocol front ends over one resource manager, and the translation of IPMI
    commands into Redfish actions. */
module FrontEnds {
  import opened Basics
  import opened VirtualMachines
  import opened Operations
  import opened Manager
  import BootAndPower
  import BootOverride

  type byte = x: int | 0 <= x < 256

  /** Chassis Control (section 28.3 of IPMI v2.0) and Set System Boot Options (section 28.12). */
  datatype Command =
    | ChassisControl(control: byte)
    | SetSystemBootOptions(param: byte, data: seq<byte>)

  const CONTROL_POWER_DOWN: byte := 0
  const CONTROL_POWER_UP: byte := 1
  const CONTROL_POWER_CYCLE: byte := 2
  const CONTROL_HARD_RESET: byte := 3
  const CONTROL_PULSE_DIAG: byte := 4
  const CONTROL_ACPI_SOFT: byte := 5
  const BOOT_FLAGS: byte := 5
  const BOOT_PXE: byte := 4
  const BOOT_DISK: byte := 8

  datatype CompletionCode = CommandCompleted | ErrInvalidState | ErrUnspecified

  /** The handler reads the second data byte of the boot flags. */
  predicate Decodable(c: Command) {
    c.SetSystemBootOptions? && c.param == BOOT_FLAGS ==> |c.data| >= 2
  }

  datatype Action =
    | Patch(enabled: string, target: string)
    | Reset(resetType: string)
    | SetDefaultBootOrder(devices: seq<string>)
    | VirtualMediaInsert(url: string, size: Option<nat>)
    | VirtualMediaEject

  /** What a front end asks of the manager: nothing, nothing but an error, or one operation. */
  datatype Invocation = Nothing | Rejected | Invoke(op: Op)

  datatype Reply = Reply(world: World, ok: bool, script: seq<Outcome>)

  function Perform(w: World, i: Invocation, script: seq<Outcome>): Reply {
    match i
    case Nothing => Reply(w, true, script)
    case Rejected => Reply(w, false, script)
    case Invoke(op) =>
      var r := Call(w, op, script);
      Reply(r.world, r.local.error.None?, r.script)
  }

  function CommandInvocation(c: Command): Invocation
    requires Decodable(c)
  {
    match c
    case ChassisControl(k) =>
      if k == CONTROL_POWER_DOWN || k == CONTROL_ACPI_SOFT then Invoke(PowerOff)
      else if k == CONTROL_POWER_UP then Invoke(PowerOn)
      else if k == CONTROL_POWER_CYCLE || k == CONTROL_HARD_RESET then Invoke(PowerCycle)
      else Nothing
    case SetSystemBootOptions(param, data) =>
      if param != BOOT_FLAGS then Nothing
      else if data[1] == BOOT_PXE then Invoke(SetBootDevice("Pxe"))
      else if data[1] == BOOT_DISK then Invoke(SetBootDevice("Hdd"))
      else Invoke(SetBootDevice(""))
  }

  function ActionInvocation(a: Action): Invocation {
    match a
    case Patch(enabled, target) =>
      if enabled != "Disabled" && (target == "Pxe" || target == "Hdd") then Invoke(SetBootDevice(target)) else Nothing
    case Reset(t) =>
      if t == "On" then Invoke(PowerOn)
      else if t == "GracefulShutdown" || t == "ForceOff" then Invoke(PowerOff)
      else if t == "GracefulRestart" || t == "ForceRestart" then Invoke(PowerCycle)
      else Rejected
    case SetDefaultBootOrder(devices) => Invoke(SetBootDevice(if |devices| > 0 then devices[0] else ""))
    case VirtualMediaInsert(url, size) => Invoke(InsertMedia(url, size))
    case VirtualMediaEject => Invoke(EjectMedia)
  }

  class IpmiHandler {
    const rm: VirtualMachineResourceManager

    constructor (rm: VirtualMachineResourceManager)
      ensures this.rm == rm
    {
      this.rm := rm;
    }

    method HandleChassisControl(control: byte) returns (code: CompletionCode)
      modifies rm.server, rm.computerSystem, rm.virtualMedia
      ensures Reply(rm.State(), code.CommandCompleted?, rm.server.script)
           == Perform(old(rm.State()), CommandInvocation(ChassisControl(control)), old(rm.server.script))
      ensures code == CommandCompleted || code == ErrInvalidState
    {
      var err := None;
      if control == CONTROL_POWER_DOWN || control == CONTROL_ACPI_SOFT {
        err := rm.PowerOff();
      } else if control == CONTROL_POWER_UP {
        err := rm.PowerOn();
      } else if control == CONTROL_POWER_CYCLE || control == CONTROL_HARD_RESET {
        err := rm.PowerCycle();
      }
      return if err.Some? then ErrInvalidState else CommandCompleted;
    }

    method HandleSetSystemBootOptions(param: byte, data: seq<byte>) returns (code: CompletionCode)
      requires Decodable(SetSystemBootOptions(param, data))
      modifies rm.server, rm.computerSystem, rm.virtualMedia
      ensures Reply(rm.State(), code.CommandCompleted?, rm.server.script)
           == Perform(old(rm.State()), CommandInvocation(SetSystemBootOptions(param, data)), old(rm.server.script))
      ensures code == CommandCompleted || code == ErrUnspecified
    {
      if param != BOOT_FLAGS {
        return CommandCompleted;
      }
      var device := "";
      if data[1] == BOOT_PXE {
        device := "Pxe";
      } else if data[1] == BOOT_DISK {
        device := "Hdd";
      }
      var err := rm.SetBootDevice(device);
      return if err.Some? then ErrUnspecified else CommandCompleted;
    }
  }

  class RedfishHandler {
    const rm: VirtualMachineResourceManager

    constructor (rm: VirtualMachineResourceManager)
      ensures this.rm == rm
    {
      this.rm := rm;
    }

    method PatchComputerSystem(enabled: string, target: string) returns (ok: bool)
      modifies rm.server, rm.computerSystem, rm.virtualMedia
      ensures Reply(rm.State(), ok, rm.server.script)
           == Perform(old(rm.State()), ActionInvocation(Patch(enabled, target)), old(rm.server.script))
    {
      if enabled != "Disabled" {
        var bootDevice;
        if target == "Pxe" {
          bootDevice := "Pxe";
        } else if target == "Hdd" {
          bootDevice := "Hdd";
        } else {
          return true;
        }
        var err := rm.SetBootDevice(bootDevice);
        return err.None?;
      }
      return true;
    }

    method ComputerSystemReset(resetType: string) returns (ok: bool)
      modifies rm.server, rm.computerSystem, rm.virtualMedia
      ensures Reply(rm.State(), ok, rm.server.script)
           == Perform(old(rm.State()), ActionInvocation(Reset(resetType)), old(rm.server.script))
    {
      var err;
      if resetType == "On" {
        err := rm.PowerOn();
      } else if resetType == "GracefulShutdown" || resetType == "ForceOff" {
        err := rm.PowerOff();
      } else if resetType == "GracefulRestart" || resetType == "ForceRestart" {
        err := rm.PowerCycle();
      } else {
        return false;
      }
      return err.None?;
    }

    method ComputerSystemSetDefaultBootOrder(devices: seq<string>) returns (ok: bool)
      modifies rm.server, rm.computerSystem, rm.virtualMedia
      ensures Reply(rm.State(), ok, rm.server.script)
           == Perform(old(rm.State()), ActionInvocation(SetDefaultBootOrder(devices)), old(rm.server.script))
    {
      var bootDevice := "";
      if |devices| > 0 {
        bootDevice := devices[0];
      }
      var err := rm.SetBootDevice(bootDevice);
      return err.None?;
    }

    method VirtualMediaInsert(url: string, size: Option<nat>) returns (ok: bool)
      modifies rm.server, rm.computerSystem, rm.virtualMedia
      ensures Reply(rm.State(), ok, rm.server.script)
           == Perform(old(rm.State()), ActionInvocation(Action.VirtualMediaInsert(url, size)), old(rm.server.script))
    {
      var err := rm.InsertMedia(url, size);
      return err.None?;
    }

    method VirtualMediaEject() returns (ok: bool)
      modifies rm.server, rm.computerSystem, rm.virtualMedia
      ensures Reply(rm.State(), ok, rm.server.script)
           == Perform(old(rm.State()), ActionInvocation(Action.VirtualMediaEject), old(rm.server.script))
    {
      var err := rm.EjectMedia();
      return err.None?;
    }
  }

  // ---------- The translation ----------

  /** The Redfish actions that stand for an IPMI command: none, or one. */
  function Translate(c: Command): (actions: seq<Action>)
    requires Decodable(c)
    ensures |actions| <= 1
    ensures forall a :: a in actions ==>
              !a.VirtualMediaInsert? && !a.VirtualMediaEject? && ActionInvocation(a) != Rejected
  {
    match c
    case ChassisControl(k) =>
      if k == CONTROL_POWER_DOWN then [Reset("ForceOff")]
      else if k == CONTROL_POWER_UP then [Reset("On")]
      else if k == CONTROL_POWER_CYCLE || k == CONTROL_HARD_RESET then [Reset("ForceRestart")]
      else if k == CONTROL_ACPI_SOFT then [Reset("GracefulShutdown")]
      else []
    case SetSystemBootOptions(param, data) =>
      if param != BOOT_FLAGS then []
      else if data[1] == BOOT_PXE then [Patch("Continuous", "Pxe")]
      else if data[1] == BOOT_DISK then [Patch("Continuous", "Hdd")]
      else [SetDefaultBootOrder([])]
  }

  function DoCommand(w: World, c: Command, script: seq<Outcome>): Reply
    requires Decodable(c)
  {
    Perform(w, CommandInvocation(c), script)
  }

  function DoAction(w: World, a: Action, script: seq<Outcome>): Reply {
    Perform(w, ActionInvocation(a), script)
  }

  /** Actions in order, up to the first that fails. */
  function DoActions(w: World, actions: seq<Action>, script: seq<Outcome>): Reply
    decreases |actions|
  {
    if actions == [] then Reply(w, true, script)
    else
      var r := DoAction(w, actions[0], script);
      if r.ok then DoActions(r.world, actions[1..], r.script) else r
  }

  /** The manager state and the success after each command. */
  function IpmiSession(w: World, cs: seq<Command>, script: seq<Outcome>): seq<(World, bool)>
    requires forall i :: 0 <= i < |cs| ==> Decodable(cs[i])
    decreases |cs|
  {
    if cs == [] then []
    else
      var r := DoCommand(w, cs[0], script);
      [(r.world, r.ok)] + IpmiSession(r.world, cs[1..], r.script)
  }

  /** The same for a session of Redfish action lists, one list for each step. */
  function RedfishSession(w: World, steps: seq<seq<Action>>, script: seq<Outcome>): seq<(World, bool)>
    decreases |steps|
  {
    if steps == [] then []
    else
      var r := DoActions(w, steps[0], script);
      [(r.world, r.ok)] + RedfishSession(r.world, steps[1..], r.script)
  }

  function TranslateAll(cs: seq<Command>): seq<seq<Action>>
    requires forall i :: 0 <= i < |cs| ==> Decodable(cs[i])
  {
    seq(|cs|, i requires 0 <= i < |cs| => Translate(cs[i]))
  }

  // ---------- What each command and action does ----------

  /** The reply to a front end that makes one call and passes its result on. */
  function Answer(r: Run): Reply
    requires r.local.Finished?
  {
    Reply(r.world, r.local.error.None?, r.script)
  }

  /** Chassis Control: 0 and 5 power off, 1 powers on, 2 and 3 power cycle; the rest do nothing. */
  lemma ControlBytes(w: World, control: byte, script: seq<Outcome>)
    ensures DoCommand(w, ChassisControl(control), script) ==
              if control == 0 || control == 5 then Answer(Call(w, PowerOff, script))
              else if control == 1 then Answer(Call(w, PowerOn, script))
              else if control == 2 || control == 3 then Answer(Call(w, PowerCycle, script))
              else Reply(w, true, script)
  {
  }

  /** Set System Boot Options: only parameter 5 counts, and its second byte; 4 is Pxe, 8 is Hdd. */
  lemma BootFlags(w: World, param: byte, data: seq<byte>, script: seq<Outcome>)
    requires param == 5 ==> |data| >= 2
    ensures DoCommand(w, SetSystemBootOptions(param, data), script) ==
              if param != 5 then Reply(w, true, script)
              else if data[1] == 4 then Answer(Call(w, SetBootDevice("Pxe"), script))
              else if data[1] == 8 then Answer(Call(w, SetBootDevice("Hdd"), script))
              else Answer(Call(w, SetBootDevice(""), script))
  {
  }

  /** The five reset types that are supported; the others fail without a call. */
  lemma ResetTypes(w: World, t: string, script: seq<Outcome>)
    ensures DoAction(w, Reset(t), script) ==
              match t
              case "On" => Answer(Call(w, PowerOn, script))
              case "GracefulShutdown" => Answer(Call(w, PowerOff, script))
              case "ForceOff" => Answer(Call(w, PowerOff, script))
              case "GracefulRestart" => Answer(Call(w, PowerCycle, script))
              case "ForceRestart" => Answer(Call(w, PowerCycle, script))
              case _ => Reply(w, false, script)
  {
  }

  /** A patch sets the boot device unless it disables the override or names no class. */
  lemma Patches(w: World, enabled: string, target: string, script: seq<Outcome>)
    ensures DoAction(w, Patch(enabled, target), script) ==
              if enabled != "Disabled" && target == "Pxe" then Answer(Call(w, SetBootDevice("Pxe"), script))
              else if enabled != "Disabled" && target == "Hdd" then Answer(Call(w, SetBootDevice("Hdd"), script))
              else Reply(w, true, script)
  {
  }

  /** The media actions, and the boot order, of which only the first device counts. */
  lemma OtherActions(w: World, url: string, size: Option<nat>, devices: seq<string>, script: seq<Outcome>)
    ensures DoAction(w, VirtualMediaInsert(url, size), script) == Answer(Call(w, InsertMedia(url, size), script))
    ensures DoAction(w, VirtualMediaEject, script) == Answer(Call(w, EjectMedia, script))
    ensures DoAction(w, SetDefaultBootOrder(devices), script) ==
              Answer(Call(w, SetBootDevice(if devices == [] then "" else devices[0]), script))
  {
  }

  // ---------- The translation keeps the meaning ----------

  /** The heart of the translation: the same request to the manager. */
  lemma TranslationInvokes(c: Command)
    requires Decodable(c)
    ensures if Translate(c) == [] then CommandInvocation(c) == Nothing
            else ActionInvocation(Translate(c)[0]) == CommandInvocation(c)
  {
  }

  lemma TranslationStep(w: World, c: Command, script: seq<Outcome>)
    requires Decodable(c)
    ensures DoActions(w, Translate(c), script) == DoCommand(w, c, script)
  {
    TranslationInvokes(c);
    var actions := Translate(c);
    if actions != [] {
      var r := DoAction(w, actions[0], script);
      assert actions[1..] == [];
      assert DoActions(w, actions, script) == (if r.ok then DoActions(r.world, [], r.script) else r);
    }
  }

  /** Any IPMI session and its translation go through the same manager states with the same
      successes and failures, whatever becomes of the API calls. */
  lemma {:induction false} Simulation(w: World, cs: seq<Command>, script: seq<Outcome>)
    requires forall i :: 0 <= i < |cs| ==> Decodable(cs[i])
    ensures IpmiSession(w, cs, script) == RedfishSession(w, TranslateAll(cs), script)
    decreases |cs|
  {
    if cs != [] {
      var r := DoCommand(w, cs[0], script);
      TranslationStep(w, cs[0], script);
      assert TranslateAll(cs)[0] == Translate(cs[0]);
      assert TranslateAll(cs)[1..] == TranslateAll(cs[1..]);
      Simulation(r.world, cs[1..], r.script);
    }
  }

  // ---------- How far the translation goes back ----------

  function Untranslate(a: Action): (c: Option<Command>)
    ensures c.Some? ==> Decodable(c.value)
  {
    match ActionInvocation(a)
    case Nothing => Some(ChassisControl(CONTROL_PULSE_DIAG))
    case Rejected => None
    case Invoke(op) =>
      match op
      case PowerOn => Some(ChassisControl(CONTROL_POWER_UP))
      case PowerOff => Some(ChassisControl(CONTROL_POWER_DOWN))
      case PowerCycle => Some(ChassisControl(CONTROL_POWER_CYCLE))
      case SetBootDevice(d) =>
        var flag := if d == "Pxe" then BOOT_PXE else if d == "Hdd" then BOOT_DISK else 0;
        Some(SetSystemBootOptions(BOOT_FLAGS, [0, flag]))
      case _ => None
  }

  ghost predicate SameEffect(c: Command, a: Action)
    requires Decodable(c)
  {
    forall w, script :: DoCommand(w, c, script) == DoAction(w, a, script)
  }

  /** A device that is neither Pxe nor Hdd is as good as none. */
  lemma OtherDevicesAlike(w: World, d: string, script: seq<Outcome>)
    requires d != "Pxe" && d != "Hdd"
    ensures Perform(w, Invoke(SetBootDevice(d)), script) == Perform(w, Invoke(SetBootDevice("")), script)
  {
    CallInFive(w, SetBootDevice(d), script);
    CallInFive(w, SetBootDevice(""), script);
    var r1, q1 := Hop(Run(w, Ready(SetBootDevice(d)), script)), Hop(Run(w, Ready(SetBootDevice("")), script));
    if !r1.local.Finished? {
      var r2, q2 := Hop(r1), Hop(q1);
    }
  }

  /** A world in which every IPMI command succeeds and no media action can. */
  const AMPLE := World(
    Cluster("vm",
            VMSpec(None, None, Some(Template(Some([Interface("net", None)]), Some([Disk("disk", false, None)]), []))),
            0, map[], true),
    View(None, None))

  lemma CommandsSucceed(c: Command)
    requires Decodable(c)
    ensures DoCommand(AMPLE, c, []).ok
  {
    var i := CommandInvocation(c);
    if i.Invoke? {
      CallInFive(AMPLE, i.op, []);
      var r1 := Hop(Run(AMPLE, Ready(i.op), []));
      assert AMPLE.cluster.spec.template.value.interfaces.value != [];
      assert AMPLE.cluster.spec.template.value.disks.value != [];
      if !r1.local.Finished? {
        var r2 := Hop(r1);
      }
    }
  }

  lemma UntranslateInvokes(a: Action, w: World, script: seq<Outcome>)
    requires Untranslate(a).Some?
    ensures DoCommand(w, Untranslate(a).value, script) == DoAction(w, a, script)
  {
    var i := ActionInvocation(a);
    if i.Invoke? && i.op.SetBootDevice? && i.op.device != "Pxe" && i.op.device != "Hdd" {
      OtherDevicesAlike(w, i.op.device, script);
    } else {
      assert CommandInvocation(Untranslate(a).value) == i;
    }
  }

  lemma OthersFail(a: Action)
    requires Untranslate(a).None?
    ensures !DoAction(AMPLE, a, []).ok
  {
    var i := ActionInvocation(a);
    if i.Invoke? {
      CallInFive(AMPLE, i.op, []);
    }
  }

  /** A Redfish action has an IPMI command of the same effect in every world exactly if it is
      neither a media action nor a reset of an unsupported type. */
  lemma Expressible(a: Action)
    ensures (exists c :: Decodable(c) && SameEffect(c, a)) <==>
            !a.VirtualMediaInsert? && !a.VirtualMediaEject? && ActionInvocation(a) != Rejected
  {
    var u := Untranslate(a);
    if u.Some? {
      forall w, script ensures DoCommand(w, u.value, script) == DoAction(w, a, script) {
        UntranslateInvokes(a, w, script);
      }
      assert SameEffect(u.value, a);
    } else {
      OthersFail(a);
      forall c | Decodable(c) ensures !SameEffect(c, a) {
        CommandsSucceed(c);
        assert DoCommand(AMPLE, c, []) != DoAction(AMPLE, a, []);
      }
    }
  }

  // ---------- SetDefaultBootOrder ----------

  /** Taking the default to be no boot order at all, a SetDefaultBootOrder that succeeds restores
      it exactly if it lists no device, or first one that is neither Pxe nor Hdd. */
  lemma DefaultOrderExactly(w: World, devices: seq<string>, script: seq<Outcome>)
    requires DoAction(w, SetDefaultBootOrder(devices), script).ok
    ensures var t := DoAction(w, SetDefaultBootOrder(devices), script).world.cluster.spec.template;
            && t.Some?
            && (BootAndPower.BootOrders(t.value, "") <==> devices == [] || BootTarget(devices[0]) == "")
  {
    var device := if |devices| > 0 then devices[0] else "";
    BootAndPower.BootCallEffect(w, device, script);
    var t := Call(w, SetBootDevice(device), script).world.cluster.spec.template.value;
    if BootAndPower.BootOrders(t, "") {
      BootOverride.OneTarget(t, BootTarget(device), "");
    }
  }

  /** An instance in which it succeeds and does not. */
  lemma DefaultOrderMisused()
    ensures var r := DoAction(AMPLE, SetDefaultBootOrder(["Pxe"]), []);
            && r.ok && r.world.cluster.spec.template.Some?
            && !BootAndPower.BootOrders(r.world.cluster.spec.template.value, "")
            && BootAndPower.BootOrders(r.world.cluster.spec.template.value, "Pxe")
  {
    BootAndPower.BootCallEffect(AMPLE, "Pxe", []);
    assert OrEmpty(AMPLE.cluster.spec.template.value.interfaces) != [];
    DefaultOrderExactly(AMPLE, ["Pxe"], []);
  }
}
