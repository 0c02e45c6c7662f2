/** The resource manager as a class over an API server, with its cached Redfish resources.
    Each method is proved equal to the small machine of its operation running alone. */
module Manager {
  import opened Basics
  import opened VirtualMachines
  import opened Operations

  /** The API server as one client sees it; `script` decides the outcome of each call. */
  class ApiServer {
    const name: string
    var spec: VMSpec
    var version: nat
    var dataVolumes: map<string, DataVolume>
    var instance: bool
    const ready: bool
    var script: seq<Outcome>

    function State(): Cluster
      reads this
    {
      Cluster(name, spec, version, dataVolumes, instance)
    }

    constructor (cluster: Cluster, ready: bool, script: seq<Outcome>)
      ensures State() == cluster && this.ready == ready && this.script == script
    {
      this.ready := ready;
      name := cluster.name;
      spec := cluster.spec;
      version := cluster.version;
      dataVolumes := cluster.dataVolumes;
      instance := cluster.instance;
      this.script := script;
    }

    method NextOutcome() returns (o: Outcome)
      modifies this`script
      ensures o == Head(old(script)) && script == Tail(old(script))
    {
      o := Head(script);
      script := Tail(script);
    }

    method GetVM() returns (vm: FetchedVM?)
      modifies this`script
      ensures script == Tail(old(script))
      ensures vm != null <==> Head(old(script)).Served?
      ensures vm != null ==> fresh(vm) && vm.Valid() && vm.Value() == spec && vm.version == version
      ensures vm != null ==> vm.hasTemplate == spec.template.Some? && vm.ready == ready
      ensures vm != null ==> fresh(vm.volumes)
      ensures vm != null && vm.interfaces != null ==> fresh(vm.interfaces)
      ensures vm != null && vm.disks != null ==> fresh(vm.disks)
    {
      var o := NextOutcome();
      if o.Served? {
        vm := new FetchedVM(spec, version, ready);
      } else {
        vm := null;
      }
    }

    method UpdateVM(vm: FetchedVM) returns (err: Option<Error>)
      requires vm.Valid()
      modifies this
      ensures script == Tail(old(script))
      ensures (State(), err) == Update(old(State()), old(vm.Value()), vm.version, Head(old(script)))
    {
      var o := NextOutcome();
      if o.Refused? {
        return Some(ApiError);
      }
      if vm.version != version {
        return Some(Conflict);
      }
      if vm.Value() != spec {
        spec := vm.Value();
        version := version + 1;
      }
      return if o.Lost? then Some(ApiError) else None;
    }

    method CreateDV(dvName: string, dv: DataVolume) returns (err: Option<Error>)
      modifies this
      ensures script == Tail(old(script))
      ensures (State(), err) == CreateDataVolume(old(State()), dvName, dv, Head(old(script)))
    {
      var o := NextOutcome();
      if o.Refused? {
        return Some(ApiError);
      }
      if dvName in dataVolumes {
        return Some(AlreadyExists);
      }
      dataVolumes := dataVolumes[dvName := dv];
      return if o.Lost? then Some(ApiError) else None;
    }

    method DeleteDV(dvName: string) returns (err: Option<Error>)
      modifies this
      ensures script == Tail(old(script))
      ensures (State(), err) == DeleteDataVolume(old(State()), dvName, Head(old(script)))
    {
      var o := NextOutcome();
      if o.Refused? {
        return Some(ApiError);
      }
      if dvName !in dataVolumes {
        return Some(NotFound);
      }
      dataVolumes := dataVolumes - {dvName};
      return if o.Lost? then Some(ApiError) else None;
    }

    method DeleteVMI() returns (err: Option<Error>)
      modifies this
      ensures script == Tail(old(script))
      ensures (State(), err) == DeleteInstance(old(State()), Head(old(script)))
    {
      var o := NextOutcome();
      if o.Refused? {
        return Some(ApiError);
      }
      if !instance {
        return Some(NotFound);
      }
      instance := false;
      return if o.Lost? then Some(ApiError) else None;
    }
  }

  function PowerStateOf(ready: bool): string {
    if ready then "On" else "Off"
  }

  /** The boot and power parts of the cached computer system. */
  class ComputerSystemAdapter {
    var boot: BootView
    var powerState: string

    constructor (powerState: string)
      ensures boot == BootView("Disabled", "Legacy", "Hdd") && this.powerState == powerState
    {
      boot := INITIAL_BOOT;
      this.powerState := powerState;
    }

    method SetPowerState(powerState: string)
      modifies this`powerState
      ensures this.powerState == powerState
    {
      this.powerState := powerState;
    }

    method SetBootOverride(target: string)
      modifies this`boot
      ensures boot == old(boot).(enabled := "Continuous", target := target)
    {
      boot := boot.(enabled := "Continuous");
      boot := boot.(target := target);
    }
  }

  class VirtualMediaAdapter {
    var media: MediaView

    constructor ()
      ensures media == MediaView("", false, "NotConnected")
    {
      media := INITIAL_MEDIA;
    }

    method SetVirtualMedia(imageURL: string, inserted: bool)
      modifies this
      ensures media == MediaView(imageURL, inserted, if inserted then "URI" else "NotConnected")
    {
      media := media.(image := imageURL, inserted := inserted);
      if inserted {
        media := media.(connectedVia := "URI");
      } else {
        media := media.(connectedVia := "NotConnected");
      }
    }
  }

  class VirtualMachineResourceManager {
    const server: ApiServer
    var computerSystem: ComputerSystemAdapter?
    var virtualMedia: VirtualMediaAdapter?

    function State(): World
      reads this, server, computerSystem, virtualMedia
    {
      World(server.State(),
            View(if computerSystem == null then None else Some(computerSystem.boot),
                 if virtualMedia == null then None else Some(virtualMedia.media)))
    }

    /** The state, the rest of the script and the result of a call are those of `r`. */
    predicate Reports(script: seq<Outcome>, err: Option<Error>, r: Run)
      requires r.local.Finished?
      reads this, server, computerSystem, virtualMedia
    {
      State() == r.world && script == r.script && err == r.local.error
    }

    constructor (server: ApiServer)
      ensures this.server == server && computerSystem == null && virtualMedia == null
    {
      this.server := server;
      computerSystem := null;
      virtualMedia := null;
    }

    /** Builds fresh views, whatever the virtual machine looks like. */
    method Initialize() returns (err: Option<Error>)
      modifies this, server`script
      ensures server.State() == old(server.State())
      ensures err.None? <==> Head(old(server.script)).Served?
      ensures err.None? ==> State() == World(old(server.State()), View(Some(INITIAL_BOOT), Some(INITIAL_MEDIA)))
      ensures err.None? ==> fresh(computerSystem) && fresh(virtualMedia)
      ensures err.None? ==> (computerSystem.powerState == "On" <==> server.ready)
      ensures err.None? ==> (computerSystem.powerState == "Off" <==> !server.ready)
      ensures err.Some? ==> computerSystem == old(computerSystem) && virtualMedia == old(virtualMedia)
    {
      var vm := server.GetVM();
      if vm == null {
        return Some(ApiError);
      }
      computerSystem := new ComputerSystemAdapter(PowerStateOf(vm.ready));
      virtualMedia := new VirtualMediaAdapter();
      return None;
    }

    /** The cached computer system, its power state brought up to date first. */
    method GetComputerSystem() returns (system: ComputerSystemAdapter?)
      modifies server`script, computerSystem
      ensures State() == old(State())
      ensures server.script == if computerSystem == null then old(server.script) else Tail(old(server.script))
      ensures system != null <==> computerSystem != null && Head(old(server.script)).Served?
      ensures system != null ==> system == computerSystem
      ensures system != null ==>
                (system.powerState == "On" <==> server.ready) && (system.powerState == "Off" <==> !server.ready)
      ensures system == null && computerSystem != null ==> computerSystem.powerState == old(computerSystem.powerState)
    {
      if computerSystem == null {
        return null;
      }
      var vm := server.GetVM();
      if vm == null {
        return null;
      }
      computerSystem.SetPowerState(PowerStateOf(vm.ready));
      return computerSystem;
    }

    /** Edits the fetched copy for PowerOn and PowerOff. */
    static method EditRunning(vm: FetchedVM, on: bool)
      requires vm.Valid()
      modifies vm`running, vm`runStrategy
      ensures vm.Valid() && vm.Value() == SetPower(old(vm.Value()), on)
    {
      if vm.runStrategy.None? {
        vm.running := Some(on);
      } else {
        vm.runStrategy := Some(if on then "RerunOnFailure" else "Halted");
      }
    }

    method PowerOn() returns (err: Option<Error>)
      modifies server
      ensures Reports(server.script, err, Call(old(State()), Op.PowerOn, old(server.script)))
    {
      FinishHop(Run(State(), Ready(Op.PowerOn), server.script));
      var vm := server.GetVM();
      if vm == null {
        return Some(ApiError);
      }
      EditRunning(vm, true);
      FinishHop(Run(State(), Updating(Op.PowerOn, Edited(vm.Value(), ""), vm.version), server.script));
      err := server.UpdateVM(vm);
    }

    method PowerOff() returns (err: Option<Error>)
      modifies server
      ensures Reports(server.script, err, Call(old(State()), Op.PowerOff, old(server.script)))
    {
      FinishHop(Run(State(), Ready(Op.PowerOff), server.script));
      var vm := server.GetVM();
      if vm == null {
        return Some(ApiError);
      }
      EditRunning(vm, false);
      FinishHop(Run(State(), Updating(Op.PowerOff, Edited(vm.Value(), ""), vm.version), server.script));
      err := server.UpdateVM(vm);
    }

    method PowerCycle() returns (err: Option<Error>)
      modifies server
      ensures Reports(server.script, err, Call(old(State()), Op.PowerCycle, old(server.script)))
    {
      FinishHop(Run(State(), Ready(Op.PowerCycle), server.script));
      err := server.DeleteVMI();
    }

    /** Edits the fetched copy for SetBootDevice. */
    static method EditBootOrders(vm: FetchedVM, device: string) returns (err: Option<Error>)
      requires vm.Valid() && vm.hasTemplate
      modifies vm.interfaces, vm.disks
      ensures vm.Valid()
      ensures match SetBoot(old(vm.Value()).template.value, device)
              case Failure(e) => err == Some(e)
              case Success(t) => err == None && vm.Value() == old(vm.Value()).(template := Some(t))
    {
      vm.ClearBootOrders();
      if device == "Pxe" {
        if vm.interfaces == null {
          return Some(NoInterfaces);
        }
        if vm.interfaces.Length == 0 {
          return Some(Panic);
        }
        vm.interfaces[0] := vm.interfaces[0].(bootOrder := Some(1));
      } else if device == "Hdd" {
        if vm.disks == null {
          return Some(NoDisks);
        }
        if vm.disks.Length == 0 {
          return Some(Panic);
        }
        vm.disks[0] := vm.disks[0].(bootOrder := Some(1));
      }
      return None;
    }

    method SetBootDevice(device: string) returns (err: Option<Error>)
      modifies server, computerSystem
      ensures computerSystem != null ==> computerSystem.powerState == old(computerSystem.powerState)
      ensures Reports(server.script, err, Call(old(State()), Op.SetBootDevice(device), old(server.script)))
    {
      ghost var op := Op.SetBootDevice(device);
      ghost var r := Run(State(), Ready(op), server.script);
      FinishHop(r);
      var vm := server.GetVM();
      if vm == null {
        return Some(ApiError);
      }
      if !vm.hasTemplate {
        return Some(NoTemplate);
      }
      err := EditBootOrders(vm, device);
      if err.Some? {
        return;
      }
      ghost var r1 := Run(State(), Updating(op, Edited(vm.Value(), ""), vm.version), server.script);
      assert Hop(r) == r1;
      UpdateThenView(State(), op, Edited(vm.Value(), ""), vm.version, server.script);
      err := server.UpdateVM(vm);
      if err.Some? {
        return;
      }
      if computerSystem == null {
        return None;
      }
      computerSystem.SetBootOverride(BootTarget(device));
    }

    method EjectMedia() returns (err: Option<Error>)
      modifies server, virtualMedia
      ensures Reports(server.script, err, Call(old(State()), Op.EjectMedia, old(server.script)))
    {
      ghost var op, w, script := Op.EjectMedia, State(), server.script;
      MediaUnready(w, op, script);
      if virtualMedia == null {
        return Some(NotInitialized);
      }
      var vm := server.GetVM();
      if vm == null {
        return Some(ApiError);
      }
      if !vm.hasTemplate {
        EditFails(w, op, script, NoTemplate);
        return Some(NoTemplate);
      }
      var cdrom := GetCdromDisk(vm.disks);
      if cdrom.None? {
        EditFails(w, op, script, NoCdrom);
        return Some(NoCdrom);
      }
      var dvName, panicked := vm.DeleteVolumes(cdrom.value);
      if panicked {
        EditFails(w, op, script, Panic);
        return Some(Panic);
      }
      if dvName == "" {
        EditFails(w, op, script, NoMediaInserted);
        return Some(NoMediaInserted);
      }
      ghost var edit := Edited(vm.Value(), dvName);
      EditSucceeds(w, op, script, edit);
      UpdateThenDelete(State(), edit, vm.version, server.script);
      err := server.UpdateVM(vm);
      if err.Some? {
        return;
      }
      DeleteThenView(State(), dvName, server.script);
      err := RemoveDataVolume(dvName);
    }

    /** The rest of EjectMedia, once the volume is detached. */
    method RemoveDataVolume(dvName: string) returns (err: Option<Error>)
      requires virtualMedia != null
      modifies server, virtualMedia
      ensures server.script == Tail(old(server.script))
      ensures var w := old(State());
              var d := DeleteDataVolume(w.cluster, dvName, Head(old(server.script)));
              && err == d.1
              && State() == World(d.0, if err.Some? then w.view else w.view.(media := Some(INITIAL_MEDIA)))
    {
      err := server.DeleteDV(dvName);
      if err.None? {
        virtualMedia.SetVirtualMedia("", false);
      }
    }

    /** `imageSize` is what asking the image server for the size brings. */
    method InsertMedia(imageURL: string, imageSize: Option<nat>) returns (err: Option<Error>)
      modifies server, virtualMedia
      ensures Reports(server.script, err, Call(old(State()), Op.InsertMedia(imageURL, imageSize), old(server.script)))
    {
      ghost var op, w, script := Op.InsertMedia(imageURL, imageSize), State(), server.script;
      MediaUnready(w, op, script);
      if virtualMedia == null {
        return Some(NotInitialized);
      }
      var vm := server.GetVM();
      if vm == null {
        return Some(ApiError);
      }
      if !vm.hasTemplate {
        EditFails(w, op, script, NoTemplate);
        return Some(NoTemplate);
      }
      var cdrom := GetCdromDisk(vm.disks);
      if cdrom.None? {
        EditFails(w, op, script, NoCdrom);
        return Some(NoCdrom);
      }
      if imageSize.None? {
        EditFails(w, op, script, NoImageSize);
        return Some(NoImageSize);
      }
      ghost var t := server.spec.template.value;
      ghost var edit := Edited(server.spec.(template := Some(t.(
        volumes := t.volumes + [MediaVolume(cdrom.value, server.name)]))), server.name);
      EditSucceeds(w, op, script, edit);
      CreateThenUpdate(State(), op, edit, vm.version, server.script);
      err := server.CreateDV(server.name, DataVolume(imageURL, imageSize.value));
      if err.Some? {
        return;
      }
      UpdateThenView(State(), op, edit, vm.version, server.script);
      err := AttachDataVolume(vm, cdrom.value, imageURL);
    }

    /** The rest of InsertMedia, once the DataVolume exists. */
    method AttachDataVolume(vm: FetchedVM, cdrom: string, imageURL: string) returns (err: Option<Error>)
      requires vm.Valid() && vm.hasTemplate && virtualMedia != null
      modifies server, virtualMedia, vm`volumes, vm`volumeCount
      ensures server.script == Tail(old(server.script))
      ensures var spec, w := old(vm.Value()), old(State());
              var t := spec.template.value;
              var attached := spec.(template := Some(t.(volumes := t.volumes + [MediaVolume(cdrom, server.name)])));
              var u := Update(w.cluster, attached, vm.version, Head(old(server.script)));
              && err == u.1
              && State() == World(u.0, if err.Some? then w.view
                                       else w.view.(media := Some(MediaView(imageURL, true, "URI"))))
    {
      vm.AppendVolume(MediaVolume(cdrom, server.name));
      err := server.UpdateVM(vm);
      if err.None? {
        virtualMedia.SetVirtualMedia(imageURL, true);
      }
    }
  }
}
