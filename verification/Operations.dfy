/** The operations of the resource manager as small machines over the cluster: every step
    is one call to the API server, or one write of the cached Redfish view. */
module Operations {
  import opened Basics
  import opened VirtualMachines

  datatype DataVolume = DataVolume(url: string, size: nat)

  /** The cluster objects of one virtual machine: its spec and resource version, the
      DataVolumes of its namespace by name, and whether an instance is running. */
  datatype Cluster = Cluster(
    name: string,
    spec: VMSpec,
    version: nat,
    dataVolumes: map<string, DataVolume>,
    instance: bool)

  datatype BootView = BootView(enabled: string, mode: string, target: string)

  datatype MediaView = MediaView(image: string, inserted: bool, connectedVia: string)

  /** The cached Redfish resources; `None` before the manager is initialized. */
  datatype View = View(system: Option<BootView>, media: Option<MediaView>)

  datatype World = World(cluster: Cluster, view: View)

  const INITIAL_BOOT := BootView("Disabled", "Legacy", "Hdd")
  const INITIAL_MEDIA := MediaView("", false, "NotConnected")

  /** `size` is what asking the image server for its size brings: `None` is an error. */
  datatype Op =
    | PowerOn
    | PowerOff
    | PowerCycle
    | SetBootDevice(device: string)
    | InsertMedia(url: string, size: Option<nat>)
    | EjectMedia

  datatype Error =
    | ApiError | Conflict | AlreadyExists | NotFound
    | NotInitialized | NoTemplate | NoCdrom | NoImageSize | NoMediaInserted | NoInterfaces | NoDisks
    | Panic

  /** An edited copy of the spec; `dvName` is the data volume to create or to delete. */
  datatype Edited = Edited(spec: VMSpec, dvName: string)

  // ---------- The edits ----------

  function SetPower(spec: VMSpec, on: bool): VMSpec {
    if spec.runStrategy.None? then spec.(running := Some(on))
    else spec.(runStrategy := Some(if on then "RerunOnFailure" else "Halted"))
  }

  function SetBoot(t: Template, device: string): Result<Template, Error> {
    var cleared := t.(
      interfaces := if t.interfaces.None? then None else Some(ClearInterfaces(t.interfaces.value)),
      disks := if t.disks.None? then None else Some(ClearDisks(t.disks.value)));
    if device == "Pxe" then
      if cleared.interfaces.None? then Failure(NoInterfaces)
      else if cleared.interfaces.value == [] then Failure(Panic)
      else
        var s := cleared.interfaces.value;
        Success(cleared.(interfaces := Some(s[0 := s[0].(bootOrder := Some(1))])))
    else if device == "Hdd" then
      if cleared.disks.None? then Failure(NoDisks)
      else if cleared.disks.value == [] then Failure(Panic)
      else
        var s := cleared.disks.value;
        Success(cleared.(disks := Some(s[0 := s[0].(bootOrder := Some(1))])))
    else
      Success(cleared)
  }

  function MediaVolume(cdrom: string, dvName: string): Volume {
    Volume(cdrom, DataVolumeSource(dvName, true))
  }

  /** What an operation makes of a fetched spec.  `vmName` is also the fixed name of the
      DataVolume that an insert creates. */
  function Edit(op: Op, spec: VMSpec, vmName: string): Result<Edited, Error>
    requires !op.PowerCycle?
  {
    match op
    case PowerOn => Success(Edited(SetPower(spec, true), ""))
    case PowerOff => Success(Edited(SetPower(spec, false), ""))
    case SetBootDevice(device) =>
      if spec.template.None? then Failure(NoTemplate)
      else
        var t := SetBoot(spec.template.value, device);
        if t.Failure? then Failure(t.error)
        else Success(Edited(spec.(template := Some(t.value)), ""))
    case InsertMedia(url, size) =>
      if spec.template.None? then Failure(NoTemplate)
      else if CdromOf(spec).None? then Failure(NoCdrom)
      else if size.None? then Failure(NoImageSize)
      else
        var t := spec.template.value;
        var volumes := t.volumes + [MediaVolume(CdromOf(spec).value, vmName)];
        Success(Edited(spec.(template := Some(t.(volumes := volumes))), vmName))
    case EjectMedia =>
      if spec.template.None? then Failure(NoTemplate)
      else if CdromOf(spec).None? then Failure(NoCdrom)
      else
        var t := spec.template.value;
        var deleted := Named(t.volumes, CdromOf(spec).value);
        if exists v :: v in deleted && v.source.OtherSource? then Failure(Panic)
        else if LastDataVolume(deleted) == "" then Failure(NoMediaInserted)
        else
          var kept := Without(t.volumes, CdromOf(spec).value);
          Success(Edited(spec.(template := Some(t.(volumes := kept))), LastDataVolume(deleted)))
  }

  // ---------- The API server ----------

  /** A write is accepted only on the version it was read at; a write that changes nothing
      leaves the version alone. */
  function Update(c: Cluster, spec: VMSpec, version: nat, o: Outcome): (r: (Cluster, Option<Error>))
    ensures r.1.None? ==> o.Served? && version == c.version && r.0.spec == spec
    ensures r.0.version > c.version || (r.0.spec == c.spec && r.0.version == c.version)
  {
    if o.Refused? then (c, Some(ApiError))
    else if version != c.version then (c, Some(Conflict))
    else (c.(spec := spec, version := if spec == c.spec then c.version else c.version + 1),
          if o.Lost? then Some(ApiError) else None)
  }

  /** Whether an update takes effect, whatever its caller is told. */
  predicate Accepted(c: Cluster, version: nat, o: Outcome) {
    !o.Refused? && version == c.version
  }

  function CreateDataVolume(c: Cluster, name: string, dv: DataVolume, o: Outcome): (Cluster, Option<Error>) {
    if o.Refused? then (c, Some(ApiError))
    else if name in c.dataVolumes then (c, Some(AlreadyExists))
    else (c.(dataVolumes := c.dataVolumes[name := dv]), if o.Lost? then Some(ApiError) else None)
  }

  function DeleteDataVolume(c: Cluster, name: string, o: Outcome): (Cluster, Option<Error>) {
    if o.Refused? then (c, Some(ApiError))
    else if name !in c.dataVolumes then (c, Some(NotFound))
    else (c.(dataVolumes := c.dataVolumes - {name}), if o.Lost? then Some(ApiError) else None)
  }

  function DeleteInstance(c: Cluster, o: Outcome): (Cluster, Option<Error>) {
    if o.Refused? then (c, Some(ApiError))
    else if !c.instance then (c, Some(NotFound))
    else (c.(instance := false), if o.Lost? then Some(ApiError) else None)
  }

  // ---------- The cached view ----------

  /** The override target that the manager's table gives a boot device. */
  function BootTarget(device: string): string {
    if device == "Pxe" then "Pxe" else if device == "Hdd" then "Hdd" else ""
  }

  function Refresh(view: View, op: Op): View {
    match op
    case SetBootDevice(device) =>
      if view.system.None? then view
      else view.(system := Some(view.system.value.(enabled := "Continuous", target := BootTarget(device))))
    case InsertMedia(url, _) => view.(media := Some(MediaView(url, true, "URI")))
    case EjectMedia => view.(media := Some(MediaView("", false, "NotConnected")))
    case _ => view
  }

  // ---------- The machine ----------

  /** How far one call of an operation has come.  `orphaned` tells that the call has failed
      and that the DataVolume it created, or was to delete, was left in the cluster. */
  datatype Local =
    | Ready(op: Op)
    | Creating(op: Op, edited: Edited, version: nat)
    | Updating(op: Op, edited: Edited, version: nat)
    | Deleting(op: Op, dvName: string)
    | Viewing(op: Op)
    | Finished(op: Op, error: Option<Error>, orphaned: bool)

  predicate WellFormed(l: Local) {
    && (l.Creating? ==> l.op.InsertMedia? && l.op.size.Some?)
    && (l.Updating? ==> !l.op.PowerCycle?)
    && (l.Deleting? ==> l.op.EjectMedia?)
  }

  function Rank(l: Local): nat {
    match l
    case Ready(_) => 5
    case Creating(_, _, _) => 4
    case Updating(_, _, _) => 3
    case Deleting(_, _) => 2
    case Viewing(_) => 1
    case Finished(_, _, _) => 0
  }

  predicate IsMedia(op: Op) {
    op.InsertMedia? || op.EjectMedia?
  }

  function Fail(l: Local, e: Error, orphaned: bool): Local {
    Finished(l.op, Some(e), orphaned)
  }

  /** Whether the next step is a call to the API server. */
  predicate IsCall(w: World, l: Local) {
    match l
    case Ready(op) => !(IsMedia(op) && w.view.media.None?)
    case Viewing(_) => false
    case Finished(_, _, _) => false
    case _ => true
  }

  function Step(w: World, l: Local, o: Outcome): (r: (World, Local))
    requires WellFormed(l)
    ensures WellFormed(r.1) && r.1.op == l.op
    ensures !l.Finished? ==> Rank(r.1) < Rank(l)
  {
    var c := w.cluster;
    match l
    case Ready(op) =>
      if op.PowerCycle? then
        var d := DeleteInstance(c, o);
        (w.(cluster := d.0), Finished(op, d.1, false))
      else if IsMedia(op) && w.view.media.None? then (w, Fail(l, NotInitialized, false))
      else if !o.Served? then (w, Fail(l, ApiError, false))
      else
        var e := Edit(op, c.spec, c.name);
        if e.Failure? then (w, Fail(l, e.error, false))
        else if op.InsertMedia? then (w, Creating(op, e.value, c.version))
        else (w, Updating(op, e.value, c.version))
    case Creating(op, edited, version) =>
      var d := CreateDataVolume(c, edited.dvName, DataVolume(op.url, op.size.value), o);
      (w.(cluster := d.0),
       if d.1.None? then Updating(op, edited, version) else Fail(l, d.1.value, d.0 != c))
    case Updating(op, edited, version) =>
      var u := Update(c, edited.spec, version, o);
      (w.(cluster := u.0),
       if u.1.Some? then Fail(l, u.1.value, IsMedia(op) && op.EjectMedia? == Accepted(c, version, o))
       else if op.EjectMedia? then Deleting(op, edited.dvName)
       else if op.PowerOn? || op.PowerOff? then Finished(op, None, false)
       else Viewing(op))
    case Deleting(op, dvName) =>
      var d := DeleteDataVolume(c, dvName, o);
      (w.(cluster := d.0),
       if d.1.None? then Viewing(op) else Fail(l, d.1.value, dvName in d.0.dataVolumes))
    case Viewing(op) => (w.(view := Refresh(w.view, op)), Finished(op, None, false))
    case Finished(_, _, _) => (w, l)
  }

  // ---------- One call on its own ----------

  datatype Run = Run(world: World, local: Local, script: seq<Outcome>)

  /** The next step of a run; an API call takes its outcome from the script. */
  function Hop(r: Run): (r': Run)
    requires WellFormed(r.local)
    ensures WellFormed(r'.local) && r'.local.op == r.local.op
    ensures r.local.Finished? ==> r' == r
    ensures !r.local.Finished? ==> Rank(r'.local) < Rank(r.local)
  {
    if r.local.Finished? then r
    else if IsCall(r.world, r.local) then
      var n := Step(r.world, r.local, Head(r.script));
      Run(n.0, n.1, Tail(r.script))
    else
      var n := Step(r.world, r.local, Served);
      Run(n.0, n.1, r.script)
  }

  /** A run to its end with nothing in between. */
  function Finish(r: Run): (r': Run)
    requires WellFormed(r.local)
    ensures r'.local.Finished? && r'.local.op == r.local.op
    decreases Rank(r.local)
  {
    if r.local.Finished? then r else Finish(Hop(r))
  }

  function Call(w: World, op: Op, script: seq<Outcome>): (r: Run)
    ensures r.local.Finished? && r.local.op == op
  {
    Finish(Run(w, Ready(op), script))
  }

  lemma FinishHop(r: Run)
    requires WellFormed(r.local)
    ensures Finish(r) == Finish(Hop(r))
    ensures Hop(r).local.Finished? ==> Finish(r) == Hop(r)
  {
  }

  lemma MediaUnready(w: World, op: Op, script: seq<Outcome>)
    requires IsMedia(op)
    ensures w.view.media.None? ==> Call(w, op, script) == Run(w, Finished(op, Some(NotInitialized), false), script)
    ensures w.view.media.Some? && !Head(script).Served? ==>
              Call(w, op, script) == Run(w, Finished(op, Some(ApiError), false), Tail(script))
  {
    FinishHop(Run(w, Ready(op), script));
  }

  lemma EditFails(w: World, op: Op, script: seq<Outcome>, e: Error)
    requires IsMedia(op) && w.view.media.Some? && Head(script).Served?
    requires Edit(op, w.cluster.spec, w.cluster.name) == Failure(e)
    ensures Call(w, op, script) == Run(w, Finished(op, Some(e), false), Tail(script))
  {
    FinishHop(Run(w, Ready(op), script));
  }

  lemma EditSucceeds(w: World, op: Op, script: seq<Outcome>, e: Edited)
    requires IsMedia(op) && w.view.media.Some? && Head(script).Served?
    requires Edit(op, w.cluster.spec, w.cluster.name) == Success(e)
    ensures var version := w.cluster.version;
            var l := if op.InsertMedia? then Creating(op, e, version) else Updating(op, e, version);
            WellFormed(l) && Call(w, op, script) == Finish(Run(w, l, Tail(script)))
  {
    FinishHop(Run(w, Ready(op), script));
  }

  lemma CreateThenUpdate(w: World, op: Op, e: Edited, version: nat, script: seq<Outcome>)
    requires op.InsertMedia? && op.size.Some?
    ensures var (c', err) := CreateDataVolume(w.cluster, e.dvName, DataVolume(op.url, op.size.value), Head(script));
            var w' := w.(cluster := c');
            Finish(Run(w, Creating(op, e, version), script)) ==
              if err.Some? then Run(w', Finished(op, err, c' != w.cluster), Tail(script))
              else Finish(Run(w', Updating(op, e, version), Tail(script)))
  {
    FinishHop(Run(w, Creating(op, e, version), script));
  }

  lemma UpdateThenDelete(w: World, e: Edited, version: nat, script: seq<Outcome>)
    ensures var (c', err) := Update(w.cluster, e.spec, version, Head(script));
            var w' := w.(cluster := c');
            var r := Finish(Run(w, Updating(EjectMedia, e, version), script));
            if err.Some? then r.world == w' && r.script == Tail(script) && r.local.error == err
            else r == Finish(Run(w', Deleting(EjectMedia, e.dvName), Tail(script)))
  {
    FinishHop(Run(w, Updating(EjectMedia, e, version), script));
  }

  /** How an insert or a boot call ends: with its update, and the view if that succeeds. */
  lemma UpdateThenView(w: World, op: Op, e: Edited, version: nat, script: seq<Outcome>)
    requires op.InsertMedia? || op.SetBootDevice?
    ensures var u := Update(w.cluster, e.spec, version, Head(script));
            var r := Finish(Run(w, Updating(op, e, version), script));
            && r.script == Tail(script) && r.local.error == u.1
            && r.world == World(u.0, if u.1.None? then Refresh(w.view, op) else w.view)
            && (r.local.orphaned <==> op.InsertMedia? && u.1.Some? && !Accepted(w.cluster, version, Head(script)))
  {
    var r := Run(w, Updating(op, e, version), script);
    FinishHop(r);
    FinishHop(Hop(r));
  }

  lemma DeleteThenView(w: World, dvName: string, script: seq<Outcome>)
    ensures var d := DeleteDataVolume(w.cluster, dvName, Head(script));
            var r := Finish(Run(w, Deleting(EjectMedia, dvName), script));
            && r.script == Tail(script) && r.local.error == d.1
            && r.world == World(d.0, if d.1.None? then Refresh(w.view, EjectMedia) else w.view)
            && (r.local.orphaned <==> d.1.Some? && dvName in d.0.dataVolumes)
  {
    var r := Run(w, Deleting(EjectMedia, dvName), script);
    FinishHop(r);
    FinishHop(Hop(r));
  }

  /** No call takes more than five steps. */
  lemma CallInFive(w: World, op: Op, script: seq<Outcome>)
    ensures Call(w, op, script) == Hop(Hop(Hop(Hop(Hop(Run(w, Ready(op), script))))))
  {
    var r0 := Run(w, Ready(op), script);
    FinishHop(r0);
    FinishHop(Hop(r0));
    FinishHop(Hop(Hop(r0)));
    FinishHop(Hop(Hop(Hop(r0))));
    FinishHop(Hop(Hop(Hop(Hop(r0)))));
  }
}
