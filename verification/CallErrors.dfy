/** Which error a call returns, for every world and all outcomes: the first thing that goes
    wrong, in the order in which the code meets it. */
module CallErrors {
  import opened Basics
  import opened VirtualMachines
  import opened Operations
  import opened Concurrency
  import opened MediaViewChain

  /** The error of an API call with this outcome that has no error of its own. */
  function Reached(o: Outcome): Option<Error> {
    if o.Served? then None else Some(ApiError)
  }

  lemma InsertError(w: World, url: string, size: Option<nat>, script: seq<Outcome>)
    ensures Call(w, InsertMedia(url, size), script).local.error ==
              if w.view.media.None? then Some(NotInitialized)
              else if !Nth(script, 0).Served? then Some(ApiError)
              else if w.cluster.spec.template.None? then Some(NoTemplate)
              else if CdromOf(w.cluster.spec).None? then Some(NoCdrom)
              else if size.None? then Some(NoImageSize)
              else if Nth(script, 1).Refused? then Some(ApiError)
              else if w.cluster.name in w.cluster.dataVolumes then Some(AlreadyExists)
              else if Nth(script, 1).Lost? then Some(ApiError)
              else Reached(Nth(script, 2))
  {
    var op := InsertMedia(url, size);
    var r0 := Run(w, Ready(op), script);
    NthOfTail(script);
    FinishHop(r0);
    var r1 := Hop(r0);
    if r1.local.Creating? {
      CreateThenUpdate(w, op, r1.local.edited, r1.local.version, r1.script);
      FinishHop(r1);
      var r2 := Hop(r1);
      if r2.local.Updating? {
        UpdateThenView(r2.world, op, r2.local.edited, r2.local.version, r2.script);
      }
    }
  }

  lemma EjectError(w: World, script: seq<Outcome>)
    ensures Call(w, EjectMedia, script).local.error ==
              if w.view.media.None? then Some(NotInitialized)
              else if !Nth(script, 0).Served? then Some(ApiError)
              else if w.cluster.spec.template.None? then Some(NoTemplate)
              else if CdromOf(w.cluster.spec).None? then Some(NoCdrom)
              else if exists v :: v in Attached(w.cluster.spec) && v.source.OtherSource? then Some(Panic)
              else if LastDataVolume(Attached(w.cluster.spec)) == "" then Some(NoMediaInserted)
              else if !Nth(script, 1).Served? then Some(ApiError)
              else if Nth(script, 2).Refused? then Some(ApiError)
              else if LastDataVolume(Attached(w.cluster.spec)) !in w.cluster.dataVolumes then Some(NotFound)
              else Reached(Nth(script, 2))
  {
    var r0 := Run(w, Ready(EjectMedia), script);
    NthOfTail(script);
    FinishHop(r0);
    var r1 := Hop(r0);
    if r1.local.Updating? {
      UpdateThenDelete(w, r1.local.edited, r1.local.version, r1.script);
      FinishHop(r1);
      var r2 := Hop(r1);
      if r2.local.Deleting? {
        DeleteThenView(r2.world, r2.local.dvName, r2.script);
      }
    }
  }

  lemma BootError(w: World, device: string, script: seq<Outcome>)
    ensures Call(w, SetBootDevice(device), script).local.error ==
              if !Nth(script, 0).Served? then Some(ApiError)
              else if w.cluster.spec.template.None? then Some(NoTemplate)
              else
                var t := w.cluster.spec.template.value;
                if device == "Pxe" && t.interfaces.None? then Some(NoInterfaces)
                else if device == "Pxe" && t.interfaces == Some([]) then Some(Panic)
                else if device == "Hdd" && t.disks.None? then Some(NoDisks)
                else if device == "Hdd" && t.disks == Some([]) then Some(Panic)
                else Reached(Nth(script, 1))
  {
    var op := SetBootDevice(device);
    var r0 := Run(w, Ready(op), script);
    NthOfTail(script);
    FinishHop(r0);
    var r1 := Hop(r0);
    if r1.local.Updating? {
      UpdateThenView(w, op, r1.local.edited, r1.local.version, r1.script);
    }
  }

  lemma PowerErrors(w: World, script: seq<Outcome>)
    ensures Call(w, PowerOn, script).local.error
         == if !Nth(script, 0).Served? then Some(ApiError) else Reached(Nth(script, 1))
    ensures Call(w, PowerOff, script).local.error
         == if !Nth(script, 0).Served? then Some(ApiError) else Reached(Nth(script, 1))
    ensures Call(w, PowerCycle, script).local.error ==
              if Nth(script, 0).Refused? then Some(ApiError)
              else if !w.cluster.instance then Some(NotFound)
              else Reached(Nth(script, 0))
  {
    NthOfTail(script);
    CallInFive(w, PowerOn, script);
    CallInFive(w, PowerOff, script);
    CallInFive(w, PowerCycle, script);
  }
}
