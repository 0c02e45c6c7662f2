# KubeVirtBMC: a verified model

KubeVirtBMC gives every KubeVirt virtual machine a virtual BMC.  An agent (virtBMC) serves
IPMI and Redfish for one virtual machine through one shared resource manager, and two
controllers look after the agent's Pod, Service, ServiceAccount and RoleBinding and report in
the status of a `VirtualMachineBMC` object.  This project models both sides in Dafny and proves
what they promise over all inputs, runs and interleavings.

`dafny verify dfyconfig.toml` checks everything.

## How the model is built

**The resource manager.**  `VirtualMachines` and `Manager` follow the Go code: a fetched virtual
machine is an object with arrays that the methods edit in place, and the manager is a class
whose methods drive an API server and then write the cached Redfish view.  `Operations` gives
the same operations as small machines whose steps are single API calls, and every method of
the class is proved equal to its machine run alone.  `Concurrency` lets any number of machines
interleave; a sequential call is proved to be one of these interleavings.  Every API call is
`Served`, `Refused` (fails without effect) or `Lost` (takes effect, but the caller sees an error).
An update is accepted only at the resource version that was read; a create fails if the name
exists.  A Go run-time panic is the error `Panic`.

**The controllers.**  `Reconcile` is one pass of the `VirtualMachineBMC` controller as a machine with
one API call per step; `Reconciler` has the methods, proved equal to it, and the watch mapping.
`ServiceController` does the same for the second controller, and `Address` shows how the two
meet.  `Convergence`, `Rollover`, `Passes`, `PodGating`, `NonInterference`, `Credentials`,
`CredentialLoss` and `SharedStatus` prove properties of runs, and `WatchMapping` ties the mapping to
them; in `Passes`, `PodGating` and `SharedStatus` reads may be stale.

**The front ends.**  `FrontEnds` has the IPMI handlers (IPMI v2.0, sections 28.3 and 28.12) and the
Redfish handlers (DMTF DSP0268, ComputerSystem and VirtualMedia), and compiles the first
language into the second.  `Sessions` is the Redfish token store.

## What turned out not to hold

* A DataVolume left behind by a call that failed between two of its writes is never cleaned
  up: no later insert or eject succeeds (`OrphanIsForever`, `StuckForever`).
* The cached media view can be wrong after a lost reply (`LostReplyBreaksChain`) and after a race
  without any failure (`RaceBreaksChain`).  `CallBreaksExactly`, `BitsOverRuns` and
  `AgreeUnderInterleaving` say exactly when it is right, and `ScheduledView` which schedule of
  calls keeps it right.
* The cached boot override can be wrong in the same two ways (`LostReplyBreaksOverride`,
  `RaceBreaksOverride`); `CallBreaksOverrideExactly`, `OverrideExactly`, `OverrideUnderInterleaving`
  and `ScheduledOverride` are the corresponding conditions.
* A pass that stops after it has written the Secret condition and before it has deleted the
  Pod leaves the old Pod, and passes alone never replace it (`InterruptedRollover`); an edit of the
  reference can.  `RolloverExactly` says exactly from which states reconciling replaces the Pod, and
  `TurnExactly` which events lead to the others.
* The watch mapping logs a failing Pod delete and goes on, and returns nothing if its list call
  fails.  A Pod that was waiting for that event alone then keeps its old credentials through
  all later passes, as long as the Secret is neither written again nor removed (`LossFromStart`,
  `LostForGood`); `CoherenceExactly` says exactly which runs are free of this.
* A Pod can appear for a Secret that the stored spec no longer names, if the reference is
  edited while a pass is under way (`PodForEditedSecret`), or before a pass that reads an older
  state of the object (`PodFromStaleRead`).  `GatedExactly` says when the status stored at that
  moment reports both names, and `WrongPodHeals` that later passes replace such a Pod.
* The Redfish action SetDefaultBootOrder restores the default exactly if it lists no device
  that names a class (`DefaultOrderExactly`, `DefaultOrderMisused`): it makes the first listed device
  the boot device, as its comment in the source admits.

## Model

| member | source | states |
|---|---|---|
| VirtualMachines.GetCdromDisk | pkg/util/helper.go:75-83 | the index loop finds the first CD-ROM disk, and fails exactly if there is none |
| VirtualMachines.FirstCdromAt | pkg/util/helper.go:75-83 | any CD-ROM disk with none before it is the one found |
| VirtualMachines.NoCdrom | pkg/util/helper.go:75-83 | no disk is found if and only if no disk is a CD-ROM |
| VirtualMachines.CdromIgnoresBootOrder | pkg/resourcemanager/virtualmachine_resourcemanager.go:320-323 | edits of boot orders never change which CD-ROM disk is first |
| VirtualMachines.DeleteFunc | pkg/resourcemanager/virtualmachine_resourcemanager.go:150-157 | in-place deletion equals a filter that keeps the order, yields the data volume of the last deleted volume, and panics exactly on a deleted volume without one |
| VirtualMachines.FiltersPartition | pkg/resourcemanager/virtualmachine_resourcemanager.go:150-157 | kept and deleted volumes together are the volumes as a multiset, split by name |
| VirtualMachines.NamedOfWithout | pkg/resourcemanager/virtualmachine_resourcemanager.go:150-157 | after the deletion no volume carries the name |
| VirtualMachines.WithoutAbsent | pkg/resourcemanager/virtualmachine_resourcemanager.go:150-157 | deleting a name that no volume carries leaves the list as it is |
| VirtualMachines.FetchedVM.ClearBootOrders | pkg/resourcemanager/virtualmachine_resourcemanager.go:316-323 | the two loops clear every boot order and change nothing else |
| VirtualMachines.FetchedVM.DeleteVolumes | pkg/resourcemanager/virtualmachine_resourcemanager.go:150-157 | the fetched machine differs only in its volumes, now filtered by name |
| VirtualMachines.FetchedVM.AppendVolume | pkg/resourcemanager/virtualmachine_resourcemanager.go:219 | the fetched machine differs only in one more volume at the end |
| Manager.VirtualMachineResourceManager.Initialize | pkg/resourcemanager/virtualmachine_resourcemanager.go:63-98 | builds fresh views whatever the spec looks like, with the power state On exactly if the machine is ready and Off exactly if it is not; on an error keeps the old ones |
| Manager.VirtualMachineResourceManager.GetComputerSystem | pkg/resourcemanager/virtualmachine_resourcemanager.go:100-120 | brings the cached power state up to date, On exactly if the machine is ready and Off exactly if it is not, and changes nothing else; fails without effect before initialization or if the read fails |
| Manager.VirtualMachineResourceManager.EditRunning | pkg/resourcemanager/virtualmachine_resourcemanager.go:259-269 | sets `running` if there is no run strategy, else the run strategy, and nothing else |
| Manager.VirtualMachineResourceManager.PowerOn | pkg/resourcemanager/virtualmachine_resourcemanager.go:253-275 | cluster, view, calls used and result are those of the PowerOn machine run alone |
| Manager.VirtualMachineResourceManager.PowerOff | pkg/resourcemanager/virtualmachine_resourcemanager.go:277-297 | the same for PowerOff |
| Manager.VirtualMachineResourceManager.PowerCycle | pkg/resourcemanager/virtualmachine_resourcemanager.go:299-302 | the same for PowerCycle, which deletes the instance |
| Manager.VirtualMachineResourceManager.EditBootOrders | pkg/resourcemanager/virtualmachine_resourcemanager.go:316-339 | the in-place edit of boot orders equals the edit of a template value, with its errors |
| Manager.VirtualMachineResourceManager.SetBootDevice | pkg/resourcemanager/virtualmachine_resourcemanager.go:304-354 | the method equals the SetBootDevice machine run alone |
| Manager.VirtualMachineResourceManager.EjectMedia | pkg/resourcemanager/virtualmachine_resourcemanager.go:130-175 | the method equals the EjectMedia machine run alone, with every error exit |
| Manager.VirtualMachineResourceManager.RemoveDataVolume | pkg/resourcemanager/virtualmachine_resourcemanager.go:168-174 | the delete of the DataVolume, and the view written only if it succeeds |
| Manager.VirtualMachineResourceManager.InsertMedia | pkg/resourcemanager/virtualmachine_resourcemanager.go:177-229 | the method equals the InsertMedia machine run alone, with every error exit |
| Manager.VirtualMachineResourceManager.AttachDataVolume | pkg/resourcemanager/virtualmachine_resourcemanager.go:209-228 | the volume appended, the guarded update, and the view written only if it succeeds |
| Manager.ComputerSystemAdapter.constructor | pkg/resourcemanager/computersystem_resource.go:42-53 | a new view has the given power state, the override disabled, mode Legacy, target Hdd |
| Manager.ComputerSystemAdapter.SetBootOverride | pkg/resourcemanager/computersystem_resource.go:115-118 | puts the override in force with the target and keeps the mode |
| Manager.VirtualMediaAdapter.constructor | pkg/resourcemanager/virtualmedia_resource.go:21-41 | a new view shows no image, not inserted, not connected |
| Manager.VirtualMediaAdapter.SetVirtualMedia | pkg/resourcemanager/virtualmedia_resource.go:63-71 | the image and the flag, with the connection that follows from the flag |
| Concurrency.EditMedia | pkg/resourcemanager/virtualmachine_resourcemanager.go:145-161 | an insert attaches one volume of the fixed DataVolume, an eject detaches all and names the last one's DataVolume, other operations attach and detach nothing; none changes the first CD-ROM disk |
| Concurrency.SnapshotStep | pkg/resourcemanager/virtualmachine_resourcemanager.go:163-166 | a pending edit was made from the stored spec unless the version has moved on; a step changes the spec exactly as the operation it commits would |
| Concurrency.Serializable | pkg/resourcemanager/virtualmachine_resourcemanager.go:130-354 | every interleaving leaves the spec that the operations whose update took effect leave one at a time, in update order, and none of them fails there |
| Concurrency.CleanIsConserved | pkg/resourcemanager/virtualmachine_resourcemanager.go:202-207 | a state without calls, DataVolume and media satisfies the conservation law |
| Concurrency.TokenBalance | pkg/resourcemanager/virtualmachine_resourcemanager.go:159-229 | each step changes holders plus attached volumes by as much as the number of DataVolumes of the fixed name, and touches no other DataVolume |
| Concurrency.TokenConserved | pkg/resourcemanager/virtualmachine_resourcemanager.go:130-229 | the conservation law holds over every interleaving, failure and lost reply |
| Concurrency.SingleToken | pkg/resourcemanager/virtualmachine_resourcemanager.go:130-229 | the DataVolume exists if and only if exactly one insert between create and update, one eject between update and delete, one failed call that left it, or one attached volume answers for it; at most one volume is attached and it names an existing DataVolume |
| Concurrency.OrphanIsForever | pkg/resourcemanager/virtualmachine_resourcemanager.go:163-170 | once a failed call has left the DataVolume, nothing is attached again and no further insert or eject succeeds |
| Concurrency.HopIsEvent | pkg/virtbmc/virtbmc.go:60-61 | a step of a call on its own is one event of the interleaved system |
| Concurrency.CallIsExecution | pkg/virtbmc/virtbmc.go:60-61 | every sequential call, whatever fails, is an execution of the interleaved system the two servers share |
| MediaViewChain.InsertInCases | pkg/resourcemanager/virtualmachine_resourcemanager.go:177-229 | for every world and all outcomes, the whole effect of an insert: nothing, the DataVolume left behind, media attached without the view, or everything |
| MediaViewChain.EjectInCases | pkg/resourcemanager/virtualmachine_resourcemanager.go:130-175 | the same for an eject |
| MediaViewChain.CallOnBits | pkg/resourcemanager/virtualmachine_resourcemanager.go:130-229 | what is attached, what is shown and whether the DataVolume exists after any call, as a function of what was there and of the outcomes of its API calls |
| MediaViewChain.BitsOverRuns | pkg/resourcemanager/virtualmachine_resourcemanager.go:130-229 | over every sequential run, whatever is refused or lost, the three are those of that automaton, and they agree if and only if its three bits are equal |
| MediaViewChain.CallBreaksExactly | pkg/resourcemanager/virtualmachine_resourcemanager.go:163-226 | from agreement, lost replies included, a call ends in disagreement if and only if it has work to do, its read is served, and its first write is lost, or served and its second write or delete not served |
| MediaViewChain.AlwaysAgreeExactly | pkg/resourcemanager/virtualmachine_resourcemanager.go:163-226 | over every sequential run, lost replies included, the three agree at every boundary if and only if no call of the run breaks the agreement |
| MediaViewChain.CallKeepsChain | pkg/resourcemanager/virtualmachine_resourcemanager.go:130-229 | without lost replies one call keeps the chain attached, Inserted, DataVolume; it leaves the DataVolume behind if and only if it has work to do, its read and first write are served and its second write is refused, and that alone ends an agreement |
| MediaViewChain.ServeKeepsChain | pkg/resourcemanager/virtualmachine_resourcemanager.go:130-229 | the same over any run of calls one after another |
| MediaViewChain.ViewOverRuns | pkg/resourcemanager/virtualmachine_resourcemanager.go:130-229 | over every sequential run without lost replies from a clean start the chain holds at each boundary, and all three agree if and only if no call with work to do was refused its second write |
| MediaViewChain.StuckForever | pkg/resourcemanager/virtualmachine_resourcemanager.go:203-207 | a DataVolume without media stays so over every later run, whatever is refused or lost; view and cluster never agree again and every media call fails |
| MediaViewChain.InsertSucceeds | pkg/resourcemanager/virtualmachine_resourcemanager.go:177-229 | exactly when an insert succeeds, and its whole effect on cluster and view |
| MediaViewChain.EjectSucceeds | pkg/resourcemanager/virtualmachine_resourcemanager.go:130-175 | exactly when an eject succeeds, and its whole effect on cluster and view |
| CallErrors.InsertError | pkg/resourcemanager/virtualmachine_resourcemanager.go:177-229 | for every world and all outcomes, which error an insert returns: the first thing that goes wrong, in the order of the code |
| CallErrors.EjectError | pkg/resourcemanager/virtualmachine_resourcemanager.go:130-175 | the same for an eject, the panic on a volume without a data volume included |
| MediaViewChain.EjectUndoesInsert | pkg/resourcemanager/virtualmachine_resourcemanager.go:150-226 | the effect of an eject on that of an insert gives back everything but the resource version |
| MediaViewChain.InsertThenEject | pkg/resourcemanager/virtualmachine_resourcemanager.go:130-229 | a successful insert followed by a successful eject is the identity up to the resource version |
| MediaViewChain.LostReplyBreaksChain | pkg/resourcemanager/virtualmachine_resourcemanager.go:221-226 | from every clean start, an insert whose update takes effect but is reported as failed attaches media that the view does not show |
| MediaRaces.RaceBreaksChain | pkg/resourcemanager/virtualmachine_resourcemanager.go:163-226 | from every clean start, a race of successful calls after which the view shows media that is gone |
| MediaRaces.LastWritesDecide | pkg/resourcemanager/virtualmachine_resourcemanager.go:163-226 | under every interleaving the last media update decides what is attached and the last view write what is shown |
| MediaRaces.AgreeUnderInterleaving | pkg/resourcemanager/virtualmachine_resourcemanager.go:163-226 | under every interleaving, failure and lost reply, attached, shown and DataVolume agree if and only if the last media update to take effect and the last view write are of the same kind and no call answers for the DataVolume |
| MediaRaces.EventKeeps | pkg/resourcemanager/virtualmachine_resourcemanager.go:130-229 | an event of such a schedule keeps the invariant of one media call at a time |
| MediaRaces.ScheduledView | pkg/resourcemanager/virtualmachine_resourcemanager.go:130-229 | over every interleaving in which no media call begins while another is unfinished and none loses a reply: whenever none is under way the chain holds, and the three agree if and only if no insert had its update refused or outdated and no eject its delete refused |
| BootAndPower.SetBootEffect | pkg/resourcemanager/virtualmachine_resourcemanager.go:316-339 | succeeds unless the class named has no device; then exactly one boot order, value 1 on the first device of the class, or none, and nothing else changed, for lists of any length |
| BootAndPower.BootOrdersDetermine | pkg/resourcemanager/virtualmachine_resourcemanager.go:316-339 | those properties determine the resulting template |
| BootAndPower.LastBootWins | pkg/resourcemanager/virtualmachine_resourcemanager.go:316-339 | what earlier calls set has no influence on success or result |
| BootAndPower.PowerCallEffect | pkg/resourcemanager/virtualmachine_resourcemanager.go:253-297 | a power call succeeds exactly if its two API calls do, sets the one power field that is in use, and changes nothing else |
| BootAndPower.PowerCycleEffect | pkg/resourcemanager/virtualmachine_resourcemanager.go:299-302 | succeeds exactly if there is an instance and the call is served; takes the instance away unless the call is refused, and touches nothing else |
| BootAndPower.BootCallEffect | pkg/resourcemanager/virtualmachine_resourcemanager.go:304-354 | exactly when the call succeeds; a successful call sets the boot orders of its device and the cached override of the same class, and nothing else |
| CallErrors.BootError | pkg/resourcemanager/virtualmachine_resourcemanager.go:304-345 | which error a boot call returns, for every world and all outcomes |
| CallErrors.PowerErrors | pkg/resourcemanager/virtualmachine_resourcemanager.go:253-302 | which error power calls return, for every world and all outcomes |
| BootAndPower.OverrideOverRuns | pkg/resourcemanager/virtualmachine_resourcemanager.go:341-351 | over every run, failures included, an override in force names the class that holds the boot order |
| BootOverride.OneTarget | pkg/resourcemanager/virtualmachine_resourcemanager.go:316-339 | a template shows the boot orders of one target only |
| BootOverride.BootInCases | pkg/resourcemanager/virtualmachine_resourcemanager.go:304-354 | for every world and all outcomes, what a boot call leaves in the spec and in the view |
| BootOverride.OverrideExactly | pkg/resourcemanager/virtualmachine_resourcemanager.go:304-354 | over every sequential run from a fresh view, whatever is refused or lost, the cached override names the class that holds the boot order if and only if an automaton over the outcomes says so |
| BootOverride.CallBreaksOverrideExactly | pkg/resourcemanager/virtualmachine_resourcemanager.go:341-351 | from a right override a call leaves a wrong one if and only if it is a boot call for another target, an override is in force, the devices are there, its read is served and its update takes effect with its reply lost |
| BootOverride.LostReplyBreaksOverride | pkg/resourcemanager/virtualmachine_resourcemanager.go:341-351 | from every fresh view of a machine with both classes of devices, two calls of which the second loses its reply leave the wrong override in force |
| OverrideRaces.ViewsFollowCommits | pkg/resourcemanager/virtualmachine_resourcemanager.go:341-351 | under every interleaving a boot call writes the view only after an update of a boot call took effect |
| OverrideRaces.LastTargetHolds | pkg/resourcemanager/virtualmachine_resourcemanager.go:316-339 | the machine shows the boot orders of the last boot operation's target after any serial run |
| OverrideRaces.LastBootViewDecides | pkg/resourcemanager/computersystem_resource.go:115-118 | under every interleaving the cached override is that of the last boot call to write it |
| OverrideRaces.OverrideUnderInterleaving | pkg/resourcemanager/virtualmachine_resourcemanager.go:304-354 | under every interleaving, failure and lost reply, the cached override names the class that holds the boot order if and only if none has been written or the last one written and the last boot update to take effect have the same target |
| OverrideRaces.RaceBreaksOverride | pkg/resourcemanager/virtualmachine_resourcemanager.go:341-351 | from every such beginning, a race of two successful boot calls that leaves the wrong override in force |
| OverrideRaces.ScheduledOverride | pkg/resourcemanager/virtualmachine_resourcemanager.go:304-354 | over every interleaving in which no boot call begins while another is unfinished and none loses a reply, the override is right whenever none is under way |
| BootAndPower.PowerProjection | pkg/resourcemanager/virtualmachine_resourcemanager.go:259-291 | the power fields after a run are those of its power operations alone |
| BootAndPower.LastPowerWins | pkg/resourcemanager/virtualmachine_resourcemanager.go:259-291 | the last power operation decides, through `running` or through the run strategy and never both |
| BootAndPower.PowerFieldsApart | pkg/resourcemanager/virtualmachine_resourcemanager.go:259-291 | `running` and `runStrategy` are both set after a run if and only if they were before |
| BootAndPower.MediaProjection | pkg/resourcemanager/virtualmachine_resourcemanager.go:150-219 | the volumes after a run are those of its media operations alone |
| BootAndPower.BootProjection | pkg/resourcemanager/virtualmachine_resourcemanager.go:316-339 | the boot orders after a run are those of its last boot operation alone |
| BootAndPower.TraceProjection | pkg/resourcemanager/virtualmachine_resourcemanager.go:130-354 | all projections together; the first CD-ROM disk keeps its name |
| BootAndPower.InterleavedProjection | pkg/resourcemanager/virtualmachine_resourcemanager.go:130-354 | the projections hold of every interleaving, through its updates in order |
| FrontEnds.IpmiHandler.HandleChassisControl | pkg/ipmi/handler.go:20-49 | state and success are those of the operation the control byte stands for; a failure is ErrInvalidState |
| FrontEnds.IpmiHandler.HandleSetSystemBootOptions | pkg/ipmi/handler.go:72-106 | parameters other than 5 do nothing; boot flags set the device; a failure is ErrUnspecified |
| FrontEnds.RedfishHandler.PatchComputerSystem | pkg/redfish/handler.go:210-229 | a boot device is set only for an override that is not disabled and a target of Pxe or Hdd |
| FrontEnds.RedfishHandler.ComputerSystemReset | pkg/redfish/handler.go:231-245 | five reset types are power operations, all others fail without effect |
| FrontEnds.RedfishHandler.ComputerSystemSetDefaultBootOrder | pkg/redfish/handler.go:250-256 | sets the first listed device, or none |
| FrontEnds.RedfishHandler.VirtualMediaInsert | pkg/redfish/handler.go:177-179 | the insert of the manager |
| FrontEnds.RedfishHandler.VirtualMediaEject | pkg/redfish/handler.go:173-175 | the eject of the manager |
| FrontEnds.ControlBytes | pkg/ipmi/handler.go:28-38 | in literal bytes: 0 and 5 are the PowerOff call, 1 PowerOn, 2 and 3 PowerCycle, and all others do nothing and succeed |
| FrontEnds.BootFlags | pkg/ipmi/handler.go:80-101 | in literal bytes: parameters other than 5 do nothing; second byte 4 is the call for Pxe, 8 for Hdd, and all others the call for no device |
| FrontEnds.ResetTypes | pkg/redfish/handler.go:231-245 | in literal reset types: which power call each of the five makes; all other types fail without a call |
| FrontEnds.Patches | pkg/redfish/handler.go:210-229 | every enabled value but Disabled with target Pxe or Hdd is the boot call for it; everything else does nothing and succeeds |
| FrontEnds.OtherActions | pkg/redfish/handler.go:173-256 | insert, eject and the boot order are the calls of these names, the latter with the first listed device or none |
| FrontEnds.Translate | pkg/ipmi/handler.go:28-94 | total: at most one Redfish action, never a media action nor a rejected one |
| FrontEnds.TranslationInvokes | pkg/ipmi/handler.go:28-94 | a command and its translation make the same request of the manager |
| FrontEnds.Simulation | pkg/redfish/handler.go:210-256 | every IPMI command sequence and its translation go through the same states with the same success at each step, whatever fails |
| FrontEnds.OtherDevicesAlike | pkg/resourcemanager/virtualmachine_resourcemanager.go:325-351 | a device that is neither Pxe nor Hdd has the effect of no device |
| FrontEnds.DefaultOrderExactly | pkg/redfish/handler.go:247-256 | a SetDefaultBootOrder that succeeds leaves no boot order at all, which is the default, if and only if it lists no device or first one that is neither Pxe nor Hdd |
| FrontEnds.DefaultOrderMisused | pkg/redfish/handler.go:247-256 | an instance that succeeds and leaves a boot order |
| FrontEnds.Expressible | pkg/redfish/handler.go:173-256 | a Redfish action has an equivalent IPMI command if and only if it is neither a media action nor an unsupported reset |
| Bmcs.FetchedBmc.SetStatusCondition | internal/controller/virtualmachinebmc/controller.go:303-310 | the upsert by type that the controllers use; reports a change exactly if no equal condition of that type was first |
| Bmcs.UpsertFinds | internal/controller/virtualmachinebmc/controller.go:351-358 | an upsert is found under its type and hides no other type |
| Bmcs.UpsertKeepsUnique | internal/controller/virtualmachinebmc/controller.go:351-358 | an upsert keeps condition types unique |
| Bmcs.FoundSecretNames | internal/controller/virtualmachinebmc/controller.go:351-356 | equal messages are about the same Secret |
| Bmcs.FoundVmNames | internal/controller/virtualmachinebmc/controller.go:303-308 | equal messages are about the same virtual machine |
| Bmcs.VmCondition | internal/controller/virtualmachinebmc/controller.go:287-308 | the condition is True exactly if the virtual machine was found, with the reason that goes with it |
| Bmcs.SecretCondition | internal/controller/virtualmachinebmc/controller.go:334-356 | the same for the Secret |
| Bmcs.VmConditionsDiffer | internal/controller/virtualmachinebmc/controller.go:287-308 | within a namespace two of these conditions are equal if and only if they are about the same name and both found or both not found |
| Bmcs.SecretConditionsDiffer | internal/controller/virtualmachinebmc/controller.go:334-356 | the same for the Secret |
| Bmcs.Validate | internal/webhook/bmc/v1beta1/virtualmachinebmc_webhook.go:96-199 | admitted if and only if both references are set, not empty and name existing objects of the namespace, and both lookups succeed |
| Bmcs.AdmissionErrors | internal/webhook/bmc/v1beta1/virtualmachinebmc_webhook.go:146-199 | which error names which cause, and that the virtual machine is looked at before the Secret |
| Reconciler.VirtualMachineBMCReconciler.ValidateVirtualMachineExists | internal/controller/virtualmachinebmc/controller.go:272-312 | takes a pass on exactly as the machine does; false in the very pass that changes the condition |
| Reconciler.VirtualMachineBMCReconciler.ValidateSecretExists | internal/controller/virtualmachinebmc/controller.go:314-360 | the same for the Secret; true only if the reference is set |
| Reconciler.VirtualMachineBMCReconciler.DeleteVirtBMCPod | internal/controller/virtualmachinebmc/controller.go:248-270 | deletes the Pod of the virtual machine's name; an absent Pod is no error |
| Reconciler.VirtualMachineBMCReconciler.EnsureRBACResources | internal/controller/virtualmachinebmc/controller.go:97-133 | ServiceAccount, then RoleBinding; existing ones are no error |
| Reconciler.VirtualMachineBMCReconciler.CreateAgent | internal/controller/virtualmachinebmc/controller.go:422-450 | Pod, then Service; existing ones are no error |
| Reconciler.VirtualMachineBMCReconciler.Reconcile | internal/controller/virtualmachinebmc/controller.go:381-451 | cluster, calls used and result are those of the machine run alone, and the pass does not panic |
| Reconciler.VirtualMachineBMCReconciler.FindVirtualMachineBMCsForSecretAndVM | internal/controller/virtualmachinebmc/controller.go:508-555 | if the list call fails, returns nothing and does nothing; otherwise returns the matches in list order, removes no Pod but those of the matches of a Secret, all of them if no delete is refused, and none for a virtual machine |
| Reconciler.Positions | internal/controller/virtualmachinebmc/controller.go:519-552 | the positions of exactly the matching items, in order and each once |
| Reconciler.Requests | internal/controller/virtualmachinebmc/controller.go:540-551 | one request for each match, in list order, with that object's name |
| Reconciler.PositionsMean | internal/controller/virtualmachinebmc/controller.go:522-537 | an item is in the answer if and only if it is in the namespace of the changed object and references it by virtualMachineRef for a virtual machine, or by authSecretRef for a Secret |
| Reconciler.DoomedMean | internal/controller/virtualmachinebmc/controller.go:528-533 | the Pods that go with a Secret are exactly those named after the machines of the items that reference it; none goes with a virtual machine |
| WatchMapping.RoundIsSweep | internal/controller/virtualmachinebmc/controller.go:519-537 | one round of the loop does to the cluster what one step of a delivery in the runs over credentials does |
| WatchMapping.LoopIsDelivery | internal/controller/virtualmachinebmc/controller.go:519-552 | the whole loop does what the whole delivery does, whatever deletes fail |
| Convergence.PassInOneStep | internal/controller/virtualmachinebmc/controller.go:381-451 | a pass without failures equals a description in one step: set both conditions, then make all objects if both validators returned true, else delete the Pod |
| Convergence.ConditionsTell | internal/controller/virtualmachinebmc/controller.go:272-360 | after a pass both conditions are there, and each is True if and only if the object that the spec names exists |
| Convergence.WhatAPassMakes | internal/controller/virtualmachinebmc/controller.go:62-246 | by the names in the spec: a pass makes the ServiceAccount, the RoleBinding with its role and subject, the Pod with its two labels, ServiceAccount and Secret, and the Service with its two labels, under their names, and nothing else |
| Convergence.SettledIsFixpoint | internal/controller/virtualmachinebmc/controller.go:272-451 | a pass changes nothing if and only if conditions and objects match the prerequisites |
| Convergence.PassDecreases | internal/controller/virtualmachinebmc/controller.go:272-451 | a pass that writes decreases the pair (stale conditions, missing objects or leftover Pod) |
| Convergence.Quiesce | internal/controller/virtualmachinebmc/controller.go:491-505 | passes driven by their own events come to an end |
| Convergence.TwoPassesSettle | internal/controller/virtualmachinebmc/controller.go:272-451 | two passes settle any state and a third writes nothing |
| Convergence.RolloverExactly | internal/controller/virtualmachinebmc/controller.go:351-432 | reconciling until quiet leaves a Pod for the Secret of the spec if and only if there was no Pod, the right Pod or a stale condition |
| Convergence.TakeKeepsReported | internal/controller/virtualmachinebmc/controller.go:351-432 | edits of the Secret reference and passes keep Pod and reported Secret in step |
| Convergence.ReportedHeals | internal/controller/virtualmachinebmc/controller.go:351-432 | a Pod made for the Secret that is reported, but not for that of the spec, is replaced by passes until quiet |
| Convergence.SecretRollover | internal/controller/virtualmachinebmc/controller.go:138-141 | after any edits of the reference interleaved with passes, reconciling until quiet leaves a Pod for the Secret last named, if it exists |
| Convergence.InterruptedRollover | internal/controller/virtualmachinebmc/controller.go:357-408 | a pass that stops between status write and Pod delete leaves the old Pod whatever passes follow |
| Rollover.TurnExactly | internal/controller/virtualmachinebmc/controller.go:314-408 | between any two API calls, an event keeps Pod and reported Secret in step if and only if it is not a lost reply to the write of the Secret condition, a refused delete or a stop before the delete, with a Pod that is due to go |
| Rollover.RolloverOverRuns | internal/controller/virtualmachinebmc/controller.go:138-141 | after any edits of the reference between any two API calls of passes, conflicts and all other failures included, whenever no pass is under way and both prerequisites exist, reconciling until quiet leaves a Pod for the Secret of the spec |
| Rollover.WrongPodHeals | internal/controller/virtualmachinebmc/controller.go:351-432 | the Pods of the two failing runs of gating are replaced by later passes |
| Passes.NamesApart | internal/controller/virtualmachinebmc/controller.go:62-95 | derived object names are equal if and only if namespace and virtual machine are |
| Passes.NothingMade | internal/controller/virtualmachinebmc/controller.go:97-133 | a cluster in which nothing has been made satisfies the invariants of creation order and gating |
| Passes.CreationOrder | internal/controller/virtualmachinebmc/controller.go:97-133 | over all runs a RoleBinding implies its ServiceAccount, a Pod or Service implies both, and what they refer to exists |
| Passes.EveryPassGated | internal/controller/virtualmachinebmc/controller.go:393-416 | over all runs with stale reads a pass creates objects only on a status that was stored and reports both prerequisites, and on having found both |
| Passes.PodsAreGated | internal/controller/virtualmachinebmc/controller.go:403-432 | over all runs a Pod appears only for an object state that was stored and reports both prerequisites True under exactly the names in its spec, both of which existed, and carries the labels of that object and machine, its ServiceAccount and its Secret |
| Passes.ServicesAreGated | internal/controller/virtualmachinebmc/controller.go:436-446 | over all runs a Service appears on the same terms and carries the labels of that object and machine |
| Passes.PodsAreGatedNow | internal/controller/virtualmachinebmc/controller.go:403-432 | when the Pod appears, the stored object is the one the pass read if and only if its version is; while it reports what that one did, its status reports both for the names in its spec if and only if its references are those that the pass read |
| Passes.ReportsExactly | internal/controller/virtualmachinebmc/controller.go:303-308 | equal conditions report both names of two specs if and only if the two specs have the same references |
| PodGating.EventInStep | internal/controller/virtualmachinebmc/controller.go:381-451 | in an orderly run, one pass at a time over each object with an up-to-date fetch, an event keeps the conditions of every copy those of the stored object |
| PodGating.GatedExactly | internal/controller/virtualmachinebmc/controller.go:403-432 | over every orderly run, whatever fails or stops: when a Pod appears, the status stored at that moment reports both for the names in the stored spec if and only if no reference has been edited since the fetch |
| PodGating.PodForEditedSecret | internal/controller/virtualmachinebmc/controller.go:398-432 | the first failing run: authSecretRef is edited between the check and the creation, so that the Pod is for a Secret the stored spec does not name |
| PodGating.PodFromStaleRead | internal/controller/virtualmachinebmc/controller.go:385-432 | the second failing run: the edit is over before the pass begins, which reads the object as it was before |
| Passes.PassGatesPod | internal/controller/virtualmachinebmc/controller.go:381-451 | a pass without an error ends with the Pod present if and only if both validators returned true, and then with ServiceAccount, RoleBinding and Service too, whatever calls fail |
| Passes.FailsExactly | internal/controller/virtualmachinebmc/controller.go:381-451 | in every state, a call ends its pass in an error if and only if it is a read that fails or a write that is refused, loses its reply, or is a status update on a missing object or another version; an existing object to create or an absent Pod to delete is no error |
| Passes.NoPanic | internal/webhook/bmc/v1beta1/virtualmachinebmc_webhook.go:146-199 | over all runs on admitted objects no pass dereferences a missing reference |
| NonInterference.StepsCommute | internal/controller/virtualmachinebmc/controller.go:381-451 | two steps of passes for different virtual machines commute |
| NonInterference.InterleavingIsSerial | internal/controller/virtualmachinebmc/controller.go:381-451 | any interleaving of two such passes, with any failures, equals one pass after the other |
| NonInterference.InterleavingsAgree | internal/controller/virtualmachinebmc/controller.go:381-451 | interleavings of the same steps end in the same cluster |
| Credentials.CredentialCoherence | internal/controller/virtualmachinebmc/controller.go:508-555 | in every reachable state in which the calls of the watch mapping got through, each running Pod has the current version of its Secret or an event for that Secret has still to reach it |
| Credentials.ProcessExactly | internal/controller/virtualmachinebmc/controller.go:529-537 | one round of the watch mapping keeps that property if and only if its delete is not refused, or the Pod is current, or an event reaches it by another way |
| Credentials.FailListExactly | internal/controller/virtualmachinebmc/controller.go:511-515 | a failing list keeps it if and only if no Pod with old credentials was waiting for that event alone |
| Credentials.EventExactly | internal/controller/virtualmachinebmc/controller.go:508-555 | an event of any kind keeps it if and only if it loses no Pod in one of these two ways |
| Credentials.CoherenceExactly | internal/controller/virtualmachinebmc/controller.go:508-555 | a run is coherent in every state if and only if no event of it loses a Pod |
| CredentialLoss.LossFromStart | internal/controller/virtualmachinebmc/controller.go:531-533 | from every beginning with an object in order, a run in which only the last delete of the mapping is refused and the Pod is lost |
| CredentialLoss.LostForGood | internal/controller/virtualmachinebmc/controller.go:381-451 | over every later run of passes, deliveries, failures and changes of other Secrets, a lost Pod keeps its old credentials, as long as its Secret is not touched again |
| CredentialLoss.QuietMakesPod | internal/controller/virtualmachinebmc/controller.go:381-451 | without a Pod and with both prerequisites there, passes until quiet make the Pod anew, not yet started, for the Secret of the spec |
| CredentialLoss.ChangeArrives | internal/controller/virtualmachinebmc/controller.go:508-555 | a write of a Secret, its whole delivery and passes until quiet leave a Pod whose container starts on the new version |
| ServiceController.ServiceReconciler.Reconcile | internal/controller/service/controller.go:48-105 | cluster, calls used and result are those of the Service controller's machine run alone |
| ServiceController.ServiceReconciler.Publish | internal/controller/service/controller.go:82-100 | the two status writes of a pass that has read both objects, for stale copies too |
| Address.ServicePassEffect | internal/controller/service/controller.go:48-105 | exactly when a pass over a Service ends without an error; it touches no more than the status of the object in the Service's label, and leaves there the old status, Ready added, or Ready and the address, the last whenever it ends without an error |
| Address.WhatIsPublished | internal/controller/service/controller.go:82-100 | a pass without an error leaves the address, and the condition Ready True with its reason and message |
| Address.BothControllersRest | internal/controller/service/controller.go:63-100 | once passes have settled and the Service made by them has an address, a pass over it publishes the address on the same object, and after that neither controller changes anything |
| Address.PublishedIsQuiet | internal/controller/service/controller.go:82-100 | publishing an address that is already there changes nothing |
| SharedStatus.StatusOverRuns | internal/controller/service/controller.go:72-100 | over all runs of both controllers with stale reads: condition types unique, an address only with Ready True, Ready once True stays True |
| SharedStatus.WritersKeepApart | internal/controller/service/controller.go:82-100 | neither controller alters the other's conditions or address |
| Sessions.TokenStore.AddToken | pkg/session/token.go:51-59 | stores the session under its token and keeps every key the token of its value |
| Sessions.TokenStore.GetToken | pkg/session/token.go:61-68 | a session that is found has that token |
| Sessions.TokenStore.RemoveToken | pkg/session/token.go:70-75 | removes that token alone |
| Sessions.TokenStore.GetTokenFromSessionID | pkg/session/token.go:77-88 | finds some session of that ID in whatever order, and none exactly if there is none |
| Sessions.RunsAgree | pkg/session/token.go:44-75 | over every run the store and a plain map of live sessions hold the same sessions |
| Sessions.IndexAgreement | pkg/session/token.go:44-88 | after every run the lookup by token and the scan by ID return the same record, whatever the order of the scan, and both match the live map |

## Left out

- Manager.VirtualMachineResourceManager.Initialize: the namespace and name that it copies from the fetched machine are constants of the model, and the Redfish manager resource with its links is not modelled.
- Bmcs.FoundSecretNames: `%q` is plain quotation marks; escaping of special characters is not modelled.
- Reconciler.VirtualMachineBMCReconciler.Reconcile: requires a virtual machine reference on the object read, since the code dereferences it without a test; the machine has the panic, and Passes.NoPanic shows that admission excludes it.
- FrontEnds.IpmiHandler.HandleSetSystemBootOptions: requires two bytes of boot flags, which the code reads without a test; message decoding is left out.
- MediaViewChain.ViewOverRuns: the chain with its image and connection is claimed without lost replies, which break it (see LostReplyBreaksChain); BitsOverRuns has no such limit. Initialize again in the middle of a run is not in it, since that builds a fresh view over whatever is attached.
- BootAndPower.OverrideOverRuns: sequential runs without lost replies; OverrideExactly and OverrideUnderInterleaving have no such limit.
- Convergence.TwoPassesSettle: needs both references, as admission does, no failing calls and nothing else changing; Passes has failures and interference.
- Convergence.SecretRollover: the reference to the virtual machine is fixed and edits fall between whole passes; Rollover.RolloverOverRuns has edits between any two API calls.
- Credentials.CredentialCoherence: references are fixed and the list and delete calls of the watch mapping get through; CoherenceExactly says exactly what becomes of it otherwise.
- PodGating.GatedExactly: one pass at a time over each object, as the work queue of the controller runtime has it, and an up-to-date fetch; Passes.PodsAreGated needs neither.
- Two VirtualMachineBMC objects on one virtual machine share object names, so the convergence, rollover and non-interference results are about objects on different ones.
- Deletes take effect at once: graceful termination of Pods is not modelled, nor is garbage collection by owner reference or a failing SetControllerReference.
- Writers of the virtual machine spec other than the manager: only writes that leave the spec alone are modelled.
- GetPowerStatus, chassis status and the other getters: they only read.
- The Redfish manager resource and all records other than boot and virtual media.
- GetRemoteFileSize: the size is a parameter that is a natural number or an error.
- HTTP and UDP servers, routing, the command line, AuthMiddleware, Authenticate.
- SHA-256 and JSON in token generation: an abstract injective function.  Its values are atomic in the store, so the read-write lock is not modelled.
- DeleteSession passes a session ID where the store expects a token; nothing is claimed about ending a session that way.
- What KubeVirt and CDI do with the objects, so PowerCycle is the deletion of the instance and no more.
- Pod contents other than labels, ServiceAccount and Secret; transition times and observed generations of conditions.
- slices.DeleteFunc zeroes the cells behind the new end of the slice; nothing reads them.
