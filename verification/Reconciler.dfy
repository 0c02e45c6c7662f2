/** The reconcile pass and the watch mapping as methods over a cluster client. */
module Reconciler {
  import opened Basics
  import opened Bmcs
  import opened Reconcile

  /** The cluster as the controller's client sees it; `script` decides the outcome of each call. */
  class Client {
    var vms: set<Key>
    var secrets: map<Key, nat>
    var bmcs: map<Key, Bmc>
    var accounts: set<Key>
    var bindings: map<Key, RoleBinding>
    var pods: map<Key, Pod>
    var services: map<Key, Service>
    var script: seq<Outcome>

    function State(): Kube
      reads this
    {
      Kube(vms, secrets, bmcs, accounts, bindings, pods, services)
    }

    constructor (k: Kube, script: seq<Outcome>)
      ensures State() == k && this.script == script
    {
      vms, secrets, bmcs := k.vms, k.secrets, k.bmcs;
      accounts, bindings, pods, services := k.accounts, k.bindings, k.pods, k.services;
      this.script := script;
    }

    method NextOutcome() returns (o: Outcome)
      modifies this`script
      ensures o == Head(old(script)) && script == Tail(old(script))
    {
      o := Head(script);
      script := Tail(script);
    }

    method GetBmc(key: Key) returns (b: FetchedBmc?, a: Answer)
      modifies this`script
      ensures script == Tail(old(script))
      ensures a == if !Head(old(script)).Served? then ApiError else if key in bmcs then Ok else Answer.NotFound
      ensures b != null <==> a.Ok?
      ensures b != null ==> fresh(b) && b.Value() == bmcs[key]
    {
      var o := NextOutcome();
      if !o.Served? {
        return null, ApiError;
      }
      if key !in bmcs {
        return null, Answer.NotFound;
      }
      b := new FetchedBmc(bmcs[key]);
      return b, Ok;
    }

    method Lookup(key: Key, existing: set<Key>) returns (a: Answer)
      modifies this`script
      ensures script == Tail(old(script))
      ensures a == if !Head(old(script)).Served? then ApiError else if key in existing then Ok else Answer.NotFound
    {
      var o := NextOutcome();
      return if !o.Served? then ApiError else if key in existing then Ok else Answer.NotFound;
    }

    method UpdateStatus(key: Key, b: FetchedBmc) returns (a: Answer)
      modifies this`script, this`bmcs, b`version
      ensures script == Tail(old(script))
      ensures (State(), a) == Submit(old(State()), Write.UpdateStatus(key, old(b.version), old(b.Value()).status),
                                      Head(old(script)))
      ensures a.Ok? ==> key in bmcs
      ensures a.Ok? && b.spec == old(bmcs)[key].spec ==> b.Value() == bmcs[key]
    {
      var o := NextOutcome();
      if o.Refused? {
        return ApiError;
      }
      if key !in bmcs {
        return Answer.NotFound;
      }
      if bmcs[key].version != b.version {
        return Conflict;
      }
      bmcs := bmcs[key := WithStatus(bmcs[key], b.Value().status)];
      if o.Lost? {
        return ApiError;
      }
      b.version := bmcs[key].version;
      return Ok;
    }

    method Do(w: Write) returns (a: Answer)
      requires !w.UpdateStatus?
      modifies this`script, this`accounts, this`bindings, this`pods, this`services
      ensures script == Tail(old(script))
      ensures (State(), a) == Submit(old(State()), w, Head(old(script)))
    {
      var o := NextOutcome();
      if o.Refused? {
        return ApiError;
      }
      match w {
        case CreateAccount(key) =>
          if key in accounts {
            return AlreadyExists;
          }
          accounts := accounts + {key};
        case CreateBinding(key, rb) =>
          if key in bindings {
            return AlreadyExists;
          }
          bindings := bindings[key := rb];
        case CreatePod(key, pod) =>
          if key in pods {
            return AlreadyExists;
          }
          pods := pods[key := pod];
        case DeletePod(key) =>
          if key !in pods {
            return Answer.NotFound;
          }
          pods := pods - {key};
        case CreateService(key, svc) =>
          if key in services {
            return AlreadyExists;
          }
          services := services[key := svc];
      }
      return if o.Lost? then ApiError else Ok;
    }
  }

  /** What is left of a pass, from a given point. */
  ghost function Rest(c: Client, key: Key, b: Bmc, stage: Stage): Run
    reads c
  {
    Finish(Run(c.State(), Pass(key, b, stage), c.script))
  }

  lemma FinishHop(r: Run)
    requires !Over(r.pass)
    ensures Finish(r) == Finish(Hop(r))
  {
  }

  /** How a pass begins. */
  lemma FetchDecides(k: Kube, key: Key, script: seq<Outcome>)
    ensures ReconcileRun(k, key, script) ==
              if !Head(script).Served? then Run(k, Start(key).(stage := Done(true, false)), Tail(script))
              else if key !in k.bmcs then Run(k, Start(key).(stage := Done(false, false)), Tail(script))
              else Finish(Run(k, Pass(key, k.bmcs[key], CheckingVM), Tail(script)))
  {
    FinishHop(Run(k, Start(key), script));
  }

  /** How a pass goes on from a creation. */
  lemma CreateDecides(k: Kube, p: Pass, script: seq<Outcome>)
    requires MakingObjects(p.stage)
    ensures var (k', a) := Submit(k, Request(p).value, Head(script));
            Finish(Run(k, p, script)) ==
              if a.Ok? || a.AlreadyExists? then Finish(Run(k', WriteStep(p, k', a), Tail(script)))
              else Run(k', p.(stage := Done(true, true)), Tail(script))
  {
    FinishHop(Run(k, p, script));
  }

  /** How a pass ends that deletes the Pod. */
  lemma DropDecides(k: Kube, p: Pass, script: seq<Outcome>)
    requires p.stage.Dropping?
    ensures var (k', a) := Submit(k, DeletePod(AgentKey(p.key.ns, VmOf(p.obj))), Head(script));
            Finish(Run(k, p, script)) == Run(k', p.(stage := Done(!a.Ok? && !a.NotFound?, false)), Tail(script))
  {
    FinishHop(Run(k, p, script));
  }

  /** How a pass goes on from the check of the Secret. */
  lemma SecretDecides(k: Kube, p: Pass, script: seq<Outcome>)
    requires p.stage.CheckingSecret?
    ensures var rest := Finish(Run(k, p, script));
            var found := Key(p.key.ns, SecretOf(p.obj)) in k.secrets;
            var c := SecretCondition(p.key.ns, SecretOf(p.obj), found);
            if p.obj.spec.secretRef.None? then
              rest == Finish(Run(k, p.(stage := AfterValidation(p.stage.vmOk, false)), script))
            else if !Head(script).Served? then
              rest == Finish(Run(k, p.(stage := Done(true, false)), Tail(script)))
            else if Find(p.obj.status.conditions, SECRET_AVAILABLE) == Some(c) then
              rest == Finish(Run(k, p.(stage := AfterValidation(p.stage.vmOk, found)), Tail(script)))
            else
              var (k', a) := Submit(k, UpdateStatus(p.key, p.obj.version, Upserted(p.obj, c)), Head(Tail(script)));
              var p' := if a.Ok? && p.key in k'.bmcs
                        then Pass(p.key, k'.bmcs[p.key], AfterValidation(p.stage.vmOk, false))
                        else p.(stage := Done(true, false));
              rest == Finish(Run(k', p', Tail(Tail(script))))
  {
    FinishHop(Run(k, p, script));
    var r := Hop(Run(k, p, script));
    if r.pass.stage.WritingSecret? {
      FinishHop(r);
    }
  }

  /** A copy of the stored version is a copy of the stored object; other copies may be stale. */
  predicate VersionDecides(k: Kube, key: Key, b: Bmc) {
    key in k.bmcs && k.bmcs[key].version == b.version ==> k.bmcs[key] == b
  }

  class VirtualMachineBMCReconciler {
    const client: Client

    constructor (client: Client)
      ensures this.client == client
    {
      this.client := client;
    }

    method ValidateVirtualMachineExists(key: Key, b: FetchedBmc) returns (ok: bool, err: bool)
      requires b.spec.vmRef.Some?
      requires VersionDecides(client.State(), key, b.Value())
      modifies client`script, client`bmcs, b`conditions, b`version
      ensures Rest(client, key, if err then old(b.Value()) else b.Value(),
                   if err then Done(true, false) else CheckingSecret(ok))
           == old(Rest(client, key, b.Value(), CheckingVM))
      ensures !err ==> VersionDecides(client.State(), key, b.Value())
    {
      ghost var p := Pass(key, b.Value(), CheckingVM);
      FinishHop(Run(client.State(), p, client.script));
      var vm := b.spec.vmRef.value;
      var a := client.Lookup(Key(key.ns, vm), client.vms);
      if a.ApiError? {
        return false, true;
      }
      var c := VmCondition(key.ns, vm, a.Ok?);
      var changed := b.SetStatusCondition(c);
      if changed {
        FinishHop(Run(client.State(), p.(stage := WritingVM(c)), client.script));
        var u := client.UpdateStatus(key, b);
        return false, !u.Ok?;
      }
      return a.Ok?, false;
    }

    method ValidateSecretExists(key: Key, b: FetchedBmc, ghost vmOk: bool) returns (ok: bool, err: bool)
      requires VersionDecides(client.State(), key, b.Value())
      modifies client`script, client`bmcs, b`conditions, b`version
      ensures Rest(client, key, if err then old(b.Value()) else b.Value(),
                   if err then Done(true, false) else AfterValidation(vmOk, ok))
           == old(Rest(client, key, b.Value(), CheckingSecret(vmOk)))
      ensures !err ==> VersionDecides(client.State(), key, b.Value())
      ensures ok ==> b.spec.secretRef.Some?
    {
      ghost var p := Pass(key, b.Value(), CheckingSecret(vmOk));
      SecretDecides(client.State(), p, client.script);
      if b.spec.secretRef.None? {
        return false, false;
      }
      var secret := b.spec.secretRef.value;
      var a := client.Lookup(Key(key.ns, secret), client.secrets.Keys);
      if a.ApiError? {
        return false, true;
      }
      var c := SecretCondition(key.ns, secret, a.Ok?);
      var changed := b.SetStatusCondition(c);
      if changed {
        var u := client.UpdateStatus(key, b);
        return false, !u.Ok?;
      }
      return a.Ok?, false;
    }

    method DeleteVirtBMCPod(ns: string, vm: string) returns (err: bool)
      modifies client`script, client`accounts, client`bindings, client`pods, client`services
      ensures client.script == Tail(old(client.script))
      ensures client.State() == Submit(old(client.State()), DeletePod(AgentKey(ns, vm)), Head(old(client.script))).0
      ensures err <==> var a := Submit(old(client.State()), DeletePod(AgentKey(ns, vm)), Head(old(client.script))).1;
                       !a.Ok? && !a.NotFound?
    {
      var a := client.Do(DeletePod(AgentKey(ns, vm)));
      return !a.Ok? && !a.NotFound?;
    }

    method EnsureRBACResources(key: Key, b: FetchedBmc) returns (err: bool)
      requires b.spec.vmRef.Some?
      modifies client`script, client`accounts, client`bindings, client`pods, client`services
      ensures Rest(client, key, b.Value(), if err then Done(true, true) else MakingPod)
           == old(Rest(client, key, b.Value(), MakingAccount))
    {
      ghost var p := Pass(key, b.Value(), MakingAccount);
      ghost var target := Rest(client, key, b.Value(), MakingAccount);
      CreateDecides(client.State(), p, client.script);
      var a := client.Do(CreateAccount(AgentKey(key.ns, b.spec.vmRef.value)));
      if !a.Ok? && !a.AlreadyExists? {
        return true;
      }
      assert Rest(client, key, b.Value(), MakingBinding) == target;
      CreateDecides(client.State(), p.(stage := MakingBinding), client.script);
      a := client.Do(CreateBinding(BindingKey(key.ns, b.spec.vmRef.value), ConstructRoleBinding(key.ns, b.Value())));
      return !a.Ok? && !a.AlreadyExists?;
    }

    method CreateAgent(key: Key, b: FetchedBmc) returns (err: bool)
      requires b.spec.vmRef.Some?
      modifies client`script, client`accounts, client`bindings, client`pods, client`services
      ensures Rest(client, key, b.Value(), Done(err, true))
           == old(Rest(client, key, b.Value(), MakingPod))
    {
      ghost var p := Pass(key, b.Value(), MakingPod);
      CreateDecides(client.State(), p, client.script);
      var a := client.Do(CreatePod(AgentKey(key.ns, b.spec.vmRef.value), ConstructPod(key, b.Value())));
      if !a.Ok? && !a.AlreadyExists? {
        return true;
      }
      CreateDecides(client.State(), p.(stage := MakingService), client.script);
      a := client.Do(CreateService(AgentKey(key.ns, b.spec.vmRef.value), ConstructService(key, b.Value())));
      return !a.Ok? && !a.AlreadyExists?;
    }

    /** One pass.  The reference to the virtual machine is dereferenced without a test;
        admission guarantees it. */
    method Reconcile(key: Key) returns (err: bool)
      requires key in client.bmcs ==> client.bmcs[key].spec.vmRef.Some?
      modifies client
      ensures var r := ReconcileRun(old(client.State()), key, old(client.script));
              && client.State() == r.kube && client.script == r.script
              && r.pass.stage.Done? && err == r.pass.stage.failed
    {
      ghost var target := ReconcileRun(client.State(), key, client.script);
      FetchDecides(client.State(), key, client.script);
      var b, a := client.GetBmc(key);
      if b == null {
        return a.ApiError?;
      }
      assert Rest(client, key, b.Value(), CheckingVM) == target;
      var vmExists, secretExists;
      vmExists, err := ValidateVirtualMachineExists(key, b);
      if err {
        return;
      }
      assert Rest(client, key, b.Value(), CheckingSecret(vmExists)) == target;
      secretExists, err := ValidateSecretExists(key, b, vmExists);
      if err {
        return;
      }
      assert Rest(client, key, b.Value(), AfterValidation(vmExists, secretExists)) == target;
      if !vmExists || !secretExists {
        DropDecides(client.State(), Pass(key, b.Value(), Dropping(vmExists, secretExists)), client.script);
        err := DeleteVirtBMCPod(key.ns, b.spec.vmRef.value);
        return;
      }
      err := EnsureRBACResources(key, b);
      if err {
        return;
      }
      err := CreateAgent(key, b);
    }

    /** The delete of the watch mapping, whose error is only logged. */
    method DeletePodOfItem(item: Item)
      requires item.spec.vmRef.Some?
      modifies client`script, client`accounts, client`bindings, client`pods, client`services
      ensures client.State() == old(client.State()).(pods := client.pods)
      ensures client.pods == old(client.pods) || client.pods == old(client.pods) - {AgentOf(item)}
      ensures Calm(old(client.script)) ==> Calm(client.script) && client.pods == old(client.pods) - {AgentOf(item)}
      ensures client.State() == Submit(old(client.State()), DeletePod(AgentOf(item)), Head(old(client.script))).0
      ensures client.script == Tail(old(client.script))
    {
      assert AgentOf(item) !in client.pods ==> client.pods - {AgentOf(item)} == client.pods;
      var _ := DeleteVirtBMCPod(item.key.ns, item.spec.vmRef.value);
    }

    /** Maps a changed virtual machine or Secret to the objects that reference it; for a
        Secret it also deletes their Pods, and carries on if a delete fails.  `items` is what
        listing the namespace brings, if the list call is served; if not, nothing is done. */
    method FindVirtualMachineBMCsForSecretAndVM(changed: Changed, items: seq<Item>) returns (requests: seq<Key>)
      requires forall i :: 0 <= i < |items| && changed.ChangedSecret? && Matches(items[i], changed) ==>
                 items[i].spec.vmRef.Some?
      modifies client`script, client`accounts, client`bindings, client`pods, client`services
      ensures !Head(old(client.script)).Served? ==>
                requests == [] && client.State() == old(client.State()) && client.script == Tail(old(client.script))
      ensures Head(old(client.script)).Served? ==>
                && requests == Requests(items, changed)
                && client.State() == old(client.State()).(pods := client.pods)
                && Swept(old(client.pods), client.pods, Doomed(items, changed), Calm(Tail(old(client.script))))
                && (client.State(), client.script)
                   == Rounds(old(client.State()), Tail(old(client.script)), items, changed)
    {
      requests := [];
      var o := client.NextOutcome();
      if !o.Served? {
        return;
      }
      ghost var before, calm, k, script := client.pods, Calm(client.script), client.State(), client.script;
      assert before - {} == before;
      for j := 0 to |items|
        invariant requests == Requests(items[..j], changed)
        invariant client.State() == old(client.State()).(pods := client.pods)
        invariant Swept(before, client.pods, Doomed(items[..j], changed), calm)
        invariant calm ==> Calm(client.script)
        invariant (client.State(), client.script) == Rounds(k, script, items[..j], changed)
      {
        var item := items[j];
        assert items[..j + 1][..j] == items[..j];
        DoomedExtend(items, changed, j);
        if Matches(item, changed) {
          if changed.ChangedSecret? {
            ghost var mid := client.pods;
            DeletePodOfItem(item);
            SweptExtend(before, mid, client.pods, Doomed(items[..j], changed), AgentOf(item), calm);
          }
          requests := requests + [item.key];
        }
      }
      assert items[..|items|] == items;
    }
  }

  // ---------- The watch mapping ----------

  datatype Item = Item(key: Key, spec: Spec)

  datatype Changed = ChangedVM(key: Key) | ChangedSecret(key: Key)

  /** A listed object in the namespace of the changed one that references it. */
  predicate Matches(item: Item, changed: Changed) {
    && item.key.ns == changed.key.ns
    && (if changed.ChangedVM? then item.spec.vmRef else item.spec.secretRef) == Some(changed.key.name)
  }

  /** The positions of the matches, in order, each once. */
  function Positions(items: seq<Item>, changed: Changed): (ps: seq<nat>)
    ensures forall i, j :: 0 <= i < j < |ps| ==> ps[i] < ps[j]
    ensures forall p: int :: p in ps <==> 0 <= p < |items| && Matches(items[p], changed)
    ensures forall i :: 0 <= i < |ps| ==> ps[i] < |items|
  {
    if items == [] then []
    else
      var n := |items| - 1;
      assert forall p :: 0 <= p < n ==> items[..n][p] == items[p];
      var init := Positions(items[..n], changed);
      if Matches(items[n], changed) then init + [n] else init
  }

  /** The names of the matches, in order. */
  function Requests(items: seq<Item>, changed: Changed): (keys: seq<Key>)
    ensures |keys| == |Positions(items, changed)|
    ensures forall i :: 0 <= i < |keys| ==> keys[i] == items[Positions(items, changed)[i]].key
  {
    if items == [] then []
    else
      var n := |items| - 1;
      Requests(items[..n], changed) + (if Matches(items[n], changed) then [items[n].key] else [])
  }

  /** What the mapping does to the cluster for one item, and for a list of items in order. */
  function Round(k: Kube, script: seq<Outcome>, item: Item, changed: Changed): (Kube, seq<Outcome>) {
    if Matches(item, changed) && changed.ChangedSecret?
    then (Submit(k, DeletePod(AgentOf(item)), Head(script)).0, Tail(script))
    else (k, script)
  }

  function Rounds(k: Kube, script: seq<Outcome>, items: seq<Item>, changed: Changed): (Kube, seq<Outcome>) {
    if items == [] then (k, script)
    else
      var init := Rounds(k, script, items[..|items| - 1], changed);
      Round(init.0, init.1, items[|items| - 1], changed)
  }

  /** Which items the answer holds: those of the namespace of the changed object that reference
      it, as a virtual machine or as a Secret. */
  lemma PositionsMean(items: seq<Item>, changed: Key, i: nat)
    requires i < |items|
    ensures i in Positions(items, ChangedVM(changed)) <==>
              items[i].key.ns == changed.ns && items[i].spec.vmRef == Some(changed.name)
    ensures i in Positions(items, ChangedSecret(changed)) <==>
              items[i].key.ns == changed.ns && items[i].spec.secretRef == Some(changed.name)
  {
  }

  /** Which Pods go with a changed Secret: those of the virtual machines of these items. */
  lemma DoomedMean(items: seq<Item>, changed: Key, pod: Key)
    requires forall item :: item in items ==> item.spec.vmRef.Some?
    ensures Doomed(items, ChangedVM(changed)) == {}
    ensures pod in Doomed(items, ChangedSecret(changed)) <==>
              exists item :: item in items && item.key.ns == changed.ns && item.spec.secretRef == Some(changed.name)
                             && pod == Key(changed.ns, item.spec.vmRef.value + "-virtbmc")
  {
  }

  /** The Pods that a changed Secret takes with it. */
  function Doomed(items: seq<Item>, changed: Changed): set<Key> {
    if changed.ChangedVM? then {}
    else set item | item in items && Matches(item, changed) :: AgentOf(item)
  }

  function AgentOf(item: Item): Key {
    AgentKey(item.key.ns, if item.spec.vmRef.Some? then item.spec.vmRef.value else "")
  }

  predicate Calm(script: seq<Outcome>) {
    forall i :: 0 <= i < |script| ==> !script[i].Refused?
  }

  /** Of the Pods, none but the doomed is removed; all the doomed are, if every delete gets
      through. */
  predicate Swept(before: map<Key, Pod>, after: map<Key, Pod>, doomed: set<Key>, calm: bool) {
    && after.Keys <= before.Keys
    && before - doomed == after - doomed
    && (calm ==> after == before - doomed)
  }

  lemma SweptExtend(before: map<Key, Pod>, mid: map<Key, Pod>, after: map<Key, Pod>, doomed: set<Key>,
                    key: Key, calm: bool)
    requires Swept(before, mid, doomed, calm)
    requires after == mid || after == mid - {key}
    requires calm ==> after == mid - {key}
    ensures Swept(before, after, doomed + {key}, calm)
  {
    assert before - (doomed + {key}) == before - doomed - {key};
    assert after - (doomed + {key}) == mid - doomed - {key};
  }

  lemma DoomedExtend(items: seq<Item>, changed: Changed, j: nat)
    requires j < |items|
    ensures Doomed(items[..j + 1], changed) ==
            if changed.ChangedSecret? && Matches(items[j], changed)
            then Doomed(items[..j], changed) + {AgentOf(items[j])}
            else Doomed(items[..j], changed)
  {
    assert items[..j + 1] == items[..j] + [items[j]];
  }
}
