/** What a pass does in one step, why repeated passes settle, and when they replace a Pod
    whose Secret reference is out of date. */
module Convergence {
  import opened Basics
  import opened Bmcs
  import opened Reconcile

  /** The object exists and has both references, as admission requires. */
  predicate Admitted(k: Kube, key: Key) {
    key in k.bmcs && k.bmcs[key].spec.vmRef.Some? && k.bmcs[key].spec.secretRef.Some?
  }

  predicate VmFound(k: Kube, key: Key)
    requires Admitted(k, key)
  {
    Key(key.ns, VmOf(k.bmcs[key])) in k.vms
  }

  predicate SecretFound(k: Kube, key: Key)
    requires Admitted(k, key)
  {
    Key(key.ns, SecretOf(k.bmcs[key])) in k.secrets
  }

  function WantedVm(k: Kube, key: Key): Condition
    requires Admitted(k, key)
  {
    VmCondition(key.ns, VmOf(k.bmcs[key]), VmFound(k, key))
  }

  function WantedSecret(k: Kube, key: Key): Condition
    requires Admitted(k, key)
  {
    SecretCondition(key.ns, SecretOf(k.bmcs[key]), SecretFound(k, key))
  }

  function ConditionOf(k: Kube, key: Key, kind: string): Option<Condition>
    requires key in k.bmcs
  {
    Find(k.bmcs[key].status.conditions, kind)
  }

  predicate StaleVm(k: Kube, key: Key)
    requires Admitted(k, key)
  {
    ConditionOf(k, key, VM_AVAILABLE) != Some(WantedVm(k, key))
  }

  predicate StaleSecret(k: Kube, key: Key)
    requires Admitted(k, key)
  {
    ConditionOf(k, key, SECRET_AVAILABLE) != Some(WantedSecret(k, key))
  }

  /** The keys of the objects made for `key`. */
  function Agent(k: Kube, key: Key): Key
    requires Admitted(k, key)
  {
    AgentKey(key.ns, VmOf(k.bmcs[key]))
  }

  function Binding(k: Kube, key: Key): Key
    requires Admitted(k, key)
  {
    BindingKey(key.ns, VmOf(k.bmcs[key]))
  }

  // ---------- A pass in one step ----------

  function SetCondition(k: Kube, key: Key, c: Condition): Kube
    requires key in k.bmcs
  {
    if ConditionOf(k, key, c.kind) == Some(c) then k
    else k.(bmcs := k.bmcs[key := WithStatus(k.bmcs[key], Upserted(k.bmcs[key], c))])
  }

  function Validated(k: Kube, key: Key): Kube
    requires Admitted(k, key)
  {
    SetCondition(SetCondition(k, key, WantedVm(k, key)), key, WantedSecret(k, key))
  }

  /** Both validators return true: both objects are found and reported already. */
  predicate Prepared(k: Kube, key: Key)
    requires Admitted(k, key)
  {
    VmFound(k, key) && !StaleVm(k, key) && SecretFound(k, key) && !StaleSecret(k, key)
  }

  function Ensure<V>(m: map<Key, V>, key: Key, v: V): map<Key, V> {
    if key in m then m else m[key := v]
  }

  function WithRBAC(k: Kube, key: Key): Kube
    requires Admitted(k, key)
  {
    k.(accounts := k.accounts + {Agent(k, key)},
       bindings := Ensure(k.bindings, Binding(k, key), ConstructRoleBinding(key.ns, k.bmcs[key])))
  }

  function WithAgent(k: Kube, key: Key): Kube
    requires Admitted(k, key)
  {
    k.(pods := Ensure(k.pods, Agent(k, key), ConstructPod(key, k.bmcs[key])),
       services := Ensure(k.services, Agent(k, key), ConstructService(key, k.bmcs[key])))
  }

  function Made(k: Kube, key: Key): Kube
    requires Admitted(k, key)
  {
    WithAgent(WithRBAC(k, key), key)
  }

  function Dropped(k: Kube, key: Key): Kube
    requires Admitted(k, key)
  {
    k.(pods := k.pods - {Agent(k, key)})
  }

  function InOneStep(k: Kube, key: Key): Kube
    requires Admitted(k, key)
  {
    if Prepared(k, key) then Made(k, key) else Dropped(Validated(k, key), key)
  }

  lemma SetConditionKeeps(k: Kube, key: Key, c: Condition)
    requires Admitted(k, key)
    ensures var k' := SetCondition(k, key, c);
            && Admitted(k', key) && k'.bmcs[key].spec == k.bmcs[key].spec
            && ConditionOf(k', key, c.kind) == Some(c)
            && (forall kind :: kind != c.kind ==> ConditionOf(k', key, kind) == ConditionOf(k, key, kind))
            && k' == k.(bmcs := k'.bmcs)
  {
    forall kind ensures Find(Upsert(k.bmcs[key].status.conditions, c), kind)
                     == if kind == c.kind then Some(c) else ConditionOf(k, key, kind)
    {
      UpsertFinds(k.bmcs[key].status.conditions, c, kind);
    }
  }

  lemma ValidatedKeeps(k: Kube, key: Key)
    requires Admitted(k, key)
    ensures var k' := Validated(k, key);
            && Admitted(k', key) && k'.bmcs[key].spec == k.bmcs[key].spec
            && k' == k.(bmcs := k'.bmcs)
            && !StaleVm(k', key) && !StaleSecret(k', key)
            && (!StaleVm(k, key) && !StaleSecret(k, key) ==> k' == k)
  {
    SetConditionKeeps(k, key, WantedVm(k, key));
    SetConditionKeeps(SetCondition(k, key, WantedVm(k, key)), key, WantedSecret(k, key));
  }

  lemma VmPhase(k: Kube, key: Key)
    requires Admitted(k, key)
    ensures var k1 := SetCondition(k, key, WantedVm(k, key));
            && key in k1.bmcs
            && Finish(Run(k, Start(key), []))
               == Finish(Run(k1, Pass(key, k1.bmcs[key], CheckingSecret(VmFound(k, key) && !StaleVm(k, key))), []))
  {
    var k1 := SetCondition(k, key, WantedVm(k, key));
    var r1 := Hop(Run(k, Start(key), []));
    assert r1 == Run(k, Pass(key, k.bmcs[key], CheckingVM), []);
    var r2 := Hop(r1);
    if StaleVm(k, key) {
      assert r2 == Run(k, Pass(key, k.bmcs[key], WritingVM(WantedVm(k, key))), []);
      var r3 := Hop(r2);
      assert r3 == Run(k1, Pass(key, k1.bmcs[key], CheckingSecret(false)), []);
      assert Finish(r1) == Finish(r2) == Finish(r3);
    } else {
      assert r2 == Run(k, Pass(key, k.bmcs[key], CheckingSecret(VmFound(k, key))), []);
    }
  }

  lemma SecretPhase(k: Kube, key: Key, vmOk: bool)
    requires Admitted(k, key)
    ensures var k2 := SetCondition(k, key, WantedSecret(k, key));
            && key in k2.bmcs
            && Finish(Run(k, Pass(key, k.bmcs[key], CheckingSecret(vmOk)), []))
               == Finish(Run(k2, Pass(key, k2.bmcs[key],
                                      AfterValidation(vmOk, SecretFound(k, key) && !StaleSecret(k, key))), []))
  {
    var r1 := Run(k, Pass(key, k.bmcs[key], CheckingSecret(vmOk)), []);
    var r2 := Hop(r1);
    if StaleSecret(k, key) {
      assert r2.pass.stage.WritingSecret?;
      var r3 := Hop(r2);
    }
  }

  lemma DropPhase(k: Kube, key: Key, vmOk: bool, secretOk: bool)
    requires Admitted(k, key)
    ensures Finish(Run(k, Pass(key, k.bmcs[key], Dropping(vmOk, secretOk)), []))
         == Run(Dropped(k, key), Pass(key, k.bmcs[key], Done(false, false)), [])
  {
    var r := Hop(Run(k, Pass(key, k.bmcs[key], Dropping(vmOk, secretOk)), []));
    assert Agent(k, key) !in k.pods ==> k.pods - {Agent(k, key)} == k.pods;
    assert Over(r.pass) && Finish(r) == r;
  }

  lemma MakeRBAC(k: Kube, key: Key)
    requires Admitted(k, key)
    ensures Hop(Hop(Run(k, Pass(key, k.bmcs[key], MakingAccount), [])))
         == Run(WithRBAC(k, key), Pass(key, k.bmcs[key], MakingPod), [])
  {
    var k1 := k.(accounts := k.accounts + {Agent(k, key)});
    assert Agent(k, key) in k.accounts ==> k.accounts + {Agent(k, key)} == k.accounts;
    assert Hop(Run(k, Pass(key, k.bmcs[key], MakingAccount), [])) == Run(k1, Pass(key, k.bmcs[key], MakingBinding), []);
  }

  lemma MakeAgent(k: Kube, key: Key)
    requires Admitted(k, key)
    ensures Hop(Hop(Run(k, Pass(key, k.bmcs[key], MakingPod), [])))
         == Run(WithAgent(k, key), Pass(key, k.bmcs[key], Done(false, true)), [])
  {
    var k1 := k.(pods := Ensure(k.pods, Agent(k, key), ConstructPod(key, k.bmcs[key])));
    assert Hop(Run(k, Pass(key, k.bmcs[key], MakingPod), [])) == Run(k1, Pass(key, k.bmcs[key], MakingService), []);
  }

  lemma FinishTwo(r: Run)
    requires !Over(r.pass) && !Over(Hop(r).pass)
    ensures Finish(r) == Finish(Hop(Hop(r)))
  {
  }

  lemma MakePhase(k: Kube, key: Key)
    requires Admitted(k, key)
    ensures Finish(Run(k, Pass(key, k.bmcs[key], MakingAccount), []))
         == Run(Made(k, key), Pass(key, k.bmcs[key], Done(false, true)), [])
  {
    var r := Run(k, Pass(key, k.bmcs[key], MakingAccount), []);
    MakeRBAC(k, key);
    FinishTwo(r);
    var k2 := WithRBAC(k, key);
    MakeAgent(k2, key);
    FinishTwo(Run(k2, Pass(key, k.bmcs[key], MakingPod), []));
  }

  /** The machine and the description in one step agree. */
  lemma PassInOneStep(k: Kube, key: Key)
    requires Admitted(k, key)
    ensures Reconciled(k, key) == InOneStep(k, key)
    ensures ReconcileRun(k, key, []).pass.stage == Done(false, Prepared(k, key))
  {
    var k1 := SetCondition(k, key, WantedVm(k, key));
    VmPhase(k, key);
    SetConditionKeeps(k, key, WantedVm(k, key));
    SecretPhase(k1, key, VmFound(k, key) && !StaleVm(k, key));
    ValidatedKeeps(k, key);
    var k2 := Validated(k, key);
    if Prepared(k, key) {
      MakePhase(k2, key);
    } else {
      DropPhase(k2, key, VmFound(k, key) && !StaleVm(k, key), SecretFound(k, key) && !StaleSecret(k, key));
    }
  }

  // ---------- Convergence ----------

  function Bit(b: bool): nat {
    if b then 1 else 0
  }

  function Stale(k: Kube, key: Key): nat
    requires Admitted(k, key)
  {
    Bit(StaleVm(k, key)) + Bit(StaleSecret(k, key))
  }

  /** Missing objects if both prerequisites are there, a leftover Pod if not. */
  function Undone(k: Kube, key: Key): nat
    requires Admitted(k, key)
  {
    if VmFound(k, key) && SecretFound(k, key) then
      Bit(Agent(k, key) !in k.accounts) + Bit(Binding(k, key) !in k.bindings)
      + Bit(Agent(k, key) !in k.pods) + Bit(Agent(k, key) !in k.services)
    else
      Bit(Agent(k, key) in k.pods)
  }

  /** Conditions and objects match the prerequisites. */
  predicate Settled(k: Kube, key: Key)
    requires Admitted(k, key)
  {
    && ConditionOf(k, key, VM_AVAILABLE) == Some(WantedVm(k, key))
    && ConditionOf(k, key, SECRET_AVAILABLE) == Some(WantedSecret(k, key))
    && (Agent(k, key) in k.pods <==> VmFound(k, key) && SecretFound(k, key))
    && (VmFound(k, key) && SecretFound(k, key) ==>
          Agent(k, key) in k.accounts && Binding(k, key) in k.bindings && Agent(k, key) in k.services)
  }

  lemma SettledMeansZero(k: Kube, key: Key)
    requires Admitted(k, key)
    ensures Settled(k, key) <==> Stale(k, key) == 0 && Undone(k, key) == 0
  {
  }

  lemma PassKeepsAdmitted(k: Kube, key: Key)
    requires Admitted(k, key)
    ensures var k' := Reconciled(k, key);
            && Admitted(k', key) && k'.bmcs[key].spec == k.bmcs[key].spec
            && k'.vms == k.vms && k'.secrets == k.secrets
            && (Prepared(k, key) ==> k'.bmcs == k.bmcs)
            && (!Prepared(k, key) ==> k'.bmcs == Validated(k, key).bmcs && k' == Dropped(k', key))
            && Stale(k', key) == 0
  {
    PassInOneStep(k, key);
    ValidatedKeeps(k, key);
  }

  /** A settled state is exactly one that a pass leaves as it is. */
  lemma SettledIsFixpoint(k: Kube, key: Key)
    requires Admitted(k, key)
    ensures Settled(k, key) <==> Reconciled(k, key) == k
  {
    PassInOneStep(k, key);
    ValidatedKeeps(k, key);
    PassKeepsAdmitted(k, key);
    if Settled(k, key) && !Prepared(k, key) {
      assert k.pods - {Agent(k, key)} == k.pods;
    }
    if Settled(k, key) && Prepared(k, key) {
      assert k.accounts + {Agent(k, key)} == k.accounts;
    }
    if Reconciled(k, key) == k && Prepared(k, key) {
      assert Agent(k, key) in Made(k, key).accounts;
    }
    if Reconciled(k, key) == k && !Prepared(k, key) {
      assert Agent(k, key) !in Dropped(k, key).pods;
    }
  }

  /** Every pass that writes anything decreases the pair. */
  lemma PassDecreases(k: Kube, key: Key)
    requires Admitted(k, key)
    requires Reconciled(k, key) != k
    ensures var k' := Reconciled(k, key);
            && Admitted(k', key)
            && (Stale(k', key) < Stale(k, key)
                || (Stale(k', key) == Stale(k, key) && Undone(k', key) < Undone(k, key)))
  {
    PassKeepsAdmitted(k, key);
    PassInOneStep(k, key);
    SettledIsFixpoint(k, key);
    SettledMeansZero(k, key);
    SettledIsFixpoint(Reconciled(k, key), key);
    if Stale(k, key) == 0 {
      ValidatedKeeps(k, key);
    }
  }

  /** Passes until one writes nothing: each pass that writes brings an event, and each event
      the next pass.  The measure is the proof that this ends. */
  function Quiesce(k: Kube, key: Key): (k': Kube)
    requires Admitted(k, key)
    ensures Admitted(k', key)
    decreases Stale(k, key), Undone(k, key)
  {
    var n := Reconciled(k, key);
    if n == k then k else
      PassDecreases(k, key);
      Quiesce(n, key)
  }

  lemma SecondPassSettles(k: Kube, key: Key)
    requires Admitted(k, key) && Stale(k, key) == 0
    ensures var k' := Reconciled(k, key);
            Admitted(k', key) && Settled(k', key) && Reconciled(k', key) == k'
  {
    PassInOneStep(k, key);
    PassKeepsAdmitted(k, key);
    ValidatedKeeps(k, key);
    var k' := Reconciled(k, key);
    SettledMeansZero(k', key);
    SettledIsFixpoint(k', key);
  }

  /** Two passes settle any state, and a settled state takes no third. */
  lemma TwoPassesSettle(k: Kube, key: Key)
    requires Admitted(k, key)
    ensures var k2 := Reconciled(Reconciled(k, key), key);
            && Admitted(k2, key) && Settled(k2, key)
            && Reconciled(k2, key) == k2
            && Quiesce(k, key) == k2
  {
    var k1 := Reconciled(k, key);
    PassKeepsAdmitted(k, key);
    SecondPassSettles(k1, key);
    var k2 := Reconciled(k1, key);
    assert Quiesce(k2, key) == k2;
    assert Quiesce(k1, key) == k2;
  }

  // ---------- What a pass reports and makes ----------

  /** After a pass both conditions are there, and each is True exactly if the object that the
      spec names exists. */
  lemma ConditionsTell(k: Kube, key: Key)
    requires Admitted(k, key)
    ensures var k' := Reconciled(k, key);
            && key in k'.bmcs
            && var spec, cs := k.bmcs[key].spec, k'.bmcs[key].status.conditions;
               && Find(cs, "VirtualMachineAvailable").Some? && Find(cs, "SecretAvailable").Some?
               && (Find(cs, "VirtualMachineAvailable").value.status <==> Key(key.ns, spec.vmRef.value) in k.vms)
               && (Find(cs, "SecretAvailable").value.status <==> Key(key.ns, spec.secretRef.value) in k.secrets)
  {
    PassKeepsAdmitted(k, key);
  }

  /** From `k` to `k'`, nothing is made but the four objects of the virtual machine `vm` for the
      object `key`, each labelled or bound as it should be. */
  predicate MakesOnly(k: Kube, k': Kube, key: Key, vm: string, secret: string) {
    && var agent, binding := Key(key.ns, vm + "-virtbmc"), Key(key.ns, vm + "-virtbmc-rolebinding");
    && k'.accounts - {agent} == k.accounts - {agent}
    && OnlyAt(k.bindings, k'.bindings, binding, RoleBinding("kubevirtbmc-virtbmc-role", agent))
    && OnlyAt(k.pods, k'.pods, agent, Pod(key.name, vm, vm + "-virtbmc", secret, None))
    && OnlyAt(k.services, k'.services, agent, Service(key.name, vm))
  }

  predicate OnlyAt<V(==)>(m: map<Key, V>, m': map<Key, V>, key: Key, v: V) {
    m' - {key} == m - {key} && (key in m' && key !in m ==> m'[key] == v)
  }

  lemma EnsureOnlyAt<V>(m: map<Key, V>, key: Key, v: V)
    ensures OnlyAt(m, Ensure(m, key, v), key, v)
  {
  }

  /** What a pass makes, by the names in the spec. */
  lemma WhatAPassMakes(k: Kube, key: Key)
    requires Admitted(k, key)
    ensures MakesOnly(k, Reconciled(k, key), key, k.bmcs[key].spec.vmRef.value, k.bmcs[key].spec.secretRef.value)
  {
    PassInOneStep(k, key);
    ValidatedKeeps(k, key);
    var b := k.bmcs[key];
    EnsureOnlyAt(k.bindings, Binding(k, key), ConstructRoleBinding(key.ns, b));
    EnsureOnlyAt(k.pods, Agent(k, key), ConstructPod(key, b));
    EnsureOnlyAt(k.services, Agent(k, key), ConstructService(key, b));
  }

  // ---------- Secret rollover ----------

  function PodSecret(k: Kube, key: Key): Option<string>
    requires Admitted(k, key)
  {
    if Agent(k, key) in k.pods then Some(k.pods[Agent(k, key)].secret) else None
  }

  lemma PodAfterPass(k: Kube, key: Key)
    requires Admitted(k, key)
    ensures var k' := Reconciled(k, key);
            && Admitted(k', key) && Stale(k', key) == 0
            && SecretOf(k'.bmcs[key]) == SecretOf(k.bmcs[key])
            && VmFound(k', key) == VmFound(k, key) && SecretFound(k', key) == SecretFound(k, key)
            && PodSecret(k', key) == if !Prepared(k, key) then None
                                     else if PodSecret(k, key).Some? then PodSecret(k, key)
                                     else Some(SecretOf(k.bmcs[key]))
  {
    PassInOneStep(k, key);
    PassKeepsAdmitted(k, key);
    ValidatedKeeps(k, key);
  }

  /** Reconciling until quiet leaves a Pod that references the Secret of the spec exactly if
      there was no Pod, or the right one, or a stale condition to make a pass delete it. */
  lemma RolloverExactly(k: Kube, key: Key)
    requires Admitted(k, key) && VmFound(k, key) && SecretFound(k, key)
    ensures PodSecret(Quiesce(k, key), key) == Some(SecretOf(k.bmcs[key])) <==>
            || PodSecret(k, key).None?
            || PodSecret(k, key) == Some(SecretOf(k.bmcs[key]))
            || Stale(k, key) > 0
  {
    TwoPassesSettle(k, key);
    PodAfterPass(k, key);
    PodAfterPass(Reconciled(k, key), key);
  }

  /** A Pod has been made for the Secret that the condition reports as found. */
  predicate PodReported(k: Kube, key: Key)
    requires Admitted(k, key)
  {
    PodSecret(k, key).Some? ==>
      ConditionOf(k, key, SECRET_AVAILABLE) == Some(SecretCondition(key.ns, PodSecret(k, key).value, true))
  }

  /** An edit of authSecretRef, or one pass. */
  datatype Turn = EditSecretRef(name: string) | PassTurn

  function Take(k: Kube, key: Key, t: Turn): Kube
    requires Admitted(k, key)
  {
    match t
    case EditSecretRef(name) =>
      var b := k.bmcs[key];
      k.(bmcs := k.bmcs[key := b.(spec := b.spec.(secretRef := Some(name)), version := b.version + 1)])
    case PassTurn => Reconciled(k, key)
  }

  lemma TakeKeepsReported(k: Kube, key: Key, t: Turn)
    requires Admitted(k, key) && PodReported(k, key)
    ensures var k' := Take(k, key, t);
            && Admitted(k', key) && PodReported(k', key)
            && k'.vms == k.vms && k'.secrets == k.secrets && VmOf(k'.bmcs[key]) == VmOf(k.bmcs[key])
  {
    if t.PassTurn? {
      PassKeepsAdmitted(k, key);
      PassInOneStep(k, key);
    }
  }

  function TakeAll(k: Kube, key: Key, turns: seq<Turn>): (k': Kube)
    requires Admitted(k, key) && PodReported(k, key)
    ensures Admitted(k', key) && PodReported(k', key)
    ensures k'.vms == k.vms && k'.secrets == k.secrets && VmOf(k'.bmcs[key]) == VmOf(k.bmcs[key])
    decreases |turns|
  {
    if turns == [] then k
    else
      TakeKeepsReported(k, key, turns[0]);
      TakeAll(Take(k, key, turns[0]), key, turns[1..])
  }

  /** A Pod made for the Secret that is reported, but not for that of the spec, makes the
      condition stale; so reconciling until quiet replaces it. */
  lemma ReportedHeals(k: Kube, key: Key)
    requires Admitted(k, key) && PodReported(k, key) && VmFound(k, key) && SecretFound(k, key)
    ensures PodSecret(Quiesce(k, key), key) == Some(SecretOf(k.bmcs[key]))
  {
    RolloverExactly(k, key);
    if PodSecret(k, key).Some? && Stale(k, key) == 0 {
      FoundSecretNames(key.ns, PodSecret(k, key).value, SecretOf(k.bmcs[key]));
    }
  }

  /** After any edits of the reference interleaved with passes, if the virtual machine and
      the Secret last named exist, reconciling until quiet leaves a Pod for that Secret. */
  lemma SecretRollover(k: Kube, key: Key, turns: seq<Turn>)
    requires Admitted(k, key) && PodReported(k, key) && VmFound(k, key)
    requires SecretFound(TakeAll(k, key, turns), key)
    ensures var end := TakeAll(k, key, turns);
            PodSecret(Quiesce(end, key), key) == Some(SecretOf(end.bmcs[key]))
  {
    ReportedHeals(TakeAll(k, key, turns), key);
  }

  /** Where it fails: a pass that stops between the status write and the Pod delete leaves
      the conditions fresh and the old Pod in place, and no later pass replaces it. */
  lemma InterruptedRollover(k: Kube, key: Key)
    requires Admitted(k, key) && VmFound(k, key) && SecretFound(k, key)
    requires !StaleVm(k, key) && StaleSecret(k, key)
    requires PodSecret(k, key).Some? && PodSecret(k, key) != Some(SecretOf(k.bmcs[key]))
    ensures var r := Hop(Hop(Hop(Hop(Run(k, Start(key), [])))));
            && r.pass.stage.Dropping?
            && Admitted(r.kube, key)
            && PodSecret(Quiesce(r.kube, key), key) == PodSecret(k, key)
  {
    FourHops(k, key);
    StuckRollover(k, key);
  }

  lemma FourHops(k: Kube, key: Key)
    requires Admitted(k, key) && VmFound(k, key) && SecretFound(k, key)
    requires !StaleVm(k, key) && StaleSecret(k, key)
    ensures var k' := SetCondition(k, key, WantedSecret(k, key));
            Hop(Hop(Hop(Hop(Run(k, Start(key), []))))) == Run(k', Pass(key, k'.bmcs[key], Dropping(true, false)), [])
  {
    var r1 := Hop(Run(k, Start(key), []));
    assert r1 == Run(k, Pass(key, k.bmcs[key], CheckingVM), []);
    var r2 := Hop(r1);
    assert r2 == Run(k, Pass(key, k.bmcs[key], CheckingSecret(true)), []);
    var r3 := Hop(r2);
    assert r3 == Run(k, Pass(key, k.bmcs[key], WritingSecret(true, WantedSecret(k, key))), []);
    var k' := SetCondition(k, key, WantedSecret(k, key));
    assert Hop(r3) == Run(k', Pass(key, k'.bmcs[key], Dropping(true, false)), []);
  }

  lemma StuckRollover(k: Kube, key: Key)
    requires Admitted(k, key) && VmFound(k, key) && SecretFound(k, key)
    requires !StaleVm(k, key) && StaleSecret(k, key)
    requires PodSecret(k, key).Some? && PodSecret(k, key) != Some(SecretOf(k.bmcs[key]))
    ensures var k' := SetCondition(k, key, WantedSecret(k, key));
            Admitted(k', key) && PodSecret(Quiesce(k', key), key) == PodSecret(k, key)
  {
    var k' := SetCondition(k, key, WantedSecret(k, key));
    SetConditionKeeps(k, key, WantedSecret(k, key));
    TwoPassesSettle(k', key);
    PassInOneStep(k', key);
    PassInOneStep(Reconciled(k', key), key);
    PassKeepsAdmitted(k', key);
  }
}
