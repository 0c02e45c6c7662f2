/** One reconcile pass as a small machine over the cluster: every step is one API call. */
module Reconcile {
  import opened Basics
  import opened Bmcs

  /** `env` is the version of the Secret that the running container took its credentials
      from; `None` until the container starts. */
  datatype Pod = Pod(bmc: string, vm: string, account: string, secret: string, env: Option<nat>)

  datatype Service = Service(bmc: string, vm: string)

  datatype RoleBinding = RoleBinding(role: string, subject: Key)

  /** The objects the controller reads and writes; a Secret is its version. */
  datatype Kube = Kube(
    vms: set<Key>,
    secrets: map<Key, nat>,
    bmcs: map<Key, Bmc>,
    accounts: set<Key>,
    bindings: map<Key, RoleBinding>,
    pods: map<Key, Pod>,
    services: map<Key, Service>)

  // ---------- Names and contents of the created objects ----------

  const CLUSTER_ROLE := "kubevirtbmc-virtbmc-role"
  const SUFFIX := "-virtbmc"
  const BINDING_SUFFIX := "-virtbmc-rolebinding"

  /** The ServiceAccount, the Pod and the Service of a virtual machine share one name. */
  function AgentKey(ns: string, vm: string): Key {
    Key(ns, vm + SUFFIX)
  }

  function BindingKey(ns: string, vm: string): Key {
    Key(ns, vm + BINDING_SUFFIX)
  }

  function VmOf(b: Bmc): string {
    if b.spec.vmRef.Some? then b.spec.vmRef.value else ""
  }

  function SecretOf(b: Bmc): string {
    if b.spec.secretRef.Some? then b.spec.secretRef.value else ""
  }

  function ConstructRoleBinding(ns: string, b: Bmc): RoleBinding {
    RoleBinding(CLUSTER_ROLE, AgentKey(ns, VmOf(b)))
  }

  function ConstructPod(key: Key, b: Bmc): Pod {
    Pod(key.name, VmOf(b), VmOf(b) + SUFFIX, SecretOf(b), None)
  }

  function ConstructService(key: Key, b: Bmc): Service {
    Service(key.name, VmOf(b))
  }

  // ---------- Writes ----------

  datatype Write =
    | UpdateStatus(key: Key, version: nat, status: Status)
    | CreateAccount(key: Key)
    | CreateBinding(key: Key, binding: RoleBinding)
    | CreatePod(key: Key, pod: Pod)
    | DeletePod(key: Key)
    | CreateService(key: Key, service: Service)

  datatype Answer = Ok | AlreadyExists | NotFound | Conflict | ApiError

  /** What stands in the way of a write. */
  function Check(k: Kube, w: Write): Answer {
    match w
    case UpdateStatus(key, version, _) =>
      if key !in k.bmcs then Answer.NotFound else if k.bmcs[key].version != version then Conflict else Ok
    case CreateAccount(key) => if key in k.accounts then AlreadyExists else Ok
    case CreateBinding(key, _) => if key in k.bindings then AlreadyExists else Ok
    case CreatePod(key, _) => if key in k.pods then AlreadyExists else Ok
    case DeletePod(key) => if key in k.pods then Ok else Answer.NotFound
    case CreateService(key, _) => if key in k.services then AlreadyExists else Ok
  }

  /** A status update replaces the status and leaves the spec; one that changes nothing
      leaves the version alone. */
  function WithStatus(b: Bmc, status: Status): Bmc {
    b.(status := status, version := if status == b.status then b.version else b.version + 1)
  }

  function Apply(k: Kube, w: Write): Kube
    requires Check(k, w).Ok?
  {
    match w
    case UpdateStatus(key, _, status) => k.(bmcs := k.bmcs[key := WithStatus(k.bmcs[key], status)])
    case CreateAccount(key) => k.(accounts := k.accounts + {key})
    case CreateBinding(key, rb) => k.(bindings := k.bindings[key := rb])
    case CreatePod(key, pod) => k.(pods := k.pods[key := pod])
    case DeletePod(key) => k.(pods := k.pods - {key})
    case CreateService(key, svc) => k.(services := k.services[key := svc])
  }

  predicate Effective(k: Kube, w: Write, o: Outcome) {
    !o.Refused? && Check(k, w).Ok?
  }

  function Submit(k: Kube, w: Write, o: Outcome): (Kube, Answer) {
    if o.Refused? then (k, ApiError)
    else if !Check(k, w).Ok? then (k, Check(k, w))
    else (Apply(k, w), if o.Lost? then ApiError else Ok)
  }

  /** Writes leave Secrets and specs alone, and add no Pod but the one they create. */
  lemma SubmitKeeps(k: Kube, w: Write, o: Outcome)
    ensures var k' := Submit(k, w, o).0;
            && k'.vms == k.vms && k'.secrets == k.secrets && k'.bmcs.Keys == k.bmcs.Keys
            && (forall b :: b in k.bmcs ==> k'.bmcs[b].spec == k.bmcs[b].spec)
            && (forall pod :: pod in k'.pods ==>
                  (pod in k.pods && k'.pods[pod] == k.pods[pod])
                  || (w.CreatePod? && w.key == pod && w.pod == k'.pods[pod]))
  {
  }

  // ---------- The pass ----------

  datatype Stage =
    | Fetching
    | CheckingVM
    | WritingVM(condition: Condition)
    | CheckingSecret(vmOk: bool)
    | WritingSecret(vmOk: bool, condition: Condition)
    | Dropping(vmOk: bool, secretOk: bool)
    | MakingAccount | MakingBinding | MakingPod | MakingService
    | Done(failed: bool, ready: bool)
    | Panicked

  /** `obj` is the fetched copy, meaningless before it is fetched.  `Done` tells whether the
      pass returned an error, and whether both validators returned true. */
  datatype Pass = Pass(key: Key, obj: Bmc, stage: Stage)

  /** What a read brings: the object fetched, or whether the object looked up was found. */
  datatype Input = Input(outcome: Outcome, seen: Option<Bmc>, found: bool)

  function Upserted(b: Bmc, c: Condition): Status {
    b.status.(conditions := Upsert(b.status.conditions, c))
  }

  /** The write that a pass is about to submit, if its next step is a write. */
  function Request(p: Pass): Option<Write> {
    var ns, b := p.key.ns, p.obj;
    match p.stage
    case WritingVM(c) => Some(UpdateStatus(p.key, b.version, Upserted(b, c)))
    case WritingSecret(_, c) => Some(UpdateStatus(p.key, b.version, Upserted(b, c)))
    case Dropping(_, _) => Some(DeletePod(AgentKey(ns, VmOf(b))))
    case MakingAccount => Some(CreateAccount(AgentKey(ns, VmOf(b))))
    case MakingBinding => Some(CreateBinding(BindingKey(ns, VmOf(b)), ConstructRoleBinding(ns, b)))
    case MakingPod => Some(CreatePod(AgentKey(ns, VmOf(b)), ConstructPod(p.key, b)))
    case MakingService => Some(CreateService(AgentKey(ns, VmOf(b)), ConstructService(p.key, b)))
    case _ => None
  }

  function AfterValidation(vmOk: bool, secretOk: bool): Stage {
    if vmOk && secretOk then MakingAccount else Dropping(vmOk, secretOk)
  }

  function ReadStep(p: Pass, i: Input): Pass
    requires Request(p).None?
  {
    var ns, b := p.key.ns, p.obj;
    match p.stage
    case Fetching =>
      if !i.outcome.Served? then p.(stage := Done(true, false))
      else if i.seen.None? then p.(stage := Done(false, false))
      else p.(obj := i.seen.value, stage := CheckingVM)
    case CheckingVM =>
      if b.spec.vmRef.None? then p.(stage := Panicked)
      else if !i.outcome.Served? then p.(stage := Done(true, false))
      else
        var c := VmCondition(ns, VmOf(b), i.found);
        p.(stage := if Find(b.status.conditions, VM_AVAILABLE) != Some(c) then WritingVM(c)
                    else CheckingSecret(i.found))
    case CheckingSecret(vmOk) =>
      if b.spec.secretRef.None? then p.(stage := AfterValidation(vmOk, false))
      else if !i.outcome.Served? then p.(stage := Done(true, false))
      else
        var c := SecretCondition(ns, SecretOf(b), i.found);
        p.(stage := if Find(b.status.conditions, SECRET_AVAILABLE) != Some(c) then WritingSecret(vmOk, c)
                    else AfterValidation(vmOk, i.found))
    case _ => p
  }

  /** Where a pass goes with the answer to its write; a status update also brings back the
      stored object. */
  function WriteStep(p: Pass, k': Kube, a: Answer): Pass
    requires Request(p).Some?
  {
    var stored := if p.key in k'.bmcs then k'.bmcs[p.key] else p.obj;
    match p.stage
    case WritingVM(_) =>
      if a.Ok? then p.(obj := stored, stage := CheckingSecret(false)) else p.(stage := Done(true, false))
    case WritingSecret(vmOk, _) =>
      if a.Ok? then p.(obj := stored, stage := AfterValidation(vmOk, false)) else p.(stage := Done(true, false))
    case Dropping(_, _) => p.(stage := Done(!a.Ok? && !a.NotFound?, false))
    case _ =>
      if !a.Ok? && !a.AlreadyExists? then p.(stage := Done(true, true))
      else
        p.(stage := match p.stage
                    case MakingAccount => MakingBinding
                    case MakingBinding => MakingPod
                    case MakingPod => MakingService
                    case _ => Done(false, true))
  }

  predicate Over(p: Pass) {
    p.stage.Done? || p.stage.Panicked?
  }

  /** The pass works on a fetched copy. */
  predicate Copied(s: Stage) {
    !s.Fetching? && !s.Done? && !s.Panicked?
  }

  predicate MakingObjects(s: Stage) {
    s.MakingAccount? || s.MakingBinding? || s.MakingPod? || s.MakingService?
  }

  function Step(k: Kube, p: Pass, i: Input): (r: (Kube, Pass))
    ensures r.1.key == p.key
    ensures Over(p) ==> r == (k, p)
  {
    if Request(p).None? then (k, ReadStep(p, i))
    else
      var s := Submit(k, Request(p).value, i.outcome);
      (s.0, WriteStep(p, s.0, s.1))
  }

  /** What an up-to-date read brings. */
  function Fresh(k: Kube, p: Pass, o: Outcome): Input {
    Input(o, Get(k.bmcs, p.key),
          match p.stage
          case CheckingVM => Key(p.key.ns, VmOf(p.obj)) in k.vms
          case CheckingSecret(_) => Key(p.key.ns, SecretOf(p.obj)) in k.secrets
          case _ => false)
  }

  function FreshStep(k: Kube, p: Pass, o: Outcome): (Kube, Pass) {
    Step(k, p, Fresh(k, p, o))
  }

  function Start(key: Key): Pass {
    Pass(key, Bmc(Spec(None, None), Status("", []), 0), Fetching)
  }

  // ---------- A pass on its own ----------

  datatype Run = Run(kube: Kube, pass: Pass, script: seq<Outcome>)

  /** Whether the next step calls the API server. */
  predicate IsCall(p: Pass) {
    match p.stage
    case CheckingVM => p.obj.spec.vmRef.Some?
    case CheckingSecret(_) => p.obj.spec.secretRef.Some?
    case _ => !Over(p)
  }

  function Rank(s: Stage): nat {
    match s
    case Fetching => 9
    case CheckingVM => 8
    case WritingVM(_) => 7
    case CheckingSecret(_) => 6
    case WritingSecret(_, _) => 5
    case Dropping(_, _) => 4
    case MakingAccount => 4
    case MakingBinding => 3
    case MakingPod => 2
    case MakingService => 1
    case _ => 0
  }

  function Hop(r: Run): (r': Run)
    ensures r'.pass.key == r.pass.key
    ensures !Over(r.pass) ==> Rank(r'.pass.stage) < Rank(r.pass.stage)
  {
    var n := FreshStep(r.kube, r.pass, if IsCall(r.pass) then Head(r.script) else Served);
    Run(n.0, n.1, if IsCall(r.pass) then Tail(r.script) else r.script)
  }

  /** Runs a pass to its end with nothing in between and up-to-date reads. */
  function Finish(r: Run): (r': Run)
    ensures Over(r'.pass) && r'.pass.key == r.pass.key
    decreases Rank(r.pass.stage)
  {
    if Over(r.pass) then r else Finish(Hop(r))
  }

  function ReconcileRun(k: Kube, key: Key, script: seq<Outcome>): Run {
    Finish(Run(k, Start(key), script))
  }

  /** The cluster after a pass in which no call fails. */
  function Reconciled(k: Kube, key: Key): Kube {
    ReconcileRun(k, key, []).kube
  }
}
