/** Any number of passes over any number of objects, interleaved at the grain of API calls,
    with failing calls, lost replies, stale reads and passes that stop anywhere. */
module Passes {
  import opened Basics
  import opened Bmcs
  import opened Reconcile

  /** `past` holds every earlier state of the cluster. */
  datatype System = System(past: seq<Kube>, kube: Kube, passes: seq<Pass>)

  /** A step reads the cluster as it was in state `h`, which is the current one beyond the
      past.  `Elsewhere` is what others do: anything to virtual machines, Secrets and objects,
      and removals of Pods and Services. */
  datatype Event = StartPass(key: Key) | Advance(i: nat, outcome: Outcome, h: nat) | Elsewhere(kube: Kube)

  function Seen(s: System, h: nat): Kube {
    if h < |s.past| then s.past[h] else s.kube
  }

  predicate LeavesCreated(k: Kube, k': Kube) {
    && k'.accounts == k.accounts && k'.bindings == k.bindings
    && k'.pods.Keys <= k.pods.Keys && k'.services.Keys <= k.services.Keys
    && (forall pod :: pod in k'.pods ==> k'.pods[pod].account == k.pods[pod].account)
  }

  function Next(s: System, e: Event): System {
    match e
    case StartPass(key) => s.(passes := s.passes + [Start(key)])
    case Advance(i, o, h) =>
      if i >= |s.passes| then s
      else
        var r := Step(s.kube, s.passes[i], Fresh(Seen(s, h), s.passes[i], o));
        System(s.past + [s.kube], r.0, s.passes[i := r.1])
    case Elsewhere(k) => if LeavesCreated(s.kube, k) then s.(past := s.past + [s.kube], kube := k) else s
  }

  function Execute(s: System, events: seq<Event>): System
    decreases |events|
  {
    if events == [] then s else Execute(Next(s, events[0]), events[1..])
  }

  // ---------- Names ----------

  lemma SuffixInjective(a: string, b: string, suffix: string)
    requires a + suffix == b + suffix
    ensures a == b
  {
    assert |a| == |b|;
    assert a == (a + suffix)[..|a|] && b == (b + suffix)[..|b|];
  }

  lemma NamesApart(ns: string, vm: string, ns': string, vm': string)
    ensures AgentKey(ns, vm) == AgentKey(ns', vm') <==> ns == ns' && vm == vm'
    ensures BindingKey(ns, vm) == BindingKey(ns', vm') <==> ns == ns' && vm == vm'
  {
    if vm + SUFFIX == vm' + SUFFIX {
      SuffixInjective(vm, vm', SUFFIX);
    }
    if vm + BINDING_SUFFIX == vm' + BINDING_SUFFIX {
      SuffixInjective(vm, vm', BINDING_SUFFIX);
    }
  }

  // ---------- Creation order ----------

  predicate OrderedAt(k: Kube, ns: string, vm: string) {
    && (BindingKey(ns, vm) in k.bindings ==> AgentKey(ns, vm) in k.accounts)
    && (AgentKey(ns, vm) in k.pods || AgentKey(ns, vm) in k.services ==>
          AgentKey(ns, vm) in k.accounts && BindingKey(ns, vm) in k.bindings)
  }

  /** What objects refer to by name exists: a RoleBinding's subject, a Pod's ServiceAccount. */
  predicate Linked(k: Kube) {
    && (forall b :: b in k.bindings ==> k.bindings[b].role == CLUSTER_ROLE && k.bindings[b].subject in k.accounts)
    && (forall pod :: pod in k.pods ==> Key(pod.ns, k.pods[pod].account) in k.accounts)
  }

  /** A RoleBinding implies its ServiceAccount, and a Pod or Service implies both. */
  ghost predicate Ordered(k: Kube) {
    (forall ns, vm :: OrderedAt(k, ns, vm)) && Linked(k)
  }

  /** A pass has made what it has gone past. */
  predicate HasMade(k: Kube, p: Pass) {
    var ns, vm := p.key.ns, VmOf(p.obj);
    && (p.stage.MakingBinding? || p.stage.MakingPod? || p.stage.MakingService? ==> AgentKey(ns, vm) in k.accounts)
    && (p.stage.MakingPod? || p.stage.MakingService? ==> BindingKey(ns, vm) in k.bindings)
  }

  ghost predicate OrderInvariant(s: System) {
    Ordered(s.kube) && forall i :: 0 <= i < |s.passes| ==> HasMade(s.kube, s.passes[i])
  }

  /** A cluster in which nothing has been made is in order, and a pass not begun is gated. */
  lemma NothingMade(k: Kube)
    requires k.bindings == map[] && k.pods == map[] && k.services == map[]
    ensures OrderInvariant(System([], k, [])) && Gated(System([], k, [])) && Versioned(System([], k, []))
  {
  }

  lemma SubmitGrows(k: Kube, w: Write, o: Outcome)
    ensures var k' := Submit(k, w, o).0;
            k.accounts <= k'.accounts && k.bindings.Keys <= k'.bindings.Keys
  {
  }

  lemma StepOrdersAt(k: Kube, p: Pass, i: Input, ns: string, vm: string)
    requires OrderedAt(k, ns, vm) && HasMade(k, p) && Request(p).Some?
    ensures OrderedAt(Step(k, p, i).0, ns, vm)
  {
    NamesApart(ns, vm, p.key.ns, VmOf(p.obj));
  }

  /** What the write makes refers only to what exists. */
  predicate LinksTo(k: Kube, w: Write) {
    match w
    case CreateBinding(_, rb) => rb.role == CLUSTER_ROLE && rb.subject in k.accounts
    case CreatePod(key, pod) => Key(key.ns, pod.account) in k.accounts
    case _ => true
  }

  lemma SubmitLinks(k: Kube, w: Write, o: Outcome)
    requires Linked(k) && LinksTo(k, w)
    ensures Linked(Submit(k, w, o).0)
  {
  }

  lemma RequestLinks(k: Kube, p: Pass)
    requires HasMade(k, p) && Request(p).Some?
    ensures LinksTo(k, Request(p).value)
  {
  }

  lemma StepOrders(k: Kube, p: Pass, i: Input)
    requires Ordered(k) && HasMade(k, p)
    ensures var r := Step(k, p, i);
            && Ordered(r.0) && HasMade(r.0, r.1)
            && k.accounts <= r.0.accounts && k.bindings.Keys <= r.0.bindings.Keys
  {
    if Request(p).Some? {
      SubmitGrows(k, Request(p).value, i.outcome);
      RequestLinks(k, p);
      SubmitLinks(k, Request(p).value, i.outcome);
      forall ns, vm ensures OrderedAt(Step(k, p, i).0, ns, vm) {
        assert OrderedAt(k, ns, vm);
        StepOrdersAt(k, p, i, ns, vm);
      }
    }
  }

  /** Over all runs, whatever fails or stops between any two calls, nothing is created before
      what it depends on. */
  lemma {:induction false} CreationOrder(s: System, events: seq<Event>)
    requires OrderInvariant(s)
    ensures OrderInvariant(Execute(s, events))
    decreases |events|
  {
    if events != [] {
      var e := events[0];
      var s' := Next(s, e);
      if e.Advance? && e.i < |s.passes| {
        StepOrders(s.kube, s.passes[e.i], Fresh(Seen(s, e.h), s.passes[e.i], e.outcome));
      }
      if e.Elsewhere? && LeavesCreated(s.kube, e.kube) {
        forall ns, vm ensures OrderedAt(e.kube, ns, vm) {
          assert OrderedAt(s.kube, ns, vm);
        }
      }
      forall i | 0 <= i < |s'.passes| ensures HasMade(s'.kube, s'.passes[i]) {
        if i < |s.passes| {
          assert HasMade(s.kube, s.passes[i]);
        }
      }
      CreationOrder(s', events[1..]);
    }
  }

  // ---------- Pod gating ----------

  predicate ReportsVm(p: Pass) {
    && p.obj.spec.vmRef.Some?
    && Find(p.obj.status.conditions, VM_AVAILABLE) == Some(VmCondition(p.key.ns, p.obj.spec.vmRef.value, true))
  }

  predicate ReportsSecret(p: Pass) {
    && p.obj.spec.secretRef.Some?
    && Find(p.obj.status.conditions, SECRET_AVAILABLE)
         == Some(SecretCondition(p.key.ns, p.obj.spec.secretRef.value, true))
  }

  /** Both validators have returned true. */
  predicate Approved(s: Stage) {
    MakingObjects(s) || (s.Done? && s.ready)
  }

  /** A pass creates objects only on the word of the stored status that it fetched. */
  predicate Vouched(p: Pass) {
    && ((p.stage.CheckingSecret? || p.stage.WritingSecret?) && p.stage.vmOk ==> ReportsVm(p))
    && (Approved(p.stage) ==> ReportsVm(p) && ReportsSecret(p))
  }

  lemma StepVouches(k: Kube, p: Pass, i: Input)
    requires Vouched(p)
    ensures Vouched(Step(k, p, i).1)
  {
  }

  /** The cluster now, or at some earlier time. */
  ghost predicate Ever(s: System, holds: Kube -> bool) {
    exists h :: 0 <= h <= |s.past| && holds(Seen(s, h))
  }

  /** The object was stored so at some time. */
  ghost predicate Stored(s: System, key: Key, b: Bmc) {
    Ever(s, (k: Kube) => Get(k.bmcs, key) == Some(b))
  }

  ghost predicate VmExisted(s: System, vm: Key) {
    Ever(s, (k: Kube) => vm in k.vms)
  }

  ghost predicate SecretExisted(s: System, secret: Key) {
    Ever(s, (k: Kube) => secret in k.secrets)
  }

  /** A pass works on a copy of what was stored; what it found was there. */
  ghost predicate Grounded(s: System, p: Pass) {
    var ns := p.key.ns;
    && (Copied(p.stage) ==> Stored(s, p.key, p.obj))
    && ((p.stage.CheckingSecret? || p.stage.WritingSecret?) && p.stage.vmOk ==> VmExisted(s, Key(ns, VmOf(p.obj))))
    && (Approved(p.stage) ==> VmExisted(s, Key(ns, VmOf(p.obj))) && SecretExisted(s, Key(ns, SecretOf(p.obj))))
  }

  ghost predicate Gated(s: System) {
    forall i :: 0 <= i < |s.passes| ==> Vouched(s.passes[i]) && Grounded(s, s.passes[i])
  }

  /** `t` follows `s` at once. */
  predicate Follows(s: System, t: System) {
    (t.past == s.past && t.kube == s.kube) || t.past == s.past + [s.kube]
  }

  lemma EverStays(s: System, t: System, holds: Kube -> bool)
    requires Follows(s, t) && Ever(s, holds)
    ensures Ever(t, holds)
  {
    var h :| 0 <= h <= |s.past| && holds(Seen(s, h));
    assert Seen(t, h) == Seen(s, h);
  }

  lemma GroundedStays(s: System, t: System, p: Pass)
    requires Follows(s, t) && Grounded(s, p)
    ensures Grounded(t, p)
  {
    if Copied(p.stage) {
      EverStays(s, t, (k: Kube) => Get(k.bmcs, p.key) == Some(p.obj));
    }
    var vm, secret := Key(p.key.ns, VmOf(p.obj)), Key(p.key.ns, SecretOf(p.obj));
    if VmExisted(s, vm) {
      EverStays(s, t, (k: Kube) => vm in k.vms);
    }
    if SecretExisted(s, secret) {
      EverStays(s, t, (k: Kube) => secret in k.secrets);
    }
  }

  lemma EverNow(s: System, h: nat, holds: Kube -> bool)
    requires holds(Seen(s, h))
    ensures Ever(s, holds)
  {
    var h' := if h < |s.past| then h else |s.past|;
    assert Seen(s, h') == Seen(s, h);
  }

  /** What a read brings is grounded in the state it was read from. */
  lemma ReadGrounds(s: System, p: Pass, o: Outcome, h: nat)
    requires Grounded(s, p) && Request(p).None?
    ensures Grounded(s, ReadStep(p, Fresh(Seen(s, h), p, o)))
  {
    var k, q := Seen(s, h), ReadStep(p, Fresh(Seen(s, h), p, o));
    var vm, secret := Key(p.key.ns, VmOf(p.obj)), Key(p.key.ns, SecretOf(p.obj));
    if p.stage.Fetching? && Copied(q.stage) {
      EverNow(s, h, (k: Kube) => Get(k.bmcs, p.key) == Some(q.obj));
    }
    if p.stage.CheckingVM? && vm in k.vms {
      EverNow(s, h, (k: Kube) => vm in k.vms);
    }
    if p.stage.CheckingSecret? && secret in k.secrets {
      EverNow(s, h, (k: Kube) => secret in k.secrets);
    }
  }

  predicate Relies(s: Stage) {
    Approved(s) || ((s.CheckingSecret? || s.WritingSecret?) && s.vmOk)
  }

  /** The answer to a write brings back the stored object, or leaves the copy alone. */
  lemma WriteStepShape(p: Pass, k': Kube, a: Answer)
    requires Request(p).Some?
    ensures var q := WriteStep(p, k', a);
            && Copied(p.stage) && q.key == p.key
            && (q.obj == p.obj || (Get(k'.bmcs, p.key) == Some(q.obj) && !Relies(q.stage)))
            && (Relies(q.stage) ==> Approved(q.stage) && Approved(p.stage))
  {
  }

  /** So is the object that the answer to a status update brings back. */
  lemma WriteGrounds(s: System, t: System, p: Pass, o: Outcome)
    requires Grounded(s, p) && Request(p).Some? && t.past == s.past + [s.kube]
    requires t.kube == Submit(s.kube, Request(p).value, o).0
    ensures Grounded(t, WriteStep(p, t.kube, Submit(s.kube, Request(p).value, o).1))
  {
    GroundedStays(s, t, p);
    WriteStepShape(p, t.kube, Submit(s.kube, Request(p).value, o).1);
    var q := WriteStep(p, t.kube, Submit(s.kube, Request(p).value, o).1);
    if q.obj != p.obj {
      EverNow(t, |t.past|, (k: Kube) => Get(k.bmcs, p.key) == Some(q.obj));
    }
  }

  lemma AdvanceGates(s: System, i: nat, o: Outcome, h: nat)
    requires Gated(s) && i < |s.passes|
    ensures Gated(Next(s, Advance(i, o, h)))
  {
    var t, p := Next(s, Advance(i, o, h)), s.passes[i];
    StepVouches(s.kube, p, Fresh(Seen(s, h), p, o));
    if Request(p).Some? {
      WriteGrounds(s, t, p, o);
    } else {
      ReadGrounds(s, p, o, h);
      GroundedStays(s, t, t.passes[i]);
    }
    forall j | 0 <= j < |t.passes| ensures Vouched(t.passes[j]) && Grounded(t, t.passes[j]) {
      if j != i {
        GroundedStays(s, t, s.passes[j]);
      }
    }
  }

  /** Over all runs, a pass creates objects only on a stored status that reports both
      prerequisites, and on having found both. */
  lemma {:induction false} EveryPassGated(s: System, events: seq<Event>)
    requires Gated(s)
    ensures Gated(Execute(s, events))
    decreases |events|
  {
    if events != [] {
      var e, t := events[0], Next(s, events[0]);
      if e.Advance? && e.i < |s.passes| {
        AdvanceGates(s, e.i, e.outcome, e.h);
      } else {
        forall j | 0 <= j < |t.passes| ensures Vouched(t.passes[j]) && Grounded(t, t.passes[j]) {
          if j < |s.passes| {
            GroundedStays(s, t, s.passes[j]);
          }
        }
      }
      EveryPassGated(t, events[1..]);
    }
  }

  lemma StepCreatesPod(k: Kube, p: Pass, i: Input, pod: Key)
    requires pod !in k.pods && pod in Step(k, p, i).0.pods
    ensures p.stage.MakingPod? && pod == AgentKey(p.key.ns, VmOf(p.obj))
    ensures Step(k, p, i).0.pods[pod] == ConstructPod(p.key, p.obj)
  {
  }

  /** In every run, a Pod appears only at the hands of a pass over a status that was stored and
      reports both prerequisites as available under exactly the names in its spec, and both
      existed; the Pod is made for that virtual machine and that Secret. */
  lemma PodsAreGated(s: System, events: seq<Event>, e: Event, pod: Key)
    requires Gated(s)
    requires pod !in Execute(s, events).kube.pods
    requires pod in Next(Execute(s, events), e).kube.pods
    ensures var t := Execute(s, events);
            && e.Advance? && e.i < |t.passes|
            && var p := t.passes[e.i];
               && Stored(t, p.key, p.obj) && ReportsVm(p) && ReportsSecret(p)
               && VmExisted(t, Key(p.key.ns, VmOf(p.obj))) && SecretExisted(t, Key(p.key.ns, SecretOf(p.obj)))
               && pod == AgentKey(p.key.ns, VmOf(p.obj))
               && Next(t, e).kube.pods[pod]
                  == Pod(p.key.name, p.obj.spec.vmRef.value, p.obj.spec.vmRef.value + "-virtbmc",
                         p.obj.spec.secretRef.value, None)
  {
    EveryPassGated(s, events);
    var t := Execute(s, events);
    if e.Advance? && e.i < |t.passes| {
      StepCreatesPod(t.kube, t.passes[e.i], Fresh(Seen(t, e.h), t.passes[e.i], e.outcome), pod);
    }
  }

  /** In every run, a Service appears only for the object of the pass that makes it, on the same
      terms, and carries the labels of that object and its virtual machine. */
  lemma ServicesAreGated(s: System, events: seq<Event>, e: Event, service: Key)
    requires Gated(s)
    requires service !in Execute(s, events).kube.services
    requires service in Next(Execute(s, events), e).kube.services
    ensures var t := Execute(s, events);
            && e.Advance? && e.i < |t.passes|
            && var p := t.passes[e.i];
               && Stored(t, p.key, p.obj) && ReportsVm(p) && ReportsSecret(p)
               && service == Key(p.key.ns, p.obj.spec.vmRef.value + "-virtbmc")
               && Next(t, e).kube.services[service] == Service(p.key.name, p.obj.spec.vmRef.value)
  {
    EveryPassGated(s, events);
    var t := Execute(s, events);
    if e.Advance? && e.i < |t.passes| {
      StepCreatesService(t.kube, t.passes[e.i], Fresh(Seen(t, e.h), t.passes[e.i], e.outcome), service);
    }
  }

  lemma StepCreatesService(k: Kube, p: Pass, i: Input, service: Key)
    requires service !in k.services && service in Step(k, p, i).0.services
    ensures p.stage.MakingService? && service == AgentKey(p.key.ns, VmOf(p.obj))
    ensures Step(k, p, i).0.services[service] == ConstructService(p.key, p.obj)
  {
  }

  // ---------- The status at the moment of creation ----------

  /** Others give an object that they write a version that it never had. */
  predicate NewVersions(s: System, e: Event) {
    e.Elsewhere? ==>
      forall key :: key in e.kube.bmcs ==>
        || (key in s.kube.bmcs && e.kube.bmcs[key] == s.kube.bmcs[key])
        || forall h :: 0 <= h <= |s.past| && key in Seen(s, h).bmcs ==>
             Seen(s, h).bmcs[key].version < e.kube.bmcs[key].version
  }

  predicate AllNewVersions(s: System, events: seq<Event>)
    decreases |events|
  {
    events == [] || (NewVersions(s, events[0]) && AllNewVersions(Next(s, events[0]), events[1..]))
  }

  /** The version tells the state. */
  predicate Versioned(s: System) {
    forall h, key :: 0 <= h <= |s.past| && key in Seen(s, h).bmcs && key in s.kube.bmcs ==>
      NotAhead(Seen(s, h).bmcs[key], s.kube.bmcs[key])
  }

  predicate NotAhead(b: Bmc, now: Bmc) {
    b == now || b.version < now.version
  }

  lemma SubmitNotAhead(k: Kube, w: Write, o: Outcome, key: Key)
    requires key in k.bmcs
    ensures var k' := Submit(k, w, o).0; key in k'.bmcs && NotAhead(k.bmcs[key], k'.bmcs[key])
  {
  }

  lemma EventVersioned(s: System, e: Event)
    requires Versioned(s) && NewVersions(s, e)
    ensures Versioned(Next(s, e))
  {
    var t := Next(s, e);
    forall h, key | 0 <= h <= |t.past| && key in Seen(t, h).bmcs && key in t.kube.bmcs
      ensures NotAhead(Seen(t, h).bmcs[key], t.kube.bmcs[key])
    {
      if h <= |s.past| {
        assert Seen(t, h) == Seen(s, h);
        if e.Advance? && e.i < |s.passes| && Request(s.passes[e.i]).Some? {
          var w := Request(s.passes[e.i]).value;
          SubmitKeeps(s.kube, w, e.outcome);
          SubmitNotAhead(s.kube, w, e.outcome, key);
        }
        assert key in s.kube.bmcs ==> NotAhead(Seen(s, h).bmcs[key], s.kube.bmcs[key]);
      }
    }
  }

  lemma {:induction false} AllVersioned(s: System, events: seq<Event>)
    requires Versioned(s) && AllNewVersions(s, events)
    ensures Versioned(Execute(s, events))
    decreases |events|
  {
    if events != [] {
      EventVersioned(s, events[0]);
      AllVersioned(Next(s, events[0]), events[1..]);
    }
  }

  predicate Reports(key: Key, b: Bmc) {
    ReportsVm(Pass(key, b, Fetching)) && ReportsSecret(Pass(key, b, Fetching))
  }

  predicate SameReports(b: Bmc, c: Bmc) {
    && Find(b.status.conditions, VM_AVAILABLE) == Find(c.status.conditions, VM_AVAILABLE)
    && Find(b.status.conditions, SECRET_AVAILABLE) == Find(c.status.conditions, SECRET_AVAILABLE)
  }

  /** Conditions that report both names of one spec report those of another exactly if the
      other has the same references. */
  lemma ReportsExactly(key: Key, b: Bmc, c: Bmc)
    requires Reports(key, b) && SameReports(b, c)
    ensures Reports(key, c) <==> c.spec == b.spec
  {
    if Reports(key, c) {
      FoundVmNames(key.ns, b.spec.vmRef.value, c.spec.vmRef.value);
      FoundSecretNames(key.ns, b.spec.secretRef.value, c.spec.secretRef.value);
    }
  }

  /** When the Pod appears, the stored object is the copy exactly if its version is.  While it
      has the conditions of the copy, its status reports both for the names in its spec
      exactly if its references are those of the copy. */
  lemma PodsAreGatedNow(s: System, events: seq<Event>, e: Event, pod: Key)
    requires Gated(s) && Versioned(s) && AllNewVersions(s, events)
    requires pod !in Execute(s, events).kube.pods
    requires pod in Next(Execute(s, events), e).kube.pods
    ensures var t := Execute(s, events);
            && e.Advance? && e.i < |t.passes|
            && var p := t.passes[e.i];
               p.key in t.kube.bmcs ==>
                 && var c := t.kube.bmcs[p.key];
                 && (c == p.obj <==> c.version == p.obj.version)
                 && (c.version == p.obj.version ==> Reports(p.key, c))
                 && (SameReports(p.obj, c) ==> (Reports(p.key, c) <==> c.spec == p.obj.spec))
  {
    PodsAreGated(s, events, e, pod);
    AllVersioned(s, events);
    var t := Execute(s, events);
    var p := t.passes[e.i];
    var h :| 0 <= h <= |t.past| && Get(Seen(t, h).bmcs, p.key) == Some(p.obj);
    if p.key in t.kube.bmcs {
      assert NotAhead(Seen(t, h).bmcs[p.key], t.kube.bmcs[p.key]);
      if SameReports(p.obj, t.kube.bmcs[p.key]) {
        ReportsExactly(p.key, p.obj, t.kube.bmcs[p.key]);
      }
    }
  }

  /** What holds between two steps of one pass on its own, started on `k0`. */
  predicate GatingMidway(k0: Kube, r: Run) {
    var p := r.pass;
    && p.key in k0.bmcs
    && (!p.stage.Fetching? && !p.stage.Done? ==> VmOf(p.obj) == VmOf(k0.bmcs[p.key]))
    && p.key in r.kube.bmcs && VmOf(r.kube.bmcs[p.key]) == VmOf(k0.bmcs[p.key])
    && var agent := AgentKey(p.key.ns, VmOf(k0.bmcs[p.key]));
       var binding := BindingKey(p.key.ns, VmOf(k0.bmcs[p.key]));
       && (p.stage.MakingBinding? || p.stage.MakingPod? || p.stage.MakingService? ==> agent in r.kube.accounts)
       && (p.stage.MakingPod? || p.stage.MakingService? ==> binding in r.kube.bindings)
       && (p.stage.MakingService? ==> agent in r.kube.pods)
       && (p.stage.Done? && !p.stage.failed ==>
             && (agent in r.kube.pods <==> p.stage.ready)
             && (p.stage.ready ==>
                   agent in r.kube.accounts && binding in r.kube.bindings && agent in r.kube.services))
  }

  lemma HopGates(k0: Kube, r: Run)
    requires GatingMidway(k0, r)
    ensures GatingMidway(k0, Hop(r))
  {
    if Request(r.pass).Some? {
      WriteGates(k0, r);
    }
  }

  lemma WriteGates(k0: Kube, r: Run)
    requires GatingMidway(k0, r) && Request(r.pass).Some?
    ensures GatingMidway(k0, Hop(r))
  {
    SubmitKeeps(r.kube, Request(r.pass).value, Head(r.script));
  }

  lemma {:induction false} FinishGates(k0: Kube, r: Run)
    requires GatingMidway(k0, r)
    ensures GatingMidway(k0, Finish(r))
    decreases Rank(r.pass.stage)
  {
    if !Over(r.pass) {
      HopGates(k0, r);
      FinishGates(k0, Hop(r));
    }
  }

  /** Every pass that returns no error ends with the Pod present exactly if both validators
      returned true, and then with all it needs, whatever calls fail. */
  lemma PassGatesPod(k: Kube, key: Key, script: seq<Outcome>)
    requires key in k.bmcs
    ensures var r := ReconcileRun(k, key, script);
            var agent, binding := AgentKey(key.ns, VmOf(k.bmcs[key])), BindingKey(key.ns, VmOf(k.bmcs[key]));
            r.pass.stage.Done? && !r.pass.stage.failed ==>
              && (agent in r.kube.pods <==> r.pass.stage.ready)
              && (r.pass.stage.ready ==>
                    agent in r.kube.accounts && binding in r.kube.bindings && agent in r.kube.services)
  {
    FinishGates(k, Run(k, Start(key), script));
  }

  /** What is bad news for a pass: a read that fails, or a write that the server refuses, whose
      reply is lost, or that finds no object or another version; that the object to create is
      there, or the Pod to delete is not, is no bad news. */
  predicate BadNews(k: Kube, p: Pass, o: Outcome) {
    match Request(p)
    case None => !o.Served?
    case Some(w) =>
      || o.Refused?
      || (o.Lost? && Check(k, w).Ok?)
      || (w.UpdateStatus? && !Check(k, w).Ok?)
  }

  /** In every state, a call ends its pass in an error exactly if it brings bad news. */
  lemma FailsExactly(k: Kube, p: Pass, i: Input)
    requires IsCall(p)
    ensures var q := Step(k, p, i).1;
            (q.stage.Done? && q.stage.failed) <==> BadNews(k, p, i.outcome)
  {
  }

  // ---------- Safe dereferences ----------

  /** The object has passed the webhook at some time, whatever existed then. */
  ghost predicate PassedAdmission(spec: Spec) {
    exists ns, vms, secrets, script :: Validate(spec, ns, vms, secrets, script).None?
  }

  ghost predicate AllAdmitted(k: Kube) {
    forall key :: key in k.bmcs ==> PassedAdmission(k.bmcs[key].spec)
  }

  ghost predicate Safe(p: Pass) {
    && !p.stage.Panicked?
    && (!p.stage.Fetching? && !p.stage.Done? ==> PassedAdmission(p.obj.spec))
  }

  /** Others write only admitted objects. */
  ghost predicate AdmittedEvent(e: Event) {
    e.Elsewhere? ==> AllAdmitted(e.kube)
  }

  ghost predicate EverAdmitted(s: System) {
    forall h :: 0 <= h <= |s.past| ==> AllAdmitted(Seen(s, h))
  }

  /** No pass over admitted objects ever dereferences a missing reference. */
  lemma {:induction false} NoPanic(s: System, events: seq<Event>)
    requires EverAdmitted(s)
    requires forall i :: 0 <= i < |s.passes| ==> Safe(s.passes[i])
    requires forall i :: 0 <= i < |events| ==> AdmittedEvent(events[i])
    ensures var t := Execute(s, events);
            EverAdmitted(t) && forall i :: 0 <= i < |t.passes| ==> Safe(t.passes[i])
    decreases |events|
  {
    if events != [] {
      var e, t := events[0], Next(s, events[0]);
      assert AdmittedEvent(e);
      assert AllAdmitted(Seen(s, |s.past|));
      if e.Advance? && e.i < |s.passes| {
        assert AllAdmitted(Seen(s, if e.h < |s.past| then e.h else |s.past|));
        StepSafe(s.kube, s.passes[e.i], Fresh(Seen(s, e.h), s.passes[e.i], e.outcome));
      }
      forall h | 0 <= h <= |t.past| ensures AllAdmitted(Seen(t, h)) {
        assert h <= |s.past| ==> AllAdmitted(Seen(s, h));
      }
      NoPanic(t, events[1..]);
    }
  }

  lemma StepSafe(k: Kube, p: Pass, i: Input)
    requires AllAdmitted(k) && Safe(p)
    requires i.seen.Some? ==> PassedAdmission(i.seen.value.spec)
    ensures AllAdmitted(Step(k, p, i).0) && Safe(Step(k, p, i).1)
  {
    if Request(p).Some? {
      SubmitKeeps(k, Request(p).value, i.outcome);
    }
  }
}
