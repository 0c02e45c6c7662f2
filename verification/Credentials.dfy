/** Credentials held by running Pods, under Secret writes, the delivery of their events, and
    passes, all interleaved at the grain of API calls.  Objects and their references are fixed. */
module Credentials {
  import opened Basics
  import opened Bmcs
  import opened Reconcile

  /** A Secret event on its way through the watch mapping: the listed objects still to come. */
  datatype Delivery = Delivery(secret: Key, todo: seq<Key>)

  /** `pending` holds the Secrets that changed since their last delivery began; `clock` is the
      next version that a write gives out. */
  datatype System = System(
    kube: Kube,
    passes: seq<Pass>,
    pending: set<Key>,
    deliveries: seq<Delivery>,
    clock: nat)

  datatype Event =
    | WriteSecret(secret: Key)
    | RemoveSecret(secret: Key)
    | Deliver(secret: Key, listed: seq<Key>)
    | FailList(secret: Key)
    | Process(j: nat, outcome: Outcome)
    | StartPass(key: Key)
    | Advance(i: nat, outcome: Outcome, found: bool)
    | StartContainer(pod: Key)
    | RemovePod(pod: Key)

  /** The list call of a delivery may fail, and then nothing is done.  The list holds every
      object of the namespace, in any order. */
  predicate Lists(k: Kube, secret: Key, listed: seq<Key>) {
    && (forall b :: b in k.bmcs && b.ns == secret.ns ==> b in listed)
    && (forall b :: b in listed ==> b in k.bmcs && b.ns == secret.ns)
  }

  function Next(s: System, e: Event): System {
    var k := s.kube;
    match e
    case WriteSecret(secret) =>
      s.(kube := k.(secrets := k.secrets[secret := s.clock]), pending := s.pending + {secret}, clock := s.clock + 1)
    case RemoveSecret(secret) =>
      s.(kube := k.(secrets := k.secrets - {secret}), pending := s.pending + {secret})
    case Deliver(secret, listed) =>
      if secret in s.pending && Lists(k, secret, listed) then
        s.(pending := s.pending - {secret}, deliveries := s.deliveries + [Delivery(secret, listed)])
      else s
    case FailList(secret) => s.(pending := s.pending - {secret})
    case Process(j, o) =>
      if j < |s.deliveries| && s.deliveries[j].todo != [] then
        var d := s.deliveries[j];
        s.(kube := Sweep(k, d.secret, d.todo[0], o), deliveries := s.deliveries[j := d.(todo := d.todo[1..])])
      else s
    case StartPass(key) => s.(passes := s.passes + [Start(key)])
    case Advance(i, o, found) =>
      if i < |s.passes| then
        var r := Step(k, s.passes[i], Input(o, Get(k.bmcs, s.passes[i].key), found));
        s.(kube := r.0, passes := s.passes[i := r.1])
      else s
    case StartContainer(pod) =>
      if pod in k.pods && k.pods[pod].env.None? && SecretKey(k, pod) in k.secrets then
        s.(kube := k.(pods := k.pods[pod := k.pods[pod].(env := Some(k.secrets[SecretKey(k, pod)]))]))
      else s
    case RemovePod(pod) => s.(kube := k.(pods := k.pods - {pod}))
  }

  /** One round of the watch mapping: the Pod of a listed object that references the Secret goes. */
  function Sweep(k: Kube, secret: Key, key: Key, o: Outcome): Kube {
    if key in k.bmcs && k.bmcs[key].spec.secretRef == Some(secret.name)
    then Submit(k, DeletePod(AgentKey(key.ns, VmOf(k.bmcs[key]))), o).0
    else k
  }

  function Execute(s: System, events: seq<Event>): System
    decreases |events|
  {
    if events == [] then s else Execute(Next(s, events[0]), events[1..])
  }

  function SecretKey(k: Kube, pod: Key): Key
    requires pod in k.pods
  {
    Key(pod.ns, k.pods[pod].secret)
  }

  function Owner(k: Kube, pod: Key): Key
    requires pod in k.pods
  {
    Key(pod.ns, k.pods[pod].bmc)
  }

  // ---------- The invariant ----------

  /** A Pod was made by an object that references its Secret and its virtual machine. */
  predicate Owned(k: Kube, pod: Key)
    requires pod in k.pods
  {
    var b := Owner(k, pod);
    b in k.bmcs && MadeFor(b, k.bmcs[b].spec, pod, k.pods[pod].secret)
  }

  predicate MadeFor(b: Key, spec: Spec, pod: Key, secret: string) {
    && spec.vmRef.Some? && spec.secretRef == Some(secret)
    && pod == AgentKey(b.ns, spec.vmRef.value)
  }

  /** The container has not started, or runs on the current version of its Secret. */
  predicate Current(k: Kube, pod: Key)
    requires pod in k.pods
  {
    k.pods[pod].env.Some? ==>
      SecretKey(k, pod) in k.secrets && k.secrets[SecretKey(k, pod)] == k.pods[pod].env.value
  }

  /** An event for the Pod's Secret has still to reach the object that made the Pod. */
  predicate Undelivered(s: System, pod: Key)
    requires pod in s.kube.pods
  {
    || SecretKey(s.kube, pod) in s.pending
    || exists j :: 0 <= j < |s.deliveries| && Reaches(s.deliveries[j], SecretKey(s.kube, pod), Owner(s.kube, pod))
  }

  predicate Reaches(d: Delivery, secret: Key, owner: Key) {
    d.secret == secret && owner in d.todo
  }

  /** A pass works on the stored spec of an object with both references. */
  predicate PassOk(k: Kube, p: Pass) {
    !p.stage.Fetching? && !p.stage.Done? ==>
      && p.key in k.bmcs && p.obj.spec == k.bmcs[p.key].spec
      && (MakingObjects(p.stage) ==> p.obj.spec.vmRef.Some? && p.obj.spec.secretRef.Some?)
  }

  predicate SecretOkSoFar(p: Pass) {
    (p.stage.CheckingSecret? || p.stage.WritingSecret?) && p.stage.vmOk ==> p.obj.spec.vmRef.Some?
  }

  /** What every event keeps. */
  predicate Structural(s: System) {
    && (forall i :: 0 <= i < |s.passes| ==> PassOk(s.kube, s.passes[i]) && SecretOkSoFar(s.passes[i]))
    && (forall pod :: pod in s.kube.pods ==> Owned(s.kube, pod))
  }

  predicate PodOk(s: System, pod: Key)
    requires pod in s.kube.pods
  {
    Current(s.kube, pod) || Undelivered(s, pod)
  }

  /** Each running Pod holds the current version of its Secret, or an event for that Secret has
      still to reach it. */
  predicate Coherent(s: System) {
    forall pod :: pod in s.kube.pods ==> PodOk(s, pod)
  }

  predicate Invariant(s: System) {
    Structural(s) && Coherent(s)
  }

  /** The event of the Secret reaches the Pod by some other way than the next item of delivery `j`. */
  predicate Otherwise(s: System, j: nat, pod: Key)
    requires pod in s.kube.pods && j < |s.deliveries| && s.deliveries[j].todo != []
  {
    var secret, owner, d := SecretKey(s.kube, pod), Owner(s.kube, pod), s.deliveries[j];
    || secret in s.pending
    || (d.secret == secret && owner in d.todo[1..])
    || exists h :: 0 <= h < |s.deliveries| && h != j && Reaches(s.deliveries[h], secret, owner)
  }

  /** The event loses a Pod: a refused delete, or a failed list, is all that a Pod with old
      credentials was waiting for. */
  predicate Loses(s: System, e: Event) {
    match e
    case Process(j, o) =>
      && o.Refused? && j < |s.deliveries| && s.deliveries[j].todo != []
      && exists pod :: pod in s.kube.pods && !Current(s.kube, pod)
           && SecretKey(s.kube, pod) == s.deliveries[j].secret && Owner(s.kube, pod) == s.deliveries[j].todo[0]
           && !Otherwise(s, j, pod)
    case FailList(secret) =>
      && secret in s.pending
      && exists pod :: pod in s.kube.pods && !Current(s.kube, pod)
           && SecretKey(s.kube, pod) == secret
           && forall h :: 0 <= h < |s.deliveries| ==> !Reaches(s.deliveries[h], secret, Owner(s.kube, pod))
    case _ => false
  }

  // ---------- Each event keeps it, unless it loses a Pod ----------

  lemma PassStays(k: Kube, p: Pass, o: Outcome, found: bool)
    requires PassOk(k, p) && SecretOkSoFar(p)
    ensures var r := Step(k, p, Input(o, Get(k.bmcs, p.key), found));
            PassOk(r.0, r.1) && SecretOkSoFar(r.1)
  {
    if Request(p).Some? {
      SubmitKeeps(k, Request(p).value, o);
    }
  }

  /** The effects of one step of a pass that matter here. */
  lemma StepEffects(k: Kube, p: Pass, o: Outcome, found: bool)
    requires PassOk(k, p) && SecretOkSoFar(p)
    ensures var k' := Step(k, p, Input(o, Get(k.bmcs, p.key), found)).0;
            && k'.secrets == k.secrets && k'.bmcs.Keys == k.bmcs.Keys
            && (forall b :: b in k.bmcs ==> k'.bmcs[b].spec == k.bmcs[b].spec)
            && (forall pod :: pod in k'.pods ==>
                  if pod in k.pods then k'.pods[pod] == k.pods[pod]
                  else k'.pods[pod].env.None? && Owned(k', pod))
  {
    if Request(p).Some? {
      SubmitKeeps(k, Request(p).value, o);
    }
  }

  lemma StructuralKeeps(s: System, e: Event)
    requires Structural(s)
    ensures Structural(Next(s, e))
  {
    if e.Advance? && e.i < |s.passes| {
      StepEffects(s.kube, s.passes[e.i], e.outcome, e.found);
      PassStays(s.kube, s.passes[e.i], e.outcome, e.found);
      var s' := Next(s, e);
      forall h | 0 <= h < |s'.passes| ensures PassOk(s'.kube, s'.passes[h]) && SecretOkSoFar(s'.passes[h]) {
        if h != e.i {
          assert PassOk(s.kube, s.passes[h]);
        }
      }
    }
  }

  /** An event that is on its way still is when one item of one delivery is done, if it is for
      another Pod or comes by another way too. */
  lemma StillOnItsWay(s: System, j: nat, o: Outcome, pod: Key)
    requires j < |s.deliveries| && s.deliveries[j].todo != []
    requires pod in s.kube.pods && pod in Next(s, Process(j, o)).kube.pods
    ensures var s', d := Next(s, Process(j, o)), s.deliveries[j];
            Undelivered(s', pod) <==>
              || Otherwise(s, j, pod)
              || (Undelivered(s, pod) && !(d.secret == SecretKey(s.kube, pod) && d.todo[0] == Owner(s.kube, pod)))
  {
    var s', d := Next(s, Process(j, o)), s.deliveries[j];
    var secret, owner := SecretKey(s.kube, pod), Owner(s.kube, pod);
    assert d.todo == [d.todo[0]] + d.todo[1..];
    forall h | 0 <= h < |s.deliveries|
      ensures Reaches(s'.deliveries[h], secret, owner) <==>
                if h == j then d.secret == secret && owner in d.todo[1..] else Reaches(s.deliveries[h], secret, owner)
    {
    }
    if Undelivered(s', pod) && secret !in s.pending {
      var h :| 0 <= h < |s'.deliveries| && Reaches(s'.deliveries[h], secret, owner);
      assert h != j ==> Reaches(s.deliveries[h], secret, owner);
    }
    if Undelivered(s, pod) && secret !in s.pending {
      var h :| 0 <= h < |s.deliveries| && Reaches(s.deliveries[h], secret, owner);
      assert h != j ==> Reaches(s'.deliveries[h], secret, owner);
      assert h == j && d.todo[0] != owner ==> Reaches(s'.deliveries[j], secret, owner);
    }
    if Otherwise(s, j, pod) && secret !in s.pending {
      if d.secret == secret && owner in d.todo[1..] {
        assert Reaches(s'.deliveries[j], secret, owner);
      } else {
        var h :| 0 <= h < |s.deliveries| && h != j && Reaches(s.deliveries[h], secret, owner);
        assert Reaches(s'.deliveries[h], secret, owner);
      }
    }
  }

  lemma ProcessExactly(s: System, j: nat, o: Outcome)
    requires Invariant(s)
    requires j < |s.deliveries| && s.deliveries[j].todo != []
    ensures Coherent(Next(s, Process(j, o))) <==> !Loses(s, Process(j, o))
  {
    var s', d := Next(s, Process(j, o)), s.deliveries[j];
    forall pod | pod in s'.kube.pods
      ensures PodOk(s', pod) <==>
                || Current(s.kube, pod) || Otherwise(s, j, pod)
                || !(d.secret == SecretKey(s.kube, pod) && d.todo[0] == Owner(s.kube, pod))
    {
      assert PodOk(s, pod);
      StillOnItsWay(s, j, o, pod);
    }
    if Loses(s, Process(j, o)) {
      var pod :| pod in s.kube.pods && !Current(s.kube, pod)
           && SecretKey(s.kube, pod) == s.deliveries[j].secret && Owner(s.kube, pod) == s.deliveries[j].todo[0]
           && !Otherwise(s, j, pod);
      assert pod in s'.kube.pods && !PodOk(s', pod);
    } else if !o.Refused? {
      forall pod | pod in s'.kube.pods ensures PodOk(s', pod) {
        assert Owned(s.kube, pod);
      }
    }
  }

  lemma FailListExactly(s: System, secret: Key)
    requires Invariant(s)
    ensures Coherent(Next(s, FailList(secret))) <==> !Loses(s, FailList(secret))
  {
    var s' := Next(s, FailList(secret));
    forall pod | pod in s'.kube.pods
      ensures PodOk(s', pod) <==>
                || Current(s.kube, pod) || SecretKey(s.kube, pod) in s'.pending
                || exists h :: 0 <= h < |s.deliveries|
                               && Reaches(s.deliveries[h], SecretKey(s.kube, pod), Owner(s.kube, pod))
    {
    }
    if Loses(s, FailList(secret)) {
      var pod :| pod in s.kube.pods && !Current(s.kube, pod) && SecretKey(s.kube, pod) == secret
           && forall h :: 0 <= h < |s.deliveries| ==> !Reaches(s.deliveries[h], secret, Owner(s.kube, pod));
      assert !PodOk(s', pod);
    } else {
      forall pod | pod in s'.kube.pods ensures PodOk(s', pod) {
        assert PodOk(s, pod);
      }
    }
  }

  lemma DeliverKeeps(s: System, secret: Key, listed: seq<Key>)
    requires Invariant(s)
    ensures Coherent(Next(s, Deliver(secret, listed)))
  {
    var s' := Next(s, Deliver(secret, listed));
    if s' != s {
      forall pod | pod in s'.kube.pods ensures PodOk(s', pod) {
        assert PodOk(s, pod);
        if !Current(s.kube, pod) {
          if SecretKey(s.kube, pod) == secret {
            assert Reaches(s'.deliveries[|s.deliveries|], secret, Owner(s.kube, pod));
          } else if SecretKey(s.kube, pod) !in s.pending {
            var h :| 0 <= h < |s.deliveries| && Reaches(s.deliveries[h], SecretKey(s.kube, pod), Owner(s.kube, pod));
            assert s'.deliveries[h] == s.deliveries[h];
          }
        }
      }
    }
  }

  lemma SecretKeeps(s: System, e: Event)
    requires Invariant(s) && (e.WriteSecret? || e.RemoveSecret?)
    ensures Coherent(Next(s, e))
  {
    var s' := Next(s, e);
    forall pod | pod in s'.kube.pods ensures PodOk(s', pod) {
      assert PodOk(s, pod);
    }
  }

  lemma AdvanceKeeps(s: System, i: nat, o: Outcome, found: bool)
    requires Invariant(s) && i < |s.passes|
    ensures Coherent(Next(s, Advance(i, o, found)))
  {
    var s' := Next(s, Advance(i, o, found));
    StepEffects(s.kube, s.passes[i], o, found);
    forall pod | pod in s'.kube.pods ensures PodOk(s', pod) {
      if pod in s.kube.pods {
        assert PodOk(s, pod);
        if !Current(s.kube, pod) && SecretKey(s.kube, pod) !in s.pending {
          var h :| 0 <= h < |s.deliveries| && Reaches(s.deliveries[h], SecretKey(s.kube, pod), Owner(s.kube, pod));
          assert Reaches(s'.deliveries[h], SecretKey(s'.kube, pod), Owner(s'.kube, pod));
        }
      }
    }
  }

  lemma PodEventKeeps(s: System, e: Event)
    requires Invariant(s) && (e.StartContainer? || e.RemovePod? || e.StartPass?)
    ensures Coherent(Next(s, e))
  {
    var s' := Next(s, e);
    forall pod | pod in s'.kube.pods ensures PodOk(s', pod) {
      assert pod in s.kube.pods && PodOk(s, pod);
      if !Current(s.kube, pod) && SecretKey(s.kube, pod) !in s.pending {
        var h :| 0 <= h < |s.deliveries| && Reaches(s.deliveries[h], SecretKey(s.kube, pod), Owner(s.kube, pod));
        assert Reaches(s'.deliveries[h], SecretKey(s'.kube, pod), Owner(s'.kube, pod));
      }
    }
  }

  /** From a coherent state, an event leads to a coherent state exactly if it loses no Pod. */
  lemma EventExactly(s: System, e: Event)
    requires Invariant(s)
    ensures Structural(Next(s, e))
    ensures Coherent(Next(s, e)) <==> !Loses(s, e)
  {
    StructuralKeeps(s, e);
    match e
    case WriteSecret(_) => SecretKeeps(s, e);
    case RemoveSecret(_) => SecretKeeps(s, e);
    case Deliver(secret, listed) => DeliverKeeps(s, secret, listed);
    case FailList(secret) => FailListExactly(s, secret);
    case Process(j, o) =>
      if j < |s.deliveries| && s.deliveries[j].todo != [] {
        ProcessExactly(s, j, o);
      }
    case Advance(i, o, found) =>
      if i < |s.passes| {
        AdvanceKeeps(s, i, o, found);
      }
    case _ => PodEventKeeps(s, e);
  }

  // ---------- Runs ----------

  predicate AlwaysCoherent(s: System, events: seq<Event>)
    decreases |events|
  {
    Coherent(s) && (events == [] || AlwaysCoherent(Next(s, events[0]), events[1..]))
  }

  predicate SomeLoses(s: System, events: seq<Event>)
    decreases |events|
  {
    events != [] && (Loses(s, events[0]) || SomeLoses(Next(s, events[0]), events[1..]))
  }

  /** A run is coherent throughout exactly if no event of it loses a Pod. */
  lemma {:induction false} CoherenceExactly(s: System, events: seq<Event>)
    requires Invariant(s)
    ensures AlwaysCoherent(s, events) <==> !SomeLoses(s, events)
    decreases |events|
  {
    if events != [] {
      EventExactly(s, events[0]);
      if Coherent(Next(s, events[0])) {
        CoherenceExactly(Next(s, events[0]), events[1..]);
      }
    }
  }

  /** The calls of the watch mapping get through. */
  predicate Sweeps(e: Event) {
    !e.FailList? && (e.Process? ==> !e.outcome.Refused?)
  }

  lemma {:induction false} InvariantHolds(s: System, events: seq<Event>)
    requires Invariant(s)
    requires forall i :: 0 <= i < |events| ==> Sweeps(events[i])
    ensures Invariant(Execute(s, events))
    decreases |events|
  {
    if events != [] {
      assert Sweeps(events[0]);
      EventExactly(s, events[0]);
      InvariantHolds(Next(s, events[0]), events[1..]);
    }
  }

  predicate Initial(s: System) {
    s.passes == [] && s.pending == {} && s.deliveries == [] && s.kube.pods == map[]
  }

  /** In every reachable state each running Pod holds the current version of its Secret, or an
      event for that Secret has still to reach it; once nothing is on its way, all are current. */
  lemma CredentialCoherence(s: System, events: seq<Event>)
    requires Initial(s)
    requires forall i :: 0 <= i < |events| ==> Sweeps(events[i])
    ensures var t := Execute(s, events);
            && (forall pod :: pod in t.kube.pods ==> Current(t.kube, pod) || Undelivered(t, pod))
            && (t.pending == {} && (forall j :: 0 <= j < |t.deliveries| ==> t.deliveries[j].todo == []) ==>
                  forall pod :: pod in t.kube.pods ==> Current(t.kube, pod))
  {
    InvariantHolds(s, events);
    var t := Execute(s, events);
    forall pod | pod in t.kube.pods ensures Current(t.kube, pod) || Undelivered(t, pod) {
      assert PodOk(t, pod);
    }
  }
}
