/** What becomes of a Pod whose event was lost, and of one whose event arrives. */
module CredentialLoss {
  import opened Basics
  import opened Bmcs
  import opened Reconcile
  import opened Convergence
  import opened Credentials

  // ---------- A lost Pod stays lost ----------

  /** No other object makes the Pod. */
  predicate Sole(k: Kube, pod: Key, owner: Key) {
    forall b :: b in k.bmcs && AgentKey(b.ns, VmOf(k.bmcs[b])) == pod ==> b == owner
  }

  /** A pass that finds everything in order. */
  predicate Harmless(s: Stage) {
    s.CheckingVM? || (s.CheckingSecret? && s.vmOk) || MakingObjects(s)
  }

  /** The Pod runs on an old version of a Secret that exists, and both prerequisites are reported. */
  predicate LostPod(k: Kube, pod: Key, owner: Key) {
    && pod in k.pods && Owner(k, pod) == owner && Sole(k, pod, owner)
    && Admitted(k, owner) && Prepared(k, owner)
    && k.pods[pod].env.Some? && !Current(k, pod)
  }

  /** No event for the Secret is on its way to the owner. */
  predicate Unreached(s: System, secret: Key, owner: Key) {
    && secret !in s.pending
    && (forall h :: 0 <= h < |s.deliveries| ==> Misses(s.deliveries[h], secret, owner))
  }

  /** The delivery is of one namespace, and misses the owner. */
  predicate Misses(d: Delivery, secret: Key, owner: Key) {
    !Reaches(d, secret, owner) && (forall b :: b in d.todo ==> b.ns == d.secret.ns)
  }

  /** The passes of the owner find everything in order. */
  predicate AllHarmless(s: System, owner: Key)
    requires owner in s.kube.bmcs
  {
    forall i :: 0 <= i < |s.passes| && s.passes[i].key == owner ==> OnReported(s.passes[i], s.kube.bmcs[owner])
  }

  predicate OnReported(p: Pass, b: Bmc) {
    Copied(p.stage) ==> p.obj == b && Harmless(p.stage)
  }

  predicate Lost(s: System, pod: Key, owner: Key) {
    && Structural(s) && LostPod(s.kube, pod, owner)
    && Unreached(s, SecretKey(s.kube, pod), owner) && AllHarmless(s, owner)
  }

  /** Nobody writes the Secret again or removes the Pod by hand, and the lookups of the owner's
      passes find what exists.  All else may happen, API calls may fail or lose their reply. */
  predicate Spares(s: System, e: Event, pod: Key, owner: Key)
    requires pod in s.kube.pods
  {
    match e
    case WriteSecret(secret) => secret != SecretKey(s.kube, pod)
    case RemoveSecret(secret) => secret != SecretKey(s.kube, pod)
    case RemovePod(other) => other != pod
    case Advance(i, _, found) => i < |s.passes| && s.passes[i].key == owner ==> found
    case _ => true
  }

  lemma OwnedSecret(s: System, pod: Key, owner: Key)
    requires Lost(s, pod, owner)
    ensures var k := s.kube;
            && pod == AgentKey(owner.ns, VmOf(k.bmcs[owner])) && pod.ns == owner.ns
            && k.pods[pod].secret == SecretOf(k.bmcs[owner])
  {
    assert Owned(s.kube, pod);
  }

  /** A write that is not about the Pod's removal or the owner's status leaves both alone. */
  lemma SubmitSpares(k: Kube, w: Write, o: Outcome, pod: Key, owner: Key)
    requires pod in k.pods && owner in k.bmcs
    requires (w.DeletePod? ==> w.key != pod) && (w.UpdateStatus? ==> w.key != owner)
    ensures var k' := Submit(k, w, o).0;
            && k'.vms == k.vms && k'.secrets == k.secrets
            && pod in k'.pods && k'.pods[pod] == k.pods[pod]
            && owner in k'.bmcs && k'.bmcs[owner] == k.bmcs[owner]
  {
  }

  /** What a pass of the owner goes on to, if it finds what exists. */
  lemma OwnStep(k: Kube, p: Pass, o: Outcome, k': Kube, a: Answer)
    requires Admitted(k, p.key) && Prepared(k, p.key)
    requires Copied(p.stage) ==> p.obj == k.bmcs[p.key] && Harmless(p.stage)
    ensures Request(p).None? ==>
              var q := ReadStep(p, Input(o, Get(k.bmcs, p.key), true));
              Copied(q.stage) ==> q.obj == k.bmcs[p.key] && Harmless(q.stage)
    ensures Request(p).Some? ==>
              var q := WriteStep(p, k', a);
              && !Request(p).value.DeletePod? && !Request(p).value.UpdateStatus?
              && (Copied(q.stage) ==> q.obj == k.bmcs[p.key] && Harmless(q.stage))
  {
  }

  /** What a step of a pass does to the Pod and its owner. */
  lemma LostStep(s: System, pod: Key, owner: Key, i: nat, o: Outcome, found: bool)
    requires Lost(s, pod, owner) && i < |s.passes| && (s.passes[i].key == owner ==> found)
    ensures var (k', p') := Step(s.kube, s.passes[i], Input(o, Get(s.kube.bmcs, s.passes[i].key), found));
            && k'.vms == s.kube.vms && k'.secrets == s.kube.secrets
            && pod in k'.pods && k'.pods[pod] == s.kube.pods[pod]
            && owner in k'.bmcs && k'.bmcs[owner] == s.kube.bmcs[owner]
            && (p'.key == owner && Copied(p'.stage) ==> p'.obj == s.kube.bmcs[owner] && Harmless(p'.stage))
  {
    OwnedSecret(s, pod, owner);
    var k, p := s.kube, s.passes[i];
    assert PassOk(k, p);
    if Request(p).Some? {
      var (k', a) := Submit(k, Request(p).value, o);
      if p.key == owner {
        OwnStep(k, p, o, k', a);
      }
      SubmitSpares(k, Request(p).value, o, pod, owner);
    } else if p.key == owner {
      OwnStep(k, p, o, k, Ok);
    }
  }

  /** The Pod stays lost while its Secret, its owner and the virtual machines stay. */
  lemma LostPodStays(k: Kube, k': Kube, pod: Key, owner: Key)
    requires LostPod(k, pod, owner) && pod in k'.pods && k'.pods[pod] == k.pods[pod]
    requires k'.vms == k.vms && k'.bmcs.Keys == k.bmcs.Keys
    requires forall b :: b in k.bmcs ==> k'.bmcs[b].spec == k.bmcs[b].spec
    requires k'.bmcs[owner] == k.bmcs[owner]
    requires pod.ns == owner.ns && k.pods[pod].secret == SecretOf(k.bmcs[owner])
    requires Get(k'.secrets, SecretKey(k, pod)) == Get(k.secrets, SecretKey(k, pod))
    ensures LostPod(k', pod, owner)
  {
  }

  lemma LostAdvance(s: System, pod: Key, owner: Key, i: nat, o: Outcome, found: bool)
    requires Lost(s, pod, owner) && i < |s.passes| && (s.passes[i].key == owner ==> found)
    ensures Lost(Next(s, Advance(i, o, found)), pod, owner)
    ensures Next(s, Advance(i, o, found)).kube.pods[pod] == s.kube.pods[pod]
  {
    var t := Next(s, Advance(i, o, found));
    OwnedSecret(s, pod, owner);
    LostStep(s, pod, owner, i, o, found);
    StructuralKeeps(s, Advance(i, o, found));
    StepEffects(s.kube, s.passes[i], o, found);
    LostPodStays(s.kube, t.kube, pod, owner);
    forall h | 0 <= h < |t.passes| && t.passes[h].key == owner ensures OnReported(t.passes[h], t.kube.bmcs[owner]) {
      if h != i {
        assert OnReported(s.passes[h], s.kube.bmcs[owner]);
      }
    }
  }

  lemma LostProcess(s: System, pod: Key, owner: Key, j: nat, o: Outcome)
    requires Lost(s, pod, owner) && j < |s.deliveries| && s.deliveries[j].todo != []
    ensures Lost(Next(s, Process(j, o)), pod, owner)
    ensures Next(s, Process(j, o)).kube.pods[pod] == s.kube.pods[pod]
  {
    var t, d := Next(s, Process(j, o)), s.deliveries[j];
    StructuralKeeps(s, Process(j, o));
    OwnedSecret(s, pod, owner);
    assert d.todo == [d.todo[0]] + d.todo[1..];
    assert Misses(d, SecretKey(s.kube, pod), owner);
    SweepSpares(s.kube, d.secret, d.todo[0], o, pod, owner);
    LostPodStays(s.kube, t.kube, pod, owner);
    forall h | 0 <= h < |t.deliveries| ensures Misses(t.deliveries[h], SecretKey(s.kube, pod), owner) {
      assert Misses(s.deliveries[h], SecretKey(s.kube, pod), owner);
    }
  }

  lemma SweepSpares(k: Kube, secret: Key, key: Key, o: Outcome, pod: Key, owner: Key)
    requires pod in k.pods && owner in k.bmcs && Sole(k, pod, owner)
    requires pod.ns == owner.ns && k.bmcs[owner].spec.secretRef == Some(k.pods[pod].secret)
    requires key.ns == secret.ns && !(secret == SecretKey(k, pod) && key == owner)
    ensures var k' := Sweep(k, secret, key, o);
            pod in k'.pods && k'.pods[pod] == k.pods[pod] && k' == k.(pods := k'.pods)
  {
  }

  /** Events that leave virtual machines, objects, passes and deliveries alone. */
  lemma LostSame(s: System, t: System, pod: Key, owner: Key)
    requires Lost(s, pod, owner) && Structural(t)
    requires pod in t.kube.pods && t.kube.pods[pod] == s.kube.pods[pod]
    requires t.kube.vms == s.kube.vms && t.kube.bmcs == s.kube.bmcs
    requires Get(t.kube.secrets, SecretKey(s.kube, pod)) == Get(s.kube.secrets, SecretKey(s.kube, pod))
    requires SecretKey(s.kube, pod) !in t.pending
    requires |s.deliveries| <= |t.deliveries| && t.deliveries[..|s.deliveries|] == s.deliveries
    requires forall h :: |s.deliveries| <= h < |t.deliveries| ==> Misses(t.deliveries[h], SecretKey(s.kube, pod), owner)
    requires |s.passes| <= |t.passes| && t.passes[..|s.passes|] == s.passes
    requires forall i :: |s.passes| <= i < |t.passes| ==> t.passes[i].stage.Fetching?
    ensures Lost(t, pod, owner)
  {
    OwnedSecret(s, pod, owner);
    LostPodStays(s.kube, t.kube, pod, owner);
    forall h | 0 <= h < |t.deliveries| ensures Misses(t.deliveries[h], SecretKey(t.kube, pod), owner) {
      if h < |s.deliveries| {
        assert t.deliveries[h] == t.deliveries[..|s.deliveries|][h] == s.deliveries[h];
      }
    }
    forall i | 0 <= i < |t.passes| && t.passes[i].key == owner ensures OnReported(t.passes[i], t.kube.bmcs[owner]) {
      if i < |s.passes| {
        assert t.passes[i] == t.passes[..|s.passes|][i] == s.passes[i];
      }
    }
  }

  lemma LostDeliver(s: System, pod: Key, owner: Key, secret: Key, listed: seq<Key>)
    requires Lost(s, pod, owner)
    ensures Lost(Next(s, Deliver(secret, listed)), pod, owner)
    ensures Next(s, Deliver(secret, listed)).kube.pods[pod] == s.kube.pods[pod]
  {
    var t := Next(s, Deliver(secret, listed));
    StructuralKeeps(s, Deliver(secret, listed));
    if t != s {
      assert secret != SecretKey(s.kube, pod);
      LostSame(s, t, pod, owner);
    }
  }

  lemma LostSecretEvent(s: System, e: Event, pod: Key, owner: Key)
    requires Lost(s, pod, owner) && Spares(s, e, pod, owner)
    requires e.WriteSecret? || e.RemoveSecret? || e.FailList?
    ensures Lost(Next(s, e), pod, owner)
    ensures Next(s, e).kube.pods[pod] == s.kube.pods[pod]
  {
    StructuralKeeps(s, e);
    LostSame(s, Next(s, e), pod, owner);
  }

  lemma LostPodEvent(s: System, e: Event, pod: Key, owner: Key)
    requires Lost(s, pod, owner) && Spares(s, e, pod, owner)
    requires e.StartPass? || e.StartContainer? || e.RemovePod?
    ensures Lost(Next(s, e), pod, owner)
    ensures Next(s, e).kube.pods[pod] == s.kube.pods[pod]
  {
    StructuralKeeps(s, e);
    LostSame(s, Next(s, e), pod, owner);
  }

  lemma LostKeeps(s: System, e: Event, pod: Key, owner: Key)
    requires Lost(s, pod, owner) && Spares(s, e, pod, owner)
    ensures Lost(Next(s, e), pod, owner)
    ensures Next(s, e).kube.pods[pod] == s.kube.pods[pod]
  {
    match e
    case Advance(i, o, found) =>
      if i < |s.passes| {
        LostAdvance(s, pod, owner, i, o, found);
      }
    case Process(j, o) =>
      if j < |s.deliveries| && s.deliveries[j].todo != [] {
        LostProcess(s, pod, owner, j, o);
      }
    case Deliver(secret, listed) => LostDeliver(s, pod, owner, secret, listed);
    case StartPass(_) => LostPodEvent(s, e, pod, owner);
    case StartContainer(_) => LostPodEvent(s, e, pod, owner);
    case RemovePod(_) => LostPodEvent(s, e, pod, owner);
    case _ => LostSecretEvent(s, e, pod, owner);
  }

  predicate AllSpare(s: System, events: seq<Event>, pod: Key, owner: Key)
    decreases |events|
  {
    events == [] ||
    (pod in s.kube.pods && Spares(s, events[0], pod, owner) && AllSpare(Next(s, events[0]), events[1..], pod, owner))
  }

  /** Over every run in which the Secret is not touched again, passes and deliveries included,
      the Pod stays as it is, with its old credentials. */
  lemma {:induction false} LostForGood(s: System, events: seq<Event>, pod: Key, owner: Key)
    requires Lost(s, pod, owner) && AllSpare(s, events, pod, owner)
    ensures var t := Execute(s, events);
            && Lost(t, pod, owner) && t.kube.pods[pod] == s.kube.pods[pod]
            && !Coherent(t)
    decreases |events|
  {
    if events == [] {
      assert !PodOk(s, pod);
    } else {
      LostKeeps(s, events[0], pod, owner);
      LostForGood(Next(s, events[0]), events[1..], pod, owner);
    }
  }

  // ---------- How a Pod gets lost ----------

  lemma ExecuteFour(s: System, e: seq<Event>)
    requires |e| >= 4
    ensures Execute(s, e) == Execute(Next(Next(Next(Next(s, e[0]), e[1]), e[2]), e[3]), e[4..])
  {
    var s1 := Next(s, e[0]);
    var s2 := Next(s1, e[1]);
    assert e[1..][1..] == e[2..];
    assert Execute(s1, e[1..]) == Execute(s2, e[2..]);
    assert e[2..][1..] == e[3..];
    assert Execute(s2, e[2..]) == Execute(Next(s2, e[2]), e[3..]);
    assert e[3..][1..] == e[4..];
  }

  lemma {:induction false} ExecuteAppend(s: System, a: seq<Event>, b: seq<Event>)
    ensures Execute(s, a + b) == Execute(Execute(s, a), b)
    decreases |a|
  {
    if a == [] {
      assert a + b == b;
    } else {
      assert (a + b)[1..] == a[1..] + b;
      ExecuteAppend(Next(s, a[0]), a[1..], b);
    }
  }

  function Go(): Event {
    Advance(0, Served, true)
  }

  /** A whole pass over an object with everything in order and nothing made. */
  lemma PassMakesPod(s: System, key: Key)
    requires Initial(s) && Admitted(s.kube, key) && Prepared(s.kube, key)
    ensures var t := Execute(s, [StartPass(key), Go(), Go(), Go(), Go(), Go(), Go(), Go()]);
            var k := s.kube;
            && t.passes == [Pass(key, k.bmcs[key], Done(false, true))]
            && t.pending == {} && t.deliveries == [] && t.clock == s.clock
            && t.kube == k.(accounts := t.kube.accounts, bindings := t.kube.bindings, services := t.kube.services,
                            pods := map[Agent(k, key) := ConstructPod(key, k.bmcs[key])])
  {
    var b, events := s.kube.bmcs[key], [StartPass(key), Go(), Go(), Go(), Go(), Go(), Go(), Go()];
    var s1 := Next(s, StartPass(key));
    var s2 := Next(s1, Go());
    assert s2.passes == [Pass(key, b, CheckingVM)] && s2.kube == s.kube;
    var s3 := Next(s2, Go());
    assert s3.passes == [Pass(key, b, CheckingSecret(true))] && s3.kube == s.kube;
    var s4 := Next(s3, Go());
    assert s4.passes == [Pass(key, b, MakingAccount)] && s4.kube == s.kube;
    ExecuteFour(s, events);
    assert events[4..] == [Go(), Go(), Go(), Go()];
    MakeRoles(s4, key, b);
    MakePodAndService(Next(Next(s4, Go()), Go()), key, b);
    ExecuteFour(s4, events[4..]);
  }

  lemma MakeRoles(s: System, key: Key, b: Bmc)
    requires s.passes == [Pass(key, b, MakingAccount)]
    ensures var t := Next(Next(s, Go()), Go());
            t == s.(passes := [Pass(key, b, MakingPod)],
                    kube := s.kube.(accounts := t.kube.accounts, bindings := t.kube.bindings))
  {
    var s1 := Next(s, Go());
    assert s1 == s.(passes := [Pass(key, b, MakingBinding)], kube := s.kube.(accounts := s1.kube.accounts));
  }

  lemma MakePodAndService(s: System, key: Key, b: Bmc)
    requires s.passes == [Pass(key, b, MakingPod)] && s.kube.pods == map[]
    ensures var t := Next(Next(s, Go()), Go());
            t == s.(passes := [Pass(key, b, Done(false, true))],
                    kube := s.kube.(services := t.kube.services,
                                    pods := map[AgentKey(key.ns, VmOf(b)) := ConstructPod(key, b)]))
  {
    var s1 := Next(s, Go());
    assert s1 == s.(passes := [Pass(key, b, MakingService)],
                    kube := s.kube.(pods := map[AgentKey(key.ns, VmOf(b)) := ConstructPod(key, b)]));
  }

  function SecretRef(k: Kube, key: Key): Key
    requires Admitted(k, key)
  {
    Key(key.ns, SecretOf(k.bmcs[key]))
  }

  /** One Pod, just made for `key`, and nothing on its way. */
  predicate JustMade(s: System, key: Key) {
    && Admitted(s.kube, key) && Prepared(s.kube, key) && Structural(s)
    && Sole(s.kube, Agent(s.kube, key), key)
    && s.kube.pods == map[Agent(s.kube, key) := ConstructPod(key, s.kube.bmcs[key])]
    && s.passes == [Pass(key, s.kube.bmcs[key], Done(false, true))]
    && s.pending == {} && s.deliveries == []
    && s.kube.secrets[SecretRef(s.kube, key)] != s.clock
  }

  /** A list of the namespace with the owner first, and once. */
  predicate ListsFirst(k: Kube, secret: Key, listed: seq<Key>, key: Key) {
    Lists(k, secret, listed) && listed != [] && listed[0] == key && key !in listed[1..]
  }

  /** The container starts, the Secret changes, and the watch mapping lists the objects. */
  function Changed(s: System, pod: Key, secret: Key, listed: seq<Key>): System {
    Next(Next(Next(s, StartContainer(pod)), WriteSecret(secret)), Deliver(secret, listed))
  }

  lemma ChangedStructural(s: System, pod: Key, secret: Key, listed: seq<Key>)
    requires Structural(s)
    ensures Structural(Changed(s, pod, secret, listed))
  {
    var s1 := Next(s, StartContainer(pod));
    StructuralKeeps(s, StartContainer(pod));
    StructuralKeeps(s1, WriteSecret(secret));
    StructuralKeeps(Next(s1, WriteSecret(secret)), Deliver(secret, listed));
  }

  lemma SecretChanges(s: System, key: Key, listed: seq<Key>)
    requires JustMade(s, key) && ListsFirst(s.kube, SecretRef(s.kube, key), listed, key)
    ensures var pod, secret := Agent(s.kube, key), SecretRef(s.kube, key);
            var t := Changed(s, pod, secret, listed);
            && t.kube == s.kube.(secrets := s.kube.secrets[secret := s.clock],
                                 pods := map[pod := s.kube.pods[pod].(env := Some(s.kube.secrets[secret]))])
            && t.passes == s.passes && t.pending == {} && t.deliveries == [Delivery(secret, listed)]
  {
    var pod, secret := Agent(s.kube, key), SecretRef(s.kube, key);
    var s1 := Next(s, StartContainer(pod));
    assert s1.kube.pods == map[pod := s.kube.pods[pod].(env := Some(s.kube.secrets[secret]))];
    var s2 := Next(s1, WriteSecret(secret));
    assert s2.pending == {secret};
    assert Lists(s2.kube, secret, listed);
  }

  /** With the Secret changed, the Pod that was just made runs on the old version. */
  lemma ChangedPod(s: System, key: Key, k: Kube)
    requires JustMade(s, key)
    requires var pod, secret := Agent(s.kube, key), SecretRef(s.kube, key);
             k == s.kube.(secrets := s.kube.secrets[secret := s.clock],
                          pods := map[pod := s.kube.pods[pod].(env := Some(s.kube.secrets[secret]))])
    ensures var pod := Agent(s.kube, key);
            LostPod(k, pod, key) && SecretKey(k, pod) == SecretRef(s.kube, key)
  {
  }

  lemma RefusalLoses(s: System, key: Key, listed: seq<Key>)
    requires JustMade(s, key) && ListsFirst(s.kube, SecretRef(s.kube, key), listed, key)
    ensures var t := Changed(s, Agent(s.kube, key), SecretRef(s.kube, key), listed);
            Lost(Next(t, Process(0, Refused)), Agent(s.kube, key), key)
  {
    var pod, secret := Agent(s.kube, key), SecretRef(s.kube, key);
    var t := Changed(s, pod, secret, listed);
    SecretChanges(s, key, listed);
    ChangedStructural(s, pod, secret, listed);
    ChangedPod(s, key, t.kube);
    StructuralKeeps(t, Process(0, Refused));
    var u := Next(t, Process(0, Refused));
    assert u.kube == t.kube && u.deliveries == [Delivery(secret, listed[1..])];
    assert Misses(u.deliveries[0], secret, key);
    assert AllHarmless(u, key);
  }

  /** The start of a pass and all its steps. */
  function WholePass(key: Key): seq<Event> {
    [StartPass(key), Go(), Go(), Go(), Go(), Go(), Go(), Go()]
  }

  /** The container starts, the Secret changes, and its event meets a refused delete. */
  function Losing(pod: Key, secret: Key, listed: seq<Key>): seq<Event> {
    [StartContainer(pod), WriteSecret(secret), Deliver(secret, listed), Process(0, Refused)]
  }

  lemma MadeFromStart(s: System, key: Key)
    requires Initial(s) && Admitted(s.kube, key) && Prepared(s.kube, key)
    requires Sole(s.kube, Agent(s.kube, key), key)
    requires s.kube.secrets[SecretRef(s.kube, key)] != s.clock
    ensures var t := Execute(s, WholePass(key));
            JustMade(t, key) && t.kube.bmcs == s.kube.bmcs
  {
    PassMakesPod(s, key);
    InvariantHolds(s, WholePass(key));
  }

  lemma AllButLastSweep(key: Key, pod: Key, secret: Key, listed: seq<Key>)
    ensures var events := WholePass(key) + Losing(pod, secret, listed);
            |events| == 12 && forall i :: 0 <= i < 11 ==> Sweeps(events[i])
  {
  }

  lemma LostAfterPass(s: System, key: Key, listed: seq<Key>)
    requires Initial(s) && Admitted(s.kube, key) && Prepared(s.kube, key)
    requires Sole(s.kube, Agent(s.kube, key), key) && ListsFirst(s.kube, SecretRef(s.kube, key), listed, key)
    requires s.kube.secrets[SecretRef(s.kube, key)] != s.clock
    ensures var pod, secret := Agent(s.kube, key), SecretRef(s.kube, key);
            Lost(Execute(s, WholePass(key) + Losing(pod, secret, listed)), pod, key)
  {
    var pod, secret := Agent(s.kube, key), SecretRef(s.kube, key);
    MadeFromStart(s, key);
    var t := Execute(s, WholePass(key));
    assert ListsFirst(t.kube, SecretRef(t.kube, key), listed, key);
    ExecuteAppend(s, WholePass(key), Losing(pod, secret, listed));
    LoseRun(t, key, listed);
  }

  /** From every beginning with an object in order there is a run that loses the Pod, all calls
      of the watch mapping in it getting through but the last delete. */
  lemma LossFromStart(s: System, key: Key, listed: seq<Key>) returns (events: seq<Event>)
    requires Initial(s) && Admitted(s.kube, key) && Prepared(s.kube, key)
    requires Sole(s.kube, Agent(s.kube, key), key) && ListsFirst(s.kube, SecretRef(s.kube, key), listed, key)
    requires s.kube.secrets[SecretRef(s.kube, key)] != s.clock
    ensures Lost(Execute(s, events), Agent(s.kube, key), key)
    ensures events != [] && forall i :: 0 <= i < |events| - 1 ==> Sweeps(events[i])
    ensures SomeLoses(s, events)
  {
    var pod, secret := Agent(s.kube, key), SecretRef(s.kube, key);
    events := WholePass(key) + Losing(pod, secret, listed);
    AllButLastSweep(key, pod, secret, listed);
    LostAfterPass(s, key, listed);
    LostMeansLoses(s, events, pod, key);
  }

  /** A Pod gets lost only in an event that loses one. */
  lemma LostMeansLoses(s: System, events: seq<Event>, pod: Key, owner: Key)
    requires Initial(s) && Lost(Execute(s, events), pod, owner)
    ensures SomeLoses(s, events)
  {
    LostForGood(Execute(s, events), [], pod, owner);
    CoherenceExactly(s, events);
    NotAlways(s, events);
  }

  lemma LoseRun(s: System, key: Key, listed: seq<Key>)
    requires JustMade(s, key) && ListsFirst(s.kube, SecretRef(s.kube, key), listed, key)
    ensures var pod, secret := Agent(s.kube, key), SecretRef(s.kube, key);
            Lost(Execute(s, Losing(pod, secret, listed)), pod, key)
  {
    var pod, secret := Agent(s.kube, key), SecretRef(s.kube, key);
    RefusalLoses(s, key, listed);
    ExecuteFour(s, Losing(pod, secret, listed));
  }

  lemma {:induction false} NotAlways(s: System, events: seq<Event>)
    requires !Coherent(Execute(s, events))
    ensures !AlwaysCoherent(s, events)
    decreases |events|
  {
    if events != [] {
      NotAlways(Next(s, events[0]), events[1..]);
    }
  }

  // ---------- A change that arrives ----------

  /** Without a Pod, and with both prerequisites there, passes until quiet make the Pod anew. */
  lemma QuietMakesPod(k: Kube, key: Key)
    requires Admitted(k, key) && VmFound(k, key) && SecretFound(k, key) && Agent(k, key) !in k.pods
    ensures var k' := Quiesce(k, key);
            && Agent(k, key) in k'.pods
            && k'.pods[Agent(k, key)] == ConstructPod(key, k.bmcs[key])
            && k'.pods[Agent(k, key)].env.None?
            && k'.secrets == k.secrets
  {
    TwoPassesSettle(k, key);
    PassInOneStep(k, key);
    PassKeepsAdmitted(k, key);
    ValidatedKeeps(k, key);
    var k1 := Reconciled(k, key);
    PassInOneStep(k1, key);
    PassKeepsAdmitted(k1, key);
    ValidatedKeeps(k1, key);
  }

  /** The items of a delivery one after the other. */
  function Items(j: nat, outcomes: seq<Outcome>): seq<Event> {
    seq(|outcomes|, i requires 0 <= i < |outcomes| => Process(j, outcomes[i]))
  }

  lemma {:induction false} DeliveryRemoves(s: System, j: nat, outcomes: seq<Outcome>, key: Key)
    requires j < |s.deliveries| && |outcomes| == |s.deliveries[j].todo|
    requires forall i :: 0 <= i < |outcomes| ==> !outcomes[i].Refused?
    requires key in s.kube.bmcs && s.kube.bmcs[key].spec.secretRef == Some(s.deliveries[j].secret.name)
    requires key in s.deliveries[j].todo || AgentKey(key.ns, VmOf(s.kube.bmcs[key])) !in s.kube.pods
    ensures var t := Execute(s, Items(j, outcomes));
            && AgentKey(key.ns, VmOf(s.kube.bmcs[key])) !in t.kube.pods
            && t.kube == s.kube.(pods := t.kube.pods)
    decreases |outcomes|
  {
    if outcomes != [] {
      var e := Process(j, outcomes[0]);
      var d := s.deliveries[j];
      assert d.todo == [d.todo[0]] + d.todo[1..];
      assert Items(j, outcomes)[0] == e && Items(j, outcomes)[1..] == Items(j, outcomes[1..]);
      DeliveryRemoves(Next(s, e), j, outcomes[1..], key);
    }
  }

  /** The write of a Secret and its whole delivery. */
  function Delivered(s: System, secret: Key, listed: seq<Key>, outcomes: seq<Outcome>): System {
    Execute(s, [WriteSecret(secret), Deliver(secret, listed)] + Items(|s.deliveries|, outcomes))
  }

  lemma DeliveredState(s: System, key: Key, listed: seq<Key>, outcomes: seq<Outcome>)
    requires Admitted(s.kube, key)
    requires Lists(s.kube, SecretRef(s.kube, key), listed) && |outcomes| == |listed|
    requires forall i :: 0 <= i < |outcomes| ==> !outcomes[i].Refused?
    ensures var secret := SecretRef(s.kube, key);
            var k := Delivered(s, secret, listed, outcomes).kube;
            && Agent(s.kube, key) !in k.pods && k.vms == s.kube.vms && k.bmcs == s.kube.bmcs
            && secret in k.secrets && k.secrets[secret] == s.clock
  {
    var secret := SecretRef(s.kube, key);
    var s1 := Next(s, WriteSecret(secret));
    var s2 := Next(s1, Deliver(secret, listed));
    var head, items := [WriteSecret(secret), Deliver(secret, listed)], Items(|s.deliveries|, outcomes);
    ExecuteAppend(s, head, items);
    assert head[1..] == [Deliver(secret, listed)] && head[1..][1..] == [];
    assert Execute(s, head) == Execute(s1, head[1..]) == Execute(s2, []);
    assert s2.deliveries[|s.deliveries|] == Delivery(secret, listed);
    DeliveryRemoves(s2, |s.deliveries|, outcomes, key);
  }

  /** A change of a Secret reaches the Pod: after the write, its delivery, and passes until
      quiet, there is a Pod, and its container starts on the new version. */
  lemma ChangeArrives(s: System, key: Key, listed: seq<Key>, outcomes: seq<Outcome>)
    requires Admitted(s.kube, key) && VmFound(s.kube, key)
    requires Lists(s.kube, SecretRef(s.kube, key), listed) && |outcomes| == |listed|
    requires forall i :: 0 <= i < |outcomes| ==> !outcomes[i].Refused?
    ensures var pod := Agent(s.kube, key);
            var t := Delivered(s, SecretRef(s.kube, key), listed, outcomes);
            && Admitted(t.kube, key)
            && var quiet := t.(kube := Quiesce(t.kube, key));
               var u := Next(quiet, StartContainer(pod));
               && pod in quiet.kube.pods && quiet.kube.pods[pod].env.None?
               && pod in u.kube.pods && u.kube.pods[pod].env == Some(s.clock)
               && Current(u.kube, pod)
  {
    DeliveredState(s, key, listed, outcomes);
    var t := Delivered(s, SecretRef(s.kube, key), listed, outcomes);
    QuietMakesPod(t.kube, key);
    ContainerStarts(t.(kube := Quiesce(t.kube, key)), Agent(s.kube, key));
  }

  lemma ContainerStarts(s: System, pod: Key)
    requires pod in s.kube.pods && s.kube.pods[pod].env.None? && SecretKey(s.kube, pod) in s.kube.secrets
    ensures var u := Next(s, StartContainer(pod));
            && pod in u.kube.pods && u.kube.pods[pod].env == Some(s.kube.secrets[SecretKey(s.kube, pod)])
            && Current(u.kube, pod)
  {
  }
}
