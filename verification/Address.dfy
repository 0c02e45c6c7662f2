/** The Service controller on its own, and the state in which both controllers rest. */
module Address {
  import opened Basics
  import opened Bmcs
  import opened Reconcile
  import opened Convergence
  import opened ServiceController

  /** The status that the Service controller leaves: Ready, and the address. */
  function Addressed(s: Status, ip: string): Status {
    Status(ip, Upsert(s.conditions, READY_CONDITION))
  }

  /** The object that a Service belongs to, if it names one that exists. */
  function Labelled(k: Kube, ns: string, service: Option<Seen>): Option<Key> {
    if service.Some? && service.value.bmcLabel.Some? && Key(ns, service.value.bmcLabel.value) in k.bmcs
    then Some(Key(ns, service.value.bmcLabel.value))
    else None
  }

  /** The API calls of a pass that comes to its end. */
  function Calls(k: Kube, ns: string, service: Option<Seen>): nat {
    var b := Labelled(k, ns, service);
    if service.None? || service.value.bmcLabel.None? then 1
    else if b.None? then 2
    else if Find(k.bmcs[b.value].status.conditions, READY) == Some(READY_CONDITION) then 3
    else 4
  }

  lemma {:induction false} UpsertPresent(cs: seq<Condition>, c: Condition)
    requires Find(cs, c.kind) == Some(c)
    ensures Upsert(cs, c) == cs
  {
    if cs[0].kind != c.kind {
      UpsertPresent(cs[1..], c);
    }
  }

  /** When a pass ends without an error, and what it leaves whether or not it does. */
  lemma ServicePassEffect(k: Kube, ns: string, service: Option<Seen>, script: seq<Outcome>)
    ensures var r, b := SvcReconcileRun(k, ns, service, script), Labelled(k, ns, service);
            && r.pass.stage.SvcDone?
            && (!r.pass.stage.failed <==>
                  ServedFor(script, Calls(k, ns, service)) && (b.Some? ==> service.value.clusterIP != ""))
            && r.kube == k.(bmcs := r.kube.bmcs)
            && (b.None? ==> r.kube == k)
            && (b.Some? ==>
                  && b.value in r.kube.bmcs
                  && r.kube.bmcs == k.bmcs[b.value := r.kube.bmcs[b.value]]
                  && r.kube.bmcs[b.value].spec == k.bmcs[b.value].spec
                  && var s, s' := k.bmcs[b.value].status, r.kube.bmcs[b.value].status;
                     && (s' == s || s' == Addressed(s, s.clusterIP) || s' == Addressed(s, service.value.clusterIP))
                     && (!r.pass.stage.failed ==> s' == Addressed(s, service.value.clusterIP)))
  {
    var b := Labelled(k, ns, service);
    var r2 := SvcHop(SvcHop(SvcRun(k, SvcStart(ns), script), service), service);
    var n := Calls(k, ns, service);
    ServedStep(script, n - 1);
    if n > 1 {
      ServedStep(Tail(script), n - 2);
    }
    if b.Some? && !r2.pass.stage.SvcDone? {
      var s := k.bmcs[b.value].status;
      if Find(s.conditions, READY) == Some(READY_CONDITION) {
        UpsertPresent(s.conditions, READY_CONDITION);
        AddressPhase(r2, b.value, service);
      } else {
        ReadyPhase(r2, b.value, service);
      }
    }
  }

  lemma ServedStep(script: seq<Outcome>, n: nat)
    ensures ServedFor(script, n + 1) <==> Head(script).Served? && ServedFor(Tail(script), n)
  {
    if script != [] && Head(script).Served? && ServedFor(Tail(script), n) {
      forall i | 0 <= i < n + 1 && i < |script| ensures script[i].Served? {
        assert i > 0 ==> script[i] == Tail(script)[i - 1];
      }
    }
  }

  /** A pass that is about to write holds the stored object. */
  predicate AboutToWrite(r: SvcRun, key: Key) {
    key in r.kube.bmcs && r.pass.key == key && r.pass.obj == r.kube.bmcs[key]
  }

  /** Only the status of `key` may differ. */
  predicate OnlyStatus(k: Kube, k': Kube, key: Key) {
    && key in k.bmcs && key in k'.bmcs
    && k' == k.(bmcs := k.bmcs[key := k'.bmcs[key]])
    && k'.bmcs[key].spec == k.bmcs[key].spec
  }

  /** The last write: the address. */
  lemma AddressPhase(r: SvcRun, key: Key, service: Option<Seen>)
    requires AboutToWrite(r, key) && r.pass.stage.WritingIP?
    ensures var r', ip := SvcHop(r, service), r.pass.stage.ip;
            && r'.pass.stage.SvcDone? && SvcHop(r', service) == r'
            && (!r'.pass.stage.failed <==> ServedFor(r.script, 1))
            && OnlyStatus(r.kube, r'.kube, key)
            && var s, s' := r.kube.bmcs[key].status, r'.kube.bmcs[key].status;
               && (s' == s || s' == s.(clusterIP := ip))
               && (!r'.pass.stage.failed ==> s' == s.(clusterIP := ip))
  {
  }

  /** Both writes: Ready, then the address. */
  lemma ReadyPhase(r: SvcRun, key: Key, service: Option<Seen>)
    requires AboutToWrite(r, key) && r.pass.stage.WritingReady?
    ensures var r', ip := SvcHop(SvcHop(r, service), service), r.pass.stage.ip;
            && r'.pass.stage.SvcDone?
            && (!r'.pass.stage.failed <==> ServedFor(r.script, 2))
            && OnlyStatus(r.kube, r'.kube, key)
            && var s, s' := r.kube.bmcs[key].status, r'.kube.bmcs[key].status;
               && (s' == s || s' == Addressed(s, s.clusterIP) || s' == Addressed(s, ip))
               && (!r'.pass.stage.failed ==> s' == Addressed(s, ip))
  {
    ServedStep(r.script, 1);
    var r1 := SvcHop(r, service);
    assert OnlyStatus(r.kube, r1.kube, key);
    if !r1.pass.stage.SvcDone? {
      AddressPhase(r1, key, service);
    }
  }

  lemma QuietService(k: Kube, key: Key)
    requires Admitted(k, key) && VmFound(k, key) && SecretFound(k, key)
    requires Agent(k, key) in k.services ==> k.services[Agent(k, key)].bmc == key.name
    ensures var k2 := Quiesce(k, key);
            && Admitted(k2, key) && Settled(k2, key)
            && Agent(k, key) in k2.services && k2.services[Agent(k, key)].bmc == key.name
  {
    TwoPassesSettle(k, key);
    ServiceOfPass(k, key);
    ServiceOfPass(Reconciled(k, key), key);
  }

  /** A pass leaves a Service that is there, and makes none but its own. */
  lemma ServiceOfPass(k: Kube, key: Key)
    requires Admitted(k, key)
    requires Agent(k, key) in k.services ==> k.services[Agent(k, key)].bmc == key.name
    ensures var k' := Reconciled(k, key);
            && Admitted(k', key) && Agent(k', key) == Agent(k, key)
            && k'.vms == k.vms && k'.secrets == k.secrets && k'.bmcs[key].spec == k.bmcs[key].spec
            && (Agent(k, key) in k'.services ==> k'.services[Agent(k, key)].bmc == key.name)
  {
    PassKeepsAdmitted(k, key);
    PassInOneStep(k, key);
    if Prepared(k, key) {
      assert Reconciled(k, key).services == Made(k, key).services;
    } else {
      assert Reconciled(k, key).services == k.services;
    }
  }

  /** What a pass that ends without an error has published, in the words of the status. */
  lemma WhatIsPublished(k: Kube, ns: string, name: string, ip: string, script: seq<Outcome>)
    requires Key(ns, name) in k.bmcs
    ensures var r := SvcReconcileRun(k, ns, Some(Seen(Some(name), ip)), script);
            r.pass.stage == SvcDone(false) ==>
              && Key(ns, name) in r.kube.bmcs
              && var status := r.kube.bmcs[Key(ns, name)].status;
                 && status.clusterIP == ip
                 && Find(status.conditions, "Ready")
                    == Some(Condition("Ready", true, "ServiceReady", "ClusterIP assigned to the Service"))
  {
    ServicePassEffect(k, ns, Some(Seen(Some(name), ip)), script);
    UpsertFinds(k.bmcs[Key(ns, name)].status.conditions, READY_CONDITION, "Ready");
  }

  /** The two controllers meet: once the passes over an object have settled and its Service,
      made by one of them, has been given an address, a pass over the Service publishes the
      address on that object and both controllers rest. */
  lemma BothControllersRest(k: Kube, key: Key, ip: string)
    requires Admitted(k, key) && VmFound(k, key) && SecretFound(k, key) && ip != ""
    requires Agent(k, key) in k.services ==> k.services[Agent(k, key)].bmc == key.name
    ensures var k2 := Quiesce(k, key);
            && Agent(k, key) in k2.services
            && var seen := Some(Seen(Some(k2.services[Agent(k, key)].bmc), ip));
               var k3 := SvcReconcileRun(k2, key.ns, seen, []).kube;
               && key in k3.bmcs && k3.bmcs[key].status.clusterIP == ip
               && Find(k3.bmcs[key].status.conditions, READY) == Some(READY_CONDITION)
               && Reconciled(k3, key) == k3
               && SvcReconcileRun(k3, key.ns, seen, []).kube == k3
  {
    QuietService(k, key);
    var k2 := Quiesce(k, key);
    var seen := Some(Seen(Some(key.name), ip));
    assert Key(key.ns, key.name) == key;
    PublishRests(k2, key, seen);
  }

  lemma PublishRests(k: Kube, key: Key, seen: Option<Seen>)
    requires Admitted(k, key) && Settled(k, key)
    requires seen.Some? && seen.value.bmcLabel == Some(key.name) && seen.value.clusterIP != ""
    ensures var k' := SvcReconcileRun(k, key.ns, seen, []).kube;
            && key in k'.bmcs && k'.bmcs[key].status.clusterIP == seen.value.clusterIP
            && Find(k'.bmcs[key].status.conditions, READY) == Some(READY_CONDITION)
            && Reconciled(k', key) == k'
            && SvcReconcileRun(k', key.ns, seen, []).kube == k'
  {
    assert Key(key.ns, key.name) == key;
    ServicePassEffect(k, key.ns, seen, []);
    var k' := SvcReconcileRun(k, key.ns, seen, []).kube;
    var cs := k.bmcs[key].status.conditions;
    UpsertFinds(cs, READY_CONDITION, READY);
    UpsertFinds(cs, READY_CONDITION, VM_AVAILABLE);
    UpsertFinds(cs, READY_CONDITION, SECRET_AVAILABLE);
    SettledIsFixpoint(k', key);
    PublishedIsQuiet(k', key, seen);
  }

  /** Publishing an address that is already there changes nothing, not even the version. */
  lemma PublishedIsQuiet(k: Kube, key: Key, seen: Option<Seen>)
    requires key in k.bmcs && Find(k.bmcs[key].status.conditions, READY) == Some(READY_CONDITION)
    requires seen.Some? && seen.value.bmcLabel == Some(key.name) && seen.value.clusterIP == k.bmcs[key].status.clusterIP
    ensures SvcReconcileRun(k, key.ns, seen, []).kube == k
  {
    assert Key(key.ns, key.name) == key;
    var r2 := SvcHop(SvcHop(SvcRun(k, SvcStart(key.ns), []), seen), seen);
    if seen.value.clusterIP != "" {
      assert r2 == SvcRun(k, SvcPass(key, k.bmcs[key], WritingIP(seen.value.clusterIP)), []);
      var r3 := SvcHop(r2, seen);
      assert r3.kube.bmcs == k.bmcs;
    }
  }
}
