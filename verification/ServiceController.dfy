/** The Service controller, the second writer of the shared status. */
module ServiceController {
  import opened Basics
  import opened Bmcs
  import opened Reconcile
  import Reconciler

  /** What the controller reads of a Service: the label that names its object, if it has it,
      and the cluster address, empty until assigned. */
  datatype Seen = Seen(bmcLabel: Option<string>, clusterIP: string)

  datatype SvcStage =
    | FetchingService
    | FetchingBmc(ip: string)
    | WritingReady(ip: string)
    | WritingIP(ip: string)
    | SvcDone(failed: bool)

  datatype SvcPass = SvcPass(key: Key, obj: Bmc, stage: SvcStage)

  datatype SvcInput = SvcInput(outcome: Outcome, service: Option<Seen>, seen: Option<Bmc>)

  /** The status update that is next, if any. */
  function SvcRequest(p: SvcPass): Option<Write> {
    match p.stage
    case WritingReady(_) => Some(UpdateStatus(p.key, p.obj.version, Upserted(p.obj, READY_CONDITION)))
    case WritingIP(ip) => Some(UpdateStatus(p.key, p.obj.version, p.obj.status.(clusterIP := ip)))
    case _ => None
  }

  /** Ready is written only if the copy does not report it so. */
  function FirstWrite(b: Bmc, ip: string): SvcStage {
    if Find(b.status.conditions, READY) != Some(READY_CONDITION) then WritingReady(ip) else WritingIP(ip)
  }

  function SvcReadStep(p: SvcPass, i: SvcInput): SvcPass
    requires SvcRequest(p).None?
  {
    match p.stage
    case FetchingService =>
      if !i.outcome.Served? then p.(stage := SvcDone(true))
      else if i.service.None? || i.service.value.bmcLabel.None? then p.(stage := SvcDone(false))
      else p.(key := Key(p.key.ns, i.service.value.bmcLabel.value), stage := FetchingBmc(i.service.value.clusterIP))
    case FetchingBmc(ip) =>
      if !i.outcome.Served? then p.(stage := SvcDone(true))
      else if i.seen.None? then p.(stage := SvcDone(false))
      else if ip == "" then p.(stage := SvcDone(true))
      else
        p.(obj := i.seen.value,
           stage := FirstWrite(i.seen.value, ip))
    case _ => p
  }

  function SvcStep(k: Kube, p: SvcPass, i: SvcInput): (Kube, SvcPass) {
    if SvcRequest(p).None? then (k, SvcReadStep(p, i))
    else
      var s := Submit(k, SvcRequest(p).value, i.outcome);
      (s.0,
       if !s.1.Ok? then p.(stage := SvcDone(true))
       else if p.stage.WritingReady? then
         p.(obj := if p.key in s.0.bmcs then s.0.bmcs[p.key] else p.obj, stage := WritingIP(p.stage.ip))
       else p.(stage := SvcDone(false)))
  }

  datatype SvcRun = SvcRun(kube: Kube, pass: SvcPass, script: seq<Outcome>)

  /** One step with an up-to-date read. */
  function SvcHop(r: SvcRun, service: Option<Seen>): SvcRun {
    if r.pass.stage.SvcDone? then r
    else
      var n := SvcStep(r.kube, r.pass, SvcInput(Head(r.script), service, Get(r.kube.bmcs, r.pass.key)));
      SvcRun(n.0, n.1, Tail(r.script))
  }

  function SvcStart(ns: string): SvcPass {
    SvcPass(Key(ns, ""), Bmc(Spec(None, None), Status("", []), 0), FetchingService)
  }

  function SvcReconcileRun(k: Kube, ns: string, service: Option<Seen>, script: seq<Outcome>): SvcRun {
    SvcHop(SvcHop(SvcHop(SvcHop(SvcRun(k, SvcStart(ns), script), service), service), service), service)
  }

  lemma DoneStays(r: SvcRun, service: Option<Seen>)
    requires r.pass.stage.SvcDone?
    ensures SvcHop(r, service) == r
  {
  }

  /** How a pass ends that stops at its first read. */
  lemma StopsAtService(k: Kube, ns: string, service: Option<Seen>, script: seq<Outcome>)
    requires !Head(script).Served? || service.None? || service.value.bmcLabel.None?
    ensures SvcReconcileRun(k, ns, service, script)
         == SvcRun(k, SvcStart(ns).(stage := SvcDone(!Head(script).Served?)), Tail(script))
  {
    DoneStays(SvcHop(SvcRun(k, SvcStart(ns), script), service), service);
  }

  /** After its first read a pass is about to fetch the object in the label. */
  lemma FetchesBmc(k: Kube, ns: string, service: Option<Seen>, script: seq<Outcome>)
    requires Head(script).Served? && service.Some? && service.value.bmcLabel.Some?
    ensures var key := Key(ns, service.value.bmcLabel.value);
            var p := SvcStart(ns).(key := key, stage := FetchingBmc(service.value.clusterIP));
            SvcHop(SvcRun(k, SvcStart(ns), script), service) == SvcRun(k, p, Tail(script))
  {
  }

  /** How a pass ends that stops at its second read. */
  lemma StopsAtBmc(k: Kube, ns: string, service: Option<Seen>, script: seq<Outcome>)
    requires Head(script).Served? && service.Some? && service.value.bmcLabel.Some?
    requires var key := Key(ns, service.value.bmcLabel.value);
             !Head(Tail(script)).Served? || key !in k.bmcs || service.value.clusterIP == ""
    ensures var r, key := SvcReconcileRun(k, ns, service, script), Key(ns, service.value.bmcLabel.value);
            && r.kube == k && r.script == Tail(Tail(script))
            && r.pass.stage == SvcDone(!Head(Tail(script)).Served? || key in k.bmcs)
  {
    FetchesBmc(k, ns, service, script);
    DoneStays(SvcHop(SvcHop(SvcRun(k, SvcStart(ns), script), service), service), service);
  }

  /** The second read of a pass that finds the object and has an address to publish. */
  lemma ReadsBmc(k: Kube, p: SvcPass, service: Option<Seen>, script: seq<Outcome>)
    requires p.stage.FetchingBmc? && p.stage.ip != "" && p.key in k.bmcs && Head(script).Served?
    ensures SvcHop(SvcRun(k, p, script), service)
         == SvcRun(k, SvcPass(p.key, k.bmcs[p.key], FirstWrite(k.bmcs[p.key], p.stage.ip)), Tail(script))
  {
  }

  /** How a pass goes on that has read both. */
  lemma GoesOn(k: Kube, ns: string, service: Option<Seen>, script: seq<Outcome>)
    requires Head(script).Served? && service.Some? && service.value.bmcLabel.Some?
    requires Head(Tail(script)).Served? && Key(ns, service.value.bmcLabel.value) in k.bmcs
    requires service.value.clusterIP != ""
    ensures var key := Key(ns, service.value.bmcLabel.value);
            var p := SvcPass(key, k.bmcs[key], FirstWrite(k.bmcs[key], service.value.clusterIP));
            && SvcHop(SvcHop(SvcRun(k, SvcStart(ns), script), service), service) == SvcRun(k, p, Tail(Tail(script)))
            && SvcReconcileRun(k, ns, service, script)
               == SvcHop(SvcHop(SvcHop(SvcRun(k, p, Tail(Tail(script))), service), service), service)
  {
    FetchesBmc(k, ns, service, script);
    var p := SvcStart(ns).(key := Key(ns, service.value.bmcLabel.value), stage := FetchingBmc(service.value.clusterIP));
    ReadsBmc(k, p, service, Tail(script));
  }

  class ServiceReconciler {
    const client: Reconciler.Client

    constructor (client: Reconciler.Client)
      ensures this.client == client
    {
      this.client := client;
    }

    /** `service` is what fetching the Service of the request brings. */
    method Reconcile(ns: string, service: Option<Seen>) returns (err: bool)
      modifies client
      ensures var r := SvcReconcileRun(old(client.State()), ns, service, old(client.script));
              r == SvcRun(client.State(), r.pass, client.script) && r.pass.stage == SvcDone(err)
    {
      ghost var k, script := client.State(), client.script;
      var o := client.NextOutcome();
      if !o.Served? {
        StopsAtService(k, ns, service, script);
        return true;
      }
      if service.None? || service.value.bmcLabel.None? {
        StopsAtService(k, ns, service, script);
        return false;
      }
      var key := Key(ns, service.value.bmcLabel.value);
      var b, a := client.GetBmc(key);
      if b == null {
        StopsAtBmc(k, ns, service, script);
        return a.ApiError?;
      }
      if service.value.clusterIP == "" {
        StopsAtBmc(k, ns, service, script);
        return true;
      }
      GoesOn(k, ns, service, script);
      err := Publish(key, b, service);
    }

    /** The rest of a pass that has read both: Ready if that is a change, then the address. */
    method Publish(key: Key, b: FetchedBmc, service: Option<Seen>) returns (err: bool)
      requires service.Some?
      requires Reconciler.VersionDecides(client.State(), key, b.Value())
      modifies client, b
      ensures var ip := service.value.clusterIP;
              var r := SvcRun(old(client.State()), SvcPass(key, old(b.Value()), FirstWrite(old(b.Value()), ip)),
                              old(client.script));
              var r' := SvcHop(SvcHop(r, service), service);
              && r'.kube == client.State() && r'.script == client.script && r'.pass.stage == SvcDone(err)
              && SvcHop(r', service) == r'
    {
      var ip := service.value.clusterIP;
      ghost var r := SvcRun(client.State(), SvcPass(key, b.Value(), FirstWrite(b.Value(), ip)), client.script);
      var changed := b.SetStatusCondition(READY_CONDITION);
      if changed {
        var a := client.UpdateStatus(key, b);
        if !a.Ok? {
          return true;
        }
      }
      ghost var ready := if changed then SvcHop(r, service) else r;
      assert ready == SvcRun(client.State(), SvcPass(key, b.Value(), WritingIP(ip)), client.script);
      b.clusterIP := ip;
      var a := client.UpdateStatus(key, b);
      return !a.Ok?;
    }
  }
}
