/** Edits of authSecretRef between any two API calls of passes, which come one after another,
    read what is stored, and may fail or stop. */
module Rollover {
  import opened Basics
  import opened Bmcs
  import opened Reconcile
  import opened Convergence
  import opened Passes
  import opened PodGating

  /** The cluster, and the pass over the object of interest that is under way or was the last. */
  datatype State = State(kube: Kube, pass: Pass)

  /** `Others` is what other writers do. */
  datatype Turn = Edit(name: string) | Begin | Go(outcome: Outcome) | Stop | Others(kube: Kube)

  /** Other writers change anything but the references, the two conditions and what the Pod
      references; they may remove the Pod. */
  predicate OthersMay(k: Kube, k': Kube, key: Key)
    requires Admitted(k, key)
  {
    && key in k'.bmcs && k'.bmcs[key].spec == k.bmcs[key].spec
    && SameReports(k'.bmcs[key], k.bmcs[key])
    && (Agent(k, key) in k'.pods ==>
          Agent(k, key) in k.pods && k'.pods[Agent(k, key)].secret == k.pods[Agent(k, key)].secret)
  }

  function Take(s: State, e: Turn): State
    requires Admitted(s.kube, s.pass.key)
  {
    var k, key := s.kube, s.pass.key;
    match e
    case Edit(name) => s.(kube := k.(bmcs := k.bmcs[key := EditedRef(k.bmcs[key], name)]))
    case Begin => if Over(s.pass) then s.(pass := Start(key)) else s
    case Go(o) => var r := FreshStep(k, s.pass, o); State(r.0, r.1)
    case Stop => if Over(s.pass) then s else s.(pass := s.pass.(stage := Done(true, false)))
    case Others(k') => if OthersMay(k, k', key) then s.(kube := k') else s
  }

  /** What holds between any two API calls. */
  predicate Sound(s: State) {
    var k, p := s.kube, s.pass;
    && Admitted(k, p.key)
    && (Copied(p.stage) ==> SameReports(p.obj, k.bmcs[p.key]) && VmOf(p.obj) == VmOf(k.bmcs[p.key]))
    && (MakingObjects(p.stage) ==> ReportsSecret(p))
    && ((p.stage.CheckingSecret? || p.stage.WritingSecret?) && p.stage.vmOk ==> ReportsVm(p))
    && (p.stage.WritingVM? ==> p.stage.condition.kind == VM_AVAILABLE)
    && (p.stage.WritingSecret? ==>
          p.stage.condition.kind == SECRET_AVAILABLE
          && Find(p.obj.status.conditions, SECRET_AVAILABLE) != Some(p.stage.condition))
  }

  /** Outside the delete of a pass, the Pod has been made for the Secret that is reported. */
  predicate Kept(s: State)
    requires Sound(s)
  {
    !s.pass.stage.Dropping? ==> PodReported(s.kube, s.pass.key)
  }

  /** The delete that should follow a written Secret condition does not come: the reply to the
      write is lost, the delete is refused, or the pass stops before it. */
  predicate Strands(s: State, e: Turn)
    requires Sound(s)
  {
    var k, p := s.kube, s.pass;
    match e
    case Go(o) =>
      || (p.stage.WritingSecret? && o.Lost? && Check(k, Request(p).value).Ok? && Agent(k, p.key) in k.pods)
      || (p.stage.Dropping? && o.Refused? && !PodReported(k, p.key))
    case Stop => p.stage.Dropping? && !PodReported(k, p.key)
    case _ => false
  }

  // ---------- One step ----------

  lemma ReadSound(k: Kube, p: Pass, o: Outcome)
    requires Sound(State(k, p)) && Request(p).None?
    ensures var t := State(k, FreshStep(k, p, o).1);
            FreshStep(k, p, o).0 == k && Sound(t) && (Kept(State(k, p)) && !Over(p) ==> Kept(t))
  {
  }

  /** A status update by the pass: the stored object gets one condition of the pass's kind. */
  lemma StatusWritten(k: Kube, p: Pass, c: Condition, o: Outcome)
    requires Admitted(k, p.key) && SameReports(p.obj, k.bmcs[p.key])
    requires c.kind == VM_AVAILABLE || c.kind == SECRET_AVAILABLE
    requires !o.Refused? && p.obj.version == k.bmcs[p.key].version
    ensures var k' := Submit(k, UpdateStatus(p.key, p.obj.version, Upserted(p.obj, c)), o).0;
            && k' == k.(bmcs := k'.bmcs) && p.key in k'.bmcs
            && k'.bmcs[p.key].spec == k.bmcs[p.key].spec
            && ConditionOf(k', p.key, c.kind) == Some(c)
            && (forall kind :: kind != c.kind && (kind == VM_AVAILABLE || kind == SECRET_AVAILABLE) ==>
                  ConditionOf(k', p.key, kind) == ConditionOf(k, p.key, kind))
  {
    UpsertFinds(p.obj.status.conditions, c, VM_AVAILABLE);
    UpsertFinds(p.obj.status.conditions, c, SECRET_AVAILABLE);
  }

  lemma WriteVmSound(k: Kube, p: Pass, o: Outcome)
    requires Sound(State(k, p)) && Kept(State(k, p)) && p.stage.WritingVM?
    ensures var (k', p') := FreshStep(k, p, o);
            Sound(State(k', p')) && Kept(State(k', p')) && !p'.stage.Dropping?
  {
    if Effective(k, Request(p).value, o) {
      StatusWritten(k, p, p.stage.condition, o);
    }
  }

  lemma WriteSecretSound(k: Kube, p: Pass, o: Outcome)
    requires Sound(State(k, p)) && Kept(State(k, p)) && p.stage.WritingSecret?
    ensures var (k', p') := FreshStep(k, p, o);
            Sound(State(k', p')) && (Kept(State(k', p')) <==> !Strands(State(k, p), Go(o)))
  {
    if Effective(k, Request(p).value, o) {
      StatusWritten(k, p, p.stage.condition, o);
    }
  }

  lemma DropSound(k: Kube, p: Pass, o: Outcome)
    requires Sound(State(k, p)) && p.stage.Dropping?
    ensures var (k', p') := FreshStep(k, p, o);
            Sound(State(k', p')) && (Kept(State(k', p')) <==> !Strands(State(k, p), Go(o)))
  {
  }

  /** A creation leaves objects alone, and makes no Pod but that of the pass. */
  lemma MakeWrites(k: Kube, p: Pass, o: Outcome)
    requires MakingObjects(p.stage) && p.key in k.bmcs && VmOf(p.obj) == VmOf(k.bmcs[p.key])
    ensures var k', agent := Submit(k, Request(p).value, o).0, AgentKey(p.key.ns, VmOf(k.bmcs[p.key]));
            && k'.bmcs == k.bmcs
            && (agent in k'.pods ==>
                  (agent in k.pods && k'.pods[agent] == k.pods[agent]) || k'.pods[agent].secret == SecretOf(p.obj))
  {
    SubmitKeeps(k, Request(p).value, o);
  }

  lemma MakeShape(p: Pass, k': Kube, a: Answer)
    requires MakingObjects(p.stage)
    ensures var q := WriteStep(p, k', a);
            q.obj == p.obj && q.key == p.key && (MakingObjects(q.stage) || q.stage.Done?)
  {
  }

  lemma MakeSound(k: Kube, p: Pass, o: Outcome)
    requires Sound(State(k, p)) && Kept(State(k, p)) && MakingObjects(p.stage)
    ensures var (k', p') := FreshStep(k, p, o);
            Sound(State(k', p')) && Kept(State(k', p'))
  {
    var (k', a) := Submit(k, Request(p).value, o);
    MakeWrites(k, p, o);
    MakeShape(p, k', a);
  }

  /** From a state in which the Pod is in step, a turn leads to another exactly if it does not
      strand the Pod. */
  lemma TurnExactly(s: State, e: Turn)
    requires Sound(s) && Kept(s)
    ensures var t := Take(s, e);
            && Sound(t) && t.pass.key == s.pass.key
            && (Kept(t) <==> !Strands(s, e))
  {
    var k, p := s.kube, s.pass;
    if e.Go? && !Over(p) {
      if Request(p).None? {
        ReadSound(k, p, e.outcome);
      } else if p.stage.WritingVM? {
        WriteVmSound(k, p, e.outcome);
      } else if p.stage.WritingSecret? {
        WriteSecretSound(k, p, e.outcome);
      } else if p.stage.Dropping? {
        DropSound(k, p, e.outcome);
      } else {
        MakeSound(k, p, e.outcome);
      }
    }
  }

  // ---------- Runs ----------

  function TakeAll(s: State, turns: seq<Turn>): (t: State)
    requires Sound(s) && Kept(s) && NoneStrands(s, turns)
    ensures Sound(t) && Kept(t) && t.pass.key == s.pass.key
    decreases |turns|
  {
    if turns == [] then s
    else
      TurnExactly(s, turns[0]);
      TakeAll(Take(s, turns[0]), turns[1..])
  }

  predicate NoneStrands(s: State, turns: seq<Turn>)
    requires Sound(s) && Kept(s)
    decreases |turns|
  {
    turns == [] ||
    (&& !Strands(s, turns[0])
     && (TurnExactly(s, turns[0]); NoneStrands(Take(s, turns[0]), turns[1..])))
  }

  /** After any edits of the reference between any two API calls of passes, whatever else
      changes, fails or stops, unless a delete that is due does not come: whenever no pass is
      under way and both prerequisites exist, reconciling until quiet leaves a Pod for the
      Secret of the spec. */
  lemma RolloverOverRuns(s: State, turns: seq<Turn>)
    requires Sound(s) && Kept(s) && NoneStrands(s, turns)
    ensures var t := TakeAll(s, turns);
            var key := s.pass.key;
            Over(t.pass) && VmFound(t.kube, key) && SecretFound(t.kube, key) ==>
              PodSecret(Quiesce(t.kube, key), key) == Some(SecretOf(t.kube.bmcs[key]))
  {
    var t := TakeAll(s, turns);
    if Over(t.pass) && VmFound(t.kube, s.pass.key) && SecretFound(t.kube, s.pass.key) {
      ReportedHeals(t.kube, s.pass.key);
    }
  }

  /** A Pod for a Secret that the spec no longer names, such as those of PodForEditedSecret and
      PodFromStaleRead, is replaced by later passes. */
  lemma WrongPodHeals(k: Kube, key: Key, before: Bmc, name: string)
    requires Reports(key, before) && key in k.bmcs && k.bmcs[key] == EditedRef(before, name)
    requires PodSecret(k, key) == Some(SecretOf(before))
    requires VmFound(k, key) && SecretFound(k, key)
    ensures PodSecret(Quiesce(k, key), key) == Some(name)
  {
    ReportedHeals(k, key);
  }
}
