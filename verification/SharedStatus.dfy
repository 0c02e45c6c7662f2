/** One status under two writers: passes of both controllers over the same object, each
    reading any state that the object has ever been in, each write guarded by the version. */
module SharedStatus {
  import opened Basics
  import opened Bmcs
  import opened Reconcile
  import opened ServiceController

  /** `history` holds every stored state of the object `key`, the last being the current one. */
  datatype System = System(
    kube: Kube,
    key: Key,
    history: seq<Bmc>,
    passes: seq<Pass>,
    svcPasses: seq<SvcPass>)

  /** `h` is the place in the history that a read brings; beyond the end it finds nothing. */
  datatype Event =
    | StartPass
    | StartSvc
    | Advance(i: nat, outcome: Outcome, h: nat, found: bool)
    | AdvanceSvc(i: nat, outcome: Outcome, h: nat, service: Option<Seen>)
    | EditSpec(spec: Spec)

  function ReadAt(history: seq<Bmc>, h: nat): Option<Bmc> {
    if h < |history| then Some(history[h]) else None
  }

  function Record(s: System, k: Kube): System {
    var b := if s.key in k.bmcs then [k.bmcs[s.key]] else [];
    s.(kube := k, history := if |s.history| > 0 && b == [s.history[|s.history| - 1]] then s.history else s.history + b)
  }

  /** Services that are labelled for another object are not this object's writers. */
  predicate OfAnother(s: System, service: Option<Seen>) {
    service.Some? && service.value.bmcLabel.Some? && service.value.bmcLabel.value != s.key.name
  }

  function Next(s: System, e: Event): System {
    match e
    case StartPass => s.(passes := s.passes + [Start(s.key)])
    case StartSvc =>
      s.(svcPasses := s.svcPasses + [SvcPass(s.key, Bmc(Spec(None, None), Status("", []), 0), FetchingService)])
    case Advance(i, o, h, found) =>
      if i >= |s.passes| then s
      else
        var r := Step(s.kube, s.passes[i], Input(o, ReadAt(s.history, h), found));
        Record(s.(passes := s.passes[i := r.1]), r.0)
    case AdvanceSvc(i, o, h, service) =>
      if i >= |s.svcPasses| || OfAnother(s, service) then s
      else
        var r := SvcStep(s.kube, s.svcPasses[i], SvcInput(o, service, ReadAt(s.history, h)));
        Record(s.(svcPasses := s.svcPasses[i := r.1]), r.0)
    case EditSpec(spec) =>
      if s.key !in s.kube.bmcs then s
      else
        var b := s.kube.bmcs[s.key];
        Record(s, s.kube.(bmcs := s.kube.bmcs[s.key := b.(spec := spec, version := b.version + 1)]))
  }

  function Execute(s: System, events: seq<Event>): System
    decreases |events|
  {
    if events == [] then s else Execute(Next(s, events[0]), events[1..])
  }

  // ---------- The invariant ----------

  predicate ReadyTrue(b: Bmc) {
    var c := Find(b.status.conditions, READY);
    c.Some? && c.value.status
  }

  predicate Good(b: Bmc) {
    Unique(b.status.conditions) && (b.status.clusterIP != "" ==> ReadyTrue(b))
  }

  predicate HistoryOk(s: System) {
    var h := s.history;
    && |h| > 0 && s.key in s.kube.bmcs && s.kube.bmcs[s.key] == h[|h| - 1]
    && (forall i :: 0 <= i < |h| ==> Good(h[i]))
    && (forall i, j :: 0 <= i < j < |h| ==> h[i].version < h[j].version)
    && (forall i, j :: 0 <= i < j < |h| ==> ReadyTrue(h[i]) ==> ReadyTrue(h[j]))
  }

  /** A pass holds a copy of a state that was stored, and only writes conditions of its own. */
  predicate PassOk(key: Key, history: seq<Bmc>, p: Pass) {
    && p.key == key
    && (!p.stage.Fetching? && !p.stage.Done? ==> p.obj in history)
    && (p.stage.WritingVM? ==> p.stage.condition.kind == VM_AVAILABLE)
    && (p.stage.WritingSecret? ==> p.stage.condition.kind == SECRET_AVAILABLE)
  }

  predicate SvcPassOk(key: Key, history: seq<Bmc>, p: SvcPass) {
    && (if p.stage.FetchingService? then p.key.ns == key.ns else p.key == key || p.stage.SvcDone?)
    && (p.stage.WritingReady? || p.stage.WritingIP? ==> p.obj in history && p.stage.ip != "")
    && (p.stage.WritingIP? ==> ReadyTrue(p.obj))
  }

  predicate Invariant(s: System) {
    && HistoryOk(s)
    && (forall i :: 0 <= i < |s.passes| ==> PassOk(s.key, s.history, s.passes[i]))
    && (forall i :: 0 <= i < |s.svcPasses| ==> SvcPassOk(s.key, s.history, s.svcPasses[i]))
  }

  predicate Initial(s: System) {
    && s.key in s.kube.bmcs && s.history == [s.kube.bmcs[s.key]]
    && Good(s.kube.bmcs[s.key])
    && s.passes == [] && s.svcPasses == []
  }

  /** What one status write may do to the current state. */
  predicate Allowed(b: Bmc, b': Bmc) {
    b' == b || (b'.version > b.version && Good(b') && (ReadyTrue(b) ==> ReadyTrue(b')))
  }

  // ---------- Each event keeps it ----------

  lemma RecordKeeps(s: System, k: Kube)
    requires HistoryOk(s) && s.key in k.bmcs
    requires Allowed(s.kube.bmcs[s.key], k.bmcs[s.key])
    ensures HistoryOk(Record(s, k))
    ensures s.history <= Record(s, k).history
    ensures k.bmcs[s.key] in Record(s, k).history
  {
    var h, h' := s.history, Record(s, k).history;
    forall i, j | 0 <= i < j < |h'| ensures h'[i].version < h'[j].version && (ReadyTrue(h'[i]) ==> ReadyTrue(h'[j])) {
      if j == |h| {
        assert i == |h| - 1 || h[i].version < h[|h| - 1].version;
      }
    }
    assert k.bmcs[s.key] == h'[|h'| - 1];
  }

  /** A version-guarded write is made from the current state. */
  lemma GuardMeansCurrent(s: System, b: Bmc)
    requires HistoryOk(s) && b in s.history && b.version == s.kube.bmcs[s.key].version
    ensures b == s.kube.bmcs[s.key]
  {
    var i :| 0 <= i < |s.history| && s.history[i] == b;
    if i < |s.history| - 1 {
      assert s.history[i].version < s.history[|s.history| - 1].version;
    }
  }

  /** The controller of virtual machine BMCs leaves Ready and the address alone. */
  lemma StepOnStatus(s: System, p: Pass, i: Input)
    requires HistoryOk(s) && PassOk(s.key, s.history, p)
    requires i.seen.Some? ==> i.seen.value in s.history
    ensures var k' := Step(s.kube, p, i).0;
            && s.key in k'.bmcs
            && var b, b' := s.kube.bmcs[s.key], k'.bmcs[s.key];
               && Allowed(b, b') && b'.spec == b.spec
               && Find(b'.status.conditions, READY) == Find(b.status.conditions, READY)
               && b'.status.clusterIP == b.status.clusterIP
  {
    var w := Request(p);
    if w.Some? && w.value.UpdateStatus? && Effective(s.kube, w.value, i.outcome) {
      GuardMeansCurrent(s, p.obj);
      var cs := p.obj.status.conditions;
      UpsertFinds(cs, p.stage.condition, READY);
      UpsertKeepsUnique(cs, p.stage.condition);
      assert Good(p.obj);
    }
  }

  /** The Service controller leaves the conditions of the other controller alone. */
  lemma SvcStepOnStatus(s: System, p: SvcPass, i: SvcInput)
    requires HistoryOk(s) && SvcPassOk(s.key, s.history, p)
    ensures var k' := SvcStep(s.kube, p, i).0;
            && s.key in k'.bmcs
            && var b, b' := s.kube.bmcs[s.key], k'.bmcs[s.key];
               && Allowed(b, b') && b'.spec == b.spec
               && (forall kind :: kind != READY ==> Find(b'.status.conditions, kind) == Find(b.status.conditions, kind))
  {
    var w := SvcRequest(p);
    if w.Some? && Effective(s.kube, w.value, i.outcome) {
      GuardMeansCurrent(s, p.obj);
      var cs := p.obj.status.conditions;
      forall kind ensures Find(Upsert(cs, READY_CONDITION), kind)
                       == if kind == READY then Some(READY_CONDITION) else Find(cs, kind)
      {
        UpsertFinds(cs, READY_CONDITION, kind);
      }
      UpsertKeepsUnique(cs, READY_CONDITION);
      assert Good(p.obj);
    }
  }

  lemma InPrefix(b: Bmc, before: seq<Bmc>, after: seq<Bmc>)
    requires before <= after
    ensures b in before ==> b in after
  {
    if b in before {
      var i :| 0 <= i < |before| && before[i] == b;
      assert after[i] == b;
    }
  }

  lemma StepKeepsPassOk(k: Kube, key: Key, before: seq<Bmc>, after: seq<Bmc>, p: Pass, i: Input)
    requires PassOk(key, before, p)
    requires i.seen.Some? ==> i.seen.value in before
    requires before <= after
    requires var k' := Step(k, p, i).0; key in k'.bmcs && k'.bmcs[key] in after
    ensures PassOk(key, after, Step(k, p, i).1)
  {
    InPrefix(p.obj, before, after);
    if i.seen.Some? {
      InPrefix(i.seen.value, before, after);
    }
  }

  lemma SvcStepKeepsPassOk(k: Kube, key: Key, before: seq<Bmc>, after: seq<Bmc>, p: SvcPass, i: SvcInput)
    requires SvcPassOk(key, before, p)
    requires i.seen.Some? ==> i.seen.value in before
    requires i.service.Some? && i.service.value.bmcLabel.Some? ==> i.service.value.bmcLabel.value == key.name
    requires before <= after
    requires var k' := SvcStep(k, p, i).0; key in k'.bmcs && k'.bmcs[key] in after
    requires p.stage.WritingReady? && SvcStep(k, p, i).1.stage.WritingIP? ==> ReadyTrue(SvcStep(k, p, i).0.bmcs[key])
    ensures SvcPassOk(key, after, SvcStep(k, p, i).1)
  {
    InPrefix(p.obj, before, after);
    if i.seen.Some? {
      InPrefix(i.seen.value, before, after);
    }
  }

  /** Passes do not mind a longer history. */
  lemma PassesStay(s: System, history: seq<Bmc>)
    requires Invariant(s) && s.history <= history
    ensures forall j :: 0 <= j < |s.passes| ==> PassOk(s.key, history, s.passes[j])
    ensures forall j :: 0 <= j < |s.svcPasses| ==> SvcPassOk(s.key, history, s.svcPasses[j])
  {
    forall j | 0 <= j < |s.passes| ensures PassOk(s.key, history, s.passes[j]) {
      assert PassOk(s.key, s.history, s.passes[j]);
      InPrefix(s.passes[j].obj, s.history, history);
    }
    forall j | 0 <= j < |s.svcPasses| ensures SvcPassOk(s.key, history, s.svcPasses[j]) {
      assert SvcPassOk(s.key, s.history, s.svcPasses[j]);
      InPrefix(s.svcPasses[j].obj, s.history, history);
    }
  }

  /** The new state of the object recorded, and one pass moved on. */
  lemma Assemble(s: System, k: Kube, passes: seq<Pass>, svcPasses: seq<SvcPass>)
    requires HistoryOk(Record(s, k))
    requires forall j :: 0 <= j < |passes| ==> PassOk(s.key, Record(s, k).history, passes[j])
    requires forall j :: 0 <= j < |svcPasses| ==> SvcPassOk(s.key, Record(s, k).history, svcPasses[j])
    ensures Invariant(Record(s.(passes := passes, svcPasses := svcPasses), k))
  {
  }

  lemma AdvanceKeeps(s: System, i: nat, o: Outcome, h: nat, found: bool)
    requires Invariant(s) && i < |s.passes|
    ensures Invariant(Next(s, Advance(i, o, h, found)))
  {
    var p, input := s.passes[i], Input(o, ReadAt(s.history, h), found);
    var (k', p') := Step(s.kube, p, input);
    StepOnStatus(s, p, input);
    RecordKeeps(s, k');
    var after := Record(s, k').history;
    StepKeepsPassOk(s.kube, s.key, s.history, after, p, input);
    PassesStay(s, after);
    Assemble(s, k', s.passes[i := p'], s.svcPasses);
  }

  lemma AdvanceSvcKeeps(s: System, i: nat, o: Outcome, h: nat, service: Option<Seen>)
    requires Invariant(s) && i < |s.svcPasses|
    ensures Invariant(Next(s, AdvanceSvc(i, o, h, service)))
  {
    if OfAnother(s, service) {
      return;
    }
    var p, input := s.svcPasses[i], SvcInput(o, service, ReadAt(s.history, h));
    var (k', p') := SvcStep(s.kube, p, input);
    SvcStepOnStatus(s, p, input);
    RecordKeeps(s, k');
    var after := Record(s, k').history;
    if p.stage.WritingReady? && p'.stage.WritingIP? {
      WroteReady(s, p, input);
    }
    SvcStepKeepsPassOk(s.kube, s.key, s.history, after, p, input);
    PassesStay(s, after);
    Assemble(s, k', s.passes, s.svcPasses[i := p']);
  }

  lemma WroteReady(s: System, p: SvcPass, i: SvcInput)
    requires HistoryOk(s) && SvcPassOk(s.key, s.history, p)
    requires p.stage.WritingReady? && SvcStep(s.kube, p, i).1.stage.WritingIP?
    ensures s.key in SvcStep(s.kube, p, i).0.bmcs && ReadyTrue(SvcStep(s.kube, p, i).0.bmcs[s.key])
  {
    UpsertFinds(p.obj.status.conditions, READY_CONDITION, READY);
  }

  lemma EditKeeps(s: System, spec: Spec)
    requires Invariant(s)
    ensures Invariant(Next(s, EditSpec(spec)))
  {
    var b := s.kube.bmcs[s.key];
    assert Good(b);
    var k' := s.kube.(bmcs := s.kube.bmcs[s.key := b.(spec := spec, version := b.version + 1)]);
    RecordKeeps(s, k');
    PassesStay(s, Record(s, k').history);
  }

  lemma EventKeeps(s: System, e: Event)
    requires Invariant(s)
    ensures Invariant(Next(s, e))
  {
    match e
    case StartPass =>
    case StartSvc =>
    case Advance(i, o, h, found) =>
      if i < |s.passes| {
        AdvanceKeeps(s, i, o, h, found);
      }
    case AdvanceSvc(i, o, h, service) =>
      if i < |s.svcPasses| {
        AdvanceSvcKeeps(s, i, o, h, service);
      }
    case EditSpec(spec) => EditKeeps(s, spec);
  }

  lemma {:induction false} InvariantHolds(s: System, events: seq<Event>)
    requires Invariant(s)
    ensures Invariant(Execute(s, events))
    ensures Execute(s, events).key == s.key
    decreases |events|
  {
    if events != [] {
      EventKeeps(s, events[0]);
      InvariantHolds(Next(s, events[0]), events[1..]);
    }
  }

  /** Over every run of both controllers and edits of the spec: every state the object is
      ever in has unique condition types, shows an address only when Ready is True, and keeps
      Ready True once it is. */
  lemma StatusOverRuns(s: System, events: seq<Event>)
    requires Initial(s)
    ensures var h := Execute(s, events).history;
            && (forall i :: 0 <= i < |h| ==>
                  Unique(h[i].status.conditions) && (h[i].status.clusterIP != "" ==> ReadyTrue(h[i])))
            && (forall i, j :: 0 <= i <= j < |h| ==> ReadyTrue(h[i]) ==> ReadyTrue(h[j]))
  {
    InvariantHolds(s, events);
    var h := Execute(s, events).history;
    assert forall i :: 0 <= i < |h| ==> Good(h[i]);
  }

  /** In every reachable state, an event of one controller leaves the other's conditions. */
  lemma WritersKeepApart(s: System, events: seq<Event>, e: Event)
    requires Initial(s)
    ensures var t := Execute(s, events);
            var t' := Next(t, e);
            && s.key in t.kube.bmcs && s.key in t'.kube.bmcs
            && var st, st' := t.kube.bmcs[s.key].status, t'.kube.bmcs[s.key].status;
               && (e.Advance? ==>
                     Find(st'.conditions, READY) == Find(st.conditions, READY) && st'.clusterIP == st.clusterIP)
               && (e.AdvanceSvc? ==> Find(st'.conditions, VM_AVAILABLE) == Find(st.conditions, VM_AVAILABLE)
                                     && Find(st'.conditions, SECRET_AVAILABLE) == Find(st.conditions, SECRET_AVAILABLE))
  {
    InvariantHolds(s, events);
    var t := Execute(s, events);
    EventKeeps(t, e);
    if e.Advance? && e.i < |t.passes| {
      StepOnStatus(t, t.passes[e.i], Input(e.outcome, ReadAt(t.history, e.h), e.found));
    }
    if e.AdvanceSvc? && e.i < |t.svcPasses| {
      SvcStepOnStatus(t, t.svcPasses[e.i], SvcInput(e.outcome, e.service, ReadAt(t.history, e.h)));
    }
  }
}
