/** Exactly when a Pod is made for what the stored object names, over interleaved passes, and
    the two ways in which it is not. */
module PodGating {
  import opened Basics
  import opened Bmcs
  import opened Reconcile
  import opened Passes

  // ---------- The exact condition ----------

  predicate Unfinished(p: Pass, key: Key) {
    p.key == key && !Over(p)
  }

  predicate AnyUnfinished(s: System, key: Key) {
    exists i :: 0 <= i < |s.passes| && Unfinished(s.passes[i], key)
  }

  /** One pass at a time over each object, which fetches it as it is; others leave both
      conditions of an object alone, and bring no object into being while a pass is over it. */
  predicate Orderly(s: System, e: Event) {
    match e
    case StartPass(key) => !AnyUnfinished(s, key)
    case Advance(i, _, h) =>
      i < |s.passes| && s.passes[i].stage.Fetching? ==>
        Get(Seen(s, h).bmcs, s.passes[i].key) == Get(s.kube.bmcs, s.passes[i].key)
    case Elsewhere(k) =>
      forall key :: key in k.bmcs ==>
        if key in s.kube.bmcs then SameReports(s.kube.bmcs[key], k.bmcs[key]) else !AnyUnfinished(s, key)
  }

  predicate AllOrderly(s: System, events: seq<Event>)
    decreases |events|
  {
    events == [] || (Orderly(s, events[0]) && AllOrderly(Next(s, events[0]), events[1..]))
  }

  /** The copy reports what the stored object does. */
  predicate InStep(k: Kube, p: Pass) {
    Copied(p.stage) && p.key in k.bmcs ==> SameReports(p.obj, k.bmcs[p.key])
  }

  predicate AllInStep(s: System) {
    && (forall i :: 0 <= i < |s.passes| ==> InStep(s.kube, s.passes[i]))
    && (forall i, j :: 0 <= i < j < |s.passes| && s.passes[i].key == s.passes[j].key ==>
          Over(s.passes[i]) || Over(s.passes[j]))
  }

  lemma BeginsInStep(k: Kube)
    ensures AllInStep(System([], k, [])) && Gated(System([], k, []))
  {
  }

  lemma ReadInStep(k: Kube, p: Pass, i: Input)
    requires InStep(k, p) && Request(p).None?
    requires p.stage.Fetching? ==> i.seen == Get(k.bmcs, p.key)
    ensures InStep(k, ReadStep(p, i))
  {
  }

  lemma WriteInStep(k: Kube, p: Pass, o: Outcome)
    requires InStep(k, p) && Request(p).Some?
    ensures var (k', a) := Submit(k, Request(p).value, o);
            InStep(k', WriteStep(p, k', a))
  {
  }

  /** The writes of one pass leave the objects of others alone. */
  lemma WriteSpares(k: Kube, p: Pass, o: Outcome, key: Key)
    requires Request(p).Some? && key != p.key
    ensures Get(Submit(k, Request(p).value, o).0.bmcs, key) == Get(k.bmcs, key)
  {
  }

  lemma AdvanceInStep(s: System, i: nat, o: Outcome, h: nat)
    requires AllInStep(s) && Orderly(s, Advance(i, o, h)) && i < |s.passes|
    ensures AllInStep(Next(s, Advance(i, o, h)))
  {
    var p, t := s.passes[i], Next(s, Advance(i, o, h));
    assert InStep(s.kube, p);
    if Request(p).Some? {
      WriteInStep(s.kube, p, o);
    } else {
      ReadInStep(s.kube, p, Fresh(Seen(s, h), p, o));
    }
    forall j | 0 <= j < |t.passes| ensures InStep(t.kube, t.passes[j]) {
      if j != i {
        assert InStep(s.kube, s.passes[j]);
        if s.passes[j].key != p.key && Request(p).Some? {
          WriteSpares(s.kube, p, o, s.passes[j].key);
        }
      }
    }
  }

  lemma EventInStep(s: System, e: Event)
    requires AllInStep(s) && Orderly(s, e)
    ensures AllInStep(Next(s, e))
  {
    var t := Next(s, e);
    match e
    case StartPass(key) =>
    case Advance(i, o, h) =>
      if i < |s.passes| {
        AdvanceInStep(s, i, o, h);
      }
    case Elsewhere(k) =>
      forall j | 0 <= j < |t.passes| ensures InStep(t.kube, t.passes[j]) {
        assert InStep(s.kube, s.passes[j]);
        assert Copied(s.passes[j].stage) ==> Unfinished(s.passes[j], s.passes[j].key);
      }
  }

  lemma {:induction false} RunInStep(s: System, events: seq<Event>)
    requires AllInStep(s) && AllOrderly(s, events)
    ensures AllInStep(Execute(s, events))
    decreases |events|
  {
    if events != [] {
      EventInStep(s, events[0]);
      RunInStep(Next(s, events[0]), events[1..]);
    }
  }

  /** Over every orderly run, whatever fails or stops: when a Pod appears, the status stored at
      that moment reports both prerequisites for the names in the stored spec if and only if no
      reference has been edited since the pass fetched the object. */
  lemma GatedExactly(s: System, events: seq<Event>, e: Event, pod: Key)
    requires Gated(s) && AllInStep(s) && AllOrderly(s, events)
    requires pod !in Execute(s, events).kube.pods
    requires pod in Next(Execute(s, events), e).kube.pods
    ensures var t := Execute(s, events);
            && e.Advance? && e.i < |t.passes|
            && var p := t.passes[e.i];
               p.key in t.kube.bmcs ==>
                 (Reports(p.key, t.kube.bmcs[p.key]) <==> t.kube.bmcs[p.key].spec == p.obj.spec)
  {
    PodsAreGated(s, events, e, pod);
    RunInStep(s, events);
    var t := Execute(s, events);
    var p := t.passes[e.i];
    assert InStep(t.kube, p);
    if p.key in t.kube.bmcs {
      StepCreatesPod(t.kube, p, Fresh(Seen(t, e.h), p, e.outcome), pod);
      ReportsExactly(p.key, p.obj, t.kube.bmcs[p.key]);
    }
  }

  // ---------- A Pod for a Secret that is no longer referenced ----------

  lemma ExecuteEight(s: System, e: seq<Event>)
    requires |e| == 8
    ensures Execute(s, e)
         == Next(Next(Next(Next(Next(Next(Next(Next(s, e[0]), e[1]), e[2]), e[3]), e[4]), e[5]), e[6]), e[7])
  {
    ExecuteFour(s, e);
    ExecuteFour(Next(Next(Next(Next(s, e[0]), e[1]), e[2]), e[3]), e[4..]);
  }

  lemma ExecuteFour(s: System, e: seq<Event>)
    requires |e| >= 4
    ensures Execute(s, e) == Execute(Next(Next(Next(Next(s, e[0]), e[1]), e[2]), e[3]), e[4..])
  {
    var s1 := Next(s, e[0]);
    var s2 := Next(s1, e[1]);
    assert e[1..][1..] == e[2..];
    assert Execute(s1, e[1..]) == Execute(s2, e[2..]);
    assert e[2..][1..] == e[3..];
    assert Execute(s2, e[2..]) == Execute(Next(s2, e[2]), e[3..]);
    assert e[3..][1..] == e[4..];
  }

  lemma ExecuteStale(s: System, edit: Event, key: Key)
    ensures var go := Advance(0, Served, 0);
            Execute(s, [edit, StartPass(key), go, go, go, go, go, go]) == Next(ToThePod(Next(s, edit), key, 0), go)
  {
    var go := Advance(0, Served, 0);
    ExecuteEight(s, [edit, StartPass(key), go, go, go, go, go, go]);
  }

  lemma ExecuteEdited(s: System, edit: Event, key: Key)
    ensures var go := Advance(0, Served, 10);
            Execute(s, [StartPass(key), go, go, go, go, go, edit, go]) == Next(Next(ToThePod(s, key, 10), edit), go)
  {
    var go := Advance(0, Served, 10);
    ExecuteEight(s, [StartPass(key), go, go, go, go, go, edit, go]);
  }

  predicate Reported(k: Kube, key: Key) {
    && key in k.bmcs && Reports(key, k.bmcs[key])
    && Key(key.ns, VmOf(k.bmcs[key])) in k.vms
    && Key(key.ns, SecretOf(k.bmcs[key])) in k.secrets
  }

  /** A pass over a reported object reads state `h` up to its first creation. */
  lemma ReadsInOrder(s: System, h: nat, key: Key)
    requires s.passes == [Start(key)] && Reported(Seen(s, h), key)
    requires h < |s.past| || h > |s.past| + 3
    ensures var go, b := Advance(0, Served, h), Seen(s, h).bmcs[key];
            var t := Next(Next(Next(s, go), go), go);
            t.passes == [Pass(key, b, MakingAccount)] && t.kube == s.kube && |t.past| == |s.past| + 3
  {
    var go, k, b := Advance(0, Served, h), Seen(s, h), Seen(s, h).bmcs[key];
    var s1 := Next(s, go);
    assert s1 == System(s.past + [s.kube], s.kube, [Pass(key, b, CheckingVM)]) && Seen(s1, h) == k;
    var s2 := Next(s1, go);
    assert s2 == System(s1.past + [s.kube], s.kube, [Pass(key, b, CheckingSecret(true))]) && Seen(s2, h) == k;
  }

  lemma MakesRoles(s: System, h: nat, key: Key, b: Bmc)
    requires s.passes == [Pass(key, b, MakingAccount)]
    ensures var go := Advance(0, Served, h);
            var t := Next(Next(s, go), go);
            && t.passes == [Pass(key, b, MakingPod)] && |t.past| == |s.past| + 2
            && t.kube == s.kube.(accounts := t.kube.accounts, bindings := t.kube.bindings)
  {
    var s1 := Next(s, Advance(0, Served, h));
    assert s1.passes == [Pass(key, b, MakingBinding)];
    assert s1.kube == s.kube.(accounts := s1.kube.accounts);
  }

  /** The start of a pass and its first five steps. */
  function ToThePod(s: System, key: Key, h: nat): System {
    var go := Advance(0, Served, h);
    Next(Next(Next(Next(Next(Next(s, StartPass(key)), go), go), go), go), go)
  }

  lemma UpToThePod(s: System, key: Key, h: nat)
    requires s.passes == [] && Reported(Seen(s, h), key)
    requires h < |s.past| || h > |s.past| + 3
    ensures var t := ToThePod(s, key, h);
            && t.passes == [Pass(key, Seen(s, h).bmcs[key], MakingPod)] && |t.past| == |s.past| + 5
            && t.kube == s.kube.(accounts := t.kube.accounts, bindings := t.kube.bindings)
  {
    var go, s1 := Advance(0, Served, h), Next(s, StartPass(key));
    assert Seen(s1, h) == Seen(s, h);
    ReadsInOrder(s1, h, key);
    MakesRoles(Next(Next(Next(s1, go), go), go), h, key, Seen(s, h).bmcs[key]);
  }

  lemma MakesThePod(s: System, key: Key, b: Bmc, h: nat)
    requires s.passes == [Pass(key, b, MakingPod)] && AgentKey(key.ns, VmOf(b)) !in s.kube.pods
    ensures var t := Next(s, Advance(0, Served, h));
            t.kube == s.kube.(pods := s.kube.pods[AgentKey(key.ns, VmOf(b)) := ConstructPod(key, b)])
  {
  }

  function EditedRef(b: Bmc, name: string): Bmc {
    b.(spec := b.spec.(secretRef := Some(name)), version := b.version + 1)
  }

  lemma NoLongerReported(key: Key, b: Bmc, name: string)
    requires Reports(key, b) && name != SecretOf(b)
    ensures !Reports(key, EditedRef(b, name))
  {
    ReportsExactly(key, b, EditedRef(b, name));
  }

  /** The edit, and the creation of the Pod after it. */
  lemma EditedRun(s: System, key: Key, b: Bmc, name: string)
    requires s.passes == [Pass(key, b, MakingPod)] && AgentKey(key.ns, VmOf(b)) !in s.kube.pods
    ensures var edit := Elsewhere(s.kube.(bmcs := s.kube.bmcs[key := EditedRef(b, name)]));
            var t, pod := Next(Next(s, edit), Advance(0, Served, 10)), AgentKey(key.ns, VmOf(b));
            && pod in t.kube.pods && t.kube.pods[pod].secret == SecretOf(b)
            && t.kube.bmcs == s.kube.bmcs[key := EditedRef(b, name)]
  {
    var edit := Elsewhere(s.kube.(bmcs := s.kube.bmcs[key := EditedRef(b, name)]));
    MakesThePod(Next(s, edit), key, b, 10);
  }

  /** The first way: the status at the moment of creation need not report the names in the spec: an edit of
      authSecretRef between the check of the Secret and the creation of the Pod leaves a Pod
      for a Secret that the spec no longer references. */
  lemma PodForEditedSecret(k: Kube, key: Key, name: string) returns (events: seq<Event>)
    requires Reported(k, key) && AgentKey(key.ns, VmOf(k.bmcs[key])) !in k.pods
    requires name != SecretOf(k.bmcs[key])
    ensures var t, pod := Execute(System([], k, []), events), AgentKey(key.ns, VmOf(k.bmcs[key]));
            && pod in t.kube.pods && t.kube.pods[pod].secret == SecretOf(k.bmcs[key])
            && t.kube.bmcs == k.bmcs[key := EditedRef(k.bmcs[key], name)]
            && !Reports(key, t.kube.bmcs[key])
  {
    var go, b, s := Advance(0, Served, 10), k.bmcs[key], System([], k, []);
    UpToThePod(s, key, 10);
    var s6 := ToThePod(s, key, 10);
    var edit := Elsewhere(s6.kube.(bmcs := k.bmcs[key := EditedRef(b, name)]));
    events := [StartPass(key), go, go, go, go, go, edit, go];
    EditedRun(s6, key, b, name);
    ExecuteEdited(s, edit, key);
    NoLongerReported(key, b, name);
  }

  /** A whole pass up to the Pod, on a state of the past. */
  lemma StaleRun(s: System, k: Kube, key: Key)
    requires s.past == [k] && s.passes == [] && Reported(k, key)
    requires AgentKey(key.ns, VmOf(k.bmcs[key])) !in s.kube.pods
    ensures var go, pod := Advance(0, Served, 0), AgentKey(key.ns, VmOf(k.bmcs[key]));
            var t := Next(ToThePod(s, key, 0), go);
            && t.kube.bmcs == s.kube.bmcs
            && pod in t.kube.pods && t.kube.pods[pod].secret == SecretOf(k.bmcs[key])
  {
    UpToThePod(s, key, 0);
    MakesThePod(ToThePod(s, key, 0), key, k.bmcs[key], 0);
  }

  /** The second way: the edit is over before the pass begins, and the pass reads the object as
      it was before. */
  lemma PodFromStaleRead(k: Kube, key: Key, name: string) returns (events: seq<Event>)
    requires Reported(k, key) && AgentKey(key.ns, VmOf(k.bmcs[key])) !in k.pods
    requires name != SecretOf(k.bmcs[key])
    ensures var t, pod := Execute(System([], k, []), events), AgentKey(key.ns, VmOf(k.bmcs[key]));
            && |events| > 1 && events[0].Elsewhere? && events[1] == StartPass(key)
            && (forall i :: 1 < i < |events| ==> events[i].Advance?)
            && pod in t.kube.pods && t.kube.pods[pod].secret == SecretOf(k.bmcs[key])
            && t.kube.bmcs == k.bmcs[key := EditedRef(k.bmcs[key], name)]
            && !Reports(key, t.kube.bmcs[key])
  {
    var go, b := Advance(0, Served, 0), k.bmcs[key];
    var edit := Elsewhere(k.(bmcs := k.bmcs[key := EditedRef(b, name)]));
    events := [edit, StartPass(key), go, go, go, go, go, go];
    StaleRun(Next(System([], k, []), edit), k, key);
    ExecuteStale(System([], k, []), edit, key);
    NoLongerReported(key, b, name);
  }
}
