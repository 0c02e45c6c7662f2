/** The cached boot override against the boot orders, over interleaved calls. */
module OverrideRaces {
  import opened Basics
  import opened VirtualMachines
  import opened Operations
  import opened Logs
  import opened Concurrency
  import opened MediaRaces
  import opened BootAndPower
  import opened BootOverride

  /** The override target of the last boot operation of a log. */
  function LastTarget(ops: seq<Op>): string
    requires LastOf(ops, IsBoot) != []
  {
    LastOfKind(ops, IsBoot);
    BootTarget(LastOf(ops, IsBoot)[0].device)
  }

  /** A serial run leaves the boot orders of the target of its last boot operation. */
  lemma {:induction false} LastTargetHolds(spec: VMSpec, ops: seq<Op>, n: string)
    requires Replay(spec, ops, n).Some? && LastOf(ops, IsBoot) != []
    ensures var end := Replay(spec, ops, n).value;
            end.template.Some? && BootOrders(end.template.value, LastTarget(ops))
    decreases |ops|
  {
    var next := if ops[0].PowerCycle? then spec else Edit(ops[0], spec, n).value.spec;
    if LastOf(ops[1..], IsBoot) != [] {
      LastTargetHolds(next, ops[1..], n);
    } else {
      SetBootEffect(spec.template.value, ops[0].device);
      BootProjection(next, next, ops[1..], n);
    }
  }

  predicate AnyViewing(calls: seq<Local>) {
    exists i :: 0 <= i < |calls| && calls[i].Viewing? && calls[i].op.SetBootDevice?
  }

  /** Only an update that takes effect brings a boot call to its view. */
  lemma ViewingFollowsCommit(s: System, e: Event)
    requires AllWellFormed(s.calls) && AnyViewing(Next(s, e).calls) && !AnyViewing(s.calls)
    ensures LastOf(Commit(s, e), IsBoot) != []
  {
    var t := Next(s, e);
    var i :| 0 <= i < |t.calls| && t.calls[i].Viewing? && t.calls[i].op.SetBootDevice?;
    assert Commit(s, e) == [s.calls[i].op];
    LastOfOne(s.calls[i].op, IsBoot);
  }

  lemma ViewWriteMeansViewing(s: System, e: Event)
    requires LastOf(ViewWrite(s, e), IsBoot) != []
    ensures AnyViewing(s.calls)
  {
    LastOfOne(s.calls[e.i].op, IsBoot);
  }

  /** A boot operation writes its view only after its update took effect. */
  lemma {:induction false} ViewsFollowCommits(s: System, events: seq<Event>)
    requires AllWellFormed(s.calls)
    requires LastOf(ViewWrites(s, events), IsBoot) != []
    ensures LastOf(Commits(s, events), IsBoot) != [] || AnyViewing(s.calls)
    decreases |events|
  {
    var e, rest, t := events[0], events[1..], Next(s, events[0]);
    LastOfConcat(Commit(s, e), Commits(t, rest), IsBoot);
    LastOfConcat(ViewWrite(s, e), ViewWrites(t, rest), IsBoot);
    if LastOf(ViewWrite(s, e), IsBoot) != [] {
      ViewWriteMeansViewing(s, e);
    } else {
      ViewsFollowCommits(t, rest);
      if AnyViewing(t.calls) && !AnyViewing(s.calls) {
        ViewingFollowsCommit(s, e);
      }
    }
  }

  /** The cached boot view is that of the last boot operation to write it. */
  lemma {:induction false} LastBootViewDecides(s: System, events: seq<Event>)
    requires AllWellFormed(s.calls) && s.world.view.system.Some?
    ensures var end, views := Execute(s, events).world.view.system, ViewWrites(s, events);
            if LastOf(views, IsBoot) == [] then end == s.world.view.system
            else end == Some(BootView("Continuous", s.world.view.system.value.mode, LastTarget(views)))
    decreases |events|
  {
    if events != [] {
      var e, rest, t := events[0], events[1..], Next(s, events[0]);
      LastBootViewDecides(t, rest);
      LastOfConcat(ViewWrite(s, e), ViewWrites(t, rest), IsBoot);
    }
  }

  /** Over every interleaving from an override not yet in force, with any failures and lost
      replies: the cached override names the class that holds the boot order if and only if
      no boot operation has written the view, or the last to write it and the last whose
      update took effect have the same target. */
  lemma OverrideUnderInterleaving(w: World, events: seq<Event>)
    requires w.view.system == Some(INITIAL_BOOT)
    ensures var s := System(w, []);
            var commits, views := Commits(s, events), ViewWrites(s, events);
            && (LastOf(views, IsBoot) != [] ==> LastOf(commits, IsBoot) != [])
            && (OverrideAgrees(Execute(s, events).world) <==>
                  LastOf(views, IsBoot) == [] || LastTarget(views) == LastTarget(commits))
  {
    var s := System(w, []);
    var commits, views := Commits(s, events), ViewWrites(s, events);
    LastBootViewDecides(s, events);
    if LastOf(views, IsBoot) != [] {
      ViewsFollowCommits(s, events);
      Serializable(s, events);
      LastTargetHolds(w.cluster.spec, commits, w.cluster.name);
      var t := Execute(s, events).world.cluster.spec.template.value;
      LastOfKind(views, IsBoot);
      LastOfKind(commits, IsBoot);
      if OverrideAgrees(Execute(s, events).world) {
        OneTarget(t, LastTarget(views), LastTarget(commits));
      }
    }
  }

  // ---------- A race ----------

  /** The get and the update of a boot call, with nothing in between. */
  lemma GetAndUpdate(s: System, i: nat, device: string)
    requires AllWellFormed(s.calls) && i < |s.calls| && s.calls[i] == Ready(SetBootDevice(device))
    requires Bootable(MachineOf(s.world), device)
    ensures var go := Advance(i, Served);
            var t := Next(Next(s, go), go);
            && t.calls == s.calls[i := Viewing(SetBootDevice(device))]
            && t.world.view == s.world.view && MachineOf(t.world) == MachineOf(s.world)
            && t.world.cluster.spec.template.Some?
            && BootOrders(t.world.cluster.spec.template.value, BootTarget(device))
  {
    var op, spec := SetBootDevice(device), s.world.cluster.spec;
    SetBootEffect(spec.template.value, device);
    SameLengths(SetBoot(spec.template.value, device).value, spec.template.value);
    var s1 := Next(s, Advance(i, Served));
    assert s1.calls[i] == Updating(op, Edit(op, spec, s.world.cluster.name).value, s.world.cluster.version);
  }

  lemma WriteView(s: System, i: nat, device: string)
    requires AllWellFormed(s.calls) && i < |s.calls| && s.calls[i] == Viewing(SetBootDevice(device))
    requires s.world.view.system.Some?
    ensures var t := Next(s, Advance(i, Served));
            && t.calls == s.calls[i := Finished(SetBootDevice(device), None, false)]
            && t.world.cluster == s.world.cluster
            && InForce(t.world) && t.world.view.system.value.target == BootTarget(device)
  {
  }

  /** Two boot calls that both succeed, without any failure: the first to update is the last
      to write the view, and the wrong override is in force. */
  lemma RaceBreaksOverride(w: World) returns (events: seq<Event>)
    requires w.view.system == Some(INITIAL_BOOT) && MachineOf(w) == Machine(true, true, true)
    ensures var t := Execute(System(w, []), events);
            && t.calls == [Finished(SetBootDevice("Pxe"), None, false), Finished(SetBootDevice("Hdd"), None, false)]
            && InForce(t.world) && t.world.view.system.value.target == "Pxe"
            && t.world.cluster.spec.template.Some? && BootOrders(t.world.cluster.spec.template.value, "Hdd")
            && !OverrideAgrees(t.world)
  {
    var pxe, hdd, go0, go1 := SetBootDevice("Pxe"), SetBootDevice("Hdd"), Advance(0, Served), Advance(1, Served);
    var s := System(w, []);
    var s1 := Next(s, Spawn(pxe));
    GetAndUpdate(s1, 0, "Pxe");
    var s3 := Next(Next(s1, go0), go0);
    var s4 := Next(s3, Spawn(hdd));
    assert s4.calls == [Viewing(pxe), Ready(hdd)];
    GetAndUpdate(s4, 1, "Hdd");
    var s6 := Next(Next(s4, go1), go1);
    WriteView(s6, 1, "Hdd");
    var s7 := Next(s6, go1);
    WriteView(s7, 0, "Pxe");
    var s8 := Next(s7, go0);
    events := [Spawn(pxe), go0, go0, Spawn(hdd), go1, go1, go1, go0];
    ExecuteEight(s, events);
    OneTargetOf(s8.world, "Hdd");
  }

  lemma OneTargetOf(w: World, target: string)
    requires InForce(w) && IsTarget(target) && IsTarget(w.view.system.value.target)
    requires w.cluster.spec.template.Some? && BootOrders(w.cluster.spec.template.value, target)
    ensures OverrideAgrees(w) <==> w.view.system.value.target == target
  {
    if OverrideAgrees(w) {
      OneTarget(w.cluster.spec.template.value, target, w.view.system.value.target);
    }
  }

  lemma ExecuteEight(s: System, e: seq<Event>)
    requires AllWellFormed(s.calls) && |e| == 8
    ensures Execute(s, e)
         == Next(Next(Next(Next(Next(Next(Next(Next(s, e[0]), e[1]), e[2]), e[3]), e[4]), e[5]), e[6]), e[7])
  {
    ExecuteFive(s, e);
    var t := Next(Next(Next(Next(Next(s, e[0]), e[1]), e[2]), e[3]), e[4]);
    var rest := e[5..];
    assert rest == [e[5], e[6], e[7]];
    assert rest[1..] == [e[6], e[7]] && [e[6], e[7]][1..] == [e[7]] && [e[7]][1..] == [];
    assert Execute(t, rest) == Execute(Next(t, e[5]), [e[6], e[7]]);
    assert Execute(Next(t, e[5]), [e[6], e[7]]) == Execute(Next(Next(t, e[5]), e[6]), [e[7]]);
  }

  // ---------- A schedule that keeps the override right ----------

  /** A boot call that has begun and not finished. */
  predicate ActiveBoot(l: Local) {
    l.op.SetBootDevice? && (l.Updating? || l.Viewing?)
  }

  predicate AnyActiveBoot(calls: seq<Local>) {
    exists i :: 0 <= i < |calls| && ActiveBoot(calls[i])
  }

  /** No boot call begins while another is unfinished, and none loses a reply. */
  predicate ExclusiveBoot(s: System, e: Event) {
    e.Advance? && e.i < |s.calls| && s.calls[e.i].op.SetBootDevice? ==>
      !e.outcome.Lost? && (s.calls[e.i].Ready? ==> !AnyActiveBoot(s.calls))
  }

  predicate ScheduledBoot(s: System, events: seq<Event>)
    requires AllWellFormed(s.calls)
    decreases |events|
  {
    events == [] || (ExclusiveBoot(s, events[0]) && ScheduledBoot(Next(s, events[0]), events[1..]))
  }

  /** The override is right, or is about to be. */
  predicate DuringBoot(w: World, l: Local) {
    if l.Viewing? && l.op.SetBootDevice? then
      w.cluster.spec.template.Some? && BootOrders(w.cluster.spec.template.value, BootTarget(l.op.device))
    else OverrideAgrees(w)
  }

  predicate OneBootAtATime(s: System) {
    && AllSnapshots(s)
    && (forall i, j :: 0 <= i < j < |s.calls| ==> !(ActiveBoot(s.calls[i]) && ActiveBoot(s.calls[j])))
    && (forall i :: 0 <= i < |s.calls| && ActiveBoot(s.calls[i]) ==> DuringBoot(s.world, s.calls[i]))
    && (!AnyActiveBoot(s.calls) ==> OverrideAgrees(s.world))
  }

  lemma BootStep(w: World, l: Local, o: Outcome)
    requires WellFormed(l) && Snapshot(w.cluster, l) && l.op.SetBootDevice? && !o.Lost?
    requires DuringBoot(w, l)
    ensures DuringBoot(Step(w, l, o).0, Step(w, l, o).1)
  {
    if l.Updating? && Accepted(w.cluster, l.version, o) {
      SetBootEffect(w.cluster.spec.template.value, l.op.device);
    }
  }

  lemma OtherBootStep(w: World, l: Local, o: Outcome)
    requires WellFormed(l) && Snapshot(w.cluster, l) && !l.op.SetBootDevice?
    ensures var w' := Step(w, l, o).0;
            SameBoot(w'.cluster.spec, w.cluster.spec) && w'.view.system == w.view.system
  {
    if l.Updating? && Accepted(w.cluster, l.version, o) {
      EditKeepsShape(l.op, w.cluster.spec, w.cluster.name);
    }
  }

  lemma BootAdvance(s: System, i: nat, o: Outcome)
    requires OneBootAtATime(s) && i < |s.calls| && s.calls[i].op.SetBootDevice? && !s.calls[i].Finished?
    requires ExclusiveBoot(s, Advance(i, o))
    ensures OneBootAtATime(Next(s, Advance(i, o)))
  {
    var t := Next(s, Advance(i, o));
    SnapshotStep(s, Advance(i, o));
    assert Snapshot(s.world.cluster, s.calls[i]);
    BootStep(s.world, s.calls[i], o);
    forall j | 0 <= j < |t.calls| && j != i ensures !ActiveBoot(t.calls[j]) {
      assert ActiveBoot(s.calls[j]) ==> AnyActiveBoot(s.calls);
      assert ActiveBoot(s.calls[i]) && ActiveBoot(s.calls[j]) ==> i < j || j < i;
    }
    if !AnyActiveBoot(t.calls) {
      assert !ActiveBoot(t.calls[i]);
    }
  }

  /** Events that leave the boot orders and the boot view alone keep the invariant. */
  lemma OtherBootKeeps(s: System, t: System)
    requires OneBootAtATime(s) && AllSnapshots(t)
    requires SameBoot(t.world.cluster.spec, s.world.cluster.spec) && t.world.view.system == s.world.view.system
    requires |s.calls| <= |t.calls|
    requires forall i :: 0 <= i < |t.calls| && ActiveBoot(t.calls[i]) ==> i < |s.calls| && t.calls[i] == s.calls[i]
    requires forall i :: 0 <= i < |s.calls| && ActiveBoot(s.calls[i]) ==> ActiveBoot(t.calls[i])
    ensures OneBootAtATime(t)
  {
    if AnyActiveBoot(s.calls) {
      var i :| 0 <= i < |s.calls| && ActiveBoot(s.calls[i]);
      assert ActiveBoot(t.calls[i]);
    }
    forall i, j | 0 <= i < j < |t.calls| ensures !(ActiveBoot(t.calls[i]) && ActiveBoot(t.calls[j])) {
      assert j < |s.calls| ==> !(ActiveBoot(s.calls[i]) && ActiveBoot(s.calls[j]));
    }
  }

  lemma BootEventKeeps(s: System, e: Event)
    requires OneBootAtATime(s) && ExclusiveBoot(s, e)
    ensures OneBootAtATime(Next(s, e))
  {
    var t := Next(s, e);
    SnapshotStep(s, e);
    if e.Advance? && e.i < |s.calls| {
      var l := s.calls[e.i];
      assert Snapshot(s.world.cluster, l);
      if l.op.SetBootDevice? && !l.Finished? {
        BootAdvance(s, e.i, e.outcome);
      } else if !l.Finished? {
        OtherBootStep(s.world, l, e.outcome);
        OtherBootKeeps(s, t);
      } else {
        assert t.calls == s.calls;
      }
    } else {
      OtherBootKeeps(s, t);
    }
  }

  lemma {:induction false} BootInvariantHolds(s: System, events: seq<Event>)
    requires OneBootAtATime(s) && ScheduledBoot(s, events)
    ensures OneBootAtATime(Execute(s, events))
    decreases |events|
  {
    if events != [] {
      BootEventKeeps(s, events[0]);
      BootInvariantHolds(Next(s, events[0]), events[1..]);
    }
  }

  /** Over every interleaving in which no boot call begins while another is unfinished and none
      loses a reply: whenever no boot call is under way, the override is right. */
  lemma ScheduledOverride(w: World, events: seq<Event>)
    requires OverrideAgrees(w) && ScheduledBoot(System(w, []), events)
    ensures var t := Execute(System(w, []), events);
            !AnyActiveBoot(t.calls) ==> OverrideAgrees(t.world)
  {
    BootInvariantHolds(System(w, []), events);
  }
}
