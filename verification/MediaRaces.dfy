/** The cached virtual media against the cluster, over interleaved calls. */
module MediaRaces {
  import opened Basics
  import opened VirtualMachines
  import opened Operations
  import opened Logs
  import opened Concurrency
  import opened MediaViewChain

  // ---------- A race ----------

  /** Interleaved calls break it as well, without any failure: an insert that writes its view
      last shows media that an eject has already removed. */
  lemma RaceBreaksChain(w: World, url: string, size: nat) returns (events: seq<Event>)
    requires CleanStart(w) && w.cluster.spec.template.Some? && CdromOf(w.cluster.spec).Some?
    ensures var t := Execute(System(w, []), events);
            && |t.calls| == 2
            && t.calls[0] == Finished(InsertMedia(url, Some(size)), None, false)
            && t.calls[1] == Finished(EjectMedia, None, false)
            && !HasMedia(t.world) && !HasDataVolume(t.world) && Inserted(t.world)
  {
    var op := InsertMedia(url, Some(size));
    var go0, go1 := Advance(0, Served), Advance(1, Served);
    var s := System(w, []);
    InsertBeforeView(w, url, size);
    var s4 := Next(Next(Next(Next(s, Spawn(op)), go0), go0), go0);
    var s5 := Next(s4, Spawn(EjectMedia));
    assert s5.calls == [Viewing(op), Ready(EjectMedia)];
    EjectFollows(s5);
    ViewWritten(Next(Next(Next(Next(s5, go1), go1), go1), go1), op);
    events := [Spawn(op), go0, go0, go0, Spawn(EjectMedia), go1, go1, go1, go1, go0];
    ExecuteTen(s, events);
  }

  lemma ViewWritten(s: System, op: Op)
    requires op.InsertMedia? && |s.calls| == 2 && s.calls[0] == Viewing(op) && AllWellFormed(s.calls)
    ensures var t := Next(s, Advance(0, Served));
            && t.calls == s.calls[0 := Finished(op, None, false)]
            && t.world.cluster == s.world.cluster && Inserted(t.world)
  {
  }

  lemma InsertBeforeView(w: World, url: string, size: nat)
    requires CleanStart(w) && w.cluster.spec.template.Some? && CdromOf(w.cluster.spec).Some?
    ensures var op, go := InsertMedia(url, Some(size)), Advance(0, Served);
            var t := Next(Next(Next(Next(System(w, []), Spawn(op)), go), go), go);
            var c := t.world.cluster;
            && t.calls == [Viewing(op)] && t.world.view == w.view
            && |Attached(c.spec)| == 1 && OwnVolumes(c) && c.name in c.dataVolumes && c.name == w.cluster.name
  {
    var op, go := InsertMedia(url, Some(size)), Advance(0, Served);
    var s1 := Next(System(w, []), Spawn(op));
    var s2 := Next(s1, go);
    EditMedia(op, w.cluster.spec, w.cluster.name);
    var s3 := Next(s2, go);
    var s4 := Next(s3, go);
    assert s4.calls == [Viewing(op)];
  }

  lemma EjectFollows(s: System)
    requires |s.calls| == 2 && s.calls[1] == Ready(EjectMedia) && WellFormed(s.calls[0])
    requires s.world.view.media.Some?
    requires var c := s.world.cluster;
             && |Attached(c.spec)| == 1 && OwnVolumes(c) && c.name in c.dataVolumes && c.name != ""
    ensures var go := Advance(1, Served);
            var t := Next(Next(Next(Next(s, go), go), go), go);
            && t.calls == [s.calls[0], Finished(EjectMedia, None, false)]
            && !HasMedia(t.world) && !HasDataVolume(t.world)
            && t.world.view.media == Some(INITIAL_MEDIA)
  {
    var go := Advance(1, Served);
    var c := s.world.cluster;
    assert Attached(c.spec)[0] in Attached(c.spec);
    assert Edit(EjectMedia, c.spec, c.name).Success?;
    EditMedia(EjectMedia, c.spec, c.name);
    var s1 := Next(s, go);
    assert s1.calls[1].Updating?;
    var s2 := Next(s1, go);
    assert s2.calls[1] == Deleting(EjectMedia, c.name);
    var s3 := Next(s2, go);
    assert s3.calls[1] == Viewing(EjectMedia);
  }

  lemma ExecuteTen(s: System, e: seq<Event>)
    requires AllWellFormed(s.calls) && |e| == 10
    ensures Execute(s, e) == Next(Next(Next(Next(Next(Next(Next(Next(Next(Next(
              s, e[0]), e[1]), e[2]), e[3]), e[4]), e[5]), e[6]), e[7]), e[8]), e[9])
  {
    ExecuteFive(s, e);
    ExecuteFive(Next(Next(Next(Next(Next(s, e[0]), e[1]), e[2]), e[3]), e[4]), e[5..]);
  }

  lemma ExecuteFive(s: System, e: seq<Event>)
    requires AllWellFormed(s.calls) && |e| >= 5
    ensures Execute(s, e) == Execute(Next(Next(Next(Next(Next(s, e[0]), e[1]), e[2]), e[3]), e[4]), e[5..])
  {
    var s1 := Next(s, e[0]);
    var s2 := Next(s1, e[1]);
    var s3 := Next(s2, e[2]);
    assert e[1..][1..] == e[2..];
    assert Execute(s1, e[1..]) == Execute(s2, e[2..]);
    assert e[2..][1..] == e[3..];
    assert Execute(s2, e[2..]) == Execute(s3, e[3..]);
    assert e[3..][1..] == e[4..];
    assert Execute(s3, e[3..]) == Execute(Next(s3, e[3]), e[4..]);
    assert e[4..][1..] == e[5..];
  }

  // ---------- What the last writes decide ----------

  /** The operation whose view write an event is, if any. */
  function ViewWrite(s: System, e: Event): seq<Op> {
    if e.Advance? && e.i < |s.calls| && s.calls[e.i].Viewing? then [s.calls[e.i].op] else []
  }

  function ViewWrites(s: System, events: seq<Event>): seq<Op>
    requires AllWellFormed(s.calls)
    decreases |events|
  {
    if events == [] then []
    else ViewWrite(s, events[0]) + ViewWrites(Next(s, events[0]), events[1..])
  }

  lemma EventOnMedia(s: System, e: Event)
    requires AllSnapshots(s)
    ensures var t, commits, views := Next(s, e), LastOf(Commit(s, e), IsMedia), LastOf(ViewWrite(s, e), IsMedia);
            && HasMedia(t.world) == (if commits == [] then HasMedia(s.world) else commits[0].InsertMedia?)
            && Inserted(t.world) == (if views == [] then Inserted(s.world) else views[0].InsertMedia?)
  {
    var c, v := Commit(s, e), ViewWrite(s, e);
    assert LastOf([], IsMedia) == [];
    if c != [] {
      LastOfOne(c[0], IsMedia);
      assert Snapshot(s.world.cluster, s.calls[e.i]);
      EditMedia(c[0], s.world.cluster.spec, s.world.cluster.name);
    }
    if v != [] {
      LastOfOne(v[0], IsMedia);
    }
  }

  /** Media is attached exactly if the last media update to take effect was an insert's, and
      shown exactly if the last media view write was an insert's. */
  lemma {:induction false} LastWritesDecide(s: System, events: seq<Event>)
    requires AllSnapshots(s)
    ensures var t := Execute(s, events);
            var commits, views := LastOf(Commits(s, events), IsMedia), LastOf(ViewWrites(s, events), IsMedia);
            && HasMedia(t.world) == (if commits == [] then HasMedia(s.world) else commits[0].InsertMedia?)
            && Inserted(t.world) == (if views == [] then Inserted(s.world) else views[0].InsertMedia?)
    decreases |events|
  {
    if events != [] {
      var e, rest, t := events[0], events[1..], Next(s, events[0]);
      EventOnMedia(s, e);
      SnapshotStep(s, e);
      LastWritesDecide(t, rest);
      LastOfConcat(Commit(s, e), Commits(t, rest), IsMedia);
      LastOfConcat(ViewWrite(s, e), ViewWrites(t, rest), IsMedia);
    }
  }

  predicate LastInserts(ops: seq<Op>) {
    LastOf(ops, IsMedia) != [] && LastOf(ops, IsMedia)[0].InsertMedia?
  }

  /** Over every interleaving from a clean start, with any failures and lost replies, view,
      volume and DataVolume agree exactly if the last media update to take effect and the last
      media view write are of the same kind, and no call answers for the DataVolume. */
  lemma AgreeUnderInterleaving(w: World, events: seq<Event>)
    requires CleanStart(w)
    ensures var s := System(w, []);
            var t := Execute(s, events);
            Agree(t.world) <==>
              && (LastInserts(Commits(s, events)) <==> LastInserts(ViewWrites(s, events)))
              && (forall i :: 0 <= i < |t.calls| ==> !Holds(t.calls[i]))
  {
    LastWritesDecide(System(w, []), events);
    SingleToken(System(w, []), events);
  }

  // ---------- A schedule that keeps view and cluster together ----------

  /** A media call that has begun and not finished. */
  predicate Active(l: Local) {
    IsMedia(l.op) && (l.Creating? || l.Updating? || l.Deleting? || l.Viewing?)
  }

  predicate AnyActive(calls: seq<Local>) {
    exists i :: 0 <= i < |calls| && Active(calls[i])
  }

  /** No media call begins while another is unfinished, and none loses a reply. */
  predicate Exclusive(s: System, e: Event) {
    e.Advance? && e.i < |s.calls| && IsMedia(s.calls[e.i].op) ==>
      !e.outcome.Lost? && (s.calls[e.i].Ready? ==> !AnyActive(s.calls))
  }

  predicate Scheduled(s: System, events: seq<Event>)
    requires AllWellFormed(s.calls)
    decreases |events|
  {
    events == [] || (Exclusive(s, events[0]) && Scheduled(Next(s, events[0]), events[1..]))
  }

  /** An insert's update is refused or comes too late, or an eject's delete is refused. */
  predicate LeavesNow(s: System, e: Event) {
    && e.Advance? && e.i < |s.calls|
    && var l := s.calls[e.i];
       || (l.Updating? && l.op.InsertMedia? && !Accepted(s.world.cluster, l.version, e.outcome))
       || (l.Deleting? && e.outcome.Refused?)
  }

  predicate SomeLeavesNow(s: System, events: seq<Event>)
    requires AllWellFormed(s.calls)
    decreases |events|
  {
    events != [] && (LeavesNow(s, events[0]) || SomeLeavesNow(Next(s, events[0]), events[1..]))
  }

  /** What holds while `l` is the media call under way. */
  predicate During(w: World, l: Local) {
    var c := w.cluster;
    match l
    case Updating(InsertMedia(url, _), _, _) =>
      w.view.media == Some(INITIAL_MEDIA) && HasDataVolume(w) && c.dataVolumes[c.name].url == url
    case Deleting(_, _) => Chain(w) && Inserted(w)
    case Viewing(InsertMedia(url, _)) =>
      w.view.media == Some(INITIAL_MEDIA) && HasMedia(w) && HasDataVolume(w) && c.dataVolumes[c.name].url == url
    case Viewing(EjectMedia) => !HasMedia(w) && !HasDataVolume(w)
    case _ => Chain(w)
  }

  predicate OneAtATime(s: System) {
    && TokenInvariant(s)
    && s.world.view.media.Some? && s.world.cluster.name != ""
    && (forall i, j :: 0 <= i < j < |s.calls| ==> !(Active(s.calls[i]) && Active(s.calls[j])))
    && (forall i :: 0 <= i < |s.calls| && Active(s.calls[i]) ==> During(s.world, s.calls[i]))
    && (!AnyActive(s.calls) ==> Chain(s.world))
  }

  /** A step of a media call, when no other is under way. */
  lemma MediaStep(w: World, l: Local, o: Outcome)
    requires WellFormed(l) && Snapshot(w.cluster, l) && MediaCall(w.cluster, l) && Tokens(w)
    requires Holds(l) ==> HasDataVolume(w) && !HasMedia(w)
    requires IsMedia(l.op) && !l.Finished? && !o.Lost? && (if l.Ready? then Chain(w) else During(w, l))
    ensures var r := Step(w, l, o);
            if Active(r.1) then During(r.0, r.1) else Chain(r.0)
  {
    if l.Updating? && Accepted(w.cluster, l.version, o) {
      EditMedia(l.op, w.cluster.spec, w.cluster.name);
    }
  }

  predicate SameMediaState(w: World, w': World) {
    && Attached(w'.cluster.spec) == Attached(w.cluster.spec)
    && w'.cluster.dataVolumes == w.cluster.dataVolumes && w'.cluster.name == w.cluster.name
    && w'.view.media == w.view.media
  }

  lemma OtherStep(w: World, l: Local, o: Outcome)
    requires WellFormed(l) && Snapshot(w.cluster, l)
    requires !IsMedia(l.op) || l.Finished?
    ensures SameMediaState(w, Step(w, l, o).0)
    ensures !IsMedia(l.op) ==> !Active(Step(w, l, o).1)
    ensures l.Finished? ==> Step(w, l, o) == (w, l)
  {
    if l.Updating? && Accepted(w.cluster, l.version, o) {
      EditMedia(l.op, w.cluster.spec, w.cluster.name);
    }
  }

  lemma TokensFromLaw(s: System)
    requires TokenInvariant(s) && s.world.view.media.Some? && s.world.cluster.name != ""
    ensures Tokens(s.world)
    ensures forall i :: 0 <= i < |s.calls| && Holds(s.calls[i]) ==> HasDataVolume(s.world) && !HasMedia(s.world)
  {
    forall i | 0 <= i < |s.calls| && Holds(s.calls[i]) ensures HasDataVolume(s.world) && !HasMedia(s.world) {
      HolderCounts(s.calls, i);
    }
  }

  /** Media calls under way are the same ones after such a step. */
  lemma SameActive(s: seq<Local>, t: seq<Local>)
    requires |s| <= |t|
    requires forall i :: 0 <= i < |t| && Active(t[i]) ==> i < |s| && t[i] == s[i]
    requires forall i :: 0 <= i < |s| && Active(s[i]) ==> Active(t[i])
    requires forall i, j :: 0 <= i < j < |s| ==> !(Active(s[i]) && Active(s[j]))
    ensures AnyActive(t) <==> AnyActive(s)
    ensures forall i, j :: 0 <= i < j < |t| ==> !(Active(t[i]) && Active(t[j]))
  {
    if AnyActive(s) {
      var i :| 0 <= i < |s| && Active(s[i]);
      assert Active(t[i]);
    }
    if AnyActive(t) {
      var i :| 0 <= i < |t| && Active(t[i]);
      assert Active(s[i]);
    }
  }

  /** Steps that leave the media state alone keep the invariant. */
  lemma OtherKeeps(s: System, t: System)
    requires OneAtATime(s) && TokenInvariant(t) && SameMediaState(s.world, t.world)
    requires |s.calls| <= |t.calls|
    requires forall i :: 0 <= i < |t.calls| && Active(t.calls[i]) ==> i < |s.calls| && t.calls[i] == s.calls[i]
    requires forall i :: 0 <= i < |s.calls| && Active(s.calls[i]) ==> Active(t.calls[i])
    ensures OneAtATime(t)
  {
    TokensFromLaw(t);
    SameActive(s.calls, t.calls);
    forall i | 0 <= i < |t.calls| && Active(t.calls[i]) ensures During(t.world, t.calls[i]) {
      assert During(s.world, s.calls[i]);
    }
  }

  lemma MediaKeeps(s: System, i: nat, o: Outcome)
    requires OneAtATime(s) && i < |s.calls| && IsMedia(s.calls[i].op) && !s.calls[i].Finished?
    requires Exclusive(s, Advance(i, o))
    ensures OneAtATime(Next(s, Advance(i, o)))
  {
    var t := Next(s, Advance(i, o));
    TokenStep(s, Advance(i, o));
    SnapshotStep(s, Advance(i, o));
    TokensFromLaw(s);
    MediaStep(s.world, s.calls[i], o);
    forall j | 0 <= j < |t.calls| && j != i ensures !Active(t.calls[j]) {
      assert Active(s.calls[j]) ==> AnyActive(s.calls);
      assert Active(s.calls[i]) && Active(s.calls[j]) ==> i < j || j < i;
    }
    if !AnyActive(t.calls) {
      assert !Active(t.calls[i]);
    }
  }

  lemma EventKeeps(s: System, e: Event)
    requires OneAtATime(s) && Exclusive(s, e)
    ensures OneAtATime(Next(s, e))
  {
    var t := Next(s, e);
    TokenStep(s, e);
    if e.Advance? && e.i < |s.calls| {
      var l := s.calls[e.i];
      assert Snapshot(s.world.cluster, l);
      if IsMedia(l.op) && !l.Finished? {
        MediaKeeps(s, e.i, e.outcome);
      } else {
        OtherStep(s.world, l, e.outcome);
        OtherKeeps(s, t);
      }
    } else {
      OtherKeeps(s, t);
    }
  }

  predicate AnyOrphaned(calls: seq<Local>) {
    exists i :: 0 <= i < |calls| && calls[i].Finished? && calls[i].orphaned
  }

  /** A DataVolume is left behind in the events that say so, and stays. */
  lemma OrphanedStep(s: System, e: Event)
    requires OneAtATime(s) && Exclusive(s, e)
    ensures AnyOrphaned(Next(s, e).calls) <==> AnyOrphaned(s.calls) || LeavesNow(s, e)
  {
    var t := Next(s, e);
    TokensFromLaw(s);
    if AnyOrphaned(s.calls) {
      var i :| 0 <= i < |s.calls| && s.calls[i].Finished? && s.calls[i].orphaned;
      assert t.calls[i] == s.calls[i];
    }
    if LeavesNow(s, e) {
      assert MediaCall(s.world.cluster, s.calls[e.i]);
      assert t.calls[e.i].Finished? && t.calls[e.i].orphaned;
    }
    if AnyOrphaned(t.calls) && !AnyOrphaned(s.calls) {
      var i :| 0 <= i < |t.calls| && t.calls[i].Finished? && t.calls[i].orphaned;
      assert e.Advance? && i == e.i;
      assert MediaCall(s.world.cluster, s.calls[i]);
    }
  }

  lemma AgreeFromLaw(s: System)
    requires OneAtATime(s) && !AnyActive(s.calls)
    ensures Chain(s.world) && (Agree(s.world) <==> !AnyOrphaned(s.calls))
  {
    if AnyOrphaned(s.calls) {
      var i :| 0 <= i < |s.calls| && s.calls[i].Finished? && s.calls[i].orphaned;
      HolderCounts(s.calls, i);
    } else if Holders(s.calls) > 0 {
      var i := SomeHolder(s.calls);
      assert false;
    }
  }

  lemma {:induction false} ScheduledFrom(s: System, events: seq<Event>)
    requires OneAtATime(s) && Scheduled(s, events)
    ensures OneAtATime(Execute(s, events))
    ensures AnyOrphaned(Execute(s, events).calls) <==> AnyOrphaned(s.calls) || SomeLeavesNow(s, events)
    decreases |events|
  {
    if events != [] {
      EventKeeps(s, events[0]);
      OrphanedStep(s, events[0]);
      ScheduledFrom(Next(s, events[0]), events[1..]);
    }
  }

  /** Over every interleaving from a clean start in which no media call begins while another is
      unfinished and none loses a reply: whenever no media call is under way the chain holds,
      and view, volume and DataVolume agree exactly if none was left behind. */
  lemma ScheduledView(w: World, events: seq<Event>)
    requires CleanStart(w) && Scheduled(System(w, []), events)
    ensures var s := System(w, []);
            var t := Execute(s, events);
            !AnyActive(t.calls) ==>
              Chain(t.world) && (Agree(t.world) <==> !SomeLeavesNow(s, events))
  {
    var s := System(w, []);
    CleanIsConserved(s);
    ScheduledFrom(s, events);
    var t := Execute(s, events);
    if !AnyActive(t.calls) {
      AgreeFromLaw(t);
    }
  }
}
