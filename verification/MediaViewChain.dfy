/** The cached virtual media against the cluster, over calls made one at a time. */
module MediaViewChain {
  import opened Basics
  import opened VirtualMachines
  import opened Operations
  import opened Concurrency

  predicate HasMedia(w: World) {
    Attached(w.cluster.spec) != []
  }

  predicate Inserted(w: World) {
    w.view.media.Some? && w.view.media.value.inserted
  }

  predicate HasDataVolume(w: World) {
    w.cluster.name in w.cluster.dataVolumes
  }

  predicate HasCdrom(w: World) {
    w.cluster.spec.template.Some? && CdromOf(w.cluster.spec).Some?
  }

  /** At most one volume is attached, and it is the fixed DataVolume, which exists. */
  predicate Tokens(w: World) {
    var c := w.cluster;
    && w.view.media.Some?
    && c.name != ""
    && |Attached(c.spec)| <= 1 && OwnVolumes(c)
    && (HasMedia(w) ==> HasDataVolume(w))
  }

  /** Attached implies Inserted, Inserted implies that the DataVolume exists and comes from
      the image shown; a view that is not Inserted is the initial one. */
  predicate Chain(w: World) {
    var c := w.cluster;
    && Tokens(w)
    && (HasMedia(w) ==> Inserted(w))
    && (Inserted(w) ==> HasDataVolume(w) && c.dataVolumes[c.name].url == w.view.media.value.image
                        && w.view.media.value.connectedVia == "URI")
    && (!Inserted(w) ==> w.view.media.value == INITIAL_MEDIA)
  }

  predicate Agree(w: World) {
    && (HasMedia(w) <==> Inserted(w))
    && (Inserted(w) <==> HasDataVolume(w))
  }

  /** A clean start: fresh view, no DataVolume of the fixed name, nothing on the CD-ROM disk. */
  predicate CleanStart(w: World) {
    && w.view.media == Some(INITIAL_MEDIA)
    && w.cluster.name != ""
    && !HasMedia(w) && !HasDataVolume(w)
  }

  /** Failing calls have no effect. */
  predicate NoLost(script: seq<Outcome>) {
    forall i :: 0 <= i < |script| ==> !script[i].Lost?
  }

  // ---------- One media call, case by case ----------

  function WithDataVolume(w: World, url: string, size: nat): World {
    var c := w.cluster;
    w.(cluster := c.(dataVolumes := c.dataVolumes[c.name := DataVolume(url, size)]))
  }

  /** What a successful insert makes of a world, at a new resource version. */
  function WithMedia(w: World, url: string, size: nat, version: nat): World
    requires HasCdrom(w)
  {
    var c := WithDataVolume(w, url, size).cluster;
    var t := c.spec.template.value;
    World(c.(version := version,
             spec := c.spec.(template := Some(t.(
               volumes := t.volumes + [MediaVolume(CdromOf(c.spec).value, c.name)])))),
          w.view.(media := Some(MediaView(url, true, "URI"))))
  }

  function Detached(w: World, version: nat): World
    requires HasCdrom(w)
  {
    var c := w.cluster;
    var t := c.spec.template.value;
    w.(cluster := c.(version := version,
                     spec := c.spec.(template := Some(t.(volumes := Without(t.volumes, CdromOf(c.spec).value))))))
  }

  /** What a successful eject makes of a world, at a new resource version. */
  function WithoutMedia(w: World, version: nat): World
    requires HasCdrom(w)
  {
    var c := Detached(w, version).cluster;
    World(c.(dataVolumes := c.dataVolumes - {LastDataVolume(Attached(w.cluster.spec))}),
          w.view.(media := Some(INITIAL_MEDIA)))
  }

  /** An insert gets as far as creating its DataVolume. */
  predicate Inserts(w: World, op: Op, script: seq<Outcome>) {
    && op.InsertMedia? && op.size.Some?
    && w.view.media.Some? && HasCdrom(w) && !HasDataVolume(w)
    && Nth(script, 0).Served? && !Nth(script, 1).Refused?
  }

  /** An eject gets as far as detaching. */
  predicate Ejects(w: World, op: Op, script: seq<Outcome>) {
    && op.EjectMedia?
    && w.view.media.Some? && HasCdrom(w)
    && FromDataVolumes(Attached(w.cluster.spec)) && LastDataVolume(Attached(w.cluster.spec)) != ""
    && Nth(script, 0).Served? && !Nth(script, 1).Refused?
  }

  lemma InsertInCases(w: World, url: string, size: Option<nat>, script: seq<Outcome>)
    ensures var op := InsertMedia(url, size);
            var r := Call(w, op, script);
            if !Inserts(w, op, script) then
              r.world == w && r.local.error.Some? && !r.local.orphaned
            else if Nth(script, 1).Lost? || Nth(script, 2).Refused? then
              r.world == WithDataVolume(w, url, size.value) && r.local.error.Some? && r.local.orphaned
            else
              var done := WithMedia(w, url, size.value, r.world.cluster.version);
              && r.world == (if Nth(script, 2).Lost? then done.(view := w.view) else done)
              && (r.local.error.None? <==> Nth(script, 2).Served?) && !r.local.orphaned
  {
    var op := InsertMedia(url, size);
    var r0 := Run(w, Ready(op), script);
    FinishHop(r0);
    var r1 := Hop(r0);
    if !r1.local.Finished? {
      var e := Edit(op, w.cluster.spec, w.cluster.name).value;
      assert r1 == Run(w, Creating(op, e, w.cluster.version), Tail(script));
      NthOfTail(script);
      FinishHop(r1);
      var r2 := Hop(r1);
      if !r2.local.Finished? {
        UpdateThenView(r2.world, op, r2.local.edited, r2.local.version, r2.script);
      } else if !Nth(script, 1).Refused? && !HasDataVolume(w) {
        assert w.cluster.name in r2.world.cluster.dataVolumes;
      }
    }
  }

  lemma EjectInCases(w: World, script: seq<Outcome>)
    ensures var r := Call(w, EjectMedia, script);
            if !Ejects(w, EjectMedia, script) then
              r.world == w && r.local.error.Some? && !r.local.orphaned
            else
              var version := r.world.cluster.version;
              var present := LastDataVolume(Attached(w.cluster.spec)) in w.cluster.dataVolumes;
              if Nth(script, 1).Lost? then
                r.world == Detached(w, version) && r.local.error.Some? && r.local.orphaned
              else if Nth(script, 2).Refused? || !present then
                r.world == Detached(w, version) && r.local.error.Some? && (r.local.orphaned <==> present)
              else
                var done := WithoutMedia(w, version);
                && r.world == (if Nth(script, 2).Lost? then done.(view := w.view) else done)
                && (r.local.error.None? <==> Nth(script, 2).Served?) && !r.local.orphaned
  {
    var r0 := Run(w, Ready(EjectMedia), script);
    FinishHop(r0);
    var r1 := Hop(r0);
    if !r1.local.Finished? {
      var e := Edit(EjectMedia, w.cluster.spec, w.cluster.name).value;
      assert r1 == Run(w, Updating(EjectMedia, e, w.cluster.version), Tail(script));
      NthOfTail(script);
      FinishHop(r1);
      var r2 := Hop(r1);
      if !r2.local.Finished? {
        DeleteThenView(r2.world, r2.local.dvName, r2.script);
      }
    }
  }

  /** When an insert succeeds, and its whole effect. */
  lemma InsertSucceeds(w: World, url: string, size: Option<nat>, script: seq<Outcome>)
    ensures Call(w, InsertMedia(url, size), script).local.error.None? <==>
            && w.view.media.Some? && HasCdrom(w)
            && size.Some? && !HasDataVolume(w) && ServedFor(script, 3)
    ensures var end := Call(w, InsertMedia(url, size), script);
            end.local.error.None? ==> end.world == WithMedia(w, url, size.value, end.world.cluster.version)
  {
    InsertInCases(w, url, size, script);
    ServedForThree(script);
  }

  /** When an eject succeeds, and its whole effect. */
  lemma EjectSucceeds(w: World, script: seq<Outcome>)
    ensures Call(w, EjectMedia, script).local.error.None? <==>
            && w.view.media.Some? && HasCdrom(w)
            && FromDataVolumes(Attached(w.cluster.spec))
            && LastDataVolume(Attached(w.cluster.spec)) != ""
            && LastDataVolume(Attached(w.cluster.spec)) in w.cluster.dataVolumes
            && ServedFor(script, 3)
    ensures var end := Call(w, EjectMedia, script);
            end.local.error.None? ==> end.world == WithoutMedia(w, end.world.cluster.version)
  {
    EjectInCases(w, script);
    ServedForThree(script);
  }

  lemma ServedForThree(script: seq<Outcome>)
    ensures ServedFor(script, 3) <==> Nth(script, 0).Served? && Nth(script, 1).Served? && Nth(script, 2).Served?
  {
  }

  // ---------- Media, view and DataVolume after any outcomes ----------

  datatype Request = Request(op: Op, script: seq<Outcome>)

  /** Calls one after the other. */
  function Serve(w: World, requests: seq<Request>): World
    decreases |requests|
  {
    if requests == [] then w
    else Serve(Call(w, requests[0].op, requests[0].script).world, requests[1..])
  }

  /** Whether media is attached, whether it is shown, and whether the DataVolume exists. */
  datatype Bits = Bits(media: bool, shown: bool, volume: bool)

  function BitsOf(w: World): Bits {
    Bits(HasMedia(w), Inserted(w), HasDataVolume(w))
  }

  predicate Alike(b: Bits) {
    b.media == b.shown == b.volume
  }

  /** What a call does to the three, from the outcomes of its API calls alone. */
  function BitsAfter(b: Bits, cdrom: bool, r: Request): Bits {
    var first, second, third := Nth(r.script, 0), Nth(r.script, 1), Nth(r.script, 2);
    if !cdrom || !first.Served? || second.Refused? then b
    else match r.op
      case InsertMedia(_, size) =>
        if size.None? || b.volume then b
        else if second.Lost? || third.Refused? then b.(volume := true)
        else if third.Lost? then b.(volume := true, media := true)
        else Bits(true, true, true)
      case EjectMedia =>
        if !b.media then b
        else if second.Lost? || third.Refused? then b.(media := false)
        else if third.Lost? then b.(media := false, volume := false)
        else Bits(false, false, false)
      case _ => b
  }

  function BitsOver(b: Bits, cdrom: bool, requests: seq<Request>): Bits
    decreases |requests|
  {
    if requests == [] then b else BitsOver(BitsAfter(b, cdrom, requests[0]), cdrom, requests[1..])
  }

  /** Power and boot calls leave media, view and DataVolumes alone. */
  lemma OthersOnMedia(w: World, op: Op, script: seq<Outcome>)
    requires !IsMedia(op)
    ensures var r := Call(w, op, script);
            var c, c' := w.cluster, r.world.cluster;
            && Attached(c'.spec) == Attached(c.spec) && HasCdrom(r.world) == HasCdrom(w)
            && c'.dataVolumes == c.dataVolumes && c'.name == c.name
            && r.world.view.media == w.view.media
            && !r.local.orphaned
  {
    var r0 := Run(w, Ready(op), script);
    FinishHop(r0);
    var r1 := Hop(r0);
    if r1.local.Updating? {
      EditMedia(op, w.cluster.spec, w.cluster.name);
      FinishHop(r1);
      FinishHop(Hop(r1));
    }
  }

  lemma WithMediaTokens(w: World, url: string, size: nat, version: nat)
    requires Tokens(w) && HasCdrom(w) && !HasDataVolume(w)
    ensures var t := WithMedia(w, url, size, version);
            Tokens(t) && Tokens(t.(view := w.view)) && HasMedia(t) && HasDataVolume(t) && HasCdrom(t)
  {
    var op, c := InsertMedia(url, Some(size)), w.cluster;
    EditMedia(op, c.spec, c.name);
    assert Attached(c.spec) == [];
    assert Edit(op, c.spec, c.name).value.spec == WithMedia(w, url, size, version).cluster.spec;
  }

  lemma DetachedTokens(w: World, version: nat)
    requires Tokens(w) && HasCdrom(w)
    ensures var t := Detached(w, version);
            Tokens(t) && !HasMedia(t) && HasCdrom(t)
  {
    NamedOfWithout(w.cluster.spec.template.value.volumes, CdromOf(w.cluster.spec).value);
  }

  lemma InsertOnBits(w: World, url: string, size: Option<nat>, script: seq<Outcome>)
    requires Tokens(w)
    ensures var op := InsertMedia(url, size);
            var w' := Call(w, op, script).world;
            && Tokens(w') && HasCdrom(w') == HasCdrom(w)
            && BitsOf(w') == BitsAfter(BitsOf(w), HasCdrom(w), Request(op, script))
  {
    var op := InsertMedia(url, size);
    InsertInCases(w, url, size, script);
    if Inserts(w, op, script) {
      WithMediaTokens(w, url, size.value, Call(w, op, script).world.cluster.version);
    }
  }

  lemma EjectOnBits(w: World, script: seq<Outcome>)
    requires Tokens(w)
    ensures var w' := Call(w, EjectMedia, script).world;
            && Tokens(w') && HasCdrom(w') == HasCdrom(w)
            && BitsOf(w') == BitsAfter(BitsOf(w), HasCdrom(w), Request(EjectMedia, script))
  {
    EjectInCases(w, script);
    if HasMedia(w) {
      assert Attached(w.cluster.spec)[0] in Attached(w.cluster.spec);
    }
    if Ejects(w, EjectMedia, script) {
      DetachedTokens(w, Call(w, EjectMedia, script).world.cluster.version);
    }
  }

  lemma CallOnBits(w: World, op: Op, script: seq<Outcome>)
    requires Tokens(w)
    ensures var w' := Call(w, op, script).world;
            && Tokens(w') && HasCdrom(w') == HasCdrom(w)
            && BitsOf(w') == BitsAfter(BitsOf(w), HasCdrom(w), Request(op, script))
  {
    match op
    case InsertMedia(url, size) => InsertOnBits(w, url, size, script);
    case EjectMedia => EjectOnBits(w, script);
    case _ => OthersOnMedia(w, op, script);
  }

  /** Over every run of calls, whatever is refused or lost, what is attached, what is shown and
      whether the DataVolume exists are those of the automaton over outcomes. */
  lemma {:induction false} BitsOverRuns(w: World, requests: seq<Request>)
    requires Tokens(w)
    ensures Tokens(Serve(w, requests))
    ensures BitsOf(Serve(w, requests)) == BitsOver(BitsOf(w), HasCdrom(w), requests)
    ensures Agree(Serve(w, requests)) <==> Alike(BitsOver(BitsOf(w), HasCdrom(w), requests))
    decreases |requests|
  {
    if requests != [] {
      CallOnBits(w, requests[0].op, requests[0].script);
      BitsOverRuns(Call(w, requests[0].op, requests[0].script).world, requests[1..]);
    }
  }

  // ---------- Which calls break the agreement ----------

  /** A media call that has work to do: an insert of an image of known size without a
      DataVolume, or an eject of attached media. */
  predicate HasWork(b: Bits, cdrom: bool, op: Op) {
    cdrom && ((op.InsertMedia? && op.size.Some? && !b.volume) || (op.EjectMedia? && b.media))
  }

  /** Its first write is served and its second refused. */
  predicate Leaves(b: Bits, cdrom: bool, r: Request) {
    HasWork(b, cdrom, r.op) && Nth(r.script, 0).Served? && Nth(r.script, 1).Served? && Nth(r.script, 2).Refused?
  }

  /** Its first write takes effect and one of its two replies is bad. */
  predicate Breaks(b: Bits, cdrom: bool, r: Request) {
    && HasWork(b, cdrom, r.op) && Nth(r.script, 0).Served?
    && (Nth(r.script, 1).Lost? || (Nth(r.script, 1).Served? && !Nth(r.script, 2).Served?))
  }

  /** Whether some call of a run does, the bits following the automaton. */
  predicate SomeBreaks(b: Bits, cdrom: bool, requests: seq<Request>)
    decreases |requests|
  {
    && requests != []
    && (Breaks(b, cdrom, requests[0]) || SomeBreaks(BitsAfter(b, cdrom, requests[0]), cdrom, requests[1..]))
  }

  predicate SomeLeaves(b: Bits, cdrom: bool, requests: seq<Request>)
    decreases |requests|
  {
    && requests != []
    && (Leaves(b, cdrom, requests[0]) || SomeLeaves(BitsAfter(b, cdrom, requests[0]), cdrom, requests[1..]))
  }

  predicate AlwaysAgree(w: World, requests: seq<Request>)
    decreases |requests|
  {
    && Agree(w)
    && (requests == [] || AlwaysAgree(Call(w, requests[0].op, requests[0].script).world, requests[1..]))
  }

  /** From agreement, a call ends in disagreement exactly if it breaks it, lost replies included. */
  lemma CallBreaksExactly(w: World, op: Op, script: seq<Outcome>)
    requires Tokens(w) && Agree(w)
    ensures !Agree(Call(w, op, script).world) <==> Breaks(BitsOf(w), HasCdrom(w), Request(op, script))
  {
    CallOnBits(w, op, script);
  }

  /** Over every run, lost replies included: all three agree at every boundary exactly if no
      call of the run breaks the agreement. */
  lemma {:induction false} AlwaysAgreeExactly(w: World, requests: seq<Request>)
    requires Tokens(w) && Agree(w)
    ensures AlwaysAgree(w, requests) <==> !SomeBreaks(BitsOf(w), HasCdrom(w), requests)
    decreases |requests|
  {
    if requests != [] {
      var w' := Call(w, requests[0].op, requests[0].script).world;
      CallBreaksExactly(w, requests[0].op, requests[0].script);
      CallOnBits(w, requests[0].op, requests[0].script);
      if Agree(w') {
        AlwaysAgreeExactly(w', requests[1..]);
      }
    }
  }

  // ---------- The chain ----------

  lemma InsertKeepsChain(w: World, url: string, size: Option<nat>, script: seq<Outcome>)
    requires Chain(w) && NoLost(script)
    ensures Chain(Call(w, InsertMedia(url, size), script).world)
    ensures Call(w, InsertMedia(url, size), script).local.orphaned <==>
              Leaves(BitsOf(w), HasCdrom(w), Request(InsertMedia(url, size), script))
  {
    InsertInCases(w, url, size, script);
    InsertOnBits(w, url, size, script);
  }

  lemma EjectKeepsChain(w: World, script: seq<Outcome>)
    requires Chain(w) && NoLost(script)
    ensures Chain(Call(w, EjectMedia, script).world)
    ensures Call(w, EjectMedia, script).local.orphaned <==>
              Leaves(BitsOf(w), HasCdrom(w), Request(EjectMedia, script))
  {
    EjectInCases(w, script);
    EjectOnBits(w, script);
    if HasMedia(w) {
      assert Attached(w.cluster.spec)[0] in Attached(w.cluster.spec);
    }
  }

  /** One call keeps the chain.  It leaves its DataVolume behind exactly if it has work to do
      and is refused its second write; that alone ends an agreement. */
  lemma CallKeepsChain(w: World, op: Op, script: seq<Outcome>)
    requires Chain(w) && NoLost(script)
    ensures var r := Call(w, op, script);
            && Chain(r.world)
            && (r.local.orphaned <==> Leaves(BitsOf(w), HasCdrom(w), Request(op, script)))
            && (Agree(w) ==> (Agree(r.world) <==> !r.local.orphaned))
            && (r.local.orphaned ==> !Agree(r.world))
  {
    CallOnBits(w, op, script);
    match op
    case InsertMedia(url, size) => InsertKeepsChain(w, url, size, script);
    case EjectMedia => EjectKeepsChain(w, script);
    case _ => OthersOnMedia(w, op, script);
  }

  /** A DataVolume without media stays, and stays without media, whatever is called. */
  lemma {:induction false} StuckForever(w: World, requests: seq<Request>)
    requires Tokens(w) && !HasMedia(w) && HasDataVolume(w)
    ensures var t := Serve(w, requests);
            && BitsOf(t) == BitsOf(w) && !Agree(t)
            && (forall op, script :: IsMedia(op) ==> Call(t, op, script).local.error.Some?)
    decreases |requests|
  {
    if requests == [] {
      forall op, script | IsMedia(op) ensures Call(w, op, script).local.error.Some? {
        StuckCallFails(w, op, script);
      }
    } else {
      CallOnBits(w, requests[0].op, requests[0].script);
      StuckForever(Call(w, requests[0].op, requests[0].script).world, requests[1..]);
    }
  }

  lemma StuckCallFails(w: World, op: Op, script: seq<Outcome>)
    requires Tokens(w) && !HasMedia(w) && HasDataVolume(w) && IsMedia(op)
    ensures Call(w, op, script).local.error.Some?
  {
    if op.InsertMedia? {
      InsertInCases(w, op.url, op.size, script);
    } else {
      EjectInCases(w, script);
    }
  }

  /** A run keeps the chain; begun in agreement, it ends in agreement exactly if no call of it
      leaves the DataVolume behind. */
  lemma {:induction false} ServeKeepsChain(w: World, requests: seq<Request>)
    requires Chain(w)
    requires forall i :: 0 <= i < |requests| ==> NoLost(requests[i].script)
    ensures Chain(Serve(w, requests))
    ensures Agree(w) ==> (Agree(Serve(w, requests)) <==> !SomeLeaves(BitsOf(w), HasCdrom(w), requests))
    decreases |requests|
  {
    if requests != [] {
      var r := Call(w, requests[0].op, requests[0].script);
      CallKeepsChain(w, requests[0].op, requests[0].script);
      CallOnBits(w, requests[0].op, requests[0].script);
      ServeKeepsChain(r.world, requests[1..]);
      if r.local.orphaned {
        StuckForever(r.world, requests[1..]);
      }
    }
  }

  /** Over every run from a clean start in which failing calls have no effect: the chain
      holds at every operation boundary, and view and cluster agree there exactly if no call
      so far with work to do was refused its second write. */
  lemma ViewOverRuns(w: World, requests: seq<Request>)
    requires CleanStart(w)
    requires forall i :: 0 <= i < |requests| ==> NoLost(requests[i].script)
    ensures Chain(Serve(w, requests))
    ensures Agree(Serve(w, requests)) <==> !SomeLeaves(Bits(false, false, false), HasCdrom(w), requests)
  {
    ServeKeepsChain(w, requests);
  }

  // ---------- Insert, then eject ----------

  lemma EjectUndoesInsert(w: World, url: string, size: nat, v1: nat, v2: nat)
    requires w.view.media == Some(INITIAL_MEDIA) && !HasMedia(w) && !HasDataVolume(w)
    requires w.cluster.spec.template.Some? && CdromOf(w.cluster.spec).Some?
    ensures WithoutMedia(WithMedia(w, url, size, v1), v2) == w.(cluster := w.cluster.(version := v2))
  {
    var c := w.cluster;
    DetachRestores(c.spec, MediaVolume(CdromOf(c.spec).value, c.name));
    RemoveAdded(c.dataVolumes, c.name, DataVolume(url, size));
  }

  /** Attaching a volume and filtering by its name gives back the spec. */
  lemma DetachRestores(spec: VMSpec, v: Volume)
    requires spec.template.Some? && CdromOf(spec) == Some(v.name) && Attached(spec) == []
    ensures var t := spec.template.value;
            var t' := t.(volumes := t.volumes + [v]);
            var spec' := spec.(template := Some(t'));
            && CdromOf(spec') == CdromOf(spec) && Attached(spec') == [v]
            && spec'.(template := Some(t'.(volumes := Without(t'.volumes, v.name)))) == spec
  {
    WithoutAppend(spec.template.value.volumes, v, v.name);
    WithoutAbsent(spec.template.value.volumes, v.name);
  }

  lemma RemoveAdded<K, V>(m: map<K, V>, k: K, v: V)
    requires k !in m
    ensures m[k := v] - {k} == m
  {
  }

  /** A successful insert followed by a successful eject restores the volume list in order,
      the DataVolumes, the view and all else but the resource version. */
  lemma InsertThenEject(w: World, url: string, size: Option<nat>, s1: seq<Outcome>, s2: seq<Outcome>)
    requires w.view.media == Some(INITIAL_MEDIA) && !HasMedia(w) && !HasDataVolume(w)
    requires Call(w, InsertMedia(url, size), s1).local.error.None?
    requires Call(Call(w, InsertMedia(url, size), s1).world, EjectMedia, s2).local.error.None?
    ensures var end := Call(Call(w, InsertMedia(url, size), s1).world, EjectMedia, s2).world;
            end == w.(cluster := w.cluster.(version := end.cluster.version))
  {
    InsertSucceeds(w, url, size, s1);
    var mid := Call(w, InsertMedia(url, size), s1).world;
    EjectSucceeds(mid, s2);
    EjectUndoesInsert(w, url, size.value, mid.cluster.version, Call(mid, EjectMedia, s2).world.cluster.version);
  }

  // ---------- Where the chain breaks ----------

  /** A lost reply breaks the chain: the insert's update takes effect, but the view is never
      written. */
  lemma LostReplyBreaksChain(w: World, url: string, size: nat)
    requires CleanStart(w) && w.cluster.spec.template.Some? && CdromOf(w.cluster.spec).Some?
    ensures var r := Call(w, InsertMedia(url, Some(size)), [Served, Served, Lost]);
            HasMedia(r.world) && !Inserted(r.world)
  {
    var op := InsertMedia(url, Some(size));
    CallInFive(w, op, [Served, Served, Lost]);
    var r0 := Run(w, Ready(op), [Served, Served, Lost]);
    var r1 := Hop(r0);
    var r2 := Hop(r1);
    assert Tail([Served, Served, Lost]) == [Served, Lost];
    assert Tail([Served, Lost]) == [Lost];
    EditMedia(op, w.cluster.spec, w.cluster.name);
    assert r2.local.Updating?;
    var r3 := Hop(r2);
    assert r3.local.Finished?;
  }
}
