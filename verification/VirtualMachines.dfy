/** The part of a KubeVirt VirtualMachine that the resource manager reads and edits, and
    the in-place edits it makes to a fetched copy.  A nil list of the source is `None`
    (a null array in the class); a list that is present may be empty. */
module VirtualMachines {
  import opened Basics

  datatype Interface = Interface(name: string, bootOrder: Option<nat>)

  datatype Disk = Disk(name: string, cdrom: bool, bootOrder: Option<nat>)

  datatype Source = DataVolumeSource(dvName: string, hotpluggable: bool) | OtherSource(kind: string)

  datatype Volume = Volume(name: string, source: Source)

  datatype Template = Template(
    interfaces: Option<seq<Interface>>,
    disks: Option<seq<Disk>>,
    volumes: seq<Volume>)

  datatype VMSpec = VMSpec(
    running: Option<bool>,
    runStrategy: Option<string>,
    template: Option<Template>)

  function OrEmpty<T>(s: Option<seq<T>>): seq<T> {
    if s.Some? then s.value else []
  }

  /** Name of the first CD-ROM disk. */
  function FirstCdrom(disks: seq<Disk>): Option<string> {
    if disks == [] then None
    else if disks[0].cdrom then Some(disks[0].name)
    else FirstCdrom(disks[1..])
  }

  function CdromOf(spec: VMSpec): Option<string> {
    if spec.template.None? then None else FirstCdrom(OrEmpty(spec.template.value.disks))
  }

  /** The volumes that do not carry `name`, in order. */
  function Without(volumes: seq<Volume>, name: string): seq<Volume> {
    if volumes == [] then []
    else
      var rest := Without(volumes[..|volumes| - 1], name);
      var last := volumes[|volumes| - 1];
      if last.name == name then rest else rest + [last]
  }

  /** The volumes that carry `name`, in order. */
  function Named(volumes: seq<Volume>, name: string): seq<Volume> {
    if volumes == [] then []
    else
      var rest := Named(volumes[..|volumes| - 1], name);
      var last := volumes[|volumes| - 1];
      if last.name == name then rest + [last] else rest
  }

  function ClearInterfaces(s: seq<Interface>): seq<Interface> {
    seq(|s|, i requires 0 <= i < |s| => s[i].(bootOrder := None))
  }

  function ClearDisks(s: seq<Disk>): seq<Disk> {
    seq(|s|, i requires 0 <= i < |s| => s[i].(bootOrder := None))
  }

  lemma {:induction false} WithoutAppend(volumes: seq<Volume>, v: Volume, name: string)
    ensures Without(volumes + [v], name) == Without(volumes, name) + (if v.name == name then [] else [v])
    ensures Named(volumes + [v], name) == Named(volumes, name) + (if v.name == name then [v] else [])
  {
    assert (volumes + [v])[..|volumes|] == volumes;
  }

  /** Together, the two filters keep every volume exactly once, and nothing but volumes
      of the right name. */
  lemma {:induction false} FiltersPartition(volumes: seq<Volume>, name: string)
    ensures multiset(Without(volumes, name)) + multiset(Named(volumes, name)) == multiset(volumes)
    ensures forall v :: v in Named(volumes, name) ==> v.name == name
    ensures forall v :: v in Without(volumes, name) ==> v.name != name
  {
    if volumes != [] {
      var init := volumes[..|volumes| - 1];
      FiltersPartition(init, name);
      assert volumes == init + [volumes[|volumes| - 1]];
    }
  }

  lemma {:induction false} WithoutAbsent(volumes: seq<Volume>, name: string)
    requires Named(volumes, name) == []
    ensures Without(volumes, name) == volumes
  {
    if volumes != [] {
      var init := volumes[..|volumes| - 1];
      WithoutAbsent(init, name);
      assert volumes == init + [volumes[|volumes| - 1]];
    }
  }

  lemma {:induction false} NamedOfWithout(volumes: seq<Volume>, name: string)
    ensures Named(Without(volumes, name), name) == []
  {
    if volumes != [] {
      var init := volumes[..|volumes| - 1];
      NamedOfWithout(init, name);
      if volumes[|volumes| - 1].name != name {
        WithoutAppend(Without(init, name), volumes[|volumes| - 1], name);
      }
    }
  }

  lemma {:induction false} NamedPrefix(volumes: seq<Volume>, name: string, k: nat)
    requires k <= |volumes|
    ensures Named(volumes[..k], name) <= Named(volumes, name)
  {
    if k < |volumes| {
      var init := volumes[..|volumes| - 1];
      NamedPrefix(init, name, k);
      assert init[..k] == volumes[..k];
    } else {
      assert volumes[..k] == volumes;
    }
  }

  /** One step of a scan over `volumes`. */
  lemma FiltersExtend(volumes: seq<Volume>, name: string, j: nat)
    requires j < |volumes|
    ensures var v := volumes[j];
            if v.name == name then
              && Without(volumes[..j + 1], name) == Without(volumes[..j], name)
              && Named(volumes[..j + 1], name) == Named(volumes[..j], name) + [v]
              && v in Named(volumes, name)
            else
              && Without(volumes[..j + 1], name) == Without(volumes[..j], name) + [v]
              && Named(volumes[..j + 1], name) == Named(volumes[..j], name)
  {
    var v := volumes[j];
    assert volumes[..j + 1] == volumes[..j] + [v];
    WithoutAppend(volumes[..j], v, name);
    NamedPrefix(volumes, name, j + 1);
    if v.name == name {
      assert v == Named(volumes[..j + 1], name)[|Named(volumes[..j], name)|];
    }
  }

  /** Boot orders do not decide which disk is the first CD-ROM. */
  lemma {:induction false} CdromIgnoresBootOrder(a: seq<Disk>, b: seq<Disk>)
    requires |a| == |b|
    requires forall i :: 0 <= i < |a| ==> a[i].name == b[i].name && a[i].cdrom == b[i].cdrom
    ensures FirstCdrom(a) == FirstCdrom(b)
  {
    if a != [] {
      CdromIgnoresBootOrder(a[1..], b[1..]);
    }
  }

  lemma {:induction false} FirstCdromAt(disks: seq<Disk>, i: nat)
    requires i < |disks| && disks[i].cdrom
    requires forall j :: 0 <= j < i ==> !disks[j].cdrom
    ensures FirstCdrom(disks) == Some(disks[i].name)
  {
    if i > 0 {
      FirstCdromAt(disks[1..], i - 1);
    }
  }

  lemma {:induction false} NoCdrom(disks: seq<Disk>)
    ensures FirstCdrom(disks).None? <==> forall j :: 0 <= j < |disks| ==> !disks[j].cdrom
  {
    if disks != [] {
      NoCdrom(disks[1..]);
      assert !disks[0].cdrom ==> (forall j :: 0 <= j < |disks| ==> j == 0 || disks[j] == disks[1..][j - 1]);
      assert forall j :: 0 <= j < |disks| - 1 ==> disks[1..][j] == disks[j + 1];
    }
  }

  /** First match search over the disks of a fetched virtual machine. */
  method GetCdromDisk(disks: array?<Disk>) returns (name: Option<string>)
    ensures name == FirstCdrom(if disks == null then [] else disks[..])
  {
    if disks == null {
      return None;
    }
    for i := 0 to disks.Length
      invariant forall j :: 0 <= j < i ==> !disks[j].cdrom
    {
      if disks[i].cdrom {
        FirstCdromAt(disks[..], i);
        return Some(disks[i].name);
      }
    }
    NoCdrom(disks[..]);
    return None;
  }

  lemma PrefixExtends(cells: seq<Volume>, k: nat, v: Volume)
    requires k < |cells|
    ensures cells[k := v][..k + 1] == cells[..k] + [v]
    ensures forall i :: k < i < |cells| ==> cells[k := v][i] == cells[i]
  {
  }

  predicate FromDataVolumes(volumes: seq<Volume>) {
    forall v :: v in volumes ==> v.source.DataVolumeSource?
  }

  /** In-place deletion from the first `n` cells of every volume called `name`.  Reports how
      many cells are kept and the data volume behind the last deleted volume, or that one
      of those volumes has no data volume source. */
  method DeleteFunc(a: array<Volume>, n: nat, name: string) returns (kept: nat, dvName: string, panicked: bool)
    requires n <= a.Length
    modifies a
    ensures panicked <==> exists v :: v in Named(old(a[..n]), name) && v.source.OtherSource?
    ensures !panicked ==> kept <= n && a[..kept] == Without(old(a[..n]), name)
    ensures !panicked ==> dvName == LastDataVolume(Named(old(a[..n]), name))
    ensures !panicked ==>
              var deleted := Named(old(a[..n]), name);
              if deleted == [] then dvName == ""
              else deleted[|deleted| - 1].source.DataVolumeSource? && dvName == deleted[|deleted| - 1].source.dvName
  {
    kept, dvName, panicked := 0, "", false;
    ghost var was := a[..n];
    for j := 0 to n
      invariant kept <= j
      invariant a[..kept] == Without(was[..j], name)
      invariant forall k :: j <= k < n ==> a[k] == was[k]
      invariant FromDataVolumes(Named(was[..j], name))
      invariant dvName == LastDataVolume(Named(was[..j], name))
    {
      var v := a[j];
      FiltersExtend(was, name, j);
      if v.name == name {
        if v.source.OtherSource? {
          return 0, "", true;
        }
        dvName := v.source.dvName;
      } else {
        ghost var cells := a[..];
        a[kept] := v;
        assert a[..] == cells[kept := v];
        PrefixExtends(cells, kept, v);
        kept := kept + 1;
      }
    }
    assert was[..n] == was;
  }

  /** A fetched copy.  The volume slice is the first `volumeCount` cells of `volumes`. */
  class FetchedVM {
    var running: Option<bool>
    var runStrategy: Option<string>
    var hasTemplate: bool
    var interfaces: array?<Interface>
    var disks: array?<Disk>
    var volumes: array<Volume>
    var volumeCount: nat
    const version: nat
    const ready: bool

    ghost predicate Valid()
      reads this
    {
      volumeCount <= volumes.Length
    }

    function Value(): VMSpec
      requires Valid()
      reads this, volumes, interfaces, disks
    {
      VMSpec(running, runStrategy,
             if !hasTemplate then None
             else Some(Template(if interfaces == null then None else Some(interfaces[..]),
                                if disks == null then None else Some(disks[..]),
                                volumes[..volumeCount])))
    }

    constructor (spec: VMSpec, version: nat, ready: bool)
      ensures Valid() && Value() == spec && this.version == version && this.ready == ready
      ensures hasTemplate == spec.template.Some?
      ensures fresh(volumes) && (interfaces != null ==> fresh(interfaces)) && (disks != null ==> fresh(disks))
    {
      this.version := version;
      this.ready := ready;
      running := spec.running;
      runStrategy := spec.runStrategy;
      hasTemplate := spec.template.Some?;
      var t := if spec.template.Some? then spec.template.value else Template(None, None, []);
      if t.interfaces.Some? {
        var s := t.interfaces.value;
        interfaces := new Interface[|s|](i requires 0 <= i < |s| => s[i]);
      } else {
        interfaces := null;
      }
      if t.disks.Some? {
        var s := t.disks.value;
        disks := new Disk[|s|](i requires 0 <= i < |s| => s[i]);
      } else {
        disks := null;
      }
      volumes := new Volume[|t.volumes|](i requires 0 <= i < |t.volumes| => t.volumes[i]);
      volumeCount := |t.volumes|;
      new;
      assert t.interfaces.Some? ==> interfaces[..] == t.interfaces.value;
      assert t.disks.Some? ==> disks[..] == t.disks.value;
      assert volumes[..volumeCount] == t.volumes;
    }

    /** The two clearing loops of SetBootDevice. */
    method ClearBootOrders()
      requires Valid() && hasTemplate
      modifies interfaces, disks
      ensures Valid()
      ensures Value() == old(Value()).(template := Some(old(Value()).template.value.(
                interfaces := if interfaces == null then None else Some(ClearInterfaces(old(interfaces[..]))),
                disks := if disks == null then None else Some(ClearDisks(old(disks[..]))))))
    {
      if interfaces != null {
        for i := 0 to interfaces.Length
          invariant forall j :: 0 <= j < i ==> interfaces[j] == old(interfaces[j]).(bootOrder := None)
          invariant forall j :: i <= j < interfaces.Length ==> interfaces[j] == old(interfaces[j])
          invariant disks != null ==> disks[..] == old(disks[..])
        {
          interfaces[i] := interfaces[i].(bootOrder := None);
        }
        assert interfaces[..] == ClearInterfaces(old(interfaces[..]));
      }
      if disks != null {
        for i := 0 to disks.Length
          invariant forall j :: 0 <= j < i ==> disks[j] == old(disks[j]).(bootOrder := None)
          invariant forall j :: i <= j < disks.Length ==> disks[j] == old(disks[j])
          invariant interfaces != null ==> interfaces[..] == ClearInterfaces(old(interfaces[..]))
        {
          disks[i] := disks[i].(bootOrder := None);
        }
        assert disks[..] == ClearDisks(old(disks[..]));
      }
    }

    /** Deletes the volumes called `name`; see DeleteFunc. */
    method DeleteVolumes(name: string) returns (dvName: string, panicked: bool)
      requires Valid() && hasTemplate
      modifies this`volumeCount, volumes
      ensures Valid()
      ensures panicked <==> exists v :: v in Named(old(volumes[..volumeCount]), name) && v.source.OtherSource?
      ensures !panicked ==> dvName == LastDataVolume(Named(old(volumes[..volumeCount]), name))
      ensures !panicked ==> Value() == old(Value()).(template := Some(old(Value()).template.value.(
                volumes := Without(old(volumes[..volumeCount]), name))))
    {
      var kept;
      kept, dvName, panicked := DeleteFunc(volumes, volumeCount, name);
      if !panicked {
        volumeCount := kept;
      }
    }

    method AppendVolume(v: Volume)
      requires Valid() && hasTemplate
      modifies this`volumeCount, this`volumes
      ensures Valid()
      ensures Value() == old(Value()).(template := Some(old(Value()).template.value.(
                volumes := old(volumes[..volumeCount]) + [v])))
    {
      var n := volumeCount;
      var grown := new Volume[n + 1](i requires 0 <= i <= n && n <= volumes.Length reads this, volumes =>
        if i < n then volumes[i] else v);
      volumes := grown;
      volumeCount := n + 1;
      assert volumes[..n + 1] == old(volumes[..volumeCount]) + [v];
    }
  }

  /** The data volume behind the last of `volumes`, or the empty string. */
  function LastDataVolume(volumes: seq<Volume>): string {
    if volumes == [] then ""
    else var s := volumes[|volumes| - 1].source;
      if s.DataVolumeSource? then s.dvName else ""
  }
}
