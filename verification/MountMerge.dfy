/** The mount list of a launch (build_launch_config): registry overrides applied pass
  * by pass to the bundle's mounts, against a keyed override by destination.
  */
module MountMerge {
  import opened TextLines
  import opened Wrappers

  datatype Mount = Mount(dest: Option<string>, source: string, kind: string, options: seq<string>)

  /** The mount-related overrides of a registry entry as launch sees them: resolv and
    * cgroup hold the bind source if there is one to bind, dirs the listed devices
    * that are directories.
    */
  datatype Overrides = Overrides(
    resolv: Option<string>, volumes: seq<string>, tmpfs: seq<string>, shmSize: string,
    cgroup: Option<string>, devices: seq<string>, dirs: set<string>)

  const RESOLV_CONF := "/etc/resolv.conf"
  const CGROUP_VIEW := "/sys/fs/cgroup"

  // ---- what the entries say ----------------------------------------------------------

  /** src:dst[:ro]; an entry without a colon is skipped. */
  function Volume(v: string): Option<Mount> {
    var a := Find(v, ':');
    if a == |v| then None
    else
      var rest := v[a + 1..];
      var b := Find(rest, ':');
      var ro := b < |rest| && rest[b + 1..] == "ro";
      Some(Mount(Some(rest[..b]), v[..a], "bind", ["bind", if ro then "ro" else "rw"]))
  }

  /** dest[:size]; an entry without a destination is skipped. */
  function Tmpfs(t: string): Option<Mount> {
    var a := Find(t, ':');
    var size := if a == |t| then "" else t[a + 1..];
    if a == 0 then None
    else Some(Mount(Some(t[..a]), "tmpfs", "tmpfs", ["nosuid", "nodev"] + if size == "" then [] else ["size=" + size]))
  }

  function TmpfsEntries(o: Overrides): seq<string> {
    o.tmpfs + if o.shmSize == "" then [] else ["/dev/shm:" + o.shmSize]
  }

  function Resolver(source: string): Mount {
    Mount(Some(RESOLV_CONF), source, "bind", ["bind", "ro"])
  }

  function CgroupBind(source: string): Mount {
    Mount(Some(CGROUP_VIEW), source, "bind", ["rbind", "ro", "nosuid", "noexec", "nodev"])
  }

  function DeviceDir(d: string): Mount {
    Mount(Some(d), d, "bind", ["rbind"])
  }

  // ---- edits ------------------------------------------------------------------------

  /** Put replaces whatever is at its destination, Append does not look. */
  datatype Edit = Put(mount: Mount) | Append(mount: Mount) | Drop(dest: string)

  predicate Removes(e: Edit, m: Mount) {
    match e
    case Put(p) => m.dest != None && m.dest == p.dest
    case Append(_) => false
    case Drop(d) => d == if m.dest == None then "" else m.dest.value
  }

  function Without(ms: seq<Mount>, e: Edit): seq<Mount> {
    if ms == [] then [] else (if Removes(e, ms[0]) then [] else [ms[0]]) + Without(ms[1..], e)
  }

  function Added(e: Edit): seq<Mount> {
    if e.Drop? then [] else [e.mount]
  }

  function Apply(ms: seq<Mount>, e: Edit): seq<Mount> {
    Without(ms, e) + Added(e)
  }

  function ApplyAll(ms: seq<Mount>, es: seq<Edit>): seq<Mount>
    decreases es
  {
    if es == [] then ms else ApplyAll(Apply(ms, es[0]), es[1..])
  }

  function Puts(entries: seq<string>, parse: string -> Option<Mount>): seq<Edit> {
    if entries == [] then []
    else (match parse(entries[0]) case None => [] case Some(m) => [Put(m)]) + Puts(entries[1..], parse)
  }

  function Drops(devices: seq<string>): seq<Edit> {
    seq(|devices|, i requires 0 <= i < |devices| => Drop(devices[i]))
  }

  function DeviceBinds(devices: seq<string>, dirs: set<string>): seq<Edit> {
    if devices == [] then []
    else (if devices[0] in dirs then [Append(DeviceDir(devices[0]))] else []) + DeviceBinds(devices[1..], dirs)
  }

  /** All passes in the order launch makes them. */
  function Edits(o: Overrides): seq<Edit> {
    (match o.resolv case None => [] case Some(src) => [Append(Resolver(src))])
    + Puts(o.volumes, Volume)
    + Puts(TmpfsEntries(o), Tmpfs)
    + (match o.cgroup case None => [] case Some(src) => [Put(CgroupBind(src))])
    + Drops(o.devices)
    + DeviceBinds(o.devices, o.dirs)
  }

  function Merge(bundle: seq<Mount>, o: Overrides): seq<Mount> {
    ApplyAll(bundle, Edits(o))
  }

  lemma ApplyOne(ms: seq<Mount>, e: Edit)
    ensures ApplyAll(ms, [e]) == Apply(ms, e)
  {
    assert [e][1..] == [];
  }

  lemma {:induction false} ApplyAllConcat(ms: seq<Mount>, es: seq<Edit>, fs: seq<Edit>)
    ensures ApplyAll(ms, es + fs) == ApplyAll(ApplyAll(ms, es), fs)
    decreases es
  {
    if es == [] {
      assert es + fs == fs;
    } else {
      assert (es + fs)[1..] == es[1..] + fs;
      ApplyAllConcat(Apply(ms, es[0]), es[1..], fs);
    }
  }

  // ---- the merge in closed form -------------------------------------------------------

  predicate Removed(es: seq<Edit>, m: Mount) {
    exists i | 0 <= i < |es| :: Removes(es[i], m)
  }

  /** The mounts no edit removes, in their order. */
  function Kept(ms: seq<Mount>, es: seq<Edit>): seq<Mount> {
    if ms == [] then [] else (if Removed(es, ms[0]) then [] else [ms[0]]) + Kept(ms[1..], es)
  }

  /** The mounts edits add and no later edit removes, in the order of the edits. */
  function Survivors(es: seq<Edit>): seq<Mount> {
    if es == [] then []
    else Kept(Added(es[0]), es[1..]) + Survivors(es[1..])
  }

  lemma {:induction false} KeptConcat(ms: seq<Mount>, ns: seq<Mount>, es: seq<Edit>)
    ensures Kept(ms + ns, es) == Kept(ms, es) + Kept(ns, es)
    decreases ms
  {
    if ms == [] {
      assert ms + ns == ns;
    } else {
      assert (ms + ns)[1..] == ms[1..] + ns;
      KeptConcat(ms[1..], ns, es);
    }
  }

  lemma RemovedCons(es: seq<Edit>, m: Mount)
    requires es != []
    ensures Removed(es, m) <==> Removes(es[0], m) || Removed(es[1..], m)
  {
    if Removed(es[1..], m) {
      var i :| 0 <= i < |es[1..]| && Removes(es[1..][i], m);
      assert Removes(es[i + 1], m);
    }
    if Removed(es, m) && !Removes(es[0], m) {
      var i :| 0 <= i < |es| && Removes(es[i], m);
      assert es[1..][i - 1] == es[i];
    }
  }

  lemma {:induction false} KeptWithout(ms: seq<Mount>, es: seq<Edit>)
    requires es != []
    ensures Kept(Without(ms, es[0]), es[1..]) == Kept(ms, es)
    decreases ms
  {
    if ms != [] {
      RemovedCons(es, ms[0]);
      KeptWithout(ms[1..], es);
      KeptConcat(if Removes(es[0], ms[0]) then [] else [ms[0]], Without(ms[1..], es[0]), es[1..]);
    }
  }

  lemma {:induction false} KeptNothing(ms: seq<Mount>)
    ensures Kept(ms, []) == ms
  {
    if ms != [] { KeptNothing(ms[1..]); }
  }

  /** Filtering and appending edit by edit yields the untouched mounts in their order,
    * followed by what the edits added and none of them took away again.
    */
  lemma {:induction false} PassesAreOverride(ms: seq<Mount>, es: seq<Edit>)
    ensures ApplyAll(ms, es) == Kept(ms, es) + Survivors(es)
    decreases es
  {
    if es == [] {
      KeptNothing(ms);
    } else {
      var ns, added, rest := Without(ms, es[0]), Added(es[0]), es[1..];
      calc {
        ApplyAll(ms, es);
        ApplyAll(ns + added, rest);
        { PassesAreOverride(ns + added, rest); }
        Kept(ns + added, rest) + Survivors(rest);
        { KeptConcat(ns, added, rest); }
        (Kept(ns, rest) + Kept(added, rest)) + Survivors(rest);
        { KeptWithout(ms, es); }
        (Kept(ms, es) + Kept(added, rest)) + Survivors(rest);
        Kept(ms, es) + (Kept(added, rest) + Survivors(rest));
      }
    }
  }

  // ---- the merge by destination ---------------------------------------------------------

  /** The mounts at a destination. */
  function At(ms: seq<Mount>, d: string): seq<Mount> {
    if ms == [] then [] else (if ms[0].dest == Some(d) then [ms[0]] else []) + At(ms[1..], d)
  }

  lemma {:induction false} AtConcat(ms: seq<Mount>, ns: seq<Mount>, d: string)
    ensures At(ms + ns, d) == At(ms, d) + At(ns, d)
    decreases ms
  {
    if ms == [] {
      assert ms + ns == ns;
    } else {
      var head := if ms[0].dest == Some(d) then [ms[0]] else [];
      calc {
        At(ms + ns, d);
        { assert (ms + ns)[1..] == ms[1..] + ns; }
        head + At(ms[1..] + ns, d);
        { AtConcat(ms[1..], ns, d); }
        head + (At(ms[1..], d) + At(ns, d));
        (head + At(ms[1..], d)) + At(ns, d);
      }
    }
  }

  predicate RemovesAt(e: Edit, d: string) {
    (e.Put? && e.mount.dest == Some(d)) || (e.Drop? && e.dest == d)
  }

  lemma {:induction false} AtWithout(ms: seq<Mount>, e: Edit, d: string)
    ensures At(Without(ms, e), d) == if RemovesAt(e, d) then [] else At(ms, d)
    decreases ms
  {
    if ms != [] {
      AtWithout(ms[1..], e, d);
      AtConcat(if Removes(e, ms[0]) then [] else [ms[0]], Without(ms[1..], e), d);
    }
  }

  /** The last mount that some entries put at a destination. */
  function LastAt(entries: seq<string>, parse: string -> Option<Mount>, d: string): Option<Mount> {
    if entries == [] then None
    else
      var later := LastAt(entries[1..], parse, d);
      if later != None then later
      else match parse(entries[0])
        case None => None
        case Some(m) => if m.dest == Some(d) then Some(m) else None
  }

  lemma {:induction false} PutsAt(ms: seq<Mount>, entries: seq<string>, parse: string -> Option<Mount>, d: string)
    ensures At(ApplyAll(ms, Puts(entries, parse)), d) ==
      match LastAt(entries, parse, d) case None => At(ms, d) case Some(m) => [m]
    decreases entries
  {
    if entries != [] {
      var head := match parse(entries[0]) case None => [] case Some(m) => [Put(m)];
      ApplyAllConcat(ms, head, Puts(entries[1..], parse));
      PutsAt(ApplyAll(ms, head), entries[1..], parse, d);
      if parse(entries[0]) != None {
        var m := parse(entries[0]).value;
        ApplyOne(ms, Put(m));
        AtWithout(ms, Put(m), d);
        AtConcat(Without(ms, Put(m)), [m], d);
      }
    }
  }

  lemma {:induction false} DropsAt(ms: seq<Mount>, devices: seq<string>, d: string)
    ensures At(ApplyAll(ms, Drops(devices)), d) == if d in devices then [] else At(ms, d)
    decreases devices
  {
    if devices != [] {
      var e := Drop(devices[0]);
      assert Drops(devices)[1..] == Drops(devices[1..]);
      assert Apply(ms, e) == Without(ms, e);
      AtWithout(ms, e, d);
      DropsAt(Without(ms, e), devices[1..], d);
    }
  }

  /** One copy of a mount per time a device directory is listed. */
  function Copies(devices: seq<string>, dirs: set<string>, d: string): seq<Mount> {
    if devices == [] then []
    else (if devices[0] == d && d in dirs then [DeviceDir(d)] else []) + Copies(devices[1..], dirs, d)
  }

  lemma {:induction false} BindsAt(ms: seq<Mount>, devices: seq<string>, dirs: set<string>, d: string)
    ensures At(ApplyAll(ms, DeviceBinds(devices, dirs)), d) == At(ms, d) + Copies(devices, dirs, d)
    decreases devices
  {
    if devices != [] {
      var head := if devices[0] in dirs then [Append(DeviceDir(devices[0]))] else [];
      ApplyAllConcat(ms, head, DeviceBinds(devices[1..], dirs));
      BindsAt(ApplyAll(ms, head), devices[1..], dirs, d);
      if devices[0] in dirs {
        var m := DeviceDir(devices[0]);
        ApplyOne(ms, Append(m));
        AtWithout(ms, Append(m), d);
        AtConcat(Without(ms, Append(m)), [m], d);
      }
    }
  }

  /** What the overrides say about a destination, the last pass first. */
  datatype Ruling = Untouched | Is(mount: Mount) | Device

  function Rule(o: Overrides, d: string): Ruling {
    var tmpfs := LastAt(TmpfsEntries(o), Tmpfs, d);
    var volume := LastAt(o.volumes, Volume, d);
    if d in o.devices then Device
    else if o.cgroup != None && d == CGROUP_VIEW then Is(CgroupBind(o.cgroup.value))
    else if tmpfs != None then Is(tmpfs.value)
    else if volume != None then Is(volume.value)
    else Untouched
  }

  /** The bundle's mounts at a destination, and the infra resolver's after them. */
  function Base(bundle: seq<Mount>, o: Overrides, d: string): seq<Mount> {
    At(bundle, d) + if o.resolv != None && d == RESOLV_CONF then [Resolver(o.resolv.value)] else []
  }

  function AfterPuts(bundle: seq<Mount>, o: Overrides): seq<Mount> {
    var resolver := match o.resolv case None => [] case Some(src) => [Append(Resolver(src))];
    ApplyAll(ApplyAll(ApplyAll(bundle, resolver), Puts(o.volumes, Volume)), Puts(TmpfsEntries(o), Tmpfs))
  }

  lemma ResolverAt(bundle: seq<Mount>, o: Overrides, d: string)
    ensures At(ApplyAll(bundle, match o.resolv case None => [] case Some(src) => [Append(Resolver(src))]), d) == Base(bundle, o, d)
  {
    if o.resolv != None {
      var e := Append(Resolver(o.resolv.value));
      ApplyOne(bundle, e);
      AtWithout(bundle, e, d);
      AtConcat(Without(bundle, e), [e.mount], d);
    }
  }

  lemma AfterPutsAt(bundle: seq<Mount>, o: Overrides, d: string)
    ensures At(AfterPuts(bundle, o), d) ==
      match LastAt(TmpfsEntries(o), Tmpfs, d)
      case Some(t) => [t]
      case None => match LastAt(o.volumes, Volume, d) case Some(v) => [v] case None => Base(bundle, o, d)
  {
    var ms := ApplyAll(bundle, match o.resolv case None => [] case Some(src) => [Append(Resolver(src))]);
    ResolverAt(bundle, o, d);
    PutsAt(ms, o.volumes, Volume, d);
    PutsAt(ApplyAll(ms, Puts(o.volumes, Volume)), TmpfsEntries(o), Tmpfs, d);
  }

  /** The passes in groups. */
  lemma MergeInPasses(bundle: seq<Mount>, o: Overrides)
    ensures var cgroup := match o.cgroup case None => [] case Some(src) => [Put(CgroupBind(src))];
      Merge(bundle, o) ==
        ApplyAll(ApplyAll(ApplyAll(AfterPuts(bundle, o), cgroup), Drops(o.devices)), DeviceBinds(o.devices, o.dirs))
  {
    var resolver := match o.resolv case None => [] case Some(src) => [Append(Resolver(src))];
    var volumes := Puts(o.volumes, Volume);
    var tmpfs := Puts(TmpfsEntries(o), Tmpfs);
    var cgroup := match o.cgroup case None => [] case Some(src) => [Put(CgroupBind(src))];
    var drops := Drops(o.devices);
    ApplyAllConcat(bundle, resolver, volumes);
    ApplyAllConcat(bundle, resolver + volumes, tmpfs);
    ApplyAllConcat(bundle, resolver + volumes + tmpfs, cgroup);
    ApplyAllConcat(bundle, resolver + volumes + tmpfs + cgroup, drops);
    ApplyAllConcat(bundle, resolver + volumes + tmpfs + cgroup + drops, DeviceBinds(o.devices, o.dirs));
  }

  /** At every destination the last pass that names it decides: a listed device leaves
    * only its directory bind, once per listing, or nothing; else the cgroup view, the
    * last tmpfs or the last volume entry is the one mount there; and where no pass
    * names it the bundle's mounts stay.
    */
  lemma LastPassWins(bundle: seq<Mount>, o: Overrides, d: string)
    ensures At(Merge(bundle, o), d) ==
      match Rule(o, d)
      case Untouched => Base(bundle, o, d)
      case Is(m) => [m]
      case Device => Copies(o.devices, o.dirs, d)
  {
    var ms := AfterCgroup(bundle, o);
    MergeInPasses(bundle, o);
    AfterCgroupAt(bundle, o, d);
    AfterPutsAt(bundle, o, d);
    DropsAt(ms, o.devices, d);
    BindsAt(ApplyAll(ms, Drops(o.devices)), o.devices, o.dirs, d);
    NoCopies(o.devices, o.dirs, d);
  }

  function AfterCgroup(bundle: seq<Mount>, o: Overrides): seq<Mount> {
    ApplyAll(AfterPuts(bundle, o), match o.cgroup case None => [] case Some(src) => [Put(CgroupBind(src))])
  }

  lemma AfterCgroupAt(bundle: seq<Mount>, o: Overrides, d: string)
    ensures At(AfterCgroup(bundle, o), d) ==
      if o.cgroup != None && d == CGROUP_VIEW then [CgroupBind(o.cgroup.value)] else At(AfterPuts(bundle, o), d)
  {
    var ms := AfterPuts(bundle, o);
    if o.cgroup != None {
      var e := Put(CgroupBind(o.cgroup.value));
      ApplyOne(ms, e);
      AtWithout(ms, e, d);
      AtConcat(Without(ms, e), [e.mount], d);
    }
  }

  lemma {:induction false} NoCopies(devices: seq<string>, dirs: set<string>, d: string)
    ensures d !in devices ==> Copies(devices, dirs, d) == []
  {
    if devices != [] { NoCopies(devices[1..], dirs, d); }
  }

  // ---- distinct destinations --------------------------------------------------------------

  /** No two mounts share a destination: what ujail asks of an OCI spec. */
  predicate Distinct(ms: seq<Mount>) {
    forall i, j | 0 <= i < j < |ms| :: ms[i].dest == ms[j].dest ==> ms[i].dest == None
  }

  lemma {:induction false} InAt(ms: seq<Mount>, i: nat, d: string)
    requires i < |ms| && ms[i].dest == Some(d)
    ensures |At(ms, d)| >= 1
  {
    if i > 0 { InAt(ms[1..], i - 1, d); }
  }

  lemma {:induction false} AtOnce(ms: seq<Mount>, d: string)
    requires Distinct(ms)
    ensures |At(ms, d)| <= 1
  {
    if ms != [] {
      AtOnce(ms[1..], d);
      if ms[0].dest == Some(d) && At(ms[1..], d) != [] {
        var i := WitnessAt(ms[1..], d);
      }
    }
  }

  lemma {:induction false} WitnessAt(ms: seq<Mount>, d: string) returns (i: nat)
    requires At(ms, d) != []
    ensures i < |ms| && ms[i].dest == Some(d)
  {
    if ms[0].dest == Some(d) {
      i := 0;
    } else {
      i := WitnessAt(ms[1..], d);
      i := i + 1;
    }
  }

  lemma {:induction false} TwiceAt(ms: seq<Mount>, i: nat, j: nat, d: string)
    requires i < j < |ms| && ms[i].dest == Some(d) && ms[j].dest == Some(d)
    ensures |At(ms, d)| >= 2
  {
    if i == 0 {
      InAt(ms[1..], j - 1, d);
    } else {
      TwiceAt(ms[1..], i - 1, j - 1, d);
    }
  }

  ghost predicate OneEach(ms: seq<Mount>) {
    forall d :: |At(ms, d)| <= 1
  }

  lemma DistinctIsOneEach(ms: seq<Mount>)
    ensures Distinct(ms) <==> OneEach(ms)
  {
    if Distinct(ms) {
      forall d ensures |At(ms, d)| <= 1 { AtOnce(ms, d); }
    }
    if OneEach(ms) {
      forall i, j | 0 <= i < j < |ms| && ms[i].dest == ms[j].dest ensures ms[i].dest == None {
        if ms[i].dest != None { TwiceAt(ms, i, j, ms[i].dest.value); }
      }
    }
  }

  /** Untouched destinations are taken once, with the resolver counted. */
  ghost predicate BaseDistinct(bundle: seq<Mount>, o: Overrides) {
    forall d :: Rule(o, d).Untouched? ==> |Base(bundle, o, d)| <= 1
  }

  /** No device directory is listed twice. */
  ghost predicate DirsOnce(o: Overrides) {
    forall i, j | 0 <= i < j < |o.devices| :: o.devices[i] in o.dirs ==> o.devices[i] != o.devices[j]
  }

  lemma {:induction false} CopiesOnce(devices: seq<string>, dirs: set<string>, d: string)
    requires forall i, j | 0 <= i < j < |devices| :: devices[i] in dirs ==> devices[i] != devices[j]
    ensures |Copies(devices, dirs, d)| <= 1
  {
    if devices != [] {
      CopiesOnce(devices[1..], dirs, d);
      NoCopies(devices[1..], dirs, d);
    }
  }

  lemma {:induction false} SomeCopy(devices: seq<string>, dirs: set<string>, i: nat)
    requires i < |devices| && devices[i] in dirs
    ensures |Copies(devices, dirs, devices[i])| >= 1
  {
    if i > 0 { SomeCopy(devices[1..], dirs, i - 1); }
  }

  lemma {:induction false} TwoCopies(devices: seq<string>, dirs: set<string>, i: nat, j: nat)
    requires i < j < |devices| && devices[i] in dirs && devices[i] == devices[j]
    ensures |Copies(devices, dirs, devices[i])| >= 2
  {
    if i == 0 {
      SomeCopy(devices[1..], dirs, j - 1);
    } else {
      TwoCopies(devices[1..], dirs, i - 1, j - 1);
    }
  }

  /** The merged destinations are pairwise distinct if and only if the untouched ones
    * are, with the infra resolver among them, and no device directory is listed twice.
    */
  lemma MergeDistinct(bundle: seq<Mount>, o: Overrides)
    ensures Distinct(Merge(bundle, o)) <==> BaseDistinct(bundle, o) && DirsOnce(o)
  {
    var merged := Merge(bundle, o);
    DistinctIsOneEach(merged);
    if OneEach(merged) {
      forall d ensures Rule(o, d).Untouched? ==> |Base(bundle, o, d)| <= 1 {
        LastPassWins(bundle, o, d);
        assert |At(merged, d)| <= 1;
      }
      forall i, j | 0 <= i < j < |o.devices| && o.devices[i] in o.dirs ensures o.devices[i] != o.devices[j] {
        if o.devices[i] == o.devices[j] {
          assert |At(merged, o.devices[i])| <= 1;
          LastPassWins(bundle, o, o.devices[i]);
          TwoCopies(o.devices, o.dirs, i, j);
        }
      }
    }
    if BaseDistinct(bundle, o) && DirsOnce(o) {
      forall d ensures |At(merged, d)| <= 1 {
        LastPassWins(bundle, o, d);
        CopiesOnce(o.devices, o.dirs, d);
        assert Rule(o, d).Untouched? ==> |Base(bundle, o, d)| <= 1;
      }
    }
  }

  /** In particular for a bundle whose own destinations are distinct: all that can go
    * wrong is a resolver beside the bundle's own resolv.conf mount, or a device
    * directory listed twice.
    */
  lemma DistinctBundleMerges(bundle: seq<Mount>, o: Overrides)
    requires Distinct(bundle)
    ensures Distinct(Merge(bundle, o)) <==>
      DirsOnce(o) && !(o.resolv != None && Rule(o, RESOLV_CONF).Untouched? && At(bundle, RESOLV_CONF) != [])
  {
    MergeDistinct(bundle, o);
    forall d ensures |At(bundle, d)| <= 1 { AtOnce(bundle, d); }
    if BaseDistinct(bundle, o) { assert Rule(o, RESOLV_CONF).Untouched? ==> |Base(bundle, o, RESOLV_CONF)| <= 1; }
  }

  /** Both can happen. */
  lemma DistinctCanFail()
    ensures !Distinct(Merge([], Overrides(None, [], [], "", None, ["/dev/dri", "/dev/dri"], {"/dev/dri"})))
    ensures !Distinct(Merge([Mount(Some(RESOLV_CONF), "/srv/resolv.conf", "bind", [])],
                            Overrides(Some("/etc/netns/lan/resolv.conf"), [], [], "", None, [], {})))
  {
    var o := Overrides(None, [], [], "", None, ["/dev/dri", "/dev/dri"], {"/dev/dri"});
    DistinctBundleMerges([], o);
    assert o.devices[0] == o.devices[1];
    var bundle := [Mount(Some(RESOLV_CONF), "/srv/resolv.conf", "bind", [])];
    DistinctBundleMerges(bundle, Overrides(Some("/etc/netns/lan/resolv.conf"), [], [], "", None, [], {}));
    assert At(bundle, RESOLV_CONF) == bundle;
  }

  // ---- as launch does it -------------------------------------------------------------------

  /** The OCI config of the shadow bundle, as far as its mounts go. */
  class LaunchConfig {
    var mounts: seq<Mount>

    constructor (bundle: seq<Mount>)
      ensures mounts == bundle
    {
      mounts := bundle;
    }

    method DropAt(dest: string, ghost m: Mount)
      requires m.dest == Some(dest)
      modifies this
      ensures mounts == Without(old(mounts), Put(m))
    {
      var kept: seq<Mount> := [];
      var i := 0;
      while i < |mounts|
        invariant 0 <= i <= |mounts| && mounts == old(mounts)
        invariant kept + Without(mounts[i..], Put(m)) == Without(mounts, Put(m))
      {
        WithoutTaken(kept, mounts, i, Put(m));
        if mounts[i].dest != Some(dest) {
          kept := kept + [mounts[i]];
        }
        i := i + 1;
      }
      mounts := kept;
    }

    method AddResolver(source: string)
      modifies this
      ensures mounts == ApplyAll(old(mounts), [Append(Resolver(source))])
    {
      WithoutAppend(mounts, Resolver(source));
      ApplyOne(mounts, Append(Resolver(source)));
      mounts := mounts + [Mount(Some(RESOLV_CONF), source, "bind", ["bind", "ro"])];
    }

    static method ParseVolume(v: string) returns (m: Option<Mount>)
      ensures m == Volume(v)
    {
      var a := Find(v, ':');
      if a == |v| { return None; }
      var src, rest := v[..a], v[a + 1..];
      var b := Find(rest, ':');
      var dst := if b == |rest| then rest else rest[..b];
      var opt := if b == |rest| then "" else rest[b + 1..];
      assert rest[..|rest|] == rest;
      return Some(Mount(Some(dst), src, "bind", ["bind", if opt == "ro" then "ro" else "rw"]));
    }

    static method ParseTmpfs(t: string) returns (m: Option<Mount>)
      ensures m == Tmpfs(t)
    {
      var a := Find(t, ':');
      var dest := if a == |t| then t else t[..a];
      var size := if a == |t| then "" else t[a + 1..];
      if dest == "" { return None; }
      assert t[..|t|] == t;
      if size == "" {
        assert ["nosuid", "nodev"] + [] == ["nosuid", "nodev"];
        return Some(Mount(Some(dest), "tmpfs", "tmpfs", ["nosuid", "nodev"]));
      }
      return Some(Mount(Some(dest), "tmpfs", "tmpfs", ["nosuid", "nodev"] + ["size=" + size]));
    }

    method AddVolumes(volumes: seq<string>)
      modifies this
      ensures mounts == ApplyAll(old(mounts), Puts(volumes, Volume))
    {
      var i := 0;
      while i < |volumes|
        invariant 0 <= i <= |volumes|
        invariant ApplyAll(mounts, Puts(volumes[i..], Volume)) == ApplyAll(old(mounts), Puts(volumes, Volume))
      {
        var v := volumes[i];
        ghost var before := mounts;
        PutsStep(mounts, volumes[i..], Volume);
        i := i + 1;
        var m := ParseVolume(v);
        if m == None { continue; }
        DropAt(m.value.dest.value, m.value);
        mounts := mounts + [m.value];
        assert mounts == Apply(before, Put(m.value));
      }
    }

    method AddTmpfs(tmpfs: seq<string>)
      modifies this
      ensures mounts == ApplyAll(old(mounts), Puts(tmpfs, Tmpfs))
    {
      var i := 0;
      while i < |tmpfs|
        invariant 0 <= i <= |tmpfs|
        invariant ApplyAll(mounts, Puts(tmpfs[i..], Tmpfs)) == ApplyAll(old(mounts), Puts(tmpfs, Tmpfs))
      {
        var t := tmpfs[i];
        ghost var before := mounts;
        PutsStep(mounts, tmpfs[i..], Tmpfs);
        i := i + 1;
        var m := ParseTmpfs(t);
        if m == None { continue; }
        DropAt(m.value.dest.value, m.value);
        mounts := mounts + [m.value];
        assert mounts == Apply(before, Put(m.value));
      }
    }

    method AddCgroupView(source: string)
      modifies this
      ensures mounts == ApplyAll(old(mounts), [Put(CgroupBind(source))])
    {
      var m := Mount(Some(CGROUP_VIEW), source, "bind", ["rbind", "ro", "nosuid", "noexec", "nodev"]);
      ApplyOne(mounts, Put(m));
      DropAt(CGROUP_VIEW, m);
      mounts := mounts + [m];
    }

    method Clashes(m: Mount, devices: seq<string>) returns (clash: bool)
      ensures clash <==> Removed(Drops(devices), m)
    {
      var dest := if m.dest == None then "" else m.dest.value;
      var j := 0;
      while j < |devices|
        invariant 0 <= j <= |devices|
        invariant forall k | 0 <= k < j :: dest != devices[k]
      {
        if dest == devices[j] {
          assert Removes(Drops(devices)[j], m);
          return true;
        }
        j := j + 1;
      }
      return false;
    }

    /** The bundle's mounts at listed devices go, all in one scan. */
    method DropDevices(devices: seq<string>)
      modifies this
      ensures mounts == ApplyAll(old(mounts), Drops(devices))
    {
      var kept: seq<Mount> := [];
      var i := 0;
      while i < |mounts|
        invariant 0 <= i <= |mounts| && mounts == old(mounts)
        invariant kept + Kept(mounts[i..], Drops(devices)) == Kept(mounts, Drops(devices))
      {
        var clash := Clashes(mounts[i], devices);
        KeptTaken(kept, mounts, i, Drops(devices));
        if !clash {
          kept := kept + [mounts[i]];
        }
        i := i + 1;
      }
      PassesAreOverride(mounts, Drops(devices));
      DropsAddNothing(devices);
      mounts := kept;
    }

    method BindDirectories(devices: seq<string>, dirs: set<string>)
      modifies this
      ensures mounts == ApplyAll(old(mounts), DeviceBinds(devices, dirs))
    {
      var i := 0;
      while i < |devices|
        invariant 0 <= i <= |devices|
        invariant ApplyAll(mounts, DeviceBinds(devices[i..], dirs)) == ApplyAll(old(mounts), DeviceBinds(devices, dirs))
      {
        var d := devices[i];
        BindsStep(mounts, devices, i, dirs);
        if d in dirs {
          WithoutAppend(mounts, DeviceDir(d));
          mounts := mounts + [Mount(Some(d), d, "bind", ["rbind"])];
        }
        i := i + 1;
      }
    }

    method AddDevices(devices: seq<string>, dirs: set<string>)
      modifies this
      ensures mounts == ApplyAll(old(mounts), Drops(devices) + DeviceBinds(devices, dirs))
    {
      ApplyAllConcat(mounts, Drops(devices), DeviceBinds(devices, dirs));
      DropDevices(devices);
      BindDirectories(devices, dirs);
    }

    /** The mount passes of build_launch_config. */
    method Build(o: Overrides)
      modifies this
      ensures mounts == Merge(old(mounts), o)
    {
      MergeInPasses(mounts, o);
      if o.resolv != None { AddResolver(o.resolv.value); }
      AddVolumes(o.volumes);
      var tm := o.tmpfs;
      if o.shmSize != "" { tm := tm + ["/dev/shm:" + o.shmSize]; }
      assert tm == TmpfsEntries(o);
      AddTmpfs(tm);
      if o.cgroup != None { AddCgroupView(o.cgroup.value); }
      ApplyAllConcat(mounts, Drops(o.devices), DeviceBinds(o.devices, o.dirs));
      AddDevices(o.devices, o.dirs);
    }
  }

  lemma {:induction false} WithoutAppend(ms: seq<Mount>, m: Mount)
    ensures Without(ms, Append(m)) == ms
  {
    if ms != [] { WithoutAppend(ms[1..], m); }
  }

  lemma PutsStep(ms: seq<Mount>, entries: seq<string>, parse: string -> Option<Mount>)
    requires entries != []
    ensures ApplyAll(ms, Puts(entries, parse)) ==
      ApplyAll(match parse(entries[0]) case None => ms case Some(m) => Apply(ms, Put(m)), Puts(entries[1..], parse))
  {
    if parse(entries[0]) == None {
      assert Puts(entries, parse) == Puts(entries[1..], parse);
    } else {
      var m := parse(entries[0]).value;
      assert Puts(entries, parse) == [Put(m)] + Puts(entries[1..], parse);
      assert Puts(entries, parse)[1..] == Puts(entries[1..], parse);
    }
  }

  lemma BindsStep(ms: seq<Mount>, devices: seq<string>, i: nat, dirs: set<string>)
    requires i < |devices|
    ensures var rest := DeviceBinds(devices[i + 1..], dirs);
      ApplyAll(ms, DeviceBinds(devices[i..], dirs)) ==
        if devices[i] in dirs then ApplyAll(Apply(ms, Append(DeviceDir(devices[i]))), rest) else ApplyAll(ms, rest)
  {
    var rest := DeviceBinds(devices[i + 1..], dirs);
    assert devices[i..][1..] == devices[i + 1..];
    if devices[i] in dirs {
      assert DeviceBinds(devices[i..], dirs) == [Append(DeviceDir(devices[i]))] + rest;
      assert DeviceBinds(devices[i..], dirs)[1..] == rest;
    } else {
      assert DeviceBinds(devices[i..], dirs) == rest;
    }
  }

  lemma WithoutTaken(kept: seq<Mount>, ms: seq<Mount>, i: nat, e: Edit)
    requires i < |ms|
    ensures kept + Without(ms[i..], e) == (if Removes(e, ms[i]) then kept else kept + [ms[i]]) + Without(ms[i + 1..], e)
  {
    assert ms[i..][1..] == ms[i + 1..];
    Regrouped(kept, ms[i], Without(ms[i + 1..], e));
  }

  lemma KeptTaken(kept: seq<Mount>, ms: seq<Mount>, i: nat, es: seq<Edit>)
    requires i < |ms|
    ensures kept + Kept(ms[i..], es) == (if Removed(es, ms[i]) then kept else kept + [ms[i]]) + Kept(ms[i + 1..], es)
  {
    assert ms[i..][1..] == ms[i + 1..];
    Regrouped(kept, ms[i], Kept(ms[i + 1..], es));
  }

  lemma Regrouped(kept: seq<Mount>, m: Mount, rest: seq<Mount>)
    ensures kept + ([m] + rest) == (kept + [m]) + rest
  {
  }

  lemma {:induction false} DropsAddNothing(devices: seq<string>)
    ensures Survivors(Drops(devices)) == []
  {
    if devices != [] {
      assert Drops(devices)[1..] == Drops(devices[1..]);
      DropsAddNothing(devices[1..]);
    }
  }
}
