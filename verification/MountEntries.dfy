/** What the texts of a registry entry mean for the mounts of a launch: volumes, tmpfs
  * entries and the rest, read back from how they are written and followed through the
  * merge.
  */
module MountEntries {
  import opened TextLines
  import opened Wrappers
  import opened MountMerge

  /** A volume, written source:dest or source:dest:option. */
  datatype VolumeEntry = VolumeEntry(source: string, dest: string, option: Option<string>)

  /** A tmpfs, written dest or dest:size. */
  datatype TmpfsEntry = TmpfsEntry(dest: string, size: Option<string>)

  predicate NoColon(s: string) {
    forall i | 0 <= i < |s| :: s[i] != ':'
  }

  function VolumeText(v: VolumeEntry): string {
    v.source + ":" + v.dest + match v.option case None => "" case Some(o) => ":" + o
  }

  function TmpfsText(t: TmpfsEntry): string {
    t.dest + match t.size case None => "" case Some(s) => ":" + s
  }

  /** What can be told apart in its text. */
  predicate VolumeOk(v: VolumeEntry) {
    NoColon(v.source) && NoColon(v.dest)
  }

  predicate TmpfsOk(t: TmpfsEntry) {
    t.dest != "" && NoColon(t.dest)
  }

  lemma ColonIs(s: string, i: nat)
    requires i <= |s| && NoColon(s[..i]) && (i < |s| ==> s[i] == ':')
    ensures Find(s, ':') == i
  {
    forall k | 0 <= k < i ensures s[k] != ':' { assert s[k] == s[..i][k]; }
    FindIs(s, ':', i);
  }

  /** A volume is mounted read-only if its option says "ro", and writable otherwise. */
  lemma VolumeReads(v: VolumeEntry)
    requires VolumeOk(v)
    ensures Volume(VolumeText(v)) ==
      Some(Mount(Some(v.dest), v.source, "bind", ["bind", if v.option == Some("ro") then "ro" else "rw"]))
  {
    var t := VolumeText(v);
    var rest := v.dest + match v.option case None => "" case Some(o) => ":" + o;
    assert t == v.source + ":" + rest;
    assert t[..|v.source|] == v.source && t[|v.source| + 1..] == rest && rest[..|v.dest|] == v.dest;
    ColonIs(t, |v.source|);
    ColonIs(rest, |v.dest|);
    match v.option
    case None =>
    case Some(o) => assert rest[|v.dest| + 1..] == o;
  }

  lemma TmpfsReads(t: TmpfsEntry)
    requires TmpfsOk(t)
    ensures Tmpfs(TmpfsText(t)) ==
      Some(Mount(Some(t.dest), "tmpfs", "tmpfs",
                 if t.size == None || t.size == Some("") then ["nosuid", "nodev"] else ["nosuid", "nodev", "size=" + t.size.value]))
  {
    var s := TmpfsText(t);
    assert s[..|t.dest|] == t.dest;
    ColonIs(s, |t.dest|);
    match t.size
    case None => assert ["nosuid", "nodev"] + [] == ["nosuid", "nodev"];
    case Some(size) =>
      assert s[|t.dest| + 1..] == size;
      assert ["nosuid", "nodev"] + [] == ["nosuid", "nodev"];
      assert ["nosuid", "nodev"] + ["size=" + size] == ["nosuid", "nodev", "size=" + size];
  }

  lemma Glue(t: string, i: nat)
    requires i < |t|
    ensures t == t[..i] + ([t[i]] + t[i + 1..])
  {
  }

  lemma FrontNoColon(t: string)
    ensures NoColon(t[..Find(t, ':')])
  {
    var a := Find(t, ':');
    assert forall k | 0 <= k < a :: t[..a][k] == t[k];
  }

  lemma CutAtColon(t: string)
    ensures var a := Find(t, ':');
      if a < |t| then t == t[..a] + (":" + t[a + 1..]) else t == t[..a]
  {
    var a := Find(t, ':');
    if a < |t| { Glue(t, a); }
  }

  /** What follows the first colon, if there is one. */
  function OptionIn(rest: string): Option<string> {
    var b := Find(rest, ':');
    if b == |rest| then None else Some(rest[b + 1..])
  }

  lemma CutTwice(source: string, rest: string)
    ensures VolumeText(VolumeEntry(source, rest[..Find(rest, ':')], OptionIn(rest))) == source + (":" + rest)
  {
    var b := Find(rest, ':');
    var tail := if b == |rest| then "" else ":" + rest[b + 1..];
    CutAtColon(rest);
    Assoc(source + ":", rest[..b], tail);
    Assoc(source, ":", rest);
    if b == |rest| { assert rest[..b] + "" == rest; }
  }

  /** Every text with a colon is the text of one volume, and every text but those without
    * a destination that of one tmpfs; the others are skipped.
    */
  lemma EveryVolumeIsRead(t: string) returns (v: VolumeEntry)
    ensures NoColon(t) ==> Volume(t) == None
    ensures !NoColon(t) ==> VolumeOk(v) && VolumeText(v) == t
  {
    var a := Find(t, ':');
    v := VolumeEntry("", "", None);
    if a < |t| {
      var rest := t[a + 1..];
      v := VolumeEntry(t[..a], rest[..Find(rest, ':')], OptionIn(rest));
      CutAtColon(t);
      FrontNoColon(t);
      FrontNoColon(rest);
      CutTwice(t[..a], rest);
    }
  }

  lemma EveryTmpfsIsRead(t: string) returns (e: TmpfsEntry)
    ensures t == "" || t[0] == ':' ==> Tmpfs(t) == None
    ensures t != "" && t[0] != ':' ==> TmpfsOk(e) && TmpfsText(e) == t
  {
    var a := Find(t, ':');
    e := TmpfsEntry(t[..a], OptionIn(t));
    CutAtColon(t);
    FrontNoColon(t);
  }

  // ---- through the merge ---------------------------------------------------------------------

  /** The overrides of a registry entry, before they are written as texts. */
  datatype Wishes = Wishes(
    resolv: Option<string>, volumes: seq<VolumeEntry>, tmpfs: seq<TmpfsEntry>, shmSize: string,
    cgroup: Option<string>, devices: seq<string>, dirs: set<string>)

  predicate WishesOk(w: Wishes) {
    (forall v | v in w.volumes :: VolumeOk(v)) && (forall t | t in w.tmpfs :: TmpfsOk(t))
  }

  function VolumeTexts(vs: seq<VolumeEntry>): seq<string> {
    if vs == [] then [] else [VolumeText(vs[0])] + VolumeTexts(vs[1..])
  }

  function TmpfsTexts(ts: seq<TmpfsEntry>): seq<string> {
    if ts == [] then [] else [TmpfsText(ts[0])] + TmpfsTexts(ts[1..])
  }

  function Written(w: Wishes): Overrides {
    Overrides(w.resolv, VolumeTexts(w.volumes), TmpfsTexts(w.tmpfs), w.shmSize, w.cgroup, w.devices, w.dirs)
  }

  /** v is the last volume at its destination. */
  predicate LastVolume(vs: seq<VolumeEntry>, v: VolumeEntry) {
    exists i | 0 <= i < |vs| :: vs[i] == v && forall j | i < j < |vs| :: vs[j].dest != v.dest
  }

  predicate LastTmpfs(ts: seq<TmpfsEntry>, t: TmpfsEntry) {
    exists i | 0 <= i < |ts| :: ts[i] == t && forall j | i < j < |ts| :: ts[j].dest != t.dest
  }

  lemma {:induction false} NoVolumeAt(vs: seq<VolumeEntry>, d: string)
    requires forall v | v in vs :: VolumeOk(v) && v.dest != d
    ensures LastAt(VolumeTexts(vs), Volume, d) == None
  {
    if vs != [] {
      VolumeReads(vs[0]);
      assert forall v | v in vs[1..] :: v in vs;
      NoVolumeAt(vs[1..], d);
    }
  }

  lemma {:induction false} VolumeAt(vs: seq<VolumeEntry>, i: nat)
    requires i < |vs| && (forall v | v in vs :: VolumeOk(v)) && forall j | i < j < |vs| :: vs[j].dest != vs[i].dest
    ensures LastAt(VolumeTexts(vs), Volume, vs[i].dest) == Volume(VolumeText(vs[i]))
  {
    assert forall v | v in vs[1..] :: v in vs;
    VolumeReads(vs[0]);
    if i == 0 {
      NoVolumeAt(vs[1..], vs[0].dest);
    } else {
      VolumeReads(vs[i]);
      VolumeAt(vs[1..], i - 1);
    }
  }

  lemma {:induction false} NoTmpfsAt(ts: seq<TmpfsEntry>, d: string)
    requires forall t | t in ts :: TmpfsOk(t) && t.dest != d
    ensures LastAt(TmpfsTexts(ts), Tmpfs, d) == None
  {
    if ts != [] {
      TmpfsReads(ts[0]);
      assert forall t | t in ts[1..] :: t in ts;
      NoTmpfsAt(ts[1..], d);
    }
  }

  lemma {:induction false} TmpfsAt(ts: seq<TmpfsEntry>, i: nat)
    requires i < |ts| && (forall t | t in ts :: TmpfsOk(t)) && forall j | i < j < |ts| :: ts[j].dest != ts[i].dest
    ensures LastAt(TmpfsTexts(ts), Tmpfs, ts[i].dest) == Tmpfs(TmpfsText(ts[i]))
  {
    assert forall t | t in ts[1..] :: t in ts;
    TmpfsReads(ts[0]);
    if i == 0 {
      NoTmpfsAt(ts[1..], ts[0].dest);
    } else {
      TmpfsReads(ts[i]);
      TmpfsAt(ts[1..], i - 1);
    }
  }

  const SHM := "/dev/shm"

  /** The tmpfs entries with the shared memory size as the last one. */
  function AllTmpfs(w: Wishes): seq<TmpfsEntry> {
    w.tmpfs + if w.shmSize == "" then [] else [TmpfsEntry(SHM, Some(w.shmSize))]
  }

  lemma {:induction false} TextsConcat(ts: seq<TmpfsEntry>, us: seq<TmpfsEntry>)
    ensures TmpfsTexts(ts + us) == TmpfsTexts(ts) + TmpfsTexts(us)
  {
    if ts == [] {
      assert ts + us == us;
    } else {
      assert (ts + us)[1..] == ts[1..] + us;
      TextsConcat(ts[1..], us);
    }
  }

  lemma ShmIsTmpfs(w: Wishes)
    requires WishesOk(w)
    ensures TmpfsEntries(Written(w)) == TmpfsTexts(AllTmpfs(w)) && forall t | t in AllTmpfs(w) :: TmpfsOk(t)
  {
    var shm := TmpfsEntry(SHM, Some(w.shmSize));
    TextsConcat(w.tmpfs, if w.shmSize == "" then [] else [shm]);
    assert [shm][1..] == [];
    assert TmpfsText(shm) == SHM + ":" + w.shmSize == "/dev/shm:" + w.shmSize;
  }

  /** No pass after the volumes names d. */
  predicate LeftToVolumes(w: Wishes, d: string) {
    d !in w.devices && !(w.cgroup != None && d == "/sys/fs/cgroup") && forall t | t in AllTmpfs(w) :: t.dest != d
  }

  /** A volume that no later entry or pass replaces is the one mount at its destination,
    * from its source and read-only exactly if it says so.
    */
  lemma VolumeIsMounted(bundle: seq<Mount>, w: Wishes, v: VolumeEntry)
    requires WishesOk(w) && LastVolume(w.volumes, v) && LeftToVolumes(w, v.dest)
    ensures At(Merge(bundle, Written(w)), v.dest) ==
      [Mount(Some(v.dest), v.source, "bind", ["bind", if v.option == Some("ro") then "ro" else "rw"])]
  {
    var i :| 0 <= i < |w.volumes| && w.volumes[i] == v && forall j | i < j < |w.volumes| :: w.volumes[j].dest != v.dest;
    LastPassWins(bundle, Written(w), v.dest);
    ShmIsTmpfs(w);
    NoTmpfsAt(AllTmpfs(w), v.dest);
    VolumeAt(w.volumes, i);
    VolumeReads(v);
  }

  /** So is a tmpfs, with its size if it has one; the shared memory size counts as the
    * last of them, at /dev/shm.
    */
  lemma TmpfsIsMounted(bundle: seq<Mount>, w: Wishes, t: TmpfsEntry)
    requires WishesOk(w) && LastTmpfs(AllTmpfs(w), t)
    requires t.dest !in w.devices && !(w.cgroup != None && t.dest == "/sys/fs/cgroup")
    ensures At(Merge(bundle, Written(w)), t.dest) ==
      [Mount(Some(t.dest), "tmpfs", "tmpfs",
             if t.size == None || t.size == Some("") then ["nosuid", "nodev"] else ["nosuid", "nodev", "size=" + t.size.value])]
  {
    var ts := AllTmpfs(w);
    var i :| 0 <= i < |ts| && ts[i] == t && forall j | i < j < |ts| :: ts[j].dest != t.dest;
    LastPassWins(bundle, Written(w), t.dest);
    ShmIsTmpfs(w);
    TmpfsAt(ts, i);
    TmpfsReads(t);
  }

  lemma ShmIsMounted(bundle: seq<Mount>, w: Wishes)
    requires WishesOk(w) && w.shmSize != "" && "/dev/shm" !in w.devices
    ensures At(Merge(bundle, Written(w)), "/dev/shm") ==
      [Mount(Some("/dev/shm"), "tmpfs", "tmpfs", ["nosuid", "nodev", "size=" + w.shmSize])]
  {
    var t := TmpfsEntry(SHM, Some(w.shmSize));
    assert AllTmpfs(w)[|w.tmpfs|] == t;
    TmpfsIsMounted(bundle, w, t);
  }

  /** The own cgroup is bound read-only, a device directory as it is, once per listing, and
    * the resolver of an infra is added read-only to what else is at its place.
    */
  lemma BindsAreMounted(bundle: seq<Mount>, w: Wishes, d: string)
    requires WishesOk(w)
    ensures w.cgroup != None && "/sys/fs/cgroup" !in w.devices ==>
      At(Merge(bundle, Written(w)), "/sys/fs/cgroup") ==
        [Mount(Some("/sys/fs/cgroup"), w.cgroup.value, "bind", ["rbind", "ro", "nosuid", "noexec", "nodev"])]
    ensures d in w.devices && d !in w.dirs ==> At(Merge(bundle, Written(w)), d) == []
    ensures d in w.devices && d in w.dirs ==>
      var ms := At(Merge(bundle, Written(w)), d);
      ms != [] && forall m | m in ms :: m == Mount(Some(d), d, "bind", ["rbind"])
  {
    LastPassWins(bundle, Written(w), CGROUP_VIEW);
    LastPassWins(bundle, Written(w), d);
    CopiesAre(w.devices, w.dirs, d);
  }

  lemma {:induction false} CopiesAre(devices: seq<string>, dirs: set<string>, d: string)
    ensures forall m | m in Copies(devices, dirs, d) :: m == Mount(Some(d), d, "bind", ["rbind"])
    ensures Copies(devices, dirs, d) != [] <==> d in devices && d in dirs
  {
    if devices != [] { CopiesAre(devices[1..], dirs, d); }
  }

  /** Where no pass names a destination the bundle's mounts stay, with the resolver of an
    * infra behind them.
    */
  lemma RestIsKept(bundle: seq<Mount>, w: Wishes, d: string)
    requires WishesOk(w) && LeftToVolumes(w, d) && forall v | v in w.volumes :: v.dest != d
    ensures At(Merge(bundle, Written(w)), d) ==
      At(bundle, d) + if w.resolv != None && d == "/etc/resolv.conf" then
                        [Mount(Some("/etc/resolv.conf"), w.resolv.value, "bind", ["bind", "ro"])]
                      else []
  {
    LastPassWins(bundle, Written(w), d);
    ShmIsTmpfs(w);
    NoTmpfsAt(AllTmpfs(w), d);
    NoVolumeAt(w.volumes, d);
  }

  // ---- mounts without a destination ----------------------------------------------------------

  function Nameless(ms: seq<Mount>): seq<Mount> {
    if ms == [] then [] else (if ms[0].dest == None then [ms[0]] else []) + Nameless(ms[1..])
  }

  lemma {:induction false} NamelessConcat(ms: seq<Mount>, ns: seq<Mount>)
    ensures Nameless(ms + ns) == Nameless(ms) + Nameless(ns)
  {
    if ms == [] {
      assert ms + ns == ns;
    } else {
      var head := if ms[0].dest == None then [ms[0]] else [];
      calc {
        Nameless(ms + ns);
        { assert (ms + ns)[1..] == ms[1..] + ns; }
        head + Nameless(ms[1..] + ns);
        { NamelessConcat(ms[1..], ns); }
        head + (Nameless(ms[1..]) + Nameless(ns));
        (head + Nameless(ms[1..])) + Nameless(ns);
      }
    }
  }

  lemma {:induction false} NamelessWithout(ms: seq<Mount>, e: Edit)
    requires e.Put? ==> e.mount.dest != None
    ensures Nameless(Without(ms, e)) == if e == Drop("") then [] else Nameless(ms)
  {
    if ms != [] {
      NamelessWithout(ms[1..], e);
      NamelessConcat(if Removes(e, ms[0]) then [] else [ms[0]], Without(ms[1..], e));
    }
  }

  /** Edits of the passes put and append mounts with destinations only. */
  predicate AllNamed(es: seq<Edit>) {
    forall e | e in es :: !e.Drop? ==> e.mount.dest != None
  }

  lemma {:induction false} NamelessAfter(ms: seq<Mount>, es: seq<Edit>)
    requires AllNamed(es)
    ensures Nameless(ApplyAll(ms, es)) == if Drop("") in es then [] else Nameless(ms)
    decreases es
  {
    if es != [] {
      var e := es[0];
      NamelessWithout(ms, e);
      NamelessConcat(Without(ms, e), Added(e));
      assert forall f | f in es[1..] :: f in es;
      NamelessAfter(Apply(ms, e), es[1..]);
      assert es == [e] + es[1..];
    }
  }

  lemma {:induction false} PutsNamed(entries: seq<string>, parse: string -> Option<Mount>)
    requires forall t :: parse(t) != None ==> parse(t).value.dest != None
    ensures AllNamed(Puts(entries, parse)) && Drop("") !in Puts(entries, parse)
  {
    if entries != [] { PutsNamed(entries[1..], parse); }
  }

  lemma {:induction false} BindsNamed(devices: seq<string>, dirs: set<string>)
    ensures AllNamed(DeviceBinds(devices, dirs)) && Drop("") !in DeviceBinds(devices, dirs)
  {
    if devices != [] { BindsNamed(devices[1..], dirs); }
  }

  /** A mount without a destination counts as one at "": it stays, unless the empty device
    * is listed.
    */
  lemma NamelessStay(bundle: seq<Mount>, o: Overrides)
    ensures Nameless(Merge(bundle, o)) == if "" in o.devices then [] else Nameless(bundle)
  {
    var es := Edits(o);
    PutsNamed(o.volumes, Volume);
    PutsNamed(TmpfsEntries(o), Tmpfs);
    BindsNamed(o.devices, o.dirs);
    DropsListed(o.devices);
    NamelessAfter(bundle, es);
  }

  lemma DropsListed(devices: seq<string>)
    ensures AllNamed(Drops(devices)) && (Drop("") in Drops(devices) <==> "" in devices)
  {
    if "" in devices {
      var i :| 0 <= i < |devices| && devices[i] == "";
      assert Drops(devices)[i] == Drop("");
    }
  }
}
