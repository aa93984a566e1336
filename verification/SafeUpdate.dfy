/** The safe-update and rollback protocol of one container: the bundle directories,
  * the provenance in its registry entry, its upgrade jobs and its health watches.
  *
  * The external converter is one step: on success the live bundle becomes .prev, the
  * new one becomes live and its provenance is registered; on failure nothing changes.
  */
module SafeUpdate {

  // ---- data -----------------------------------------------------------------------

  /** What a bundle was made from. */
  datatype Prov = Prov(image: string, digest: string)

  datatype Bundle = Bundle(serial: nat, source: Prov)

  /** <path>, <path>.prev and <path>.rollback-tmp */
  datatype Place = Live | Prev | Tmp

  type Dirs = map<Place, Bundle>

  /** The provenance fields of a registry entry; `built` when it has a build object,
    * whose base and base_digest then stand for image and digest.
    */
  datatype Entry = Entry(built: bool, image: string, digest: string, base: string, baseDigest: string,
                         prevImage: string, prevDigest: string)

  /** build: the job builds from the recorded recipe instead of pulling an image. */
  datatype Job = Job(running: bool, rotated: bool, build: bool, prev: Prov)

  datatype Outcome = NoOutcome | Verified | RolledBack | RollbackFailed

  datatype Update = Update(entry: Entry, dirs: Dirs, jobs: seq<Job>, watches: nat, last: Outcome)

  function LiveProv(e: Entry): Prov {
    if e.built then Prov(e.base, e.baseDigest) else Prov(e.image, e.digest)
  }

  function PrevProv(e: Entry): Prov {
    Prov(e.prevImage, e.prevDigest)
  }

  function WithLive(e: Entry, p: Prov): Entry {
    Registered(e, e.built, p)
  }

  /** What a build or a pull registers as the provenance of its bundle. */
  function Registered(e: Entry, build: bool, p: Prov): Entry {
    if build then e.(base := p.image, baseDigest := p.digest) else e.(image := p.image, digest := p.digest)
  }

  // ---- bundle directories -----------------------------------------------------------

  datatype Move = Move(from: Place, to: Place)

  const DANCE: seq<Move> := [Move(Live, Tmp), Move(Prev, Live), Move(Tmp, Prev)]

  /** rename(2) of a bundle directory: bundles are never empty, so an existing
    * target makes it fail, as does a missing source or any fault of the system.
    */
  predicate Applies(d: Dirs, m: Move, ok: bool) {
    ok && m.from in d && m.to !in d
  }

  function Moved(d: Dirs, m: Move): Dirs {
    if m.from in d then (d - {m.from})[m.to := d[m.from]] else d
  }

  datatype Swap = Swap(dirs: Dirs, done: bool)

  /** Renames one after the other until one fails. */
  function Renames(d: Dirs, moves: seq<Move>, oks: seq<bool>): Swap
    requires |oks| == |moves|
    decreases moves
  {
    if moves == [] then Swap(d, true)
    else if Applies(d, moves[0], oks[0]) then Renames(Moved(d, moves[0]), moves[1..], oks[1..])
    else Swap(d, false)
  }

  function RollbackSwap(d: Dirs, oks: seq<bool>): Swap
    requires |oks| == 3
  {
    if Prev !in d then Swap(d, false) else Renames(d, DANCE, oks)
  }

  function At(d: Dirs, p: Place): multiset<Bundle> {
    if p in d then multiset{d[p]} else multiset{}
  }

  /** The bundles on disk, each as often as a name holds it. */
  function Contents(d: Dirs): multiset<Bundle> {
    At(d, Live) + At(d, Prev) + At(d, Tmp)
  }

  /** However far a sequence of renames gets, no bundle is lost or doubled. */
  lemma {:induction false} RenamesConserve(d: Dirs, moves: seq<Move>, oks: seq<bool>)
    requires |oks| == |moves|
    decreases moves
    ensures Contents(Renames(d, moves, oks).dirs) == Contents(d)
  {
    if moves != [] && Applies(d, moves[0], oks[0]) {
      MoveConserves(d, moves[0]);
      RenamesConserve(Moved(d, moves[0]), moves[1..], oks[1..]);
    }
  }

  lemma MoveConserves(d: Dirs, m: Move)
    requires m.from in d && m.to !in d
    ensures Contents(Moved(d, m)) == Contents(d)
  {
    var e := Moved(d, m);
    MovedAt(d, m);
    ThirdPlace(d, m.from, m.to);
    ThirdPlace(e, m.to, m.from);
  }

  lemma MovedAt(d: Dirs, m: Move)
    requires m.from in d && m.to !in d
    ensures var e := Moved(d, m);
      && At(e, m.to) == At(d, m.from) && At(e, m.from) == At(d, m.to) == multiset{}
      && At(e, Third(m.from, m.to)) == At(d, Third(m.from, m.to))
  {
  }

  function Third(a: Place, b: Place): (c: Place)
    requires a != b
    ensures c != a && c != b
  {
    if a != Live && b != Live then Live else if a != Prev && b != Prev then Prev else Tmp
  }

  /** The contents in any order of the places. */
  lemma ThirdPlace(d: Dirs, a: Place, b: Place)
    requires a != b
    ensures Contents(d) == At(d, a) + At(d, b) + At(d, Third(a, b)) && Third(a, b) == Third(b, a)
  {
  }

  lemma BothThere(d: Dirs)
    ensures Live in d && Prev in d && Tmp !in d <==> d.Keys == {Live, Prev}
  {
    if Live in d && Prev in d && Tmp !in d {
      forall p | p in d ensures p in {Live, Prev} { match p case Live => case Prev => case Tmp => }
    }
  }

  /** The first k renames of the dance. */
  function Prefix(d: Dirs, k: nat): Dirs
    requires k <= 3
  {
    if k == 0 then d else Moved(Prefix(d, k - 1), DANCE[k - 1])
  }

  /** How many renames the system grants before it refuses one. */
  function Granted(oks: seq<bool>): (k: nat)
    ensures k <= |oks|
  {
    if oks == [] || !oks[0] then 0 else 1 + Granted(oks[1..])
  }

  lemma PrefixIs(d: Dirs, k: nat)
    requires k <= 3 && d.Keys == {Live, Prev}
    ensures Prefix(d, k) ==
      if k == 0 then d
      else if k == 1 then map[Tmp := d[Live], Prev := d[Prev]]
      else if k == 2 then map[Tmp := d[Live], Live := d[Prev]]
      else map[Live := d[Prev], Prev := d[Live]]
  {
    if k > 0 { PrefixIs(d, k - 1); }
  }

  /** Stopped after any of its three renames, the dance has each of the two bundles
    * at exactly one of the three names.
    */
  lemma {:induction false} StoppedAnywhere(d: Dirs, k: nat)
    requires k <= 3 && d.Keys == {Live, Prev}
    ensures Contents(Prefix(d, k)) == multiset{d[Live], d[Prev]}
  {
    if k == 0 {
      assert At(d, Tmp) == multiset{};
    } else {
      StoppedAnywhere(d, k - 1);
      DanceApplies(d, k - 1);
      MoveConserves(Prefix(d, k - 1), DANCE[k - 1]);
    }
  }

  lemma DanceApplies(d: Dirs, k: nat)
    requires k < 3 && d.Keys == {Live, Prev}
    ensures Applies(Prefix(d, k), DANCE[k], true)
  {
    PrefixIs(d, k);
  }

  lemma GrantedOfThree(oks: seq<bool>)
    requires |oks| == 3
    ensures Granted(oks) == if !oks[0] then 0 else if !oks[1] then 1 else if !oks[2] then 2 else 3
    ensures Granted(oks) == 3 <==> oks == [true, true, true]
  {
    assert oks[1..][1..][0] == oks[2];
    assert Granted(oks[1..][1..]) == if oks[2] then 1 else 0;
    assert Granted(oks[1..]) == if oks[1] then 1 + Granted(oks[1..][1..]) else 0;
  }

  /** The dance from a state that admits it. */
  lemma DanceIsPrefix(d: Dirs, oks: seq<bool>)
    requires |oks| == 3 && d.Keys == {Live, Prev}
    ensures Renames(d, DANCE, oks) == Swap(Prefix(d, Granted(oks)), oks == [true, true, true])
  {
    GrantedOfThree(oks);
    PrefixIs(d, 1);
    PrefixIs(d, 2);
    var d1, d2 := Prefix(d, 1), Prefix(d, 2);
    assert DANCE[1..] == [DANCE[1], DANCE[2]] && [DANCE[1], DANCE[2]][1..] == [DANCE[2]];
    assert oks[1..][1..] == [oks[2]];
    assert Renames(d2, [DANCE[2]], [oks[2]]) == if oks[2] then Swap(Prefix(d, 3), true) else Swap(d2, false);
    assert Renames(d1, [DANCE[1], DANCE[2]], oks[1..]) == if oks[1] then Renames(d2, [DANCE[2]], [oks[2]]) else Swap(d1, false);
  }

  /** rollback_swap runs as many renames as are granted, and succeeds exactly when
    * both bundles are there, the temporary name is free and all three are; then the
    * two bundles have changed places.
    */
  lemma SwapExactly(d: Dirs, oks: seq<bool>)
    requires |oks| == 3
    ensures RollbackSwap(d, oks).done <==> oks == [true, true, true] && d.Keys == {Live, Prev}
    ensures RollbackSwap(d, oks).done ==> RollbackSwap(d, oks).dirs == map[Live := d[Prev], Prev := d[Live]]
    ensures d.Keys == {Live, Prev} ==> RollbackSwap(d, oks).dirs == Prefix(d, Granted(oks))
  {
    BothThere(d);
    if d.Keys == {Live, Prev} {
      DanceIsPrefix(d, oks);
      PrefixIs(d, 3);
    }
  }

  /** Rolling back twice puts everything back. */
  lemma SwapTwice(d: Dirs)
    requires d.Keys == {Live, Prev}
    ensures RollbackSwap(RollbackSwap(d, [true, true, true]).dirs, [true, true, true]).dirs == d
  {
    SwapExactly(d, [true, true, true]);
    SwapExactly(RollbackSwap(d, [true, true, true]).dirs, [true, true, true]);
  }

  // ---- provenance ---------------------------------------------------------------------

  function Or(a: string, b: string): string {
    if a == "" then b else a
  }

  function SwapProvenance(e: Entry): Entry {
    if e.prevImage == "" && e.prevDigest == "" then e
    else
      var live := LiveProv(e);
      WithLive(e, Prov(Or(e.prevImage, live.image), Or(e.prevDigest, live.digest)))
        .(prevImage := live.image, prevDigest := live.digest)
  }

  /** Swapping the provenance twice restores the entry exactly when an image is
    * recorded for both bundles or for none, and likewise a digest; or when nothing
    * is recorded for .prev.
    */
  lemma ProvenanceTwice(e: Entry)
    ensures SwapProvenance(SwapProvenance(e)) == e <==>
      (e.prevImage == "" && e.prevDigest == "")
      || ((e.prevImage == "" <==> LiveProv(e).image == "") && (e.prevDigest == "" <==> LiveProv(e).digest == ""))
  {
  }

  predicate Full(p: Prov) {
    p.image != "" && p.digest != ""
  }

  lemma FullSwaps(e: Entry)
    requires Full(LiveProv(e)) && Full(PrevProv(e))
    ensures LiveProv(SwapProvenance(e)) == PrevProv(e) && PrevProv(SwapProvenance(e)) == LiveProv(e)
  {
  }

  // ---- the protocol -------------------------------------------------------------------

  predicate Upgrading(jobs: seq<Job>) {
    exists i | 0 <= i < |jobs| :: jobs[i].running
  }

  /** upgrade: a job remembers what it upgrades from. A built entry is rebuilt, unless
    * an image is given; everything else is pulled, and remembers image and digest even
    * if the entry is a built one.
    */
  function AfterUpgrade(u: Update, toImage: string): Update {
    var e := u.entry;
    if e.built && toImage == "" then u.(jobs := u.jobs + [Job(true, false, true, Prov(e.base, e.baseDigest))])
    else if e.image == "" && toImage == "" then u
    else u.(jobs := u.jobs + [Job(true, false, false, Prov(e.image, e.digest))])
  }

  function AfterConvert(u: Update, i: nat, made: Bundle): Update
    requires i < |u.jobs|
  {
    var kept := if Live in u.dirs then u.dirs[Prev := u.dirs[Live]] else u.dirs;
    u.(dirs := kept[Live := made], entry := Registered(u.entry, u.jobs[i].build, made.source),
       jobs := u.jobs[i := u.jobs[i].(rotated := true)])
  }

  /** job_exit_cb; `gated` when safe-update is on and the container has a healthcheck. */
  function AfterExit(u: Update, i: nat, gated: bool): Update
    requires i < |u.jobs|
  {
    var j := u.jobs[i];
    var u1 := u.(jobs := u.jobs[i := j.(running := false)]);
    if !j.rotated then u1
    else
      var e := u.entry.(prevImage := Or(j.prev.image, u.entry.prevImage), prevDigest := Or(j.prev.digest, u.entry.prevDigest));
      if gated then u1.(entry := e, watches := u.watches + 1, last := NoOutcome) else u1.(entry := e)
  }

  /** rollback, as the operator's call or as the answer to a failed watch. */
  function AfterRollback(u: Update, oks: seq<bool>): Update
    requires |oks| == 3
  {
    var swap := RollbackSwap(u.dirs, oks);
    u.(dirs := swap.dirs, entry := if swap.done then SwapProvenance(u.entry) else u.entry)
  }

  function AfterWatch(u: Update, healthy: bool, oks: seq<bool>): Update
    requires u.watches > 0 && |oks| == 3
  {
    var u1 := u.(watches := u.watches - 1);
    if healthy then u1.(last := Verified)
    else AfterRollback(u1, oks).(last := if RollbackSwap(u.dirs, oks).done then RolledBack else RollbackFailed)
  }

  datatype Event =
    | CallUpgrade(toImage: string)
    | AutoUpgrade                              // of a scheduled update check
    | Converts(job: nat, made: Bundle)
    | JobExits(job: nat, gated: bool)
    | CallRollback(oks: seq<bool>)
    | WatchEnds(healthy: bool, oks: seq<bool>)
    | PrunePrev

  predicate Enabled(u: Update, e: Event) {
    match e
    case Converts(i, _) => i < |u.jobs| && u.jobs[i].running && !u.jobs[i].rotated
    case JobExits(i, _) => i < |u.jobs| && u.jobs[i].running
    case CallRollback(oks) => |oks| == 3
    case WatchEnds(_, oks) => u.watches > 0 && |oks| == 3
    case _ => true
  }

  function Step(u: Update, e: Event): Update
    requires Enabled(u, e)
  {
    match e
    case CallUpgrade(toImage) => if Upgrading(u.jobs) then u else AfterUpgrade(u, toImage)
    case AutoUpgrade => AfterUpgrade(u, "")
    case Converts(i, made) => AfterConvert(u, i, made)
    case JobExits(i, gated) => AfterExit(u, i, gated)
    case CallRollback(oks) => if Upgrading(u.jobs) || Prev !in u.dirs then u else AfterRollback(u, oks)
    case WatchEnds(healthy, oks) => AfterWatch(u, healthy, oks)
    case PrunePrev => u.(dirs := u.dirs - {Prev})
  }

  // ---- the registry describes the bundles -------------------------------------------------

  /** Both descriptions are right, as far as the bundles are there. */
  predicate Describes(u: Update) {
    && Live in u.dirs && Tmp !in u.dirs
    && LiveProv(u.entry) == u.dirs[Live].source && Full(LiveProv(u.entry))
    && (Prev in u.dirs ==> PrevProv(u.entry) == u.dirs[Prev].source && Full(PrevProv(u.entry)))
  }

  /** What holds while a job runs: until it rotates the bundles it remembers the live
    * provenance, afterwards that of .prev.
    */
  predicate JobKnows(u: Update, j: Job) {
    && j.build == u.entry.built
    && if !j.rotated then Describes(u) && j.prev == LiveProv(u.entry)
    else
      && Live in u.dirs && Tmp !in u.dirs
      && LiveProv(u.entry) == u.dirs[Live].source && Full(LiveProv(u.entry))
      && Full(j.prev) && (Prev in u.dirs ==> j.prev == u.dirs[Prev].source)
  }

  predicate OneRunning(jobs: seq<Job>, i: nat) {
    i < |jobs| && jobs[i].running && forall k | 0 <= k < |jobs| && k != i :: !jobs[k].running
  }

  ghost predicate Sound(u: Update) {
    if Upgrading(u.jobs) then exists i: nat :: OneRunning(u.jobs, i) && JobKnows(u, u.jobs[i]) else Describes(u)
  }

  /** The hypotheses on a step: new bundles have full provenance, no rename is
    * refused, a built entry is not upgraded to an explicit image, and neither an
    * automatic upgrade nor a failed watch comes while an upgrade job is running.
    */
  predicate Orderly(u: Update, e: Event) {
    match e
    case CallUpgrade(toImage) => u.entry.built ==> toImage == ""
    case AutoUpgrade => !Upgrading(u.jobs)
    case Converts(_, made) => Full(made.source)
    case CallRollback(oks) => oks == [true, true, true]
    case WatchEnds(healthy, oks) => healthy || (!Upgrading(u.jobs) && oks == [true, true, true])
    case _ => true
  }

  lemma TheRunningOne(jobs: seq<Job>, i: nat, k: nat)
    requires OneRunning(jobs, i) && k < |jobs| && jobs[k].running
    ensures k == i
  {
  }

  lemma UpgradeSound(u: Update, toImage: string)
    requires Sound(u) && !Upgrading(u.jobs) && (u.entry.built ==> toImage == "")
    ensures Sound(AfterUpgrade(u, toImage))
  {
    var u' := AfterUpgrade(u, toImage);
    if u' != u {
      var i := |u.jobs|;
      assert forall k | 0 <= k < |u.jobs| :: !u.jobs[k].running && u'.jobs[k] == u.jobs[k];
      assert u'.jobs[i].running;
      assert OneRunning(u'.jobs, i) && JobKnows(u', u'.jobs[i]);
    }
  }

  lemma ConvertSound(u: Update, k: nat, made: Bundle)
    requires Sound(u) && Enabled(u, Converts(k, made)) && Full(made.source)
    ensures Sound(AfterConvert(u, k, made))
  {
    assert Upgrading(u.jobs);
    var i: nat :| OneRunning(u.jobs, i) && JobKnows(u, u.jobs[i]);
    TheRunningOne(u.jobs, i, k);
    var u' := AfterConvert(u, k, made);
    assert u'.jobs[k].running;
    assert OneRunning(u'.jobs, k) && JobKnows(u', u'.jobs[k]);
  }

  lemma ExitSound(u: Update, k: nat, gated: bool)
    requires Sound(u) && Enabled(u, JobExits(k, gated))
    ensures Sound(AfterExit(u, k, gated)) && !Upgrading(AfterExit(u, k, gated).jobs)
  {
    assert Upgrading(u.jobs);
    var i: nat :| OneRunning(u.jobs, i) && JobKnows(u, u.jobs[i]);
    TheRunningOne(u.jobs, i, k);
    assert forall m | 0 <= m < |u.jobs| :: !AfterExit(u, k, gated).jobs[m].running;
  }

  lemma RollbackSound(u: Update)
    requires Describes(u)
    ensures Describes(AfterRollback(u, [true, true, true]))
  {
    SwapExactly(u.dirs, [true, true, true]);
    if Prev in u.dirs {
      BothThere(u.dirs);
      FullSwaps(u.entry);
    }
  }

  lemma StepSound(u: Update, e: Event)
    requires Sound(u) && Enabled(u, e) && Orderly(u, e)
    ensures Sound(Step(u, e))
  {
    match e
    case CallUpgrade(toImage) => if !Upgrading(u.jobs) { UpgradeSound(u, toImage); }
    case AutoUpgrade => UpgradeSound(u, "");
    case Converts(i, made) => ConvertSound(u, i, made);
    case JobExits(i, gated) => ExitSound(u, i, gated);
    case CallRollback(oks) => if !Upgrading(u.jobs) { RollbackSound(u); }
    case WatchEnds(healthy, oks) => WatchSound(u, healthy, oks);
    case PrunePrev =>
      if Upgrading(u.jobs) {
        var i: nat :| OneRunning(u.jobs, i) && JobKnows(u, u.jobs[i]);
        assert JobKnows(Step(u, e), u.jobs[i]);
      }
  }

  lemma WatchSound(u: Update, healthy: bool, oks: seq<bool>)
    requires Sound(u) && u.watches > 0 && |oks| == 3 && Orderly(u, WatchEnds(healthy, oks))
    ensures Sound(AfterWatch(u, healthy, oks))
  {
    var u1 := u.(watches := u.watches - 1);
    if healthy {
      if Upgrading(u.jobs) {
        var i: nat :| OneRunning(u.jobs, i) && JobKnows(u, u.jobs[i]);
        assert JobKnows(AfterWatch(u, healthy, oks), u.jobs[i]);
      }
    } else {
      RollbackSound(u1);
    }
  }

  ghost predicate IsRun(states: seq<Update>, events: seq<Event>) {
    && |states| == |events| + 1
    && forall i | 0 <= i < |events| :: Enabled(states[i], events[i]) && states[i + 1] == Step(states[i], events[i])
  }

  ghost predicate OrderlyRun(states: seq<Update>, events: seq<Event>) {
    IsRun(states, events) && forall i | 0 <= i < |events| :: Orderly(states[i], events[i])
  }

  lemma {:induction false} RunSound(states: seq<Update>, events: seq<Event>, i: nat)
    requires OrderlyRun(states, events) && Sound(states[0]) && i < |states|
    ensures Sound(states[i])
  {
    if i > 0 {
      RunSound(states, events, i - 1);
      StepSound(states[i - 1], events[i - 1]);
    }
  }

  /** Over any mix of upgrades, rollbacks, watches and prunes of such steps, whenever
    * no job is running the registry describes the live bundle and its backup.
    */
  lemma RegistryDescribesTheBundles(states: seq<Update>, events: seq<Event>, i: nat)
    requires OrderlyRun(states, events) && i < |states|
    requires !Upgrading(states[0].jobs) && Describes(states[0])
    requires !Upgrading(states[i].jobs)
    ensures Describes(states[i])
  {
    RunSound(states, events, i);
  }

  /** An undisturbed upgrade: called, converted, exited, and under watch. */
  function Upgraded(u: Update, toImage: string, made: Bundle): Update
    requires !Upgrading(u.jobs) && (u.entry.built || u.entry.image != "" || toImage != "")
  {
    AfterExit(AfterConvert(AfterUpgrade(u, toImage), |u.jobs|, made), |u.jobs|, true)
  }

  /** Its steps can be taken one after the other. */
  lemma UpgradeGoesThrough(u: Update, toImage: string, made: Bundle)
    requires Describes(u) && !Upgrading(u.jobs) && Full(made.source) && (u.entry.built ==> toImage == "")
    ensures var i := |u.jobs|;
      var u1 := Step(u, CallUpgrade(toImage));
      && Enabled(u1, Converts(i, made))
      && Enabled(Step(u1, Converts(i, made)), JobExits(i, true))
      && Step(Step(u1, Converts(i, made)), JobExits(i, true)) == Upgraded(u, toImage, made)
    ensures var u3 := Upgraded(u, toImage, made);
      && Describes(u3) && u3.watches == u.watches + 1 && u3.last == NoOutcome
      && u3.dirs == map[Live := made, Prev := u.dirs[Live]]
      && LiveProv(u3.entry) == made.source && PrevProv(u3.entry) == LiveProv(u.entry)
  {
    var u1 := AfterUpgrade(u, toImage);
    assert u1.jobs[|u.jobs|] == Job(true, false, u.entry.built, LiveProv(u.entry));
    var u2 := AfterConvert(u1, |u.jobs|, made);
    assert Tmp !in u2.dirs;
    BothThere(u2.dirs);
    assert u2.dirs == map[Live := made, Prev := u.dirs[Live]];
  }

  /** What an upgrade comes to when nothing else touches the container: with a healthy
    * new instance it is verified and the new bundle stays; otherwise either the old
    * bundle is live again and described, or a rename was refused, no bundle is lost
    * and the outcome says that the rollback failed.
    */
  lemma UpgradeOutcome(u: Update, toImage: string, made: Bundle, healthy: bool, oks: seq<bool>)
    requires Describes(u) && !Upgrading(u.jobs) && Full(made.source) && |oks| == 3
    requires u.entry.built ==> toImage == ""
    ensures var u3 := Upgraded(u, toImage, made);
      && Enabled(u3, WatchEnds(healthy, oks))
      && var u4 := Step(u3, WatchEnds(healthy, oks));
      && (u4.last == Verified <==> healthy)
      && (u4.last == RolledBack <==> !healthy && oks == [true, true, true])
      && (u4.last == RollbackFailed <==> !healthy && oks != [true, true, true])
      && (u4.last == Verified ==> u4.dirs == map[Live := made, Prev := u.dirs[Live]] && Describes(u4))
      && (u4.last == RolledBack ==>
            u4.dirs == map[Live := u.dirs[Live], Prev := made] && LiveProv(u4.entry) == LiveProv(u.entry) && Describes(u4))
      && (u4.last == RollbackFailed ==> Contents(u4.dirs) == multiset{made, u.dirs[Live]})
  {
    UpgradeGoesThrough(u, toImage, made);
    var u3 := Upgraded(u, toImage, made);
    SwapExactly(u3.dirs, oks);
    FullSwaps(u3.entry);
    StoppedAnywhere(u3.dirs, Granted(oks));
  }

  /** A rollback by hand within the health window leads back to the old bundle, and the
    * watch that is still running then calls that one verified.
    */
  lemma RollbackInTheWindow(u: Update, toImage: string, made: Bundle)
    requires Describes(u) && !Upgrading(u.jobs) && Full(made.source) && (u.entry.built ==> toImage == "")
    ensures var u4 := Step(Upgraded(u, toImage, made), CallRollback([true, true, true]));
      && Enabled(u4, WatchEnds(true, [true, true, true]))
      && var u5 := Step(u4, WatchEnds(true, [true, true, true]));
      u5.last == Verified && u5.dirs == map[Live := u.dirs[Live], Prev := made] && Describes(u5)
  {
    UpgradeGoesThrough(u, toImage, made);
    var u3 := Upgraded(u, toImage, made);
    SwapExactly(u3.dirs, [true, true, true]);
    FullSwaps(u3.entry);
    NoneRunning(u, toImage, made);
  }

  lemma NoneRunning(u: Update, toImage: string, made: Bundle)
    requires !Upgrading(u.jobs) && (u.entry.built || u.entry.image != "" || toImage != "")
    ensures !Upgrading(Upgraded(u, toImage, made).jobs)
  {
    var jobs := Upgraded(u, toImage, made).jobs;
    assert forall k | 0 <= k < |u.jobs| :: jobs[k] == u.jobs[k];
  }

  /** The events that can put another bundle in the place of the live one. */
  predicate Replaces(u: Update, e: Event) {
    match e
    case Converts(_, _) => true
    case CallRollback(_) => !Upgrading(u.jobs)
    case WatchEnds(healthy, _) => !healthy
    case _ => false
  }

  /** Without those the new bundle stays live throughout the watch, so that an instance
    * forked meanwhile runs it.
    */
  lemma {:induction false} LiveStays(states: seq<Update>, events: seq<Event>, i: nat)
    requires IsRun(states, events) && i < |states| && Live in states[0].dirs
    requires forall k | 0 <= k < i :: !Replaces(states[k], events[k])
    ensures Live in states[i].dirs && states[i].dirs[Live] == states[0].dirs[Live]
  {
    if i > 0 {
      LiveStays(states, events, i - 1);
      assert states[i] == Step(states[i - 1], events[i - 1]);
    }
  }

  // ---- what changes nothing ---------------------------------------------------------------

  /** While a job runs, and only then, upgrades and rollbacks by hand are turned away; so is
    * an upgrade that has no image to pull, and a rollback without a backup.
    */
  lemma CallsTurnedAway(u: Update, toImage: string, oks: seq<bool>)
    requires |oks| == 3
    ensures Step(u, CallUpgrade(toImage)) == u <==>
      (exists j | j in u.jobs :: j.running) || (!u.entry.built && u.entry.image == "" && toImage == "")
    ensures (exists j | j in u.jobs :: j.running) || Prev !in u.dirs ==> Step(u, CallRollback(oks)) == u
    ensures Step(u, AutoUpgrade) == u <==> !u.entry.built && u.entry.image == ""
  {
    assert Upgrading(u.jobs) <==> exists j | j in u.jobs :: j.running;
    assert |AfterUpgrade(u, toImage).jobs| == |u.jobs| <==> !u.entry.built && u.entry.image == "" && toImage == "";
    assert |AfterUpgrade(u, "").jobs| == |u.jobs| <==> !u.entry.built && u.entry.image == "";
  }

  /** A job that ends without having made a bundle only stops running, and one that has made
    * one records something for .prev only if it remembers it.
    */
  lemma UnfinishedJobChangesNothing(u: Update, i: nat, gated: bool)
    requires Enabled(u, JobExits(i, gated))
    ensures var v := Step(u, JobExits(i, gated));
      && v.dirs == u.dirs && |v.jobs| == |u.jobs| && !v.jobs[i].running
      && (forall k | 0 <= k < |u.jobs| && k != i :: v.jobs[k] == u.jobs[k])
      && (!u.jobs[i].rotated ==> v.entry == u.entry && v.watches == u.watches && v.last == u.last)
      && (u.jobs[i].rotated ==> v.watches == u.watches + if gated then 1 else 0)
  {
  }

  /** Pruning removes the backup and nothing else. */
  lemma PruneForgets(u: Update)
    ensures var v := Step(u, PrunePrev);
      && Prev !in v.dirs && v == u.(dirs := v.dirs)
      && (forall p | p != Prev :: p in v.dirs <==> p in u.dirs) && (forall p | p in v.dirs :: v.dirs[p] == u.dirs[p])
  {
  }

  // ---- the conditions are needed ----------------------------------------------------------

  /** A pull on a built entry registers and remembers image and digest, while base and
    * base digest go on describing the bundle. Afterwards the registry is right if and
    * only if the pulled image is the one the old bundle was built on and what it had
    * recorded as image and digest, or as those of .prev, says so too.
    */
  lemma BuiltToImage(u: Update, toImage: string, made: Bundle, gated: bool)
    requires Describes(u) && !Upgrading(u.jobs) && Full(made.source) && u.entry.built && toImage != ""
    ensures var i := |u.jobs|;
      var u1 := Step(u, CallUpgrade(toImage));
      && Enabled(u1, Converts(i, made))
      && var u2 := Step(u1, Converts(i, made));
      && Enabled(u2, JobExits(i, gated))
      && (Describes(Step(u2, JobExits(i, gated))) <==>
            && made.source == LiveProv(u.entry)
            && Prov(Or(u.entry.image, u.entry.prevImage), Or(u.entry.digest, u.entry.prevDigest)) == LiveProv(u.entry))
  {
    var u1 := Step(u, CallUpgrade(toImage));
    assert u1.jobs[|u.jobs|] == Job(true, false, false, Prov(u.entry.image, u.entry.digest));
    var u2 := Step(u1, Converts(|u.jobs|, made));
    assert u2.dirs[Prev] == u.dirs[Live] && u2.dirs[Live] == made && Tmp !in u2.dirs;
    var u3 := Step(u2, JobExits(|u.jobs|, gated));
    assert u3.dirs == u2.dirs && LiveProv(u3.entry) == LiveProv(u.entry);
    assert PrevProv(u3.entry) == Prov(Or(u.entry.image, u.entry.prevImage), Or(u.entry.digest, u.entry.prevDigest));
  }

  /** When a failed watch rolls back under a running job, the live bundle and .prev
    * change places behind the job's back, which afterwards records what used to be
    * live, or had been .prev, as the source of .prev. Wherever the job stands, the
    * registry is right in the end if and only if the two bundles have the same source
    * and nothing else is recorded for .prev.
    */
  lemma OverlappingRollback(u: Update, i: nat, made: Bundle, gated: bool)
    requires OneRunning(u.jobs, i) && JobKnows(u, u.jobs[i])
    requires u.watches > 0 && Prev in u.dirs && Full(made.source)
    ensures var u1 := Step(u, WatchEnds(false, [true, true, true]));
      var rotated := u.jobs[i].rotated;
      && (!rotated ==> Enabled(u1, Converts(i, made)))
      && var u2 := if rotated then u1 else Step(u1, Converts(i, made));
      && Enabled(u2, JobExits(i, gated))
      && (Describes(Step(u2, JobExits(i, gated))) <==>
            u.dirs[Live].source == u.dirs[Prev].source && RecordsOnly(u.entry, u.dirs[Live].source))
  {
    if u.jobs[i].rotated {
      RollbackAfterRotation(u, i, gated);
    } else {
      RollbackBeforeRotation(u, i, made, gated);
    }
  }

  /** Each prev field is empty or says p. */
  predicate RecordsOnly(e: Entry, p: Prov) {
    (e.prevImage == "" || e.prevImage == p.image) && (e.prevDigest == "" || e.prevDigest == p.digest)
  }

  lemma WatchSwaps(u: Update)
    requires u.watches > 0 && u.dirs.Keys == {Live, Prev}
    ensures var u1 := Step(u, WatchEnds(false, [true, true, true]));
      && u1.dirs == map[Live := u.dirs[Prev], Prev := u.dirs[Live]] && u1.jobs == u.jobs
      && u1.entry == SwapProvenance(u.entry)
  {
    SwapExactly(u.dirs, [true, true, true]);
  }

  lemma RollbackBeforeRotation(u: Update, i: nat, made: Bundle, gated: bool)
    requires OneRunning(u.jobs, i) && !u.jobs[i].rotated && JobKnows(u, u.jobs[i])
    requires u.watches > 0 && Prev in u.dirs && Full(made.source)
    ensures var u1 := Step(u, WatchEnds(false, [true, true, true]));
      && Enabled(u1, Converts(i, made))
      && var u2 := Step(u1, Converts(i, made));
      && Enabled(u2, JobExits(i, gated))
      && (Describes(Step(u2, JobExits(i, gated))) <==> u.dirs[Live].source == u.dirs[Prev].source)
  {
    BothThere(u.dirs);
    WatchSwaps(u);
    var u1 := Step(u, WatchEnds(false, [true, true, true]));
    var u2 := Step(u1, Converts(i, made));
    assert u2.dirs == map[Live := made, Prev := u.dirs[Prev]];
    assert u2.jobs[i] == u.jobs[i].(rotated := true);
    var u3 := Step(u2, JobExits(i, gated));
    assert PrevProv(u3.entry) == LiveProv(u.entry) == u.dirs[Live].source;
  }

  lemma RollbackAfterRotation(u: Update, i: nat, gated: bool)
    requires OneRunning(u.jobs, i) && u.jobs[i].rotated && JobKnows(u, u.jobs[i])
    requires u.watches > 0 && Prev in u.dirs
    ensures var u1 := Step(u, WatchEnds(false, [true, true, true]));
      && Enabled(u1, JobExits(i, gated))
      && (Describes(Step(u1, JobExits(i, gated))) <==>
            u.dirs[Live].source == u.dirs[Prev].source && RecordsOnly(u.entry, u.dirs[Live].source))
  {
    BothThere(u.dirs);
    WatchSwaps(u);
    var u1 := Step(u, WatchEnds(false, [true, true, true]));
    var u2 := Step(u1, JobExits(i, gated));
    assert u2.dirs == map[Live := u.dirs[Prev], Prev := u.dirs[Live]];
    assert PrevProv(u2.entry) == u.jobs[i].prev == u.dirs[Prev].source;
    var l := u.dirs[Live].source;
    assert LiveProv(u2.entry) == LiveProv(SwapProvenance(u.entry))
      == Prov(Or(u.entry.prevImage, l.image), Or(u.entry.prevDigest, l.digest));
  }

  // ---- overlapping jobs --------------------------------------------------------------------

  /** Upgrades, conversions, job exits and passing watches, in any order: automatic
    * upgrades are not locked, so any number of jobs may be running.
    */
  predicate JobsOnly(u: Update, e: Event) {
    match e
    case CallUpgrade(toImage) => u.entry.built ==> toImage == ""
    case AutoUpgrade => true
    case Converts(_, made) => Full(made.source)
    case JobExits(_, _) => true
    case WatchEnds(healthy, _) => healthy
    case CallRollback(_) => false
    case PrunePrev => false
  }

  ghost predicate JobsRun(states: seq<Update>, events: seq<Event>) {
    IsRun(states, events) && forall i | 0 <= i < |events| :: JobsOnly(states[i], events[i])
  }

  predicate JobFits(e: Entry, j: Job) {
    j.running ==> j.build == e.built && Full(j.prev)
  }

  /** The live bundle is described, and every running job suits the entry. */
  predicate LiveRight(u: Update) {
    && Live in u.dirs && Tmp !in u.dirs
    && LiveProv(u.entry) == u.dirs[Live].source && Full(LiveProv(u.entry))
    && forall j | j in u.jobs :: JobFits(u.entry, j)
  }

  lemma StepLiveRight(u: Update, e: Event)
    requires LiveRight(u) && Enabled(u, e) && JobsOnly(u, e)
    ensures LiveRight(Step(u, e))
  {
    match e
    case CallUpgrade(toImage) => if !Upgrading(u.jobs) { StartedLiveRight(u, toImage); }
    case AutoUpgrade => StartedLiveRight(u, "");
    case Converts(i, made) => ConvertedLiveRight(u, i, made);
    case JobExits(i, _) => ChangedJobFits(u, i, u.jobs[i].(running := false), Step(u, e).entry);
    case WatchEnds(_, _) =>
  }

  lemma StartedLiveRight(u: Update, toImage: string)
    requires LiveRight(u) && (u.entry.built ==> toImage == "")
    ensures LiveRight(AfterUpgrade(u, toImage))
  {
  }

  lemma ConvertedLiveRight(u: Update, i: nat, made: Bundle)
    requires LiveRight(u) && Enabled(u, Converts(i, made)) && Full(made.source)
    ensures LiveRight(AfterConvert(u, i, made))
  {
    assert u.jobs[i] in u.jobs;
    ChangedJobFits(u, i, u.jobs[i].(rotated := true), AfterConvert(u, i, made).entry);
  }

  /** Jobs go on fitting an entry that is built, or not, as before. */
  lemma ChangedJobFits(u: Update, i: nat, j: Job, e: Entry)
    requires LiveRight(u) && i < |u.jobs| && JobFits(u.entry, j) && e.built == u.entry.built
    ensures forall k | k in u.jobs[i := j] :: JobFits(e, k)
  {
    forall k | k in u.jobs[i := j] ensures JobFits(e, k) {
      assert k == j || k in u.jobs;
    }
  }

  /** However many jobs overlap, the live bundle stays described. */
  lemma {:induction false} LiveStaysDescribed(states: seq<Update>, events: seq<Event>, i: nat)
    requires JobsRun(states, events) && LiveRight(states[0]) && i < |states|
    ensures LiveRight(states[i])
  {
    if i > 0 {
      LiveStaysDescribed(states, events, i - 1);
      StepLiveRight(states[i - 1], events[i - 1]);
    }
  }

  /** A job goes on remembering what it was started with. */
  lemma {:induction false} JobRemembers(states: seq<Update>, events: seq<Event>, a: nat, i: nat, e: nat)
    requires JobsRun(states, events) && a <= i < |states| && e < |states[a].jobs|
    ensures e < |states[i].jobs| && states[i].jobs[e].prev == states[a].jobs[e].prev
  {
    if i > a {
      JobRemembers(states, events, a, i - 1, e);
      assert states[i] == Step(states[i - 1], events[i - 1]);
    }
  }

  /** Step x recorded something for .prev, and no later one does. */
  ghost predicate LastRecord(states: seq<Update>, events: seq<Event>, x: nat, e: nat) {
    && IsRun(states, events) && x < |events| && events[x].JobExits? && events[x].job == e && states[x].jobs[e].rotated
    && forall k | x < k < |events| && events[k].JobExits? :: !states[k].jobs[events[k].job].rotated
  }

  lemma {:induction false} RecordStays(states: seq<Update>, events: seq<Event>, x: nat, e: nat, i: nat)
    requires JobsRun(states, events) && LastRecord(states, events, x, e) && x < i < |states|
    requires Full(states[x].jobs[e].prev)
    ensures PrevProv(states[i].entry) == states[x].jobs[e].prev
  {
    if i > x + 1 {
      RecordStays(states, events, x, e, i - 1);
      assert states[i] == Step(states[i - 1], events[i - 1]);
    } else {
      assert states[i] == Step(states[x], events[x]);
    }
  }

  /** Step b rotated the bundles, and no later one does. */
  ghost predicate LastRotation(states: seq<Update>, events: seq<Event>, b: nat) {
    IsRun(states, events) && b < |events| && events[b].Converts? && forall k | b < k < |events| :: !events[k].Converts?
  }

  lemma {:induction false} RotationStays(states: seq<Update>, events: seq<Event>, b: nat, i: nat)
    requires JobsRun(states, events) && LastRotation(states, events, b) && b < i < |states|
    requires Live in states[b].dirs
    ensures Prev in states[i].dirs && states[i].dirs[Prev] == states[b].dirs[Live]
  {
    if i > b + 1 {
      RotationStays(states, events, b, i - 1);
      assert states[i] == Step(states[i - 1], events[i - 1]);
    } else {
      assert states[i] == Step(states[b], events[b]);
    }
  }

  /** With overlapping jobs .prev is described in the end if and only if the job that
    * recorded last was started on a bundle of the same source as the one that the last
    * conversion moved to .prev. With one job at a time that is the same bundle.
    */
  lemma OverlappingJobs(states: seq<Update>, events: seq<Event>, a: nat, e: nat, b: nat, x: nat)
    requires JobsRun(states, events) && LiveRight(states[0])
    requires LastRotation(states, events, b) && LastRecord(states, events, x, e)
    requires a < x && |states[a].jobs| == e < |states[a + 1].jobs|
    ensures Describes(states[|events|]) <==> LiveProv(states[a].entry) == LiveProv(states[b].entry)
  {
    LiveStaysDescribed(states, events, a);
    LiveStaysDescribed(states, events, b);
    LiveStaysDescribed(states, events, |events|);
    assert states[a + 1] == Step(states[a], events[a]);
    assert states[a + 1].jobs[e].prev == LiveProv(states[a].entry);
    JobRemembers(states, events, a + 1, x, e);
    RecordStays(states, events, x, e, |events|);
    RotationStays(states, events, b, |events|);
  }

  /** An automatic upgrade that starts while another job is running and has not rotated
    * yet: if that job then rotates first, the registry is right in the end if and only
    * if what it made has the source of the old bundle.
    */
  lemma AutoUpgradeUnderJob(u: Update, i: nat, made: Bundle, other: Bundle)
    requires OneRunning(u.jobs, i) && !u.jobs[i].rotated && JobKnows(u, u.jobs[i])
    requires Full(made.source) && Full(other.source)
    ensures var k := |u.jobs|;
      var u1 := Step(u, AutoUpgrade);
      && Enabled(u1, Converts(i, made))
      && var u2 := Step(u1, Converts(i, made));
      && Enabled(u2, Converts(k, other))
      && var u3 := Step(u2, Converts(k, other));
      && Enabled(u3, JobExits(i, false))
      && var u4 := Step(u3, JobExits(i, false));
      && Enabled(u4, JobExits(k, false))
      && (Describes(Step(u4, JobExits(k, false))) <==> made.source == u.dirs[Live].source)
  {
    var k := |u.jobs|;
    var u1 := Step(u, AutoUpgrade);
    assert u1.jobs[k] == Job(true, false, u.entry.built, LiveProv(u.entry)) && u1.jobs[i] == u.jobs[i];
    var u2 := Step(u1, Converts(i, made));
    assert u2.dirs[Live] == made && LiveProv(u2.entry) == made.source && u2.jobs[k] == u1.jobs[k];
    var u3 := Step(u2, Converts(k, other));
    assert u3.dirs[Live] == other && u3.dirs[Prev] == made && LiveProv(u3.entry) == other.source;
    assert u3.jobs[k] == u1.jobs[k].(rotated := true) && u3.jobs[i].running;
    var u5 := Step(Step(u3, JobExits(i, false)), JobExits(k, false));
    assert u5.dirs == u3.dirs && LiveProv(u5.entry) == other.source && PrevProv(u5.entry) == LiveProv(u.entry);
  }

  // ---- as the daemon does it ---------------------------------------------------------------

  /** The files of one container and the daemon's records about them. */
  class Container {
    var entry: Entry
    var dirs: Dirs
    var jobs: seq<Job>
    var watches: nat
    var last: Outcome

    function Snapshot(): Update
      reads this
    {
      Update(entry, dirs, jobs, watches, last)
    }

    method Rename(m: Move, ok: bool) returns (done: bool)
      modifies `dirs
      ensures done == Applies(old(dirs), m, ok)
      ensures dirs == if done then Moved(old(dirs), m) else old(dirs)
    {
      done := ok && m.from in dirs && m.to !in dirs;
      if done {
        dirs := (dirs - {m.from})[m.to := dirs[m.from]];
      }
    }

    method Swap3(oks: seq<bool>) returns (done: bool)
      requires |oks| == 3
      modifies `dirs
      ensures Swap(dirs, done) == RollbackSwap(old(dirs), oks)
    {
      if Prev !in dirs {
        return false;
      }
      ghost var d0 := dirs;
      assert DANCE[1..] == [DANCE[1], DANCE[2]] && [DANCE[1], DANCE[2]][1..] == [DANCE[2]];
      assert oks[1..][1..] == oks[2..] && oks[2..][0] == oks[2];
      done := Rename(Move(Live, Tmp), oks[0]);
      if !done { return; }
      assert Renames(d0, DANCE, oks) == Renames(dirs, [DANCE[1], DANCE[2]], oks[1..]);
      done := Rename(Move(Prev, Live), oks[1]);
      if !done { return; }
      assert Renames(d0, DANCE, oks) == Renames(dirs, [DANCE[2]], oks[2..]);
      done := Rename(Move(Tmp, Prev), oks[2]);
    }

    method SwapRecords()
      modifies `entry
      ensures entry == SwapProvenance(old(entry))
    {
      var pi, pd := entry.prevImage, entry.prevDigest;
      if pi == "" && pd == "" {
        return;
      }
      if entry.built {
        var ci, cd := entry.base, entry.baseDigest;
        if pi != "" { entry := entry.(base := pi); }
        if pd != "" { entry := entry.(baseDigest := pd); }
        entry := entry.(prevImage := ci, prevDigest := cd);
        return;
      }
      var ci, cd := entry.image, entry.digest;
      entry := entry.(image := if pi == "" then ci else pi, digest := if pd == "" then cd else pd);
      entry := entry.(prevImage := ci, prevDigest := cd);
    }

    /** is_upgrading */
    method IsUpgrading() returns (busy: bool)
      ensures busy <==> Upgrading(jobs)
    {
      var i := 0;
      while i < |jobs|
        invariant 0 <= i <= |jobs|
        invariant forall k | 0 <= k < i :: !jobs[k].running
      {
        if jobs[i].running {
          return true;
        }
        i := i + 1;
      }
      return false;
    }

    method Upgrade(toImage: string) returns (started: bool)
      modifies `jobs
      ensures Snapshot() == AfterUpgrade(old(Snapshot()), toImage)
      ensures started <==> jobs != old(jobs)
    {
      if entry.built && toImage == "" {
        jobs := jobs + [Job(true, false, true, Prov(entry.base, entry.baseDigest))];
        return true;
      }
      if entry.image == "" && toImage == "" {
        return false;
      }
      jobs := jobs + [Job(true, false, false, Prov(entry.image, entry.digest))];
      return true;
    }

    /** The ubus surface of upgrade: one at a time. */
    method UpgradeCall(toImage: string) returns (started: bool)
      modifies `jobs
      ensures Snapshot() == Step(old(Snapshot()), CallUpgrade(toImage))
    {
      var busy := IsUpgrading();
      if busy {
        return false;
      }
      started := Upgrade(toImage);
    }

    method RollbackCall(oks: seq<bool>) returns (done: bool)
      requires |oks| == 3
      modifies `dirs, `entry
      ensures Snapshot() == Step(old(Snapshot()), CallRollback(oks))
      ensures done <==> !Upgrading(jobs) && RollbackSwap(old(dirs), oks).done
    {
      var busy := IsUpgrading();
      if busy || Prev !in dirs {
        return false;
      }
      done := Swap3(oks);
      if done { SwapRecords(); }
    }

    /** job_exit_cb without the restart, which is the supervisor's. */
    method JobExit(i: nat, gated: bool)
      requires i < |jobs| && jobs[i].running
      modifies this
      ensures Snapshot() == AfterExit(old(Snapshot()), i, gated)
    {
      var j := jobs[i];
      jobs := jobs[i := j.(running := false)];
      if j.rotated {
        if gated { last := NoOutcome; }
        if j.prev.image != "" || j.prev.digest != "" {
          if j.prev.image != "" { entry := entry.(prevImage := j.prev.image); }
          if j.prev.digest != "" { entry := entry.(prevDigest := j.prev.digest); }
        }
        if gated { watches := watches + 1; }
      }
    }

    /** The done callback that job_exit_cb passes to watch_health. */
    method WatchDone(healthy: bool, oks: seq<bool>)
      requires watches > 0 && |oks| == 3
      modifies this
      ensures Snapshot() == AfterWatch(old(Snapshot()), healthy, oks)
    {
      watches := watches - 1;
      if healthy {
        last := Verified;
        return;
      }
      var done := Swap3(oks);
      if done {
        last := RolledBack;
        SwapRecords();
      } else {
        last := RollbackFailed;
      }
    }
  }
}
