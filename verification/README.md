# Verification of uxcd

A Dafny 4.11 model of the container daemon `uxcd` (`src/container.cpp`), the upgrade lock of
its ubus surface (`src/main.cpp`) and its compose reader (`src/compose.cpp`), with proofs of
what they promise. `dafny verify dfyconfig.toml` checks everything.

## What is modelled

**The supervisor.** `Supervisor.dfy` and `SupervisorSteps.dfy` describe the daemon as a state
machine: containers, registry, a multiset of pending timers, the children not yet reaped
(jails, port forwarders, health workers) by process id, and a clock. A step is one uloop
callback: an operator call, a child exit, a timer, a finished upgrade job, the adoption of a
running jail, a name registered at boot or by `create`, an edit of the registry files. What a callback sees of the outside world is an
`Env`; timers may fire in any order and at any time after they are armed, which only adds runs to those
the theorems speak of. `launch`, which starts
dependencies recursively, is a set of mutually recursive functions that terminate because the
containers not wanted up strictly shrink. `SupervisorDaemon.dfy` is the same daemon in the form
of the source, a class whose fields the callbacks update; each method is proved to take exactly
the step of the state machine, so what holds of every run holds of it.

`SupervisorInvariant.dfy` and `SupervisorRuns.dfy` prove the invariant of every run. From it
follow: one live instance per container, no lost relaunch, announced and well-aimed kills,
published ports that end with their service, a bounded crash loop (`SupervisorSafety.dfy`; that the bound
is reached: `SupervisorCrashes.dfy`).
`SupervisorFrames.dfy` proves what a launch can change, by one induction over its recursive
starts, and that every step is a change of one container's own record followed by what a launch
of that container does. The other half, what does happen: `SupervisorLaunches.dfy` proves by a second
induction what a launch brings about, dependencies included, and `SupervisorCalls.dfy` carries that to the
calls, finished upgrades and watches that launch; `SupervisorSignals.dfy` shows that timers wait until they
fire and that every stop signal is followed up; `SupervisorPorts.dfy` that published ports come back;
`SupervisorLasting.dfy` that a running instance lasts until its exit.

On this rest: no circular waiting and bounded waits for dependencies (`SupervisorWaiting.dfy`), and a
run with a circular wait among invalid names (`SupervisorRing.dfy`); that a stop lasts, that a restart
comes back exactly when the container may respawn, and what becomes of registry and records
(`SupervisorScope.dfy`); that the health of a container is what the rules of `Health.dfy` make of what
was observed of it (`SupervisorHealth.dfy`); that a verified upgrade was measured on the new
instance (`SupervisorUpgrade.dfy`), and that it need not be when an adopted jail dies under a probe
(`SupervisorStaleProbe.dfy`). `SupervisorTraces.dfy` builds single runs step by step and says what it means
that none of their timers fires before its time. The `History` of a container is auxiliary: it records why
a container was left down, what it waits for and which instance a health cycle measured,
and no step decides on it. `DependencyGraph.dfy` holds the loop search; `Health.dfy` proves what
sequences of health verdicts can bring about.

**Safe update and rollback.** `SafeUpdate.dfy`: the bundle directories under three names, the
provenance fields of the registry entry, upgrade jobs and health watches. The external converter
is one step with the contract of `docs/images.md:337-339`.

**The mount merge.** `MountMerge.dfy`: the passes of `build_launch_config` over the mount list,
against an override by destination; `MountEntries.dfy`: what the texts of volumes and tmpfs entries mean,
read back from how they are written and followed through the merge.

**Compose files.** `ComposeYaml.dfy` (lexers, parser, rendering), `ComposeRoundTrip.dfy` (reading
inverts writing), `ComposeKeys.dfy` (which texts can be keys), `ComposeNoise.dfy`
(comments, silent lines, line ends and lines that are only warned about) and `ComposeReader.dfy` (the
loops and the shared position of the source).

**Smaller algorithms.** `TextLines.dfy` and `LogCapture.dfy` (line splitting, rotation), `Cron.dfy` and
`Scheduler.dfy` (matcher, minute scheduler), `Base64.dfy` (RFC 4648, section 4, and the PEM lines).

The classes `Daemon`, `Container`, `LaunchConfig`, `Log` and `Parser` are the code in the form of the
source. Each method is proved to do what a function of the old state says. The table lists the theorems
about these functions, and of the methods those with a loop, recursion or several outcomes; the
handlers of `Daemon` that follow their functional form clause by clause are summed up by `Handle`.

Where the code is narrower than its comments the code is followed:

- The comment of `restart` (`src/container.cpp:4437-4451`) suggests that a running container always
  comes back; `RestartComesBack` shows that it does if and only if `respawn` is set.
- A comment of `remove` (`src/container.cpp:4505-4506`) says that the exit of a running container drops
  its record. `adopt_watchdog` does not look at the registry: `RemovedIsDropped` shows that the record
  of an adopted container stays.
- A stable exit resets the crash count and still schedules a relaunch (`src/container.cpp:2143-2167`),
  so `max_restarts` bounds the relaunches after it only up to one: `CrashLoopIsBounded`,
  `BoundIsReached`.
- `adopt_watchdog` leaves a running health worker alone (`src/container.cpp:2220-2231`) while
  `proc_exit_cb` cancels it. `AdoptedExitEarned` says exactly when that breaks the tie of a verdict to the
  running instance, `StaleProbeCanVerify` how an upgrade is then verified on the old one, and
  `StaleProbeVerifies` gives a whole run.
- `swap_provenance` keeps a field whose counterpart is empty (`src/container.cpp:2455-2458`);
  `ProvenanceTwice` gives the exact condition under which swapping twice restores the entry.
- An explicit image for a built entry is pulled (`src/container.cpp:3765-3791`), while base and base
  digest go on describing the bundle; `BuiltToImage` says when that is right.
- A failed watch rolls back even while a later upgrade job runs, and automatic upgrades are not locked
  (`src/container.cpp:2391-2394`); `OverlappingRollback` and `OverlappingJobs` say exactly when the
  registry is right afterwards.
- A log that can neither be renamed nor emptied stays above its limit (`src/container.cpp:699-707`):
  `LogIsCapped`, `CapCanFail`.
- The infra resolver is appended without looking at what is there, and a device directory listed
  twice is bound twice (`src/container.cpp:1369-1380`, `src/container.cpp:1551-1563`); `MergeDistinct`
  is an equivalence with both conditions.
- A container whose registry file has an invalid name can be adopted but is not followed by the
  loop search (`src/container.cpp:2783-2795`); `NoCircularWait` says that a ring of waiting
  containers needs two such names, and `RingArises` is a run in which there is one.
- Quotes that a key leaves open hide its colon, and an escaped quote counts like any other
  (`src/compose.cpp:59-81`): every text can be written as a value, but not every text as a key.
  `DoubleKeyExactly`, `SingleKeyExactly` and `PlainKeyExactly` say which.
- For the same reason a hash behind a line that leaves a quote open starts no comment
  (`src/compose.cpp:59-68`): `OpenQuoteHidesComment` is an equivalence.
- A restart looks at the bundle in the record, not in the registry file (`src/container.cpp:4439-4443`): after
  an edit of the file behind the daemon a finished upgrade may find none. `UpgradeBrings` says exactly when
  it restarts the container.

Assumptions: process ids are never reused, the clock is positive and does not run backwards, the
outside world does not change during one callback, the local time zone is a whole number of minutes
from UTC, and delays and counters are unbounded integers.

## Model

| member | source | states |
|---|---|---|
| `DependencyGraph.DepCycle` | src/container.cpp:2752-2777 | A chain comes back exactly when the target can be reached over at least one edge; it is the text of a real walk with different inner nodes |
| `DependencyGraph.Search.Walk` | src/container.cpp:2758-2769 | On failure everything newly seen is closed under edges and never points at the target; on success the path stack is the way there; it ends on every graph |
| `Health.FailsAreCounted` | src/container.cpp:1012-1046 | hc_fails is the number of counted failures since the last pass, idle tick or auto-restart, wherever a trace is cut |
| `Health.UnhealthyIsEarned` | src/container.cpp:1025-1031 | A container is reported unhealthy only on a counted failure that completes hc_retries of them, as configured at that moment, in an unbroken run |
| `Health.RestartsArePaced` | src/container.cpp:1033-1042 | Two auto-restarts are at least hc_retries counted failures apart |
| `Health.UnhealthyReportsAlternate` | src/container.cpp:1012-1046 | Between two unhealthy events lies a healthy event or a reset to unknown |
| `Health.EnoughFailuresAreReported` | src/container.cpp:1025-1031 | Without auto-restart, hc_retries counted failures with no pass or reset among them do end unhealthy |
| `Health.EnoughFailuresRestart` | src/container.cpp:1033-1042 | With auto-restart, such a stretch of failures of running instances does restart the container |
| `SupervisorHealth.HealthIsTrace` | src/container.cpp:1076-1162 | In every run the health of a container is what the verdict rules make of the exits, ticks and finished cycles observed of it, under the policy it has at each, so the theorems about traces hold of the daemon |
| `SupervisorHealth.UnhealthyInRun` | src/container.cpp:1012-1070 | A container of a run is unhealthy only after hc_retries counted failures with no pass, idle tick or auto-restart among them, hc_retries being what it was at the report, however the registry is edited |
| `SupervisorInvariant.LaunchKeeps` | src/container.cpp:2797-2992 | A launch, entered for a container that is wanted up without an instance, keeps the invariant for all containers outside the launches under way |
| `SupervisorInvariant.StartKeeps` | src/container.cpp:4370-4384 | So does a start nested in a launch, which never re-enters a container on the stack |
| `SupervisorRuns.StepKeeps` | src/container.cpp:2123-2168 | Every callback keeps the invariant, whatever the outside world answers |
| `SupervisorRuns.RunKeeps` | src/container.cpp:3002-3069 | Hence every state of every run of the daemon satisfies it; names may be registered, running jails adopted and registry files edited at any time, as at boot |
| `SupervisorFrames.LaunchLaunched` | src/container.cpp:2797-2992 | A launch changes no container but its own and those it depends on, directly or through others; it stops or replaces no running instance, says nothing about health, and defers only to a dependency that cannot lead back |
| `SupervisorFrames.StepSplits` | src/container.cpp:2123-2739 | Every callback changes the record of one container and otherwise only what a launch of that container changes; only probes, worker exits and the end of an adopted jail can improve what is known of its health |
| `SupervisorLaunches.LaunchBrings` | src/container.cpp:2797-2992 | A launch sees to its dependencies in order: each one serves, or is brought up though it can lead back, or the patience is over. At the first that is none of these it brings that one up, arms a relaunch and waits. Otherwise it forks if and only if bundle, mounts, infra, shadow bundle, pipe and fork are there, with health tick and ports seen to; else it is tried again, parked for the reason that holds, or gives up on a hopeless infra, exactly then. Whoever else changed was down, unwanted and startable, and was started in the same sense |
| `SupervisorLaunches.ExcusedLaunchAlone` | src/container.cpp:2809-2849 | A launch whose dependencies all serve, or with its patience over and no loop among them, changes no other container and waits for nobody |
| `SupervisorLaunches.StartRaises` | src/container.cpp:2839-2854 | Starting a dependency that is down and not wanted forks it, arms a relaunch or parks it for a reason, if its name is valid and it has a bundle |
| `SupervisorCalls.StartBrings` | src/container.cpp:4370-4384 | start: a running container goes on, wanted and without crashes; one that is down is launched with fresh patience; without a bundle nothing happens |
| `SupervisorCalls.RestartBrings` | src/container.cpp:4437-4451 | restart: a running instance is told to stop with its grace timer armed; a container that is down is launched; without a bundle or with an invalid name nothing happens |
| `SupervisorCalls.RelaunchBrings` | src/container.cpp:2123-2130 | A relaunch timer launches its container if that is wanted up and has no instance, and does nothing otherwise |
| `SupervisorCalls.RollbackBrings` | src/container.cpp:3797-3810 | A rollback by hand whose swap succeeds restarts the container in the same sense |
| `SupervisorCalls.UpgradeBrings` | src/container.cpp:2600-2623 | So does a finished upgrade, if and only if the restart finds a valid name and a bundle |
| `SupervisorCalls.UpgradeIsWatched` | src/container.cpp:2625-2635 | With safe update on and a healthcheck the upgrade is watched from then on, until the window and start_period are over, for an instance newer than the one that ran; otherwise nothing is |
| `SupervisorCalls.WatchPolls` | src/container.cpp:2577-2664 | A poll ends verified as soon as a newer instance is healthy, goes on before the deadline, and then rolls back and restarts if the swap succeeds, and records that it failed if not |
| `SupervisorSignals.TimersWait` | src/container.cpp:2123-2130 | A pending timer stays pending until it fires itself, whatever else happens |
| `SupervisorSignals.StopSignals` | src/container.cpp:4423-4435 | A stop tells a running instance to end and arms its grace timer, and changes nothing else but the wish |
| `SupervisorSignals.GraceKillsExactly` | src/container.cpp:4412-4420 | A jail is killed if and only if its grace timer fires while its container runs it, whatever the wish is |
| `SupervisorSignals.SignalsAreFollowedUp` | src/container.cpp:4404-4421 | In every run a jail that was told to stop and lives has been killed or has its grace timer pending |
| `SupervisorHealth.TickProbes` | src/container.cpp:1076-1183 | A tick comes back as long as there is a healthcheck; it starts a probe of the running instance if the checks can block, leaves one under way alone, and judges at once otherwise |
| `SupervisorHealth.VerdictSignals` | src/container.cpp:1033-1042 | A finished cycle tells the instance to stop and arms its grace timer exactly if the verdict rules restart it |
| `SupervisorPorts.StartServes` | src/container.cpp:1993-2075 | Starting a forwarder ends an old one and its count of respawns, and forks a new one that is looked at shortly, or the record says that the ports are not published |
| `SupervisorPorts.ForwarderExitRetries` | src/container.cpp:1963-1989 | A forwarder that ends while its container serves is put back FWD_MAX_RESTARTS times, then the record says that it is not |
| `SupervisorPorts.RetryServes` | src/container.cpp:1979-1986 | A retry that finds its container serving without a forwarder starts one; any other does nothing |
| `SupervisorPorts.CheckFinds` | src/container.cpp:2034-2073 | A forwarder that died at once is found out and recorded |
| `SupervisorPorts.ExitForgetsRespawns` | src/container.cpp:1868-1876 | The end of an instance, launched or adopted, ends the count of respawns of its forwarder |
| `SupervisorLasting.StepLasts` | src/container.cpp:2123-2739 | A running instance lasts through every event but its exit, wanted up until it is stopped or removed, and so does its forwarder until that ends |
| `SupervisorSafety.OneLiveInstance` | src/container.cpp:2797-2992 | Jails and running containers correspond one to one, over every interleaving |
| `SupervisorSafety.NoLostRelaunch` | src/container.cpp:2123-2168 | A container wanted up and not running has a relaunch pending or was parked: no bundle, pipe or fork failure, respawn off |
| `SupervisorSafety.KillsAreAnnounced` | src/container.cpp:4404-4421 | Every killed jail got its stop signal before, and pending grace timers name signalled jails |
| `SupervisorSafety.KillHitsTheRunningInstance` | src/container.cpp:4412-4420 | A kill hits exactly the instance its grace timer was armed for, while its container runs it |
| `SupervisorSafety.PortsFollowTheService` | src/container.cpp:1868-1876 | A tracked forwarder implies a running container, there is one per container at most, and at most FWD_MAX_RESTARTS respawns between deliberate stops |
| `SupervisorSafety.BackoffGrows` | src/container.cpp:2159-2167 | Delays of a crash streak never shrink, never pass the cap, and are base times a power of two up to the sixth |
| `SupervisorSafety.CrashLoopIsBounded` | src/container.cpp:2135-2168 | At most max_restarts relaunches are scheduled after a start or restart by hand, and at most one more after the exit of a stable run, whose own relaunch is the first |
| `SupervisorCrashes.BoundIsReached` | src/container.cpp:2143-2157 | For every max_restarts above zero a run from the start of the daemon, with every timer in its time, reaches the bound: max_restarts + 1 relaunches after a stable exit, then the next rapid crash gives up |
| `SupervisorSafety.ExitClearsChildren` | src/container.cpp:2695-2739 | The exit of an instance leaves no jail, forwarder or worker of its container behind; that of an adopted one leaves exactly the worker under way |
| `SupervisorSafety.RespawnExactly` | src/container.cpp:2135-2168 | An exit arms exactly one relaunch, and counts it, when the container is wanted, may respawn and ran long enough or has crashes left; otherwise none, and it gives up |
| `SupervisorWaiting.RunWaits` | src/container.cpp:2807-2862 | Under a fixed registry a container only ever waits for a listed dependency that cannot lead back to it |
| `SupervisorWaiting.NoCircularWait` | src/container.cpp:2779-2862 | No ring of containers waiting for each other arises, unless two different names in it are not valid |
| `SupervisorRing.RingArises` | src/container.cpp:2779-2862 | With two such names it does: a run, every timer in its time, in which two adopted containers end up waiting for each other |
| `SupervisorWaiting.DeferralsAreInTime` | src/container.cpp:2807-2862 | Every deferral of an unbroken wait comes within start_timeout of the first |
| `SupervisorWaiting.TimeoutFailsOpen` | src/container.cpp:2846-2849 | Once the timeout has passed the dependency loop lets the launch through, whatever the dependencies do |
| `SupervisorWaiting.LaunchEndsTheWait` | src/container.cpp:2846-2862 | A launch after the timeout waits for nobody and clears the wait |
| `SupervisorWaiting.InfraGiveUpExactly` | src/container.cpp:2862-2899 | Behind the dependencies a launch gives up if and only if the mounts are there and the infra is missing, was never up for this container and has been waited for long enough; otherwise a missing infra is waited for with a relaunch |
| `SupervisorWaiting.LaunchGivesUp` | src/container.cpp:2797-2899 | So a launch as a whole gives up on nothing but such an infra |
| `SupervisorScope.StopTakesEffect` | src/container.cpp:4423-4435 | A running container that is stopped is down once its instance has ended, launched or adopted, and no relaunch is armed |
| `SupervisorScope.StopLasts` | src/container.cpp:4423-4435 | A stopped container stays down through every step that does not start, restart, upgrade or watch it or one that depends on it; stale relaunch timers do nothing |
| `SupervisorScope.StopLastsInRun` | src/container.cpp:2123-2130 | So it does along every stretch of a run without such a step |
| `SupervisorScope.RemovedIsDropped` | src/container.cpp:4501-4522 | A running container that is removed disappears with its instance if and only if it was not adopted; the record of an adopted one stays, stopped |
| `SupervisorScope.RestartComesBack` | src/container.cpp:4437-4451 | After a restart of a running container the exit, of a launched or an adopted instance, arms a relaunch if and only if it may respawn |
| `SupervisorScope.RegistryFollows` | src/container.cpp:3457-3494 | Over every event the registry changes by setconfig, remove and edits of its files alone; writing provenance back leaves it as far as the supervisor reads it |
| `SupervisorScope.RemoveTakesEffect` | src/container.cpp:4501-4522 | A container removed while down is forgotten with its probe; a running one is told to stop |
| `SupervisorScope.AdoptionTakesOver` | src/container.cpp:3029-3048 | A jail of a previous daemon life becomes the instance of its container, wanted up, probed and published again |
| `SupervisorUpgrade.AdoptedExitEarned` | src/container.cpp:2212-2233 | The exit of an adopted jail keeps health verdicts tied to the running instance if and only if no probe that can still pass is under way |
| `SupervisorUpgrade.JailExitEarned` | src/container.cpp:2695-2739 | The exit of a launched jail always does |
| `SupervisorUpgrade.RunEarned` | src/container.cpp:1049-1070 | So does every run in which this container has no such exit: healthy means a cycle passed on the running instance |
| `SupervisorUpgrade.WatchOrigin` | src/container.cpp:2604-2635 | Every pending watch was armed by a finished upgrade of its container, with the launch time of the instance running then |
| `SupervisorUpgrade.VerifiedIsEarned` | src/container.cpp:2577-2587 | If the watched container has no such exit, a watch passes only for an instance forked at or after the upgrade's restart, on a verdict that measured this instance |
| `SupervisorStaleProbe.StaleProbeCanVerify` | src/container.cpp:2212-2233 | From every state with such an exit of a watched container, if the window stays open for start_timeout and a second more, some run goes on within the window, with no timer, until the watch would pass on the verdict about the old instance |
| `SupervisorStaleProbe.StaleProbeVerifies` | src/container.cpp:2212-2233 | A whole run from the start of the daemon, with every timer in its time, that does so before the deadline |
| `SupervisorDaemon.Daemon.LaunchNow` | src/container.cpp:2862-2992 | Mounts, infra, shadow bundle and fork in order |
| `SupervisorDaemon.Daemon.AwaitDependencies` | src/container.cpp:2812-2861 | The dependency loop is the recursive specification that the theorems are about |
| `SupervisorDaemon.Daemon.LaunchContainer` | src/container.cpp:2797-2992 | launch as a whole, with the recursive starts |
| `SupervisorDaemon.Daemon.StartContainer` | src/container.cpp:4370-4384 | A known container with a bundle is wanted up with cleared counters, and is launched if it has no instance |
| `SupervisorDaemon.Daemon.Handle` | src/container.cpp:2123-2739 | Every callback is a step of the state machine, keeps the invariant, leaves the daemon safe (one instance each, no lost relaunch, ports with their service), and kills only the signalled instance a container runs |
| `SupervisorDaemon.Daemon.Run` | src/container.cpp:3002-3069 | From its start the daemon goes through the states of the run, so what holds of every run holds of it |
| `SafeUpdate.RenamesConserve` | src/container.cpp:2413-2424 | Any sequence of renames, cut off anywhere, loses and doubles no bundle |
| `SafeUpdate.StoppedAnywhere` | src/container.cpp:2418-2422 | After any prefix of the three renames each of the two bundles is at exactly one name |
| `SafeUpdate.SwapExactly` | src/container.cpp:2413-2424 | rollback_swap succeeds exactly with both bundles there, the temporary name free and no rename refused; then the bundles have changed places |
| `SafeUpdate.SwapTwice` | src/container.cpp:2410-2412 | Swapping twice puts everything back |
| `SafeUpdate.ProvenanceTwice` | src/container.cpp:2426-2462 | Swapping the provenance twice restores the entry exactly when nothing is recorded for .prev, or image and digest are recorded for both bundles or for none |
| `SafeUpdate.RunSound` | src/container.cpp:2589-2669 | The invariant of the protocol over any orderly run, jobs under way included: no rename refused, no explicit image for a built entry, no failed watch or automatic upgrade under a job |
| `SafeUpdate.RegistryDescribesTheBundles` | src/container.cpp:3753-3810 | Whenever no job runs, image and digest describe the live bundle and prev_image and prev_digest the backup, over any mix of locked upgrades, rollbacks, watches and prunes in an orderly run |
| `SafeUpdate.UpgradeGoesThrough` | src/container.cpp:2604-2620 | An undisturbed upgrade leaves the new bundle live, the old one as .prev, and both described |
| `SafeUpdate.UpgradeOutcome` | src/container.cpp:2635-2664 | Its watch ends in exactly one of verified, rolled back with the old provenance, or rollback failed with no bundle lost |
| `SafeUpdate.RollbackInTheWindow` | src/container.cpp:2637-2644 | A rollback by hand within the health window is followed by "verified" with the old bundle live |
| `SafeUpdate.LiveStays` | src/container.cpp:2604-2635 | Without a conversion, a rollback or a failed watch the new bundle stays live, so every instance forked during the watch runs it |
| `SafeUpdate.CallsTurnedAway` | src/main.cpp:373-391 | An upgrade by hand does nothing if and only if a job runs or there is no image to pull; a rollback by hand nothing while a job runs or without a backup |
| `SafeUpdate.UnfinishedJobChangesNothing` | src/container.cpp:2589-2635 | A job that made no bundle only stops running; one that did is watched exactly if it is gated |
| `SafeUpdate.BuiltToImage` | src/container.cpp:3765-3792 | Upgrading a built entry to an explicit image leaves the registry right if and only if that image is the recorded base and what is recorded as image and digest, or as those of .prev, says so too |
| `SafeUpdate.OverlappingRollback` | src/container.cpp:2645-2656 | A failed watch under a running job, rotated or not, leaves the registry right if and only if the two bundles have the same source and nothing else is recorded for .prev |
| `SafeUpdate.LiveStaysDescribed` | src/container.cpp:2391-2394 | However many jobs overlap, image and digest go on describing the live bundle |
| `SafeUpdate.OverlappingJobs` | src/container.cpp:2391-2394 | With overlapping jobs .prev is described in the end if and only if the job that recorded last was started on the same source as the last conversion moved away |
| `SafeUpdate.AutoUpgradeUnderJob` | src/container.cpp:2391-2394 | An automatic upgrade under a job that rotates first leaves the registry right if and only if that job made a bundle of the old source |
| `SafeUpdate.Container.Swap3` | src/container.cpp:2413-2424 | The three renames in place are the specified swap |
| `SafeUpdate.Container.SwapRecords` | src/container.cpp:2430-2462 | swap_provenance in place, for pulled and built entries |
| `SafeUpdate.Container.IsUpgrading` | src/container.cpp:3072-3077 | True exactly when some job of the container runs |
| `SafeUpdate.Container.UpgradeCall` | src/main.cpp:373-382 | One upgrade at a time: a running job turns the call away |
| `SafeUpdate.Container.RollbackCall` | src/main.cpp:384-391 | A running job turns the call away; otherwise swap, then provenance |
| `SafeUpdate.Container.Upgrade` | src/container.cpp:3753-3792 | A built entry is rebuilt unless an image is given; the job remembers what its kind of upgrade would restore |
| `SafeUpdate.Container.JobExit` | src/container.cpp:2589-2635 | What was upgraded from is recorded field by field, if it is known |
| `SafeUpdate.Container.WatchDone` | src/container.cpp:2637-2664 | The done callback of the watch |
| `MountMerge.PassesAreOverride` | src/container.cpp:1383-1574 | Filter-and-append, edit by edit, gives the untouched mounts in order followed by what was added and not taken away again |
| `MountMerge.LastPassWins` | src/container.cpp:1369-1574 | At every destination the last pass that names it decides; a listed device that is no directory leaves nothing |
| `MountEntries.EveryVolumeIsRead` | src/container.cpp:1385-1391 | Every text with a colon is the text of one volume; the others are skipped |
| `MountEntries.VolumeIsMounted` | src/container.cpp:1383-1426 | A volume that nothing later replaces is the one mount at its destination, from its source, read-only exactly if its option is ro |
| `MountEntries.TmpfsIsMounted` | src/container.cpp:1428-1457 | So is a tmpfs, with nosuid, nodev and its size if it has one |
| `MountEntries.ShmIsMounted` | src/container.cpp:1430-1431 | The shared memory size is the last word on /dev/shm |
| `MountEntries.BindsAreMounted` | src/container.cpp:1469-1562 | The own cgroup is bound read-only, a device directory once per listing, and a listed device that is none leaves nothing |
| `MountEntries.RestIsKept` | src/container.cpp:1369-1380 | Elsewhere the bundle's mounts stay, with the infra's resolver behind them, read-only |
| `MountEntries.NamelessStay` | src/container.cpp:1500-1513 | A mount without a destination stays, unless the empty device is listed |
| `MountMerge.MergeDistinct` | src/container.cpp:1369-1574 | Destinations are distinct if and only if the untouched ones are, with the resolver among them, and no device directory is listed twice |
| `MountMerge.DistinctBundleMerges` | src/container.cpp:1369-1380 | For a distinct bundle only a resolver clash or a doubled device directory can break that |
| `MountMerge.DistinctCanFail` | src/container.cpp:1551-1563 | Both can happen |
| `MountMerge.LaunchConfig.AddVolumes` | src/container.cpp:1383-1426 | Each volume replaces what is at its destination |
| `MountMerge.LaunchConfig.AddTmpfs` | src/container.cpp:1428-1457 | So does each sized tmpfs; empty destinations are skipped |
| `MountMerge.LaunchConfig.DropDevices` | src/container.cpp:1498-1513 | One scan removes the mounts at all listed devices |
| `MountMerge.LaunchConfig.BindDirectories` | src/container.cpp:1551-1562 | A bind is appended for every listing of a device directory |
| `MountMerge.LaunchConfig.Build` | src/container.cpp:1369-1574 | All passes in place are the merge the theorems are about |
| `ComposeRoundTrip.QuoteInverts` | src/compose.cpp:40-57 | Every text comes back from its quoted form, in which no comment can start and no key end, whatever quotes are open before it |
| `ComposeRoundTrip.EntryLine` | src/compose.cpp:72-81 | A rendered map line is split at its key colon into its key, if that can be a key at all, and any value |
| `ComposeRoundTrip.ItemLine` | src/compose.cpp:83-83 | A rendered sequence line reads back as its scalar, which may be any text, or as the start of a block |
| `ComposeRoundTrip.BlockInverts` | src/compose.cpp:103-130 | At any indentation, wherever the block stands, the parser returns the tree, reads exactly its lines and warns of nothing; scalars may be any texts |
| `ComposeRoundTrip.ParseInvertsRender` | src/compose.cpp:103-130 | The same for a whole document |
| `ComposeRoundTrip.VisibleLineLoads` | src/compose.cpp:85-101 | A rendered raw line survives comment filter and trimming with its indentation |
| `ComposeRoundTrip.ReadInvertsWrite` | src/compose.cpp:85-130 | From the text of a file: cutting it into lines, loading and parsing what was written gives the tree back |
| `ComposeNoise.StripKeepsTheFront` | src/compose.cpp:59-68 | Stripping keeps the front of a text up to its first comment, and all of it if there is none |
| `ComposeNoise.ReadDespiteNoise` | src/compose.cpp:85-130 | The tree comes back whatever comments stand behind lines that close their quotes, whatever blank, comment or document-mark lines stand between, and with carriage returns or not |
| `ComposeNoise.OpenQuoteHidesComment` | src/compose.cpp:59-68 | A comment behind a line is dropped if and only if the line closes its quotes |
| `ComposeNoise.LastNewlineIsOptional` | src/compose.cpp:88-89 | The last line needs no newline |
| `ComposeNoise.TabsAreRefused` | src/compose.cpp:90-94 | A file is refused if and only if some line is indented with a tab |
| `ComposeNoise.MapSkipsJunk` | src/compose.cpp:117-127 | In a flat map the lines that are no entry are warned about, exactly they, and the others are read in order |
| `ComposeNoise.ListSkipsLongForm` | src/compose.cpp:108-116 | So are long-form items in a flat list |
| `ComposeKeys.KeysAreKeyable` | src/compose.cpp:72-130 | Every key read from any line of a file is one that can be written, so the condition on keys in the round trip excludes no key a file can have |
| `ComposeKeys.DoubleKeyExactly` | src/compose.cpp:40-81 | A key can stand in double quotes if and only if its own quotes, read from an open double quote on, leave it open |
| `ComposeKeys.SingleKeyExactly` | src/compose.cpp:40-81 | In single quotes if and only if it is on one line, its own quotes leave the single quote open, and where they have closed it neither a key colon nor a comment comes |
| `ComposeKeys.PlainKeyExactly` | src/compose.cpp:40-83 | Plain if and only if it is trimmed, on one line, not itself in quotes, begins like no list item, closes its quotes, and outside them holds neither a key colon nor a comment |
| `ComposeKeys.NotEveryTextIsAKey` | src/compose.cpp:72-81 | A single quote followed by a double quote cannot be a key |
| `ComposeReader.FindKeyColon` | src/compose.cpp:72-81 | The flag-driven loop finds the first colon that is one |
| `ComposeReader.WithoutComment` | src/compose.cpp:59-68 | It cuts at the first hash that starts a comment |
| `ComposeReader.Decoded` | src/compose.cpp:46-51 | The escape loop |
| `ComposeReader.Load` | src/compose.cpp:85-101 | load_lines on a text, line by line, with the tab error |
| `ComposeReader.Parser.ParseBlock` | src/compose.cpp:103-130 | Terminates on every input, never moves back, and is the specified parser |
| `TextLines.LinesJoin` | src/container.cpp:718-725 | Cutting into lines and remainder loses nothing |
| `TextLines.LinesGoOn` | src/container.cpp:718-725 | Cutting a longer text goes on from the remainder |
| `LogCapture.ChunksDoNotMatter` | src/container.cpp:718-725 | However a stream is cut into reads, files and remainder come out the same |
| `LogCapture.NothingIsLost` | src/container.cpp:710-725 | With a log that can be opened, what has been written and the kept remainder are what was there before, followed by all data in order |
| `LogCapture.ClearForgets` | src/container.cpp:3846-3853 | A cleared log holds what comes afterwards and nothing from before, not even the beginning of a line |
| `LogCapture.RecentTextIsKept` | src/container.cpp:691-716 | With successful renames .log.1 and .log are the end of all text since the last clear, at least the limit or everything, below twice the limit plus the longest line |
| `LogCapture.LogIsCapped` | src/container.cpp:691-708 | After a clear .log is below the limit if and only if renaming or emptying it works or less than the limit was written; it is the end of what was written in every case |
| `LogCapture.CapCanFail` | src/container.cpp:699-707 | If neither works one line can reach the limit |
| `LogCapture.CloseIsNewline` | src/container.cpp:727-741 | Closing writes a remainder as if its newline had come |
| `LogCapture.Log.LogAppend` | src/container.cpp:718-725 | The find-and-erase loop writes the complete lines and keeps the rest |
| `Cron.FieldIsUnion` | src/container.cpp:2257-2282 | On rendered lists a field takes exactly the union of its stepped ranges |
| `Cron.EmptyEntriesAreSkipped` | src/container.cpp:2257-2282 | Empty entries of a list say nothing, wherever they stand |
| `Cron.OnlyFiveFieldsMatch` | src/container.cpp:2287-2305 | However the words of a rule are spaced, one with fewer or more than five never matches |
| `Cron.MatchIsRule` | src/container.cpp:2287-2305 | On rendered rules the match is the five-field rule with both Sundays and the day quirk |
| `Cron.CronField` | src/container.cpp:2257-2282 | The string loop is the recursive reading of the list, on every string |
| `Cron.CronMatch` | src/container.cpp:2287-2305 | Splitting and matching, on every string |
| `Scheduler.KeyInjective` | src/container.cpp:2327-2327 | The name, action and cron key tells any two rules apart |
| `Scheduler.PollOnce` | src/container.cpp:2325-2333 | In one poll a rule is due at most once, even if listed twice |
| `Scheduler.ExactlyOnce` | src/container.cpp:2313-2343 | Over polls at most a minute apart an enabled rule fires exactly once in every minute it matches, and never otherwise |
| `Scheduler.Daemon.RunScheduler` | src/container.cpp:2313-2334 | The nested loops compute the specified poll |
| `Base64.DecodeInvertsEncode` | src/container.cpp:4719-4736 | A decoder after section 4 of RFC 4648 recovers every byte string |
| `Base64.EncodeShape` | src/container.cpp:4719-4736 | Four characters per three bytes or part of them, padding only at the end |
| `Base64.B64Encode` | src/container.cpp:4719-4736 | The loop computes that encoding |
| `Base64.ChunksFit` | src/container.cpp:4755-4756 | Lines of 64 characters, the last one shorter at most, whose concatenation is the text |
| `Base64.Wrap` | src/container.cpp:4755-4756 | The wrapping loop writes those lines |
| `Base64.PemDecodes` | src/container.cpp:4755-4758 | The wrapped body decodes to the certificate |

## Left out

- fork, exec, setns, pipes, sockets, probes, /proc and cgroup reads: their outcomes are parameters of a step.
- ubus argument unpacking, logging, the event sink and the notify hook, except for health events.
- The lock in front of lifecycle, setconfig, remove and rename calls. Of these setconfig replaces the whole entry, its provenance included (`src/container.cpp:3457-3494`), and remove and rename end the entry; none of them is an event of the update protocol, whose theorems are about the time between two such calls.
- The infra watchdog, which only sends a signal to running containers; the exits it causes are exits like any other.
- Runtime knobs, out-of-memory bookkeeping and the config-changed signature: no modelled decision reads them.
- Failures of writing registry files: setconfig either rejects an entry or stores it.
- rename_container: to the supervisor it is a removal and an edit of the registry.
- The order of the map of containers in the watchdogs: each dead adopted container is its own step.
- Overflow of the shifted restart delay in 32 bits, which needs a base delay above a million seconds.
- Several containers sharing one bundle path, and the reasons for which an upgrade job is refused at its start besides a missing image; a refused one changes nothing.
- What else a pull or a build writes into the entry: registering provenance is taken from its contract, and a pull is taken to keep the build object of a built entry.
- RecentTextIsKept: whether renames and opens succeed is fixed for a whole run.
- LogIsCapped: the same; a disk that fails only at times is not covered.
- LogRotate: after a refused rename the source reopens without append mode (`src/container.cpp:705`), so that after a later clear the next line lands at the old offset behind a hole; the model appends it. The sizes the theorems speak of are those of the text.
- StaleProbeCanVerify: that a worker of a probe outlives its jail as long as the run needs is left to the environment; when the window ends before start_timeout has passed, a launch held up by a dependency can miss it, and nothing is claimed.
- Supervisor and safe update are two models: the success of a swap is a parameter of the supervisor, and health a parameter of the update protocol.
- Everything of build_launch_config besides the mount list: namespaces, environment, user, limits, capabilities, device nodes and the shadow-bundle guard.
- The translation of a parsed compose tree into registry entries.
- Indentation by other means than spaces, flow style, anchors and multi-line scalars, which the reader warns about or skips; the parser is modelled on them, the round trip is not stated for them. Maps and sequences without elements are not rendered either: the reader makes them only of lines that it skips with a warning.
- The daemon-wide update check at the end of run_scheduler, which uses the same matcher with one slot.
- list, info, metrics, images, doctor, console, uxc and uxe, and the web interface: reporting and plumbing.
