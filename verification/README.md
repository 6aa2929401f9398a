# A model of garm-provider-docker

garm-provider-docker is a GARM provider: GARM starts a short-lived process for every command, and each process
drives one Docker daemon to create, list or delete runner allocations. Processes share no lock and no local
state. What keeps them apart lives in the daemon:

- The job network of an instance is its claim. Network names are unique, so at most one create holds it.
- A random create-nonce names the generation. Every resource of a generation carries it in a label, and its
  volumes also carry it in their names.
- Every teardown removal passes a gate on labels: the generation captured when the teardown began, or a live
  read of the claim.
- A cache volume is its label set. Its name is only a slot.
- A throttle stamp is a container that is never started. Its name is the claim and its label is the time.

This project models those rules and proves what they give.

## How the model is laid out

- `Text`, `Names`, `LabelSpec`: strings, derived names, labels, filters, the ownership predicate.
- `Docker`, `TeardownScope`: the daemon's state and rules as values, and the removal gate. Both the interleaved
  and the sequential models use them.
- `Protocol`: every provider process as a program counter over daemon calls, interleaved call by call with other
  processes and with an outside actor. Any process may stop between two calls, any call may fail, and a create may
  take effect although it reports an error. `ProtocolInvariant` and `ProtocolSteps` hold the inductive invariant in
  rely/guarantee form. `ProtocolSafety`, `ProtocolOwnership` and `ProtocolPinning` hold what follows over whole runs.
  `ProtocolWitness` holds the runs that show where three expected properties stop.
- `DaemonCalls`: the daemon as an object with fields that its methods update, and a script of faults that makes any
  call fail before or after its effect. `Teardown`, `Deletion`, `Creation`, `CreationPipeline` and `Sweep` are the
  provider's own loops and sequences over that object, proved against functions and predicates on the daemon's state.
- `CacheSlots`, `CacheIdentity`, `CacheConvergence`: finding and creating a cache by identity, alone and with any
  number of processes at once.
- `Stamp`: the throttle stamp, with any number of processes and one clock.
- `ByteSize`, `RunnerEnv`, `StatusWatch`, `MountPath`, `RepoKey`: the smaller algorithms.

## What is assumed

- A create-nonce is 32 characters and new: no earlier attempt drew it, nothing carries it, and no existing volume
  name ends the way its volumes' names will. Outsiders do not create labelled volumes under such names, and do not
  set the label managed=true.
- Daemon identifiers are not reused, labels do not change, and a container never returns to the created state.
  Otherwise an outsider may start, stop, pause or remove any container at any time.
- The clock of the stamp protocol is one clock that never goes back.
- Hashes (cache slots, repository keys) are uninterpreted functions; that eight slots are eight names takes that the
  digest tells the attempts apart. Image inspections, pulls, credential fetches,
  execs and waits are calls that may fail and change nothing else.

## Where the code does not give what one would expect

- Not every removal target carries the controller's labels at the moment it goes. A teardown that has approved a
  volume removes by name, and if that volume was meanwhile removed by hand and brought back unlabelled by the
  runner's create, the unlabelled volume goes. `StrictOwnershipExactly` says that this is the only exception,
  `RemnantHit` gives the run, and `OwnershipFrame` says that the volume still bears the name of one of the
  controller's own generations.
- A runner is not always started on validated caches. StartInstance (internal/provider/start.go:10-24) finds the
  runner by its labels and starts it without looking at a volume, so a runner that is created and not yet checked, or
  left so by a create that died, can start on an unlabelled volume (`StartInstanceUnchecked`). GARM v0.2.1 does not
  call it. What holds exactly: while a runner exists, a cache it was created with passes its check if and only if it
  passed at the create (`RunnerPinnedExactly`, for any container `PinnedExactly`); and it did if the runner's own
  create started it (`RunnerPinned`), or if the runner has started and no other hand did it (`RunnerStartedPasses`).
- The comment at internal/provider/dind.go:49-51 says the sidecar needs no check of its own. In the runner's network
  namespace that is so unless another hand starts the sidecar (`SharedSidecarPinned`). In a namespace of its own it can
  fail (`SidecarUnchecked`). What holds exactly, in both modes: while the sidecar exists, a cache it mounts passes if and
  only if it passed at the sidecar's create, and it did if the runner still existed at that create
  (`SidecarPinnedExactly`); a runner that goes between that create and the sidecar's start does no harm.
- A rolled-back create can leave one cache helper behind: it carries no nonce, so the rollback cannot see it. At most one
  is left, and none without an externals cache or without a faulty call (`CreateInstance`). The seed leaves it exactly
  when the helper's create takes effect and reports an error, or the helper's removal is refused (`SeedExternals`,
  `Strands`); `HelperLeftBehind` runs a create into it.
- The spacing of throttled rounds is measured from the time a stamp records, which is read before its create and keeps
  whole seconds. Two stamps are created at least the interval apart less the first one's lag between the two
  (`StampsAreSpaced`), and every such shortening happens (`LagShortens`).
- Spellings of one repository normalize to one text for every plain path, and for no other: a path with "://" in it,
  white space at an end, or ':' or ".git" at its end has two spellings that normalize differently
  (`SpellingsAgreeExactly`).

## Model

| member | source | states |
|---|---|---|
| Names.VolumeNameInjective | internal/spec/names.go:29-48 | two derived volume names are equal exactly when the lowercased instance, the nonce and the suffix are |
| Names.TailInjective | internal/spec/names.go:46-48 | a name ends like the volumes of at most one generation and suffix, whatever stands before |
| Names.JobNetworkNameInjective | internal/spec/names.go:22-27 | two instances collide on the claim network exactly when their names differ at most in case |
| Names.SharedVolumes | internal/provider/dind.go:41-57 | runner and sidecar share exactly the workspace and the socket, the daemon's state is the sidecar's alone, and without a sidecar there is the workspace alone |
| Text.LessExactly | internal/topology/cache.go:88-96 | the order of names is that of the first character that differs, a proper prefix first |
| ProtocolSteps.LiveReadConclusive | internal/topology/teardown.go:272-282 | if the live claim read does not show a listed item's nonce, no claim network of its generation is live |
| ProtocolSteps.OwnNameHolds | internal/topology/create.go:137-160 | what a fresh nonce's volume name can hold is this attempt's own volume or an unlabelled one |
| ProtocolSteps.StepKeepsInv | internal/provider/create.go:117-282 | every step of every process and every act of an outsider keeps the invariant |
| ProtocolSafety.ReachableInv | internal/provider/create.go:117-282 | the invariant holds in every state of every run |
| ProtocolSafety.RemovalHitsItsGeneration | internal/topology/teardown.go:119-213 | a teardown's removal takes away nothing but resources of the listed item's generation and controller |
| ProtocolSafety.TeardownSafety | internal/topology/teardown.go:248-283 | what a TeardownAllocation removes carries the nonce captured at its start, or its generation's claim is not live at that removal |
| ProtocolSafety.UnseenLiveIsNotRemoved | internal/topology/teardown.go:272-282 | a removal takes nothing of a live generation claimed after the teardown began |
| ProtocolSafety.LaterGenerationSurvives | internal/topology/teardown.go:28-36 | in every run a generation claimed after a teardown began loses nothing to it while its claim is live |
| ProtocolSafety.RescueSafety | internal/topology/teardown.go:52-63 | in every run what a RemoveAllInstances removal takes is of one generation its own controller drew |
| ProtocolSafety.RollbackSafety | internal/topology/teardown.go:65-72 | in every run a rollback takes only what carries the nonce its own process drew, or an unlabelled volume named for it, and nothing of any other generation |
| ProtocolSafety.ClaimCleanupSafety | internal/topology/create.go:92-111 | in every run the cleanup of an ambiguous claim takes only networks of its own nonce |
| ProtocolOwnership.ClaimExclusive | internal/topology/create.go:26-45 | in every reachable state two claim networks for one lowercased instance are one |
| ProtocolOwnership.NonceClaimsOnce | internal/provider/create.go:387-395 | two claim networks never carry one nonce |
| ProtocolOwnership.NoEmptyInstance | internal/provider/create.go:48-52 | no run puts anything job-scoped under the empty instance name |
| ProtocolOwnership.LiveReadDetermined | internal/topology/teardown.go:308-323 | in every reachable state the live claim nonce does not depend on list order |
| ProtocolOwnership.CapturedDetermined | internal/topology/teardown.go:285-306 | nor does the captured map |
| ProtocolOwnership.JobVolumeNamedForItsGeneration | internal/spec/names.go:29-48 | in every reachable state a job volume's name is derived from its own instance and nonce labels |
| ProtocolOwnership.StaleNameHitsSameGeneration | internal/topology/teardown.go:186-213 | what bears a name from a stale listing is of the listed generation, or unlabelled |
| ProtocolOwnership.ReplacementUnreachable | internal/topology/create.go:153-174 | no run ever reaches the remove-and-recreate branch of a fresh volume |
| ProtocolOwnership.OwnershipFrame | internal/spec/labels.go:143-160 | at every provider step only the acting controller's own resources disappear, or unlabelled remnants under its generations' names |
| ProtocolOwnership.StrictOwnershipExactly | internal/topology/teardown.go:195-211 | what disappears carries the controller's labels except exactly when a volume now unlabelled is removed by name |
| ProtocolOwnership.NothingElseIsRemoved | internal/spec/cache.go:316-335 | no provider step removes a cache volume, another controller's resource or a foreign one |
| ProtocolWitness.RemnantHit | internal/topology/teardown.go:208-208 | for every instance and nonce a run reaches the exception |
| ProtocolWitness.SidecarUnchecked | internal/provider/dind.go:49-57 | for every instance, nonce and cache a run starts a sidecar in its own namespace on a volume that fails its check |
| ProtocolWitness.StartInstanceUnchecked | internal/provider/start.go:10-24 | for every instance, nonce and cache a run lets StartInstance start a runner on a volume that fails its check |
| ProtocolPinning.MountsKept | internal/docker/fake.go:916-943 | in every run the volumes of an existing container keep their labels |
| ProtocolPinning.PinnedExactly | internal/docker/fake.go:571-603 | while a container exists, whoever made or started it, a volume it was created with passes a check exactly when it passed at the create |
| ProtocolPinning.RunnerPinnedExactly | internal/provider/create.go:300-324 | the same for the caches of a runner, on the retry too |
| ProtocolPinning.RunnerPinned | internal/provider/runner_start.go:107-131 | from its creator's own start on, whatever the start reported, a runner's caches pass for as long as it exists |
| ProtocolPinning.TouchedExactly | internal/provider/start.go:10-24 | the containers recorded as taken from their creator are exactly those that StartInstance, StopInstance or an outsider took out of the created state |
| ProtocolPinning.StartedPasses | internal/provider/create.go:300-324 | a container past the created state that no other hand took out of it passes every check its creator owed |
| ProtocolPinning.RunnerStartedPasses | internal/provider/runner_start.go:107-131 | so does such a runner, and its caches passed at its create already |
| ProtocolPinning.HelperPinned | internal/provider/gc.go:304-332 | a helper's volume passes exactly when it passed at the helper's create, and a helper started by its creator runs on a passing one |
| ProtocolPinning.SharedSidecarPinned | internal/provider/dind.go:49-57 | a sidecar in the runner's namespace that no other hand started runs on checked caches |
| ProtocolPinning.SidecarPinnedExactly | internal/provider/dind.go:49-57 | in both modes a sidecar's caches pass exactly when they passed at its create, and they did if the runner was still there |
| ProtocolPinning.OperatorHitsOwnRunner | internal/provider/resolver.go:28-51 | in every run StartInstance and StopInstance change the state of a runner of their own controller and instance and nothing else |
| DaemonCalls.Daemon.NetworkCreate | internal/docker/fake.go:800-827 | for every fault exactly which answer and which effect: a taken name conflicts, otherwise the network is added even when an error is reported |
| DaemonCalls.Daemon.VolumeCreate | internal/docker/fake.go:865-892 | an existing volume keeps its labels and they are returned |
| DaemonCalls.Daemon.ContainerCreate | internal/docker/fake.go:571-603 | a taken name conflicts; otherwise missing named volumes come into being unlabelled |
| DaemonCalls.Daemon.ContainerStart | internal/docker/fake.go:602-650 | a start succeeds only while network, volumes and joined namespace are there |
| DaemonCalls.Daemon.Deliver | internal/docker/fake.go:338-366 | the credential exec reaches running containers only |
| DaemonCalls.Daemon.VolumeRemove | internal/docker/fake.go:916-943 | a volume any container references is refused |
| DaemonCalls.Daemon.NetworkRemove | internal/docker/fake.go:825-848 | a network any container is attached to is refused |
| Teardown.LiveClaimNonce | internal/topology/teardown.go:308-323 | the loop returns the nonce of some live claim network, or none exactly when there is none |
| Teardown.ClaimNoncesByInstance | internal/topology/teardown.go:285-306 | the loop maps exactly the claimed names, each to the nonce of one of its claim networks |
| Teardown.MayRemoveNow | internal/topology/teardown.go:248-283 | the answer is the gate's on the labels in hand and what the claim read right then shows: a generation that claimed its name since the capture is refused, and with no claim made since, yes and in scope coincide |
| Teardown.RemoveContainers | internal/topology/teardown.go:119-158 | only containers in scope go or stop, in rank order; without an error all in scope are gone and found says whether there were any |
| Teardown.RemoveVolumes | internal/topology/teardown.go:186-213 | the same for volumes, none refused when nothing uses them |
| Teardown.RemoveNetworks | internal/topology/teardown.go:160-184 | the same for networks |
| Teardown.RunTeardown | internal/topology/teardown.go:86-117 | only the scope is touched, and whatever fails no part of a generation that holds its claim and that the capture left out; runner, sidecar, volumes, network go in this order, each container asked to stop first; no error leaves exactly the rest; on a self-contained scope no removal is refused |
| Deletion.ReachesSomething | internal/topology/teardown.go:34-36 | a teardown finds something exactly when something of the controller is under the name |
| Deletion.NamedClaimsAgree | internal/topology/create.go:26-30 | unique network names make all claims of a name one generation |
| Deletion.TwoPassesClear | internal/topology/teardown.go:28-36 | two error-free teardowns leave nothing of the controller under a name, whatever generations were there |
| Deletion.OnePassClearsExactly | internal/topology/teardown.go:265-282 | one pass is enough exactly when there was no claim or everything carried the claimed nonce |
| Deletion.TeardownAllocation | internal/topology/teardown.go:74-84 | only the instance is touched; no error leaves all but the captured generation, and found is right |
| Deletion.Rollback | internal/topology/teardown.go:65-72 | no error leaves exactly what does not carry this attempt's nonce |
| Deletion.TeardownAll | internal/topology/teardown.go:52-63 | no error leaves no job-scoped resource of the controller, and touches nothing else |
| Deletion.ResolveByOwnedLabel | internal/provider/resolver.go:28-51 | without an error an owned runner under the name is found exactly when there is one, and what is found is one |
| Deletion.HasManagedAllocationResources | internal/provider/resolver.go:61-98 | yes exactly when a job-scoped resource of the controller is under the name |
| Deletion.ResolveInstanceName | internal/provider/delete.go:37-66 | the name is the identifier, found exactly when something is there |
| Deletion.DeleteInstance | internal/provider/delete.go:10-35 | not-found only, and without a faulty call exactly, when nothing was there; deleted means all of the claimed generation is gone, and without a fault and with nothing in the way it is deleted |
| Creation.ExistingClaimIsOurs | internal/topology/create.go:74-90 | ours exactly when the name is held by a claim network of this controller and instance |
| Creation.RemoveOwnNetwork | internal/topology/create.go:92-111 | only networks with the nonce go, and without an error all of them; without a fault and with nothing attached there is no error |
| Creation.CreateClaimNetwork | internal/topology/create.go:26-72 | claimed exactly when the name was free and the create answered; otherwise duplicate exactly when the holder is a managed job network of this controller and instance; a clean failure leaves the networks as they were |
| Creation.RollbackRestores | internal/provider/create.go:125-136 | purging the nonce turns what an attempt may have built back into what was there, plus caches and perhaps a helper |
| CreationPipeline.CreateFreshVolume | internal/topology/create.go:137-175 | success means a volume with this nonce; a volume not fully ours is refused and left |
| CreationPipeline.PlanCaches | internal/provider/cache.go:98-136 | nothing is lost or relabelled, and success means every wanted cache is held by a valid volume |
| CreationPipeline.SeedExternals | internal/provider/externals.go:51-90 | nothing changes but that one helper stays behind, and it does exactly when its name was free and its create took effect with an error or its removal was refused |
| CreationPipeline.RevalidateCaches | internal/provider/create.go:306-324 | yes means every referenced cache is valid; without a fault, exactly then |
| CreationPipeline.CreateAndStartRunnerOnce | internal/provider/runner_start.go:107-131 | up means running with exactly its mounts and labels on valid caches |
| CreationPipeline.CreateAndStartRunner | internal/provider/runner_start.go:78-105 | the same over the one retry without the IPv6 sysctl, and a host that only reports the sysctl, with or without effect, gets its runner |
| CreationPipeline.StartSidecar | internal/provider/dind.go:15-86 | success means a running sidecar with exactly its volumes and network mode beside the unchanged running runner |
| CreationPipeline.Prepare | internal/provider/create.go:138-187 | every step up to the runner only adds, and leaves the volumes and valid caches the launch needs; with the way clear it succeeds exactly when none of its calls but the helper's removal meets a fault, and a helper is left exactly when the script strands it |
| CreationPipeline.Launch | internal/provider/create.go:245-282 | success means the runner, and in a DinD mode the sidecar, run on a valid cache for each one planned, and the runner has its credentials; with the names free it succeeds exactly when none of its calls meets a fault |
| CreationPipeline.RollbackTouchesNothingElse | internal/provider/create.go:125-136 | even a rollback with errors loses nothing that was there before |
| CreationPipeline.CreateInstance | internal/provider/create.go:117-298 | all or nothing for every failure point, ambiguous ones included, but for caches and at most one named helper, with its exact condition; success means the allocation serves as planned and has its credentials; with the way clear it succeeds exactly when none of its calls but the helper's removal meets a fault, and whichever single call fails, all is undone without an error |
| CreationPipeline.HelperLeftBehind | internal/provider/gc.go:304-332 | for every attempt on a daemon that holds the externals cache, one ambiguous call rolls back without an error and leaves the helper |
| CacheSlots.FilterIsIdentity | internal/spec/cache.go:233-249 | the daemon's filter and the exact identity check select the same volumes |
| CacheSlots.SlotExtends | internal/spec/cache.go:251-262 | an alternate is the preferred name and ten more characters, and valid if that is short enough |
| CacheSlots.SlotsApart | internal/spec/cache.go:254-258 | if the digest tells attempts apart, the eight slots are eight names |
| CacheSlots.DiscoverCacheByIdentity | internal/topology/cache.go:75-98 | the loop returns the smallest name of the identity, or none exactly when there is none |
| CacheSlots.EnsureCacheVolume | internal/topology/cache.go:29-73 | a hit is the smallest; a new volume takes the preferred name if free, else a longer one, the first that no other volume occupies; at most one is added and none removed; with no fault and fewer than eight volumes it never gives up |
| CacheIdentity.CreatorIrrelevant | internal/spec/cache.go:136-147 | adoption does not depend on who created a cache or when |
| CacheIdentity.AdoptedExactly | internal/spec/cache.go:149-168 | a volume made for one cache is adopted for another exactly when repository, digest, release, salt and image agree |
| CacheIdentity.NamesShowKind | internal/spec/cache.go:288-300 | a preferred name shows the kind first and ends with repository, release and salt, or the image |
| CacheIdentity.PruneTargetExactly | internal/spec/cache.go:210-232 | logs are pruned in a volume the provider made exactly when it is the seen repository's log volume and this controller's |
| CacheConvergence.TryOwnSlot | internal/topology/cache.go:46-72 | trying a slot yields the cache's only volume or moves on, and creates one only if there was none |
| CacheConvergence.TryGoesOn | internal/topology/cache.go:46-72 | a try returns its slot exactly when that was free or holds the cache, and else moves on while a valid one of the eight is left |
| CacheConvergence.StepKeepsFresh | internal/topology/cache.go:46-72 | every step of any process keeps the cache to one volume at the first slot not squatted on |
| CacheConvergence.StepKeepsFound | internal/topology/cache.go:75-98 | if volumes of the cache were there at the start, every call returns the smallest |
| CacheConvergence.CallsConverge | internal/topology/cache.go:29-73 | without removals all calls for one cache return one valid volume, in every interleaving |
| CacheConvergence.SecondNeverCreated | internal/topology/cache.go:46-59 | a step that creates a volume of a cache finds none |
| Stamp.StepKeepsInv | internal/provider/throttle.go:108-171 | every step keeps what each process remembers of the stamp it read true |
| Stamp.RemovedOnlyIfStale | internal/provider/throttle.go:129-145 | a stamp is removed only by a process that read that stamp as expired or unusable |
| Stamp.WinnerCreated | internal/provider/throttle.go:158-171 | a process wins only by creating a stamp, and no two by one |
| Stamp.UnthrottledExactly | internal/provider/throttle.go:87-101 | a pass runs without a stamp exactly in a process that found no runner image |
| Stamp.WinsAreSpaced | internal/provider/throttle.go:146-155 | a win that replaces a stamp comes no earlier than its recorded time plus the interval |
| Stamp.StampsAreSpaced | internal/provider/throttle.go:103-107 | without outside removals two stamps are created at least the interval apart, less the earlier one's lag behind the time it records |
| Stamp.LagShortens | internal/provider/throttle.go:146-171 | for every interval and every lag up to it a run of two winners attains that bound |
| Stamp.LoneProcess | internal/provider/throttle.go:108-171 | alone, a process wins without a stamp or over an expired one, loses to a current or foreign one, and resets one from the future or without a time |
| Sweep.NoteAll | internal/topology/sweep.go:79-87 | the loop finds whether anything is ours and the youngest readable creation |
| Sweep.JudgeRunners | internal/topology/sweep.go:89-109 | the loop finds whether a runner is active and the latest finish an inspect tells, and fails exactly when the inspect of a runner that is not active fails |
| Sweep.Decide | internal/topology/sweep.go:54-146 | a decision is the rule on the daemon's state, whatever order it lists in, and there is one exactly when every list and every such inspect answered |
| Sweep.OthersUntouched | internal/topology/sweep.go:133-145 | a teardown of one instance leaves every other allocation as it was |
| Sweep.SweepInstance | internal/topology/sweep.go:44-146 | nothing happens unless the allocation is abandoned and every call of the decision answered; without a fault and with nothing in the way an abandoned one goes |
| Sweep.EnumerateInstanceNames | internal/topology/sweep.go:183-226 | exactly the non-empty names under which the controller has a resource |
| Sweep.SweepOrphans | internal/topology/sweep.go:19-42 | allocations not abandoned at the start are as they were whatever fails; without a failure every abandoned one lost its generation, and without a fault and with nothing in the way there is no failure |
| ByteSize.SplitIsUnique | internal/config/bytesize.go:44-51 | digits and unit can be told apart in one way only |
| ByteSize.UnitsArePowers | internal/config/bytesize.go:9-32 | the units are a byte and the first three powers of 1000 and of 1024, and no other |
| ByteSize.DecimalDenotes | internal/config/bytesize.go:34-67 | a number as it is written, then a unit in any letter case, denotes that many units |
| ByteSize.ParseByteSize | internal/config/bytesize.go:34-67 | it accepts exactly digits and a known unit whose product fits an int64, and returns that product |
| ByteSize.ParsePositiveByteSize | internal/config/bytesize.go:69-82 | the same, and never zero |
| ByteSize.EffectiveMemoryBytes | internal/config/resources.go:31-63 | the ceiling is what the operator's text denotes, none when empty |
| ByteSize.BoundMemory | internal/extraspecs/extraspecs.go:285-302 | it grants exactly what is asked within the ceiling, or refuses; it never clamps |
| ByteSize.ResolveMemory | internal/extraspecs/extraspecs.go:233-249 | under a positive ceiling the limit is above zero and at most the ceiling |
| ByteSize.Resolve | internal/config/resources.go:47-63 | the flavor's own text sets the ceiling if it has one, whatever the configuration says, and else the configuration's does; it succeeds exactly when the flavor is known and both limits are allowed |
| RunnerEnv.ProviderEnv | internal/spec/env.go:146-207 | each of the 21 variables is set to the configuration's value when it is called for and not set otherwise, each once, in a fixed order |
| RunnerEnv.CommaJoins | internal/spec/env.go:198-200 | labels are joined by a comma between two and none at an end |
| RunnerEnv.ReservedEnvName | internal/extraspecs/extraspecs.go:74-98 | the loops over the lists decide whether a name is one the runner's scripts, the provider, the loader, the shell or Node read |
| RunnerEnv.ReservedInAnyCase | internal/extraspecs/extraspecs.go:74-84 | reservation does not depend on letter case |
| RunnerEnv.CheckExtraEnv | internal/extraspecs/extraspecs.go:178-191 | accepted exactly when every name is well-formed, unreserved and allowlisted |
| RunnerEnv.MergeExtraEnv | internal/provider/create.go:453-481 | the result is the merge over the names in ascending order, whatever order the map is walked in |
| RunnerEnv.MergedKeepsPrefix | internal/provider/create.go:472-479 | the provider's entries stay an unchanged prefix |
| RunnerEnv.MergedGains | internal/provider/create.go:472-479 | what is gained is exactly the new names with their values |
| RunnerEnv.MergedIsDistinct | internal/provider/create.go:461-479 | no variable is set twice |
| RunnerEnv.RunnerEnvironment | internal/provider/create.go:413-451 | refused exactly when a name is; otherwise the provider's variables as a prefix, then every accepted new name with its value and nothing else |
| StatusWatch.WaitListenerProcess | internal/provider/status_report.go:195-227 | over any poll trace the first deciding poll decides, and ready means a settled trailing window |
| StatusWatch.WaitRunnerListening | internal/provider/status_report.go:128-175 | online exactly after a readiness signal and a later inspect that shows the runner running |
| StatusWatch.RunStatusWatch | internal/provider/status_watch.go:248-285 | idle is posted exactly after an accepted installing post, a signal and an inspect that shows the runner running and in no other state, in this order |
| MountPath.PrefixIsSegmentPrefix | internal/config/cache.go:155-158 | string prefix with a slash is proper segment prefix |
| MountPath.CleanExactly | internal/config/cache.go:125-131 | path.Clean leaves a rooted path alone exactly when it is the root or all its segments are plain names |
| MountPath.AtOrUnderIsRelated | internal/config/cache.go:135-139 | the two string tests are the segment relation |
| MountPath.VarRunSegments | internal/config/cache.go:143-153 | the rewrite turns var, run at the start into run and leaves every other path |
| MountPath.MountableExactly | internal/config/cache.go:114-141 | the reserved mounts and the rewrite leave out exactly /run, /actions-runner and /var/lib/docker, all above and below them, and /var/run with all below |
| MountPath.ValidateCacheMountPath | internal/config/cache.go:114-141 | accepted exactly when canonical and, after the /var/run rewrite, unrelated to every reserved mount |
| RepoKey.SpellingInvariant | internal/spec/cache.go:46-57 | every scheme, letter case, surrounding space, slashes and .git ending normalize to one text |
| RepoKey.SpellingsAgreeExactly | internal/spec/cache.go:46-57 | all spellings of a path normalize to one text exactly when it has no "://", no white space at an end, and no ':' or .git at its end |
| RepoKey.Slugify | internal/spec/cache.go:69-89 | the loop computes the slug function |
| RepoKey.SlugShape | internal/spec/cache.go:69-89 | at most 40 of [a-z0-9-], no dash at an end or doubled, and the input's letters in order, all unless capped |
| RepoKey.RepoKey | internal/spec/cache.go:22-36 | the key is safe in a Docker name for every URL, and every spelling of a path has the path's own key |
| RepoKey.SpellingsShareKey | internal/spec/cache.go:18-36 | any two spellings of a path have the same key and the same digest |
| RepoKey.KeyIsSafe | internal/spec/cache.go:22-36 | a key starts with a slug character, has at most 73 characters, ends with the digest and is valid in a Docker name |
| RepoKey.KeyReads | internal/spec/cache.go:58-67 | a key reads as the slug of what follows the host, a dash and the digest, and without a readable path it is the digest |
| RepoKey.SharedKeySharesDigest | internal/spec/cache.go:14-17 | two repositories share a key only if their digests collide |

## Left out

- GetInstance, ListInstances, and the mapping of container states: they change nothing; ListInstances sweeps, which
  `Sweep` covers.
- A daemon call that a cancelled process left behind and that commits after later calls: calls are atomic here, and an
  ambiguous create takes effect at once.
- Sweep against interference: `Sweep` decides on a state and tears down from that state. With other processes between
  the two, what a sweep may remove is what `ProtocolSafety` says of a TeardownAllocation.
- Teardown in `Protocol` may visit listed items in any order and skip some; the order is in `Teardown`.
- In `Protocol` restart, pause and exit of a container, and the stop a teardown makes before its removal, are acts of an
  outsider.
- Image pulls, registry access, credential delivery, TOML and JSON decoding, the JSON schema, URL parsing of
  `ParseEntity`, container configuration details, logging and reporting: no part of what is removed or kept.
- ValidateAllocationNames: it refuses an over-long or malformed instance name before the first daemon call.
- The cache garbage collector's report of stale volumes and the ages at which helpers are reaped: they delete no
  volume; `Protocol` lets the helper reaper take any of its own helpers at any time.
- Context timeouts: any step may fail at any time instead.
- Names outside ASCII: lowercasing maps only the code points whose lowercase form is an ASCII letter. Allocation names
  are checked to be ASCII before use.
- Go's saturation of time differences beyond 292 years.
- CreateInstance: its platform, extra_specs and image checks, the pre-create sweep and the pass of the cache garbage
  collector come before the claim and are not part of this sequence.
- CreateAndStartRunner: a container's sysctls are not part of the model; the retry without the IPv6 sysctl is a second
  create, and whether the host would refuse it again is up to the script.
- Resolve: dind_mode, extra_env (see `RunnerEnv`), the runner image and the storage driver are resolved apart from the
  memory limits and are not part of it.
- RunTeardown: the log-only reports of stopped runners and sidecar writes are not part of it.
