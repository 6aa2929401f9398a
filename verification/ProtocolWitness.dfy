/** Runs that show where three claims about the protocol stop: a removal by name that hits an unlabelled
    volume, a sidecar in its own namespace that starts on an unchecked cache, and a runner that StartInstance
    starts on an unchecked cache. */
module ProtocolWitness {
  import opened Text
  import opened LabelSpec
  import opened Names
  import opened Docker
  import opened TeardownScope
  import opened Protocol
  import opened ProtocolInvariant
  import opened ProtocolSafety
  import opened ProtocolOwnership
  import Runs

  ghost predicate Reachable(s: Sys) {
    exists states, steps :: IsRun(states, steps) && states[|steps|] == s
  }

  lemma Begins(s: Sys)
    requires Init(s)
    ensures Reachable(s)
  {
    assert IsRun([s], []);
  }

  lemma Extends(s: Sys, st: Step)
    requires Reachable(s) && Enabled(s, st)
    ensures Reachable(Do(s, st))
  {
    var states, steps :| IsRun(states, steps) && states[|steps|] == s;
    var states', steps' := states + [Do(s, st)], steps + [st];
    forall i | 0 <= i < |steps'| ensures Next(states'[i], steps'[i], states'[i + 1]) {
      if i < |steps| {
        assert Next(states[i], steps[i], states[i + 1]);
      }
    }
    assert IsRun(states', steps');
  }

  lemma ByAlloc(s: Sys, a: AllocAction) returns (s': Sys)
    requires Reachable(s) && AllocEnabled(s, 1, a)
    ensures Reachable(s') && s' == AllocDo(s, 1, a)
  {
    s' := AllocDo(s, 1, a);
    Extends(s, Alloc(1, a));
  }

  lemma ByRun(s: Sys, a: RunAction) returns (s': Sys)
    requires Reachable(s) && RunEnabled(s, 1, a)
    ensures Reachable(s') && s' == RunDo(s, 1, a)
  {
    s' := RunDo(s, 1, a);
    Extends(s, Run(1, a));
  }

  lemma ByTear(s: Sys, a: TearAction) returns (s': Sys)
    requires Reachable(s) && TearEnabled(s, 2, a)
    ensures Reachable(s') && s' == TearDo(s, 2, a)
  {
    s' := TearDo(s, 2, a);
    Extends(s, Tear(2, a));
  }

  lemma ByOutsider(s: Sys, op: OutsideOp) returns (s': Sys)
    requires Reachable(s) && OutsideEnabled(s, op)
    ensures Reachable(s') && s' == DoOutside(s, op)
  {
    s' := DoOutside(s, op);
    Extends(s, Outside(op));
  }

  // ---------------------------------------------------------------- a create up to its runner

  /** Process 1 alone, at this point of its create, over this daemon state. */
  ghost predicate Alone(s: Sys, p: Proc, w: World) {
    Reachable(s) && p.Creating? && p.ident.inst != "" && IsNonce(p.nonce) && s.procs == map[1 := p] && s.w == w
  }

  function Claimed(ident: AllocationIdentity, nonce: string, at: string): World {
    AddNetwork(World(map[], map[], map[], 0), JobNetworkName(ident.inst), ResourceLabels(ident, ResourceJobNetwork, at, nonce))
  }

  function WithWorkspace(ident: AllocationIdentity, nonce: string, at: string): World {
    AddVolume(Claimed(ident, nonce, at), VolumeName(ident.inst, nonce, Workspace), ResourceLabels(ident, "workspace", at, nonce))
  }

  lemma RunBegin(ident: AllocationIdentity, nonce: string, dind: Dind) returns (s: Sys)
    requires ident.inst != "" && IsNonce(nonce)
    ensures Alone(s, Creating(ident, nonce, dind, {}, Claiming), World(map[], map[], map[], 0))
  {
    var s0 := Sys(World(map[], map[], map[], 0), map[], map[], {}, map[], {});
    Begins(s0);
    s := ByAlloc(s0, Begin(ident, nonce, dind));
  }

  lemma RunClaim(ident: AllocationIdentity, nonce: string, dind: Dind, at: string) returns (s: Sys)
    requires ident.inst != "" && IsNonce(nonce)
    ensures Alone(s, Creating(ident, nonce, dind, {}, MakingVolume(Workspace)), Claimed(ident, nonce, at))
  {
    var s0 := RunBegin(ident, nonce, dind);
    s := ByAlloc(s0, Claim(at, false));
  }

  lemma RunWorkspace(ident: AllocationIdentity, nonce: string, at: string) returns (s: Sys)
    requires ident.inst != "" && IsNonce(nonce)
    ensures Alone(s, Creating(ident, nonce, NoDind, {}, PlanningCaches), WithWorkspace(ident, nonce, at))
  {
    var s0 := RunClaim(ident, nonce, NoDind, at);
    s := ByAlloc(s0, MakeVolume(at));
  }

  // ---------------------------------------------------------------- a removal by name hits an unlabelled volume

  /** The create of process 1 beside a teardown, process 2. */
  ghost predicate Beside(s: Sys, p: Proc, t: Proc, w: World) {
    Reachable(s) && p.Creating? && t.Tearing? && s.procs == map[1 := p, 2 := t] && s.w == w
  }

  function TearingOf(p: Proc, seen: set<string>, phase: Phase, todo: set<Item>, approved: Option<Item>): Proc
    requires p.Creating?
  {
    Tearing(p.ident.ctrl, InstanceScopedFilter(p.ident.ctrl, p.ident.inst), Captured(map[p.ident.inst := p.nonce]), seen, phase, todo, approved)
  }

  function WorkspaceItem(ident: AllocationIdentity, nonce: string, at: string): Item {
    VolumeItem(VolumeName(ident.inst, nonce, Workspace), ResourceLabels(ident, "workspace", at, nonce))
  }

  lemma ClaimIsCaptured(ident: AllocationIdentity, nonce: string, at: string)
    requires ident.inst != ""
    ensures var w := WithWorkspace(ident, nonce, at);
            && CapturedFrom(w, ident.ctrl, InstanceScopedFilter(ident.ctrl, ident.inst), map[ident.inst := nonce])
            && LiveRead(w, ident.ctrl, ident.inst, Some(nonce))
  {
    var w, f := WithWorkspace(ident, nonce, at), InstanceScopedFilter(ident.ctrl, ident.inst);
    var l := ResourceLabels(ident, ResourceJobNetwork, at, nonce);
    MatchesInstance(ident.ctrl, ident.inst, l);
    MatchesClaim(ident.ctrl, ident.inst, l);
    assert w.networks[0].labels == l;
    assert Holds(l, ident.ctrl, f, ident.inst, nonce) && HeldBy(w, ident.ctrl, f, ident.inst, nonce);
    assert ClaimsWith(w.networks[0].labels, ident.ctrl, ident.inst, nonce);
  }

  lemma RunTeardownBegins(ident: AllocationIdentity, nonce: string, at: string) returns (s: Sys, seen: set<string>)
    requires ident.inst != "" && IsNonce(nonce)
    ensures var p := Creating(ident, nonce, NoDind, {}, PlanningCaches);
            Beside(s, p, TearingOf(p, seen, Containers, {}, None), WithWorkspace(ident, nonce, at))
  {
    var s0 := RunWorkspace(ident, nonce, at);
    ClaimIsCaptured(ident, nonce, at);
    seen := s0.claimed;
    s := ByTear(s0, BeginTeardown(ident.ctrl, ident.inst, map[ident.inst := nonce]));
  }

  lemma RunNextPhase(s0: Sys, p: Proc, seen: set<string>) returns (s: Sys)
    requires p.Creating? && Beside(s0, p, TearingOf(p, seen, Containers, {}, None), s0.w)
    ensures Beside(s, p, TearingOf(p, seen, Volumes, {}, None), s0.w)
  {
    s := ByTear(s0, NextPhase);
  }

  lemma RunList(s0: Sys, p: Proc, seen: set<string>, at: string) returns (s: Sys, todo: set<Item>)
    requires p.Creating? && Beside(s0, p, TearingOf(p, seen, Volumes, {}, None), WithWorkspace(p.ident, p.nonce, at))
    ensures Beside(s, p, TearingOf(p, seen, Volumes, todo, None), s0.w) && WorkspaceItem(p.ident, p.nonce, at) in todo
  {
    hide Reachable, Listing, InstanceScopedFilter, WithWorkspace, WorkspaceItem;
    s := ByTear(s0, List);
    todo := Listing(s0.w, InstanceScopedFilter(p.ident.ctrl, p.ident.inst), Volumes);
    WorkspaceListed(p.ident, p.nonce, at);
  }

  lemma WorkspaceListed(ident: AllocationIdentity, nonce: string, at: string)
    ensures WorkspaceItem(ident, nonce, at) in Listing(WithWorkspace(ident, nonce, at), InstanceScopedFilter(ident.ctrl, ident.inst), Volumes)
  {
    var v, l := VolumeName(ident.inst, nonce, Workspace), ResourceLabels(ident, "workspace", at, nonce);
    MatchesInstance(ident.ctrl, ident.inst, l);
    assert WithWorkspace(ident, nonce, at).volumes == map[v := l];
  }

  lemma RunApprove(s0: Sys, p: Proc, seen: set<string>, todo: set<Item>, it: Item) returns (s: Sys)
    requires p.Creating? && Beside(s0, p, TearingOf(p, seen, Volumes, todo, None), s0.w) && it in todo
    requires MatchesPredicate(it.labels, p.ident.ctrl) && it.labels[InstanceName] == p.ident.inst
    requires Get(it.labels, CreateNonce) == p.nonce
    requires LiveRead(s0.w, p.ident.ctrl, p.ident.inst, Some(p.nonce))
    ensures Beside(s, p, TearingOf(p, seen, Volumes, todo - {it}, Some(it)), s0.w)
  {
    hide Reachable, InstanceScopedFilter, LiveRead;
    s := ByTear(s0, Approve(it, Some(p.nonce)));
  }

  lemma RunApproved(ident: AllocationIdentity, nonce: string, at: string) returns (s: Sys, t: Proc)
    requires ident.inst != "" && IsNonce(nonce)
    ensures Beside(s, Creating(ident, nonce, NoDind, {}, PlanningCaches), t, WithWorkspace(ident, nonce, at))
    ensures t.approved == Some(WorkspaceItem(ident, nonce, at))
  {
    var p := Creating(ident, nonce, NoDind, {}, PlanningCaches);
    var s0, seen := RunTeardownBegins(ident, nonce, at);
    var s1 := RunNextPhase(s0, p, seen);
    var s2, todo := RunList(s1, p, seen, at);
    ClaimIsCaptured(ident, nonce, at);
    s := RunApprove(s2, p, seen, todo, WorkspaceItem(ident, nonce, at));
    t := TearingOf(p, seen, Volumes, todo - {WorkspaceItem(ident, nonce, at)}, Some(WorkspaceItem(ident, nonce, at)));
  }

  lemma VolumeLost(s0: Sys, p: Proc, t: Proc, v: string) returns (s: Sys)
    requires Beside(s0, p, t, s0.w) && s0.w.containers == map[]
    ensures Beside(s, p, t, DropVolume(s0.w, v))
  {
    s := ByOutsider(s0, OutVolumeRemove(v));
  }

  lemma RunnerCreated(s0: Sys, p: Proc, t: Proc, at: string) returns (s: Sys)
    requires p.Creating? && Beside(s0, p, t, s0.w) && p.pc == PlanningCaches && p.dind == NoDind && p.refs == {}
    requires s0.w.containers == map[]
    requires VolumeName(p.ident.inst, p.nonce, Workspace) !in s0.w.volumes
    ensures Reachable(s) && 2 in s.procs && s.procs[2] == t && s.w.containers.Keys == {s0.w.nextId}
    ensures VolumeName(p.ident.inst, p.nonce, Workspace) in s.w.volumes
    ensures s.w.volumes[VolumeName(p.ident.inst, p.nonce, Workspace)] == map[]
  {
    hide *;
    var s1 := CachesPlanned(s0, p, t);
    var p1 := p.(pc := CreatingRunner(false));
    RunnerEffect(s1, p1, at);
    s := ByRun(s1, CreateRunner(at, false));
    CreatedOver(s1.w, RunnerContainerName(p.ident.inst), ContainerLabels(p.ident, RoleRunner, at, p.nonce),
                JobVolumes(p1) + RefNames(p1.refs), OnNetwork(JobNetworkName(p.ident.inst)));
    WorkspaceMounted(p1);
  }

  lemma CachesPlanned(s0: Sys, p: Proc, t: Proc) returns (s: Sys)
    requires p.Creating? && Beside(s0, p, t, s0.w) && p.pc == PlanningCaches
    ensures Reachable(s) && s.procs == map[1 := p.(pc := CreatingRunner(false)), 2 := t] && s.w == s0.w
  {
    s := ByAlloc(s0, CachesDone);
  }

  lemma WorkspaceMounted(p: Proc)
    requires p.Creating?
    ensures VolumeName(p.ident.inst, p.nonce, Workspace) in JobVolumes(p) + RefNames(p.refs)
  {
  }

  lemma CreatedOver(w: World, name: string, l: Labels, mounts: set<string>, net: NetMode)
    requires w.containers == map[]
    ensures var w' := AddContainer(w, name, l, mounts, net);
            && w'.containers.Keys == {w.nextId}
            && forall v :: v in mounts && v !in w.volumes ==> v in w'.volumes && w'.volumes[v] == map[]
  {
  }

  lemma RunnerLost(s0: Sys, id: nat) returns (s: Sys)
    requires Reachable(s0) && s0.w.containers.Keys == {id}
    ensures Reachable(s) && s.procs == s0.procs && s.w.volumes == s0.w.volumes && s.w.containers == map[]
  {
    s := ByOutsider(s0, OutContainerRemove(id));
  }

  /** The exception to strict ownership happens, whatever the instance and nonce: a teardown has approved the
      workspace it listed, the workspace is removed by hand, the runner's create brings it back unlabelled,
      and the runner is removed; the teardown's next call removes the unlabelled volume. */
  lemma RemnantHit(ident: AllocationIdentity, nonce: string, at: string) returns (s: Sys)
    requires ident.inst != "" && IsNonce(nonce)
    ensures Reachable(s) && Enabled(s, Tear(2, Remove)) && HitsRemnant(s, Tear(2, Remove))
  {
    var v := VolumeName(ident.inst, nonce, Workspace);
    var s0, t := RunApproved(ident, nonce, at);
    var p := Creating(ident, nonce, NoDind, {}, PlanningCaches);
    var s1 := VolumeLost(s0, p, t, v);
    var s2 := RunnerCreated(s1, p, t, at);
    s := RunnerLost(s2, s1.w.nextId);
  }

  // ---------------------------------------------------------------- a sidecar starts on an unchecked cache

  /** Process 1 alone before its runner: its network is there, and the volumes are the cache and these job volumes. */
  ghost predicate Making(s: Sys, p: Proc, cache: string, want: Labels, made: set<string>) {
    && Reachable(s) && p.Creating? && s.procs == map[1 := p] && s.w.containers == map[]
    && NetworkNameTaken(s.w, JobNetworkName(p.ident.inst))
    && s.w.volumes.Keys == made + {cache} && s.w.volumes[cache] == want
  }

  function OwnNetnsProc(ident: AllocationIdentity, nonce: string, refs: set<Ref>, pc: CreatePc): Proc {
    Creating(ident, nonce, OwnNetns, refs, pc)
  }

  lemma CacheInit(cache: string, want: Labels) returns (s: Sys)
    requires IsCache(want) && InstanceName !in want
    ensures Reachable(s) && s == Sys(World(map[], map[], map[cache := want], 0), map[], map[], {}, map[], {})
  {
    s := Sys(World(map[], map[], map[cache := want], 0), map[], map[], {}, map[], {});
    Begins(s);
  }

  lemma CacheDrawn(ident: AllocationIdentity, nonce: string, cache: string, want: Labels) returns (s: Sys)
    requires ident.inst != "" && IsNonce(nonce) && IsCache(want) && InstanceName !in want && !EmbedsNonce(cache, nonce)
    ensures Reachable(s) && s.procs == map[1 := OwnNetnsProc(ident, nonce, {}, Claiming)]
    ensures s.w == World(map[], map[], map[cache := want], 0)
  {
    hide Reachable, EmbedsNonce, IsNonce;
    var s0 := CacheInit(cache, want);
    s := ByAlloc(s0, Begin(ident, nonce, OwnNetns));
  }

  lemma CacheBegin(ident: AllocationIdentity, nonce: string, at: string, cache: string, want: Labels) returns (s: Sys)
    requires ident.inst != "" && IsNonce(nonce) && IsCache(want) && InstanceName !in want && !EmbedsNonce(cache, nonce)
    ensures Making(s, OwnNetnsProc(ident, nonce, {}, MakingVolume(Workspace)), cache, want, {})
  {
    hide Reachable, EmbedsNonce, IsNonce, NetworkNameTaken;
    var s1 := CacheDrawn(ident, nonce, cache, want);
    s := CacheClaim(s1, ident, nonce, at);
  }

  lemma CacheClaim(s0: Sys, ident: AllocationIdentity, nonce: string, at: string) returns (s: Sys)
    requires Reachable(s0) && s0.procs == map[1 := OwnNetnsProc(ident, nonce, {}, Claiming)] && s0.w.networks == map[]
    ensures Reachable(s) && s.procs == map[1 := OwnNetnsProc(ident, nonce, {}, MakingVolume(Workspace))]
    ensures s.w.containers == s0.w.containers && s.w.volumes == s0.w.volumes
    ensures NetworkNameTaken(s.w, JobNetworkName(ident.inst))
  {
    s := ByAlloc(s0, Claim(at, false));
    assert s.w.networks[s0.w.nextId].name == JobNetworkName(ident.inst);
  }

  lemma CacheVolumeStep(s0: Sys, p: Proc, at: string, cache: string, want: Labels, made: set<string>) returns (s: Sys)
    requires Making(s0, p, cache, want, made) && p.pc.MakingVolume?
    requires VolumeName(p.ident.inst, p.nonce, p.pc.s) !in made + {cache}
    ensures Making(s, p.(pc := AfterVolume(p, p.pc.s)), cache, want, made + {VolumeName(p.ident.inst, p.nonce, p.pc.s)})
  {
    s := ByAlloc(s0, MakeVolume(at));
  }

  lemma CacheVolumes(ident: AllocationIdentity, nonce: string, at: string, cache: string, want: Labels) returns (s: Sys)
    requires ident.inst != "" && IsNonce(nonce) && IsCache(want) && InstanceName !in want && !EmbedsNonce(cache, nonce)
    ensures Making(s, OwnNetnsProc(ident, nonce, {}, PlanningCaches), cache, want, SidecarVolumes(ident.inst, nonce))
  {
    hide Making, VolumeName, EmbedsNonce;
    var v1, v2, v3 := VolumeName(ident.inst, nonce, Workspace), VolumeName(ident.inst, nonce, Socket), VolumeName(ident.inst, nonce, DindState);
    VolumeNameHasTail(ident.inst, nonce, Workspace);
    VolumeNameHasTail(ident.inst, nonce, Socket);
    VolumeNameHasTail(ident.inst, nonce, DindState);
    VolumeNameInjective(ident.inst, nonce, Workspace, ident.inst, nonce, Socket);
    VolumeNameInjective(ident.inst, nonce, Workspace, ident.inst, nonce, DindState);
    VolumeNameInjective(ident.inst, nonce, Socket, ident.inst, nonce, DindState);
    var s0 := CacheBegin(ident, nonce, at, cache, want);
    var s1 := CacheVolumeStep(s0, OwnNetnsProc(ident, nonce, {}, MakingVolume(Workspace)), at, cache, want, {});
    var s2 := CacheVolumeStep(s1, OwnNetnsProc(ident, nonce, {}, MakingVolume(Socket)), at, cache, want, {} + {v1});
    s := CacheVolumeStep(s2, OwnNetnsProc(ident, nonce, {}, MakingVolume(DindState)), at, cache, want, {} + {v1} + {v2});
    assert {} + {v1} + {v2} + {v3} == SidecarVolumes(ident.inst, nonce);
  }

  lemma CacheAdopted(s0: Sys, p: Proc, cache: string, want: Labels, made: set<string>) returns (s: Sys)
    requires Making(s0, p, cache, want, made) && p.pc == PlanningCaches && p.refs == {} && IsCache(want)
    ensures Making(s, p.(refs := {Ref(cache, Adopt(want))}, pc := CreatingRunner(false)), cache, want, made)
  {
    hide Reachable, NetworkNameTaken, Get;
    var s1 := ByAlloc(s0, AdoptListed(cache, want));
    assert p.refs + {Ref(cache, Adopt(want))} == {Ref(cache, Adopt(want))};
    s := ByAlloc(s1, CachesDone);
  }

  /** The runner is there, at this state and with this network mode. */
  ghost predicate Beyond(s: Sys, p: Proc, cache: string, want: Labels, made: set<string>, id: nat, st: RunState) {
    && Reachable(s) && p.Creating? && s.procs == map[1 := p]
    && s.w.containers.Keys == {id} && s.w.containers[id].state == st && s.w.containers[id].name == RunnerContainerName(p.ident.inst)
    && s.w.containers[id].net == OnNetwork(JobNetworkName(p.ident.inst)) && s.w.containers[id].mounts <= made + {cache}
    && NetworkNameTaken(s.w, JobNetworkName(p.ident.inst)) && id < s.w.nextId
    && s.w.volumes.Keys == made + {cache} && s.w.volumes[cache] == want
  }

  lemma RunnerMade(s0: Sys, p: Proc, at: string, cache: string, want: Labels) returns (s: Sys)
    requires p.Creating? && Making(s0, p, cache, want, SidecarVolumes(p.ident.inst, p.nonce))
    requires p.pc == CreatingRunner(false)
    requires p.dind == OwnNetns && p.refs == {Ref(cache, Adopt(want))}
    ensures Beyond(s, p.(pc := CheckingRunner(s0.w.nextId, p.refs, false)), cache, want, SidecarVolumes(p.ident.inst, p.nonce), s0.w.nextId, Created)
  {
    hide RunDo, RunEnabled, VolumeName, ContainerLabels, AddContainer, Reachable, NetworkNameTaken;
    RunnerEffect(s0, p, at);
    s := ByRun(s0, CreateRunner(at, false));
    RunnerMounts(p, cache, want);
    OnlyContainer(s0.w, RunnerContainerName(p.ident.inst), ContainerLabels(p.ident, RoleRunner, at, p.nonce),
                  JobVolumes(p) + RefNames(p.refs), OnNetwork(JobNetworkName(p.ident.inst)));
    SameNetworks(s0.w, s.w, JobNetworkName(p.ident.inst));
  }

  lemma RunnerMounts(p: Proc, cache: string, want: Labels)
    requires p.Creating? && p.dind == OwnNetns && p.refs == {Ref(cache, Adopt(want))}
    ensures JobVolumes(p) + RefNames(p.refs) <= SidecarVolumes(p.ident.inst, p.nonce) + {cache}
    ensures JobVolumes(p) <= SidecarVolumes(p.ident.inst, p.nonce) && RefNames(p.refs) == {cache}
  {
  }

  lemma SameNetworks(w: World, w': World, name: string)
    requires w'.networks == w.networks && NetworkNameTaken(w, name)
    ensures NetworkNameTaken(w', name)
  {
    var n :| n in w.networks && w.networks[n].name == name;
    assert w'.networks[n].name == name;
  }

  lemma OnlyContainer(w: World, name: string, l: Labels, mounts: set<string>, net: NetMode)
    requires mounts <= w.volumes.Keys && w.containers == map[]
    ensures var w' := AddContainer(w, name, l, mounts, net);
            && w'.containers == map[w.nextId := Container(name, l, mounts, net, Created)]
            && w'.networks == w.networks && w'.volumes == w.volumes && w'.nextId == w.nextId + 1
  {
    assert AutoCreated(w, mounts) == map[];
  }

  lemma RunnerEffect(s: Sys, p: Proc, at: string)
    requires p.Creating? && 1 in s.procs && s.procs[1] == p && s.w.containers == map[] && p.pc == CreatingRunner(false)
    ensures RunEnabled(s, 1, CreateRunner(at, false))
    ensures var s' := RunDo(s, 1, CreateRunner(at, false));
            && s'.procs == s.procs[1 := p.(pc := CheckingRunner(s.w.nextId, p.refs, false))]
            && s'.w == AddContainer(s.w, RunnerContainerName(p.ident.inst), ContainerLabels(p.ident, RoleRunner, at, p.nonce),
                                    JobVolumes(p) + RefNames(p.refs), OnNetwork(JobNetworkName(p.ident.inst)))
  {
  }

  lemma SidecarEffect(s: Sys, p: Proc, at: string)
    requires p.Creating? && s.procs == map[1 := p] && s.w.containers == map[] && p.pc.CreatingSidecar?
    requires p.dind == OwnNetns
    ensures RunEnabled(s, 1, CreateSidecar(p.refs, at, false))
    ensures var s' := RunDo(s, 1, CreateSidecar(p.refs, at, false));
            && s'.procs == map[1 := p.(pc := StartingSidecar(p.pc.runner, s.w.nextId))]
            && s'.w == AddContainer(s.w, DindContainerName(p.ident.inst), ContainerLabels(p.ident, RoleDind, at, p.nonce),
                                    SidecarVolumes(p.ident.inst, p.nonce) + RefNames(p.refs), OnNetwork(JobNetworkName(p.ident.inst)))
  {
  }

  lemma RunnerChecked(s0: Sys, p: Proc, cache: string, want: Labels, made: set<string>, id: nat) returns (s: Sys)
    requires Beyond(s0, p, cache, want, made, id, Created) && IsCache(want)
    requires p.refs == {Ref(cache, Adopt(want))} && p.pc == CheckingRunner(id, p.refs, false)
    ensures Beyond(s, p.(pc := CheckingRunner(id, {}, false)), cache, want, made, id, Created)
  {
    s := ByRun(s0, CheckRunner(Ref(cache, Adopt(want)), true));
    assert p.refs - {Ref(cache, Adopt(want))} == {};
  }

  lemma RunnerUp(s0: Sys, p: Proc, cache: string, want: Labels, made: set<string>, id: nat) returns (s: Sys)
    requires Beyond(s0, p, cache, want, made, id, Created) && p.pc == CheckingRunner(id, {}, false)
    requires p.dind == OwnNetns
    ensures Beyond(s, p.(pc := CreatingSidecar(id)), cache, want, made, id, Running)
  {
    s := ByRun(s0, StartRunner(Started));
  }

  /** The runner and then the cache volume are removed from outside. */
  lemma BothLost(s0: Sys, p: Proc, cache: string, want: Labels, made: set<string>, id: nat) returns (s: Sys)
    requires Beyond(s0, p, cache, want, made, id, Running) && cache !in made
    ensures Reachable(s) && s.procs == s0.procs && s.w.containers == map[] && s.w.volumes.Keys == made
    ensures NetworkNameTaken(s.w, JobNetworkName(p.ident.inst))
  {
    hide Reachable;
    var s1 := ByOutsider(s0, OutContainerRemove(id));
    assert s1.w.containers == map[];
    s := ByOutsider(s1, OutVolumeRemove(cache));
    SameNetworks(s0.w, s.w, JobNetworkName(p.ident.inst));
  }

  lemma SidecarUp(s0: Sys, p: Proc, at: string, cache: string, want: Labels, made: set<string>) returns (s: Sys)
    requires Reachable(s0) && p.Creating? && s0.procs == map[1 := p] && s0.w.containers == map[]
    requires s0.w.volumes.Keys == made
    requires NetworkNameTaken(s0.w, JobNetworkName(p.ident.inst)) && p.pc.CreatingSidecar? && p.dind == OwnNetns
    requires p.refs == {Ref(cache, Adopt(want))} && cache !in made && SidecarVolumes(p.ident.inst, p.nonce) <= made
    ensures Reachable(s) && s0.w.nextId in s.w.containers && s.w.containers[s0.w.nextId].state == Running
    ensures cache in s.w.containers[s0.w.nextId].mounts && !Passes(s.w, Ref(cache, Adopt(want)))
  {
    var s1 := SidecarMade(s0, p, at, cache, want, made);
    s := ByRun(s1, StartSidecar);
  }

  lemma SidecarMade(s0: Sys, p: Proc, at: string, cache: string, want: Labels, made: set<string>) returns (s: Sys)
    requires Reachable(s0) && p.Creating? && s0.procs == map[1 := p] && s0.w.containers == map[]
    requires s0.w.volumes.Keys == made
    requires NetworkNameTaken(s0.w, JobNetworkName(p.ident.inst)) && p.pc.CreatingSidecar? && p.dind == OwnNetns
    requires p.refs == {Ref(cache, Adopt(want))} && cache !in made && SidecarVolumes(p.ident.inst, p.nonce) <= made
    ensures Reachable(s) && s.procs == map[1 := p.(pc := StartingSidecar(p.pc.runner, s0.w.nextId))]
    ensures s0.w.nextId in s.w.containers && cache in s.w.containers[s0.w.nextId].mounts && CanStart(s.w, s0.w.nextId)
    ensures cache in s.w.volumes && s.w.volumes[cache] == map[]
  {
    hide RunDo, RunEnabled, VolumeName, ContainerLabels, Reachable;
    SidecarEffect(s0, p, at);
    s := ByRun(s0, CreateSidecar(p.refs, at, false));
    assert RefNames(p.refs) == {cache};
    assert AutoCreated(s0.w, SidecarVolumes(p.ident.inst, p.nonce) + {cache}) == map[cache := map[]];
    SameNetworks(s0.w, s.w, JobNetworkName(p.ident.inst));
  }

  /** In a namespace of its own the sidecar can start on a volume that fails its check, for every instance, nonce
      and cache: the runner is removed after its start and the unpinned cache volume with it, so the sidecar's
      create makes the volume anew, unlabelled, and nothing looks at it before the start. */
  lemma SidecarUnchecked(ident: AllocationIdentity, nonce: string, at: string, cache: string, want: Labels)
    returns (s: Sys, sidecar: nat)
    requires ident.inst != "" && IsNonce(nonce) && IsCache(want) && InstanceName !in want && !EmbedsNonce(cache, nonce)
    ensures Reachable(s) && sidecar in s.w.containers && s.w.containers[sidecar].state == Running
    ensures cache in s.w.containers[sidecar].mounts && !Passes(s.w, Ref(cache, Adopt(want)))
  {
    hide Making, Beyond, Reachable, VolumeName, EmbedsNonce;
    var made := SidecarVolumes(ident.inst, nonce);
    VolumeNameHasTail(ident.inst, nonce, Workspace);
    VolumeNameHasTail(ident.inst, nonce, Socket);
    VolumeNameHasTail(ident.inst, nonce, DindState);
    var s0 := CacheVolumes(ident, nonce, at, cache, want);
    var refs := {Ref(cache, Adopt(want))};
    var s1 := CacheAdopted(s0, OwnNetnsProc(ident, nonce, {}, PlanningCaches), cache, want, made);
    var id := s1.w.nextId;
    var s2 := RunnerMade(s1, OwnNetnsProc(ident, nonce, refs, CreatingRunner(false)), at, cache, want);
    var s3 := RunnerChecked(s2, OwnNetnsProc(ident, nonce, refs, CheckingRunner(id, refs, false)), cache, want, made, id);
    var s4 := RunnerUp(s3, OwnNetnsProc(ident, nonce, refs, CheckingRunner(id, {}, false)), cache, want, made, id);
    var s5 := BothLost(s4, OwnNetnsProc(ident, nonce, refs, CreatingSidecar(id)), cache, want, made, id);
    s := SidecarUp(s5, OwnNetnsProc(ident, nonce, refs, CreatingSidecar(id)), at, cache, want, made);
    sidecar := s5.w.nextId;
  }

  // ---------------------------------------------------------------- StartInstance starts an unchecked runner

  lemma CacheLost(s0: Sys, p: Proc, cache: string, want: Labels, made: set<string>) returns (s: Sys)
    requires Making(s0, p, cache, want, made) && cache !in made
    ensures Reachable(s) && s.procs == map[1 := p] && s.w.containers == map[] && s.w.volumes.Keys == made
    ensures NetworkNameTaken(s.w, JobNetworkName(p.ident.inst)) && s.w.nextId == s0.w.nextId
  {
    s := ByOutsider(s0, OutVolumeRemove(cache));
    SameNetworks(s0.w, s.w, JobNetworkName(p.ident.inst));
  }

  /** A runner of this allocation, created and not yet started, on this volume that passes no check. */
  ghost predicate Unchecked(s: Sys, p: Proc, id: nat, cache: string) {
    && Reachable(s) && p.Creating? && s.procs.Keys == {1}
    && id in s.w.containers && IsOwnRunner(s.w.containers[id].labels, p.ident.ctrl, p.ident.inst)
    && s.w.containers[id].state == Created && CanStart(s.w, id)
    && cache in s.w.containers[id].mounts && cache in s.w.volumes && s.w.volumes[cache] == map[]
  }

  lemma RunnerOverLostCache(s0: Sys, p: Proc, at: string, cache: string, want: Labels) returns (s: Sys)
    requires Reachable(s0) && p.Creating? && s0.procs == map[1 := p] && s0.w.containers == map[]
    requires s0.w.volumes.Keys == SidecarVolumes(p.ident.inst, p.nonce) && cache !in s0.w.volumes
    requires NetworkNameTaken(s0.w, JobNetworkName(p.ident.inst))
    requires p.pc == CreatingRunner(false) && p.dind == OwnNetns && p.refs == {Ref(cache, Adopt(want))}
    ensures Unchecked(s, p, s0.w.nextId, cache)
  {
    hide RunDo, RunEnabled, VolumeName, Reachable;
    RunnerEffect(s0, p, at);
    s := ByRun(s0, CreateRunner(at, false));
    RunnerMounts(p, cache, want);
    SameNetworks(s0.w, s.w, JobNetworkName(p.ident.inst));
  }

  lemma ByOperator(s: Sys, a: OperateAction) returns (s': Sys)
    requires Reachable(s) && OperateEnabled(s, 2, a)
    ensures Reachable(s') && s' == OperateDo(s, 2, a)
  {
    s' := OperateDo(s, 2, a);
    Extends(s, Operate(2, a));
  }

  lemma StartedByCommand(s0: Sys, p: Proc, id: nat, cache: string) returns (s: Sys)
    requires Unchecked(s0, p, id, cache)
    ensures Reachable(s) && id in s.w.containers && s.w.containers[id].state == Running
    ensures cache in s.w.containers[id].mounts && cache in s.w.volumes && s.w.volumes[cache] == map[]
  {
    hide Reachable;
    var s1 := ByOperator(s0, BeginOperate(p.ident.ctrl, p.ident.inst));
    var s2 := ByOperator(s1, Resolve(id));
    s := ByOperator(s2, StartOwned(id));
  }

  /** StartInstance can start a runner on a cache volume that fails its validation, for every instance, nonce and
      cache: the cache volume is removed between its adoption and the runner's create, which makes it anew,
      unlabelled, and the command comes before the create has looked, or after the create has died. */
  lemma StartInstanceUnchecked(ident: AllocationIdentity, nonce: string, at: string, cache: string, want: Labels)
    returns (s: Sys, runner: nat)
    requires ident.inst != "" && IsNonce(nonce) && IsCache(want) && InstanceName !in want && !EmbedsNonce(cache, nonce)
    ensures Reachable(s) && runner in s.w.containers && s.w.containers[runner].state == Running
    ensures cache in s.w.containers[runner].mounts && !Passes(s.w, Ref(cache, Adopt(want)))
  {
    hide Making, Reachable, Unchecked, VolumeName, EmbedsNonce;
    var made := SidecarVolumes(ident.inst, nonce);
    VolumeNameHasTail(ident.inst, nonce, Workspace);
    VolumeNameHasTail(ident.inst, nonce, Socket);
    VolumeNameHasTail(ident.inst, nonce, DindState);
    var s0 := CacheVolumes(ident, nonce, at, cache, want);
    var s1 := CacheAdopted(s0, OwnNetnsProc(ident, nonce, {}, PlanningCaches), cache, want, made);
    var p := OwnNetnsProc(ident, nonce, {Ref(cache, Adopt(want))}, CreatingRunner(false));
    var s2 := CacheLost(s1, p, cache, want, made);
    var s3 := RunnerOverLostCache(s2, p, at, cache, want);
    s := StartedByCommand(s3, p, s2.w.nextId, cache);
    runner := s2.w.nextId;
  }
}
