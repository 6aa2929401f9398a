/** Every step of the interleaved protocol keeps the invariant. */
module ProtocolSteps {
  import opened LabelSpec
  import opened Names
  import opened Docker
  import opened TeardownScope
  import opened Protocol
  import opened ProtocolInvariant

  // ---------------------------------------------------------------- guarantees, one per kind of daemon effect

  ghost predicate SameHistory(s: Sys, s': Sys) {
    s'.owner == s.owner && s'.claimed == s.claimed && s'.needs == s.needs && s'.touched == s.touched
  }

  /** Only removals, and none of a volume that a surviving container references. */
  ghost predicate Shrunk(w: World, w': World) {
    && w'.nextId == w.nextId
    && w'.containers.Keys <= w.containers.Keys && (forall id :: id in w'.containers ==> w'.containers[id] == w.containers[id])
    && w'.networks.Keys <= w.networks.Keys && (forall id :: id in w'.networks ==> w'.networks[id] == w.networks[id])
    && w'.volumes.Keys <= w.volumes.Keys && (forall v :: v in w'.volumes ==> w'.volumes[v] == w.volumes[v])
    && (forall id, v :: id in w'.containers && v in w'.containers[id].mounts && v in w.volumes ==> v in w'.volumes)
  }

  lemma NetworkCarried(s: Sys, s': Sys, n: Network)
    requires s'.owner == s.owner && s.claimed <= s'.claimed && NetworkOk(s, n)
    ensures NetworkOk(s', n)
  {
  }

  lemma VolumeCarried(s: Sys, s': Sys, v: string, l: Labels)
    requires s'.owner == s.owner && s.claimed <= s'.claimed && VolumeOk(s, v, l)
    ensures VolumeOk(s', v, l)
  {
  }

  lemma ContainerCarried(s: Sys, s': Sys, id: nat, c: Container)
    requires s'.owner == s.owner && s.claimed <= s'.claimed && s.touched <= s'.touched && ContainerOk(s, id, c)
    requires (id in s.needs <==> id in s'.needs) && (id in s.needs ==> s'.needs[id] == s.needs[id])
    requires forall v :: v in c.mounts && v in s.w.volumes ==> v in s'.w.volumes && s'.w.volumes[v] == s.w.volumes[v]
    ensures ContainerOk(s', id, c)
  {
    if id in s.needs && id !in s'.touched && c.state != Created {
      forall r | r in s'.needs[id] ensures Passes(s'.w, r) {
        assert r.name in RefNames(s.needs[id]) && Passes(s.w, r);
      }
    }
  }

  /** The daemon invariant carries over to whatever was there before and is unchanged. */
  lemma LedgerCarried(s: Sys, s': Sys)
    requires Ledger(s) && s'.owner == s.owner && s.claimed <= s'.claimed <= s.owner.Keys && s.touched <= s'.touched
    requires forall id :: id in s.needs ==> id in s'.needs && s'.needs[id] == s.needs[id]
    requires forall id :: id in s'.needs && id !in s.needs ==> s.w.nextId <= id
    requires forall id, v :: id in s'.w.containers && v in s'.w.containers[id].mounts && v in s.w.volumes ==>
               v in s'.w.volumes && s'.w.volumes[v] == s.w.volumes[v]
    ensures forall id :: id in s.w.networks ==> NetworkOk(s', s.w.networks[id])
    ensures forall v :: v in s.w.volumes ==> VolumeOk(s', v, s.w.volumes[v])
    ensures forall id :: id in s.w.containers && id in s'.w.containers && s'.w.containers[id] == s.w.containers[id] ==>
              ContainerOk(s', id, s.w.containers[id])
  {
    forall id | id in s.w.networks ensures NetworkOk(s', s.w.networks[id]) { NetworkCarried(s, s', s.w.networks[id]); }
    forall v | v in s.w.volumes ensures VolumeOk(s', v, s.w.volumes[v]) { VolumeCarried(s, s', v, s.w.volumes[v]); }
    forall id | id in s.w.containers && id in s'.w.containers && s'.w.containers[id] == s.w.containers[id]
      ensures ContainerOk(s', id, s.w.containers[id])
    {
      ContainerCarried(s, s', id, s.w.containers[id]);
    }
  }

  lemma ShrinkEvolves(s: Sys, s': Sys, actor: nat)
    requires WellFormed(s.w) && SameHistory(s, s') && Shrunk(s.w, s'.w)
    ensures Evolves(s, s', actor)
  {
  }

  lemma ShrinkLedger(s: Sys, s': Sys)
    requires Ledger(s) && SameHistory(s, s') && Shrunk(s.w, s'.w)
    ensures Ledger(s')
  {
    LedgerCarried(s, s');
  }

  lemma ShrinkGuarantee(s: Sys, s': Sys, actor: nat)
    requires Ledger(s) && SameHistory(s, s') && Shrunk(s.w, s'.w)
    ensures Ledger(s') && Evolves(s, s', actor)
  {
    ShrinkLedger(s, s');
    ShrinkEvolves(s, s', actor);
  }

  lemma ItemRemovalShrinks(w: World, it: Item)
    ensures Shrunk(w, RemoveItem(w, it))
  {
  }

  lemma NoEffectGuarantee(s: Sys, s': Sys, actor: nat)
    requires Ledger(s) && SameHistory(s, s') && s'.w == s.w
    ensures Ledger(s') && Evolves(s, s', actor)
  {
    ShrinkGuarantee(s, s', actor);
  }

  lemma AddVolumeEvolves(s: Sys, s': Sys, actor: nat, name: string, l: Labels)
    requires WellFormed(s.w) && SameHistory(s, s') && s'.w == AddVolume(s.w, name, l)
    ensures Evolves(s, s', actor)
  {
  }

  lemma AddVolumeGuarantee(s: Sys, s': Sys, actor: nat, name: string, l: Labels)
    requires Ledger(s) && SameHistory(s, s') && s'.w == AddVolume(s.w, name, l)
    requires name !in s.w.volumes ==> VolumeOk(s, name, l)
    ensures Ledger(s') && Evolves(s, s', actor)
  {
    AddVolumeEvolves(s, s', actor, name, l);
    LedgerCarried(s, s');
    if name !in s.w.volumes { VolumeCarried(s, s', name, l); }
  }

  /** A new container, together with the missing volumes its create brings into being, and what its
      creator owes before starting it. */
  ghost predicate ContainerAdded(s: Sys, s': Sys, name: string, l: Labels, mounts: set<string>, net: NetMode, owed: Option<set<Ref>>) {
    && s'.owner == s.owner && s'.claimed == s.claimed && s'.touched == s.touched
    && s'.w == AddContainer(s.w, name, l, mounts, net) && !ContainerNameTaken(s.w, name)
    && (IsJob(l) ==> Accounted(s, l))
    && s'.needs == (if owed.Some? then s.needs[s.w.nextId := owed.value] else s.needs)
    && (owed.Some? ==> RefNames(owed.value) <= mounts)
  }

  lemma AddContainerEvolves(s: Sys, s': Sys, actor: nat, name: string, l: Labels, mounts: set<string>, net: NetMode,
                            owed: Option<set<Ref>>)
    requires WellFormed(s.w) && ContainerAdded(s, s', name, l, mounts, net, owed)
    requires forall id :: id in s.needs ==> id < s.w.nextId
    ensures Evolves(s, s', actor)
  {
  }

  lemma AddContainerLedger(s: Sys, s': Sys, name: string, l: Labels, mounts: set<string>, net: NetMode,
                           owed: Option<set<Ref>>)
    requires Ledger(s) && ContainerAdded(s, s', name, l, mounts, net, owed)
    ensures Ledger(s')
  {
    LedgerCarried(s, s');
    AddContainerWellFormed(s.w, name, l, mounts, net);
    assert ContainerOk(s', s.w.nextId, s'.w.containers[s.w.nextId]);
    forall v | v in s'.w.volumes ensures VolumeOk(s', v, s'.w.volumes[v]) {
      if v !in s.w.volumes { assert s'.w.volumes[v] == map[]; }
    }
  }

  lemma AddContainerGuarantee(s: Sys, s': Sys, actor: nat, name: string, l: Labels, mounts: set<string>,
                              net: NetMode, owed: Option<set<Ref>>)
    requires Ledger(s) && ContainerAdded(s, s', name, l, mounts, net, owed)
    ensures Ledger(s') && Evolves(s, s', actor)
  {
    AddContainerLedger(s, s', name, l, mounts, net, owed);
    AddContainerEvolves(s, s', actor, name, l, mounts, net, owed);
  }

  lemma AddNetworkEvolves(s: Sys, s': Sys, actor: nat, name: string, l: Labels)
    requires WellFormed(s.w) && s'.owner == s.owner && s'.needs == s.needs && s'.touched == s.touched
    requires s'.w == AddNetwork(s.w, name, l) && s.claimed <= s'.claimed <= s.owner.Keys
    requires forall n :: n in s'.claimed && n !in s.claimed ==> s.owner[n].pid == actor
    requires IsJob(l) ==> Get(l, CreateNonce) !in s.claimed
    ensures Evolves(s, s', actor)
  {
  }

  /** A new network is foreign, or the first claim of its nonce. */
  lemma AddNetworkGuarantee(s: Sys, s': Sys, actor: nat, name: string, l: Labels)
    requires Ledger(s) && s'.owner == s.owner && s'.needs == s.needs && s'.touched == s.touched
    requires s'.w == AddNetwork(s.w, name, l) && !NetworkNameTaken(s.w, name)
    requires s.claimed <= s'.claimed <= s.owner.Keys
    requires forall n :: n in s'.claimed && n !in s.claimed ==> s.owner[n].pid == actor
    requires IsJob(l) ==> Get(l, CreateNonce) !in s.claimed
    requires NetworkOk(s', Network(name, l))
    ensures Ledger(s') && Evolves(s, s', actor)
  {
    AddNetworkEvolves(s, s', actor, name, l);
    AddNetworkWellFormed(s.w, name, l);
    LedgerCarried(s, s');
  }

  /** A container leaves its state; if that is the created state, either everything its creator owes has been
      checked, or the container is recorded as touched. */
  ghost predicate StateSet(s: Sys, s': Sys, id: nat, st: RunState) {
    && s'.owner == s.owner && s'.claimed == s.claimed && s'.needs == s.needs && s.touched <= s'.touched
    && id in s.w.containers && s'.w == SetState(s.w, id, st) && st != Created
    && (s.w.containers[id].state == Created && id in s.needs && id !in s'.touched ==> forall r :: r in s.needs[id] ==> Passes(s.w, r))
  }

  lemma SetStateEvolves(s: Sys, s': Sys, actor: nat, id: nat, st: RunState)
    requires WellFormed(s.w) && StateSet(s, s', id, st)
    ensures Evolves(s, s', actor)
  {
  }

  lemma SetStateLedger(s: Sys, s': Sys, id: nat, st: RunState)
    requires Ledger(s) && StateSet(s, s', id, st)
    ensures Ledger(s')
  {
    SetStateWellFormed(s.w, id, st);
    LedgerCarried(s, s');
    assert ContainerOk(s', id, s'.w.containers[id]) by {
      assert ContainerOk(s, id, s.w.containers[id]);
      if id in s.needs && id !in s'.touched { forall r | r in s'.needs[id] ensures Passes(s'.w, r) { assert Passes(s.w, r); } }
    }
  }

  lemma SetStateGuarantee(s: Sys, s': Sys, actor: nat, id: nat, st: RunState)
    requires Ledger(s) && StateSet(s, s', id, st)
    ensures Ledger(s') && Evolves(s, s', actor)
  {
    SetStateEvolves(s, s', actor, id, st);
    SetStateLedger(s, s', id, st);
  }

  // ---------------------------------------------------------------- one lemma per kind of effect

  /** Only the actor's own program counter moved, and it still knows what it should. */
  ghost predicate ActorMoved(s: Sys, s': Sys, actor: nat) {
    && (forall pid :: pid in s'.procs && pid != actor ==> pid in s.procs && s'.procs[pid] == s.procs[pid])
    && (actor in s'.procs ==> Knows(s', actor, s'.procs[actor]))
  }

  /** A step is sound once the daemon invariant, the rely and the actor's own knowledge are re-established. */
  lemma Settle(s: Sys, s': Sys, actor: nat)
    requires Inv(s) && Ledger(s') && Evolves(s, s', actor) && ActorMoved(s, s', actor)
    ensures Inv(s')
  {
    hide Ledger, Evolves, Knows;
    Conclude(s, s', actor);
  }

  /** A step that touches only the actor's own program counter or plan. */
  lemma PcOnlyStep(s: Sys, pid: nat, s': Sys)
    requires Inv(s) && s'.w == s.w && SameHistory(s, s')
    requires pid in s'.procs && s'.procs == s.procs[pid := s'.procs[pid]] && Knows(s', pid, s'.procs[pid])
    ensures Inv(s')
  {
    NoEffectGuarantee(s, s', pid);
    Conclude(s, s', pid);
  }

  lemma ShrinkStep(s: Sys, s': Sys, actor: nat)
    requires Inv(s) && SameHistory(s, s') && Shrunk(s.w, s'.w) && ActorMoved(s, s', actor)
    ensures Inv(s')
  {
    ShrinkGuarantee(s, s', actor);
    Conclude(s, s', actor);
  }

  lemma ContainerStep(s: Sys, s': Sys, actor: nat, name: string, l: Labels, mounts: set<string>, net: NetMode,
                      owed: Option<set<Ref>>)
    requires Inv(s) && ContainerAdded(s, s', name, l, mounts, net, owed) && ActorMoved(s, s', actor)
    ensures Inv(s')
  {
    AddContainerGuarantee(s, s', actor, name, l, mounts, net, owed);
    Conclude(s, s', actor);
  }

  // ---------------------------------------------------------------- creation

  lemma BeginLedger(s: Sys, pid: nat, ident: AllocationIdentity, nonce: string, dind: Dind)
    requires Ledger(s) && AllocEnabled(s, pid, Begin(ident, nonce, dind))
    ensures Ledger(AllocDo(s, pid, Begin(ident, nonce, dind)))
  {
    var s' := AllocDo(s, pid, Begin(ident, nonce, dind));
    forall v | v in s'.w.volumes ensures VolumeOk(s', v, s'.w.volumes[v]) { assert VolumeOk(s, v, s.w.volumes[v]); }
    forall id | id in s'.w.networks ensures NetworkOk(s', s'.w.networks[id]) { assert NetworkOk(s, s.w.networks[id]); }
    forall id | id in s'.w.containers ensures ContainerOk(s', id, s'.w.containers[id]) { assert ContainerOk(s, id, s.w.containers[id]); }
  }

  lemma BeginEvolves(s: Sys, pid: nat, ident: AllocationIdentity, nonce: string, dind: Dind)
    requires Ledger(s) && AllocEnabled(s, pid, Begin(ident, nonce, dind))
    ensures Evolves(s, AllocDo(s, pid, Begin(ident, nonce, dind)), pid)
  {
  }

  lemma StepBegin(s: Sys, pid: nat, ident: AllocationIdentity, nonce: string, dind: Dind)
    requires Inv(s) && AllocEnabled(s, pid, Begin(ident, nonce, dind))
    ensures Inv(AllocDo(s, pid, Begin(ident, nonce, dind)))
  {
    hide Evolves, WellFormed, NetworkOk, VolumeOk, ContainerOk;
    BeginLedger(s, pid, ident, nonce, dind);
    BeginEvolves(s, pid, ident, nonce, dind);
    Conclude(s, AllocDo(s, pid, Begin(ident, nonce, dind)), pid);
  }

  lemma ClaimGuarantee(s: Sys, pid: nat, at: string, ambiguous: bool)
    requires Inv(s) && AllocEnabled(s, pid, Claim(at, ambiguous))
    ensures var s' := AllocDo(s, pid, Claim(at, ambiguous)); Ledger(s') && Evolves(s, s', pid)
  {
    hide Evolves, WellFormed, VolumeOk, ContainerOk;
    var p := s.procs[pid];
    assert Knows(s, pid, p);
    var l := ResourceLabels(p.ident, ResourceJobNetwork, at, p.nonce);
    MatchesInstance(p.ident.ctrl, p.ident.inst, l);
    MatchesClaim(p.ident.ctrl, p.ident.inst, l);
    AddNetworkGuarantee(s, AllocDo(s, pid, Claim(at, ambiguous)), pid, JobNetworkName(p.ident.inst), l);
  }

  lemma StepClaim(s: Sys, pid: nat, at: string, ambiguous: bool)
    requires Inv(s) && AllocEnabled(s, pid, Claim(at, ambiguous))
    ensures Inv(AllocDo(s, pid, Claim(at, ambiguous)))
  {
    hide Evolves, Ledger, ResourceLabels, NetworkNameTaken;
    assert Knows(s, pid, s.procs[pid]);
    ClaimGuarantee(s, pid, at, ambiguous);
    Settle(s, AllocDo(s, pid, Claim(at, ambiguous)), pid);
  }

  lemma StepListOwn(s: Sys, pid: nat)
    requires Inv(s) && AllocEnabled(s, pid, ListOwn)
    ensures Inv(AllocDo(s, pid, ListOwn))
  {
    var s' := AllocDo(s, pid, ListOwn);
    assert Knows(s, pid, s.procs[pid]);
    NoEffectGuarantee(s, s', pid);
    Conclude(s, s', pid);
  }

  lemma StepDropOwn(s: Sys, pid: nat, net: nat)
    requires Inv(s) && AllocEnabled(s, pid, DropOwn(net))
    ensures Inv(AllocDo(s, pid, DropOwn(net)))
  {
    var s' := AllocDo(s, pid, DropOwn(net));
    assert Knows(s, pid, s.procs[pid]);
    ItemRemovalShrinks(s.w, NetworkItem(net, map[]));
    ShrinkGuarantee(s, s', pid);
    Conclude(s, s', pid);
  }

  /** Whatever a job volume's own name may hold, it is no candidate for replacement: either it carries this
      attempt's nonce or it is an unlabelled volume that the owner check refuses. */
  lemma OwnNameHolds(s: Sys, p: Proc, pid: nat, sfx: Suffix)
    requires Ledger(s) && p.Creating? && Knows(s, pid, p)
    requires VolumeName(p.ident.inst, p.nonce, sfx) in s.w.volumes
    ensures var l := s.w.volumes[VolumeName(p.ident.inst, p.nonce, sfx)];
            l == map[] || (IsJob(l) && Get(l, CreateNonce) == p.nonce)
  {
    var v := VolumeName(p.ident.inst, p.nonce, sfx);
    VolumeNameHasTail(p.ident.inst, p.nonce, sfx);
    assert VolumeOk(s, v, s.w.volumes[v]);
  }

  lemma FreshVolumeOk(s: Sys, p: Proc, pid: nat, sfx: Suffix, at: string)
    requires Ledger(s) && p.Creating? && Knows(s, pid, p) && p.nonce in s.claimed
    ensures VolumeOk(s, VolumeName(p.ident.inst, p.nonce, sfx), VolumeLabels(p, sfx, at))
  {
    var v, l := VolumeName(p.ident.inst, p.nonce, sfx), VolumeLabels(p, sfx, at);
    VolumeNameHasTail(p.ident.inst, p.nonce, sfx);
    forall n | n in s.owner && EmbedsNonce(v, n) ensures Get(l, CreateNonce) == n {
      var sfx' :| HasTail(v, n, sfx');
      TailInjective(v, n, sfx', p.nonce, sfx);
    }
    assert Get(l, ControllerID) == p.ident.ctrl;
    assert IsJob(l) && Accounted(s, l) && NamedFor(v, l);
  }

  lemma MakeVolumeGuarantee(s: Sys, pid: nat, at: string)
    requires Inv(s) && AllocEnabled(s, pid, MakeVolume(at))
    ensures var s' := AllocDo(s, pid, MakeVolume(at)); Ledger(s') && Evolves(s, s', pid)
  {
    hide Evolves, WellFormed, NetworkOk, ContainerOk, VolumeOk, AfterVolumeCreate;
    var p := s.procs[pid];
    assert Knows(s, pid, p);
    FreshVolumeOk(s, p, pid, p.pc.s, at);
    AddVolumeGuarantee(s, AllocDo(s, pid, MakeVolume(at)), pid, VolumeName(p.ident.inst, p.nonce, p.pc.s), VolumeLabels(p, p.pc.s, at));
  }

  /** What a volume's create may answer leaves the attempt with its volume, or failed. */
  lemma MakeVolumePc(s: Sys, pid: nat, at: string)
    requires Inv(s) && AllocEnabled(s, pid, MakeVolume(at))
    ensures var s' := AllocDo(s, pid, MakeVolume(at));
            && s'.procs.Keys == s.procs.Keys && s'.owner == s.owner && s'.claimed == s.claimed
            && (forall k :: k in s.procs && k != pid ==> s'.procs[k] == s.procs[k])
            && var pc := AfterVolume(s.procs[pid], s.procs[pid].pc.s);
               s'.procs[pid] == s.procs[pid].(pc := pc) || s'.procs[pid] == s.procs[pid].(pc := Failed)
  {
    hide WellFormed, NetworkOk, ContainerOk, VolumeOk;
    var p := s.procs[pid];
    assert Knows(s, pid, p);
    if VolumeName(p.ident.inst, p.nonce, p.pc.s) in s.w.volumes { OwnNameHolds(s, p, pid, p.pc.s); }
  }

  lemma MakeVolumeKnows(s: Sys, pid: nat, at: string)
    requires Inv(s) && AllocEnabled(s, pid, MakeVolume(at))
    ensures ActorMoved(s, AllocDo(s, pid, MakeVolume(at)), pid)
  {
    hide Ledger, AllocDo;
    assert Knows(s, pid, s.procs[pid]);
    MakeVolumePc(s, pid, at);
  }

  lemma StepMakeVolume(s: Sys, pid: nat, at: string)
    requires Inv(s) && AllocEnabled(s, pid, MakeVolume(at))
    ensures Inv(AllocDo(s, pid, MakeVolume(at)))
  {
    hide *;
    MakeVolumeGuarantee(s, pid, at);
    MakeVolumeKnows(s, pid, at);
    Settle(s, AllocDo(s, pid, MakeVolume(at)), pid);
  }

  lemma TrySlotGuarantee(s: Sys, pid: nat, name: string, want: Labels)
    requires Inv(s) && AllocEnabled(s, pid, TrySlot(name, want))
    ensures var s' := AllocDo(s, pid, TrySlot(name, want)); Ledger(s') && Evolves(s, s', pid)
  {
    hide Evolves, WellFormed, NetworkOk, ContainerOk;
    AddVolumeGuarantee(s, AllocDo(s, pid, TrySlot(name, want)), pid, name, want);
  }

  lemma StepTrySlot(s: Sys, pid: nat, name: string, want: Labels)
    requires Inv(s) && AllocEnabled(s, pid, TrySlot(name, want))
    ensures Inv(AllocDo(s, pid, TrySlot(name, want)))
  {
    hide Evolves, Ledger;
    assert Knows(s, pid, s.procs[pid]);
    TrySlotGuarantee(s, pid, name, want);
    Settle(s, AllocDo(s, pid, TrySlot(name, want)), pid);
  }

  lemma CreateRunnerGuarantee(s: Sys, pid: nat, at: string, ambiguous: bool)
    requires Inv(s) && RunEnabled(s, pid, CreateRunner(at, ambiguous))
    ensures var s' := RunDo(s, pid, CreateRunner(at, ambiguous)); Ledger(s') && Evolves(s, s', pid)
  {
    hide Evolves, WellFormed, NetworkOk, VolumeOk, ContainerOk, JobVolumes;
    var p := s.procs[pid];
    assert Knows(s, pid, p);
    AddContainerGuarantee(s, RunDo(s, pid, CreateRunner(at, ambiguous)), pid, RunnerContainerName(p.ident.inst),
                          ContainerLabels(p.ident, RoleRunner, at, p.nonce),
                          JobVolumes(p) + RefNames(p.refs), OnNetwork(JobNetworkName(p.ident.inst)), Some(p.refs));
  }

  lemma CreateRunnerEffect(s: Sys, pid: nat, at: string, ambiguous: bool)
    requires RunEnabled(s, pid, CreateRunner(at, ambiguous))
    ensures var s' := RunDo(s, pid, CreateRunner(at, ambiguous));
            var p := s.procs[pid];
            && s'.procs == s.procs[pid := p.(pc := if !ambiguous then CheckingRunner(s.w.nextId, p.refs, p.pc.retried)
                                                   else if p.pc.retried then Failed else CreatingRunner(true))]
            && s'.needs == s.needs[s.w.nextId := p.refs] && s'.owner == s.owner && s'.claimed == s.claimed
            && s'.w.nextId == s.w.nextId + 1 && s.w.nextId in s'.w.containers
            && s'.w.containers[s.w.nextId].labels == ContainerLabels(p.ident, RoleRunner, at, p.nonce)
  {
  }

  lemma CreateRunnerKnows(s: Sys, pid: nat, at: string, ambiguous: bool)
    requires Inv(s) && RunEnabled(s, pid, CreateRunner(at, ambiguous))
    ensures ActorMoved(s, RunDo(s, pid, CreateRunner(at, ambiguous)), pid)
  {
    hide Ledger, WellFormed, RunDo, ContainerNameTaken;
    assert Knows(s, pid, s.procs[pid]);
    CreateRunnerEffect(s, pid, at, ambiguous);
    assert s.procs[pid].refs - s.procs[pid].refs == {};
  }

  lemma StepCreateRunner(s: Sys, pid: nat, at: string, ambiguous: bool)
    requires Inv(s) && RunEnabled(s, pid, CreateRunner(at, ambiguous))
    ensures Inv(RunDo(s, pid, CreateRunner(at, ambiguous)))
  {
    hide *;
    CreateRunnerGuarantee(s, pid, at, ambiguous);
    CreateRunnerKnows(s, pid, at, ambiguous);
    Settle(s, RunDo(s, pid, CreateRunner(at, ambiguous)), pid);
  }

  lemma StepCheckRunner(s: Sys, pid: nat, ref: Ref, readable: bool)
    requires Inv(s) && RunEnabled(s, pid, CheckRunner(ref, readable))
    ensures Inv(RunDo(s, pid, CheckRunner(ref, readable)))
  {
    assert Knows(s, pid, s.procs[pid]);
    PcOnlyStep(s, pid, RunDo(s, pid, CheckRunner(ref, readable)));
  }

  /** The checks are done when the runner is started, whatever the start then reports. */
  lemma RunnerStartGuarantee(s: Sys, pid: nat, outcome: StartOutcome)
    requires Inv(s) && RunEnabled(s, pid, StartRunner(outcome)) && !outcome.Refused?
    ensures var s' := RunDo(s, pid, StartRunner(outcome)); Ledger(s') && Evolves(s, s', pid)
  {
    hide Evolves, WellFormed, NetworkOk, VolumeOk, ContainerOk, Passes;
    var p := s.procs[pid];
    assert Knows(s, pid, p);
    assert p.refs - {} == p.refs;
    SetStateGuarantee(s, RunDo(s, pid, StartRunner(outcome)), pid, p.pc.runner, Running);
  }

  lemma RunnerStartEffect(s: Sys, pid: nat, outcome: StartOutcome)
    requires RunEnabled(s, pid, StartRunner(outcome)) && !outcome.Refused?
    ensures var s' := RunDo(s, pid, StartRunner(outcome));
            var p := s.procs[pid];
            && p.pc.runner in s.w.containers && p.pc.todo == {}
            && s'.procs == s.procs[pid := p.(pc := if outcome.Started? then AfterRunner(p, p.pc.runner) else AfterRefusal(p, outcome.ipv6))]
            && s'.w.nextId == s.w.nextId
            && p.pc.runner in s'.w.containers && s'.w.containers[p.pc.runner].labels == s.w.containers[p.pc.runner].labels
            && s'.needs == s.needs && s'.owner == s.owner && s'.claimed == s.claimed
  {
  }

  lemma RunnerStartKnows(s: Sys, pid: nat, outcome: StartOutcome)
    requires Inv(s) && RunEnabled(s, pid, StartRunner(outcome)) && !outcome.Refused?
    requires Evolves(s, RunDo(s, pid, StartRunner(outcome)), pid)
    ensures ActorMoved(s, RunDo(s, pid, StartRunner(outcome)), pid)
  {
    hide WellFormed, NetworkOk, VolumeOk, ContainerOk, RunDo, Evolves, Checked, CanStart;
    var p := s.procs[pid];
    assert Knows(s, pid, p);
    RunnerStartEffect(s, pid, outcome);
    assert p.refs - {} == p.refs;
    CheckedStable(s, RunDo(s, pid, StartRunner(outcome)), pid, p.pc.runner, p.refs);
  }

  lemma RunnerStarted(s: Sys, pid: nat, outcome: StartOutcome)
    requires Inv(s) && RunEnabled(s, pid, StartRunner(outcome)) && !outcome.Refused?
    ensures Inv(RunDo(s, pid, StartRunner(outcome)))
  {
    hide *;
    RunnerStartGuarantee(s, pid, outcome);
    RunnerStartKnows(s, pid, outcome);
    Settle(s, RunDo(s, pid, StartRunner(outcome)), pid);
  }

  lemma StepStartRunner(s: Sys, pid: nat, outcome: StartOutcome)
    requires Inv(s) && RunEnabled(s, pid, StartRunner(outcome))
    ensures Inv(RunDo(s, pid, StartRunner(outcome)))
  {
    if outcome.Refused? {
      assert Knows(s, pid, s.procs[pid]);
      PcOnlyStep(s, pid, RunDo(s, pid, StartRunner(outcome)));
    } else {
      RunnerStarted(s, pid, outcome);
    }
  }

  lemma StepDropRunner(s: Sys, pid: nat)
    requires Inv(s) && RunEnabled(s, pid, DropRunner)
    ensures Inv(RunDo(s, pid, DropRunner))
  {
    hide Ledger;
    assert Knows(s, pid, s.procs[pid]);
    ShrinkStep(s, RunDo(s, pid, DropRunner), pid);
  }

  lemma CreateSidecarGuarantee(s: Sys, pid: nat, ext: set<Ref>, at: string, ambiguous: bool)
    requires Inv(s) && RunEnabled(s, pid, CreateSidecar(ext, at, ambiguous))
    ensures var s' := RunDo(s, pid, CreateSidecar(ext, at, ambiguous)); Ledger(s') && Evolves(s, s', pid)
  {
    hide Evolves, WellFormed, NetworkOk, VolumeOk, ContainerOk, SidecarVolumes;
    var p := s.procs[pid];
    assert Knows(s, pid, p);
    assert RefNames({}) == {};
    AddContainerGuarantee(s, RunDo(s, pid, CreateSidecar(ext, at, ambiguous)), pid, DindContainerName(p.ident.inst),
                          ContainerLabels(p.ident, RoleDind, at, p.nonce), SidecarVolumes(p.ident.inst, p.nonce) + RefNames(ext),
                          if p.dind.SharedNetns? then InNetns(p.pc.runner) else OnNetwork(JobNetworkName(p.ident.inst)),
                          Some(if p.dind.SharedNetns? then ext else {}));
  }

  lemma CreateSidecarEffect(s: Sys, pid: nat, ext: set<Ref>, at: string, ambiguous: bool)
    requires RunEnabled(s, pid, CreateSidecar(ext, at, ambiguous))
    ensures var s' := RunDo(s, pid, CreateSidecar(ext, at, ambiguous));
            var p := s.procs[pid];
            && s'.procs == s.procs[pid := p.(pc := if ambiguous then Failed else StartingSidecar(p.pc.runner, s.w.nextId))]
            && s'.needs == s.needs[s.w.nextId := if p.dind.SharedNetns? then ext else {}]
            && s'.owner == s.owner && s'.claimed == s.claimed
            && s.w.nextId in s'.w.containers
            && (p.dind.SharedNetns? ==> s'.w.containers[s.w.nextId].net == InNetns(p.pc.runner))
  {
  }

  /** The sidecar's create touches no volume the runner references, so what was checked stays checked. */
  lemma CreateSidecarKnows(s: Sys, pid: nat, ext: set<Ref>, at: string, ambiguous: bool)
    requires Inv(s) && RunEnabled(s, pid, CreateSidecar(ext, at, ambiguous))
    requires Evolves(s, RunDo(s, pid, CreateSidecar(ext, at, ambiguous)), pid)
    ensures ActorMoved(s, RunDo(s, pid, CreateSidecar(ext, at, ambiguous)), pid)
  {
    hide Evolves, WellFormed, NetworkOk, VolumeOk, ContainerOk, Checked, ContainerNameTaken, RunDo;
    var p := s.procs[pid];
    assert Knows(s, pid, p);
    CreateSidecarEffect(s, pid, ext, at, ambiguous);
    CheckedStable(s, RunDo(s, pid, CreateSidecar(ext, at, ambiguous)), pid, p.pc.runner, p.refs);
  }

  lemma StepCreateSidecar(s: Sys, pid: nat, ext: set<Ref>, at: string, ambiguous: bool)
    requires Inv(s) && RunEnabled(s, pid, CreateSidecar(ext, at, ambiguous))
    ensures Inv(RunDo(s, pid, CreateSidecar(ext, at, ambiguous)))
  {
    hide *;
    CreateSidecarGuarantee(s, pid, ext, at, ambiguous);
    CreateSidecarKnows(s, pid, ext, at, ambiguous);
    Settle(s, RunDo(s, pid, CreateSidecar(ext, at, ambiguous)), pid);
  }

  /** In the shared-namespace mode the daemon starts the sidecar only beside a running runner, and the runner
      its creator started keeps its checked caches pinned. */
  lemma StartSidecarGuarantee(s: Sys, pid: nat)
    requires Inv(s) && RunEnabled(s, pid, StartSidecar)
    ensures var s' := RunDo(s, pid, StartSidecar); Ledger(s') && Evolves(s, s', pid)
  {
    hide Evolves, WellFormed, NetworkOk, VolumeOk, ContainerOk, Passes;
    assert Knows(s, pid, s.procs[pid]);
    SetStateGuarantee(s, RunDo(s, pid, StartSidecar), pid, s.procs[pid].pc.sidecar, Running);
  }

  lemma StepStartSidecar(s: Sys, pid: nat)
    requires Inv(s) && RunEnabled(s, pid, StartSidecar)
    ensures Inv(RunDo(s, pid, StartSidecar))
  {
    hide Evolves, Ledger;
    assert Knows(s, pid, s.procs[pid]);
    StartSidecarGuarantee(s, pid);
    Settle(s, RunDo(s, pid, StartSidecar), pid);
  }

  lemma StepAlloc(s: Sys, pid: nat, a: AllocAction)
    requires Inv(s) && AllocEnabled(s, pid, a)
    ensures Inv(AllocDo(s, pid, a))
  {
    match a
    case Begin(ident, nonce, dind) => StepBegin(s, pid, ident, nonce, dind);
    case Claim(at, ambiguous) => StepClaim(s, pid, at, ambiguous);
    case ListOwn => StepListOwn(s, pid);
    case DropOwn(net) => StepDropOwn(s, pid, net);
    case MakeVolume(at) => StepMakeVolume(s, pid, at);
    case ReplaceRemove => assert false;
    case ReplaceCreate(_) => assert false;
    case TrySlot(name, want) => StepTrySlot(s, pid, name, want);
    case AdoptListed(_, _) => assert Knows(s, pid, s.procs[pid]); PcOnlyStep(s, pid, AllocDo(s, pid, a));
    case CachesDone => assert Knows(s, pid, s.procs[pid]); PcOnlyStep(s, pid, AllocDo(s, pid, a));
  }

  lemma StepRollback(s: Sys, pid: nat)
    requires Inv(s) && RunEnabled(s, pid, Rollback)
    ensures Inv(RunDo(s, pid, Rollback))
  {
    assert Knows(s, pid, s.procs[pid]);
    NoEffectGuarantee(s, RunDo(s, pid, Rollback), pid);
    Conclude(s, RunDo(s, pid, Rollback), pid);
  }

  lemma StepRun(s: Sys, pid: nat, a: RunAction)
    requires Inv(s) && RunEnabled(s, pid, a)
    ensures Inv(RunDo(s, pid, a))
  {
    match a
    case CreateRunner(at, ambiguous) => StepCreateRunner(s, pid, at, ambiguous);
    case RetryCreate => assert Knows(s, pid, s.procs[pid]); PcOnlyStep(s, pid, RunDo(s, pid, a));
    case CheckRunner(ref, readable) => StepCheckRunner(s, pid, ref, readable);
    case StartRunner(outcome) => StepStartRunner(s, pid, outcome);
    case DropRunner => StepDropRunner(s, pid);
    case CreateSidecar(ext, at, ambiguous) => StepCreateSidecar(s, pid, ext, at, ambiguous);
    case StartSidecar => StepStartSidecar(s, pid);
    case Fail => assert Knows(s, pid, s.procs[pid]); PcOnlyStep(s, pid, RunDo(s, pid, a));
    case Rollback => StepRollback(s, pid);
  }

  // ---------------------------------------------------------------- teardown

  /** The captured nonces are nonces claimed before the teardown began. */
  lemma StepBeginTeardown(s: Sys, pid: nat, ctrl: string, inst: string, captured: map<string, string>)
    requires Inv(s) && TearEnabled(s, pid, BeginTeardown(ctrl, inst, captured))
    ensures Inv(TearDo(s, pid, BeginTeardown(ctrl, inst, captured)))
  {
    forall n | n in captured.Values ensures n in s.claimed {
      var i :| i in captured && captured[i] == n;
      assert HeldBy(s.w, ctrl, InstanceScopedFilter(ctrl, inst), i, captured[i]);
      var id :| id in s.w.networks && Holds(s.w.networks[id].labels, ctrl, InstanceScopedFilter(ctrl, inst), i, captured[i]);
      assert NetworkOk(s, s.w.networks[id]);
    }
    PcOnlyStep(s, pid, TearDo(s, pid, BeginTeardown(ctrl, inst, captured)));
  }

  lemma ListedKnown(s: Sys, f: Filter, phase: Phase, it: Item)
    requires Ledger(s) && it in Listing(s.w, f, phase)
    ensures ItemKnown(s, it)
  {
    match it
    case ContainerItem(id, l) => assert ContainerOk(s, id, s.w.containers[id]);
    case VolumeItem(v, l) => assert VolumeOk(s, v, s.w.volumes[v]);
    case NetworkItem(id, l) => assert NetworkOk(s, s.w.networks[id]);
  }

  lemma StepList(s: Sys, pid: nat)
    requires Inv(s) && TearEnabled(s, pid, List)
    ensures Inv(TearDo(s, pid, List))
  {
    var s' := TearDo(s, pid, List);
    assert Knows(s, pid, s.procs[pid]);
    forall it | it in s'.procs[pid].todo ensures ItemKnown(s', it) { ListedKnown(s, s.procs[pid].filter, s.procs[pid].phase, it); }
    if s.procs[pid].approved.Some? {
      assert ApprovalKnown(s', s.procs[pid].ctrl, s.procs[pid].mode, s.procs[pid].seen, s.procs[pid].approved.value);
    }
    PcOnlyStep(s, pid, s');
  }

  /** The live read is conclusive: if the claim it saw (or did not see) is not this generation's, this
      generation's claim is gone, and by `NotLiveStable` it stays gone. */
  lemma LiveReadConclusive(s: Sys, ctrl: string, it: Item, live: Option<string>)
    requires Ledger(s) && ItemKnown(s, it) && MatchesPredicate(it.labels, ctrl)
    requires LiveRead(s.w, ctrl, it.labels[InstanceName], live)
    requires !(live.Some? && live.value != "" && Get(it.labels, CreateNonce) == live.value)
    ensures NotLive(s.w, Get(it.labels, CreateNonce))
  {
    var n := Get(it.labels, CreateNonce);
    var inst := it.labels[InstanceName];
    assert IsNonce(n);
    if live.Some? {
      var seen :| seen in s.w.networks && ClaimsWith(s.w.networks[seen].labels, ctrl, inst, live.value);
      MatchesClaim(ctrl, inst, s.w.networks[seen].labels);
      MatchesInstance(ctrl, inst, s.w.networks[seen].labels);
      assert NetworkOk(s, s.w.networks[seen]);
    }
    forall id | id in s.w.networks && IsJob(s.w.networks[id].labels) ensures Get(s.w.networks[id].labels, CreateNonce) != n {
      assert NetworkOk(s, s.w.networks[id]);
    }
  }

  lemma StepApprove(s: Sys, pid: nat, item: Item, live: Option<string>)
    requires Inv(s) && TearEnabled(s, pid, Approve(item, live))
    ensures Inv(TearDo(s, pid, Approve(item, live)))
  {
    var s' := TearDo(s, pid, Approve(item, live));
    var p := s.procs[pid];
    assert Knows(s, pid, p);
    if p.mode.Captured? && item.labels[InstanceName] !in p.mode.captured {
      LiveReadConclusive(s, p.ctrl, item, live);
    }
    assert ApprovalKnown(s', p.ctrl, p.mode, p.seen, item);
    PcOnlyStep(s, pid, s');
  }

  lemma StepRemove(s: Sys, pid: nat)
    requires Inv(s) && TearEnabled(s, pid, Remove)
    ensures Inv(TearDo(s, pid, Remove))
  {
    hide Evolves;
    var s' := TearDo(s, pid, Remove);
    assert Knows(s, pid, s.procs[pid]);
    ItemRemovalShrinks(s.w, s.procs[pid].approved.value);
    ShrinkGuarantee(s, s', pid);
    forall it | it in s'.procs[pid].todo ensures ItemKnown(s', it) { ItemStable(s, s', pid, it); }
    Conclude(s, s', pid);
  }

  lemma StepBeginTeardownAll(s: Sys, pid: nat, ctrl: string)
    requires Inv(s) && TearEnabled(s, pid, BeginTeardownAll(ctrl))
    ensures Inv(TearDo(s, pid, BeginTeardownAll(ctrl)))
  {
    PcOnlyStep(s, pid, TearDo(s, pid, BeginTeardownAll(ctrl)));
  }

  lemma StepNextPhase(s: Sys, pid: nat)
    requires Inv(s) && TearEnabled(s, pid, NextPhase)
    ensures Inv(TearDo(s, pid, NextPhase))
  {
    hide Evolves, Ledger, ItemKnown, ApprovalKnown;
    assert Knows(s, pid, s.procs[pid]);
    NoEffectGuarantee(s, TearDo(s, pid, NextPhase), pid);
    Settle(s, TearDo(s, pid, NextPhase), pid);
  }

  lemma StepTear(s: Sys, pid: nat, a: TearAction)
    requires Inv(s) && TearEnabled(s, pid, a)
    ensures Inv(TearDo(s, pid, a))
  {
    match a
    case BeginTeardown(ctrl, inst, captured) => StepBeginTeardown(s, pid, ctrl, inst, captured);
    case BeginTeardownAll(ctrl) => StepBeginTeardownAll(s, pid, ctrl);
    case List => StepList(s, pid);
    case Approve(item, live) => StepApprove(s, pid, item, live);
    case Remove => StepRemove(s, pid);
    case NextPhase => StepNextPhase(s, pid);
  }

  // ---------------------------------------------------------------- helpers, stamps, crashes and outsiders

  lemma HelperCreated(s: Sys, s': Sys, pid: nat, name: string, l: Labels, ambiguous: bool)
    requires Inv(s) && Helps(s, pid) && s.procs[pid].hpc.HelperCreating?
    requires IsOwnHelper(l, s.procs[pid].ctrl, RoleCacheHelper) && !ContainerNameTaken(s.w, name)
    requires s' == (if ambiguous then s.(procs := s.procs - {pid}) else With(s, pid, s.procs[pid].(hpc := HelperChecking(s.w.nextId)))).(
               w := AddContainer(s.w, name, l, {s.procs[pid].ref.name}, Detached), needs := s.needs[s.w.nextId := {s.procs[pid].ref}])
    ensures Inv(s')
  {
    hide Evolves;
    assert RefNames({s.procs[pid].ref}) == {s.procs[pid].ref.name};
    ContainerStep(s, s', pid, name, l, {s.procs[pid].ref.name}, Detached, Some({s.procs[pid].ref}));
  }

  lemma StepCreateHelper(s: Sys, pid: nat, name: string, at: string, ambiguous: bool)
    requires Inv(s) && HelpEnabled(s, pid, CreateHelper(name, at, ambiguous))
    ensures Inv(HelpDo(s, pid, CreateHelper(name, at, ambiguous)))
  {
    HelperCreated(s, HelpDo(s, pid, CreateHelper(name, at, ambiguous)), pid, name, OwnedHelperLabels(s.procs[pid].ctrl, RoleCacheHelper, at), ambiguous);
  }

  lemma StepCreateStamp(s: Sys, pid: nat, name: string, at: string)
    requires Inv(s) && HelpEnabled(s, pid, CreateStamp(name, at))
    ensures Inv(HelpDo(s, pid, CreateStamp(name, at)))
  {
    var s' := HelpDo(s, pid, CreateStamp(name, at));
    assert Knows(s, pid, s.procs[pid]);
    AddContainerGuarantee(s, s', pid, name, OwnedHelperLabels(s.procs[pid].ctrl, s.procs[pid].role, at), {}, Detached, None);
    Conclude(s, s', pid);
  }

  lemma StartPayloadGuarantee(s: Sys, pid: nat)
    requires Inv(s) && HelpEnabled(s, pid, StartPayload)
    ensures var s' := HelpDo(s, pid, StartPayload); Ledger(s') && Evolves(s, s', pid)
  {
    hide Evolves, WellFormed, NetworkOk, VolumeOk, ContainerOk, Passes;
    assert Knows(s, pid, s.procs[pid]);
    SetStateGuarantee(s, HelpDo(s, pid, StartPayload), pid, s.procs[pid].hpc.id, Running);
  }

  lemma StepStartPayload(s: Sys, pid: nat)
    requires Inv(s) && HelpEnabled(s, pid, StartPayload)
    ensures Inv(HelpDo(s, pid, StartPayload))
  {
    hide Evolves, Ledger;
    assert Knows(s, pid, s.procs[pid]);
    StartPayloadGuarantee(s, pid);
    Settle(s, HelpDo(s, pid, StartPayload), pid);
  }

  lemma StepRemoveHelper(s: Sys, pid: nat)
    requires Inv(s) && HelpEnabled(s, pid, RemoveHelper)
    ensures Inv(HelpDo(s, pid, RemoveHelper))
  {
    hide Ledger;
    ShrinkStep(s, HelpDo(s, pid, RemoveHelper), pid);
  }

  lemma StepRemovePicked(s: Sys, pid: nat)
    requires Inv(s) && HelpEnabled(s, pid, RemovePicked)
    ensures Inv(HelpDo(s, pid, RemovePicked))
  {
    hide Ledger;
    assert Knows(s, pid, s.procs[pid]);
    ShrinkStep(s, HelpDo(s, pid, RemovePicked), pid);
  }

  lemma StepCheckHelper(s: Sys, pid: nat)
    requires Inv(s) && HelpEnabled(s, pid, CheckHelper)
    ensures Inv(HelpDo(s, pid, CheckHelper))
  {
    hide Ledger;
    assert Knows(s, pid, s.procs[pid]);
    PcOnlyStep(s, pid, HelpDo(s, pid, CheckHelper));
  }

  lemma StepPick(s: Sys, pid: nat, id: nat)
    requires Inv(s) && HelpEnabled(s, pid, Pick(id))
    ensures Inv(HelpDo(s, pid, Pick(id)))
  {
    assert Knows(s, pid, s.procs[pid]);
    PcOnlyStep(s, pid, HelpDo(s, pid, Pick(id)));
  }

  lemma StepBeginHelp(s: Sys, pid: nat, a: HelpAction)
    requires Inv(s) && HelpEnabled(s, pid, a) && (a.BeginHelper? || a.BeginKeeper?)
    ensures Inv(HelpDo(s, pid, a))
  {
    hide Ledger;
    PcOnlyStep(s, pid, HelpDo(s, pid, a));
  }

  lemma StepHelp(s: Sys, pid: nat, a: HelpAction)
    requires Inv(s) && HelpEnabled(s, pid, a)
    ensures Inv(HelpDo(s, pid, a))
  {
    hide *;
    match a
    case CreateHelper(name, at, ambiguous) => StepCreateHelper(s, pid, name, at, ambiguous);
    case CreateStamp(name, at) => StepCreateStamp(s, pid, name, at);
    case StartPayload => StepStartPayload(s, pid);
    case RemoveHelper => StepRemoveHelper(s, pid);
    case RemovePicked => StepRemovePicked(s, pid);
    case BeginHelper(_, _) => StepBeginHelp(s, pid, a);
    case BeginKeeper(_, _) => StepBeginHelp(s, pid, a);
    case CheckHelper => StepCheckHelper(s, pid);
    case Pick(id) => StepPick(s, pid, id);
  }

  // ---------------------------------------------------------------- StartInstance and StopInstance

  lemma OperateGuarantee(s: Sys, pid: nat, a: OperateAction)
    requires Inv(s) && OperateEnabled(s, pid, a)
    ensures var s' := OperateDo(s, pid, a); Ledger(s') && Evolves(s, s', pid)
  {
    var s' := OperateDo(s, pid, a);
    match a
    case BeginOperate(_, _) => NoEffectGuarantee(s, s', pid);
    case Resolve(_) => NoEffectGuarantee(s, s', pid);
    case StartOwned(id) => SetStateGuarantee(s, s', pid, id, Running);
    case StopOwned(id) => SetStateGuarantee(s, s', pid, id, Exited);
  }

  lemma StepOperate(s: Sys, pid: nat, a: OperateAction)
    requires Inv(s) && OperateEnabled(s, pid, a)
    ensures Inv(OperateDo(s, pid, a))
  {
    hide Evolves;
    OperateGuarantee(s, pid, a);
    Conclude(s, OperateDo(s, pid, a), pid);
  }

  lemma OutsideRemoval(s: Sys, op: OutsideOp)
    requires Ledger(s) && OutsideEnabled(s, op) && (op.OutVolumeRemove? || op.OutContainerRemove? || op.OutNetworkRemove?)
    ensures var s' := Do(s, Outside(op)); Ledger(s') && Evolves(s, s', 0)
  {
    hide Ledger, Evolves;
    ShrinkGuarantee(s, Do(s, Outside(op)), 0);
  }

  lemma OutsideGuarantee(s: Sys, op: OutsideOp)
    requires Ledger(s) && OutsideEnabled(s, op)
    ensures var s' := Do(s, Outside(op)); Ledger(s') && Evolves(s, s', 0)
  {
    hide Evolves;
    var s' := Do(s, Outside(op));
    match op
    case OutVolumeCreate(n, l) => AddVolumeGuarantee(s, s', 0, n, l);
    case OutVolumeRemove(_) => OutsideRemoval(s, op);
    case OutContainerCreate(n, l, m, net) => AddContainerGuarantee(s, s', 0, n, l, m, net, None);
    case OutContainerRemove(_) => OutsideRemoval(s, op);
    case OutNetworkCreate(n, l) => AddNetworkGuarantee(s, s', 0, n, l);
    case OutNetworkRemove(_) => OutsideRemoval(s, op);
    case OutState(id, st) => SetStateGuarantee(s, s', 0, id, st);
  }

  /** An outsider claims no nonce, so any process may rely on its act. */
  lemma OutsideActor(s: Sys, op: OutsideOp, actor: nat)
    requires OutsideEnabled(s, op) && Evolves(s, Do(s, Outside(op)), 0)
    ensures Evolves(s, Do(s, Outside(op)), actor)
  {
    assert Do(s, Outside(op)).claimed == s.claimed;
  }

  lemma StepOutside(s: Sys, op: OutsideOp)
    requires Inv(s) && OutsideEnabled(s, op)
    ensures Inv(Do(s, Outside(op)))
  {
    hide Ledger, Evolves, Knows, OutsideEnabled;
    var s' := Do(s, Outside(op));
    OutsideGuarantee(s, op);
    forall pid | pid in s'.procs ensures Knows(s', pid, s'.procs[pid]) {
      OutsideActor(s, op, pid + 1);
      KnowsStable(s, s', pid + 1, pid, s.procs[pid]);
    }
  }

  /** Every step of every process, and every act of an outsider, keeps the invariant. */
  lemma StepKeepsInv(s: Sys, st: Step)
    requires Inv(s) && Enabled(s, st)
    ensures Inv(Do(s, st))
  {
    hide AllocEnabled, RunEnabled, TearEnabled, HelpEnabled, OperateEnabled, OutsideEnabled, Evolves, Ledger;
    match st
    case Alloc(pid, a) => StepAlloc(s, pid, a);
    case Run(pid, a) => StepRun(s, pid, a);
    case Tear(pid, a) => StepTear(s, pid, a);
    case Help(pid, a) => StepHelp(s, pid, a);
    case Operate(pid, a) => StepOperate(s, pid, a);
    case Exit(pid) => NoEffectGuarantee(s, Do(s, st), pid); Settle(s, Do(s, st), pid);
    case Outside(op) => StepOutside(s, op);
  }
}
