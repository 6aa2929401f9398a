/** Ownership over whole runs: what may disappear at a provider's hand, whose claim holds a name, and what a
    stale volume name can hit. */
module ProtocolOwnership {
  import opened Text
  import opened LabelSpec
  import opened Names
  import opened Docker
  import opened TeardownScope
  import opened Protocol
  import opened ProtocolInvariant
  import opened ProtocolSafety

  // ---------------------------------------------------------------- the claim is exclusive

  lemma ClaimNetworksUnique(s: Sys, a: nat, b: nat)
    requires Ledger(s) && a in s.w.networks && b in s.w.networks
    requires IsJob(s.w.networks[a].labels) && IsJob(s.w.networks[b].labels)
    requires Lower(s.w.networks[a].labels[InstanceName]) == Lower(s.w.networks[b].labels[InstanceName])
    ensures a == b
  {
    assert NetworkOk(s, s.w.networks[a]) && NetworkOk(s, s.w.networks[b]);
    JobNetworkNameInjective(s.w.networks[a].labels[InstanceName], s.w.networks[b].labels[InstanceName]);
  }

  /** Mutual exclusion: whatever processes of whatever controllers interleave, two claim networks whose
      instance names differ at most in case are one network, hence one generation. */
  lemma ClaimExclusive(states: seq<Sys>, steps: seq<Step>, i: nat, a: nat, b: nat)
    requires IsRun(states, steps) && i < |states| && a in states[i].w.networks && b in states[i].w.networks
    requires IsJob(states[i].w.networks[a].labels) && IsJob(states[i].w.networks[b].labels)
    requires Lower(states[i].w.networks[a].labels[InstanceName]) == Lower(states[i].w.networks[b].labels[InstanceName])
    ensures a == b
  {
    ReachableInv(states, steps, i);
    ClaimNetworksUnique(states[i], a, b);
  }

  /** Two different claim networks never carry one nonce: a nonce claims once, for one instance. */
  lemma NonceClaimsOnce(states: seq<Sys>, steps: seq<Step>, i: nat, a: nat, b: nat)
    requires IsRun(states, steps) && i < |states| && a in states[i].w.networks && b in states[i].w.networks
    requires IsJob(states[i].w.networks[a].labels) && IsJob(states[i].w.networks[b].labels)
    requires Get(states[i].w.networks[a].labels, CreateNonce) == Get(states[i].w.networks[b].labels, CreateNonce)
    ensures a == b
  {
    ReachableInv(states, steps, i);
    assert NetworkOk(states[i], states[i].w.networks[a]) && NetworkOk(states[i], states[i].w.networks[b]);
    ClaimNetworksUnique(states[i], a, b);
  }

  /** No run puts anything job-scoped, a claim network included, under the empty instance name: every such
      resource is of a generation some create drew, and a create refuses that name. */
  lemma NoEmptyInstance(states: seq<Sys>, steps: seq<Step>, i: nat)
    requires IsRun(states, steps) && i < |states|
    ensures forall id :: id in states[i].w.networks && IsJob(states[i].w.networks[id].labels) ==>
              states[i].w.networks[id].labels[InstanceName] != ""
    ensures forall id :: id in states[i].w.containers && IsJob(states[i].w.containers[id].labels) ==>
              states[i].w.containers[id].labels[InstanceName] != ""
    ensures forall v :: v in states[i].w.volumes && IsJob(states[i].w.volumes[v]) ==> states[i].w.volumes[v][InstanceName] != ""
  {
    ReachableInv(states, steps, i);
    var s := states[i];
    forall id | id in s.w.networks && IsJob(s.w.networks[id].labels) ensures s.w.networks[id].labels[InstanceName] != "" {
      assert NetworkOk(s, s.w.networks[id]);
    }
    forall id | id in s.w.containers && IsJob(s.w.containers[id].labels) ensures s.w.containers[id].labels[InstanceName] != "" {
      assert ContainerOk(s, id, s.w.containers[id]);
    }
    forall v | v in s.w.volumes && IsJob(s.w.volumes[v]) ensures s.w.volumes[v][InstanceName] != "" {
      assert VolumeOk(s, v, s.w.volumes[v]);
    }
  }

  lemma LiveReadsAgree(s: Sys, ctrl: string, inst: string, l1: Option<string>, l2: Option<string>)
    requires Ledger(s) && LiveRead(s.w, ctrl, inst, l1) && LiveRead(s.w, ctrl, inst, l2)
    ensures l1 == l2
  {
    if l1.Some? && l2.Some? {
      var a :| a in s.w.networks && ClaimsWith(s.w.networks[a].labels, ctrl, inst, l1.value);
      var b :| b in s.w.networks && ClaimsWith(s.w.networks[b].labels, ctrl, inst, l2.value);
      ClaimLabels(s.w.networks[a].labels, ctrl, inst);
      ClaimLabels(s.w.networks[b].labels, ctrl, inst);
      ClaimNetworksUnique(s, a, b);
    }
  }

  /** The live claim nonce is a function of the daemon's state: every order in which the daemon may list its
      networks gives the same answer. */
  lemma LiveReadDetermined(states: seq<Sys>, steps: seq<Step>, i: nat, ctrl: string, inst: string,
                           l1: Option<string>, l2: Option<string>)
    requires IsRun(states, steps) && i < |states|
    requires LiveRead(states[i].w, ctrl, inst, l1) && LiveRead(states[i].w, ctrl, inst, l2)
    ensures l1 == l2
  {
    ReachableInv(states, steps, i);
    LiveReadsAgree(states[i], ctrl, inst, l1, l2);
  }

  lemma CapturedMapsAgree(s: Sys, ctrl: string, f: Filter, c1: map<string, string>, c2: map<string, string>)
    requires Ledger(s) && CapturedFrom(s.w, ctrl, f, c1) && CapturedFrom(s.w, ctrl, f, c2)
    ensures c1 == c2
  {
    if c1 != c2 {
      var x :| (x in c1 || x in c2) && !(x in c1 && x in c2 && c1[x] == c2[x]);
      if x in c1 { CapturedAgree(s, ctrl, f, c1, c2, x); } else { CapturedAgree(s, ctrl, f, c2, c1, x); }
    }
  }

  /** So is the captured map of a teardown. */
  lemma CapturedDetermined(states: seq<Sys>, steps: seq<Step>, i: nat, ctrl: string, f: Filter,
                           c1: map<string, string>, c2: map<string, string>)
    requires IsRun(states, steps) && i < |states|
    requires CapturedFrom(states[i].w, ctrl, f, c1) && CapturedFrom(states[i].w, ctrl, f, c2)
    ensures c1 == c2
  {
    ReachableInv(states, steps, i);
    CapturedMapsAgree(states[i], ctrl, f, c1, c2);
  }

  lemma ClaimLabels(l: Labels, ctrl: string, inst: string)
    requires IsClaim(l, ctrl, inst)
    ensures IsJob(l) && l[InstanceName] == inst
  {
    MatchesClaim(ctrl, inst, l);
    MatchesInstance(ctrl, inst, l);
  }

  lemma CapturedAgree(s: Sys, ctrl: string, f: Filter, c1: map<string, string>, c2: map<string, string>, x: string)
    requires Ledger(s) && CapturedFrom(s.w, ctrl, f, c1) && CapturedFrom(s.w, ctrl, f, c2) && x in c1
    ensures x in c2 && c1[x] == c2[x]
  {
    assert HeldBy(s.w, ctrl, f, x, c1[x]);
    var a :| a in s.w.networks && Holds(s.w.networks[a].labels, ctrl, f, x, c1[x]);
    assert HeldBy(s.w, ctrl, f, x, c2[x]);
    var b :| b in s.w.networks && Holds(s.w.networks[b].labels, ctrl, f, x, c2[x]);
    ClaimNetworksUnique(s, a, b);
  }

  // ---------------------------------------------------------------- volume names and generations

  /** In every reachable state a job volume's name is derived from its own instance and nonce labels, so two
      job volumes of different generations never share a name. */
  lemma JobVolumeNamedForItsGeneration(states: seq<Sys>, steps: seq<Step>, i: nat, v: string)
    requires IsRun(states, steps) && i < |states| && v in states[i].w.volumes && IsJob(states[i].w.volumes[v])
    ensures var l := states[i].w.volumes[v];
            && IsNonce(Get(l, CreateNonce))
            && exists sfx :: v == VolumeName(l[InstanceName], Get(l, CreateNonce), sfx)
  {
    ReachableInv(states, steps, i);
    assert VolumeOk(states[i], v, states[i].w.volumes[v]);
  }

  /** Removing by name from a stale listing: whatever now bears the listed name is of the listed generation,
      or is an unlabelled volume the daemon made under that generation's own name. */
  lemma StaleNameHitsSameGeneration(states: seq<Sys>, steps: seq<Step>, i: nat, pid: nat, it: Item)
    requires IsRun(states, steps) && i < |states| && pid in states[i].procs && states[i].procs[pid].Tearing?
    requires it.VolumeItem? && (it in states[i].procs[pid].todo || states[i].procs[pid].approved == Some(it))
    requires IsJob(it.labels) && it.name in states[i].w.volumes
    ensures var l := states[i].w.volumes[it.name];
            l == map[] || (IsJob(l) && Get(l, CreateNonce) == Get(it.labels, CreateNonce))
  {
    ReachableInv(states, steps, i);
    var s := states[i];
    assert Knows(s, pid, s.procs[pid]);
    assert ItemKnown(s, it);
    var sfx :| it.name == VolumeName(it.labels[InstanceName], Get(it.labels, CreateNonce), sfx);
    VolumeNameHasTail(it.labels[InstanceName], Get(it.labels, CreateNonce), sfx);
    assert VolumeOk(s, it.name, s.w.volumes[it.name]);
  }

  /** createFreshVolume's remove-and-recreate branch is never taken: a fresh nonce's names can hold only its
      own volume or an unlabelled one, which the owner check refuses. */
  lemma ReplacementUnreachable(states: seq<Sys>, steps: seq<Step>, i: nat, pid: nat)
    requires IsRun(states, steps) && i < |states| && At(states[i], pid)
    ensures !states[i].procs[pid].pc.ReplacingVolume? && !states[i].procs[pid].pc.RecreatingVolume?
  {
    ReachableInv(states, steps, i);
    assert Knows(states[i], pid, states[i].procs[pid]);
  }

  // ---------------------------------------------------------------- the ownership frame

  predicate IsOwnKeep(l: Labels, ctrl: string) {
    IsOwnHelper(l, ctrl, RoleCacheHelper) || IsOwnHelper(l, ctrl, RoleDiagPruneStamp) || IsOwnHelper(l, ctrl, RoleThrottleStamp)
  }

  /** The daemon made this volume, unlabelled, under a job volume name of one of ctrl's own generations. */
  ghost predicate IsOwnRemnant(s: Sys, v: string, ctrl: string) {
    v in s.w.volumes && s.w.volumes[v] == map[] && exists n :: n in s.owner && s.owner[n].ctrl == ctrl && EmbedsNonce(v, n)
  }

  /** Everything that disappears is ctrl's own job resource, helper or stamp, or such a remnant. */
  ghost predicate OwnershipKept(s: Sys, w': World, ctrl: string) {
    && (forall id :: id in s.w.containers && id !in w'.containers ==>
          MatchesPredicate(s.w.containers[id].labels, ctrl) || IsOwnKeep(s.w.containers[id].labels, ctrl))
    && (forall id :: id in s.w.networks && id !in w'.networks ==> MatchesPredicate(s.w.networks[id].labels, ctrl))
    && (forall v :: v in s.w.volumes && v !in w'.volumes ==> MatchesPredicate(s.w.volumes[v], ctrl) || IsOwnRemnant(s, v, ctrl))
  }

  /** Everything that disappears is ctrl's own job resource, helper or stamp, by the labels it carries. */
  ghost predicate StrictlyOwned(s: Sys, w': World, ctrl: string) {
    && OwnershipKept(s, w', ctrl)
    && forall v :: v in s.w.volumes && v !in w'.volumes ==> MatchesPredicate(s.w.volumes[v], ctrl)
  }

  /** The step removes by name a volume that nothing references and that carries no label. */
  predicate HitsRemnant(s: Sys, st: Step) {
    && st.Tear? && st.tear.Remove? && st.pid in s.procs && s.procs[st.pid].Tearing?
    && s.procs[st.pid].approved.Some? && s.procs[st.pid].approved.value.VolumeItem?
    && var v := s.procs[st.pid].approved.value.name;
       v in s.w.volumes && s.w.volumes[v] == map[] && !VolumeInUse(s.w, v)
  }

  function ControllerOf(p: Proc): string {
    match p
    case Creating(ident, _, _, _, _) => ident.ctrl
    case Tearing(ctrl, _, _, _, _, _, _) => ctrl
    case Helping(ctrl, _, _) => ctrl
    case Keeping(ctrl, _, _) => ctrl
    case Operating(ctrl, _, _) => ctrl
  }

  lemma DropOwnOwnership(s: Sys, pid: nat, net: nat)
    requires Inv(s) && AllocEnabled(s, pid, DropOwn(net))
    ensures OwnershipKept(s, AllocDo(s, pid, DropOwn(net)).w, ControllerOf(s.procs[pid]))
  {
    hide Inv, MatchesPredicate;
    CleanupHitsOwn(s, pid, net);
  }

  lemma AllocOwnership(s: Sys, pid: nat, a: AllocAction)
    requires Inv(s) && AllocEnabled(s, pid, a) && pid in s.procs
    ensures OwnershipKept(s, AllocDo(s, pid, a).w, ControllerOf(s.procs[pid]))
  {
    assert Knows(s, pid, s.procs[pid]);
    if a.DropOwn? { DropOwnOwnership(s, pid, a.net); }
  }

  lemma RunOwnership(s: Sys, pid: nat, a: RunAction)
    requires Inv(s) && RunEnabled(s, pid, a)
    ensures OwnershipKept(s, RunDo(s, pid, a).w, ControllerOf(s.procs[pid]))
  {
    assert Knows(s, pid, s.procs[pid]);
  }

  lemma TearOwnership(s: Sys, pid: nat, a: TearAction)
    requires Inv(s) && TearEnabled(s, pid, a) && pid in s.procs
    ensures OwnershipKept(s, TearDo(s, pid, a).w, ControllerOf(s.procs[pid]))
  {
    if a.Remove? { RemovalHitsItsGeneration(s, pid); }
  }

  lemma HelpOwnership(s: Sys, pid: nat, a: HelpAction)
    requires Inv(s) && HelpEnabled(s, pid, a) && pid in s.procs
    ensures OwnershipKept(s, HelpDo(s, pid, a).w, ControllerOf(s.procs[pid]))
  {
    assert Knows(s, pid, s.procs[pid]);
  }

  /** Ownership frame: at every provider step of every run, by whichever controller's process, only that
      controller's own job resources, helpers and stamps disappear, or an unlabelled remnant of one of its own
      generations. */
  lemma OwnershipFrame(states: seq<Sys>, steps: seq<Step>, i: nat)
    requires IsRun(states, steps) && i < |steps| && !steps[i].Outside? && steps[i].pid in states[i].procs
    ensures OwnershipKept(states[i], states[i + 1].w, ControllerOf(states[i].procs[steps[i].pid]))
  {
    ReachableInv(states, steps, i);
    assert Next(states[i], steps[i], states[i + 1]);
    match steps[i]
    case Alloc(pid, a) => AllocOwnership(states[i], pid, a);
    case Run(pid, a) => RunOwnership(states[i], pid, a);
    case Tear(pid, a) => TearOwnership(states[i], pid, a);
    case Help(pid, a) => HelpOwnership(states[i], pid, a);
    case Operate(_, _) =>
    case Exit(_) =>
  }

  lemma CreateDropsNoVolume(s: Sys, pid: nat, a: AllocAction)
    requires Inv(s) && AllocEnabled(s, pid, a)
    ensures s.w.volumes.Keys <= AllocDo(s, pid, a).w.volumes.Keys
  {
    if pid in s.procs { assert Knows(s, pid, s.procs[pid]); }
  }

  lemma RunDropsNoVolume(s: Sys, pid: nat, a: RunAction)
    requires RunEnabled(s, pid, a)
    ensures s.w.volumes.Keys <= RunDo(s, pid, a).w.volumes.Keys
  {
  }

  lemma HelpDropsNoVolume(s: Sys, pid: nat, a: HelpAction)
    requires HelpEnabled(s, pid, a)
    ensures s.w.volumes.Keys <= HelpDo(s, pid, a).w.volumes.Keys
  {
  }

  lemma TearDropsByRemove(s: Sys, pid: nat, a: TearAction, v: string)
    requires TearEnabled(s, pid, a) && v in s.w.volumes && v !in TearDo(s, pid, a).w.volumes
    ensures a.Remove? && s.procs[pid].approved.value.VolumeItem? && s.procs[pid].approved.value.name == v
    ensures !VolumeInUse(s.w, v)
  {
  }

  lemma TearDropsRemnant(s: Sys, pid: nat, a: TearAction, v: string)
    requires TearEnabled(s, pid, a) && v in s.w.volumes && v !in TearDo(s, pid, a).w.volumes
    ensures s.w.volumes[v] == map[] ==> HitsRemnant(s, Tear(pid, a))
  {
    hide TearDo;
    TearDropsByRemove(s, pid, a, v);
  }

  lemma OnlyRemoveDropsVolumes(s: Sys, st: Step, v: string)
    requires Inv(s) && Enabled(s, st) && !st.Outside? && v in s.w.volumes && v !in Do(s, st).w.volumes
    ensures s.w.volumes[v] == map[] ==> HitsRemnant(s, st)
  {
    hide Inv, AllocDo, RunDo, TearDo, HelpDo, AllocEnabled, RunEnabled, TearEnabled, HelpEnabled, HitsRemnant;
    match st
    case Alloc(pid, a) => CreateDropsNoVolume(s, pid, a);
    case Run(pid, a) => RunDropsNoVolume(s, pid, a);
    case Tear(pid, a) => TearDropsRemnant(s, pid, a, v);
    case Help(pid, a) => HelpDropsNoVolume(s, pid, a);
    case Operate(_, _) =>
    case Exit(_) =>
  }

  /** The labels on what disappears satisfy the ownership predicate except exactly when a volume is removed by
      name and the volume now under that name is unlabelled. */
  lemma StrictOwnershipExactly(states: seq<Sys>, steps: seq<Step>, i: nat)
    requires IsRun(states, steps) && i < |steps| && !steps[i].Outside? && steps[i].pid in states[i].procs
    ensures StrictlyOwned(states[i], states[i + 1].w, ControllerOf(states[i].procs[steps[i].pid])) <==> !HitsRemnant(states[i], steps[i])
  {
    var s, st, w' := states[i], steps[i], states[i + 1].w;
    OwnershipFrame(states, steps, i);
    ReachableInv(states, steps, i);
    assert Next(states[i], steps[i], states[i + 1]);
    forall v | v in s.w.volumes && v !in w'.volumes && !HitsRemnant(s, st)
      ensures MatchesPredicate(s.w.volumes[v], ControllerOf(s.procs[st.pid]))
    {
      OnlyRemoveDropsVolumes(s, st, v);
    }
  }

  /** In particular no provider step removes a cache volume, another controller's resource, or a foreign
      container, network or labelled volume. */
  lemma NothingElseIsRemoved(states: seq<Sys>, steps: seq<Step>, i: nat)
    requires IsRun(states, steps) && i < |steps| && !steps[i].Outside? && steps[i].pid in states[i].procs
    ensures var s, w', ctrl := states[i], states[i + 1].w, ControllerOf(states[i].procs[steps[i].pid]);
            && (forall v :: v in s.w.volumes && IsCache(s.w.volumes[v]) ==> v in w'.volumes)
            && (forall v :: v in s.w.volumes && s.w.volumes[v] != map[] && !MatchesPredicate(s.w.volumes[v], ctrl) ==> v in w'.volumes)
            && (forall id :: id in s.w.networks && !MatchesPredicate(s.w.networks[id].labels, ctrl) ==> id in w'.networks)
            && (forall id :: id in s.w.containers && Get(s.w.containers[id].labels, Managed) != "true" ==> id in w'.containers)
            && (forall id :: id in s.w.containers && Get(s.w.containers[id].labels, ControllerID) != ctrl ==> id in w'.containers)
  {
    OwnershipFrame(states, steps, i);
  }
}
