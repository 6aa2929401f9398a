/** Pin-then-check over whole runs: a container is created, which pins its volumes, then the pinned volumes
    are checked, and only then does its creator start it. Others may start it without the check. */
module ProtocolPinning {
  import opened LabelSpec
  import opened Names
  import opened Docker
  import opened TeardownScope
  import opened Protocol
  import opened ProtocolInvariant
  import opened ProtocolSteps
  import opened ProtocolSafety
  import Runs

  // ---------------------------------------------------------------- a mounted volume keeps its labels

  /** Every surviving container keeps its mounts, and each mounted volume that was there keeps its labels. */
  ghost predicate Pins(w: World, w': World) {
    && w.nextId <= w'.nextId
    && forall id :: id in w'.containers && id < w.nextId ==>
         && id in w.containers && w'.containers[id].mounts == w.containers[id].mounts
         && MountsSame(w, w', w.containers[id].mounts)
  }

  ghost predicate MountsSame(w: World, w': World, mounts: set<string>) {
    forall v :: v in mounts && v in w.volumes ==> v in w'.volumes && w'.volumes[v] == w.volumes[v]
  }

  lemma AllocPins(s: Sys, pid: nat, a: AllocAction)
    requires AllocEnabled(s, pid, a)
    ensures Pins(s.w, AllocDo(s, pid, a).w)
  {
  }

  lemma PinsItself(w: World)
    ensures Pins(w, w)
  {
  }

  lemma AddContainerPins(w: World, name: string, l: Labels, mounts: set<string>, net: NetMode)
    ensures Pins(w, AddContainer(w, name, l, mounts, net))
  {
  }

  lemma DropContainerPins(w: World, id: nat)
    ensures Pins(w, DropContainer(w, id))
  {
  }

  lemma SetStatePins(w: World, id: nat, st: RunState)
    requires id in w.containers
    ensures Pins(w, SetState(w, id, st))
  {
  }

  lemma RunPins(s: Sys, pid: nat, a: RunAction)
    requires RunEnabled(s, pid, a)
    ensures Pins(s.w, RunDo(s, pid, a).w)
  {
    hide Pins, AddContainer, SetState, DropContainer, ContainerNameTaken;
    var p := s.procs[pid];
    match a
    case CreateRunner(at, _) =>
      AddContainerPins(s.w, RunnerContainerName(p.ident.inst), ContainerLabels(p.ident, RoleRunner, at, p.nonce),
                       JobVolumes(p) + RefNames(p.refs), OnNetwork(JobNetworkName(p.ident.inst)));
    case CreateSidecar(ext, at, _) =>
      AddContainerPins(s.w, DindContainerName(p.ident.inst), ContainerLabels(p.ident, RoleDind, at, p.nonce),
                       SidecarVolumes(p.ident.inst, p.nonce) + RefNames(ext),
                       if p.dind.SharedNetns? then InNetns(p.pc.runner) else OnNetwork(JobNetworkName(p.ident.inst)));
    case StartRunner(outcome) => if outcome.Refused? { PinsItself(s.w); } else { SetStatePins(s.w, p.pc.runner, Running); }
    case StartSidecar => SetStatePins(s.w, p.pc.sidecar, Running);
    case DropRunner => DropContainerPins(s.w, p.pc.runner);
    case _ => PinsItself(s.w);
  }

  lemma TearPins(s: Sys, pid: nat, a: TearAction)
    requires TearEnabled(s, pid, a)
    ensures Pins(s.w, TearDo(s, pid, a).w)
  {
  }

  lemma HelpPins(s: Sys, pid: nat, a: HelpAction)
    requires HelpEnabled(s, pid, a)
    ensures Pins(s.w, HelpDo(s, pid, a).w)
  {
  }

  lemma OutsidePins(s: Sys, op: OutsideOp)
    requires OutsideEnabled(s, op)
    ensures Pins(s.w, DoOutside(s, op).w)
  {
  }

  lemma OperatePins(s: Sys, pid: nat, a: OperateAction)
    requires OperateEnabled(s, pid, a)
    ensures Pins(s.w, OperateDo(s, pid, a).w)
  {
  }

  lemma StepPins(s: Sys, st: Step)
    requires Enabled(s, st)
    ensures Pins(s.w, Do(s, st).w)
  {
    hide Pins, AllocEnabled, RunEnabled, TearEnabled, HelpEnabled, OutsideEnabled, OperateEnabled;
    hide AllocDo, RunDo, TearDo, HelpDo, DoOutside, OperateDo;
    match st
    case Alloc(pid, a) => AllocPins(s, pid, a);
    case Run(pid, a) => RunPins(s, pid, a);
    case Tear(pid, a) => TearPins(s, pid, a);
    case Help(pid, a) => HelpPins(s, pid, a);
    case Outside(op) => OutsidePins(s, op);
    case Operate(pid, a) => OperatePins(s, pid, a);
    case Exit(_) => PinsItself(s.w);
  }

  /** While container id exists it keeps these mounts, and its volumes these labels. */
  ghost predicate Pinned(w: World, id: nat, mounts: set<string>, labels: map<string, Labels>) {
    && id < w.nextId
    && (id in w.containers ==>
          w.containers[id].mounts == mounts && forall v :: v in mounts && v in labels ==> v in w.volumes && w.volumes[v] == labels[v])
  }

  lemma PinnedKept(w: World, w': World, id: nat, mounts: set<string>, labels: map<string, Labels>)
    requires Pins(w, w') && Pinned(w, id, mounts, labels)
    ensures Pinned(w', id, mounts, labels)
  {
  }

  /** Whatever processes and outsiders do, the volumes of an existing container stay as they were. */
  lemma MountsKept(states: seq<Sys>, steps: seq<Step>, i: nat, k: nat, id: nat)
    requires IsRun(states, steps) && i <= k <= |steps|
    requires id in states[i].w.containers && id in states[k].w.containers
    ensures states[k].w.containers[id].mounts == states[i].w.containers[id].mounts
    ensures MountsSame(states[i].w, states[k].w, states[i].w.containers[id].mounts)
  {
    var mounts, labels := states[i].w.containers[id].mounts, states[i].w.volumes;
    ReachableInv(states, steps, i);
    forall s: Sys, st: Step, s': Sys | Pinned(s.w, id, mounts, labels) && Next(s, st, s') ensures Pinned(s'.w, id, mounts, labels) {
      StepPins(s, st);
      PinnedKept(s.w, s'.w, id, mounts, labels);
    }
    Runs.Onward(s => Init(s), (s, st, s') => Next(s, st, s'), (s: Sys) => Pinned(s.w, id, mounts, labels), st => true, states, steps, i, k);
  }

  lemma PassesOnward(states: seq<Sys>, steps: seq<Step>, j: nat, k: nat, id: nat, r: Ref)
    requires IsRun(states, steps) && j <= k <= |steps|
    requires id in states[j].w.containers && r.name in states[j].w.containers[id].mounts && Passes(states[j].w, r)
    requires id in states[k].w.containers
    ensures r.name in states[k].w.containers[id].mounts && Passes(states[k].w, r)
  {
    MountsKept(states, steps, j, k, id);
  }

  // ---------------------------------------------------------------- the create decides

  /** A create leaves the volumes it names as they are, and brings the missing ones into being unlabelled. */
  ghost predicate MadeFrom(w: World, w': World, mounts: set<string>) {
    forall v :: v in mounts ==> v in w'.volumes && w'.volumes[v] == if v in w.volumes then w.volumes[v] else map[]
  }

  lemma RunMakes(s: Sys, pid: nat, a: RunAction, id: nat)
    requires RunEnabled(s, pid, a) && id !in s.w.containers && id in RunDo(s, pid, a).w.containers
    ensures MadeFrom(s.w, RunDo(s, pid, a).w, RunDo(s, pid, a).w.containers[id].mounts)
  {
  }

  lemma HelpMakes(s: Sys, pid: nat, a: HelpAction, id: nat)
    requires HelpEnabled(s, pid, a) && id !in s.w.containers && id in HelpDo(s, pid, a).w.containers
    ensures MadeFrom(s.w, HelpDo(s, pid, a).w, HelpDo(s, pid, a).w.containers[id].mounts)
  {
  }

  lemma OutsideMakes(s: Sys, op: OutsideOp, id: nat)
    requires OutsideEnabled(s, op) && id !in s.w.containers && id in DoOutside(s, op).w.containers
    ensures MadeFrom(s.w, DoOutside(s, op).w, DoOutside(s, op).w.containers[id].mounts)
  {
  }

  lemma AllocMakesNone(s: Sys, pid: nat, a: AllocAction)
    requires AllocEnabled(s, pid, a)
    ensures AllocDo(s, pid, a).w.containers.Keys <= s.w.containers.Keys
  {
  }

  lemma TearMakesNone(s: Sys, pid: nat, a: TearAction)
    requires TearEnabled(s, pid, a)
    ensures TearDo(s, pid, a).w.containers.Keys <= s.w.containers.Keys
  {
  }

  lemma OperateMakesNone(s: Sys, pid: nat, a: OperateAction)
    requires OperateEnabled(s, pid, a)
    ensures OperateDo(s, pid, a).w.containers.Keys <= s.w.containers.Keys
  {
  }

  lemma StepMakes(s: Sys, st: Step, id: nat)
    requires Enabled(s, st) && id !in s.w.containers && id in Do(s, st).w.containers
    ensures MadeFrom(s.w, Do(s, st).w, Do(s, st).w.containers[id].mounts)
  {
    hide MadeFrom, AllocEnabled, RunEnabled, TearEnabled, HelpEnabled, OutsideEnabled, OperateEnabled;
    hide AllocDo, RunDo, TearDo, HelpDo, DoOutside, OperateDo;
    match st
    case Run(pid, a) => RunMakes(s, pid, a, id);
    case Help(pid, a) => HelpMakes(s, pid, a, id);
    case Outside(op) => OutsideMakes(s, op, id);
    case Alloc(pid, a) => AllocMakesNone(s, pid, a);
    case Tear(pid, a) => TearMakesNone(s, pid, a);
    case Operate(pid, a) => OperateMakesNone(s, pid, a);
    case Exit(_) =>
  }

  /** An unlabelled volume passes no check. */
  lemma UnlabelledFails(w: World, r: Ref)
    requires r.name in w.volumes && w.volumes[r.name] == map[]
    ensures !Passes(w, r)
  {
  }

  /** The exact condition, for every container whoever created it and in whatever state it is: while it exists,
      a volume it was created with passes a check exactly when it passed at the create. */
  lemma PinnedExactly(states: seq<Sys>, steps: seq<Step>, i: nat, k: nat, r: Ref)
    requires IsRun(states, steps) && i < k <= |steps|
    requires states[i].w.nextId in states[i + 1].w.containers
    requires r.name in states[i + 1].w.containers[states[i].w.nextId].mounts
    requires states[i].w.nextId in states[k].w.containers
    ensures r.name in states[k].w.containers[states[i].w.nextId].mounts
    ensures Passes(states[k].w, r) <==> Passes(states[i].w, r)
  {
    var id := states[i].w.nextId;
    ReachableInv(states, steps, i);
    assert Next(states[i], steps[i], states[i + 1]);
    StepMakes(states[i], steps[i], id);
    MountsKept(states, steps, i + 1, k, id);
    if r.name !in states[i].w.volumes { UnlabelledFails(states[k].w, r); }
  }

  // ---------------------------------------------------------------- what a creator owes is never forgotten

  lemma NeedsKeptByStep(s: Sys, st: Step, id: nat, refs: set<Ref>)
    requires Inv(s) && Enabled(s, st) && id in s.needs && s.needs[id] == refs
    ensures var s' := Do(s, st); id in s'.needs && s'.needs[id] == refs
  {
    hide AllocEnabled, RunEnabled, TearEnabled, HelpEnabled, RunDo, HelpDo, Knows, NetworkOk, VolumeOk, ContainerOk, WellFormed;
    match st
    case Run(pid, a) => RunKeepsNeeds(s, pid, a, id);
    case Help(pid, a) => HelpKeepsNeeds(s, pid, a, id);
    case Alloc(pid, a) => AllocKeepsNeeds(s, pid, a);
    case _ =>
  }

  lemma AllocKeepsNeeds(s: Sys, pid: nat, a: AllocAction)
    requires AllocEnabled(s, pid, a)
    ensures AllocDo(s, pid, a).needs == s.needs
  {
  }

  lemma RunKeepsNeeds(s: Sys, pid: nat, a: RunAction, id: nat)
    requires RunEnabled(s, pid, a) && id in s.needs && id < s.w.nextId
    ensures var s' := RunDo(s, pid, a); id in s'.needs && s'.needs[id] == s.needs[id]
  {
  }

  lemma HelpKeepsNeeds(s: Sys, pid: nat, a: HelpAction, id: nat)
    requires HelpEnabled(s, pid, a) && id in s.needs && id < s.w.nextId
    ensures var s' := HelpDo(s, pid, a); id in s'.needs && s'.needs[id] == s.needs[id]
  {
  }

  lemma NeedsKept(states: seq<Sys>, steps: seq<Step>, i: nat, k: nat, id: nat, refs: set<Ref>)
    requires IsRun(states, steps) && i <= k <= |steps|
    requires id in states[i].needs && states[i].needs[id] == refs
    ensures id in states[k].needs && states[k].needs[id] == refs
  {
    ghost var owes := (s: Sys) => Inv(s) && id in s.needs && s.needs[id] == refs;
    ReachableInv(states, steps, i);
    forall s: Sys, st: Step, s': Sys | owes(s) && Next(s, st, s') ensures owes(s') {
      NeedsKeptByStep(s, st, id, refs);
      StepKeepsInv(s, st);
    }
    Runs.Onward(s => Init(s), (s, st, s') => Next(s, st, s'), owes, st => true, states, steps, i, k);
  }

  /** The step takes container id out of the created state, and it is not its creator's own start. */
  predicate TakenFromCreator(s: Sys, st: Step, id: nat) {
    && id in s.w.containers && s.w.containers[id].state == Created
    && match st
       case Operate(_, a) => a == StartOwned(id) || a == StopOwned(id)
       case Outside(op) => op.OutState? && op.id == id
       case _ => false
  }

  lemma TouchedByStep(s: Sys, st: Step, id: nat)
    requires Enabled(s, st)
    ensures id in Do(s, st).touched <==> id in s.touched || TakenFromCreator(s, st, id)
  {
    match st
    case Alloc(pid, a) =>
    case Run(pid, a) =>
    case Tear(pid, a) =>
    case Help(pid, a) =>
    case _ =>
  }

  /** The history records exactly the containers that StartInstance, StopInstance or an outsider took out of
      the created state. */
  lemma {:induction false} TouchedExactly(states: seq<Sys>, steps: seq<Step>, k: nat, id: nat)
    requires IsRun(states, steps) && k <= |steps|
    ensures id in states[k].touched <==> exists j :: 0 <= j < k && TakenFromCreator(states[j], steps[j], id)
  {
    hide Enabled, Do, TakenFromCreator;
    if k > 0 {
      TouchedExactly(states, steps, k - 1, id);
      assert Next(states[k - 1], steps[k - 1], states[k - 1 + 1]);
      TouchedByStep(states[k - 1], steps[k - 1], id);
    }
  }

  /** A container that is past Created, and that no other hand took out of Created, has passed and still passes
      every check its creator owed. */
  lemma StartedPasses(states: seq<Sys>, steps: seq<Step>, i: nat, k: nat, id: nat, refs: set<Ref>, r: Ref)
    requires IsRun(states, steps) && i <= k <= |steps| && r in refs
    requires id in states[i].needs && states[i].needs[id] == refs
    requires id in states[k].w.containers && states[k].w.containers[id].state != Created
    requires forall j :: 0 <= j < k ==> !TakenFromCreator(states[j], steps[j], id)
    ensures r.name in states[k].w.containers[id].mounts && Passes(states[k].w, r)
  {
    NeedsKept(states, steps, i, k, id, refs);
    ReachableInv(states, steps, k);
    TouchedExactly(states, steps, k, id);
    assert ContainerOk(states[k], id, states[k].w.containers[id]);
    assert r.name in RefNames(refs);
  }

  // ---------------------------------------------------------------- runners

  lemma RunnerMounts(states: seq<Sys>, steps: seq<Step>, i: nat, pid: nat, at: string, ambiguous: bool)
    requires IsRun(states, steps) && i < |steps| && steps[i] == Run(pid, CreateRunner(at, ambiguous)) && At(states[i], pid)
    ensures states[i].w.nextId in states[i + 1].w.containers
    ensures RefNames(states[i].procs[pid].refs) <= states[i + 1].w.containers[states[i].w.nextId].mounts
    ensures states[i].w.nextId in states[i + 1].needs && states[i + 1].needs[states[i].w.nextId] == states[i].procs[pid].refs
  {
    assert Next(states[i], steps[i], states[i + 1]);
  }

  /** A runner's caches pass exactly when they passed at the create that pinned them, whoever starts it, the
      StartInstance command included; the retry without the IPv6 sysctl is another create. */
  lemma RunnerPinnedExactly(states: seq<Sys>, steps: seq<Step>, i: nat, k: nat, pid: nat, at: string, ambiguous: bool, r: Ref)
    requires IsRun(states, steps) && i < k <= |steps| && steps[i] == Run(pid, CreateRunner(at, ambiguous))
    requires At(states[i], pid) && r in states[i].procs[pid].refs && states[i].w.nextId in states[k].w.containers
    ensures r.name in states[k].w.containers[states[i].w.nextId].mounts
    ensures Passes(states[k].w, r) <==> Passes(states[i].w, r)
  {
    RunnerMounts(states, steps, i, pid, at, ambiguous);
    assert r.name in RefNames(states[i].procs[pid].refs);
    PinnedExactly(states, steps, i, k, r);
  }

  lemma StartingRunnerKnows(s: Sys, pid: nat, outcome: StartOutcome, r: Ref)
    requires Inv(s) && RunEnabled(s, pid, StartRunner(outcome)) && !outcome.Refused? && r in s.procs[pid].refs
    ensures var id := s.procs[pid].pc.runner; id in s.w.containers && r.name in s.w.containers[id].mounts && Passes(s.w, r)
  {
    hide NetworkOk, VolumeOk, WellFormed;
    var p := s.procs[pid];
    assert Knows(s, pid, p);
    assert p.refs - {} == p.refs;
    assert ContainerOk(s, p.pc.runner, s.w.containers[p.pc.runner]);
    assert r.name in RefNames(p.refs);
  }

  /** A runner its creator started keeps passing: from that start on, whatever it reported, and for as long as
      the container exists, every cache volume it was created with carries the identity it was ensured with,
      whatever outsiders remove or recreate and whoever else started it before. */
  lemma RunnerPinned(states: seq<Sys>, steps: seq<Step>, j: nat, k: nat, pid: nat, outcome: StartOutcome, r: Ref)
    requires IsRun(states, steps) && j < k <= |steps| && steps[j] == Run(pid, StartRunner(outcome)) && !outcome.Refused?
    requires At(states[j], pid) && states[j].procs[pid].pc.CheckingRunner? && r in states[j].procs[pid].refs
    requires states[j].procs[pid].pc.runner in states[k].w.containers
    ensures r.name in states[k].w.containers[states[j].procs[pid].pc.runner].mounts && Passes(states[k].w, r)
  {
    ReachableInv(states, steps, j);
    assert Next(states[j], steps[j], states[j + 1]);
    StartingRunnerKnows(states[j], pid, outcome, r);
    PassesOnward(states, steps, j, k, states[j].procs[pid].pc.runner, r);
  }

  /** A runner that is past Created, unless another hand took it out of Created, runs on passing caches. */
  lemma RunnerStartedPasses(states: seq<Sys>, steps: seq<Step>, i: nat, k: nat, pid: nat, at: string, ambiguous: bool, r: Ref)
    requires IsRun(states, steps) && i < k <= |steps| && steps[i] == Run(pid, CreateRunner(at, ambiguous))
    requires At(states[i], pid) && r in states[i].procs[pid].refs
    requires states[i].w.nextId in states[k].w.containers && states[k].w.containers[states[i].w.nextId].state != Created
    requires forall j :: 0 <= j < k ==> !TakenFromCreator(states[j], steps[j], states[i].w.nextId)
    ensures Passes(states[k].w, r) && Passes(states[i].w, r)
  {
    RunnerMounts(states, steps, i, pid, at, ambiguous);
    StartedPasses(states, steps, i + 1, k, states[i].w.nextId, states[i].procs[pid].refs, r);
    RunnerPinnedExactly(states, steps, i, k, pid, at, ambiguous, r);
  }

  // ---------------------------------------------------------------- helpers

  lemma HelperMounts(states: seq<Sys>, steps: seq<Step>, i: nat, pid: nat, name: string, at: string, ambiguous: bool)
    requires IsRun(states, steps) && i < |steps| && steps[i] == Help(pid, CreateHelper(name, at, ambiguous)) && Helps(states[i], pid)
    ensures states[i].w.nextId in states[i + 1].w.containers
    ensures states[i].procs[pid].ref.name in states[i + 1].w.containers[states[i].w.nextId].mounts
    ensures states[i].w.nextId in states[i + 1].needs && states[i + 1].needs[states[i].w.nextId] == {states[i].procs[pid].ref}
  {
    assert Next(states[i], steps[i], states[i + 1]);
  }

  /** A seed or prune helper past Created runs only on a volume that passes the helper's own check, until the
      helper is gone; in any state its volume passes exactly when it passed at the helper's create. */
  lemma HelperPinned(states: seq<Sys>, steps: seq<Step>, i: nat, k: nat, pid: nat, name: string, at: string,
                     ambiguous: bool)
    requires IsRun(states, steps) && i < k <= |steps| && steps[i] == Help(pid, CreateHelper(name, at, ambiguous))
    requires Helps(states[i], pid) && states[i].w.nextId in states[k].w.containers
    ensures Passes(states[k].w, states[i].procs[pid].ref) <==> Passes(states[i].w, states[i].procs[pid].ref)
    ensures states[k].w.containers[states[i].w.nextId].state != Created
            && (forall j :: 0 <= j < k ==> !TakenFromCreator(states[j], steps[j], states[i].w.nextId))
            ==> Passes(states[k].w, states[i].procs[pid].ref)
  {
    var id, r := states[i].w.nextId, states[i].procs[pid].ref;
    HelperMounts(states, steps, i, pid, name, at, ambiguous);
    PinnedExactly(states, steps, i, k, r);
    if states[k].w.containers[id].state != Created && (forall j :: 0 <= j < k ==> !TakenFromCreator(states[j], steps[j], id)) {
      StartedPasses(states, steps, i + 1, k, id, {r}, r);
    }
  }

  // ---------------------------------------------------------------- sidecars

  lemma SidecarMounts(states: seq<Sys>, steps: seq<Step>, i: nat, pid: nat, ext: set<Ref>, at: string, ambiguous: bool)
    requires IsRun(states, steps) && i < |steps| && steps[i] == Run(pid, CreateSidecar(ext, at, ambiguous)) && At(states[i], pid)
    ensures states[i].procs[pid].pc.CreatingSidecar? && ext <= states[i].procs[pid].refs
    ensures states[i].w.nextId in states[i + 1].w.containers
    ensures RefNames(ext) <= states[i + 1].w.containers[states[i].w.nextId].mounts
    ensures states[i].w.nextId in states[i + 1].needs
    ensures states[i].procs[pid].dind.SharedNetns? ==> states[i + 1].needs[states[i].w.nextId] == ext
  {
    assert Next(states[i], steps[i], states[i + 1]);
  }

  /** A sidecar that joins the runner's namespace needs no check of its own: the daemon starts it only beside
      the running runner, whose volumes are checked and pinned. */
  lemma SharedSidecarPinned(states: seq<Sys>, steps: seq<Step>, i: nat, k: nat, pid: nat, ext: set<Ref>, at: string,
                            ambiguous: bool, r: Ref)
    requires IsRun(states, steps) && i < k <= |steps| && steps[i] == Run(pid, CreateSidecar(ext, at, ambiguous))
    requires At(states[i], pid) && states[i].procs[pid].dind.SharedNetns? && r in ext
    requires states[i].w.nextId in states[k].w.containers && states[k].w.containers[states[i].w.nextId].state != Created
    requires forall j :: 0 <= j < k ==> !TakenFromCreator(states[j], steps[j], states[i].w.nextId)
    ensures r.name in states[k].w.containers[states[i].w.nextId].mounts && Passes(states[k].w, r)
  {
    SidecarMounts(states, steps, i, pid, ext, at, ambiguous);
    StartedPasses(states, steps, i + 1, k, states[i].w.nextId, ext, r);
  }

  /** In either mode, and in whatever state the sidecar is, a cache passes while the sidecar exists exactly when
      it passed at the sidecar's create; and it did if the runner was still there at that moment. */
  lemma SidecarPinnedExactly(states: seq<Sys>, steps: seq<Step>, i: nat, k: nat, pid: nat, ext: set<Ref>, at: string,
                             ambiguous: bool, r: Ref)
    requires IsRun(states, steps) && i < k <= |steps| && steps[i] == Run(pid, CreateSidecar(ext, at, ambiguous))
    requires At(states[i], pid) && r in ext && states[i].w.nextId in states[k].w.containers
    ensures r.name in states[k].w.containers[states[i].w.nextId].mounts
    ensures Passes(states[k].w, r) <==> Passes(states[i].w, r)
    ensures states[i].procs[pid].pc.CreatingSidecar?
    ensures states[i].procs[pid].pc.runner in states[i].w.containers ==> Passes(states[k].w, r)
  {
    SidecarMounts(states, steps, i, pid, ext, at, ambiguous);
    assert r.name in RefNames(ext);
    PinnedExactly(states, steps, i, k, r);
    ReachableInv(states, steps, i);
    assert Knows(states[i], pid, states[i].procs[pid]);
  }

  // ---------------------------------------------------------------- StartInstance and StopInstance

  /** Whatever happened between its lookup and its call, the command changes the state of a runner of its own
      controller and instance, and nothing else. */
  lemma OperatorHitsOwnRunner(states: seq<Sys>, steps: seq<Step>, i: nat, pid: nat, id: nat)
    requires IsRun(states, steps) && i < |steps| && Operates(states[i], pid)
    requires steps[i] == Operate(pid, StartOwned(id)) || steps[i] == Operate(pid, StopOwned(id))
    ensures id in states[i].w.containers
    ensures IsOwnRunner(states[i].w.containers[id].labels, states[i].procs[pid].ctrl, states[i].procs[pid].inst)
    ensures states[i + 1].w == SetState(states[i].w, id, if steps[i].operate.StartOwned? then Running else Exited)
  {
    ReachableInv(states, steps, i);
    assert Next(states[i], steps[i], states[i + 1]);
    assert Knows(states[i], pid, states[i].procs[pid]);
  }
}
