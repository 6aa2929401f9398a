/** Every provider process and any outside actor, interleaved call by call over one daemon.

    A process is a program counter over daemon calls; any process may crash between two calls
    (`Exit`), any call may fail, and a create may take effect although it reported an error. */
module Protocol {
  import opened LabelSpec
  import opened Names
  import opened Docker
  import opened TeardownScope
  import Runs

  /** What a container's creator verifies about a cache volume before starting it. */
  datatype Check = Adopt(want: Labels) | Prune(snapshot: Labels, ctrl: string)
  datatype Ref = Ref(name: string, check: Check)

  predicate Passes(w: World, r: Ref) {
    r.name in w.volumes &&
    match r.check
    case Adopt(want) => ValidAdopted(w.volumes[r.name], want)
    case Prune(snapshot, ctrl) => ValidDiagPruneTarget(w.volumes[r.name], snapshot, ctrl)
  }

  function RefNames(refs: set<Ref>): set<string> {
    set r | r in refs :: r.name
  }

  /** A listed resource, with the labels the listing showed. */
  datatype Item =
    | ContainerItem(id: nat, labels: Labels)
    | VolumeItem(name: string, labels: Labels)
    | NetworkItem(id: nat, labels: Labels)

  datatype Phase = Containers | Volumes | Networks

  datatype CreatePc =
    | Claiming
    | AmbiguousClaim
    | CleaningClaim(ids: set<nat>)
    | MakingVolume(s: Suffix)
    | ReplacingVolume(s: Suffix)
    | RecreatingVolume(s: Suffix)
    | PlanningCaches
    | CreatingRunner(retried: bool)
    | CheckingRunner(runner: nat, todo: set<Ref>, retried: bool)
    | DroppingRunner(runner: nat, retry: bool)
    | CreatingSidecar(runner: nat)
    | StartingSidecar(runner: nat, sidecar: nat)
    | Delivering
    | Failed

  datatype HelperPc = HelperCreating | HelperChecking(id: nat) | HelperReady(id: nat) | HelperRemoving(id: nat)

  datatype Proc =
    | Creating(ident: AllocationIdentity, nonce: string, dind: Dind, refs: set<Ref>, pc: CreatePc)
    // `seen` is history: the nonces claimed when the teardown began.
    | Tearing(ctrl: string, filter: Filter, mode: Mode, seen: set<string>, phase: Phase, todo: set<Item>, approved: Option<Item>)
    | Helping(ctrl: string, ref: Ref, hpc: HelperPc)
    | Keeping(ctrl: string, role: string, target: Option<nat>)
    // StartInstance and StopInstance: resolve the runner by its labels, then one call by identifier.
    | Operating(ctrl: string, inst: string, runner: Option<nat>)

  datatype Owner = Owner(pid: nat, ctrl: string, inst: string)

  /** owner, claimed, needs and touched are history: who drew each nonce, which nonces ever held a claim
      network, which checks each container's creator owes before starting it, and which containers left the
      created state by another hand than their creator's. */
  datatype Sys = Sys(
    w: World,
    procs: map<nat, Proc>,
    owner: map<string, Owner>,
    claimed: set<string>,
    needs: map<nat, set<Ref>>,
    touched: set<nat>)

  /** A start that reports an error may have taken effect, and the error may name the IPv6 sysctl. */
  datatype StartOutcome = Started | Refused(ipv6: bool) | Ambiguous(ipv6: bool)

  datatype OutsideOp =
    | OutVolumeCreate(vname: string, labels: Labels)
    | OutVolumeRemove(vname: string)
    | OutContainerCreate(cname: string, labels: Labels, mounts: set<string>, net: NetMode)
    | OutContainerRemove(id: nat)
    | OutNetworkCreate(nname: string, labels: Labels)
    | OutNetworkRemove(id: nat)
    | OutState(id: nat, state: RunState)

  /** A create up to its cache plan. */
  datatype AllocAction =
    | Begin(ident: AllocationIdentity, nonce: string, dind: Dind)
    | Claim(at: string, ambiguous: bool)
    | ListOwn
    | DropOwn(net: nat)
    | MakeVolume(at: string)
    | ReplaceRemove
    | ReplaceCreate(at: string)
    | TrySlot(name: string, want: Labels)
    | AdoptListed(name: string, want: Labels)
    | CachesDone

  /** A create from its runner on. */
  datatype RunAction =
    | CreateRunner(at: string, ambiguous: bool)
    | RetryCreate
    | CheckRunner(ref: Ref, readable: bool)
    | StartRunner(outcome: StartOutcome)
    | DropRunner
    | CreateSidecar(ext: set<Ref>, at: string, ambiguous: bool)
    | StartSidecar
    | Fail
    | Rollback

  datatype TearAction =
    | BeginTeardown(ctrl: string, inst: string, captured: map<string, string>)
    | BeginTeardownAll(ctrl: string)
    | List
    | Approve(item: Item, live: Option<string>)
    | Remove
    | NextPhase

  /** Cache helpers (seed and prune), the helper reaper and the throttle stamps. */
  datatype HelpAction =
    | BeginHelper(ctrl: string, ref: Ref)
    | CreateHelper(name: string, at: string, ambiguous: bool)
    | CheckHelper
    | StartPayload
    | RemoveHelper
    | BeginKeeper(ctrl: string, role: string)
    | Pick(id: nat)
    | RemovePicked
    | CreateStamp(name: string, at: string)

  datatype OperateAction =
    | BeginOperate(ctrl: string, inst: string)
    | Resolve(id: nat)
    | StartOwned(id: nat)
    | StopOwned(id: nat)

  datatype Step =
    | Alloc(pid: nat, alloc: AllocAction)
    | Run(pid: nat, run: RunAction)
    | Tear(pid: nat, tear: TearAction)
    | Help(pid: nat, help: HelpAction)
    | Operate(pid: nat, operate: OperateAction)
    | Exit(pid: nat)
    | Outside(op: OutsideOp)

  // ---------------------------------------------------------------- assumptions about names

  /** No job volume of a generation drawn so far may bear this name. */
  ghost predicate Unembedded(s: Sys, name: string) {
    forall n :: n in s.owner ==> !EmbedsNonce(name, n)
  }

  /** A drawn nonce is new, and no existing volume's name ends the way its volumes' names will. */
  ghost predicate FreshNonce(s: Sys, n: string) {
    IsNonce(n) && n !in s.owner && forall v :: v in s.w.volumes ==> !EmbedsNonce(v, n)
  }

  // ---------------------------------------------------------------- steps

  function JobVolumes(p: Proc): set<string>
    requires p.Creating?
  {
    RunnerVolumes(p.ident.inst, p.nonce, p.dind)
  }

  function AfterVolume(p: Proc, sfx: Suffix): CreatePc
    requires p.Creating?
  {
    match sfx
    case Workspace => if p.dind.NoDind? then PlanningCaches else MakingVolume(Socket)
    case Socket => MakingVolume(DindState)
    case DindState => PlanningCaches
  }

  function AfterRunner(p: Proc, runner: nat): CreatePc
    requires p.Creating?
  {
    if p.dind.NoDind? then Delivering else CreatingSidecar(runner)
  }

  /** createFreshVolume's decision on the labels VolumeCreate returned. */
  function AfterVolumeCreate(p: Proc, sfx: Suffix, returned: Labels, want: Labels): CreatePc
    requires p.Creating? && InstanceName in want
  {
    if Get(returned, CreateNonce) == p.nonce then AfterVolume(p, sfx)
    else if OwnsForReplacement(returned, want, p.ident.ctrl) then ReplacingVolume(sfx)
    else Failed
  }

  /** The program points whose call may fail into the creation guard. */
  predicate MayFail(pc: CreatePc) {
    pc.MakingVolume? || pc.ReplacingVolume? || pc.RecreatingVolume? || pc.PlanningCaches? || pc.CreatingRunner? ||
    pc.DroppingRunner? || pc.CreatingSidecar? || pc.StartingSidecar? || pc.Delivering?
  }

  predicate At(s: Sys, pid: nat) {
    pid in s.procs && s.procs[pid].Creating?
  }

  predicate Helps(s: Sys, pid: nat) {
    pid in s.procs && s.procs[pid].Helping?
  }

  predicate Keeps(s: Sys, pid: nat) {
    pid in s.procs && s.procs[pid].Keeping?
  }

  predicate Operates(s: Sys, pid: nat) {
    pid in s.procs && s.procs[pid].Operating?
  }

  /** An owned runner under this instance name. */
  predicate IsOwnRunner(l: Labels, ctrl: string, inst: string) {
    MatchesPredicate(l, ctrl) && l[InstanceName] == inst && Get(l, Role) == RoleRunner
  }

  /** The container leaves the created state, if it is in it, by another hand than its creator's. */
  function Touch(s: Sys, id: nat, st: RunState): Sys
    requires id in s.w.containers
  {
    s.(w := SetState(s.w, id, st), touched := if s.w.containers[id].state == Created then s.touched + {id} else s.touched)
  }

  function With(s: Sys, pid: nat, p: Proc): Sys {
    s.(procs := s.procs[pid := p])
  }

  function WithPc(s: Sys, pid: nat, pc: CreatePc): Sys
    requires At(s, pid)
  {
    With(s, pid, s.procs[pid].(pc := pc))
  }

  ghost function Listing(w: World, f: Filter, phase: Phase): set<Item> {
    match phase
    case Containers => set id | id in w.containers && Matches(f, w.containers[id].labels) :: ContainerItem(id, w.containers[id].labels)
    case Volumes => set v | v in w.volumes && Matches(f, w.volumes[v]) :: VolumeItem(v, w.volumes[v])
    case Networks => set id | id in w.networks && Matches(f, w.networks[id].labels) :: NetworkItem(id, w.networks[id].labels)
  }

  /** Removing an approved item: containers and networks by identifier, volumes only by name. A missing
      resource is tolerated and one in use is refused. */
  function RemoveItem(w: World, it: Item): World {
    match it
    case ContainerItem(id, _) => DropContainer(w, id)
    case VolumeItem(name, _) => if VolumeInUse(w, name) then w else DropVolume(w, name)
    case NetworkItem(id, _) =>
      if id in w.networks && !NetworkInUse(w, w.networks[id].name) then DropNetwork(w, id) else w
  }

  ghost predicate OutsideEnabled(s: Sys, op: OutsideOp) {
    match op
    case OutVolumeCreate(n, l) => Get(l, Managed) != "true" && Unembedded(s, n)
    case OutVolumeRemove(n) => !VolumeInUse(s.w, n)
    case OutContainerCreate(n, l, _, _) => Get(l, Managed) != "true" && !ContainerNameTaken(s.w, n)
    case OutContainerRemove(_) => true
    case OutNetworkCreate(n, l) => Get(l, Managed) != "true" && !NetworkNameTaken(s.w, n)
    case OutNetworkRemove(id) => true
    case OutState(id, st) => id in s.w.containers && st != Created
  }

  function DoOutside(s: Sys, op: OutsideOp): Sys
    requires op.OutState? ==> op.id in s.w.containers
  {
    match op
    case OutVolumeCreate(n, l) => s.(w := AddVolume(s.w, n, l))
    case OutVolumeRemove(n) => s.(w := DropVolume(s.w, n))
    case OutContainerCreate(n, l, m, net) => s.(w := AddContainer(s.w, n, l, m, net))
    case OutContainerRemove(id) => s.(w := DropContainer(s.w, id))
    case OutNetworkCreate(n, l) => s.(w := AddNetwork(s.w, n, l))
    case OutNetworkRemove(id) => s.(w := DropNetwork(s.w, id))
    case OutState(id, st) => Touch(s, id, st)
  }

  ghost predicate AllocEnabled(s: Sys, pid: nat, a: AllocAction) {
    if a.Begin? then pid !in s.procs && a.ident.inst != "" && FreshNonce(s, a.nonce)
    else At(s, pid) && var p := s.procs[pid];
      match a
      case Begin(_, _, _) => true
      case Claim(_, _) => p.pc.Claiming? && !NetworkNameTaken(s.w, JobNetworkName(p.ident.inst))
      case ListOwn => p.pc.AmbiguousClaim?
      case DropOwn(net) => p.pc.CleaningClaim? && net in p.pc.ids
      case MakeVolume(_) => p.pc.MakingVolume?
      case ReplaceRemove => p.pc.ReplacingVolume? && !VolumeInUse(s.w, VolumeName(p.ident.inst, p.nonce, p.pc.s))
      case ReplaceCreate(_) => p.pc.RecreatingVolume?
      case TrySlot(name, want) => p.pc.PlanningCaches? && Unembedded(s, name) && IsCache(want)
      case AdoptListed(name, want) => p.pc.PlanningCaches? && Passes(s.w, Ref(name, Adopt(want)))
      case CachesDone => p.pc.PlanningCaches?
  }

  ghost predicate RunEnabled(s: Sys, pid: nat, a: RunAction) {
    At(s, pid) && var p := s.procs[pid];
    match a
    case CreateRunner(_, _) => p.pc.CreatingRunner? && !ContainerNameTaken(s.w, RunnerContainerName(p.ident.inst))
    case RetryCreate => p.pc == CreatingRunner(false)
    case CheckRunner(ref, _) => p.pc.CheckingRunner? && ref in p.pc.todo
    case StartRunner(outcome) => p.pc.CheckingRunner? && p.pc.todo == {} && (!outcome.Refused? ==> CanStart(s.w, p.pc.runner))
    case DropRunner => p.pc.DroppingRunner?
    case CreateSidecar(ext, _, _) => p.pc.CreatingSidecar? && ext <= p.refs && !ContainerNameTaken(s.w, DindContainerName(p.ident.inst))
    case StartSidecar => p.pc.StartingSidecar? && CanStart(s.w, p.pc.sidecar)
    case Fail => MayFail(p.pc)
    case Rollback => p.pc.Failed?
  }

  ghost predicate TearEnabled(s: Sys, pid: nat, a: TearAction) {
    if a.BeginTeardown? then pid !in s.procs && CapturedFrom(s.w, a.ctrl, InstanceScopedFilter(a.ctrl, a.inst), a.captured)
    else if a.BeginTeardownAll? then pid !in s.procs
    else pid in s.procs && s.procs[pid].Tearing? && var p := s.procs[pid];
      match a
      case BeginTeardown(_, _, _) => true
      case BeginTeardownAll(_) => true
      case List => p.todo == {}
      case Approve(item, live) =>
        && item in p.todo && InstanceName in item.labels
        && LiveRead(s.w, p.ctrl, item.labels[InstanceName], live)
        && MayRemove(p.mode, p.ctrl, item.labels, live)
      case Remove => p.approved.Some?
      case NextPhase => true
  }

  ghost predicate HelpEnabled(s: Sys, pid: nat, a: HelpAction) {
    match a
    case BeginHelper(_, _) => pid !in s.procs
    case BeginKeeper(_, role) => pid !in s.procs && role in {RoleCacheHelper, RoleDiagPruneStamp, RoleThrottleStamp}
    case CreateHelper(name, _, _) => Helps(s, pid) && s.procs[pid].hpc.HelperCreating? && !ContainerNameTaken(s.w, name)
    case CheckHelper => Helps(s, pid) && s.procs[pid].hpc.HelperChecking?
    case StartPayload => Helps(s, pid) && s.procs[pid].hpc.HelperReady? && CanStart(s.w, s.procs[pid].hpc.id)
    case RemoveHelper => Helps(s, pid) && !s.procs[pid].hpc.HelperCreating?
    case Pick(id) => Keeps(s, pid) && id in s.w.containers && IsOwnHelper(s.w.containers[id].labels, s.procs[pid].ctrl, s.procs[pid].role)
    case RemovePicked => Keeps(s, pid) && s.procs[pid].target.Some?
    case CreateStamp(name, _) => Keeps(s, pid) && s.procs[pid].role != RoleCacheHelper && !ContainerNameTaken(s.w, name)
  }

  /** StartInstance takes the runner as it is: it looks at no volume. */
  ghost predicate OperateEnabled(s: Sys, pid: nat, a: OperateAction) {
    match a
    case BeginOperate(_, _) => pid !in s.procs
    case Resolve(id) => Operates(s, pid) && id in s.w.containers && IsOwnRunner(s.w.containers[id].labels, s.procs[pid].ctrl, s.procs[pid].inst)
    case StartOwned(id) => Operates(s, pid) && s.procs[pid].runner == Some(id) && CanStart(s.w, id)
    case StopOwned(id) => Operates(s, pid) && s.procs[pid].runner == Some(id) && id in s.w.containers
  }

  ghost predicate Enabled(s: Sys, st: Step) {
    match st
    case Alloc(pid, a) => AllocEnabled(s, pid, a)
    case Run(pid, a) => RunEnabled(s, pid, a)
    case Tear(pid, a) => TearEnabled(s, pid, a)
    case Help(pid, a) => HelpEnabled(s, pid, a)
    case Operate(pid, a) => OperateEnabled(s, pid, a)
    case Exit(pid) => pid in s.procs
    case Outside(op) => OutsideEnabled(s, op)
  }

  function VolumeLabels(p: Proc, sfx: Suffix, at: string): (l: Labels)
    requires p.Creating?
    ensures MatchesPredicate(l, p.ident.ctrl) && l[InstanceName] == p.ident.inst && Get(l, CreateNonce) == p.nonce
  {
    ResourceLabels(p.ident, SuffixText(sfx), at, p.nonce)
  }

  function DoClaim(s: Sys, pid: nat, at: string, ambiguous: bool): Sys
    requires At(s, pid)
  {
    var p := s.procs[pid];
    WithPc(s, pid, if ambiguous then AmbiguousClaim else MakingVolume(Workspace)).(
      w := AddNetwork(s.w, JobNetworkName(p.ident.inst), ResourceLabels(p.ident, ResourceJobNetwork, at, p.nonce)),
      claimed := s.claimed + {p.nonce})
  }

  function DoMakeVolume(s: Sys, pid: nat, at: string): Sys
    requires At(s, pid) && s.procs[pid].pc.MakingVolume?
  {
    var p := s.procs[pid];
    var name, want := VolumeName(p.ident.inst, p.nonce, p.pc.s), VolumeLabels(p, p.pc.s, at);
    var w := AddVolume(s.w, name, want);
    WithPc(s, pid, AfterVolumeCreate(p, p.pc.s, w.volumes[name], want)).(w := w)
  }

  function DoReplaceCreate(s: Sys, pid: nat, at: string): Sys
    requires At(s, pid) && s.procs[pid].pc.RecreatingVolume?
  {
    var p := s.procs[pid];
    var name, want := VolumeName(p.ident.inst, p.nonce, p.pc.s), VolumeLabels(p, p.pc.s, at);
    var w := AddVolume(s.w, name, want);
    WithPc(s, pid, if Get(w.volumes[name], CreateNonce) == p.nonce then AfterVolume(p, p.pc.s) else Failed).(w := w)
  }

  function DoTrySlot(s: Sys, pid: nat, name: string, want: Labels): Sys
    requires At(s, pid)
  {
    var p := s.procs[pid];
    var w := AddVolume(s.w, name, want);
    With(s, pid, if ValidAdopted(w.volumes[name], want) then p.(refs := p.refs + {Ref(name, Adopt(want))}) else p).(w := w)
  }

  function DoCreateRunner(s: Sys, pid: nat, at: string, ambiguous: bool): Sys
    requires At(s, pid) && s.procs[pid].pc.CreatingRunner?
  {
    var p := s.procs[pid];
    WithPc(s, pid, if !ambiguous then CheckingRunner(s.w.nextId, p.refs, p.pc.retried) else if p.pc.retried then Failed else CreatingRunner(true)).(
      w := AddContainer(s.w, RunnerContainerName(p.ident.inst), ContainerLabels(p.ident, RoleRunner, at, p.nonce),
                        JobVolumes(p) + RefNames(p.refs), OnNetwork(JobNetworkName(p.ident.inst))),
      needs := s.needs[s.w.nextId := p.refs])
  }

  /** One retry, and only when the error names the IPv6 sysctl. */
  function AfterRefusal(p: Proc, ipv6: bool): CreatePc
    requires p.Creating? && p.pc.CheckingRunner?
  {
    if ipv6 && !p.pc.retried then DroppingRunner(p.pc.runner, true) else Failed
  }

  function DoStartRunner(s: Sys, pid: nat, outcome: StartOutcome): Sys
    requires At(s, pid) && s.procs[pid].pc.CheckingRunner?
    requires !outcome.Refused? ==> s.procs[pid].pc.runner in s.w.containers
  {
    var p := s.procs[pid];
    match outcome
    case Started => WithPc(s, pid, AfterRunner(p, p.pc.runner)).(w := SetState(s.w, p.pc.runner, Running))
    case Refused(ipv6) => WithPc(s, pid, AfterRefusal(p, ipv6))
    case Ambiguous(ipv6) => WithPc(s, pid, AfterRefusal(p, ipv6)).(w := SetState(s.w, p.pc.runner, Running))
  }

  function DoCreateSidecar(s: Sys, pid: nat, ext: set<Ref>, at: string, ambiguous: bool): Sys
    requires At(s, pid) && s.procs[pid].pc.CreatingSidecar?
  {
    var p := s.procs[pid];
    WithPc(s, pid, if ambiguous then Failed else StartingSidecar(p.pc.runner, s.w.nextId)).(
      w := AddContainer(s.w, DindContainerName(p.ident.inst), ContainerLabels(p.ident, RoleDind, at, p.nonce),
                        SidecarVolumes(p.ident.inst, p.nonce) + RefNames(ext),
                        if p.dind.SharedNetns? then InNetns(p.pc.runner) else OnNetwork(JobNetworkName(p.ident.inst))),
      needs := s.needs[s.w.nextId := if p.dind.SharedNetns? then ext else {}])
  }

  function DoNextPhase(s: Sys, pid: nat): Sys
    requires pid in s.procs && s.procs[pid].Tearing?
  {
    var p := s.procs[pid];
    match p.phase
    case Containers => With(s, pid, p.(phase := Volumes, todo := {}, approved := None))
    case Volumes => With(s, pid, p.(phase := Networks, todo := {}, approved := None))
    case Networks => s.(procs := s.procs - {pid})
  }

  function DoCreateHelper(s: Sys, pid: nat, name: string, at: string, ambiguous: bool): Sys
    requires pid in s.procs && s.procs[pid].Helping?
  {
    var p := s.procs[pid];
    (if ambiguous then s.(procs := s.procs - {pid}) else With(s, pid, p.(hpc := HelperChecking(s.w.nextId)))).(
      w := AddContainer(s.w, name, OwnedHelperLabels(p.ctrl, RoleCacheHelper, at), {p.ref.name}, Detached),
      needs := s.needs[s.w.nextId := {p.ref}])
  }

  ghost function AllocDo(s: Sys, pid: nat, a: AllocAction): Sys
    requires AllocEnabled(s, pid, a)
  {
    match a
    case Begin(ident, nonce, dind) =>
      With(s, pid, Creating(ident, nonce, dind, {}, Claiming)).(owner := s.owner[nonce := Owner(pid, ident.ctrl, ident.inst)])
    case Claim(at, ambiguous) => DoClaim(s, pid, at, ambiguous)
    case ListOwn =>
      WithPc(s, pid, CleaningClaim(set id | id in s.w.networks && Matches(NonceFilter(s.procs[pid].ident.ctrl, s.procs[pid].nonce), s.w.networks[id].labels)))
    case DropOwn(net) =>
      WithPc(s, pid, CleaningClaim(s.procs[pid].pc.ids - {net})).(w := RemoveItem(s.w, NetworkItem(net, map[])))
    case MakeVolume(at) => DoMakeVolume(s, pid, at)
    case ReplaceRemove =>
      WithPc(s, pid, RecreatingVolume(s.procs[pid].pc.s)).(w := DropVolume(s.w, VolumeName(s.procs[pid].ident.inst, s.procs[pid].nonce, s.procs[pid].pc.s)))
    case ReplaceCreate(at) => DoReplaceCreate(s, pid, at)
    case TrySlot(name, want) => DoTrySlot(s, pid, name, want)
    case AdoptListed(name, want) =>
      With(s, pid, s.procs[pid].(refs := s.procs[pid].refs + {Ref(name, Adopt(want))}))
    case CachesDone => WithPc(s, pid, CreatingRunner(false))
  }

  ghost function RunDo(s: Sys, pid: nat, a: RunAction): Sys
    requires RunEnabled(s, pid, a)
  {
    match a
    case CreateRunner(at, ambiguous) => DoCreateRunner(s, pid, at, ambiguous)
    case RetryCreate => WithPc(s, pid, CreatingRunner(true))
    case CheckRunner(ref, readable) =>
      WithPc(s, pid, if readable && Passes(s.w, ref) then s.procs[pid].pc.(todo := s.procs[pid].pc.todo - {ref})
                     else DroppingRunner(s.procs[pid].pc.runner, false))
    case StartRunner(outcome) => DoStartRunner(s, pid, outcome)
    case DropRunner =>
      WithPc(s, pid, if s.procs[pid].pc.retry then CreatingRunner(true) else Failed).(w := DropContainer(s.w, s.procs[pid].pc.runner))
    case CreateSidecar(ext, at, ambiguous) => DoCreateSidecar(s, pid, ext, at, ambiguous)
    case StartSidecar => WithPc(s, pid, Delivering).(w := SetState(s.w, s.procs[pid].pc.sidecar, Running))
    case Fail => WithPc(s, pid, Failed)
    case Rollback =>
      With(s, pid, Tearing(s.procs[pid].ident.ctrl, InstanceScopedNonceFilter(s.procs[pid].ident.ctrl, s.procs[pid].ident.inst, s.procs[pid].nonce),
                           Exact(s.procs[pid].nonce), s.claimed, Containers, {}, None))
  }

  ghost function TearDo(s: Sys, pid: nat, a: TearAction): Sys
    requires TearEnabled(s, pid, a)
  {
    match a
    case BeginTeardown(ctrl, inst, captured) =>
      With(s, pid, Tearing(ctrl, InstanceScopedFilter(ctrl, inst), Captured(captured), s.claimed, Containers, {}, None))
    case BeginTeardownAll(ctrl) =>
      With(s, pid, Tearing(ctrl, MatchPredicateFilters(ctrl), Everything, s.claimed, Containers, {}, None))
    case List =>
      With(s, pid, s.procs[pid].(todo := Listing(s.w, s.procs[pid].filter, s.procs[pid].phase)))
    case Approve(item, _) =>
      With(s, pid, s.procs[pid].(todo := s.procs[pid].todo - {item}, approved := Some(item)))
    case Remove =>
      With(s, pid, s.procs[pid].(approved := None)).(w := RemoveItem(s.w, s.procs[pid].approved.value))
    case NextPhase => DoNextPhase(s, pid)
  }

  ghost function HelpDo(s: Sys, pid: nat, a: HelpAction): Sys
    requires HelpEnabled(s, pid, a)
  {
    match a
    case BeginHelper(ctrl, ref) => With(s, pid, Helping(ctrl, ref, HelperCreating))
    case CreateHelper(name, at, ambiguous) => DoCreateHelper(s, pid, name, at, ambiguous)
    case CheckHelper =>
      With(s, pid, s.procs[pid].(hpc := if Passes(s.w, s.procs[pid].ref) then HelperReady(s.procs[pid].hpc.id) else HelperRemoving(s.procs[pid].hpc.id)))
    case StartPayload =>
      With(s, pid, s.procs[pid].(hpc := HelperRemoving(s.procs[pid].hpc.id))).(w := SetState(s.w, s.procs[pid].hpc.id, Running))
    case RemoveHelper => s.(procs := s.procs - {pid}, w := DropContainer(s.w, s.procs[pid].hpc.id))
    case BeginKeeper(ctrl, role) => With(s, pid, Keeping(ctrl, role, None))
    case Pick(id) => With(s, pid, s.procs[pid].(target := Some(id)))
    case RemovePicked => With(s, pid, s.procs[pid].(target := None)).(w := DropContainer(s.w, s.procs[pid].target.value))
    case CreateStamp(name, at) =>
      s.(w := AddContainer(s.w, name, OwnedHelperLabels(s.procs[pid].ctrl, s.procs[pid].role, at), {}, Detached))
  }

  ghost function OperateDo(s: Sys, pid: nat, a: OperateAction): Sys
    requires OperateEnabled(s, pid, a)
  {
    match a
    case BeginOperate(ctrl, inst) => With(s, pid, Operating(ctrl, inst, None))
    case Resolve(id) => With(s, pid, s.procs[pid].(runner := Some(id)))
    case StartOwned(id) => Touch(s, id, Running).(procs := s.procs - {pid})
    case StopOwned(id) => Touch(s, id, Exited).(procs := s.procs - {pid})
  }

  ghost function Do(s: Sys, st: Step): Sys
    requires Enabled(s, st)
  {
    match st
    case Alloc(pid, a) => AllocDo(s, pid, a)
    case Run(pid, a) => RunDo(s, pid, a)
    case Tear(pid, a) => TearDo(s, pid, a)
    case Help(pid, a) => HelpDo(s, pid, a)
    case Operate(pid, a) => OperateDo(s, pid, a)
    case Exit(pid) => s.(procs := s.procs - {pid})
    case Outside(op) => DoOutside(s, op)
  }

  /** At the start no process runs, nothing job-scoped exists, and caches and foreign resources may. */
  ghost predicate Init(s: Sys) {
    && s.procs == map[] && s.owner == map[] && s.claimed == {} && s.needs == map[] && s.touched == {}
    && WellFormed(s.w)
    && (forall id :: id in s.w.containers ==> !IsJob(s.w.containers[id].labels))
    && (forall id :: id in s.w.networks ==> Get(s.w.networks[id].labels, Managed) != "true")
    && (forall v :: v in s.w.volumes ==> !IsJob(s.w.volumes[v]))
  }

  ghost predicate Next(s: Sys, st: Step, s': Sys) {
    Enabled(s, st) && s' == Do(s, st)
  }

  ghost predicate IsRun(states: seq<Sys>, steps: seq<Step>) {
    Runs.IsRun(s => Init(s), (s, st, s') => Next(s, st, s'), states, steps)
  }
}
