/** The inductive invariant of the interleaved protocol, in rely/guarantee form: what holds of the daemon
    (`Ledger`), what each process knows (`Knows`), and what every step lets others rely on (`Evolves`). */
module ProtocolInvariant {
  import opened LabelSpec
  import opened Names
  import opened Docker
  import opened TeardownScope
  import opened Protocol

  // ---------------------------------------------------------------- the invariant

  /** Claim comes first: the resource's nonce has held a claim network, for this controller and instance. */
  ghost predicate Accounted(s: Sys, l: Labels) {
    && InstanceName in l
    && Get(l, CreateNonce) in s.claimed && Get(l, CreateNonce) in s.owner
    && s.owner[Get(l, CreateNonce)].ctrl == Get(l, ControllerID)
    && s.owner[Get(l, CreateNonce)].inst == l[InstanceName]
  }

  /** A job volume's nonce label is the one its name embeds. */
  ghost predicate NamedFor(name: string, l: Labels) {
    InstanceName in l && exists sfx :: name == VolumeName(l[InstanceName], Get(l, CreateNonce), sfx)
  }

  ghost predicate NetworkOk(s: Sys, n: Network) {
    Get(n.labels, Managed) == "true" ==>
      && IsJob(n.labels) && Accounted(s, n.labels)
      && IsClaim(n.labels, Get(n.labels, ControllerID), n.labels[InstanceName])
      && n.name == JobNetworkName(n.labels[InstanceName])
  }

  ghost predicate VolumeOk(s: Sys, v: string, l: Labels) {
    && (IsJob(l) ==> Accounted(s, l) && NamedFor(v, l))
    && (forall n :: n in s.owner && EmbedsNonce(v, n) ==> l == map[] || (IsJob(l) && Get(l, CreateNonce) == n))
  }

  ghost predicate ContainerOk(s: Sys, id: nat, c: Container) {
    && (IsJob(c.labels) ==> Accounted(s, c.labels))
    && (id in s.needs ==> RefNames(s.needs[id]) <= c.mounts)
    && (id in s.needs && id !in s.touched && c.state != Created ==> forall r :: r in s.needs[id] ==> Passes(s.w, r))
  }

  ghost predicate Ledger(s: Sys) {
    && WellFormed(s.w)
    && (forall n :: n in s.owner ==> IsNonce(n) && s.owner[n].inst != "")
    && s.claimed <= s.owner.Keys
    && (forall id :: id in s.needs ==> id < s.w.nextId)
    && (forall id :: id in s.w.networks ==> NetworkOk(s, s.w.networks[id]))
    && (forall v :: v in s.w.volumes ==> VolumeOk(s, v, s.w.volumes[v]))
    && (forall id :: id in s.w.containers ==> ContainerOk(s, id, s.w.containers[id]))
  }

  /** No claim network of this generation is live. */
  ghost predicate NotLive(w: World, nonce: string) {
    forall id :: id in w.networks && IsJob(w.networks[id].labels) ==> Get(w.networks[id].labels, CreateNonce) != nonce
  }

  ghost predicate ItemKnown(s: Sys, it: Item) {
    && (IsJob(it.labels) ==> Accounted(s, it.labels))
    && match it
       case ContainerItem(id, l) => id < s.w.nextId && (id in s.w.containers ==> s.w.containers[id].labels == l)
       case NetworkItem(id, l) => id < s.w.nextId && (id in s.w.networks ==> s.w.networks[id].labels == l)
       case VolumeItem(name, l) => IsJob(l) ==> NamedFor(name, l)
  }

  ghost predicate ApprovalKnown(s: Sys, ctrl: string, mode: Mode, seen: set<string>, it: Item) {
    && ItemKnown(s, it)
    && MatchesPredicate(it.labels, ctrl)
    && match mode
       case Exact(n) => Get(it.labels, CreateNonce) == n
       case Everything => true
       case Captured(captured) =>
         if it.labels[InstanceName] in captured then Get(it.labels, CreateNonce) == captured[it.labels[InstanceName]]
         else NotLive(s.w, Get(it.labels, CreateNonce))
  }

  ghost predicate OwnContainer(s: Sys, ctrl: string, nonce: string, id: nat) {
    && id < s.w.nextId
    && (id in s.w.containers ==> MatchesPredicate(s.w.containers[id].labels, ctrl) && Get(s.w.containers[id].labels, CreateNonce) == nonce)
  }

  ghost predicate OwnHelper(s: Sys, ctrl: string, role: string, id: nat) {
    id < s.w.nextId && (id in s.w.containers ==> IsOwnHelper(s.w.containers[id].labels, ctrl, role))
  }

  ghost predicate Checked(s: Sys, id: nat, refs: set<Ref>) {
    id in s.w.containers ==> forall r :: r in refs ==> Passes(s.w, r)
  }

  /** What process pid resolved is still the runner it looked for, or gone. */
  ghost predicate OwnRunner(s: Sys, ctrl: string, inst: string, id: nat) {
    id < s.w.nextId && (id in s.w.containers ==> IsOwnRunner(s.w.containers[id].labels, ctrl, inst))
  }

  ghost predicate CreateKnows(s: Sys, p: Proc)
    requires p.Creating?
  {
    match p.pc
    case CleaningClaim(ids) =>
      forall id :: id in ids ==> id < s.w.nextId && (id in s.w.networks ==> Matches(NonceFilter(p.ident.ctrl, p.nonce), s.w.networks[id].labels))
    case ReplacingVolume(_) => false
    case RecreatingVolume(_) => false
    case CheckingRunner(r, todo, _) =>
      OwnContainer(s, p.ident.ctrl, p.nonce, r) && r in s.needs && s.needs[r] == p.refs && Checked(s, r, p.refs - todo)
    case DroppingRunner(r, _) => OwnContainer(s, p.ident.ctrl, p.nonce, r)
    case CreatingSidecar(r) => r in s.needs && s.needs[r] == p.refs && Checked(s, r, p.refs)
    case StartingSidecar(r, sc) =>
      && r in s.needs && s.needs[r] == p.refs && Checked(s, r, p.refs) && sc in s.needs
      && (if p.dind.SharedNetns?
          then s.needs[sc] <= p.refs && (sc in s.w.containers ==> s.w.containers[sc].net == InNetns(r))
          else s.needs[sc] == {})
    case _ => true
  }

  ghost predicate Knows(s: Sys, pid: nat, p: Proc) {
    match p
    case Creating(ident, nonce, _, _, pc) =>
      && nonce in s.owner && s.owner[nonce] == Owner(pid, ident.ctrl, ident.inst)
      && (pc.Claiming? <==> nonce !in s.claimed)
      && CreateKnows(s, p)
    case Tearing(ctrl, _, mode, seen, _, todo, approved) =>
      && seen <= s.claimed
      && (mode.Captured? ==> mode.captured.Values <= seen)
      && (mode.Exact? ==> mode.nonce in s.owner && s.owner[mode.nonce] == Owner(pid, ctrl, s.owner[mode.nonce].inst))
      && (forall it :: it in todo ==> ItemKnown(s, it))
      && (approved.Some? ==> ApprovalKnown(s, ctrl, mode, seen, approved.value))
    case Helping(ctrl, ref, hpc) =>
      (match hpc
       case HelperCreating => true
       case HelperChecking(id) => OwnHelper(s, ctrl, RoleCacheHelper, id) && id in s.needs && s.needs[id] == {ref}
       case HelperReady(id) => OwnHelper(s, ctrl, RoleCacheHelper, id) && id in s.needs && s.needs[id] == {ref} && Checked(s, id, {ref})
       case HelperRemoving(id) => OwnHelper(s, ctrl, RoleCacheHelper, id))
    case Keeping(ctrl, role, target) =>
      && role in {RoleCacheHelper, RoleDiagPruneStamp, RoleThrottleStamp}
      && (target.Some? ==> OwnHelper(s, ctrl, role, target.value))
    case Operating(ctrl, inst, runner) => runner.Some? ==> OwnRunner(s, ctrl, inst, runner.value)
  }

  ghost predicate Inv(s: Sys) {
    Ledger(s) && forall pid :: pid in s.procs ==> Knows(s, pid, s.procs[pid])
  }

  // ---------------------------------------------------------------- rely

  /** What any step by `actor` leaves for the other processes to rely on: identifiers are never reused and
      labels never change, a volume some surviving container references keeps its labels, a claimed nonce
      never gets a second claim network, and only the drawer of a nonce claims it. */
  ghost predicate Evolves(s: Sys, s': Sys, actor: nat) {
    && s.w.nextId <= s'.w.nextId
    && (forall n :: n in s.owner ==> n in s'.owner && s'.owner[n] == s.owner[n])
    && s.claimed <= s'.claimed
    && (forall n :: n in s'.claimed && n !in s.claimed ==> n in s'.owner && s'.owner[n].pid == actor)
    && s.touched <= s'.touched
    && (forall id :: id in s.needs ==> id in s'.needs && s'.needs[id] == s.needs[id])
    && (forall id :: id in s'.w.containers && id < s.w.nextId ==>
          id in s.w.containers && s'.w.containers[id] == s.w.containers[id].(state := s'.w.containers[id].state))
    && (forall id :: id in s'.w.networks && id < s.w.nextId ==> id in s.w.networks && s'.w.networks[id] == s.w.networks[id])
    && (forall id :: id in s'.w.networks && s.w.nextId <= id && IsJob(s'.w.networks[id].labels) ==>
          Get(s'.w.networks[id].labels, CreateNonce) !in s.claimed)
    && (forall id, v :: id in s'.w.containers && id < s.w.nextId && v in s'.w.containers[id].mounts && v in s.w.volumes ==>
          v in s'.w.volumes && s'.w.volumes[v] == s.w.volumes[v])
  }

  lemma PassesStable(s: Sys, s': Sys, actor: nat, id: nat, r: Ref)
    requires Evolves(s, s', actor) && id < s.w.nextId && id in s'.w.containers
    requires r.name in s'.w.containers[id].mounts && Passes(s.w, r)
    ensures Passes(s'.w, r)
  {
  }

  lemma CheckedStable(s: Sys, s': Sys, actor: nat, id: nat, refs: set<Ref>)
    requires Ledger(s) && Evolves(s, s', actor) && id in s.needs && refs <= s.needs[id] && Checked(s, id, refs)
    ensures Checked(s', id, refs)
  {
    if id in s'.w.containers {
      assert ContainerOk(s, id, s.w.containers[id]);
      forall r | r in refs ensures Passes(s'.w, r) {
        assert r.name in RefNames(s.needs[id]);
        PassesStable(s, s', actor, id, r);
      }
    }
  }

  lemma ItemStable(s: Sys, s': Sys, actor: nat, it: Item)
    requires Evolves(s, s', actor) && ItemKnown(s, it)
    ensures ItemKnown(s', it)
  {
  }

  lemma NotLiveStable(s: Sys, s': Sys, actor: nat, n: string)
    requires Ledger(s) && Evolves(s, s', actor) && n in s.claimed && NotLive(s.w, n)
    ensures NotLive(s'.w, n)
  {
  }

  /** Interference never falsifies what another process knows. */
  lemma KnowsStable(s: Sys, s': Sys, actor: nat, pid: nat, p: Proc)
    requires Ledger(s) && Evolves(s, s', actor) && Knows(s, pid, p) && pid != actor
    ensures Knows(s', pid, p)
  {
    match p
    case Creating(_, _, _, _, pc) =>
      match pc {
        case CheckingRunner(r, todo, _) => CheckedStable(s, s', actor, r, p.refs - todo);
        case CreatingSidecar(r) => CheckedStable(s, s', actor, r, p.refs);
        case StartingSidecar(r, _) => CheckedStable(s, s', actor, r, p.refs);
        case _ =>
      }
    case Tearing(ctrl, _, mode, seen, _, todo, approved) =>
      forall it | it in todo ensures ItemKnown(s', it) { ItemStable(s, s', actor, it); }
      if approved.Some? {
        ItemStable(s, s', actor, approved.value);
        if mode.Captured? && approved.value.labels[InstanceName] !in mode.captured {
          NotLiveStable(s, s', actor, Get(approved.value.labels, CreateNonce));
        }
      }
    case Helping(_, ref, hpc) =>
      if hpc.HelperReady? { CheckedStable(s, s', actor, hpc.id, {ref}); }
    case Keeping(_, _, _) =>
    case Operating(_, _, _) =>
  }

  /** A step is sound once the daemon invariant, the rely and the actor's own knowledge are re-established. */
  lemma Conclude(s: Sys, s': Sys, actor: nat)
    requires Inv(s) && Ledger(s') && Evolves(s, s', actor)
    requires forall pid :: pid in s'.procs && pid != actor ==> pid in s.procs && s'.procs[pid] == s.procs[pid]
    requires actor in s'.procs ==> Knows(s', actor, s'.procs[actor])
    ensures Inv(s')
  {
    forall pid | pid in s'.procs ensures Knows(s', pid, s'.procs[pid]) {
      if pid != actor { KnowsStable(s, s', actor, pid, s.procs[pid]); }
    }
  }
}
