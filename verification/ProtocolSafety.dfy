/** What the interleaved protocol guarantees over whole runs. */
module ProtocolSafety {
  import opened Text
  import opened LabelSpec
  import opened Names
  import opened Docker
  import opened TeardownScope
  import opened Protocol
  import opened ProtocolInvariant
  import opened ProtocolSteps
  import Runs

  // ---------------------------------------------------------------- reachability

  lemma InitInv(s: Sys)
    requires Init(s)
    ensures Inv(s)
  {
    forall v | v in s.w.volumes ensures VolumeOk(s, v, s.w.volumes[v]) { }
  }

  /** The invariant holds in every reachable state, whatever processes and outsiders interleave. */
  lemma ReachableInv(states: seq<Sys>, steps: seq<Step>, i: nat)
    requires IsRun(states, steps) && i < |states|
    ensures Inv(states[i])
  {
    forall s | Init(s) ensures Inv(s) { InitInv(s); }
    forall s, st, s' | Inv(s) && Next(s, st, s') ensures Inv(s') { StepKeepsInv(s, st); }
    Runs.Throughout(s => Init(s), (s, st, s') => Next(s, st, s'), s => Inv(s), states, steps, i);
  }

  // ---------------------------------------------------------------- teardown never hits a live generation

  /** Everything that disappears in one step belongs to generation n of controller ctrl. A volume belongs to
      the generation its name embeds; it may be an unlabelled one the daemon made when a container named it. */
  ghost predicate RemovesOnly(w: World, w': World, ctrl: string, n: string) {
    && (forall id :: id in w.containers && id !in w'.containers ==>
          MatchesPredicate(w.containers[id].labels, ctrl) && Get(w.containers[id].labels, CreateNonce) == n)
    && (forall id :: id in w.networks && id !in w'.networks ==>
          MatchesPredicate(w.networks[id].labels, ctrl) && Get(w.networks[id].labels, CreateNonce) == n)
    && (forall v :: v in w.volumes && v !in w'.volumes ==>
          EmbedsNonce(v, n) && (w.volumes[v] == map[] || (MatchesPredicate(w.volumes[v], ctrl) && Get(w.volumes[v], CreateNonce) == n)))
  }

  lemma VolumeRemovalHits(s: Sys, ctrl: string, it: Item)
    requires Ledger(s) && ItemKnown(s, it) && MatchesPredicate(it.labels, ctrl) && it.VolumeItem?
    ensures RemovesOnly(s.w, RemoveItem(s.w, it), ctrl, Get(it.labels, CreateNonce))
  {
    hide ContainerOk, NetworkOk, WellFormed;
    if it.name in s.w.volumes {
      var sfx :| it.name == VolumeName(it.labels[InstanceName], Get(it.labels, CreateNonce), sfx);
      VolumeNameHasTail(it.labels[InstanceName], Get(it.labels, CreateNonce), sfx);
      assert VolumeOk(s, it.name, s.w.volumes[it.name]);
    }
  }

  lemma RemovalHits(s: Sys, ctrl: string, it: Item)
    requires Ledger(s) && ItemKnown(s, it) && MatchesPredicate(it.labels, ctrl)
    ensures RemovesOnly(s.w, RemoveItem(s.w, it), ctrl, Get(it.labels, CreateNonce))
  {
    hide Ledger;
    if it.VolumeItem? { VolumeRemovalHits(s, ctrl, it); }
  }

  lemma RemovalHitsItsGeneration(s: Sys, pid: nat)
    requires Inv(s) && TearEnabled(s, pid, Remove)
    ensures var it := s.procs[pid].approved.value; var n := Get(it.labels, CreateNonce);
            && MatchesPredicate(it.labels, s.procs[pid].ctrl)
            && n in s.claimed && n in s.owner && s.owner[n].ctrl == s.procs[pid].ctrl
            && RemovesOnly(s.w, TearDo(s, pid, Remove).w, s.procs[pid].ctrl, n)
  {
    hide Ledger, RemovesOnly;
    assert Knows(s, pid, s.procs[pid]);
    RemovalHits(s, s.procs[pid].ctrl, s.procs[pid].approved.value);
  }

  /** Process pid is about to remove what it approved. */
  predicate Removing(s: Sys, pid: nat) {
    pid in s.procs && s.procs[pid].Tearing? && s.procs[pid].approved.Some?
  }

  /** In every interleaving, what a TeardownAllocation removes carries the nonce captured at its start, or
      belongs to a generation whose claim network is not live at that very removal. */
  lemma TeardownSafety(states: seq<Sys>, steps: seq<Step>, i: nat, pid: nat)
    requires IsRun(states, steps) && i < |steps| && steps[i] == Tear(pid, Remove) && Removing(states[i], pid)
    requires states[i].procs[pid].mode.Captured?
    ensures var p := states[i].procs[pid];
            var l := p.approved.value.labels; var n := Get(l, CreateNonce);
            && RemovesOnly(states[i].w, states[i + 1].w, p.ctrl, n)
            && InstanceName in l
            && (if l[InstanceName] in p.mode.captured then n == p.mode.captured[l[InstanceName]] else NotLive(states[i].w, n))
  {
    ReachableInv(states, steps, i);
    assert Next(states[i], steps[i], states[i + 1]);
    RemovalHitsItsGeneration(states[i], pid);
    assert Knows(states[i], pid, states[i].procs[pid]);
  }

  /** The rescue of RemoveAllInstances, in every interleaving: what it removes is of a generation that its own
      controller drew. */
  lemma RescueSafety(states: seq<Sys>, steps: seq<Step>, i: nat, pid: nat)
    requires IsRun(states, steps) && i < |steps| && steps[i] == Tear(pid, Remove)
    requires Removing(states[i], pid) && states[i].procs[pid].mode.Everything?
    ensures var p := states[i].procs[pid];
            var n := Get(p.approved.value.labels, CreateNonce);
            && RemovesOnly(states[i].w, states[i + 1].w, p.ctrl, n)
            && n in states[i].owner && states[i].owner[n].ctrl == p.ctrl
  {
    ReachableInv(states, steps, i);
    assert Next(states[i], steps[i], states[i + 1]);
    RemovalHitsItsGeneration(states[i], pid);
  }

  /** Nothing of generation g disappears. */
  ghost predicate Spares(w: World, w': World, g: string) {
    && (forall id :: id in w.containers && Get(w.containers[id].labels, CreateNonce) == g ==> id in w'.containers)
    && (forall id :: id in w.networks && Get(w.networks[id].labels, CreateNonce) == g ==> id in w'.networks)
    && (forall v :: v in w.volumes && EmbedsNonce(v, g) ==> v in w'.volumes)
  }

  lemma RemovalSparesOthers(w: World, w': World, ctrl: string, n: string, g: string)
    requires RemovesOnly(w, w', ctrl, n) && IsNonce(n) && IsNonce(g) && n != g
    ensures Spares(w, w', g)
  {
    forall v | v in w.volumes && EmbedsNonce(v, g) ensures v in w'.volumes {
      if v !in w'.volumes {
        var s1 :| HasTail(v, g, s1);
        var s2 :| HasTail(v, n, s2);
        TailInjective(v, g, s1, n, s2);
      }
    }
  }

  /** A rollback, in every interleaving, removes only what carries the nonce its own process drew, and so takes
      nothing of any other generation, live or not. */
  lemma RollbackSafety(states: seq<Sys>, steps: seq<Step>, i: nat, pid: nat, g: string)
    requires IsRun(states, steps) && i < |steps| && steps[i] == Tear(pid, Remove)
    requires Removing(states[i], pid) && states[i].procs[pid].mode.Exact?
    ensures var n := states[i].procs[pid].mode.nonce;
            && n in states[i].owner && states[i].owner[n].pid == pid && states[i].owner[n].ctrl == states[i].procs[pid].ctrl
            && RemovesOnly(states[i].w, states[i + 1].w, states[i].procs[pid].ctrl, n)
            && (IsNonce(g) && g != n ==> Spares(states[i].w, states[i + 1].w, g))
  {
    ReachableInv(states, steps, i);
    assert Next(states[i], steps[i], states[i + 1]);
    RemovalHitsItsGeneration(states[i], pid);
    assert Knows(states[i], pid, states[i].procs[pid]);
    var n := states[i].procs[pid].mode.nonce;
    assert IsNonce(n);
    if IsNonce(g) && g != n { RemovalSparesOthers(states[i].w, states[i + 1].w, states[i].procs[pid].ctrl, n, g); }
  }

  lemma CleanupHitsOwn(s: Sys, pid: nat, net: nat)
    requires Inv(s) && AllocEnabled(s, pid, DropOwn(net))
    ensures var w', p := AllocDo(s, pid, DropOwn(net)).w, s.procs[pid];
            && w'.containers == s.w.containers && w'.volumes == s.w.volumes && w'.networks.Keys >= s.w.networks.Keys - {net}
            && (net in s.w.networks && net !in w'.networks ==>
                  MatchesPredicate(s.w.networks[net].labels, p.ident.ctrl) && Get(s.w.networks[net].labels, CreateNonce) == p.nonce)
  {
    hide VolumeOk, ContainerOk, WellFormed, NetworkInUse, Matches, MatchesPredicate;
    assert Knows(s, pid, s.procs[pid]);
    if net in s.w.networks { NonceNetworkIsOwn(s, s.procs[pid].ident.ctrl, s.procs[pid].nonce, net); }
  }

  lemma NonceNetworkIsOwn(s: Sys, ctrl: string, nonce: string, net: nat)
    requires Ledger(s) && net in s.w.networks && Matches(NonceFilter(ctrl, nonce), s.w.networks[net].labels)
    ensures MatchesPredicate(s.w.networks[net].labels, ctrl) && Get(s.w.networks[net].labels, CreateNonce) == nonce
  {
    MatchesNonce(ctrl, nonce, s.w.networks[net].labels);
    assert NetworkOk(s, s.w.networks[net]);
  }

  lemma CreatorOwnsNonce(s: Sys, pid: nat)
    requires Inv(s) && At(s, pid)
    ensures s.procs[pid].nonce in s.owner
    ensures s.owner[s.procs[pid].nonce] == Owner(pid, s.procs[pid].ident.ctrl, s.procs[pid].ident.inst)
  {
    assert Knows(s, pid, s.procs[pid]);
  }

  /** The cleanup after an ambiguous claim takes nothing but networks of the nonce its own process drew. */
  lemma ClaimCleanupSafety(states: seq<Sys>, steps: seq<Step>, i: nat, pid: nat, net: nat)
    requires IsRun(states, steps) && i < |steps| && steps[i] == Alloc(pid, DropOwn(net)) && At(states[i], pid)
    ensures var p := states[i].procs[pid];
            && p.nonce in states[i].owner && states[i].owner[p.nonce].pid == pid
            && states[i + 1].w.containers == states[i].w.containers && states[i + 1].w.volumes == states[i].w.volumes
            && RemovesOnly(states[i].w, states[i + 1].w, p.ident.ctrl, p.nonce)
  {
    hide Inv, AllocEnabled, AllocDo, MatchesPredicate;
    ReachableInv(states, steps, i);
    assert Next(states[i], steps[i], states[i + 1]);
    CreatorOwnsNonce(states[i], pid);
    CleanupHitsOwn(states[i], pid, net);
  }

  /** The step is not the start of a teardown by pid, nor a rollback by pid. */
  predicate NotAnotherTeardown(st: Step, pid: nat) {
    && !(st.Tear? && st.pid == pid && (st.tear.BeginTeardown? || st.tear.BeginTeardownAll?))
    && !(st.Run? && st.pid == pid)
  }

  /** If pid is tearing down, it does so in this mode, begun when `seen` was claimed. */
  ghost predicate TearingAs(s: Sys, pid: nat, mode: Mode, seen: set<string>) {
    pid in s.procs && s.procs[pid].Tearing? ==> s.procs[pid].mode == mode && s.procs[pid].seen == seen
  }

  lemma AllocKeepsTearingAs(s: Sys, actor: nat, a: AllocAction, pid: nat, mode: Mode, seen: set<string>)
    requires AllocEnabled(s, actor, a) && TearingAs(s, pid, mode, seen)
    ensures TearingAs(AllocDo(s, actor, a), pid, mode, seen)
  {
  }

  lemma RunKeepsTearingAs(s: Sys, actor: nat, a: RunAction, pid: nat, mode: Mode, seen: set<string>)
    requires RunEnabled(s, actor, a) && TearingAs(s, pid, mode, seen) && actor != pid
    ensures TearingAs(RunDo(s, actor, a), pid, mode, seen)
  {
  }

  lemma TearKeepsTearingAs(s: Sys, actor: nat, a: TearAction, pid: nat, mode: Mode, seen: set<string>)
    requires TearEnabled(s, actor, a) && TearingAs(s, pid, mode, seen) && NotAnotherTeardown(Tear(actor, a), pid)
    ensures TearingAs(TearDo(s, actor, a), pid, mode, seen)
  {
  }

  lemma HelpKeepsTearingAs(s: Sys, actor: nat, a: HelpAction, pid: nat, mode: Mode, seen: set<string>)
    requires HelpEnabled(s, actor, a) && TearingAs(s, pid, mode, seen)
    ensures TearingAs(HelpDo(s, actor, a), pid, mode, seen)
  {
  }

  lemma StepKeepsTearingAs(s: Sys, st: Step, pid: nat, mode: Mode, seen: set<string>)
    requires Enabled(s, st) && TearingAs(s, pid, mode, seen) && NotAnotherTeardown(st, pid)
    ensures TearingAs(Do(s, st), pid, mode, seen)
  {
    match st
    case Alloc(actor, a) => AllocKeepsTearingAs(s, actor, a, pid, mode, seen);
    case Run(actor, a) => RunKeepsTearingAs(s, actor, a, pid, mode, seen);
    case Tear(actor, a) => TearKeepsTearingAs(s, actor, a, pid, mode, seen);
    case Help(actor, a) => HelpKeepsTearingAs(s, actor, a, pid, mode, seen);
    case Operate(_, _) =>
    case Exit(_) =>
    case Outside(_) =>
  }

  lemma BeginTeardownMode(s: Sys, pid: nat, ctrl: string, inst: string, captured: map<string, string>)
    requires TearEnabled(s, pid, BeginTeardown(ctrl, inst, captured))
    ensures TearingAs(Do(s, Tear(pid, BeginTeardown(ctrl, inst, captured))), pid, Captured(captured), s.claimed)
  {
  }

  /** A teardown keeps, to its end, the captured map and the claimed set of its beginning. */
  lemma ModeFixed(states: seq<Sys>, steps: seq<Step>, pid: nat, b: nat, i: nat)
    requires IsRun(states, steps) && b < i <= |steps|
    requires steps[b].Tear? && steps[b].pid == pid && steps[b].tear.BeginTeardown?
    requires forall k :: b < k < i ==> NotAnotherTeardown(steps[k], pid)
    ensures TearingAs(states[i], pid, Captured(steps[b].tear.captured), states[b].claimed)
  {
    var mode, seen := Captured(steps[b].tear.captured), states[b].claimed;
    assert Next(states[b], steps[b], states[b + 1]);
    BeginTeardownMode(states[b], pid, steps[b].tear.ctrl, steps[b].tear.inst, steps[b].tear.captured);
    forall s, st, s' | TearingAs(s, pid, mode, seen) && NotAnotherTeardown(st, pid) && Next(s, st, s') ensures TearingAs(s', pid, mode, seen) {
      StepKeepsTearingAs(s, st, pid, mode, seen);
    }
    Runs.Onward(s => Init(s), (s, st, s') => Next(s, st, s'), s => TearingAs(s, pid, mode, seen), st => NotAnotherTeardown(st, pid),
                states, steps, b + 1, i);
  }

  lemma AllocClaims(s: Sys, pid: nat, a: AllocAction)
    requires AllocEnabled(s, pid, a)
    ensures s.claimed <= AllocDo(s, pid, a).claimed
  {
  }

  lemma RunClaims(s: Sys, pid: nat, a: RunAction)
    requires RunEnabled(s, pid, a)
    ensures s.claimed <= RunDo(s, pid, a).claimed
  {
  }

  lemma ClaimedGrowsByStep(s: Sys, st: Step)
    requires Enabled(s, st)
    ensures s.claimed <= Do(s, st).claimed
  {
    match st
    case Alloc(pid, a) => AllocClaims(s, pid, a);
    case Run(pid, a) => RunClaims(s, pid, a);
    case _ =>
  }

  lemma ClaimedGrows(states: seq<Sys>, steps: seq<Step>, i: nat, j: nat)
    requires IsRun(states, steps) && i <= j <= |steps|
    ensures states[i].claimed <= states[j].claimed
  {
    var before := states[i].claimed;
    forall s: Sys, st: Step, s': Sys | before <= s.claimed && Next(s, st, s') ensures before <= s'.claimed { ClaimedGrowsByStep(s, st); }
    Runs.Onward(s => Init(s), (s, st, s') => Next(s, st, s'), (s: Sys) => before <= s.claimed, st => true, states, steps, i, j);
  }

  /** What a teardown that saw only `seen` claimed may remove is not a live generation claimed since. */
  lemma UnseenLiveIsNotRemoved(s: Sys, pid: nat, g: string)
    requires Inv(s) && TearEnabled(s, pid, Remove) && s.procs[pid].mode.Captured?
    requires g !in s.procs[pid].seen && g in s.claimed && !NotLive(s.w, g)
    ensures Spares(s.w, TearDo(s, pid, Remove).w, g)
  {
    var p := s.procs[pid];
    var n := Get(p.approved.value.labels, CreateNonce);
    assert Knows(s, pid, p);
    RemovalHitsItsGeneration(s, pid);
    assert IsNonce(n) && IsNonce(g);
    RemovalSparesOthers(s.w, TearDo(s, pid, Remove).w, p.ctrl, n, g);
  }

  /** Survival: a generation that claims its name after a teardown began loses nothing to that teardown
      while its claim is live, however stale the teardown's listings are. */
  lemma LaterGenerationSurvives(states: seq<Sys>, steps: seq<Step>, b: nat, c: nat, k: nat)
    requires IsRun(states, steps) && b < c < k < |steps|
    requires steps[b].Tear? && steps[b].tear.BeginTeardown?
    requires forall i :: b < i < k ==> NotAnotherTeardown(steps[i], steps[b].pid)
    requires steps[c].Alloc? && steps[c].alloc.Claim? && At(states[c], steps[c].pid)
    requires steps[k] == Tear(steps[b].pid, Remove)
    requires !NotLive(states[k].w, states[c].procs[steps[c].pid].nonce)
    ensures Spares(states[k].w, states[k + 1].w, states[c].procs[steps[c].pid].nonce)
  {
    var g := states[c].procs[steps[c].pid].nonce;
    ModeFixed(states, steps, steps[b].pid, b, k);
    ReachableInv(states, steps, c);
    assert Next(states[c], steps[c], states[c + 1]) && Next(states[k], steps[k], states[k + 1]);
    assert Knows(states[c], steps[c].pid, states[c].procs[steps[c].pid]);
    ClaimedGrows(states, steps, b, c);
    ClaimedGrows(states, steps, c + 1, k);
    ReachableInv(states, steps, k);
    UnseenLiveIsNotRemoved(states[k], steps[b].pid, g);
  }
}
