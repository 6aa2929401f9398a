/** The teardown entry points and DeleteInstance (internal/topology/teardown.go, internal/provider/delete.go,
    internal/provider/resolver.go), and what repeated teardowns converge to. */
module Deletion {
  import opened LabelSpec
  import opened Names
  import opened Docker
  import opened DaemonCalls
  import opened TeardownScope
  import opened Teardown

  /** A job-scoped resource of this controller under this instance name. */
  predicate Under(l: Labels, ctrl: string, inst: string) {
    Matches(InstanceScopedFilter(ctrl, inst), l) && MatchesPredicate(l, ctrl)
  }

  ghost predicate AnyUnder(w: World, ctrl: string, inst: string) {
    || (exists id :: id in w.containers && Under(w.containers[id].labels, ctrl, inst))
    || (exists id :: id in w.networks && Under(w.networks[id].labels, ctrl, inst))
    || (exists v :: v in w.volumes && Under(w.volumes[v], ctrl, inst))
  }

  function GenerationScope(ctrl: string, inst: string, captured: map<string, string>): Scope {
    Scope(ctrl, InstanceScopedFilter(ctrl, inst), Captured(captured))
  }

  function InstanceScope(ctrl: string, inst: string): Scope {
    Scope(ctrl, InstanceScopedFilter(ctrl, inst), Everything)
  }

  function AttemptScope(ctrl: string, inst: string, nonce: string): Scope {
    Scope(ctrl, InstanceScopedNonceFilter(ctrl, inst, nonce), Exact(nonce))
  }

  function ControllerScope(ctrl: string): Scope {
    Scope(ctrl, MatchPredicateFilters(ctrl), Everything)
  }

  ghost predicate CapturedUnder(w: World, ctrl: string, inst: string, captured: map<string, string>) {
    CapturedFrom(w, ctrl, InstanceScopedFilter(ctrl, inst), captured)
  }

  // ---------------------------------------------------------------- what a generation scope reaches

  /** With a claim at its start a teardown reaches the claimed generation, without one everything. */
  lemma GenerationReach(w: World, ctrl: string, inst: string, captured: map<string, string>, l: Labels)
    ensures InScope(GenerationScope(ctrl, inst, captured), l) <==>
              Under(l, ctrl, inst) && (inst in captured ==> Get(l, CreateNonce) == captured[inst])
  {
    MatchesInstance(ctrl, inst, l);
  }

  lemma CaptureSettles(w: World, ctrl: string, inst: string, captured: map<string, string>)
    requires inst != "" && CapturedUnder(w, ctrl, inst, captured)
    ensures Settled(w.networks, GenerationScope(ctrl, inst, captured))
  {
    var f := InstanceScopedFilter(ctrl, inst);
    forall l: Labels, id | Matches(f, l) && MatchesPredicate(l, ctrl) && l[InstanceName] !in captured && id in w.networks
      ensures !IsClaim(w.networks[id].labels, ctrl, l[InstanceName])
    {
      MatchesInstance(ctrl, inst, l);
      if IsClaim(w.networks[id].labels, ctrl, inst) {
        MatchesClaim(ctrl, inst, w.networks[id].labels);
        MatchesInstance(ctrl, inst, w.networks[id].labels);
        assert CaptureMatches(w.networks[id].labels, ctrl, f);
      }
    }
  }

  /** The claim network is in the scope of its own generation, so a teardown finds something exactly when
      something is there. */
  lemma ReachesSomething(w: World, ctrl: string, inst: string, captured: map<string, string>)
    requires CapturedUnder(w, ctrl, inst, captured)
    ensures AnyInScope(w, GenerationScope(ctrl, inst, captured)) <==> AnyUnder(w, ctrl, inst)
  {
    var sc := GenerationScope(ctrl, inst, captured);
    forall l ensures InScope(sc, l) <==> Under(l, ctrl, inst) && (inst in captured ==> Get(l, CreateNonce) == captured[inst]) {
      GenerationReach(w, ctrl, inst, captured, l);
    }
    if inst in captured {
      assert HeldBy(w, ctrl, sc.filter, inst, captured[inst]);
      var id :| id in w.networks && Holds(w.networks[id].labels, ctrl, sc.filter, inst, captured[inst]);
      assert InScope(sc, w.networks[id].labels);
      assert Under(w.networks[id].labels, ctrl, inst);
    }
  }

  // ---------------------------------------------------------------- convergence

  /** The claim networks of a name agree on the generation. */
  ghost predicate ClaimsAgree(w: World, ctrl: string, inst: string) {
    forall a, b :: a in w.networks && b in w.networks && IsClaim(w.networks[a].labels, ctrl, inst) && IsClaim(w.networks[b].labels, ctrl, inst) ==>
                     Get(w.networks[a].labels, CreateNonce) == Get(w.networks[b].labels, CreateNonce)
  }

  /** Network names are unique, so claim networks that bear their instance's name agree. */
  lemma NamedClaimsAgree(w: World, ctrl: string, inst: string)
    requires WellFormed(w)
    requires forall id :: id in w.networks && IsClaim(w.networks[id].labels, ctrl, inst) ==> w.networks[id].name == JobNetworkName(inst)
    ensures ClaimsAgree(w, ctrl, inst)
  {
  }

  lemma OnlyCapturedClaimHeld(w: World, ctrl: string, inst: string, captured: map<string, string>, id: nat)
    requires ClaimsAgree(w, ctrl, inst) && CapturedUnder(w, ctrl, inst, captured) && inst != "" && id in w.networks
    requires CaptureMatches(w.networks[id].labels, ctrl, InstanceScopedFilter(ctrl, inst))
    ensures InScope(GenerationScope(ctrl, inst, captured), w.networks[id].labels)
  {
    var f := InstanceScopedFilter(ctrl, inst);
    var l := w.networks[id].labels;
    MatchesInstance(ctrl, inst, l);
    MatchesClaim(ctrl, inst, l);
    assert inst in captured && HeldBy(w, ctrl, f, inst, captured[inst]);
    var b :| b in w.networks && Holds(w.networks[b].labels, ctrl, f, inst, captured[inst]);
    MatchesClaim(ctrl, inst, w.networks[b].labels);
    GenerationReach(w, ctrl, inst, captured, l);
  }

  /** After one error-free pass no claim is left under the name. */
  lemma OnePassDropsTheClaim(w: World, ctrl: string, inst: string, c1: map<string, string>, c2: map<string, string>)
    requires inst != "" && ClaimsAgree(w, ctrl, inst) && CapturedUnder(w, ctrl, inst, c1)
    requires CapturedUnder(Purge(w, GenerationScope(ctrl, inst, c1)), ctrl, inst, c2)
    ensures inst !in c2
  {
    var w1, f := Purge(w, GenerationScope(ctrl, inst, c1)), InstanceScopedFilter(ctrl, inst);
    if inst in c2 {
      assert HeldBy(w1, ctrl, f, inst, c2[inst]);
      var id :| id in w1.networks && Holds(w1.networks[id].labels, ctrl, f, inst, c2[inst]);
      OnlyCapturedClaimHeld(w, ctrl, inst, c1, id);
    }
  }

  /** Convergence: whatever mix of generations was there, two error-free teardowns of a name leave nothing of
      this controller under it. */
  lemma TwoPassesClear(w: World, ctrl: string, inst: string, c1: map<string, string>, c2: map<string, string>)
    requires inst != "" && ClaimsAgree(w, ctrl, inst) && CapturedUnder(w, ctrl, inst, c1)
    requires CapturedUnder(Purge(w, GenerationScope(ctrl, inst, c1)), ctrl, inst, c2)
    ensures !AnyUnder(Purge(Purge(w, GenerationScope(ctrl, inst, c1)), GenerationScope(ctrl, inst, c2)), ctrl, inst)
  {
    OnePassDropsTheClaim(w, ctrl, inst, c1, c2);
    forall l ensures InScope(GenerationScope(ctrl, inst, c2), l) <==> Under(l, ctrl, inst) {
      GenerationReach(w, ctrl, inst, c2, l);
    }
  }

  /** Everything under the name carries this nonce. */
  ghost predicate OneGeneration(w: World, ctrl: string, inst: string, nonce: string) {
    && (forall id :: id in w.containers && Under(w.containers[id].labels, ctrl, inst) ==> Get(w.containers[id].labels, CreateNonce) == nonce)
    && (forall id :: id in w.networks && Under(w.networks[id].labels, ctrl, inst) ==> Get(w.networks[id].labels, CreateNonce) == nonce)
    && (forall v :: v in w.volumes && Under(w.volumes[v], ctrl, inst) ==> Get(w.volumes[v], CreateNonce) == nonce)
  }

  /** One error-free pass is enough exactly when there was no claim, or the claimed generation was alone. */
  lemma OnePassClearsExactly(w: World, ctrl: string, inst: string, c1: map<string, string>)
    requires CapturedUnder(w, ctrl, inst, c1)
    ensures !AnyUnder(Purge(w, GenerationScope(ctrl, inst, c1)), ctrl, inst) <==>
              (inst in c1 ==> OneGeneration(w, ctrl, inst, c1[inst]))
  {
    hide Matches, MatchesPredicate, InScope, Under, CapturedUnder;
    var sc := GenerationScope(ctrl, inst, c1);
    var w1 := Purge(w, sc);
    forall l ensures InScope(sc, l) <==> Under(l, ctrl, inst) && (inst in c1 ==> Get(l, CreateNonce) == c1[inst]) {
      GenerationReach(w, ctrl, inst, c1, l);
    }
    if !AnyUnder(w1, ctrl, inst) && inst in c1 {
      forall id | id in w.containers && Under(w.containers[id].labels, ctrl, inst) ensures Get(w.containers[id].labels, CreateNonce) == c1[inst] {
        assert id !in w1.containers;
      }
      forall id | id in w.networks && Under(w.networks[id].labels, ctrl, inst) ensures Get(w.networks[id].labels, CreateNonce) == c1[inst] {
        assert id !in w1.networks;
      }
      forall v | v in w.volumes && Under(w.volumes[v], ctrl, inst) ensures Get(w.volumes[v], CreateNonce) == c1[inst] {
        assert v !in w1.volumes;
      }
    }
  }

  lemma NeverCapturesEmpty(w: World, ctrl: string, f: Filter, captured: map<string, string>)
    requires CapturedFrom(w, ctrl, f, captured)
    ensures "" !in captured
  {
    forall inst | inst in captured ensures inst != "" { assert HeldBy(w, ctrl, f, inst, captured[inst]); }
  }

  /** Why the results on convergence ask for a name: no captured map holds the empty one, so a claim under it
      would protect its own generation. CreateInstance refuses the empty name, and by
      ProtocolOwnership.NoEmptyInstance no run makes such a claim. */
  lemma EmptyNameNeverCleared(w: World, ctrl: string, captured: map<string, string>, id: nat)
    requires CapturedUnder(w, ctrl, "", captured) && id in w.networks
    requires IsClaim(w.networks[id].labels, ctrl, "") && Get(w.networks[id].labels, CreateNonce) != ""
    ensures "" !in captured
    ensures LiveRead(w, ctrl, "", Some(Get(w.networks[id].labels, CreateNonce)))
    ensures !MayRemove(Captured(captured), ctrl, w.networks[id].labels, Some(Get(w.networks[id].labels, CreateNonce)))
  {
    var l := w.networks[id].labels;
    MatchesClaim(ctrl, "", l);
    MatchesInstance(ctrl, "", l);
    assert ClaimsWith(l, ctrl, "", Get(l, CreateNonce));
    NeverCapturesEmpty(w, ctrl, InstanceScopedFilter(ctrl, ""), captured);
  }

  /** TeardownAll reaches every job-scoped resource of the controller, and nothing else. */
  lemma ControllerReach(ctrl: string, l: Labels)
    ensures InScope(ControllerScope(ctrl), l) <==> MatchesPredicate(l, ctrl) && ControllerID in l
  {
    MatchesController(ctrl, l);
  }

  // ---------------------------------------------------------------- the entry points

  lemma WithinMonotone(w: World, w': World, small: Scope, big: Scope)
    requires Within(w, w', small) && forall l :: InScope(small, l) ==> InScope(big, l)
    ensures Within(w, w', big)
  {
  }

  lemma GenerationWithinInstance(w: World, w': World, ctrl: string, inst: string, captured: map<string, string>)
    requires Within(w, w', GenerationScope(ctrl, inst, captured))
    ensures Within(w, w', InstanceScope(ctrl, inst))
  {
    WithinMonotone(w, w', GenerationScope(ctrl, inst, captured), InstanceScope(ctrl, inst));
  }

  method TeardownAllocation(d: Daemon, ctrl: string, inst: string)
    returns (found: bool, errs: seq<Failure>, ghost captured: map<string, string>)
    modifies d
    ensures Within(old(d.View()), d.View(), InstanceScope(ctrl, inst))
    ensures errs == [] && inst != "" ==>
              && CapturedUnder(old(d.View()), ctrl, inst, captured)
              && d.View() == Purge(old(d.View()), GenerationScope(ctrl, inst, captured))
              && (found <==> AnyUnder(old(d.View()), ctrl, inst))
    ensures old(d.faults) == [] && inst != "" ==> CapturedUnder(old(d.View()), ctrl, inst, captured)
    ensures old(d.faults) == [] && inst != "" && SelfContained(old(d.View()), GenerationScope(ctrl, inst, captured)) ==> errs == [] && d.faults == []
    ensures old(d.faults) == [] && inst != "" && AnyUnder(old(d.View()), ctrl, inst) ==> found || errs != []
  {
    ghost var w := d.View();
    var ok, c := ClaimNoncesByInstance(d, ctrl, InstanceScopedFilter(ctrl, inst));
    captured := c;
    if !ok { return false, [ListFailed], captured; }
    if inst != "" {
      CaptureSettles(w, ctrl, inst, captured);
      ReachesSomething(w, ctrl, inst, captured);
    }
    found, errs := RunTeardown(d, GenerationScope(ctrl, inst, c));
    GenerationWithinInstance(w, d.View(), ctrl, inst, c);
  }

  /** CreateInstance's guard: exactly this attempt's resources. */
  method Rollback(d: Daemon, ctrl: string, inst: string, nonce: string) returns (errs: seq<Failure>)
    modifies d
    ensures Within(old(d.View()), d.View(), AttemptScope(ctrl, inst, nonce))
    ensures errs == [] ==> d.View() == Purge(old(d.View()), AttemptScope(ctrl, inst, nonce))
    ensures old(d.faults) == [] && SelfContained(old(d.View()), AttemptScope(ctrl, inst, nonce)) ==> errs == []
  {
    var found;
    found, errs := RunTeardown(d, AttemptScope(ctrl, inst, nonce));
  }

  /** The rescue: everything job-scoped this controller owns, whatever its generation. */
  method TeardownAll(d: Daemon, ctrl: string) returns (errs: seq<Failure>)
    modifies d
    ensures Within(old(d.View()), d.View(), ControllerScope(ctrl))
    ensures errs == [] ==> d.View() == Purge(old(d.View()), ControllerScope(ctrl))
    ensures old(d.faults) == [] && SelfContained(old(d.View()), ControllerScope(ctrl)) ==> errs == []
  {
    var found;
    found, errs := RunTeardown(d, ControllerScope(ctrl));
  }

  /** Nothing outside the generation that a teardown of this name reaches holds on to it. */
  ghost predicate LetGo(w: World, ctrl: string, inst: string) {
    forall captured :: CapturedUnder(w, ctrl, inst, captured) ==> SelfContained(w, GenerationScope(ctrl, inst, captured))
  }

  // ---------------------------------------------------------------- DeleteInstance

  datatype Deletion = Deleted | NotFoundError | DeleteFailed

  predicate IsManagedRunner(l: Labels, ctrl: string) {
    MatchesPredicate(l, ctrl) && Get(l, Role) == RoleRunner
  }

  function RunnerFilter(ctrl: string, inst: string): Filter {
    InstanceScopedFilter(ctrl, inst)[Role := Equals(RoleRunner)]
  }

  /** A runner container of this controller under this instance name. */
  predicate IsOwnedRunner(l: Labels, ctrl: string, inst: string) {
    Under(l, ctrl, inst) && Get(l, Role) == RoleRunner
  }

  lemma RunnerFilterExactly(ctrl: string, inst: string, l: Labels)
    ensures Matches(RunnerFilter(ctrl, inst), l) && IsManagedRunner(l, ctrl) <==> IsOwnedRunner(l, ctrl, inst)
  {
    var f, g := RunnerFilter(ctrl, inst), InstanceScopedFilter(ctrl, inst);
    assert f.Keys == g.Keys + {Role} && forall k :: k in g ==> f[k] == g[k];
    if IsOwnedRunner(l, ctrl, inst) { assert Role in l; }
  }

  /** resolveByOwnedLabel: the labels of an owned runner under the name, and one is found exactly when there is
      one. */
  method ResolveByOwnedLabel(d: Daemon, ctrl: string, inst: string) returns (ok: bool, found: bool, l: Labels)
    modifies d`faults
    ensures ok && found ==> IsOwnedRunner(l, ctrl, inst)
    ensures ok ==> (found <==> exists id :: id in d.containers && IsOwnedRunner(d.containers[id].labels, ctrl, inst))
    ensures ok && found ==> exists id :: id in d.containers && d.containers[id].labels == l
    ensures old(d.faults) == [] ==> d.faults == [] && ok
  {
    hide Matches, IsManagedRunner, IsOwnedRunner, RunnerFilter;
    var list;
    l, found := map[], false;
    ok, list := d.ContainerList(RunnerFilter(ctrl, inst));
    if !ok { return; }
    for i := 0 to |list|
      invariant old(d.faults) == [] ==> d.faults == []
      invariant forall j :: 0 <= j < i ==> !IsOwnedRunner(list[j].labels, ctrl, inst)
    {
      var o, got, st, finished := d.ContainerInspect(list[i].key);
      if o.Failed? { return false, false, l; }
      RunnerFilterExactly(ctrl, inst, list[i].labels);
      if o.Ok? && IsManagedRunner(got, ctrl) { return true, true, got; }
    }
    forall id | id in d.containers ensures !IsOwnedRunner(d.containers[id].labels, ctrl, inst) {
      RunnerFilterExactly(ctrl, inst, d.containers[id].labels);
      ListedIf(list, LabelsOfContainers(d.containers), RunnerFilter(ctrl, inst), id);
    }
  }

  method AnyOwned<K(==, !new)>(list: seq<Listed<K>>, labelled: map<K, Labels>, ctrl: string, inst: string)
    returns (any: bool)
    requires IsListing(list, labelled, InstanceScopedFilter(ctrl, inst))
    ensures any <==> exists k :: k in labelled && Under(labelled[k], ctrl, inst)
  {
    for i := 0 to |list|
      invariant forall j :: 0 <= j < i ==> !MatchesPredicate(list[j].labels, ctrl)
    {
      if MatchesPredicate(list[i].labels, ctrl) {
        assert Under(labelled[list[i].key], ctrl, inst);
        return true;
      }
    }
    forall k | k in labelled ensures !Under(labelled[k], ctrl, inst) {
      ListedIf(list, labelled, InstanceScopedFilter(ctrl, inst), k);
    }
    any := false;
  }

  lemma AnyOf(w: World, ctrl: string, inst: string, c: bool, n: bool, v: bool)
    requires c <==> exists id :: id in LabelsOfContainers(w.containers) && Under(LabelsOfContainers(w.containers)[id], ctrl, inst)
    requires n <==> exists id :: id in LabelsOfNetworks(w.networks) && Under(LabelsOfNetworks(w.networks)[id], ctrl, inst)
    requires v <==> exists x :: x in w.volumes && Under(w.volumes[x], ctrl, inst)
    ensures c || n || v <==> AnyUnder(w, ctrl, inst)
  {
    if id :| id in w.containers && Under(w.containers[id].labels, ctrl, inst) { assert id in LabelsOfContainers(w.containers); }
    if id :| id in w.networks && Under(w.networks[id].labels, ctrl, inst) { assert id in LabelsOfNetworks(w.networks); }
  }

  /** hasManagedAllocationResources. */
  method HasManagedAllocationResources(d: Daemon, ctrl: string, inst: string) returns (ok: bool, any: bool)
    modifies d`faults
    ensures ok ==> (any <==> AnyUnder(d.View(), ctrl, inst))
    ensures old(d.faults) == [] ==> d.faults == [] && ok
  {
    var f := InstanceScopedFilter(ctrl, inst);
    var conts, nets, vols, c, n, v;
    ok, conts := d.ContainerList(f);
    if !ok { return false, false; }
    c := AnyOwned(conts, LabelsOfContainers(d.containers), ctrl, inst);
    if c { ContainerUnder(d.View(), ctrl, inst); return true, true; }
    ok, nets := d.NetworkList(f);
    if !ok { return false, false; }
    n := AnyOwned(nets, LabelsOfNetworks(d.networks), ctrl, inst);
    if n { NetworkUnder(d.View(), ctrl, inst); return true, true; }
    ok, vols := d.VolumeList(f);
    if !ok { return false, false; }
    v := AnyOwned(vols, d.volumes, ctrl, inst);
    AnyOf(d.View(), ctrl, inst, c, n, v);
    any := v;
  }

  lemma ContainerUnder(w: World, ctrl: string, inst: string)
    requires exists id :: id in LabelsOfContainers(w.containers) && Under(LabelsOfContainers(w.containers)[id], ctrl, inst)
    ensures AnyUnder(w, ctrl, inst)
  {
  }

  lemma NetworkUnder(w: World, ctrl: string, inst: string)
    requires exists id :: id in LabelsOfNetworks(w.networks) && Under(LabelsOfNetworks(w.networks)[id], ctrl, inst)
    ensures AnyUnder(w, ctrl, inst)
  {
  }

  /** resolveInstanceName. */
  method ResolveInstanceName(d: Daemon, ctrl: string, inst: string) returns (ok: bool, found: bool, name: string)
    modifies d`faults
    ensures ok ==> name == inst && (found <==> AnyUnder(d.View(), ctrl, inst))
    ensures old(d.faults) == [] ==> d.faults == [] && ok
  {
    var l;
    ok, found, l := ResolveByOwnedLabel(d, ctrl, inst);
    if !ok { return false, false, inst; }
    if found {
      MatchesInstance(ctrl, inst, l);
      name := Get(l, InstanceName);
      if name == "" { name := inst; }
      return true, true, name;
    }
    ok, found := HasManagedAllocationResources(d, ctrl, inst);
    name := inst;
  }

  /** Not-found means that nothing of this controller was there; with no faulty call it is returned exactly
      then. Deleted means that something was, and that all of the claimed generation is gone, or everything
      if there was no claim. */
  method DeleteInstance(d: Daemon, ctrl: string, inst: string)
    returns (r: Deletion, ghost captured: map<string, string>)
    modifies d
    ensures Within(old(d.View()), d.View(), InstanceScope(ctrl, inst))
    ensures r.NotFoundError? && inst != "" ==> !AnyUnder(old(d.View()), ctrl, inst) && d.View() == old(d.View())
    ensures r.Deleted? && inst != "" ==>
              && AnyUnder(old(d.View()), ctrl, inst)
              && CapturedUnder(old(d.View()), ctrl, inst, captured)
              && d.View() == Purge(old(d.View()), GenerationScope(ctrl, inst, captured))
    ensures old(d.faults) == [] && inst != "" ==> (r.NotFoundError? <==> !AnyUnder(old(d.View()), ctrl, inst))
    ensures old(d.faults) == [] && inst != "" && LetGo(old(d.View()), ctrl, inst) ==>
              (r.Deleted? <==> AnyUnder(old(d.View()), ctrl, inst)) && !r.DeleteFailed?
  {
    captured := map[];
    var ok, found, name := ResolveInstanceName(d, ctrl, inst);
    if !ok { return DeleteFailed, captured; }
    if !found { return NotFoundError, captured; }
    var torn, errs;
    torn, errs, captured := TeardownAllocation(d, ctrl, name);
    if errs != [] { return DeleteFailed, captured; }
    r := if torn then Deleted else NotFoundError;
  }
}
