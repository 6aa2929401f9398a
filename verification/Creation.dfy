/** CreateInstance against one daemon: the claim, the guarded build and the rollback
    (internal/provider/create.go, internal/topology/create.go, internal/provider/runner_start.go,
    internal/provider/dind.go, internal/provider/externals.go, internal/provider/gc.go). */
module Creation {
  import opened LabelSpec
  import opened Names
  import opened Docker
  import opened DaemonCalls
  import opened TeardownScope
  import opened Teardown
  import opened Deletion
  import opened CacheSlots

  datatype Attempt = Attempt(ident: AllocationIdentity, nonce: string)

  // ---------------------------------------------------------------- what an attempt may add

  /** A job-scoped resource of this very attempt. */
  predicate IsOwn(a: Attempt, l: Labels) {
    Under(l, a.ident.ctrl, a.ident.inst) && CreateNonce in l && l[CreateNonce] == a.nonce
  }

  lemma AttemptReach(a: Attempt, l: Labels)
    ensures InScope(AttemptScope(a.ident.ctrl, a.ident.inst, a.nonce), l) <==> IsOwn(a, l)
  {
    MatchesInstanceNonce(a.ident.ctrl, a.ident.inst, a.nonce, l);
  }

  lemma BuilderLabelsAreOwn(a: Attempt, kind: string, at: string)
    ensures IsOwn(a, ResourceLabels(a.ident, kind, at, a.nonce))
    ensures IsOwn(a, ContainerLabels(a.ident, kind, at, a.nonce))
  {
    MatchesInstance(a.ident.ctrl, a.ident.inst, ResourceLabels(a.ident, kind, at, a.nonce));
    MatchesInstance(a.ident.ctrl, a.ident.inst, ContainerLabels(a.ident, kind, at, a.nonce));
  }

  /** The nonce was drawn at random: nothing carries it and no volume has a name it will use. */
  predicate Fresh(w: World, a: Attempt) {
    && (forall id :: id in w.containers ==> Get(w.containers[id].labels, CreateNonce) != a.nonce)
    && (forall id :: id in w.networks ==> Get(w.networks[id].labels, CreateNonce) != a.nonce)
    && (forall v :: v in w.volumes ==> Get(w.volumes[v], CreateNonce) != a.nonce && v !in SidecarVolumes(a.ident.inst, a.nonce))
  }

  ghost predicate Bounded(w: World) {
    && (forall id :: id in w.containers ==> id < w.nextId)
    && (forall id :: id in w.networks ==> id < w.nextId)
  }

  ghost predicate VolumesKept(v: map<string, Labels>, v': map<string, Labels>) {
    forall x :: x in v ==> x in v' && v'[x] == v[x]
  }

  /** Since w0 nothing was lost or changed, and what is new is the attempt's own, a cache volume, or the one
      container `leak` names, which is there and is one of the controller's cache helpers. */
  ghost predicate Grown(w0: World, w: World, a: Attempt, leak: Option<nat>) {
    && w0.nextId <= w.nextId && Bounded(w)
    && (forall id :: id in w0.containers ==> id in w.containers && w.containers[id] == w0.containers[id])
    && (forall id :: id in w.containers && id !in w0.containers ==>
          w0.nextId <= id && (leak == Some(id) || IsOwn(a, w.containers[id].labels)))
    && Left(w0, w, a.ident.ctrl, leak)
    && (forall id :: id in w0.networks ==> id in w.networks && w.networks[id] == w0.networks[id])
    && (forall id :: id in w.networks && id !in w0.networks ==> IsOwn(a, w.networks[id].labels))
    && VolumesKept(w0.volumes, w.volumes)
    && (forall v :: v in w.volumes && v !in w0.volumes ==> IsOwn(a, w.volumes[v]) || IsCache(w.volumes[v]))
  }

  /** The helper left behind, if any, is new, is the controller's, and holds on to cache volumes alone. */
  ghost predicate Left(w0: World, w: World, ctrl: string, leak: Option<nat>) {
    leak.Some? ==>
      && leak.value !in w0.containers && w0.nextId <= leak.value
      && leak.value in w.containers && IsOwnHelper(w.containers[leak.value].labels, ctrl, RoleCacheHelper)
      && w.containers[leak.value].net == Detached
      && forall v :: v in w.containers[leak.value].mounts ==> v in w.volumes && IsCache(w.volumes[v])
  }

  /** All-or-nothing: apart from added cache volumes and the one helper `leak` names, w is what w0 was. */
  ghost predicate Restored(w0: World, w: World, ctrl: string, leak: Option<nat>) {
    && w.networks == w0.networks
    && (forall id :: id in w0.containers ==> id in w.containers && w.containers[id] == w0.containers[id])
    && (forall id :: id in w.containers && id !in w0.containers ==> leak == Some(id))
    && Left(w0, w, ctrl, leak)
    && VolumesKept(w0.volumes, w.volumes)
    && (forall v :: v in w.volumes && v !in w0.volumes ==> IsCache(w.volumes[v]))
  }

  /** An error-free rollback takes away exactly what the attempt added. */
  lemma RollbackRestores(w0: World, w: World, a: Attempt, leak: Option<nat>)
    requires Grown(w0, w, a, leak) && Fresh(w0, a)
    ensures Restored(w0, Purge(w, AttemptScope(a.ident.ctrl, a.ident.inst, a.nonce)), a.ident.ctrl, leak)
  {
    var sc := AttemptScope(a.ident.ctrl, a.ident.inst, a.nonce);
    forall l ensures InScope(sc, l) <==> IsOwn(a, l) { AttemptReach(a, l); }
    var w' := Purge(w, sc);
    assert w'.networks == w0.networks;
    forall v | v in w'.volumes && v !in w0.volumes ensures IsCache(w'.volumes[v]) { assert v in w.volumes; }
  }

  /** The job-scoped resources of every controller, by kind. */
  ghost function JobContainers(w: World): map<nat, Container> {
    map id | id in w.containers && IsJob(w.containers[id].labels) :: w.containers[id]
  }

  ghost function JobVolumesOf(w: World): map<string, Labels> {
    map v | v in w.volumes && IsJob(w.volumes[v]) :: w.volumes[v]
  }

  /** In particular the job-scoped resources are those of before the claim. */
  lemma RestoredJobs(w0: World, w: World, ctrl: string, leak: Option<nat>)
    requires Restored(w0, w, ctrl, leak)
    ensures JobContainers(w) == JobContainers(w0) && w.networks == w0.networks && JobVolumesOf(w) == JobVolumesOf(w0)
    ensures leak.None? ==> w.containers == w0.containers
    ensures leak.Some? ==> w.containers - {leak.value} == w0.containers
  {
  }

  // ---------------------------------------------------------------- growth, call by call

  lemma NetworkGrows(w0: World, w: World, a: Attempt, leak: Option<nat>, name: string, l: Labels)
    requires Grown(w0, w, a, leak) && Bounded(w0) && IsOwn(a, l)
    ensures Grown(w0, AddNetwork(w, name, l), a, leak)
  {
  }

  lemma ContainerGrows(w0: World, w: World, a: Attempt, leak: Option<nat>, name: string, l: Labels, mounts: set<string>,
                       net: NetMode)
    requires Grown(w0, w, a, leak) && Bounded(w0) && mounts <= w.volumes.Keys
    requires IsOwn(a, l)
    ensures Grown(w0, AddContainer(w, name, l, mounts, net), a, leak)
    ensures AddContainer(w, name, l, mounts, net).volumes == w.volumes
  {
    assert AutoCreated(w, mounts) == map[];
  }

  lemma StateGrows(w0: World, w: World, a: Attempt, leak: Option<nat>, id: nat, st: RunState)
    requires Grown(w0, w, a, leak) && Bounded(w0) && id in w.containers && w0.nextId <= id
    ensures Grown(w0, SetState(w, id, st), a, leak)
  {
  }

  lemma DropGrows(w0: World, w: World, a: Attempt, leak: Option<nat>, id: nat)
    requires Grown(w0, w, a, leak) && Bounded(w0) && w0.nextId <= id && leak != Some(id)
    ensures Grown(w0, DropContainer(w, id), a, leak)
  {
  }

  // ---------------------------------------------------------------- the claim

  datatype Claim = Claimed(id: nat) | Duplicate | ForeignName | Unclassified | ClaimFailed(cleanup: seq<Failure>)

  /** A managed job network of this controller and instance holds the name. */
  predicate OwnClaimHolds(w: World, ident: AllocationIdentity) {
    exists id :: id in w.networks && w.networks[id].name == JobNetworkName(ident.inst) && IsClaim(w.networks[id].labels, ident.ctrl, ident.inst)
  }

  method ExistingClaimIsOurs(d: Daemon, ctrl: string, inst: string) returns (ok: bool, ours: bool)
    modifies d`faults
    ensures ok ==> (ours <==> exists id :: id in d.networks && d.networks[id].name == JobNetworkName(inst) && IsClaim(d.networks[id].labels, ctrl, inst))
    ensures d.faults == Rest(old(d.faults)) && (ok <==> Head(old(d.faults)) == Fine)
  {
    var list;
    ok, list := d.NetworkList(ClaimFilter(ctrl, inst));
    if !ok { return false, false; }
    for i := 0 to |list|
      modifies {}
      invariant forall j :: 0 <= j < i ==> !(d.networks[list[j].key].name == JobNetworkName(inst) && MatchesPredicate(list[j].labels, ctrl))
    {
      if d.networks[list[i].key].name == JobNetworkName(inst) && MatchesPredicate(list[i].labels, ctrl) {
        assert IsClaim(d.networks[list[i].key].labels, ctrl, inst);
        return true, true;
      }
    }
    forall id | id in d.networks ensures !(d.networks[id].name == JobNetworkName(inst) && IsClaim(d.networks[id].labels, ctrl, inst)) {
      if IsClaim(d.networks[id].labels, ctrl, inst) { assert Lists(list, id); }
    }
    return true, false;
  }

  /** Only networks that carry the nonce went. */
  ghost predicate NonceDropped(n: map<nat, Network>, n': map<nat, Network>, ctrl: string, nonce: string) {
    && (forall id :: id in n' ==> id in n && n'[id] == n[id])
    && (forall id :: id in n && id !in n' ==> Matches(NonceFilter(ctrl, nonce), n[id].labels))
  }

  lemma FreeIfUnattached(w: World, name: string)
    ensures Unattached(w.containers, name) <==> !NetworkInUse(w, name)
  {
  }

  /** No container is attached to a network with the nonce. */
  ghost predicate NonceUnused(conts: map<nat, Container>, nets: map<nat, Network>, ctrl: string, nonce: string) {
    forall id :: id in nets && Matches(NonceFilter(ctrl, nonce), nets[id].labels) ==> Unattached(conts, nets[id].name)
  }

  /** One entry of its loop: it carries the nonce, so it goes unless its removal fails. */
  method RemoveListedOwn(d: Daemon, ctrl: string, nonce: string, x: Listed<nat>) returns (errs: seq<Failure>)
    requires Matches(NonceFilter(ctrl, nonce), x.labels) && (x.key in d.networks ==> d.networks[x.key].labels == x.labels)
    modifies d`faults, d`networks, d`removed
    ensures d.networks == old(d.networks) || d.networks == old(d.networks) - {x.key}
    ensures errs == [] ==> x.key !in d.networks
    ensures old(d.faults) == [] && NonceUnused(d.containers, old(d.networks), ctrl, nonce) ==> errs == [] && d.faults == []
  {
    errs := [];
    MatchesNonce(ctrl, nonce, x.labels);
    if x.key in d.networks { FreeIfUnattached(d.View(), d.networks[x.key].name); }
    if Get(x.labels, CreateNonce) == nonce {
      var o := d.NetworkRemove(x.key);
      if !o.Ok? && !o.NotFound? { errs := [RemoveFailed]; }
    }
  }

  /** The loop after n entries. */
  ghost predicate DroppedSoFar(nets: map<nat, Network>, now: map<nat, Network>, list: seq<Listed<nat>>, n: nat, ctrl: string, nonce: string,
                               errs: seq<Failure>)
    requires n <= |list|
  {
    NonceDropped(nets, now, ctrl, nonce) && (errs == [] ==> forall j :: 0 <= j < n ==> list[j].key !in now)
  }

  lemma DroppedStep(nets: map<nat, Network>, was: map<nat, Network>, now: map<nat, Network>, list: seq<Listed<nat>>, n: nat,
                    ctrl: string, nonce: string, errs: seq<Failure>, es: seq<Failure>)
    requires IsListing(list, LabelsOfNetworks(nets), NonceFilter(ctrl, nonce)) && n < |list|
    requires DroppedSoFar(nets, was, list, n, ctrl, nonce, errs)
    requires now == was || now == was - {list[n].key}
    requires es == [] ==> list[n].key !in now
    ensures DroppedSoFar(nets, now, list, n + 1, ctrl, nonce, errs + es)
  {
    hide Matches;
  }

  lemma DroppedAll(nets: map<nat, Network>, now: map<nat, Network>, list: seq<Listed<nat>>, ctrl: string, nonce: string)
    requires IsListing(list, LabelsOfNetworks(nets), NonceFilter(ctrl, nonce))
    requires DroppedSoFar(nets, now, list, |list|, ctrl, nonce, [])
    ensures forall id :: id in now ==> !Matches(NonceFilter(ctrl, nonce), now[id].labels)
  {
    forall id | id in now ensures !Matches(NonceFilter(ctrl, nonce), now[id].labels) {
      ListedIf(list, LabelsOfNetworks(nets), NonceFilter(ctrl, nonce), id);
    }
  }

  lemma FewerUnused(conts: map<nat, Container>, nets: map<nat, Network>, now: map<nat, Network>, ctrl: string, nonce: string)
    requires NonceUnused(conts, nets, ctrl, nonce) && forall id :: id in now ==> id in nets && now[id] == nets[id]
    ensures NonceUnused(conts, now, ctrl, nonce)
  {
  }

  /** bestEffortRemoveOwnNetwork. */
  method RemoveOwnNetwork(d: Daemon, ctrl: string, nonce: string) returns (errs: seq<Failure>)
    modifies d`faults, d`networks, d`removed
    ensures NonceDropped(old(d.networks), d.networks, ctrl, nonce)
    ensures errs == [] ==> forall id :: id in d.networks ==> !Matches(NonceFilter(ctrl, nonce), d.networks[id].labels)
    ensures old(d.faults) == [] && NonceUnused(d.containers, old(d.networks), ctrl, nonce) ==> errs == []
  {
    hide Matches, NonceUnused, IsListing;
    ghost var nets, calm := d.networks, d.faults == [] && NonceUnused(d.containers, d.networks, ctrl, nonce);
    var ok, list := d.NetworkList(NonceFilter(ctrl, nonce));
    if !ok { return [ListFailed]; }
    errs := [];
    for i := 0 to |list|
      invariant DroppedSoFar(nets, d.networks, list, i, ctrl, nonce, errs)
      invariant calm ==> d.faults == [] && errs == []
    {
      ghost var was := d.networks;
      ListedLabels(list, nets, NonceFilter(ctrl, nonce), i);
      if calm { FewerUnused(d.containers, nets, d.networks, ctrl, nonce); }
      var es := RemoveListedOwn(d, ctrl, nonce, list[i]);
      DroppedStep(nets, was, d.networks, list, i, ctrl, nonce, errs, es);
      errs := errs + es;
    }
    if errs == [] { DroppedAll(nets, d.networks, list, ctrl, nonce); }
  }

  lemma ListedLabels(list: seq<Listed<nat>>, nets: map<nat, Network>, f: Filter, i: nat)
    requires IsListing(list, LabelsOfNetworks(nets), f) && i < |list|
    ensures Matches(f, list[i].labels) && list[i].key in nets && nets[list[i].key].labels == list[i].labels
  {
  }

  /** The claim either takes the name, or leaves the daemon as it was unless its cleanup reports an error.
      With no faulty call it reports a duplicate exactly when a managed job network of this controller and
      instance holds the name. */
  method CreateClaimNetwork(d: Daemon, a: Attempt, at: string) returns (r: Claim)
    requires Bounded(d.View()) && Fresh(d.View(), a)
    modifies d`faults, d`networks, d`nextId, d`removed
    ensures r.Claimed? ==> !old(NetworkNameTaken(d.View(), JobNetworkName(a.ident.inst)))
                           && d.View() == old(AddNetwork(d.View(), JobNetworkName(a.ident.inst), ResourceLabels(a.ident, ResourceJobNetwork, at, a.nonce)))
    ensures r.Duplicate? || r.ForeignName? || r.Unclassified? ==> d.View() == old(d.View()) && NetworkNameTaken(d.View(), JobNetworkName(a.ident.inst))
    ensures r.Duplicate? ==> OwnClaimHolds(d.View(), a.ident)
    ensures r.ForeignName? ==> !OwnClaimHolds(d.View(), a.ident)
    ensures r == ClaimFailed([]) ==> d.networks == old(d.networks)
    ensures r.ClaimFailed? ==> Grown(old(d.View()), d.View(), a, None)
    ensures Head(old(d.faults)) == Fine ==> !r.ClaimFailed?
    ensures r.Claimed? <==> Head(old(d.faults)) == Fine && !old(NetworkNameTaken(d.View(), JobNetworkName(a.ident.inst)))
    ensures r.Claimed? ==> d.faults == Rest(old(d.faults))
    ensures !Head(old(d.faults)).Reject? && old(NetworkNameTaken(d.View(), JobNetworkName(a.ident.inst))) && Head(Rest(old(d.faults))) == Fine ==>
              r == if OwnClaimHolds(old(d.View()), a.ident) then Duplicate else ForeignName
    ensures (&& r.ClaimFailed? && old(d.faults) == [Head(old(d.faults))]
             && Unattached(d.containers, JobNetworkName(a.ident.inst))) ==> r == ClaimFailed([])
    ensures old(d.faults) == [] ==> d.faults == [] && !r.Unclassified? && !r.ClaimFailed?
                                    && (r.Duplicate? <==> OwnClaimHolds(old(d.View()), a.ident))
                                    && (r.Claimed? <==> !old(NetworkNameTaken(d.View(), JobNetworkName(a.ident.inst))))
  {
    ghost var w := d.View();
    var l := ResourceLabels(a.ident, ResourceJobNetwork, at, a.nonce);
    BuilderLabelsAreOwn(a, ResourceJobNetwork, at);
    NetworkGrows(w, w, a, None, JobNetworkName(a.ident.inst), l);
    var o, id := d.NetworkCreate(JobNetworkName(a.ident.inst), l);
    if o.Ok? { return Claimed(id); }
    if o.Conflict? {
      var ok, ours := ExistingClaimIsOurs(d, a.ident.ctrl, a.ident.inst);
      if !ok { return Unclassified; }
      return if ours then Duplicate else ForeignName;
    }
    var errs := CleanClaim(d, a, w);
    r := ClaimFailed(errs);
  }

  /** No container is attached to a network made since. */
  ghost predicate OwnUnused(w0: World, w: World) {
    forall id :: id in w.networks && id !in w0.networks ==> Unattached(w.containers, w.networks[id].name)
  }

  /** The cleanup of an ambiguous claim. */
  method CleanClaim(d: Daemon, a: Attempt, ghost w0: World) returns (errs: seq<Failure>)
    requires Bounded(w0) && Fresh(w0, a) && Grown(w0, d.View(), a, None)
    requires d.containers == w0.containers && d.volumes == w0.volumes
    modifies d`faults, d`networks, d`removed
    ensures errs == [] ==> d.networks == w0.networks
    ensures old(d.faults) == [] && OwnUnused(w0, old(d.View())) ==> errs == []
    ensures Grown(w0, d.View(), a, None)
  {
    ghost var nets := d.networks;
    forall id | id in nets
      ensures id in w0.networks ==> !Matches(NonceFilter(a.ident.ctrl, a.nonce), nets[id].labels)
      ensures id !in w0.networks ==> Matches(NonceFilter(a.ident.ctrl, a.nonce), nets[id].labels)
    {
      MatchesNonce(a.ident.ctrl, a.nonce, nets[id].labels);
      MatchesInstance(a.ident.ctrl, a.ident.inst, nets[id].labels);
    }
    errs := RemoveOwnNetwork(d, a.ident.ctrl, a.nonce);
    if errs == [] { assert d.networks == w0.networks; }
  }
}
