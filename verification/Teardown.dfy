/** Teardown of an allocation, a creation attempt or everything, against one daemon
    (internal/topology/teardown.go). */
module Teardown {
  import opened LabelSpec
  import opened Docker
  import opened DaemonCalls
  import opened TeardownScope

  datatype Scope = Scope(ctrl: string, filter: Filter, mode: Mode)

  datatype Failure = ListFailed | ClaimReadFailed | RemoveFailed

  /** What a teardown of this scope is to remove, while no generation has claimed a name since. */
  predicate InScope(sc: Scope, l: Labels) {
    Matches(sc.filter, l) && MayRemove(sc.mode, sc.ctrl, l, None)
  }

  function Purge(w: World, sc: Scope): World {
    w.(containers := map id | id in w.containers && !InScope(sc, w.containers[id].labels) :: w.containers[id],
       networks := map id | id in w.networks && !InScope(sc, w.networks[id].labels) :: w.networks[id],
       volumes := map v | v in w.volumes && !InScope(sc, w.volumes[v]) :: w.volumes[v])
  }

  ghost predicate AnyInScope(w: World, sc: Scope) {
    || (exists id :: id in w.containers && InScope(sc, w.containers[id].labels))
    || (exists id :: id in w.networks && InScope(sc, w.networks[id].labels))
    || (exists v :: v in w.volumes && InScope(sc, w.volumes[v]))
  }

  /** No instance the captured map leaves out has a live claim. */
  ghost predicate Settled(nets: map<nat, Network>, sc: Scope) {
    sc.mode.Captured? ==>
      forall l: Labels, id :: Matches(sc.filter, l) && MatchesPredicate(l, sc.ctrl) && l[InstanceName] !in sc.mode.captured && id in nets ==>
                                !IsClaim(nets[id].labels, sc.ctrl, l[InstanceName])
  }

  /** This generation holds the claim of its name right now, alone, and the captured map leaves the name out: a
      teardown begun before the claim was made. */
  ghost predicate Protected(nets: map<nat, Network>, sc: Scope, l: Labels) {
    && sc.mode.Captured? && MatchesPredicate(l, sc.ctrl) && l[InstanceName] !in sc.mode.captured && Get(l, CreateNonce) != ""
    && (exists id :: id in nets && ClaimsWith(nets[id].labels, sc.ctrl, l[InstanceName], Get(l, CreateNonce)))
    && (forall id :: id in nets && IsClaim(nets[id].labels, sc.ctrl, l[InstanceName]) ==>
          Get(nets[id].labels, CreateNonce) == Get(l, CreateNonce))
  }

  ghost predicate ContainersSpared(c: map<nat, Container>, c': map<nat, Container>, nets: map<nat, Network>, sc: Scope) {
    forall id :: id in c && Protected(nets, sc, c[id].labels) ==> id in c' && c'[id] == c[id]
  }

  ghost predicate VolumesSpared(v: map<string, Labels>, v': map<string, Labels>, nets: map<nat, Network>, sc: Scope) {
    forall x :: x in v && Protected(nets, sc, v[x]) ==> x in v' && v'[x] == v[x]
  }

  ghost predicate NetworksSpared(n: map<nat, Network>, n': map<nat, Network>, sc: Scope) {
    forall id :: id in n && Protected(n, sc, n[id].labels) ==> id in n' && n'[id] == n[id]
  }

  /** No container, volume or network of a protected generation is removed, stopped or changed. */
  ghost predicate Spared(w: World, w': World, sc: Scope) {
    && ContainersSpared(w.containers, w'.containers, w.networks, sc)
    && VolumesSpared(w.volumes, w'.volumes, w.networks, sc)
    && NetworksSpared(w.networks, w'.networks, sc)
  }

  predicate Unmounted(conts: map<nat, Container>, v: string) {
    forall id :: id in conts ==> v !in conts[id].mounts
  }

  predicate Unattached(conts: map<nat, Container>, name: string) {
    forall id :: id in conts ==> conts[id].net != OnNetwork(name)
  }

  /** No container uses a volume of the scope. */
  ghost predicate VolumesFree(conts: map<nat, Container>, vols: map<string, Labels>, sc: Scope) {
    forall v :: v in vols && InScope(sc, vols[v]) ==> Unmounted(conts, v)
  }

  /** No container is attached to a network of the scope. */
  ghost predicate NetworksFree(conts: map<nat, Container>, nets: map<nat, Network>, sc: Scope) {
    forall n :: n in nets && InScope(sc, nets[n].labels) ==> Unattached(conts, nets[n].name)
  }

  // ---------------------------------------------------------------- what may change

  /** One kind of resource before and after: only resources in scope are gone. Without an error, and with no
      claim made since, all of them are, and `found` says whether there were any. */
  ghost predicate Swept<K(!new)>(labelled: map<K, Labels>, now: set<K>, sc: Scope, found: bool, errs: seq<Failure>, settled: bool) {
    && now <= labelled.Keys
    && (forall k :: k in labelled && k !in now ==> InScope(sc, labelled[k]))
    && (errs == [] && settled ==>
          && (forall k :: k in now ==> !InScope(sc, labelled[k]))
          && (found <==> exists k :: k in labelled && InScope(sc, labelled[k])))
  }

  /** A container that stays is as it was, or is in scope and perhaps stopped. */
  ghost predicate AtMostStopped(c: map<nat, Container>, c': map<nat, Container>, sc: Scope) {
    forall id :: id in c' ==> id in c && (c'[id] == c[id] || (InScope(sc, c[id].labels) && c'[id] == c[id].(state := Exited)))
  }

  /** Nothing outside the scope is touched, and nothing is created. */
  ghost predicate Within(w: World, w': World, sc: Scope) {
    && AtMostStopped(w.containers, w'.containers, sc)
    && (forall id :: id in w.containers && id !in w'.containers ==> InScope(sc, w.containers[id].labels))
    && (forall id :: id in w'.networks ==> id in w.networks && w'.networks[id] == w.networks[id])
    && (forall id :: id in w.networks && id !in w'.networks ==> InScope(sc, w.networks[id].labels))
    && (forall v :: v in w'.volumes ==> v in w.volumes && w'.volumes[v] == w.volumes[v])
    && (forall v :: v in w.volumes && v !in w'.volumes ==> InScope(sc, w.volumes[v]))
    && w'.nextId == w.nextId
  }

  // ---------------------------------------------------------------- removal order

  function RoleRank(l: Labels): nat {
    if Get(l, Role) == RoleRunner then 0 else if Get(l, Role) == RoleDind then 1 else 2
  }

  /** Runner, sidecar, any other container, volumes, networks. */
  function Rank(r: Removal): nat {
    match r
    case ContainerGone(l, _) => RoleRank(l)
    case VolumeGone(_) => 3
    case NetworkGone(_) => 4
  }

  ghost predicate Ordered(r: seq<Removal>) {
    forall i, j :: 0 <= i < j < |r| ==> Rank(r[i]) <= Rank(r[j])
  }

  /** The removals since `base` come in rank order, each of a rank from lo to hi, and every container was asked to
      stop before it went. */
  ghost predicate Removes(base: seq<Removal>, now: seq<Removal>, lo: nat, hi: nat) {
    && |base| <= |now| && now[..|base|] == base
    && Ordered(now[|base|..])
    && (forall i :: |base| <= i < |now| ==> lo <= Rank(now[i]) <= hi)
    && (forall i :: |base| <= i < |now| ==> Asked(now[i]))
  }

  predicate Asked(r: Removal) {
    r.ContainerGone? ==> r.asked
  }

  predicate IsRole(r: Removal, role: string) {
    r.ContainerGone? && Get(r.labels, Role) == role
  }

  /** Nothing comes after something it must precede: a runner goes before a sidecar, a sidecar before any other
      container, containers before volumes, and volumes before networks. */
  ghost predicate InOrder(r: seq<Removal>) {
    forall i, j :: 0 <= i < j < |r| ==>
      && (r[i].NetworkGone? ==> r[j].NetworkGone?)
      && (r[i].VolumeGone? ==> !r[j].ContainerGone?)
      && (IsRole(r[j], RoleRunner) ==> IsRole(r[i], RoleRunner))
      && (IsRole(r[j], RoleDind) ==> IsRole(r[i], RoleRunner) || IsRole(r[i], RoleDind))
  }

  /** What the ranks say. */
  lemma OrderedIsInOrder(base: seq<Removal>, now: seq<Removal>, lo: nat, hi: nat)
    requires Removes(base, now, lo, hi)
    ensures |base| <= |now| && InOrder(now[|base|..])
  {
    RolesDiffer();
  }

  lemma RolesDiffer()
    ensures RoleRunner != RoleDind
  {
    assert RoleRunner[0] == 'r' && RoleDind[0] == 'd';
  }

  lemma RemovesChain(a: seq<Removal>, b: seq<Removal>, c: seq<Removal>, lo: nat, m: nat, n: nat, hi: nat)
    requires Removes(a, b, lo, m) && Removes(b, c, n, hi) && lo <= m <= n <= hi
    ensures Removes(a, c, lo, hi)
  {
    assert c[..|b|] == b && c[..|a|] == b[..|a|];
    forall i | |a| <= i < |c| ensures lo <= Rank(c[i]) <= hi && Asked(c[i]) {
      if i < |b| { assert c[i] == b[i]; }
    }
    forall i, j | 0 <= i < j < |c[|a|..]| ensures Rank(c[|a|..][i]) <= Rank(c[|a|..][j]) {
      if i + |a| < |b| {
        assert c[|a|..][i] == b[|a|..][i] == b[|a| + i];
        if j + |a| < |b| { assert c[|a|..][j] == b[|a|..][j]; }
      } else {
        assert c[|a|..][i] == c[|b|..][i + |a| - |b|] && c[|a|..][j] == c[|b|..][j + |a| - |b|];
      }
    }
  }

  function WithRank(list: seq<Listed<nat>>, k: nat): (r: seq<Listed<nat>>)
    ensures forall x :: x in r <==> x in list && RoleRank(x.labels) == k
    ensures Distinct(list) ==> Distinct(r)
  {
    if list == [] then []
    else (if RoleRank(list[0].labels) == k then [list[0]] else []) + WithRank(list[1..], k)
  }

  ghost predicate Distinct(list: seq<Listed<nat>>) {
    forall i, j :: 0 <= i < j < |list| ==> list[i].key != list[j].key
  }

  /** A stable sort by role: runner, sidecar, anything else. */
  function ByRole(list: seq<Listed<nat>>): seq<Listed<nat>> {
    WithRank(list, 0) + WithRank(list, 1) + WithRank(list, 2)
  }

  ghost predicate RankSorted(list: seq<Listed<nat>>) {
    forall i, j :: 0 <= i < j < |list| ==> RoleRank(list[i].labels) <= RoleRank(list[j].labels)
  }

  lemma Join(list: seq<Listed<nat>>, a: seq<Listed<nat>>, b: seq<Listed<nat>>, k: nat)
    requires Distinct(list) && Distinct(a) && Distinct(b) && RankSorted(a) && RankSorted(b)
    requires forall x :: x in a ==> x in list && RoleRank(x.labels) <= k
    requires forall x :: x in b ==> x in list && RoleRank(x.labels) > k
    ensures Distinct(a + b) && RankSorted(a + b)
  {
    var c := a + b;
    forall i, j | 0 <= i < j < |c|
      ensures c[i].key != c[j].key && RoleRank(c[i].labels) <= RoleRank(c[j].labels)
    {
      if i < |a| <= j {
        assert c[i] == a[i] && c[j] == b[j - |a|] && a[i] in a && b[j - |a|] in b;
        var x :| 0 <= x < |list| && list[x] == a[i];
        var y :| 0 <= y < |list| && list[y] == b[j - |a|];
      }
    }
  }

  lemma ByRoleSorts(list: seq<Listed<nat>>)
    requires Distinct(list)
    ensures Distinct(ByRole(list)) && RankSorted(ByRole(list))
    ensures forall x :: x in ByRole(list) <==> x in list
  {
    var r0, r1, r2 := WithRank(list, 0), WithRank(list, 1), WithRank(list, 2);
    Join(list, r0, r1, 0);
    Join(list, r0 + r1, r2, 1);
    forall x | x in list ensures x in r0 + r1 + r2 {
      assert RoleRank(x.labels) == 0 || RoleRank(x.labels) == 1 || RoleRank(x.labels) == 2;
    }
  }

  /** The highest rank the daemon can have recorded after n entries of a sorted list. */
  function RankBefore(list: seq<Listed<nat>>, n: nat): nat
    requires n <= |list|
  {
    if n == 0 then 0 else RoleRank(list[n - 1].labels)
  }

  /** Sorted, from one entry to the next. */
  ghost predicate StepSorted(list: seq<Listed<nat>>) {
    forall n :: 0 <= n < |list| ==> RankBefore(list, n) <= RoleRank(list[n].labels)
  }

  lemma SortedListing(list: seq<Listed<nat>>, labelled: map<nat, Labels>, f: Filter)
    requires IsListing(list, labelled, f)
    ensures IsListing(ByRole(list), labelled, f) && StepSorted(ByRole(list))
  {
    var r := ByRole(list);
    ByRoleSorts(list);
    forall i | 0 <= i < |r| ensures r[i].key in labelled && r[i].labels == labelled[r[i].key] && Matches(f, r[i].labels) {
      assert r[i] in r;
    }
    forall k | k in labelled && Matches(f, labelled[k]) ensures Lists(r, k) {
      assert Lists(list, k);
      var i :| 0 <= i < |list| && list[i].key == k;
      assert list[i] in r;
    }
  }

  // ---------------------------------------------------------------- the claim

  lemma NoClaimListed(w: World, ctrl: string, inst: string, list: seq<Listed<nat>>)
    requires IsListing(list, LabelsOfNetworks(w.networks), ClaimFilter(ctrl, inst))
    requires forall j :: 0 <= j < |list| ==> !IsClaim(list[j].labels, ctrl, inst)
    ensures LiveRead(w, ctrl, inst, None)
  {
    forall id | id in w.networks ensures !IsClaim(w.networks[id].labels, ctrl, inst) {
      if Matches(ClaimFilter(ctrl, inst), w.networks[id].labels) {
        assert id in LabelsOfNetworks(w.networks) && Lists(list, id);
      }
    }
  }

  lemma ListedClaim(l: Labels, ctrl: string, inst: string)
    requires Matches(ClaimFilter(ctrl, inst), l)
    ensures IsClaim(l, ctrl, inst) <==> MatchesPredicate(l, ctrl) && Get(l, Resource) == ResourceJobNetwork
  {
    MatchesClaim(ctrl, inst, l);
  }

  lemma SomeClaimListed(w: World, ctrl: string, inst: string, id: nat)
    requires id in w.networks && IsClaim(w.networks[id].labels, ctrl, inst)
    ensures LiveRead(w, ctrl, inst, Some(Get(w.networks[id].labels, CreateNonce)))
  {
    assert ClaimsWith(w.networks[id].labels, ctrl, inst, Get(w.networks[id].labels, CreateNonce));
  }

  /** liveClaimNonce. */
  method LiveClaimNonce(d: Daemon, ctrl: string, inst: string) returns (ok: bool, live: Option<string>)
    modifies d`faults
    ensures ok ==> LiveRead(d.View(), ctrl, inst, live)
    ensures d.faults == Rest(old(d.faults)) && (ok <==> Head(old(d.faults)) == Fine)
  {
    hide IsClaim, MatchesPredicate, Matches, ClaimFilter, LiveRead;
    var list;
    ok, list := d.NetworkList(ClaimFilter(ctrl, inst));
    live := None;
    if !ok { return; }
    for i := 0 to |list|
      modifies {}
      invariant forall j :: 0 <= j < i ==> !IsClaim(list[j].labels, ctrl, inst)
    {
      ListedClaim(list[i].labels, ctrl, inst);
      if MatchesPredicate(list[i].labels, ctrl) && Get(list[i].labels, Resource) == ResourceJobNetwork {
        SomeClaimListed(d.View(), ctrl, inst, list[i].key);
        return true, Some(Get(list[i].labels, CreateNonce));
      }
    }
    NoClaimListed(d.View(), ctrl, inst, list);
  }

  /** claimNoncesByInstance. */
  method ClaimNoncesByInstance(d: Daemon, ctrl: string, f: Filter) returns (ok: bool, captured: map<string, string>)
    modifies d`faults
    ensures ok ==> CapturedFrom(d.View(), ctrl, f, captured)
    ensures d.faults == Rest(old(d.faults)) && (ok <==> Head(old(d.faults)) == Fine)
  {
    var list;
    ok, list := d.NetworkList(f);
    captured := map[];
    if !ok { return; }
    ghost var w := d.View();
    for i := 0 to |list|
      modifies {}
      invariant forall j :: 0 <= j < i && CaptureMatches(list[j].labels, ctrl, f) ==> list[j].labels[InstanceName] in captured
      invariant forall inst :: inst in captured ==> HeldBy(w, ctrl, f, inst, captured[inst])
    {
      var l := list[i].labels;
      if MatchesPredicate(l, ctrl) && Get(l, Resource) == ResourceJobNetwork && l[InstanceName] != "" {
        assert Holds(w.networks[list[i].key].labels, ctrl, f, l[InstanceName], Get(l, CreateNonce));
        captured := captured[l[InstanceName] := Get(l, CreateNonce)];
      }
    }
    forall id | id in w.networks && CaptureMatches(w.networks[id].labels, ctrl, f) ensures w.networks[id].labels[InstanceName] in captured {
      assert Lists(list, id);
    }
  }

  /** The gate's answer when the live claim read answers `live`. */
  ghost predicate GateAnswers(w: World, sc: Scope, l: Labels, live: Option<string>, may: bool) {
    && (MatchesPredicate(l, sc.ctrl) ==> LiveRead(w, sc.ctrl, l[InstanceName], live))
    && (may <==> MayRemove(sc.mode, sc.ctrl, l, live))
  }

  /** Some read of the live claim is always possible. */
  lemma SomeLiveRead(w: World, ctrl: string, inst: string) returns (live: Option<string>)
    ensures LiveRead(w, ctrl, inst, live)
  {
    if id :| id in w.networks && IsClaim(w.networks[id].labels, ctrl, inst) {
      SomeClaimListed(w, ctrl, inst, id);
      live := Some(Get(w.networks[id].labels, CreateNonce));
    } else {
      live := None;
    }
  }

  lemma GateWithoutRead(w: World, sc: Scope, l: Labels, may: bool)
    requires MatchesPredicate(l, sc.ctrl) ==> !sc.mode.Captured? || l[InstanceName] in sc.mode.captured
    requires may <==> MayRemove(sc.mode, sc.ctrl, l, None)
    ensures exists live :: GateAnswers(w, sc, l, live, may)
  {
    if MatchesPredicate(l, sc.ctrl) {
      var live := SomeLiveRead(w, sc.ctrl, l[InstanceName]);
      assert GateAnswers(w, sc, l, live, may);
    } else {
      assert GateAnswers(w, sc, l, None, may);
    }
  }

  /** The live read shows a protected generation its own claim. */
  lemma GateProtects(w: World, sc: Scope, l: Labels, live: Option<string>, may: bool)
    requires GateAnswers(w, sc, l, live, may)
    ensures Protected(w.networks, sc, l) ==> !may
  {
    if Protected(w.networks, sc, l) && live.Some? {
      var id :| id in w.networks && ClaimsWith(w.networks[id].labels, sc.ctrl, l[InstanceName], live.value);
    }
  }

  /** mayRemove, which in generation mode may read the live claim. */
  method MayRemoveNow(d: Daemon, sc: Scope, l: Labels) returns (ok: bool, may: bool)
    requires Matches(sc.filter, l)
    modifies d`faults
    ensures ok ==> exists live :: GateAnswers(d.View(), sc, l, live, may)
    ensures ok && may ==> InScope(sc, l) && !Protected(d.networks, sc, l)
    ensures ok && Settled(d.networks, sc) ==> (may <==> InScope(sc, l))
    ensures Head(old(d.faults)) == Fine ==> ok
    ensures old(d.faults) == [] ==> d.faults == []
  {
    hide LiveRead, IsClaim, Protected, Matches;
    if !MatchesPredicate(l, sc.ctrl) {
      GateWithoutRead(d.View(), sc, l, false);
      NeverProtected(d.networks, sc, l);
      return true, false;
    }
    match sc.mode {
      case Exact(n) => may := Get(l, CreateNonce) == n;
      case Everything => may := true;
      case Captured(captured) =>
        var inst := l[InstanceName];
        if inst in captured {
          may := Get(l, CreateNonce) == captured[inst];
        } else {
          var live;
          ok, live := LiveClaimNonce(d, sc.ctrl, inst);
          may := ok && !(live.Some? && live.value != "" && Get(l, CreateNonce) == live.value);
          if ok {
            assert GateAnswers(d.View(), sc, l, live, may);
            GateProtects(d.View(), sc, l, live, may);
            if Settled(d.networks, sc) { LiveReadsNothing(d.View(), sc.ctrl, inst, live); }
          }
          return;
        }
    }
    ok := true;
    GateWithoutRead(d.View(), sc, l, may);
    NeverProtected(d.networks, sc, l);
  }

  lemma NeverProtected(nets: map<nat, Network>, sc: Scope, l: Labels)
    requires MatchesPredicate(l, sc.ctrl) ==> !sc.mode.Captured? || l[InstanceName] in sc.mode.captured
    ensures !Protected(nets, sc, l)
  {
  }

  lemma LiveReadsNothing(w: World, ctrl: string, inst: string, live: Option<string>)
    requires LiveRead(w, ctrl, inst, live) && forall id :: id in w.networks ==> !IsClaim(w.networks[id].labels, ctrl, inst)
    ensures live == None
  {
  }

  // ---------------------------------------------------------------- one entry after another

  /** The loop over a list of one kind of resource, after n entries; `quiet` when nothing can go wrong. */
  ghost predicate SoFar<K(!new)>(labelled: map<K, Labels>, now: set<K>, list: seq<Listed<K>>, n: nat, sc: Scope,
                                 found: bool, errs: seq<Failure>, settled: bool, quiet: bool)
    requires n <= |list|
  {
    && now <= labelled.Keys
    && (forall k :: k in labelled && k !in now ==> InScope(sc, labelled[k]))
    && (errs == [] && settled ==>
          && (forall j :: 0 <= j < n && InScope(sc, list[j].labels) ==> list[j].key !in now)
          && (found <==> exists j :: 0 <= j < n && InScope(sc, list[j].labels)))
    && (quiet ==> errs == [])
  }

  /** What handling one entry does. */
  ghost predicate Handled<K(!new)>(x: Listed<K>, before: set<K>, now: set<K>, sc: Scope, found: bool, errs: seq<Failure>, settled: bool, quiet: bool) {
    && (now == before || (InScope(sc, x.labels) && now == before - {x.key}))
    && (errs == [] && settled ==> (found <==> InScope(sc, x.labels)) && (found ==> x.key !in now))
    && (quiet ==> errs == [])
  }

  lemma OneMore<K(!new)>(labelled: map<K, Labels>, before: set<K>, now: set<K>, list: seq<Listed<K>>, n: nat, sc: Scope,
                         found: bool, f: bool, errs: seq<Failure>, es: seq<Failure>, settled: bool, quiet: bool)
    requires IsListing(list, labelled, sc.filter) && n < |list|
    requires SoFar(labelled, before, list, n, sc, found, errs, settled, quiet)
    requires Handled(list[n], before, now, sc, f, es, settled, quiet)
    ensures SoFar(labelled, now, list, n + 1, sc, found || f, errs + es, settled, quiet)
  {
  }

  lemma AllDone<K(!new)>(labelled: map<K, Labels>, now: set<K>, list: seq<Listed<K>>, sc: Scope,
                         found: bool, errs: seq<Failure>, settled: bool, quiet: bool)
    requires IsListing(list, labelled, sc.filter)
    requires SoFar(labelled, now, list, |list|, sc, found, errs, settled, quiet)
    ensures Swept(labelled, now, sc, found, errs, settled)
  {
    forall k | k in labelled && InScope(sc, labelled[k]) ensures exists j :: 0 <= j < |list| && InScope(sc, list[j].labels) && list[j].key == k {
      assert Lists(list, k);
    }
  }

  lemma RemovesOne(base: seq<Removal>, now: seq<Removal>, r: Removal, lo: nat, m: nat)
    requires Removes(base, now, lo, m) && lo <= m <= Rank(r) && Asked(r)
    ensures Removes(base, now + [r], lo, Rank(r))
  {
    assert (now + [r])[|base|..] == now[|base|..] + [r];
  }

  // ---------------------------------------------------------------- the three phases

  lemma NothingTaken(c: map<nat, Container>, v: map<string, Labels>, n: map<nat, Network>, sc: Scope)
    ensures ContainersSpared(c, c, n, sc) && VolumesSpared(v, v, n, sc) && NetworksSpared(n, n, sc)
  {
  }

  method RemoveVolume(d: Daemon, sc: Scope, x: Listed<string>) returns (found: bool, errs: seq<Failure>)
    requires Matches(sc.filter, x.labels) && (x.key in d.volumes ==> d.volumes[x.key] == x.labels)
    modifies d`faults, d`volumes, d`removed
    ensures Handled(x, old(d.volumes.Keys), d.volumes.Keys, sc, found, errs, Settled(d.networks, sc),
                    old(d.faults) == [] && (InScope(sc, x.labels) ==> Unmounted(d.containers, x.key)))
    ensures forall v :: v in d.volumes ==> v in old(d.volumes) && d.volumes[v] == old(d.volumes)[v]
    ensures Protected(d.networks, sc, x.labels) ==> d.volumes == old(d.volumes)
    ensures d.removed == old(d.removed) || d.removed == old(d.removed) + [VolumeGone(x.labels)]
    ensures old(d.faults) == [] ==> d.faults == []
  {
    errs := [];
    var ok, may := MayRemoveNow(d, sc, x.labels);
    if !ok { return false, [ClaimReadFailed]; }
    if !may { return false, []; }
    found := true;
    var o := d.VolumeRemove(x.key);
    if !o.Ok? && !o.NotFound? { errs := [RemoveFailed]; }
  }

  /** The loop of removeVolumes after n entries of its list. */
  ghost predicate VolumeLoop(vols: map<string, Labels>, now: map<string, Labels>, list: seq<Listed<string>>, n: nat,
                             sc: Scope,
                             found: bool, errs: seq<Failure>, settled: bool, quiet: bool, base: seq<Removal>, removed: seq<Removal>)
    requires n <= |list|
  {
    && SoFar(vols, now.Keys, list, n, sc, found, errs, settled, quiet)
    && (forall v :: v in now ==> v in vols && now[v] == vols[v])
    && Removes(base, removed, 3, 3)
  }

  lemma VolumeLoopStep(vols: map<string, Labels>, was: map<string, Labels>, now: map<string, Labels>,
                       list: seq<Listed<string>>, n: nat, sc: Scope,
                       found: bool, f: bool, errs: seq<Failure>, es: seq<Failure>, settled: bool, quiet: bool,
                       base: seq<Removal>, gone: seq<Removal>, removed: seq<Removal>)
    requires IsListing(list, vols, sc.filter) && n < |list|
    requires VolumeLoop(vols, was, list, n, sc, found, errs, settled, quiet, base, gone)
    requires Handled(list[n], was.Keys, now.Keys, sc, f, es, settled, quiet)
    requires forall v :: v in now ==> v in was && now[v] == was[v]
    requires removed == gone || removed == gone + [VolumeGone(list[n].labels)]
    ensures VolumeLoop(vols, now, list, n + 1, sc, found || f, errs + es, settled, quiet, base, removed)
  {
    OneMore(vols, was.Keys, now.Keys, list, n, sc, found, f, errs, es, settled, quiet);
    if removed != gone { RemovesOne(base, gone, VolumeGone(list[n].labels), 3, 3); }
  }

  lemma VolumeLoopStart(vols: map<string, Labels>, list: seq<Listed<string>>, sc: Scope, settled: bool, quiet: bool,
                        base: seq<Removal>)
    ensures VolumeLoop(vols, vols, list, 0, sc, false, [], settled, quiet, base, base)
  {
  }

  lemma VolumeSpared(vols: map<string, Labels>, was: map<string, Labels>, now: map<string, Labels>, x: Listed<string>,
                     nets: map<nat, Network>, sc: Scope)
    requires VolumesSpared(vols, was, nets, sc) && x.key in vols && vols[x.key] == x.labels
    requires (now.Keys == was.Keys || now.Keys == was.Keys - {x.key}) && forall v :: v in now ==> v in was && now[v] == was[v]
    requires Protected(nets, sc, x.labels) ==> now == was
    ensures VolumesSpared(vols, now, nets, sc)
  {
  }

  method RemoveNextVolume(d: Daemon, sc: Scope, list: seq<Listed<string>>, n: nat, found0: bool, errs0: seq<Failure>,
                          ghost vols: map<string, Labels>, ghost settled: bool, ghost quiet: bool, ghost base: seq<Removal>)
    returns (found: bool, errs: seq<Failure>)
    requires IsListing(list, vols, sc.filter) && n < |list|
    requires VolumeLoop(vols, d.volumes, list, n, sc, found0, errs0, settled, quiet, base, d.removed)
    requires settled == Settled(d.networks, sc) && (quiet ==> d.faults == [] && VolumesFree(d.containers, vols, sc))
    requires VolumesSpared(vols, d.volumes, d.networks, sc)
    modifies d`faults, d`volumes, d`removed
    ensures VolumeLoop(vols, d.volumes, list, n + 1, sc, found, errs, settled, quiet, base, d.removed)
    ensures VolumesSpared(vols, d.volumes, d.networks, sc)
    ensures quiet ==> d.faults == []
  {
    ghost var was, gone := d.volumes, d.removed;
    var f, es := RemoveVolume(d, sc, list[n]);
    VolumeLoopStep(vols, was, d.volumes, list, n, sc, found0, f, errs0, es, settled, quiet, base, gone, d.removed);
    VolumeSpared(vols, was, d.volumes, list[n], d.networks, sc);
    found, errs := found0 || f, errs0 + es;
  }

  method RemoveListedVolumes(d: Daemon, sc: Scope, list: seq<Listed<string>>) returns (found: bool, errs: seq<Failure>)
    requires IsListing(list, d.volumes, sc.filter)
    modifies d`faults, d`volumes, d`removed
    ensures VolumeLoop(old(d.volumes), d.volumes, list, |list|, sc, found, errs, Settled(d.networks, sc),
                       old(d.faults) == [] && VolumesFree(d.containers, old(d.volumes), sc), old(d.removed), d.removed)
    ensures VolumesSpared(old(d.volumes), d.volumes, d.networks, sc)
    ensures old(d.faults) == [] && VolumesFree(d.containers, old(d.volumes), sc) ==> d.faults == []
  {
    hide *;
    found, errs := false, [];
    ghost var vols, settled, base := d.volumes, Settled(d.networks, sc), d.removed;
    ghost var quiet := d.faults == [] && VolumesFree(d.containers, d.volumes, sc);
    VolumeLoopStart(vols, list, sc, settled, quiet, base);
    NothingTaken(d.containers, d.volumes, d.networks, sc);
    for i := 0 to |list|
      invariant VolumesSpared(vols, d.volumes, d.networks, sc)
      invariant VolumeLoop(vols, d.volumes, list, i, sc, found, errs, settled, quiet, base, d.removed)
      invariant quiet ==> d.faults == []
    {
      found, errs := RemoveNextVolume(d, sc, list, i, found, errs, vols, settled, quiet, base);
    }
  }

  method RemoveVolumes(d: Daemon, sc: Scope) returns (found: bool, errs: seq<Failure>)
    modifies d`faults, d`volumes, d`removed
    ensures Swept(old(d.volumes), d.volumes.Keys, sc, found, errs, Settled(d.networks, sc))
    ensures forall v :: v in d.volumes ==> v in old(d.volumes) && d.volumes[v] == old(d.volumes)[v]
    ensures Removes(old(d.removed), d.removed, 3, 3)
    ensures VolumesSpared(old(d.volumes), d.volumes, d.networks, sc)
    ensures old(d.faults) == [] && VolumesFree(d.containers, old(d.volumes), sc) ==> errs == [] && d.faults == []
  {
    ghost var vols, settled := d.volumes, Settled(d.networks, sc);
    var ok, list := d.VolumeList(sc.filter);
    if !ok { return false, [ListFailed]; }
    ghost var quiet := d.faults == [] && VolumesFree(d.containers, vols, sc);
    found, errs := RemoveListedVolumes(d, sc, list);
    AllDone(vols, d.volumes.Keys, list, sc, found, errs, settled, quiet);
  }

  lemma SettledStays(nets: map<nat, Network>, nets': map<nat, Network>, sc: Scope)
    requires Settled(nets, sc) && forall id :: id in nets' ==> id in nets && nets'[id] == nets[id]
    ensures Settled(nets', sc)
  {
  }

  method RemoveNetwork(d: Daemon, sc: Scope, x: Listed<nat>) returns (found: bool, errs: seq<Failure>)
    requires Matches(sc.filter, x.labels) && (x.key in d.networks ==> d.networks[x.key].labels == x.labels)
    modifies d`faults, d`networks, d`removed
    ensures Handled(x, old(d.networks.Keys), d.networks.Keys, sc, found, errs, Settled(old(d.networks), sc),
                    old(d.faults) == [] && (InScope(sc, x.labels) && x.key in old(d.networks) ==> Unattached(d.containers, old(d.networks)[x.key].name)))
    ensures forall n :: n in d.networks ==> n in old(d.networks) && d.networks[n] == old(d.networks)[n]
    ensures Protected(old(d.networks), sc, x.labels) ==> d.networks == old(d.networks)
    ensures d.removed == old(d.removed) || d.removed == old(d.removed) + [NetworkGone(x.labels)]
    ensures old(d.faults) == [] ==> d.faults == []
  {
    errs := [];
    var ok, may := MayRemoveNow(d, sc, x.labels);
    if !ok { return false, [ClaimReadFailed]; }
    if !may { return false, []; }
    found := true;
    var o := d.NetworkRemove(x.key);
    if !o.Ok? && !o.NotFound? { errs := [RemoveFailed]; }
  }

  /** The loop of removeNetworks after n entries of its list. */
  ghost predicate NetworkLoop(nets: map<nat, Network>, now: map<nat, Network>, list: seq<Listed<nat>>, n: nat,
                              sc: Scope,
                              found: bool, errs: seq<Failure>, settled: bool, quiet: bool, base: seq<Removal>, removed: seq<Removal>)
    requires n <= |list|
  {
    && SoFar(LabelsOfNetworks(nets), now.Keys, list, n, sc, found, errs, settled, quiet)
    && (forall id :: id in now ==> id in nets && now[id] == nets[id])
    && (settled ==> Settled(now, sc))
    && Removes(base, removed, 4, 4)
  }

  lemma NetworkLoopStep(nets: map<nat, Network>, was: map<nat, Network>, now: map<nat, Network>,
                        list: seq<Listed<nat>>, n: nat, sc: Scope,
                        found: bool, f: bool, errs: seq<Failure>, es: seq<Failure>, settled: bool, quiet: bool,
                        base: seq<Removal>, gone: seq<Removal>, removed: seq<Removal>)
    requires IsListing(list, LabelsOfNetworks(nets), sc.filter) && n < |list|
    requires NetworkLoop(nets, was, list, n, sc, found, errs, settled, quiet, base, gone)
    requires Handled(list[n], was.Keys, now.Keys, sc, f, es, settled, quiet)
    requires forall id :: id in now ==> id in was && now[id] == was[id]
    requires removed == gone || removed == gone + [NetworkGone(list[n].labels)]
    ensures NetworkLoop(nets, now, list, n + 1, sc, found || f, errs + es, settled, quiet, base, removed)
  {
    OneMore(LabelsOfNetworks(nets), was.Keys, now.Keys, list, n, sc, found, f, errs, es, settled, quiet);
    if settled { SettledStays(was, now, sc); }
    if removed != gone { RemovesOne(base, gone, NetworkGone(list[n].labels), 4, 4); }
  }

  lemma NetworkLoopStart(nets: map<nat, Network>, list: seq<Listed<nat>>, sc: Scope, settled: bool, quiet: bool,
                         base: seq<Removal>)
    requires settled ==> Settled(nets, sc)
    ensures NetworkLoop(nets, nets, list, 0, sc, false, [], settled, quiet, base, base)
  {
  }

  /** A protected generation stays protected while its claim network stays. */
  lemma StillProtected(nets: map<nat, Network>, now: map<nat, Network>, sc: Scope, l: Labels)
    requires NetworksSpared(nets, now, sc) && forall id :: id in now ==> id in nets && now[id] == nets[id]
    requires Protected(nets, sc, l)
    ensures Protected(now, sc, l)
  {
    var inst, nonce := l[InstanceName], Get(l, CreateNonce);
    var id :| id in nets && ClaimsWith(nets[id].labels, sc.ctrl, inst, nonce);
    MatchesClaim(sc.ctrl, inst, nets[id].labels);
    MatchesInstance(sc.ctrl, inst, nets[id].labels);
    assert Protected(nets, sc, nets[id].labels);
    assert ClaimsWith(now[id].labels, sc.ctrl, inst, nonce);
  }

  lemma NetworkSpared(nets: map<nat, Network>, was: map<nat, Network>, now: map<nat, Network>, x: Listed<nat>, sc: Scope)
    requires NetworksSpared(nets, was, sc) && x.key in nets && nets[x.key].labels == x.labels
    requires forall id :: id in was ==> id in nets && was[id] == nets[id]
    requires (now.Keys == was.Keys || now.Keys == was.Keys - {x.key}) && forall id :: id in now ==> id in was && now[id] == was[id]
    requires Protected(was, sc, x.labels) ==> now == was
    ensures NetworksSpared(nets, now, sc)
  {
    if Protected(nets, sc, x.labels) { StillProtected(nets, was, sc, x.labels); }
  }

  method RemoveNextNetwork(d: Daemon, sc: Scope, list: seq<Listed<nat>>, n: nat, found0: bool, errs0: seq<Failure>,
                           ghost nets: map<nat, Network>, ghost settled: bool, ghost quiet: bool, ghost base: seq<Removal>)
    returns (found: bool, errs: seq<Failure>)
    requires IsListing(list, LabelsOfNetworks(nets), sc.filter) && n < |list|
    requires NetworkLoop(nets, d.networks, list, n, sc, found0, errs0, settled, quiet, base, d.removed)
    requires quiet ==> d.faults == [] && NetworksFree(d.containers, nets, sc)
    requires NetworksSpared(nets, d.networks, sc)
    modifies d`faults, d`networks, d`removed
    ensures NetworkLoop(nets, d.networks, list, n + 1, sc, found, errs, settled, quiet, base, d.removed)
    ensures NetworksSpared(nets, d.networks, sc)
    ensures quiet ==> d.faults == []
  {
    ghost var was, gone := d.networks, d.removed;
    var f, es := RemoveNetwork(d, sc, list[n]);
    NetworkLoopStep(nets, was, d.networks, list, n, sc, found0, f, errs0, es, settled, quiet, base, gone, d.removed);
    NetworkSpared(nets, was, d.networks, list[n], sc);
    found, errs := found0 || f, errs0 + es;
  }

  method RemoveListedNetworks(d: Daemon, sc: Scope, list: seq<Listed<nat>>) returns (found: bool, errs: seq<Failure>)
    requires IsListing(list, LabelsOfNetworks(d.networks), sc.filter)
    modifies d`faults, d`networks, d`removed
    ensures NetworkLoop(old(d.networks), d.networks, list, |list|, sc, found, errs, Settled(old(d.networks), sc),
                        old(d.faults) == [] && NetworksFree(d.containers, old(d.networks), sc), old(d.removed), d.removed)
    ensures NetworksSpared(old(d.networks), d.networks, sc)
    ensures old(d.faults) == [] && NetworksFree(d.containers, old(d.networks), sc) ==> d.faults == []
  {
    hide *;
    found, errs := false, [];
    ghost var nets, settled, base := d.networks, Settled(d.networks, sc), d.removed;
    ghost var quiet := d.faults == [] && NetworksFree(d.containers, d.networks, sc);
    NetworkLoopStart(nets, list, sc, settled, quiet, base);
    NothingTaken(d.containers, d.volumes, d.networks, sc);
    for i := 0 to |list|
      invariant NetworksSpared(nets, d.networks, sc)
      invariant NetworkLoop(nets, d.networks, list, i, sc, found, errs, settled, quiet, base, d.removed)
      invariant quiet ==> d.faults == []
    {
      found, errs := RemoveNextNetwork(d, sc, list, i, found, errs, nets, settled, quiet, base);
    }
  }

  method RemoveNetworks(d: Daemon, sc: Scope) returns (found: bool, errs: seq<Failure>)
    modifies d`faults, d`networks, d`removed
    ensures Swept(old(LabelsOfNetworks(d.networks)), d.networks.Keys, sc, found, errs, Settled(old(d.networks), sc))
    ensures forall n :: n in d.networks ==> n in old(d.networks) && d.networks[n] == old(d.networks)[n]
    ensures Removes(old(d.removed), d.removed, 4, 4)
    ensures NetworksSpared(old(d.networks), d.networks, sc)
    ensures old(d.faults) == [] && NetworksFree(d.containers, old(d.networks), sc) ==> errs == [] && d.faults == []
  {
    ghost var nets, settled := d.networks, Settled(d.networks, sc);
    var ok, list := d.NetworkList(sc.filter);
    if !ok { return false, [ListFailed]; }
    ghost var quiet := d.faults == [] && NetworksFree(d.containers, nets, sc);
    found, errs := RemoveListedNetworks(d, sc, list);
    AllDone(LabelsOfNetworks(nets), d.networks.Keys, list, sc, found, errs, settled, quiet);
  }

  /** A best-effort stop, then a forced removal. */
  method RemoveContainer(d: Daemon, sc: Scope, x: Listed<nat>) returns (found: bool, errs: seq<Failure>)
    requires Matches(sc.filter, x.labels) && (x.key in d.containers ==> d.containers[x.key].labels == x.labels)
    modifies d`faults, d`containers, d`removed, d`stopAsked
    ensures Handled(x, old(d.containers.Keys), d.containers.Keys, sc, found, errs, Settled(d.networks, sc), old(d.faults) == [])
    ensures AtMostStopped(old(d.containers), d.containers, sc)
    ensures forall id :: id in old(d.containers) && id != x.key ==> id in d.containers && d.containers[id] == old(d.containers)[id]
    ensures Protected(d.networks, sc, x.labels) ==> d.containers == old(d.containers)
    ensures d.removed == old(d.removed) || d.removed == old(d.removed) + [ContainerGone(x.labels, true)]
    ensures old(d.faults) == [] ==> d.faults == []
  {
    errs := [];
    var ok, may := MayRemoveNow(d, sc, x.labels);
    if !ok { return false, [ClaimReadFailed]; }
    if !may { return false, []; }
    found := true;
    d.ContainerStop(x.key);
    var o := d.ContainerRemove(x.key);
    if !o.Ok? && !o.NotFound? { errs := [RemoveFailed]; }
  }

  /** The loop of removeContainers after n entries of its sorted list. */
  ghost predicate ContainerLoop(conts: map<nat, Container>, now: map<nat, Container>, list: seq<Listed<nat>>,
                                n: nat, sc: Scope,
                                found: bool, errs: seq<Failure>, settled: bool, quiet: bool, base: seq<Removal>, removed: seq<Removal>)
    requires n <= |list|
  {
    && SoFar(LabelsOfContainers(conts), now.Keys, list, n, sc, found, errs, settled, quiet)
    && AtMostStopped(conts, now, sc)
    && Removes(base, removed, 0, RankBefore(list, n))
  }

  lemma RanksWiden(base: seq<Removal>, now: seq<Removal>, lo: nat, hi: nat, hi': nat)
    requires Removes(base, now, lo, hi) && hi <= hi'
    ensures Removes(base, now, lo, hi')
  {
  }

  lemma ContainerLoopStep(conts: map<nat, Container>, was: map<nat, Container>, now: map<nat, Container>,
                          list: seq<Listed<nat>>, n: nat, sc: Scope,
                          found: bool, f: bool, errs: seq<Failure>, es: seq<Failure>, settled: bool, quiet: bool,
                          base: seq<Removal>, gone: seq<Removal>, removed: seq<Removal>)
    requires IsListing(list, LabelsOfContainers(conts), sc.filter) && n < |list|
    requires RankBefore(list, n) <= RoleRank(list[n].labels)
    requires ContainerLoop(conts, was, list, n, sc, found, errs, settled, quiet, base, gone)
    requires Handled(list[n], was.Keys, now.Keys, sc, f, es, settled, quiet)
    requires AtMostStopped(was, now, sc)
    requires removed == gone || removed == gone + [ContainerGone(list[n].labels, true)]
    ensures ContainerLoop(conts, now, list, n + 1, sc, found || f, errs + es, settled, quiet, base, removed)
  {
    hide Removes, SoFar, Handled, IsListing, InScope;
    OneMore(LabelsOfContainers(conts), was.Keys, now.Keys, list, n, sc, found, f, errs, es, settled, quiet);
    if removed != gone {
      RemovesOne(base, gone, ContainerGone(list[n].labels, true), 0, RankBefore(list, n));
    } else {
      RanksWiden(base, gone, 0, RankBefore(list, n), RankBefore(list, n + 1));
    }
  }

  /** Runner before sidecar. */
  method ListContainersByRole(d: Daemon, f: Filter) returns (ok: bool, list: seq<Listed<nat>>)
    modifies d`faults
    ensures ok ==> IsListing(list, LabelsOfContainers(d.containers), f) && StepSorted(list)
    ensures old(d.faults) == [] ==> d.faults == [] && ok
  {
    ok, list := d.ContainerList(f);
    if ok {
      SortedListing(list, LabelsOfContainers(d.containers), f);
      list := ByRole(list);
    }
  }

  lemma ContainerLoopStart(conts: map<nat, Container>, list: seq<Listed<nat>>, sc: Scope, settled: bool,
                           quiet: bool, base: seq<Removal>)
    ensures ContainerLoop(conts, conts, list, 0, sc, false, [], settled, quiet, base, base)
  {
  }

  lemma NextRank(list: seq<Listed<nat>>, n: nat)
    requires StepSorted(list) && n < |list|
    ensures RankBefore(list, n) <= RoleRank(list[n].labels)
  {
  }

  method RemoveListedContainers(d: Daemon, sc: Scope, list: seq<Listed<nat>>) returns (found: bool, errs: seq<Failure>)
    requires IsListing(list, LabelsOfContainers(d.containers), sc.filter) && StepSorted(list)
    modifies d`faults, d`containers, d`removed, d`stopAsked
    ensures ContainerLoop(old(d.containers), d.containers, list, |list|, sc, found, errs, Settled(d.networks, sc), old(d.faults) == [], old(d.removed), d.removed)
    ensures ContainersSpared(old(d.containers), d.containers, d.networks, sc)
    ensures old(d.faults) == [] ==> d.faults == []
  {
    hide *;
    found, errs := false, [];
    ghost var conts, settled, quiet, base := d.containers, Settled(d.networks, sc), d.faults == [], d.removed;
    ContainerLoopStart(conts, list, sc, settled, quiet, base);
    NothingTaken(d.containers, d.volumes, d.networks, sc);
    for i := 0 to |list|
      invariant ContainersSpared(conts, d.containers, d.networks, sc)
      invariant ContainerLoop(conts, d.containers, list, i, sc, found, errs, settled, quiet, base, d.removed)
      invariant quiet ==> d.faults == []
    {
      NextRank(list, i);
      found, errs := RemoveNextContainer(d, sc, list, i, found, errs, conts, settled, quiet, base);
    }
  }

  lemma ContainerSpared(conts: map<nat, Container>, was: map<nat, Container>, now: map<nat, Container>, x: Listed<nat>,
                        nets: map<nat, Network>, sc: Scope)
    requires ContainersSpared(conts, was, nets, sc) && x.key in conts && conts[x.key].labels == x.labels
    requires forall id :: id in was && id != x.key ==> id in now && now[id] == was[id]
    requires Protected(nets, sc, x.labels) ==> now == was
    ensures ContainersSpared(conts, now, nets, sc)
  {
  }

  method RemoveNextContainer(d: Daemon, sc: Scope, list: seq<Listed<nat>>, n: nat, found0: bool, errs0: seq<Failure>,
                             ghost conts: map<nat, Container>, ghost settled: bool, ghost quiet: bool, ghost base: seq<Removal>)
    returns (found: bool, errs: seq<Failure>)
    requires IsListing(list, LabelsOfContainers(conts), sc.filter) && n < |list|
    requires RankBefore(list, n) <= RoleRank(list[n].labels)
    requires ContainerLoop(conts, d.containers, list, n, sc, found0, errs0, settled, quiet, base, d.removed)
    requires settled == Settled(d.networks, sc) && (quiet ==> d.faults == [])
    requires ContainersSpared(conts, d.containers, d.networks, sc)
    modifies d`faults, d`containers, d`removed, d`stopAsked
    ensures ContainerLoop(conts, d.containers, list, n + 1, sc, found, errs, settled, quiet, base, d.removed)
    ensures ContainersSpared(conts, d.containers, d.networks, sc)
    ensures quiet ==> d.faults == []
  {
    hide Removes, SoFar, InScope, Protected, Settled;
    ghost var was, gone := d.containers, d.removed;
    var f, es := RemoveContainer(d, sc, list[n]);
    ContainerLoopStep(conts, was, d.containers, list, n, sc, found0, f, errs0, es, settled, quiet, base, gone, d.removed);
    ContainerSpared(conts, was, d.containers, list[n], d.networks, sc);
    found, errs := found0 || f, errs0 + es;
  }

  method RemoveContainers(d: Daemon, sc: Scope) returns (found: bool, errs: seq<Failure>)
    modifies d`faults, d`containers, d`removed, d`stopAsked
    ensures Swept(old(LabelsOfContainers(d.containers)), d.containers.Keys, sc, found, errs, Settled(d.networks, sc))
    ensures AtMostStopped(old(d.containers), d.containers, sc)
    ensures Removes(old(d.removed), d.removed, 0, 2)
    ensures ContainersSpared(old(d.containers), d.containers, d.networks, sc)
    ensures old(d.faults) == [] ==> d.faults == [] && errs == []
  {
    hide IsListing, StepSorted, Settled;
    ghost var labelled, settled, base := LabelsOfContainers(d.containers), Settled(d.networks, sc), d.removed;
    var ok, list := ListContainersByRole(d, sc.filter);
    if !ok { return false, [ListFailed]; }
    ghost var quiet := d.faults == [];
    found, errs := RemoveListedContainers(d, sc, list);
    AllDone(labelled, d.containers.Keys, list, sc, found, errs, settled, quiet);
    RanksWiden(base, d.removed, 0, RankBefore(list, |list|), 2);
  }

  // ---------------------------------------------------------------- the whole teardown

  /** The scope's volumes and networks are used by the scope's own containers only. */
  ghost predicate SelfContained(w: World, sc: Scope) {
    forall id :: id in w.containers && !InScope(sc, w.containers[id].labels) ==>
      && (forall v :: v in w.volumes && InScope(sc, w.volumes[v]) ==> v !in w.containers[id].mounts)
      && (forall n :: n in w.networks && InScope(sc, w.networks[n].labels) ==> w.containers[id].net != OnNetwork(w.networks[n].name))
  }

  /** What a teardown leaves: only the scope is touched, and an error-free one, with no claim made since its
      start, leaves exactly the rest. */
  ghost predicate TornDown(w: World, w': World, sc: Scope, found: bool, errs: seq<Failure>) {
    && Within(w, w', sc)
    && (errs == [] && Settled(w.networks, sc) ==> w' == Purge(w, sc) && (found <==> AnyInScope(w, sc)))
  }

  lemma PhasesTearDown(w: World, w': World, sc: Scope, f1: bool, f2: bool, f3: bool, e1: seq<Failure>,
                       e2: seq<Failure>, e3: seq<Failure>)
    requires Swept(LabelsOfContainers(w.containers), w'.containers.Keys, sc, f1, e1, Settled(w.networks, sc))
    requires AtMostStopped(w.containers, w'.containers, sc)
    requires Swept(w.volumes, w'.volumes.Keys, sc, f2, e2, Settled(w.networks, sc))
    requires Swept(LabelsOfNetworks(w.networks), w'.networks.Keys, sc, f3, e3, Settled(w.networks, sc))
    requires forall v :: v in w'.volumes ==> v in w.volumes && w'.volumes[v] == w.volumes[v]
    requires forall n :: n in w'.networks ==> n in w.networks && w'.networks[n] == w.networks[n]
    requires w'.nextId == w.nextId
    ensures TornDown(w, w', sc, f1 || f2 || f3, e1 + e2 + e3)
  {
    assert Within(w, w', sc) by {
      forall id | id in w.containers && id !in w'.containers ensures InScope(sc, w.containers[id].labels) { assert id in LabelsOfContainers(w.containers); }
      forall id | id in w.networks && id !in w'.networks ensures InScope(sc, w.networks[id].labels) { assert id in LabelsOfNetworks(w.networks); }
    }
    if e1 + e2 + e3 == [] && Settled(w.networks, sc) {
      assert e1 == [] && e2 == [] && e3 == [];
      assert w'.containers == Purge(w, sc).containers;
      assert w'.networks == Purge(w, sc).networks;
      assert w'.volumes == Purge(w, sc).volumes;
      FoundAny(w, sc, f1, f2, f3);
    }
  }

  lemma FoundAny(w: World, sc: Scope, f1: bool, f2: bool, f3: bool)
    requires f1 <==> exists id :: id in LabelsOfContainers(w.containers) && InScope(sc, LabelsOfContainers(w.containers)[id])
    requires f2 <==> exists v :: v in w.volumes && InScope(sc, w.volumes[v])
    requires f3 <==> exists id :: id in LabelsOfNetworks(w.networks) && InScope(sc, LabelsOfNetworks(w.networks)[id])
    ensures f1 || f2 || f3 <==> AnyInScope(w, sc)
  {
    if id :| id in w.containers && InScope(sc, w.containers[id].labels) { assert id in LabelsOfContainers(w.containers); }
    if id :| id in w.networks && InScope(sc, w.networks[id].labels) { assert id in LabelsOfNetworks(w.networks); }
  }

  /** With the containers of a self-contained scope gone, nothing holds its volumes and networks. */
  lemma RestLetsGo(w: World, c: map<nat, Container>, sc: Scope, found: bool)
    requires Settled(w.networks, sc) && SelfContained(w, sc) && AtMostStopped(w.containers, c, sc)
    requires Swept(LabelsOfContainers(w.containers), c.Keys, sc, found, [], true)
    ensures VolumesFree(c, w.volumes, sc) && NetworksFree(c, w.networks, sc)
  {
    hide InScope;
    forall id | id in c ensures id in w.containers && !InScope(sc, w.containers[id].labels) {
      assert id in LabelsOfContainers(w.containers);
    }
  }

  /** runTeardown. Whatever fails, a generation that claimed its name after the capture, and holds it, loses
      nothing. The order suffices: when the scope is self-contained and no call is faulty, no removal is refused. */
  method RunTeardown(d: Daemon, sc: Scope) returns (found: bool, errs: seq<Failure>)
    modifies d
    ensures TornDown(old(d.View()), d.View(), sc, found, errs)
    ensures Spared(old(d.View()), d.View(), sc)
    ensures Removes(old(d.removed), d.removed, 0, 4) && InOrder(d.removed[|old(d.removed)|..])
    ensures old(d.faults) == [] && Settled(old(d.networks), sc) && SelfContained(old(d.View()), sc) ==> errs == [] && d.faults == []
  {
    hide Removes, Swept, TornDown, Settled, InScope, SelfContained, AtMostStopped, VolumesFree, NetworksFree;
    hide ContainersSpared, VolumesSpared, NetworksSpared;
    ghost var w, r0 := d.View(), d.removed;
    var f1, e1 := RemoveContainers(d, sc);
    ghost var r1 := d.removed;
    if e1 == [] && Settled(w.networks, sc) && SelfContained(w, sc) { RestLetsGo(w, d.containers, sc, f1); }
    var f2, e2 := RemoveVolumes(d, sc);
    ghost var r2 := d.removed;
    RemovesChain(r0, r1, r2, 0, 2, 3, 3);
    var f3, e3 := RemoveNetworks(d, sc);
    RemovesChain(r0, r2, d.removed, 0, 3, 4, 4);
    OrderedIsInOrder(r0, d.removed, 0, 4);
    found, errs := f1 || f2 || f3, e1 + e2 + e3;
    PhasesTearDown(w, d.View(), sc, f1, f2, f3, e1, e2, e3);
  }
}
