/** The guarded steps of CreateInstance, from the first job volume to the running runner
    (internal/provider/create.go, internal/provider/runner_start.go, internal/provider/dind.go,
    internal/provider/externals.go, internal/provider/gc.go, internal/topology/create.go). */
module CreationPipeline {
  import opened LabelSpec
  import opened Names
  import opened Docker
  import opened DaemonCalls
  import opened TeardownScope
  import opened Teardown
  import opened Deletion
  import opened CacheSlots
  import opened Creation

  // ---------------------------------------------------------------- job volumes

  /** What createFreshVolume may do to the volumes: nothing, or put a volume with these labels under this name. */
  ghost predicate OnlyAt(v: map<string, Labels>, v': map<string, Labels>, name: string, l: Labels) {
    && (forall x :: x != name ==> (x in v' <==> x in v))
    && (forall x :: x in v && x in v' && x != name ==> v'[x] == v[x])
    && (name in v' ==> (name in v && v'[name] == v[name]) || v'[name] == l)
  }

  /** createFreshVolume: success means a volume that carries this attempt's nonce, so no earlier job's
      content; a volume under the name that is not fully ours is refused and left alone. */
  method CreateFreshVolume(d: Daemon, ctrl: string, name: string, l: Labels) returns (ok: bool)
    requires InstanceName in l && CreateNonce in l
    modifies d`faults, d`volumes, d`removed
    ensures OnlyAt(old(d.volumes), d.volumes, name, l)
    ensures ok ==> name in d.volumes && Get(d.volumes[name], CreateNonce) == l[CreateNonce]
    ensures name !in old(d.volumes) ==> VolumesKept(old(d.volumes), d.volumes)
    ensures name in old(d.volumes) && !OwnsForReplacement(old(d.volumes)[name], l, ctrl) ==> d.volumes == old(d.volumes)
    ensures name in old(d.volumes) && d.volumes != old(d.volumes) ==>
              MatchesPredicate(old(d.volumes)[name], ctrl) && old(d.volumes)[name][InstanceName] == l[InstanceName]
    ensures name in old(d.volumes) && Get(old(d.volumes)[name], CreateNonce) == l[CreateNonce] ==> d.volumes == old(d.volumes)
    ensures name in old(d.volumes) && ok ==>
              Get(old(d.volumes)[name], CreateNonce) == l[CreateNonce] || (OwnsForReplacement(old(d.volumes)[name], l, ctrl) && d.volumes[name] == l)
    ensures name !in old(d.volumes) ==> d.faults == Rest(old(d.faults)) && (ok <==> Head(old(d.faults)) == Fine)
    ensures (&& old(d.faults) == [] && name in old(d.volumes) && InstanceName in old(d.volumes)[name]
             && MatchesPredicate(old(d.volumes)[name], ctrl) && old(d.volumes)[name][InstanceName] == l[InstanceName]
             && Get(old(d.volumes)[name], Resource) == Get(l, Resource) && !VolumeInUse(old(d.View()), name)) ==> ok
  {
    var o, got := d.VolumeCreate(name, l);
    if !o.Ok? { return false; }
    if Get(got, CreateNonce) == l[CreateNonce] { return true; }
    if !OwnsForReplacement(got, l, ctrl) { return false; }
    o := d.VolumeRemove(name);
    if !o.Ok? && !o.NotFound? { return false; }
    o, got := d.VolumeCreate(name, l);
    ok := o.Ok? && Get(got, CreateNonce) == l[CreateNonce];
  }

  method MakeJobVolume(d: Daemon, a: Attempt, s: Suffix, at: string, ghost w0: World) returns (ok: bool)
    requires Grown(w0, d.View(), a, None) && VolumeName(a.ident.inst, a.nonce, s) !in d.volumes
    modifies d`faults, d`volumes, d`removed
    ensures Grown(w0, d.View(), a, None) && VolumesKept(old(d.volumes), d.volumes)
    ensures ok ==> VolumeName(a.ident.inst, a.nonce, s) in d.volumes
    ensures forall v :: v in d.volumes && v !in old(d.volumes) ==> v == VolumeName(a.ident.inst, a.nonce, s) && v != "" && !IsCache(d.volumes[v])
    ensures d.faults == Rest(old(d.faults)) && (ok <==> Head(old(d.faults)) == Fine)
  {
    var l := ResourceLabels(a.ident, SuffixText(s), at, a.nonce);
    BuilderLabelsAreOwn(a, SuffixText(s), at);
    ok := CreateFreshVolume(d, a.ident.ctrl, VolumeName(a.ident.inst, a.nonce, s), l);
  }

  lemma SuffixesApart(inst: string, nonce: string)
    requires IsNonce(nonce)
    ensures VolumeName(inst, nonce, Workspace) != VolumeName(inst, nonce, Socket)
    ensures VolumeName(inst, nonce, Workspace) != VolumeName(inst, nonce, DindState)
    ensures VolumeName(inst, nonce, Socket) != VolumeName(inst, nonce, DindState)
  {
    VolumeNameInjective(inst, nonce, Workspace, inst, nonce, Socket);
    VolumeNameInjective(inst, nonce, Workspace, inst, nonce, DindState);
    VolumeNameInjective(inst, nonce, Socket, inst, nonce, DindState);
  }

  function VolumeCalls(dind: Dind): nat {
    if dind.NoDind? then 1 else 3
  }

  ghost predicate NoNewCaches(v: map<string, Labels>, v': map<string, Labels>) {
    forall x :: x in v' && x !in v ==> !IsCache(v'[x])
  }

  lemma ThreeCalls(s: seq<Fault>)
    ensures FirstFine(s, 1) <==> Head(s) == Fine
    ensures FirstFine(s, 3) <==> Head(s) == Fine && Head(Rest(s)) == Fine && Head(Rest(Rest(s))) == Fine
    ensures s == [] ==> Rest(s) == []
    ensures Drop(s, 1) == Rest(s) && Drop(s, 3) == Rest(Rest(Rest(s)))
  {
  }

  lemma ThreeLast(s: seq<Fault>)
    ensures OnlyLast(s) ==>
              && (Head(s) != Fine ==> Rest(s) == [])
              && (Head(Rest(s)) != Fine ==> Rest(Rest(s)) == [])
              && (Head(Rest(Rest(s))) != Fine ==> Rest(Rest(Rest(s))) == [])
  {
  }

  method MakeJobVolumes(d: Daemon, a: Attempt, dind: Dind, at: string, ghost w0: World) returns (ok: bool)
    requires IsNonce(a.nonce) && Grown(w0, d.View(), a, None)
    requires forall s :: VolumeName(a.ident.inst, a.nonce, s) !in d.volumes
    modifies d`faults, d`volumes, d`removed
    ensures Grown(w0, d.View(), a, None) && VolumesKept(old(d.volumes), d.volumes)
    ensures "" !in old(d.volumes) ==> "" !in d.volumes
    ensures ok ==> RunnerVolumes(a.ident.inst, a.nonce, dind) <= d.volumes.Keys
    ensures ok && !dind.NoDind? ==> SidecarVolumes(a.ident.inst, a.nonce) <= d.volumes.Keys
    ensures NoNewCaches(old(d.volumes), d.volumes)
    ensures ok <==> FirstFine(old(d.faults), VolumeCalls(dind))
    ensures ok ==> d.faults == Drop(old(d.faults), VolumeCalls(dind))
    ensures OnlyLast(old(d.faults)) && !ok ==> d.faults == []
    ensures old(d.faults) == [] ==> d.faults == []
  {
    hide Grown, FirstFine, Drop, Head, Rest, OnlyLast;
    ThreeCalls(d.faults);
    ThreeLast(d.faults);
    SuffixesApart(a.ident.inst, a.nonce);
    ok := MakeJobVolume(d, a, Workspace, at, w0);
    if !ok || dind.NoDind? { return; }
    ok := MakeJobVolume(d, a, Socket, at, w0);
    if !ok { return; }
    ok := MakeJobVolume(d, a, DindState, at, w0);
  }

  // ---------------------------------------------------------------- caches

  datatype CacheRef = CacheRef(name: string, want: Labels)

  predicate Valid(vols: map<string, Labels>, r: CacheRef) {
    r.name in vols && ValidAdopted(vols[r.name], r.want)
  }

  ghost predicate AllValid(vols: map<string, Labels>, refs: seq<CacheRef>) {
    forall i :: 0 <= i < |refs| ==> Valid(vols, refs[i])
  }

  function NamesOf(refs: seq<CacheRef>): set<string> {
    set i | 0 <= i < |refs| :: refs[i].name
  }

  lemma StillValid(v: map<string, Labels>, v': map<string, Labels>, refs: seq<CacheRef>)
    requires AllValid(v, refs) && VolumesKept(v, v')
    ensures AllValid(v', refs) && NamesOf(refs) <= v'.Keys
  {
  }

  /** Each reference carries the labels wanted of it. */
  ghost predicate SameWants(refs: seq<CacheRef>, wants: seq<CacheRef>) {
    |refs| == |wants| && forall i :: 0 <= i < |refs| ==> refs[i].want == wants[i].want
  }

  /** Wanted caches: preferred names and labels. */
  predicate Wanted(wants: seq<CacheRef>) {
    forall i :: 0 <= i < |wants| ==> IsCache(wants[i].want) && wants[i].name != ""
  }

  /** Some volume already carries the cache. */
  ghost predicate Warm(vols: map<string, Labels>, want: CacheRef) {
    !NoneValid(vols, want.want)
  }

  ghost predicate AllWarm(vols: map<string, Labels>, wants: seq<CacheRef>) {
    forall i :: 0 <= i < |wants| ==> Warm(vols, wants[i])
  }

  lemma OneCacheGrows(w0: World, w: World, w': World, a: Attempt, want: Labels)
    requires Grown(w0, w, a, None) && IsCache(want) && AtMostOneAdded(w.volumes, w'.volumes, want)
    requires w'.containers == w.containers && w'.networks == w.networks && w'.nextId == w.nextId
    ensures Grown(w0, w', a, None) && VolumesKept(w.volumes, w'.volumes)
  {
  }

  method EnsureOne(d: Daemon, a: Attempt, h: SlotHash, want: CacheRef, ghost w0: World)
    returns (ok: bool, ref: CacheRef)
    requires Grown(w0, d.View(), a, None) && IsCache(want.want) && want.name != "" && "" !in d.volumes
    modifies d`faults, d`volumes
    ensures Grown(w0, d.View(), a, None) && VolumesKept(old(d.volumes), d.volumes) && "" !in d.volumes
    ensures ok ==> ref.want == want.want && Valid(d.volumes, ref)
    ensures old(d.faults) == [] ==> d.faults == []
    ensures Warm(old(d.volumes), want) ==> (ok <==> Head(old(d.faults)) == Fine) && d.faults == Rest(old(d.faults)) && d.volumes == old(d.volumes)
  {
    hide Grown, NoneValid, ValidAdopted, AtMostOneAdded, Occupied, Smallest, ExtendsName, Separates;
    ghost var w := d.View();
    var r := EnsureCacheVolume(d, h, want.name, want.want);
    OneCacheGrows(w0, w, d.View(), a, want.want);
    ok, ref := r.Ensured?, want;
    if r.Ensured? { ref := CacheRef(r.name, want.want); }
  }

  lemma StaysWarm(v: map<string, Labels>, v': map<string, Labels>, want: CacheRef)
    requires Warm(v, want) && VolumesKept(v, v')
    ensures Warm(v', want)
  {
  }

  lemma OneMoreValid(v: map<string, Labels>, v': map<string, Labels>, refs: seq<CacheRef>, wants: seq<CacheRef>, ref: CacheRef)
    requires AllValid(v, refs) && VolumesKept(v, v') && |refs| < |wants| && SameWants(refs, wants[..|refs|])
    requires Valid(v', ref) && ref.want == wants[|refs|].want
    ensures AllValid(v', refs + [ref]) && SameWants(refs + [ref], wants[..|refs| + 1])
  {
  }

  /** While the caches are warm, the loop has gone on exactly if its calls met no fault. */
  ghost predicate WarmSoFar(vols: map<string, Labels>, now: map<string, Labels>, wants: seq<CacheRef>, s: seq<Fault>, t: seq<Fault>, i: nat) {
    AllWarm(vols, wants) ==> now == vols && t == Drop(s, i) && FirstFine(s, i)
  }

  lemma WarmNext(vols: map<string, Labels>, now: map<string, Labels>, wants: seq<CacheRef>, s: seq<Fault>, t: seq<Fault>, i: nat)
    requires i < |wants| && WarmSoFar(vols, now, wants, s, t, i)
    ensures AllWarm(vols, wants) ==> Warm(now, wants[i])
    ensures Head(t) == Fine ==> WarmSoFar(vols, now, wants, s, Rest(t), i + 1)
    ensures AllWarm(vols, wants) && Head(t) != Fine ==> !FirstFine(s, |wants|)
  {
    if AllWarm(vols, wants) { OneMoreCall(s, i, |wants|); }
  }

  lemma WarmLast(vols: map<string, Labels>, now: map<string, Labels>, wants: seq<CacheRef>, s: seq<Fault>, t: seq<Fault>, i: nat)
    requires WarmSoFar(vols, now, wants, s, t, i) && AllWarm(vols, wants) && OnlyLast(s)
    ensures Head(t) != Fine ==> Rest(t) == []
  {
    LastCall(s, i);
    LastCall(t, 0);
  }

  lemma WarmNone(vols: map<string, Labels>, wants: seq<CacheRef>, s: seq<Fault>)
    ensures WarmSoFar(vols, vols, wants, s, s, 0)
  {
  }

  lemma WarmAll(vols: map<string, Labels>, now: map<string, Labels>, wants: seq<CacheRef>, s: seq<Fault>, t: seq<Fault>)
    requires WarmSoFar(vols, now, wants, s, t, |wants|)
    ensures AllWarm(vols, wants) ==> now == vols && t == Drop(s, |wants|) && FirstFine(s, |wants|)
  {
  }

  method PlanCaches(d: Daemon, a: Attempt, h: SlotHash, wants: seq<CacheRef>, ghost w0: World)
    returns (ok: bool, refs: seq<CacheRef>)
    requires Grown(w0, d.View(), a, None) && Wanted(wants) && "" !in d.volumes
    modifies d`faults, d`volumes
    ensures Grown(w0, d.View(), a, None) && VolumesKept(old(d.volumes), d.volumes) && "" !in d.volumes
    ensures ok ==> AllValid(d.volumes, refs) && SameWants(refs, wants)
    ensures old(d.faults) == [] ==> d.faults == []
    ensures AllWarm(old(d.volumes), wants) ==> (ok <==> FirstFine(old(d.faults), |wants|))
    ensures AllWarm(old(d.volumes), wants) && ok ==> d.faults == Drop(old(d.faults), |wants|) && d.volumes == old(d.volumes)
    ensures AllWarm(old(d.volumes), wants) && OnlyLast(old(d.faults)) && !ok ==> d.faults == []
  {
    hide Grown, AllValid, SameWants, Warm, Valid, WarmSoFar, AllWarm, FirstFine, Drop, Head, Rest, OnlyLast;
    ghost var vols, script := d.volumes, d.faults;
    refs := [];
    WarmNone(vols, wants, script);
    NoneYet(d.volumes, wants);
    for i := 0 to |wants|
      invariant Grown(w0, d.View(), a, None) && "" !in d.volumes
      invariant VolumesKept(vols, d.volumes)
      invariant |refs| == i && AllValid(d.volumes, refs) && SameWants(refs, wants[..i])
      invariant script == [] ==> d.faults == []
      invariant WarmSoFar(vols, d.volumes, wants, script, d.faults, i)
    {
      ghost var before := d.volumes;
      WarmNext(vols, before, wants, script, d.faults, i);
      if OnlyLast(script) && AllWarm(vols, wants) { WarmLast(vols, before, wants, script, d.faults, i); }
      ghost var t := d.faults;
      var ref;
      ok, ref := EnsureOne(d, a, h, wants[i], w0);
      if !ok { return; }
      WarmKept(vols, before, d.volumes, wants, script, t, d.faults, i);
      OneMoreValid(before, d.volumes, refs, wants, ref);
      refs := refs + [ref];
    }
    WarmAll(vols, d.volumes, wants, script, d.faults);
    assert wants[..|wants|] == wants;
    ok := true;
  }

  lemma WarmKept(vols: map<string, Labels>, was: map<string, Labels>, now: map<string, Labels>, wants: seq<CacheRef>, s: seq<Fault>,
                 t: seq<Fault>, t': seq<Fault>, i: nat)
    requires i < |wants| && WarmSoFar(vols, was, wants, s, t, i)
    requires Warm(was, wants[i]) ==> Head(t) == Fine && t' == Rest(t) && now == was
    ensures WarmSoFar(vols, now, wants, s, t', i + 1)
  {
    if AllWarm(vols, wants) { OneMoreCall(s, i, |wants|); }
  }

  lemma NoneYet(vols: map<string, Labels>, wants: seq<CacheRef>)
    ensures AllValid(vols, []) && SameWants([], wants[..0])
  {
  }

  // ---------------------------------------------------------------- the externals seed

  lemma GrownBounds(w0: World, w: World, a: Attempt, leak: Option<nat>)
    requires Grown(w0, w, a, leak)
    ensures Bounded(w) && w0.nextId <= w.nextId && VolumesKept(w0.volumes, w.volumes)
    ensures leak.Some? ==> leak.value < w.nextId
  {
  }

  /** What a helper's create, start and removal leave: its container, or nothing. */
  lemma HelperEffects(w: World, name: string, l: Labels, mounts: set<string>)
    requires Bounded(w) && mounts <= w.volumes.Keys
    ensures var c := AddContainer(w, name, l, mounts, Detached);
            && CanStart(c, w.nextId) && c.volumes == w.volumes && c.nextId == w.nextId + 1 && w.nextId !in w.containers
            && c.containers == w.containers[w.nextId := Container(name, l, mounts, Detached, Created)]
            && SetState(c, w.nextId, Running).containers == w.containers[w.nextId := Container(name, l, mounts, Detached, Running)]
            && c.containers - {w.nextId} == w.containers && SetState(c, w.nextId, Running).containers - {w.nextId} == w.containers
  {
    assert AutoCreated(w, mounts) == map[];
  }

  lemma HelperGrows(w0: World, w: World, w': World, a: Attempt, c: Container)
    requires Grown(w0, w, a, None) && Bounded(w0) && IsOwnHelper(c.labels, a.ident.ctrl, RoleCacheHelper)
    requires c.net == Detached && forall v :: v in c.mounts ==> v in w.volumes && IsCache(w.volumes[v])
    requires w' == w.(containers := w.containers[w.nextId := c], nextId := w.nextId + 1)
    ensures Grown(w0, w', a, Some(w.nextId))
  {
  }

  lemma NothingGrows(w0: World, w: World, w': World, a: Attempt)
    requires Grown(w0, w, a, None) && w'.containers == w.containers && w'.networks == w.networks && w'.volumes == w.volumes
    requires w.nextId <= w'.nextId
    ensures Grown(w0, w', a, None)
  {
  }

  /** How many calls come between the helper's create and its deferred removal. */
  function PayloadCalls(s: seq<Fault>, valid: bool, starts: bool): nat {
    if Head(s) != Fine || !valid then 1 else if Head(Rest(s)) != Fine || !starts then 2 else 3
  }

  /** Check the pinned volume, start, wait. */
  method SeedPayload(d: Daemon, ref: CacheRef, id: nat) returns (ok: bool)
    requires id in d.containers
    modifies d`faults, d`containers
    ensures d.containers == old(d.containers) || (old(Valid(d.volumes, ref)) && d.containers == old(SetState(d.View(), id, Running)).containers)
    ensures ok ==> Valid(d.volumes, ref)
    ensures d.faults == Drop(old(d.faults), PayloadCalls(old(d.faults), Valid(d.volumes, ref), CanStart(old(d.View()), id)))
    ensures Valid(d.volumes, ref) && CanStart(old(d.View()), id) ==> (ok <==> FirstFine(old(d.faults), 3))
    ensures Valid(d.volumes, ref) && CanStart(old(d.View()), id) && OnlyLast(old(d.faults)) && !ok ==> d.faults == []
  {
    hide CanStart, OnlyLast;
    ThreeCalls(d.faults);
    TwoCalls(d.faults);
    ThreeLast(d.faults);
    var o, l := d.VolumeInspect(ref.name);
    if !o.Ok? || !ValidAdopted(l, ref.want) { return false; }
    o := d.ContainerStart(id);
    if !o.Ok? { return false; }
    ok := d.OtherCall();
  }

  lemma TwoCalls(s: seq<Fault>)
    ensures Drop(s, 2) == Rest(Rest(s)) && (FirstFine(s, 2) <==> Head(s) == Fine && Head(Rest(s)) == Fine)
  {
  }

  /** A helper whose create starts this script stays behind: the create takes effect and reports an error, so
      nobody removes it, or everything after the create ends in a removal that is refused. */
  predicate Strands(s: seq<Fault>) {
    || Head(s).Ambiguous?
    || (Head(s).Fine? && Head(Drop(Rest(s), PayloadCalls(Rest(s), true, true))).Reject?)
  }

  predicate HelperOn(c: Container, name: string, ctrl: string, volume: string) {
    c.name == name && c.net == Detached && c.mounts == {volume} && IsOwnHelper(c.labels, ctrl, RoleCacheHelper)
  }

  /** Nothing but the helper that stayed behind, if one did, was added. */
  ghost predicate OnlyHelper(c: map<nat, Container>, c': map<nat, Container>, id: nat, name: string, ctrl: string, volume: string,
                             leak: Option<nat>) {
    if leak.None? then c' == c
    else leak == Some(id) && id in c' && id !in c && c' == c[id := c'[id]] && HelperOn(c'[id], name, ctrl, volume)
  }

  /** runHelperContainer for the seed, from the create to the deferred removal. */
  method RunHelper(d: Daemon, ctrl: string, ref: CacheRef, name: string, at: string) returns (ok: bool, ghost leak: Option<nat>)
    requires Bounded(d.View()) && Valid(d.volumes, ref)
    modifies d`faults, d`containers, d`volumes, d`nextId, d`removed
    ensures d.volumes == old(d.volumes) && old(d.nextId) <= d.nextId
    ensures leak.Some? ==> d.nextId == old(d.nextId) + 1
    ensures OnlyHelper(old(d.containers), d.containers, old(d.nextId), name, ctrl, ref.name, leak)
    ensures leak.Some? <==> !ContainerNameTaken(old(d.View()), name) && Strands(old(d.faults))
    ensures old(d.faults) == [] ==> d.faults == []
    ensures Head(old(d.faults)).Ambiguous? ==> !ok && d.faults == Rest(old(d.faults))
    ensures ok <==> !ContainerNameTaken(old(d.View()), name) && FirstFine(old(d.faults), 4)
    ensures ok ==> d.faults == Drop(old(d.faults), 5)
    ensures !ContainerNameTaken(old(d.View()), name) && OnlyLast(old(d.faults)) && !ok ==> d.faults == []
  {
    hide CanStart, AddContainer, ContainerNameTaken, OwnedHelperLabels, IsOwnHelper, SetState, FirstFine, Drop, OnlyLast;
    ghost var w, script := d.View(), d.faults;
    if OnlyLast(script) { LastCall(script, 0); }
    var l := OwnedHelperLabels(ctrl, RoleCacheHelper, at);
    HelperEffects(w, name, l, {ref.name});
    HelperIsOwn(ctrl, at);
    EmptyScript();
    CallsAdd(script, 1, 3);
    FiveCalls(script);
    ThreeCalls(Rest(script));
    var o, id := d.ContainerCreate(name, l, {ref.name}, Detached);
    leak := if d.containers == w.containers then None else Some(w.nextId);
    if !o.Ok? { return false, leak; }
    ok := SeedPayload(d, ref, id);
    o := d.ContainerRemove(id);
    leak := if d.containers == w.containers then None else Some(w.nextId);
  }

  lemma FiveCalls(s: seq<Fault>)
    ensures Rest(Drop(Rest(s), 3)) == Drop(s, 5)
  {
  }

  lemma HelperIsOwn(ctrl: string, at: string)
    ensures IsOwnHelper(OwnedHelperLabels(ctrl, RoleCacheHelper, at), ctrl, RoleCacheHelper)
  {
  }

  lemma EmptyScript()
    ensures Head([]) == Fine && Rest([]) == [] && forall n :: Drop([], n) == []
  {
  }

  /** Seeding changes nothing but that a helper may stay behind, and it does exactly when its name was free and
      the script strands it. */
  method SeedExternals(d: Daemon, a: Attempt, ref: CacheRef, name: string, at: string, ghost w0: World)
    returns (ok: bool, ghost leak: Option<nat>)
    requires Grown(w0, d.View(), a, None) && Bounded(w0) && Valid(d.volumes, ref)
    modifies d`faults, d`containers, d`volumes, d`nextId, d`removed
    ensures Grown(w0, d.View(), a, leak) && d.volumes == old(d.volumes)
    ensures OnlyHelper(old(d.containers), d.containers, old(d.nextId), name, a.ident.ctrl, ref.name, leak)
    ensures leak.Some? <==> !ContainerNameTaken(old(d.View()), name) && Strands(old(d.faults))
    ensures old(d.faults) == [] ==> d.faults == []
    ensures Head(old(d.faults)).Ambiguous? ==> !ok && d.faults == Rest(old(d.faults))
    ensures ok <==> !ContainerNameTaken(old(d.View()), name) && FirstFine(old(d.faults), 4)
    ensures ok ==> d.faults == Drop(old(d.faults), 5)
    ensures !ContainerNameTaken(old(d.View()), name) && OnlyLast(old(d.faults)) && !ok ==> d.faults == []
  {
    hide Grown, Strands, FirstFine, ContainerNameTaken, OnlyLast;
    ghost var w := d.View();
    GrownBounds(w0, w, a, None);
    ok, leak := RunHelper(d, a.ident.ctrl, ref, name, at);
    if leak.None? { NothingGrows(w0, w, d.View(), a); } else { HelperGrows(w0, w, d.View(), a, d.containers[w.nextId]); }
  }

  // ---------------------------------------------------------------- the runner

  /** The call reports the error that names the IPv6 sysctl, whether or not it took effect. */
  predicate NamesSysctl(f: Fault) {
    f != Fine && f.ipv6
  }

  /** The only fault is a start that names the IPv6 sysctl, after a create and n inspects. */
  predicate IPv6Refused(s: seq<Fault>, n: nat) {
    |s| == n + 2 && FirstFine(s, n + 1) && NamesSysctl(s[n + 1])
  }

  /** revalidateReferencedCaches: every reference is inspected, and one failure fails them all. */
  method RevalidateCaches(d: Daemon, refs: seq<CacheRef>) returns (ok: bool)
    modifies d`faults
    ensures ok ==> AllValid(d.volumes, refs)
    ensures d.faults == Drop(old(d.faults), |refs|)
    ensures ok <==> FirstFine(old(d.faults), |refs|) && AllValid(d.volumes, refs)
  {
    ok := true;
    for i := 0 to |refs|
      invariant d.faults == Drop(old(d.faults), i)
      invariant ok <==> FirstFine(old(d.faults), i) && forall j :: 0 <= j < i ==> Valid(d.volumes, refs[j])
    {
      DropNext(old(d.faults), i);
      var o, l := d.VolumeInspect(refs[i].name);
      if !o.Ok? || !ValidAdopted(l, refs[i].want) { ok := false; }
    }
  }

  datatype RunnerTry = Up(id: nat) | NotCreated(ipv6: bool) | NotStarted(id: nat, ipv6: bool)

  datatype RunnerSpec = RunnerSpec(mounts: set<string>, refs: seq<CacheRef>, at: string)

  /** The container is this attempt's runner, running, on validated caches. */
  ghost predicate RunnerUp(w0: World, w: World, a: Attempt, spec: RunnerSpec, id: nat) {
    && w0.nextId <= id && id in w.containers
    && w.containers[id] == RunnerAs(a, spec, Running)
    && AllValid(w.volumes, spec.refs)
  }

  /** The create or, after n inspects, the start names the IPv6 sysctl. */
  predicate SysctlHit(s: seq<Fault>, n: nat) {
    NamesSysctl(Head(s)) || (FirstFine(s, n + 1) && NamesSysctl(Head(Drop(s, n + 1))))
  }

  /** The runner's name is free and its network exists. */
  predicate Ready(w: World, a: Attempt) {
    !ContainerNameTaken(w, RunnerContainerName(a.ident.inst)) && NetworkNameTaken(w, JobNetworkName(a.ident.inst))
  }

  function RunnerAs(a: Attempt, spec: RunnerSpec, st: RunState): Container {
    Container(RunnerContainerName(a.ident.inst), ContainerLabels(a.ident, RoleRunner, spec.at, a.nonce), spec.mounts, OnNetwork(JobNetworkName(a.ident.inst)), st)
  }

  /** The only fault is a start that names the IPv6 sysctl, after n inspects. */
  predicate StartRefused(s: seq<Fault>, n: nat) {
    |s| == n + 1 && FirstFine(s, n) && NamesSysctl(s[n])
  }

  /** After the create: revalidate, then start; caches that fail take the container with them. */
  method CheckAndStart(d: Daemon, a: Attempt, spec: RunnerSpec, id: nat, ghost w0: World, ghost leak: Option<nat>)
    returns (r: RunnerTry)
    requires Grown(w0, d.View(), a, leak) && Bounded(w0) && w0.nextId <= id && leak != Some(id)
    requires id in d.containers && d.containers[id] == RunnerAs(a, spec, Created)
    modifies d`faults, d`containers, d`removed
    ensures Grown(w0, d.View(), a, leak)
    ensures r.Up? ==> r.id == id && RunnerUp(w0, d.View(), a, spec, id) && d.containers == old(d.containers)[id := d.containers[id]]
    ensures r.NotStarted? ==> r.id == id
    ensures old(d.faults) == [] ==> d.faults == []
    ensures CanStart(old(d.View()), id) && AllValid(d.volumes, spec.refs) ==> (r.Up? <==> FirstFine(old(d.faults), |spec.refs| + 1))
    ensures r.Up? ==> d.faults == Drop(old(d.faults), |spec.refs| + 1)
    ensures CanStart(old(d.View()), id) && AllValid(d.volumes, spec.refs) && OnlyLast(old(d.faults)) && !r.Up? ==> d.faults == []
    ensures !(FirstFine(old(d.faults), |spec.refs|) && AllValid(d.volumes, spec.refs)) ==>
              r == NotCreated(false)
              && (!Head(Drop(old(d.faults), |spec.refs|)).Reject? ==> d.containers == old(d.containers) - {id})
    ensures !r.Up? && r.ipv6 ==> FirstFine(old(d.faults), |spec.refs|) && NamesSysctl(Head(Drop(old(d.faults), |spec.refs|)))
    ensures StartRefused(old(d.faults), |spec.refs|) && CanStart(old(d.View()), id) && AllValid(d.volumes, spec.refs) ==>
              r == NotStarted(id, true) && d.faults == [] && d.containers - {id} == old(d.containers) - {id}
  {
    hide Grown, AllValid, RunnerAs, FirstFine, Drop, CanStart, OnlyLast;
    ghost var c, n := d.View(), |spec.refs|;
    if OnlyLast(d.faults) {
      LastCall(d.faults, n);
      LastCall(Drop(d.faults, n), 0);
    }
    EmptyScript();
    DropNext(d.faults, n);
    FineThenHead(d.faults, n);
    var valid := RevalidateCaches(d, spec.refs);
    if !valid {
      DropGrows(w0, c, a, leak, id);
      var o := d.ContainerRemove(id);
      return NotCreated(false);
    }
    StateGrows(w0, c, a, leak, id, Running);
    var o := d.ContainerStart(id);
    if !o.Ok? { return NotStarted(id, o.Failed? && o.ipv6); }
    RunsAsCreated(a, spec);
    r := Up(id);
  }

  lemma RunsAsCreated(a: Attempt, spec: RunnerSpec)
    ensures RunnerAs(a, spec, Created).(state := Running) == RunnerAs(a, spec, Running)
  {
  }

  lemma FineThenHead(s: seq<Fault>, n: nat)
    ensures FirstFine(s, n + 1) <==> FirstFine(s, n) && Head(Drop(s, n)) == Fine
    ensures StartRefused(s, n) ==> FirstFine(s, n) && NamesSysctl(Head(Drop(s, n))) && Rest(Drop(s, n)) == []
  {
  }

  /** What creating the runner leaves, and that it can start then if its network is there. */
  lemma RunnerCreated(w: World, a: Attempt, spec: RunnerSpec)
    requires spec.mounts <= w.volumes.Keys && Bounded(w)
    ensures var c := AddContainer(w, RunnerContainerName(a.ident.inst), ContainerLabels(a.ident, RoleRunner, spec.at, a.nonce), spec.mounts,
                                  OnNetwork(JobNetworkName(a.ident.inst)));
            && w.nextId !in w.containers && c.containers == w.containers[w.nextId := RunnerAs(a, spec, Created)]
            && c.containers - {w.nextId} == w.containers && c.volumes == w.volumes && c.nextId == w.nextId + 1
            && (Ready(w, a) ==> CanStart(c, w.nextId) && !ContainerNameTaken(w, RunnerContainerName(a.ident.inst)))
  {
    assert AutoCreated(w, spec.mounts) == map[];
  }

  method CreateAndStartRunnerOnce(d: Daemon, a: Attempt, spec: RunnerSpec, ghost w0: World, ghost leak: Option<nat>)
    returns (r: RunnerTry)
    requires Grown(w0, d.View(), a, leak) && Bounded(w0) && spec.mounts <= d.volumes.Keys
    modifies d`faults, d`containers, d`volumes, d`nextId, d`removed
    ensures Grown(w0, d.View(), a, leak) && d.volumes == old(d.volumes)
    ensures r.Up? ==> RunnerUp(w0, d.View(), a, spec, r.id)
    ensures r.Up? ==> d.containers == old(d.containers)[r.id := d.containers[r.id]]
    ensures r.NotStarted? ==> w0.nextId <= r.id && leak != Some(r.id)
    ensures old(d.faults) == [] ==> d.faults == []
    ensures Ready(old(d.View()), a) && AllValid(d.volumes, spec.refs) ==> (r.Up? <==> FirstFine(old(d.faults), |spec.refs| + 2))
    ensures r.Up? ==> d.faults == Drop(old(d.faults), |spec.refs| + 2)
    ensures Ready(old(d.View()), a) && AllValid(d.volumes, spec.refs) && OnlyLast(old(d.faults)) && !r.Up? ==> d.faults == []
    ensures !r.Up? && r.ipv6 ==> SysctlHit(old(d.faults), |spec.refs|)
    ensures old(d.faults) == [Reject(true)] ==> r == NotCreated(true) && d.faults == [] && d.View() == old(d.View())
    ensures IPv6Refused(old(d.faults), |spec.refs|) && Ready(old(d.View()), a) && AllValid(d.volumes, spec.refs) ==>
              r.NotStarted? && r.ipv6 && d.faults == [] && r.id !in old(d.containers) && d.containers - {r.id} == old(d.containers)
  {
    hide Grown, AllValid, ContainerLabels, FirstFine, IPv6Refused, StartRefused, IsOwn, SysctlHit, Drop, OnlyLast, Ready, CanStart;
    hide ContainerNameTaken, NetworkNameTaken, AddContainer, RunnerAs;
    ghost var w := d.View();
    GrownBounds(w0, w, a, leak);
    RunnerCreated(w, a, spec);
    if OnlyLast(d.faults) { LastCall(d.faults, 0); }
    HeadThenFine(d.faults, |spec.refs|);
    var name, l, net := RunnerContainerName(a.ident.inst), ContainerLabels(a.ident, RoleRunner, spec.at, a.nonce), OnNetwork(JobNetworkName(a.ident.inst));
    BuilderLabelsAreOwn(a, RoleRunner, spec.at);
    ContainerGrows(w0, w, a, leak, name, l, spec.mounts, net);
    var o, id := d.ContainerCreate(name, l, spec.mounts, net);
    if !o.Ok? { return NotCreated(o.Failed? && o.ipv6); }
    r := CheckAndStart(d, a, spec, id, w0, leak);
  }

  lemma HeadThenFine(s: seq<Fault>, n: nat)
    ensures FirstFine(s, n + 2) <==> Head(s) == Fine && FirstFine(Rest(s), n + 1)
    ensures Drop(Rest(s), n + 1) == Drop(s, n + 2)
    ensures Head(s) == Fine && FirstFine(Rest(s), n) && NamesSysctl(Head(Drop(Rest(s), n))) ==> SysctlHit(s, n)
    ensures NamesSysctl(Head(s)) ==> SysctlHit(s, n)
    ensures Head([Reject(true)]) == Reject(true) && Rest([Reject(true)]) == []
    ensures IPv6Refused(s, n) ==> Head(s) == Fine && StartRefused(Rest(s), n)
  {
  }

  lemma ReadyAgain(w: World, w': World, a: Attempt)
    requires Ready(w, a) && w'.containers == w.containers && w'.networks == w.networks
    ensures Ready(w', a)
  {
  }

  /** createAndStartRunner: one retry without the IPv6 sysctl, on the error that calls for it. A host that only
      refuses the sysctl gets its runner. */
  method CreateAndStartRunner(d: Daemon, a: Attempt, spec: RunnerSpec, sysctl: bool, ghost w0: World,
                              ghost leak: Option<nat>) returns (ok: bool, id: nat)
    requires Grown(w0, d.View(), a, leak) && Bounded(w0) && spec.mounts <= d.volumes.Keys
    modifies d`faults, d`containers, d`volumes, d`nextId, d`removed
    ensures Grown(w0, d.View(), a, leak) && d.volumes == old(d.volumes)
    ensures ok ==> RunnerUp(w0, d.View(), a, spec, id)
    ensures old(d.faults) == [] ==> d.faults == []
    ensures Ready(old(d.View()), a) && AllValid(d.volumes, spec.refs) && !(sysctl && SysctlHit(old(d.faults), |spec.refs|)) ==>
              && (ok <==> FirstFine(old(d.faults), |spec.refs| + 2))
              && (ok ==> d.faults == Drop(old(d.faults), |spec.refs| + 2) && d.containers == old(d.containers)[id := d.containers[id]])
    ensures Ready(old(d.View()), a) && AllValid(d.volumes, spec.refs) && OnlyLast(old(d.faults)) && !ok ==> d.faults == []
    ensures sysctl && old(d.faults) == [Reject(true)] && Ready(old(d.View()), a) && AllValid(d.volumes, spec.refs) ==> ok
    ensures sysctl && IPv6Refused(old(d.faults), |spec.refs|) && Ready(old(d.View()), a) && AllValid(d.volumes, spec.refs) ==> ok
  {
    hide Grown, Ready, SysctlHit, FirstFine, OnlyLast;
    ghost var w := d.View();
    EmptyIsFine([], |spec.refs| + 2);
    ghost var again := d.faults == [Reject(true)];
    ghost var refused := sysctl && IPv6Refused(d.faults, |spec.refs|) && Ready(w, a) && AllValid(d.volumes, spec.refs);
    var r := CreateAndStartRunnerOnce(d, a, spec, w0, leak);
    if r.Up? { return true, r.id; }
    if !sysctl || !r.ipv6 { return false, 0; }
    if r.NotStarted? {
      DropGrows(w0, d.View(), a, leak, r.id);
      var o := d.ContainerRemove(r.id);
      if !o.Ok? && !o.NotFound? { return false, 0; }
    }
    if refused || (again && Ready(w, a)) { ReadyAgain(w, d.View(), a); }
    r := CreateAndStartRunnerOnce(d, a, spec, w0, leak);
    if r.Up? { return true, r.id; }
    return false, 0;
  }

  // ---------------------------------------------------------------- the sidecar

  /** The container is this attempt's sidecar, running, with its own volumes and the externals, in the runner's
      namespace or on the job network as the mode says. */
  ghost predicate SidecarUp(w: World, a: Attempt, dind: Dind, externals: set<string>, at: string, runner: nat, id: nat) {
    id in w.containers && w.containers[id] ==
      Container(DindContainerName(a.ident.inst), ContainerLabels(a.ident, RoleDind, at, a.nonce), SidecarVolumes(a.ident.inst, a.nonce) + externals,
                if dind.SharedNetns? then InNetns(runner) else OnNetwork(JobNetworkName(a.ident.inst)), Running)
  }

  /** The sidecar's name is free and the job network exists. */
  predicate SidecarReady(w: World, a: Attempt) {
    !ContainerNameTaken(w, DindContainerName(a.ident.inst)) && NetworkNameTaken(w, JobNetworkName(a.ident.inst))
  }

  /** Creating and starting another container leaves the runner as it is. */
  lemma BesideRunner(w0: World, w: World, a: Attempt, spec: RunnerSpec, runner: nat, name: string, l: Labels,
                     mounts: set<string>, net: NetMode)
    requires RunnerUp(w0, w, a, spec, runner) && Bounded(w) && mounts <= w.volumes.Keys
    ensures var c := AddContainer(w, name, l, mounts, net);
            RunnerUp(w0, c, a, spec, runner) && RunnerUp(w0, SetState(c, w.nextId, Running), a, spec, runner)
  {
    assert AutoCreated(w, mounts) == map[];
  }

  /** Beside the running runner and with its name free, the sidecar starts and is then up. */
  lemma SidecarStarts(w0: World, w: World, a: Attempt, dind: Dind, externals: set<string>, at: string, spec: RunnerSpec,
                      runner: nat, mounts: set<string>)
    requires RunnerUp(w0, w, a, spec, runner) && Bounded(w) && mounts <= w.volumes.Keys
    requires mounts == SidecarVolumes(a.ident.inst, a.nonce) + externals
    ensures var net := if dind.SharedNetns? then InNetns(runner) else OnNetwork(JobNetworkName(a.ident.inst));
            var c := AddContainer(w, DindContainerName(a.ident.inst), ContainerLabels(a.ident, RoleDind, at, a.nonce), mounts, net);
            && (SidecarReady(w, a) ==> CanStart(c, w.nextId) && !ContainerNameTaken(w, DindContainerName(a.ident.inst)))
            && SidecarUp(SetState(c, w.nextId, Running), a, dind, externals, at, runner, w.nextId)
  {
    assert AutoCreated(w, mounts) == map[];
  }

  method StartSidecar(d: Daemon, a: Attempt, dind: Dind, externals: set<string>, at: string, runner: nat,
                      spec: RunnerSpec, ghost w0: World, ghost leak: Option<nat>)
    returns (ok: bool, id: nat)
    requires !dind.NoDind? && Grown(w0, d.View(), a, leak) && Bounded(w0) && RunnerUp(w0, d.View(), a, spec, runner)
    requires SidecarVolumes(a.ident.inst, a.nonce) + externals <= d.volumes.Keys
    modifies d`faults, d`containers, d`volumes, d`nextId
    ensures Grown(w0, d.View(), a, leak) && RunnerUp(w0, d.View(), a, spec, runner) && d.volumes == old(d.volumes)
    ensures ok ==> SidecarUp(d.View(), a, dind, externals, at, runner, id)
    ensures old(d.faults) == [] ==> d.faults == []
    ensures SidecarReady(old(d.View()), a) ==> (ok <==> FirstFine(old(d.faults), 2))
    ensures ok ==> d.faults == Drop(old(d.faults), 2)
    ensures SidecarReady(old(d.View()), a) && OnlyLast(old(d.faults)) && !ok ==> d.faults == []
  {
    TwoCalls(d.faults);
    ThreeLast(d.faults);
    hide OnlyLast;
    hide FirstFine, Drop;
    hide Grown, RunnerUp, SidecarUp, SidecarReady, IsOwn, ContainerLabels, SidecarVolumes, CanStart;
    ghost var w := d.View();
    var name, l := DindContainerName(a.ident.inst), ContainerLabels(a.ident, RoleDind, at, a.nonce);
    var mounts := SidecarVolumes(a.ident.inst, a.nonce) + externals;
    var net := if dind.SharedNetns? then InNetns(runner) else OnNetwork(JobNetworkName(a.ident.inst));
    BuilderLabelsAreOwn(a, RoleDind, at);
    GrownBounds(w0, w, a, leak);
    ContainerGrows(w0, w, a, leak, name, l, mounts, net);
    BesideRunner(w0, w, a, spec, runner, name, l, mounts, net);
    SidecarStarts(w0, w, a, dind, externals, at, spec, runner, mounts);
    var o;
    o, id := d.ContainerCreate(name, l, mounts, net);
    if !o.Ok? { return false, id; }
    StateGrows(w0, d.View(), a, leak, id, Running);
    o := d.ContainerStart(id);
    ok := o.Ok?;
  }

  method VerifyRunning(d: Daemon, id: nat) returns (ok: bool)
    modifies d`faults
    ensures d.faults == Rest(old(d.faults))
    ensures ok <==> Head(old(d.faults)) == Fine && id in d.containers && d.containers[id].state == Running
  {
    var o, l, st, finished := d.ContainerInspect(id);
    ok := o.Ok? && st == Running;
  }

  // ---------------------------------------------------------------- the guarded build

  datatype Plan = Plan(dind: Dind, caches: seq<CacheRef>, externals: Option<CacheRef>, helper: string, sysctl: bool, at: string)

  /** Everything the plan wants: the repository caches, then the externals. */
  function AllWants(p: Plan): seq<CacheRef> {
    p.caches + (if p.externals.Some? then [p.externals.value] else [])
  }

  predicate WellPlanned(p: Plan) {
    Wanted(p.caches) && (p.externals.Some? ==> IsCache(p.externals.value.want) && p.externals.value.name != "")
  }

  /** Nothing stands in the way of this attempt: every derived name is free, and every cache warm. */
  ghost predicate ClearWay(w: World, a: Attempt, p: Plan) {
    && !ContainerNameTaken(w, RunnerContainerName(a.ident.inst)) && !ContainerNameTaken(w, DindContainerName(a.ident.inst))
    && !ContainerNameTaken(w, p.helper) && p.helper != RunnerContainerName(a.ident.inst) && p.helper != DindContainerName(a.ident.inst)
    && AllWarm(w.volumes, p.caches) && (p.externals.Some? ==> Warm(w.volumes, p.externals.value))
  }

  /** It is a helper of this name: every mounted volume is a cache volume, and no network is joined. */
  ghost predicate HelperOnCache(w: World, id: nat, name: string, ctrl: string) {
    && id in w.containers && w.containers[id].name == name && w.containers[id].net == Detached && IsOwnHelper(w.containers[id].labels, ctrl, RoleCacheHelper)
    && forall v :: v in w.containers[id].mounts ==> v in w.volumes && IsCache(w.volumes[v])
  }

  /** The containers are those of before, and the one helper left behind. */
  ghost predicate LeftBehind(c: map<nat, Container>, w: World, name: string, ctrl: string, leak: Option<nat>) {
    if leak.None? then w.containers == c
    else HelperOnCache(w, leak.value, name, ctrl) && leak.value !in c && w.containers == c[leak.value := w.containers[leak.value]]
  }

  lemma HelperLeft(c: map<nat, Container>, w: World, id: nat, name: string, ctrl: string, ref: CacheRef, leak: Option<nat>)
    requires OnlyHelper(c, w.containers, id, name, ctrl, ref.name, leak) && Valid(w.volumes, ref)
    ensures LeftBehind(c, w, name, ctrl, leak)
  {
  }

  lemma TwoThenHead(s: seq<Fault>)
    ensures FirstFine(s, 2) ==> Head(s) == Fine && Head(Rest(s)) == Fine
    ensures FirstFine(s, 6) <==> Head(s) == Fine && Head(Rest(s)) == Fine && FirstFine(Rest(Rest(s)), 4)
    ensures Drop(s, 2) == Rest(Rest(s)) && Drop(s, 3) == Rest(Drop(s, 2)) && Drop(s, 7) == Drop(Rest(Rest(s)), 5)
    ensures s == [] ==> FirstFine(s, 2) && Drop(s, 2) == []
    ensures s == [] ==> FirstFine(s, 4) && Rest(s) == [] && Head(s) == Fine
  {
    CallsAdd(s, 2, 4);
    CallsAdd(s, 2, 5);
  }

  /** planExternals: the image's digest, the ensure, and the seed. */
  method PlanExternals(d: Daemon, a: Attempt, h: SlotHash, want: CacheRef, helper: string, at: string, ghost w0: World)
    returns (ok: bool, ref: CacheRef, ghost leak: Option<nat>)
    requires Grown(w0, d.View(), a, None) && Bounded(w0) && IsCache(want.want) && want.name != "" && "" !in d.volumes
    modifies d`faults, d`containers, d`volumes, d`nextId, d`removed
    ensures Grown(w0, d.View(), a, leak) && VolumesKept(old(d.volumes), d.volumes)
    ensures LeftBehind(old(d.containers), d.View(), helper, a.ident.ctrl, leak)
    ensures ok ==> Valid(d.volumes, ref) && ref.want == want.want
    ensures old(d.faults) == [] ==> d.faults == [] && leak.None?
    ensures Warm(old(d.volumes), want) ==> (ok <==> FirstFine(old(d.faults), 6) && !ContainerNameTaken(old(d.View()), helper))
    ensures Warm(old(d.volumes), want) && ok ==> d.faults == Drop(old(d.faults), 7)
    ensures Warm(old(d.volumes), want) && !ContainerNameTaken(old(d.View()), helper) && OnlyLast(old(d.faults)) && !ok ==> d.faults == []
    ensures FirstFine(old(d.faults), 2) && Warm(old(d.volumes), want) ==> d.volumes == old(d.volumes)
    ensures FirstFine(old(d.faults), 2) && Warm(old(d.volumes), want) ==>
              (leak.Some? <==> !ContainerNameTaken(old(d.View()), helper) && Strands(Drop(old(d.faults), 2)))
    ensures FirstFine(old(d.faults), 2) && Warm(old(d.volumes), want) && Head(Drop(old(d.faults), 2)).Ambiguous? ==>
              !ok && d.faults == Drop(old(d.faults), 3)
  {
    hide Grown, Warm, Strands, FirstFine, Drop, Head, Rest, Valid, ContainerNameTaken, OnlyHelper, LeftBehind, OnlyLast;
    leak, ref := None, want;
    ghost var w := d.View();
    if OnlyLast(d.faults) {
      LastCall(d.faults, 0);
      LastCall(Rest(d.faults), 0);
    }
    TwoThenHead(d.faults);
    EmptyStrands();
    NoHelper(d.View(), helper, a.ident.ctrl);
    ok := d.OtherCall();
    if !ok { return; }
    TwoThenHead(d.faults);
    ghost var c, id := d.containers, d.nextId;
    ok, ref := EnsureOne(d, a, h, want, w0);
    SameNamesTaken(w, d.View(), helper);
    NoHelper(d.View(), helper, a.ident.ctrl);
    if !ok { return; }
    TwoThenHead(d.faults);
    ok, leak := SeedExternals(d, a, ref, helper, at, w0);
    HelperLeft(c, d.View(), id, helper, a.ident.ctrl, ref, leak);
  }

  lemma NoHelper(w: World, name: string, ctrl: string)
    ensures LeftBehind(w.containers, w, name, ctrl, None)
  {
  }

  lemma EmptyStrands()
    ensures !Strands([])
  {
  }

  /** Of the caches the sidecar gets the externals only: the last one planned, if the plan wants them. */
  function SidecarCaches(p: Plan, refs: seq<CacheRef>): set<string> {
    if p.externals.Some? && refs != [] then {refs[|refs| - 1].name} else {}
  }

  /** What the launch of the runner relies on. */
  ghost predicate Prepared(vols: map<string, Labels>, a: Attempt, p: Plan, refs: seq<CacheRef>, ext: set<string>) {
    && RunnerVolumes(a.ident.inst, a.nonce, p.dind) <= vols.Keys
    && (!p.dind.NoDind? ==> SidecarVolumes(a.ident.inst, a.nonce) <= vols.Keys)
    && AllValid(vols, refs) && ext <= NamesOf(refs) && SameWants(refs, AllWants(p)) && ext == SidecarCaches(p, refs)
  }

  lemma NamesAreThere(vols: map<string, Labels>, refs: seq<CacheRef>)
    requires AllValid(vols, refs)
    ensures NamesOf(refs) <= vols.Keys
  {
  }

  lemma OneMoreRef(vols: map<string, Labels>, refs: seq<CacheRef>, ref: CacheRef)
    requires AllValid(vols, refs) && Valid(vols, ref)
    ensures AllValid(vols, refs + [ref]) && ref.name in NamesOf(refs + [ref])
  {
    var more := refs + [ref];
    assert more[|refs|] == ref;
  }

  lemma AllStayWarm(v: map<string, Labels>, v': map<string, Labels>, wants: seq<CacheRef>)
    requires AllWarm(v, wants) && VolumesKept(v, v')
    ensures AllWarm(v', wants)
  {
    forall i | 0 <= i < |wants| ensures Warm(v', wants[i]) { StaysWarm(v, v', wants[i]); }
  }

  /** How many calls come before the helper's create, when every cache is there. */
  function SeedAt(p: Plan): nat {
    BaseCalls(p) + 2
  }

  /** How many calls a create makes from its volumes to its runner, when every cache is there. */
  function PrepareCalls(p: Plan): nat {
    (if p.externals.Some? then SeedAt(p) + 5 else BaseCalls(p)) + ImageCalls(p.dind)
  }

  /** The sidecar's image is made sure of. */
  function ImageCalls(dind: Dind): nat {
    if dind.NoDind? then 0 else 1
  }

  /** Which of them is the helper's removal, the one call whose failure is only logged. */
  function RemovalAt(p: Plan): int {
    if p.externals.Some? then SeedAt(p) + 4 else -1
  }

  /** Of the first n calls none meets a fault, but perhaps call x. */
  predicate FineBut(s: seq<Fault>, n: nat, x: int) {
    forall i :: 0 <= i < n && i < |s| && i != x ==> s[i] == Fine
  }

  lemma PrepareScript(s: seq<Fault>, p: Plan)
    ensures p.externals.Some? ==> (FineBut(s, PrepareCalls(p), RemovalAt(p)) <==>
              FirstFine(s, SeedAt(p) + 4) && FirstFine(Drop(s, SeedAt(p) + 5), ImageCalls(p.dind)))
    ensures p.externals.None? ==> (FineBut(s, PrepareCalls(p), RemovalAt(p)) <==>
              FirstFine(s, BaseCalls(p)) && FirstFine(Drop(s, BaseCalls(p)), ImageCalls(p.dind)))
  {
    if p.externals.Some? {
      CallsAdd(s, SeedAt(p) + 5, ImageCalls(p.dind));
      var u := Drop(s, SeedAt(p) + 5);
      if FirstFine(s, SeedAt(p) + 4) && FirstFine(u, ImageCalls(p.dind)) {
        forall i | 0 <= i < PrepareCalls(p) && i < |s| && i != RemovalAt(p) ensures s[i] == Fine {
          if i >= SeedAt(p) + 5 { assert s[i] == u[i - SeedAt(p) - 5]; }
        }
      }
      if FineBut(s, PrepareCalls(p), RemovalAt(p)) {
        forall i | 0 <= i < ImageCalls(p.dind) && i < |u| ensures u[i] == Fine { assert u[i] == s[i + SeedAt(p) + 5]; }
      }
    } else {
      CallsAdd(s, BaseCalls(p), ImageCalls(p.dind));
    }
  }

  /** Nothing stands in the way, and no call before the helper's create meets a fault. */
  ghost predicate ReachesSeed(w: World, a: Attempt, p: Plan, s: seq<Fault>) {
    ClearWay(w, a, p) && FirstFine(s, SeedAt(p))
  }

  /** How many calls come before the externals. */
  function BaseCalls(p: Plan): nat {
    VolumeCalls(p.dind) + 1 + |p.caches| + 1
  }

  /** The scripts these calls meet. */
  lemma BaseScript(s: seq<Fault>, p: Plan)
    ensures var v, n := VolumeCalls(p.dind), |p.caches|;
            && Rest(Drop(s, v)) == Drop(s, v + 1)
            && Drop(Drop(s, v + 1), n) == Drop(s, v + 1 + n)
            && Rest(Drop(s, v + 1 + n)) == Drop(s, BaseCalls(p))
            && (FirstFine(s, BaseCalls(p)) <==>
                  FirstFine(s, v) && Head(Drop(s, v)) == Fine && FirstFine(Drop(s, v + 1), n) && Head(Drop(s, v + 1 + n)) == Fine)
  {
    hide FirstFine, Drop;
    var v, n := VolumeCalls(p.dind), |p.caches|;
    CallsAdd(s, v, 1);
    CallsAdd(Drop(s, v), 1, 0);
    CallsAdd(s, v + 1, n);
    CallsAdd(s, v + 1 + n, 1);
    CallsAdd(Drop(s, v + 1 + n), 1, 0);
  }

  lemma BaseLast(s: seq<Fault>, p: Plan)
    requires OnlyLast(s)
    ensures var v, n := VolumeCalls(p.dind), |p.caches|;
            && (Head(Drop(s, v)) != Fine ==> Rest(Drop(s, v)) == [])
            && OnlyLast(Drop(s, v + 1))
            && (Head(Drop(s, v + 1 + n)) != Fine ==> Rest(Drop(s, v + 1 + n)) == [])
            && OnlyLast(Drop(s, BaseCalls(p)))
  {
    hide OnlyLast, Drop, Head, Rest;
    var v, n := VolumeCalls(p.dind), |p.caches|;
    LastCall(s, v);
    LastCall(s, v + 1);
    LastCall(s, v + 1 + n);
    LastCall(s, BaseCalls(p));
    LastCall(Drop(s, v), 0);
    LastCall(Drop(s, v + 1 + n), 0);
  }

  /** And the scripts the externals meet. */
  lemma SeedScript(s: seq<Fault>, p: Plan)
    ensures var u := Drop(s, BaseCalls(p));
            && Drop(u, 2) == Drop(s, SeedAt(p)) && Drop(u, 3) == Drop(s, SeedAt(p) + 1) && Drop(u, 7) == Drop(s, SeedAt(p) + 5)
            && (FirstFine(s, SeedAt(p)) <==> FirstFine(s, BaseCalls(p)) && FirstFine(u, 2))
            && (FirstFine(s, SeedAt(p) + 4) <==> FirstFine(s, BaseCalls(p)) && FirstFine(u, 6))
  {
    hide FirstFine, Drop;
    CallsAdd(s, BaseCalls(p), 2);
    CallsAdd(s, BaseCalls(p), 3);
    CallsAdd(s, BaseCalls(p), 6);
    CallsAdd(s, BaseCalls(p), 7);
  }

  /** After the externals, the sidecar's image if there is one. */
  lemma ImageScript(s: seq<Fault>, n: nat, dind: Dind)
    ensures FirstFine(Drop(s, n), ImageCalls(dind)) <==> dind.NoDind? || Head(Drop(s, n)) == Fine
    ensures Drop(s, n + ImageCalls(dind)) == if dind.NoDind? then Drop(s, n) else Rest(Drop(s, n))
  {
    CallsAdd(Drop(s, n), 1, 0);
    NoCalls(Drop(s, n));
    DropNext(s, n);
  }

  lemma EmptyIsFine(s: seq<Fault>, n: nat)
    ensures s == [] ==> FirstFine(s, n) && Drop(s, n) == [] && Head(s) == Fine && Rest(s) == []
  {
  }

  lemma PrepareLast(s: seq<Fault>, p: Plan)
    requires OnlyLast(s)
    ensures OnlyLast(Drop(s, BaseCalls(p)))
    ensures var n := if p.externals.Some? then SeedAt(p) + 5 else BaseCalls(p);
            Head(Drop(s, n)) != Fine ==> Rest(Drop(s, n)) == []
  {
    hide OnlyLast, Drop, Head, Rest;
    var n := if p.externals.Some? then SeedAt(p) + 5 else BaseCalls(p);
    LastCall(s, BaseCalls(p));
    LastCall(s, n);
    LastCall(Drop(s, n), 0);
  }

  /** Job volumes, the runner's image, the repository caches, credentials. */
  method PrepareBase(d: Daemon, a: Attempt, h: SlotHash, p: Plan, ghost w0: World) returns (ok: bool, refs: seq<CacheRef>)
    requires IsNonce(a.nonce) && WellPlanned(p) && "" !in d.volumes
    requires Grown(w0, d.View(), a, None) && Bounded(w0) && forall s :: VolumeName(a.ident.inst, a.nonce, s) !in d.volumes
    modifies d`faults, d`volumes, d`removed
    ensures Grown(w0, d.View(), a, None) && VolumesKept(old(d.volumes), d.volumes) && "" !in d.volumes
    ensures ok ==> RunnerVolumes(a.ident.inst, a.nonce, p.dind) <= d.volumes.Keys
    ensures ok && !p.dind.NoDind? ==> SidecarVolumes(a.ident.inst, a.nonce) <= d.volumes.Keys
    ensures ok ==> AllValid(d.volumes, refs) && SameWants(refs, p.caches)
    ensures old(d.faults) == [] ==> d.faults == []
    ensures AllWarm(old(d.volumes), p.caches) ==> (ok <==> FirstFine(old(d.faults), BaseCalls(p)))
    ensures AllWarm(old(d.volumes), p.caches) && ok ==> d.faults == Drop(old(d.faults), BaseCalls(p)) && NoNewCaches(old(d.volumes), d.volumes)
    ensures AllWarm(old(d.volumes), p.caches) && OnlyLast(old(d.faults)) && !ok ==> d.faults == []
  {
    hide Grown, Valid, SidecarVolumes, RunnerVolumes, FirstFine, Drop, Head, Rest, AllWarm, NoNewCaches, OnlyLast;
    refs := [];
    ghost var v0, s0 := d.volumes, d.faults;
    BaseScript(s0, p);
    if OnlyLast(s0) { BaseLast(s0, p); }
    EmptyScript();
    ok := MakeJobVolumes(d, a, p.dind, p.at, w0);
    if !ok { return; }
    ghost var v1 := d.volumes;
    if AllWarm(v0, p.caches) { AllStayWarm(v0, v1, p.caches); }
    ok := d.OtherCall();
    if !ok { return; }
    ok, refs := PlanCaches(d, a, h, p.caches, w0);
    if !ok { return; }
    ok := d.OtherCall();
  }

  /** Job volumes, images, caches, credentials, externals. A helper stays behind, on a way that is clear up to
      its create, exactly when the script from there strands it. */
  method Prepare(d: Daemon, a: Attempt, h: SlotHash, p: Plan, ghost w0: World)
    returns (ok: bool, refs: seq<CacheRef>, ext: set<string>, ghost leak: Option<nat>)
    requires IsNonce(a.nonce) && WellPlanned(p) && "" !in d.volumes
    requires Grown(w0, d.View(), a, None) && Bounded(w0) && forall s :: VolumeName(a.ident.inst, a.nonce, s) !in d.volumes
    modifies d`faults, d`containers, d`volumes, d`nextId, d`removed
    ensures Grown(w0, d.View(), a, leak)
    ensures LeftBehind(old(d.containers), d.View(), p.helper, a.ident.ctrl, leak) && (leak.Some? ==> p.externals.Some?)
    ensures ok ==> Prepared(d.volumes, a, p, refs, ext)
    ensures old(d.faults) == [] ==> d.faults == [] && leak.None?
    ensures ClearWay(old(d.View()), a, p) ==> (ok <==> FineBut(old(d.faults), PrepareCalls(p), RemovalAt(p)))
    ensures ClearWay(old(d.View()), a, p) && ok ==> d.faults == Drop(old(d.faults), PrepareCalls(p))
    ensures ClearWay(old(d.View()), a, p) && OnlyLast(old(d.faults)) && !ok ==> d.faults == []
    ensures ReachesSeed(old(d.View()), a, p, old(d.faults)) && p.externals.Some? ==>
              (leak.Some? <==> Strands(Drop(old(d.faults), SeedAt(p))))
    ensures ReachesSeed(old(d.View()), a, p, old(d.faults)) && p.externals.Some? && Head(Drop(old(d.faults), SeedAt(p))).Ambiguous? ==>
              !ok && d.faults == Drop(old(d.faults), SeedAt(p) + 1) && NoNewCaches(old(d.volumes), d.volumes)
  {
    hide Grown, Valid, SidecarVolumes, RunnerVolumes, FirstFine, Drop, Head, Rest, LeftBehind, Strands, AllWarm, Warm, NoNewCaches, FineBut;
    hide ContainerNameTaken, OnlyLast;
    leak, refs, ext := None, [], {};
    ghost var w, v0, s0, clear := d.View(), d.volumes, d.faults, ClearWay(d.View(), a, p);
    SeedScript(s0, p);
    if OnlyLast(s0) { PrepareLast(s0, p); }
    PrepareScript(s0, p);
    ImageScript(s0, if p.externals.Some? then SeedAt(p) + 5 else BaseCalls(p), p.dind);
    EmptyIsFine(s0, SeedAt(p));
    EmptyIsFine(s0, BaseCalls(p));
    NoHelper(d.View(), p.helper, a.ident.ctrl);
    ok, refs := PrepareBase(d, a, h, p, w0);
    NoHelper(d.View(), p.helper, a.ident.ctrl);
    if !ok { return; }
    if p.externals.Some? {
      ghost var v2 := d.volumes;
      if clear { StaysWarm(v0, v2, p.externals.value); }
      SameNamesTaken(w, d.View(), p.helper);
      var ref;
      ok, ref, leak := PlanExternals(d, a, h, p.externals.value, p.helper, p.at, w0);
      if !ok { return; }
      StillValid(v2, d.volumes, refs);
      OneMoreRef(d.volumes, refs, ref);
      refs, ext := refs + [ref], {ref.name};
    }
    if !p.dind.NoDind? { ok := d.OtherCall(); }
  }

  lemma SidecarStaysReady(w: World, w': World, a: Attempt, runner: nat)
    requires SidecarReady(w, a) && w'.networks == w.networks && runner in w'.containers
    requires w'.containers == w.containers[runner := w'.containers[runner]]
    requires w'.containers[runner].name == RunnerContainerName(a.ident.inst)
    ensures SidecarReady(w', a)
  {
    assert |DindContainerName(a.ident.inst)| != |RunnerContainerName(a.ident.inst)|;
  }

  /** The allocation is up: the runner on validated caches, one for each the plan wants, and in a DinD mode the
      sidecar beside it. */
  ghost predicate Serves(w0: World, w: World, a: Attempt, p: Plan, refs: seq<CacheRef>, runner: nat) {
    && RunnerUp(w0, w, a, RunnerSpec(RunnerVolumes(a.ident.inst, a.nonce, p.dind) + NamesOf(refs), refs, p.at), runner)
    && SameWants(refs, AllWants(p))
    && (p.dind.NoDind? || exists ext, id :: HasSidecar(w, a, p, refs, runner, ext, id))
  }

  ghost predicate HasSidecar(w: World, a: Attempt, p: Plan, refs: seq<CacheRef>, runner: nat, ext: set<string>, id: nat) {
    ext == SidecarCaches(p, refs) && SidecarUp(w, a, p.dind, ext, p.at, runner, id)
  }

  /** How many calls the launch makes: create, check and start the runner, then the sidecar, the delivery, and an
      inspect of each. */
  function LaunchCalls(dind: Dind, refs: nat): nat {
    refs + 2 + (if dind.NoDind? then 2 else 5)
  }

  lemma LaunchScript(s: seq<Fault>, n: nat, dind: Dind)
    ensures var u := Drop(s, n + 2);
            && (dind.NoDind? ==> (FirstFine(s, LaunchCalls(dind, n)) <==> FirstFine(s, n + 2) && FirstFine(u, 2)))
            && (!dind.NoDind? ==> (FirstFine(s, LaunchCalls(dind, n)) <==>
                  FirstFine(s, n + 2) && FirstFine(u, 2) && FirstFine(Drop(u, 2), 3)))
  {
    CallsAdd(s, n + 2, LaunchCalls(dind, n) - n - 2);
    if !dind.NoDind? { CallsAdd(Drop(s, n + 2), 2, 3); }
  }

  lemma LaunchLast(s: seq<Fault>, n: nat)
    requires OnlyLast(s)
    ensures OnlyLast(Drop(s, n + 2)) && OnlyLast(Drop(Drop(s, n + 2), 2))
  {
    LastCall(s, n + 2);
    LastCall(Drop(s, n + 2), 2);
  }

  /** Credential delivery, and the check that the runner, and the sidecar if there is one, still run. */
  method DeliverAndVerify(d: Daemon, dind: Dind, runner: nat, sidecar: nat) returns (ok: bool)
    modifies d`faults, d`delivered
    ensures ok ==> runner in d.delivered
    ensures old(d.faults) == [] ==> d.faults == []
    ensures (&& runner in d.containers && d.containers[runner].state == Running
             && (!dind.NoDind? ==> sidecar in d.containers && d.containers[sidecar].state == Running)) ==>
              && (ok <==> FirstFine(old(d.faults), if dind.NoDind? then 2 else 3))
              && (OnlyLast(old(d.faults)) && !ok ==> d.faults == [])
  {
    hide OnlyLast, FirstFine, Head, Rest;
    TwoCalls(d.faults);
    ThreeCalls(d.faults);
    ThreeLast(d.faults);
    EmptyScript();
    ok := d.Deliver(runner);
    if !ok { return; }
    ok := VerifyRunning(d, runner);
    if ok && !dind.NoDind? { ok := VerifyRunning(d, sidecar); }
  }

  /** Runner, sidecar, credential delivery, and the check that both still run. It succeeds, when the names are free
      and the sysctl is no matter, exactly when none of its calls meets a fault. */
  method Launch(d: Daemon, a: Attempt, p: Plan, refs: seq<CacheRef>, ext: set<string>, ghost w0: World,
                ghost leak: Option<nat>) returns (ok: bool, runner: nat)
    requires Grown(w0, d.View(), a, leak) && Bounded(w0) && Prepared(d.volumes, a, p, refs, ext)
    modifies d`faults, d`containers, d`volumes, d`nextId, d`removed, d`delivered
    ensures Grown(w0, d.View(), a, leak)
    ensures ok ==> Serves(w0, d.View(), a, p, refs, runner) && runner in d.delivered
    ensures old(d.faults) == [] ==> d.faults == []
    ensures Ready(old(d.View()), a) && SidecarReady(old(d.View()), a) && !(p.sysctl && SysctlHit(old(d.faults), |refs|)) ==>
              (ok <==> FirstFine(old(d.faults), LaunchCalls(p.dind, |refs|)))
    ensures (&& Ready(old(d.View()), a) && SidecarReady(old(d.View()), a) && !(p.sysctl && SysctlHit(old(d.faults), |refs|))
             && OnlyLast(old(d.faults)) && !ok) ==> d.faults == []
  {
    hide Grown, AllValid, Ready, SidecarReady, RunnerVolumes, SidecarVolumes, ContainerLabels, SysctlHit, FirstFine, Drop, Head, Rest;
    hide ContainerNameTaken, NetworkNameTaken, OnlyLast;
    if OnlyLast(d.faults) { LaunchLast(d.faults, |refs|); }
    var spec := RunnerSpec(RunnerVolumes(a.ident.inst, a.nonce, p.dind) + NamesOf(refs), refs, p.at);
    ghost var w, free := d.View(), Ready(d.View(), a) && SidecarReady(d.View(), a) && !(p.sysctl && SysctlHit(d.faults, |refs|));
    NamesAreThere(d.volumes, refs);
    LaunchScript(d.faults, |refs|, p.dind);
    EmptyScript();
    ok, runner := CreateAndStartRunner(d, a, spec, p.sysctl, w0, leak);
    if !ok { return; }
    var sidecar := 0;
    if !p.dind.NoDind? {
      if free { SidecarStaysReady(w, d.View(), a, runner); }
      ok, sidecar := StartSidecar(d, a, p.dind, ext, p.at, runner, spec, w0, leak);
      if !ok { return; }
    }
    ok := DeliverAndVerify(d, p.dind, runner, sidecar);
    assert p.dind.NoDind? || HasSidecar(d.View(), a, p, refs, runner, ext, sidecar);
  }

  // ---------------------------------------------------------------- CreateInstance

  datatype CreateResult = Succeeded(runner: nat) | AlreadyExists | NameRefused | ClaimNotMade(cleanup: seq<Failure>) | RolledBack(errs: seq<Failure>)

  /** Nothing that was there before is lost or changed. */
  ghost predicate Untouched(w0: World, w: World) {
    && (forall id :: id in w0.containers ==> id in w.containers && w.containers[id] == w0.containers[id])
    && (forall id :: id in w0.networks ==> id in w.networks && w.networks[id] == w0.networks[id])
    && VolumesKept(w0.volumes, w.volumes)
  }

  lemma RollbackTouchesNothingElse(w0: World, w: World, w': World, a: Attempt, leak: Option<nat>)
    requires Grown(w0, w, a, leak) && Fresh(w0, a) && Within(w, w', AttemptScope(a.ident.ctrl, a.ident.inst, a.nonce))
    ensures Untouched(w0, w')
  {
    hide InScope, Left, IsOwn;
    forall l ensures InScope(AttemptScope(a.ident.ctrl, a.ident.inst, a.nonce), l) <==> IsOwn(a, l) { AttemptReach(a, l); }
    forall l ensures IsOwn(a, l) ==> Get(l, CreateNonce) == a.nonce { OwnNonce(a, l); }
  }

  lemma OwnNonce(a: Attempt, l: Labels)
    ensures IsOwn(a, l) ==> Get(l, CreateNonce) == a.nonce && !IsCache(l)
  {
  }

  lemma GrownUntouched(w0: World, w: World, a: Attempt, leak: Option<nat>)
    requires Grown(w0, w, a, leak)
    ensures Untouched(w0, w)
  {
  }

  lemma ClaimGrows(w0: World, a: Attempt, at: string)
    requires Bounded(w0)
    ensures Grown(w0, AddNetwork(w0, JobNetworkName(a.ident.inst), ResourceLabels(a.ident, ResourceJobNetwork, at, a.nonce)), a, None)
  {
    BuilderLabelsAreOwn(a, ResourceJobNetwork, at);
    NetworkGrows(w0, w0, a, None, JobNetworkName(a.ident.inst), ResourceLabels(a.ident, ResourceJobNetwork, at, a.nonce));
  }

  lemma ClaimHolds(w0: World, a: Attempt, l: Labels)
    ensures NetworkNameTaken(AddNetwork(w0, JobNetworkName(a.ident.inst), l), JobNetworkName(a.ident.inst))
  {
    assert AddNetwork(w0, JobNetworkName(a.ident.inst), l).networks[w0.nextId].name == JobNetworkName(a.ident.inst);
  }

  lemma NamesStayFree(w: World, w': World, a: Attempt, p: Plan, leak: Option<nat>)
    requires ClearWay(w, a, p) && LeftBehind(w.containers, w', p.helper, a.ident.ctrl, leak)
    requires NetworkNameTaken(w', JobNetworkName(a.ident.inst))
    ensures Ready(w', a) && SidecarReady(w', a)
  {
    forall id | id in w'.containers
      ensures w'.containers[id].name != RunnerContainerName(a.ident.inst) && w'.containers[id].name != DindContainerName(a.ident.inst)
    {
      if leak != Some(id) { assert w.containers[id] == w'.containers[id]; }
    }
  }

  /** The launch comes upon the sysctl, and the plan has it. */
  predicate MeetsSysctl(p: Plan, s: seq<Fault>) {
    p.sysctl && SysctlHit(Drop(s, PrepareCalls(p)), |AllWants(p)|)
  }

  /** None of the calls after the claim meets a fault, but perhaps the helper's removal. */
  predicate BuildsFine(p: Plan, s: seq<Fault>) {
    FineBut(s, PrepareCalls(p), RemovalAt(p)) && FirstFine(Drop(s, PrepareCalls(p)), LaunchCalls(p.dind, |AllWants(p)|))
  }

  /** Everything after the claim. */
  method Build(d: Daemon, h: SlotHash, a: Attempt, p: Plan, ghost w0: World)
    returns (ok: bool, runner: nat, ghost leak: Option<nat>, ghost refs: seq<CacheRef>)
    requires IsNonce(a.nonce) && WellPlanned(p) && "" !in d.volumes
    requires Grown(w0, d.View(), a, None) && Bounded(w0) && forall s :: VolumeName(a.ident.inst, a.nonce, s) !in d.volumes
    modifies d`faults, d`containers, d`volumes, d`nextId, d`removed, d`delivered
    ensures Grown(w0, d.View(), a, leak) && (leak.Some? ==> p.externals.Some?)
    ensures ok ==> Serves(w0, d.View(), a, p, refs, runner) && runner in d.delivered
    ensures old(d.faults) == [] ==> leak.None?
    ensures ClearWay(old(d.View()), a, p) && NetworkNameTaken(old(d.View()), JobNetworkName(a.ident.inst)) && !MeetsSysctl(p, old(d.faults)) ==>
              (ok <==> BuildsFine(p, old(d.faults)))
    ensures (&& ClearWay(old(d.View()), a, p) && NetworkNameTaken(old(d.View()), JobNetworkName(a.ident.inst)) && !MeetsSysctl(p, old(d.faults))
             && OnlyLast(old(d.faults)) && !ok) ==> d.faults == []
    ensures ReachesSeed(old(d.View()), a, p, old(d.faults)) && p.externals.Some? ==>
              (leak.Some? <==> Strands(Drop(old(d.faults), SeedAt(p))))
    ensures ReachesSeed(old(d.View()), a, p, old(d.faults)) && p.externals.Some? && Head(Drop(old(d.faults), SeedAt(p))).Ambiguous? ==>
              !ok && d.faults == Drop(old(d.faults), SeedAt(p) + 1)
              && NoNewCaches(old(d.volumes), d.volumes) && LeftBehind(old(d.containers), d.View(), p.helper, a.ident.ctrl, leak)
  {
    hide Grown, Serves, ReachesSeed, Strands, Drop, Head, LeftBehind, NoNewCaches, ClearWay, FineBut, FirstFine, SysctlHit, NetworkNameTaken, OnlyLast;
    if OnlyLast(d.faults) { LastCall(d.faults, PrepareCalls(p)); }
    runner, leak, refs := 0, None, [];
    ghost var w, clear := d.View(), ClearWay(d.View(), a, p) && NetworkNameTaken(d.View(), JobNetworkName(a.ident.inst));
    var found, ext;
    ok, found, ext, leak := Prepare(d, a, h, p, w0);
    refs := found;
    if !ok { return; }
    if clear {
      TakenStill(w, d.View(), JobNetworkName(a.ident.inst));
      NamesStayFree(w, d.View(), a, p, leak);
    }
    ok, runner := Launch(d, a, p, found, ext, w0, leak);
  }

  lemma SameNamesTaken(w: World, w': World, name: string)
    requires w'.containers == w.containers
    ensures ContainerNameTaken(w', name) <==> ContainerNameTaken(w, name)
  {
  }

  lemma TakenStill(w: World, w': World, name: string)
    requires NetworkNameTaken(w, name) && w'.networks == w.networks
    ensures NetworkNameTaken(w', name)
  {
  }

  /** Every volume a container mounts and every network it is attached to is there. The daemon keeps it so: it
      refuses to remove either. */
  ghost predicate Anchored(w: World) {
    forall id :: id in w.containers ==>
      && w.containers[id].mounts <= w.volumes.Keys
      && (w.containers[id].net.OnNetwork? ==> NetworkNameTaken(w, w.containers[id].net.name))
  }

  /** Nothing outside the attempt holds on to what the attempt made. */
  lemma LeftIsApart(w0: World, w: World, a: Attempt, l: Labels, leak: Option<nat>)
    requires Anchored(w0) && Fresh(w0, a) && Grown(w0, w, a, leak) && !NetworkNameTaken(w0, JobNetworkName(a.ident.inst))
    requires w.networks == AddNetwork(w0, JobNetworkName(a.ident.inst), l).networks
    ensures SelfContained(w, AttemptScope(a.ident.ctrl, a.ident.inst, a.nonce))
  {
    hide InScope, IsOwn, IsOwnHelper, IsCache, NetworkNameTaken;
    forall x ensures InScope(AttemptScope(a.ident.ctrl, a.ident.inst, a.nonce), x) <==> IsOwn(a, x) { AttemptReach(a, x); }
    forall x ensures IsOwn(a, x) ==> Get(x, CreateNonce) == a.nonce && !IsCache(x) { OwnNonce(a, x); }
    GrownBounds(w0, w, a, leak);
    forall id | id in w.containers && id in w0.containers
      ensures forall n :: n in w.networks && IsOwn(a, w.networks[n].labels) ==> w.containers[id].net != OnNetwork(w.networks[n].name)
    {
      assert w.containers[id] == w0.containers[id];
    }
  }

  lemma FreshVolumes(w: World, a: Attempt, s: Suffix)
    requires Fresh(w, a)
    ensures VolumeName(a.ident.inst, a.nonce, s) !in w.volumes
  {
    assert VolumeName(a.ident.inst, a.nonce, s) in SidecarVolumes(a.ident.inst, a.nonce);
  }

  /** With the claim made, build; on any failure roll back. */
  method BuildOrRollBack(d: Daemon, h: SlotHash, a: Attempt, p: Plan, ghost w0: World)
    returns (r: CreateResult, ghost leak: Option<nat>, ghost refs: seq<CacheRef>)
    requires IsNonce(a.nonce) && WellPlanned(p) && "" !in w0.volumes && Bounded(w0) && Fresh(w0, a)
    requires d.View() == AddNetwork(w0, JobNetworkName(a.ident.inst), ResourceLabels(a.ident, ResourceJobNetwork, p.at, a.nonce))
    modifies d
    ensures Untouched(w0, d.View())
    ensures r.Succeeded? || r.RolledBack?
    ensures leak.Some? ==> p.externals.Some?
    ensures r == RolledBack([]) ==> Restored(w0, d.View(), a.ident.ctrl, leak)
    ensures r.Succeeded? ==>
              && Grown(w0, d.View(), a, leak)
              && Serves(w0, d.View(), a, p, refs, r.runner) && r.runner in d.delivered
    ensures old(d.faults) == [] ==> leak.None?
    ensures ClearWay(w0, a, p) && !MeetsSysctl(p, old(d.faults)) ==> (r.Succeeded? <==> BuildsFine(p, old(d.faults)))
    ensures ReachesSeed(w0, a, p, old(d.faults)) && p.externals.Some? ==> (leak.Some? <==> Strands(Drop(old(d.faults), SeedAt(p))))
    ensures (&& ReachesSeed(w0, a, p, old(d.faults)) && p.externals.Some? && LosesHelper(Drop(old(d.faults), SeedAt(p)))
             && Anchored(w0) && !NetworkNameTaken(w0, JobNetworkName(a.ident.inst))) ==> r == RolledBack([]) && leak.Some?
    ensures (&& ClearWay(w0, a, p) && !MeetsSysctl(p, old(d.faults)) && OnlyLast(old(d.faults))
             && Anchored(w0) && !NetworkNameTaken(w0, JobNetworkName(a.ident.inst))) ==> r.Succeeded? || r == RolledBack([])
  {
    hide Grown, Serves, Untouched, Restored, Fresh, Strands, Drop, Head, FirstFine, AllWarm, BuildsFine, MeetsSysctl, LeftBehind, Anchored, NoNewCaches, SelfContained, OnlyLast;
    var l := ResourceLabels(a.ident, ResourceJobNetwork, p.at, a.nonce);
    ghost var apart := Anchored(w0) && !NetworkNameTaken(w0, JobNetworkName(a.ident.inst));
    ClaimGrows(w0, a, p.at);
    ClaimHolds(w0, a, l);
    ClaimClears(w0, a, p, l, d.faults);
    LostScript(d.faults, SeedAt(p));
    forall s ensures VolumeName(a.ident.inst, a.nonce, s) !in w0.volumes { FreshVolumes(w0, a, s); }
    var ok, runner;
    ok, runner, leak, refs := Build(d, h, a, p, w0);
    GrownUntouched(w0, d.View(), a, leak);
    if ok { return Succeeded(runner), leak, refs; }
    ghost var w := d.View();
    if apart { LeftIsApart(w0, w, a, l, leak); }
    var errs := Rollback(d, a.ident.ctrl, a.ident.inst, a.nonce);
    RollbackTouchesNothingElse(w0, w, d.View(), a, leak);
    if errs == [] { RollbackRestores(w0, w, a, leak); }
    r := RolledBack(errs);
  }

  lemma ClaimClears(w0: World, a: Attempt, p: Plan, l: Labels, s: seq<Fault>)
    ensures var w := AddNetwork(w0, JobNetworkName(a.ident.inst), l);
            (ClearWay(w0, a, p) <==> ClearWay(w, a, p)) && (ReachesSeed(w0, a, p, s) <==> ReachesSeed(w, a, p, s))
  {
  }

  /** The only fault is that the helper's create takes effect and reports an error. */
  predicate LosesHelper(s: seq<Fault>) {
    |s| == 1 && s[0].Ambiguous?
  }

  lemma LostScript(s: seq<Fault>, n: nat)
    ensures LosesHelper(Drop(s, n)) ==> Head(Drop(s, n)).Ambiguous? && Drop(s, n + 1) == [] && Strands(Drop(s, n))
  {
  }

  /** All the calls of a create, its claim first. */
  function CreateCalls(p: Plan): nat {
    1 + PrepareCalls(p) + LaunchCalls(p.dind, |AllWants(p)|)
  }

  function CreateRemovalAt(p: Plan): int {
    if p.externals.Some? then 1 + RemovalAt(p) else -1
  }

  lemma WholeScript(p: Plan, s: seq<Fault>)
    ensures FineBut(s, CreateCalls(p), CreateRemovalAt(p)) <==> Head(s) == Fine && BuildsFine(p, Rest(s))
    ensures Drop(Rest(s), PrepareCalls(p)) == Drop(s, 1 + PrepareCalls(p))
  {
    var n, m, x := PrepareCalls(p), LaunchCalls(p.dind, |AllWants(p)|), RemovalAt(p);
    assert -1 <= x < n;
    var u := Drop(s, 1 + n);
    assert u == Drop(Rest(s), n);
    if FineBut(s, CreateCalls(p), CreateRemovalAt(p)) {
      forall i | 0 <= i < n && i < |Rest(s)| && i != x ensures Rest(s)[i] == Fine { assert Rest(s)[i] == s[i + 1]; }
      forall i | 0 <= i < m && i < |u| ensures u[i] == Fine { assert u[i] == s[i + 1 + n]; }
    }
    if Head(s) == Fine && BuildsFine(p, Rest(s)) {
      forall i | 0 <= i < CreateCalls(p) && i < |s| && i != CreateRemovalAt(p) ensures s[i] == Fine {
        if 0 < i <= n { assert s[i] == Rest(s)[i - 1]; }
        if i > n { assert s[i] == u[i - 1 - n]; }
      }
    }
  }

  /** CreateInstance is all or nothing. A duplicate or foreign claim leaves the daemon as it was. After a
      failure at any call, including one that took effect although it reported an error, an error-free
      rollback leaves what was there before the claim, but for added cache volumes and the one helper `leak`
      names. On a way that is clear up to the helper's create, a helper is left exactly when the script from
      there strands it. Success means the attempt's runner runs on validated caches and has its credentials. On a
      clear way, where the sysctl is no matter, a create succeeds exactly when none of its calls, but the helper's
      removal, meets a fault; and whichever single call fails there, everything is undone without an error. */
  method CreateInstance(d: Daemon, h: SlotHash, a: Attempt, p: Plan)
    returns (r: CreateResult, ghost leak: Option<nat>, ghost refs: seq<CacheRef>)
    requires IsNonce(a.nonce) && WellPlanned(p) && "" !in d.volumes && Bounded(d.View()) && Fresh(d.View(), a)
    modifies d
    ensures Untouched(old(d.View()), d.View())
    ensures r.AlreadyExists? || r.NameRefused? ==> d.View() == old(d.View())
    ensures r.AlreadyExists? ==> OwnClaimHolds(old(d.View()), a.ident)
    ensures (&& !Head(old(d.faults)).Reject? && Head(Rest(old(d.faults))) == Fine
             && old(NetworkNameTaken(d.View(), JobNetworkName(a.ident.inst)))) ==>
              r == if OwnClaimHolds(old(d.View()), a.ident) then AlreadyExists else NameRefused
    ensures leak.Some? ==> p.externals.Some? && (r.Succeeded? || r.RolledBack?)
    ensures r == ClaimNotMade([]) || r == RolledBack([]) ==> Restored(old(d.View()), d.View(), a.ident.ctrl, leak)
    ensures r.Succeeded? ==>
              && Grown(old(d.View()), d.View(), a, leak)
              && Serves(old(d.View()), d.View(), a, p, refs, r.runner) && r.runner in d.delivered
    ensures old(d.faults) == [] ==> leak.None? && (r.AlreadyExists? <==> OwnClaimHolds(old(d.View()), a.ident))
    ensures (&& ClearWay(old(d.View()), a, p) && !NetworkNameTaken(old(d.View()), JobNetworkName(a.ident.inst))
             && !(p.sysctl && SysctlHit(Drop(old(d.faults), 1 + PrepareCalls(p)), |AllWants(p)|))) ==>
              (r.Succeeded? <==> FineBut(old(d.faults), CreateCalls(p), CreateRemovalAt(p)))
    ensures ReachesSeedAfterClaim(old(d.View()), a, p, old(d.faults)) && p.externals.Some? ==>
              (leak.Some? <==> Strands(Drop(old(d.faults), 1 + SeedAt(p))))
    ensures (&& ReachesSeedAfterClaim(old(d.View()), a, p, old(d.faults)) && p.externals.Some?
             && LosesHelper(Drop(old(d.faults), 1 + SeedAt(p))) && Anchored(old(d.View()))) ==> r == RolledBack([]) && leak.Some?
    ensures (&& ClearWay(old(d.View()), a, p) && !NetworkNameTaken(old(d.View()), JobNetworkName(a.ident.inst)) && Anchored(old(d.View()))
             && OnlyLast(old(d.faults)) && !(p.sysctl && SysctlHit(Drop(old(d.faults), 1 + PrepareCalls(p)), |AllWants(p)|))) ==>
              r.Succeeded? || r == RolledBack([]) || r == ClaimNotMade([])
  {
    hide Grown, Serves, Strands, Drop, Head, FirstFine, AllWarm, Anchored, Untouched, ClearWay, LosesHelper, ReachesSeed, Restored, FineBut, BuildsFine, SysctlHit, NetworkNameTaken, Fresh, OnlyLast;
    if OnlyLast(d.faults) { LastCall(d.faults, 0); }
    if Anchored(d.View()) { NobodyAttached(d.View(), JobNetworkName(a.ident.inst)); }
    OneFault(d.faults);
    leak, refs := None, [];
    ghost var w0, s0 := d.View(), d.faults;
    AfterClaim(w0, a, p, s0);
    WholeScript(p, s0);
    EmptyIsFine(s0, 1);
    var c := CreateClaimNetwork(d, a, p.at);
    match c {
      case Duplicate => GrownItself(w0); return AlreadyExists, leak, refs;
      case ForeignName => GrownItself(w0); return NameRefused, leak, refs;
      case Unclassified => GrownItself(w0); return NameRefused, leak, refs;
      case ClaimFailed(errs) =>
        GrownUntouched(w0, d.View(), a, None);
        if errs == [] { ClaimUndone(w0, d.View(), a.ident.ctrl); }
        return ClaimNotMade(errs), leak, refs;
      case Claimed(_) =>
    }
    r, leak, refs := BuildOrRollBack(d, h, a, p, w0);
  }

  lemma NobodyAttached(w: World, name: string)
    requires Anchored(w)
    ensures !NetworkNameTaken(w, name) ==> Unattached(w.containers, name)
  {
  }

  lemma OneFault(s: seq<Fault>)
    ensures Head(s) != Fine && Rest(s) == [] ==> s == [Head(s)]
  {
  }

  lemma GrownItself(w: World)
    ensures Untouched(w, w)
  {
  }

  /** The name is free, and nothing stands in the way up to the helper's create. */
  ghost predicate ReachesSeedAfterClaim(w: World, a: Attempt, p: Plan, s: seq<Fault>) {
    !NetworkNameTaken(w, JobNetworkName(a.ident.inst)) && ClearWay(w, a, p) && FirstFine(s, 1 + SeedAt(p))
  }

  lemma AfterClaim(w: World, a: Attempt, p: Plan, s: seq<Fault>)
    ensures ReachesSeedAfterClaim(w, a, p, s) ==> Head(s) == Fine && ReachesSeed(w, a, p, Rest(s)) && !NetworkNameTaken(w, JobNetworkName(a.ident.inst))
    ensures Drop(Rest(s), SeedAt(p)) == Drop(s, 1 + SeedAt(p))
  {
  }

  lemma ClaimUndone(w0: World, w: World, ctrl: string)
    requires w.containers == w0.containers && w.volumes == w0.volumes && w.networks == w0.networks
    ensures Restored(w0, w, ctrl, None)
  {
  }

  // ---------------------------------------------------------------- a helper is left behind

  /** A daemon that holds one volume. */
  function OneVolume(name: string, l: Labels): World {
    World(map[], map[], map[name := l], 0)
  }

  function SeedPlan(want: CacheRef, helper: string, at: string): Plan {
    Plan(NoDind, [], Some(want), helper, false, at)
  }

  function FineFor(n: nat): (s: seq<Fault>)
    ensures |s| == n && FirstFine(s, n)
  {
    seq(n, _ => Fine)
  }

  lemma OneVolumeIsClear(a: Attempt, want: CacheRef, helper: string, at: string, x: bool)
    requires IsCache(want.want) && helper != RunnerContainerName(a.ident.inst) && helper != DindContainerName(a.ident.inst)
    ensures var s := FineFor(1 + SeedAt(SeedPlan(want, helper, at))) + [Ambiguous(x)];
            && ReachesSeedAfterClaim(OneVolume(want.name, want.want), a, SeedPlan(want, helper, at), s)
            && LosesHelper(Drop(s, 1 + SeedAt(SeedPlan(want, helper, at))))
            && Anchored(OneVolume(want.name, want.want))
  {
    var w := OneVolume(want.name, want.want);
    assert ValidAdopted(w.volumes[want.name], want.want);
  }

  /** All or nothing does fail: for every attempt on a daemon that holds the externals cache, a create whose only
      fault is that the seed helper's create takes effect and reports an error rolls back without an error, and
      the helper is still there. */
  method HelperLeftBehind(h: SlotHash, a: Attempt, want: CacheRef, helper: string, at: string, x: bool)
    returns (d: Daemon, r: CreateResult, ghost leak: Option<nat>)
    requires IsNonce(a.nonce) && IsCache(want.want) && want.name != "" && Get(want.want, CreateNonce) != a.nonce
    requires want.name !in SidecarVolumes(a.ident.inst, a.nonce)
    requires helper != RunnerContainerName(a.ident.inst) && helper != DindContainerName(a.ident.inst)
    ensures fresh(d) && r == RolledBack([])
    ensures leak.Some? && Restored(OneVolume(want.name, want.want), d.View(), a.ident.ctrl, leak)
    ensures d.View().containers.Keys == {leak.value}
  {
    hide ReachesSeedAfterClaim, LosesHelper, Anchored, Drop;
    var p := SeedPlan(want, helper, at);
    OneVolumeIsClear(a, want, helper, at, x);
    d := new Daemon(OneVolume(want.name, want.want), FineFor(1 + SeedAt(p)) + [Ambiguous(x)], _ => None);
    ghost var refs;
    r, leak, refs := CreateInstance(d, h, a, p);
  }
}
