/** Docker labels, the ownership predicate and the label builders (internal/spec/labels.go,
    internal/spec/cache.go, internal/spec/externals.go, internal/spec/diag.go). */
module LabelSpec {

  /** The `garm.docker/...` label keys. `Foreign` is any key outside that namespace. */
  datatype Key =
    | Managed | ControllerID | PoolID | InstanceName | Role | Resource | CreatedAt
    | Cache | Repo | RepoURLDigest | Generation | PnpmMajor | LastUsed | CacheKind
    | ImageDigest | OSRelease | OSType | OSArch | CreateNonce
    | Foreign(name: string)

  type Labels = map<Key, string>

  const RoleRunner := "runner"
  const RoleDind := "dind"
  const RoleCacheHelper := "cache-helper"
  const RoleDiagPruneStamp := "diag-prune-stamp"
  const RoleThrottleStamp := "throttle-stamp"
  const ResourceJobNetwork := "job-network"
  const KindToolcache := "toolcache"
  const KindPnpm := "pnpm"
  const KindExternals := "externals"
  const KindDiagLogs := "diag-logs"

  /** `labels[k]` on a Go map: a missing key reads as the empty string. */
  function Get(l: Labels, k: Key): string {
    if k in l then l[k] else ""
  }

  /** A Docker label filter: every key must be present and, where a value is given, equal it. */
  type Filter = map<Key, FilterValue>
  datatype FilterValue = Present | Equals(value: string)

  predicate Matches(f: Filter, l: Labels) {
    forall k :: k in f ==> k in l && (f[k].Equals? ==> l[k] == f[k].value)
  }

  predicate MatchesPredicate(l: Labels, ctrl: string) {
    Get(l, Managed) == "true" && Get(l, ControllerID) == ctrl && InstanceName in l && Get(l, Cache) != "true"
  }

  /** A job-scoped resource of some controller. */
  predicate IsJob(l: Labels) {
    MatchesPredicate(l, Get(l, ControllerID))
  }

  predicate IsCache(l: Labels) {
    Get(l, Managed) == "true" && Get(l, Cache) == "true"
  }

  function MatchPredicateFilters(ctrl: string): Filter {
    map[Managed := Equals("true"), ControllerID := Equals(ctrl), InstanceName := Present]
  }

  function InstanceScopedFilter(ctrl: string, inst: string): Filter {
    map[Managed := Equals("true"), ControllerID := Equals(ctrl), InstanceName := Equals(inst)]
  }

  function InstanceScopedNonceFilter(ctrl: string, inst: string, nonce: string): Filter {
    InstanceScopedFilter(ctrl, inst)[CreateNonce := Equals(nonce)]
  }

  function ClaimFilter(ctrl: string, inst: string): Filter {
    InstanceScopedFilter(ctrl, inst)[Resource := Equals(ResourceJobNetwork)]
  }

  function NonceFilter(ctrl: string, nonce: string): Filter {
    map[Managed := Equals("true"), ControllerID := Equals(ctrl), CreateNonce := Equals(nonce)]
  }

  /** What a filter says, key by key: the definitional quantifier, instantiated. */
  lemma MatchesInstance(ctrl: string, inst: string, l: Labels)
    ensures Matches(InstanceScopedFilter(ctrl, inst), l) <==>
            Get(l, Managed) == "true" && ControllerID in l && l[ControllerID] == ctrl
            && InstanceName in l && l[InstanceName] == inst
  {
    var f := InstanceScopedFilter(ctrl, inst);
    assert Managed in f && ControllerID in f && InstanceName in f;
  }

  lemma MatchesClaim(ctrl: string, inst: string, l: Labels)
    ensures Matches(ClaimFilter(ctrl, inst), l) <==>
            Matches(InstanceScopedFilter(ctrl, inst), l) && Get(l, Resource) == ResourceJobNetwork
  {
    var f := ClaimFilter(ctrl, inst);
    MatchesInstance(ctrl, inst, l);
    assert Managed in f && ControllerID in f && InstanceName in f && Resource in f;
  }

  lemma MatchesInstanceNonce(ctrl: string, inst: string, nonce: string, l: Labels)
    ensures Matches(InstanceScopedNonceFilter(ctrl, inst, nonce), l) <==>
            Matches(InstanceScopedFilter(ctrl, inst), l) && CreateNonce in l && l[CreateNonce] == nonce
  {
    var f := InstanceScopedNonceFilter(ctrl, inst, nonce);
    MatchesInstance(ctrl, inst, l);
    assert Managed in f && ControllerID in f && InstanceName in f && CreateNonce in f;
  }

  lemma MatchesNonce(ctrl: string, nonce: string, l: Labels)
    ensures Matches(NonceFilter(ctrl, nonce), l) <==>
            Get(l, Managed) == "true" && ControllerID in l && l[ControllerID] == ctrl
            && CreateNonce in l && l[CreateNonce] == nonce
  {
    var f := NonceFilter(ctrl, nonce);
    assert Managed in f && ControllerID in f && CreateNonce in f;
  }

  lemma MatchesController(ctrl: string, l: Labels)
    ensures Matches(MatchPredicateFilters(ctrl), l) <==>
            Get(l, Managed) == "true" && ControllerID in l && l[ControllerID] == ctrl && InstanceName in l
  {
    var f := MatchPredicateFilters(ctrl);
    assert Managed in f && ControllerID in f && InstanceName in f;
  }

  /** What a job-scoped resource's labels derive from. */
  datatype AllocationIdentity = AllocationIdentity(ctrl: string, pool: string, inst: string)

  function BaseLabels(id: AllocationIdentity, createdAt: string): Labels {
    map[Managed := "true", ControllerID := id.ctrl, PoolID := id.pool, InstanceName := id.inst, CreatedAt := createdAt]
  }

  /** Labels of a job-scoped network or volume of the given kind, stamped with the attempt's nonce. */
  function ResourceLabels(id: AllocationIdentity, resource: string, createdAt: string, nonce: string): (l: Labels)
    ensures MatchesPredicate(l, id.ctrl) && l[InstanceName] == id.inst && CreateNonce in l && l[CreateNonce] == nonce
    ensures Get(l, Resource) == resource
  {
    BaseLabels(id, createdAt)[Resource := resource][CreateNonce := nonce]
  }

  /** Labels of a job-scoped container of the given role, stamped with the attempt's nonce. */
  function ContainerLabels(id: AllocationIdentity, role: string, createdAt: string, nonce: string): (l: Labels)
    ensures MatchesPredicate(l, id.ctrl) && l[InstanceName] == id.inst && CreateNonce in l && l[CreateNonce] == nonce
    ensures Get(l, Role) == role
  {
    BaseLabels(id, createdAt)[Role := role][CreateNonce := nonce]
  }

  /** Labels of a provider-owned container that is no job allocation: a cache helper or a stamp. */
  function OwnedHelperLabels(ctrl: string, role: string, createdAt: string): (l: Labels)
    ensures !IsJob(l)
  {
    map[Managed := "true", ControllerID := ctrl, Role := role, CreatedAt := createdAt]
  }

  /** ownsVolumeForReplacement: a job volume of this controller, of the wanted instance and kind. */
  predicate OwnsForReplacement(existing: Labels, want: Labels, ctrl: string)
    requires InstanceName in want
  {
    && MatchesPredicate(existing, ctrl)
    && Get(existing, InstanceName) == want[InstanceName]
    && Get(existing, Resource) == Get(want, Resource)
  }

  /** This controller's helper or stamp of a role: managed, that role, and no instance name. */
  predicate IsOwnHelper(l: Labels, ctrl: string, role: string) {
    Get(l, Managed) == "true" && Get(l, ControllerID) == ctrl && Get(l, Role) == role && InstanceName !in l
  }

  // ---------------------------------------------------------------- cache identity

  const IdentityKeys: seq<Key> :=
    [CacheKind, Repo, RepoURLDigest, ImageDigest, Generation, PnpmMajor, OSRelease]

  /** ValidateAdoptedCacheVolume: a managed cache that agrees on every identity key `want` sets. */
  predicate ValidAdopted(got: Labels, want: Labels) {
    IsCache(got) && forall k :: k in IdentityKeys && Get(want, k) != "" ==> Get(got, k) == Get(want, k)
  }

  function RequiredKeys(kind: string): seq<Key> {
    if kind == KindToolcache then [Repo, RepoURLDigest, Generation]
    else if kind == KindPnpm then [Repo, RepoURLDigest, PnpmMajor]
    else if kind == KindDiagLogs then [Repo, RepoURLDigest]
    else if kind == KindExternals then [ImageDigest]
    else []
  }

  /** ValidateCacheVolumeKind: a managed cache carrying every key its (known) kind requires. */
  predicate ValidKind(l: Labels) {
    IsCache(l) && RequiredKeys(Get(l, CacheKind)) != [] &&
    forall k :: k in RequiredKeys(Get(l, CacheKind)) ==> Get(l, k) != ""
  }

  predicate ValidDiagPruneTarget(got: Labels, snapshot: Labels, ctrl: string) {
    && ValidKind(got)
    && Get(got, CacheKind) == KindDiagLogs
    && Get(got, ControllerID) == ctrl
    && Get(got, Repo) == Get(snapshot, Repo)
    && Get(got, RepoURLDigest) == Get(snapshot, RepoURLDigest)
  }
}
