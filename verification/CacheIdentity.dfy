/** What a cache volume's labels and preferred name derive from (internal/spec/cache.go,
    internal/spec/externals.go, internal/spec/diag.go). */
module CacheIdentity {
  import opened LabelSpec

  datatype Identity =
    | Toolcache(repoKey: string, urlDigest: string, osKey: string, generation: string)
    | Pnpm(repoKey: string, urlDigest: string, osKey: string, pnpmMajor: string)
    | DiagLogs(repoKey: string, urlDigest: string)
    | Externals(imageDigest: string)

  /** No part is empty: a repository key and a digest never are, and the configuration check and the image
      inspections refuse an empty generation, pnpm major, OS key or content identifier. */
  predicate Proper(id: Identity) {
    match id
    case Toolcache(r, u, o, g) => r != "" && u != "" && o != "" && g != ""
    case Pnpm(r, u, o, m) => r != "" && u != "" && o != "" && m != ""
    case DiagLogs(r, u) => r != "" && u != ""
    case Externals(i) => i != ""
  }

  function BaseCacheLabels(kind: string, ctrl: string, repoKey: string, urlDigest: string, lastUsed: string): Labels {
    var l := map[Managed := "true", ControllerID := ctrl, Cache := "true", CacheKind := kind, Repo := repoKey, LastUsed := lastUsed];
    if urlDigest != "" then l[RepoURLDigest := urlDigest] else l
  }

  function WithOSKey(l: Labels, osKey: string): Labels {
    if osKey != "" then l[OSRelease := osKey] else l
  }

  function CacheLabels(id: Identity, ctrl: string, lastUsed: string): Labels {
    match id
    case Toolcache(r, u, o, g) => WithOSKey(BaseCacheLabels(KindToolcache, ctrl, r, u, lastUsed)[Generation := g], o)
    case Pnpm(r, u, o, m) => WithOSKey(BaseCacheLabels(KindPnpm, ctrl, r, u, lastUsed)[PnpmMajor := m], o)
    case DiagLogs(r, u) => BaseCacheLabels(KindDiagLogs, ctrl, r, u, lastUsed)
    case Externals(i) =>
      map[Managed := "true", ControllerID := ctrl, Cache := "true", CacheKind := KindExternals, ImageDigest := i, LastUsed := lastUsed]
  }

  function PreferredName(id: Identity): string {
    match id
    case Toolcache(r, _, o, g) => "garm-cache-toolcache-" + r + "-" + o + "-" + g
    case Pnpm(r, _, o, m) => "garm-cache-pnpm-" + r + "-" + o + "-" + m
    case DiagLogs(r, _) => "garm-cache-diag-logs-" + r
    case Externals(i) => "garm-cache-externals-" + i
  }

  predicate HasEnd(s: string, e: string) {
    |e| <= |s| && s[|s| - |e|..] == e
  }

  lemma JoinedEnds(a: string, e: string)
    ensures a <= a + e && HasEnd(a + e, e)
  {
  }

  lemma ThreeParts(a: string, r: string, o: string, g: string)
    ensures a + r + "-" + o + "-" + g == a + (r + "-" + o + "-" + g)
  {
  }

  /** A preferred name shows that it is a cache and of which kind, and ends with what tells caches of its kind apart
      to a reader. */
  lemma NamesShowKind(id: Identity)
    ensures id.Toolcache? ==> "garm-cache-toolcache-" <= PreferredName(id) && HasEnd(PreferredName(id), id.repoKey + "-" + id.osKey + "-" + id.generation)
    ensures id.Pnpm? ==> "garm-cache-pnpm-" <= PreferredName(id) && HasEnd(PreferredName(id), id.repoKey + "-" + id.osKey + "-" + id.pnpmMajor)
    ensures id.DiagLogs? ==> "garm-cache-diag-logs-" <= PreferredName(id) && HasEnd(PreferredName(id), id.repoKey)
    ensures id.Externals? ==> "garm-cache-externals-" <= PreferredName(id) && HasEnd(PreferredName(id), id.imageDigest)
  {
    hide HasEnd;
    match id
    case Toolcache(r, _, o, g) =>
      ThreeParts("garm-cache-toolcache-", r, o, g);
      JoinedEnds("garm-cache-toolcache-", r + "-" + o + "-" + g);
    case Pnpm(r, _, o, m) =>
      ThreeParts("garm-cache-pnpm-", r, o, m);
      JoinedEnds("garm-cache-pnpm-", r + "-" + o + "-" + m);
    case DiagLogs(r, _) => JoinedEnds("garm-cache-diag-logs-", r);
    case Externals(i) => JoinedEnds("garm-cache-externals-", i);
  }

  /** The volume carries this cache's identity, whoever created it and whenever. */
  predicate Carries(l: Labels, id: Identity) {
    ValidAdopted(l, CacheLabels(id, "", ""))
  }

  lemma CreatorIrrelevant(l: Labels, id: Identity, ctrl: string, lastUsed: string)
    ensures ValidAdopted(l, CacheLabels(id, ctrl, lastUsed)) <==> Carries(l, id)
  {
    var a, b := CacheLabels(id, ctrl, lastUsed), CacheLabels(id, "", "");
    forall k | k in IdentityKeys ensures Get(a, k) == Get(b, k) { }
  }

  /** The identity, key by key. */
  function Part(id: Identity, k: Key): string {
    match id
    case Toolcache(r, u, o, g) =>
      if k == CacheKind then KindToolcache else if k == Repo then r else if k == RepoURLDigest then u
      else if k == OSRelease then o else if k == Generation then g else ""
    case Pnpm(r, u, o, m) =>
      if k == CacheKind then KindPnpm else if k == Repo then r else if k == RepoURLDigest then u
      else if k == OSRelease then o else if k == PnpmMajor then m else ""
    case DiagLogs(r, u) =>
      if k == CacheKind then KindDiagLogs else if k == Repo then r else if k == RepoURLDigest then u else ""
    case Externals(i) => if k == CacheKind then KindExternals else if k == ImageDigest then i else ""
  }

  lemma LabelsSayParts(id: Identity, ctrl: string, lastUsed: string, k: Key)
    requires k in IdentityKeys
    ensures Get(CacheLabels(id, ctrl, lastUsed), k) == Part(id, k)
  {
    hide KindToolcache, KindPnpm, KindDiagLogs, KindExternals;
    IdentityKeysAre(k);
  }

  lemma CacheLabelsAreCache(id: Identity, ctrl: string, lastUsed: string)
    ensures IsCache(CacheLabels(id, ctrl, lastUsed))
  {
  }

  /** Adoption compares the identities part by part. */
  lemma AdoptionByParts(made: Identity, wanted: Identity, ctrl: string, lastUsed: string)
    ensures Carries(CacheLabels(made, ctrl, lastUsed), wanted) <==>
              forall k :: k in IdentityKeys && Part(wanted, k) != "" ==> Part(made, k) == Part(wanted, k)
  {
    hide CacheLabels, Part;
    CacheLabelsAreCache(made, ctrl, lastUsed);
    forall k | k in IdentityKeys
      ensures Get(CacheLabels(made, ctrl, lastUsed), k) == Part(made, k)
      ensures Get(CacheLabels(wanted, "", ""), k) == Part(wanted, k)
    {
      LabelsSayParts(made, ctrl, lastUsed, k);
      LabelsSayParts(wanted, "", "", k);
    }
  }

  lemma KindsDiffer()
    ensures KindToolcache != KindPnpm && KindToolcache != KindDiagLogs && KindToolcache != KindExternals
    ensures KindPnpm != KindDiagLogs && KindPnpm != KindExternals && KindDiagLogs != KindExternals
  {
    assert KindToolcache[0] == 't' && KindPnpm[0] == 'p' && KindDiagLogs[0] == 'd' && KindExternals[0] == 'e';
  }

  /** The constructor, as a number. */
  function Tag(id: Identity): nat {
    match id
    case Toolcache(_, _, _, _) => 0
    case Pnpm(_, _, _, _) => 1
    case DiagLogs(_, _) => 2
    case Externals(_) => 3
  }

  lemma KindTags(a: Identity, b: Identity)
    requires Part(a, CacheKind) == Part(b, CacheKind)
    ensures Tag(a) == Tag(b)
  {
    KindsDiffer();
  }

  lemma IdentityKeysAre(k: Key)
    ensures k in IdentityKeys <==> k in {CacheKind, Repo, RepoURLDigest, ImageDigest, Generation, PnpmMajor, OSRelease}
  {
  }

  /** The wanted identity names the part, or names none. */
  predicate Agrees(made: Identity, wanted: Identity, k: Key) {
    Part(wanted, k) == "" || Part(made, k) == Part(wanted, k)
  }

  lemma AgreementDetermines(made: Identity, wanted: Identity)
    requires Proper(made) && Proper(wanted) && Tag(made) == Tag(wanted)
    requires Agrees(made, wanted, Repo) && Agrees(made, wanted, RepoURLDigest) && Agrees(made, wanted, ImageDigest)
    requires Agrees(made, wanted, Generation) && Agrees(made, wanted, PnpmMajor) && Agrees(made, wanted, OSRelease)
    ensures made == wanted
  {
  }

  lemma KindIsNamed(id: Identity)
    ensures Part(id, CacheKind) != ""
  {
    assert KindToolcache[0] == 't' && KindPnpm[0] == 'p' && KindDiagLogs[0] == 'd' && KindExternals[0] == 'e';
  }

  lemma PartsDetermine(made: Identity, wanted: Identity)
    requires Proper(made) && Proper(wanted)
    requires forall k :: k in IdentityKeys && Part(wanted, k) != "" ==> Part(made, k) == Part(wanted, k)
    ensures made == wanted
  {
    hide Part, Proper, Tag;
    var keys := IdentityKeys;
    forall k | k in {CacheKind, Repo, RepoURLDigest, ImageDigest, Generation, PnpmMajor, OSRelease} ensures Agrees(made, wanted, k) {
      IdentityKeysAre(k);
    }
    KindIsNamed(wanted);
    KindTags(made, wanted);
    AgreementDetermines(made, wanted);
  }

  /** A volume the provider made for one cache is adopted for another exactly when they are the same cache:
      two repositories, OS releases, salts or images never share a volume, however their names collide. */
  lemma AdoptedExactly(made: Identity, wanted: Identity, ctrl: string, lastUsed: string)
    requires Proper(made) && Proper(wanted)
    ensures Carries(CacheLabels(made, ctrl, lastUsed), wanted) <==> made == wanted
  {
    AdoptionByParts(made, wanted, ctrl, lastUsed);
    if Carries(CacheLabels(made, ctrl, lastUsed), wanted) { PartsDetermine(made, wanted); }
  }

  /** A volume the provider made is pruned of logs, on behalf of a controller that saw a log volume, exactly when it
      is that repository's log volume and the controller made it. */
  lemma PruneTargetExactly(made: Identity, maker: string, t: string, seen: Identity, c: string, u: string, ctrl: string)
    requires Proper(made) && Proper(seen) && seen.DiagLogs?
    ensures ValidDiagPruneTarget(CacheLabels(made, maker, t), CacheLabels(seen, c, u), ctrl) <==> made == seen && maker == ctrl
  {
    KindsDiffer();
    var l, s := CacheLabels(made, maker, t), CacheLabels(seen, c, u);
    assert Get(l, ControllerID) == maker && Get(s, Repo) == seen.repoKey && Get(s, RepoURLDigest) == seen.urlDigest;
    if made.DiagLogs? { DiagLabels(made, maker, t); }
  }

  lemma DiagLabels(id: Identity, ctrl: string, t: string)
    requires Proper(id) && id.DiagLogs?
    ensures var l := CacheLabels(id, ctrl, t);
            Get(l, Repo) == id.repoKey && Get(l, RepoURLDigest) == id.urlDigest && Get(l, CacheKind) == KindDiagLogs && ValidKind(l)
  {
    KindsDiffer();
  }

  /** No cache volume the provider makes is ever in reach of a teardown, a sweep or a rollback. */
  lemma NeverTeardownTarget(id: Identity, ctrl: string, lastUsed: string, other: string)
    ensures IsCache(CacheLabels(id, ctrl, lastUsed)) && !MatchesPredicate(CacheLabels(id, ctrl, lastUsed), other)
  {
  }
}
