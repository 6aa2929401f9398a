/** The runner's environment: what the provider injects and what extra_specs may add (internal/spec/env.go,
    internal/provider/create.go, internal/extraspecs/extraspecs.go). */
module RunnerEnv {
  import opened Text

  // ---------------------------------------------------------------- entries

  function Entry(name: string, value: string): string {
    name + "=" + value
  }

  /** The part of an entry before its first '='. */
  function VarName(e: string): string {
    if e == "" || e[0] == '=' then "" else [e[0]] + VarName(e[1..])
  }

  lemma {:induction false} EntryNamed(name: string, value: string)
    requires '=' !in name
    ensures VarName(Entry(name, value)) == name && '=' in Entry(name, value)
  {
    var e := Entry(name, value);
    assert e[|name|] == '=';
    if name == "" {
    } else {
      assert e[1..] == Entry(name[1..], value);
      EntryNamed(name[1..], value);
      assert name == [name[0]] + name[1..];
    }
  }

  predicate WellFormed(env: seq<string>) {
    forall i :: 0 <= i < |env| ==> '=' in env[i]
  }

  /** Each variable is set at most once. */
  ghost predicate DistinctNames(env: seq<string>) {
    forall i, j :: 0 <= i < j < |env| ==> VarName(env[i]) != VarName(env[j])
  }

  function NamesOf(env: seq<string>): set<string> {
    set i | 0 <= i < |env| && '=' in env[i] :: VarName(env[i])
  }

  // ---------------------------------------------------------------- the provider's variables

  /** In the order they are emitted. */
  datatype Var =
    | JitConfigEnabled | RunnerWorkDir | GitHubUrl | DisableRunnerUpdate
    | DockerHost | DockerSockGid | RunnerToolCache
    | NpmStoreDir | PnpmStoreDir | NpmCacheDir | PnpmCacheDir
    | RunnerEnterprise | RunnerOrg | RunnerRepo
    | RunnerGroup | RunnerName | RunnerLabels | RunnerNoDefaultLabels | RunnerEphemeral
    | DiagDir | ExternalsSeededMarker

  function Name(v: Var): string {
    match v
    case JitConfigEnabled => "JIT_CONFIG_ENABLED"
    case RunnerWorkDir => "RUNNER_WORKDIR"
    case GitHubUrl => "GITHUB_URL"
    case DisableRunnerUpdate => "DISABLE_RUNNER_UPDATE"
    case DockerHost => "DOCKER_HOST"
    case DockerSockGid => "DOCKER_SOCK_GID"
    case RunnerToolCache => "RUNNER_TOOL_CACHE"
    case NpmStoreDir => "npm_config_store_dir"
    case PnpmStoreDir => "pnpm_config_store_dir"
    case NpmCacheDir => "npm_config_cache_dir"
    case PnpmCacheDir => "pnpm_config_cache_dir"
    case RunnerEnterprise => "RUNNER_ENTERPRISE"
    case RunnerOrg => "RUNNER_ORG"
    case RunnerRepo => "RUNNER_REPO"
    case RunnerGroup => "RUNNER_GROUP"
    case RunnerName => "RUNNER_NAME"
    case RunnerLabels => "RUNNER_LABELS"
    case RunnerNoDefaultLabels => "RUNNER_NO_DEFAULT_LABELS"
    case RunnerEphemeral => "RUNNER_EPHEMERAL"
    case DiagDir => "GARM_DIAG_DIR"
    case ExternalsSeededMarker => "GARM_EXTERNALS_SEEDED_MARKER"
  }

  function Index(v: Var): nat {
    match v
    case JitConfigEnabled => 0 case RunnerWorkDir => 1 case GitHubUrl => 2 case DisableRunnerUpdate => 3
    case DockerHost => 4 case DockerSockGid => 5 case RunnerToolCache => 6
    case NpmStoreDir => 7 case PnpmStoreDir => 8 case NpmCacheDir => 9 case PnpmCacheDir => 10
    case RunnerEnterprise => 11 case RunnerOrg => 12 case RunnerRepo => 13
    case RunnerGroup => 14 case RunnerName => 15 case RunnerLabels => 16 case RunnerNoDefaultLabels => 17 case RunnerEphemeral => 18
    case DiagDir => 19 case ExternalsSeededMarker => 20
  }

  /** Length and three characters tell the names apart. */
  function Fingerprint(s: string): (nat, char, char, char)
    requires |s| >= 10
  {
    (|s|, s[0], s[7], if |s| > 12 then s[if |s| == 20 then 11 else 12] else ' ')
  }

  function FingerprintOf(v: Var): (nat, char, char, char) {
    match v
    case JitConfigEnabled => (18, 'J', 'F', 'N')
    case RunnerWorkDir => (14, 'R', 'W', 'I')
    case GitHubUrl => (10, 'G', 'U', ' ')
    case DisableRunnerUpdate => (21, 'D', '_', 'E')
    case DockerHost => (11, 'D', 'H', ' ')
    case DockerSockGid => (15, 'D', 'S', 'G')
    case RunnerToolCache => (17, 'R', 'T', 'C')
    case NpmStoreDir => (20, 'n', 'f', 's')
    case PnpmStoreDir => (21, 'p', 'n', 's')
    case NpmCacheDir => (20, 'n', 'f', 'c')
    case PnpmCacheDir => (21, 'p', 'n', 'c')
    case RunnerEnterprise => (17, 'R', 'E', 'P')
    case RunnerOrg => (10, 'R', 'O', ' ')
    case RunnerRepo => (11, 'R', 'R', ' ')
    case RunnerGroup => (12, 'R', 'G', ' ')
    case RunnerName => (11, 'R', 'N', ' ')
    case RunnerLabels => (13, 'R', 'L', 'S')
    case RunnerNoDefaultLabels => (24, 'R', 'N', 'F')
    case RunnerEphemeral => (16, 'R', 'E', 'E')
    case DiagDir => (13, 'G', 'A', 'R')
    case ExternalsSeededMarker => (28, 'G', 'T', 'L')
  }

  lemma NameFingerprint(v: Var)
    ensures |Name(v)| >= 10 && Fingerprint(Name(v)) == FingerprintOf(v)
  {
  }

  lemma NamesApart(v: Var, w: Var)
    requires Name(v) == Name(w)
    ensures v == w
  {
    NameFingerprint(v);
    NameFingerprint(w);
    FingerprintsApart(v, w);
  }

  lemma FingerprintsApart(v: Var, w: Var)
    requires FingerprintOf(v) == FingerprintOf(w)
    ensures v == w
  {
  }

  lemma NameHasNoEquals(v: Var)
    ensures '=' !in Name(v)
  {
    if Index(v) < 7 { EarlyNames(v); } else if Index(v) < 14 { MiddleNames(v); } else { LateNames(v); }
  }

  lemma EarlyNames(v: Var)
    requires Index(v) < 7
    ensures '=' !in Name(v)
  {
  }

  lemma MiddleNames(v: Var)
    requires 7 <= Index(v) < 14
    ensures '=' !in Name(v)
  {
  }

  lemma LateNames(v: Var)
    requires 14 <= Index(v)
    ensures '=' !in Name(v)
  {
  }

  datatype Entity = Repository(org: string, repo: string) | Organization(name: string) | Enterprise(name: string)

  /** Empty strings and lists omit their variables. The entity, name, group and labels matter without JIT only. */
  datatype Options = Options(
    jit: bool, gitHubUrl: string, workDir: string, dockerHost: string, toolCacheDir: string, pnpmStoreDir: string,
    entity: Entity, runnerName: string, runnerGroup: string, labels: seq<string>, diagDir: string, seededMarker: string)

  const DindSocketGid := "2000"

  /** Directly under the store, never the store itself. Store paths are canonical (see MountPath). */
  function PnpmMetadataCacheDir(storeDir: string): string {
    if storeDir == "" then "" else storeDir + "/metadata-cache"
  }

  function Comma(labels: seq<string>): string {
    if labels == [] then "" else if |labels| == 1 then labels[0] else labels[0] + "," + Comma(labels[1..])
  }

  /** One list after another: a comma between them, and none at an end. */
  lemma {:induction false} CommaJoins(a: seq<string>, b: seq<string>)
    requires a != [] && b != []
    ensures Comma(a + b) == Comma(a) + "," + Comma(b)
    ensures |a| == 1 ==> Comma(a) == a[0]
  {
    if |a| > 1 {
      CommaJoins(a[1..], b);
      assert (a + b)[1..] == a[1..] + b;
    } else {
      assert (a + b)[1..] == b;
    }
  }

  /** What a configuration puts into each variable. */
  function ValueOf(o: Options, v: Var): string {
    match v
    case JitConfigEnabled => if o.jit then "true" else "false"
    case RunnerWorkDir => o.workDir
    case GitHubUrl => o.gitHubUrl
    case DisableRunnerUpdate => "true"
    case DockerHost => o.dockerHost
    case DockerSockGid => DindSocketGid
    case RunnerToolCache => o.toolCacheDir
    case NpmStoreDir => o.pnpmStoreDir
    case PnpmStoreDir => o.pnpmStoreDir
    case NpmCacheDir => PnpmMetadataCacheDir(o.pnpmStoreDir)
    case PnpmCacheDir => PnpmMetadataCacheDir(o.pnpmStoreDir)
    case RunnerEnterprise => if o.entity.Enterprise? then o.entity.name else ""
    case RunnerOrg => if o.entity.Repository? then o.entity.org else o.entity.name
    case RunnerRepo => if o.entity.Repository? then o.entity.repo else ""
    case RunnerGroup => o.runnerGroup
    case RunnerName => o.runnerName
    case RunnerLabels => Comma(o.labels)
    case RunnerNoDefaultLabels => "true"
    case RunnerEphemeral => "true"
    case DiagDir => o.diagDir
    case ExternalsSeededMarker => o.seededMarker
  }

  /** env emits exactly these variables with the configuration's values, in their order. */
  ghost predicate Emits(env: seq<string>, vars: seq<Var>, o: Options) {
    && |env| == |vars|
    && (forall i :: 0 <= i < |env| ==> '=' in env[i] && VarName(env[i]) == Name(vars[i]))
    && (forall i :: 0 <= i < |env| ==> env[i] == Entry(Name(vars[i]), ValueOf(o, vars[i])))
    && (forall i, j :: 0 <= i < j < |vars| ==> Index(vars[i]) < Index(vars[j]))
  }

  function Last(vars: seq<Var>): int {
    if vars == [] then -1 else Index(vars[|vars| - 1])
  }

  method Emit(env: seq<string>, ghost vars: seq<Var>, v: Var, value: string, ghost o: Options) returns (env': seq<string>)
    requires Emits(env, vars, o) && Last(vars) < Index(v) && value == ValueOf(o, v)
    ensures env' == env + [Entry(Name(v), value)] && Emits(env', vars + [v], o) && Last(vars + [v]) == Index(v)
  {
    hide Name, Index, Entry, VarName, ValueOf;
    NameHasNoEquals(v);
    EntryNamed(Name(v), value);
    env' := env + [Entry(Name(v), value)];
  }

  lemma EmittedAreDistinct(env: seq<string>, vars: seq<Var>, o: Options)
    requires Emits(env, vars, o)
    ensures WellFormed(env) && DistinctNames(env)
  {
    forall i, j | 0 <= i < j < |env| ensures VarName(env[i]) != VarName(env[j]) {
      if Name(vars[i]) == Name(vars[j]) { NamesApart(vars[i], vars[j]); }
    }
  }

  // Which variables a configuration calls for.

  function BaseVars(): seq<Var> { [JitConfigEnabled, RunnerWorkDir, GitHubUrl, DisableRunnerUpdate] }

  function DockerVars(o: Options): seq<Var> { if o.dockerHost != "" then [DockerHost, DockerSockGid] else [] }

  function CacheVars(o: Options): seq<Var> {
    (if o.toolCacheDir != "" then [RunnerToolCache] else []) +
    (if o.pnpmStoreDir != "" then [NpmStoreDir, PnpmStoreDir, NpmCacheDir, PnpmCacheDir] else [])
  }

  function EntityVars(o: Options): seq<Var> {
    match o.entity
    case Enterprise(_) => [RunnerEnterprise]
    case Organization(_) => [RunnerOrg]
    case Repository(_, _) => [RunnerOrg, RunnerRepo]
  }

  function NameVars(o: Options): seq<Var> {
    (if o.runnerGroup != "" then [RunnerGroup] else []) + [RunnerName]
  }

  function LabelVars(o: Options): seq<Var> {
    (if o.labels != [] then [RunnerLabels] else []) + [RunnerNoDefaultLabels, RunnerEphemeral]
  }

  function IdentityVars(o: Options): seq<Var> {
    NameVars(o) + LabelVars(o)
  }

  function PathVars(o: Options): seq<Var> {
    (if o.diagDir != "" then [DiagDir] else []) + (if o.seededMarker != "" then [ExternalsSeededMarker] else [])
  }

  function Vars(o: Options): seq<Var> {
    BaseVars() + DockerVars(o) + CacheVars(o) + (if o.jit then [] else EntityVars(o) + IdentityVars(o)) + PathVars(o)
  }

  lemma EmitsNothing(o: Options)
    ensures Emits([], [], o)
  {
  }

  method BaseEnv(o: Options) returns (env: seq<string>)
    ensures Emits(env, BaseVars(), o) && Last(BaseVars()) == Index(DisableRunnerUpdate)
  {
    hide Emits, Name;
    EmitsNothing(o);
    env := Emit([], [], JitConfigEnabled, if o.jit then "true" else "false", o);
    env := Emit(env, [] + [JitConfigEnabled], RunnerWorkDir, o.workDir, o);
    env := Emit(env, [] + [JitConfigEnabled] + [RunnerWorkDir], GitHubUrl, o.gitHubUrl, o);
    env := Emit(env, [] + [JitConfigEnabled] + [RunnerWorkDir] + [GitHubUrl], DisableRunnerUpdate, "true", o);
    assert [] + [JitConfigEnabled] + [RunnerWorkDir] + [GitHubUrl] + [DisableRunnerUpdate] == BaseVars();
  }

  method DockerEnv(env0: seq<string>, ghost vars: seq<Var>, o: Options) returns (env: seq<string>)
    requires Emits(env0, vars, o) && Last(vars) < Index(DockerHost)
    ensures Emits(env, vars + DockerVars(o), o) && Last(vars + DockerVars(o)) < Index(RunnerToolCache)
  {
    hide Emits, Name;
    env := env0;
    assert vars + [] == vars;
    if o.dockerHost != "" {
      env := Emit(env, vars, DockerHost, o.dockerHost, o);
      env := Emit(env, vars + [DockerHost], DockerSockGid, DindSocketGid, o);
      assert vars + [DockerHost] + [DockerSockGid] == vars + DockerVars(o);
    }
  }

  method CacheEnv(env0: seq<string>, ghost vars: seq<Var>, o: Options) returns (env: seq<string>)
    requires Emits(env0, vars, o) && Last(vars) < Index(RunnerToolCache)
    ensures Emits(env, vars + CacheVars(o), o) && Last(vars + CacheVars(o)) < Index(RunnerEnterprise)
  {
    hide Emits, Name;
    env := env0;
    ghost var more := vars;
    if o.toolCacheDir != "" {
      env := Emit(env, more, RunnerToolCache, o.toolCacheDir, o);
      more := more + [RunnerToolCache];
    }
    if o.pnpmStoreDir != "" {
      env := PnpmEnv(env, more, o);
      more := more + [NpmStoreDir, PnpmStoreDir, NpmCacheDir, PnpmCacheDir];
    }
    assert more == vars + CacheVars(o);
  }

  method PnpmEnv(env0: seq<string>, ghost vars: seq<Var>, o: Options) returns (env: seq<string>)
    requires Emits(env0, vars, o) && Last(vars) < Index(NpmStoreDir)
    ensures Emits(env, vars + [NpmStoreDir, PnpmStoreDir, NpmCacheDir, PnpmCacheDir], o)
  {
    hide Emits, Name;
    env := Emit(env0, vars, NpmStoreDir, o.pnpmStoreDir, o);
    env := Emit(env, vars + [NpmStoreDir], PnpmStoreDir, o.pnpmStoreDir, o);
    env := Emit(env, vars + [NpmStoreDir] + [PnpmStoreDir], NpmCacheDir, PnpmMetadataCacheDir(o.pnpmStoreDir), o);
    env := Emit(env, vars + [NpmStoreDir] + [PnpmStoreDir] + [NpmCacheDir], PnpmCacheDir, PnpmMetadataCacheDir(o.pnpmStoreDir), o);
    assert vars + [NpmStoreDir] + [PnpmStoreDir] + [NpmCacheDir] + [PnpmCacheDir] == vars + [NpmStoreDir, PnpmStoreDir, NpmCacheDir, PnpmCacheDir];
  }

  method EntityEnv(env0: seq<string>, ghost vars: seq<Var>, o: Options) returns (env: seq<string>)
    requires Emits(env0, vars, o) && Last(vars) < Index(RunnerEnterprise)
    ensures Emits(env, vars + EntityVars(o), o) && Last(vars + EntityVars(o)) < Index(RunnerGroup)
  {
    hide Emits, Name;
    match o.entity {
      case Enterprise(n) => env := Emit(env0, vars, RunnerEnterprise, n, o);
      case Organization(n) => env := Emit(env0, vars, RunnerOrg, n, o);
      case Repository(n, r) =>
        env := Emit(env0, vars, RunnerOrg, n, o);
        env := Emit(env, vars + [RunnerOrg], RunnerRepo, r, o);
        assert vars + [RunnerOrg] + [RunnerRepo] == vars + EntityVars(o);
    }
  }

  method NameEnv(env0: seq<string>, ghost vars: seq<Var>, o: Options) returns (env: seq<string>)
    requires Emits(env0, vars, o) && Last(vars) < Index(RunnerGroup)
    ensures Emits(env, vars + NameVars(o), o) && Last(vars + NameVars(o)) < Index(RunnerLabels)
  {
    hide Emits, Name;
    env := env0;
    ghost var more := vars;
    if o.runnerGroup != "" {
      env := Emit(env, more, RunnerGroup, o.runnerGroup, o);
      more := more + [RunnerGroup];
    }
    env := Emit(env, more, RunnerName, o.runnerName, o);
    assert more + [RunnerName] == vars + NameVars(o);
  }

  method LabelEnv(env0: seq<string>, ghost vars: seq<Var>, o: Options) returns (env: seq<string>)
    requires Emits(env0, vars, o) && Last(vars) < Index(RunnerLabels)
    ensures Emits(env, vars + LabelVars(o), o) && Last(vars + LabelVars(o)) < Index(DiagDir)
  {
    hide Emits, Name;
    env := env0;
    ghost var more := vars;
    if o.labels != [] {
      env := Emit(env, more, RunnerLabels, Comma(o.labels), o);
      more := more + [RunnerLabels];
    }
    env := Emit(env, more, RunnerNoDefaultLabels, "true", o);
    env := Emit(env, more + [RunnerNoDefaultLabels], RunnerEphemeral, "true", o);
    assert more + [RunnerNoDefaultLabels] + [RunnerEphemeral] == vars + LabelVars(o);
  }

  method IdentityEnv(env0: seq<string>, ghost vars: seq<Var>, o: Options) returns (env: seq<string>)
    requires Emits(env0, vars, o) && Last(vars) < Index(RunnerGroup)
    ensures Emits(env, vars + IdentityVars(o), o) && Last(vars + IdentityVars(o)) < Index(DiagDir)
  {
    hide Emits, Name, NameVars, LabelVars;
    env := NameEnv(env0, vars, o);
    env := LabelEnv(env, vars + NameVars(o), o);
    assert vars + NameVars(o) + LabelVars(o) == vars + IdentityVars(o);
  }

  method PathEnv(env0: seq<string>, ghost vars: seq<Var>, o: Options) returns (env: seq<string>)
    requires Emits(env0, vars, o) && Last(vars) < Index(DiagDir)
    ensures Emits(env, vars + PathVars(o), o)
  {
    hide Emits, Name;
    env := env0;
    ghost var more := vars;
    if o.diagDir != "" {
      env := Emit(env, more, DiagDir, o.diagDir, o);
      more := more + [DiagDir];
    }
    if o.seededMarker != "" {
      env := Emit(env, more, ExternalsSeededMarker, o.seededMarker, o);
      more := more + [ExternalsSeededMarker];
    }
    assert more == vars + PathVars(o);
  }

  /** The variable is set to this value if the condition holds, and not set otherwise. */
  ghost predicate SetIf(env: seq<string>, given: bool, name: string, value: string) {
    if given then name + "=" + value in env else name !in NamesOf(env)
  }

  /** What every runner is told: the mode, where it works, and the daemon it may use. */
  ghost predicate SaysBasics(env: seq<string>, o: Options) {
    && SetIf(env, true, "JIT_CONFIG_ENABLED", if o.jit then "true" else "false")
    && SetIf(env, true, "RUNNER_WORKDIR", o.workDir)
    && SetIf(env, true, "GITHUB_URL", o.gitHubUrl)
    && SetIf(env, true, "DISABLE_RUNNER_UPDATE", "true")
    && SetIf(env, o.dockerHost != "", "DOCKER_HOST", o.dockerHost)
    && SetIf(env, o.dockerHost != "", "DOCKER_SOCK_GID", "2000")
  }

  /** Where its tools, its logs and the seeding marker are. */
  ghost predicate SaysPaths(env: seq<string>, o: Options) {
    && SetIf(env, o.toolCacheDir != "", "RUNNER_TOOL_CACHE", o.toolCacheDir)
    && SetIf(env, o.diagDir != "", "GARM_DIAG_DIR", o.diagDir)
    && SetIf(env, o.seededMarker != "", "GARM_EXTERNALS_SEEDED_MARKER", o.seededMarker)
  }

  /** Where pnpm keeps its store and its metadata, in both spellings pnpm reads. */
  ghost predicate SaysPnpm(env: seq<string>, o: Options) {
    && SetIf(env, o.pnpmStoreDir != "", "npm_config_store_dir", o.pnpmStoreDir)
    && SetIf(env, o.pnpmStoreDir != "", "pnpm_config_store_dir", o.pnpmStoreDir)
    && SetIf(env, o.pnpmStoreDir != "", "npm_config_cache_dir", o.pnpmStoreDir + "/metadata-cache")
    && SetIf(env, o.pnpmStoreDir != "", "pnpm_config_cache_dir", o.pnpmStoreDir + "/metadata-cache")
  }

  /** Whom it registers with, without JIT only. */
  ghost predicate SaysEntity(env: seq<string>, o: Options) {
    && SetIf(env, !o.jit && o.entity.Enterprise?, "RUNNER_ENTERPRISE", if o.entity.Enterprise? then o.entity.name else "")
    && SetIf(env, !o.jit && !o.entity.Enterprise?, "RUNNER_ORG", if o.entity.Repository? then o.entity.org else o.entity.name)
    && SetIf(env, !o.jit && o.entity.Repository?, "RUNNER_REPO", if o.entity.Repository? then o.entity.repo else "")
  }

  /** And as what, without JIT only. */
  ghost predicate SaysRegistration(env: seq<string>, o: Options) {
    && SetIf(env, !o.jit && o.runnerGroup != "", "RUNNER_GROUP", o.runnerGroup)
    && SetIf(env, !o.jit, "RUNNER_NAME", o.runnerName)
    && SetIf(env, !o.jit && o.labels != [], "RUNNER_LABELS", Comma(o.labels))
    && SetIf(env, !o.jit, "RUNNER_NO_DEFAULT_LABELS", "true")
    && SetIf(env, !o.jit, "RUNNER_EPHEMERAL", "true")
  }

  ghost predicate SaysAll(env: seq<string>, o: Options) {
    SaysBasics(env, o) && SaysPaths(env, o) && SaysPnpm(env, o) && SaysEntity(env, o) && SaysRegistration(env, o)
  }

  /** When a variable is called for. */
  predicate Called(o: Options, v: Var) {
    match v
    case JitConfigEnabled => true case RunnerWorkDir => true case GitHubUrl => true case DisableRunnerUpdate => true
    case DockerHost => o.dockerHost != "" case DockerSockGid => o.dockerHost != ""
    case RunnerToolCache => o.toolCacheDir != ""
    case NpmStoreDir => o.pnpmStoreDir != "" case PnpmStoreDir => o.pnpmStoreDir != ""
    case NpmCacheDir => o.pnpmStoreDir != "" case PnpmCacheDir => o.pnpmStoreDir != ""
    case RunnerEnterprise => !o.jit && o.entity.Enterprise?
    case RunnerOrg => !o.jit && !o.entity.Enterprise?
    case RunnerRepo => !o.jit && o.entity.Repository?
    case RunnerGroup => !o.jit && o.runnerGroup != "" case RunnerName => !o.jit
    case RunnerLabels => !o.jit && o.labels != [] case RunnerNoDefaultLabels => !o.jit case RunnerEphemeral => !o.jit
    case DiagDir => o.diagDir != "" case ExternalsSeededMarker => o.seededMarker != ""
  }

  lemma CalledEarly(o: Options, v: Var)
    ensures v in BaseVars() + DockerVars(o) + CacheVars(o) <==> Index(v) < Index(RunnerEnterprise) && Called(o, v)
  {
  }

  lemma CalledWithoutJit(o: Options, v: Var)
    requires !o.jit
    ensures v in EntityVars(o) + IdentityVars(o) <==> Index(RunnerEnterprise) <= Index(v) < Index(DiagDir) && Called(o, v)
  {
  }

  lemma CalledLast(o: Options, v: Var)
    ensures v in PathVars(o) <==> Index(DiagDir) <= Index(v) && Called(o, v)
  {
  }

  /** The list of variables is the list of those called for. */
  lemma VarsAreCalled(o: Options, v: Var)
    ensures v in Vars(o) <==> Called(o, v)
  {
    hide BaseVars, DockerVars, CacheVars, EntityVars, IdentityVars, PathVars;
    CalledEarly(o, v);
    if !o.jit { CalledWithoutJit(o, v); }
    CalledLast(o, v);
  }

  /** An emitted variable has its value, and one not emitted is not set. */
  lemma EmittedSays(env: seq<string>, o: Options, v: Var)
    requires Emits(env, Vars(o), o)
    ensures SetIf(env, Called(o, v), Name(v), ValueOf(o, v))
  {
    hide Vars, Name, ValueOf, VarName, Called;
    VarsAreCalled(o, v);
    if v in Vars(o) {
      var i :| 0 <= i < |env| && Vars(o)[i] == v;
      assert env[i] == Entry(Name(v), ValueOf(o, v));
    }
    forall i | 0 <= i < |env| && VarName(env[i]) == Name(v) ensures v in Vars(o) { NamesApart(Vars(o)[i], v); }
  }

  lemma BasicsSaid(env: seq<string>, o: Options)
    requires Emits(env, Vars(o), o)
    ensures SaysBasics(env, o)
  {
    hide Emits, SetIf, Vars;
    EmittedSays(env, o, JitConfigEnabled);
    EmittedSays(env, o, RunnerWorkDir);
    EmittedSays(env, o, GitHubUrl);
    EmittedSays(env, o, DisableRunnerUpdate);
    EmittedSays(env, o, DockerHost);
    EmittedSays(env, o, DockerSockGid);
  }

  lemma PathsSaid(env: seq<string>, o: Options)
    requires Emits(env, Vars(o), o)
    ensures SaysPaths(env, o)
  {
    hide Emits, SetIf, Vars;
    EmittedSays(env, o, RunnerToolCache);
    EmittedSays(env, o, DiagDir);
    EmittedSays(env, o, ExternalsSeededMarker);
  }

  lemma PnpmSaid(env: seq<string>, o: Options)
    requires Emits(env, Vars(o), o)
    ensures SaysPnpm(env, o)
  {
    hide Emits, SetIf, Vars;
    EmittedSays(env, o, NpmStoreDir);
    EmittedSays(env, o, PnpmStoreDir);
    EmittedSays(env, o, NpmCacheDir);
    EmittedSays(env, o, PnpmCacheDir);
    UnsetAnyway(env, "npm_config_cache_dir", "", o.pnpmStoreDir + "/metadata-cache");
    UnsetAnyway(env, "pnpm_config_cache_dir", "", o.pnpmStoreDir + "/metadata-cache");
  }

  lemma UnsetAnyway(env: seq<string>, name: string, v: string, w: string)
    ensures SetIf(env, false, name, v) <==> SetIf(env, false, name, w)
  {
  }

  lemma EntitySaid(env: seq<string>, o: Options)
    requires Emits(env, Vars(o), o)
    ensures SaysEntity(env, o)
  {
    hide Emits, SetIf, Vars;
    EmittedSays(env, o, RunnerEnterprise);
    EmittedSays(env, o, RunnerOrg);
    EmittedSays(env, o, RunnerRepo);
  }

  lemma RegistrationSaid(env: seq<string>, o: Options)
    requires Emits(env, Vars(o), o)
    ensures SaysRegistration(env, o)
  {
    hide Emits, SetIf, Vars;
    EmittedSays(env, o, RunnerGroup);
    EmittedSays(env, o, RunnerName);
    EmittedSays(env, o, RunnerLabels);
    EmittedSays(env, o, RunnerNoDefaultLabels);
    EmittedSays(env, o, RunnerEphemeral);
  }

  /** BuildRunnerEnv and the two paths the provider adds: exactly the variables the configuration calls for,
      each once; with JIT no registration variable is among them. */
  method ProviderEnv(o: Options) returns (env: seq<string>)
    ensures Emits(env, Vars(o), o) && SaysAll(env, o) && WellFormed(env) && DistinctNames(env)
  {
    hide Emits, Name, WellFormed, DistinctNames, SetIf;
    env := BaseEnv(o);
    env := DockerEnv(env, BaseVars(), o);
    env := CacheEnv(env, BaseVars() + DockerVars(o), o);
    ghost var vars := BaseVars() + DockerVars(o) + CacheVars(o);
    if !o.jit {
      env := EntityEnv(env, vars, o);
      env := IdentityEnv(env, vars + EntityVars(o), o);
      assert vars + EntityVars(o) + IdentityVars(o) == vars + (EntityVars(o) + IdentityVars(o));
      vars := vars + (EntityVars(o) + IdentityVars(o));
    }
    assert vars == BaseVars() + DockerVars(o) + CacheVars(o) + (if o.jit then [] else EntityVars(o) + IdentityVars(o));
    env := PathEnv(env, vars, o);
    EmittedAreDistinct(env, Vars(o), o);
    BasicsSaid(env, o);
    PathsSaid(env, o);
    PnpmSaid(env, o);
    EntitySaid(env, o);
    RegistrationSaid(env, o);
  }

  // ---------------------------------------------------------------- extra_env

  predicate IsLetter(c: char) {
    'a' <= c <= 'z' || 'A' <= c <= 'Z' || c == '_'
  }

  predicate IsNameChar(c: char) {
    IsLetter(c) || '0' <= c <= '9'
  }

  /** A letter or underscore, then letters, digits and underscores, all ASCII. */
  predicate ValidEnvName(name: string) {
    name != "" && IsLetter(name[0]) && forall i :: 0 <= i < |name| ==> IsNameChar(name[i])
  }

  /** Unicode simple uppercasing, restricted to the code points whose uppercase form is an ASCII letter: a-z,
      U+0131 (to I) and U+017F (to S). */
  function UpperChar(c: char): char {
    if 'a' <= c <= 'z' then 'A' + (c - 'a') else if c == '\U{0131}' then 'I' else if c == '\U{017F}' then 'S' else c
  }

  function Upper(s: string): (r: string)
    ensures |r| == |s| && forall i :: 0 <= i < |s| ==> r[i] == UpperChar(s[i])
  {
    seq(|s|, i requires 0 <= i < |s| => UpperChar(s[i]))
  }

  const ReservedPrefixes: seq<string> := ["RUNNER_", "DOCKER_", "ACTIONS_RUNNER_INPUT_", "GARM_", "LD_"]
  const ReservedExact: seq<string> :=
    ["JIT_CONFIG_ENABLED", "GITHUB_URL", "RUN_AS_ROOT", "WAIT_FOR_DOCKER_SECONDS", "BASH_ENV", "ENV", "IFS", "PATH", "NODE_OPTIONS"]

  predicate HasAnyPrefix(s: string, prefixes: seq<string>) {
    exists p :: p in prefixes && HasPrefix(s, p)
  }

  predicate IsReserved(name: string) {
    ReservedUpper(Upper(TrimSpace(name)))
  }

  /** Names the runner's own scripts, the provider, the loader, the shell or Node read. */
  predicate ReservedUpper(upper: string) {
    || HasPrefix(upper, "RUNNER_") || HasPrefix(upper, "DOCKER_") || HasPrefix(upper, "ACTIONS_RUNNER_INPUT_")
    || HasPrefix(upper, "GARM_") || HasPrefix(upper, "LD_")
    || upper == "JIT_CONFIG_ENABLED" || upper == "GITHUB_URL" || upper == "RUN_AS_ROOT" || upper == "WAIT_FOR_DOCKER_SECONDS"
    || upper == "BASH_ENV" || upper == "ENV" || upper == "IFS" || upper == "PATH" || upper == "NODE_OPTIONS"
  }

  lemma ReservedLists(upper: string)
    ensures HasAnyPrefix(upper, ReservedPrefixes) || upper in ReservedExact <==> ReservedUpper(upper)
  {
    hide HasPrefix;
    assert ReservedPrefixes[0] == "RUNNER_" && ReservedPrefixes[1] == "DOCKER_" && ReservedPrefixes[2] == "ACTIONS_RUNNER_INPUT_"
           && ReservedPrefixes[3] == "GARM_" && ReservedPrefixes[4] == "LD_";
  }

  method FindPrefix(s: string, prefixes: seq<string>) returns (r: bool)
    ensures r <==> HasAnyPrefix(s, prefixes)
  {
    for i := 0 to |prefixes|
      invariant forall j :: 0 <= j < i ==> !HasPrefix(s, prefixes[j])
    {
      if HasPrefix(s, prefixes[i]) { return true; }
    }
    r := false;
  }

  method FindExact(s: string, names: seq<string>) returns (r: bool)
    ensures r <==> s in names
  {
    for i := 0 to |names|
      invariant forall j :: 0 <= j < i ==> s != names[j]
    {
      if s == names[i] { return true; }
    }
    r := false;
  }

  method ReservedEnvName(name: string) returns (r: bool)
    ensures r <==> IsReserved(name)
  {
    var upper := Upper(TrimSpace(name));
    r := FindPrefix(upper, ReservedPrefixes);
    if !r { r := FindExact(upper, ReservedExact); }
    ReservedLists(upper);
  }

  lemma NoSpaceInName(name: string)
    requires ValidEnvName(name)
    ensures TrimSpace(name) == name
  {
    assert !IsSpace(name[0]) && !IsSpace(name[|name| - 1]);
  }

  lemma SameLetter(c: char, d: char)
    requires IsNameChar(c) && IsNameChar(d) && LowerChar(c) == LowerChar(d)
    ensures UpperChar(c) == UpperChar(d)
  {
  }

  lemma SameUpper(a: string, b: string)
    requires ValidEnvName(a) && ValidEnvName(b) && Lower(a) == Lower(b)
    ensures Upper(a) == Upper(b)
  {
    hide LowerChar, UpperChar;
    assert |a| == |Lower(a)| == |b|;
    forall i | 0 <= i < |a| ensures Upper(a)[i] == Upper(b)[i] {
      assert Lower(a)[i] == Lower(b)[i];
      SameLetter(a[i], b[i]);
    }
  }

  /** Reservation does not depend on letter case: no spelling of a reserved name gets through. */
  lemma ReservedInAnyCase(a: string, b: string)
    requires ValidEnvName(a) && ValidEnvName(b) && Lower(a) == Lower(b)
    ensures IsReserved(a) <==> IsReserved(b)
  {
    hide ReservedUpper, Upper, Lower, TrimSpace, ValidEnvName;
    NoSpaceInName(a);
    NoSpaceInName(b);
    SameUpper(a, b);
  }

  /** ASCII letters, digits and underscores, and no digit first. */
  predicate IsIdentifier(name: string) {
    && name != "" && !('0' <= name[0] <= '9')
    && forall c :: c in name ==> 'a' <= c <= 'z' || 'A' <= c <= 'Z' || '0' <= c <= '9' || c == '_'
  }

  lemma IdentifiersAreValid(name: string)
    ensures IsIdentifier(name) <==> ValidEnvName(name)
  {
    if ValidEnvName(name) {
      forall c | c in name ensures IsNameChar(c) {
        var i :| 0 <= i < |name| && name[i] == c;
      }
    }
    if IsIdentifier(name) {
      forall i | 0 <= i < |name| ensures IsNameChar(name[i]) { assert name[i] in name; }
      assert name[0] in name;
    }
  }

  /** Accepted by Parse and by Resolve: an identifier, not reserved, allowlisted. */
  predicate Accepted(extra: map<string, string>, allowed: seq<string>) {
    forall k :: k in extra ==> IsIdentifier(k) && !IsReserved(k) && k in allowed
  }

  /** The checks of Parse, then of Resolve, over the names in any order. */
  method CheckExtraEnv(extra: map<string, string>, allowed: seq<string>) returns (ok: bool)
    ensures ok <==> Accepted(extra, allowed)
  {
    hide IsReserved, ValidEnvName, IsIdentifier;
    forall k ensures IsIdentifier(k) <==> ValidEnvName(k) { IdentifiersAreValid(k); }
    var todo := extra.Keys;
    while todo != {}
      invariant todo <= extra.Keys && forall k :: k in extra && k !in todo ==> ValidEnvName(k) && !IsReserved(k)
      decreases todo
    {
      var k :| k in todo;
      if !ValidEnvName(k) { return false; }
      var reserved := ReservedEnvName(k);
      if reserved { return false; }
      todo := todo - {k};
    }
    todo := extra.Keys;
    while todo != {}
      invariant todo <= extra.Keys && forall k :: k in extra && k !in todo ==> k in allowed
      decreases todo
    {
      var k :| k in todo;
      if k !in allowed { return false; }
      todo := todo - {k};
    }
    ok := true;
  }

  ghost predicate Ascending(keys: seq<string>) {
    forall i, j :: 0 <= i < j < |keys| ==> Less(keys[i], keys[j])
  }

  method SortedKeys(extra: map<string, string>) returns (keys: seq<string>)
    ensures Ascending(keys) && forall k :: k in keys <==> k in extra
  {
    keys := [];
    var todo := extra.Keys;
    while todo != {}
      invariant todo <= extra.Keys && Ascending(keys)
      invariant forall k :: k in keys <==> k in extra && k !in todo
      invariant forall i, t :: 0 <= i < |keys| && t in todo ==> Less(keys[i], t)
      decreases todo
    {
      ghost var s := SmallestOf(todo);
      var k :| k in todo && forall u :: u in todo && u != k ==> Less(k, u);
      keys, todo := keys + [k], todo - {k};
    }
  }

  /** The merge, entry by entry: env, then the new names of keys in order. */
  function Merged(env: seq<string>, keys: seq<string>, extra: map<string, string>): seq<string>
    requires forall k :: k in keys ==> k in extra
  {
    if keys == [] then env
    else
      var last := keys[|keys| - 1];
      var rest := Merged(env, keys[..|keys| - 1], extra);
      if last in NamesOf(env) then rest else rest + [Entry(last, extra[last])]
  }

  /** mergeExtraEnv: the provider's names win, and the rest come in ascending order of their names, so the
      result does not depend on the order in which the map is walked. */
  method MergeExtraEnv(env: seq<string>, extra: map<string, string>) returns (out: seq<string>)
    ensures exists keys :: Ascending(keys) && (forall k :: k in keys <==> k in extra) && out == Merged(env, keys, extra)
  {
    if extra == map[] {
      assert Merged(env, [], extra) == env && Ascending([]);
      return env;
    }
    var present: set<string> := {};
    for i := 0 to |env|
      invariant present == NamesOf(env[..i])
    {
      assert env[..i + 1] == env[..i] + [env[i]];
      NamesOfMore(env[..i], env[i]);
      if '=' in env[i] { present := present + {VarName(env[i])}; }
    }
    assert env[..|env|] == env;
    var keys := SortedKeys(extra);
    out := env;
    for i := 0 to |keys|
      invariant out == Merged(env, keys[..i], extra)
    {
      assert keys[..i + 1][..i] == keys[..i];
      if keys[i] !in present { out := out + [Entry(keys[i], extra[keys[i]])]; }
    }
    assert keys[..|keys|] == keys;
  }

  lemma NamesOfMore(env: seq<string>, e: string)
    ensures NamesOf(env + [e]) == NamesOf(env) + (if '=' in e then {VarName(e)} else {})
  {
    var more := env + [e];
    assert more[|env|] == e;
    forall x | x in NamesOf(env) ensures x in NamesOf(more) {
      var i :| 0 <= i < |env| && '=' in env[i] && VarName(env[i]) == x;
      assert more[i] == env[i];
    }
  }

  // ---------------------------------------------------------------- the merged environment

  lemma {:induction false} MergedKeepsPrefix(env: seq<string>, keys: seq<string>, extra: map<string, string>)
    requires forall k :: k in keys ==> k in extra
    ensures |env| <= |Merged(env, keys, extra)| && Merged(env, keys, extra)[..|env|] == env
  {
    if keys != [] { MergedKeepsPrefix(env, keys[..|keys| - 1], extra); }
  }

  /** What is gained: exactly the new names, each with its own value. */
  lemma {:induction false} MergedGains(env: seq<string>, keys: seq<string>, extra: map<string, string>)
    requires forall k :: k in keys ==> k in extra
    ensures |env| <= |Merged(env, keys, extra)|
    ensures forall i :: |env| <= i < |Merged(env, keys, extra)| ==>
              exists k :: k in keys && k !in NamesOf(env) && Merged(env, keys, extra)[i] == Entry(k, extra[k])
    ensures forall k :: k in keys && k !in NamesOf(env) ==> Entry(k, extra[k]) in Merged(env, keys, extra)
  {
    if keys != [] {
      var init, last := keys[..|keys| - 1], keys[|keys| - 1];
      MergedGains(env, init, extra);
      assert keys == init + [last];
      var rest, all := Merged(env, init, extra), Merged(env, keys, extra);
      forall i | |env| <= i < |all| ensures exists k :: k in keys && k !in NamesOf(env) && all[i] == Entry(k, extra[k]) {
        if i < |rest| {
          assert all[i] == rest[i];
          var k :| k in init && k !in NamesOf(env) && rest[i] == Entry(k, extra[k]);
          assert k in keys;
        } else {
          assert last in keys;
        }
      }
      forall k | k in keys && k !in NamesOf(env) ensures Entry(k, extra[k]) in all {
        if k in init { assert Entry(k, extra[k]) in rest; }
      }
    }
  }

  lemma {:induction false} MergedIsDistinct(env: seq<string>, keys: seq<string>, extra: map<string, string>)
    requires forall k :: k in keys ==> k in extra && '=' !in k
    requires WellFormed(env) && DistinctNames(env) && forall i, j :: 0 <= i < j < |keys| ==> keys[i] != keys[j]
    ensures WellFormed(Merged(env, keys, extra)) && DistinctNames(Merged(env, keys, extra))
    ensures forall x :: x in NamesOf(Merged(env, keys, extra)) ==> x in NamesOf(env) || x in keys
  {
    if keys != [] {
      var init, last := keys[..|keys| - 1], keys[|keys| - 1];
      MergedIsDistinct(env, init, extra);
      var rest := Merged(env, init, extra);
      EntryNamed(last, extra[last]);
      if last !in NamesOf(env) {
        NamesOfMore(rest, Entry(last, extra[last]));
        assert last !in NamesOf(rest);
        forall i | 0 <= i < |rest| ensures VarName(rest[i]) != last { assert VarName(rest[i]) in NamesOf(rest); }
      }
    }
  }

  lemma AscendingIsDistinct(keys: seq<string>)
    requires Ascending(keys)
    ensures forall i, j :: 0 <= i < j < |keys| ==> keys[i] != keys[j]
  {
    forall i, j | 0 <= i < j < |keys| ensures keys[i] != keys[j] { LessTotal(keys[i], keys[j]); }
  }

  lemma ValidHasNoEquals(name: string)
    requires ValidEnvName(name)
    ensures '=' !in name
  {
  }

  /** Everything from here on is one of these names, which env does not set, with the value asked for. */
  ghost predicate OnlyExtra(env: seq<string>, out: seq<string>, extra: map<string, string>, allowed: seq<string>) {
    forall i :: |env| <= i < |out| ==>
      exists k :: k in extra && k !in NamesOf(env) && ValidEnvName(k) && !IsReserved(k) && k in allowed && out[i] == Entry(k, extra[k])
  }

  /** Every name that env does not set is there with the value asked for. */
  ghost predicate AllExtra(env: seq<string>, out: seq<string>, extra: map<string, string>) {
    forall k :: k in extra && k !in NamesOf(env) ==> Entry(k, extra[k]) in out
  }

  /** What a runner's environment is: the provider's variables with their values as an unchanged prefix, no
      variable set twice, and otherwise all the new names with the values asked for and nothing else, each
      allowlisted, well-formed and unreserved. */
  ghost predicate SoundEnv(out: seq<string>, o: Options, extra: map<string, string>, allowed: seq<string>) {
    && DistinctNames(out)
    && exists env :: Emits(env, Vars(o), o) && SaysAll(env, o) && env <= out && OnlyExtra(env, out, extra, allowed) && AllExtra(env, out, extra)
  }

  lemma MergedIsExtra(env: seq<string>, keys: seq<string>, extra: map<string, string>, allowed: seq<string>)
    requires Accepted(extra, allowed) && forall k :: k in keys <==> k in extra
    ensures OnlyExtra(env, Merged(env, keys, extra), extra, allowed) && AllExtra(env, Merged(env, keys, extra), extra)
  {
    hide IsReserved, ValidEnvName, IsIdentifier;
    forall k ensures IsIdentifier(k) <==> ValidEnvName(k) { IdentifiersAreValid(k); }
    MergedGains(env, keys, extra);
    var out := Merged(env, keys, extra);
    forall i | |env| <= i < |out|
      ensures exists k :: k in extra && k !in NamesOf(env) && ValidEnvName(k) && !IsReserved(k) && k in allowed && out[i] == Entry(k, extra[k])
    {
      var k :| k in keys && k !in NamesOf(env) && Merged(env, keys, extra)[i] == Entry(k, extra[k]);
      assert k in extra && out[i] == Entry(k, extra[k]);
    }
  }

  lemma MergedIsSound(env: seq<string>, keys: seq<string>, o: Options, extra: map<string, string>, allowed: seq<string>)
    requires Emits(env, Vars(o), o) && SaysAll(env, o) && WellFormed(env) && DistinctNames(env)
    requires Accepted(extra, allowed) && Ascending(keys) && forall k :: k in keys <==> k in extra
    ensures SoundEnv(Merged(env, keys, extra), o, extra, allowed)
  {
    hide Emits, Vars, SaysAll, Merged, OnlyExtra, AllExtra;
    AscendingIsDistinct(keys);
    forall k | k in keys ensures '=' !in k {
      IdentifiersAreValid(k);
      ValidHasNoEquals(k);
    }
    MergedIsDistinct(env, keys, extra);
    MergedKeepsPrefix(env, keys, extra);
    MergedIsExtra(env, keys, extra, allowed);
  }

  /** From the decoded extra_specs and the configuration to the runner's environment. */
  method RunnerEnvironment(o: Options, extra: map<string, string>, allowed: seq<string>)
    returns (ok: bool, out: seq<string>)
    ensures ok <==> Accepted(extra, allowed)
    ensures ok ==> SoundEnv(out, o, extra, allowed)
  {
    hide SoundEnv, Accepted, Emits, WellFormed, DistinctNames, Vars, SaysAll;
    ok := CheckExtraEnv(extra, allowed);
    out := [];
    if !ok { return; }
    var env := ProviderEnv(o);
    out := MergeExtraEnv(env, extra);
    ghost var keys :| Ascending(keys) && (forall k :: k in keys <==> k in extra) && out == Merged(env, keys, extra);
    MergedIsSound(env, keys, o, extra, allowed);
  }
}
