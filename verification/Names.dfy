/** Derived Docker names (internal/spec/names.go). */
module Names {
  import opened Text

  datatype Suffix = Workspace | Socket | DindState

  function SuffixText(s: Suffix): string {
    match s
    case Workspace => "workspace"
    case Socket => "socket"
    case DindState => "dind-state"
  }

  /** A create-nonce: sixteen random bytes in hex. */
  predicate IsNonce(n: string) {
    |n| == 32
  }

  function RunnerContainerName(inst: string): string {
    Lower(inst)
  }

  function DindContainerName(inst: string): string {
    RunnerContainerName(inst) + "-dind"
  }

  function JobNetworkName(inst: string): string {
    RunnerContainerName(inst) + "-net"
  }

  function Tail(nonce: string, s: Suffix): string {
    "-" + nonce + "-" + SuffixText(s)
  }

  function VolumeName(inst: string, nonce: string, s: Suffix): string {
    RunnerContainerName(inst) + Tail(nonce, s)
  }

  const MaxNameLength := 255

  predicate IsAlnum(c: char) {
    'a' <= c <= 'z' || 'A' <= c <= 'Z' || '0' <= c <= '9'
  }

  /** ValidateDerivedName: at most 255 bytes of the daemon's name grammar, which is ASCII only. */
  predicate ValidDerivedName(name: string) {
    && 2 <= |name| <= MaxNameLength
    && IsAlnum(name[0])
    && forall i :: 1 <= i < |name| ==> IsAlnum(name[i]) || name[i] == '_' || name[i] == '.' || name[i] == '-'
  }

  /** No sidecar; one in the runner's network namespace; one on the job network. */
  datatype Dind = NoDind | SharedNetns | OwnNetns

  /** The job volumes the runner mounts. */
  function RunnerVolumes(inst: string, nonce: string, dind: Dind): set<string> {
    {VolumeName(inst, nonce, Workspace)} + (if dind.NoDind? then {} else {VolumeName(inst, nonce, Socket)})
  }

  /** The job volumes the sidecar mounts. */
  function SidecarVolumes(inst: string, nonce: string): set<string> {
    {VolumeName(inst, nonce, Workspace), VolumeName(inst, nonce, Socket), VolumeName(inst, nonce, DindState)}
  }

  /** The name ends the way a job volume of generation `nonce` does. */
  predicate HasTail(name: string, nonce: string, s: Suffix) {
    HasSuffix(name, Tail(nonce, s))
  }

  predicate EmbedsNonce(name: string, nonce: string) {
    exists s :: HasTail(name, nonce, s)
  }

  lemma VolumeNameHasTail(inst: string, nonce: string, s: Suffix)
    ensures HasTail(VolumeName(inst, nonce, s), nonce, s) && EmbedsNonce(VolumeName(inst, nonce, s), nonce)
  {
    var a, t := RunnerContainerName(inst), Tail(nonce, s);
    assert (a + t)[|a|..] == t;
    assert HasTail(VolumeName(inst, nonce, s), nonce, s);
  }

  /** The last characters of a job volume name determine its suffix, whatever the rest. */
  lemma SuffixDetermined(name: string, n1: string, s1: Suffix, n2: string, s2: Suffix)
    requires IsNonce(n1) && IsNonce(n2)
    requires HasTail(name, n1, s1) && HasTail(name, n2, s2)
    ensures s1 == s2
  {
    var k := |name|;
    assert name[k - 3] == Tail(n1, s1)[|Tail(n1, s1)| - 3];
    assert name[k - 3] == Tail(n2, s2)[|Tail(n2, s2)| - 3];
    assert name[k - 6] == Tail(n1, s1)[|Tail(n1, s1)| - 6];
    assert name[k - 6] == Tail(n2, s2)[|Tail(n2, s2)| - 6];
    assert SuffixText(Workspace)[6] == 'a' && SuffixText(Socket)[3] == 'k' && SuffixText(DindState)[7] == 'a';
    assert SuffixText(Workspace)[3] == 'k' && SuffixText(DindState)[4] == '-';
  }

  /** A name can end like the volumes of at most one generation. */
  lemma TailInjective(name: string, n1: string, s1: Suffix, n2: string, s2: Suffix)
    requires IsNonce(n1) && IsNonce(n2)
    requires HasTail(name, n1, s1) && HasTail(name, n2, s2)
    ensures n1 == n2 && s1 == s2
  {
    SuffixDetermined(name, n1, s1, n2, s2);
    var t1, t2 := Tail(n1, s1), Tail(n2, s2);
    assert t1 == t2;
    assert n1 == t1[1..33] && n2 == t2[1..33];
  }

  /** Derived volume names are injective in the lowercased instance, the nonce and the suffix. */
  lemma VolumeNameInjective(i1: string, n1: string, s1: Suffix, i2: string, n2: string, s2: Suffix)
    requires IsNonce(n1) && IsNonce(n2)
    ensures VolumeName(i1, n1, s1) == VolumeName(i2, n2, s2) <==> Lower(i1) == Lower(i2) && n1 == n2 && s1 == s2
  {
    if VolumeName(i1, n1, s1) == VolumeName(i2, n2, s2) {
      VolumeNameHasTail(i1, n1, s1);
      VolumeNameHasTail(i2, n2, s2);
      TailInjective(VolumeName(i1, n1, s1), n1, s1, n2, s2);
      var t := Tail(n1, s1);
      var v := VolumeName(i1, n1, s1);
      assert v[..|v| - |t|] == Lower(i1);
      assert v[..|v| - |t|] == Lower(i2);
    }
  }

  /** The runner and its sidecar share the workspace and the socket, and the sidecar alone has the daemon's state;
      without a sidecar the runner has the workspace alone. */
  lemma SharedVolumes(inst: string, nonce: string, dind: Dind)
    requires IsNonce(nonce)
    ensures RunnerVolumes(inst, nonce, NoDind) == {VolumeName(inst, nonce, Workspace)}
    ensures !dind.NoDind? ==>
              && RunnerVolumes(inst, nonce, dind) <= SidecarVolumes(inst, nonce)
              && RunnerVolumes(inst, nonce, dind) == {VolumeName(inst, nonce, Workspace)} + {VolumeName(inst, nonce, Socket)}
              && SidecarVolumes(inst, nonce) - RunnerVolumes(inst, nonce, dind) == {VolumeName(inst, nonce, DindState)}
  {
    VolumeNameInjective(inst, nonce, Workspace, inst, nonce, Socket);
    VolumeNameInjective(inst, nonce, Workspace, inst, nonce, DindState);
    VolumeNameInjective(inst, nonce, Socket, inst, nonce, DindState);
  }

  /** Two instances share a claim-network name exactly when their names differ at most in case. */
  lemma JobNetworkNameInjective(i1: string, i2: string)
    ensures JobNetworkName(i1) == JobNetworkName(i2) <==> Lower(i1) == Lower(i2)
  {
    var a, b := JobNetworkName(i1), JobNetworkName(i2);
    assert a[..|a| - 4] == Lower(i1) && b[..|b| - 4] == Lower(i2);
  }
}
