/** Which cache mount paths the configuration accepts (internal/config/cache.go). */
module MountPath {
  import opened Text

  // ---------------------------------------------------------------- segments

  /** The parts between slashes; there is always at least one. */
  function Split(s: string): (r: seq<string>)
    ensures r != []
  {
    if s == "" then [""]
    else if s[0] == '/' then [""] + Split(s[1..])
    else var rest := Split(s[1..]); [[s[0]] + rest[0]] + rest[1..]
  }

  function Join(parts: seq<string>): string
    requires parts != []
  {
    if |parts| == 1 then parts[0] else parts[0] + "/" + Join(parts[1..])
  }

  lemma {:induction false} JoinSplit(s: string)
    ensures Join(Split(s)) == s
  {
    if s != "" {
      JoinSplit(s[1..]);
      var rest := Split(s[1..]);
      if s[0] == '/' {
        assert Split(s)[1..] == rest;
      } else {
        var parts := Split(s);
        assert parts[1..] == rest[1..];
        if |parts| > 1 { assert Join(rest) == rest[0] + "/" + Join(rest[1..]); }
      }
    }
  }

  /** Splitting off the first character. */
  lemma SplitHead(c: char, rest: string, s: string)
    requires s == [c] + rest
    ensures Split(s) == if c == '/' then [""] + Split(rest) else [[c] + Split(rest)[0]] + Split(rest)[1..]
  {
    assert s[0] == c && s[1..] == rest;
  }

  lemma GrowFirst(c: char, p: seq<string>, q: seq<string>)
    requires p != []
    ensures [[c] + (p + q)[0]] + (p + q)[1..] == ([[c] + p[0]] + p[1..]) + q
    ensures [""] + (p + q) == ([""] + p) + q
  {
    assert (p + q)[1..] == p[1..] + q;
  }

  /** A slash in the text is a boundary between segments. */
  lemma {:induction false} SplitAtSlash(a: string, b: string)
    ensures Split(a + "/" + b) == Split(a) + Split(b)
  {
    if a == "" {
      assert "" + "/" + b == ['/'] + b;
      SplitHead('/', b, a + "/" + b);
    } else {
      hide Split;
      var rest := a[1..] + "/" + b;
      SplitAtSlash(a[1..], b);
      assert a + "/" + b == [a[0]] + rest;
      SplitHead(a[0], rest, a + "/" + b);
      SplitHead(a[0], a[1..], a);
      GrowFirst(a[0], Split(a[1..]), Split(b));
    }
  }

  /** String prefix plus a slash is segment prefix. */
  lemma PrefixIsSegmentPrefix(a: string, b: string)
    ensures HasPrefix(a, b + "/") <==> Split(b) < Split(a)
  {
    if HasPrefix(a, b + "/") {
      var rest := a[|b| + 1..];
      assert a == b + "/" + rest;
      SplitAtSlash(b, rest);
    }
    if Split(b) < Split(a) {
      var more := Split(a)[|Split(b)|..];
      assert Split(a) == Split(b) + more;
      JoinSplit(a);
      JoinSplit(b);
      JoinAppend(Split(b), more);
      assert a == b + "/" + Join(more);
      assert a[..|b| + 1] == b + "/";
    }
  }

  lemma {:induction false} JoinAppend(p: seq<string>, q: seq<string>)
    requires p != [] && q != []
    ensures Join(p + q) == Join(p) + "/" + Join(q)
  {
    if |p| == 1 {
      assert (p + q)[1..] == q;
    } else {
      assert (p + q)[1..] == p[1..] + q;
      JoinAppend(p[1..], q);
    }
  }

  lemma SplitInjective(a: string, b: string)
    requires Split(a) == Split(b)
    ensures a == b
  {
    JoinSplit(a);
    JoinSplit(b);
  }

  // ---------------------------------------------------------------- cleaning

  /** path.Clean on the segments after the leading slash: empty and "." segments go, and ".." takes the
      segment before it along. */
  function CleanSegments(parts: seq<string>): seq<string> {
    if parts == [] then []
    else
      var init, last := CleanSegments(parts[..|parts| - 1]), parts[|parts| - 1];
      if last == "" || last == "." then init
      else if last == ".." then (if init == [] then [] else init[..|init| - 1])
      else init + [last]
  }

  function Clean(rooted: string): string
    requires HasPrefix(rooted, "/")
  {
    var parts := CleanSegments(Split(rooted[1..]));
    if parts == [] then "/" else "/" + Join(parts)
  }

  predicate PlainSegment(p: string) {
    p != "" && p != "." && p != ".."
  }

  lemma {:induction false} CleanShrinks(parts: seq<string>)
    ensures |CleanSegments(parts)| <= |parts|
    ensures |CleanSegments(parts)| == |parts| ==> CleanSegments(parts) == parts && forall i :: 0 <= i < |parts| ==> PlainSegment(parts[i])
  {
    if parts != [] { CleanShrinks(parts[..|parts| - 1]); }
  }

  lemma {:induction false} PlainIsClean(parts: seq<string>)
    requires forall i :: 0 <= i < |parts| ==> PlainSegment(parts[i])
    ensures CleanSegments(parts) == parts
  {
    if parts != [] {
      PlainIsClean(parts[..|parts| - 1]);
      assert parts == parts[..|parts| - 1] + [parts[|parts| - 1]];
    }
  }

  lemma {:induction false} PartsHaveNoSlash(s: string, i: nat)
    requires i < |Split(s)|
    ensures '/' !in Split(s)[i]
  {
    if s != "" {
      if s[0] == '/' {
        if i > 0 { PartsHaveNoSlash(s[1..], i - 1); }
      } else {
        PartsHaveNoSlash(s[1..], i);
      }
    }
  }

  lemma {:induction false} CleanKeepsParts(parts: seq<string>)
    ensures forall i :: 0 <= i < |CleanSegments(parts)| ==> CleanSegments(parts)[i] in parts
  {
    if parts != [] { CleanKeepsParts(parts[..|parts| - 1]); }
  }

  lemma {:induction false} SplitJoin(parts: seq<string>)
    requires parts != [] && forall i :: 0 <= i < |parts| ==> '/' !in parts[i]
    ensures Split(Join(parts)) == parts
  {
    if |parts| == 1 {
      SplitPlain(parts[0]);
    } else {
      SplitJoin(parts[1..]);
      SplitPlain(parts[0]);
      SplitAtSlash(parts[0], Join(parts[1..]));
      assert parts == [parts[0]] + parts[1..];
    }
  }

  lemma {:induction false} SplitPlain(s: string)
    requires '/' !in s
    ensures Split(s) == [s]
  {
    if s != "" {
      SplitPlain(s[1..]);
      assert s == [s[0]] + s[1..];
    }
  }

  /** The segments of a rooted path. */
  function Segments(p: string): seq<string>
    requires HasPrefix(p, "/")
  {
    Split(p[1..])
  }

  predicate IsCanonical(p: string) {
    HasPrefix(p, "/") && forall i :: 0 <= i < |Segments(p)| ==> PlainSegment(Segments(p)[i])
  }

  /** A rooted path is left alone by path.Clean exactly when it is the root or every segment is a plain name. */
  lemma CleanExactly(p: string)
    requires HasPrefix(p, "/")
    ensures Clean(p) == p <==> p == "/" || IsCanonical(p)
  {
    var parts := Segments(p);
    JoinSplit(p[1..]);
    assert p == "/" + p[1..];
    if IsCanonical(p) {
      PlainIsClean(parts);
    } else if p == "/" {
      assert parts == [""] && parts[..0] == [];
      assert CleanSegments(parts) == CleanSegments([]);
    } else if Clean(p) == p {
      var c := CleanSegments(parts);
      if c != [] {
        CleanKeepsParts(parts);
        forall i | 0 <= i < |c| ensures '/' !in c[i] {
          var j :| 0 <= j < |parts| && parts[j] == c[i];
          PartsHaveNoSlash(p[1..], j);
        }
        assert p[1..] == Join(c);
        SplitJoin(c);
        CleanShrinks(parts);
      }
    }
  }

  // ---------------------------------------------------------------- the check

  const ReservedMountPaths: seq<string> :=
    ["/run/garm", "/run", "/actions-runner", "/actions-runner/_work", "/actions-runner/externals", "/actions-runner/_diag", "/var/lib/docker"]

  predicate PathIsAtOrUnder(a: string, b: string) {
    a == b || HasPrefix(a, b + "/")
  }

  function CanonicalizeVarRun(p: string): string {
    if p == "/var/run" then "/run"
    else if HasPrefix(p, "/var/run/") then "/run" + p[|"/var/run"|..]
    else p
  }

  /** One path is the other, or lies above or below it, segment by segment. */
  predicate Related(a: seq<string>, b: seq<string>) {
    a <= b || b <= a
  }

  predicate Collides(canon: string, reserved: seq<string>) {
    exists r :: r in reserved && (PathIsAtOrUnder(canon, r) || PathIsAtOrUnder(r, canon))
  }

  /** validateCacheMountPath against any reserved list. */
  method ValidateMountPath(raw: string, reserved: seq<string>) returns (ok: bool)
    ensures ok <==> IsCanonical(raw) && !Collides(CanonicalizeVarRun(raw), reserved)
  {
    if raw == "" || !HasPrefix(raw, "/") { return false; }
    var cleaned := Clean(raw);
    CleanExactly(raw);
    if cleaned != raw { return false; }
    if cleaned == "/" {
      assert Segments(raw) == [""];
      return false;
    }
    var canon := CanonicalizeVarRun(cleaned);
    for i := 0 to |reserved|
      invariant forall j :: 0 <= j < i ==> !(PathIsAtOrUnder(canon, reserved[j]) || PathIsAtOrUnder(reserved[j], canon))
    {
      if PathIsAtOrUnder(canon, reserved[i]) || PathIsAtOrUnder(reserved[i], canon) { return false; }
    }
    ok := true;
  }

  /** On rooted paths the string test is the segment relation. */
  lemma AtOrUnderIsRelated(a: string, b: string)
    requires HasPrefix(a, "/") && HasPrefix(b, "/")
    ensures PathIsAtOrUnder(a, b) || PathIsAtOrUnder(b, a) <==> Related(Segments(a), Segments(b))
  {
    AtOrUnderIsPrefix(a, b);
    AtOrUnderIsPrefix(b, a);
  }

  lemma AtOrUnderIsPrefix(a: string, b: string)
    requires HasPrefix(a, "/") && HasPrefix(b, "/")
    ensures PathIsAtOrUnder(a, b) <==> Segments(b) <= Segments(a)
  {
    PrefixIsSegmentPrefix(a, b);
    RootedSplit(a);
    RootedSplit(b);
    if Split(a) == Split(b) { SplitInjective(a, b); }
    assert Split(b) <= Split(a) <==> Segments(b) <= Segments(a) by { PrefixTails(Split(b), Split(a)); }
  }

  lemma RootedSplit(p: string)
    requires HasPrefix(p, "/")
    ensures Split(p) == [""] + Segments(p) && Split(p)[1..] == Segments(p)
  {
    SplitHead('/', p[1..], p);
  }

  lemma PrefixTails(b: seq<string>, a: seq<string>)
    requires b != [] && a != [] && a[0] == b[0]
    ensures b <= a <==> b[1..] <= a[1..]
  {
    if b[1..] <= a[1..] {
      assert b == [b[0]] + b[1..] && a == [a[0]] + a[1..];
    }
    if b <= a { assert b[1..] == a[1..][..|b| - 1]; }
  }

  lemma UnderVarRun(p: string)
    requires HasPrefix(p, "/")
    ensures ["var", "run"] <= Segments(p) <==> p == "/var/run" || HasPrefix(p, "/var/run/")
  {
    hide Split;
    VarRunIs();
    assert p == "/" + p[1..];
    assert "/var/run" == "/" + "var/run" && "/var/run/" == "/" + ("var/run" + "/");
    PrefixIsSegmentPrefix(p[1..], "var/run");
    assert HasPrefix(p, "/var/run/") <==> HasPrefix(p[1..], "var/run" + "/");
    if ["var", "run"] == Segments(p) { SplitInjective(p[1..], "var/run"); }
  }

  /** The rewrite, segment by segment: "var", "run" at the start become "run". */
  lemma VarRunSegments(p: string)
    requires HasPrefix(p, "/")
    ensures HasPrefix(CanonicalizeVarRun(p), "/")
    ensures Segments(CanonicalizeVarRun(p)) ==
              if ["var", "run"] <= Segments(p) then ["run"] + Segments(p)[2..] else Segments(p)
  {
    hide Split;
    VarRunIs();
    UnderVarRun(p);
    assert "/var/run"[1..] == "var/run" && "/run"[1..] == "run";
    if p == "/var/run" {
      assert ["run"] + ["var", "run"][2..] == ["run"];
    } else if HasPrefix(p, "/var/run/") {
      var rest := p[|"/var/run/"|..];
      assert p[1..] == "var/run" + "/" + rest;
      SplitAtSlash("var/run", rest);
      assert p[|"/var/run"|..] == "/" + rest;
      assert CanonicalizeVarRun(p)[1..] == "run" + "/" + rest;
      SplitAtSlash("run", rest);
    }
  }

  lemma VarRunIs()
    ensures Split("var/run") == ["var", "run"] && Split("run") == ["run"]
  {
    SplitPlain("var");
    SplitPlain("run");
    SplitAtSlash("var", "run");
    assert "var" + "/" + "run" == "var/run";
  }

  lemma TwoSegments(a: string, b: string)
    requires '/' !in a && '/' !in b
    ensures Segments("/" + a) == [a] && Segments("/" + (a + "/" + b)) == [a, b]
  {
    assert ("/" + a)[1..] == a && ("/" + (a + "/" + b))[1..] == a + "/" + b;
    SplitPlain(a);
    SplitPlain(b);
    SplitAtSlash(a, b);
  }

  lemma ActionsSegments()
    ensures Segments("/actions-runner") == ["actions-runner"] && Segments("/actions-runner/_work") == ["actions-runner", "_work"]
  {
    hide Split;
    TwoSegments("actions-runner", "_work");
    assert "/" + "actions-runner" == "/actions-runner" && "/" + ("actions-runner" + "/" + "_work") == "/actions-runner/_work";
  }

  lemma MoreActionsSegments()
    ensures Segments("/actions-runner/externals") == ["actions-runner", "externals"]
    ensures Segments("/actions-runner/_diag") == ["actions-runner", "_diag"]
  {
    hide Split;
    TwoSegments("actions-runner", "externals");
    TwoSegments("actions-runner", "_diag");
    assert "/" + ("actions-runner" + "/" + "externals") == "/actions-runner/externals";
    assert "/" + ("actions-runner" + "/" + "_diag") == "/actions-runner/_diag";
  }

  lemma DockerSegments()
    ensures Segments("/var/lib/docker") == ["var", "lib", "docker"]
  {
    hide Split;
    SplitPlain("var");
    SplitPlain("lib");
    SplitPlain("docker");
    SplitAtSlash("lib", "docker");
    SplitAtSlash("var", "lib" + "/" + "docker");
    assert "/var/lib/docker"[1..] == "var" + "/" + ("lib" + "/" + "docker");
  }

  lemma RunSegments()
    ensures Segments("/run/garm") == ["run", "garm"] && Segments("/run") == ["run"]
  {
    hide Split;
    TwoSegments("run", "garm");
    assert "/" + "run" == "/run" && "/" + ("run" + "/" + "garm") == "/run/garm";
  }

  /** What the operator may mount a cache at: not at, under or above /run, /actions-runner or /var/lib/docker, nor at or
      under /var/run. */
  predicate Mountable(s: seq<string>) {
    && s != [] && s[0] != "run" && s[0] != "actions-runner"
    && !(s <= ["var", "lib", "docker"]) && !(["var", "lib", "docker"] <= s) && !(["var", "run"] <= s)
  }

  /** The seven reserved paths and the rewrite come to that. */
  lemma MountableExactly(raw: string)
    requires IsCanonical(raw)
    ensures (forall r :: r in ReservedMountPaths ==>
               HasPrefix(r, "/") && HasPrefix(CanonicalizeVarRun(raw), "/") && !Related(Segments(CanonicalizeVarRun(raw)), Segments(r)))
            <==> Mountable(Segments(raw))
  {
    hide Segments, IsCanonical, CanonicalizeVarRun;
    SomeSegment(raw);
    VarRunSegments(raw);
    RunSegments();
    ActionsSegments();
    MoreActionsSegments();
    DockerSegments();
    ReservedAre();
    RelatedToReserved(if ["var", "run"] <= Segments(raw) then ["run"] + Segments(raw)[2..] else Segments(raw));
  }

  lemma SomeSegment(raw: string)
    requires IsCanonical(raw)
    ensures HasPrefix(raw, "/") && Segments(raw) != []
  {
  }

  lemma ReservedAre()
    ensures forall r :: r in ReservedMountPaths <==>
              r == "/run/garm" || r == "/run" || r == "/actions-runner" || r == "/actions-runner/_work"
              || r == "/actions-runner/externals" || r == "/actions-runner/_diag" || r == "/var/lib/docker"
    ensures forall r :: r in ReservedMountPaths ==> HasPrefix(r, "/")
  {
  }

  /** Of the seven, three decide. */
  lemma RelatedToReserved(s: seq<string>)
    requires s != []
    ensures (|| Related(s, ["run", "garm"]) || Related(s, ["run"]) || Related(s, ["actions-runner"]) || Related(s, ["actions-runner", "_work"])
             || Related(s, ["actions-runner", "externals"]) || Related(s, ["actions-runner", "_diag"]) || Related(s, ["var", "lib", "docker"]))
            <==> s[0] == "run" || s[0] == "actions-runner" || s <= ["var", "lib", "docker"] || ["var", "lib", "docker"] <= s
  {
    assert Related(s, ["run"]) <==> s[0] == "run";
    assert Related(s, ["actions-runner"]) <==> s[0] == "actions-runner";
  }

  /** An accepted cache mount is canonical and, after the /var/run rewrite, neither equal to any reserved mount
      nor an ancestor or descendant of one, segment by segment; and every such path is accepted. In the path's own
      segments that leaves out /run, /actions-runner and /var/lib/docker with all above and below, and /var/run. */
  method ValidateCacheMountPath(raw: string) returns (ok: bool)
    ensures ok <==> IsCanonical(raw) && forall r :: r in ReservedMountPaths ==>
                      HasPrefix(r, "/") && HasPrefix(CanonicalizeVarRun(raw), "/") && !Related(Segments(CanonicalizeVarRun(raw)), Segments(r))
    ensures ok <==> IsCanonical(raw) && Mountable(Segments(raw))
  {
    hide Segments, PathIsAtOrUnder, Mountable;
    if IsCanonical(raw) { MountableExactly(raw); }
    ok := ValidateMountPath(raw, ReservedMountPaths);
    if IsCanonical(raw) {
      var canon := CanonicalizeVarRun(raw);
      assert HasPrefix(canon, "/");
      forall r | r in ReservedMountPaths
        ensures HasPrefix(r, "/")
        ensures (PathIsAtOrUnder(canon, r) || PathIsAtOrUnder(r, canon) <==> Related(Segments(canon), Segments(r)))
      {
        assert r[0] == '/';
        AtOrUnderIsRelated(canon, r);
      }
    }
  }
}
