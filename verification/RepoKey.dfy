/** The cache key of a repository URL (internal/spec/cache.go). */
module RepoKey {
  import opened Text
  import opened Names

  // ---------------------------------------------------------------- normalization

  /** The text after the first "://", or all of it. */
  function CutScheme(s: string): string {
    if SchemeAt(s) < 0 then s else s[SchemeAt(s) + 3..]
  }

  /** Where the first "://" stands, or -1. */
  function SchemeAt(s: string): (i: int)
    ensures -1 <= i && (i >= 0 ==> i + 3 <= |s|)
  {
    if HasPrefix(s, "://") then 0
    else if s == "" then -1
    else var i := SchemeAt(s[1..]); if i < 0 then -1 else i + 1
  }

  function TrimRightSlash(s: string): string {
    if s != "" && s[|s| - 1] == '/' then TrimRightSlash(s[..|s| - 1]) else s
  }

  function TrimGit(s: string): string {
    if HasSuffix(s, ".git") then s[..|s| - 4] else s
  }

  function NormalizeRepoURL(url: string): string {
    TrimRightSlash(TrimGit(TrimRightSlash(CutScheme(Lower(TrimSpace(url))))))
  }

  // ---------------------------------------------------------------- spellings

  predicate AllSlashes(s: string) {
    forall i :: 0 <= i < |s| ==> s[i] == '/'
  }

  predicate AllSpace(s: string) {
    forall i :: 0 <= i < |s| ==> IsSpace(s[i])
  }

  /** A host and path as every spelling shares it, up to letter case. */
  predicate PlainPath(p: string) {
    && p != "" && !IsSpace(p[0]) && !IsSpace(p[|p| - 1])
    && SchemeAt(p) < 0 && p[|p| - 1] != ':' && p[|p| - 1] != '/' && !HasSuffix(Lower(p), ".git")
  }

  /** What may follow the path: slashes, perhaps ".git" in any case, and slashes again. */
  predicate Ending(e: string, a: string, git: string, b: string) {
    e == a + git + b && AllSlashes(a) && AllSlashes(b) && (git == "" || Lower(git) == ".git")
  }

  lemma TrimLeftDrops(lead: string, core: string)
    requires AllSpace(lead) && core != "" && !IsSpace(core[0])
    ensures TrimLeftSpace(lead + core) == core
  {
    var s := lead + core;
    var n := SpacesFrom(s, 0);
    assert s[|lead|] == core[0];
    assert forall i :: 0 <= i < |lead| ==> s[i] == lead[i];
    assert s[|lead|..] == core;
  }

  lemma TrimRightDrops(core: string, trail: string)
    requires AllSpace(trail) && core != "" && !IsSpace(core[|core| - 1])
    ensures TrimRightSpace(core + trail) == core
  {
    var s := core + trail;
    var n := SpacesUpTo(s, |s|);
    assert s[|core| - 1] == core[|core| - 1];
    assert forall i :: |core| <= i < |s| ==> s[i] == trail[i - |core|];
    assert s[..|core|] == core;
  }

  lemma TrimSpaceDrops(lead: string, core: string, trail: string)
    requires AllSpace(lead) && AllSpace(trail) && core != "" && !IsSpace(core[0]) && !IsSpace(core[|core| - 1])
    ensures TrimSpace(lead + core + trail) == core
  {
    assert lead + core + trail == lead + (core + trail);
    TrimLeftDrops(lead, core + trail);
    TrimRightDrops(core, trail);
  }

  lemma {:induction false} TrimRightSlashDrops(s: string, slashes: string)
    requires AllSlashes(slashes)
    ensures TrimRightSlash(s + slashes) == TrimRightSlash(s)
  {
    if slashes == "" {
      assert s + slashes == s;
    } else {
      var t := s + slashes;
      assert t[..|t| - 1] == s + slashes[..|slashes| - 1];
      TrimRightSlashDrops(s, slashes[..|slashes| - 1]);
    }
  }

  /** Slashes, ".git" and slashes again come off. */
  lemma EndingComesOff(n: string, a: string, git: string, b: string)
    requires n != "" && n[|n| - 1] != '/' && !HasSuffix(n, ".git")
    requires AllSlashes(a) && AllSlashes(b) && (git == "" || git == ".git")
    ensures TrimRightSlash(TrimGit(TrimRightSlash(n + (a + git + b)))) == n
  {
    if git == "" {
      assert n + (a + git + b) == n + (a + b);
      TrimRightSlashDrops(n, a + b);
    } else {
      assert n + (a + git + b) == (n + a + ".git") + b;
      TrimRightSlashDrops(n + a + ".git", b);
      var s := n + a + ".git";
      assert s[|s| - 1] == 't' && s[|s| - 4..] == ".git" && s[..|s| - 4] == n + a;
      TrimRightSlashDrops(n, a);
    }
  }

  lemma {:induction false} SchemeFound(scheme: string, rest: string)
    requires ':' !in scheme
    ensures SchemeAt(scheme + "://" + rest) == |scheme|
  {
    var s := scheme + "://" + rest;
    if scheme == "" {
      assert s[..3] == "://";
    } else {
      assert s[0] == scheme[0] && scheme[0] != ':';
      assert s[1..] == scheme[1..] + "://" + rest;
      SchemeFound(scheme[1..], rest);
    }
  }

  predicate SchemeMark(s: string, i: int) {
    0 <= i && i + 3 <= |s| && s[i] == ':' && s[i + 1] == '/' && s[i + 2] == '/'
  }

  lemma {:induction false} SchemeAbsent(s: string)
    ensures SchemeAt(s) < 0 <==> forall i :: !SchemeMark(s, i)
  {
    assert HasPrefix(s, "://") <==> SchemeMark(s, 0) by {
      if SchemeMark(s, 0) { assert s[..3] == "://"; }
      if HasPrefix(s, "://") { assert s[0] == s[..3][0] && s[1] == s[..3][1] && s[2] == s[..3][2]; }
    }
    if s != "" && !HasPrefix(s, "://") {
      SchemeAbsent(s[1..]);
      forall i | SchemeMark(s, i) ensures SchemeMark(s[1..], i - 1) { }
      forall i | SchemeMark(s[1..], i) ensures SchemeMark(s, i + 1) { }
      if forall i :: !SchemeMark(s[1..], i) {
        assert forall i :: !SchemeMark(s, i);
      } else {
        var i :| SchemeMark(s[1..], i);
        assert SchemeMark(s, i + 1);
      }
    }
  }

  /** A mark in a joined text lies in the first part, runs across its end, or begins in the second. */
  lemma MarkAcross(n: string, e: string, i: int)
    requires n != ""
    ensures SchemeMark(n + e, i) ==> SchemeMark(n, i) || n[|n| - 1] == ':' || n[|n| - 1] == '/' || ':' in e
  {
    if |n| <= i < |n + e| { assert (n + e)[i] == e[i - |n|]; }
  }

  /** A path without "://" that ends in neither ':' nor '/' gains none from what may follow it. */
  lemma NoSchemeGained(n: string, e: string)
    requires SchemeAt(n) < 0 && n != "" && n[|n| - 1] != ':' && n[|n| - 1] != '/' && ':' !in e
    ensures SchemeAt(n + e) < 0
  {
    SchemeAbsent(n);
    SchemeAbsent(n + e);
    forall i ensures !SchemeMark(n + e, i) { MarkAcross(n, e, i); }
  }

  lemma LowerChars(c: char)
    ensures (LowerChar(c) == ':' <==> c == ':') && (LowerChar(c) == '/' <==> c == '/')
    ensures (IsSpace(LowerChar(c)) <==> IsSpace(c))
  {
  }

  lemma LowerKeepsScheme(s: string)
    ensures SchemeAt(Lower(s)) < 0 <==> SchemeAt(s) < 0
  {
    SchemeAbsent(s);
    SchemeAbsent(Lower(s));
    forall i ensures SchemeMark(Lower(s), i) <==> SchemeMark(s, i) {
      if 0 <= i && i + 3 <= |s| {
        LowerChars(s[i]);
        LowerChars(s[i + 1]);
        LowerChars(s[i + 2]);
      }
    }
  }

  /** Any scheme, or none. */
  predicate SchemePrefix(pre: string, scheme: string) {
    pre == "" || (pre == scheme + "://" && ':' !in scheme && (scheme != "" ==> !IsSpace(scheme[0])))
  }

  lemma LowerSlashes(s: string)
    requires AllSlashes(s)
    ensures Lower(s) == s
  {
  }

  lemma LowerEnding(e: string, a: string, git: string, b: string)
    requires Ending(e, a, git, b)
    ensures Ending(Lower(e), a, Lower(git), b) && ':' !in e && ':' !in Lower(e) && (e != "" ==> !IsSpace(e[|e| - 1]))
  {
    LowerSlashes(a);
    LowerSlashes(b);
    LowerAppend(a + git, b);
    LowerAppend(a, git);
    LowerIdempotent(git);
    if git != "" {
      var dot := ".git";
      assert |git| == 4 && forall i :: 0 <= i < 4 ==> LowerChar(git[i]) == dot[i];
      forall i | 0 <= i < 4 ensures git[i] != ':' && LowerChar(git[i]) != ':' { LowerChars(git[i]); }
      LowerChars(git[3]);
    }
  }

  lemma SamePathEnds(p: string, q: string)
    requires PlainPath(p) && Lower(q) == Lower(p)
    ensures q != "" && !IsSpace(q[0]) && !IsSpace(q[|q| - 1])
    ensures SchemeAt(Lower(q)) < 0 && Lower(q)[|q| - 1] != ':' && Lower(q)[|q| - 1] != '/'
  {
    assert |q| == |Lower(q)| == |p|;
    LowerChars(p[0]);
    LowerChars(q[0]);
    LowerChars(p[|p| - 1]);
    LowerChars(q[|q| - 1]);
    assert Lower(p)[0] == Lower(q)[0] && Lower(p)[|p| - 1] == Lower(q)[|p| - 1];
    LowerKeepsScheme(p);
  }

  lemma LowerMark()
    ensures Lower("://") == "://"
  {
  }

  /** The scheme comes off, and the path and its ending are left. */
  lemma SchemeComesOff(pre: string, scheme: string, n: string, e: string)
    requires SchemePrefix(pre, scheme) && SchemeAt(n) < 0 && n != "" && n[|n| - 1] != ':' && n[|n| - 1] != '/'
    requires ':' !in e
    ensures CutScheme(Lower(pre) + (n + e)) == n + e
  {
    if pre == "" {
      NoSchemeGained(n, e);
      assert Lower(pre) + (n + e) == n + e;
    } else {
      hide SchemeAt, LowerChar;
      LowerMark();
      LowerAppend(scheme, "://");
      forall i | 0 <= i < |scheme| ensures Lower(scheme)[i] != ':' { LowerChars(scheme[i]); }
      assert Lower(pre) == Lower(scheme) + "://";
      SchemeFound(Lower(scheme), n + e);
      assert Lower(pre) + (n + e) == Lower(scheme) + "://" + (n + e);
    }
  }

  /** A way to write a path: white space, perhaps a scheme, the path in some letter case, slashes, perhaps ".git",
      slashes, white space. */
  datatype Spelling = Spelling(lead: string, pre: string, scheme: string, path: string, a: string, git: string, b: string, trail: string)

  function Written(s: Spelling): string {
    s.lead + (s.pre + (s.path + (s.a + s.git + s.b))) + s.trail
  }

  predicate Spells(s: Spelling, p: string) {
    && Lower(s.path) == Lower(p) && SchemePrefix(s.pre, s.scheme) && Ending(s.a + s.git + s.b, s.a, s.git, s.b)
    && AllSpace(s.lead) && AllSpace(s.trail)
  }

  /** Every scheme or none, every letter case, surrounding white space, trailing slashes and an optional ".git"
      normalize to the same text. */
  lemma SpellingInvariant(s: Spelling, p: string)
    requires PlainPath(p) && Spells(s, p)
    ensures NormalizeRepoURL(Written(s)) == Lower(p)
  {
    hide Lower, TrimSpace, IsSpace;
    var n, e, core := Lower(p), s.a + s.git + s.b, s.pre + (s.path + (s.a + s.git + s.b));
    SamePathEnds(p, s.path);
    LowerEnding(e, s.a, s.git, s.b);
    CoreEnds(s.pre, s.scheme, s.path, e);
    TrimSpaceDrops(s.lead, core, s.trail);
    LowerAppend(s.pre, s.path + e);
    LowerAppend(s.path, e);
    assert |n| == |s.path|;
    SchemeComesOff(s.pre, s.scheme, n, Lower(e));
    GitStays(p);
    EndingComesOff(n, s.a, Lower(s.git), s.b);
  }

  lemma GitStays(p: string)
    requires PlainPath(p)
    ensures !HasSuffix(Lower(p), ".git") && |Lower(p)| == |p|
  {
  }

  lemma CoreEnds(pre: string, scheme: string, q: string, e: string)
    requires SchemePrefix(pre, scheme) && q != "" && !IsSpace(q[0]) && !IsSpace(q[|q| - 1])
    requires (e != "" ==> !IsSpace(e[|e| - 1]))
    ensures var core := pre + (q + e); core != "" && !IsSpace(core[0]) && !IsSpace(core[|core| - 1])
  {
    var core := pre + (q + e);
    if pre != "" { assert core[0] == if scheme == "" then ':' else scheme[0]; }
  }

  // ---------------------------------------------------------------- where spellings diverge

  lemma {:induction false} TrimRightSlashShorter(s: string)
    ensures |TrimRightSlash(s)| <= |s|
    ensures s == "" || s[|s| - 1] != '/' ==> TrimRightSlash(s) == s
  {
    if s != "" && s[|s| - 1] == '/' { TrimRightSlashShorter(s[..|s| - 1]); }
  }

  lemma NormalizedIsShorter(s: string)
    ensures |TrimRightSlash(TrimGit(TrimRightSlash(s)))| <= |s|
    ensures s != "" && s[|s| - 1] != '/' && HasSuffix(s, ".git") ==> |TrimRightSlash(TrimGit(TrimRightSlash(s)))| < |s|
  {
    TrimRightSlashShorter(s);
    TrimRightSlashShorter(TrimGit(TrimRightSlash(s)));
  }

  /** One spelling of every path, with a scheme and ".git", normalizes to the path itself. */
  function FullSpelling(p: string): Spelling {
    Spelling("", "x://", "x", p, "", ".git", "", "")
  }

  lemma GitComesOff(n: string)
    requires n != "" && n[|n| - 1] != '/'
    ensures TrimRightSlash(TrimGit(TrimRightSlash(n + ".git"))) == n
  {
    var s := n + ".git";
    assert s[|n| + 3] == 't' && s[|n|..] == ".git" && s[..|n|] == n;
    TrimRightSlashShorter(s);
    TrimRightSlashShorter(n);
  }

  lemma LowerGit()
    ensures Lower(".git") == ".git"
  {
  }

  lemma FullWritten(p: string)
    ensures Written(FullSpelling(p)) == "x://" + (p + ".git")
  {
    assert "" + ".git" + "" == ".git";
    assert "" + ("x://" + (p + ".git")) + "" == "x://" + (p + ".git");
  }

  lemma FullSpells(p: string)
    ensures Spells(FullSpelling(p), p) && Written(FullSpelling(p)) == "x://" + (p + ".git")
  {
    hide Written;
    FullWritten(p);
    LowerGit();
    assert "" + ".git" + "" == ".git" && "x" + "://" == "x://";
    assert !IsSpace('x');
  }

  lemma FullLowers(p: string)
    ensures Lower("x://" + (p + ".git")) == "x" + "://" + (Lower(p) + ".git")
  {
    LowerAppend("x://", p + ".git");
    LowerAppend(p, ".git");
    assert Lower("x://") == "x" + "://" && Lower(".git") == ".git";
  }

  lemma FullCut(p: string)
    ensures CutScheme("x" + "://" + (p + ".git")) == p + ".git"
  {
    hide SchemeAt;
    SchemeFound("x", p + ".git");
    assert ("x" + "://" + (p + ".git"))[4..] == p + ".git";
  }

  lemma FullSpellingKeepsPath(p: string)
    requires p != "" && p[|p| - 1] != '/'
    ensures Spells(FullSpelling(p), p) && NormalizeRepoURL(Written(FullSpelling(p))) == Lower(p)
  {
    hide TrimSpace, Spells, Written, CutScheme, TrimRightSlash, TrimGit;
    FullSpells(p);
    var core := "x://" + (p + ".git");
    assert TrimSpace(core) == core;
    FullLowers(p);
    FullCut(Lower(p));
    LowerChars(p[|p| - 1]);
    GitComesOff(Lower(p));
  }

  /** The path alone, or the path with two slashes. */
  function BareSpelling(p: string, slashes: string): Spelling {
    Spelling("", "", "", p, slashes, "", "", "")
  }

  lemma BareSpells(p: string, slashes: string)
    requires AllSlashes(slashes)
    ensures Spells(BareSpelling(p, slashes), p) && Written(BareSpelling(p, slashes)) == p + slashes
  {
    assert slashes + "" + "" == slashes;
    assert Written(BareSpelling(p, slashes)) == p + slashes;
  }

  lemma TrimSpaceShorter(s: string)
    ensures |TrimSpace(s)| <= |s|
    ensures s != "" && (IsSpace(s[0]) || IsSpace(s[|s| - 1])) ==> |TrimSpace(s)| < |s|
  {
  }

  /** A path with a space at an end, a "://" in it or ".git" at its end loses it when it stands alone. */
  lemma AloneIsShorter(p: string)
    requires p != "" && p[|p| - 1] != '/'
    requires IsSpace(p[0]) || IsSpace(p[|p| - 1]) || SchemeAt(p) >= 0 || HasSuffix(Lower(p), ".git")
    ensures |NormalizeRepoURL(p)| < |p|
  {
    hide SchemeAt, TrimSpace, HasSuffix;
    var s := TrimSpace(p);
    TrimSpaceShorter(p);
    NormalizedIsShorter(CutScheme(Lower(s)));
    if !IsSpace(p[0]) && !IsSpace(p[|p| - 1]) {
      assert s == p;
      LowerKeepsScheme(p);
      LowerChars(p[|p| - 1]);
    }
  }

  /** A path that ends in ':' makes a "://" with two slashes, and loses everything up to it. */
  lemma ColonIsLost(p: string)
    requires p != "" && p[|p| - 1] == ':' && !IsSpace(p[0])
    ensures |NormalizeRepoURL(p + "//")| < |p|
  {
    hide SchemeAt, TrimSpace;
    var s := p + "//";
    assert TrimSpace(s) == s;
    assert SchemeMark(s, |p| - 1);
    SchemeAbsent(s);
    LowerKeepsScheme(s);
    NormalizedIsShorter(CutScheme(Lower(s)));
  }

  /** The exact condition: all spellings of a path (taken without trailing slashes) normalize to one text if and
      only if the path begins and ends with no white space, has no "://" in it, and ends in neither ':' nor ".git". */
  lemma SpellingsAgreeExactly(p: string)
    requires p != "" && p[|p| - 1] != '/'
    ensures (forall s, t :: Spells(s, p) && Spells(t, p) ==> NormalizeRepoURL(Written(s)) == NormalizeRepoURL(Written(t)))
            <==> PlainPath(p)
  {
    hide Spells, Written, NormalizeRepoURL, SchemeAt, Lower, IsSpace;
    if PlainPath(p) {
      forall s, t | Spells(s, p) && Spells(t, p) ensures NormalizeRepoURL(Written(s)) == NormalizeRepoURL(Written(t)) {
        SpellingInvariant(s, p);
        SpellingInvariant(t, p);
      }
    } else {
      FullSpellingKeepsPath(p);
      BareSpells(p, "");
      BareSpells(p, "//");
      assert p + "" == p;
      if IsSpace(p[0]) || IsSpace(p[|p| - 1]) || SchemeAt(p) >= 0 || HasSuffix(Lower(p), ".git") {
        AloneIsShorter(p);
        assert NormalizeRepoURL(Written(BareSpelling(p, ""))) != NormalizeRepoURL(Written(FullSpelling(p)));
      } else {
        ColonIsLost(p);
        assert NormalizeRepoURL(Written(BareSpelling(p, "//"))) != NormalizeRepoURL(Written(FullSpelling(p)));
      }
    }
  }

  // ---------------------------------------------------------------- slugs

  predicate IsSlugChar(c: char) {
    'a' <= c <= 'z' || '0' <= c <= '9'
  }

  /** Runs of other characters collapsed into one dash. */
  function Collapse(s: string): string {
    if s == "" then ""
    else
      var r, c := Collapse(s[..|s| - 1]), s[|s| - 1];
      if IsSlugChar(c) then r + [c] else if r != "" && r[|r| - 1] == '-' then r else r + "-"
  }

  function TrimLeftDash(s: string): (r: string)
    ensures |r| <= |s| && r == s[|s| - |r|..] && (r != "" ==> r[0] != '-')
    ensures forall i :: 0 <= i < |s| - |r| ==> s[i] == '-'
  {
    if s != "" && s[0] == '-' then TrimLeftDash(s[1..]) else s
  }

  function TrimRightDash(s: string): (r: string)
    ensures |r| <= |s| && r == s[..|r|] && (r != "" ==> r[|r| - 1] != '-')
    ensures forall i :: |r| <= i < |s| ==> s[i] == '-'
  {
    if s != "" && s[|s| - 1] == '-' then TrimRightDash(s[..|s| - 1]) else s
  }

  function TrimDashes(s: string): string {
    TrimRightDash(TrimLeftDash(s))
  }

  const RepoSlugMaxLen := 40

  function Slug(s: string): string {
    var out := TrimDashes(Collapse(s));
    if |out| > RepoSlugMaxLen then TrimDashes(out[..RepoSlugMaxLen]) else out
  }

  /** slugify, with its builder and its previous-dash flag. */
  method Slugify(s: string) returns (out: string)
    ensures out == Slug(s)
  {
    out := "";
    var prevDash := false;
    for i := 0 to |s|
      invariant out == Collapse(s[..i]) && (prevDash <==> out != "" && out[|out| - 1] == '-')
    {
      assert s[..i + 1][..i] == s[..i];
      if IsSlugChar(s[i]) {
        out, prevDash := out + [s[i]], false;
      } else if !prevDash {
        out, prevDash := out + "-", true;
      }
    }
    assert s[..|s|] == s;
    out := TrimDashes(out);
    if |out| > RepoSlugMaxLen { out := TrimDashes(out[..RepoSlugMaxLen]); }
  }

  /** Only slug characters and single dashes. */
  predicate Tidy(s: string) {
    && (forall i :: 0 <= i < |s| ==> IsSlugChar(s[i]) || s[i] == '-')
    && forall i :: 0 <= i < |s| - 1 ==> !(s[i] == '-' && s[i + 1] == '-')
  }

  /** The characters a reader can recognize. */
  function Letters(s: string): string {
    if s == "" then "" else Letters(s[..|s| - 1]) + (if IsSlugChar(s[|s| - 1]) then [s[|s| - 1]] else "")
  }

  lemma {:induction false} CollapseTidy(s: string)
    ensures Tidy(Collapse(s)) && Letters(Collapse(s)) == Letters(s)
  {
    if s != "" {
      CollapseTidy(s[..|s| - 1]);
      var r, c := Collapse(s[..|s| - 1]), s[|s| - 1];
      assert (r + [c])[..|r|] == r && (r + "-")[..|r|] == r;
    }
  }

  lemma {:induction false} LettersAppend(s: string, t: string)
    ensures Letters(s + t) == Letters(s) + Letters(t)
  {
    if t == "" {
      assert s + t == s;
    } else {
      assert (s + t)[..|s + t| - 1] == s + t[..|t| - 1];
      LettersAppend(s, t[..|t| - 1]);
    }
  }

  lemma {:induction false} DashesHaveNoLetters(s: string)
    requires forall i :: 0 <= i < |s| ==> s[i] == '-'
    ensures Letters(s) == ""
  {
    if s != "" { DashesHaveNoLetters(s[..|s| - 1]); }
  }

  /** A slice of a tidy text is tidy. */
  lemma SliceTidy(s: string, lo: nat, hi: nat)
    requires Tidy(s) && lo <= hi <= |s|
    ensures Tidy(s[lo..hi])
  {
    var r := s[lo..hi];
    forall i | 0 <= i < |r| ensures IsSlugChar(r[i]) || r[i] == '-' { assert r[i] == s[lo + i]; }
    forall i | 0 <= i < |r| - 1 ensures !(r[i] == '-' && r[i + 1] == '-') {
      assert r[i] == s[lo + i] && r[i + 1] == s[lo + i + 1];
    }
  }

  lemma TrimIsSlice(s: string) returns (lo: nat, hi: nat)
    ensures lo <= hi <= |s| && TrimDashes(s) == s[lo..hi]
    ensures (forall i :: 0 <= i < lo ==> s[i] == '-') && forall i :: hi <= i < |s| ==> s[i] == '-'
    ensures lo < hi ==> s[lo] != '-' && s[hi - 1] != '-'
  {
    hide TrimLeftDash, TrimRightDash;
    var l := TrimLeftDash(s);
    var r := TrimRightDash(l);
    lo, hi := |s| - |l|, |s| - |l| + |r|;
    assert r == s[lo..hi];
    forall i | hi <= i < |s| ensures s[i] == '-' { assert s[i] == l[i - lo]; }
    if r != "" { assert r[|r| - 1] == s[hi - 1] && r[0] == l[0] == s[lo]; }
  }

  lemma SliceLetters(s: string, lo: nat, hi: nat)
    requires lo <= hi <= |s|
    requires (forall i :: 0 <= i < lo ==> s[i] == '-') && forall i :: hi <= i < |s| ==> s[i] == '-'
    ensures Letters(s[lo..hi]) == Letters(s)
  {
    hide Letters;
    assert s == s[..lo] + (s[lo..hi] + s[hi..]);
    DashesHaveNoLetters(s[..lo]);
    DashesHaveNoLetters(s[hi..]);
    LettersAppend(s[..lo], s[lo..hi] + s[hi..]);
    LettersAppend(s[lo..hi], s[hi..]);
  }

  lemma TrimKeepsLetters(s: string)
    requires Tidy(s)
    ensures Tidy(TrimDashes(s)) && Letters(TrimDashes(s)) == Letters(s) && |TrimDashes(s)| <= |s|
    ensures TrimDashes(s) != "" ==> TrimDashes(s)[0] != '-' && TrimDashes(s)[|TrimDashes(s)| - 1] != '-'
  {
    hide Letters, TrimDashes, Tidy;
    var lo, hi := TrimIsSlice(s);
    SliceTidy(s, lo, hi);
    SliceLetters(s, lo, hi);
  }

  /** A slug has at most 40 characters of [a-z0-9-], no dash at either end and no two together; its letters are
      the input's in order, all of them unless the cap cut it. */
  lemma SlugShape(s: string)
    ensures Tidy(Slug(s)) && |Slug(s)| <= 40
    ensures forall i :: 0 <= i < |Slug(s)| ==> 'a' <= Slug(s)[i] <= 'z' || '0' <= Slug(s)[i] <= '9' || Slug(s)[i] == '-'
    ensures Slug(s) != "" ==> Slug(s)[0] != '-' && Slug(s)[|Slug(s)| - 1] != '-'
    ensures Letters(Slug(s)) <= Letters(s)
    ensures Letters(Slug(s)) == Letters(s) || |Slug(s)| >= 39
  {
    hide Collapse, TrimDashes, Letters;
    CollapseTidy(s);
    var c := Collapse(s);
    TrimKeepsLetters(c);
    var out := TrimDashes(c);
    if |out| > RepoSlugMaxLen {
      var head := out[..RepoSlugMaxLen];
      assert out == head + out[RepoSlugMaxLen..];
      LettersAppend(head, out[RepoSlugMaxLen..]);
      assert Tidy(head);
      TrimKeepsLetters(head);
      CappedLength(head);
    }
  }

  /** A capped slug starts with no dash, so the second trim takes one character at most. */
  lemma CappedLength(head: string)
    requires Tidy(head) && head != "" && head[0] != '-'
    ensures |TrimDashes(head)| >= |head| - 1
  {
    var r := TrimRightDash(head);
    assert TrimLeftDash(head) == head;
    var k := |head| - 2;
    assert k < 0 || !(head[k] == '-' && head[k + 1] == '-');
  }

  // ---------------------------------------------------------------- keys

  /** The truncated digest, left uninterpreted: 32 hex digits. */
  ghost predicate IsKeyHash(h: string -> string) {
    forall s :: |h(s)| == 32 && forall i :: 0 <= i < 32 ==> '0' <= h(s)[i] <= '9' || 'a' <= h(s)[i] <= 'f'
  }

  /** The path after the host, slugged. */
  function RepoSlug(norm: string): string {
    Slug(AfterSlash(norm))
  }

  /** The text after the first slash, or all of it. */
  function AfterSlash(s: string): (r: string)
    ensures |r| <= |s|
  {
    if '/' !in s then s else if s[0] == '/' then s[1..] else AfterSlash(s[1..])
  }

  function KeyOf(norm: string, h: string -> string): string {
    if RepoSlug(norm) == "" then h(norm) else RepoSlug(norm) + "-" + h(norm)
  }

  /** The key is safe in a Docker name whatever the URL, and every spelling of a path has the path's own key. */
  method RepoKey(url: string, h: string -> string) returns (key: string)
    ensures key == KeyOf(NormalizeRepoURL(url), h)
    ensures IsKeyHash(h) ==> SafeKey(key, h(NormalizeRepoURL(url)))
    ensures forall s, p :: Spells(s, p) && PlainPath(p) && url == Written(s) ==> key == KeyOf(Lower(p), h)
  {
    hide Lower, NormalizeRepoURL, Spells, PlainPath, SafeKey, Slug, AfterSlash, IsKeyHash;
    var norm := NormalizeRepoURL(url);
    var slug := Slugify(AfterSlash(norm));
    key := if slug == "" then h(norm) else slug + "-" + h(norm);
    if IsKeyHash(h) { KeyIsSafe(norm, h); }
    forall s, p | Spells(s, p) && PlainPath(p) && url == Written(s) ensures key == KeyOf(Lower(p), h) { SpellingInvariant(s, p); }
  }

  lemma {:induction false} HostComesOff(host: string, path: string)
    requires '/' !in host
    ensures AfterSlash(host + "/" + path) == path
  {
    var s := host + "/" + path;
    assert s[|host|] == '/';
    if host == "" {
      assert s[1..] == path;
    } else {
      assert s[0] == host[0] && s[1..] == host[1..] + "/" + path;
      HostComesOff(host[1..], path);
    }
  }

  /** A key reads as the path on its host: the slug of what follows the first slash, a dash, and the digest of the
      whole; without a readable path it is the digest. */
  lemma KeyReads(host: string, path: string, h: string -> string)
    requires '/' !in host
    ensures var norm := host + "/" + path;
            KeyOf(norm, h) == if Letters(Slug(path)) == "" then h(norm) else Slug(path) + "-" + h(norm)
    ensures KeyOf(host, h) == if Letters(Slug(host)) == "" then h(host) else Slug(host) + "-" + h(host)
  {
    HostComesOff(host, path);
    SlugIsReadable(path);
    SlugIsReadable(host);
  }

  lemma SlugIsReadable(s: string)
    ensures Letters(Slug(s)) == "" <==> Slug(s) == ""
  {
    SlugShape(s);
    if Slug(s) != "" {
      assert IsSlugChar(Slug(s)[|Slug(s)| - 1]);
    }
  }

  /** One repository, one cache: any two spellings of a path have the same key and the same digest, whatever the
      hash. */
  lemma SpellingsShareKey(s: Spelling, t: Spelling, p: string, h: string -> string)
    requires PlainPath(p) && Spells(s, p) && Spells(t, p)
    ensures KeyOf(NormalizeRepoURL(Written(s)), h) == KeyOf(NormalizeRepoURL(Written(t)), h) == KeyOf(Lower(p), h)
    ensures h(NormalizeRepoURL(Written(s))) == h(NormalizeRepoURL(Written(t)))
  {
    SpellingInvariant(s, p);
    SpellingInvariant(t, p);
  }

  /** A key is safe in a Docker name, whatever the URL: its grammar is slug characters and single dashes, it
      starts with a slug character, it has at most 73 characters, and it ends with the digest. */
  ghost predicate SafeKey(key: string, digest: string) {
    && 32 <= |key| <= RepoSlugMaxLen + 33 && key[|key| - 32..] == digest
    && IsSlugChar(key[0]) && Tidy(key) && ValidDerivedName(key)
  }

  lemma TidyStart(s: string)
    requires Tidy(s) && s != "" && s[0] != '-'
    ensures IsSlugChar(s[0])
  {
  }

  lemma TidyIsValid(s: string)
    requires Tidy(s) && 2 <= |s| <= MaxNameLength && IsSlugChar(s[0])
    ensures ValidDerivedName(s)
  {
    forall i | 1 <= i < |s| ensures IsAlnum(s[i]) || s[i] == '_' || s[i] == '.' || s[i] == '-' {
      assert IsSlugChar(s[i]) || s[i] == '-';
    }
  }

  lemma KeyIsSafe(norm: string, h: string -> string)
    requires IsKeyHash(h)
    ensures SafeKey(KeyOf(norm, h), h(norm))
  {
    hide Slug, AfterSlash, ValidDerivedName;
    var slug, d, key := RepoSlug(norm), h(norm), KeyOf(norm, h);
    SlugShape(AfterSlash(norm));
    assert Tidy(d) && IsSlugChar(d[0]);
    if slug != "" {
      TidyStart(slug);
      assert key == slug + "-" + d && key[|slug|] == '-' && key[|slug| + 1..] == d;
      forall i | 0 <= i < |key| ensures IsSlugChar(key[i]) || key[i] == '-' {
        if i < |slug| { assert key[i] == slug[i]; } else if i > |slug| { assert key[i] == d[i - |slug| - 1]; }
      }
      forall i | 0 <= i < |key| - 1 ensures !(key[i] == '-' && key[i + 1] == '-') {
        if i + 1 < |slug| { assert key[i] == slug[i] && key[i + 1] == slug[i + 1]; }
        if i + 1 == |slug| { assert key[i] == slug[|slug| - 1]; }
        if i == |slug| { assert key[i + 1] == d[0]; }
        if i > |slug| { assert key[i] == d[i - |slug| - 1]; }
      }
      assert key[0] == slug[0];
    }
    TidyIsValid(key);
  }

  /** Two repositories share a key only if their digests collide. */
  lemma SharedKeySharesDigest(u: string, v: string, h: string -> string)
    requires IsKeyHash(h) && KeyOf(NormalizeRepoURL(u), h) == KeyOf(NormalizeRepoURL(v), h)
    ensures h(NormalizeRepoURL(u)) == h(NormalizeRepoURL(v))
  {
    KeyIsSafe(NormalizeRepoURL(u), h);
    KeyIsSafe(NormalizeRepoURL(v), h);
  }
}
