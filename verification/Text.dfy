/** String helpers that behave as Go's `strings` package does on the inputs the provider handles. */
module Text {

  /** Unicode simple lowercasing, restricted to the code points whose lowercase form is an
      ASCII letter: A-Z, U+0130 (to i) and U+212A KELVIN SIGN (to k). */
  function LowerChar(c: char): (r: char)
    ensures !('A' <= r <= 'Z')
  {
    if 'A' <= c <= 'Z' then 'a' + (c - 'A')
    else if c == '\U{0130}' then 'i'
    else if c == '\U{212A}' then 'k'
    else c
  }

  function Lower(s: string): (r: string)
    ensures |r| == |s|
    ensures forall i :: 0 <= i < |s| ==> r[i] == LowerChar(s[i])
  {
    seq(|s|, i requires 0 <= i < |s| => LowerChar(s[i]))
  }

  lemma LowerIdempotent(s: string)
    ensures Lower(Lower(s)) == Lower(s)
  {
  }

  lemma LowerAppend(s: string, t: string)
    ensures Lower(s + t) == Lower(s) + Lower(t)
  {
  }

  /** Go's unicode.IsSpace. */
  predicate IsSpace(c: char) {
    || '\t' <= c <= '\r' || c == ' ' || c == '\U{0085}' || c == '\U{00A0}' || c == '\U{1680}' || '\U{2000}' <= c <= '\U{200A}'
    || c == '\U{2028}' || c == '\U{2029}' || c == '\U{202F}' || c == '\U{205F}' || c == '\U{3000}'
  }

  /** Where the spaces from i on end. */
  function SpacesFrom(s: string, i: nat): (n: nat)
    requires i <= |s|
    ensures i <= n <= |s| && (n < |s| ==> !IsSpace(s[n]))
    ensures forall k :: i <= k < n ==> IsSpace(s[k])
    decreases |s| - i
  {
    if i < |s| && IsSpace(s[i]) then SpacesFrom(s, i + 1) else i
  }

  /** Where the spaces up to i begin. */
  function SpacesUpTo(s: string, i: nat): (n: nat)
    requires i <= |s|
    ensures n <= i && (n > 0 ==> !IsSpace(s[n - 1]))
    ensures forall k :: n <= k < i ==> IsSpace(s[k])
  {
    if i > 0 && IsSpace(s[i - 1]) then SpacesUpTo(s, i - 1) else i
  }

  function TrimLeftSpace(s: string): string {
    s[SpacesFrom(s, 0)..]
  }

  function TrimRightSpace(s: string): string {
    s[..SpacesUpTo(s, |s|)]
  }

  function TrimSpace(s: string): (r: string)
    ensures r != "" ==> !IsSpace(r[0]) && !IsSpace(r[|r| - 1])
    ensures s != "" && !IsSpace(s[0]) && !IsSpace(s[|s| - 1]) ==> r == s
  {
    TrimRightSpace(TrimLeftSpace(s))
  }

  predicate HasPrefix(s: string, p: string) {
    |p| <= |s| && s[..|p|] == p
  }

  predicate HasSuffix(s: string, t: string) {
    |t| <= |s| && s[|s| - |t|..] == t
  }

  /** Go's `<` on strings: lexicographic by code point. */
  predicate Less(a: string, b: string) {
    b != "" && (a == "" || a[0] < b[0] || (a[0] == b[0] && Less(a[1..], b[1..])))
  }

  /** The first i characters agree, and then a ends or has the smaller character. */
  ghost predicate FirstDiffers(a: string, b: string, i: nat) {
    i <= |a| && i < |b| && a[..i] == b[..i] && (i == |a| || a[i] < b[i])
  }

  lemma FirstAgree(a: string, b: string, i: nat)
    requires a != "" && b != ""
    ensures FirstDiffers(a, b, i) ==> if i > 0 then a[0] == b[0] else a[0] < b[0]
  {
    if FirstDiffers(a, b, i) && i > 0 { assert a[..i][0] == a[0] && b[..i][0] == b[0]; }
  }

  /** It is the order of the first difference, and a proper prefix comes first. */
  lemma {:induction false} LessExactly(a: string, b: string)
    ensures Less(a, b) <==> exists i: nat :: FirstDiffers(a, b, i)
  {
    if b == "" || a == "" || a[0] < b[0] {
      if b != "" { assert FirstDiffers(a, b, 0); }
    } else if a[0] == b[0] {
      LessExactly(a[1..], b[1..]);
      if i: nat :| FirstDiffers(a[1..], b[1..], i) {
        assert a[..i + 1] == [a[0]] + a[1..][..i] && b[..i + 1] == [b[0]] + b[1..][..i];
        assert FirstDiffers(a, b, i + 1);
      }
      if i: nat :| FirstDiffers(a, b, i) {
        assert i > 0;
        assert a[1..][..i - 1] == a[..i][1..] && b[1..][..i - 1] == b[..i][1..];
        assert FirstDiffers(a[1..], b[1..], i - 1);
      }
    } else {
      forall i: nat ensures !FirstDiffers(a, b, i) {
        FirstAgree(a, b, i);
      }
    }
  }

  lemma {:induction false} LessTotal(a: string, b: string)
    ensures Less(a, b) || a == b || Less(b, a)
    ensures !(Less(a, b) && Less(b, a)) && !(a == b && Less(a, b))
  {
    if a != "" && b != "" && a[0] == b[0] {
      LessTotal(a[1..], b[1..]);
      if a[1..] == b[1..] {
        assert a == [a[0]] + a[1..] && b == [b[0]] + b[1..];
      }
    }
  }

  lemma {:induction false} LessTransitive(a: string, b: string, c: string)
    requires Less(a, b) && Less(b, c)
    ensures Less(a, c)
  {
    if a != "" && a[0] == b[0] && b[0] == c[0] {
      LessTransitive(a[1..], b[1..], c[1..]);
    }
  }

  /** A non-empty finite set of strings has a smallest one. */
  lemma {:induction false} SmallestOf(names: set<string>) returns (v: string)
    requires names != {}
    ensures v in names && forall u :: u in names && u != v ==> Less(v, u)
    decreases names
  {
    var x :| x in names;
    v := x;
    assert forall u :: u in names && u != x ==> u in names - {x};
    if names - {x} != {} {
      var m := SmallestOf(names - {x});
      LessTotal(x, m);
      if Less(x, m) {
        forall u | u in names && u != x ensures Less(x, u) { if u != m { LessTransitive(x, m, u); } }
      } else {
        v := m;
        forall u | u in names && u != m ensures Less(m, u) { }
      }
    }
  }
}
