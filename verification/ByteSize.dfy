/** Byte sizes and the operator's memory ceilings (internal/config/bytesize.go,
    internal/config/resources.go, internal/extraspecs/extraspecs.go). */
module ByteSize {
  import opened Text
  import opened TeardownScope

  const MaxInt64: int := 0x7FFF_FFFF_FFFF_FFFF

  /** byteSizeUnits. */
  function UnitBytes(unit: string): (m: Option<int>)
    ensures m.Some? ==> m.value >= 1
  {
    if unit == "" || unit == "b" then Some(1)
    else if unit == "kb" then Some(1_000)
    else if unit == "mb" then Some(1_000_000)
    else if unit == "gb" then Some(1_000_000_000)
    else if unit == "kib" then Some(0x400)
    else if unit == "mib" then Some(0x10_0000)
    else if unit == "gib" then Some(0x4000_0000)
    else None
  }

  function Power(base: nat, k: nat): nat {
    if k == 0 then 1 else base * Power(base, k - 1)
  }

  /** The k-th metric prefix, in lower case. */
  function Prefix(k: nat): string
    requires 1 <= k <= 3
  {
    "kmg"[k - 1..k]
  }

  /** No unit or "b" is one byte; with the k-th prefix "b" is a power of 1000 and "ib" a power of 1024; there is no
      other unit. */
  lemma UnitsArePowers(unit: string, m: int)
    ensures UnitBytes(unit) == Some(m) <==>
              || ((unit == "" || unit == "b") && m == 1)
              || exists k :: 1 <= k <= 3 &&
                   ((unit == Prefix(k) + "b" && m == Power(1000, k)) || (unit == Prefix(k) + "ib" && m == Power(1024, k)))
  {
    hide Power;
    PrefixedUnits();
    ThreePowers(1000);
    ThreePowers(1024);
  }

  lemma PrefixedUnits()
    ensures Prefix(1) + "b" == "kb" && Prefix(2) + "b" == "mb" && Prefix(3) + "b" == "gb"
    ensures Prefix(1) + "ib" == "kib" && Prefix(2) + "ib" == "mib" && Prefix(3) + "ib" == "gib"
  {
    assert Prefix(1) == "k" && Prefix(2) == "m" && Prefix(3) == "g";
  }

  lemma ThreePowers(base: nat)
    ensures Power(base, 1) == base && Power(base, 2) == base * base && Power(base, 3) == base * (base * base)
  {
    assert Power(base, 0) == 1;
    assert Power(base, 1) == base * Power(base, 0);
    assert Power(base, 2) == base * Power(base, 1);
    assert Power(base, 3) == base * Power(base, 2);
  }

  predicate IsDigit(c: char) {
    '0' <= c <= '9'
  }

  predicate AllDigits(s: string) {
    forall i :: 0 <= i < |s| ==> IsDigit(s[i])
  }

  /** The number a string of decimal digits denotes. */
  function Value(digits: string): nat
    requires AllDigits(digits)
  {
    if digits == "" then 0
    else 10 * Value(digits[..|digits| - 1]) + (digits[|digits| - 1] - '0') as nat
  }

  function UnitOf(rest: string): (m: Option<int>)
    ensures m.Some? ==> m.value >= 1
  {
    UnitBytes(Lower(TrimSpace(rest)))
  }

  /** s, trimmed, is decimal digits and then a known unit in any case, and denotes n bytes. */
  ghost predicate Denotes(s: string, n: int) {
    exists i :: SplitAt(TrimSpace(s), i) && n == Product(TrimSpace(s), i)
  }

  predicate SplitAt(t: string, i: int) {
    0 < i <= |t| && AllDigits(t[..i]) && UnitOf(t[i..]).Some?
  }

  function Product(t: string, i: int): int
    requires SplitAt(t, i)
  {
    Value(t[..i]) * UnitOf(t[i..]).value
  }

  /** A number in decimal, as it is written. */
  function Decimal(n: nat): (s: string)
    ensures s != "" && AllDigits(s)
  {
    if n < 10 then ['0' + n as char] else Decimal(n / 10) + ['0' + (n % 10) as char]
  }

  lemma {:induction false} DecimalValue(n: nat)
    ensures Value(Decimal(n)) == n
  {
    var s := Decimal(n);
    if n >= 10 {
      DecimalValue(n / 10);
      assert s[..|s| - 1] == Decimal(n / 10);
    } else {
      assert s[..0] == "";
    }
  }

  /** A number as it is written, followed by a unit in any letter case, denotes that many units. */
  lemma DecimalDenotes(n: nat, unit: string, m: int)
    requires UnitBytes(Lower(unit)) == Some(m) && (unit != "" ==> !IsSpace(unit[0]) && !IsSpace(unit[|unit| - 1]))
    ensures Denotes(Decimal(n) + unit, n * m)
  {
    hide Decimal, Value, UnitBytes, Lower, TrimSpace;
    var d := Decimal(n);
    var s := d + unit;
    DecimalValue(n);
    DigitsAreNoSpace(d);
    EmptyTrims();
    assert s[|s| - 1] == if unit == "" then d[|d| - 1] else unit[|unit| - 1];
    assert TrimSpace(s) == s && TrimSpace(unit) == unit;
    assert s[..|d|] == d && s[|d|..] == unit;
    assert SplitAt(s, |d|) && n * m == Product(s, |d|);
  }

  lemma DigitsAreNoSpace(d: string)
    requires d != "" && AllDigits(d)
    ensures !IsSpace(d[0]) && !IsSpace(d[|d| - 1])
  {
  }

  lemma EmptyTrims()
    ensures TrimSpace("") == ""
  {
  }

  /** No unit begins with a digit, so the digits end where the first other character stands. */
  lemma UnitNeverStartsWithDigit(rest: string)
    requires rest != "" && IsDigit(rest[0])
    ensures UnitOf(rest).None?
  {
    assert !IsSpace(rest[0]);
    var t := TrimLeftSpace(rest);
    assert t == rest;
    var u := TrimRightSpace(t);
    assert forall i :: |u| <= i < |t| ==> IsSpace(t[i]);
    assert u[0] == rest[0];
    assert Lower(u)[0] == u[0];
  }

  lemma DigitAt(t: string, j: int, i: int)
    requires 0 <= j <= |t| && AllDigits(t[..j]) && 0 <= i
    ensures i < j ==> IsDigit(t[i])
  {
    if i < j { assert t[..j][i] == t[i]; }
  }

  lemma DigitsFirst(t: string)
    requires t != ""
    ensures !IsDigit(t[0]) ==> forall j :: !SplitAt(t, j)
  {
    hide UnitOf;
    forall j ensures SplitAt(t, j) ==> IsDigit(t[0]) {
      if SplitAt(t, j) { DigitAt(t, j, 0); }
    }
  }

  lemma SplitIsUnique(t: string, i: int, j: int)
    requires 0 < i <= |t| && AllDigits(t[..i]) && (i < |t| ==> !IsDigit(t[i])) && SplitAt(t, j)
    ensures i == j
  {
    hide UnitOf;
    if j < i {
      assert t[..i][j] == t[j];
      UnitNeverStartsWithDigit(t[j..]);
    }
    DigitAt(t, j, i);
  }

  lemma SplitsAgree(t: string, i: int, j: int)
    requires SplitAt(t, i) && SplitAt(t, j)
    ensures i == j
  {
    hide UnitOf;
    if i < j {
      assert t[..j][i] == t[i] && t[i..][0] == t[i];
      UnitNeverStartsWithDigit(t[i..]);
    }
    if j < i {
      assert t[..i][j] == t[j] && t[j..][0] == t[j];
      UnitNeverStartsWithDigit(t[j..]);
    }
  }

  /** strconv.ParseInt in base ten on digits: it fails exactly when the number exceeds int64. */
  function ParseInt64(digits: string): Option<int>
    requires AllDigits(digits)
  {
    if Value(digits) <= MaxInt64 then Some(Value(digits)) else None
  }

  lemma ProductFits(n: nat, m: int)
    requires m >= 1
    ensures n * m <= MaxInt64 <==> n <= MaxInt64 / m
  {
    if n <= MaxInt64 / m {
      assert n * m <= (MaxInt64 / m) * m;
    } else {
      assert n * m >= (MaxInt64 / m + 1) * m;
    }
  }

  lemma ProductAtLeast(n: nat, m: int)
    requires m >= 1
    ensures n <= n * m
  {
  }

  /** It accepts exactly decimal digits and a known unit whose product fits an int64, and returns that product. */
  method ParseByteSize(s: string) returns (r: Option<int>)
    ensures r.Some? ==> Denotes(s, r.value) && 0 <= r.value <= MaxInt64
    ensures r.None? ==> forall n :: Denotes(s, n) ==> n > 9_223_372_036_854_775_807
  {
    hide UnitOf, UnitBytes, TrimSpace, Value;
    var t := TrimSpace(s);
    if t == "" { return None; }
    var i := 0;
    while i < |t| && IsDigit(t[i])
      invariant 0 <= i <= |t| && AllDigits(t[..i])
    {
      i := i + 1;
    }
    if i == 0 {
      DigitsFirst(t);
      return None;
    }
    forall j | SplitAt(t, j) ensures i == j { SplitIsUnique(t, i, j); }
    var m := UnitOf(t[i..]);
    var n := ParseInt64(t[..i]);
    if n.None? {
      if m.Some? { ProductAtLeast(Value(t[..i]), m.value); }
      return None;
    }
    if m.None? { return None; }
    ProductFits(n.value, m.value);
    if n.value != 0 && m.value != 0 && n.value > MaxInt64 / m.value { return None; }
    assert SplitAt(t, i);
    r := Some(n.value * m.value);
  }

  lemma DenotesOne(s: string, a: int, b: int)
    requires Denotes(s, a) && Denotes(s, b)
    ensures a == b
  {
    hide UnitOf, Value, SplitAt, TrimSpace;
    var t := TrimSpace(s);
    var i :| SplitAt(t, i) && a == Product(t, i);
    var j :| SplitAt(t, j) && b == Product(t, j);
    SplitsAgree(t, i, j);
  }

  method ParsePositiveByteSize(s: string) returns (r: Option<int>)
    ensures r.Some? ==> Denotes(s, r.value) && 0 < r.value <= MaxInt64
    ensures r.None? ==> forall n :: Denotes(s, n) ==> n == 0 || n > MaxInt64
  {
    r := ParseByteSize(s);
    if r.Some? && r.value <= 0 {
      forall n | Denotes(s, n) ensures n == 0 { DenotesOne(s, n, r.value); }
      return None;
    }
  }

  // ---------------------------------------------------------------- ceilings

  datatype Flavor = Flavor(runnerMemory: string, dindMemory: string)

  datatype Config = Config(runnerMemory: string, dindMemory: string, flavors: map<string, Flavor>)

  /** The operator's text for the runner: the flavor's if it has one, else the configuration's. */
  function RunnerText(cfg: Config, flavor: string): string {
    if flavor in cfg.flavors && cfg.flavors[flavor].runnerMemory != "" then cfg.flavors[flavor].runnerMemory else cfg.runnerMemory
  }

  function DindText(cfg: Config, flavor: string): string {
    if flavor in cfg.flavors && cfg.flavors[flavor].dindMemory != "" then cfg.flavors[flavor].dindMemory else cfg.dindMemory
  }

  /** The ceiling a text sets: none (0) when empty, else what it denotes. */
  ghost predicate SetsCeiling(text: string, c: int) {
    if text == "" then c == 0 else Denotes(text, c) && 0 <= c <= MaxInt64
  }

  method EffectiveMemoryBytes(text: string) returns (r: Option<int>)
    ensures r.Some? ==> SetsCeiling(text, r.value)
    ensures r.None? ==> forall c :: !SetsCeiling(text, c)
  {
    if text == "" { return Some(0); }
    r := ParseByteSize(text);
  }

  /** A limit granted under a ceiling: the ceiling when nothing is asked, else exactly what is asked, which is
      above zero and within a finite ceiling. */
  ghost predicate Granted(asked: string, ceiling: int, limit: int) {
    if asked == "" then limit == ceiling
    else Denotes(asked, limit) && 0 < limit <= MaxInt64 && (ceiling > 0 ==> limit <= ceiling)
  }

  method BoundMemory(asked: string, ceiling: int) returns (r: Option<int>)
    requires ceiling >= 0
    ensures r.Some? ==> Granted(asked, ceiling, r.value)
    ensures r.None? ==> forall n :: !Granted(asked, ceiling, n)
  {
    if asked == "" { return Some(ceiling); }
    r := ParsePositiveByteSize(asked);
    if r.Some? && ceiling > 0 && r.value > ceiling {
      forall n | Granted(asked, ceiling, n) ensures false { DenotesOne(asked, n, r.value); }
      return None;
    }
  }

  /** The memory part of Resolve for one container: it succeeds exactly when the ceiling is readable and what is
      asked is granted, and under a positive ceiling the limit is above zero and at most the ceiling. */
  method ResolveMemory(text: string, asked: string) returns (r: Option<int>)
    ensures r.Some? ==> exists c :: SetsCeiling(text, c) && Granted(asked, c, r.value) && (c > 0 ==> 0 < r.value <= c)
    ensures r.None? ==> forall c, n :: SetsCeiling(text, c) ==> !Granted(asked, c, n)
  {
    var c := EffectiveMemoryBytes(text);
    if c.None? { return None; }
    r := BoundMemory(asked, c.value);
    forall d | SetsCeiling(text, d) ensures d == c.value {
      if text != "" { DenotesOne(text, d, c.value); }
    }
  }

  datatype Limits = Limits(runner: int, dind: int)

  /** What ResolveMemory promises of the text it is given. */
  lemma AllowedIs(own: string, general: string, asked: string)
    ensures var text := if own != "" then own else general;
            forall n :: Allowed(own, general, asked, n) <==> exists c :: SetsCeiling(text, c) && Granted(asked, c, n) && (c > 0 ==> 0 < n <= c)
  {
  }

  /** A limit for one container, given the flavor's own text, the configuration's, and what the pool asks for: the
      flavor's text sets the ceiling if there is one, whatever the configuration says, and otherwise the
      configuration's does; within the ceiling what is asked is granted, and the ceiling itself when nothing is. */
  ghost predicate Allowed(own: string, general: string, asked: string, limit: int) {
    exists c :: (own != "" ==> SetsCeiling(own, c)) && (own == "" ==> SetsCeiling(general, c)) && Granted(asked, c, limit)
                && (c > 0 ==> 0 < limit <= c)
  }

  /** The flavor's own texts, empty when it is not configured or says nothing. */
  function Named(cfg: Config, flavor: string): Flavor {
    if flavor in cfg.flavors then cfg.flavors[flavor] else Flavor("", "")
  }

  /** Resolve, as far as flavor and memory go: it succeeds exactly when the flavor is configured or not given and
      each of the two limits can be allowed, and then both are. */
  method Resolve(cfg: Config, flavor: string, runnerAsked: string, dindAsked: string) returns (r: Option<Limits>)
    ensures r.Some? ==> Allowed(Named(cfg, flavor).runnerMemory, cfg.runnerMemory, runnerAsked, r.value.runner)
    ensures r.Some? ==> Allowed(Named(cfg, flavor).dindMemory, cfg.dindMemory, dindAsked, r.value.dind)
    ensures r.None? <==>
              || (flavor != "" && flavor !in cfg.flavors)
              || (forall n :: !Allowed(Named(cfg, flavor).runnerMemory, cfg.runnerMemory, runnerAsked, n))
              || (forall n :: !Allowed(Named(cfg, flavor).dindMemory, cfg.dindMemory, dindAsked, n))
    ensures r.Some? && runnerAsked != "" ==> Denotes(runnerAsked, r.value.runner)
    ensures r.Some? && dindAsked != "" ==> Denotes(dindAsked, r.value.dind)
    ensures r.Some? && flavor in cfg.flavors && cfg.flavors[flavor].runnerMemory != "" ==>
              forall c :: Denotes(cfg.flavors[flavor].runnerMemory, c) && c > 0 ==> 0 < r.value.runner <= c
    ensures r.Some? && flavor in cfg.flavors && cfg.flavors[flavor].dindMemory != "" ==>
              forall c :: Denotes(cfg.flavors[flavor].dindMemory, c) && c > 0 ==> 0 < r.value.dind <= c
    ensures r.Some? && !(flavor in cfg.flavors && cfg.flavors[flavor].runnerMemory != "") && cfg.runnerMemory != "" ==>
              forall c :: Denotes(cfg.runnerMemory, c) && c > 0 ==> 0 < r.value.runner <= c
    ensures r.Some? && !(flavor in cfg.flavors && cfg.flavors[flavor].dindMemory != "") && cfg.dindMemory != "" ==>
              forall c :: Denotes(cfg.dindMemory, c) && c > 0 ==> 0 < r.value.dind <= c
  {
    hide Denotes;
    AllowedIs(Named(cfg, flavor).runnerMemory, cfg.runnerMemory, runnerAsked);
    AllowedIs(Named(cfg, flavor).dindMemory, cfg.dindMemory, dindAsked);
    forall s, a, b | Denotes(s, a) && Denotes(s, b) ensures a == b { DenotesOne(s, a, b); }
    if flavor != "" && flavor !in cfg.flavors { return None; }
    var runner := ResolveMemory(RunnerText(cfg, flavor), runnerAsked);
    if runner.None? { return None; }
    var dind := ResolveMemory(DindText(cfg, flavor), dindAsked);
    if dind.None? { return None; }
    r := Some(Limits(runner.value, dind.value));
  }
}
