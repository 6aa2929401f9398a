/** Cache volumes, found by label identity under whatever name (internal/topology/cache.go,
    internal/spec/cache.go). */
module CacheSlots {
  import opened Text
  import opened LabelSpec
  import opened Names
  import opened Docker
  import opened DaemonCalls
  import opened TeardownScope

  /** The truncated digest an alternate name carries, left uninterpreted. */
  type SlotHash = (string, nat) -> string

  /** The name tried at the given attempt, from zero: the preferred name, then its alternates. */
  function Slot(h: SlotHash, preferred: string, i: nat): string {
    if i == 0 then preferred else preferred + "-x" + h(preferred, i)
  }

  const MaxReconcileAttempts := 8

  /** What the digest is for: eight hex digits, and another text for another attempt. */
  ghost predicate Separates(h: SlotHash, preferred: string) {
    && (forall i: nat :: |h(preferred, i)| == 8 && HexDigits(h(preferred, i)))
    && (forall i: nat, j: nat :: 0 < i < j < 8 ==> h(preferred, i) != h(preferred, j))
  }

  predicate HexDigits(s: string) {
    forall i :: 0 <= i < |s| ==> '0' <= s[i] <= '9' || 'a' <= s[i] <= 'f'
  }

  /** An alternate is the preferred name and ten more characters, and is valid if it is short enough. */
  lemma SlotExtends(h: SlotHash, preferred: string, i: nat)
    requires Separates(h, preferred) && i > 0
    ensures |Slot(h, preferred, i)| == |preferred| + 10 && preferred + "-x" <= Slot(h, preferred, i)
    ensures ValidDerivedName(preferred) && |preferred| <= 245 ==> ValidDerivedName(Slot(h, preferred, i))
  {
    var s, d := Slot(h, preferred, i), h(preferred, i);
    assert s == preferred + "-x" + d;
    if ValidDerivedName(preferred) && |preferred| <= 245 {
      forall k | 1 <= k < |s| ensures IsAlnum(s[k]) || s[k] == '_' || s[k] == '.' || s[k] == '-' {
        if k < |preferred| { assert s[k] == preferred[k]; } else if k >= |preferred| + 2 { assert s[k] == d[k - |preferred| - 2]; }
      }
    }
  }

  /** The eight slots are eight names. */
  lemma SlotsApart(h: SlotHash, preferred: string, i: nat, j: nat)
    requires Separates(h, preferred) && i < j < 8
    ensures Slot(h, preferred, i) != Slot(h, preferred, j)
  {
    SlotExtends(h, preferred, j);
    if i > 0 {
      SlotExtends(h, preferred, i);
      assert Slot(h, preferred, i)[|preferred| + 2..] == h(preferred, i);
      assert Slot(h, preferred, j)[|preferred| + 2..] == h(preferred, j);
    }
  }

  ghost function SlotNames(h: SlotHash, preferred: string, n: nat): set<string> {
    set i | 0 <= i < n :: Slot(h, preferred, i)
  }

  lemma {:induction false} SlotsCount(h: SlotHash, preferred: string, n: nat)
    requires Separates(h, preferred) && n <= 8
    ensures |SlotNames(h, preferred, n)| == n
  {
    if n > 0 {
      SlotsCount(h, preferred, n - 1);
      assert SlotNames(h, preferred, n) == SlotNames(h, preferred, n - 1) + {Slot(h, preferred, n - 1)};
      if Slot(h, preferred, n - 1) in SlotNames(h, preferred, n - 1) {
        var i: nat :| i < n - 1 && Slot(h, preferred, i) == Slot(h, preferred, n - 1);
        SlotsApart(h, preferred, i, n - 1);
      }
    }
  }

  lemma {:induction false} SubsetIsSmaller(a: set<string>, b: set<string>)
    requires a <= b
    ensures |a| <= |b|
  {
    assert b == a + (b - a);
  }

  /** Eight squatters hold eight volumes. */
  lemma SquattersCount(h: SlotHash, preferred: string, vols: map<string, Labels>, want: Labels)
    requires Separates(h, preferred) && Occupied(vols, h, preferred, want, 8)
    ensures |vols| >= 8
  {
    SlotsCount(h, preferred, 8);
    SubsetIsSmaller(SlotNames(h, preferred, 8), vols.Keys);
    assert |vols.Keys| == |vols|;
  }

  /** Why the loop gives up. */
  lemma GivesUpOnlyWhenFull(h: SlotHash, preferred: string, vols: map<string, Labels>, want: Labels, i: nat)
    requires Separates(h, preferred) && ValidDerivedName(preferred) && |preferred| <= 245
    requires 0 < i <= MaxReconcileAttempts && Occupied(vols, h, preferred, want, i)
    requires i < MaxReconcileAttempts ==> !ValidDerivedName(Slot(h, preferred, i))
    ensures |vols| >= 8
  {
    SlotExtends(h, preferred, i);
    if i == 8 { SquattersCount(h, preferred, vols, want); }
  }

  function CacheIdentityFilter(want: Labels): Filter {
    (map k | k in IdentityKeys && Get(want, k) != "" :: Equals(Get(want, k)))[Managed := Equals("true")][Cache := Equals("true")]
  }

  /** The daemon's filter and the exact identity check select the same volumes. */
  lemma FilterIsIdentity(want: Labels, l: Labels)
    ensures Matches(CacheIdentityFilter(want), l) <==> ValidAdopted(l, want)
  {
    var f := CacheIdentityFilter(want);
    assert Managed in f && Cache in f;
    assert Managed !in IdentityKeys && Cache !in IdentityKeys;
    if Matches(f, l) {
      forall k | k in IdentityKeys && Get(want, k) != "" ensures Get(l, k) == Get(want, k) { assert k in f; }
    }
  }

  /** No other volume of this identity has a smaller name. */
  ghost predicate Smallest(vols: map<string, Labels>, want: Labels, name: string) {
    && name in vols && ValidAdopted(vols[name], want)
    && forall v :: v in vols && v != name && ValidAdopted(vols[v], want) ==> Less(name, v)
  }

  ghost predicate NoneValid(vols: map<string, Labels>, want: Labels) {
    forall v :: v in vols ==> !ValidAdopted(vols[v], want)
  }

  /** The best of the first n entries. */
  ghost predicate BestSoFar(list: seq<Listed<string>>, n: nat, want: Labels, best: string)
    requires n <= |list|
  {
    && (best != "" ==> exists j :: 0 <= j < n && list[j].key == best && ValidAdopted(list[j].labels, want))
    && forall j :: 0 <= j < n && ValidAdopted(list[j].labels, want) ==> best != "" && (list[j].key == best || Less(best, list[j].key))
  }

  lemma BetterBest(list: seq<Listed<string>>, n: nat, want: Labels, best: string)
    requires n < |list| && BestSoFar(list, n, want, best) && ValidAdopted(list[n].labels, want) && list[n].key != ""
    ensures BestSoFar(list, n + 1, want, if best == "" || Less(list[n].key, best) then list[n].key else best)
  {
    var x := list[n].key;
    LessTotal(x, best);
    if best != "" && Less(x, best) {
      forall j | 0 <= j < n && ValidAdopted(list[j].labels, want) ensures Less(x, list[j].key) || x == list[j].key {
        if list[j].key != best { LessTransitive(x, best, list[j].key); }
      }
      assert list[n].key == x;
    } else if best != "" {
      var j :| 0 <= j < n && list[j].key == best && ValidAdopted(list[j].labels, want);
      assert 0 <= j < n + 1;
    }
  }

  lemma BestOfAll(list: seq<Listed<string>>, vols: map<string, Labels>, want: Labels, best: string)
    requires IsListing(list, vols, CacheIdentityFilter(want)) && BestSoFar(list, |list|, want, best)
    ensures best != "" ==> Smallest(vols, want, best)
    ensures best == "" ==> NoneValid(vols, want)
  {
    hide ValidAdopted, CacheIdentityFilter, Matches;
    forall v | v in vols && ValidAdopted(vols[v], want) ensures Lists(list, v) { FilterIsIdentity(want, vols[v]); }
  }

  /** A volume's name is never empty: the daemon names a nameless one itself. */
  method DiscoverCacheByIdentity(d: Daemon, want: Labels) returns (ok: bool, found: Option<string>)
    requires "" !in d.volumes
    modifies d`faults
    ensures ok && found.Some? ==> Smallest(d.volumes, want, found.value)
    ensures ok && found.None? ==> NoneValid(d.volumes, want)
    ensures d.faults == Rest(old(d.faults)) && (ok <==> Head(old(d.faults)) == Fine)
  {
    hide ValidAdopted, CacheIdentityFilter, Matches;
    var list;
    found := None;
    ok, list := d.VolumeList(CacheIdentityFilter(want));
    if !ok { return; }
    var best := "";
    for i := 0 to |list|
      modifies {}
      invariant BestSoFar(list, i, want, best)
    {
      if ValidAdopted(list[i].labels, want) {
        BetterBest(list, i, want, best);
        if best == "" || Less(list[i].key, best) { best := list[i].key; }
      }
    }
    BestOfAll(list, d.volumes, want, best);
    if best != "" { found := Some(best); }
  }

  /** The name is the preferred one and ten more characters, and the daemon's grammar allows it. */
  ghost predicate ExtendsName(preferred: string, name: string, h: SlotHash) {
    && (Separates(h, preferred) ==> |name| == |preferred| + 10 && preferred + "-x" <= name)
    && 2 <= |name| <= 255
    && forall i :: 0 <= i < |name| ==>
         'a' <= name[i] <= 'z' || 'A' <= name[i] <= 'Z' || '0' <= name[i] <= '9' || (i > 0 && name[i] in "_.-")
  }

  lemma SlotIsName(h: SlotHash, preferred: string, i: nat)
    requires i > 0 && ValidDerivedName(Slot(h, preferred, i))
    ensures ExtendsName(preferred, Slot(h, preferred, i), h)
  {
    if Separates(h, preferred) { SlotExtends(h, preferred, i); }
  }

  datatype Ensured = Ensured(name: string, hit: bool) | EnsureFailed

  /** The first n slots hold something that is not this cache. */
  ghost predicate Occupied(vols: map<string, Labels>, h: SlotHash, preferred: string, want: Labels, n: nat) {
    forall i :: 0 <= i < n ==> Slot(h, preferred, i) in vols && !ValidAdopted(vols[Slot(h, preferred, i)], want)
  }

  /** Nothing changed but that at most one volume with exactly the wanted labels was created. */
  ghost predicate AtMostOneAdded(was: map<string, Labels>, now: map<string, Labels>, want: Labels) {
    now == was || exists v :: v !in was && now == was[v := want]
  }

  /** It reuses the smallest volume of the identity under whatever name, or takes the first slot no other
      volume occupies; it never removes or relabels a volume. A name made for this purpose is the preferred name
      if that is free, else one that extends it by ten characters; and with no fault it gives up only on a daemon
      with eight volumes or more. */
  method EnsureCacheVolume(d: Daemon, h: SlotHash, preferred: string, want: Labels) returns (r: Ensured)
    requires IsCache(want) && preferred != "" && "" !in d.volumes
    modifies d`faults, d`volumes
    ensures AtMostOneAdded(old(d.volumes), d.volumes, want) && "" !in d.volumes
    ensures r.Ensured? ==> r.name in d.volumes && ValidAdopted(d.volumes[r.name], want)
    ensures r.Ensured? && r.hit ==> d.volumes == old(d.volumes) && Smallest(d.volumes, want, r.name)
    ensures r.Ensured? && !r.hit ==> NoneValid(old(d.volumes), want) && exists i ::
              0 <= i < MaxReconcileAttempts && r.name == Slot(h, preferred, i) && Occupied(old(d.volumes), h, preferred, want, i)
    ensures !NoneValid(old(d.volumes), want) ==>
              (r.Ensured? <==> Head(old(d.faults)) == Fine) && d.faults == Rest(old(d.faults)) && d.volumes == old(d.volumes)
    ensures FirstFine(old(d.faults), 2) && NoneValid(old(d.volumes), want) && preferred !in old(d.volumes) ==>
              r == Ensured(preferred, false) && d.volumes == old(d.volumes)[preferred := want]
    ensures r.Ensured? && !r.hit && r.name != preferred ==> r.name in d.volumes && ExtendsName(preferred, r.name, h)
    ensures old(d.faults) == [] && Separates(h, preferred) && ValidDerivedName(preferred) && |preferred| <= 245 && |old(d.volumes)| < 8 ==>
              r.Ensured?
    ensures old(d.faults) == [] ==> d.faults == []
    ensures old(d.faults) == [] && r.EnsureFailed? ==> NoneValid(d.volumes, want) && d.volumes == old(d.volumes) && exists i ::
              0 < i <= MaxReconcileAttempts && Occupied(d.volumes, h, preferred, want, i)
              && (i < MaxReconcileAttempts ==> !ValidDerivedName(Slot(h, preferred, i)))
  {
    hide ValidAdopted, NoneValid, Separates, ValidDerivedName, Occupied, ExtendsName, FirstFine;
    TwoCallsFine(d.faults);
    SmallestIsValid(d.volumes, want);
    var ok, found := DiscoverCacheByIdentity(d, want);
    if !ok { return EnsureFailed; }
    if found.Some? { return Ensured(found.value, true); }
    r := TakeSlot(d, h, preferred, want);
  }

  lemma SmallestIsValid(vols: map<string, Labels>, want: Labels)
    ensures forall v :: Smallest(vols, want, v) ==> !NoneValid(vols, want) && v in vols && ValidAdopted(vols[v], want)
  {
  }

  lemma WantIsValid(vols: map<string, Labels>, name: string, want: Labels)
    requires IsCache(want) && NoneValid(vols, want)
    ensures ValidAdopted(want, want) && (name in vols ==> !ValidAdopted(vols[name], want))
  {
  }

  /** The loop over the slots, when no volume of the identity is there. */
  method TakeSlot(d: Daemon, h: SlotHash, preferred: string, want: Labels) returns (r: Ensured)
    requires IsCache(want) && preferred != "" && "" !in d.volumes && NoneValid(d.volumes, want)
    modifies d`faults, d`volumes
    ensures AtMostOneAdded(old(d.volumes), d.volumes, want) && "" !in d.volumes
    ensures r.Ensured? ==> !r.hit && r.name in d.volumes && ValidAdopted(d.volumes[r.name], want)
    ensures r.Ensured? ==> exists i ::
              0 <= i < MaxReconcileAttempts && r.name == Slot(h, preferred, i) && Occupied(old(d.volumes), h, preferred, want, i)
    ensures Head(old(d.faults)) == Fine && preferred !in old(d.volumes) ==>
              r == Ensured(preferred, false) && d.volumes == old(d.volumes)[preferred := want]
    ensures r.Ensured? && r.name != preferred ==> ExtendsName(preferred, r.name, h)
    ensures old(d.faults) == [] && Separates(h, preferred) && ValidDerivedName(preferred) && |preferred| <= 245 && |old(d.volumes)| < 8 ==>
              r.Ensured?
    ensures old(d.faults) == [] ==> d.faults == []
    ensures old(d.faults) == [] && r.EnsureFailed? ==> d.volumes == old(d.volumes) && exists i ::
              0 < i <= MaxReconcileAttempts && Occupied(d.volumes, h, preferred, want, i)
              && (i < MaxReconcileAttempts ==> !ValidDerivedName(Slot(h, preferred, i)))
  {
    hide ValidAdopted, NoneValid, Separates, ValidDerivedName, Occupied, ExtendsName, Slot;
    var candidate := preferred;
    var attempt := 1;
    FirstSlot(h, preferred, d.volumes, want);
    while true
      invariant 1 <= attempt <= MaxReconcileAttempts && candidate == Slot(h, preferred, attempt - 1) && candidate != ""
      invariant d.volumes == old(d.volumes) && Occupied(d.volumes, h, preferred, want, attempt - 1)
      invariant attempt == 1 ==> d.faults == old(d.faults)
      invariant attempt > 1 ==> preferred in d.volumes && ValidDerivedName(candidate)
      invariant old(d.faults) == [] ==> d.faults == []
      decreases MaxReconcileAttempts - attempt
    {
      if attempt > 1 { SlotIsName(h, preferred, attempt - 1); }
      WantIsValid(d.volumes, candidate, want);
      var o, got := d.VolumeCreate(candidate, want);
      if !o.Ok? { return EnsureFailed; }
      if ValidAdopted(got, want) { return Ensured(candidate, false); }
      NextSlot(h, preferred, d.volumes, want, attempt);
      if attempt >= MaxReconcileAttempts {
        GaveUpFull(h, preferred, d.volumes, want, attempt);
        return EnsureFailed;
      }
      var next := Slot(h, preferred, attempt);
      if !ValidDerivedName(next) {
        GaveUpFull(h, preferred, d.volumes, want, attempt);
        return EnsureFailed;
      }
      candidate, attempt := next, attempt + 1;
    }
  }

  lemma FirstSlot(h: SlotHash, preferred: string, vols: map<string, Labels>, want: Labels)
    ensures Slot(h, preferred, 0) == preferred && Occupied(vols, h, preferred, want, 0)
  {
  }

  lemma NextSlot(h: SlotHash, preferred: string, vols: map<string, Labels>, want: Labels, n: nat)
    requires n > 0 && Occupied(vols, h, preferred, want, n - 1)
    requires Slot(h, preferred, n - 1) in vols && !ValidAdopted(vols[Slot(h, preferred, n - 1)], want)
    ensures Occupied(vols, h, preferred, want, n) && preferred in vols && Slot(h, preferred, n) != ""
  {
    assert Slot(h, preferred, 0) == preferred;
  }

  lemma TwoCallsFine(s: seq<Fault>)
    ensures FirstFine(s, 2) ==> Head(s) == Fine && Head(Rest(s)) == Fine
  {
  }

  lemma GaveUpFull(h: SlotHash, preferred: string, vols: map<string, Labels>, want: Labels, i: nat)
    requires 0 < i <= MaxReconcileAttempts && Occupied(vols, h, preferred, want, i)
    requires i < MaxReconcileAttempts ==> !ValidDerivedName(Slot(h, preferred, i))
    ensures Separates(h, preferred) && ValidDerivedName(preferred) && |preferred| <= 245 ==> |vols| >= 8
  {
    if Separates(h, preferred) && ValidDerivedName(preferred) && |preferred| <= 245 {
      GivesUpOnlyWhenFull(h, preferred, vols, want, i);
    }
  }
}
