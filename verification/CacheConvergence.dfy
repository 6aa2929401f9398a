/** Many processes ensuring cache volumes at once over one daemon, call by call
    (internal/topology/cache.go). */
module CacheConvergence {
  import opened Text
  import opened LabelSpec
  import opened Names
  import opened CacheIdentity
  import opened CacheSlots
  import Runs

  datatype Pc = Discovering | Trying(attempt: nat) | Returned(name: string) | GaveUp

  datatype Proc = Proc(id: Identity, ctrl: string, lastUsed: string, pc: Pc)

  datatype Sys = Sys(vols: map<string, Labels>, procs: map<nat, Proc>)

  /** Outsiders create volumes with any labels, among them another identity's; nothing is removed. */
  datatype Step =
    | Begin(pid: nat, id: Identity, ctrl: string, lastUsed: string)
    | Discover(pid: nat, found: string)
    | DiscoverNothing(pid: nat)
    | TrySlot(pid: nat)
    | AmbiguousTry(pid: nat)
    | Fail(pid: nat)
    | OutsideCreate(name: string, labels: Labels)

  function Want(p: Proc): Labels {
    CacheLabels(p.id, p.ctrl, p.lastUsed)
  }

  function Create(vols: map<string, Labels>, name: string, l: Labels): map<string, Labels> {
    if name in vols then vols else vols[name := l]
  }

  predicate At(s: Sys, pid: nat) {
    pid in s.procs
  }

  function Goto(s: Sys, pid: nat, pc: Pc): Sys
    requires At(s, pid)
  {
    s.(procs := s.procs[pid := s.procs[pid].(pc := pc)])
  }

  function SlotOf(h: SlotHash, p: Proc): string
    requires p.pc.Trying?
  {
    Slot(h, PreferredName(p.id), p.pc.attempt)
  }

  /** After the daemon returned these labels for the slot. */
  function AfterTry(h: SlotHash, p: Proc, got: Labels): Pc
    requires p.pc.Trying?
  {
    if ValidAdopted(got, Want(p)) then Returned(SlotOf(h, p))
    else if p.pc.attempt + 1 >= MaxReconcileAttempts then GaveUp
    else if !ValidDerivedName(Slot(h, PreferredName(p.id), p.pc.attempt + 1)) then GaveUp
    else Trying(p.pc.attempt + 1)
  }

  ghost predicate Enabled(s: Sys, st: Step) {
    match st
    case Begin(pid, id, _, _) => pid !in s.procs && Proper(id)
    case Discover(pid, found) => At(s, pid) && s.procs[pid].pc.Discovering? && Smallest(s.vols, Want(s.procs[pid]), found)
    case DiscoverNothing(pid) => At(s, pid) && s.procs[pid].pc.Discovering? && NoneValid(s.vols, Want(s.procs[pid]))
    case TrySlot(pid) => At(s, pid) && s.procs[pid].pc.Trying?
    case AmbiguousTry(pid) => At(s, pid) && s.procs[pid].pc.Trying?
    case Fail(pid) => At(s, pid) && !s.procs[pid].pc.Returned?
    case OutsideCreate(_, _) => true
  }

  function DoTry(h: SlotHash, s: Sys, pid: nat): Sys
    requires At(s, pid) && s.procs[pid].pc.Trying?
  {
    var p := s.procs[pid];
    var vols := Create(s.vols, SlotOf(h, p), Want(p));
    Goto(s, pid, AfterTry(h, p, vols[SlotOf(h, p)])).(vols := vols)
  }

  ghost function Do(h: SlotHash, s: Sys, st: Step): Sys
    requires Enabled(s, st)
  {
    match st
    case Begin(pid, id, ctrl, lastUsed) => s.(procs := s.procs[pid := Proc(id, ctrl, lastUsed, Discovering)])
    case Discover(pid, found) => Goto(s, pid, Returned(found))
    case DiscoverNothing(pid) => Goto(s, pid, Trying(0))
    case TrySlot(pid) => DoTry(h, s, pid)
    case AmbiguousTry(pid) => Goto(s, pid, GaveUp).(vols := Create(s.vols, SlotOf(h, s.procs[pid]), Want(s.procs[pid])))
    case Fail(pid) => Goto(s, pid, GaveUp)
    case OutsideCreate(name, l) => s.(vols := Create(s.vols, name, l))
  }

  ghost predicate Init(s: Sys) {
    s.procs == map[]
  }

  ghost predicate Next(h: SlotHash, s: Sys, st: Step, s': Sys) {
    Enabled(s, st) && s' == Do(h, s, st)
  }

  ghost predicate IsRun(h: SlotHash, states: seq<Sys>, steps: seq<Step>) {
    Runs.IsRun(s => Init(s), (s, st, s') => Next(h, s, st, s'), states, steps)
  }

  /** Outsiders may squat on any slot, but not with this very cache's identity. */
  predicate NotForged(st: Step, x: Identity) {
    st.OutsideCreate? ==> !Carries(st.labels, x)
  }

  // ---------------------------------------------------------------- the invariant, for one identity x

  /** The slots before attempt n are held by volumes that are not this cache. */
  ghost predicate Squatted(h: SlotHash, vols: map<string, Labels>, x: Identity, n: nat) {
    forall i :: 0 <= i < n ==> Slot(h, PreferredName(x), i) in vols && !Carries(vols[Slot(h, PreferredName(x), i)], x)
  }

  /** v is this cache's only volume, at the first slot not squatted on. */
  ghost predicate SoleVolume(h: SlotHash, vols: map<string, Labels>, x: Identity, v: string) {
    && v in vols && Carries(vols[v], x)
    && (forall u :: u in vols && Carries(vols[u], x) ==> u == v)
    && exists k: nat :: v == Slot(h, PreferredName(x), k) && Squatted(h, vols, x, k)
  }

  ghost predicate NoVolume(vols: map<string, Labels>, x: Identity) {
    forall u :: u in vols ==> !Carries(vols[u], x)
  }

  ghost predicate AtMostSole(h: SlotHash, vols: map<string, Labels>, x: Identity) {
    NoVolume(vols, x) || exists v :: SoleVolume(h, vols, x, v)
  }

  /** What a process that ensures this cache has learned. */
  ghost predicate ProcFresh(h: SlotHash, vols: map<string, Labels>, x: Identity, p: Proc) {
    p.id == x ==>
      && (p.pc.Trying? ==> Squatted(h, vols, x, p.pc.attempt))
      && (p.pc.Returned? ==> SoleVolume(h, vols, x, p.pc.name))
  }

  /** Runs that start with no volume of the cache. */
  ghost predicate InvFresh(h: SlotHash, s: Sys, x: Identity) {
    AtMostSole(h, s.vols, x) && forall pid :: pid in s.procs ==> ProcFresh(h, s.vols, x, s.procs[pid])
  }

  /** Runs that start with some: exactly those, whose smallest is v, stay the cache's volumes. */
  ghost predicate InvFound(s: Sys, x: Identity, v: string, all: set<string>) {
    && v in all && (forall u :: u in all && u != v ==> Less(v, u))
    && (forall u :: u in s.vols && Carries(s.vols[u], x) <==> u in all)
    && forall pid :: pid in s.procs && s.procs[pid].id == x ==>
         !s.procs[pid].pc.Trying? && (s.procs[pid].pc.Returned? ==> s.procs[pid].pc.name == v)
  }

  lemma WantCarries(p: Proc, l: Labels)
    ensures ValidAdopted(l, Want(p)) <==> Carries(l, p.id)
  {
    CreatorIrrelevant(l, p.id, p.ctrl, p.lastUsed);
  }

  ghost predicate AllProper(s: Sys) {
    forall pid :: pid in s.procs ==> Proper(s.procs[pid].id)
  }

  // ---------------------------------------------------------------- what one volume create does to it

  lemma SquattedStays(h: SlotHash, vols: map<string, Labels>, name: string, l: Labels, x: Identity, n: nat)
    requires Squatted(h, vols, x, n)
    ensures Squatted(h, Create(vols, name, l), x, n)
  {
  }

  lemma SoleUnderOther(h: SlotHash, vols: map<string, Labels>, name: string, l: Labels, x: Identity, v: string)
    requires SoleVolume(h, vols, x, v) && !Carries(l, x)
    ensures SoleVolume(h, Create(vols, name, l), x, v)
  {
    var k: nat :| v == Slot(h, PreferredName(x), k) && Squatted(h, vols, x, k);
    SquattedStays(h, vols, name, l, x, k);
  }

  /** A process that found the first n slots squatted on meets the sole volume no earlier than its turn. */
  lemma SoleNotBefore(h: SlotHash, vols: map<string, Labels>, x: Identity, v: string, n: nat)
    requires SoleVolume(h, vols, x, v) && Squatted(h, vols, x, n)
    ensures Slot(h, PreferredName(x), n) in vols
  {
    var k: nat :| v == Slot(h, PreferredName(x), k) && Squatted(h, vols, x, k);
    assert n <= k;
  }

  /** Trying slot n yields the sole volume or moves on, and creates one only if there was none. */
  lemma TryOwnSlot(h: SlotHash, vols: map<string, Labels>, x: Identity, l: Labels, n: nat)
    requires Carries(l, x) && Squatted(h, vols, x, n)
    requires AtMostSole(h, vols, x)
    ensures var slot := Slot(h, PreferredName(x), n); var now := Create(vols, slot, l);
            && (Carries(now[slot], x) ==> SoleVolume(h, now, x, slot))
            && (!Carries(now[slot], x) ==> now == vols && Squatted(h, now, x, n + 1))
            && (now != vols ==> NoVolume(vols, x))
  {
    var slot := Slot(h, PreferredName(x), n);
    var now := Create(vols, slot, l);
    SquattedStays(h, vols, slot, l, x, n);
    if v :| SoleVolume(h, vols, x, v) { SoleNotBefore(h, vols, x, v, n); }
  }

  /** A try goes on as it should: it returns its slot if that was free or holds this cache, and otherwise moves to
      the next one while there is a valid one left of the eight. */
  lemma TryGoesOn(h: SlotHash, s: Sys, pid: nat)
    requires At(s, pid) && s.procs[pid].pc.Trying? && Proper(s.procs[pid].id)
    ensures var p := s.procs[pid];
            var slot, n, s' := SlotOf(h, p), p.pc.attempt, Do(h, s, TrySlot(pid));
            && s'.vols.Keys == s.vols.Keys + {slot} && (forall v :: v in s.vols ==> s'.vols[v] == s.vols[v])
            && (slot !in s.vols ==> Carries(s'.vols[slot], p.id))
            && s'.procs[pid].pc ==
                 if slot !in s.vols || Carries(s.vols[slot], p.id) then Returned(slot)
                 else if n < 7 && ValidDerivedName(Slot(h, PreferredName(p.id), n + 1)) then Trying(n + 1)
                 else GaveUp
  {
    hide Carries, ValidAdopted, CacheLabels, Proper;
    var p := s.procs[pid];
    AdoptedExactly(p.id, p.id, p.ctrl, p.lastUsed);
    WantCarries(p, Create(s.vols, SlotOf(h, p), Want(p))[SlotOf(h, p)]);
  }

  // ---------------------------------------------------------------- steps

  lemma ProcUnderOther(h: SlotHash, vols: map<string, Labels>, name: string, l: Labels, x: Identity, q: Proc)
    requires ProcFresh(h, vols, x, q) && !Carries(l, x)
    ensures ProcFresh(h, Create(vols, name, l), x, q)
  {
    if q.id == x && q.pc.Trying? { SquattedStays(h, vols, name, l, x, q.pc.attempt); }
    if q.id == x && q.pc.Returned? { SoleUnderOther(h, vols, name, l, x, q.pc.name); }
  }

  lemma AtMostSoleUnderOther(h: SlotHash, vols: map<string, Labels>, name: string, l: Labels, x: Identity)
    requires AtMostSole(h, vols, x) && !Carries(l, x)
    ensures AtMostSole(h, Create(vols, name, l), x)
  {
    if v :| SoleVolume(h, vols, x, v) { SoleUnderOther(h, vols, name, l, x, v); }
  }

  lemma OtherVolumeKeepsFresh(h: SlotHash, s: Sys, s': Sys, x: Identity, name: string, l: Labels)
    requires InvFresh(h, s, x) && !Carries(l, x) && s'.vols == Create(s.vols, name, l)
    requires forall pid :: pid in s'.procs && s'.procs[pid].id == x ==> pid in s.procs && s'.procs[pid] == s.procs[pid]
    ensures InvFresh(h, s', x)
  {
    hide Carries, SoleVolume, Squatted, Create, AtMostSole;
    AtMostSoleUnderOther(h, s.vols, name, l, x);
    forall pid | pid in s'.procs ensures ProcFresh(h, s'.vols, x, s'.procs[pid]) {
      if s'.procs[pid].id == x { ProcUnderOther(h, s.vols, name, l, x, s.procs[pid]); }
    }
  }

  /** A process is not misled by a create that made the first volume of the cache. */
  lemma ProcUnderFirst(h: SlotHash, vols: map<string, Labels>, name: string, l: Labels, x: Identity, q: Proc)
    requires ProcFresh(h, vols, x, q) && (Create(vols, name, l) != vols ==> NoVolume(vols, x))
    ensures ProcFresh(h, Create(vols, name, l), x, q)
  {
    if q.id == x && q.pc.Trying? { SquattedStays(h, vols, name, l, x, q.pc.attempt); }
  }

  /** What one attempt at a slot leaves, to the daemon and to the process that made it. */
  lemma OwnTry(h: SlotHash, vols: map<string, Labels>, p: Proc, x: Identity)
    requires p.pc.Trying? && p.id == x && Proper(x) && ProcFresh(h, vols, x, p) && AtMostSole(h, vols, x)
    ensures var now := Create(vols, SlotOf(h, p), Want(p));
            && AtMostSole(h, now, x) && (now != vols ==> NoVolume(vols, x))
            && ProcFresh(h, now, x, p.(pc := AfterTry(h, p, now[SlotOf(h, p)])))
  {
    hide Carries, SoleVolume, ValidAdopted, CacheLabels, Proper;
    var now := Create(vols, SlotOf(h, p), Want(p));
    AdoptedExactly(x, x, p.ctrl, p.lastUsed);
    TryOwnSlot(h, vols, x, Want(p), p.pc.attempt);
    WantCarries(p, now[SlotOf(h, p)]);
  }

  lemma OwnTryKeepsFresh(h: SlotHash, s: Sys, pid: nat, x: Identity, ambiguous: bool)
    requires InvFresh(h, s, x) && At(s, pid) && s.procs[pid].pc.Trying? && s.procs[pid].id == x && Proper(x)
    ensures InvFresh(h, Do(h, s, if ambiguous then AmbiguousTry(pid) else TrySlot(pid)), x)
  {
    hide SoleVolume, Squatted, AtMostSole, NoVolume, Create, AfterTry, Want;
    var p := s.procs[pid];
    var s' := Do(h, s, if ambiguous then AmbiguousTry(pid) else TrySlot(pid));
    OwnTry(h, s.vols, p, x);
    forall q | q in s'.procs && q != pid ensures ProcFresh(h, s'.vols, x, s'.procs[q]) {
      ProcUnderFirst(h, s.vols, SlotOf(h, p), Want(p), x, s.procs[q]);
    }
  }

  lemma DiscoverKeepsFresh(h: SlotHash, s: Sys, pid: nat, found: string, x: Identity)
    requires InvFresh(h, s, x) && Enabled(s, Discover(pid, found))
    ensures InvFresh(h, Do(h, s, Discover(pid, found)), x)
  {
    hide Carries;
    WantCarries(s.procs[pid], s.vols[found]);
  }

  lemma StepKeepsFresh(h: SlotHash, s: Sys, st: Step, x: Identity)
    requires InvFresh(h, s, x) && AllProper(s) && Proper(x) && Enabled(s, st) && NotForged(st, x)
    ensures InvFresh(h, Do(h, s, st), x)
  {
    hide Carries, SoleVolume, AtMostSole, NoVolume, Create, AfterTry;
    match st
    case Begin(_, _, _, _) =>
    case Discover(pid, found) => DiscoverKeepsFresh(h, s, pid, found, x);
    case DiscoverNothing(_) =>
    case Fail(_) =>
    case OutsideCreate(name, l) => OtherVolumeKeepsFresh(h, s, Do(h, s, st), x, name, l);
    case TrySlot(pid) => TryKeepsFresh(h, s, pid, x, false);
    case AmbiguousTry(pid) => TryKeepsFresh(h, s, pid, x, true);
  }

  lemma TryKeepsFresh(h: SlotHash, s: Sys, pid: nat, x: Identity, ambiguous: bool)
    requires InvFresh(h, s, x) && AllProper(s) && Proper(x) && At(s, pid) && s.procs[pid].pc.Trying?
    ensures InvFresh(h, Do(h, s, if ambiguous then AmbiguousTry(pid) else TrySlot(pid)), x)
  {
    var p := s.procs[pid];
    if p.id == x {
      OwnTryKeepsFresh(h, s, pid, x, ambiguous);
    } else {
      AdoptedExactly(p.id, x, p.ctrl, p.lastUsed);
      OtherVolumeKeepsFresh(h, s, Do(h, s, if ambiguous then AmbiguousTry(pid) else TrySlot(pid)), x, SlotOf(h, p), Want(p));
    }
  }

  lemma DiscoverKeepsFound(h: SlotHash, s: Sys, pid: nat, found: string, x: Identity, v: string, all: set<string>)
    requires InvFound(s, x, v, all) && Enabled(s, Discover(pid, found))
    ensures InvFound(Do(h, s, Discover(pid, found)), x, v, all)
  {
    hide Carries, Less;
    if s.procs[pid].id == x {
      WantCarries(s.procs[pid], s.vols[found]);
      WantCarries(s.procs[pid], s.vols[v]);
      LessTotal(found, v);
    }
  }

  lemma NothingKeepsFound(h: SlotHash, s: Sys, pid: nat, x: Identity, v: string, all: set<string>)
    requires InvFound(s, x, v, all) && Enabled(s, DiscoverNothing(pid))
    ensures InvFound(Do(h, s, DiscoverNothing(pid)), x, v, all)
  {
    hide Carries, Less;
    if s.procs[pid].id == x { WantCarries(s.procs[pid], s.vols[v]); }
  }

  /** The process is not one of this cache's, and what it makes is not this cache. */
  lemma TryKeepsFound(h: SlotHash, s: Sys, pid: nat, x: Identity, v: string, all: set<string>, ambiguous: bool)
    requires InvFound(s, x, v, all) && AllProper(s) && Proper(x) && At(s, pid) && s.procs[pid].pc.Trying?
    ensures InvFound(Do(h, s, if ambiguous then AmbiguousTry(pid) else TrySlot(pid)), x, v, all)
  {
    hide Carries, Less, AfterTry, CacheLabels;
    AdoptedExactly(s.procs[pid].id, x, s.procs[pid].ctrl, s.procs[pid].lastUsed);
  }

  lemma StepKeepsFound(h: SlotHash, s: Sys, st: Step, x: Identity, v: string, all: set<string>)
    requires InvFound(s, x, v, all) && AllProper(s) && Proper(x) && Enabled(s, st) && NotForged(st, x)
    ensures InvFound(Do(h, s, st), x, v, all)
  {
    hide Carries, Less, AfterTry, CacheLabels;
    match st
    case Begin(_, _, _, _) =>
    case Discover(pid, found) => DiscoverKeepsFound(h, s, pid, found, x, v, all);
    case DiscoverNothing(pid) => NothingKeepsFound(h, s, pid, x, v, all);
    case Fail(_) =>
    case OutsideCreate(name, l) =>
    case TrySlot(pid) => TryKeepsFound(h, s, pid, x, v, all, false);
    case AmbiguousTry(pid) => TryKeepsFound(h, s, pid, x, v, all, true);
  }

  // ---------------------------------------------------------------- whole runs

  lemma ProperKept(h: SlotHash, s: Sys, st: Step)
    requires AllProper(s) && Enabled(s, st)
    ensures AllProper(Do(h, s, st))
  {
  }

  lemma RunFresh(h: SlotHash, states: seq<Sys>, steps: seq<Step>, x: Identity, i: nat)
    requires IsRun(h, states, steps) && Proper(x) && i < |states| && NoVolume(states[0].vols, x)
    requires forall k :: 0 <= k < |steps| ==> NotForged(steps[k], x)
    ensures InvFresh(h, states[i], x)
  {
    forall s: Sys, st: Step, s': Sys | InvFresh(h, s, x) && AllProper(s) && NotForged(st, x) && Next(h, s, st, s')
      ensures InvFresh(h, s', x) && AllProper(s')
    {
      StepKeepsFresh(h, s, st, x);
      ProperKept(h, s, st);
    }
    Runs.Onward(s => Init(s), (s, st, s') => Next(h, s, st, s'), (s: Sys) => InvFresh(h, s, x) && AllProper(s), st => NotForged(st, x), states, steps, 0, i);
  }

  lemma RunFound(h: SlotHash, states: seq<Sys>, steps: seq<Step>, x: Identity, v: string, all: set<string>, i: nat)
    requires IsRun(h, states, steps) && Proper(x) && i < |states| && InvFound(states[0], x, v, all)
    requires forall k :: 0 <= k < |steps| ==> NotForged(steps[k], x)
    ensures InvFound(states[i], x, v, all)
  {
    forall s: Sys, st: Step, s': Sys | InvFound(s, x, v, all) && AllProper(s) && NotForged(st, x) && Next(h, s, st, s')
      ensures InvFound(s', x, v, all) && AllProper(s')
    {
      StepKeepsFound(h, s, st, x, v, all);
      ProperKept(h, s, st);
    }
    Runs.Onward(s => Init(s), (s, st, s') => Next(h, s, st, s'), (s: Sys) => InvFound(s, x, v, all) && AllProper(s), st => NotForged(st, x), states, steps, 0, i);
  }

  /** The volumes that carry the cache from the start, if any. */
  ghost function Carriers(vols: map<string, Labels>, x: Identity): set<string> {
    set u | u in vols && Carries(vols[u], x)
  }

  lemma RunHas(h: SlotHash, states: seq<Sys>, steps: seq<Step>, x: Identity) returns (v: string, all: set<string>)
    requires IsRun(h, states, steps) && !NoVolume(states[0].vols, x)
    ensures InvFound(states[0], x, v, all)
  {
    all := Carriers(states[0].vols, x);
    var u :| u in states[0].vols && Carries(states[0].vols[u], x);
    assert u in all;
    v := SmallestOf(all);
  }

  /** Convergence: without removals, in every interleaving of any number of processes of any controllers,
      whatever occupies the slots and however names collide, all calls for one cache return one volume, which
      carries the cache's identity. */
  lemma CallsConverge(h: SlotHash, states: seq<Sys>, steps: seq<Step>, x: Identity, i: nat, a: nat, b: nat)
    requires IsRun(h, states, steps) && Proper(x) && i < |states|
    requires forall k :: 0 <= k < |steps| ==> NotForged(steps[k], x)
    requires a in states[i].procs && states[i].procs[a].id == x && states[i].procs[a].pc.Returned?
    requires b in states[i].procs && states[i].procs[b].id == x && states[i].procs[b].pc.Returned?
    ensures states[i].procs[a].pc.name == states[i].procs[b].pc.name
    ensures states[i].procs[a].pc.name in states[i].vols && Carries(states[i].vols[states[i].procs[a].pc.name], x)
  {
    if NoVolume(states[0].vols, x) {
      RunFresh(h, states, steps, x, i);
    } else {
      var v, all := RunHas(h, states, steps, x);
      RunFound(h, states, steps, x, v, all, i);
    }
  }

  lemma VolumesStay(h: SlotHash, s: Sys, st: Step)
    requires Enabled(s, st)
    ensures forall w :: w in s.vols ==> w in Do(h, s, st).vols && Do(h, s, st).vols[w] == s.vols[w]
  {
  }

  lemma CreatedFresh(h: SlotHash, s: Sys, st: Step, x: Identity, u: string)
    requires InvFresh(h, s, x) && Enabled(s, st) && InvFresh(h, Do(h, s, st), x)
    requires u !in s.vols && u in Do(h, s, st).vols && Carries(Do(h, s, st).vols[u], x)
    ensures NoVolume(s.vols, x)
  {
    VolumesStay(h, s, st);
  }

  /** A second volume of a cache is never created: a step that creates one finds none. */
  lemma SecondNeverCreated(h: SlotHash, states: seq<Sys>, steps: seq<Step>, x: Identity, i: nat, u: string)
    requires IsRun(h, states, steps) && Proper(x) && i < |steps|
    requires forall k :: 0 <= k < |steps| ==> NotForged(steps[k], x)
    requires u !in states[i].vols && u in states[i + 1].vols && Carries(states[i + 1].vols[u], x)
    ensures NoVolume(states[i].vols, x)
  {
    if NoVolume(states[0].vols, x) {
      RunFresh(h, states, steps, x, i);
      RunFresh(h, states, steps, x, i + 1);
      assert Next(h, states[i], steps[i], states[i + 1]);
      CreatedFresh(h, states[i], steps[i], x, u);
    } else {
      var v, all := RunHas(h, states, steps, x);
      RunFound(h, states, steps, x, v, all, i);
      RunFound(h, states, steps, x, v, all, i + 1);
    }
  }
}
