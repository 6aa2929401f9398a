/** The throttle stamp: a claim on a round made by many processes through one never-started container
    (internal/provider/throttle.go, internal/provider/gc.go). All processes share one clock that never goes
    back. */
module Stamp {
  import opened TeardownScope
  import Runs

  /** Clock readings and intervals are in nanoseconds; a created-at label keeps whole seconds. */
  const Second := 1_000_000_000

  function WholeSeconds(t: nat): (r: nat)
    ensures r <= t < r + Second && r % 1_000_000_000 == 0
  {
    t - t % Second
  }

  /** The container under the stamp's name. `at` is its created-at label, if readable. */
  datatype Container = Container(id: nat, own: bool, at: Option<int>)

  /** The stamp a process found too old or unusable, as it read it, and when it decided so. */
  datatype Replaced = Replaced(id: nat, at: Option<int>, decided: nat)

  datatype Pc =
    | Inspecting
    | Saw(id: nat, at: Option<int>)
    | Removing(target: Replaced)
    | Labelling(replaced: Option<Replaced>)
    | Creating(stamped: nat, replaced: Option<Replaced>)
    | Won(stamp: nat, replaced: Option<Replaced>)
    | Reset(stamp: nat)
    | Lost
    // No runner image locally, so no stamp can be made: the pass runs.
    | Unthrottled

  /** Who created a stamp, when, and with what label. */
  datatype Birth = Birth(pid: nat, time: nat, stamped: nat)

  /** born is history. */
  datatype Sys = Sys(now: nat, slot: Option<Container>, nextId: nat, procs: map<nat, Pc>, born: map<nat, Birth>)

  datatype Fault = Fine | Refused | DoneButFailed

  datatype Step =
    | Start(pid: nat)
    | StartUnpulled(pid: nat)
    | Inspect(pid: nat, fails: bool)
    | Decide(pid: nat)
    | Remove(pid: nat, fault: Fault)
    | Label(pid: nat)
    | Create(pid: nat, fault: Fault)
    | Tick(d: nat)
    | OutsideRemove
    | OutsideCreate(own: bool, at: Option<int>)

  /** The age test: a readable label not in the future and younger than the interval. */
  predicate Current(at: Option<int>, now: nat, interval: nat) {
    at.Some? && 0 <= now - at.value < interval
  }

  /** A stamp with no usable time is replaced without a round. */
  predicate Usable(r: Replaced) {
    r.at.Some? && r.at.value <= r.decided
  }

  predicate GivesRound(replaced: Option<Replaced>) {
    replaced.Some? ==> Usable(replaced.value)
  }

  predicate Enabled(s: Sys, st: Step) {
    match st
    case Start(pid) => pid !in s.procs
    case StartUnpulled(pid) => pid !in s.procs
    case Inspect(pid, _) => pid in s.procs && s.procs[pid].Inspecting?
    case Decide(pid) => pid in s.procs && s.procs[pid].Saw?
    case Remove(pid, _) => pid in s.procs && s.procs[pid].Removing?
    case Label(pid) => pid in s.procs && s.procs[pid].Labelling?
    case Create(pid, _) => pid in s.procs && s.procs[pid].Creating?
    case Tick(_) => true
    case OutsideRemove => true
    case OutsideCreate(_, _) => s.slot.None?
  }

  function Goto(s: Sys, pid: nat, pc: Pc): Sys {
    s.(procs := s.procs[pid := pc])
  }

  function AfterInspect(slot: Option<Container>, fails: bool): Pc {
    if fails then Lost
    else match slot
      case None => Labelling(None)
      case Some(c) => if c.own then Saw(c.id, c.at) else Lost
  }

  function DoRemove(s: Sys, pid: nat, fault: Fault): Sys
    requires pid in s.procs && s.procs[pid].Removing?
  {
    var r := s.procs[pid].target;
    var left := if fault != Refused && s.slot.Some? && s.slot.value.id == r.id then None else s.slot;
    Goto(s, pid, if fault.Fine? then Labelling(Some(r)) else Lost).(slot := left)
  }

  function DoCreate(s: Sys, pid: nat, fault: Fault): Sys
    requires pid in s.procs && s.procs[pid].Creating?
  {
    var p := s.procs[pid];
    if fault.Refused? || s.slot.Some? then Goto(s, pid, Lost)
    else
      Goto(s, pid, if fault.DoneButFailed? then Lost else if GivesRound(p.replaced) then Won(s.nextId, p.replaced) else Reset(s.nextId)).(
        slot := Some(Container(s.nextId, true, Some(p.stamped))), nextId := s.nextId + 1,
        born := s.born[s.nextId := Birth(pid, s.now, p.stamped)])
  }

  function Do(s: Sys, st: Step, interval: nat): Sys
    requires Enabled(s, st)
  {
    match st
    case Start(pid) => Goto(s, pid, Inspecting)
    case StartUnpulled(pid) => Goto(s, pid, Unthrottled)
    case Inspect(pid, fails) => Goto(s, pid, AfterInspect(s.slot, fails))
    case Decide(pid) =>
      var p := s.procs[pid];
      Goto(s, pid, if Current(p.at, s.now, interval) then Lost else Removing(Replaced(p.id, p.at, s.now)))
    case Remove(pid, fault) => DoRemove(s, pid, fault)
    case Label(pid) => Goto(s, pid, Creating(WholeSeconds(s.now), s.procs[pid].replaced))
    case Create(pid, fault) => DoCreate(s, pid, fault)
    case Tick(d) => s.(now := s.now + d)
    case OutsideRemove => s.(slot := None)
    case OutsideCreate(own, at) => s.(slot := Some(Container(s.nextId, own, at)), nextId := s.nextId + 1)
  }

  predicate Init(s: Sys) {
    s.procs == map[] && s.born == map[] && (s.slot.Some? ==> s.slot.value.id < s.nextId)
  }

  predicate Next(s: Sys, st: Step, s': Sys, interval: nat) {
    Enabled(s, st) && s' == Do(s, st, interval)
  }

  ghost predicate IsRun(states: seq<Sys>, steps: seq<Step>, interval: nat) {
    Runs.IsRun(s => Init(s), (s, st, s') => Next(s, st, s', interval), states, steps)
  }

  // ---------------------------------------------------------------- the invariant

  /** A process remembers a stamp as it was: identifiers are not reused and labels do not change. */
  predicate Remembers(s: Sys, id: nat, at: Option<int>) {
    && id < s.nextId
    && (s.slot.Some? && s.slot.value.id == id ==> s.slot.value.own && s.slot.value.at == at)
    && (id in s.born ==> at == Some(s.born[id].stamped))
  }

  predicate Condemned(s: Sys, r: Replaced, interval: nat) {
    && Remembers(s, r.id, r.at) && r.decided <= s.now && !Current(r.at, r.decided, interval)
    && (r.id in s.born ==> s.born[r.id].time <= r.decided)
  }

  predicate PcOk(s: Sys, pid: nat, pc: Pc, interval: nat) {
    match pc
    case Inspecting => true
    case Saw(id, at) => Remembers(s, id, at)
    case Removing(r) => Condemned(s, r, interval)
    case Labelling(r) => r.Some? ==> Condemned(s, r.value, interval)
    case Creating(stamped, r) => stamped <= s.now && (r.Some? ==> Condemned(s, r.value, interval))
    case Won(id, r) =>
      && id in s.born && s.born[id].pid == pid && GivesRound(r)
      && (r.Some? ==> Condemned(s, r.value, interval) && r.value.decided <= s.born[id].time)
    case Reset(id) => id in s.born && s.born[id].pid == pid
    case Lost => true
    case Unthrottled => true
  }

  ghost predicate Inv(s: Sys, interval: nat) {
    && (s.slot.Some? ==> s.slot.value.id < s.nextId)
    && (s.slot.Some? && s.slot.value.id in s.born ==> s.slot.value.own && s.slot.value.at == Some(s.born[s.slot.value.id].stamped))
    && (forall id :: id in s.born ==> id < s.nextId && s.born[id].stamped <= s.born[id].time <= s.now)
    && (forall pid :: pid in s.procs ==> PcOk(s, pid, s.procs[pid], interval))
  }

  /** What every step leaves to rely on. */
  ghost predicate Evolves(s: Sys, s': Sys) {
    && s.now <= s'.now && s.nextId <= s'.nextId
    && (forall id :: id in s.born ==> id in s'.born && s'.born[id] == s.born[id])
    && (forall id :: id in s'.born && id !in s.born ==> s.nextId <= id)
    && (s'.slot.Some? && s'.slot.value.id < s.nextId ==> s'.slot == s.slot)
  }

  lemma PcStable(s: Sys, s': Sys, pid: nat, pc: Pc, interval: nat)
    requires Evolves(s, s') && PcOk(s, pid, pc, interval)
    ensures PcOk(s', pid, pc, interval)
  {
  }

  /** The daemon's part of the invariant. */
  ghost predicate SlotOk(s: Sys) {
    && (s.slot.Some? ==> s.slot.value.id < s.nextId)
    && (s.slot.Some? && s.slot.value.id in s.born ==> s.slot.value.own && s.slot.value.at == Some(s.born[s.slot.value.id].stamped))
    && (forall id :: id in s.born ==> id < s.nextId && s.born[id].stamped <= s.born[id].time <= s.now)
  }

  lemma StepEvolves(s: Sys, st: Step, interval: nat)
    requires Inv(s, interval) && Enabled(s, st)
    ensures Evolves(s, Do(s, st, interval))
  {
  }

  lemma StepKeepsSlot(s: Sys, st: Step, interval: nat)
    requires Inv(s, interval) && Enabled(s, st)
    ensures SlotOk(Do(s, st, interval))
  {
    if st.Create? { assert PcOk(s, st.pid, s.procs[st.pid], interval); }
  }

  /** The acting process. */
  predicate Acts(st: Step) {
    !st.Tick? && !st.OutsideRemove? && !st.OutsideCreate?
  }

  lemma StepKeepsActor(s: Sys, st: Step, interval: nat)
    requires Inv(s, interval) && Enabled(s, st) && Acts(st)
    ensures PcOk(Do(s, st, interval), st.pid, Do(s, st, interval).procs[st.pid], interval)
  {
    if st.pid in s.procs { assert PcOk(s, st.pid, s.procs[st.pid], interval); }
  }

  lemma OthersStay(s: Sys, st: Step, interval: nat, pid: nat)
    requires Enabled(s, st) && pid in Do(s, st, interval).procs && !(Acts(st) && st.pid == pid)
    ensures pid in s.procs && Do(s, st, interval).procs[pid] == s.procs[pid]
  {
  }

  lemma StepKeepsInv(s: Sys, st: Step, interval: nat)
    requires Inv(s, interval) && Enabled(s, st)
    ensures Inv(Do(s, st, interval), interval)
  {
    hide Do;
    var s' := Do(s, st, interval);
    StepEvolves(s, st, interval);
    StepKeepsSlot(s, st, interval);
    forall pid | pid in s'.procs ensures PcOk(s', pid, s'.procs[pid], interval) {
      if Acts(st) && pid == st.pid {
        StepKeepsActor(s, st, interval);
      } else {
        OthersStay(s, st, interval, pid);
        PcStable(s, s', pid, s.procs[pid], interval);
      }
    }
  }

  lemma ReachableInv(states: seq<Sys>, steps: seq<Step>, interval: nat, i: nat)
    requires IsRun(states, steps, interval) && i < |states|
    ensures Inv(states[i], interval)
  {
    forall s, st, s' | Inv(s, interval) && Next(s, st, s', interval) ensures Inv(s', interval) { StepKeepsInv(s, st, interval); }
    Runs.Throughout(s => Init(s), (s, st, s') => Next(s, st, s', interval), s => Inv(s, interval), states, steps, i);
  }

  // ---------------------------------------------------------------- what the stamp guarantees

  /** A stamp is removed only by a process that read that same stamp, and found it expired or unusable. A
      stamp whose label is not in the future is at least one interval old by its label. */
  lemma RemovedOnlyIfStale(states: seq<Sys>, steps: seq<Step>, interval: nat, i: nat)
    requires IsRun(states, steps, interval) && i < |steps| && !steps[i].OutsideRemove?
    requires states[i].slot.Some?
    requires (states[i + 1].slot.None? || states[i + 1].slot.value.id != states[i].slot.value.id)
    ensures var c := states[i].slot.value;
            && steps[i].Remove? && steps[i].pid in states[i].procs && states[i].procs[steps[i].pid].Removing?
            && var r := states[i].procs[steps[i].pid].target;
               r.id == c.id && r.at == c.at && c.own && !Current(c.at, r.decided, interval)
               && (Usable(r) ==> r.at.value + interval <= r.decided <= states[i].now)
  {
    ReachableInv(states, steps, interval, i);
    assert Next(states[i], steps[i], states[i + 1], interval);
    if steps[i].Remove? { assert PcOk(states[i], steps[i].pid, states[i].procs[steps[i].pid], interval); }
  }

  predicate IsUnthrottled(s: Sys, pid: nat) {
    pid in s.procs && s.procs[pid].Unthrottled?
  }

  lemma UnthrottledByStep(s: Sys, st: Step, interval: nat, pid: nat)
    requires Enabled(s, st)
    ensures IsUnthrottled(Do(s, st, interval), pid) <==> IsUnthrottled(s, pid) || st == StartUnpulled(pid)
  {
  }

  /** A pass runs without winning a stamp exactly in a process that found no runner image. */
  lemma {:induction false} UnthrottledExactly(states: seq<Sys>, steps: seq<Step>, interval: nat, i: nat, pid: nat)
    requires IsRun(states, steps, interval) && i <= |steps|
    ensures IsUnthrottled(states[i], pid) <==> exists j :: 0 <= j < i && steps[j] == StartUnpulled(pid)
  {
    hide Enabled, Do;
    if i > 0 {
      UnthrottledExactly(states, steps, interval, i - 1, pid);
      assert Next(states[i - 1], steps[i - 1], states[i - 1 + 1], interval);
      UnthrottledByStep(states[i - 1], steps[i - 1], interval, pid);
    }
  }

  /** A process wins a round only by creating a stamp, and no two processes win by the same one. */
  lemma WinnerCreated(states: seq<Sys>, steps: seq<Step>, interval: nat, i: nat, p: nat, q: nat)
    requires IsRun(states, steps, interval) && i < |states|
    requires p in states[i].procs && states[i].procs[p].Won?
    requires q in states[i].procs && states[i].procs[q].Won? && states[i].procs[q].stamp == states[i].procs[p].stamp
    ensures states[i].procs[p].stamp in states[i].born && states[i].born[states[i].procs[p].stamp].pid == p && p == q
  {
    ReachableInv(states, steps, interval, i);
    assert PcOk(states[i], p, states[i].procs[p], interval) && PcOk(states[i], q, states[i].procs[q], interval);
  }

  /** A win that replaces a usable stamp comes no earlier than that stamp's recorded time plus the interval; one
      that replaces an unusable stamp is no win. */
  lemma WinsAreSpaced(states: seq<Sys>, steps: seq<Step>, interval: nat, i: nat, p: nat)
    requires IsRun(states, steps, interval) && i < |states|
    requires p in states[i].procs && states[i].procs[p].Won? && states[i].procs[p].replaced.Some?
    ensures var w := states[i].procs[p];
            && w.replaced.value.at.Some? && w.stamp in states[i].born
            && w.replaced.value.at.value + interval <= states[i].born[w.stamp].time
  {
    ReachableInv(states, steps, interval, i);
    assert PcOk(states[i], p, states[i].procs[p], interval);
  }

  // ---------------------------------------------------------------- without outside removals

  /** A stamp made by a process that is gone was removed after its interval, and later stamps came later still. */
  ghost predicate Spaced(s: Sys, interval: nat) {
    && (forall id :: id in s.born && (s.slot.None? || s.slot.value.id != id) ==> s.born[id].stamped + interval <= s.now)
    && (forall i, j :: i in s.born && j in s.born && i < j ==> s.born[i].stamped + interval <= s.born[j].time)
  }

  /** How long before its creation a stamp's recorded time lies. */
  function Lag(b: Birth): int {
    b.time - b.stamped
  }

  lemma StepKeepsSpaced(s: Sys, st: Step, interval: nat)
    requires Inv(s, interval) && Spaced(s, interval) && Enabled(s, st) && !st.OutsideRemove?
    ensures Spaced(Do(s, st, interval), interval)
  {
    if Acts(st) && st.pid in s.procs { assert PcOk(s, st.pid, s.procs[st.pid], interval); }
  }

  /** Without outside removals the stamps themselves are spaced: each is created no earlier than the interval
      after the time any earlier one records. The recorded time is read before the create and keeps whole
      seconds, so two creations are an interval apart but for that lag of the earlier one. */
  lemma StampsAreSpaced(states: seq<Sys>, steps: seq<Step>, interval: nat, k: nat, i: nat, j: nat)
    requires IsRun(states, steps, interval) && k < |states| && forall n :: 0 <= n < |steps| ==> !steps[n].OutsideRemove?
    requires i in states[k].born && j in states[k].born && i < j
    ensures states[k].born[i].stamped + interval <= states[k].born[j].time
    ensures states[k].born[j].time - states[k].born[i].time >= interval - Lag(states[k].born[i])
  {
    forall s: Sys, st: Step, s': Sys | Inv(s, interval) && Spaced(s, interval) && !st.OutsideRemove? && Next(s, st, s', interval)
      ensures Inv(s', interval) && Spaced(s', interval)
    {
      StepKeepsInv(s, st, interval);
      StepKeepsSpaced(s, st, interval);
    }
    Runs.Onward(s => Init(s), (s, st, s') => Next(s, st, s', interval), s => Inv(s, interval) && Spaced(s, interval), (st: Step) => !st.OutsideRemove?,
                states, steps, 0, k);
  }

  // ---------------------------------------------------------------- the bound is attained

  ghost predicate Reachable(s: Sys, interval: nat) {
    exists states, steps :: CalmRun(states, steps, interval) && states[|steps|] == s
  }

  /** A run without outside removals. */
  ghost predicate CalmRun(states: seq<Sys>, steps: seq<Step>, interval: nat) {
    IsRun(states, steps, interval) && forall n :: 0 <= n < |steps| ==> !steps[n].OutsideRemove?
  }

  lemma Begins(s: Sys, interval: nat)
    requires Init(s)
    ensures Reachable(s, interval)
  {
    assert CalmRun([s], [], interval);
  }

  lemma Then(s: Sys, st: Step, interval: nat) returns (s': Sys)
    requires Reachable(s, interval) && Enabled(s, st) && !st.OutsideRemove?
    ensures Reachable(s', interval) && s' == Do(s, st, interval)
  {
    s' := Do(s, st, interval);
    var states, steps :| CalmRun(states, steps, interval) && states[|steps|] == s;
    var states', steps' := states + [s'], steps + [st];
    forall i | 0 <= i < |steps'| ensures Next(states'[i], steps'[i], states'[i + 1], interval) {
      if i < |steps| { assert Next(states[i], steps[i], states[i + 1], interval); }
    }
    assert CalmRun(states', steps', interval);
  }

  /** Process 1 reads the clock at 0, stalls, and creates the first stamp. */
  lemma FirstRound(interval: nat, lag: nat) returns (s: Sys)
    ensures Reachable(s, interval) && s.now == lag && s.nextId == 1 && s.slot == Some(Container(0, true, Some(0)))
    ensures s.procs == map[1 := Won(0, None)] && s.born == map[0 := Birth(1, lag, 0)]
  {
    hide Reachable;
    s := Sys(0, None, 0, map[], map[]);
    Begins(s, interval);
    s := Then(s, Start(1), interval);
    s := Then(s, Inspect(1, false), interval);
    s := Then(s, Label(1), interval);
    s := Then(s, Tick(lag), interval);
    s := Then(s, Create(1, Fine), interval);
  }

  /** For every interval and every lag up to it, a run without outside removals lets two processes win with
      stamps created exactly the interval less the lag apart. */
  lemma LagShortens(interval: nat, lag: nat) returns (s: Sys)
    requires lag <= interval
    ensures Reachable(s, interval) && 0 in s.born && 1 in s.born
    ensures 1 in s.procs && s.procs[1].Won? && s.procs[1].stamp == 0 && 2 in s.procs && s.procs[2].Won? && s.procs[2].stamp == 1
    ensures Lag(s.born[0]) == lag && s.born[1].time - s.born[0].time == interval - lag
  {
    hide Reachable;
    s := FirstRound(interval, lag);
    s := Then(s, Tick(interval - lag), interval);
    s := Then(s, Start(2), interval);
    s := Then(s, Inspect(2, false), interval);
    s := Then(s, Decide(2), interval);
    s := Then(s, Remove(2, Fine), interval);
    s := Then(s, Label(2), interval);
    s := Then(s, Create(2, Fine), interval);
  }

  // ---------------------------------------------------------------- one process alone

  /** Process 1 has come to an end, and the slot holds this. */
  ghost predicate Ended(s: Sys, interval: nat, pc: Pc, slot: Option<Container>) {
    Reachable(s, interval) && s.procs == map[1 := pc] && s.slot == slot
  }

  function NewStamp(now: nat): Option<Container> {
    Some(Container(1, true, Some(WholeSeconds(now))))
  }

  lemma MakesStamp(s0: Sys, interval: nat, replaced: Option<Replaced>) returns (s: Sys)
    requires Reachable(s0, interval) && s0.procs == map[1 := Labelling(replaced)] && s0.slot.None? && s0.nextId == 1
    ensures Ended(s, interval, if GivesRound(replaced) then Won(1, replaced) else Reset(1), NewStamp(s0.now))
  {
    hide Reachable;
    s := Then(s0, Label(1), interval);
    s := Then(s, Create(1, Fine), interval);
  }

  /** What a process alone, with no fault, makes of what it finds: without a stamp it wins with a new one; a
      container that is not the controller's, or a stamp younger than the interval, is left and it loses; an older
      stamp is replaced and it wins; a stamp with a time in the future or none is replaced without a win. */
  lemma LoneProcess(interval: nat, now: nat, found: Option<Container>) returns (s: Sys)
    requires found.Some? ==> found.value.id == 0
    ensures found.None? ==> Ended(s, interval, Won(1, None), NewStamp(now))
    ensures found.Some? && !found.value.own ==> Ended(s, interval, Lost, found)
    ensures found.Some? && found.value.own && found.value.at.Some? && found.value.at.value <= now < found.value.at.value + interval ==>
              Ended(s, interval, Lost, found)
    ensures found.Some? && found.value.own && found.value.at.Some? && found.value.at.value <= now && found.value.at.value + interval <= now ==>
              Ended(s, interval, Won(1, Some(Replaced(0, found.value.at, now))), NewStamp(now))
    ensures found.Some? && found.value.own && (found.value.at.None? || found.value.at.value > now) ==>
              Ended(s, interval, Reset(1), NewStamp(now))
  {
    hide Reachable;
    var s0 := Sys(now, found, 1, map[], map[]);
    Begins(s0, interval);
    s := Then(s0, Start(1), interval);
    s := Then(s, Inspect(1, false), interval);
    if found.None? {
      s := MakesStamp(s, interval, None);
    } else if found.value.own {
      s := Then(s, Decide(1), interval);
      if !Current(found.value.at, now, interval) {
        s := Then(s, Remove(1, Fine), interval);
        s := MakesStamp(s, interval, Some(Replaced(0, found.value.at, now)));
      }
    }
  }
}
