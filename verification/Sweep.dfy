/** The orphan sweep: which allocations it tears down (internal/topology/sweep.go). The daemon is observed
    without interference; what a sweep may remove when other processes interleave is the teardown's concern. */
module Sweep {
  import opened LabelSpec
  import opened Docker
  import opened DaemonCalls
  import opened TeardownScope
  import opened Teardown
  import opened Deletion

  /** The time, the two graces, and the created-at parser. */
  datatype Clock = Clock(now: int, exitedGrace: int, inflightGrace: int, parse: string -> Option<int>)

  /** When each container finished, as far as an inspect can tell. */
  type Finishes = nat -> Option<int>

  /** parseCreatedAt. */
  function CreatedTime(l: Labels, k: Clock): Option<int> {
    if Get(l, CreatedAt) == "" then None else k.parse(Get(l, CreatedAt))
  }

  // ---------------------------------------------------------------- the declarative rule

  predicate IsRunner(w: World, ctrl: string, inst: string, id: nat) {
    id in w.containers && Under(w.containers[id].labels, ctrl, inst) && Get(w.containers[id].labels, Role) == RoleRunner
  }

  ghost predicate ActiveRunner(w: World, ctrl: string, inst: string) {
    exists id :: IsRunner(w, ctrl, inst, id) && MayHoldJob(w.containers[id].state)
  }

  /** The daemon holds the container as live: it runs, is paused, or is about to run again. */
  predicate MayHoldJob(st: RunState) {
    st == Running || st == Paused || st == Restarting
  }

  /** A runner that is not active finished at t. */
  ghost predicate Finished(w: World, ctrl: string, inst: string, fin: Finishes, t: int) {
    exists id :: IsRunner(w, ctrl, inst, id) && !MayHoldJob(w.containers[id].state) && fin(id) == Some(t)
  }

  predicate CreatedAs(l: Labels, ctrl: string, inst: string, k: Clock, t: int) {
    Under(l, ctrl, inst) && Get(l, CreatedAt) != "" && k.parse(Get(l, CreatedAt)) == Some(t)
  }

  /** Some resource of the allocation was created at t. */
  ghost predicate CreatedOnce(w: World, ctrl: string, inst: string, k: Clock, t: int) {
    || (exists id :: id in w.containers && CreatedAs(w.containers[id].labels, ctrl, inst, k, t))
    || (exists id :: id in w.networks && CreatedAs(w.networks[id].labels, ctrl, inst, k, t))
    || (exists v :: v in w.volumes && CreatedAs(w.volumes[v], ctrl, inst, k, t))
  }

  /** An allocation is abandoned if something of it exists, no runner is active, and either some runner
      finished and every finish is past the exited grace, or none did and every known creation, of which there
      is one, is past the in-flight grace. */
  ghost predicate Abandoned(w: World, ctrl: string, inst: string, k: Clock, fin: Finishes) {
    && AnyUnder(w, ctrl, inst)
    && !ActiveRunner(w, ctrl, inst)
    && (if exists t :: Finished(w, ctrl, inst, fin, t)
        then forall t :: Finished(w, ctrl, inst, fin, t) ==> k.now - t >= k.exitedGrace
        else (exists t :: CreatedOnce(w, ctrl, inst, k, t)) && forall t :: CreatedOnce(w, ctrl, inst, k, t) ==> k.now - t >= k.inflightGrace)
  }

  // ---------------------------------------------------------------- the loops

  /** What `note` has gathered from the first n entries: whether any is ours, and the youngest creation. */
  ghost predicate Noted<K(!new)>(list: seq<Listed<K>>, n: nat, ctrl: string, k: Clock, has: bool, youngest: Option<int>)
    requires n <= |list|
  {
    && (has <==> exists j :: 0 <= j < n && MatchesPredicate(list[j].labels, ctrl))
    && (youngest.Some? ==> exists j :: 0 <= j < n && MatchesPredicate(list[j].labels, ctrl) && CreatedTime(list[j].labels, k) == youngest)
    && forall j :: 0 <= j < n && MatchesPredicate(list[j].labels, ctrl) && CreatedTime(list[j].labels, k).Some? ==>
                     youngest.Some? && CreatedTime(list[j].labels, k).value <= youngest.value
  }

  method NoteAll<K(!new)>(list: seq<Listed<K>>, ctrl: string, k: Clock) returns (has: bool, youngest: Option<int>)
    ensures Noted(list, |list|, ctrl, k, has, youngest)
  {
    has, youngest := false, None;
    for i := 0 to |list|
      invariant Noted(list, i, ctrl, k, has, youngest)
    {
      if MatchesPredicate(list[i].labels, ctrl) {
        has := true;
        var t := CreatedTime(list[i].labels, k);
        if t.Some? && (youngest.None? || t.value > youngest.value) { youngest := t; }
      }
    }
  }

  function Later(a: Option<int>, b: Option<int>): Option<int> {
    if a.None? then b else if b.None? then a else if a.value >= b.value then a else b
  }

  /** What the runner loop has gathered from the first n containers. */
  ghost predicate Judged(w: World, list: seq<Listed<nat>>, n: nat, ctrl: string, fin: Finishes, active: bool,
                         exited: Option<int>)
    requires n <= |list| && forall j :: 0 <= j < |list| ==> list[j].key in w.containers
  {
    && (active <==> exists j :: 0 <= j < n && OwnRunner(list[j].labels, ctrl) && MayHoldJob(w.containers[list[j].key].state))
    && (exited.Some? ==> exists j :: 0 <= j < n && OwnRunner(list[j].labels, ctrl) && !MayHoldJob(w.containers[list[j].key].state) && fin(list[j].key) == exited)
    && forall j :: 0 <= j < n && OwnRunner(list[j].labels, ctrl) && !MayHoldJob(w.containers[list[j].key].state) && fin(list[j].key).Some? ==>
                     exited.Some? && fin(list[j].key).value <= exited.value
  }

  predicate OwnRunner(l: Labels, ctrl: string) {
    MatchesPredicate(l, ctrl) && Get(l, Role) == RoleRunner
  }

  /** A runner that is not active: its finish time takes an inspect. */
  predicate ToInspect(conts: map<nat, Container>, x: Listed<nat>, ctrl: string)
    requires x.key in conts
  {
    OwnRunner(x.labels, ctrl) && !MayHoldJob(conts[x.key].state)
  }

  /** How many of the first n containers are runners to inspect. */
  function Inspects(conts: map<nat, Container>, list: seq<Listed<nat>>, n: nat, ctrl: string): (r: nat)
    requires n <= |list| && forall j :: 0 <= j < |list| ==> list[j].key in conts
    ensures r <= n
  {
    if n == 0 then 0
    else
      Inspects(conts, list, n - 1, ctrl) +
      (if ToInspect(conts, list[n - 1], ctrl) then 1 else 0)
  }

  lemma InspectsGrow(conts: map<nat, Container>, list: seq<Listed<nat>>, n: nat, ctrl: string)
    requires n <= |list| && forall j :: 0 <= j < |list| ==> list[j].key in conts
    ensures Inspects(conts, list, n, ctrl) <= Inspects(conts, list, |list|, ctrl)
    decreases |list| - n
  {
    if n < |list| { InspectsGrow(conts, list, n + 1, ctrl); }
  }

  lemma JudgedMore(w: World, list: seq<Listed<nat>>, n: nat, ctrl: string, fin: Finishes, active: bool, exited: Option<int>)
    requires n < |list| && forall j :: 0 <= j < |list| ==> list[j].key in w.containers
    requires Judged(w, list, n, ctrl, fin, active, exited)
    ensures var own, live := OwnRunner(list[n].labels, ctrl), MayHoldJob(w.containers[list[n].key].state);
            Judged(w, list, n + 1, ctrl, fin, active || (own && live), if own && !live then Later(exited, fin(list[n].key)) else exited)
  {
  }

  lemma JudgedNone(w: World, list: seq<Listed<nat>>, ctrl: string, fin: Finishes)
    requires forall j :: 0 <= j < |list| ==> list[j].key in w.containers
    ensures Judged(w, list, 0, ctrl, fin, false, None)
  {
  }

  /** The runner loop. It inspects every runner that is not active, and fails exactly when one of these inspects
      fails. */
  method JudgeRunners(d: Daemon, list: seq<Listed<nat>>, ctrl: string)
    returns (ok: bool, active: bool, exited: Option<int>)
    requires forall j :: 0 <= j < |list| ==> list[j].key in d.containers
    modifies d`faults
    ensures ok ==> Judged(d.View(), list, |list|, ctrl, d.finish, active, exited)
    ensures ok <==> FirstFine(old(d.faults), Inspects(d.containers, list, |list|, ctrl))
    ensures ok ==> d.faults == Drop(old(d.faults), Inspects(d.containers, list, |list|, ctrl))
  {
    hide Judged, OwnRunner, FirstFine, Drop, Head, Rest;
    active, exited := false, None;
    CallsAdd(d.faults, 0, 0);
    NoCalls(d.faults);
    JudgedNone(d.View(), list, ctrl, d.finish);
    for i := 0 to |list|
      invariant Judged(d.View(), list, i, ctrl, d.finish, active, exited)
      invariant FirstFine(old(d.faults), Inspects(d.containers, list, i, ctrl))
      invariant d.faults == Drop(old(d.faults), Inspects(d.containers, list, i, ctrl))
    {
      JudgedMore(d.View(), list, i, ctrl, d.finish, active, exited);
      if OwnRunner(list[i].labels, ctrl) {
        if IsActive(d.containers[list[i].key].state) {
          active := true;
        } else {
          InspectsGrow(d.containers, list, i + 1, ctrl);
          OneMoreCall(old(d.faults), Inspects(d.containers, list, i, ctrl), Inspects(d.containers, list, |list|, ctrl));
          var o, l, st, finished := d.ContainerInspect(list[i].key);
          if o.Failed? { return false, false, None; }
          if o.Ok? && finished.Some? && (exited.None? || finished.value > exited.value) { exited := finished; }
        }
      }
    }
    ok := true;
  }

  /** The runners that an inspect must tell the finish time of. */
  ghost function InactiveRunners(w: World, ctrl: string, inst: string): set<nat> {
    set id | id in w.containers && IsRunner(w, ctrl, inst, id) && !MayHoldJob(w.containers[id].state)
  }

  ghost function Inspected(w: World, list: seq<Listed<nat>>, n: nat, ctrl: string): set<nat>
    requires n <= |list| && forall j :: 0 <= j < |list| ==> list[j].key in w.containers
  {
    set j | 0 <= j < n && ToInspect(w.containers, list[j], ctrl) :: list[j].key
  }

  lemma InspectedStep(w: World, list: seq<Listed<nat>>, n: nat, ctrl: string)
    requires n < |list| && forall j :: 0 <= j < |list| ==> list[j].key in w.containers
    ensures Inspected(w, list, n + 1, ctrl) == Inspected(w, list, n, ctrl) + (if ToInspect(w.containers, list[n], ctrl) then {list[n].key} else {})
  {
    hide ToInspect;
  }

  lemma NotYetInspected(w: World, list: seq<Listed<nat>>, n: nat, ctrl: string)
    requires n < |list| && forall j :: 0 <= j < |list| ==> list[j].key in w.containers
    requires forall i, j :: 0 <= i < j < |list| ==> list[i].key != list[j].key
    ensures list[n].key !in Inspected(w, list, n, ctrl)
  {
    hide ToInspect;
  }

  lemma {:induction false} InspectedCount(w: World, list: seq<Listed<nat>>, n: nat, ctrl: string)
    requires n <= |list| && forall j :: 0 <= j < |list| ==> list[j].key in w.containers
    requires forall i, j :: 0 <= i < j < |list| ==> list[i].key != list[j].key
    ensures Inspects(w.containers, list, n, ctrl) == |Inspected(w, list, n, ctrl)|
  {
    hide ToInspect;
    if n > 0 {
      InspectedCount(w, list, n - 1, ctrl);
      InspectedStep(w, list, n - 1, ctrl);
      NotYetInspected(w, list, n - 1, ctrl);
    }
  }

  /** The loop inspects each of them once, whatever order the daemon lists in. */
  lemma InspectsAll(w: World, ctrl: string, inst: string, list: seq<Listed<nat>>)
    requires IsListing(list, LabelsOfContainers(w.containers), InstanceScopedFilter(ctrl, inst))
    ensures forall j :: 0 <= j < |list| ==> list[j].key in w.containers
    ensures Inspects(w.containers, list, |list|, ctrl) == |InactiveRunners(w, ctrl, inst)|
  {
    InspectedCount(w, list, |list|, ctrl);
    forall id | id in InactiveRunners(w, ctrl, inst) ensures id in Inspected(w, list, |list|, ctrl) {
      assert id in LabelsOfContainers(w.containers) && Lists(list, id);
    }
    assert InactiveRunners(w, ctrl, inst) == Inspected(w, list, |list|, ctrl);
  }

  /** Three lists, and the inspects. */
  ghost function DecidingCalls(w: World, ctrl: string, inst: string): nat {
    3 + |InactiveRunners(w, ctrl, inst)|
  }

  // ---------------------------------------------------------------- the loops compute the rule

  lemma JudgedRunners(w: World, ctrl: string, inst: string, fin: Finishes, list: seq<Listed<nat>>, active: bool,
                      exited: Option<int>)
    requires IsListing(list, LabelsOfContainers(w.containers), InstanceScopedFilter(ctrl, inst))
    requires Judged(w, list, |list|, ctrl, fin, active, exited)
    ensures active <==> ActiveRunner(w, ctrl, inst)
    ensures exited.Some? <==> exists t :: Finished(w, ctrl, inst, fin, t)
    ensures exited.Some? ==> Finished(w, ctrl, inst, fin, exited.value) && forall t :: Finished(w, ctrl, inst, fin, t) ==> t <= exited.value
  {
    forall id | IsRunner(w, ctrl, inst, id) ensures exists j :: 0 <= j < |list| && list[j].key == id && OwnRunner(list[j].labels, ctrl) {
      assert id in LabelsOfContainers(w.containers) && Lists(list, id);
    }
    forall j | 0 <= j < |list| && OwnRunner(list[j].labels, ctrl) ensures IsRunner(w, ctrl, inst, list[j].key) { }
    if exited.Some? {
      var j :| 0 <= j < |list| && OwnRunner(list[j].labels, ctrl) && !MayHoldJob(w.containers[list[j].key].state) && fin(list[j].key) == exited;
      assert IsRunner(w, ctrl, inst, list[j].key);
      assert Finished(w, ctrl, inst, fin, exited.value);
    }
    forall t | Finished(w, ctrl, inst, fin, t) ensures exited.Some? && t <= exited.value {
      var id :| IsRunner(w, ctrl, inst, id) && !MayHoldJob(w.containers[id].state) && fin(id) == Some(t);
      var j :| 0 <= j < |list| && list[j].key == id && OwnRunner(list[j].labels, ctrl);
      assert fin(list[j].key).Some?;
    }
  }

  /** Whether any resource of one kind is the allocation's, and the youngest creation among them. */
  ghost predicate KindFacts<K(!new)>(labelled: map<K, Labels>, ctrl: string, inst: string, k: Clock, has: bool, y: Option<int>) {
    && (has <==> exists x :: x in labelled && Under(labelled[x], ctrl, inst))
    && (y.Some? ==> exists x :: x in labelled && CreatedAs(labelled[x], ctrl, inst, k, y.value))
    && (forall x, t :: x in labelled && CreatedAs(labelled[x], ctrl, inst, k, t) ==> y.Some? && t <= y.value)
  }

  lemma NotedKind<K(!new)>(labelled: map<K,
                    Labels>, ctrl: string, inst: string, k: Clock, list: seq<Listed<K>>, has: bool, y: Option<int>)
    requires IsListing(list, labelled, InstanceScopedFilter(ctrl, inst)) && Noted(list, |list|, ctrl, k, has, y)
    ensures KindFacts(labelled, ctrl, inst, k, has, y)
  {
    forall j | 0 <= j < |list| && MatchesPredicate(list[j].labels, ctrl) ensures list[j].key in labelled && Under(labelled[list[j].key], ctrl, inst) { }
    forall x | x in labelled && Under(labelled[x], ctrl, inst) ensures exists j :: 0 <= j < |list| && list[j].key == x && MatchesPredicate(list[j].labels, ctrl) {
      assert Lists(list, x);
    }
    if y.Some? {
      var j :| 0 <= j < |list| && MatchesPredicate(list[j].labels, ctrl) && CreatedTime(list[j].labels, k) == y;
      assert CreatedAs(labelled[list[j].key], ctrl, inst, k, y.value);
    }
    forall x, t | x in labelled && CreatedAs(labelled[x], ctrl, inst, k, t) ensures y.Some? && t <= y.value {
      var j :| 0 <= j < |list| && list[j].key == x && MatchesPredicate(list[j].labels, ctrl);
      assert CreatedTime(list[j].labels, k).Some?;
    }
  }

  /** The youngest creation over the three kinds. */
  ghost predicate Youngest(w: World, ctrl: string, inst: string, k: Clock, y: Option<int>) {
    && (y.Some? ==> CreatedOnce(w, ctrl, inst, k, y.value))
    && forall t :: CreatedOnce(w, ctrl, inst, k, t) ==> y.Some? && t <= y.value
  }

  /** The three kinds together. */
  lemma YoungestTogether(w: World, ctrl: string, inst: string, k: Clock, hc: bool, hn: bool, hv: bool,
                         yc: Option<int>, yn: Option<int>, yv: Option<int>)
    requires KindFacts(LabelsOfContainers(w.containers), ctrl, inst, k, hc, yc)
    requires KindFacts(LabelsOfNetworks(w.networks), ctrl, inst, k, hn, yn)
    requires KindFacts(w.volumes, ctrl, inst, k, hv, yv)
    ensures Youngest(w, ctrl, inst, k, Later(Later(yc, yn), yv))
  {
    hide Under;
    var y := Later(Later(yc, yn), yv);
    forall t | CreatedOnce(w, ctrl, inst, k, t) ensures y.Some? && t <= y.value {
      if id :| id in w.containers && CreatedAs(w.containers[id].labels, ctrl, inst, k, t) {
        assert id in LabelsOfContainers(w.containers);
      } else if id :| id in w.networks && CreatedAs(w.networks[id].labels, ctrl, inst, k, t) {
        assert id in LabelsOfNetworks(w.networks);
      }
    }
  }

  lemma AnyTogether(w: World, ctrl: string, inst: string, k: Clock, hc: bool, hn: bool, hv: bool, yc: Option<int>,
                    yn: Option<int>, yv: Option<int>)
    requires KindFacts(LabelsOfContainers(w.containers), ctrl, inst, k, hc, yc)
    requires KindFacts(LabelsOfNetworks(w.networks), ctrl, inst, k, hn, yn)
    requires KindFacts(w.volumes, ctrl, inst, k, hv, yv)
    ensures hc || hn || hv <==> AnyUnder(w, ctrl, inst)
  {
    hide Under, CreatedAs;
    AnyOf(w, ctrl, inst, hc, hn, hv);
  }

  /** The verdict on what the loops gathered. */
  function Verdict(k: Clock, has: bool, active: bool, exited: Option<int>, youngest: Option<int>): bool {
    if !has || active then false
    else if exited.Some? then !(k.now - exited.value < k.exitedGrace)
    else youngest.Some? && !(k.now - youngest.value < k.inflightGrace)
  }

  lemma VerdictIsTheRule(w: World, ctrl: string, inst: string, k: Clock, fin: Finishes, has: bool, active: bool,
                         exited: Option<int>, youngest: Option<int>)
    requires has <==> AnyUnder(w, ctrl, inst)
    requires active <==> ActiveRunner(w, ctrl, inst)
    requires exited.Some? <==> exists t :: Finished(w, ctrl, inst, fin, t)
    requires exited.Some? ==> Finished(w, ctrl, inst, fin, exited.value) && forall t :: Finished(w, ctrl, inst, fin, t) ==> t <= exited.value
    requires Youngest(w, ctrl, inst, k, youngest)
    ensures Verdict(k, has, active, exited, youngest) <==> Abandoned(w, ctrl, inst, k, fin)
  {
  }

  /** The decision of sweepInstance: whatever order the daemon lists in, it is the rule on the daemon's state, and
      there is one exactly when every list and every inspect of a runner that is not active answered. */
  method Decide(d: Daemon, ctrl: string, inst: string, k: Clock) returns (ok: bool, abandoned: bool)
    modifies d`faults
    ensures ok ==> (abandoned <==> Abandoned(d.View(), ctrl, inst, k, d.finish))
    ensures ok <==> FirstFine(old(d.faults), DecidingCalls(d.View(), ctrl, inst))
    ensures old(d.faults) == [] ==> d.faults == []
  {
    hide Judged, Noted, KindFacts, IsListing, Abandoned, ActiveRunner, Finished, Youngest, AnyUnder, FirstFine, Head, Rest, Drop, InactiveRunners;
    DecidingScript(d.faults, |InactiveRunners(d.View(), ctrl, inst)|);
    var f := InstanceScopedFilter(ctrl, inst);
    var cs, ns, vs;
    ok, cs := d.ContainerList(f);
    if !ok { return false, false; }
    ok, ns := d.NetworkList(f);
    if !ok { return false, false; }
    ok, vs := d.VolumeList(f);
    if !ok { return false, false; }
    ListedAreThere(cs, d.containers, f);
    InspectsAll(d.View(), ctrl, inst, cs);
    var hc, yc := NoteAll(cs, ctrl, k);
    var active, exited;
    ok, active, exited := JudgeRunners(d, cs, ctrl);
    if !ok { return false, false; }
    var hn, yn := NoteAll(ns, ctrl, k);
    var hv, yv := NoteAll(vs, ctrl, k);
    JudgedRunners(d.View(), ctrl, inst, d.finish, cs, active, exited);
    NotedKind(LabelsOfContainers(d.containers), ctrl, inst, k, cs, hc, yc);
    NotedKind(LabelsOfNetworks(d.networks), ctrl, inst, k, ns, hn, yn);
    NotedKind(d.volumes, ctrl, inst, k, vs, hv, yv);
    AnyTogether(d.View(), ctrl, inst, k, hc, hn, hv, yc, yn, yv);
    YoungestTogether(d.View(), ctrl, inst, k, hc, hn, hv, yc, yn, yv);
    abandoned := Verdict(k, hc || hn || hv, active, exited, Later(Later(yc, yn), yv));
    VerdictIsTheRule(d.View(), ctrl, inst, k, d.finish, hc || hn || hv, active, exited, Later(Later(yc, yn), yv));
  }

  lemma DecidingScript(s: seq<Fault>, n: nat)
    ensures FirstFine(s, 3 + n) <==> Head(s) == Fine && Head(Rest(s)) == Fine && Head(Rest(Rest(s))) == Fine && FirstFine(Rest(Rest(Rest(s))), n)
    ensures s == [] ==> FirstFine(s, 3 + n) && Rest(s) == [] && Drop(s, n) == []
  {
    CallsAdd(s, 3, n);
    assert Drop(s, 3) == Rest(Rest(Rest(s)));
    assert FirstFine(s, 3) <==> Head(s) == Fine && Head(Rest(s)) == Fine && Head(Rest(Rest(s))) == Fine;
  }

  lemma ListedAreThere(list: seq<Listed<nat>>, conts: map<nat, Container>, f: Filter)
    requires IsListing(list, LabelsOfContainers(conts), f)
    ensures forall j :: 0 <= j < |list| ==> list[j].key in conts
  {
  }

  // ---------------------------------------------------------------- sweeping

  /** The allocation is the same in both states. */
  ghost predicate SameUnder(w: World, w': World, ctrl: string, inst: string) {
    && (forall id :: id in w.containers && Under(w.containers[id].labels, ctrl, inst) ==> id in w'.containers && w'.containers[id] == w.containers[id])
    && (forall id :: id in w'.containers && Under(w'.containers[id].labels, ctrl, inst) ==> id in w.containers && w.containers[id] == w'.containers[id])
    && (forall id :: id in w.networks && Under(w.networks[id].labels, ctrl, inst) ==> id in w'.networks && w'.networks[id] == w.networks[id])
    && (forall id :: id in w'.networks && Under(w'.networks[id].labels, ctrl, inst) ==> id in w.networks && w.networks[id] == w'.networks[id])
    && (forall v :: v in w.volumes && Under(w.volumes[v], ctrl, inst) ==> v in w'.volumes && w'.volumes[v] == w.volumes[v])
    && (forall v :: v in w'.volumes && Under(w'.volumes[v], ctrl, inst) ==> v in w.volumes && w.volumes[v] == w'.volumes[v])
  }

  lemma RunnersSame(w: World, w': World, ctrl: string, inst: string, k: Clock, fin: Finishes)
    requires SameUnder(w, w', ctrl, inst)
    ensures ActiveRunner(w, ctrl, inst) ==> ActiveRunner(w', ctrl, inst)
    ensures forall t :: Finished(w, ctrl, inst, fin, t) ==> Finished(w', ctrl, inst, fin, t)
    ensures forall t :: CreatedOnce(w, ctrl, inst, k, t) ==> CreatedOnce(w', ctrl, inst, k, t)
    ensures AnyUnder(w, ctrl, inst) ==> AnyUnder(w', ctrl, inst)
  {
    forall id | IsRunner(w, ctrl, inst, id) ensures IsRunner(w', ctrl, inst, id) && w'.containers[id] == w.containers[id] { }
    if id :| IsRunner(w, ctrl, inst, id) && MayHoldJob(w.containers[id].state) { assert IsRunner(w', ctrl, inst, id); }
    forall t | Finished(w, ctrl, inst, fin, t) ensures Finished(w', ctrl, inst, fin, t) {
      var id :| IsRunner(w, ctrl, inst, id) && !MayHoldJob(w.containers[id].state) && fin(id) == Some(t);
      assert IsRunner(w', ctrl, inst, id);
    }
  }

  lemma SameVerdict(w: World, w': World, ctrl: string, inst: string, k: Clock, fin: Finishes)
    requires SameUnder(w, w', ctrl, inst)
    ensures Abandoned(w, ctrl, inst, k, fin) <==> Abandoned(w', ctrl, inst, k, fin)
  {
    hide ActiveRunner, Finished, CreatedOnce, AnyUnder;
    RunnersSame(w, w', ctrl, inst, k, fin);
    RunnersSame(w', w, ctrl, inst, k, fin);
  }

  /** A teardown of one instance leaves the allocation of every other as it was. */
  lemma OthersUntouched(w: World, w': World, ctrl: string, inst: string, other: string)
    requires Within(w, w', InstanceScope(ctrl, inst)) && inst != other
    ensures SameUnder(w, w', ctrl, other)
  {
    forall l | Under(l, ctrl, other) ensures !InScope(InstanceScope(ctrl, inst), l) {
      MatchesInstance(ctrl, inst, l);
      MatchesInstance(ctrl, other, l);
    }
  }

  lemma SameChain(a: World, b: World, c: World, ctrl: string, inst: string)
    requires SameUnder(a, b, ctrl, inst) && SameUnder(b, c, ctrl, inst)
    ensures SameUnder(a, c, ctrl, inst)
  {
  }

  /** sweepInstance: nothing happens unless the rule says abandoned and every call that the decision needs
      answered; without a fault and with nothing in the way, an abandoned allocation goes. */
  method SweepInstance(d: Daemon, ctrl: string, inst: string, k: Clock) returns (ok: bool, swept: bool)
    modifies d
    ensures Within(old(d.View()), d.View(), InstanceScope(ctrl, inst))
    ensures !Abandoned(old(d.View()), ctrl, inst, k, d.finish) ==> d.View() == old(d.View())
    ensures !FirstFine(old(d.faults), DecidingCalls(old(d.View()), ctrl, inst)) ==> !ok && !swept && d.View() == old(d.View())
    ensures FirstFine(old(d.faults), DecidingCalls(old(d.View()), ctrl, inst)) && !Abandoned(old(d.View()), ctrl, inst, k, d.finish) ==>
              ok && !swept
    ensures ok && inst != "" ==> (swept <==> Abandoned(old(d.View()), ctrl, inst, k, d.finish))
    ensures old(d.faults) == [] && inst != "" && LetGo(old(d.View()), ctrl, inst) ==> ok && d.faults == []
    ensures ok && inst != "" && swept ==> exists captured ::
              CapturedUnder(old(d.View()), ctrl, inst, captured) && d.View() == Purge(old(d.View()), GenerationScope(ctrl, inst, captured))
  {
    var abandoned;
    ok, abandoned := Decide(d, ctrl, inst, k);
    if !ok || !abandoned { return ok, false; }
    var errs;
    ghost var captured;
    swept, errs, captured := TeardownAllocation(d, ctrl, inst);
    ok := errs == [];
  }

  /** enumerateInstanceNames. */
  method EnumerateInstanceNames(d: Daemon, ctrl: string) returns (ok: bool, names: set<string>)
    modifies d`faults
    ensures ok ==> forall x :: x in names <==> x != "" && Named(d.View(), ctrl, x)
    ensures ok <==> FirstFine(old(d.faults), 3)
    ensures old(d.faults) == [] ==> d.faults == []
  {
    hide Named, FirstFine, Head, Rest;
    DecidingScript(d.faults, 0);
    NoCalls(Rest(Rest(Rest(d.faults))));
    var f := MatchPredicateFilters(ctrl);
    var cs, ns, vs;
    names := {};
    ok, cs := d.ContainerList(f);
    if !ok { return; }
    var c := NamesIn(cs, LabelsOfContainers(d.containers), ctrl);
    ok, ns := d.NetworkList(f);
    if !ok { return; }
    var n := NamesIn(ns, LabelsOfNetworks(d.networks), ctrl);
    ok, vs := d.VolumeList(f);
    if !ok { return; }
    var v := NamesIn(vs, d.volumes, ctrl);
    names := c + n + v;
    forall x ensures x in names <==> x != "" && Named(d.View(), ctrl, x) { NamedKinds(d.View(), ctrl, x, c, n, v); }
  }

  predicate OwnOf(l: Labels, ctrl: string, x: string) {
    MatchesPredicate(l, ctrl) && ControllerID in l && l[InstanceName] == x
  }

  ghost predicate Named(w: World, ctrl: string, x: string) {
    || (exists id :: id in w.containers && OwnOf(w.containers[id].labels, ctrl, x))
    || (exists id :: id in w.networks && OwnOf(w.networks[id].labels, ctrl, x))
    || (exists v :: v in w.volumes && OwnOf(w.volumes[v], ctrl, x))
  }

  lemma NamedKinds(w: World, ctrl: string, x: string, c: set<string>, n: set<string>, v: set<string>)
    requires forall y :: y in c <==> y != "" && exists k :: k in LabelsOfContainers(w.containers) && OwnOf(LabelsOfContainers(w.containers)[k], ctrl, y)
    requires forall y :: y in n <==> y != "" && exists k :: k in LabelsOfNetworks(w.networks) && OwnOf(LabelsOfNetworks(w.networks)[k], ctrl, y)
    requires forall y :: y in v <==> y != "" && exists k :: k in w.volumes && OwnOf(w.volumes[k], ctrl, y)
    ensures x in c + n + v <==> x != "" && Named(w, ctrl, x)
  {
    hide OwnOf;
    if id :| id in w.containers && OwnOf(w.containers[id].labels, ctrl, x) { assert id in LabelsOfContainers(w.containers); }
    if id :| id in w.networks && OwnOf(w.networks[id].labels, ctrl, x) { assert id in LabelsOfNetworks(w.networks); }
  }

  ghost predicate ListedName<K(!new)>(list: seq<Listed<K>>, n: nat, ctrl: string, x: string)
    requires n <= |list|
  {
    exists j :: 0 <= j < n && MatchesPredicate(list[j].labels, ctrl) && list[j].labels[InstanceName] == x
  }

  method NamesIn<K(!new)>(list: seq<Listed<K>>, ghost labelled: map<K, Labels>, ctrl: string)
    returns (names: set<string>)
    requires IsListing(list, labelled, MatchPredicateFilters(ctrl))
    ensures forall x :: x in names <==> x != "" && exists k :: k in labelled && OwnOf(labelled[k], ctrl, x)
  {
    names := {};
    for i := 0 to |list|
      invariant forall x :: x in names <==> x != "" && ListedName(list, i, ctrl, x)
    {
      if MatchesPredicate(list[i].labels, ctrl) && list[i].labels[InstanceName] != "" {
        names := names + {list[i].labels[InstanceName]};
      }
    }
    ListedOwn(list, labelled, ctrl);
  }

  lemma ListedOwn<K(!new)>(list: seq<Listed<K>>, labelled: map<K, Labels>, ctrl: string)
    requires IsListing(list, labelled, MatchPredicateFilters(ctrl))
    ensures forall x :: ListedName(list, |list|, ctrl, x) <==> exists k :: k in labelled && OwnOf(labelled[k], ctrl, x)
  {
    forall j | 0 <= j < |list| && MatchesPredicate(list[j].labels, ctrl) ensures list[j].key in labelled && OwnOf(labelled[list[j].key], ctrl, list[j].labels[InstanceName]) {
      MatchesController(ctrl, list[j].labels);
    }
    forall k, x | k in labelled && OwnOf(labelled[k], ctrl, x)
      ensures ListedName(list, |list|, ctrl, x)
    {
      MatchesController(ctrl, labelled[k]);
      assert Lists(list, k);
    }
  }

  /** The generation that held the name when the sweep came to it is gone, or all of it if none did. */
  ghost predicate Reaped(w0: World, w: World, ctrl: string, inst: string) {
    exists captured :: CapturedUnder(w0, ctrl, inst, captured) && !AnyInScope(w, GenerationScope(ctrl, inst, captured))
  }

  /** The sweep so far: names still to visit are untouched, and so are those not abandoned; without an error,
      the abandoned ones visited are reaped. */
  ghost predicate SweptSoFar(w0: World, w: World, ctrl: string, k: Clock, fin: Finishes, names: set<string>, todo: set<string>, clean: bool) {
    && (forall x :: x in todo || x !in names || !Abandoned(w0, ctrl, x, k, fin) ==> SameUnder(w0, w, ctrl, x))
    && (clean ==> forall x :: x in names && x !in todo && Abandoned(w0, ctrl, x, k, fin) ==> Reaped(w0, w, ctrl, x))
  }

  lemma SameScope(w: World, w': World, ctrl: string, inst: string, captured: map<string, string>)
    requires SameUnder(w, w', ctrl, inst)
    ensures AnyInScope(w', GenerationScope(ctrl, inst, captured)) ==> AnyInScope(w, GenerationScope(ctrl, inst, captured))
  {
    forall l ensures InScope(GenerationScope(ctrl, inst, captured), l) ==> Under(l, ctrl, inst) { GenerationReach(w, ctrl, inst, captured, l); }
  }

  lemma SameCapture(w: World, w': World, ctrl: string, inst: string, captured: map<string, string>)
    requires SameUnder(w, w', ctrl, inst) && CapturedUnder(w', ctrl, inst, captured)
    ensures CapturedUnder(w, ctrl, inst, captured)
  {
    var f := InstanceScopedFilter(ctrl, inst);
    forall x | x in captured ensures HeldBy(w, ctrl, f, x, captured[x]) {
      assert HeldBy(w', ctrl, f, x, captured[x]);
      var id :| id in w'.networks && Holds(w'.networks[id].labels, ctrl, f, x, captured[x]);
      assert Holds(w.networks[id].labels, ctrl, f, x, captured[x]);
    }
  }

  lemma PurgedIsReaped(w0: World, w: World, ctrl: string, inst: string, captured: map<string, string>)
    requires SameUnder(w0, w, ctrl, inst) && CapturedUnder(w, ctrl, inst, captured)
    ensures Reaped(w0, Purge(w, GenerationScope(ctrl, inst, captured)), ctrl, inst)
  {
    SameCapture(w0, w, ctrl, inst, captured);
    assert !AnyInScope(Purge(w, GenerationScope(ctrl, inst, captured)), GenerationScope(ctrl, inst, captured));
  }

  lemma SweepStep(w0: World, w: World, w': World, ctrl: string, k: Clock, fin: Finishes, names: set<string>, todo: set<string>,
                  x: string, clean: bool, ok: bool)
    requires SweptSoFar(w0, w, ctrl, k, fin, names, todo, clean) && x in todo && todo <= names && "" !in names
    requires Within(w, w', InstanceScope(ctrl, x))
    requires !Abandoned(w, ctrl, x, k, fin) ==> w' == w
    requires ok && Abandoned(w, ctrl, x, k, fin) ==> exists captured :: CapturedUnder(w, ctrl, x, captured) && w' == Purge(w, GenerationScope(ctrl, x, captured))
    ensures SweptSoFar(w0, w', ctrl, k, fin, names, todo - {x}, clean && ok)
  {
    hide Abandoned, SameUnder, AnyInScope;
    SameVerdict(w0, w, ctrl, x, k, fin);
    forall y | y in todo - {x} || y !in names || !Abandoned(w0, ctrl, y, k, fin) ensures SameUnder(w0, w', ctrl, y) {
      if y != x {
        OthersUntouched(w, w', ctrl, x, y);
        SameChain(w0, w, w', ctrl, y);
      }
    }
    forall y | clean && ok && y in names && y !in todo - {x} && Abandoned(w0, ctrl, y, k, fin) ensures Reaped(w0, w', ctrl, y) {
      if y == x {
        var captured :| CapturedUnder(w, ctrl, x, captured) && w' == Purge(w, GenerationScope(ctrl, x, captured));
        PurgedIsReaped(w0, w, ctrl, x, captured);
      } else {
        var captured :| CapturedUnder(w0, ctrl, y, captured) && !AnyInScope(w, GenerationScope(ctrl, y, captured));
        OthersUntouched(w, w', ctrl, x, y);
        SameScope(w, w', ctrl, y, captured);
      }
    }
  }

  /** Resources only went or stopped. */
  ghost predicate Fewer(w: World, w': World) {
    && (forall id :: id in w'.containers ==> id in w.containers && w'.containers[id] == w.containers[id].(state := w'.containers[id].state))
    && (forall id :: id in w'.networks ==> id in w.networks && w'.networks[id] == w.networks[id])
    && (forall v :: v in w'.volumes ==> v in w.volumes && w'.volumes[v] == w.volumes[v])
  }

  lemma FewerSteps(w0: World, w: World, w': World, sc: Scope)
    requires Fewer(w0, w) && Within(w, w', sc)
    ensures Fewer(w0, w')
  {
  }

  lemma StillLetsGo(w: World, w': World, ctrl: string, inst: string)
    requires LetGo(w, ctrl, inst) && Fewer(w, w') && SameUnder(w, w', ctrl, inst)
    ensures LetGo(w', ctrl, inst)
  {
    hide CapturedUnder, SameUnder, InScope;
    forall captured | CapturedUnder(w', ctrl, inst, captured) ensures SelfContained(w', GenerationScope(ctrl, inst, captured)) {
      SameCapture(w, w', ctrl, inst, captured);
    }
  }

  lemma FewerItself(w: World)
    ensures Fewer(w, w)
  {
  }

  lemma ToVisit(w0: World, w: World, ctrl: string, k: Clock, fin: Finishes, names: set<string>, todo: set<string>, clean: bool, x: string)
    requires SweptSoFar(w0, w, ctrl, k, fin, names, todo, clean) && x in todo
    ensures SameUnder(w0, w, ctrl, x)
  {
  }

  lemma SweepBegins(w: World, ctrl: string, k: Clock, fin: Finishes, names: set<string>, clean: bool)
    ensures SweptSoFar(w, w, ctrl, k, fin, names, names, clean)
  {
  }

  lemma AbandonedIsNamed(w: World, ctrl: string, inst: string, k: Clock, fin: Finishes)
    requires Abandoned(w, ctrl, inst, k, fin)
    ensures Named(w, ctrl, inst)
  {
    forall l | Under(l, ctrl, inst) ensures OwnOf(l, ctrl, inst) { MatchesInstance(ctrl, inst, l); }
  }

  /** SweepOrphans visits the names in any order and goes on after a failure. Whatever fails, the allocations
      that were not abandoned when it began are as they were, live ones among them; without a failure every
      abandoned one lost the generation that held its name. */
  method SweepOrphans(d: Daemon, ctrl: string, k: Clock) returns (ok: bool)
    modifies d
    ensures forall x :: x == "" || !Abandoned(old(d.View()), ctrl, x, k, d.finish) ==> SameUnder(old(d.View()), d.View(), ctrl, x)
    ensures ok ==> forall x :: x != "" && Abandoned(old(d.View()), ctrl, x, k, d.finish) ==> Reaped(old(d.View()), d.View(), ctrl, x)
    ensures old(d.faults) == [] && (forall x :: LetGo(old(d.View()), ctrl, x)) ==> ok
  {
    hide Abandoned, SameUnder, Reaped, SweptSoFar, Named, LetGo, Fewer;
    ghost var calm := d.faults == [] && forall x :: LetGo(d.View(), ctrl, x);
    ghost var w0 := d.View();
    var names;
    ok, names := EnumerateInstanceNames(d, ctrl);
    if !ok {
      SweepBegins(w0, ctrl, k, d.finish, {}, false);
      SweepEnds(w0, d.View(), ctrl, k, d.finish, {}, false);
      return;
    }
    SweepBegins(w0, ctrl, k, d.finish, names, true);
    FewerItself(w0);
    var todo := names;
    while todo != {}
      invariant todo <= names && SweptSoFar(w0, d.View(), ctrl, k, d.finish, names, todo, ok)
      invariant Fewer(w0, d.View()) && (calm ==> ok && d.faults == [])
      decreases todo
    {
      var x :| x in todo;
      ghost var w := d.View();
      ToVisit(w0, w, ctrl, k, d.finish, names, todo, ok, x);
      if calm { StillLetsGo(w0, w, ctrl, x); }
      var fine, swept := SweepInstance(d, ctrl, x, k);
      FewerSteps(w0, w, d.View(), InstanceScope(ctrl, x));
      SweepStep(w0, w, d.View(), ctrl, k, d.finish, names, todo, x, ok, fine);
      todo, ok := todo - {x}, ok && fine;
    }
    SweepEnds(w0, d.View(), ctrl, k, d.finish, names, ok);
  }

  lemma SweepEnds(w0: World, w: World, ctrl: string, k: Clock, fin: Finishes, names: set<string>, ok: bool)
    requires SweptSoFar(w0, w, ctrl, k, fin, names, {}, ok) && "" !in names
    requires ok ==> forall x :: x != "" && Named(w0, ctrl, x) ==> x in names
    ensures forall x :: x == "" || !Abandoned(w0, ctrl, x, k, fin) ==> SameUnder(w0, w, ctrl, x)
    ensures ok ==> forall x :: x != "" && Abandoned(w0, ctrl, x, k, fin) ==> Reaped(w0, w, ctrl, x)
  {
    hide Abandoned, SameUnder, Reaped, Named;
    forall x | ok && x != "" && Abandoned(w0, ctrl, x, k, fin) ensures x in names { AbandonedIsNamed(w0, ctrl, x, k, fin); }
  }
}
