/** The daemon as an object a single client calls, after the in-memory fake (internal/docker/fake.go).
    A script of faults makes any call fail before its effect, or after it. */
module DaemonCalls {
  import opened LabelSpec
  import opened Docker
  import opened TeardownScope

  /** What happens to one call: it works, it is refused without effect, or it takes effect and still reports an
      error. The error may be the one that names the IPv6 sysctl. */
  datatype Fault = Fine | Reject(ipv6: bool) | Ambiguous(ipv6: bool)

  /** The fault the next call meets, and the script after it. */
  function Head(script: seq<Fault>): Fault {
    if script == [] then Fine else script[0]
  }

  function Rest(script: seq<Fault>): seq<Fault> {
    if script == [] then [] else script[1..]
  }

  /** The script after n calls. */
  function Drop(s: seq<Fault>, n: nat): seq<Fault> {
    if n <= |s| then s[n..] else []
  }

  /** The first n calls meet no fault. */
  predicate FirstFine(s: seq<Fault>, n: nat) {
    forall i :: 0 <= i < n && i < |s| ==> s[i] == Fine
  }

  lemma DropNext(s: seq<Fault>, n: nat)
    ensures Rest(Drop(s, n)) == Drop(s, n + 1) && Head(Drop(s, n)) == (if n < |s| then s[n] else Fine)
  {
  }

  /** One call is the head of the script, and n calls and then m calls are n + m calls. */
  lemma CallsAdd(s: seq<Fault>, n: nat, m: nat)
    ensures Drop(s, 0) == s && Rest(s) == Drop(s, 1) && (FirstFine(s, 1) <==> Head(s) == Fine)
    ensures Drop(Drop(s, n), m) == Drop(s, n + m)
    ensures FirstFine(s, n + m) <==> FirstFine(s, n) && FirstFine(Drop(s, n), m)
  {
    if FirstFine(s, n) && FirstFine(Drop(s, n), m) {
      forall i | 0 <= i < n + m && i < |s| ensures s[i] == Fine {
        if n <= i { assert s[i] == Drop(s, n)[i - n]; }
      }
    }
  }

  /** No call but the last of the script meets a fault. */
  predicate OnlyLast(s: seq<Fault>) {
    forall i :: 0 <= i < |s| - 1 ==> s[i] == Fine
  }

  /** So the script ends with the call that meets one. */
  lemma LastCall(s: seq<Fault>, n: nat)
    requires OnlyLast(s)
    ensures OnlyLast(Rest(s)) && OnlyLast(Drop(s, n)) && OnlyLast([])
    ensures Head(s) != Fine ==> Rest(s) == []
    ensures !FirstFine(s, n) ==> Drop(s, n) == []
  {
  }

  lemma NoCalls(s: seq<Fault>)
    ensures FirstFine(s, 0)
  {
  }

  /** The call after n fine ones, of m in all. */
  lemma OneMoreCall(s: seq<Fault>, n: nat, m: nat)
    requires FirstFine(s, n) && n < m
    ensures Rest(Drop(s, n)) == Drop(s, n + 1)
    ensures if Head(Drop(s, n)) == Fine then FirstFine(s, n + 1) else !FirstFine(s, m)
  {
  }

  datatype Outcome = Ok | NotFound | Conflict | Failed(ipv6: bool)

  /** One entry of a list response. */
  datatype Listed<K> = Listed(key: K, labels: Labels)

  /** One entry of the daemon's removal record; of a container, whether it had been asked to stop. */
  datatype Removal = ContainerGone(labels: Labels, asked: bool) | VolumeGone(labels: Labels) | NetworkGone(labels: Labels)

  function LabelsOfContainers(conts: map<nat, Container>): map<nat, Labels> {
    map id | id in conts :: conts[id].labels
  }

  function LabelsOfNetworks(nets: map<nat, Network>): map<nat, Labels> {
    map id | id in nets :: nets[id].labels
  }

  /** A list response names, once each and in any order, exactly the resources the filter matches. */
  ghost predicate IsListing<K(!new)>(list: seq<Listed<K>>, labelled: map<K, Labels>, f: Filter) {
    && (forall i, j :: 0 <= i < j < |list| ==> list[i].key != list[j].key)
    && (forall i :: 0 <= i < |list| ==>
          list[i].key in labelled && list[i].labels == labelled[list[i].key] && Matches(f, list[i].labels))
    && (forall k :: k in labelled && Matches(f, labelled[k]) ==> Lists(list, k))
  }

  ghost predicate Lists<K(!new)>(list: seq<Listed<K>>, k: K) {
    exists i :: 0 <= i < |list| && list[i].key == k
  }

  lemma ListedIf<K(!new)>(list: seq<Listed<K>>, labelled: map<K, Labels>, f: Filter, k: K)
    requires IsListing(list, labelled, f) && k in labelled
    ensures Matches(f, labelled[k]) ==> Lists(list, k)
  {
  }

  lemma ListsMore<K(!new)>(list: seq<Listed<K>>, x: Listed<K>, k: K)
    ensures Lists(list, k) || k == x.key ==> Lists(list + [x], k)
  {
    if k == x.key { assert (list + [x])[|list|].key == k; }
    if Lists(list, k) {
      var i :| 0 <= i < |list| && list[i].key == k;
      assert (list + [x])[i].key == k;
    }
  }

  method ListOf<K(==, !new)>(labelled: map<K, Labels>, f: Filter) returns (list: seq<Listed<K>>)
    ensures IsListing(list, labelled, f)
  {
    list := [];
    var todo := labelled.Keys;
    while todo != {}
      invariant todo <= labelled.Keys
      invariant forall i, j :: 0 <= i < j < |list| ==> list[i].key != list[j].key
      invariant forall i :: 0 <= i < |list| ==>
                  (list[i].key in labelled && list[i].key !in todo && list[i].labels == labelled[list[i].key] && Matches(f, list[i].labels))
      invariant forall k :: k in labelled && k !in todo && Matches(f, labelled[k]) ==> Lists(list, k)
      decreases todo
    {
      var k :| k in todo;
      todo := todo - {k};
      if Matches(f, labelled[k]) {
        ghost var before := list;
        list := list + [Listed(k, labelled[k])];
        forall x | x in labelled && x !in todo && Matches(f, labelled[x]) ensures Lists(list, x) {
          ListsMore(before, Listed(k, labelled[k]), x);
        }
      }
    }
  }

  class Daemon {
    var containers: map<nat, Container>
    var networks: map<nat, Network>
    var volumes: map<string, Labels>
    var nextId: nat
    var faults: seq<Fault>
    var removed: seq<Removal>
    // The containers a client has asked to stop, and those that were handed their credentials.
    var stopAsked: set<nat>
    var delivered: set<nat>
    // When each container last finished, if it did and the time is readable.
    const finish: nat -> Option<int>

    constructor (w: World, script: seq<Fault>, finish: nat -> Option<int>)
      ensures View() == w && faults == script && removed == [] && stopAsked == {} && delivered == {} && this.finish == finish
    {
      containers, networks, volumes, nextId, faults, removed := w.containers, w.networks, w.volumes, w.nextId, script, [];
      stopAsked, delivered := {}, {};
      this.finish := finish;
    }

    function View(): World
      reads this
    {
      World(containers, networks, volumes, nextId)
    }

    method NextFault() returns (x: Fault)
      modifies this`faults
      ensures x == Head(old(faults)) && faults == Rest(old(faults))
    {
      if faults == [] {
        x := Fine;
      } else {
        x, faults := faults[0], faults[1..];
      }
    }

    /** Any call that changes nothing modelled here: an image pull, an exec, a wait. */
    method OtherCall() returns (ok: bool)
      modifies this`faults
      ensures faults == Rest(old(faults)) && (ok <==> Head(old(faults)) == Fine)
    {
      var x := NextFault();
      ok := x == Fine;
    }

    // ---------------------------------------------------------------- lists

    method ContainerList(f: Filter) returns (ok: bool, list: seq<Listed<nat>>)
      modifies this`faults
      ensures faults == Rest(old(faults)) && (ok <==> Head(old(faults)) == Fine)
      ensures ok ==> IsListing(list, LabelsOfContainers(containers), f)
    {
      var x := NextFault();
      list := ListOf(LabelsOfContainers(containers), f);
      ok := x == Fine;
    }

    method NetworkList(f: Filter) returns (ok: bool, list: seq<Listed<nat>>)
      modifies this`faults
      ensures faults == Rest(old(faults)) && (ok <==> Head(old(faults)) == Fine)
      ensures ok ==> IsListing(list, LabelsOfNetworks(networks), f)
    {
      var x := NextFault();
      list := ListOf(LabelsOfNetworks(networks), f);
      ok := x == Fine;
    }

    method VolumeList(f: Filter) returns (ok: bool, list: seq<Listed<string>>)
      modifies this`faults
      ensures faults == Rest(old(faults)) && (ok <==> Head(old(faults)) == Fine)
      ensures ok ==> IsListing(list, volumes, f)
    {
      var x := NextFault();
      list := ListOf(volumes, f);
      ok := x == Fine;
    }

    method VolumeInspect(name: string) returns (o: Outcome, l: Labels)
      modifies this`faults
      ensures faults == Rest(old(faults)) && (o.Failed? <==> Head(old(faults)) != Fine)
      ensures o.Ok? ==> name in volumes && l == volumes[name]
      ensures o.NotFound? ==> name !in volumes
      ensures !o.Conflict?
    {
      var x := NextFault();
      l := map[];
      if x != Fine { return Failed(x.ipv6), l; }
      if name !in volumes { return NotFound, l; }
      o, l := Ok, volumes[name];
    }

    method ContainerInspect(id: nat) returns (o: Outcome, l: Labels, st: RunState, finished: Option<int>)
      modifies this`faults
      ensures faults == Rest(old(faults)) && (o.Failed? <==> Head(old(faults)) != Fine)
      ensures o.Ok? ==> id in containers && l == containers[id].labels && st == containers[id].state && finished == finish(id)
      ensures o.NotFound? ==> id !in containers
      ensures !o.Conflict?
    {
      var x := NextFault();
      l, st, finished := map[], Created, None;
      if x != Fine { return Failed(x.ipv6), l, st, finished; }
      if id !in containers { return NotFound, l, st, finished; }
      o, l, st, finished := Ok, containers[id].labels, containers[id].state, finish(id);
    }

    // ---------------------------------------------------------------- creates

    method NetworkCreate(name: string, labels: Labels) returns (o: Outcome, id: nat)
      modifies this`faults, this`networks, this`nextId
      ensures faults == Rest(old(faults)) && !o.NotFound?
      ensures o.Conflict? <==> !Head(old(faults)).Reject? && old(NetworkNameTaken(View(), name))
      ensures o.Ok? <==> Head(old(faults)) == Fine && !old(NetworkNameTaken(View(), name))
      ensures o.Ok? ==> id == old(nextId)
      ensures View() == if Head(old(faults)).Reject? || old(NetworkNameTaken(View(), name)) then old(View())
                        else old(AddNetwork(View(), name, labels))
    {
      var x := NextFault();
      id := nextId;
      if x.Reject? { return Failed(x.ipv6), id; }
      if exists n :: n in networks && networks[n].name == name { return Conflict, id; }
      networks, nextId := networks[id := Network(name, labels)], nextId + 1;
      o := if x.Ambiguous? then Failed(x.ipv6) else Ok;
    }

    method VolumeCreate(name: string, labels: Labels) returns (o: Outcome, l: Labels)
      modifies this`faults, this`volumes
      ensures faults == Rest(old(faults)) && (o.Ok? || o.Failed?)
      ensures o.Ok? <==> Head(old(faults)) == Fine
      ensures o.Ok? ==> name in volumes && l == volumes[name]
      ensures View() == if Head(old(faults)).Reject? then old(View()) else old(AddVolume(View(), name, labels))
    {
      var x := NextFault();
      l := map[];
      if x.Reject? { return Failed(x.ipv6), l; }
      if name !in volumes { volumes := volumes[name := labels]; }
      if x.Ambiguous? { return Failed(x.ipv6), l; }
      o, l := Ok, volumes[name];
    }

    method ContainerCreate(name: string, labels: Labels, mounts: set<string>, net: NetMode)
      returns (o: Outcome, id: nat)
      modifies this`faults, this`containers, this`volumes, this`nextId
      ensures faults == Rest(old(faults)) && !o.NotFound?
      ensures o.Conflict? <==> !Head(old(faults)).Reject? && old(ContainerNameTaken(View(), name))
      ensures o.Ok? <==> Head(old(faults)) == Fine && !old(ContainerNameTaken(View(), name))
      ensures o.Ok? ==> id == old(nextId)
      ensures o.Failed? ==> o.ipv6 == Head(old(faults)).ipv6
      ensures View() == if Head(old(faults)).Reject? || old(ContainerNameTaken(View(), name)) then old(View())
                        else old(AddContainer(View(), name, labels, mounts, net))
    {
      var x := NextFault();
      id := nextId;
      if x.Reject? { return Failed(x.ipv6), id; }
      if exists n :: n in containers && containers[n].name == name { return Conflict, id; }
      var w := AddContainer(View(), name, labels, mounts, net);
      containers, volumes, nextId := w.containers, w.volumes, w.nextId;
      o := if x.Ambiguous? then Failed(x.ipv6) else Ok;
    }

    // ---------------------------------------------------------------- run state

    method ContainerStart(id: nat) returns (o: Outcome)
      modifies this`faults, this`containers
      ensures faults == Rest(old(faults)) && (o.Ok? || o.Failed?)
      ensures o.Ok? <==> Head(old(faults)) == Fine && old(CanStart(View(), id))
      ensures o.Failed? && Head(old(faults)) != Fine && old(CanStart(View(), id)) ==> o.ipv6 == Head(old(faults)).ipv6
      ensures o == Failed(true) ==> Head(old(faults)) != Fine && Head(old(faults)).ipv6
      ensures View() == if Head(old(faults)).Reject? || !old(CanStart(View(), id)) then old(View())
                        else old(SetState(View(), id, Running))
    {
      var x := NextFault();
      if x.Reject? || !CanStart(View(), id) { return Failed(x.Reject? && x.ipv6); }
      containers := containers[id := containers[id].(state := Running)];
      o := if x.Ambiguous? then Failed(x.ipv6) else Ok;
    }

    /** The credential exec: it runs in a running container only. */
    method Deliver(id: nat) returns (ok: bool)
      modifies this`faults, this`delivered
      ensures faults == Rest(old(faults))
      ensures ok <==> Head(old(faults)) == Fine && id in containers && containers[id].state == Running
      ensures delivered == if !Head(old(faults)).Reject? && id in containers && containers[id].state == Running
                           then old(delivered) + {id} else old(delivered)
    {
      var x := NextFault();
      if x.Reject? || id !in containers || containers[id].state != Running { return false; }
      delivered := delivered + {id};
      ok := x == Fine;
    }

    /** The outcome of a stop is never looked at. */
    method ContainerStop(id: nat)
      modifies this`faults, this`containers, this`stopAsked
      ensures faults == Rest(old(faults)) && stopAsked == old(stopAsked) + {id}
      ensures View() == if Head(old(faults)).Reject? || id !in old(containers) then old(View()) else old(SetState(View(), id, Exited))
    {
      var x := NextFault();
      stopAsked := stopAsked + {id};
      if !x.Reject? && id in containers {
        containers := containers[id := containers[id].(state := Exited)];
      }
    }

    // ---------------------------------------------------------------- removals

    method ContainerRemove(id: nat) returns (o: Outcome)
      modifies this`faults, this`containers, this`removed
      ensures faults == Rest(old(faults)) && !o.Conflict?
      ensures o.NotFound? <==> !Head(old(faults)).Reject? && id !in old(containers)
      ensures o.Ok? <==> Head(old(faults)) == Fine && id in old(containers)
      ensures View() == if Head(old(faults)).Reject? then old(View()) else old(DropContainer(View(), id))
      ensures removed == if Head(old(faults)).Reject? || id !in old(containers) then old(removed)
                         else old(removed) + [ContainerGone(old(containers[id].labels), id in stopAsked)]
    {
      var x := NextFault();
      if x.Reject? { return Failed(x.ipv6); }
      if id !in containers { return NotFound; }
      removed := removed + [ContainerGone(containers[id].labels, id in stopAsked)];
      containers := containers - {id};
      o := if x.Ambiguous? then Failed(x.ipv6) else Ok;
    }

    method NetworkRemove(id: nat) returns (o: Outcome)
      modifies this`faults, this`networks, this`removed
      ensures faults == Rest(old(faults))
      ensures o.NotFound? <==> !Head(old(faults)).Reject? && id !in old(networks)
      ensures o.Conflict? <==> !Head(old(faults)).Reject? && id in old(networks) && old(NetworkInUse(View(), networks[id].name))
      ensures o.Ok? <==> Head(old(faults)) == Fine && id in old(networks) && !old(NetworkInUse(View(), networks[id].name))
      ensures View() == if Head(old(faults)).Reject? || id !in old(networks) || old(NetworkInUse(View(), networks[id].name))
                        then old(View()) else old(DropNetwork(View(), id))
      ensures removed == if Head(old(faults)).Reject? || id !in old(networks) || old(NetworkInUse(View(), networks[id].name))
                         then old(removed) else old(removed) + [NetworkGone(old(networks[id].labels))]
    {
      var x := NextFault();
      if x.Reject? { return Failed(x.ipv6); }
      if id !in networks { return NotFound; }
      if exists c :: c in containers && containers[c].net == OnNetwork(networks[id].name) { return Conflict; }
      removed := removed + [NetworkGone(networks[id].labels)];
      networks := networks - {id};
      o := if x.Ambiguous? then Failed(x.ipv6) else Ok;
    }

    method VolumeRemove(name: string) returns (o: Outcome)
      modifies this`faults, this`volumes, this`removed
      ensures faults == Rest(old(faults))
      ensures o.NotFound? <==> !Head(old(faults)).Reject? && name !in old(volumes)
      ensures o.Conflict? <==> !Head(old(faults)).Reject? && name in old(volumes) && old(VolumeInUse(View(), name))
      ensures o.Ok? <==> Head(old(faults)) == Fine && name in old(volumes) && !old(VolumeInUse(View(), name))
      ensures View() == if Head(old(faults)).Reject? || old(VolumeInUse(View(), name)) then old(View())
                        else old(DropVolume(View(), name))
      ensures removed == if Head(old(faults)).Reject? || name !in old(volumes) || old(VolumeInUse(View(), name))
                         then old(removed) else old(removed) + [VolumeGone(old(volumes[name]))]
    {
      var x := NextFault();
      if x.Reject? { return Failed(x.ipv6); }
      if name !in volumes { return NotFound; }
      if exists c :: c in containers && name in containers[c].mounts { return Conflict; }
      removed := removed + [VolumeGone(volumes[name])];
      volumes := volumes - {name};
      o := if x.Ambiguous? then Failed(x.ipv6) else Ok;
    }
  }
}
