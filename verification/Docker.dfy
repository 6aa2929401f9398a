/** The Docker daemon's state and the rules its calls obey (internal/docker/client.go:93-123,
    internal/docker/fake.go). */
module Docker {
  import opened LabelSpec

  datatype RunState = Created | Running | Paused | Restarting | Exited

  /** The daemon still holds such a container as live. */
  predicate IsActive(st: RunState) {
    st.Running? || st.Paused? || st.Restarting?
  }

  /** A container's network mode: none, a user-defined network by name, or another container's namespace. */
  datatype NetMode = Detached | OnNetwork(name: string) | InNetns(owner: nat)

  datatype Container = Container(name: string, labels: Labels, mounts: set<string>, net: NetMode, state: RunState)

  datatype Network = Network(name: string, labels: Labels)

  datatype World = World(
    containers: map<nat, Container>,
    networks: map<nat, Network>,
    volumes: map<string, Labels>,
    nextId: nat)

  predicate ContainerNameTaken(w: World, name: string) {
    exists id :: id in w.containers && w.containers[id].name == name
  }

  predicate NetworkNameTaken(w: World, name: string) {
    exists id :: id in w.networks && w.networks[id].name == name
  }

  /** A volume any container references, even a stopped one, cannot be removed. */
  predicate VolumeInUse(w: World, name: string) {
    exists id :: id in w.containers && name in w.containers[id].mounts
  }

  /** A network any container is attached to cannot be removed. */
  predicate NetworkInUse(w: World, name: string) {
    exists id :: id in w.containers && w.containers[id].net == OnNetwork(name)
  }

  function AddNetwork(w: World, name: string, labels: Labels): World {
    w.(networks := w.networks[w.nextId := Network(name, labels)], nextId := w.nextId + 1)
  }

  function DropNetwork(w: World, id: nat): World {
    w.(networks := w.networks - {id})
  }

  /** VolumeCreate is idempotent: an existing volume keeps its labels. */
  function AddVolume(w: World, name: string, labels: Labels): World {
    if name in w.volumes then w else w.(volumes := w.volumes[name := labels])
  }

  function DropVolume(w: World, name: string): World {
    w.(volumes := w.volumes - {name})
  }

  /** The missing named volumes a container create brings into being, unlabelled. */
  function AutoCreated(w: World, mounts: set<string>): map<string, Labels> {
    map v | v in mounts && v !in w.volumes :: map[]
  }

  function AddContainer(w: World, name: string, labels: Labels, mounts: set<string>, net: NetMode): World {
    w.(containers := w.containers[w.nextId := Container(name, labels, mounts, net, Created)],
       volumes := w.volumes + AutoCreated(w, mounts),
       nextId := w.nextId + 1)
  }

  function DropContainer(w: World, id: nat): World {
    w.(containers := w.containers - {id})
  }

  function SetState(w: World, id: nat, st: RunState): World
    requires id in w.containers
  {
    w.(containers := w.containers[id := w.containers[id].(state := st)])
  }

  /** A start fails when a network, volume or joined namespace the container needs is gone. */
  predicate CanStart(w: World, id: nat) {
    && id in w.containers
    && (match w.containers[id].net
        case Detached => true
        case OnNetwork(n) => NetworkNameTaken(w, n)
        case InNetns(o) => o in w.containers && w.containers[o].state == Running)
    && w.containers[id].mounts <= w.volumes.Keys
  }

  /** Identifiers are below the counter, and container and network names are unique. */
  ghost predicate WellFormed(w: World) {
    && (forall id :: id in w.containers ==> id < w.nextId)
    && (forall id :: id in w.networks ==> id < w.nextId)
    && (forall i, j :: i in w.containers && j in w.containers && w.containers[i].name == w.containers[j].name ==> i == j)
    && (forall i, j :: i in w.networks && j in w.networks && w.networks[i].name == w.networks[j].name ==> i == j)
  }

  lemma AddNetworkWellFormed(w: World, name: string, l: Labels)
    requires WellFormed(w) && !NetworkNameTaken(w, name)
    ensures WellFormed(AddNetwork(w, name, l))
  {
  }

  lemma AddContainerWellFormed(w: World, name: string, l: Labels, mounts: set<string>, net: NetMode)
    requires WellFormed(w) && !ContainerNameTaken(w, name)
    ensures WellFormed(AddContainer(w, name, l, mounts, net))
  {
  }

  lemma SetStateWellFormed(w: World, id: nat, st: RunState)
    requires WellFormed(w) && id in w.containers
    ensures WellFormed(SetState(w, id, st))
  {
  }
}
