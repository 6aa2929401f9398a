/** The gate every teardown removal passes through (internal/topology/teardown.go:215-323). */
module TeardownScope {
  import opened LabelSpec
  import opened Docker

  datatype Option<T> = None | Some(value: T)

  /** Exact: a rollback, one nonce. Captured: the generation each claim network held at teardown
      start. Everything: the RemoveAllInstances rescue. */
  datatype Mode =
    | Exact(nonce: string)
    | Captured(captured: map<string, string>)
    | Everything

  /** A network that is the claim marker of an instance of this controller. */
  predicate IsClaim(l: Labels, ctrl: string, inst: string) {
    Matches(ClaimFilter(ctrl, inst), l) && MatchesPredicate(l, ctrl)
  }

  /** What a read of the live claim may answer: the nonce of some claim network, or none if there is none. */
  predicate LiveRead(w: World, ctrl: string, inst: string, live: Option<string>) {
    match live
    case None => forall id :: id in w.networks ==> !IsClaim(w.networks[id].labels, ctrl, inst)
    case Some(n) => exists id :: id in w.networks && ClaimsWith(w.networks[id].labels, ctrl, inst, n)
  }

  predicate ClaimsWith(l: Labels, ctrl: string, inst: string, nonce: string) {
    IsClaim(l, ctrl, inst) && Get(l, CreateNonce) == nonce
  }

  /** mayRemove, given the labels in hand and what the live claim read answered. */
  predicate MayRemove(mode: Mode, ctrl: string, l: Labels, live: Option<string>) {
    MatchesPredicate(l, ctrl) &&
    match mode
    case Exact(n) => Get(l, CreateNonce) == n
    case Everything => true
    case Captured(captured) =>
      if l[InstanceName] in captured then Get(l, CreateNonce) == captured[l[InstanceName]]
      else !(live.Some? && live.value != "" && Get(l, CreateNonce) == live.value)
  }

  /** What claimNoncesByInstance may return for filter f: each claim network's instance, mapped to the
      nonce of one of its claim networks. */
  predicate CapturedFrom(w: World, ctrl: string, f: Filter, captured: map<string, string>) {
    && (forall id :: id in w.networks && CaptureMatches(w.networks[id].labels, ctrl, f)
          ==> w.networks[id].labels[InstanceName] in captured)
    && (forall inst :: inst in captured ==> HeldBy(w, ctrl, f, inst, captured[inst]))
  }

  predicate HeldBy(w: World, ctrl: string, f: Filter, inst: string, nonce: string) {
    exists id :: id in w.networks && Holds(w.networks[id].labels, ctrl, f, inst, nonce)
  }

  predicate Holds(l: Labels, ctrl: string, f: Filter, inst: string, nonce: string) {
    CaptureMatches(l, ctrl, f) && l[InstanceName] == inst && Get(l, CreateNonce) == nonce
  }

  predicate CaptureMatches(l: Labels, ctrl: string, f: Filter) {
    Matches(f, l) && MatchesPredicate(l, ctrl) && Get(l, Resource) == ResourceJobNetwork && l[InstanceName] != ""
  }
}
