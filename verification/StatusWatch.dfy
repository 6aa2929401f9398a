/** The detached status watcher: when a runner may be reported idle (internal/provider/status_watch.go,
    internal/provider/status_report.go). Daemon answers and clock readings are inputs. */
module StatusWatch {
  import opened TeardownScope

  const Second: int := 1_000_000_000

  const ListenerSettle: int := 5_000_000_000

  /** One process-list poll: what it saw, the time noted if the listener was first seen, the later time its age
      is taken at, and whether the context ended before the next poll. */
  datatype Seen = Listener | NoListener | ContainerStopped
  datatype Poll = Poll(seen: Seen, noted: int, aged: int, expired: bool)

  datatype Wait = Ready | RunnerStopped | Expired

  // ---------------------------------------------------------------- the settle window

  /** Polls m to n all saw the listener, and the poll before m did not. */
  predicate Window(polls: seq<Poll>, m: nat, n: nat) {
    && m <= n < |polls|
    && (forall j :: m <= j <= n ==> polls[j].seen.Listener?)
    && (m == 0 || !polls[m - 1].seen.Listener?)
  }

  /** The listener was there at every poll of a trailing window at least five seconds long. */
  ghost predicate Settled(polls: seq<Poll>, n: nat) {
    exists m: nat :: Window(polls, m, n) && polls[n].aged - polls[m].noted >= 5 * Second
  }

  /** Poll n decides nothing: the container runs, the listener has not settled, and the context goes on. */
  ghost predicate Undecided(polls: seq<Poll>, n: nat)
    requires n < |polls|
  {
    !polls[n].seen.ContainerStopped? && !Settled(polls, n) && !polls[n].expired
  }

  /** The listener settles at poll n, and nothing is decided before. */
  ghost predicate SettlesFirst(polls: seq<Poll>, n: nat)
    requires n < |polls|
  {
    Settled(polls, n) && forall j :: 0 <= j < n ==> Undecided(polls, j)
  }

  /** Within a window the poll before any later index saw the listener. */
  lemma WindowLeft(polls: seq<Poll>, m: nat, k: nat, n: nat)
    requires Window(polls, m, n) && k <= n
    ensures m < k ==> polls[k - 1].seen.Listener?
  {
  }

  lemma WindowUnique(polls: seq<Poll>, m1: nat, m2: nat, n: nat)
    requires Window(polls, m1, n) && Window(polls, m2, n)
    ensures m1 == m2
  {
    WindowLeft(polls, m1, m2, n);
    WindowLeft(polls, m2, m1, n);
  }

  /** waitListenerProcess over any poll trace: poll n is the first to decide, and decides as it should. */
  method WaitListenerProcess(polls: seq<Poll>) returns (r: Wait, n: nat)
    ensures n <= |polls| && forall j :: 0 <= j < n ==> Undecided(polls, j)
    ensures r.Ready? ==> n < |polls| && Settled(polls, n)
    ensures r.RunnerStopped? ==> n < |polls| && polls[n].seen.ContainerStopped?
    ensures r.Expired? ==> n == |polls| || (polls[n].expired && !polls[n].seen.ContainerStopped? && !Settled(polls, n))
  {
    var firstSeen: Option<int> := None;
    n := 0;
    while n < |polls|
      invariant n <= |polls| && forall j :: 0 <= j < n ==> Undecided(polls, j)
      invariant firstSeen.None? ==> n == 0 || !polls[n - 1].seen.Listener?
      invariant firstSeen.Some? ==> n > 0 && exists m: nat :: Window(polls, m, n - 1) && polls[m].noted == firstSeen.value
    {
      var p := polls[n];
      if p.seen.ContainerStopped? { return RunnerStopped, n; }
      if p.seen.Listener? {
        ghost var m: nat := n;
        if firstSeen.Some? { m :| Window(polls, m, n - 1) && polls[m].noted == firstSeen.value; }
        if firstSeen.None? { firstSeen := Some(p.noted); }
        assert Window(polls, m, n) && polls[m].noted == firstSeen.value;
        if p.aged - firstSeen.value >= ListenerSettle { return Ready, n; }
        forall m': nat | Window(polls, m', n) ensures m' == m { WindowUnique(polls, m, m', n); }
      } else {
        firstSeen := None;
      }
      if p.expired { return Expired, n; }
      n := n + 1;
    }
    r := Expired;
  }

  // ---------------------------------------------------------------- the watcher

  datatype Inspection = NoSuchContainer | InspectError | State(running: bool, restarting: bool, paused: bool, dead: bool, oomKilled: bool)

  predicate ShowsRunning(i: Inspection) {
    i.State? && i.running && !i.restarting && !i.paused && !i.dead && !i.oomKilled
  }

  /** How following the logs went: unreadable, never opened in time, or a stream that printed the listening
      line, ended, or outlasted the context. */
  datatype Logs = Unreadable | NotInTime | PrintedListening | StreamEnded | StreamExpired

  datatype Status = Installing | Idle

  /** What the watcher does that GARM or the daemon can see, in order. */
  datatype Event = Posted(status: Status, accepted: bool) | Signalled(viaProcess: bool) | Inspected(i: Inspection)

  /** The world's answers. */
  datatype Answers = Answers(reporterOk: bool, installingAccepted: bool, logs: Logs, polls: seq<Poll>, inspection: Inspection, lastAccepted: bool)

  datatype WaitResult = Online(viaProcess: bool) | Stopped | NotListening

  /** confirmRunning, after a readiness signal. */
  function ConfirmRunning(i: Inspection, viaProcess: bool): WaitResult {
    if ShowsRunning(i) then Online(viaProcess) else if i.InspectError? then NotListening else Stopped
  }

  /** The runner signalled readiness: its listening line, or, where the logs cannot be read, a settled
      listener process. */
  ghost predicate Signals(a: Answers, viaProcess: bool) {
    if viaProcess then
      a.logs.Unreadable? && exists n: nat :: n < |a.polls| && SettlesFirst(a.polls, n)
    else a.logs.PrintedListening?
  }

  method WaitRunnerListening(a: Answers) returns (r: WaitResult, events: seq<Event>)
    ensures r.Online? ==> Signals(a, r.viaProcess) && ShowsRunning(a.inspection) && events == [Signalled(r.viaProcess), Inspected(a.inspection)]
    ensures !r.Online? ==> forall v :: Signals(a, v) ==> !ShowsRunning(a.inspection)
    ensures r.Stopped? ==> a.logs.StreamEnded? || a.logs.Unreadable? || (a.inspection != InspectError && !ShowsRunning(a.inspection))
    ensures a.logs.PrintedListening? ==> (r.NotListening? <==> a.inspection.InspectError?)
    ensures a.logs.NotInTime? || a.logs.StreamExpired? ==> r.NotListening?
    ensures a.logs.StreamEnded? ==> r.Stopped?
    ensures forall e :: e in events ==> !e.Posted?
  {
    events := [];
    match a.logs {
      case Unreadable =>
        var w, n := WaitListenerProcess(a.polls);
        if w.Ready? {
          assert SettlesFirst(a.polls, n);
          return ConfirmRunning(a.inspection, true), [Signalled(true), Inspected(a.inspection)];
        }
        NeverSettles(a, w, n);
        r := if w.RunnerStopped? then Stopped else NotListening;
      case NotInTime => r := NotListening;
      case PrintedListening => return ConfirmRunning(a.inspection, false), [Signalled(false), Inspected(a.inspection)];
      case StreamEnded => r := Stopped;
      case StreamExpired => r := NotListening;
    }
  }

  lemma NeverSettles(a: Answers, w: Wait, n: nat)
    requires a.logs.Unreadable? && !w.Ready?
    requires n <= |a.polls| && forall j :: 0 <= j < n ==> Undecided(a.polls, j)
    requires w.RunnerStopped? ==> n < |a.polls| && a.polls[n].seen.ContainerStopped?
    requires w.Expired? ==> n == |a.polls| || (a.polls[n].expired && !Settled(a.polls, n))
    ensures forall v :: !Signals(a, v)
  {
    forall k: nat | k < |a.polls| ensures !SettlesFirst(a.polls, k) { NotFirst(a.polls, w, n, k); }
  }

  /** A poll that settles was not stopped. */
  lemma SettledIsListening(polls: seq<Poll>, n: nat)
    requires n < |polls|
    ensures Settled(polls, n) ==> polls[n].seen.Listener?
  {
  }

  lemma NotFirst(polls: seq<Poll>, w: Wait, n: nat, k: nat)
    requires !w.Ready? && n <= |polls| && k < |polls| && forall j :: 0 <= j < n ==> Undecided(polls, j)
    requires w.RunnerStopped? ==> n < |polls| && polls[n].seen.ContainerStopped?
    requires w.Expired? ==> n == |polls| || (polls[n].expired && !Settled(polls, n))
    ensures !SettlesFirst(polls, k)
  {
    SettledIsListening(polls, k);
    assert k < n ==> Undecided(polls, k);
    assert n < k ==> !Undecided(polls, n);
  }

  /** The runner works: the container runs, and none of the states that a running container can also be in. */
  predicate Works(i: Inspection) {
    i.State? && i.running && !(i.restarting || i.paused || i.dead || i.oomKilled)
  }

  /** runStatusWatch. Idle is posted exactly when the installing post was accepted, the runner signalled
      readiness and a later inspect shows it running, and then the events come in that order; anything else
      leaves the runner installing. */
  method RunStatusWatch(a: Answers) returns (events: seq<Event>)
    ensures (exists i :: 0 <= i < |events| && events[i].Posted? && events[i].status == Idle) <==>
              a.reporterOk && a.installingAccepted && Works(a.inspection) && exists v :: Signals(a, v)
    ensures forall i :: 0 <= i < |events| && events[i].Posted? && events[i].status == Idle ==>
              exists v :: Signals(a, v) &&
                events == [Posted(Installing, true), Signalled(v), Inspected(a.inspection), Posted(Idle, a.lastAccepted)]
  {
    events := [];
    if !a.reporterOk { return; }
    events := [Posted(Installing, a.installingAccepted)];
    if !a.installingAccepted { return; }
    var r, seen := WaitRunnerListening(a);
    var status := if r.Online? then Idle else Installing;
    events := events + seen + [Posted(status, a.lastAccepted)];
    assert events[|events| - 1] == Posted(status, a.lastAccepted);
    forall i | 0 < i < |events| - 1 ensures !events[i].Posted? { assert events[i] == seen[i - 1]; }
  }
}
