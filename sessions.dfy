/**
 * The terminal service's session registry: the module-level `active_sessions`
 * dictionary from container id to the running ttyd process, its port and its
 * spawn time, and the three operations that change it.
 *
 * The world outside the dictionary is reduced to what the registry logic
 * observes: each spawned ttyd process is a fresh `ProcessId`; the pending
 * exit-watcher threads are a multiset of (container id, process) pairs; the
 * processes the service has sent `terminate()` to form a set. The clock, the
 * result of `poll()`, the port handed out by the operating system and the
 * outcome of the readiness wait are parameters of each operation.
 *
 * The registry's behaviour is first given as functions on `RegistryState`
 * values, with the properties proved about them; `SessionRegistry` then keeps
 * the dictionary as a mutable field and its methods are proved to follow those
 * functions step by step.
 */
module Sessions {
  import opened Wrappers

  /** A spawned ttyd process. Each spawn yields a new one. */
  type ProcessId = nat

  /** One entry of `active_sessions`: `{process, port, started_at}`. */
  datatype Session = Session(process: ProcessId, port: nat, startedAt: real)

  /** An exit-watcher thread that will drop `containerId` once `process` exits. */
  datatype Watcher = Watcher(containerId: string, process: ProcessId)

  datatype RegistryState = RegistryState(
    active: map<string, Session>,     // active_sessions
    watchers: multiset<Watcher>,      // watcher threads still waiting
    terminated: set<ProcessId>,       // processes sent terminate()
    nextPid: ProcessId)               // the next process a spawn yields

  /** The registry after an operation, and what the operation returned or raised. */
  datatype Step = Step(next: RegistryState, result: Result<Session, string>)

  /** Message of the RuntimeError raised when ttyd does not come up. */
  const LaunchFailure: string := "Failed to start ttyd session"

  /** The registry when the service starts. */
  const Initial: RegistryState := RegistryState(map[], multiset{}, {}, 0)

  /**
   * The invariant the three operations keep:
   * every registered session still has a watcher waiting for exactly its
   * process (so its exit will clear the entry), no registered session's
   * process has been terminated by the service, no two containers share a
   * process, and every process mentioned has already been spawned.
   */
  predicate WellFormed(st: RegistryState)
  {
    PidsIssued(st) && EntriesWatched(st) && EntriesLive(st) && EntriesDistinct(st)
  }

  /** Every process a watcher or a terminate() mentions has been spawned. */
  predicate PidsIssued(st: RegistryState)
  {
    && (forall w :: w in st.watchers ==> w.process < st.nextPid)
    && (forall p :: p in st.terminated ==> p < st.nextPid)
  }

  /** Every registered session has a watcher waiting for its own process. */
  predicate EntriesWatched(st: RegistryState)
  {
    forall c :: c in st.active ==> Watcher(c, st.active[c].process) in st.watchers
  }

  /** No registered session's process has been terminated by the service. */
  predicate EntriesLive(st: RegistryState)
  {
    forall c :: c in st.active ==> st.active[c].process !in st.terminated
  }

  /** No two containers share a process. */
  predicate EntriesDistinct(st: RegistryState)
  {
    forall c, d :: c in st.active && d in st.active && st.active[c].process == st.active[d].process ==> c == d
  }

  /**
   * The reuse test of `get_or_launch_session`: the process has not exited and
   * less than `timeout` seconds have passed since it was spawned.
   */
  predicate Reusable(s: Session, now: real, running: bool, timeout: int)
    ensures Reusable(s, now, running, timeout) <==> running && now < s.startedAt + timeout as real
  {
    running && now - s.startedAt < timeout as real
  }

  /**
   * `launch_ttyd`: spawn a process on `port`, register it under `containerId`
   * with the spawn time, start its exit watcher, then wait for the port. When
   * the wait fails the process is terminated, the entry is dropped again and a
   * RuntimeError is raised; otherwise the registered entry is returned.
   */
  function Launch(st: RegistryState, containerId: string, port: nat, spawnTime: real, ready: bool): (r: Step)
    ensures r.next.nextPid == st.nextPid + 1
    ensures r.next.watchers == st.watchers + multiset{Watcher(containerId, st.nextPid)}
    ensures r.next.active - {containerId} == st.active - {containerId}
    ensures r.result.Success? <==> ready
    ensures ready ==>
      && r.result.value == Session(st.nextPid, port, spawnTime)
      && containerId in r.next.active && r.next.active[containerId] == r.result.value
      && r.next.terminated == st.terminated
    ensures !ready ==>
      && r.result == Failure(LaunchFailure)
      && containerId !in r.next.active
      && r.next.terminated == st.terminated + {st.nextPid}
  {
    var registered := Register(st, containerId, Session(st.nextPid, port, spawnTime));
    if ready then
      Step(registered, Success(registered.active[containerId]))
    else
      Step(Rollback(registered, containerId, st.nextPid), Failure(LaunchFailure))
  }

  /** The first half of `launch_ttyd`: spawn, register and start the watcher. */
  function Register(st: RegistryState, containerId: string, session: Session): (r: RegistryState)
    ensures r.active.Keys == st.active.Keys + {containerId} && r.active[containerId] == session
    ensures forall c :: c in st.active && c != containerId ==> r.active[c] == st.active[c]
    ensures r.watchers == st.watchers + multiset{Watcher(containerId, session.process)}
    ensures r.terminated == st.terminated && r.nextPid == st.nextPid + 1
  {
    st.(active := st.active[containerId := session],
        watchers := st.watchers + multiset{Watcher(containerId, session.process)},
        nextPid := st.nextPid + 1)
  }

  /** The failure path of `launch_ttyd`: terminate the process and drop the entry. */
  function Rollback(st: RegistryState, containerId: string, process: ProcessId): (r: RegistryState)
    ensures r.active.Keys == st.active.Keys - {containerId}
    ensures forall c :: c in r.active ==> r.active[c] == st.active[c]
    ensures r.terminated == st.terminated + {process}
    ensures r.watchers == st.watchers && r.nextPid == st.nextPid
  {
    st.(active := st.active - {containerId}, terminated := st.terminated + {process})
  }

  /**
   * `get_or_launch_session`: return the registered session if it is reusable;
   * otherwise terminate its process (if there is one), drop the entry, and
   * launch a new session.
   */
  function GetOrLaunch(st: RegistryState, containerId: string, timeout: int,
                       now: real, running: bool, port: nat, spawnTime: real, ready: bool): (r: Step)
    ensures containerId in st.active && Reusable(st.active[containerId], now, running, timeout) ==>
      r == Step(st, Success(st.active[containerId]))
    ensures !(containerId in st.active && Reusable(st.active[containerId], now, running, timeout)) ==>
      && (containerId in st.active ==> st.active[containerId].process in r.next.terminated)
      && r.next.active - {containerId} == st.active - {containerId}
      && r.next.nextPid == st.nextPid + 1
      && (r.result.Success? <==> ready)
      && (ready ==> r.result.value == Session(st.nextPid, port, spawnTime)
                    && containerId in r.next.active && r.next.active[containerId] == r.result.value)
      && (!ready ==> r.result == Failure(LaunchFailure) && containerId !in r.next.active)
  {
    if containerId in st.active && Reusable(st.active[containerId], now, running, timeout) then
      Step(st, Success(st.active[containerId]))
    else if containerId in st.active then
      var stale := st.active[containerId];
      Launch(st.(active := st.active - {containerId}, terminated := st.terminated + {stale.process}),
             containerId, port, spawnTime, ready)
    else
      Launch(st, containerId, port, spawnTime, ready)
  }

  /**
   * `_watch_session` once its process has exited: drop whatever entry
   * `containerId` has now (nothing if it has none). The entry dropped need not
   * be the watcher's own process.
   */
  function WatchExit(st: RegistryState, containerId: string, process: ProcessId): (r: RegistryState)
    requires Watcher(containerId, process) in st.watchers
    ensures containerId !in r.active
    ensures r.active.Keys == st.active.Keys - {containerId}
    ensures forall c :: c in r.active ==> r.active[c] == st.active[c]
    ensures r.watchers == st.watchers - multiset{Watcher(containerId, process)}
    ensures r.terminated == st.terminated && r.nextPid == st.nextPid
  {
    st.(active := st.active - {containerId},
        watchers := st.watchers - multiset{Watcher(containerId, process)})
  }

  // ---------------------------------------------------------------------------
  // The invariant is kept
  // ---------------------------------------------------------------------------

  lemma InitialWellFormed()
    ensures WellFormed(Initial)
  {
  }

  lemma LaunchKeepsWellFormed(st: RegistryState, containerId: string, port: nat, spawnTime: real, ready: bool)
    requires WellFormed(st)
    ensures WellFormed(Launch(st, containerId, port, spawnTime, ready).next)
  {
    var session := Session(st.nextPid, port, spawnTime);
    RegisterKeepsWellFormed(st, containerId, session);
    if !ready {
      RollbackKeepsWellFormed(Register(st, containerId, session), containerId, st.nextPid);
    }
  }

  lemma RegisterKeepsWellFormed(st: RegistryState, containerId: string, session: Session)
    requires WellFormed(st) && session.process == st.nextPid
    ensures WellFormed(Register(st, containerId, session))
  {
    RegisterKeepsPidsIssued(st, containerId, session);
    RegisterKeepsEntriesWatched(st, containerId, session);
    RegisterKeepsEntriesLive(st, containerId, session);
    RegisterKeepsEntriesDistinct(st, containerId, session);
  }

  // One conjunct of the invariant each, so that each proof stays small.

  lemma RegisterKeepsPidsIssued(st: RegistryState, containerId: string, session: Session)
    requires WellFormed(st) && session.process == st.nextPid
    ensures PidsIssued(Register(st, containerId, session))
  {
  }

  lemma RegisterKeepsEntriesWatched(st: RegistryState, containerId: string, session: Session)
    requires WellFormed(st) && session.process == st.nextPid
    ensures EntriesWatched(Register(st, containerId, session))
  {
  }

  lemma RegisterKeepsEntriesLive(st: RegistryState, containerId: string, session: Session)
    requires WellFormed(st) && session.process == st.nextPid
    ensures EntriesLive(Register(st, containerId, session))
  {
  }

  lemma RegisterKeepsEntriesDistinct(st: RegistryState, containerId: string, session: Session)
    requires WellFormed(st) && session.process == st.nextPid
    ensures EntriesDistinct(Register(st, containerId, session))
  {
  }

  lemma RollbackKeepsWellFormed(st: RegistryState, containerId: string, process: ProcessId)
    requires WellFormed(st) && containerId in st.active && st.active[containerId].process == process
    ensures WellFormed(Rollback(st, containerId, process))
  {
    var r := Rollback(st, containerId, process);
    assert PidsIssued(r);
    assert EntriesWatched(r);
    assert EntriesLive(r);
    assert EntriesDistinct(r);
  }

  lemma GetOrLaunchKeepsWellFormed(st: RegistryState, containerId: string, timeout: int,
                                   now: real, running: bool, port: nat, spawnTime: real, ready: bool)
    requires WellFormed(st)
    ensures WellFormed(GetOrLaunch(st, containerId, timeout, now, running, port, spawnTime, ready).next)
  {
    if containerId in st.active && !Reusable(st.active[containerId], now, running, timeout) {
      var cleared := st.(active := st.active - {containerId},
                         terminated := st.terminated + {st.active[containerId].process});
      assert WellFormed(cleared);
      LaunchKeepsWellFormed(cleared, containerId, port, spawnTime, ready);
    } else if containerId !in st.active {
      LaunchKeepsWellFormed(st, containerId, port, spawnTime, ready);
    }
  }

  lemma WatchExitKeepsWellFormed(st: RegistryState, containerId: string, process: ProcessId)
    requires WellFormed(st) && Watcher(containerId, process) in st.watchers
    ensures WellFormed(WatchExit(st, containerId, process))
  {
    var r := WatchExit(st, containerId, process);
    forall c | c in r.active ensures Watcher(c, r.active[c].process) in r.watchers {
      assert Watcher(c, r.active[c].process) != Watcher(containerId, process);
    }
  }

  // ---------------------------------------------------------------------------
  // What callers observe
  // ---------------------------------------------------------------------------

  /**
   * A session handed back is the one registered for the container, and its
   * process is one the service has not terminated.
   */
  lemma ResultIsRegistered(st: RegistryState, containerId: string, timeout: int,
                           now: real, running: bool, port: nat, spawnTime: real, ready: bool)
    requires WellFormed(st)
    ensures var r := GetOrLaunch(st, containerId, timeout, now, running, port, spawnTime, ready);
      r.result.Success? ==>
        && containerId in r.next.active
        && r.next.active[containerId] == r.result.value
        && r.result.value.process !in r.next.terminated
  {
    GetOrLaunchKeepsWellFormed(st, containerId, timeout, now, running, port, spawnTime, ready);
  }

  /**
   * A dead or expired session is never handed back: its process is
   * terminated, and a successful request returns a session with a process
   * that no registered session and no watcher had before.
   */
  lemma ReplacementIsFresh(st: RegistryState, containerId: string, timeout: int,
                           now: real, running: bool, port: nat, spawnTime: real, ready: bool)
    requires WellFormed(st)
    requires containerId in st.active && !Reusable(st.active[containerId], now, running, timeout)
    ensures var r := GetOrLaunch(st, containerId, timeout, now, running, port, spawnTime, ready);
      && st.active[containerId].process in r.next.terminated
      && (r.result.Success? ==>
            && r.result.value != st.active[containerId]
            && (forall c :: c in st.active ==> st.active[c].process != r.result.value.process)
            && (forall w :: w in st.watchers ==> w.process != r.result.value.process))
  {
  }

  /** A sequence of requests for one container, each with its own observations. */
  datatype Request = Request(now: real, running: bool, port: nat, spawnTime: real, ready: bool)

  /** The registry after serving `requests` for `containerId` in order. */
  function Serve(st: RegistryState, containerId: string, timeout: int, requests: seq<Request>): RegistryState
    decreases |requests|
  {
    if requests == [] then st
    else
      var q := requests[0];
      Serve(GetOrLaunch(st, containerId, timeout, q.now, q.running, q.port, q.spawnTime, q.ready).next,
            containerId, timeout, requests[1..])
  }

  /** Requests that reuse a session change nothing, its start time included. */
  lemma {:induction false} ReuseChangesNothing(st: RegistryState, containerId: string, timeout: int, requests: seq<Request>)
    requires containerId in st.active
    requires forall i :: 0 <= i < |requests| ==>
      Reusable(st.active[containerId], requests[i].now, requests[i].running, timeout)
    ensures Serve(st, containerId, timeout, requests) == st
  {
    if requests != [] {
      ReuseChangesNothing(st, containerId, timeout, requests[1..]);
    }
  }

  /**
   * Fixed lifetime: however often a session has been reused, the first request
   * at or after `startedAt + timeout` replaces it, since reuse never refreshes
   * `startedAt`.
   */
  lemma {:induction false} LifetimeIsFixed(st: RegistryState, containerId: string, timeout: int,
                                            requests: seq<Request>, late: Request)
    requires WellFormed(st) && containerId in st.active
    requires forall i :: 0 <= i < |requests| ==>
      Reusable(st.active[containerId], requests[i].now, requests[i].running, timeout)
    requires late.now - st.active[containerId].startedAt >= timeout as real
    ensures var r := GetOrLaunch(Serve(st, containerId, timeout, requests), containerId, timeout,
                                 late.now, late.running, late.port, late.spawnTime, late.ready);
      && st.active[containerId].process in r.next.terminated
      && (r.result.Success? ==> r.result.value.process != st.active[containerId].process)
  {
    ReuseChangesNothing(st, containerId, timeout, requests);
    ReplacementIsFresh(st, containerId, timeout, late.now, late.running, late.port, late.spawnTime, late.ready);
  }

  /**
   * The watcher clears by container id only. After an expired session is
   * replaced, the old process's watcher drops the new entry although the new
   * process was never terminated.
   */
  lemma StaleWatcherDropsReplacement(containerId: string, timeout: int, first: Request, second: Request)
    requires first.ready && second.ready
    requires second.now - first.spawnTime >= timeout as real
    ensures
      var s1 := GetOrLaunch(Initial, containerId, timeout, first.now, first.running, first.port, first.spawnTime, true).next;
      var s2 := GetOrLaunch(s1, containerId, timeout, second.now, second.running, second.port, second.spawnTime, true).next;
      && containerId in s2.active && s2.active[containerId].process == 1
      && Watcher(containerId, 0) in s2.watchers
      && containerId !in WatchExit(s2, containerId, 0).active
      && 1 !in WatchExit(s2, containerId, 0).terminated
  {
  }

  // ---------------------------------------------------------------------------
  // The registry as a mutable object
  // ---------------------------------------------------------------------------

  class SessionRegistry {
    /** `SESSION_TIMEOUT`, read once from the environment. */
    const sessionTimeout: int
    var activeSessions: map<string, Session>
    var watchers: multiset<Watcher>
    var terminated: set<ProcessId>
    var nextPid: ProcessId

    function State(): RegistryState
      reads this
    {
      RegistryState(activeSessions, watchers, terminated, nextPid)
    }

    predicate Valid()
      reads this
    {
      WellFormed(State())
    }

    constructor (timeout: int)
      ensures Valid() && State() == Initial && sessionTimeout == timeout
    {
      sessionTimeout := timeout;
      activeSessions := map[];
      watchers := multiset{};
      terminated := {};
      nextPid := 0;
    }

    /** `launch_ttyd(container_id)`, with the port, the clock and the readiness wait as parameters. */
    method LaunchTtyd(containerId: string, port: nat, spawnTime: real, ready: bool) returns (r: Result<Session, string>)
      requires Valid()
      modifies this
      ensures Valid()
      ensures Step(State(), r) == Launch(old(State()), containerId, port, spawnTime, ready)
    {
      ghost var before := State();
      var process := nextPid;
      nextPid := nextPid + 1;
      activeSessions := activeSessions[containerId := Session(process, port, spawnTime)];
      watchers := watchers + multiset{Watcher(containerId, process)};
      ghost var registered := State();
      assert registered == Register(before, containerId, Session(process, port, spawnTime));
      if !ready {
        terminated := terminated + {process};
        activeSessions := activeSessions - {containerId};
        r := Failure(LaunchFailure);
        assert State() == Rollback(registered, containerId, process);
      } else {
        r := Success(activeSessions[containerId]);
      }
      LaunchKeepsWellFormed(before, containerId, port, spawnTime, ready);
    }

    /** `get_or_launch_session(container_id)`, with the clock, `poll()` and the launch's observations as parameters. */
    method GetOrLaunchSession(containerId: string, now: real, running: bool,
                              port: nat, spawnTime: real, ready: bool) returns (r: Result<Session, string>)
      requires Valid()
      modifies this
      ensures Valid()
      ensures Step(State(), r) == GetOrLaunch(old(State()), containerId, sessionTimeout, now, running, port, spawnTime, ready)
    {
      if containerId in activeSessions {
        var session := activeSessions[containerId];
        if running && now - session.startedAt < sessionTimeout as real {
          return Success(session);
        }
        terminated := terminated + {session.process};
        activeSessions := activeSessions - {containerId};
        assert Valid();
      }
      r := LaunchTtyd(containerId, port, spawnTime, ready);
    }

    /** `_watch_session(container_id, process)` after `process.wait()` has returned. */
    method WatchSession(containerId: string, process: ProcessId)
      requires Valid() && Watcher(containerId, process) in watchers
      modifies this
      ensures Valid()
      ensures State() == WatchExit(old(State()), containerId, process)
    {
      WatchExitKeepsWellFormed(State(), containerId, process);
      watchers := watchers - multiset{Watcher(containerId, process)};
      activeSessions := activeSessions - {containerId};
    }
  }
}
