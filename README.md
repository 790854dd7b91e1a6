# Terminal gateway: session registry, terminal route and authorised users

This project models in Dafny the core of a small service. The service gives a
Discord bot's users a browser terminal into Docker containers. The model covers
three parts.

- **The session registry** of `terminal_service.py` (module `Sessions`). This is
  the `active_sessions` dictionary from a container id to its running `ttyd`
  process, the port it listens on and the time it was spawned. Three operations
  change the dictionary:
  - `launch_ttyd` spawns, registers, starts an exit watcher, and rolls back when
    the port never opens;
  - `get_or_launch_session` reuses a live, unexpired session, or terminates and
    replaces it;
  - `_watch_session` drops the container's entry once the process exits.

  The behaviour is given as functions on `RegistryState` values, and the
  properties are proved about those. The class `SessionRegistry` holds the same
  state as mutable fields. Its methods are proved to take exactly the steps the
  functions describe, and to keep the registry invariant.
- **The `/terminal/<container_id>` route** (module `Gateway`). It makes its checks
  in order and answers 400, 403 or 404. Otherwise it asks the registry for a
  session and answers 500 when the launch fails, or a 302 redirect to
  `scheme://host:port`.
- **`AUTHORIZED_USERS` and `is_authorized`** of `config.py` (module `Config`). The
  setting is split on commas, each field is stripped, blank fields are dropped,
  and membership is an exact test. Module `Strings` supplies the Python string
  operations these need: `str.split` with a one-character separator,
  `str.strip()` and `str(n)`.

The outside world is reduced to parameters:
- spawning a process yields a fresh process id from a counter;
- the pending watcher threads are a multiset of (container id, process) pairs;
- the processes sent `terminate()` are a set;
- the clock, the result of `poll()`, the port handed out, the outcome of the
  readiness wait, the stored token record, container existence and the
  request's `is_secure` and `host` are arguments of the operations.

Three behaviours of the code as written are kept on purpose.

- **The start time is never refreshed.** `started_at` is recorded when the
  process is spawned, and reuse does not refresh it. A session is therefore
  reused for at most `SESSION_TIMEOUT` seconds after it was spawned, however
  often it is used, and the first request for its container after that replaces
  it (`LifetimeIsFixed`). Nothing runs when the deadline passes: an expired
  session keeps its entry and its process until that request comes or the
  process exits.
- **The watcher clears by container id only.** When an expired session has been
  replaced, the old process's watcher may still fire after `terminate()`. It then
  removes the *new* entry, although the new process keeps running
  (`StaleWatcherDropsReplacement` exhibits this). For that reason the invariant
  does not claim that a watcher only removes its own session.
- **The host keeps only the part before the first colon.** `split(":")[0]`
  reduces a bracketed IPv6 host such as `[::1]:5000` to `[`. `HostName` models
  that exactly.

## Model

| member | source | states |
|---|---|---|
| Strings.Occurrences | config.py:9 | the number of separators in a string is at most its length |
| Strings.NoOccurrences | config.py:9 | a separator occurs zero times exactly when it is absent |
| Strings.IndexOf | terminal_service.py:137 | the first position of a character: every earlier character differs, and the position holds it unless it is the length |
| Strings.IndexOfAfter | terminal_service.py:137 | in `a + [c] + b` with no `c` in `a`, the first `c` is at `|a|` |
| Strings.Split | config.py:9 | `split(",")` yields one more field than there are separators |
| Strings.PiecesLackSeparator | config.py:9 | no field of `split(sep)` contains the separator |
| Strings.JoinSplit | config.py:9 | joining the fields of `split(sep)` with `sep` gives the original string back |
| Strings.SplitWithoutSeparator | config.py:9 | a string without the separator splits into itself alone |
| Strings.FirstPiece | terminal_service.py:137 | `split(sep)[0]` is a separator-free prefix; it is followed by `sep` when shorter than the string, and is the whole string when `sep` is absent |
| Strings.IsSpace | config.py:8 | the whitespace `strip()` removes (the set Python's `str.isspace()` accepts) never includes a comma, a colon or a digit |
| Strings.Strip | config.py:8 | `strip()` gives a string no longer than its input that neither starts nor ends with whitespace |
| Strings.StripShape | config.py:8 | `strip()` returns the slice between a whitespace-only prefix and a whitespace-only suffix |
| Strings.DropFirst | config.py:8 | removing one leading whitespace character keeps the shape of `StripShape` |
| Strings.DropLast | config.py:8 | removing one trailing whitespace character keeps the shape of `StripShape` |
| Strings.StripFixed | config.py:8 | a string without surrounding whitespace is its own `strip()` |
| Strings.StripEmpty | config.py:10 | `strip()` is empty exactly when the string is all whitespace |
| Strings.StripIdempotent | config.py:8 | stripping twice is stripping once |
| Strings.DigitChar | terminal_service.py:138 | a digit below ten becomes the character that denotes it |
| Strings.Decimal | terminal_service.py:138 | `str(port)` is a non-empty string of digits with no leading zero unless it is 0 |
| Strings.DecimalRoundTrip | terminal_service.py:138 | reading back the digits of `str(n)` gives `n` |
| Config.KeepNonBlank | config.py:7-11 | the comprehension keeps at most as many entries as fields, each non-empty and already stripped |
| Config.KeepNonBlankMembers | config.py:7-11 | a string is an entry exactly when it is non-empty and is the stripped form of some field |
| Config.KeepNonBlankOrigin | config.py:7-11 | every entry comes from a field at some index whose stripped form it is |
| Config.KeepNonBlankKeeps | config.py:7-11 | every field whose stripped form is non-empty yields an entry |
| Config.KeepNonBlankAppend | config.py:7-11 | the comprehension keeps the fields' order: the entries of `a + b` are those of `a` followed by those of `b` |
| Config.EntriesAreStripped | config.py:7-11 | every entry of `AUTHORIZED_USERS` is non-empty and equal to its own `strip()` |
| Config.Fields | config.py:9 | an absent setting is read as `""`; there is one field more than there are commas |
| Config.AuthorizedUsers | config.py:7-11 | `AUTHORIZED_USERS` has at most one entry more than there are commas in the setting |
| Config.IsAuthorized | config.py:14-16 | `is_authorized` holds exactly when some entry equals the id character for character |
| Config.AuthorizedIff | config.py:14-16 | `is_authorized(id)` holds exactly when `id` is non-empty and equals the stripped form of some comma-separated field |
| Config.UntrimmedIdRejected | config.py:14-16 | an id with surrounding whitespace is never authorised, because the query is not trimmed |
| Config.UnsetSettingAuthorizesNobody | config.py:7-11 | with the setting absent the list is empty and nobody is authorised |
| Config.BlankSettingAuthorizesNobody | config.py:7-16 | a setting made only of commas and whitespace authorises nobody |
| Config.AllBlankKeepsNothing | config.py:10 | fields that are all blank yield no entries |
| Config.BlankPieces | config.py:9-10 | every field of a string of commas and whitespace strips to empty |
| Sessions.Reusable | terminal_service.py:98 | a session is reused exactly when its process is still running and the deadline, spawn time plus the timeout, is still ahead |
| Sessions.Register | terminal_service.py:78-84 | spawning registers the new session under the container, replacing nothing else, adds its watcher, advances the process counter and terminates nothing |
| Sessions.Rollback | terminal_service.py:86-88 | the failure path removes the container's entry, leaves other entries as they were and terminates the process; watchers and the counter are unchanged |
| Sessions.Launch | terminal_service.py:63-91 | a launch spawns a new process id and adds its watcher; other containers' entries are untouched; if the port opens, the session (new process, given port, spawn time) is registered and returned; otherwise the process is terminated, the entry is removed, and "Failed to start ttyd session" is raised |
| Sessions.GetOrLaunch | terminal_service.py:94-108 | a live session younger than the timeout is returned and nothing changes; otherwise its process is terminated, and the result is that of a fresh launch with other containers untouched |
| Sessions.WatchExit | terminal_service.py:43-46 | an exited process's watcher removes the container's entry, whatever process it holds; other entries, terminated processes and the process counter are unchanged |
| Sessions.InitialWellFormed | terminal_service.py:21 | the empty registry satisfies the invariant |
| Sessions.LaunchKeepsWellFormed | terminal_service.py:63-91 | a launch keeps the invariant: every entry is watched, live and has its own process, and every process id was issued |
| Sessions.RegisterKeepsWellFormed | terminal_service.py:78-84 | spawning, registering and starting the watcher keeps the invariant |
| Sessions.RollbackKeepsWellFormed | terminal_service.py:86-88 | terminating the just-spawned process and dropping its entry keeps the invariant |
| Sessions.GetOrLaunchKeepsWellFormed | terminal_service.py:94-108 | a session request keeps the invariant |
| Sessions.WatchExitKeepsWellFormed | terminal_service.py:43-46 | a watcher's removal keeps the invariant |
| Sessions.ResultIsRegistered | terminal_service.py:94-108 | a session handed back is the one registered for the container, and its process has not been terminated |
| Sessions.ReplacementIsFresh | terminal_service.py:96-108 | a dead or expired session is terminated and never handed back; a successful replacement has a process no earlier session or watcher had |
| Sessions.ReuseChangesNothing | terminal_service.py:95-99 | any number of reusing requests leave the registry exactly as it was, start time included |
| Sessions.LifetimeIsFixed | terminal_service.py:79-99 | however often a session was reused, the first request at or after start time plus the timeout terminates and replaces its process |
| Sessions.StaleWatcherDropsReplacement | terminal_service.py:43-46 | after an expired session is replaced, the old process's pending watcher removes the new entry, although the new process was never terminated |
| Sessions.SessionRegistry.constructor | terminal_service.py:14-21 | the registry starts empty and valid, with the given session timeout |
| Sessions.SessionRegistry.LaunchTtyd | terminal_service.py:63-91 | updates the fields exactly as `Launch` describes, returns its result and keeps the invariant |
| Sessions.SessionRegistry.GetOrLaunchSession | terminal_service.py:94-108 | updates the fields exactly as `GetOrLaunch` describes, with the registry's own timeout, and keeps the invariant |
| Sessions.SessionRegistry.WatchSession | terminal_service.py:43-46 | updates the fields exactly as `WatchExit` describes and keeps the invariant |
| Gateway.TokenGiven | terminal_service.py:118-119 | `not token` is true exactly for the two falsy values: no parameter, or an empty one |
| Gateway.TokenMatches | terminal_service.py:123-124 | the token passes exactly when a record is stored and it is the record holding that very token |
| Gateway.Admission | terminal_service.py:118-129 | 400 exactly when the token is missing or empty; 403 exactly when it is given but no stored token equals it; 404 exactly when it matches but the container does not exist; otherwise the request proceeds |
| Gateway.ExistenceHiddenWithoutToken | terminal_service.py:118-129 | a request without a given, matching token is refused the same way whether or not the container exists |
| Gateway.Scheme | terminal_service.py:136 | the scheme is `https` or `http` and contains no colon |
| Gateway.HostName | terminal_service.py:137 | the host is the request host up to its first colon, or all of it when it has none |
| Gateway.RedirectTarget | terminal_service.py:136-138 | the redirect URL parses back into the request's scheme, its colon-free host and the session's port |
| Gateway.ParseAssembled | terminal_service.py:138 | a `scheme://host:digits` string built from colon-free parts parses back into those parts, each recovered by slicing at the first colon |
| Gateway.Outcome | terminal_service.py:131-139 | a failed launch answers 500 with the error's message; a session answers a 302 redirect whose URL carries the scheme, host and session port |
| Gateway.Terminal | terminal_service.py:116-139 | a refused request gets the refusal and leaves the registry unchanged; an admitted one changes the registry as `GetOrLaunch` describes and answers with its `Outcome` |

## Left out

- `wait_for_port` (terminal_service.py:49-60): its polling loop over sockets and the clock is not modelled. Its outcome is the `ready` parameter.
- `get_free_port`: the port is a parameter. The model does not capture whether the port is actually free, or a race for it.
- Process spawning, `poll()`, `wait()` and `terminate()`: a process is an id, `poll()` is the `running` parameter, and `terminate()` adds the id to a set. Signals and exit codes are not modelled.
- A failure of `subprocess.Popen` itself, such as a missing `ttyd` binary: the resulting exception propagates uncaught from the route. The model treats the spawn as always succeeding.
- Watcher threads: each is a pending pair in a multiset, and its firing is a separate `WatchSession` step. The model does not interleave concurrent requests or watchers within a single call. It does not model the unlocked dictionary's thread safety either.
- The token store: the stored record is a parameter. Token expiry, and what the store keeps, are not part of this model.
- `container_exists` and the Docker client: existence is a parameter.
- Reading the environment: the session timeout is the constructor's argument (the source reads `TERMINAL_SESSION_TIMEOUT`, defaulting to 3600), and the `AUTHORIZED_USERS` setting is an `Option<string>`. `TTYD_PATH` and `TERMINAL_SHELL` only shape the command line, which is not modelled.
- Flask itself: routing, `abort`, `redirect` and the `/health` route. Responses are the `Response` datatype.
- `started_at` and the clock are real numbers, not floating point, so rounding is not modelled.
- `bot.py`, `database.py` and the service's start-up code are not part of this model.
