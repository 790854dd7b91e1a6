/**
 * The `/terminal/<container_id>` route of the terminal service: the checks it
 * makes in order, the status each failure gives, and the redirect target it
 * builds from the request and the session's port.
 *
 * The token store, the container runtime and the request object are reduced
 * to the values the route reads from them: the `token` query parameter, the
 * stored token record for the container, whether the container exists, and
 * the request's `is_secure` flag and `host` header.
 */
module Gateway {
  import opened Wrappers
  import opened Strings
  import opened Sessions

  /** The stored token record for a container; only its `token` field is read. */
  datatype TokenRecord = TokenRecord(token: string)

  /** What the route answers: an `abort(status, message)` or a `redirect(location, code=status)`. */
  datatype Response = Abort(status: nat, message: string) | Redirect(status: nat, location: string)

  const MissingToken: string := "token query parameter is required"
  const InvalidToken: string := "invalid or expired token"
  const ContainerNotFound: string := "container not found"

  /** `not token` is false: the parameter is present and non-empty. */
  predicate TokenGiven(token: Option<string>)
    ensures !TokenGiven(token) <==> token == None || token == Some("")
  {
    token.Some? && token.value != ""
  }

  /** A record is stored and its token equals the given one exactly. */
  predicate TokenMatches(token: Option<string>, record: Option<TokenRecord>)
    ensures TokenMatches(token, record) <==> token.Some? && record == Some(TokenRecord(token.value))
  {
    token.Some? && record.Some? && record.value.token == token.value
  }

  /**
   * The checks made before any session work, in the route's order: the token
   * parameter, then the stored token, then the container. `None` means all
   * passed and the route goes on to `get_or_launch_session`.
   */
  function Admission(token: Option<string>, record: Option<TokenRecord>, containerExists: bool): (r: Option<Response>)
    ensures r == Some(Abort(400, MissingToken)) <==> !TokenGiven(token)
    ensures r == Some(Abort(403, InvalidToken)) <==> TokenGiven(token) && !TokenMatches(token, record)
    ensures r == Some(Abort(404, ContainerNotFound)) <==> TokenGiven(token) && TokenMatches(token, record) && !containerExists
    ensures r == None <==> TokenGiven(token) && TokenMatches(token, record) && containerExists
  {
    if token.None? || token.value == "" then Some(Abort(400, MissingToken))
    else if record.None? || record.value.token != token.value then Some(Abort(403, InvalidToken))
    else if !containerExists then Some(Abort(404, ContainerNotFound))
    else None
  }

  /** A caller without a valid token learns nothing about whether the container exists. */
  lemma ExistenceHiddenWithoutToken(token: Option<string>, record: Option<TokenRecord>)
    requires !(TokenGiven(token) && TokenMatches(token, record))
    ensures Admission(token, record, true) == Admission(token, record, false)
    ensures Admission(token, record, true).Some?
  {
  }

  /** `"https" if request.is_secure else "http"`. */
  function Scheme(secure: bool): (s: string)
    ensures ':' !in s
  {
    if secure then "https" else "http"
  }

  /**
   * `request.host.split(":")[0]`: the host header up to its first colon, or all
   * of it when it has none.
   */
  function HostName(host: string): (h: string)
    ensures h <= host && ':' !in h
    ensures |h| < |host| ==> host[|h|] == ':'
    ensures ':' !in host ==> h == host
  {
    FirstPiece(host, ':');
    Split(host, ':')[0]
  }

  /** The parts of a `scheme://host:port` target. */
  datatype Target = Target(scheme: string, host: string, port: nat)

  /** Reads a `scheme://host:port` target back into its parts. */
  function ParseTarget(url: string): Option<Target>
  {
    var i := IndexOf(url, ':');
    if |url| < i + 3 || url[i..i + 3] != "://" then None
    else
      var rest := url[i + 3..];
      var j := IndexOf(rest, ':');
      var digits := if j < |rest| then rest[j + 1..] else "";
      if j == |rest| || digits == "" || !AllDigits(digits) then None
      else Some(Target(url[..i], rest[..j], DigitsValue(digits)))
  }

  /**
   * `f"{scheme}://{host}:{port}"`. The target names the request's scheme, its
   * host without any port, and the session's port, each recoverable from the
   * URL.
   */
  function RedirectTarget(secure: bool, host: string, port: nat): (url: string)
    ensures ParseTarget(url) == Some(Target(Scheme(secure), HostName(host), port))
  {
    var scheme := Scheme(secure);
    var name := HostName(host);
    var digits := Decimal(port);
    assert scheme + "://" + name + ":" + digits == scheme + [':'] + ("//" + (name + [':'] + digits)) by {
      assert "://" == [':'] + "//";
      assert ":" == [':'];
    }
    ParseAssembled(scheme, name, digits);
    DecimalRoundTrip(port);
    scheme + "://" + name + ":" + digits
  }

  /** `ParseTarget` reads back the parts of a target assembled from colon-free parts. */
  lemma ParseAssembled(scheme: string, name: string, digits: string)
    requires ':' !in scheme && ':' !in name && digits != [] && AllDigits(digits)
    ensures ParseTarget(scheme + [':'] + ("//" + (name + [':'] + digits))) ==
            Some(Target(scheme, name, DigitsValue(digits)))
  {
    var tail := name + [':'] + digits;
    var url := scheme + [':'] + ("//" + tail);
    var i := |scheme|;
    assert IndexOf(url, ':') == i by {
      IndexOfAfter(scheme, ':', "//" + tail);
    }
    assert url[i..i + 3] == "://" && url[..i] == scheme && url[i + 3..] == tail by {
      Halves(scheme + [':'], "//" + tail);
      Halves(scheme, [':']);
      Halves("//", tail);
    }
    assert IndexOf(tail, ':') == |name| && tail[..|name|] == name && tail[|name| + 1..] == digits by {
      IndexOfAfter(name, ':', digits);
      Halves(name + [':'], digits);
      Halves(name, [':']);
    }
  }

  /** The two halves of a concatenation. */
  lemma Halves(a: string, b: string)
    ensures (a + b)[..|a|] == a && (a + b)[|a|..] == b
  {
  }

  /**
   * What the route answers once the checks have passed: 500 with the error's
   * message when the launch raised, otherwise a 302 redirect to the session's
   * port on the request's host.
   */
  function Outcome(launch: Result<Session, string>, secure: bool, host: string): (r: Response)
    ensures launch.Failure? ==> r == Abort(500, launch.error)
    ensures launch.Success? ==>
      && r.Redirect? && r.status == 302
      && ParseTarget(r.location) == Some(Target(Scheme(secure), HostName(host), launch.value.port))
  {
    match launch
    case Failure(message) => Abort(500, message)
    case Success(session) =>
      Redirect(302, RedirectTarget(secure, host, session.port))
  }

  /**
   * The `terminal(container_id)` handler: nothing in the registry changes
   * unless every check passes; then the answer follows the session request.
   */
  method Terminal(registry: SessionRegistry, containerId: string,
                  token: Option<string>, record: Option<TokenRecord>, containerExists: bool,
                  now: real, running: bool, port: nat, spawnTime: real, ready: bool,
                  secure: bool, host: string) returns (response: Response)
    requires registry.Valid()
    modifies registry
    ensures registry.Valid()
    ensures Admission(token, record, containerExists).Some? ==>
      && response == Admission(token, record, containerExists).value
      && registry.State() == old(registry.State())
    ensures Admission(token, record, containerExists).None? ==>
      var step := GetOrLaunch(old(registry.State()), containerId, registry.sessionTimeout,
                              now, running, port, spawnTime, ready);
      && registry.State() == step.next
      && response == Outcome(step.result, secure, host)
  {
    var refusal := Admission(token, record, containerExists);
    if refusal.Some? {
      return refusal.value;
    }
    var session := registry.GetOrLaunchSession(containerId, now, running, port, spawnTime, ready);
    response := Outcome(session, secure, host);
  }
}
