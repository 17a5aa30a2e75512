/**
 * The bearer-token middleware `authenticate` of the API server.  The
 * storage layer's `validateSession` is a session port: an abstract map from
 * token to user that records every lookup made through it.
 */
module Auth {
  import opened Js
  import opened Text

  /** A signed-in user: its role is compared with "csm" and "client". */
  datatype User = User(id: string, role: string, clientId: JsStr)

  const BearerPrefix: string := "Bearer "

  /**
   * The token carried by an `Authorization` header: the header minus its
   * first seven characters, present only when the header starts with
   * exactly "Bearer ".
   */
  function BearerToken(header: Option<string>): (r: Option<string>)
    ensures r.Some? <==> header.Some? && StartsWith(header.value, BearerPrefix)
    ensures r.Some? ==> header.value == BearerPrefix + r.value
  {
    if header.Some? && StartsWith(header.value, BearerPrefix) then
      assert header.value == header.value[..7] + header.value[7..];
      Some(header.value[7..])
    else None
  }

  /** Prefixing a token with "Bearer " and extracting it again gives the token back. */
  lemma BearerTokenRoundTrip(token: string)
    ensures BearerToken(Some(BearerPrefix + token)) == Some(token)
  {
    assert (BearerPrefix + token)[..|BearerPrefix|] == BearerPrefix;
  }

  datatype AuthOutcome = Rejected(error: string) | Admitted(user: User)

  /** What the middleware decides for a header, given the sessions storage knows. */
  function SessionCheck(header: Option<string>, sessions: map<string, User>): (r: AuthOutcome)
    ensures r.Admitted? <==> BearerToken(header).Some? && BearerToken(header).value in sessions
    ensures r.Admitted? ==> r.user in sessions.Values
    ensures r.Rejected? ==> r.error == "Unauthorized" || r.error == "Invalid or expired token"
  {
    match BearerToken(header)
    case None => Rejected("Unauthorized")
    case Some(token) =>
      if token in sessions then Admitted(sessions[token]) else Rejected("Invalid or expired token")
  }

  /**
   * A request is admitted exactly when its header is "Bearer " followed by a
   * token that has a session, and the user attached is that session's user.
   */
  lemma AdmittedIff(header: Option<string>, sessions: map<string, User>, user: User)
    ensures SessionCheck(header, sessions) == Admitted(user) <==>
            exists token :: token in sessions && header == Some(BearerPrefix + token) && sessions[token] == user
  {
    if exists token :: token in sessions && header == Some(BearerPrefix + token) && sessions[token] == user {
      var token :| token in sessions && header == Some(BearerPrefix + token) && sessions[token] == user;
      BearerTokenRoundTrip(token);
    }
  }

  /** A missing or malformed header is rejected whatever the sessions are. */
  lemma MalformedHeaderRejected(header: Option<string>, sessions: map<string, User>)
    requires header.None? || !StartsWith(header.value, BearerPrefix)
    ensures SessionCheck(header, sessions) == Rejected("Unauthorized")
  {
  }

  /**
   * The storage layer's session lookup.  `lookups` lists the tokens asked
   * about, in order.
   */
  class SessionPort {
    var sessions: map<string, User>
    var lookups: seq<string>

    constructor (sessions: map<string, User>)
      ensures this.sessions == sessions && lookups == []
    {
      this.sessions := sessions;
      lookups := [];
    }

    /** `storage.validateSession(token)`. */
    method ValidateSession(token: string) returns (user: Option<User>)
      modifies this`lookups
      ensures lookups == old(lookups) + [token]
      ensures token in sessions <==> user.Some?
      ensures user.Some? ==> user.value == sessions[token]
    {
      lookups := lookups + [token];
      user := if token in sessions then Some(sessions[token]) else None;
    }
  }

  /** The request and response objects the middleware works on. */
  class Exchange {
    const header: Option<string>
    var user: Option<User>
    var status: Option<nat>
    var error: Option<string>
    var nextCalled: bool

    constructor (header: Option<string>)
      ensures this.header == header
      ensures user.None? && status.None? && error.None? && !nextCalled
    {
      this.header := header;
      user, status, error, nextCalled := None, None, None, false;
    }
  }

  /**
   * `authenticate(req, res, next)`: answers 401 when the header is missing
   * or malformed (without consulting storage) or when the token has no
   * session; otherwise attaches the user and passes control on.
   */
  method Authenticate(ex: Exchange, port: SessionPort)
    modifies ex`user, ex`status, ex`error, ex`nextCalled, port`lookups
    ensures port.lookups == old(port.lookups) +
      (match BearerToken(ex.header) case None => [] case Some(token) => [token])
    ensures match SessionCheck(ex.header, port.sessions)
      case Rejected(e) =>
        && ex.status == Some(401) && ex.error == Some(e)
        && ex.user == old(ex.user) && ex.nextCalled == old(ex.nextCalled)
      case Admitted(u) =>
        && ex.user == Some(u) && ex.nextCalled
        && ex.status == old(ex.status) && ex.error == old(ex.error)
  {
    if ex.header.None? || !StartsWith(ex.header.value, BearerPrefix) {
      ex.status, ex.error := Some(401), Some("Unauthorized");
      return;
    }
    var token := ex.header.value[7..];
    var user := port.ValidateSession(token);
    if user.None? {
      ex.status, ex.error := Some(401), Some("Invalid or expired token");
      return;
    }
    ex.user := user;
    ex.nextCalled := true;
  }
}
