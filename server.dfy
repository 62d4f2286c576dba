/** The admin session table and input check of backend/server.js. The clock (`Date.now()`)
    and the freshly generated session id are parameters; request values that may be
    missing from the body or headers are `Option`s. */
module AdminServer {
  import opened Common

  /** 24 hours in milliseconds. */
  const SessionLifetime: int := 24 * 60 * 60 * 1000

  const DefaultUsername: string := "admin"
  const DefaultPassword: string := "your_secure_password_here"

  datatype Session = Session(expires: int, username: string)

  /** The JSON body a handler answers with. */
  datatype Body =
    | LoginOk(sessionId: string, expires: int)
    | Done
    | Error(message: string)

  datatype Reply = Reply(status: int, body: Body)

  /** What `requireAuth` decides: hand over to `next`, or answer with a reply. */
  datatype Auth = Pass | Deny(reply: Reply)

  /** `process.env.X || fallback`. */
  function EnvOr(env: Option<string>, fallback: string): (r: string)
    ensures Truthy(env) ==> r == env.value
    ensures !Truthy(env) ==> r == fallback
  {
    if Truthy(env) then env.value else fallback
  }

  /** `req.headers['x-session-id'] || req.query.session`. */
  function SessionIdOf(header: Option<string>, query: Option<string>): (r: Option<string>)
    ensures Truthy(header) ==> r == header
    ensures !Truthy(header) ==> r == query
  {
    if Truthy(header) then header else query
  }

  /** The decision of `requireAuth` for a session id at time `now`. */
  function AuthDecision(sessions: map<string, Session>, id: Option<string>, now: int): (r: Auth)
    ensures r == Pass <==> Truthy(id) && id.value in sessions && now <= sessions[id.value].expires
    ensures (!Truthy(id) || id.value !in sessions) ==> r == Deny(Reply(401, Error("Authentication required")))
    ensures Truthy(id) && id.value in sessions && now > sessions[id.value].expires ==>
              r == Deny(Reply(401, Error("Session expired")))
  {
    if !Truthy(id) || id.value !in sessions then Deny(Reply(401, Error("Authentication required")))
    else if now > sessions[id.value].expires then Deny(Reply(401, Error("Session expired")))
    else Pass
  }

  /** The table after `requireAuth`: only an expired session is removed. */
  function AfterAuth(sessions: map<string, Session>, id: Option<string>, now: int): (r: map<string, Session>)
    ensures r.Keys <= sessions.Keys
    ensures forall k :: k in r ==> r[k] == sessions[k]
    ensures r != sessions <==> AuthDecision(sessions, id, now) == Deny(Reply(401, Error("Session expired")))
  {
    if Truthy(id) && id.value in sessions && now > sessions[id.value].expires
    then sessions - {id.value}
    else sessions
  }

  /** The table after a logout with this `x-session-id` header. */
  function AfterLogout(sessions: map<string, Session>, header: Option<string>): (r: map<string, Session>)
    ensures Truthy(header) ==> header.value !in r
    ensures forall k :: k in sessions && !(Truthy(header) && k == header.value) ==> k in r && r[k] == sessions[k]
    ensures r.Keys <= sessions.Keys
  {
    if Truthy(header) then sessions - {header.value} else sessions
  }

  /** Logout is idempotent. */
  lemma LogoutIdempotent(sessions: map<string, Session>, header: Option<string>)
    ensures AfterLogout(AfterLogout(sessions, header), header) == AfterLogout(sessions, header)
  {
  }

  /** A session stays valid up to and including its expiry instant. */
  lemma {:induction false} ValidThroughExpiry(sessions: map<string, Session>, id: string, username: string, loginTime: int, now: int)
    requires id != ""
    ensures var table := sessions[id := Session(loginTime + SessionLifetime, username)];
            (AuthDecision(table, Some(id), now) == Pass <==> now <= loginTime + SessionLifetime) &&
            AfterAuth(table, Some(id), now) == (if now <= loginTime + SessionLifetime then table else table - {id})
  {
  }

  /** After an expired session is rejected it is gone: the next attempt is told that
      authentication is required, not that the session expired. */
  lemma {:induction false} ExpiredThenUnknown(sessions: map<string, Session>, id: string, now: int, later: int)
    requires id in sessions && id != "" && now > sessions[id].expires
    ensures AuthDecision(sessions, Some(id), now) == Deny(Reply(401, Error("Session expired")))
    ensures AuthDecision(AfterAuth(sessions, Some(id), now), Some(id), later) ==
              Deny(Reply(401, Error("Authentication required")))
  {
    assert id !in AfterAuth(sessions, Some(id), now);
  }

  /** After logging out, the session no longer authenticates. */
  lemma {:induction false} LoggedOutIsUnknown(sessions: map<string, Session>, id: string, now: int)
    requires id != ""
    ensures AuthDecision(AfterLogout(sessions, Some(id)), Some(id), now) ==
              Deny(Reply(401, Error("Authentication required")))
  {
    assert id !in AfterLogout(sessions, Some(id));
  }

  /** What the contact handler does with the body: reject, or go on to the insert. */
  datatype ContactOutcome =
    | Rejected(reply: Reply)
    | Accepted(name: string, email: string, message: string)

  /** The required-field check of `/api/contact`. */
  function CheckContact(name: Option<string>, email: Option<string>, message: Option<string>): (r: ContactOutcome)
    ensures r.Accepted? <==> Truthy(name) && Truthy(email) && Truthy(message)
    ensures r.Accepted? ==> r == Accepted(name.value, email.value, message.value)
    ensures r.Rejected? ==> r.reply == Reply(400, Error("All fields are required"))
  {
    if !Truthy(name) || !Truthy(email) || !Truthy(message)
    then Rejected(Reply(400, Error("All fields are required")))
    else Accepted(name.value, email.value, message.value)
  }

  /** The server's in-memory state: the configured credentials and the `sessions` Map. */
  class AdminApi {
    const adminUsername: string
    const adminPassword: string
    var sessions: map<string, Session>

    /** Start-up, with `ADMIN_USERNAME` / `ADMIN_PASSWORD` from the environment. */
    constructor (envUsername: Option<string>, envPassword: Option<string>)
      ensures adminUsername == EnvOr(envUsername, DefaultUsername)
      ensures adminPassword == EnvOr(envPassword, DefaultPassword)
      ensures sessions == map[]
    {
      adminUsername := EnvOr(envUsername, DefaultUsername);
      adminPassword := EnvOr(envPassword, DefaultPassword);
      sessions := map[];
    }

    /** `POST /api/admin/login` at time `now`; `freshId` is what `generateSessionId()` returns. */
    method Login(username: Option<string>, password: Option<string>, now: int, freshId: string) returns (reply: Reply)
      modifies this
      ensures reply.status == 200 <==> username == Some(adminUsername) && password == Some(adminPassword)
      ensures reply.status == 200 ==>
                reply == Reply(200, LoginOk(freshId, now + SessionLifetime)) &&
                sessions == old(sessions)[freshId := Session(now + SessionLifetime, adminUsername)]
      ensures reply.status != 200 ==>
                reply == Reply(401, Error("Invalid credentials")) && sessions == old(sessions)
    {
      if username == Some(adminUsername) && password == Some(adminPassword) {
        var expires := now + SessionLifetime;
        sessions := sessions[freshId := Session(expires, username.value)];
        reply := Reply(200, LoginOk(freshId, expires));
      } else {
        reply := Reply(401, Error("Invalid credentials"));
      }
    }

    /** `requireAuth` for a request with this header and query at time `now`. */
    method RequireAuth(header: Option<string>, query: Option<string>, now: int) returns (auth: Auth)
      modifies this
      ensures auth == AuthDecision(old(sessions), SessionIdOf(header, query), now)
      ensures sessions == AfterAuth(old(sessions), SessionIdOf(header, query), now)
    {
      var sessionId := if Truthy(header) then header else query;
      if !Truthy(sessionId) || sessionId.value !in sessions {
        return Deny(Reply(401, Error("Authentication required")));
      }
      var session := sessions[sessionId.value];
      if now > session.expires {
        sessions := sessions - {sessionId.value};
        return Deny(Reply(401, Error("Session expired")));
      }
      auth := Pass;
    }

    /** `POST /api/admin/logout`: always reports success. */
    method Logout(header: Option<string>) returns (reply: Reply)
      modifies this
      ensures reply == Reply(200, Done)
      ensures sessions == AfterLogout(old(sessions), header)
    {
      if Truthy(header) {
        sessions := sessions - {header.value};
      }
      reply := Reply(200, Done);
    }
  }
}
