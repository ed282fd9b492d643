/** The container manager's authentication middleware: a session state
    machine. The session is empty until the first connect request that
    carries "Token <password>", which mints it; later connects with the
    password return the same session, and every other request outside the
    static paths needs a "session" cookie equal to it. */
module DataboxAuth {
  import opened Base
  import opened Http

  /** First path segments served without authentication. */
  const AllowedStaticPaths: set<string> := {"css", "js", "icons", "img", "", "cordova.js"}

  const SessionCookie: string := "session"

  /** The answer to a request and the session afterwards. */
  datatype Step = Step(handled: Handled, session: string)

  predicate IsConnect(parts: seq<string>)
  {
    |parts| >= 3 && parts[2] == "connect"
  }

  function Connected(cookieName: string, session: string): Response
  {
    Response(StatusOK, map[], "connected", [Cookie(cookieName, session)])
  }

  const Unauthorised: Response := Response(StatusUnauthorized, map[], "Authorization Required", [])

  /** What both middlewares do with a request that needs authorising: a
      connect request is answered by the password check, anything else by
      the session cookie. `minted` is the freshly generated token used when
      the session is still empty. */
  function Authorise(cookieName: string, session: string, password: string, r: Request,
                     parts: seq<string>, minted: string): (s: Step)
    ensures s.handled.Next? || s.handled.Reply?
    ensures s.session == session || (session == "" && s.session == minted)
    ensures s.session != session ==> IsConnect(parts)
    ensures s.handled.Next? <==>
      !IsConnect(parts) && CookieNamed(r.cookies, cookieName) == Some(Cookie(cookieName, session))
    ensures s.handled.Reply? && s.handled.response.status == StatusOK <==>
      IsConnect(parts) && HeaderGet(r.headers, "Authorization") == "Token " + password
    ensures s.handled.Reply? && s.handled.response.status == StatusOK ==>
      s.handled.response == Connected(cookieName, s.session) && (session != "" ==> s.session == session)
    ensures s.handled.Reply? && s.handled.response.status != StatusOK ==>
      s.handled.response == Unauthorised && s.session == session
  {
    if IsConnect(parts) then
      if "Token " + password == HeaderGet(r.headers, "Authorization") then
        var current := if session == "" then minted else session;
        Step(Reply(Connected(cookieName, current)), current)
      else
        Step(Reply(Unauthorised), session)
    else
      var cookie := CookieNamed(r.cookies, cookieName);
      if cookie.Some? && session == cookie.value.value then Step(Next, session)
      else Step(Reply(Unauthorised), session)
  }

  /** The whole handler. A path with no second segment panics at parts[1]. */
  function Decide(session: string, password: string, r: Request, minted: string): (s: Step)
    ensures |Split(r.path, '/')| < 2 ==> s == Step(Panicked, session)
    ensures |Split(r.path, '/')| >= 2 && Split(r.path, '/')[1] in AllowedStaticPaths ==> s == Step(Next, session)
  {
    var parts := Split(r.path, '/');
    if |parts| < 2 then Step(Panicked, session)
    else if parts[1] in AllowedStaticPaths then Step(Next, session)
    else Authorise(SessionCookie, session, password, r, parts, minted)
  }

  class DataboxAuthMiddleware {
    var session: string
    const password: string

    constructor (password: string)
      ensures session == "" && this.password == password
    {
      session := "";
      this.password := password;
    }

    /** Handles one request; `minted` stands for the base64 text of 24 random
        bytes drawn when a session has to be created. */
    method Auth(r: Request, minted: string) returns (h: Handled)
      modifies this
      ensures Step(h, session) == Decide(old(session), password, r, minted)
    {
      var parts := Split(r.path, '/');
      if |parts| < 2 {
        return Panicked;
      }
      if parts[1] in AllowedStaticPaths {
        return Next;
      }
      if |parts| >= 3 && parts[2] == "connect" {
        if "Token " + password == HeaderGet(r.headers, "Authorization") {
          if session == "" {
            session := minted;
          }
          return Reply(Connected(SessionCookie, session));
        }
        return Reply(Unauthorised);
      }
      var cookie := CookieNamed(r.cookies, SessionCookie);
      if cookie.Some? && session == cookie.value.value {
        return Next;
      }
      h := Reply(Unauthorised);
    }
  }

  /** Once a connect with the password has issued a cookie, a later request
      carrying that cookie passes, and further connects return the same
      session. */
  lemma ConnectThenAccess(session: string, password: string, connect: Request, later: Request,
                          minted: string, minted2: string)
    requires |minted| == 32
    requires Split(connect.path, '/') == ["", "api", "connect"]
    requires HeaderGet(connect.headers, "Authorization") == "Token " + password
    requires |Split(later.path, '/')| >= 3 && Split(later.path, '/')[1] !in AllowedStaticPaths
    requires later.cookies == Decide(session, password, connect, minted).handled.response.setCookies
    ensures Decide(session, password, connect, minted).session == (if session == "" then minted else session)
    ensures Decide(Decide(session, password, connect, minted).session, password, later, minted2).handled ==
      (if IsConnect(Split(later.path, '/')) then
         (if HeaderGet(later.headers, "Authorization") == "Token " + password
          then Reply(Connected(SessionCookie, Decide(session, password, connect, minted).session))
          else Reply(Unauthorised))
       else Next)
  {
    var s1 := Decide(session, password, connect, minted);
    assert s1.handled.response.setCookies == [Cookie(SessionCookie, s1.session)];
    var parts := Split(later.path, '/');
    if !IsConnect(parts) {
      assert CookieNamed(later.cookies, SessionCookie) == Some(Cookie(SessionCookie, s1.session));
    }
  }

  /** Before any successful connect the session is empty, so a request that
      presents an empty "session" cookie is let through. */
  lemma EmptyCookieBeforeConnect(password: string, r: Request, minted: string)
    requires |Split(r.path, '/')| >= 2 && Split(r.path, '/')[1] !in AllowedStaticPaths
    requires !IsConnect(Split(r.path, '/'))
    requires r.cookies == [Cookie(SessionCookie, "")]
    ensures Decide("", password, r, minted) == Step(Next, "")
  {
  }

  /** A wrong or missing password on connect is refused and leaves the
      session as it was. */
  lemma WrongPasswordRefused(session: string, password: string, r: Request, minted: string)
    requires |Split(r.path, '/')| >= 3 && Split(r.path, '/')[1] !in AllowedStaticPaths
    requires Split(r.path, '/')[2] == "connect"
    requires HeaderGet(r.headers, "Authorization") != "Token " + password
    ensures Decide(session, password, r, minted) == Step(Reply(Unauthorised), session)
  {
  }
}
