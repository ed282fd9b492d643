/** The earlier authentication middleware: only paths under /api/ with a
    third segment are guarded, the cookie is "databox_session", and the
    password check and session minting are the same as in DataboxAuth. */
module LegacyDataboxAuth {
  import opened Base
  import opened Http
  import DataboxAuth

  const LegacySessionCookie: string := "databox_session"

  /** The whole handler. */
  function Decide(session: string, password: string, r: Request, minted: string): (s: DataboxAuth.Step)
    ensures |Split(r.path, '/')| <= 2 ==> s == DataboxAuth.Step(Next, session)
    ensures |Split(r.path, '/')| > 2 && Split(r.path, '/')[1] != "api" ==> s == DataboxAuth.Step(Next, session)
    ensures s.handled.Reply? ==> Split(r.path, '/')[1] == "api"
  {
    var parts := Split(r.path, '/');
    if |parts| <= 2 then DataboxAuth.Step(Next, session)
    else if parts[1] != "api" then DataboxAuth.Step(Next, session)
    else DataboxAuth.Authorise(LegacySessionCookie, session, password, r, parts, minted)
  }

  class LegacyAuthMiddleware {
    var session: string
    const password: string

    constructor (password: string)
      ensures session == "" && this.password == password
    {
      session := "";
      this.password := password;
    }

    /** Handles one request; `minted` stands for the base64 text of 24 random
        bytes drawn when a session has to be created. */
    method Auth(r: Request, minted: string) returns (h: Handled)
      modifies this
      ensures DataboxAuth.Step(h, session) == Decide(old(session), password, r, minted)
    {
      var parts := Split(r.path, '/');
      if |parts| <= 2 {
        return Next;
      }
      if parts[1] != "api" {
        return Next;
      }
      if |parts| >= 3 && parts[2] == "connect" {
        if "Token " + password == HeaderGet(r.headers, "Authorization") {
          if session == "" {
            session := minted;
          }
          return Reply(DataboxAuth.Connected(LegacySessionCookie, session));
        }
        return Reply(DataboxAuth.Unauthorised);
      }
      var cookie := CookieNamed(r.cookies, LegacySessionCookie);
      if cookie.Some? && session == cookie.value.value {
        return Next;
      }
      h := Reply(DataboxAuth.Unauthorised);
    }
  }

  /** /api/connect with the password issues a databox_session cookie holding
      the session, minted only when none existed, and that cookie then opens
      every other /api/ path. */
  lemma ConnectThenApi(session: string, password: string, connect: Request, later: Request,
                       minted: string, minted2: string)
    requires |minted| == 32
    requires Split(connect.path, '/') == ["", "api", "connect"]
    requires HeaderGet(connect.headers, "Authorization") == "Token " + password
    requires |Split(later.path, '/')| >= 3 && Split(later.path, '/')[1] == "api"
    requires !DataboxAuth.IsConnect(Split(later.path, '/'))
    requires later.cookies == Decide(session, password, connect, minted).handled.response.setCookies
    ensures Decide(session, password, connect, minted).handled.response.setCookies ==
      [Cookie(LegacySessionCookie, if session == "" then minted else session)]
    ensures Decide(Decide(session, password, connect, minted).session, password, later, minted2) ==
      DataboxAuth.Step(Next, if session == "" then minted else session)
  {
    var s1 := Decide(session, password, connect, minted);
    assert s1.handled.response.setCookies == [Cookie(LegacySessionCookie, s1.session)];
    assert CookieNamed(later.cookies, LegacySessionCookie) == Some(Cookie(LegacySessionCookie, s1.session));
  }

  /** An /api/ request other than connect without the session cookie is
      refused with 401 once a session exists. */
  lemma ApiWithoutCookieRefused(session: string, password: string, r: Request, minted: string)
    requires session != ""
    requires |Split(r.path, '/')| >= 3 && Split(r.path, '/')[1] == "api" && !DataboxAuth.IsConnect(Split(r.path, '/'))
    requires forall c :: c in r.cookies ==> c.name != LegacySessionCookie
    ensures Decide(session, password, r, minted) == DataboxAuth.Step(Reply(DataboxAuth.Unauthorised), session)
  {
  }
}
