/** The session store: login state in memory, mirrored into three cookies,
    and the request interceptor that adds the bearer token. */
module AuthContext {
  import opened Wrappers
  import opened Json

  const TokenCookie := "token"
  const UserCookie := "user"
  const RoleCookie := "userRole"
  const SessionCookies := {TokenCookie, UserCookie, RoleCookie}

  /** Days until a session cookie expires; kept as data, time is not modelled. */
  const ExpiryDays: nat := 7

  datatype Cookie = Cookie(value: string, expiresInDays: Option<nat>)

  /** The browser's cookies, by name. */
  class CookieJar {
    var cookies: map<string, Cookie>

    constructor (initial: map<string, Cookie>)
      ensures cookies == initial
    {
      cookies := initial;
    }

    /** The value of a cookie; None is `undefined`. */
    function Get(name: string): (r: Option<string>)
      reads this
      ensures r.Some? <==> name in cookies
      ensures r.Some? ==> r.value == cookies[name].value
    {
      if name in cookies then Some(cookies[name].value) else None
    }

    /** The cookie is present and its value is not empty (a truthy read). */
    predicate Has(name: string)
      reads this
    {
      Get(name).Some? && Get(name).value != ""
    }

    method Set(name: string, value: string, days: nat)
      modifies this
      ensures cookies == old(cookies)[name := Cookie(value, Some(days))]
    {
      cookies := cookies[name := Cookie(value, Some(days))];
    }

    method Remove(name: string)
      modifies this
      ensures cookies == old(cookies) - {name}
    {
      cookies := cookies - {name};
    }
  }

  // ---------------------------------------------------------------------------
  // The request interceptor

  /** The headers a request leaves the interceptor with, given the token
      cookie: an Authorization header with the bearer token when the cookie is
      truthy, the headers untouched otherwise. */
  function WithAuthorization(headers: map<string, string>, token: Option<string>): (r: map<string, string>)
    ensures token.Some? && token.value != "" ==>
      "Authorization" in r && r["Authorization"] == "Bearer " + token.value
    ensures token.Some? && token.value != "" ==>
      forall k :: k in r && k != "Authorization" ==> k in headers && r[k] == headers[k]
    ensures token.Some? && token.value != "" ==>
      forall k :: k in headers && k != "Authorization" ==> k in r
    ensures !(token.Some? && token.value != "") ==> r == headers
  {
    if token.Some? && token.value != "" then headers["Authorization" := "Bearer " + token.value]
    else headers
  }

  /** An outgoing request's configuration; the interceptor edits its headers in place. */
  class RequestConfig {
    var headers: map<string, string>

    constructor (headers: map<string, string>)
      ensures this.headers == headers
    {
      this.headers := headers;
    }
  }

  method Intercept(config: RequestConfig, jar: CookieJar)
    modifies config
    ensures config.headers == WithAuthorization(old(config.headers), jar.Get(TokenCookie))
  {
    var token := jar.Get(TokenCookie);
    if token.Some? && token.value != "" {
      config.headers := config.headers["Authorization" := "Bearer " + token.value];
    }
  }

  // ---------------------------------------------------------------------------
  // The session

  /** All three session cookies are truthy: the condition for restoring a session. */
  predicate Restorable(jar: CookieJar)
    reads jar
  {
    jar.Has(TokenCookie) && jar.Has(UserCookie) && jar.Has(RoleCookie)
  }

  class Session {
    var isLoggedIn: bool
    /** The user record; JNull is `null`. */
    var user: Json
    /** The role; None is `null`. */
    var userRole: Option<string>

    predicate SignedOut()
      reads this
    {
      !isLoggedIn && user == JNull && userRole == None
    }

    /** The state before anything happens. */
    constructor ()
      ensures SignedOut()
    {
      isLoggedIn := false;
      user := JNull;
      userRole := None;
    }

    /** The start-up effect. When all three cookies are truthy, the session
        is taken from them; a user cookie that is not JSON makes the parse
        throw after `isLoggedIn` is already set, reported as `crashed`. */
    method Restore(jar: CookieJar) returns (crashed: bool)
      modifies this
      ensures !Restorable(jar) ==>
        !crashed && isLoggedIn == old(isLoggedIn) && user == old(user) && userRole == old(userRole)
      ensures Restorable(jar) && Parse(jar.Get(UserCookie).value).Some? ==>
        !crashed && isLoggedIn && user == Parse(jar.Get(UserCookie).value).value &&
        userRole == jar.Get(RoleCookie)
      ensures Restorable(jar) && Parse(jar.Get(UserCookie).value).None? ==>
        crashed && isLoggedIn && user == old(user) && userRole == old(userRole)
    {
      crashed := false;
      var token := jar.Get(TokenCookie);
      var storedUser := jar.Get(UserCookie);
      var storedRole := jar.Get(RoleCookie);
      if token.Some? && token.value != "" && storedUser.Some? && storedUser.value != "" &&
         storedRole.Some? && storedRole.value != "" {
        isLoggedIn := true;
        var parsed := Parse(storedUser.value);
        if parsed.None? {
          crashed := true;
          return;
        }
        user := parsed.value;
        userRole := storedRole;
      }
    }

    method Login(jar: CookieJar, userData: Json, role: string, token: string)
      modifies this, jar
      ensures isLoggedIn && user == userData && userRole == Some(role)
      ensures jar.cookies == old(jar.cookies)
        [TokenCookie := Cookie(token, Some(ExpiryDays))]
        [UserCookie := Cookie(Stringify(userData), Some(ExpiryDays))]
        [RoleCookie := Cookie(role, Some(ExpiryDays))]
    {
      isLoggedIn := true;
      user := userData;
      userRole := Some(role);
      jar.Set(TokenCookie, token, ExpiryDays);
      jar.Set(UserCookie, Stringify(userData), ExpiryDays);
      jar.Set(RoleCookie, role, ExpiryDays);
    }

    method Logout(jar: CookieJar)
      modifies this, jar
      ensures SignedOut()
      ensures jar.cookies == old(jar.cookies) - SessionCookies
    {
      isLoggedIn := false;
      user := JNull;
      userRole := None;
      jar.Remove(TokenCookie);
      jar.Remove(UserCookie);
      jar.Remove(RoleCookie);
    }
  }

  // ---------------------------------------------------------------------------
  // Properties of sequences of session operations

  /** A fresh session restored from a jar lacking a truthy session cookie stays signed out. */
  method StartWithout(jar: CookieJar) returns (s: Session, crashed: bool)
    requires !Restorable(jar)
    ensures fresh(s) && s.SignedOut() && !crashed
  {
    s := new Session();
    crashed := s.Restore(jar);
  }

  /** Logging out twice leaves what logging out once does. */
  method LogoutTwice(s: Session, jar: CookieJar)
    modifies s, jar
    ensures s.SignedOut()
    ensures jar.cookies == old(jar.cookies) - SessionCookies
  {
    s.Logout(jar);
    ghost var once := jar.cookies;
    s.Logout(jar);
    assert jar.cookies == once - SessionCookies == once;
  }

  /** Logging in then out removes the three session cookies, leaves every
      other cookie as it was, and signs the session out. */
  method LoginThenLogout(s: Session, jar: CookieJar, userData: Json, role: string, token: string)
    modifies s, jar
    ensures s.SignedOut()
    ensures jar.cookies == old(jar.cookies) - SessionCookies
    ensures forall k :: k in SessionCookies ==> k !in jar.cookies
  {
    s.Login(jar, userData, role, token);
    s.Logout(jar);
  }

  /** A login survives a reload: a new session restored from the jar the
      login wrote has the same user and role. The user travels as
      `JSON.stringify` text and back through `JSON.parse`. */
  method ReloadAfterLogin(jar: CookieJar, userData: Json, role: string, token: string)
      returns (restored: Session, crashed: bool)
    requires role != "" && token != ""
    modifies jar
    ensures fresh(restored) && !crashed
    ensures restored.isLoggedIn && restored.user == userData && restored.userRole == Some(role)
  {
    var before := new Session();
    before.Login(jar, userData, role, token);
    StringifyNonEmpty(userData);
    ParseStringify(userData);
    assert jar.Get(UserCookie) == Some(Stringify(userData));
    restored := new Session();
    crashed := restored.Restore(jar);
  }

  /** After a login with a non-empty token, every request sent through the
      shared `api` instance carries that token. */
  method RequestAfterLogin(s: Session, jar: CookieJar, config: RequestConfig,
                           userData: Json, role: string, token: string)
    requires token != ""
    modifies s, jar, config
    ensures "Authorization" in config.headers && config.headers["Authorization"] == "Bearer " + token
  {
    s.Login(jar, userData, role, token);
    Intercept(config, jar);
  }

  /** After a logout, requests sent through `api` leave with their headers untouched. */
  method RequestAfterLogout(s: Session, jar: CookieJar, config: RequestConfig)
    modifies s, jar, config
    ensures config.headers == old(config.headers)
  {
    s.Logout(jar);
    Intercept(config, jar);
  }
}
