/**
 * The two session checks of webServer.js: the global middleware that every
 * request passes after static files, and the stricter requireLogin used on
 * single routes. Both are the same rule over an allow-list of exact paths.
 */
module Gate {

  /** Outcome of a check: hand the request on, or answer 401 "Unauthorized". */
  datatype Verdict = Next | Unauthorized

  /** The exact request paths the global middleware lets through without a session. */
  const AllowedPaths: seq<string> := ["/admin/login", "/user"]

  /** The common rule: a session user, or a path equal to one on the allow-list. */
  function Check(allowed: seq<string>, path: string, hasUser: bool): Verdict
  {
    if !hasUser && path !in allowed then Unauthorized else Next
  }

  /** The global middleware. */
  function GlobalGate(path: string, hasUser: bool): (v: Verdict)
    ensures v == Unauthorized <==> !hasUser && path != "/admin/login" && path != "/user"
  {
    Check(AllowedPaths, path, hasUser)
  }

  /** requireLogin: the same rule with an empty allow-list. */
  function RequireLogin(path: string, hasUser: bool): (v: Verdict)
    ensures v == Next <==> hasUser
  {
    Check([], path, hasUser)
  }

  /** requireLogin does not look at the path. */
  lemma RequireLoginIgnoresPath(p: string, q: string, hasUser: bool)
    ensures RequireLogin(p, hasUser) == RequireLogin(q, hasUser)
  {
  }

  /** The allow-list matches whole paths only: anything below "/user" or "/admin/login" needs a session. */
  lemma {:induction false} SubpathsAreGated(prefix: string, path: string, rest: string)
    requires prefix in AllowedPaths
    requires path == prefix + rest && rest != ""
    ensures GlobalGate(path, false) == Unauthorized
  {
    assert path[..|prefix|] == prefix;
    if prefix == "/user" {
      assert path != "/user" by { assert |path| > |prefix|; }
      assert path != "/admin/login" by { assert path[1] == 'u'; }
    } else {
      assert |path| > |"/admin/login"| > |"/user"|;
    }
  }

  /** Whatever requireLogin lets through, the global middleware lets through. */
  lemma RequireLoginIsStricter(path: string, hasUser: bool)
    ensures RequireLogin(path, hasUser) == Next ==> GlobalGate(path, hasUser) == Next
  {
  }

  /**
   * On a path off the allow-list, passing the global middleware already means a
   * session user is present, so a requireLogin behind it never answers 401 and
   * handlers behind it may read the session user.
   */
  lemma PassedGateHasUser(path: string, hasUser: bool)
    requires path !in AllowedPaths
    requires GlobalGate(path, hasUser) == Next
    ensures hasUser && RequireLogin(path, hasUser) == Next
  {
  }

  /** POST /admin/logout is not on the allow-list: without a session user the middleware answers 401. */
  lemma LogoutIsGated()
    ensures GlobalGate("/admin/logout", false) == Unauthorized
  {
  }
}
