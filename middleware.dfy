/**
  The route guard that runs before every matched request: which paths skip authentication,
  which are public, and what an unauthenticated request gets instead of the page.
  The session lookup is an input (`lookup`); the first, exception-swallowing lookup only
  refreshes the session and does not influence the decision.
 */
module Middleware {
  import opened Wrappers
  import opened Strings

  /** What the second `supabase.auth.getUser()` did: returned (whether a user and whether an
      error came back), or threw, which nothing in the guard catches. */
  datatype Lookup = Found(hasUser: bool, hasError: bool) | LookupThrew

  /** What the guard does with the request. */
  datatype Decision =
    | Next                                          // `NextResponse.next()`
    | JsonError(status: int, error: string)         // `NextResponse.json({error}, {status})`
    | Redirect(pathname: string, redirectTo: string) // to `/login?redirectTo=<path>`
    | Raised                                        // the guard itself throws

  const PublicPaths: seq<string> := ["/"]

  /** `publicPaths.some(p => path === p || path.startsWith(p + '/'))` */
  predicate MatchesSome(publicPaths: seq<string>, path: string)
  {
    publicPaths != [] && (path == publicPaths[0] || StartsWith(path, publicPaths[0] + "/") || MatchesSome(publicPaths[1..], path))
  }

  predicate IsPublicPath(path: string)
  {
    MatchesSome(PublicPaths, path)
  }

  /** With "/" the only public entry, exactly "/" and the paths starting with "//" are public. */
  lemma PublicPathsAre(path: string)
    ensures IsPublicPath(path) <==> path == "/" || StartsWith(path, "//")
  {
    assert PublicPaths[0] + "/" == "//";
    assert MatchesSome(PublicPaths, path) <==> path == "/" || StartsWith(path, "//") || MatchesSome(PublicPaths[1..], path);
    assert PublicPaths[1..] == [];
  }

  /** The paths let through before any session lookup. */
  predicate Bypassed(path: string)
  {
    StartsWith(path, "/api/stripe/webhooks") || StartsWith(path, "/api/cron/")
  }

  /** `!authHeader || !expectedToken || authHeader !== 'Bearer ' + expectedToken`, negated. */
  predicate CronAuthorized(authorization: Option<string>, cronSecret: Option<string>)
  {
    authorization.Some? && authorization.value != "" && cronSecret.Some? && cronSecret.value != ""
    && authorization.value == "Bearer " + cronSecret.value
  }

  /** `middleware(req)` */
  function Decide(path: string, lookup: Lookup, authorization: Option<string>, cronSecret: Option<string>): Decision
  {
    if Bypassed(path) then Next
    else if !IsPublicPath(path) && lookup.LookupThrew? then Raised
    else if !IsPublicPath(path) && (!lookup.hasUser || lookup.hasError) then
      if StartsWith(path, "/api/") then JsonError(401, "Unauthorized") else Redirect("/login", path)
    else if StartsWith(path, "/api/cron/") then
      if CronAuthorized(authorization, cronSecret) then Next else JsonError(401, "Unauthorized access")
    else Next
  }

  /** Webhook and cron paths pass whatever the session and headers are. */
  lemma BypassedPass(path: string, lookup: Lookup, authorization: Option<string>, cronSecret: Option<string>)
    requires Bypassed(path)
    ensures Decide(path, lookup, authorization, cronSecret) == Next
  {
  }

  /** A public path passes, whatever the session lookup says. */
  lemma PublicPasses(path: string, lookup: Lookup, authorization: Option<string>, cronSecret: Option<string>)
    requires IsPublicPath(path)
    ensures Decide(path, lookup, authorization, cronSecret) == Next
  {
  }

  /** An unauthenticated request for a protected API path gets a 401 JSON body. */
  lemma UnauthenticatedApi(path: string, hasUser: bool, hasError: bool, authorization: Option<string>, cronSecret: Option<string>)
    requires !Bypassed(path) && !IsPublicPath(path) && (!hasUser || hasError) && StartsWith(path, "/api/")
    ensures Decide(path, Found(hasUser, hasError), authorization, cronSecret) == JsonError(401, "Unauthorized")
  {
  }

  /** An unauthenticated request for a protected page is sent to the login page, which is
      told where to come back to. */
  lemma UnauthenticatedPage(path: string, hasUser: bool, hasError: bool, authorization: Option<string>, cronSecret: Option<string>)
    requires !Bypassed(path) && !IsPublicPath(path) && (!hasUser || hasError) && !StartsWith(path, "/api/")
    ensures Decide(path, Found(hasUser, hasError), authorization, cronSecret) == Redirect("/login", path)
  {
  }

  /** An authenticated request to a protected path passes through. */
  lemma AuthenticatedPasses(path: string, authorization: Option<string>, cronSecret: Option<string>)
    ensures Decide(path, Found(true, false), authorization, cronSecret) == Next
  {
  }

  /** The cron bearer-token check can never fire: cron paths have already passed before the
      session lookup, so no request is ever answered "Unauthorized access", and every
      `/api/cron/` request passes with or without an Authorization header. */
  lemma CronCheckUnreachable(path: string, lookup: Lookup, authorization: Option<string>, cronSecret: Option<string>)
    ensures Decide(path, lookup, authorization, cronSecret) != JsonError(401, "Unauthorized access")
    ensures StartsWith(path, "/api/cron/") ==> Decide(path, lookup, authorization, cronSecret) == Next
  {
  }

  /** The guard answers in one of four ways only; a session lookup that throws on a protected
      path propagates. */
  lemma DecisionCases(path: string, lookup: Lookup, authorization: Option<string>, cronSecret: Option<string>)
    ensures var d := Decide(path, lookup, authorization, cronSecret);
      d.Raised? <==> !Bypassed(path) && !IsPublicPath(path) && lookup.LookupThrew?
  {
  }
}
