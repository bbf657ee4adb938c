/** The admin route guard's redirect decision (src/middleware.ts). */
module Middleware {

  datatype Decision = RedirectToLogin | RedirectToDashboard | PassThrough

  const AdminPrefix := "/admin"
  const LoginPath := "/admin/login"
  const DashboardPath := "/admin/dashboard"

  /** The two `if`s of `middleware` on (session present, pathname). */
  function Decide(hasSession: bool, pathname: string): Decision
  {
    if !hasSession && AdminPrefix <= pathname && pathname != LoginPath then RedirectToLogin
    else if hasSession && pathname == LoginPath then RedirectToDashboard
    else PassThrough
  }

  /** The path a decision sends the browser to, if any. */
  function Target(d: Decision): (t: string)
    requires !d.PassThrough?
    ensures t == LoginPath || t == DashboardPath
    ensures d.RedirectToLogin? <==> t == LoginPath
    ensures d.RedirectToDashboard? <==> t == DashboardPath
  {
    if d.RedirectToLogin? then LoginPath else DashboardPath
  }

  /** `config.matcher`: `/admin/:path*` (the admin root and everything below it) or `/admin/login`. */
  predicate InScope(pathname: string)
  {
    pathname == AdminPrefix || AdminPrefix + "/" <= pathname || pathname == LoginPath
  }

  /** The guard as deployed: paths outside the matcher never reach it. */
  function Handle(hasSession: bool, pathname: string): Decision
  {
    if InScope(pathname) then Decide(hasSession, pathname) else PassThrough
  }

  /** Each outcome of the decision, both directions. */
  lemma DecideCases(hasSession: bool, pathname: string)
    ensures Decide(hasSession, pathname) == RedirectToLogin <==>
      !hasSession && AdminPrefix <= pathname && pathname != LoginPath
    ensures Decide(hasSession, pathname) == RedirectToDashboard <==>
      hasSession && pathname == LoginPath
    ensures Decide(hasSession, pathname) == PassThrough <==>
      (hasSession && pathname != LoginPath) || (!hasSession && (pathname == LoginPath || !(AdminPrefix <= pathname)))
  {
  }

  /** An unauthenticated login page and authenticated admin pages pass through. */
  lemma PassThroughExamples(pathname: string)
    ensures Decide(false, LoginPath) == PassThrough
    ensures pathname != LoginPath ==> Decide(true, pathname) == PassThrough
  {
  }

  /** A redirect never targets the path that was requested. */
  lemma NoSelfRedirect(hasSession: bool, pathname: string)
    ensures !Decide(hasSession, pathname).PassThrough? ==> Target(Decide(hasSession, pathname)) != pathname
  {
  }

  /** Within the matcher's scope the prefix test always holds, so only the session and the login path matter. */
  lemma GuardInScope(hasSession: bool, pathname: string)
    ensures !InScope(pathname) ==> Handle(hasSession, pathname) == PassThrough
    ensures InScope(pathname) ==>
      (Handle(hasSession, pathname) == RedirectToLogin <==> !hasSession && pathname != LoginPath)
    ensures InScope(pathname) ==>
      (Handle(hasSession, pathname) == RedirectToDashboard <==> hasSession && pathname == LoginPath)
  {
    if AdminPrefix + "/" <= pathname {
      assert pathname[..|AdminPrefix|] == (AdminPrefix + "/")[..|AdminPrefix|] == AdminPrefix;
    }
  }
}
