/** The `beforeLoad` guards of `/dashboard` and `/`: take the user the
    session store already holds, otherwise ask `refetchMe()`, and redirect to
    the sign-in page when neither yields a user. The session store's value
    has no `refetchMe` member, so in the program as it stands the uncached
    path fails with a `TypeError` instead of redirecting; the guards here are
    those of a store that provides it, and what it would return is an input
    that may be any user or none. */
module RouteGuards {
  import opened Wrappers
  import opened AuthContext

  const SignInRoute := "/sign-in"

  /** The component a guarded route renders once its guard lets it through. */
  datatype Page = DashboardPage | BlankPage

  /** How a navigation attempt ends. */
  datatype Navigation = Render(page: Page) | Redirect(to: string)

  /** The guard's decision, and whether it had to call `refetchMe()`. */
  datatype GuardResult = GuardResult(navigation: Navigation, refetchCalled: bool)

  /** `context.authentication.user ?? (await refetchMe())`, then
      `if (!user) throw redirect({ to: '/sign-in' })`; `refetched` is what the
      call would return if it were made. */
  function BeforeLoad(cached: Option<User>, refetched: Option<User>, page: Page): (r: GuardResult)
    ensures r.refetchCalled <==> cached.None?
    ensures r.navigation.Redirect? <==> cached.None? && refetched.None?
    ensures r.navigation.Redirect? ==> r.navigation.to == SignInRoute
    ensures r.navigation.Render? ==> r.navigation.page == page
  {
    var resolved := match cached case Some(_) => cached case None => refetched;
    var called := cached.None?;
    if resolved.None? then GuardResult(Redirect(SignInRoute), called)
    else GuardResult(Render(page), called)
  }

  /** The guard of `/dashboard`: the dashboard renders when a user is cached
      or fetched, and otherwise the visitor is sent to the sign-in page. */
  function DashboardGuard(cached: Option<User>, refetched: Option<User>): (r: GuardResult)
    ensures r.navigation == if cached.Some? || refetched.Some? then Render(DashboardPage) else Redirect(SignInRoute)
    ensures r.refetchCalled <==> cached.None?
  {
    BeforeLoad(cached, refetched, DashboardPage)
  }

  /** The guard of `/`, whose component renders nothing: the blank page shows
      when a user is cached or fetched, and otherwise the visitor is sent to
      the sign-in page. */
  function IndexGuard(cached: Option<User>, refetched: Option<User>): (r: GuardResult)
    ensures r.navigation == if cached.Some? || refetched.Some? then Render(BlankPage) else Redirect(SignInRoute)
    ensures r.refetchCalled <==> cached.None?
  {
    BeforeLoad(cached, refetched, BlankPage)
  }

  /** With a cached user, `refetchMe` is never called, so nothing it could
      return changes the outcome: the dashboard renders. */
  lemma CachedUserSkipsRefetch(u: User, r1: Option<User>, r2: Option<User>)
    ensures DashboardGuard(Some(u), r1) == DashboardGuard(Some(u), r2)
    ensures DashboardGuard(Some(u), r1) == GuardResult(Render(DashboardPage), false)
  {
  }

  /** Without a cached user the outcome is decided by `refetchMe()` alone. */
  lemma UncachedDecidedByRefetch(refetched: Option<User>, page: Page)
    ensures BeforeLoad(None, refetched, page).navigation
      == if refetched.Some? then Render(page) else Redirect(SignInRoute)
  {
  }

  /** `/` with a cached user renders its empty component without asking
      `refetchMe()`: there is no redirect for signed-in visitors. */
  lemma IndexWithUserRendersBlank(u: User, refetched: Option<User>)
    ensures IndexGuard(Some(u), refetched) == GuardResult(Render(BlankPage), false)
  {
  }

  /** `/` follows the same rule as `/dashboard`: both redirect in the same
      situations, to the same place, and differ only in what they render. */
  lemma IndexSameRuleAsDashboard(cached: Option<User>, refetched: Option<User>)
    ensures IndexGuard(cached, refetched).refetchCalled == DashboardGuard(cached, refetched).refetchCalled
    ensures IndexGuard(cached, refetched).navigation.Redirect? <==> DashboardGuard(cached, refetched).navigation.Redirect?
    ensures IndexGuard(cached, refetched).navigation.Redirect? ==>
      IndexGuard(cached, refetched).navigation == DashboardGuard(cached, refetched).navigation
  {
  }

  /** The guard reads the session store's user: after a logout the
      dashboard is reachable only if `refetchMe()` still yields someone, and
      after a successful login it is reached without a round trip. */
  lemma GuardAfterSessionChange(s: Session, reply: LogoutReply, email: string, password: string,
                                u: User, t: string, refetched: Option<User>)
    ensures var out := AfterLogout(s, reply).session;
      DashboardGuard(out.user, refetched).navigation
        == if refetched.Some? then Render(DashboardPage) else Redirect(SignInRoute)
    ensures var inn := AfterLogin(s, email, password, LoginOk(u, t)).session;
      DashboardGuard(inn.user, refetched) == GuardResult(Render(DashboardPage), false)
  {
  }
}
