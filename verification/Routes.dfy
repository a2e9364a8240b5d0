/**
 * The two route guards of the app shell (src/App.tsx): `ProtectedRoute`
 * wraps the pages that need a session, `PublicRoute` wraps the sign-in
 * and registration pages.
 */
module Routes {
  import opened Wrappers
  import opened Types
  import opened Auth

  /** What a guard does: show the wrapped page, or redirect to a path. */
  datatype Decision = RenderChildren | RedirectTo(path: string)

  function ProtectedRoute(isAuthenticated: bool): (d: Decision)
    ensures d == RenderChildren <==> isAuthenticated
    ensures !isAuthenticated ==> d == RedirectTo("/login")
  {
    if !isAuthenticated then RedirectTo("/login") else RenderChildren
  }

  function PublicRoute(isAuthenticated: bool, user: Option<User>): (d: Decision)
    ensures d == RenderChildren <==> !isAuthenticated
    ensures d == RedirectTo("/onboarding") <==> isAuthenticated && user.Some? && !user.value.onboardingCompleted
    ensures d == RedirectTo("/dashboard") <==> isAuthenticated && (user.None? || user.value.onboardingCompleted)
  {
    if isAuthenticated then
      if user.Some? && !user.value.onboardingCompleted then RedirectTo("/onboarding")
      else RedirectTo("/dashboard")
    else RenderChildren
  }

  /** In every session state exactly one of the two guards shows its page. */
  lemma ExactlyOneGuardRenders(isAuthenticated: bool, user: Option<User>)
    ensures (ProtectedRoute(isAuthenticated) == RenderChildren) != (PublicRoute(isAuthenticated, user) == RenderChildren)
  {
  }

  /** A newly registered user is sent from the public pages to onboarding. */
  lemma RegisteredGoesToOnboarding(data: RegisterData, now: nat, profileIso: string, userIso: string)
    ensures PublicRoute(true, Some(CreateDemoUser(data, now, profileIso, userIso))) == RedirectTo("/onboarding")
  {
  }

  /** A signed-in demo user has finished onboarding and is sent to the dashboard. */
  lemma LoggedInGoesToDashboard(email: string, profileIso: string, userIso: string)
    ensures PublicRoute(true, Some(LoginUser(email, profileIso, userIso))) == RedirectTo("/dashboard")
  {
  }

  /** The session after `completeOnboarding` is sent to the dashboard. */
  lemma OnboardedGoesToDashboard(u: User)
    ensures PublicRoute(true, Some(u.(onboardingCompleted := true))) == RedirectTo("/dashboard")
  {
  }
}
