/** The authentication provider: the signed-in user, the loading flag, the
    route guard that redirects between the public and the protected pages,
    and the login, logout and restore-on-mount transitions. */
module Auth {
  import opened Wrappers
  import opened Text
  import opened Browser

  const ProtectedRoutes: seq<string> := ["/dashboard", "/profile", "/settings"]
  const PublicRoutes: seq<string> := ["/", "/login", "/signup"]

  /** `protectedRoutes.some(route => pathname.startsWith(route))`: a prefix
      test, so "/settingsX" and "/dashboard/history" are protected too. */
  predicate IsProtected(pathname: string) {
    exists route | route in ProtectedRoutes :: StartsWith(pathname, route)
  }

  /** `publicRoutes.includes(pathname)`: an exact test. */
  predicate IsPublic(pathname: string) {
    pathname in PublicRoutes
  }

  /** The redirect effect: the one path it pushes, if any. */
  function RedirectFor(user: Option<User>, pathname: string, isLoading: bool): (target: Option<string>)
    ensures isLoading ==> target == None
    ensures target == None || target == Some("/login") || target == Some("/dashboard")
  {
    if isLoading then None
    else if user.None? && IsProtected(pathname) then Some("/login")
    else if user.Some? && IsPublic(pathname) then Some("/dashboard")
    else None
  }

  /** What a signed-out visitor gets, once loading is over: "/login" exactly
      on the protected paths, and nothing elsewhere. */
  lemma SignedOutRedirect(pathname: string)
    ensures RedirectFor(None, pathname, false) == (if IsProtected(pathname) then Some("/login") else None)
  {
  }

  /** What a signed-in user gets: "/dashboard" exactly on the three public
      paths, and nothing on a protected one. */
  lemma SignedInRedirect(user: User, pathname: string)
    ensures RedirectFor(Some(user), pathname, false) == (if IsPublic(pathname) then Some("/dashboard") else None)
  {
  }

  /** Prefix against exact matching: "/settingsX" is guarded, "/login/" is
      not treated as the login page. */
  lemma PrefixAndExactMatching(user: User)
    ensures RedirectFor(None, "/settingsX", false) == Some("/login")
    ensures RedirectFor(None, "/dashboard/history", false) == Some("/login")
    ensures RedirectFor(Some(user), "/login/", false) == None
    ensures RedirectFor(None, "/", false) == None
  {
    assert StartsWith("/settingsX", "/settings");
    assert StartsWith("/dashboard/history", "/dashboard");
  }

  /** No path is both public and protected. */
  lemma PublicAndProtectedDisjoint(pathname: string)
    ensures !(IsPublic(pathname) && IsProtected(pathname))
  {
  }

  /** Following a redirect ends the redirecting: on the target path the same
      user is not redirected again. */
  lemma RedirectSettles(user: Option<User>, pathname: string)
    ensures match RedirectFor(user, pathname, false)
            case Some(target) => RedirectFor(user, target, false) == None
            case None => true
  {
    match RedirectFor(user, pathname, false)
    case Some(target) =>
      if target == "/login" {
        PublicAndProtectedDisjoint("/login");
      } else {
        PublicAndProtectedDisjoint("/dashboard");
        assert StartsWith("/dashboard", "/dashboard");
      }
    case None =>
  }

  function OptionToSeq<T>(o: Option<T>): seq<T> {
    match o
    case Some(x) => [x]
    case None => []
  }

  class AuthProvider {
    var user: Option<User>
    var isLoading: bool
    const storage: LocalStorage
    const router: Router

    /** The provider's initial state: nobody signed in, still loading. */
    constructor (storage: LocalStorage, router: Router)
      ensures user == None && isLoading
      ensures this.storage == storage && this.router == router
    {
      user := None;
      isLoading := true;
      this.storage := storage;
      this.router := router;
    }

    /** The mount effect: restore a stored user, then stop loading whether or
        not one was found. */
    method Restore()
      modifies this
      ensures user == (if storage.user.Some? then storage.user else old(user))
      ensures !isLoading
    {
      if storage.user.Some? {
        user := storage.user;
      }
      isLoading := false;
    }

    /** The redirect effect, run for the current pathname. */
    method EnforceRoute(pathname: string)
      modifies router
      ensures router.history == old(router.history) + OptionToSeq(RedirectFor(user, pathname, isLoading))
    {
      var target := RedirectFor(user, pathname, isLoading);
      if target.Some? {
        router.Push(target.value);
      }
    }

    /** `login`: sign the user in and store the same record. */
    method Login(userData: User)
      modifies this, storage
      ensures user == Some(userData) && storage.user == Some(userData)
      ensures isLoading == old(isLoading) && storage.phoneModel == old(storage.phoneModel)
    {
      user := Some(userData);
      storage.user := Some(userData);
    }

    /** `logout`: sign out, forget the stored record, go to the landing page. */
    method Logout()
      modifies this, storage, router
      ensures user == None && storage.user == None
      ensures router.history == old(router.history) + ["/"]
      ensures isLoading == old(isLoading) && storage.phoneModel == old(storage.phoneModel)
    {
      user := None;
      storage.user := None;
      router.Push("/");
    }
  }

  const OutsideProviderError := "useAuth must be used within an AuthProvider"

  /** `useAuth`: the provider in scope, or the error it throws without one. */
  function UseAuth(context: Option<AuthProvider>): (r: Result<AuthProvider, string>)
    ensures r.Failure? <==> context.None?
    ensures r.Failure? ==> r.error == OutsideProviderError
    ensures r.Success? ==> r.value == context.value
  {
    match context
    case None => Failure(OutsideProviderError)
    case Some(provider) => Success(provider)
  }
}
