/**
 * The authentication hook: the user known so far, whether it is still
 * loading, and the redirect the sign-in state callback makes for the
 * current page.
 */
module UseAuth {
  import opened Wrappers

  /** The user state: not yet reported, reported signed out, or signed in. */
  datatype UserState = Unknown | SignedOut | SignedIn(uid: string)

  /** `isAuthPage`: the login and register pages, matched exactly. */
  predicate IsAuthPage(pathname: string)
  {
    pathname == "/login" || pathname == "/register"
  }

  /** The page the callback sends the user to, if any. */
  function Redirect(signedIn: bool, protectedRoute: bool, pathname: string): (r: Option<string>)
    ensures r == Some("/") <==> signedIn && IsAuthPage(pathname)
    ensures r == Some("/login") <==> !signedIn && protectedRoute && !IsAuthPage(pathname)
    ensures r.None? <==> !(signedIn && IsAuthPage(pathname)) && !(!signedIn && protectedRoute && !IsAuthPage(pathname))
  {
    if signedIn && IsAuthPage(pathname) then Some("/")
    else if !signedIn && protectedRoute && !IsAuthPage(pathname) then Some("/login")
    else None
  }

  /**
   * Redirects never loop: after a redirect, a new callback with the same
   * sign-in state on the page reached redirects no further.
   */
  lemma RedirectSettles(signedIn: bool, protectedRoute: bool, pathname: string)
    requires Redirect(signedIn, protectedRoute, pathname).Some?
    ensures Redirect(signedIn, protectedRoute, Redirect(signedIn, protectedRoute, pathname).value).None?
  {
  }

  /** An unprotected page never sends anyone to the login page. */
  lemma UnprotectedNeverToLogin(signedIn: bool, pathname: string)
    ensures Redirect(signedIn, false, pathname) != Some("/login")
  {
  }

  class AuthHook {
    const protectedRoute: bool
    const pathname: string
    var user: UserState
    /** Pages the router was sent to, in order. */
    var navigations: seq<string>

    constructor (protectedRoute: bool, pathname: string)
      ensures this.protectedRoute == protectedRoute && this.pathname == pathname
      ensures user == Unknown && navigations == []
    {
      this.protectedRoute, this.pathname := protectedRoute, pathname;
      user, navigations := Unknown, [];
    }

    /** `loading`: no sign-in state has been reported yet. */
    predicate Loading()
      reads this
    {
      user == Unknown
    }

    /** The `onAuthStateChanged` callback: stores the user and redirects when the page calls for it. */
    method OnAuthStateChanged(current: Option<string>)
      modifies this`user, this`navigations
      ensures user == (if current.Some? then SignedIn(current.value) else SignedOut)
      ensures !Loading()
      ensures var target := Redirect(current.Some?, protectedRoute, pathname);
        navigations == old(navigations) + (if target.Some? then [target.value] else [])
    {
      user := if current.Some? then SignedIn(current.value) else SignedOut;
      var isAuthPage := pathname == "/login" || pathname == "/register";
      if current.Some? && isAuthPage {
        navigations := navigations + ["/"];
      } else if current.None? && protectedRoute && !isAuthPage {
        navigations := navigations + ["/login"];
      }
    }
  }
}
