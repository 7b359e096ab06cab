/** Whether the application header is rendered: never on the sign-in and
    verify-request pages, and only for an authenticated session. */
module ConditionalHeader {

  /** The session states of the authentication client. */
  datatype SessionStatus = Authenticated | Unauthenticated | Loading

  const HideHeaderOnRoutes: seq<string> := ["/auth/signin", "/auth/verify-request"]

  function ShowHeader(pathname: string, status: SessionStatus): (show: bool)
    ensures show <==>
      pathname != "/auth/signin" && pathname != "/auth/verify-request" && status == Authenticated
  {
    !(pathname in HideHeaderOnRoutes || status != Authenticated)
  }

  lemma HiddenOnAuthPages(status: SessionStatus)
    ensures !ShowHeader("/auth/signin", status)
    ensures !ShowHeader("/auth/verify-request", status)
  {
  }

  lemma HiddenUnlessAuthenticated(pathname: string, status: SessionStatus)
    requires status != Authenticated
    ensures !ShowHeader(pathname, status)
  {
  }

  /** Any other page shows the header once the session is authenticated. */
  lemma ShownElsewhereWhenAuthenticated(pathname: string)
    requires pathname !in HideHeaderOnRoutes
    ensures ShowHeader(pathname, Authenticated)
  {
  }
}
