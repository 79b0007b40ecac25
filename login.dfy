/**
 * The sign-in page (src/pages/Login.tsx): a presence check on the two
 * fields decides between navigating on and an alert. Nothing is checked
 * against any store and nothing is written to storage.
 */
module Login {
  import PrivateRoute

  /** What `handleLogin` does: navigate to a route, or show an alert. */
  datatype LoginOutcome = Navigate(to: string) | Alert(message: string)

  const SearchRoute := "/search"
  const MissingFieldsAlert := "Por favor, preencha todos os campos"

  function HandleLogin(username: string, password: string): (r: LoginOutcome)
    ensures r.Navigate? <==> username != "" && password != ""
    ensures r.Navigate? ==> r.to == SearchRoute
    ensures r.Alert? ==> r.message == MissingFieldsAlert
  {
    if username != "" && password != "" then Navigate(SearchRoute) else Alert(MissingFieldsAlert)
  }

  /** Any two non-empty strings are accepted alike: there is no credential check. */
  lemma AnyCredentialsAccepted(username: string, password: string, otherUser: string, otherPassword: string)
    requires username != "" && password != "" && otherUser != "" && otherPassword != ""
    ensures HandleLogin(username, password) == HandleLogin(otherUser, otherPassword) == Navigate(SearchRoute)
  {
  }

  /**
   * `handleLogin` neither reads nor writes storage (its model takes no storage
   * and returns none), so the gate's decision is the same before and after a
   * sign-in: whatever the sign-in returns, a visitor without a stored session
   * is still redirected to `/`.
   */
  lemma LoginDoesNotOpenGate(storage: PrivateRoute.Storage)
    requires PrivateRoute.SessionKey !in storage
    ensures PrivateRoute.Guard(storage) == PrivateRoute.Redirect("/")
  {
  }
}
