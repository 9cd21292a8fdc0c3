/** The guard around the admin pages: a spinner while the session check
    runs, a redirect to the login page when nobody is signed in, the page
    otherwise. */
module RouteGuard {
  import opened Js
  import UserSlice

  datatype View = Spinner | Redirect(to: string) | Children

  function Guard(loading: bool, user: Value): View {
    if loading then Spinner
    else if !Truthy(user) then Redirect("/login")
    else Children
  }

  /** The three outcomes and the conditions that give each: exactly one
      holds for every state. */
  lemma GuardCases(loading: bool, user: Value)
    ensures Guard(loading, user) == Spinner <==> loading
    ensures Guard(loading, user) == Redirect("/login") <==> !loading && !Truthy(user)
    ensures Guard(loading, user) == Children <==> !loading && Truthy(user)
    ensures Guard(loading, user).Redirect? ==> Guard(loading, user).to == "/login"
  {
  }

  /** On the user store: before the session check ends the spinner shows;
      after a sign-out the login page; after a user record is set, the page. */
  lemma GuardOverStore(s: UserSlice.State, u: Value)
    ensures Guard(UserSlice.INITIAL.loading, UserSlice.INITIAL.user) == Spinner
    ensures var t := UserSlice.Next(s, UserSlice.ClearUser); Guard(t.loading, t.user) == Redirect("/login")
    ensures Truthy(u) ==> var t := UserSlice.Next(s, UserSlice.SetUser(u)); Guard(t.loading, t.user) == Children
    ensures var t := UserSlice.Next(s, UserSlice.SetLoading(true)); Guard(t.loading, t.user) == Spinner
  {
  }
}
