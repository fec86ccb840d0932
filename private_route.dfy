/** `PrivateRoute`: the guard in front of the pages that need a session. */
module PrivateRoute {
  import opened Common

  /** What the guard renders. */
  datatype View = Spinner | Redirect(to: string, replace: bool) | Outlet

  /** The guard's decision for the session state `(isLoading, user)`. */
  function Decide<U>(isLoading: bool, user: Option<U>): View {
    if isLoading then Spinner
    else if user.None? then Redirect("/login", true)
    else Outlet
  }

  /** While the session check runs the spinner is shown whoever the user is;
      afterwards a missing user is sent to "/login", replacing the history
      entry; the protected page is rendered exactly when the check is over and
      there is a user; and every state gets exactly one of the three. */
  lemma DecisionCases<U>(isLoading: bool, user: Option<U>)
    ensures Decide(isLoading, user) == Spinner <==> isLoading
    ensures Decide(isLoading, user) == Redirect("/login", true) <==> !isLoading && user.None?
    ensures Decide(isLoading, user) == Outlet <==> !isLoading && user.Some?
    ensures Decide(isLoading, user).Spinner? || Decide(isLoading, user).Redirect? || Decide(isLoading, user).Outlet?
  {
  }
}
