/** The session provider of the cookie variant (`AuthProvider` under
    `src/context`): the current user, whether the first session check is still
    running, and the navigations it has asked for. The server calls behind it
    are given as their results. */
module Session {
  import opened Common
  import opened PrivateRoute

  /** `UserResponse` as `/users/me` returns it. */
  datatype Profile = Profile(email: string, ratingCount: int, averageRating: real)

  datatype State = State(user: Option<Profile>, isLoading: bool, navigations: seq<string>)

  const DashboardPath: string := "/dashboard"
  const LoginPath: string := "/login"

  /** The provider on mount: no user, and the session check running. */
  const Initial: State := State(None, true, [])

  /** What can happen to the provider, with the results of the server calls
      it makes: `current` is what `getCurrentUser` resolves to (`None` when
      it rejects), `accepted` whether `loginUser` resolves, `serverOk` whether
      the logout call resolves. */
  datatype Event =
    | SessionCheck(current: Option<Profile>)
    | LoginAttempt(accepted: bool, current: Option<Profile>)
    | LogoutRequest(serverOk: bool)

  /** `checkSession`: the user is whatever the server said, or nobody when the
      call failed; loading is over either way. */
  function Checked(s: State, current: Option<Profile>): State {
    s.(user := current, isLoading := false)
  }

  /** The provider's state after `e`. */
  function Apply(s: State, e: Event): State {
    match e
    case SessionCheck(current) => Checked(s, current)
    case LoginAttempt(accepted, current) =>
      if accepted then
        var c := Checked(s, current);
        c.(navigations := c.navigations + [DashboardPath])
      else s
    case LogoutRequest(_) => s.(user := None, navigations := s.navigations + [LoginPath])
  }

  /** Whether the promise returned for `e` rejects: only a failed `loginUser`
      is rethrown; `checkSession` and `logout` swallow their errors. */
  predicate Rejects(e: Event) {
    e.LoginAttempt? && !e.accepted
  }

  /** The provider's state after a sequence of events. */
  function Run(s: State, events: seq<Event>): State
    decreases |events|
  {
    if events == [] then s else Run(Apply(s, events[0]), events[1..])
  }

  /** `checkSession` ends with the server's answer as the user and loading
      over, on both paths, and navigates nowhere. */
  lemma CheckSessionSettles(s: State, current: Option<Profile>)
    ensures var r := Apply(s, SessionCheck(current));
      && r.user == current && !r.isLoading && r.navigations == s.navigations
      && (current.None? ==> Decide(r.isLoading, r.user) == Redirect(LoginPath, true))
      && (current.Some? ==> Decide(r.isLoading, r.user) == Outlet)
  {
  }

  /** A successful `login` checks the session and then navigates to
      "/dashboard", even when the session check fails and leaves no user; a
      failed one is rethrown and changes nothing. */
  lemma LoginOutcomes(s: State, accepted: bool, current: Option<Profile>)
    ensures var r := Apply(s, LoginAttempt(accepted, current));
      && (accepted ==>
            !Rejects(LoginAttempt(accepted, current)) && r.user == current && !r.isLoading
            && r.navigations == s.navigations + [DashboardPath])
      && (!accepted ==> Rejects(LoginAttempt(accepted, current)) && r == s)
  {
  }

  /** `logout` always ends with no user and a navigation to "/login", whether
      the server call fails or not, never rejects, and leaves no protected
      page rendered. */
  lemma LogoutAlwaysSignsOut(s: State, serverOk: bool)
    ensures var r := Apply(s, LogoutRequest(serverOk));
      && r == Apply(s, LogoutRequest(!serverOk))
      && !Rejects(LogoutRequest(serverOk))
      && r.user.None? && r.navigations == s.navigations + [LoginPath]
      && Decide(r.isLoading, r.user) != Outlet
  {
  }

  /** Before the first session check the guard shows the spinner. */
  lemma InitialShowsSpinner()
    ensures Decide(Initial.isLoading, Initial.user) == Spinner
  {
  }

  /** Loading never comes back: once a check has finished, no sequence of
      events sets `isLoading` again, the navigations only grow, and every
      navigation added is to "/dashboard" or "/login". */
  lemma {:induction false} LoadingNeverReturns(s: State, events: seq<Event>)
    ensures !s.isLoading ==> !Run(s, events).isLoading
    ensures s.navigations <= Run(s, events).navigations
    ensures forall i :: |s.navigations| <= i < |Run(s, events).navigations| ==>
      Run(s, events).navigations[i] in {DashboardPath, LoginPath}
    decreases |events|
  {
    if events != [] {
      var s1 := Apply(s, events[0]);
      LoadingNeverReturns(s1, events[1..]);
    }
  }

  /** Starting from mount, loading is over exactly when some event so far
      has run `checkSession`: a session check, or a login whose `loginUser`
      resolved. */
  lemma {:induction false} LoadingEndsWithFirstCheck(s: State, events: seq<Event>)
    requires s.isLoading
    ensures !Run(s, events).isLoading <==>
      exists i :: 0 <= i < |events| && (events[i].SessionCheck? || (events[i].LoginAttempt? && events[i].accepted))
    decreases |events|
  {
    if events != [] {
      var e := events[0];
      var s1 := Apply(s, e);
      if e.SessionCheck? || (e.LoginAttempt? && e.accepted) {
        LoadingNeverReturns(s1, events[1..]);
      } else {
        LoadingEndsWithFirstCheck(s1, events[1..]);
        if !Run(s, events).isLoading {
          var i :| 0 <= i < |events[1..]| && (events[1..][i].SessionCheck? || (events[1..][i].LoginAttempt? && events[1..][i].accepted));
          assert events[i + 1] == events[1..][i];
        } else {
          forall i | 0 <= i < |events|
            ensures !(events[i].SessionCheck? || (events[i].LoginAttempt? && events[i].accepted))
          {
            if i > 0 {
              assert events[i] == events[1..][i - 1];
            }
          }
        }
      }
    }
  }

  /** The provider as the component holds it: three pieces of React state,
      changed by its handlers. */
  class AuthProvider {
    var user: Option<Profile>
    var isLoading: bool
    var navigations: seq<string>

    constructor ()
      ensures Snapshot() == Initial
    {
      user := None;
      isLoading := true;
      navigations := [];
    }

    function Snapshot(): State
      reads this
    {
      State(user, isLoading, navigations)
    }

    /** `checkSession`, with `getCurrentUser`'s result. */
    method CheckSession(current: Option<Profile>)
      modifies this
      ensures Snapshot() == Apply(old(Snapshot()), SessionCheck(current))
    {
      match current {
        case Some(userData) =>
          user := Some(userData);
        case None =>
          user := None;
      }
      isLoading := false;
    }

    /** `login`: `rejected` is whether the returned promise rejects. */
    method Login(accepted: bool, current: Option<Profile>) returns (rejected: bool)
      modifies this
      ensures Snapshot() == Apply(old(Snapshot()), LoginAttempt(accepted, current))
      ensures rejected == Rejects(LoginAttempt(accepted, current))
    {
      if !accepted {
        return true;
      }
      CheckSession(current);
      navigations := navigations + [DashboardPath];
      rejected := false;
    }

    /** `logout`, whatever the server call does. */
    method Logout(serverOk: bool)
      modifies this
      ensures Snapshot() == Apply(old(Snapshot()), LogoutRequest(serverOk))
    {
      user := None;
      navigations := navigations + [LoginPath];
    }
  }
}
