/** The older session provider of the bearer variant (`AuthProvider` under
    `src/auth`): the current user and whether the first session check is
    still running. Its `logout` clears the token store and sends the browser
    to the login page by assigning `window.location.href`. */
module LegacySession {
  import opened Common
  import opened Http
  import TokenStore
  import BearerClient
  import Session

  class AuthProvider {
    var user: Option<Session.Profile>
    var isLoading: bool

    /** On mount: no user, and the session check running. */
    constructor ()
      ensures user == None && isLoading
    {
      user := None;
      isLoading := true;
    }

    /** `checkSession`, with the session call's result (`None` when it
        rejects): the user is what the server said, or nobody; loading is
        over on both paths. */
    method CheckSession(current: Option<Session.Profile>)
      modifies this
      ensures user == current && !isLoading
    {
      match current {
        case Some(userData) =>
          user := Some(userData);
        case None =>
          user := None;
      }
      isLoading := false;
    }

    /** `logout`. `logoutUser` only removes two storage keys and cannot
        throw, so the catch is never taken and the promise never rejects;
        the `finally` block always runs. */
    method Logout(browser: Browser)
      modifies this, browser
      ensures user == None && isLoading == old(isLoading)
      ensures browser.storage == TokenStore.Logout(old(browser.storage))
      ensures browser.location == LoginPath
    {
      TokenStore.LogoutUser(browser);
      user := None;
      browser.location := LoginPath;
    }
  }

  /** After `logout` no request the bearer `api` instance sends carries an
      `Authorization` header it did not already have: the request interceptor
      finds no token. */
  lemma LogoutStopsBearerHeader(req: Req, storage: map<string, string>)
    ensures BearerClient.StoredToken(TokenStore.Logout(storage)).None?
    ensures BearerClient.Attach(req, TokenStore.Logout(storage)) == req
  {
  }
}
