/** The token store of the bearer variant: `loginUser` posts the credentials
    and keeps the returned token and refresh token in `localStorage`;
    `logoutUser` removes both keys. */
module TokenStore {
  import opened Common
  import opened Http

  /** How `loginUser` settles: it returns the response body, or rethrows the
      error of the POST (its status; `None` when there was no response). */
  datatype LoginResult = Returned(data: map<string, string>) | Thrown(status: Option<int>)

  /** The body carries a truthy `token`. */
  predicate HasToken(data: map<string, string>) {
    TokenKey in data && data[TokenKey] != ""
  }

  /** `localStorage` after `loginUser` has seen `reply`. */
  function StoreLogin(storage: map<string, string>, reply: Reply): (r: map<string, string>)
    ensures reply.Success? && HasToken(reply.data) ==>
      && TokenKey in r && r[TokenKey] == reply.data[TokenKey]
      && RefreshTokenKey in r && r[RefreshTokenKey] == StoredForm(reply.data, RefreshTokenKey)
    ensures !(reply.Success? && HasToken(reply.data)) ==> r == storage
    ensures forall k :: k != TokenKey && k != RefreshTokenKey ==>
      (k in r <==> k in storage) && (k in r ==> r[k] == storage[k])
  {
    match reply
    case Success(data) =>
      if HasToken(data) then
        storage[TokenKey := data[TokenKey]][RefreshTokenKey := StoredForm(data, RefreshTokenKey)]
      else storage
    case Failure(_) => storage
  }

  /** What `loginUser` returns or throws for `reply`. */
  function ResultOf(reply: Reply): (r: LoginResult)
    ensures r.Returned? <==> reply.Success?
    ensures reply.Success? ==> r.data == reply.data
    ensures reply.Failure? ==> r.status == reply.status
  {
    match reply
    case Success(data) => Returned(data)
    case Failure(status) => Thrown(status)
  }

  /** `localStorage` after `logoutUser`. */
  function Logout(storage: map<string, string>): (r: map<string, string>)
    ensures forall k :: k in r <==> k in storage && k != TokenKey && k != RefreshTokenKey
    ensures forall k :: k in r ==> r[k] == storage[k]
  {
    storage - {TokenKey, RefreshTokenKey}
  }

  /** Logging out after a login leaves exactly what logging out before it
      would have left: a login writes nothing but the two token keys. */
  lemma LogoutUndoesLogin(storage: map<string, string>, reply: Reply)
    ensures Logout(StoreLogin(storage, reply)) == Logout(storage)
  {
    var a := Logout(StoreLogin(storage, reply));
    var b := Logout(storage);
    assert a.Keys == b.Keys;
  }

  /** Logging out twice is logging out once. */
  lemma LogoutIdempotent(storage: map<string, string>)
    ensures Logout(Logout(storage)) == Logout(storage)
  {
    assert Logout(Logout(storage)).Keys == Logout(storage).Keys;
  }

  /** `loginUser` on the browser itself. The POST goes through plain axios, not
      through an intercepted instance, so its reply is used as it comes. */
  method LoginUser(browser: Browser, reply: Reply) returns (r: LoginResult)
    modifies browser
    ensures browser.storage == StoreLogin(old(browser.storage), reply)
    ensures browser.location == old(browser.location)
    ensures r == ResultOf(reply)
  {
    match reply {
      case Failure(status) =>
        r := Thrown(status);
      case Success(data) =>
        if TokenKey in data && data[TokenKey] != "" {
          browser.SetItem(TokenKey, data[TokenKey]);
          browser.SetItem(RefreshTokenKey, StoredForm(data, RefreshTokenKey));
        }
        r := Returned(data);
    }
  }

  /** `logoutUser` on the browser itself. */
  method LogoutUser(browser: Browser)
    modifies browser
    ensures browser.storage == Logout(old(browser.storage))
    ensures browser.location == old(browser.location)
  {
    browser.RemoveItem(TokenKey);
    browser.RemoveItem(RefreshTokenKey);
  }
}
