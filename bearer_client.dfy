/** The token-based `api` instance. Its request interceptor attaches the
    stored token as a bearer `Authorization` header; its response interceptor
    passes successful responses through and, on a 401 for a request not yet
    marked `_retry`, marks it, calls `POST /auth/refreshToken` through the same
    instance, stores the returned token and replays the request with it, or
    removes the token and redirects to the login page. */
module BearerClient {
  import opened Common
  import opened Http

  const AuthHeader: string := "Authorization"

  function Bearer(token: string): string {
    "Bearer " + token
  }

  /** The token the request interceptor sees: `localStorage.getItem("token")`
      when it is truthy, i.e. present and not empty. */
  function StoredToken(storage: map<string, string>): (t: Option<string>)
    ensures t.Some? <==> TokenKey in storage && storage[TokenKey] != ""
    ensures t.Some? ==> t.value == storage[TokenKey]
  {
    if TokenKey in storage && storage[TokenKey] != "" then Some(storage[TokenKey]) else None
  }

  /** The request interceptor. */
  function Attach(req: Req, storage: map<string, string>): (r: Req)
    ensures r.verb == req.verb && r.url == req.url && r.retry == req.retry
    ensures StoredToken(storage).Some? ==>
      AuthHeader in r.headers && r.headers[AuthHeader] == Bearer(storage[TokenKey])
      && forall h :: h in req.headers && h != AuthHeader ==> h in r.headers && r.headers[h] == req.headers[h]
    ensures StoredToken(storage).None? ==> r == req
  {
    match StoredToken(storage)
    case None => req
    case Some(token) => req.(headers := req.headers[AuthHeader := Bearer(token)])
  }

  /** Attaching twice with the same storage is attaching once. */
  lemma AttachIdempotent(req: Req, storage: map<string, string>)
    ensures Attach(Attach(req, storage), storage) == Attach(req, storage)
  {
    if StoredToken(storage).Some? {
      var once := Attach(req, storage);
      assert once.headers[AuthHeader := Bearer(storage[TokenKey])] == once.headers;
    }
  }

  /** `const { token } = response.data`, written to storage with `setItem`,
      which turns a missing token into the string "undefined". */
  function TokenOf(data: map<string, string>): (t: string)
    ensures TokenKey in data ==> t == data[TokenKey]
    ensures TokenKey !in data ==> t == "undefined"
  {
    StoredForm(data, TokenKey)
  }

  /** `api(req)`: run the request interceptor, send the request, then run the
      response interceptor on an error reply. */
  function Call(req: Req, w: World, policy: RefreshPolicy): (r: Step)
    ensures |r.world.replies| <= |w.replies|
    ensures |w.log| < |r.world.log| && r.world.log[..|w.log| + 1] == w.log + [Attach(req, w.storage)]
    decreases |w.replies|, 0
  {
    var sent := Attach(req, w.storage);
    var (reply, w1) := Send(sent, w);
    match reply
    case None => Step(Pending, sent, w1)
    case Some(Success(data)) => Step(Resolved(data), sent, w1)
    case Some(Failure(status)) => OnRejected(sent, ApiError(|w.log|, status), w1, policy)
  }

  /** The response interceptor's error handler for a failed `req`. */
  function OnRejected(req: Req, error: ApiError, w: World, policy: RefreshPolicy): (r: Step)
    ensures |r.world.replies| <= |w.replies|
    ensures w.log <= r.world.log
    decreases |w.replies|, 1
  {
    if error.status == Some(401) && !req.retry then
      var marked := req.(retry := true);
      var refresh := Call(RefreshConfig(policy), w, policy);
      match refresh.out
      case Resolved(data) =>
        var token := TokenOf(data);
        Call(marked.(headers := marked.headers[AuthHeader := Bearer(token)]),
             refresh.world.(storage := refresh.world.storage[TokenKey := token]), policy)
      case Rejected(e) =>
        Step(Rejected(e), marked,
             refresh.world.(storage := refresh.world.storage - {TokenKey}, location := LoginPath))
      case Pending =>
        Step(Pending, marked, refresh.world)
    else
      Step(Rejected(error), req, w)
  }

  /** The world after the first request of a call has been sent and answered. */
  function AfterFirst(req: Req, w: World): World {
    Send(Attach(req, w.storage), w).1
  }

  /** The request as the replay after a successful refresh sends it. */
  function Replayed(req: Req, token: string): Req {
    req.(retry := true, headers := req.headers[AuthHeader := Bearer(token)])
  }

  /** A successful response is returned unchanged; the only request sent is
      the one the request interceptor prepared, and storage is untouched. */
  lemma SuccessPassesThrough(req: Req, w: World, policy: RefreshPolicy)
    requires w.replies != [] && w.replies[0].Success?
    ensures Call(req, w, policy).out == Resolved(w.replies[0].data)
    ensures Call(req, w, policy).world
         == w.(replies := w.replies[1..], log := w.log + [Attach(req, w.storage)])
  {
  }

  /** Any error other than a 401 on an unmarked request is rejected with the
      original error: one request is sent and storage and location are
      untouched. */
  lemma OtherErrorsRejectedUnchanged(req: Req, w: World, policy: RefreshPolicy)
    requires w.replies != [] && w.replies[0].Failure?
    requires w.replies[0].status != Some(401) || req.retry
    ensures Call(req, w, policy).out == Rejected(ApiError(|w.log|, w.replies[0].status))
    ensures Call(req, w, policy).world
         == w.(replies := w.replies[1..], log := w.log + [Attach(req, w.storage)])
  {
  }

  /** A request already marked `_retry` is sent exactly once and never
      triggers a refresh, whatever its reply. */
  lemma MarkedRequestSentOnce(req: Req, w: World, policy: RefreshPolicy)
    requires req.retry
    ensures var r := Call(req, w, policy);
      && r.world == AfterFirst(req, w)
      && r.req == Attach(req, w.storage)
      && r.out == match Send(Attach(req, w.storage), w).0
                  case None => Pending
                  case Some(Success(data)) => Resolved(data)
                  case Some(Failure(status)) => Rejected(ApiError(|w.log|, status))
  {
  }

  /** A 401 on an unmarked request marks it and sends the refresh call next,
      carrying the token that was stored before the refresh. */
  lemma RefreshFollowsMarking(req: Req, w: World, policy: RefreshPolicy)
    requires w.replies != [] && w.replies[0] == Failure(Some(401)) && !req.retry
    ensures var r := Call(req, w, policy);
      && r.req.retry
      && |r.world.log| >= |w.log| + 2
      && r.world.log[|w.log|] == Attach(req, w.storage)
      && r.world.log[|w.log| + 1] == Attach(RefreshConfig(policy), w.storage)
  {
    var w1 := AfterFirst(req, w);
    var refresh := Call(RefreshConfig(policy), w1, policy);
    assert refresh.world.log[|w1.log|] == Attach(RefreshConfig(policy), w1.storage);
    if refresh.out.Resolved? {
      var token := TokenOf(refresh.out.data);
      MarkedRequestSentOnce(Replayed(Attach(req, w.storage), token),
        refresh.world.(storage := refresh.world.storage[TokenKey := token]), policy);
    }
  }

  /** Once the request carries `Bearer <token>` and storage holds `<token>`,
      the request interceptor leaves the header as it is. */
  lemma AttachKeepsRefreshedHeader(req: Req, storage: map<string, string>, token: string)
    requires AuthHeader in req.headers && req.headers[AuthHeader] == Bearer(token)
    requires TokenKey in storage && storage[TokenKey] == token
    ensures Attach(req, storage) == req
  {
    if StoredToken(storage).Some? {
      assert req.headers[AuthHeader := Bearer(token)] == req.headers;
    }
  }

  /** After a successful refresh the returned token is written to storage and
      the original request, marked and carrying `Bearer <token>`, is sent
      exactly once more; its own result is the call's result. */
  lemma RefreshSuccessStoresTokenAndReplays(req: Req, w: World, policy: RefreshPolicy)
    requires w.replies != [] && w.replies[0] == Failure(Some(401)) && !req.retry
    requires Call(RefreshConfig(policy), AfterFirst(req, w), policy).out.Resolved?
    ensures var refresh := Call(RefreshConfig(policy), AfterFirst(req, w), policy);
      var token := TokenOf(refresh.out.data);
      var replay := Replayed(Attach(req, w.storage), token);
      var r := Call(req, w, policy);
      && r.world.storage == refresh.world.storage[TokenKey := token]
      && r.world.location == refresh.world.location
      && r.world.log == refresh.world.log + [replay]
      && replay.retry && replay.headers[AuthHeader] == Bearer(token)
      && r.out == match Send(replay, refresh.world).0
                  case None => Pending
                  case Some(Success(data)) => Resolved(data)
                  case Some(Failure(status)) => Rejected(ApiError(|refresh.world.log|, status))
  {
    var refresh := Call(RefreshConfig(policy), AfterFirst(req, w), policy);
    var token := TokenOf(refresh.out.data);
    var replay := Replayed(Attach(req, w.storage), token);
    var stored := refresh.world.(storage := refresh.world.storage[TokenKey := token]);
    AttachKeepsRefreshedHeader(replay, stored.storage, token);
    MarkedRequestSentOnce(replay, stored, policy);
  }

  /** When the refresh call fails, "token" is removed, the page goes to
      "/login", the refresh error (not the original one) is rejected, and the
      original request is not replayed. */
  lemma RefreshFailureRedirects(req: Req, w: World, policy: RefreshPolicy)
    requires w.replies != [] && w.replies[0] == Failure(Some(401)) && !req.retry
    requires Call(RefreshConfig(policy), AfterFirst(req, w), policy).out.Rejected?
    ensures var refresh := Call(RefreshConfig(policy), AfterFirst(req, w), policy);
      var r := Call(req, w, policy);
      && r.out == refresh.out
      && r.out.error.call != |w.log|
      && r.world.storage == refresh.world.storage - {TokenKey}
      && TokenKey !in r.world.storage
      && r.world.location == LoginPath
      && r.world.log == refresh.world.log
      && r.world.replies == refresh.world.replies
  {
    RejectionNamesASentRequest(RefreshConfig(policy), AfterFirst(req, w), policy);
  }

  /** A rejection always names a request sent during the call. */
  lemma {:induction false} RejectionNamesASentRequest(req: Req, w: World, policy: RefreshPolicy)
    requires Call(req, w, policy).out.Rejected?
    ensures |w.log| <= Call(req, w, policy).out.error.call < |Call(req, w, policy).world.log|
    decreases |w.replies|
  {
    var sent := Attach(req, w.storage);
    var (reply, w1) := Send(sent, w);
    if reply.Some? && reply.value == Failure(Some(401)) && !sent.retry {
      var refresh := Call(RefreshConfig(policy), w1, policy);
      if refresh.out.Rejected? {
        RejectionNamesASentRequest(RefreshConfig(policy), w1, policy);
      } else if refresh.out.Resolved? {
        var token := TokenOf(refresh.out.data);
        MarkedRequestSentOnce(Replayed(sent, token),
          refresh.world.(storage := refresh.world.storage[TokenKey := token]), policy);
      }
    }
  }

  /** The code as written: when the refresh endpoint answers 401 to every
      request, each refresh call is intercepted with a fresh, unmarked config
      and calls the refresh endpoint again. However many replies the server
      gives, the call never settles: every reply is used up, every request
      after the first is a refresh call, and the token is never removed nor
      the page redirected. */
  lemma {:induction false} DeadRefreshNeverSettles(req: Req, w: World)
    requires !req.retry
    requires forall i :: 0 <= i < |w.replies| ==> w.replies[i] == Failure(Some(401))
    ensures var r := Call(req, w, Intercepted);
      && r.out == Pending
      && r.world.replies == []
      && r.world.storage == w.storage && r.world.location == w.location
      && |r.world.log| == |w.log| + |w.replies| + 1
      && r.world.log[|w.log|] == Attach(req, w.storage)
      && forall k :: |w.log| < k < |r.world.log| ==>
           r.world.log[k] == Attach(RefreshConfig(Intercepted), w.storage)
    decreases |w.replies|
  {
    if w.replies != [] {
      var w1 := AfterFirst(req, w);
      assert forall i :: 0 <= i < |w1.replies| ==> w1.replies[i] == w.replies[i + 1];
      DeadRefreshNeverSettles(RefreshConfig(Intercepted), w1);
      var refresh := Call(RefreshConfig(Intercepted), w1, Intercepted);
      assert Call(req, w, Intercepted)
          == Step(Pending, Attach(req, w.storage).(retry := true), refresh.world);
      assert refresh.world.log[..|w1.log|] == w1.log;
    }
  }

  /** The intended behaviour, with the refresh call sent already marked: every
      call settles once the server has given three replies, after at most
      three requests. */
  lemma ExemptRefreshSettles(req: Req, w: World)
    requires |w.replies| >= 3
    ensures Call(req, w, Exempt).out != Pending
    ensures |Call(req, w, Exempt).world.log| <= |w.log| + 3
  {
    var sent := Attach(req, w.storage);
    var (reply, w1) := Send(sent, w);
    if reply == Some(Failure(Some(401))) && !req.retry {
      MarkedRequestSentOnce(RefreshConfig(Exempt), w1, Exempt);
      var refresh := Call(RefreshConfig(Exempt), w1, Exempt);
      if refresh.out.Resolved? {
        var token := TokenOf(refresh.out.data);
        MarkedRequestSentOnce(Replayed(sent, token),
          refresh.world.(storage := refresh.world.storage[TokenKey := token]), Exempt);
      }
    }
  }

  /** With the refresh call exempt, a refresh endpoint that answers 401 ends
      the call: the refresh error is rejected, "token" is removed and the page
      goes to "/login", after exactly two requests. */
  lemma ExemptDeadRefreshRedirects(req: Req, w: World)
    requires !req.retry
    requires |w.replies| >= 2 && w.replies[0] == Failure(Some(401)) && w.replies[1] == Failure(Some(401))
    ensures var r := Call(req, w, Exempt);
      && r.out == Rejected(ApiError(|w.log| + 1, Some(401)))
      && r.world.storage == w.storage - {TokenKey}
      && r.world.location == LoginPath
      && r.world.log == w.log + [Attach(req, w.storage), Attach(RefreshConfig(Exempt), w.storage)]
  {
    MarkedRequestSentOnce(RefreshConfig(Exempt), AfterFirst(req, w), Exempt);
  }

  /** `api(config)` on the objects themselves: the request interceptor writes
      the header into the config object, the response interceptor marks it in
      place, creates a new config object for the refresh call and changes
      `localStorage` and the location step by step. It behaves exactly as
      `Call` with the refresh call intercepted. */
  method Request(cfg: Config, browser: Browser, backend: Backend) returns (out: Outcome)
    modifies cfg, browser, backend
    ensures Step(out, cfg.Value(), WorldOf(browser, backend))
         == Call(old(cfg.Value()), old(WorldOf(browser, backend)), Intercepted)
    decreases |backend.replies|, 0
  {
    ghost var w := WorldOf(browser, backend);
    var token := browser.GetItem(TokenKey);
    if token.Some? && token.value != "" {
      cfg.headers := cfg.headers[AuthHeader := Bearer(token.value)];
    }
    var reply := backend.Send(cfg.Value());
    assert (reply, WorldOf(browser, backend)) == Send(cfg.Value(), w);
    match reply {
      case None =>
        out := Pending;
      case Some(Success(data)) =>
        out := Resolved(data);
      case Some(Failure(status)) =>
        out := Intercept(cfg, ApiError(|backend.log| - 1, status), browser, backend);
    }
  }

  /** The response interceptor's error handler on the objects themselves. */
  method Intercept(cfg: Config, error: ApiError, browser: Browser, backend: Backend) returns (out: Outcome)
    modifies cfg, browser, backend
    ensures Step(out, cfg.Value(), WorldOf(browser, backend))
         == OnRejected(old(cfg.Value()), error, old(WorldOf(browser, backend)), Intercepted)
    decreases |backend.replies|, 1
  {
    if error.status == Some(401) && !cfg.retry {
      cfg.retry := true;
      var refreshCfg := new Config(Post, RefreshUrl);
      var refreshed := Request(refreshCfg, browser, backend);
      match refreshed {
        case Resolved(data) =>
          var token := TokenOf(data);
          browser.SetItem(TokenKey, token);
          cfg.headers := cfg.headers[AuthHeader := Bearer(token)];
          out := Request(cfg, browser, backend);
        case Rejected(e) =>
          browser.RemoveItem(TokenKey);
          browser.location := LoginPath;
          out := Rejected(e);
        case Pending =>
          out := Pending;
      }
    } else {
      out := Rejected(error);
    }
  }
}
