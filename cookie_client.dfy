/** The cookie-based `api` instance: its response interceptor passes
    successful responses through and, on a 401 for a request not yet marked
    `_retry`, marks it, calls `POST /auth/refreshToken` through the same
    instance, and then replays the request or clears the stored user and
    redirects to the login page. */
module CookieClient {
  import opened Common
  import opened Http

  /** `api(req)`: send the request, then run the response interceptor on an
      error reply. */
  function Call(req: Req, w: World, policy: RefreshPolicy): (r: Step)
    ensures |r.world.replies| <= |w.replies|
    ensures |w.log| < |r.world.log| && r.world.log[..|w.log| + 1] == w.log + [req]
    decreases |w.replies|, 0
  {
    var (reply, w1) := Send(req, w);
    match reply
    case None => Step(Pending, req, w1)
    case Some(Success(data)) => Step(Resolved(data), req, w1)
    case Some(Failure(status)) => OnRejected(req, ApiError(|w.log|, status), w1, policy)
  }

  /** The interceptor's error handler for a failed `req`. */
  function OnRejected(req: Req, error: ApiError, w: World, policy: RefreshPolicy): (r: Step)
    ensures |r.world.replies| <= |w.replies|
    ensures w.log <= r.world.log
    decreases |w.replies|, 1
  {
    if error.status == Some(401) && !req.retry then
      var marked := req.(retry := true);
      var refresh := Call(RefreshConfig(policy), w, policy);
      match refresh.out
      case Resolved(_) =>
        Call(marked, refresh.world, policy)
      case Rejected(e) =>
        Step(Rejected(e), marked,
             refresh.world.(storage := refresh.world.storage - {UserKey}, location := LoginPath))
      case Pending =>
        Step(Pending, marked, refresh.world)
    else
      Step(Rejected(error), req, w)
  }

  /** The world after the first request of a call has been sent and answered. */
  function AfterFirst(req: Req, w: World): World {
    Send(req, w).1
  }

  /** A successful response is returned unchanged and nothing else happens. */
  lemma SuccessPassesThrough(req: Req, w: World, policy: RefreshPolicy)
    requires w.replies != [] && w.replies[0].Success?
    ensures Call(req, w, policy).out == Resolved(w.replies[0].data)
    ensures Call(req, w, policy).world == w.(replies := w.replies[1..], log := w.log + [req])
  {
  }

  /** Any error other than a 401 on an unmarked request (a 403, a 500, no
      response, or a 401 on a marked one) is rejected with the original
      error: one request is sent and storage and location are untouched. */
  lemma OtherErrorsRejectedUnchanged(req: Req, w: World, policy: RefreshPolicy)
    requires w.replies != [] && w.replies[0].Failure?
    requires w.replies[0].status != Some(401) || req.retry
    ensures Call(req, w, policy).out == Rejected(ApiError(|w.log|, w.replies[0].status))
    ensures Call(req, w, policy).world == w.(replies := w.replies[1..], log := w.log + [req])
    ensures Call(req, w, policy).req == req
  {
  }

  /** A request already marked `_retry` is sent exactly once and never
      triggers a refresh, whatever its reply. */
  lemma MarkedRequestSentOnce(req: Req, w: World, policy: RefreshPolicy)
    requires req.retry
    ensures var r := Call(req, w, policy);
      && r.world == Send(req, w).1
      && r.req == req
      && r.out == match Send(req, w).0
                  case None => Pending
                  case Some(Success(data)) => Resolved(data)
                  case Some(Failure(status)) => Rejected(ApiError(|w.log|, status))
  {
  }

  /** A 401 on an unmarked request marks it and sends the refresh call next. */
  lemma RefreshFollowsMarking(req: Req, w: World, policy: RefreshPolicy)
    requires w.replies != [] && w.replies[0] == Failure(Some(401)) && !req.retry
    ensures var r := Call(req, w, policy);
      && r.req.retry
      && |r.world.log| >= |w.log| + 2
      && r.world.log[|w.log|] == req
      && r.world.log[|w.log| + 1] == RefreshConfig(policy)
  {
    var w1 := AfterFirst(req, w);
    var refresh := Call(RefreshConfig(policy), w1, policy);
    assert refresh.world.log[|w1.log|] == RefreshConfig(policy);
    if refresh.out.Resolved? {
      MarkedRequestSentOnce(req.(retry := true), refresh.world, policy);
    }
  }

  /** After a successful refresh the original config, now marked, is sent
      exactly once more and its own result is the call's result; storage and
      location are as the refresh left them. */
  lemma RefreshSuccessReplaysOnce(req: Req, w: World, policy: RefreshPolicy)
    requires w.replies != [] && w.replies[0] == Failure(Some(401)) && !req.retry
    requires Call(RefreshConfig(policy), AfterFirst(req, w), policy).out.Resolved?
    ensures var refreshed := Call(RefreshConfig(policy), AfterFirst(req, w), policy).world;
      var r := Call(req, w, policy);
      && r.world.log == refreshed.log + [req.(retry := true)]
      && r.world.storage == refreshed.storage
      && r.world.location == refreshed.location
      && r.out == match Send(req.(retry := true), refreshed).0
                  case None => Pending
                  case Some(Success(data)) => Resolved(data)
                  case Some(Failure(status)) => Rejected(ApiError(|refreshed.log|, status))
  {
    var refreshed := Call(RefreshConfig(policy), AfterFirst(req, w), policy).world;
    MarkedRequestSentOnce(req.(retry := true), refreshed, policy);
  }

  /** When the refresh call fails, the stored "user" is removed, the page goes
      to "/login", the refresh error (not the original one) is rejected, and
      the original request is not replayed. */
  lemma RefreshFailureRedirects(req: Req, w: World, policy: RefreshPolicy)
    requires w.replies != [] && w.replies[0] == Failure(Some(401)) && !req.retry
    requires Call(RefreshConfig(policy), AfterFirst(req, w), policy).out.Rejected?
    ensures var refresh := Call(RefreshConfig(policy), AfterFirst(req, w), policy);
      var r := Call(req, w, policy);
      && r.out == refresh.out
      && r.out.error.call != |w.log|
      && r.world.storage == refresh.world.storage - {UserKey}
      && UserKey !in r.world.storage
      && r.world.location == LoginPath
      && r.world.log == refresh.world.log
      && r.world.replies == refresh.world.replies
  {
    var refresh := Call(RefreshConfig(policy), AfterFirst(req, w), policy);
    RejectionNamesASentRequest(RefreshConfig(policy), AfterFirst(req, w), policy);
  }

  /** A rejection always names a request sent during the call. */
  lemma {:induction false} RejectionNamesASentRequest(req: Req, w: World, policy: RefreshPolicy)
    requires Call(req, w, policy).out.Rejected?
    ensures |w.log| <= Call(req, w, policy).out.error.call < |Call(req, w, policy).world.log|
    decreases |w.replies|
  {
    var (reply, w1) := Send(req, w);
    if reply.Some? && reply.value == Failure(Some(401)) && !req.retry {
      var refresh := Call(RefreshConfig(policy), w1, policy);
      if refresh.out.Rejected? {
        RejectionNamesASentRequest(RefreshConfig(policy), w1, policy);
      } else {
        MarkedRequestSentOnce(req.(retry := true), refresh.world, policy);
      }
    }
  }

  /** The code as written: when the refresh endpoint answers 401 to every
      request, the refresh call is itself intercepted with a fresh, unmarked
      config, which calls the refresh endpoint again, and so on. However many
      replies the server gives, the call never settles: every reply is used
      up, every request after the first is a refresh call, and the stored user
      is never removed nor the page redirected. */
  lemma {:induction false} DeadRefreshNeverSettles(req: Req, w: World)
    requires !req.retry
    requires forall i :: 0 <= i < |w.replies| ==> w.replies[i] == Failure(Some(401))
    ensures var r := Call(req, w, Intercepted);
      && r.out == Pending
      && r.world.replies == []
      && r.world.storage == w.storage && r.world.location == w.location
      && |r.world.log| == |w.log| + |w.replies| + 1
      && r.world.log[|w.log|] == req
      && forall k :: |w.log| < k < |r.world.log| ==> r.world.log[k] == RefreshConfig(Intercepted)
    decreases |w.replies|
  {
    if w.replies != [] {
      var w1 := AfterFirst(req, w);
      assert forall i :: 0 <= i < |w1.replies| ==> w1.replies[i] == w.replies[i + 1];
      DeadRefreshNeverSettles(RefreshConfig(Intercepted), w1);
      var refresh := Call(RefreshConfig(Intercepted), w1, Intercepted);
      assert Call(req, w, Intercepted) == Step(Pending, req.(retry := true), refresh.world);
      assert refresh.world.log[..|w1.log|] == w1.log;
    }
  }

  /** The intended behaviour, with the refresh call sent already marked: every
      call settles once the server has given three replies, after at most
      three requests. */
  lemma ExemptRefreshSettles(req: Req, w: World)
    requires |w.replies| >= 3
    ensures Call(req, w, Exempt).out != Pending
    ensures |Call(req, w, Exempt).world.log| <= |w.log| + 3
  {
    var (reply, w1) := Send(req, w);
    if reply == Some(Failure(Some(401))) && !req.retry {
      MarkedRequestSentOnce(RefreshConfig(Exempt), w1, Exempt);
      var refresh := Call(RefreshConfig(Exempt), w1, Exempt);
      if refresh.out.Resolved? {
        MarkedRequestSentOnce(req.(retry := true), refresh.world, Exempt);
      }
    }
  }

  /** With the refresh call exempt, a refresh endpoint that answers 401 ends
      the call: the refresh error is rejected, the stored user is removed and
      the page goes to "/login", after exactly two requests. */
  lemma ExemptDeadRefreshRedirects(req: Req, w: World)
    requires !req.retry
    requires |w.replies| >= 2 && w.replies[0] == Failure(Some(401)) && w.replies[1] == Failure(Some(401))
    ensures var r := Call(req, w, Exempt);
      && r.out == Rejected(ApiError(|w.log| + 1, Some(401)))
      && r.world.storage == w.storage - {UserKey}
      && r.world.location == LoginPath
      && r.world.log == w.log + [req, RefreshConfig(Exempt)]
  {
    MarkedRequestSentOnce(RefreshConfig(Exempt), AfterFirst(req, w), Exempt);
  }

  /** `api(config)` on the objects themselves: the interceptor marks the config
      object in place, creates a new config object for the refresh call and
      changes `localStorage` and the location step by step. It behaves exactly
      as `Call` with the refresh call intercepted. */
  method Request(cfg: Config, browser: Browser, backend: Backend) returns (out: Outcome)
    modifies cfg, browser, backend
    ensures Step(out, cfg.Value(), WorldOf(browser, backend))
         == Call(old(cfg.Value()), old(WorldOf(browser, backend)), Intercepted)
    decreases |backend.replies|, 0
  {
    ghost var w := WorldOf(browser, backend);
    var reply := backend.Send(cfg.Value());
    assert (reply, WorldOf(browser, backend)) == Send(cfg.Value(), w);
    match reply {
      case None =>
        out := Pending;
      case Some(Success(data)) =>
        out := Resolved(data);
      case Some(Failure(status)) =>
        out := Intercept(cfg, ApiError(|backend.log| - 1, status), browser, backend);
    }
  }

  /** The response interceptor's error handler on the objects themselves. */
  method Intercept(cfg: Config, error: ApiError, browser: Browser, backend: Backend) returns (out: Outcome)
    modifies cfg, browser, backend
    ensures Step(out, cfg.Value(), WorldOf(browser, backend))
         == OnRejected(old(cfg.Value()), error, old(WorldOf(browser, backend)), Intercepted)
    decreases |backend.replies|, 1
  {
    if error.status == Some(401) && !cfg.retry {
      cfg.retry := true;
      var refreshCfg := new Config(Post, RefreshUrl);
      var refreshed := Request(refreshCfg, browser, backend);
      match refreshed {
        case Resolved(_) =>
          out := Request(cfg, browser, backend);
        case Rejected(e) =>
          browser.RemoveItem(UserKey);
          browser.location := LoginPath;
          out := Rejected(e);
        case Pending =>
          out := Pending;
      }
    } else {
      out := Rejected(error);
    }
  }
}
