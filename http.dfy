/** What the two axios response interceptors work on: request configs,
    server replies, `localStorage`, `window.location.href` and the server
    seen as a script of replies answered in order. */
module Http {
  import opened Common

  datatype Method = Get | Post | Put | Delete

  /** One reply of the server: a 2xx response with the fields of its JSON
      body, an error response with its status, or no response at all (a
      network failure, where `error.response` is undefined). */
  datatype Reply = Success(data: map<string, string>) | Failure(status: Option<int>)

  /** A request config as the interceptors see it. `retry` is `_retry`;
      `headers` holds the headers the interceptors set. */
  datatype Req = Req(verb: Method, url: string, retry: bool, headers: map<string, string>)

  /** A rejection: the request that failed (its position in the log of sent
      requests) and the status of its reply (`None`: no response). */
  datatype ApiError = ApiError(call: nat, status: Option<int>)

  /** How a call ends. `Pending`: the server's script ran out before the
      call settled, so the promise has not settled (yet). */
  datatype Outcome = Resolved(data: map<string, string>) | Rejected(error: ApiError) | Pending

  /** Everything a call observes or changes. */
  datatype World = World(
    storage: map<string, string>,  // localStorage
    location: string,              // window.location.href
    replies: seq<Reply>,           // the server's replies still to come, in order
    log: seq<Req>)                 // every request sent so far, as sent

  /** What a call yields: its outcome, its config as the interceptors left it,
      and the new world. */
  datatype Step = Step(out: Outcome, req: Req, world: World)

  const RefreshUrl: string := "/auth/refreshToken"
  const LoginPath: string := "/login"

  /** The `localStorage` keys the interceptors and the token store use. */
  const UserKey: string := "user"
  const TokenKey: string := "token"
  const RefreshTokenKey: string := "refreshToken"

  /** What `localStorage.setItem(key, data[key])` stores: the field itself,
      or the string "undefined" when the field is missing. */
  function StoredForm(data: map<string, string>, key: string): (v: string)
    ensures key in data ==> v == data[key]
    ensures key !in data ==> v == "undefined"
  {
    if key in data then data[key] else "undefined"
  }

  /** Whether the refresh call goes through the intercepted instance with a
      fresh config (`Intercepted`, as both interceptors do) or is sent
      already marked `_retry` and so exempt from a second refresh (`Exempt`). */
  datatype RefreshPolicy = Intercepted | Exempt

  /** The config of `api.post("/auth/refreshToken")`. */
  function RefreshConfig(policy: RefreshPolicy): (r: Req)
    ensures r.verb == Post && r.url == RefreshUrl && r.headers == map[]
    ensures r.retry <==> policy == Exempt
  {
    Req(Post, RefreshUrl, policy == Exempt, map[])
  }

  /** Sending `req`: it is logged, and the next reply, if there is one, is
      consumed. */
  function Send(req: Req, w: World): (r: (Option<Reply>, World))
    ensures r.1.log == w.log + [req]
    ensures r.1.storage == w.storage && r.1.location == w.location
    ensures w.replies == [] ==> r.0 == None && r.1.replies == []
    ensures w.replies != [] ==> r.0 == Some(w.replies[0]) && r.1.replies == w.replies[1..]
  {
    if w.replies == [] then (None, w.(log := w.log + [req]))
    else (Some(w.replies[0]), w.(replies := w.replies[1..], log := w.log + [req]))
  }

  /** An axios request config object. */
  class Config {
    const verb: Method
    const url: string
    var retry: bool
    var headers: map<string, string>

    constructor (verb: Method, url: string)
      ensures Value() == Req(verb, url, false, map[])
    {
      this.verb := verb;
      this.url := url;
      retry := false;
      headers := map[];
    }

    function Value(): Req
      reads this
    {
      Req(verb, url, retry, headers)
    }
  }

  /** The browser state the interceptors touch. */
  class Browser {
    var storage: map<string, string>
    var location: string

    constructor (storage: map<string, string>, location: string)
      ensures this.storage == storage && this.location == location
    {
      this.storage := storage;
      this.location := location;
    }

    /** `localStorage.getItem(key)`, with `None` for `null`. */
    method GetItem(key: string) returns (v: Option<string>)
      ensures v == if key in storage then Some(storage[key]) else None
    {
      v := if key in storage then Some(storage[key]) else None;
    }

    /** `localStorage.setItem(key, value)`. */
    method SetItem(key: string, value: string)
      modifies this
      ensures storage == old(storage)[key := value] && location == old(location)
    {
      storage := storage[key := value];
    }

    /** `localStorage.removeItem(key)`. */
    method RemoveItem(key: string)
      modifies this
      ensures storage == old(storage) - {key} && location == old(location)
    {
      storage := storage - {key};
    }
  }

  /** The server, as the replies it will give and the requests it has seen. */
  class Backend {
    var replies: seq<Reply>
    var log: seq<Req>

    constructor (replies: seq<Reply>)
      ensures this.replies == replies && log == []
    {
      this.replies := replies;
      log := [];
    }

    method Send(req: Req) returns (reply: Option<Reply>)
      modifies this
      ensures log == old(log) + [req]
      ensures old(replies) == [] ==> reply == None && replies == []
      ensures old(replies) != [] ==> reply == Some(old(replies)[0]) && replies == old(replies)[1..]
    {
      log := log + [req];
      if replies == [] {
        reply := None;
      } else {
        reply := Some(replies[0]);
        replies := replies[1..];
      }
    }
  }

  function WorldOf(browser: Browser, backend: Backend): World
    reads browser, backend
  {
    World(browser.storage, browser.location, backend.replies, backend.log)
  }
}
