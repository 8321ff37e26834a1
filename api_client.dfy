/**
 * The authenticated HTTP client of src/api/axios.js: an axios instance whose
 * request interceptor attaches the stored access token as a bearer credential
 * (section 2.1 of RFC 6750) and whose response interceptor answers a 401
 * (section 15.5.2 of RFC 9110) by refreshing the token once and re-issuing the
 * request, or by purging both tokens and sending the browser to /login.
 *
 * Browser and network state become plain data:
 * - `localStorage` is the map `storage`;
 * - `window.location.href = "/login"` sets `location`;
 * - the transport is a `Network`: the server's reply to the first attempt, its
 *   reply to the re-issued attempt, and the outcome of the refresh POST;
 * - `sent` and `refreshPosts` record what went out on the wire, so that "at
 *   most one refresh, at most one re-issue" can be stated.
 *
 * `Send`/`OnError` are the value-level specification; the class `Client`
 * performs the same steps in place and is proved equal to it.
 */
module ApiClient {
  import opened Js

  const AccessTokenKey := "accessToken"
  const RefreshTokenKey := "refreshToken"
  const LoginPath := "/login"
  /** Where the refresh POST goes; `refreshPosts` records the refresh token each one carries. */
  const RefreshEndpoint := "http://127.0.0.1:8000/api/refreshtoken/"

  /** The header value `Bearer <token>`. */
  function Bearer(token: string): (h: string)
    ensures StartsWith(h, "Bearer ") && h[7..] == token
  {
    "Bearer " + token
  }

  /** `localStorage.getItem(key)` when it is truthy: present and not empty. */
  function StoredToken(storage: map<string, string>, key: string): (t: Option<string>)
    ensures t.Some? <==> key in storage && storage[key] != ""
    ensures t.Some? ==> t.value == storage[key]
  {
    if key in storage && storage[key] != "" then Some(storage[key]) else None
  }

  /** What the server did with one attempt: answered with a status, or never answered. */
  datatype Reply = Answered(status: int, body: Value) | NoResponse(reason: string)

  /** axios resolves exactly the 2xx answers and rejects everything else. */
  predicate Succeeded(r: Reply) {
    r.Answered? && 200 <= r.status < 300
  }

  /** `error.response?.status === 401`. */
  predicate Unauthorized(r: Reply) {
    r.Answered? && r.status == 401
  }

  /** Outcome of POST `{refresh}` to the refresh endpoint: `{access}` or a failure. */
  datatype RefreshResult = Refreshed(access: string) | RefreshFailed(reason: string)

  datatype Network = Network(first: Reply, retried: Reply, refresh: RefreshResult)

  datatype Failure =
    | HttpError(reply: Reply)        // the original error, passed through
    | MissingRefreshToken            // `new Error("No refresh token")`
    | RefreshError(reason: string)   // the refresh call's own error

  datatype Outcome = Resolved(reply: Reply) | Rejected(failure: Failure)

  /** One request handed to the transport, with the Authorization header it carried. */
  datatype Sent = Sent(path: string, authorization: Option<string>)

  /** A request config: its path, its Authorization header and the `_retry` mark. */
  datatype Config = Config(path: string, authorization: Option<string>, retry: bool)

  datatype Session = Session(
    storage: map<string, string>,
    defaultAuthorization: Option<string>,
    location: Option<string>,
    sent: seq<Sent>,
    refreshPosts: seq<string>)

  datatype Step = Step(session: Session, config: Config, outcome: Outcome)

  /** axios merges the instance defaults under the request's own headers. */
  function Merged(own: Option<string>, defaults: Option<string>): (h: Option<string>)
    ensures own.Some? ==> h == own
    ensures own.None? ==> h == defaults
    ensures h.None? <==> own.None? && defaults.None?
  {
    if own.Some? then own else defaults
  }

  /** The request interceptor: a stored token overrides the header; otherwise it is left alone. */
  function Authorize(storage: map<string, string>, header: Option<string>): (h: Option<string>)
    ensures StoredToken(storage, AccessTokenKey).Some? ==>
              h == Some(Bearer(storage[AccessTokenKey]))
    ensures StoredToken(storage, AccessTokenKey).None? ==> h == header
  {
    match StoredToken(storage, AccessTokenKey)
    case Some(token) => Some(Bearer(token))
    case None => header
  }

  /** The cleanup of a failed refresh: both tokens removed, browser sent to /login. */
  function ForcedLogout(s: Session): (s': Session)
    ensures s'.storage.Keys == s.storage.Keys - {AccessTokenKey, RefreshTokenKey}
    ensures forall k :: k in s'.storage ==> s'.storage[k] == s.storage[k]
    ensures s'.location == Some(LoginPath)
    ensures s'.sent == s.sent && s'.refreshPosts == s.refreshPosts
    ensures s'.defaultAuthorization == s.defaultAuthorization
  {
    s.(storage := s.storage - {AccessTokenKey, RefreshTokenKey}, location := Some(LoginPath))
  }

  /**
   * `axiosInstance(config)`: merge the defaults, run the request interceptor,
   * hand the request to the transport, then run the response interceptors.
   */
  function Send(s: Session, c: Config, net: Network): (st: Step)
    ensures |st.session.sent| > |s.sent|
    ensures st.outcome.Resolved? ==> Succeeded(st.outcome.reply)
    ensures st.outcome.Rejected? && st.outcome.failure.HttpError? ==> !Succeeded(st.outcome.failure.reply)
    ensures c.retry ==> st.outcome.Resolved? || st.outcome.failure.HttpError?
    ensures Succeeded(if c.retry then net.retried else net.first) ==> st.outcome == Resolved(if c.retry then net.retried else net.first)
    decreases if c.retry then 0 else 1, 1
  {
    var header := Authorize(s.storage, Merged(c.authorization, s.defaultAuthorization));
    var c' := c.(authorization := header);
    var s' := s.(sent := s.sent + [Sent(c.path, header)]);
    var reply := if c.retry then net.retried else net.first;
    if Succeeded(reply) then Step(s', c', Resolved(reply))
    else OnError(s', c', reply, net)
  }

  /** The response interceptor's error handler. */
  function OnError(s: Session, c: Config, reply: Reply, net: Network): (st: Step)
    ensures !Unauthorized(reply) || c.retry ==> st == Step(s, c, Rejected(HttpError(reply)))
    ensures |st.session.sent| >= |s.sent|
    ensures st.outcome.Resolved? ==> Succeeded(st.outcome.reply)
    ensures st.outcome.Rejected? && st.outcome.failure.HttpError? ==>
              st.outcome.failure.reply == reply || !Succeeded(st.outcome.failure.reply)
    ensures st.outcome.Rejected? && !st.outcome.failure.HttpError? ==>
              && st.session.location == Some(LoginPath)
              && AccessTokenKey !in st.session.storage && RefreshTokenKey !in st.session.storage
    decreases if c.retry then 0 else 1, 0
  {
    if Unauthorized(reply) && !c.retry then
      var c' := c.(retry := true);
      match StoredToken(s.storage, RefreshTokenKey)
      case None => Step(ForcedLogout(s), c', Rejected(MissingRefreshToken))
      case Some(refresh) =>
        var s' := s.(refreshPosts := s.refreshPosts + [refresh]);
        match net.refresh
        case RefreshFailed(e) => Step(ForcedLogout(s'), c', Rejected(RefreshError(e)))
        case Refreshed(access) =>
          var s'' := s'.(storage := s'.storage[AccessTokenKey := access],
                         defaultAuthorization := Some(Bearer(access)));
          Send(s'', c'.(authorization := Some(Bearer(access))), net)
    else
      Step(s, c, Rejected(HttpError(reply)))
  }

  // ---------------------------------------------------------------------------
  // Properties of the pipeline

  /** A fresh request: no header of its own and no `_retry` mark. */
  predicate IsFresh(c: Config) {
    c.authorization.None? && !c.retry
  }

  /**
   * A request already marked `_retry` is transmitted once and its reply is
   * final: a failure is passed through with no refresh, no cleanup and no
   * further attempt.
   */
  lemma RetriedSendIsFinal(s: Session, c: Config, net: Network)
    requires c.retry
    ensures var header := Authorize(s.storage, Merged(c.authorization, s.defaultAuthorization));
            Send(s, c, net) ==
              Step(s.(sent := s.sent + [Sent(c.path, header)]), c.(authorization := header),
                   if Succeeded(net.retried) then Resolved(net.retried) else Rejected(HttpError(net.retried)))
  {
    var header := Authorize(s.storage, Merged(c.authorization, s.defaultAuthorization));
    var s' := s.(sent := s.sent + [Sent(c.path, header)]);
    var c' := c.(authorization := header);
    if !Succeeded(net.retried) {
      assert OnError(s', c', net.retried, net) == Step(s', c', Rejected(HttpError(net.retried)));
    }
  }

  /**
   * The first attempt of a request goes out with the merged, intercepted
   * header; whatever follows only appends to the logs: at most one more
   * transport call and at most one refresh call.
   */
  lemma {:induction false} SendLog(s: Session, c: Config, net: Network)
    ensures var st := Send(s, c, net);
            var header := Authorize(s.storage, Merged(c.authorization, s.defaultAuthorization));
            && |s.sent| < |st.session.sent| <= |s.sent| + 2
            && st.session.sent[..|s.sent| + 1] == s.sent + [Sent(c.path, header)]
            && |s.refreshPosts| <= |st.session.refreshPosts| <= |s.refreshPosts| + 1
            && st.session.refreshPosts[..|s.refreshPosts|] == s.refreshPosts
            && (|st.session.sent| == |s.sent| + 2 ==> |st.session.refreshPosts| == |s.refreshPosts| + 1)
  {
    var header := Authorize(s.storage, Merged(c.authorization, s.defaultAuthorization));
    var s' := s.(sent := s.sent + [Sent(c.path, header)]);
    var c' := c.(authorization := header);
    var reply := if c.retry then net.retried else net.first;
    assert s'.sent[..|s.sent| + 1] == s'.sent;
    if !Succeeded(reply) {
      assert Send(s, c, net) == OnError(s', c', reply, net);
      if Unauthorized(reply) && !c.retry {
        var refresh := StoredToken(s'.storage, RefreshTokenKey);
        if refresh.Some? && net.refresh.Refreshed? {
          var access := net.refresh.access;
          var s'' := s'.(refreshPosts := s'.refreshPosts + [refresh.value],
                         storage := s'.storage[AccessTokenKey := access],
                         defaultAuthorization := Some(Bearer(access)));
          var c'' := c'.(retry := true, authorization := Some(Bearer(access)));
          assert OnError(s', c', reply, net) == Send(s'', c'', net);
          RetriedSendIsFinal(s'', c'', net);
          var st := Send(s'', c'', net);
          assert st.session.sent[..|s.sent| + 1] == s'.sent;
          assert st.session.refreshPosts[..|s.refreshPosts|] == s.refreshPosts;
        }
      }
    }
  }

  /** With no stored token and no default header, a fresh request goes out without Authorization. */
  lemma NoTokenNoHeader(s: Session, c: Config, net: Network)
    requires IsFresh(c) && s.defaultAuthorization.None?
    requires StoredToken(s.storage, AccessTokenKey).None?
    ensures var st := Send(s, c, net);
            |st.session.sent| > |s.sent| && st.session.sent[|s.sent|] == Sent(c.path, None)
  {
    SendLog(s, c, net);
    var st := Send(s, c, net);
    assert st.session.sent[|s.sent|] == st.session.sent[..|s.sent| + 1][|s.sent|];
  }

  /** With stored token T, the first attempt carries exactly `Bearer T`, whatever header it had. */
  lemma TokenAttached(s: Session, c: Config, net: Network, t: string)
    requires t != "" && AccessTokenKey in s.storage && s.storage[AccessTokenKey] == t
    ensures var st := Send(s, c, net);
            |st.session.sent| > |s.sent| && st.session.sent[|s.sent|] == Sent(c.path, Some("Bearer " + t))
  {
    SendLog(s, c, net);
    var st := Send(s, c, net);
    assert st.session.sent[|s.sent|] == st.session.sent[..|s.sent| + 1][|s.sent|];
  }

  /** A request marked `_retry` is never refreshed again: any failure passes through unchanged. */
  lemma RetriedRequestNotRefreshedAgain(s: Session, c: Config, net: Network)
    requires c.retry && !Succeeded(net.retried)
    ensures var st := Send(s, c, net);
            && st.outcome == Rejected(HttpError(net.retried))
            && st.session.storage == s.storage
            && st.session.refreshPosts == s.refreshPosts
            && st.session.location == s.location
            && |st.session.sent| == |s.sent| + 1
  {
  }

  /** A successful first reply is returned unchanged and nothing else moves. */
  lemma SuccessPassesThrough(s: Session, c: Config, net: Network)
    requires !c.retry && Succeeded(net.first)
    ensures var st := Send(s, c, net);
            && st.outcome == Resolved(net.first)
            && st.session.storage == s.storage
            && st.session.defaultAuthorization == s.defaultAuthorization
            && st.session.location == s.location
            && st.session.refreshPosts == s.refreshPosts
            && !st.config.retry
  {
  }

  /** An error other than 401, including no response at all, is rejected unchanged. */
  lemma OtherErrorsPassThrough(s: Session, c: Config, net: Network)
    requires !c.retry && !Succeeded(net.first) && !Unauthorized(net.first)
    ensures var st := Send(s, c, net);
            && st.outcome == Rejected(HttpError(net.first))
            && st.session.storage == s.storage
            && st.session.location == s.location
            && st.session.refreshPosts == s.refreshPosts
            && !st.config.retry
  {
  }

  /** A 401 with no refresh token: no refresh call, both tokens gone, redirect, rejection. */
  lemma MissingRefreshTokenForcesLogout(s: Session, c: Config, net: Network)
    requires !c.retry && Unauthorized(net.first)
    requires StoredToken(s.storage, RefreshTokenKey).None?
    ensures var st := Send(s, c, net);
            && st.outcome == Rejected(MissingRefreshToken)
            && AccessTokenKey !in st.session.storage && RefreshTokenKey !in st.session.storage
            && st.session.location == Some(LoginPath)
            && st.session.refreshPosts == s.refreshPosts
            && st.config.retry
  {
  }

  /** A failed refresh: exactly one refresh call with the stored token, then the same cleanup. */
  lemma FailedRefreshForcesLogout(s: Session, c: Config, net: Network, r: string)
    requires !c.retry && Unauthorized(net.first)
    requires StoredToken(s.storage, RefreshTokenKey) == Some(r)
    requires net.refresh.RefreshFailed?
    ensures var st := Send(s, c, net);
            && st.outcome == Rejected(RefreshError(net.refresh.reason))
            && AccessTokenKey !in st.session.storage && RefreshTokenKey !in st.session.storage
            && st.session.location == Some(LoginPath)
            && st.session.refreshPosts == s.refreshPosts + [r]
            && st.config.retry
  {
  }

  /**
   * A successful refresh returning A2: A2 is stored, both the default header
   * and the request's header become `Bearer A2`, the refresh token stays, the
   * request is re-issued exactly once with `Bearer A2`, and the re-issued
   * attempt's outcome is the answer, without any cleanup even when it fails.
   */
  lemma {:induction false} SuccessfulRefreshRetriesOnce(s: Session, c: Config, net: Network, r: string, a2: string)
    requires !c.retry && Unauthorized(net.first)
    requires StoredToken(s.storage, RefreshTokenKey) == Some(r)
    requires net.refresh == Refreshed(a2)
    ensures var st := Send(s, c, net);
            && st.session.storage == s.storage[AccessTokenKey := a2]
            && st.session.defaultAuthorization == Some(Bearer(a2))
            && st.config.authorization == Some(Bearer(a2))
            && st.config.retry
            && st.session.refreshPosts == s.refreshPosts + [r]
            && |st.session.sent| == |s.sent| + 2
            && st.session.sent[|s.sent| + 1] == Sent(c.path, Some(Bearer(a2)))
            && st.session.location == s.location
            && st.outcome == (if Succeeded(net.retried) then Resolved(net.retried)
                              else Rejected(HttpError(net.retried)))
  {
    var header := Authorize(s.storage, Merged(c.authorization, s.defaultAuthorization));
    var s' := s.(sent := s.sent + [Sent(c.path, header)],
                 refreshPosts := s.refreshPosts + [r],
                 storage := s.storage[AccessTokenKey := a2],
                 defaultAuthorization := Some(Bearer(a2)));
    var c' := c.(authorization := Some(Bearer(a2)), retry := true);
    var first := s.(sent := s.sent + [Sent(c.path, header)]);
    assert Send(s, c, net) == OnError(first, c.(authorization := header), net.first, net);
    assert Send(s, c, net) == Send(s', c', net);
    assert Authorize(s'.storage, Merged(c'.authorization, s'.defaultAuthorization)) == Some(Bearer(a2));
    RetriedSendIsFinal(s', c', net);
  }

  /** After a refresh to A2, a later fresh request carries `Bearer A2` as well. */
  lemma LaterRequestsCarryNewToken(s: Session, c: Config, net: Network, r: string, a2: string,
                                   later: Config, net2: Network)
    requires !c.retry && Unauthorized(net.first)
    requires StoredToken(s.storage, RefreshTokenKey) == Some(r)
    requires net.refresh == Refreshed(a2)
    requires IsFresh(later)
    ensures var st := Send(s, c, net);
            var st2 := Send(st.session, later, net2);
            |st2.session.sent| > |st.session.sent| &&
            st2.session.sent[|st.session.sent|] == Sent(later.path, Some(Bearer(a2)))
  {
    SuccessfulRefreshRetriesOnce(s, c, net, r, a2);
    var st := Send(s, c, net);
    SendLog(st.session, later, net2);
    var st2 := Send(st.session, later, net2);
    assert st2.session.sent[|st.session.sent|] == st2.session.sent[..|st.session.sent| + 1][|st.session.sent|];
  }

  /**
   * The default header set by a refresh is never cleared by this module: once
   * the tokens are removed from storage (a logout), a fresh request still
   * carries the old `Bearer A2`, because the request interceptor only ever
   * overwrites the header.
   */
  lemma DefaultHeaderOutlivesPurge(s: Session, c: Config, net: Network, r: string, a2: string,
                                   later: Config, net2: Network)
    requires !c.retry && Unauthorized(net.first)
    requires StoredToken(s.storage, RefreshTokenKey) == Some(r)
    requires net.refresh == Refreshed(a2)
    requires IsFresh(later)
    ensures var st := Send(s, c, net);
            var purged := st.session.(storage := st.session.storage - {AccessTokenKey, RefreshTokenKey});
            var st2 := Send(purged, later, net2);
            |st2.session.sent| > |st.session.sent| &&
            st2.session.sent[|st.session.sent|] == Sent(later.path, Some(Bearer(a2)))
  {
    SuccessfulRefreshRetriesOnce(s, c, net, r, a2);
    var st := Send(s, c, net);
    var purged := st.session.(storage := st.session.storage - {AccessTokenKey, RefreshTokenKey});
    SendLog(purged, later, net2);
    var st2 := Send(purged, later, net2);
    assert st2.session.sent[|st.session.sent|] == st2.session.sent[..|st.session.sent| + 1][|st.session.sent|];
  }

  /**
   * The worked example: tokens A1/R1, GET /book/client/ answered 401, refresh
   * returns A2, the re-issued GET succeeds. The caller gets the retried answer;
   * storage holds A2 and R1.
   */
  lemma RefreshScenario()
    ensures var s := Session(map[AccessTokenKey := "A1", RefreshTokenKey := "R1"], None, None, [], []);
            var ok := Answered(200, Arr([]));
            var net := Network(Answered(401, Null), ok, Refreshed("A2"));
            var st := Send(s, Config("/book/client/", None, false), net);
            && st.outcome == Resolved(ok)
            && st.session.storage == map[AccessTokenKey := "A2", RefreshTokenKey := "R1"]
            && st.session.refreshPosts == ["R1"]
            && st.session.sent == [Sent("/book/client/", Some("Bearer A1")),
                                   Sent("/book/client/", Some("Bearer A2"))]
  {
    var s := Session(map[AccessTokenKey := "A1", RefreshTokenKey := "R1"], None, None, [], []);
    var net := Network(Answered(401, Null), Answered(200, Arr([])), Refreshed("A2"));
    var c := Config("/book/client/", None, false);
    SuccessfulRefreshRetriesOnce(s, c, net, "R1", "A2");
    SendLog(s, c, net);
    var st := Send(s, c, net);
    assert Authorize(s.storage, None) == Some(Bearer("A1"));
    assert Bearer("A1") == "Bearer A1" && Bearer("A2") == "Bearer A2";
    assert st.session.sent[0] == st.session.sent[..1][0];
    assert st.session.sent == [st.session.sent[0], st.session.sent[1]];
    assert s.storage[AccessTokenKey := "A2"] == map[AccessTokenKey := "A2", RefreshTokenKey := "R1"];
  }

  // ---------------------------------------------------------------------------
  // The client as it runs: the same steps, performed in place

  /** An axios request config: the interceptors mutate its header and its `_retry` mark. */
  class RequestConfig {
    var path: string
    var authorization: Option<string>
    var retry: bool

    constructor (path: string)
      ensures this.path == path && authorization == None && !retry
    {
      this.path := path;
      authorization := None;
      retry := false;
    }

    function Value(): Config
      reads this
    {
      Config(path, authorization, retry)
    }
  }

  class Client {
    var storage: map<string, string>
    var defaultAuthorization: Option<string>
    var location: Option<string>
    var sent: seq<Sent>
    var refreshPosts: seq<string>

    function State(): Session
      reads this
    {
      Session(storage, defaultAuthorization, location, sent, refreshPosts)
    }

    /** `axios.create(...)` over the browser's current storage. */
    constructor (storage: map<string, string>)
      ensures State() == Session(storage, None, None, [], [])
    {
      this.storage := storage;
      defaultAuthorization := None;
      location := None;
      sent := [];
      refreshPosts := [];
    }

    /** The request interceptor: attach the stored access token. */
    method InterceptRequest(config: RequestConfig)
      modifies config`authorization
      ensures config.authorization == Authorize(storage, old(config.authorization))
    {
      var accessToken := StoredToken(storage, AccessTokenKey);
      if accessToken.Some? {
        config.authorization := Some(Bearer(accessToken.value));
      }
    }

    /** Remove both tokens and redirect to /login. */
    method ForceLogout()
      modifies this
      ensures State() == ForcedLogout(old(State()))
    {
      storage := storage - {AccessTokenKey, RefreshTokenKey};
      location := Some(LoginPath);
    }

    /** `axiosInstance(config)` with the transport answering from `net`. */
    method Dispatch(config: RequestConfig, net: Network) returns (out: Outcome)
      modifies this, config
      decreases if config.retry then 0 else 1, 1
      ensures Step(State(), config.Value(), out) == Send(old(State()), old(config.Value()), net)
    {
      if config.authorization.None? {
        config.authorization := defaultAuthorization;
      }
      InterceptRequest(config);
      sent := sent + [Sent(config.path, config.authorization)];
      var reply := if config.retry then net.retried else net.first;
      if Succeeded(reply) {
        out := Resolved(reply);
      } else {
        out := InterceptResponseError(config, reply, net);
      }
    }

    /** The response interceptor's error handler. */
    method InterceptResponseError(config: RequestConfig, reply: Reply, net: Network) returns (out: Outcome)
      modifies this, config
      decreases if config.retry then 0 else 1, 0
      ensures Step(State(), config.Value(), out) == OnError(old(State()), old(config.Value()), reply, net)
    {
      if Unauthorized(reply) && !config.retry {
        config.retry := true;
        var refreshToken := StoredToken(storage, RefreshTokenKey);
        if refreshToken.None? {
          ForceLogout();
          out := Rejected(MissingRefreshToken);
          return;
        }
        refreshPosts := refreshPosts + [refreshToken.value];
        match net.refresh {
          case RefreshFailed(e) =>
            ForceLogout();
            out := Rejected(RefreshError(e));
          case Refreshed(access) =>
            storage := storage[AccessTokenKey := access];
            defaultAuthorization := Some(Bearer(access));
            config.authorization := Some(Bearer(access));
            out := Dispatch(config, net);
        }
      } else {
        out := Rejected(HttpError(reply));
      }
    }
  }
}
