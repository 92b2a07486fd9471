/** The configured HTTP client of the front end: a request interceptor that
    attaches the stored access token, and a response interceptor that answers
    a first 401 with one token refresh and one re-send of the request. */
module Api {
  import opened Js
  import opened Browser

  type Headers = map<string, string>

  const AUTHORIZATION := "Authorization"

  /** What one transmission of a request brings back: an HTTP status, or no
      response at all (a network failure). */
  datatype Reply = Response(status: int) | NoResponse
  {
    /** axios resolves a request only for a 2xx status. */
    predicate Ok() {
      Response? && 200 <= status < 300
    }

    /** `error.response?.status === 401`. */
    predicate Unauthorized() {
      Response? && status == 401
    }
  }

  /** What the token-refresh endpoint answers. */
  datatype RefreshReply = Refreshed(access: string) | RefreshRejected(reply: Reply)

  /** Why a request's promise was rejected. */
  datatype Failure =
    | HttpFailure(reply: Reply)      // the request's own error, passed on unchanged
    | NoRefreshToken                 // thrown when no refresh token is stored
    | RefreshFailure(reply: Reply)   // the refresh call's error
  {
    /** `err.response` is set: the error carries an HTTP response. */
    predicate HasResponse() {
      !NoRefreshToken? && reply.Response?
    }
  }

  datatype Outcome = Resolved(reply: Reply) | Rejected(failure: Failure)

  /** The reply to the n-th transmission of the request, given the headers it carried. */
  type Server = (nat, Headers) -> Reply

  /** The refresh endpoint's answer for a given refresh token. */
  type RefreshServer = string -> RefreshReply

  function Bearer(token: string): string {
    "Bearer " + token
  }

  /** The request interceptor: with a truthy stored access token, the
      Authorization header becomes its bearer form; otherwise the headers are
      left alone. No other header changes. */
  function WithBearer(headers: Headers, local: Store): (h: Headers)
    ensures Holds(local, ACCESS_TOKEN) ==> AUTHORIZATION in h && h[AUTHORIZATION] == Bearer(local[ACCESS_TOKEN])
    ensures !Holds(local, ACCESS_TOKEN) ==> h == headers
    ensures forall k :: k != AUTHORIZATION ==> (k in h <==> k in headers)
    ensures forall k :: k != AUTHORIZATION && k in h ==> h[k] == headers[k]
  {
    if Holds(local, ACCESS_TOKEN) then headers[AUTHORIZATION := Bearer(local[ACCESS_TOKEN])] else headers
  }

  datatype Phase = Pending | Settled(outcome: Outcome)

  /** Everything one request touches while the interceptors handle it. */
  datatype Flight = Flight(
    local: Store,          // localStorage
    location: string,      // window.location.href
    headers: Headers,      // the request config's headers
    retry: bool,           // the request config's `_retry` flag
    sent: seq<Headers>,    // the headers of each transmission so far
    refreshes: nat,        // calls of the refresh endpoint so far
    phase: Phase)

  /** A request about to be sent for the first time. */
  function Start(local: Store, location: string, headers: Headers): Flight {
    Flight(local, location, headers, false, [], 0, Pending)
  }

  /** How many more rounds a request can take: a request not yet retried can
      take two, a retried one only one. */
  function Measure(f: Flight): nat {
    if f.phase.Settled? then 0 else if f.retry then 1 else 2
  }

  /** Refresh failure: both tokens go, the browser is sent to the login page
      and the request is rejected with the refresh error. */
  function EndSession(f: Flight, failure: Failure): (g: Flight)
    ensures g.local == ClearTokens(f.local) && g.location == LOGIN_PATH
    ensures g.phase == Settled(Rejected(failure))
    ensures g.headers == f.headers && g.retry == f.retry && g.sent == f.sent && g.refreshes == f.refreshes
  {
    f.(local := ClearTokens(f.local), location := LOGIN_PATH, phase := Settled(Rejected(failure)))
  }

  /** One round: the request interceptor, one transmission, and the response
      interceptor's handling of its reply. The request stays pending only
      after a refresh that succeeded, and only on its first 401. */
  function Step(f: Flight, server: Server, refresh: RefreshServer): (g: Flight)
    requires f.phase.Pending?
    ensures Measure(g) < Measure(f)
    ensures |g.sent| == |f.sent| + 1 && g.sent[..|f.sent|] == f.sent
    ensures g.phase.Pending? ==> !f.retry && g.retry && g.refreshes == f.refreshes + 1
    ensures f.retry ==> g.phase.Settled? && g.refreshes == f.refreshes && g.local == f.local
    ensures g.refreshes <= f.refreshes + 1
  {
    var h := WithBearer(f.headers, f.local);
    var reply := server(|f.sent|, h);
    var f1 := f.(headers := h, sent := f.sent + [h]);
    if reply.Ok() then
      f1.(phase := Settled(Resolved(reply)))
    else if reply.Unauthorized() && !f.retry then
      var f2 := f1.(retry := true);
      if !Holds(f.local, REFRESH_TOKEN) then
        EndSession(f2, NoRefreshToken)
      else
        var f3 := f2.(refreshes := f2.refreshes + 1);
        match refresh(f.local[REFRESH_TOKEN])
        case Refreshed(t) =>
          f3.(local := f3.local[ACCESS_TOKEN := t], headers := f3.headers[AUTHORIZATION := Bearer(t)])
        case RefreshRejected(r) =>
          EndSession(f3, RefreshFailure(r))
    else
      f1.(phase := Settled(Rejected(HttpFailure(reply))))
  }

  /** Each round transmits the headers the request interceptor produced. */
  lemma StepSendsWithBearer(f: Flight, server: Server, refresh: RefreshServer)
    requires f.phase.Pending?
    ensures Step(f, server, refresh).sent[|f.sent|] == WithBearer(f.headers, f.local)
  {
  }

  /** Rounds until the request's promise settles. */
  function Run(f: Flight, server: Server, refresh: RefreshServer): (g: Flight)
    ensures g.phase.Settled?
    ensures |f.sent| <= |g.sent| && g.sent[..|f.sent|] == f.sent
    decreases Measure(f)
  {
    if f.phase.Settled? then f else Run(Step(f, server, refresh), server, refresh)
  }

  /** However the server and the refresh endpoint answer, one request calls
      the refresh endpoint at most once and is transmitted at most twice; a
      request already marked as retried never refreshes. */
  lemma {:induction false} AtMostOneRefresh(f: Flight, server: Server, refresh: RefreshServer)
    requires f.phase.Pending?
    ensures Run(f, server, refresh).refreshes <= f.refreshes + 1
    ensures f.retry ==> Run(f, server, refresh).refreshes == f.refreshes
    ensures |Run(f, server, refresh).sent| <= |f.sent| + 2
  {
    var g := Step(f, server, refresh);
    if g.phase.Pending? {
      var h := Step(g, server, refresh);
      assert Run(g, server, refresh) == Run(h, server, refresh) == h;
    }
  }

  /** The first transmission carries `Bearer <t>` exactly when a truthy access
      token `t` is stored; without one the headers go out as they were. */
  lemma FirstTransmissionHeaders(local: Store, location: string, headers: Headers, server: Server, refresh: RefreshServer)
    ensures var g := Run(Start(local, location, headers), server, refresh);
            |g.sent| >= 1 &&
            (Holds(local, ACCESS_TOKEN) ==> g.sent[0] == headers[AUTHORIZATION := Bearer(local[ACCESS_TOKEN])]) &&
            (!Holds(local, ACCESS_TOKEN) ==> g.sent[0] == headers)
  {
    var f := Start(local, location, headers);
    var g := Step(f, server, refresh);
    StepSendsWithBearer(f, server, refresh);
    var r := Run(g, server, refresh);
    assert Run(f, server, refresh) == r;
    assert r.sent[..1] == g.sent;
    assert r.sent[0] == g.sent[0];
  }

  /** A reply other than 401 settles the request at once: resolved for a 2xx,
      otherwise rejected with the original error; storage and location stay. */
  lemma OtherRepliesPassThrough(local: Store, location: string, headers: Headers, server: Server, refresh: RefreshServer)
    requires !server(0, WithBearer(headers, local)).Unauthorized()
    ensures var g := Run(Start(local, location, headers), server, refresh);
            var reply := server(0, WithBearer(headers, local));
            && g.refreshes == 0 && |g.sent| == 1 && !g.retry
            && g.local == local && g.location == location
            && g.phase.outcome == (if reply.Ok() then Resolved(reply) else Rejected(HttpFailure(reply)))
  {
  }

  /** A 401 with no refresh token stored: the refresh endpoint is not called,
      the request is marked retried, both tokens are removed, the browser goes
      to the login page and the request is rejected. */
  lemma MissingRefreshTokenEndsSession(local: Store, location: string, headers: Headers, server: Server, refresh: RefreshServer)
    requires server(0, WithBearer(headers, local)).Unauthorized()
    requires !Holds(local, REFRESH_TOKEN)
    ensures var g := Run(Start(local, location, headers), server, refresh);
            && g.refreshes == 0 && |g.sent| == 1 && g.retry
            && g.local == ClearTokens(local) && g.location == LOGIN_PATH
            && g.phase.outcome == Rejected(NoRefreshToken)
  {
  }

  /** A 401 answered by a successful refresh with token `t`: exactly one
      refresh, the access token becomes `t`, the refresh token stays, and the
      request is sent once more with `Bearer <t>`; whatever that second reply
      is (even another 401), it settles the request. */
  lemma RefreshSuccessRetriesOnce(local: Store, location: string, headers: Headers, server: Server, refresh: RefreshServer, t: string)
    requires server(0, WithBearer(headers, local)).Unauthorized()
    requires Holds(local, REFRESH_TOKEN)
    requires refresh(local[REFRESH_TOKEN]) == Refreshed(t)
    ensures var g := Run(Start(local, location, headers), server, refresh);
            && g.refreshes == 1 && |g.sent| == 2 && g.retry
            && AUTHORIZATION in g.sent[1] && g.sent[1][AUTHORIZATION] == Bearer(t)
            && g.local == local[ACCESS_TOKEN := t]
            && g.local[REFRESH_TOKEN] == local[REFRESH_TOKEN]
            && g.location == location
            && var second := server(1, g.sent[1]);
               g.phase.outcome == (if second.Ok() then Resolved(second) else Rejected(HttpFailure(second)))
  {
    var f := Start(local, location, headers);
    var g1 := Step(f, server, refresh);
    var g2 := Step(g1, server, refresh);
    assert Run(f, server, refresh) == Run(g1, server, refresh) == g2;
  }

  /** A 401 whose refresh fails: one refresh call, both tokens removed, the
      browser sent to the login page, and the refresh error propagated. */
  lemma RefreshFailureEndsSession(local: Store, location: string, headers: Headers, server: Server, refresh: RefreshServer, r: Reply)
    requires server(0, WithBearer(headers, local)).Unauthorized()
    requires Holds(local, REFRESH_TOKEN)
    requires refresh(local[REFRESH_TOKEN]) == RefreshRejected(r)
    ensures var g := Run(Start(local, location, headers), server, refresh);
            && g.refreshes == 1 && |g.sent| == 1
            && g.local == ClearTokens(local) && g.location == LOGIN_PATH
            && g.phase.outcome == Rejected(RefreshFailure(r))
  {
  }

  /** A request already marked as retried is transmitted once more and never
      refreshes; its failure, a 401 included, is passed on with storage untouched. */
  lemma RetriedRequestNeverRefreshes(f: Flight, server: Server, refresh: RefreshServer)
    requires f.phase.Pending? && f.retry
    ensures var g := Run(f, server, refresh);
            var reply := server(|f.sent|, WithBearer(f.headers, f.local));
            && g.refreshes == f.refreshes && |g.sent| == |f.sent| + 1
            && g.local == f.local && g.location == f.location
            && g.phase.outcome == (if reply.Ok() then Resolved(reply) else Rejected(HttpFailure(reply)))
  {
  }

  /** An axios request config; the interceptors change it in place. */
  class Config {
    var headers: Headers
    var retry: bool

    constructor (headers: Headers)
      ensures this.headers == headers && !retry
    {
      this.headers := headers;
      retry := false;
    }
  }

  /** The request interceptor (api.js:69-76), writing the header into the config. */
  method AttachToken(w: Window, config: Config)
    modifies config`headers
    ensures config.headers == WithBearer(old(config.headers), w.local)
  {
    if Holds(w.local, ACCESS_TOKEN) {
      config.headers := config.headers[AUTHORIZATION := Bearer(w.local[ACCESS_TOKEN])];
    }
  }

  /** The failure path of the response interceptor (api.js:105-110). */
  method EndSessionIn(w: Window)
    modifies w`local, w`location
    ensures w.local == ClearTokens(old(w.local)) && w.location == LOGIN_PATH
  {
    w.local := w.local - {ACCESS_TOKEN, REFRESH_TOKEN};
    w.location := LOGIN_PATH;
  }

  /** `api(config)`: transmits the request through both interceptors,
      re-sending it once after a successful refresh. The window and config end
      as the round-by-round description `Run` says. */
  method Send(w: Window, config: Config, server: Server, refresh: RefreshServer) returns (outcome: Outcome)
    modifies w`local, w`location, config
    ensures var g := Run(Flight(old(w.local), old(w.location), old(config.headers), old(config.retry), [], 0, Pending), server, refresh);
            && w.local == g.local && w.location == g.location
            && config.headers == g.headers && config.retry == g.retry
            && g.phase == Settled(outcome)
  {
    ghost var f0 := Flight(w.local, w.location, config.headers, config.retry, [], 0, Pending);
    ghost var sent: seq<Headers> := [];
    ghost var refreshes: nat := 0;
    var attempt: nat := 0;
    var done := false;
    outcome := Rejected(NoRefreshToken);
    while !done
      invariant attempt == |sent|
      invariant Run(Flight(w.local, w.location, config.headers, config.retry, sent, refreshes,
                           if done then Settled(outcome) else Pending), server, refresh)
             == Run(f0, server, refresh)
      decreases (if done then 0 else 1) + (if config.retry then 0 else 1)
    {
      ghost var before := Flight(w.local, w.location, config.headers, config.retry, sent, refreshes, Pending);
      ghost var after := Step(before, server, refresh);
      AttachToken(w, config);
      var reply := server(attempt, config.headers);
      sent := sent + [config.headers];
      attempt := attempt + 1;
      if reply.Ok() {
        outcome := Resolved(reply);
        done := true;
      } else if reply.Unauthorized() && !config.retry {
        config.retry := true;
        var stored := Item(w.local, REFRESH_TOKEN);
        if !Truthy(stored) {
          EndSessionIn(w);
          outcome := Rejected(NoRefreshToken);
          done := true;
        } else {
          refreshes := refreshes + 1;
          match refresh(stored.s)
          case Refreshed(t) =>
            w.local := w.local[ACCESS_TOKEN := t];
            config.headers := config.headers[AUTHORIZATION := Bearer(t)];
          case RefreshRejected(r) =>
            EndSessionIn(w);
            outcome := Rejected(RefreshFailure(r));
            done := true;
        }
      } else {
        outcome := Rejected(HttpFailure(reply));
        done := true;
      }
      assert Flight(w.local, w.location, config.headers, config.retry, sent, refreshes,
                    if done then Settled(outcome) else Pending) == after;
    }
  }
}
