/** The API slice's base query: bearer headers built from the session, and the wrapper that
    refreshes the access token once and replays the request after a 401 or 501.
    The transport is an abstract `Server`; the wrapper returns what the caller sees, the
    session after it, the calls it made and the actions it dispatched. */
module ApiSlice {
  import opened Wrappers
  import opened AuthSlice

  /** Request headers as far as this layer sets them. `Headers` names are case-insensitive,
      so the main query's `authorization` and the refresh query's `Authorization` are one header. */
  datatype Headers = Headers(authorization: Option<string>)

  const NoHeaders: Headers := Headers(None)

  const BearerPrefix: string := "Bearer "

  /** The fixed path of the refresh endpoint. */
  const RefreshUrl: string := "/refreshToken/accessToken"

  function Bearer(credential: string): string {
    BearerPrefix + credential
  }

  /** Headers of the main query: a bearer header exactly when the access token is truthy. */
  function MainHeaders(s: Session): (h: Headers)
    ensures h.authorization.Some? <==> Truthy(s.token)
    ensures h.authorization.Some? ==> h.authorization.value == Bearer(s.token.value)
  {
    if Truthy(s.token) then Headers(Some(Bearer(s.token.value))) else NoHeaders
  }

  /** Headers of the refresh query: a bearer header exactly when the refresh credential is truthy. */
  function RefreshHeaders(s: Session): (h: Headers)
    ensures h.authorization.Some? <==> Truthy(s.refetchToken)
    ensures h.authorization.Some? ==> h.authorization.value == Bearer(s.refetchToken.value)
  {
    if Truthy(s.refetchToken) then Headers(Some(Bearer(s.refetchToken.value))) else NoHeaders
  }

  /** What a server reads back from an `authorization` header: the credential after the
      `Bearer ` prefix, or nothing. */
  function BearerCredential(h: Headers): Option<string> {
    match h.authorization
    case Some(v) =>
      if |BearerPrefix| <= |v| && v[..|BearerPrefix|] == BearerPrefix
      then Some(v[|BearerPrefix|..]) else None
    case None => None
  }

  /** The main query hands the server exactly the stored access token, when it is truthy. */
  lemma MainHeadersCarryToken(s: Session)
    ensures BearerCredential(MainHeaders(s)) == (if Truthy(s.token) then s.token else None)
  {
  }

  /** The refresh query hands the server the refresh credential and never the access token. */
  lemma RefreshHeadersCarryRefreshToken(s: Session, other: Option<string>)
    ensures BearerCredential(RefreshHeaders(s)) == (if Truthy(s.refetchToken) then s.refetchToken else None)
    ensures RefreshHeaders(s.(token := other)) == RefreshHeaders(s)
  {
  }

  /** In every state the store can reach, the refresh query goes out with no credential. */
  lemma RefreshAnonymousWhenReachable(s: Session)
    requires Reachable(s)
    ensures RefreshHeaders(s) == NoHeaders
  {
    ReachableIff(s);
  }

  /** The `status` of a query error: an HTTP code, or one of the library's string statuses
      (`FETCH_ERROR`, `PARSING_ERROR`, ...), which never equal a number. */
  datatype Status = Http(code: int) | NonHttp(kind: string)

  /** A query result: `{data}` or `{error: {status, data}}`. */
  datatype Fetched<D> = Success(data: D) | Failure(status: Status, errorData: Option<string>)

  /** The body of a refresh reply: a falsy value, or an object whose `accessToken` may be missing. */
  datatype RefreshData = FalsyData | RefreshBody(accessToken: Option<string>)

  /** One call on the wire. */
  datatype Call<A> = Query(args: A, headers: Headers) | Refresh(url: string, headers: Headers)

  /** The abstract transport. `query` is told whether it serves the first attempt (0) or the
      replay (1), so the two may answer differently. */
  datatype Server<!A, D> = Server(query: (nat, A, Headers) -> Fetched<D>,
                                 refresh: (string, Headers) -> Fetched<RefreshData>)

  /** What one invocation of the wrapper produces. */
  datatype Outcome<A, D> = Outcome(result: Fetched<D>, session: Session,
                                   calls: seq<Call<A>>, actions: seq<Action>)

  /** The failures that trigger a refresh: status exactly 401 or 501. */
  predicate NeedsReauth<D>(r: Fetched<D>) {
    r.Failure? && (r.status == Http(401) || r.status == Http(501))
  }

  /** `refreshResult?.data` is truthy. */
  predicate YieldsData(r: Fetched<RefreshData>) {
    r.Success? && r.data.RefreshBody?
  }

  /** `baseQueryWithReauth`: one query; on 401/501 one refresh, then either `setToken` and
      one replay with the new token, or `logOut` and the original failure. */
  function BaseQueryWithReauth<A, D>(s: Session, args: A, server: Server<A, D>): (o: Outcome<A, D>)
    // the session is what the dispatched actions make of it, and at most one is dispatched
    ensures o.session == Run(s, o.actions) && |o.actions| <= 1
    ensures 1 <= |o.calls| <= 3
    // the first call is always the request itself, with the stored access token
    ensures o.calls[0] == Query(args, MainHeaders(s))
    // a refresh happens exactly when the first answer is a 401 or 501, and comes second
    ensures |o.calls| > 1 <==> NeedsReauth(server.query(0, args, MainHeaders(s)))
    ensures |o.calls| > 1 ==> o.calls[1] == Refresh(RefreshUrl, RefreshHeaders(s))
    // a replay happens exactly when the refresh yielded data
    ensures |o.calls| == 3 <==> |o.calls| > 1 && YieldsData(server.refresh(RefreshUrl, RefreshHeaders(s)))
    // without a refresh, the first answer comes back and nothing changes
    ensures |o.calls| == 1 ==> o.result == server.query(0, args, MainHeaders(s)) && o.actions == [] && o.session == s
    // a refresh without data logs out and hands back the first failure
    ensures |o.calls| == 2 ==> o.result == server.query(0, args, MainHeaders(s)) && o.actions == [LogOut]
    // a refresh with data stores its token; the replay uses it and its answer is returned
    ensures |o.calls| == 3 ==>
              && o.actions == [SetToken(server.refresh(RefreshUrl, RefreshHeaders(s)).data.accessToken)]
              && o.session.token == server.refresh(RefreshUrl, RefreshHeaders(s)).data.accessToken
              && o.calls[2] == Query(args, MainHeaders(o.session))
              && o.result == server.query(1, args, MainHeaders(o.session))
  {
    var first := server.query(0, args, MainHeaders(s));
    if !NeedsReauth(first) then
      Outcome(first, s, [Query(args, MainHeaders(s))], [])
    else
      var refreshed := server.refresh(RefreshUrl, RefreshHeaders(s));
      if YieldsData(refreshed) then
        var act := SetToken(refreshed.data.accessToken);
        var s' := Reduce(s, act);
        assert Run(s, [act]) == Run(s', []);
        Outcome(server.query(1, args, MainHeaders(s')), s',
                [Query(args, MainHeaders(s)), Refresh(RefreshUrl, RefreshHeaders(s)), Query(args, MainHeaders(s'))],
                [act])
      else
        assert Run(s, [LogOut]) == Run(Reduce(s, LogOut), []);
        Outcome(first, Reduce(s, LogOut), [Query(args, MainHeaders(s)), Refresh(RefreshUrl, RefreshHeaders(s))], [LogOut])
  }

  /** Shape of the trace: one refresh at most, never first, and every replay comes
      straight after it; so at most two queries. */
  lemma TraceShape<A, D>(s: Session, args: A, server: Server<A, D>)
    ensures var o := BaseQueryWithReauth(s, args, server);
      && o.calls[0].Query?
      && (forall j :: 0 < j < |o.calls| && o.calls[j].Query? ==> o.calls[j - 1].Refresh?)
      && (forall i, j :: 0 <= i < j < |o.calls| && o.calls[i].Refresh? ==> !o.calls[j].Refresh?)
      && (forall i :: 0 <= i < |o.calls| && o.calls[i].Query? ==> o.calls[i].args == args)
  {
  }

  /** Every query carries the bearer header of the session in force when it is sent:
      the caller's session for the first attempt, the refreshed one for the replay;
      every refresh carries the caller's refresh credential. */
  lemma HeadersFollowSession<A, D>(s: Session, args: A, server: Server<A, D>)
    ensures var o := BaseQueryWithReauth(s, args, server);
      forall i :: 0 <= i < |o.calls| ==>
        o.calls[i].headers == (if o.calls[i].Refresh? then RefreshHeaders(s)
                               else MainHeaders(Run(s, if i == 0 then [] else o.actions)))
  {
  }

  /** After a successful refresh the replay presents the new access token, provided it is truthy. */
  lemma ReplayCarriesNewToken<A, D>(s: Session, args: A, server: Server<A, D>)
    requires NeedsReauth(server.query(0, args, MainHeaders(s)))
    requires YieldsData(server.refresh(RefreshUrl, RefreshHeaders(s)))
    ensures var o := BaseQueryWithReauth(s, args, server);
      var newToken := server.refresh(RefreshUrl, RefreshHeaders(s)).data.accessToken;
      && |o.calls| == 3
      && BearerCredential(o.calls[2].headers) == (if Truthy(newToken) then newToken else None)
  {
  }

  /** The wrapper never touches the user name, only ever clears the refresh credential,
      and keeps the store in a reachable state. */
  lemma DispatchKeepsReachable<A, D>(s: Session, args: A, server: Server<A, D>)
    ensures var o := BaseQueryWithReauth(s, args, server);
      && o.session.userName == s.userName
      && (o.session.refetchToken == s.refetchToken || o.session.refetchToken == None)
      && (Reachable(s) ==> Reachable(o.session))
  {
    var o := BaseQueryWithReauth(s, args, server);
    RunCharacterised(s, o.actions);
    if Reachable(s) {
      RunKeepsReachable(s, o.actions);
    }
  }

  /** The catalog fetch with an expired token: a 401, a refresh answering
      `{accessToken: "new123"}`, and the replay sent with `Bearer new123`, whose answer is returned. */
  lemma ExpiredTokenScenario<A, D>(s: Session, args: A, server: Server<A, D>)
    requires server.query(0, args, MainHeaders(s)).Failure?
    requires server.query(0, args, MainHeaders(s)).status == Http(401)
    requires server.refresh(RefreshUrl, RefreshHeaders(s)) == Success(RefreshBody(Some("new123")))
    ensures var o := BaseQueryWithReauth(s, args, server);
      && o.calls[2].headers == Headers(Some("Bearer new123"))
      && o.result == server.query(1, args, Headers(Some("Bearer new123")))
      && o.session == s.(token := Some("new123"))
  {
    assert Bearer("new123") == "Bearer new123";
  }
}
