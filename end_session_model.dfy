/** The end-session endpoint of the identity provider as values: the request,
    the collaborators it consults, the state it changes (the logout message
    store and the two cookies) and, for each of its two routes, a function
    from the state before a request to the result and the state after it.
    The class in module Endpoints runs the same steps imperatively and is
    proved to agree with these functions. */
module EndSessionModel {
  import opened Wrappers

  // HTTP status codes the endpoint answers with
  const StatusBadRequest := 400
  const StatusNotFound := 404
  const StatusMethodNotAllowed := 405

  /** Name of the query parameter that carries the session id on the callback. */
  const SidParameter := "sid"
  /** Name of the query parameter that carries the issuer on a front-channel logout URL. */
  const IssParameter := "iss"

  /** A query string or a form body: every name with the values given for it. */
  type Parameters = map<string, seq<string>>

  /** An incoming request, with what the endpoint asks of its HTTP context:
      the authenticated user (by subject id, if any) and the issuer URI. */
  datatype Request = Request(
    path: string,
    httpMethod: string,
    query: Parameters,
    form: Parameters,
    user: Option<string>,
    issuerUri: string)

  /** The options the endpoint reads: the two route paths and the name of
      the query parameter that carries the logout message id. */
  datatype Options = Options(
    endSessionPath: string,
    endSessionCallbackPath: string,
    logoutIdParameter: string)

  /** Client metadata as the client store returns it. */
  datatype Client = Client(clientId: string, logoutUri: Option<string>, logoutSessionRequired: bool)

  /** What the end-session request validator hands back. Only its client and
      post-logout URI are inspected here; the rest is carried along. */
  datatype ValidatedEndSessionRequest = ValidatedEndSessionRequest(
    client: Option<Client>,
    postLogOutUri: Option<string>,
    subject: Option<string>,
    sessionId: Option<string>,
    state: Option<string>)

  datatype EndSessionValidationResult = EndSessionValidationResult(
    isError: bool,
    validatedRequest: Option<ValidatedEndSessionRequest>)

  /** The pending logout context written for the logout page. */
  datatype LogoutMessage = LogoutMessage(request: ValidatedEndSessionRequest)

  /** The collaborators of the endpoint: its options, the client store, the
      request validator and the query-string builder. */
  datatype Environment = Environment(
    options: Options,
    clients: map<string, Client>,
    validator: (Parameters, Option<string>) -> EndSessionValidationResult,
    addQueryString: (string, string, string) -> string)

  datatype EndpointResult =
    | StatusCodeResult(code: int)
    | LogoutPageResult(logoutId: Option<string>)
    | EndSessionCallbackResult(urls: seq<string>)

  /** Everything a request can change: the logout message store, the
      session-id cookie, the client-list cookie, and a record of the calls
      made to the validator (so that "the validator was not called" can be
      stated). */
  datatype EndpointState = EndpointState(
    logoutMessages: map<string, LogoutMessage>,
    sessionId: Option<string>,
    clientList: seq<string>,
    validatorCalls: seq<(Parameters, Option<string>)>)

  datatype Outcome = Outcome(result: EndpointResult, state: EndpointState)

  // ---------------------------------------------------------------------
  // Routing

  datatype Route = SignoutRoute | CallbackRoute | UnknownRoute

  function EnsureLeadingSlash(path: string): (r: string)
    ensures |r| > 0 && r[0] == '/'
    ensures r == path || r == "/" + path
    ensures |path| > 0 && path[0] == '/' ==> r == path
  {
    if |path| > 0 && path[0] == '/' then path else "/" + path
  }

  function AsciiUpper(c: char): char
  {
    if 'a' <= c <= 'z' then (c as int - 32) as char else c
  }

  /** A string with every ASCII lower-case letter replaced by its upper-case form. */
  function AsciiUpperString(s: string): (r: string)
    ensures |r| == |s|
    ensures forall i :: 0 <= i < |s| ==> r[i] == AsciiUpper(s[i])
  {
    seq(|s|, i requires 0 <= i < |s| => AsciiUpper(s[i]))
  }

  /** Request paths are compared ignoring case: two paths match exactly when
      their upper-cased forms are equal. */
  predicate PathEquals(a: string, b: string)
    ensures PathEquals(a, b) <==> AsciiUpperString(a) == AsciiUpperString(b)
    ensures a == b ==> PathEquals(a, b)
  {
    |a| == |b| && forall i :: 0 <= i < |a| ==> AsciiUpper(a[i]) == AsciiUpper(b[i])
  }

  /** Paths that differ only in the case of letters match; a path that
      differs in any other character does not. */
  lemma PathEqualsExamples()
    ensures PathEquals("/CONNECT/EndSession", "/connect/endsession")
    ensures !PathEquals("/connect/endsessiox", "/connect/endsession")
    ensures !PathEquals("/connect/endsession/", "/connect/endsession")
    ensures !PathEquals("/connect-endsession", "/connect/endsession")
  {
    assert AsciiUpperString("/connect/endsessiox")[18] != AsciiUpperString("/connect/endsession")[18];
    assert AsciiUpperString("/connect-endsession")[8] != AsciiUpperString("/connect/endsession")[8];
  }

  /** Which part of the endpoint handles a request path. The end-session
      path is tried first. */
  function RouteOf(path: string, options: Options): (r: Route)
    ensures r == SignoutRoute <==> PathEquals(path, EnsureLeadingSlash(options.endSessionPath))
    ensures r == CallbackRoute <==>
              !PathEquals(path, EnsureLeadingSlash(options.endSessionPath))
              && PathEquals(path, EnsureLeadingSlash(options.endSessionCallbackPath))
    ensures r == UnknownRoute <==>
              !PathEquals(path, EnsureLeadingSlash(options.endSessionPath))
              && !PathEquals(path, EnsureLeadingSlash(options.endSessionCallbackPath))
  {
    if PathEquals(path, EnsureLeadingSlash(options.endSessionPath)) then SignoutRoute
    else if PathEquals(path, EnsureLeadingSlash(options.endSessionCallbackPath)) then CallbackRoute
    else UnknownRoute
  }

  /** The configured paths reach their handlers, whether or not they were
      configured with a leading slash and in whatever letter case the
      request spells them. */
  lemma RouteOfConfiguredPaths(options: Options, path: string)
    requires PathEquals(path, EnsureLeadingSlash(options.endSessionCallbackPath))
    requires !PathEquals(EnsureLeadingSlash(options.endSessionPath), EnsureLeadingSlash(options.endSessionCallbackPath))
    ensures RouteOf(EnsureLeadingSlash(options.endSessionPath), options) == SignoutRoute
    ensures RouteOf(path, options) == CallbackRoute
  {
  }

  // ---------------------------------------------------------------------
  // Request parameters

  /** The first value given for a query parameter, if there is one. */
  function QueryFirst(query: Parameters, name: string): (r: Option<string>)
    ensures r.Some? <==> name in query && |query[name]| > 0
    ensures r.Some? ==> r.value == query[name][0]
  {
    if name in query && |query[name]| > 0 then Some(query[name][0]) else None
  }

  /** The parameters a sign-out request is validated against: the query
      string for GET, the form body for POST, none for any other method. */
  function SignoutParameters(request: Request): (r: Option<Parameters>)
    ensures r.Some? <==> request.httpMethod == "GET" || request.httpMethod == "POST"
    ensures request.httpMethod == "GET" ==> r == Some(request.query)
    ensures request.httpMethod == "POST" ==> r == Some(request.form)
  {
    if request.httpMethod == "GET" then Some(request.query)
    else if request.httpMethod == "POST" then Some(request.form)
    else None
  }

  // ---------------------------------------------------------------------
  // Sign-out

  /** The logout message to store for a validation result, if any: one is
      written exactly when validation succeeded with a request that names a
      client or a post-logout redirect URI. A failed validation counts as no
      request at all. */
  function LogoutMessageFor(validation: EndSessionValidationResult): (r: Option<LogoutMessage>)
    ensures r.Some? <==>
              && !validation.isError
              && validation.validatedRequest.Some?
              && (validation.validatedRequest.value.client.Some?
                  || validation.validatedRequest.value.postLogOutUri.Some?)
    ensures r.Some? ==> r.value.request == validation.validatedRequest.value
  {
    var validated := if validation.isError then None else validation.validatedRequest;
    if validated.Some? && (validated.value.client.Some? || validated.value.postLogOutUri.Some?) then
      Some(LogoutMessage(validated.value))
    else
      None
  }

  /** The sign-out route. A method other than GET or POST is refused before
      anything else happens; otherwise the validator is consulted once and
      at most one logout message, under the fresh id, is written. */
  function Signout(env: Environment, st: EndpointState, request: Request, freshId: string): (out: Outcome)
    ensures SignoutParameters(request).None? ==> out == Outcome(StatusCodeResult(StatusMethodNotAllowed), st)
    ensures SignoutParameters(request).Some? ==>
              var parameters := SignoutParameters(request).value;
              var message := LogoutMessageFor(env.validator(parameters, request.user));
              && out.state.validatorCalls == st.validatorCalls + [(parameters, request.user)]
              && out.state.sessionId == st.sessionId
              && out.state.clientList == st.clientList
              && out.result.LogoutPageResult?
              && (out.result.logoutId.Some? <==> message.Some?)
              && (message.Some? ==>
                    out.result.logoutId == Some(freshId)
                    && out.state.logoutMessages == st.logoutMessages[freshId := message.value])
              && (message.None? ==> out.state.logoutMessages == st.logoutMessages)
  {
    match SignoutParameters(request)
    case None => Outcome(StatusCodeResult(StatusMethodNotAllowed), st)
    case Some(parameters) =>
      var st' := st.(validatorCalls := st.validatorCalls + [(parameters, request.user)]);
      match LogoutMessageFor(env.validator(parameters, request.user))
      case Some(message) =>
        Outcome(LogoutPageResult(Some(freshId)), st'.(logoutMessages := st.logoutMessages[freshId := message]))
      case None =>
        Outcome(LogoutPageResult(None), st')
  }

  // ---------------------------------------------------------------------
  // Callback

  /** The store after a best-effort delete of the message named by the
      logout-id parameter: nothing happens when the parameter is absent, and
      deleting an unknown id is not an error. */
  function ForgetLogoutMessage(store: map<string, LogoutMessage>, logoutId: Option<string>): (r: map<string, LogoutMessage>)
    ensures logoutId.None? ==> r == store
    ensures logoutId.Some? ==> logoutId.value !in r
    ensures r.Keys <= store.Keys
    ensures forall id :: id in store && logoutId != Some(id) ==> id in r && r[id] == store[id]
  {
    match logoutId
    case None => store
    case Some(id) => store - {id}
  }

  /** The session id bound to the callback: the query's sid when the session
      cookie holds one, the query carries one and the two are equal;
      nothing otherwise. */
  function ValidateSid(sidCookie: Option<string>, querySid: Option<string>): (r: Option<string>)
    ensures r.Some? <==> sidCookie.Some? && querySid.Some? && sidCookie.value == querySid.value
    ensures r.Some? ==> r == querySid && r == sidCookie
  {
    if sidCookie.Some? && querySid.Some? && querySid.value == sidCookie.value then querySid else None
  }

  /** A client takes part in front-channel logout when the client store knows
      it and it has a logout URI that is not blank. */
  predicate Participates(clients: map<string, Client>, clientId: string)
    ensures Participates(clients, clientId) ==>
              clientId in clients && clients[clientId].logoutUri.Some? && clients[clientId].logoutUri.value != ""
    ensures clientId !in clients ==> !Participates(clients, clientId)
  {
    clientId in clients && IsPresent(clients[clientId].logoutUri)
  }

  /** A string is present when it is not null and not only white space. */
  predicate IsPresent(s: Option<string>)
    ensures IsPresent(s) ==> s.Some? && |s.value| > 0
    ensures s.Some? && (forall i :: 0 <= i < |s.value| ==> IsWhiteSpace(s.value[i])) ==> !IsPresent(s)
    ensures s.Some? && |s.value| > 0 && !IsWhiteSpace(s.value[0]) ==> IsPresent(s)
  {
    s.Some? && exists i :: 0 <= i < |s.value| && !IsWhiteSpace(s.value[i])
  }

  /** The characters .NET counts as white space. */
  predicate IsWhiteSpace(c: char)
  {
    var n := c as int;
    || 0x09 <= n <= 0x0D || n == 0x20 || n == 0x85 || n == 0xA0 || n == 0x1680
    || 0x2000 <= n <= 0x200A || n == 0x2028 || n == 0x2029 || n == 0x202F
    || n == 0x205F || n == 0x3000
  }

  /** The iframe URL for one participating client: its logout URI, with the
      session id and then the issuer appended when the client asks for
      them. */
  function FrontChannelUrl(client: Client, sid: string, issuer: string,
                           addQueryString: (string, string, string) -> string): (url: string)
    requires IsPresent(client.logoutUri)
    ensures !client.logoutSessionRequired ==> url == client.logoutUri.value
    ensures client.logoutSessionRequired ==>
              url == addQueryString(addQueryString(client.logoutUri.value, SidParameter, sid), IssParameter, issuer)
  {
    if client.logoutSessionRequired then
      addQueryString(addQueryString(client.logoutUri.value, SidParameter, sid), IssParameter, issuer)
    else
      client.logoutUri.value
  }

  /** The iframe URLs for a list of client ids, in list order, skipping
      clients that do not take part. */
  function EndSessionUrls(clientIds: seq<string>, clients: map<string, Client>, sid: string, issuer: string,
                          addQueryString: (string, string, string) -> string): (urls: seq<string>)
    ensures |urls| <= |clientIds|
    ensures clientIds != [] && Participates(clients, clientIds[0]) ==>
              urls != [] && urls[0] == FrontChannelUrl(clients[clientIds[0]], sid, issuer, addQueryString)
  {
    if clientIds == [] then []
    else
      var rest := EndSessionUrls(clientIds[1..], clients, sid, issuer, addQueryString);
      if Participates(clients, clientIds[0]) then
        [FrontChannelUrl(clients[clientIds[0]], sid, issuer, addQueryString)] + rest
      else
        rest
  }

  /** The ids of the participating clients, in list order. */
  function Participants(clientIds: seq<string>, clients: map<string, Client>): (ids: seq<string>)
    ensures |ids| <= |clientIds|
    ensures forall k :: 0 <= k < |ids| ==> ids[k] in clientIds && Participates(clients, ids[k])
    ensures forall j :: 0 <= j < |clientIds| && Participates(clients, clientIds[j]) ==> clientIds[j] in ids
  {
    if clientIds == [] then []
    else
      var rest := Participants(clientIds[1..], clients);
      assert forall k :: 0 <= k < |rest| ==> rest[k] in clientIds[1..];
      assert forall j :: 1 <= j < |clientIds| ==> clientIds[j] == clientIds[1..][j - 1];
      if Participates(clients, clientIds[0]) then [clientIds[0]] + rest else rest
  }

  /** Filtering client by client keeps list order: the participants of a
      longer list are those of its first part followed by those of the rest. */
  lemma {:induction false} ParticipantsAppend(a: seq<string>, b: seq<string>, clients: map<string, Client>)
    ensures Participants(a + b, clients) == Participants(a, clients) + Participants(b, clients)
  {
    if a == [] {
      assert a + b == b;
    } else {
      assert (a + b)[0] == a[0];
      assert (a + b)[1..] == a[1..] + b;
      ParticipantsAppend(a[1..], b, clients);
    }
  }

  /** The URL list has one entry per participating client, in list order,
      and that entry is the client's front-channel logout URL. */
  lemma {:induction false} EndSessionUrlsPerParticipant(clientIds: seq<string>, clients: map<string, Client>,
                                                       sid: string, issuer: string,
                                                       addQueryString: (string, string, string) -> string)
    ensures var urls := EndSessionUrls(clientIds, clients, sid, issuer, addQueryString);
            var ids := Participants(clientIds, clients);
            && |urls| == |ids|
            && forall k :: 0 <= k < |ids| ==> urls[k] == FrontChannelUrl(clients[ids[k]], sid, issuer, addQueryString)
  {
    if clientIds != [] {
      EndSessionUrlsPerParticipant(clientIds[1..], clients, sid, issuer, addQueryString);
      var rest := EndSessionUrls(clientIds[1..], clients, sid, issuer, addQueryString);
      var restIds := Participants(clientIds[1..], clients);
      if Participates(clients, clientIds[0]) {
        var head := FrontChannelUrl(clients[clientIds[0]], sid, issuer, addQueryString);
        assert EndSessionUrls(clientIds, clients, sid, issuer, addQueryString) == [head] + rest;
        assert Participants(clientIds, clients) == [clientIds[0]] + restIds;
      } else {
        assert EndSessionUrls(clientIds, clients, sid, issuer, addQueryString) == rest;
        assert Participants(clientIds, clients) == restIds;
      }
    }
  }

  /** Building the URL list client by client: the URLs of a longer list are
      those of its first part followed by those of the rest. */
  lemma {:induction false} EndSessionUrlsAppend(a: seq<string>, b: seq<string>, clients: map<string, Client>,
                                               sid: string, issuer: string,
                                               addQueryString: (string, string, string) -> string)
    ensures EndSessionUrls(a + b, clients, sid, issuer, addQueryString)
            == EndSessionUrls(a, clients, sid, issuer, addQueryString)
               + EndSessionUrls(b, clients, sid, issuer, addQueryString)
  {
    if a == [] {
      assert a + b == b;
    } else {
      assert (a + b)[0] == a[0];
      assert (a + b)[1..] == a[1..] + b;
      EndSessionUrlsAppend(a[1..], b, clients, sid, issuer, addQueryString);
    }
  }

  /** The two clients of a front-channel logout example: A has a logout URI
      and asks for the session, B has none and is skipped. */
  lemma EndSessionUrlsExample(addQueryString: (string, string, string) -> string)
    ensures var clients := map[
                "A" := Client("A", Some("https://a/logout"), true),
                "B" := Client("B", None, false)];
            EndSessionUrls(["A", "B"], clients, "abc123", "https://idp", addQueryString)
            == [addQueryString(addQueryString("https://a/logout", "sid", "abc123"), "iss", "https://idp")]
  {
  }

  /** The callback route. Only GET is accepted. The logout message named in
      the query is deleted first; then the query's sid must match the
      session cookie, or the result is 400 and nothing else changes; on a
      match the iframe URLs are built from the client-list cookie and both
      cookies are cleared. */
  function Callback(env: Environment, st: EndpointState, request: Request): (out: Outcome)
    ensures request.httpMethod != "GET" ==> out == Outcome(StatusCodeResult(StatusMethodNotAllowed), st)
    ensures request.httpMethod == "GET" ==>
              && out.state.logoutMessages
                 == ForgetLogoutMessage(st.logoutMessages, QueryFirst(request.query, env.options.logoutIdParameter))
              && out.state.validatorCalls == st.validatorCalls
    ensures request.httpMethod == "GET" && ValidateSid(st.sessionId, QueryFirst(request.query, SidParameter)).None? ==>
              && out.result == StatusCodeResult(StatusBadRequest)
              && out.state.sessionId == st.sessionId
              && out.state.clientList == st.clientList
    ensures request.httpMethod == "GET" && ValidateSid(st.sessionId, QueryFirst(request.query, SidParameter)).Some? ==>
              var sid := ValidateSid(st.sessionId, QueryFirst(request.query, SidParameter)).value;
              && out.result == EndSessionCallbackResult(
                                 EndSessionUrls(st.clientList, env.clients, sid, request.issuerUri, env.addQueryString))
              && out.state.sessionId == None
              && out.state.clientList == []
  {
    if request.httpMethod != "GET" then
      Outcome(StatusCodeResult(StatusMethodNotAllowed), st)
    else
      var st' := st.(logoutMessages :=
                       ForgetLogoutMessage(st.logoutMessages, QueryFirst(request.query, env.options.logoutIdParameter)));
      match ValidateSid(st.sessionId, QueryFirst(request.query, SidParameter))
      case None => Outcome(StatusCodeResult(StatusBadRequest), st')
      case Some(sid) =>
        var urls := EndSessionUrls(st.clientList, env.clients, sid, request.issuerUri, env.addQueryString);
        Outcome(EndSessionCallbackResult(urls), st'.(sessionId := None, clientList := []))
  }

  // ---------------------------------------------------------------------
  // The whole endpoint

  /** One request to the endpoint. Besides the routing, the contract states
      what holds of every request: a 405 changes nothing, at most the fresh
      id is added to the store, the cookies change only on a successful
      callback, and a successful callback was bound to the session cookie. */
  function Process(env: Environment, st: EndpointState, request: Request, freshId: string): (out: Outcome)
    ensures RouteOf(request.path, env.options) == UnknownRoute ==> out == Outcome(StatusCodeResult(StatusNotFound), st)
    ensures RouteOf(request.path, env.options) == SignoutRoute ==> out == Signout(env, st, request, freshId)
    ensures RouteOf(request.path, env.options) == CallbackRoute ==> out == Callback(env, st, request)
    ensures out.result == StatusCodeResult(StatusMethodNotAllowed) ==> out.state == st
    ensures out.state.logoutMessages.Keys <= st.logoutMessages.Keys + {freshId}
    ensures out.state.sessionId != st.sessionId || out.state.clientList != st.clientList ==>
              out.result.EndSessionCallbackResult?
    ensures out.result.EndSessionCallbackResult? ==>
              && st.sessionId.Some?
              && QueryFirst(request.query, SidParameter) == st.sessionId
              && out.state.sessionId == None
              && out.state.clientList == []
  {
    match RouteOf(request.path, env.options)
    case SignoutRoute => Signout(env, st, request, freshId)
    case CallbackRoute => Callback(env, st, request)
    case UnknownRoute => Outcome(StatusCodeResult(StatusNotFound), st)
  }

  /** Replaying a callback that succeeded fails the sid check, because the
      session cookie is gone, and changes nothing further. */
  lemma CallbackReplay(env: Environment, st: EndpointState, request: Request)
    requires Callback(env, st, request).result.EndSessionCallbackResult?
    ensures var first := Callback(env, st, request);
            var second := Callback(env, first.state, request);
            second == Outcome(StatusCodeResult(StatusBadRequest), first.state)
  {
  }

  /** A logout message written by a sign-out under a fresh id and then named
      in a callback is gone afterwards, and the store is back to what it was
      before the sign-out, whether or not the sid check passes. */
  lemma SignoutThenCallback(env: Environment, st: EndpointState, signout: Request, callback: Request, freshId: string)
    requires freshId !in st.logoutMessages
    requires callback.httpMethod == "GET"
    requires QueryFirst(callback.query, env.options.logoutIdParameter) == Some(freshId)
    requires Signout(env, st, signout, freshId).result == LogoutPageResult(Some(freshId))
    ensures var signedOut := Signout(env, st, signout, freshId);
            Callback(env, signedOut.state, callback).state.logoutMessages == st.logoutMessages
  {
  }
}
