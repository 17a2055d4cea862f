/** The end-session endpoint as an object: the logout message store and the
    two cookies are fields that its methods update in place, step by step as
    the endpoint does. Each request-level method is proved to produce the
    result and the new state that EndSessionModel specifies. */
module Endpoints {
  import opened Wrappers
  import opened EndSessionModel

  class EndSessionEndpoint {
    const env: Environment

    /** The logout message store, by message id. */
    var logoutMessages: map<string, LogoutMessage>
    /** The session-id cookie. */
    var sessionId: Option<string>
    /** The client-list cookie: the clients that joined the session. */
    var clientList: seq<string>
    /** Every call made to the validator, with its arguments. */
    ghost var validatorCalls: seq<(Parameters, Option<string>)>

    ghost function State(): EndpointState
      reads this
    {
      EndpointState(logoutMessages, sessionId, clientList, validatorCalls)
    }

    constructor (env: Environment, logoutMessages: map<string, LogoutMessage>,
                 sessionId: Option<string>, clientList: seq<string>)
      ensures this.env == env
      ensures State() == EndpointState(logoutMessages, sessionId, clientList, [])
    {
      this.env := env;
      this.logoutMessages := logoutMessages;
      this.sessionId := sessionId;
      this.clientList := clientList;
      this.validatorCalls := [];
    }

    /** Dispatches a request by its path; freshId is the id the message
        store would give a new logout message. */
    method ProcessAsync(request: Request, freshId: string) returns (result: EndpointResult)
      modifies this
      ensures Outcome(result, State()) == Process(env, old(State()), request, freshId)
    {
      if PathEquals(request.path, EnsureLeadingSlash(env.options.endSessionPath)) {
        result := ProcessSignoutAsync(request, freshId);
        return;
      }
      if PathEquals(request.path, EnsureLeadingSlash(env.options.endSessionCallbackPath)) {
        result := ProcessSignoutCallbackAsync(request);
        return;
      }
      result := StatusCodeResult(StatusNotFound);
    }

    method ProcessSignoutAsync(request: Request, freshId: string) returns (result: EndpointResult)
      modifies this
      ensures Outcome(result, State()) == Signout(env, old(State()), request, freshId)
    {
      var parameters: Parameters;
      if request.httpMethod == "GET" {
        parameters := request.query;
      } else if request.httpMethod == "POST" {
        parameters := request.form;
      } else {
        return StatusCodeResult(StatusMethodNotAllowed);
      }
      var validation := env.validator(parameters, request.user);
      validatorCalls := validatorCalls + [(parameters, request.user)];
      result := CreateLogoutPageRedirectAsync(validation, freshId);
    }

    /** Writes a logout message under the fresh id when the validation result
        calls for one, and returns the logout page with that id. */
    method CreateLogoutPageRedirectAsync(validation: EndSessionValidationResult, freshId: string)
      returns (result: EndpointResult)
      modifies this`logoutMessages
      ensures LogoutMessageFor(validation).Some? ==>
                && logoutMessages == old(logoutMessages)[freshId := LogoutMessageFor(validation).value]
                && result == LogoutPageResult(Some(freshId))
      ensures LogoutMessageFor(validation).None? ==>
                logoutMessages == old(logoutMessages) && result == LogoutPageResult(None)
    {
      var validatedRequest := if validation.isError then None else validation.validatedRequest;
      if validatedRequest.Some?
         && (validatedRequest.value.client.Some? || validatedRequest.value.postLogOutUri.Some?)
      {
        var message := LogoutMessage(validatedRequest.value);
        logoutMessages := logoutMessages[freshId := message];
        return LogoutPageResult(Some(freshId));
      }
      result := LogoutPageResult(None);
    }

    method ProcessSignoutCallbackAsync(request: Request) returns (result: EndpointResult)
      modifies this
      ensures Outcome(result, State()) == Callback(env, old(State()), request)
    {
      if request.httpMethod != "GET" {
        return StatusCodeResult(StatusMethodNotAllowed);
      }
      ClearSignoutMessageIdAsync(request);
      var sid := ValidateSid(sessionId, QueryFirst(request.query, SidParameter));
      if sid.None? {
        return StatusCodeResult(StatusBadRequest);
      }
      var urls := GetClientEndSessionUrlsAsync(sid.value, request.issuerUri);
      ClearSessionCookies();
      result := EndSessionCallbackResult(urls);
    }

    /** Deletes the logout message the request names, if it names one. */
    method ClearSignoutMessageIdAsync(request: Request)
      modifies this`logoutMessages
      ensures QueryFirst(request.query, env.options.logoutIdParameter).None? ==>
                logoutMessages == old(logoutMessages)
      ensures QueryFirst(request.query, env.options.logoutIdParameter).Some? ==>
                logoutMessages == old(logoutMessages) - {QueryFirst(request.query, env.options.logoutIdParameter).value}
    {
      var logoutId := QueryFirst(request.query, env.options.logoutIdParameter);
      if logoutId.Some? {
        logoutMessages := logoutMessages - {logoutId.value};
      }
    }

    /** Builds the iframe URLs for the clients in the client-list cookie,
        looking each one up in the client store. */
    method GetClientEndSessionUrlsAsync(sid: string, issuer: string) returns (urls: seq<string>)
      ensures urls == EndSessionUrls(clientList, env.clients, sid, issuer, env.addQueryString)
    {
      var clientIds := clientList;
      urls := [];
      for i := 0 to |clientIds|
        invariant urls == EndSessionUrls(clientIds[..i], env.clients, sid, issuer, env.addQueryString)
      {
        var clientId := clientIds[i];
        var client := if clientId in env.clients then Some(env.clients[clientId]) else None;
        if client.Some? && IsPresent(client.value.logoutUri) {
          var url := client.value.logoutUri.value;
          if client.value.logoutSessionRequired {
            url := env.addQueryString(url, SidParameter, sid);
            url := env.addQueryString(url, IssParameter, issuer);
          }
          urls := urls + [url];
        }
        assert clientIds[..i + 1] == clientIds[..i] + [clientId];
        EndSessionUrlsAppend(clientIds[..i], [clientId], env.clients, sid, issuer, env.addQueryString);
      }
      assert clientIds[..|clientIds|] == clientIds;
    }

    /** Clears the session-id cookie and the client-list cookie. */
    method ClearSessionCookies()
      modifies this`sessionId, this`clientList
      ensures sessionId == None && clientList == []
    {
      sessionId := None;
      clientList := [];
    }
  }
}
