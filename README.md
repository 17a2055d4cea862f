# End-session endpoint of IdentityServer4, modelled in Dafny

This project models the end-session endpoint of IdentityServer4
(`src/IdentityServer4/Endpoints/EndSessionEndpoint.cs`). That endpoint implements
OpenID Connect RP-initiated logout and the callback that fans a logout out to
every participating relying party. Following OpenID Connect Front-Channel Logout 1.0,
section 4, the fan-out happens through hidden iframes whose URLs may carry `iss` and `sid`.

The endpoint has two routes:

- **Sign-out** (GET or POST on the end-session path). The request's parameters
  go to the end-session request validator. When the validated request names a
  client or a post-logout redirect URI, a `LogoutMessage` is written to the
  logout message store under a fresh id. The logout page carries that id.
- **Callback** (GET on the end-session callback path). In order, the callback:
  1. deletes the logout message named by the logout-id query parameter;
  2. checks the query's `sid` against the session-id cookie (a mismatch gives 400);
  3. builds one iframe URL per participating client in the client-list cookie;
  4. clears both cookies.

Any other path gives 404. A wrong HTTP method gives 405.

Files:

- `wrappers.dfy`: the `Option` type used for every nullable value.
- `end_session_model.dfy` (module `EndSessionModel`): the request, the client
  metadata, the validation result, the logout message and the endpoint's state
  as datatypes. It has the pure decisions (routing, method gating, the logout
  message decision, `ValidateSid`, the URL list). It also has `Signout`,
  `Callback` and `Process`. Each maps the state before a request to the result
  and the state after it. The lemmas about them are in this file too.
- `end_session_endpoint.dfy` (module `Endpoints`): the class
  `EndSessionEndpoint`. Its fields are the logout message store (a `map`), the
  session-id cookie and the client-list cookie. Its methods carry the C# method names
  and update these fields step by step, as the C# does. Each request-level method is proved to agree
  with the corresponding function of `EndSessionModel`. The URL list is built by
  a loop with an invariant.

The collaborators are inputs to the model:

- the client store is a `map` from client id to `Client`;
- the end-session request validator is a function of the parameters and the user;
- `AddQueryString` is a function `(url, name, value) -> url`;
- the issuer URI and the authenticated user come with the request;
- the id that `MessageWithId` generates is a parameter (`freshId`).

The ghost field `validatorCalls` records each call made to the validator. This
lets the model state that a refused request never reaches the validator.

Points of the code that the model keeps exactly:

- `ValidateSid` fails when either sid is missing, including when both are
  missing (EndSessionEndpoint.cs:157-184).
- The client list is an ordered sequence, and the URL list keeps its order
  (EndSessionEndpoint.cs:190-211).
- Request paths are compared ignoring case (ASCII letters only), as ASP.NET
  Core's `PathString` equality does. The HTTP method is compared exactly, as C# string `==` does.

## Model

| member | source | states |
|---|---|---|
| EndSessionModel.EnsureLeadingSlash | src/IdentityServer4/Endpoints/EndSessionEndpoint.cs:56-61 | the configured path with a leading slash, and otherwise the path unchanged |
| EndSessionModel.AsciiUpperString | src/IdentityServer4/Endpoints/EndSessionEndpoint.cs:56-61 | the upper-cased form of a path used by the case-insensitive comparison: same length, each character upper-cased |
| EndSessionModel.PathEquals | src/IdentityServer4/Endpoints/EndSessionEndpoint.cs:56-61 | two paths match exactly when their upper-cased forms are equal, so the comparison ignores letter case and nothing else; equal paths always match |
| EndSessionModel.PathEqualsExamples | src/IdentityServer4/Endpoints/EndSessionEndpoint.cs:56-61 | `/CONNECT/EndSession` matches `/connect/endsession`; a path differing in one letter, with a trailing slash, or with `-` for `/` does not |
| EndSessionModel.RouteOf | src/IdentityServer4/Endpoints/EndSessionEndpoint.cs:54-67 | a path routes to sign-out exactly when it matches the end-session path ignoring case; it routes to the callback exactly when it matches only the callback path; every other path is unknown |
| EndSessionModel.RouteOfConfiguredPaths | src/IdentityServer4/Endpoints/EndSessionEndpoint.cs:54-67 | the configured end-session path reaches sign-out; any spelling of the callback path that differs only in letter case reaches the callback when the two paths are distinct |
| EndSessionModel.QueryFirst | src/IdentityServer4/Endpoints/EndSessionEndpoint.cs:142 | the first value of a query parameter, present exactly when the parameter has a value |
| EndSessionModel.SignoutParameters | src/IdentityServer4/Endpoints/EndSessionEndpoint.cs:73-86 | GET validates the query string and POST validates the form body; every other method is refused |
| EndSessionModel.LogoutMessageFor | src/IdentityServer4/Endpoints/EndSessionEndpoint.cs:94-107 | a logout message is due exactly when validation succeeded with a request naming a client or a post-logout URI; the message carries that validated request |
| EndSessionModel.Signout | src/IdentityServer4/Endpoints/EndSessionEndpoint.cs:69-107 | a method other than GET/POST gives 405, does not call the validator and changes nothing; otherwise the validator is called once, the cookies are untouched, and either exactly one message is written under the fresh id and the page carries that id, or nothing is written and the page has no id |
| EndSessionModel.ForgetLogoutMessage | src/IdentityServer4/Endpoints/EndSessionEndpoint.cs:140-147 | with no logout id the store is unchanged; with one, that id is gone and every other entry is kept; an unknown id is not an error |
| EndSessionModel.ValidateSid | src/IdentityServer4/Endpoints/EndSessionEndpoint.cs:154-185 | a sid is returned exactly when the cookie sid and the query sid are both present and equal, and it is that sid |
| EndSessionModel.EndSessionUrls | src/IdentityServer4/Endpoints/EndSessionEndpoint.cs:187-224 | the URL list has no more entries than there are client ids; a participating first client gives the first URL |
| EndSessionModel.IsPresent | src/IdentityServer4/Endpoints/EndSessionEndpoint.cs:197 | a logout URI is present only when it is not null and not empty; an all-white-space URI is not present; one starting with a non-white-space character is |
| EndSessionModel.Participates | src/IdentityServer4/Endpoints/EndSessionEndpoint.cs:195-197 | a client takes part only when the client store knows it and its logout URI is set and non-empty; an unknown client never takes part |
| EndSessionModel.FrontChannelUrl | src/IdentityServer4/Endpoints/EndSessionEndpoint.cs:199-207 | the client's logout URI with `sid` and then `iss` appended when the client requires the session, and the bare logout URI otherwise |
| EndSessionModel.ParticipantsAppend | src/IdentityServer4/Endpoints/EndSessionEndpoint.cs:193-197 | the participants of a concatenated client list are those of the first part followed by those of the second, so participants keep client-list order |
| EndSessionModel.Participants | src/IdentityServer4/Endpoints/EndSessionEndpoint.cs:193-197 | the participating client ids: every one is in the client list, is known to the client store and has a present logout URI; every such client id of the list is among them |
| EndSessionModel.EndSessionUrlsPerParticipant | src/IdentityServer4/Endpoints/EndSessionEndpoint.cs:187-224 | the URL list has one entry per participating client, in list order; each entry is the logout URI with `sid` and then `iss` appended when the client requires the session, and the bare URI otherwise |
| EndSessionModel.EndSessionUrlsAppend | src/IdentityServer4/Endpoints/EndSessionEndpoint.cs:192-211 | the URLs of a concatenated client list are the URLs of the first part followed by those of the second, so the list keeps client-list order |
| EndSessionModel.EndSessionUrlsExample | src/IdentityServer4/Endpoints/EndSessionEndpoint.cs:193-209 | client A, with a logout URI and the session required, gives its URI with sid and iss; client B, with no logout URI, is skipped |
| EndSessionModel.Callback | src/IdentityServer4/Endpoints/EndSessionEndpoint.cs:109-138 | a method other than GET gives 405 and changes nothing; a GET first deletes the named logout message; a failed sid check then gives 400 and leaves both cookies alone; a passed check returns exactly the URL list built from the client-list cookie and clears both cookies |
| EndSessionModel.Process | src/IdentityServer4/Endpoints/EndSessionEndpoint.cs:54-138 | an unknown path gives 404 and changes nothing; the other paths dispatch to sign-out and callback. For every request, a 405 changes nothing and the store gains at most the fresh id. The cookies change only on a successful callback, and a successful callback had a query sid equal to the cookie sid |
| EndSessionModel.CallbackReplay | src/IdentityServer4/Endpoints/EndSessionEndpoint.cs:109-138 | repeating a successful callback gives 400 and changes nothing further |
| EndSessionModel.SignoutThenCallback | src/IdentityServer4/Endpoints/EndSessionEndpoint.cs:94-147 | a message written by sign-out under a fresh id and named by a later GET callback is deleted, whatever the sid check gives, and the store returns to its earlier contents |
| Endpoints.EndSessionEndpoint.constructor | src/IdentityServer4/Endpoints/EndSessionEndpoint.cs:34-52 | the endpoint starts with the given store and cookies, and the validator has not been called |
| Endpoints.EndSessionEndpoint.ProcessAsync | src/IdentityServer4/Endpoints/EndSessionEndpoint.cs:54-67 | the result and the new store and cookies are those `Process` specifies |
| Endpoints.EndSessionEndpoint.ProcessSignoutAsync | src/IdentityServer4/Endpoints/EndSessionEndpoint.cs:69-92 | the result and the new state are those `Signout` specifies |
| Endpoints.EndSessionEndpoint.CreateLogoutPageRedirectAsync | src/IdentityServer4/Endpoints/EndSessionEndpoint.cs:94-107 | the store gains exactly the decided message under the fresh id and the page carries that id, or the store is unchanged and the page has no id |
| Endpoints.EndSessionEndpoint.ProcessSignoutCallbackAsync | src/IdentityServer4/Endpoints/EndSessionEndpoint.cs:109-138 | the result and the new state are those `Callback` specifies |
| Endpoints.EndSessionEndpoint.ClearSignoutMessageIdAsync | src/IdentityServer4/Endpoints/EndSessionEndpoint.cs:140-147 | the message named by the logout-id parameter is removed from the store; with no such parameter the store is unchanged |
| Endpoints.EndSessionEndpoint.GetClientEndSessionUrlsAsync | src/IdentityServer4/Endpoints/EndSessionEndpoint.cs:187-224 | the loop over the client-list cookie returns exactly `EndSessionUrls` of that list |
| Endpoints.EndSessionEndpoint.ClearSessionCookies | src/IdentityServer4/Endpoints/EndSessionEndpoint.cs:226-233 | the session-id cookie and the client-list cookie are both cleared |

## Left out

- Logging, including the debug listing of the iframe URLs: it does not change behaviour.
- The constant running time of the sid comparison (`TimeConstantComparer`): Dafny cannot state timing. Only its equality result is modelled.
- The end-session request validator, `GetIdentityServerUserAsync`, `GetIssuerUri` and `AddQueryString` are inputs to the model. Their code is not part of this model.
- The generation of logout message ids (`MessageWithId`) is not modelled; the id is a parameter. The contents of `LogoutMessage` beyond the validated request it is built from are not part of this model either.
- The cookie codecs are not modelled: each cookie is a field holding its decoded value, and clearing sets it to empty.
- The values of the route path constants and of the logout-id parameter name are not part of this model; they are inputs (`Options`).
- The query collection's case-insensitive lookup of parameter names: parameter names are looked up exactly.
- ASP.NET Core ignores letter case in paths for all of Unicode. The model folds only ASCII letters.
- HTTP context plumbing, query and form parsing, `async`/`Task`, and the disabled content-security-policy step are not modelled.
- The synchronous `ClearSignoutMessageId(HttpRequest)` at line 149 is not modelled: it only throws, and nothing calls it. Its asynchronous counterpart is modelled as `ClearSignoutMessageIdAsync`.
- A failing store write or delete is not modelled: store calls always succeed in this model.
- The persisted grant service interface (`src/IdentityServer4/Services/IPersistedGrantService.cs`) is not modelled: it declares signatures only and states no behaviour.
- The test grant validator and the PKCE authorize-request tests are not modelled. They are test code, and the validator they exercise is not part of this model.
