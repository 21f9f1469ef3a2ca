# gogithub: a verified model of the client's decision logic

gogithub is a small Go client for version 3 of the GitHub API. It has three parts:

- `Client` turns a credentials map into an `AuthenticatedUser` session, or an error.
- `GetUser` and `GetEmails` choose a URL under `https://api.github.com`. They then call `get`.
- `get` hands one GET request to Go's HTTP client, with Basic Auth when the session has credentials, and checks the status.

After `get`, `GetUser` and `GetEmails` decode the JSON body.

This project models that logic as Dafny functions. Go returns `(value, error)` pairs, and the model keeps the pair: every reply datatype holds the value and an `Option` error, where `None` stands for nil. That makes "the value is the zero value on error" a property that can be stated. Each reply also records the requests handed to the transport, so "no request is sent" can be stated too.

The network and the JSON decoder are parameters:

- `Transport.Network` holds two functions. `canBuild` says whether `http.NewRequest` accepts a URL. `roundTrip` gives the transport's reply to a request: a connection failure, or a status code plus a body that may fail to read.
- The decoder is a function from the body bytes to `Option` of the decoded value.

Modules:

- `Session`: the session, `Client`, and the map the command-line example builds.
- `Routes`: the API root and the three resource URLs. It also holds `GetUser`'s path selection and `ParseUrl`, which reads back which resource a URL names.
- `Transport`: `get`.
- `Api`: `GetUser` and `GetEmails`.
- `Wrappers`: `Option`.

Two details of the code that the model keeps:

- A rejected credentials map still yields a session: `Client` returns the zero session together with its error (gogithub.go:72). The model returns `Anonymous` with the error.
- Attaching Basic Auth and the guard of `GetEmails` each test both fields of the session (gogithub.go:86, 136). A session with only one field populated cannot come out of `Client`. It is treated as having no credentials.

## Model

| member | source | states |
|---|---|---|
| Session.Client | gogithub.go:57-76 | success exactly when the map is empty or both "username" and "password" are non-empty; the zero session on error; the anonymous session for an empty map; exactly the given username and password when credentials are accepted; every session returned without error has both fields empty or both non-empty |
| Session.CredentialMap | examples/main.go:19-22 | the example program's map is empty exactly when both flags are empty, and otherwise it is exactly {"username": username flag, "password": password flag} |
| Session.UnrelatedKeysRejected | gogithub.go:65-73 | a non-empty map that lacks either credential key (such as {"token": "x"}) is rejected with the zero session |
| Session.HalfCredentialsRejected | gogithub.go:66-72 | any map in which exactly one of "username" and "password" reads non-empty is rejected with the zero session, whatever other keys it holds |
| Session.SessionRoundTrip | gogithub.go:57-76 | every well-formed session is returned unchanged and without error by Client from the map built from its own fields |
| Routes.UserPath | gogithub.go:110-118 | GetUser requests /user exactly when the queried name equals the session's username or is empty under a non-empty session username; otherwise it requests /users/ followed by the name verbatim; it never requests /user/emails |
| Routes.ParseTargetUrl | gogithub.go:114-140 | each of the three resource URLs reads back as its resource; a login is recovered unchanged from its /users/ URL |
| Routes.ParseUrlSound | gogithub.go:114-140 | a URL read as a resource is exactly that resource's URL |
| Routes.TargetUrlInjective | gogithub.go:114-140 | distinct resources (the own profile, each public profile, the email list) have distinct URLs |
| Routes.UserPathTarget | gogithub.go:110-118 | the URL GetUser requests names the own profile under the self rule and otherwise the public profile of the literal name |
| Routes.AnonymousEmptyQueryIsSelf | gogithub.go:114-115 | an anonymous session queried with "" requests /user |
| Routes.AnonymousQueryIsPublic | gogithub.go:114-117 | an anonymous session queried with a non-empty name requests /users/ followed by that name |
| Routes.AuthenticatedEmptyQueryIsSelf | gogithub.go:111-115 | a credentialed session queried with "" requests /user |
| Transport.AuthFor | gogithub.go:86-88 | Basic Auth is attached exactly when both username and password are non-empty, and then it carries the session's own credentials |
| Transport.Get | gogithub.go:78-106 | at most one request handed to the HTTP client, for the given URL, with AuthFor's credentials; success exactly on a 200 whose body was read, and then that body is returned; the empty body on every failure; the body is read only after a 200; a request that cannot be built is CouldNotCreateRequest, a transport failure CouldNotProcessRequest, an unreadable body CouldNotReadBody, and any other status NonOkStatus with that status |
| Transport.AnonymousSendsNoAuth | gogithub.go:86-88 | the anonymous session never sends credentials |
| Transport.HalfCredentialsSendNoAuth | gogithub.go:86-88 | a session with a missing username or password sends the same request as the anonymous session |
| Api.GetUser | gogithub.go:109-131 | at most one request, to UserPath's URL; a failed GET is reported as a GET failure with its cause; a parse failure occurs exactly when the GET succeeded and the decoder rejects the body; success occurs exactly when the GET succeeded and the decoder accepts the body, and then the profile is the decoded body; on any failure the profile is the zero value |
| Api.GetEmails | gogithub.go:134-153 | without both credentials the call fails with NotAuthenticated, an empty list and no request; otherwise at most one request, to /user/emails, with credentials; GET failure and parse failure are distinguished as in GetUser; success occurs exactly for a credentialed session whose GET succeeded and whose body the decoder accepts, and then the list is the decoded body; the empty list on any failure |
| Api.NonOkUserIsGetError | gogithub.go:120-123 | a non-200 reply to GetUser's request is a GET failure carrying that status, and the reply does not depend on the decoder |
| Api.NonOkEmailsIsGetError | gogithub.go:142-145 | a non-200 reply to GetEmails' request is a GET failure carrying that status, and the reply does not depend on the decoder |
| Api.UndecodableUserIsParseError | gogithub.go:125-128 | a 200 whose body the decoder rejects makes GetUser fail with a parse failure and the zero profile, after exactly one request |
| Api.UndecodableEmailsIsParseError | gogithub.go:147-150 | a 200 whose body the decoder rejects makes GetEmails fail with a parse failure and the empty list, after exactly one request |
| Api.AnonymousEmailsRefused | gogithub.go:135-138 | the anonymous session is refused the email list with no request, whatever the network would answer |
| Api.ClientSessionAndEmails | gogithub.go:134-142 | a session built by Client from a non-empty map passes GetEmails' precondition and sends exactly the map's credentials; the session built from no credentials is refused |

## Left out

- The HTTP machinery (`http.NewRequest`, `client.Do`, `ioutil.ReadAll`) is I/O and foreign library code. It is represented by `Transport.Network`: whether a request can be built for a URL, and what the transport replies to it.
- Redirects are not modelled. Go's default HTTP client follows them inside `client.Do`, so one request handed to it can put several GETs on the wire. The model treats that as part of `roundTrip`'s single reply.
- Closing the response body (`defer resp.Body.Close()`) is resource management with no effect on results. The model does not represent it.
- JSON decoding (`json.Unmarshal`) is standard-library code. It is a decoder parameter that yields a value or a failure. The mapping of JSON fields onto `GithubUser` is not modelled.
- Error message texts and their formatting are not modelled. Errors are datatype variants: `ClientError`, `FetchError`, `UserError`, `EmailsError`. Each wrapping `Could not GET` error keeps its `get` cause.
- A nil credentials map is not distinguished from an empty one. Go treats them the same for length and lookup, and Dafny maps have no nil.
- The command-line program (examples/main.go) is not modelled: flag parsing, the panic on a missing `-user` flag, and printing. Only its construction of the credentials map is modelled, as `Session.CredentialMap`.
- URLs are compared as strings. Whether a server resolves a name such as `../user/emails` to another resource is outside the model.
