# Edge routing core of the API gateway, in Dafny

This project models two Go files of the gateway:

- **The web handler** (`service/api/server/handler/web/web.go`). It resolves each inbound request to one backend node. The node comes from a statically bound service or from the router. The handler then either hands the request to a single-host reverse proxy or, for a WebSocket opening handshake, opens a raw tunnel to the backend.
- **The edge HTTP server** (`service/api/server/server/http/http.go`). It holds the server settings and the path-to-handler table. It puts a fixed middleware chain around each registered handler and picks the listener when it starts.

Modules:

- `Wrappers` (wrappers.dfy) defines `Option` and `Result`. These stand for Go's nil values and `(value, error)` results.
- `FunctionalOptions` (functional_options.dfy) is Go's option-closure pattern. It applies a slice of options in order as a left fold.
- `GoStrings` (go_strings.dfy) models `strings.Split` on one character, `Join`, `TrimSpace` (with `unicode.IsSpace`) and `ToLower`.
- `Registry` (registry.dfy) holds nodes, registry services, the api service and the flattened candidate list.
- `HttpTypes` (http_types.dfy) holds the header, requests, URLs and responses:
  - `Header` is a class. A Go header is a map, so it is a reference.
  - A `Request` holds that reference, so the shallow copy `*req = *r` shares it.
  - `Library` bundles `url.Parse` and `net.SplitHostPort` as opaque functions.
- `Web` (web.dfy) is the handler: `GetService`, `IsWebSocket`, `ServeWebSocket` and `ServeHTTP`. Each method is proved against a specification function (`Resolve`, `IsUpgrade`, `ForwardedFor`/`TunnelReply`, `PlanFor`). Lemmas about those functions state the handler's properties.
- `EdgeServer` (edge_server.dfy) is the server. The class `Server` has fields `opts`, `mux` and `address`. Its members are the `NewServer` constructor, `Init`, `Address`, `Handle` (with its composition loop `Chain`) and `Start`. Handlers are terms that record the middleware applied to them, so the composition order can be stated and proved.

The inputs the model takes instead of calling out:

- `draw` is the integer `rand.Int()` returned.
- The router is a function from the request and its current header to a service or an error.
- `Backend` gives the outcomes of `net.Dial`, the hijack and the replay of the handshake.
- `Start` takes the listen attempt as a function from the chosen listener to the bound address or an error.

## Behaviour of the code worth knowing

- A service without nodes is answered 500, never 404. `getService` fails with "no route found" when the candidate list is empty (web.go:95-97), and `ServeHTTP` answers that error with 500 (web.go:46-50). The 404 branch (web.go:52-55) cannot run, because every resolved address begins with `http://` (web.go:102). `NotFoundUnreachable` and `EmptyServiceAnswers500` prove this.
- The copy made in `serveWebSocket` is shallow (web.go:107-108), so it shares the caller's header map. The X-Forwarded-For rewrite (web.go:115-121) is therefore visible through the caller's request. The ensures of `ServeWebSocket` and `ServeHTTP` speak about `r.header`, the caller's header.
- Header matching reads only the first value of `Connection` and of `Upgrade`, because it uses `Header.Get` (web.go:164). Tokens in a second header line of the same name are ignored.

## Model

| member | source | states |
|---|---|---|
| `Web.GetService` | service/api/server/handler/web/web.go:72-103 | The result is `Resolve`. The loop builds the candidate list as the concatenation of every entry's nodes. The static service wins, then the router, else "no route found". An empty list fails, and a draw `k` selects `"http://" + nodes[k % len].address`. |
| `Web.StaticBindingIgnoresRequest` | service/api/server/handler/web/web.go:75-77 | With a static service, the result depends only on that service's candidate list and the draw. The request, its header and the router (any options) make no difference. |
| `Web.StaticDependsOnlyOnNodes` | service/api/server/handler/web/web.go:75-102 | Two bound services with the same flattened node list resolve to the same result for every draw. |
| `Web.DynamicBinding` | service/api/server/handler/web/web.go:78-88 | With no static service: no router gives "no route found"; a router error is returned unchanged; a routed service is resolved through its candidate list. |
| `Web.EmptyServiceFails` | service/api/server/handler/web/web.go:91-97 | If no entry of the service has a node, resolution fails with "no route found". |
| `Web.ResolvedIsCandidate` | service/api/server/handler/web/web.go:99-102 | A successful result is `"http://"` + the address of a node that belongs to some entry of the chosen service. |
| `Web.PickCoversCandidates` | service/api/server/handler/web/web.go:100 | Draw `i` selects candidate `i`. Adding the candidate count to a draw does not change the pick. Draws with the same remainder pick the same node. |
| `Web.ResolvedHasScheme` | service/api/server/handler/web/web.go:102 | Every resolved address begins with `http://`. |
| `Web.NewHandler` | service/api/server/handler/web/web.go:184-188 | The handler is unbound and carries the default options with each option applied in order. Without options it has no router. |
| `Web.WithService` | service/api/server/handler/web/web.go:190-197 | The handler is bound to the given service, and its options are applied as `NewHandler` applies them. |
| `Web.WithoutServiceIsNewHandler` | service/api/server/handler/web/web.go:184-197 | `WithService` with a nil service builds the same handler as `NewHandler` with the same options. |
| `Web.WithServiceIgnoresOptions` | service/api/server/handler/web/web.go:190-197 | A handler built by `WithService` resolves the same whatever router its options install. |
| `Web.Contains` | service/api/server/handler/web/web.go:163-171 | True iff some comma-separated piece of the header's first value, trimmed and lower-cased, equals the wanted token. |
| `Web.IsWebSocket` | service/api/server/handler/web/web.go:162-178 | True iff the `Connection` value has the token "upgrade" and the `Upgrade` value has the token "websocket". |
| `Web.HasTokenConcat` | service/api/server/handler/web/web.go:164-169 | Matching is token-wise: `a,b` holds a token iff `a` or `b` does. |
| `Web.HasTokenSingle` | service/api/server/handler/web/web.go:164-169 | A value without commas matches iff its trimmed, lower-cased form is the token. |
| `Web.AbsentHeaderIsNotUpgrade` | service/api/server/handler/web/web.go:162-178 | An absent or empty `Connection` or `Upgrade` header never classifies the request as a handshake. |
| `Web.MixedCaseHandshake` | service/api/server/handler/web/web.go:173 | `Connection: keep-alive, Upgrade` with `Upgrade: WebSocket` is a handshake: tokens are trimmed and case-folded. |
| `Web.ForwardedForRewrite` | service/api/server/handler/web/web.go:115-121 | Only X-Forwarded-For changes. It is unchanged when the remote address does not split. Otherwise it becomes `[clientIP]` when absent, or `[Join(existing, ", ") + ", " + clientIP]` when present. |
| `Web.ForwardedChainAppends` | service/api/server/handler/web/web.go:117-120 | Read as a comma-separated chain, the new value is the old chain followed by the client IP. |
| `Web.EmptyHostRefused` | service/api/server/handler/web/web.go:110-113 | An empty host is answered 500 "invalid host" whatever the backend would do, and the header is left alone. |
| `Web.TunnelNeedsEverySetupStep` | service/api/server/handler/web/web.go:123-159 | A tunnel opens iff the host is non-empty, the dial succeeds, the writer can be hijacked, the hijack succeeds and the handshake is replayed. It opens to that host. |
| `Web.ServeWebSocket` | service/api/server/handler/web/web.go:106-160 | The response is `TunnelReply`. The caller's own header (shared with the copy) gets the X-Forwarded-For rewrite once the host check passes. |
| `Web.PlanBranches` | service/api/server/handler/web/web.go:45-69 | A resolve error gives 500 and an unparsable address gives 500. A handshake goes to the tunnel with the parsed host; anything else goes to the reverse proxy with the parsed URL. |
| `Web.NotFoundUnreachable` | service/api/server/handler/web/web.go:52-55 | For all inputs the dispatch never answers 404. |
| `Web.EmptyServiceAnswers500` | service/api/server/handler/web/web.go:46-50 | A bound service without nodes is answered 500. |
| `Web.ServeHTTP` | service/api/server/handler/web/web.go:45-69 | The response follows `PlanFor`. The header changes only on the tunnel branch, as `serveWebSocket` rewrites it. |
| `GoStrings.JoinSplit` | service/api/server/handler/web/web.go:164 | Joining the pieces of `Split` with the separator gives back the header value. |
| `GoStrings.SplitPiecesAvoidSeparator` | service/api/server/handler/web/web.go:164 | No piece of `Split` contains a comma. |
| `GoStrings.SplitConcat` | service/api/server/handler/web/web.go:164 | The pieces of `a + "," + b` are the pieces of `a` followed by those of `b`. |
| `GoStrings.TrimSpaceInfix` | service/api/server/handler/web/web.go:166 | The trimmed piece is an infix of the input. Everything dropped before and after it is space, and it neither starts nor ends with a space. |
| `GoStrings.ToLowerAt` | service/api/server/handler/web/web.go:166 | Lowering keeps the length and lowers each character in its place. |
| `Registry.FlattenSnoc` | service/api/server/handler/web/web.go:92-94 | Appending an entry appends its nodes: the step of the `append` loop. |
| `Registry.FlattenMembers` | service/api/server/handler/web/web.go:91-94 | A node is a candidate iff it is a node of some entry. |
| `Registry.FlattenLength` | service/api/server/handler/web/web.go:91-97 | The candidate count is the sum of the entries' node counts. The list is empty iff every entry is empty. |
| `FunctionalOptions.ApplyAllConcat` | service/api/server/server/http/http.go:62-67 | Applying two batches of options one after the other equals applying their concatenation. |
| `EdgeServer.InitExtendsOptions` | service/api/server/server/http/http.go:42-67 | `NewServer` with options `a` followed by `Init(b)` yields the settings of `NewServer` with `a + b`. |
| `EdgeServer.Server.constructor` | service/api/server/server/http/http.go:42-54 | `NewServer` stores the address, applies the options in order to the zero settings, and starts with an empty table. |
| `EdgeServer.Server.Address` | service/api/server/server/http/http.go:56-60 | Returns the server's current listen address: the one it was created with, or the bound address after a successful `Start`. |
| `EdgeServer.Server.Init` | service/api/server/server/http/http.go:62-67 | Applies the options in order on top of the current settings, returns no error, and changes nothing else. |
| `EdgeServer.WrapperOrder` | service/api/server/server/http/http.go:72-75 | Wrappers applied in slice order sit reversed from the outside. The last is outermost and the first lies directly around the handler, whose endpoint is unchanged. |
| `EdgeServer.ComposedOrder` | service/api/server/server/http/http.go:72-85 | From the outside in: logging, then CORS exactly when enabled, then the wrappers from last to first, then the handler's own layers. |
| `EdgeServer.Server.Chain` | service/api/server/server/http/http.go:69-83 | The composition loop yields exactly the `Composed` chain for the current settings. |
| `EdgeServer.Server.Handle` | service/api/server/server/http/http.go:69-86 | Registers the composed handler at the path. Settings and address do not change. |
| `EdgeServer.SelectListener` | service/api/server/server/http/http.go:92-100 | ACME iff enabled with a provider. Otherwise TLS iff enabled with a config. Otherwise plain TCP on the address. Exactly one applies. |
| `EdgeServer.AcmeIgnoresAddress` | service/api/server/server/http/http.go:92-94 | In ACME mode the configured address plays no part in listening. |
| `EdgeServer.Server.Start` | service/api/server/server/http/http.go:88-111 | On a listen error, returns it and keeps the address. On success, `Address()` is the bound address. Settings and table are unchanged either way. |

## Left out

- The `Stop` rendezvous over `exit` and the `http.Serve` goroutine (http.go:113-132). They are concurrency. `Server` has no `Stop`.
- The `sync.RWMutex` around `address` and the startup log line (http.go:105-111). They are locking and logging.
- The tunnel's byte pumps, the `errCh` race between them and the deferred closes (web.go:142-159). They are socket I/O and concurrency. The model ends at `Tunnelled(host)`.
- `net.Dial`, `Hijack` and `req.Write` are reduced to their outcomes (`Backend`). The backend connection is left open on two paths: the "failed to connect" answer (web.go:132-135) and the return after a failed `Hijack` (web.go:137-140), both before `defer conn.Close()` (web.go:143). Neither leak is represented.
- The internals of `httputil.NewSingleHostReverseProxy` (web.go:68). The model stops at `Proxied(target)`.
- The internals of `url.Parse` and `net.SplitHostPort`. They are library code, taken as opaque functions in `Library`.
- The distribution of `rand.Int()`. Any natural number is accepted as the draw; Go's draws are below 2^63. Uniformity is statistical and is stated only as the fact that every candidate is reached by the draws of its residue class.
- Header key canonicalisation (`CanonicalMIMEHeaderKey`). Every key the handler uses is already canonical, and the model's header maps are keyed by canonical names.
- Strings are sequences of Unicode scalar values, not bytes, so invalid UTF-8 is not represented.
- `GoStrings.ToLower` lowers only the characters whose lower case is ASCII: A-Z, U+0130 and U+212A. Other case mappings do not change a comparison with the ASCII tokens "upgrade" and "websocket".
- A router that returns a nil service without an error makes `getService` dereference nil. The model's router returns a service or an error. Nil nodes inside a registry service are not represented either.
- `handler.NewOptions` defaults other than the router (logger, sizes, namespace) belong to a package that is not part of this model. Handler options are modelled only by the router they install.
- The response headers that `http.Error` writes. The body is the message followed by a newline.
- `Server.Handle` requires a non-empty path not registered before, because Go's `ServeMux.Handle` panics otherwise. Other pattern syntax and the nil-handler panic are not modelled.
- The `String()` methods of both types, which return the constants "web" and "http".
