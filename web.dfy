/**
 * The web handler: resolves each request to one backend node, then either
 * reverse-proxies it or, for a WebSocket handshake, tunnels it.
 *
 * Randomness is an input (`draw`, the value of `rand.Int()`), the router is
 * a function value, and `url.Parse`, `net.SplitHostPort` and the tunnel's
 * network calls are inputs whose outcomes the model branches on.
 */
module Web {
  import opened Wrappers
  import opened FunctionalOptions
  import opened GoStrings
  import opened Registry
  import opened HttpTypes

  const NoRouteFound := "no route found"
  const Scheme := "http://"
  const ForwardedForKey := "X-Forwarded-For"

  /** The routing collaborator: `Route(r)` sees the request and its header at call time. */
  datatype Router = Router(route: (Request, HeaderMap) -> Result<ApiService, string>)

  /** `handler.Options`, reduced to the router this handler consults. */
  datatype HandlerOptions = HandlerOptions(router: Option<Router>)

  type HandlerOption = HandlerOptions -> HandlerOptions

  const DefaultHandlerOptions := HandlerOptions(None)

  /** `webHandler`: its options and, when bound statically, its service. */
  datatype WebHandler = WebHandler(opts: HandlerOptions, s: Option<ApiService>)

  /** `NewHandler`: a handler that routes every request through its router. */
  function NewHandler(options: seq<HandlerOption>): (h: WebHandler)
    ensures h.s.None? && h.opts == ApplyAll(DefaultHandlerOptions, options)
    // Without options the handler has no router, so it cannot find any service.
    ensures options == [] ==> h.opts.router.None?
  {
    WebHandler(ApplyAll(DefaultHandlerOptions, options), None)
  }

  /** `WithService`: a handler bound to `s` (a nil `s` leaves it unbound). */
  function WithService(s: Option<ApiService>, options: seq<HandlerOption>): (h: WebHandler)
    ensures h.s == s
    // The options are applied exactly as `NewHandler` applies them.
    ensures h.opts == NewHandler(options).opts
  {
    WebHandler(ApplyAll(DefaultHandlerOptions, options), s)
  }

  // ---------------------------------------------------------------------
  // Service resolution (`getService`)
  // ---------------------------------------------------------------------

  /** Where the service comes from: the static binding, else the router, else nowhere. */
  function Source(wh: WebHandler, r: Request, fields: HeaderMap): Result<ApiService, string>
  {
    if wh.s.Some? then Success(wh.s.value)
    else if wh.opts.router.Some? then wh.opts.router.value.route(r, fields)
    else Failure(NoRouteFound)
  }

  /** The node a draw selects from the candidates, as a URL string. */
  function Pick(nodes: seq<Node>, draw: nat): Result<string, string>
  {
    if |nodes| == 0 then Failure(NoRouteFound)
    else Success(Scheme + nodes[draw % |nodes|].address)
  }

  /** What `getService` returns for request `r` with header `fields` and random draw `draw`. */
  function Resolve(wh: WebHandler, r: Request, fields: HeaderMap, draw: nat): Result<string, string>
  {
    match Source(wh, r, fields)
    case Failure(e) => Failure(e)
    case Success(service) => Pick(Flatten(service.services), draw)
  }

  /** `getService`: builds the candidate list with an append loop and picks one node. */
  method GetService(wh: WebHandler, r: Request, draw: nat) returns (res: Result<string, string>)
    ensures res == Resolve(wh, r, r.header.fields, draw)
  {
    var service: ApiService;
    if wh.s.Some? {
      service := wh.s.value;
    } else if wh.opts.router.Some? {
      var routed := wh.opts.router.value.route(r, r.header.fields);
      if routed.Failure? {
        return Failure(routed.error);
      }
      service := routed.value;
    } else {
      return Failure(NoRouteFound);
    }

    var entries := service.services;
    var nodes: seq<Node> := [];
    var i := 0;
    while i < |entries|
      invariant 0 <= i <= |entries|
      invariant nodes == Flatten(entries[..i])
    {
      FlattenSnoc(entries[..i], entries[i]);
      assert entries[..i + 1] == entries[..i] + [entries[i]];
      nodes := nodes + entries[i].nodes;
      i := i + 1;
    }
    assert entries[..i] == entries;
    if |nodes| == 0 {
      return Failure(NoRouteFound);
    }
    var node := nodes[draw % |nodes|];
    res := Success(Scheme + node.address);
  }

  /**
   * A static binding decides alone: the request, its header and the router
   * play no part, and only the bound service's candidate list matters.
   */
  lemma StaticBindingIgnoresRequest(wh: WebHandler, r: Request, fields: HeaderMap,
                                    other: HandlerOptions, r': Request, fields': HeaderMap, draw: nat)
    requires wh.s.Some?
    ensures Resolve(wh, r, fields, draw) == Pick(Flatten(wh.s.value.services), draw)
    ensures Resolve(WebHandler(other, wh.s), r', fields', draw) == Resolve(wh, r, fields, draw)
  {
  }

  /** Two bound services with the same candidate list resolve alike. */
  lemma StaticDependsOnlyOnNodes(s1: ApiService, s2: ApiService, o1: HandlerOptions, o2: HandlerOptions,
                                 r: Request, fields: HeaderMap, draw: nat)
    requires Flatten(s1.services) == Flatten(s2.services)
    ensures Resolve(WebHandler(o1, Some(s1)), r, fields, draw) == Resolve(WebHandler(o2, Some(s2)), r, fields, draw)
  {
  }

  /** Without a static service: no router means "no route found"; a router error comes back unchanged. */
  lemma DynamicBinding(wh: WebHandler, r: Request, fields: HeaderMap, draw: nat)
    requires wh.s.None?
    ensures wh.opts.router.None? ==> Resolve(wh, r, fields, draw) == Failure(NoRouteFound)
    ensures wh.opts.router.Some? && wh.opts.router.value.route(r, fields).Failure? ==>
      Resolve(wh, r, fields, draw) == Failure(wh.opts.router.value.route(r, fields).error)
    ensures wh.opts.router.Some? && wh.opts.router.value.route(r, fields).Success? ==>
      Resolve(wh, r, fields, draw) == Pick(Flatten(wh.opts.router.value.route(r, fields).value.services), draw)
  {
  }

  /** A service none of whose entries has a node resolves to "no route found". */
  lemma EmptyServiceFails(wh: WebHandler, r: Request, fields: HeaderMap, draw: nat)
    requires Source(wh, r, fields).Success?
    requires forall i :: 0 <= i < |Source(wh, r, fields).value.services| ==> Source(wh, r, fields).value.services[i].nodes == []
    ensures Resolve(wh, r, fields, draw) == Failure(NoRouteFound)
  {
    FlattenLength(Source(wh, r, fields).value.services);
  }

  /**
   * Every successful resolution is "http://" followed by the address of a
   * node of some entry of the service; the index used is in bounds for
   * every draw.
   */
  lemma ResolvedIsCandidate(wh: WebHandler, r: Request, fields: HeaderMap, draw: nat)
    requires Resolve(wh, r, fields, draw).Success?
    ensures Source(wh, r, fields).Success?
    ensures exists i, n ::
              && 0 <= i < |Source(wh, r, fields).value.services|
              && n in Source(wh, r, fields).value.services[i].nodes
              && Resolve(wh, r, fields, draw).value == Scheme + n.address
  {
    var entries := Source(wh, r, fields).value.services;
    var nodes := Flatten(entries);
    var n := nodes[draw % |nodes|];
    FlattenMembers(entries, n);
  }

  /** A resolved address always starts with the scheme, so it is never empty. */
  lemma ResolvedHasScheme(wh: WebHandler, r: Request, fields: HeaderMap, draw: nat)
    requires Resolve(wh, r, fields, draw).Success?
    ensures |Resolve(wh, r, fields, draw).value| >= |Scheme|
    ensures Resolve(wh, r, fields, draw).value[..|Scheme|] == Scheme
  {
  }

  /**
   * Every candidate is selected by exactly the draws congruent to its
   * position: draw `i` picks candidate `i`, and adding the number of
   * candidates to a draw does not change the pick.
   */
  lemma PickCoversCandidates(nodes: seq<Node>, i: nat, draw: nat)
    requires i < |nodes|
    ensures Pick(nodes, i) == Success(Scheme + nodes[i].address)
    ensures Pick(nodes, draw + |nodes|) == Pick(nodes, draw)
    ensures Pick(nodes, draw) == Pick(nodes, i) <== draw % |nodes| == i
  {
    ModOfSmall(i, |nodes|);
    ModShift(draw, |nodes|);
  }

  lemma ModOfSmall(i: nat, n: nat)
    requires i < n
    ensures i % n == i
  {
  }

  lemma ModShift(d: nat, n: nat)
    requires n > 0
    ensures (d + n) % n == d % n
  {
    var q, m := d / n, d % n;
    var q', m' := (d + n) / n, (d + n) % n;
    assert (q + 1 - q') * n == m' - m;
    MulBounds(q + 1 - q', n);
  }

  lemma MulBounds(k: int, n: nat)
    ensures k >= 1 ==> k * n >= n
    ensures k <= -1 ==> k * n + n <= 0
  {
  }

  /** A nil service in `WithService` is the same as `NewHandler`. */
  lemma WithoutServiceIsNewHandler(options: seq<HandlerOption>)
    ensures WithService(None, options) == NewHandler(options)
  {
  }

  /** A handler made by `WithService` never consults the router its options install. */
  lemma WithServiceIgnoresOptions(s: ApiService, o1: seq<HandlerOption>, o2: seq<HandlerOption>,
                                  r: Request, fields: HeaderMap, draw: nat)
    ensures Resolve(WithService(Some(s), o1), r, fields, draw) == Resolve(WithService(Some(s), o2), r, fields, draw)
  {
  }

  // ---------------------------------------------------------------------
  // Protocol detection (`isWebSocket`)
  // ---------------------------------------------------------------------

  /** A header token as compared: trimmed, then lower-cased. */
  function Token(v: string): string
  {
    ToLower(TrimSpace(v))
  }

  /** Some comma-separated token of `value` is `want`. */
  predicate HasToken(value: string, want: string)
  {
    exists t :: t in Split(value, ',') && Token(t) == want
  }

  /** The handshake test on a header: "upgrade" among the first Connection value's tokens and "websocket" among the first Upgrade value's. */
  predicate IsUpgrade(fields: HeaderMap)
  {
    HasToken(FirstValue(fields, "Connection"), "upgrade") && HasToken(FirstValue(fields, "Upgrade"), "websocket")
  }

  /** The `contains` closure: scans the tokens of `h.Get(key)`, stopping at the first match. */
  method Contains(h: Header, key: string, want: string) returns (found: bool)
    ensures found == HasToken(h.Get(key), want)
  {
    var parts := Split(h.Get(key), ',');
    for i := 0 to |parts|
      invariant forall j :: 0 <= j < i ==> Token(parts[j]) != want
    {
      if want == ToLower(TrimSpace(parts[i])) {
        assert parts[i] in parts;
        return true;
      }
    }
    return false;
  }

  /** `isWebSocket`. */
  method IsWebSocket(r: Request) returns (b: bool)
    ensures b == IsUpgrade(r.header.fields)
  {
    var connection := Contains(r.header, "Connection", "upgrade");
    if connection {
      var upgrade := Contains(r.header, "Upgrade", "websocket");
      if upgrade {
        return true;
      }
    }
    return false;
  }

  /** Tokens are matched one by one: a value joined by a comma holds a token iff one of its halves does. */
  lemma HasTokenConcat(a: string, b: string, want: string)
    ensures HasToken(a + [','] + b, want) <==> HasToken(a, want) || HasToken(b, want)
  {
    SplitConcat(a, b, ',');
  }

  /** A value without commas is a single token. */
  lemma HasTokenSingle(v: string, want: string)
    requires ',' !in v
    ensures HasToken(v, want) <==> Token(v) == want
  {
    SplitWithoutSeparator(v, ',');
  }

  /** An absent or empty Connection or Upgrade header never makes a handshake. */
  lemma AbsentHeaderIsNotUpgrade(fields: HeaderMap)
    requires FirstValue(fields, "Connection") == "" || FirstValue(fields, "Upgrade") == ""
    ensures !IsUpgrade(fields)
  {
  }

  /**
   * `Connection: keep-alive, Upgrade` with `Upgrade: WebSocket` is a
   * handshake: tokens are trimmed and compared without regard to case.
   */
  lemma MixedCaseHandshake(fields: HeaderMap)
    requires FirstValue(fields, "Connection") == "keep-alive, Upgrade"
    requires FirstValue(fields, "Upgrade") == "WebSocket"
    ensures IsUpgrade(fields)
  {
    KeepAliveUpgradeHasUpgrade();
    WebSocketHasWebSocket();
  }

  lemma WebSocketHasWebSocket()
    ensures HasToken("WebSocket", "websocket")
  {
    WebSocketTokenMatches();
    HasTokenSingle("WebSocket", "websocket");
  }

  lemma KeepAliveUpgradeHasUpgrade()
    ensures HasToken("keep-alive, Upgrade", "upgrade")
  {
    assert "keep-alive, Upgrade" == "keep-alive" + [','] + " Upgrade";
    UpgradeTokenMatches();
    HasTokenSingle(" Upgrade", "upgrade");
    HasTokenConcat("keep-alive", " Upgrade", "upgrade");
  }

  lemma UpgradeTokenMatches()
    ensures Token(" Upgrade") == "upgrade"
  {
    var w := "Upgrade";
    assert TrimLeftSpace(" Upgrade") == TrimLeftSpace(w) == w by {
      assert " Upgrade"[1..] == w;
      assert !IsSpace(w[0]);
    }
    assert TrimRightSpace(w) == w by { assert !IsSpace(w[|w| - 1]); }
    ToLowerAt(w);
    assert ToLower(w) == "upgrade" by {
      forall i | 0 <= i < |w|
        ensures ToLower(w)[i] == "upgrade"[i]
      {
        assert LowerChar(w[i]) == "upgrade"[i];
      }
    }
  }

  lemma WebSocketTokenMatches()
    ensures Token("WebSocket") == "websocket"
  {
    var w := "WebSocket";
    assert TrimLeftSpace(w) == w by { assert !IsSpace(w[0]); }
    assert TrimRightSpace(w) == w by { assert !IsSpace(w[|w| - 1]); }
    ToLowerAt(w);
    assert ToLower(w) == "websocket" by {
      forall i | 0 <= i < |w|
        ensures ToLower(w)[i] == "websocket"[i]
      {
        assert LowerChar(w[i]) == "websocket"[i];
      }
    }
  }

  // ---------------------------------------------------------------------
  // WebSocket tunnel setup (`serveWebSocket`)
  // ---------------------------------------------------------------------

  /** The header after the X-Forwarded-For rewrite, given the split of the remote address. */
  function ForwardedFor(fields: HeaderMap, client: Option<HostPort>): HeaderMap
  {
    match client
    case None => fields
    case Some(hp) =>
      var chain := if ForwardedForKey in fields then Join(fields[ForwardedForKey], ", ") + ", " + hp.host else hp.host;
      fields[ForwardedForKey := [chain]]
  }

  /**
   * The rewrite touches X-Forwarded-For alone. When the remote address does
   * not split it changes nothing; otherwise the key holds a single value:
   * the client IP, after the existing values joined by ", " if there were any.
   */
  lemma ForwardedForRewrite(fields: HeaderMap, client: Option<HostPort>)
    ensures forall k :: k != ForwardedForKey ==>
      (k in ForwardedFor(fields, client) <==> k in fields) &&
      (k in fields ==> ForwardedFor(fields, client)[k] == fields[k])
    ensures client.None? ==> ForwardedFor(fields, client) == fields
    ensures client.Some? && ForwardedForKey !in fields ==>
      ForwardedFor(fields, client)[ForwardedForKey] == [client.value.host]
    ensures client.Some? && ForwardedForKey in fields ==>
      ForwardedFor(fields, client)[ForwardedForKey] == [Join(fields[ForwardedForKey], ", ") + ", " + client.value.host]
  {
  }

  /**
   * Read as a comma-separated chain, the rewritten value is the existing
   * chain with the client appended as its last element.
   */
  lemma ForwardedChainAppends(fields: HeaderMap, hp: HostPort)
    requires ForwardedForKey in fields
    requires ',' !in hp.host
    ensures Split(ForwardedFor(fields, Some(hp))[ForwardedForKey][0], ',')
         == Split(Join(fields[ForwardedForKey], ", "), ',') + [" " + hp.host]
  {
    var existing := Join(fields[ForwardedForKey], ", ");
    assert existing + ", " + hp.host == existing + [','] + (" " + hp.host);
    SplitConcat(existing, " " + hp.host, ',');
    SplitWithoutSeparator(" " + hp.host, ',');
  }

  /** Outcomes of the tunnel's network steps, which are not part of this model. */
  datatype Backend = Backend(
    dialError: string -> Option<string>, // `net.Dial("tcp", host)`: its error text, if any
    hijackable: bool,                    // the response writer is an `http.Hijacker`
    hijackFails: bool,                   // `Hijack()` returns an error
    handshakeWriteFails: bool            // `req.Write(conn)` returns an error
  )

  /** The response `serveWebSocket` gives for backend `host`. */
  function TunnelReply(host: string, backend: Backend): Response
  {
    if host == "" then Reply(500, "invalid host\n")
    else if backend.dialError(host).Some? then Reply(500, backend.dialError(host).value + "\n")
    else if !backend.hijackable then Reply(500, "failed to connect\n")
    else if backend.hijackFails || backend.handshakeWriteFails then Closed
    else Tunnelled(host)
  }

  /** The request header after `serveWebSocket`: rewritten once the host check has passed. */
  function TunnelHeaders(host: string, fields: HeaderMap, client: Option<HostPort>): HeaderMap
  {
    if host == "" then fields else ForwardedFor(fields, client)
  }

  /** An empty host is refused before any network step: the backend's behaviour cannot matter. */
  lemma EmptyHostRefused(b1: Backend, b2: Backend, fields: HeaderMap, client: Option<HostPort>)
    ensures TunnelReply("", b1) == TunnelReply("", b2) == Reply(500, "invalid host\n")
    ensures TunnelHeaders("", fields, client) == fields
  {
  }

  /** A tunnel is opened only to a non-empty host that was dialled, hijacked and sent the handshake. */
  lemma TunnelNeedsEverySetupStep(host: string, backend: Backend)
    ensures TunnelReply(host, backend).Tunnelled? <==>
      host != "" && backend.dialError(host).None? && backend.hijackable
      && !backend.hijackFails && !backend.handshakeWriteFails
    ensures TunnelReply(host, backend).Tunnelled? ==> TunnelReply(host, backend).host == host
  {
  }

  /**
   * `serveWebSocket`. The copy `req` shares its header with `r`, so the
   * X-Forwarded-For rewrite is visible through `r`.
   */
  method ServeWebSocket(host: string, r: Request, lib: Library, backend: Backend) returns (resp: Response)
    modifies r.header
    ensures resp == TunnelReply(host, backend)
    ensures r.header.fields == TunnelHeaders(host, old(r.header.fields), lib.splitHostPort(r.remoteAddr))
  {
    var req := r;  // `*req = *r`: a shallow copy, `req.header` is `r.header`
    if |host| == 0 {
      return Reply(500, "invalid host\n");
    }

    var client := lib.splitHostPort(r.remoteAddr);
    if client.Some? {
      var clientIP := client.value.host;
      if ForwardedForKey in req.header.fields {
        clientIP := Join(req.header.fields[ForwardedForKey], ", ") + ", " + clientIP;
      }
      req.header.Set(ForwardedForKey, clientIP);
    }

    var dialError := backend.dialError(host);
    if dialError.Some? {
      return Reply(500, dialError.value + "\n");
    }
    if !backend.hijackable {
      return Reply(500, "failed to connect\n");
    }
    if backend.hijackFails {
      return Closed;
    }
    if backend.handshakeWriteFails {
      return Closed;
    }
    resp := Tunnelled(host);
  }

  // ---------------------------------------------------------------------
  // Dispatch (`ServeHTTP`)
  // ---------------------------------------------------------------------

  /** The branch `ServeHTTP` takes. */
  datatype Plan = Fail(status: int) | Upgrade(host: string) | Proxy(target: Url)

  function PlanFor(wh: WebHandler, r: Request, fields: HeaderMap, draw: nat, lib: Library): Plan
  {
    match Resolve(wh, r, fields, draw)
    case Failure(_) => Fail(500)
    case Success(service) =>
      if |service| == 0 then Fail(404)
      else match lib.parseUrl(service)
        case None => Fail(500)
        case Some(target) => if IsUpgrade(fields) then Upgrade(target.host) else Proxy(target)
  }

  /**
   * The status map: a resolution error is 500, an unparsable address is
   * 500, a handshake goes to the tunnel with the parsed host, anything
   * else to the reverse proxy.
   */
  lemma PlanBranches(wh: WebHandler, r: Request, fields: HeaderMap, draw: nat, lib: Library)
    ensures Resolve(wh, r, fields, draw).Failure? ==> PlanFor(wh, r, fields, draw, lib) == Fail(500)
    ensures Resolve(wh, r, fields, draw).Success? ==>
      var target := lib.parseUrl(Resolve(wh, r, fields, draw).value);
      && (target.None? ==> PlanFor(wh, r, fields, draw, lib) == Fail(500))
      && (target.Some? && IsUpgrade(fields) ==> PlanFor(wh, r, fields, draw, lib) == Upgrade(target.value.host))
      && (target.Some? && !IsUpgrade(fields) ==> PlanFor(wh, r, fields, draw, lib) == Proxy(target.value))
  {
  }

  /** The 404 branch is unreachable: every resolved address starts with "http://". */
  lemma NotFoundUnreachable(wh: WebHandler, r: Request, fields: HeaderMap, draw: nat, lib: Library)
    ensures PlanFor(wh, r, fields, draw, lib) != Fail(404)
  {
  }

  /** A bound service without nodes is answered with 500, not 404. */
  lemma EmptyServiceAnswers500(s: ApiService, opts: HandlerOptions, r: Request, fields: HeaderMap, draw: nat, lib: Library)
    requires forall i :: 0 <= i < |s.services| ==> s.services[i].nodes == []
    ensures PlanFor(WebHandler(opts, Some(s)), r, fields, draw, lib) == Fail(500)
  {
    EmptyServiceFails(WebHandler(opts, Some(s)), r, fields, draw);
  }

  /**
   * `ServeHTTP`. The response follows the plan; the request header changes
   * only on the tunnel branch, where `serveWebSocket` rewrites it.
   */
  method ServeHTTP(wh: WebHandler, r: Request, draw: nat, lib: Library, backend: Backend) returns (resp: Response)
    modifies r.header
    ensures match PlanFor(wh, r, old(r.header.fields), draw, lib)
      case Fail(status) => resp == Reply(status, "") && r.header.fields == old(r.header.fields)
      case Proxy(target) => resp == Proxied(target) && r.header.fields == old(r.header.fields)
      case Upgrade(host) =>
        && resp == TunnelReply(host, backend)
        && r.header.fields == TunnelHeaders(host, old(r.header.fields), lib.splitHostPort(r.remoteAddr))
  {
    var service := GetService(wh, r, draw);
    if service.Failure? {
      return Reply(500, "");
    }
    if |service.value| == 0 {
      return Reply(404, "");
    }
    var target := lib.parseUrl(service.value);
    if target.None? {
      return Reply(500, "");
    }
    var upgrade := IsWebSocket(r);
    if upgrade {
      resp := ServeWebSocket(target.value.host, r, lib, backend);
      return;
    }
    resp := Proxied(target.value);
  }
}
