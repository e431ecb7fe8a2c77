/**
 * The edge HTTP server: its settings, the middleware chain it puts around
 * every registered handler, and the choice of listener when it starts.
 *
 * Wrappers, the CORS and logging middleware and the listeners are abstract:
 * a wrapped handler is a term recording which middleware was applied, and a
 * listen attempt is a function from the chosen listener to the bound
 * address or an error.
 */
module EdgeServer {
  import opened Wrappers
  import opened FunctionalOptions

  /** A caller-supplied middleware (`func(http.Handler) http.Handler`), e.g. auth. */
  datatype Wrapper = Wrapper(name: string)

  /** Certificate material and an automatic-certificate provider, both opaque. */
  datatype TlsConfig = TlsConfig(name: string)
  datatype AcmeProvider = AcmeProvider(name: string)

  /** An `http.Handler`: an endpoint, or middleware around another handler. */
  datatype Handler =
    | Endpoint(name: string)
    | Wrapped(wrapper: Wrapper, inner: Handler)   // `wrapper(inner)`
    | Cors(inner: Handler)                        // `cors.CombinedCORSHandler(inner)`
    | Logged(inner: Handler)                      // `handlers.CombinedLoggingHandler(os.Stdout, inner)`

  /** One layer of middleware, as seen from the outside in. */
  datatype Layer = WrapperLayer(wrapper: Wrapper) | CorsLayer | LoggingLayer

  /** The middleware layers of `h`, outermost first. */
  function Layers(h: Handler): seq<Layer>
  {
    match h
    case Endpoint(_) => []
    case Wrapped(w, inner) => [WrapperLayer(w)] + Layers(inner)
    case Cors(inner) => [CorsLayer] + Layers(inner)
    case Logged(inner) => [LoggingLayer] + Layers(inner)
  }

  /** The endpoint at the centre of `h`. */
  function Core(h: Handler): string
  {
    match h
    case Endpoint(name) => name
    case Wrapped(_, inner) => Core(inner)
    case Cors(inner) => Core(inner)
    case Logged(inner) => Core(inner)
  }

  /** `server.Options`: the settings the option closures fill in. */
  datatype ServerOptions = ServerOptions(
    enableACME: bool,
    acmeProvider: Option<AcmeProvider>,
    acmeHosts: seq<string>,
    enableTLS: bool,
    tlsConfig: Option<TlsConfig>,
    enableCORS: bool,
    wrappers: seq<Wrapper>
  )

  /** `server.Option`: a closure updating the settings. */
  type ServerOption = ServerOptions -> ServerOptions

  /** The zero value of `server.Options`. */
  const ZeroOptions := ServerOptions(false, None, [], false, None, false, [])

  /** `handler` after `ws` have been applied to it in slice order. */
  function ApplyWrappers(handler: Handler, ws: seq<Wrapper>): Handler
  {
    if ws == [] then handler else Wrapped(ws[|ws| - 1], ApplyWrappers(handler, ws[..|ws| - 1]))
  }

  /** The handler `Handle` registers: wrappers, then CORS if enabled, then logging. */
  function Composed(o: ServerOptions, handler: Handler): Handler
  {
    var wrapped := ApplyWrappers(handler, o.wrappers);
    Logged(if o.enableCORS then Cors(wrapped) else wrapped)
  }

  /**
   * Wrappers applied in slice order end up reversed from the outside: the
   * last wrapper is the outermost, the first sits right around the handler.
   */
  lemma {:induction false} WrapperOrder(handler: Handler, ws: seq<Wrapper>)
    ensures |Layers(ApplyWrappers(handler, ws))| == |ws| + |Layers(handler)|
    ensures forall i :: 0 <= i < |ws| ==> Layers(ApplyWrappers(handler, ws))[i] == WrapperLayer(ws[|ws| - 1 - i])
    ensures Layers(ApplyWrappers(handler, ws))[|ws|..] == Layers(handler)
    ensures Core(ApplyWrappers(handler, ws)) == Core(handler)
  {
    if ws != [] {
      var n := |ws| - 1;
      WrapperOrder(handler, ws[..n]);
      var inner := Layers(ApplyWrappers(handler, ws[..n]));
      assert Layers(ApplyWrappers(handler, ws)) == [WrapperLayer(ws[n])] + inner;
      forall i | 1 <= i < |ws|
        ensures Layers(ApplyWrappers(handler, ws))[i] == WrapperLayer(ws[|ws| - 1 - i])
      {
        assert inner[i - 1] == WrapperLayer(ws[..n][n - 1 - (i - 1)]);
      }
    }
  }

  /**
   * The registered chain, from the outside in: logging, then CORS exactly
   * when enabled, then the wrappers from last to first, then the handler's
   * own layers around the same endpoint.
   */
  lemma ComposedOrder(o: ServerOptions, handler: Handler)
    ensures var layers := Layers(Composed(o, handler));
      var c := if o.enableCORS then 1 else 0;
      && |layers| == 1 + c + |o.wrappers| + |Layers(handler)|
      && layers[0] == LoggingLayer
      && (o.enableCORS ==> layers[1] == CorsLayer)
      && (forall j :: 1 + c <= j < 1 + c + |o.wrappers| ==> layers[j] == WrapperLayer(o.wrappers[|o.wrappers| + c - j]))
      && layers[1 + c + |o.wrappers|..] == Layers(handler)
    ensures Core(Composed(o, handler)) == Core(handler)
  {
    WrapperOrder(handler, o.wrappers);
  }

  /** The listener `Start` opens. */
  datatype Listener =
    | AcmeListener(provider: AcmeProvider, hosts: seq<string>)   // `ACMEProvider.Listen(hosts...)`
    | TlsListener(address: string, config: TlsConfig)             // `tls.Listen("tcp", address, config)`
    | TcpListener(address: string)                                // `net.Listen("tcp", address)`

  /**
   * The listener mode by priority: automatic certificates when enabled and
   * a provider is set, else TLS when enabled and a configuration is set,
   * else plain TCP on the configured address.
   */
  function SelectListener(o: ServerOptions, address: string): (l: Listener)
    ensures l.AcmeListener? <==> o.enableACME && o.acmeProvider.Some?
    ensures l.TlsListener? <==> !(o.enableACME && o.acmeProvider.Some?) && o.enableTLS && o.tlsConfig.Some?
    ensures l.TcpListener? <==> !(o.enableACME && o.acmeProvider.Some?) && !(o.enableTLS && o.tlsConfig.Some?)
    ensures l.AcmeListener? ==> l.provider == o.acmeProvider.value && l.hosts == o.acmeHosts
    ensures l.TlsListener? ==> l.address == address && l.config == o.tlsConfig.value
    ensures l.TcpListener? ==> l.address == address
  {
    if o.enableACME && o.acmeProvider.Some? then AcmeListener(o.acmeProvider.value, o.acmeHosts)
    else if o.enableTLS && o.tlsConfig.Some? then TlsListener(address, o.tlsConfig.value)
    else TcpListener(address)
  }

  /** With automatic certificates the configured address plays no part in listening. */
  lemma AcmeIgnoresAddress(o: ServerOptions, a1: string, a2: string)
    requires o.enableACME && o.acmeProvider.Some?
    ensures SelectListener(o, a1) == SelectListener(o, a2)
  {
  }

  /** `httpServer`: settings, the path-to-handler table, and the listen address. */
  class Server {
    var opts: ServerOptions
    var mux: map<string, Handler>
    var address: string

    /** `NewServer`: keeps `address`, applies `options` in order to the zero settings. */
    constructor (address: string, options: seq<ServerOption>)
      ensures opts == ApplyAll(ZeroOptions, options)
      ensures this.address == address && mux == map[]
    {
      var o := ZeroOptions;
      for i := 0 to |options|
        invariant o == ApplyAll(ZeroOptions, options[..i])
      {
        ApplyAllStep(ZeroOptions, options, i);
        o := options[i](o);
      }
      assert options[..|options|] == options;
      opts := o;
      mux := map[];
      this.address := address;
    }

    /** `Address`: the current listen address. */
    function Address(): (a: string)
      reads this
      ensures a == address
    {
      address
    }

    /** `Init`: applies further options in order on top of the current ones; never fails. */
    method Init(options: seq<ServerOption>) returns (err: Option<string>)
      modifies this
      ensures opts == ApplyAll(old(opts), options)
      ensures err == None
      ensures address == old(address) && mux == old(mux)
    {
      ghost var start := opts;
      for i := 0 to |options|
        invariant opts == ApplyAll(start, options[..i])
        invariant address == old(address) && mux == old(mux)
      {
        ApplyAllStep(start, options, i);
        opts := options[i](opts);
      }
      assert options[..|options|] == options;
      return None;
    }

    /** The composition loop of `Handle`: wrappers in slice order, then CORS, then logging. */
    method Chain(handler: Handler) returns (h: Handler)
      ensures h == Composed(opts, handler)
    {
      var ws := opts.wrappers;
      h := handler;
      for i := 0 to |ws|
        invariant h == ApplyWrappers(handler, ws[..i])
      {
        assert ws[..i + 1][..i] == ws[..i];
        h := Wrapped(ws[i], h);
      }
      assert ws[..|ws|] == ws;
      if opts.enableCORS {
        h := Cors(h);
      }
      h := Logged(h);
    }

    /**
     * `Handle`: registers the composed handler at `path`. The mux refuses
     * an empty pattern and a pattern registered before.
     */
    method Handle(path: string, handler: Handler)
      requires path != "" && path !in mux
      modifies this
      ensures mux == old(mux)[path := Composed(opts, handler)]
      ensures opts == old(opts) && address == old(address)
    {
      var h := Chain(handler);
      mux := mux[path := h];
    }

    /**
     * `Start`, reduced to listening: `listen` opens the selected listener and
     * yields its bound address or an error. On error the address is kept;
     * on success `Address()` is the bound address.
     */
    method Start(listen: Listener -> Result<string, string>) returns (err: Option<string>)
      modifies this
      ensures opts == old(opts) && mux == old(mux)
      ensures listen(SelectListener(old(opts), old(address))).Failure? ==>
        err == Some(listen(SelectListener(old(opts), old(address))).error) && address == old(address)
      ensures listen(SelectListener(old(opts), old(address))).Success? ==>
        err == None && Address() == listen(SelectListener(old(opts), old(address))).value
    {
      var l := SelectListener(opts, address);
      var bound := listen(l);
      if bound.Failure? {
        return Some(bound.error);
      }
      address := bound.value;
      err := None;
    }
  }

  /**
   * Options given to `NewServer` and then to `Init` act as one batch: the
   * settings equal those of a server built with both lists concatenated.
   */
  lemma InitExtendsOptions(first: seq<ServerOption>, second: seq<ServerOption>)
    ensures ApplyAll(ApplyAll(ZeroOptions, first), second) == ApplyAll(ZeroOptions, first + second)
  {
    ApplyAllConcat(ZeroOptions, first, second);
  }
}
