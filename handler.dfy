/**
 * The mirror handler (`Handler`, `NewHandler`, `ServeHTTP` in
 * plugin/mirror/mirror.go): serve the request with the next handler, then,
 * unless the limiter refuses, dispatch a copy of it to the mirror target.
 * The dispatch is recorded as the request the proxy's director produces; the
 * goroutine and the reverse proxy that would send it are not modelled.
 */
module Mirror {
  import opened Requests
  import opened MirrorConfig
  import opened Admission

  /** What one call of `ServeHTTP` does, in order. */
  datatype Effect =
    | Respond(response: Response)                // the next handler answers the caller
    | SkipExtraction(reason: string)             // the extractor failed: logged, no mirror
    | SkipLimited(token: string, max: int)       // the limiter denied: logged, no mirror
    | Dispatch(request: Request)                 // the mirrored copy is handed to the proxy

  /**
   * The proxy's director: points the outgoing request `req` at the configured
   * scheme and host and gives it the raw query of the `original` request.
   * Method, path, headers, remote address and Host header are kept.
   */
  function Director(cfg: Config, original: Request, req: Request): (out: Request)
    ensures out.url.scheme == cfg.scheme && out.url.host == cfg.host
    ensures out.url.rawQuery == original.url.rawQuery
    ensures out.verb == req.verb && out.url.path == req.url.path && out.headers == req.headers
    ensures out.remoteAddr == req.remoteAddr && out.host == req.host
  {
    req.(url := req.url.(scheme := cfg.scheme, host := cfg.host, rawQuery := original.url.rawQuery))
  }

  /** Directing a request a second time changes nothing: the rewrite depends only on the configuration and the original. */
  lemma DirectorIdempotent(cfg: Config, original: Request, req: Request)
    ensures Director(cfg, original, Director(cfg, original, req)) == Director(cfg, original, req)
  {
  }

  /** The mirrored copy of `r`: the director applied to the request itself. */
  function MirrorOf(cfg: Config, r: Request): Request {
    Director(cfg, r, r)
  }

  class Handler {
    const cfg: Config
    const next: Request -> Response
    const limiter: Limiter?

    /** A limiter is present exactly for a positive limit, and its table is balanced. */
    ghost predicate Valid()
      reads this, limiter
    {
      && (limiter != null <==> cfg.connections > 0)
      && (limiter != null ==> limiter.Valid() && limiter.maxConnections == cfg.connections)
    }

    constructor (cfg: Config, next: Request -> Response, limiter: Limiter?)
      requires limiter != null <==> cfg.connections > 0
      requires limiter != null ==> limiter.Valid() && limiter.maxConnections == cfg.connections
      ensures this.cfg == cfg && this.next == next && this.limiter == limiter
      ensures Valid()
    {
      this.cfg := cfg;
      this.next := next;
      this.limiter := limiter;
    }

    /**
     * `ServeHTTP`: the next handler always answers first; the copy is mirrored
     * iff there is no limiter, or the extractor yields a token that the
     * limiter admits. Extraction failure and denial only skip the mirror.
     */
    method ServeHTTP(r: Request) returns (effects: seq<Effect>)
      requires Valid()
      modifies limiter
      ensures Valid()
      ensures |effects| == 2 && effects[0] == Respond(next(r))
      ensures effects[1].Dispatch? ==> effects[1].request == MirrorOf(cfg, r)
      ensures limiter == null ==> effects[1].Dispatch?
      ensures limiter != null && limiter.extract(r).ExtractionFailed? ==>
        effects[1] == SkipExtraction(limiter.extract(r).reason) && unchanged(limiter)
      ensures limiter != null && limiter.extract(r).Extracted? ==>
        var e := limiter.extract(r);
        && (effects[1].Dispatch? <==> Admits(limiter.maxConnections, Count(old(limiter.connections), e.token)))
        && (!effects[1].Dispatch? ==> effects[1] == SkipLimited(e.token, limiter.maxConnections))
        && limiter.State() == Step(old(limiter.State()), limiter.maxConnections, Call(e.token, e.amount)).1
    {
      var response := next(r);
      effects := [Respond(response)];

      if limiter != null {
        var extraction := limiter.extract(r);
        if extraction.ExtractionFailed? {
          effects := effects + [SkipExtraction(extraction.reason)];
          return;
        }
        var decision := limiter.Acquire(extraction.token, extraction.amount);
        if decision.LimitExceeded? {
          effects := effects + [SkipLimited(extraction.token, decision.max)];
          return;
        }
      }

      effects := effects + [Dispatch(MirrorOf(cfg, r))];
    }
  }

  /**
   * `NewHandler`: a limiter is attached only for a positive limit, with an
   * empty table, and always with the extractor for "client.ip", whatever
   * variable the configuration names. `newExtractor` stands for
   * `utils.NewExtractor`; its error is the only way construction fails.
   */
  method NewHandler(cfg: Config, next: Request -> Response,
                    newExtractor: string -> Result<Request -> Extraction, string>)
    returns (r: Result<Handler, string>)
    ensures r.Err? <==> cfg.connections > 0 && newExtractor(ClientIP).Err?
    ensures r.Err? ==> r.error == newExtractor(ClientIP).error
    ensures r.Ok? ==>
      var h := r.value;
      && fresh(h) && h.Valid()
      && h.cfg == cfg && h.next == next
      && (cfg.connections > 0 ==>
            && h.limiter != null && fresh(h.limiter)
            && h.limiter.extract == newExtractor(ClientIP).value
            && h.limiter.maxConnections == cfg.connections
            && h.limiter.connections == map[] && h.limiter.totalConnections == 0)
  {
    var limiter: Limiter? := null;
    if cfg.connections > 0 {
      var extract := newExtractor(ClientIP);
      if extract.Err? {
        return Err(extract.error);
      }
      limiter := new Limiter(extract.value, cfg.connections);
    }
    var h := new Handler(cfg, next, limiter);
    r := Ok(h);
  }

  /** With no positive limit every request is answered by the next handler and then mirrored. */
  method UnlimitedMirrorsEveryRequest(cfg: Config, next: Request -> Response,
                                      newExtractor: string -> Result<Request -> Extraction, string>,
                                      requests: seq<Request>)
    returns (effects: seq<seq<Effect>>)
    requires cfg.connections <= 0
    ensures |effects| == |requests|
    ensures forall i :: 0 <= i < |requests| ==>
      effects[i] == [Respond(next(requests[i])), Dispatch(MirrorOf(cfg, requests[i]))]
  {
    var built := NewHandler(cfg, next, newExtractor);
    var h := built.value;
    effects := [];
    for i := 0 to |requests|
      invariant h.Valid() && h.limiter == null && h.cfg == cfg && h.next == next
      invariant |effects| == i
      invariant forall j :: 0 <= j < i ==>
        effects[j] == [Respond(next(requests[j])), Dispatch(MirrorOf(cfg, requests[j]))]
    {
      var e := h.ServeHTTP(requests[i]);
      effects := effects + [e];
    }
  }

  /**
   * With a positive limit and a client whose amount reaches it, the first
   * request from that client is mirrored and the second is not; both are
   * answered by the next handler.
   */
  method SecondRequestFromClientLimited(cfg: Config, next: Request -> Response,
                                        newExtractor: string -> Result<Request -> Extraction, string>,
                                        r: Request)
    returns (first: seq<Effect>, second: seq<Effect>)
    requires cfg.connections > 0
    requires newExtractor(ClientIP).Ok? && newExtractor(ClientIP).value(r).Extracted?
    requires newExtractor(ClientIP).value(r).amount >= cfg.connections
    ensures first == [Respond(next(r)), Dispatch(MirrorOf(cfg, r))]
    ensures second == [Respond(next(r)), SkipLimited(newExtractor(ClientIP).value(r).token, cfg.connections)]
  {
    var built := NewHandler(cfg, next, newExtractor);
    var h := built.value;
    first := h.ServeHTTP(r);
    second := h.ServeHTTP(r);
  }
}
