/**
 * `PrometheusMetrics`: the fairing and handler of the crate. It owns a
 * private registry holding the two built-in metrics and shares the caller's
 * registry for custom metrics. Its hooks are methods whose effect on the
 * built-in metrics is stated through the functions of `Instrumentation`.
 */
module RocketPrometheus {
  import opened Wrappers
  import opened StatusCodes
  import opened Prometheus
  import opened Rocket
  import opened Instrumentation

  /** The label names of both built-in metrics. */
  const LabelNames: seq<string> := ["endpoint", "method", "status"]
  const TotalHelp := "Total number of HTTP requests"
  const DurationHelp := "HTTP request duration in seconds for all requests"
  const ScrapeContentType := "text/plain; version=0.0.4; charset=utf-8"

  /** The namespace: the value of `ROCKET_PROMETHEUS_NAMESPACE` if it is set, `rocket` otherwise. */
  function Namespace(namespaceVar: Option<string>): string {
    match namespaceVar
    case Some(ns) => ns
    case None => "rocket"
  }

  function TotalName(namespace: string): string {
    FullName(namespace, "http_requests_total")
  }

  function DurationName(namespace: string): string {
    FullName(namespace, "http_requests_duration_seconds")
  }

  /** The two built-in names never collide, whatever the namespace, so registering both always succeeds. */
  lemma BuiltinNamesDistinct(namespace: string)
    ensures TotalName(namespace) != DurationName(namespace)
  {
  }

  /** `TimerStart`: the request-local value holding the instant the request arrived, if it was recorded. */
  datatype TimerStart = TimerStart(start: Option<Instant>)

  /** `Instant::elapsed` at `now`: zero if the clock reads earlier than `start`. */
  function Elapsed(start: Instant, now: Instant): Observation {
    if now >= start then now - start else 0
  }

  /** The duration `on_response` observes, given the request's cache slot as it finds it. */
  function ElapsedFor(slot: Option<TimerStart>, now: Instant): Option<Observation> {
    match slot
    case Some(TimerStart(Some(start))) => Some(Elapsed(start, now))
    case _ => None
  }

  /** The families the private registry holds for the given metric values. */
  function BuiltinFamilies(namespace: string, m: Metrics): map<string, Family> {
    map[TotalName(namespace) := CounterVec(TotalHelp, LabelNames, m.requests),
        DurationName(namespace) := HistogramVec(DurationHelp, LabelNames, m.durations)]
  }

  /** What the scrape handler answers. */
  datatype Scrape = Scrape(contentType: string, body: string)

  class PrometheusMetrics {
    const namespace: string
    /** The registry of the two built-in metrics, created by and private to this instance. */
    const rocketRegistry: Registry
    /** The caller's registry of custom metrics. */
    const customRegistry: Registry

    /** The private registry holds exactly the two built-in families, with their help texts and label names. */
    ghost predicate Valid()
      reads rocketRegistry
    {
      && rocketRegistry != customRegistry
      && rocketRegistry.families.Keys == {TotalName(namespace), DurationName(namespace)}
      && rocketRegistry.families[TotalName(namespace)].CounterVec?
      && rocketRegistry.families[TotalName(namespace)].help == TotalHelp
      && rocketRegistry.families[TotalName(namespace)].labelNames == LabelNames
      && rocketRegistry.families[DurationName(namespace)].HistogramVec?
      && rocketRegistry.families[DurationName(namespace)].help == DurationHelp
      && rocketRegistry.families[DurationName(namespace)].labelNames == LabelNames
    }

    /** The current values of the two built-in metrics. */
    function State(): Metrics
      reads rocketRegistry
      requires Valid()
    {
      Metrics(
        rocketRegistry.families[TotalName(namespace)].values,
        rocketRegistry.families[DurationName(namespace)].observations)
    }

    /**
     * `with_registry`: the built-in metrics go into a fresh private registry,
     * where registering them cannot fail; the caller's registry is kept by
     * reference and not touched.
     */
    constructor WithRegistry(registry: Registry, namespaceVar: Option<string>)
      ensures Valid() && fresh(rocketRegistry)
      ensures customRegistry == registry && registry.families == old(registry.families)
      ensures namespace == Namespace(namespaceVar)
      ensures State() == NoSeries
    {
      var builtin := new Registry();
      var ns := Namespace(namespaceVar);
      BuiltinNamesDistinct(ns);
      var registered := builtin.Register(TotalName(ns), CounterVec(TotalHelp, LabelNames, map[]));
      assert registered.Pass?;
      registered := builtin.Register(DurationName(ns), HistogramVec(DurationHelp, LabelNames, map[]));
      assert registered.Pass?;
      namespace := ns;
      rocketRegistry := builtin;
      customRegistry := registry;
    }

    /** `new`: a fresh, empty registry for custom metrics. */
    static method New(namespaceVar: Option<string>) returns (p: PrometheusMetrics)
      ensures p.Valid() && fresh(p) && fresh(p.customRegistry) && fresh(p.rocketRegistry)
      ensures p.customRegistry.families == map[]
      ensures p.namespace == Namespace(namespaceVar) && p.State() == NoSeries
    {
      var registry := new Registry();
      p := new PrometheusMetrics.WithRegistry(registry, namespaceVar);
    }

    /** `with_default_registry`: the process-wide default registry, passed in explicitly. */
    static method WithDefaultRegistry(defaultRegistry: Registry, namespaceVar: Option<string>) returns (p: PrometheusMetrics)
      ensures p.Valid() && fresh(p) && fresh(p.rocketRegistry)
      ensures p.customRegistry == defaultRegistry && defaultRegistry.families == old(defaultRegistry.families)
      ensures p.namespace == Namespace(namespaceVar) && p.State() == NoSeries
    {
      p := new PrometheusMetrics.WithRegistry(defaultRegistry, namespaceVar);
    }

    /** `registry`: the caller's registry; the built-in metrics live in the other one. */
    function CustomRegistry(): (r: Registry)
      reads rocketRegistry
      requires Valid()
      ensures r == customRegistry && r != rocketRegistry
    {
      customRegistry
    }

    /** `on_liftoff`: make sure every route's `(uri, method, "200")` series exists, without counting anything. */
    method OnLiftoff(routes: seq<Route>, fromCode: StatusParser)
      requires Valid()
      modifies rocketRegistry
      ensures Valid()
      ensures State() == AfterLiftoff(old(State()), routes)
    {
      var i := 0;
      while i < |routes|
        invariant 0 <= i <= |routes|
        invariant Valid()
        invariant State() == AfterLiftoff(old(State()), routes[..i])
      {
        var route := routes[i];
        var status := FromCode(200, fromCode);
        var labels := [route.uri, route.verb.AsStr(), status.AsStr()];
        assert labels == LiftoffLabels(route);
        var total := rocketRegistry.families[TotalName(namespace)];
        var duration := rocketRegistry.families[DurationName(namespace)];
        rocketRegistry.families := rocketRegistry.families
          [TotalName(namespace) := total.(values := TouchCounter(total.values, labels))]
          [DurationName(namespace) := duration.(observations := TouchHistogram(duration.observations, labels))];
        assert routes[..i + 1][..i] == routes[..i];
        i := i + 1;
      }
      assert routes[..|routes|] == routes;
    }

    /** `on_request`: record the arrival instant, unless the request-local slot is already filled. */
    method OnRequest(req: Request<TimerStart>, now: Instant)
      requires Valid()
      modifies req
      ensures Valid() && State() == old(State())
      ensures req.cache == if old(req.cache).None? then Some(TimerStart(Some(now))) else old(req.cache)
    {
      var _ := req.LocalCache(TimerStart(Some(now)));
    }

    /**
     * `on_response`: nothing for a request that matched no route; otherwise
     * count it under its route's template and, when the timer start is
     * there, observe the elapsed time. Reading the slot fills an empty one
     * with `TimerStart(None)`.
     */
    method OnResponse(req: Request<TimerStart>, code: u16, now: Instant, fromCode: StatusParser)
      requires Valid()
      modifies rocketRegistry, req
      ensures Valid()
      ensures State() == AfterResponse(old(State()),
        Served(req.path, req.route, req.verb, code, ElapsedFor(old(req.cache), now)))
      ensures req.route.None? ==> req.cache == old(req.cache)
      ensures req.route.Some? ==>
        req.cache == if old(req.cache).None? then Some(TimerStart(None)) else old(req.cache)
    {
      if req.route.None? {
        return;
      }
      var endpoint := req.route.value.uri;
      var verb := req.verb.AsStr();
      var status := FromCode(code, fromCode);
      var labels := [endpoint, verb, status.AsStr()];
      var total := rocketRegistry.families[TotalName(namespace)];
      rocketRegistry.families := rocketRegistry.families
        [TotalName(namespace) := total.(values := Inc(total.values, labels))];

      var startTime := req.LocalCache(TimerStart(None));
      if startTime.start.Some? {
        var duration := Elapsed(startTime.start.value, now);
        var histogram := rocketRegistry.families[DurationName(namespace)];
        rocketRegistry.families := rocketRegistry.families
          [DurationName(namespace) := histogram.(observations := Observe(histogram.observations, labels, duration))];
      }
    }

    /** `handle`: the custom registry's encoding followed by the built-in registry's, as plain text. */
    method Handle(encode: map<string, Family> -> string) returns (scrape: Scrape)
      requires Valid()
      ensures scrape.contentType == ScrapeContentType
      ensures scrape.body == encode(customRegistry.Gather()) + encode(BuiltinFamilies(namespace, State()))
    {
      var buffer: string := [];
      buffer := buffer + encode(customRegistry.Gather());
      assert rocketRegistry.Gather() == BuiltinFamilies(namespace, State()) by {
        var families := rocketRegistry.families;
        assert families[TotalName(namespace)] == CounterVec(TotalHelp, LabelNames, State().requests);
        assert families[DurationName(namespace)] == HistogramVec(DurationHelp, LabelNames, State().durations);
      }
      buffer := buffer + encode(rocketRegistry.Gather());
      scrape := Scrape(ScrapeContentType, buffer);
    }

    /** `From<PrometheusMetrics> for Vec<Route>`: the handler is mounted as a single GET route at `/`. */
    function Routes(): (r: seq<Route>)
      ensures |r| == 1 && r[0].verb == Get && r[0].uri == "/"
    {
      [Route(Get, "/")]
    }
  }

  /** One request through both hooks: it is timed from its first `on_request` and counted once. */
  method ServeOnce(p: PrometheusMetrics, req: Request<TimerStart>, arrival: Instant, code: u16, departure: Instant,
                   fromCode: StatusParser)
    requires p.Valid() && req.cache == None
    modifies p.rocketRegistry, req
    ensures p.Valid()
    ensures p.State() == AfterResponse(old(p.State()),
      Served(req.path, req.route, req.verb, code, Some(Elapsed(arrival, departure))))
    ensures p.customRegistry.families == old(p.customRegistry.families)
  {
    p.OnRequest(req, arrival);
    p.OnResponse(req, code, departure, fromCode);
  }

  /** Two instances on one shared registry: neither construction conflicts, and the registry gains nothing. */
  method SharedRegistry(shared: Registry, namespaceVar: Option<string>) returns (first: PrometheusMetrics, second: PrometheusMetrics)
    ensures first.Valid() && second.Valid()
    ensures first.customRegistry == shared && second.customRegistry == shared
    ensures first.rocketRegistry != second.rocketRegistry
    ensures shared.families == old(shared.families)
  {
    first := PrometheusMetrics.WithDefaultRegistry(shared, namespaceVar);
    second := PrometheusMetrics.WithDefaultRegistry(shared, namespaceVar);
  }
}
