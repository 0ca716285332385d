/**
 * What the fairing's hooks do to the two built-in metrics, as functions of
 * the metrics' values: `on_liftoff` over a list of routes, `on_response`
 * for one served request, and any sequence of served requests. The class
 * `RocketPrometheus.PrometheusMetrics` is proved to follow these functions;
 * the lemmas here state what follows for the metrics.
 */
module Instrumentation {
  import opened Wrappers
  import opened StatusCodes
  import opened Prometheus
  import opened Rocket

  /** The values of `http_requests_total` and `http_requests_duration_seconds`. */
  datatype Metrics = Metrics(requests: map<LabelValues, nat>, durations: map<LabelValues, seq<Observation>>)

  /** Both metrics as `with_registry` creates them: no series yet. */
  const NoSeries := Metrics(map[], map[])

  /** The label values `[endpoint, method, status]` both built-in metrics are keyed by. */
  function SeriesLabels(endpoint: string, verb: Method, code: u16): LabelValues {
    [endpoint, verb.AsStr(), Decimal(code as nat)]
  }

  /** The series `on_liftoff` makes sure of for one route: its template, its method, status 200. */
  function LiftoffLabels(route: Route): LabelValues {
    SeriesLabels(route.uri, route.verb, 200)
  }

  /** Both metrics' `with_label_values(labels)`, with nothing incremented or observed. */
  function Touch(m: Metrics, labels: LabelValues): Metrics {
    Metrics(TouchCounter(m.requests, labels), TouchHistogram(m.durations, labels))
  }

  /** `on_liftoff`: the routes are visited in order. */
  function AfterLiftoff(m: Metrics, routes: seq<Route>): Metrics
    decreases |routes|
  {
    if routes == [] then m
    else Touch(AfterLiftoff(m, routes[..|routes| - 1]), LiftoffLabels(routes[|routes| - 1]))
  }

  /** The series that `on_liftoff` over `routes` makes sure of. */
  function LiftoffSeries(routes: seq<Route>): set<LabelValues> {
    set r | r in routes :: LiftoffLabels(r)
  }

  /**
   * After `on_liftoff` every route's `(uri, method, "200")` series exists in
   * both metrics, and no other series is added.
   */
  lemma {:induction false} LiftoffCreatesSeries(m: Metrics, routes: seq<Route>)
    ensures AfterLiftoff(m, routes).requests.Keys == m.requests.Keys + LiftoffSeries(routes)
    ensures AfterLiftoff(m, routes).durations.Keys == m.durations.Keys + LiftoffSeries(routes)
    decreases |routes|
  {
    if routes != [] {
      var init := routes[..|routes| - 1];
      var last := routes[|routes| - 1];
      LiftoffCreatesSeries(m, init);
      LiftoffSeriesSnoc(init, last);
      assert routes == init + [last];
    }
  }

  /**
   * `on_liftoff` increments and observes nothing: series that existed keep
   * their values, the new ones start at 0 and with no observation.
   */
  lemma {:induction false} LiftoffKeepsValues(m: Metrics, routes: seq<Route>)
    ensures forall k :: k in AfterLiftoff(m, routes).requests ==>
      AfterLiftoff(m, routes).requests[k] == CounterValue(m.requests, k)
    ensures forall k :: k in AfterLiftoff(m, routes).durations ==>
      AfterLiftoff(m, routes).durations[k] == Observations(m.durations, k)
    decreases |routes|
  {
    if routes != [] {
      var init := routes[..|routes| - 1];
      LiftoffKeepsValues(m, init);
      LiftoffCreatesSeries(m, init);
      var before := AfterLiftoff(m, init);
      var after := AfterLiftoff(m, routes);
      assert after == Touch(before, LiftoffLabels(routes[|routes| - 1]));
      forall k | k in after.requests
        ensures after.requests[k] == CounterValue(m.requests, k)
      {
        assert after.requests[k] == CounterValue(before.requests, k);
      }
      forall k | k in after.durations
        ensures after.durations[k] == Observations(m.durations, k)
      {
        assert after.durations[k] == Observations(before.durations, k);
      }
    }
  }

  lemma LiftoffSeriesSnoc(routes: seq<Route>, last: Route)
    ensures LiftoffSeries(routes + [last]) == LiftoffSeries(routes) + {LiftoffLabels(last)}
  {
  }

  /** What the post-response hook sees of one request. */
  datatype Served = Served(
    path: string,                 // the concrete request path, e.g. `/hello/alice`
    route: Option<Route>,         // the route the router matched, if any
    verb: Method,                 // the request's method
    status: u16,                  // the response's status code
    elapsed: Option<Observation>) // time since the request-local timer start, if that is present

  /** The series a routed request is recorded under: the route's template, never the concrete path. */
  function ResponseLabels(e: Served): LabelValues
    requires e.route.Some?
  {
    SeriesLabels(e.route.value.uri, e.verb, e.status)
  }

  /** `on_response`. */
  function AfterResponse(m: Metrics, e: Served): (r: Metrics)
    // a request that matched no route changes nothing
    ensures e.route.None? ==> r == m
    // a routed request adds 1 to its template series and to no other
    ensures e.route.Some? ==>
      && r.requests.Keys == m.requests.Keys + {ResponseLabels(e)}
      && CounterValue(r.requests, ResponseLabels(e)) == CounterValue(m.requests, ResponseLabels(e)) + 1
      && forall k :: k != ResponseLabels(e) ==> CounterValue(r.requests, k) == CounterValue(m.requests, k)
    // its histogram series gains one observation exactly when the timer start was there
    ensures e.route.Some? && e.elapsed.Some? ==>
      && r.durations.Keys == m.durations.Keys + {ResponseLabels(e)}
      && Observations(r.durations, ResponseLabels(e)) == Observations(m.durations, ResponseLabels(e)) + [e.elapsed.value]
      && forall k :: k != ResponseLabels(e) ==> Observations(r.durations, k) == Observations(m.durations, k)
    ensures e.elapsed.None? ==> r.durations == m.durations
  {
    if e.route.None? then m
    else
      var labels := ResponseLabels(e);
      Metrics(
        Inc(m.requests, labels),
        if e.elapsed.Some? then Observe(m.durations, labels, e.elapsed.value) else m.durations)
  }

  /** The concrete path never reaches the metrics: requests that differ only in it have the same effect. */
  lemma ResponseIgnoresPath(m: Metrics, e: Served, otherPath: string)
    ensures AfterResponse(m, e) == AfterResponse(m, e.(path := otherPath))
  {
  }

  /** `on_response` for each of `events`, in order. */
  function Replay(m: Metrics, events: seq<Served>): Metrics
    decreases |events|
  {
    if events == [] then m
    else AfterResponse(Replay(m, events[..|events| - 1]), events[|events| - 1])
  }

  /** The series of the routed requests among `events`. */
  function RoutedSeries(events: seq<Served>): set<LabelValues> {
    set e | e in events && e.route.Some? :: ResponseLabels(e)
  }

  /** How many of `events` are routed requests recorded under `labels`. */
  function Hits(events: seq<Served>, labels: LabelValues): nat
    decreases |events|
  {
    if events == [] then 0
    else
      var e := events[|events| - 1];
      Hits(events[..|events| - 1], labels) + (if e.route.Some? && ResponseLabels(e) == labels then 1 else 0)
  }

  /** The timings, in order, of the routed requests among `events` recorded under `labels`. */
  function Timings(events: seq<Served>, labels: LabelValues): seq<Observation>
    decreases |events|
  {
    if events == [] then []
    else
      var e := events[|events| - 1];
      Timings(events[..|events| - 1], labels)
        + (if e.route.Some? && e.elapsed.Some? && ResponseLabels(e) == labels then [e.elapsed.value] else [])
  }

  /**
   * Cardinality control: the request counter's series after any traffic are
   * the ones before it plus one per distinct (template, method, status) that
   * was served; the histogram's series are among those.
   */
  lemma {:induction false} ReplaySeries(m: Metrics, events: seq<Served>)
    ensures Replay(m, events).requests.Keys == m.requests.Keys + RoutedSeries(events)
    ensures Replay(m, events).durations.Keys <= m.durations.Keys + RoutedSeries(events)
    decreases |events|
  {
    if events != [] {
      var init := events[..|events| - 1];
      var last := events[|events| - 1];
      ReplaySeries(m, init);
      assert events == init + [last];
      if last.route.Some? {
        assert RoutedSeries(events) == RoutedSeries(init) + {ResponseLabels(last)};
      } else {
        assert RoutedSeries(events) == RoutedSeries(init);
      }
    }
  }

  /** N routed requests recorded under one series add exactly N to its counter. */
  lemma {:induction false} ReplayCounts(m: Metrics, events: seq<Served>, labels: LabelValues)
    ensures CounterValue(Replay(m, events).requests, labels) == CounterValue(m.requests, labels) + Hits(events, labels)
    decreases |events|
  {
    if events != [] {
      ReplayCounts(m, events[..|events| - 1], labels);
    }
  }

  /** A series' histogram gains the timings of its timed requests, in order, and nothing else. */
  lemma {:induction false} ReplayTimings(m: Metrics, events: seq<Served>, labels: LabelValues)
    ensures Observations(Replay(m, events).durations, labels) == Observations(m.durations, labels) + Timings(events, labels)
    decreases |events|
  {
    if events != [] {
      ReplayTimings(m, events[..|events| - 1], labels);
    }
  }

  lemma ReplaySnoc(m: Metrics, events: seq<Served>, e: Served)
    ensures Replay(m, events + [e]) == AfterResponse(Replay(m, events), e)
  {
  }

  /** A timed routed request on a state holding only its own series, or nothing. */
  lemma OneSeriesStep(m: Metrics, e: Served, n: nat, obs: seq<Observation>)
    requires e.route.Some? && e.elapsed.Some?
    requires m == NoSeries || m == Metrics(map[ResponseLabels(e) := n], map[ResponseLabels(e) := obs])
    ensures m == NoSeries ==> AfterResponse(m, e) == Metrics(map[ResponseLabels(e) := 1], map[ResponseLabels(e) := [e.elapsed.value]])
    ensures m != NoSeries ==> AfterResponse(m, e) == Metrics(map[ResponseLabels(e) := n + 1], map[ResponseLabels(e) := obs + [e.elapsed.value]])
  {
    var labels := ResponseLabels(e);
    if m == NoSeries {
      assert CounterValue(m.requests, labels) == 0 && Observations(m.durations, labels) == [];
      assert [] + [e.elapsed.value] == [e.elapsed.value];
    } else {
      assert CounterValue(m.requests, labels) == n && Observations(m.durations, labels) == obs;
    }
  }

  /** A request for `path` that the router matched to `route`, answered 200 after `t`. */
  function Ok200(path: string, route: Route, t: Observation): Served {
    Served(path, Some(route), route.verb, 200, Some(t))
  }

  const HelloGet := Route(Get, "/hello/<name>")
  const HelloPost := Route(Post, "/hello/<name>")

  lemma HelloLabels()
    ensures LiftoffLabels(HelloGet) == ["/hello/<name>", "GET", "200"]
    ensures LiftoffLabels(HelloPost) == ["/hello/<name>", "POST", "200"]
    ensures LiftoffLabels(HelloGet) != LiftoffLabels(HelloPost)
  {
    ThreeDigits(200);
    assert LiftoffLabels(HelloGet)[1] != LiftoffLabels(HelloPost)[1];
  }

  /** The three GETs of the integration test all land on the one template series. */
  lemma {:induction false} HelloGets(t1: Observation, t2: Observation, t3: Observation)
    ensures Replay(NoSeries, [Ok200("/hello/foo", HelloGet, t1), Ok200("/hello/foo", HelloGet, t2), Ok200("/hello/bar", HelloGet, t3)])
      == Metrics(map[LiftoffLabels(HelloGet) := 3], map[LiftoffLabels(HelloGet) := [t1, t2, t3]])
  {
    var g := LiftoffLabels(HelloGet);
    var e1, e2, e3 := Ok200("/hello/foo", HelloGet, t1), Ok200("/hello/foo", HelloGet, t2), Ok200("/hello/bar", HelloGet, t3);
    assert ResponseLabels(e1) == g && ResponseLabels(e2) == g && ResponseLabels(e3) == g;
    ReplaySnoc(NoSeries, [], e1);
    assert [] + [e1] == [e1];
    OneSeriesStep(NoSeries, e1, 0, []);
    ReplaySnoc(NoSeries, [e1], e2);
    assert [e1] + [e2] == [e1, e2];
    OneSeriesStep(Replay(NoSeries, [e1]), e2, 1, [t1]);
    assert [t1] + [t2] == [t1, t2];
    ReplaySnoc(NoSeries, [e1, e2], e3);
    assert [e1, e2] + [e3] == [e1, e2, e3];
    OneSeriesStep(Replay(NoSeries, [e1, e2]), e3, 2, [t1, t2]);
    assert [t1, t2] + [t3] == [t1, t2, t3];
  }

  /**
   * The traffic of the crate's integration test: two GETs of `/hello/foo`,
   * one GET and one POST of `/hello/bar`, all answered 200 and all timed.
   * The three GETs share the template series with count 3; the POST has its
   * own series with count 1; no other series exists.
   */
  lemma {:induction false} HelloTraffic(t1: Observation, t2: Observation, t3: Observation, t4: Observation)
    ensures
      var m := Replay(NoSeries, [
        Ok200("/hello/foo", HelloGet, t1), Ok200("/hello/foo", HelloGet, t2),
        Ok200("/hello/bar", HelloGet, t3), Ok200("/hello/bar", HelloPost, t4)]);
      && m.requests == map[["/hello/<name>", "GET", "200"] := 3, ["/hello/<name>", "POST", "200"] := 1]
      && m.durations == map[["/hello/<name>", "GET", "200"] := [t1, t2, t3], ["/hello/<name>", "POST", "200"] := [t4]]
  {
    HelloLabels();
    HelloGets(t1, t2, t3);
    var gets := [Ok200("/hello/foo", HelloGet, t1), Ok200("/hello/foo", HelloGet, t2), Ok200("/hello/bar", HelloGet, t3)];
    var post := Ok200("/hello/bar", HelloPost, t4);
    ReplaySnoc(NoSeries, gets, post);
    assert gets + [post] == [gets[0], gets[1], gets[2], post];
    assert ResponseLabels(post) == LiftoffLabels(HelloPost);
    var before := Replay(NoSeries, gets);
    assert Observations(before.durations, LiftoffLabels(HelloPost)) == [];
    assert [] + [t4] == [t4];
  }
}
