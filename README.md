# rocket_prometheus, modelled in Dafny

`rocket_prometheus` instruments a Rocket web application for Prometheus. A
`PrometheusMetrics` value is attached as a fairing and mounted as a handler:

- its hooks count every routed request and time it;
- its handler serves the accumulated metrics as Prometheus text.

The two built-in metrics are `<namespace>_http_requests_total` and
`<namespace>_http_requests_duration_seconds`. Both are labelled by
`endpoint`, `method` and `status`. The endpoint is the matched route's URI
template (`/hello/<name>`), never the concrete path, so the number of
series stays bounded. The built-in metrics live in a registry that each
instance creates for itself. The caller's registry holds only custom
metrics, so several instances can share one custom registry.

This project models the crate's one logic file, `src/lib.rs`:

- `status_codes.dfy` (module `StatusCodes`): the status formatter. It covers
  the packed `CODE_DIGITS` table, `status_as_str`, `StatusCode` and
  `From<u16>`. The main result is that the label text of every `u16` code is
  its decimal rendering, on the table path and on the `to_string` path alike.
- `prometheus.dfy` (module `Prometheus`): what the crate uses of the
  `prometheus` crate. Counter and histogram vectors are maps from label
  values to a count or to the list of observations. `Registry` is a class
  that refuses a duplicate name.
- `rocket.dfy` (module `Rocket`): what the crate uses of Rocket. It has
  methods, routes, and a `Request` class whose request-local cache fills an
  empty slot only.
- `instrumentation.dfy` (module `Instrumentation`): the effect of
  `on_liftoff` and `on_response` on the two metrics, as pure functions. It
  also holds lemmas over any sequence of served requests, and the traffic
  of the crate's integration test.
- `rocket_prometheus.dfy` (module `RocketPrometheus`): the class
  `PrometheusMetrics`, with the constructors, the accessor, the three hooks
  and the handler. Each hook method is proved to follow the functions of
  `Instrumentation`.
- `wrappers.dfy` (module `Wrappers`): `Option` and `RegisterResult`.

Calls into code that is not part of this model become parameters:

- Rocket's `Status::from_code` is a `StatusParser` argument. It may be any
  function that returns a `Status` holding the same code, and only for codes
  in [100, 999].
- The clock reading (`Instant::now`) is an `Instant` argument.
- The `ROCKET_PROMETHEUS_NAMESPACE` variable is an `Option<string>` argument.
- The text encoder is an `encode` function argument.

## Model

| member | source | states |
|---|---|---|
| `StatusCodes.Decimal` | src/lib.rs:399 | `to_string` of an unsigned code: at least one ASCII digit, no leading zero, a single character exactly for codes below 10 |
| `StatusCodes.DecimalRoundTrip` | src/lib.rs:399 | reading the rendered digits back gives the code, so the rendering loses nothing |
| `StatusCodes.DecimalInjective` | src/lib.rs:396-401 | two codes get the same status label if and only if they are the same code |
| `StatusCodes.ThreeDigits` | src/lib.rs:311-312 | a code in [100, 999] renders as exactly its hundreds, tens and units digits |
| `StatusCodes.PackedCodesLength` | src/lib.rs:311-313 | packing the codes `lo .. hi-1` (within 100..999) takes three characters per code |
| `StatusCodes.PackedCodesSlice` | src/lib.rs:314-359 | in the packed table, the three characters at `3 * (c - lo)` are the decimal of code `c` |
| `StatusCodes.PackedCodesAreDigits` | src/lib.rs:314-359 | the packed table holds only ASCII digits |
| `StatusCodes.CodeDigitsShape` | src/lib.rs:372-373 | `CODE_DIGITS` is 2700 characters long and all of them are ASCII digits |
| `StatusCodes.CodeDigitsEntry` | src/lib.rs:368-377 | for every code in [100, 999], the slice at `(code - 100) * 3` of length 3 is in bounds and is the code's decimal |
| `StatusCodes.StatusAsStr` | src/lib.rs:368-385 | `status_as_str` of a `Status` that `from_code` produced is the decimal rendering of its code |
| `StatusCodes.StatusCode.AsStr` | src/lib.rs:387-394 | `as_str`: the decimal of the status for `Standard`, the stored text for `NonStandard` |
| `StatusCodes.FromCode` | src/lib.rs:396-401 | `StatusCode::from(code)` takes the table path exactly when `from_code` accepts the code, and either way `as_str()` is the decimal rendering of the code |
| `StatusCodes.FormatterExamples` | src/lib.rs:396-401 | code 200 formats as `"200"`; code 1010 takes the `to_string` path and formats as `"1010"` |
| `Prometheus.TouchCounter` | src/lib.rs:418-419 | `with_label_values` on a counter vector adds the series if it is missing, at 0, and changes no existing value |
| `Prometheus.Inc` | src/lib.rs:439-441 | `with_label_values(..).inc()` adds 1 to that series and leaves every other series as it was |
| `Prometheus.TouchHistogram` | src/lib.rs:421-422 | `with_label_values` on a histogram vector adds the series if it is missing, with no observation, and changes no existing series |
| `Prometheus.Observe` | src/lib.rs:446-448 | `observe` appends one observation to that series and leaves every other series as it was |
| `Prometheus.Registry.constructor` | src/lib.rs:215 | `Registry::new` holds no metric |
| `Prometheus.Registry.Register` | src/lib.rs:235-240 | `register` fails on a name already present and then changes nothing; otherwise it adds the family under its name |
| `Rocket.Request.LocalCache` | src/lib.rs:427 | `local_cache` fills the slot only when it is empty and returns what the slot holds |
| `Instrumentation.LiftoffCreatesSeries` | src/lib.rs:412-424 | after `on_liftoff`, each route's `(uri, method, "200")` series exists in both metrics, and no other series is added |
| `Instrumentation.LiftoffKeepsValues` | src/lib.rs:412-424 | `on_liftoff` increments and observes nothing: old series keep their values, new ones are 0 or empty |
| `Instrumentation.AfterResponse` | src/lib.rs:430-450 | an unrouted request changes neither metric; a routed one adds 1 to the counter of its (template, method, status) series and to no other series; that series' histogram gains one observation exactly when the timer start is present |
| `Instrumentation.ResponseIgnoresPath` | src/lib.rs:436-441 | two requests that differ only in their concrete path have the same effect on the metrics |
| `Instrumentation.ReplaySeries` | src/lib.rs:430-441 | after any traffic, the counter's series are the earlier ones plus one per distinct (template, method, status) that was served; the histogram's series are among them |
| `Instrumentation.ReplayCounts` | src/lib.rs:439-441 | a series' counter grows by exactly the number of routed requests recorded under it |
| `Instrumentation.ReplayTimings` | src/lib.rs:443-449 | a series' histogram gains the timings of its timed requests, in order, and nothing else |
| `Instrumentation.HelloGets` | tests/integration.rs:56-58 | three GETs of `/hello/foo`, `/hello/foo` and `/hello/bar` make one series `/hello/<name>`, GET, 200 with count 3 |
| `Instrumentation.HelloTraffic` | tests/integration.rs:56-114 | with a fourth request, a POST of `/hello/bar`, there are exactly two series: GET with count 3 and POST with count 1, and their histograms hold 3 and 1 observations |
| `RocketPrometheus.BuiltinNamesDistinct` | src/lib.rs:210-212 | the two built-in metric names differ for every namespace |
| `RocketPrometheus.PrometheusMetrics.WithRegistry` | src/lib.rs:214-248 | `with_registry` registers both built-ins into a fresh private registry, where registration cannot fail; it keeps the caller's registry by reference and leaves it unchanged; both metrics start with no series |
| `RocketPrometheus.PrometheusMetrics.New` | src/lib.rs:205-207 | `new` uses a fresh, empty custom registry |
| `RocketPrometheus.PrometheusMetrics.WithDefaultRegistry` | src/lib.rs:254-256 | `with_default_registry` uses the given default registry as the custom registry and does not change it |
| `RocketPrometheus.PrometheusMetrics.CustomRegistry` | src/lib.rs:281-283 | `registry()` returns the caller's registry, which is not the registry holding the built-in metrics |
| `RocketPrometheus.PrometheusMetrics.OnLiftoff` | src/lib.rs:412-424 | the loop over the routes leaves both metrics as `AfterLiftoff` of the old values |
| `RocketPrometheus.PrometheusMetrics.OnRequest` | src/lib.rs:426-428 | `on_request` stores the arrival instant only when the slot is empty and leaves the metrics unchanged |
| `RocketPrometheus.PrometheusMetrics.OnResponse` | src/lib.rs:430-450 | `on_response` leaves the metrics as `AfterResponse` of the old values for the request's route, method, code and elapsed time; reading the timer fills an empty slot with `TimerStart(None)` |
| `RocketPrometheus.PrometheusMetrics.Handle` | src/lib.rs:455-474 | the scrape body is the encoding of the custom registry followed by the encoding of the two built-in families with their current values; the content type is `text/plain; version=0.0.4; charset=utf-8` |
| `RocketPrometheus.PrometheusMetrics.Routes` | src/lib.rs:477-481 | the handler is mounted as exactly one route: GET at `/` |
| `RocketPrometheus.ServeOnce` | src/lib.rs:426-450 | a request passing through `on_request` and then `on_response` is counted once and timed from its arrival; the custom registry is untouched |
| `RocketPrometheus.SharedRegistry` | src/lib.rs:487-491 | two instances built on one shared registry both construct, get distinct private registries, and leave the shared registry unchanged |

## Notes on the code's behaviour

- `on_request` fills the request-local slot only when it is empty
  (`local_cache`, src/lib.rs:427), so a second call keeps the first instant.
- On a routed request whose slot is empty, `on_response` stores
  `TimerStart(None)` in the slot, as a side effect of `local_cache`
  (src/lib.rs:443). The model keeps this side effect.
- The `method` label of `on_response` is the request's method
  (`req.method()`, src/lib.rs:437), not the route's; `on_liftoff` uses the
  route's method (src/lib.rs:415).
- tests/integration.rs is written against the older Rocket API
  (`rocket::ignite`), which has no liftoff hook. Its expected output
  therefore has no liftoff series. `HelloTraffic` starts from a state with no
  series, as that test does.

## Left out

- Floating-point durations (`Instant::elapsed`, `as_secs_f64`), histogram
  buckets and sums. An observation is an abstract natural number. `Elapsed`
  is zero when the clock reads earlier than the start, as `Instant::elapsed`
  saturates.
- The text exposition format. `TextEncoder::encode` is an `encode`
  argument, and `Registry::gather` returns the families map. The `prometheus`
  crate sorts families by name and skips empty ones; that is not modelled.
  `String::from_utf8(buffer).unwrap()` is not modelled either: text is a
  sequence of characters.
- Metric-name validation inside the `prometheus` crate. Valid metric names
  match `[a-zA-Z_:][a-zA-Z0-9_:]*`. A namespace that breaks this, for
  example by holding a `-` or by starting with a digit, makes
  `IntCounterVec::new(..).unwrap()` (src/lib.rs:221-223) panic;
  `HistogramVec::new(..).unwrap()` (src/lib.rs:229-233) would panic on the
  same namespace. The model accepts any namespace, because the validation
  rule lives in a crate that is not part of this model.
- Counter values and observation counts are unbounded natural numbers. The
  crate's `IntCounter` is an `i64` whose `inc` wraps after 2^63 increments,
  and a histogram's observation count is a `u64`.
- Reading `ROCKET_PROMETHEUS_NAMESPACE` (src/lib.rs:216). It is an
  `Option<string>` argument: `None` stands for unset or not Unicode.
- Rocket's `Status::from_code` is not part of this model. It is an argument
  constrained as described above.
- The release-build `get_unchecked` slice (src/lib.rs:380-384). It reads the
  same range as the checked slice, which is modelled.
- Concurrency and atomic updates. The hooks are modelled as sequential
  calls.
- `Fairing::info` (src/lib.rs:405-410), the fairing's name and kinds, has no
  behaviour to prove. `Default` (src/lib.rs:286-290) is `new`.
- Label-arity errors cannot arise. Every update passes exactly the three
  declared labels.
