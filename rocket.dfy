/**
 * The slice of Rocket the instrumentation observes: HTTP methods, routes
 * (a method and a URI template), and a request with its request-local cache.
 */
module Rocket {
  import opened Wrappers

  /** A monotonic clock reading, in abstract ticks (`std::time::Instant`). */
  type Instant = nat

  datatype Method = Get | Put | Post | Delete | Options | Head | Trace | Connect | Patch
  {
    /** `Method::as_str`: the upper-case method token. */
    function AsStr(): string {
      match this
      case Get => "GET"
      case Put => "PUT"
      case Post => "POST"
      case Delete => "DELETE"
      case Options => "OPTIONS"
      case Head => "HEAD"
      case Trace => "TRACE"
      case Connect => "CONNECT"
      case Patch => "PATCH"
    }
  }

  /** A mounted route: the method it answers and its URI template, e.g. `/hello/<name>`. */
  datatype Route = Route(verb: Method, uri: string)

  /**
   * An incoming request: the concrete path, the route the router matched
   * (if any), the request's own method (its verb), and the request-local cache slot
   * for values of type `T`.
   */
  class Request<T> {
    const path: string
    const route: Option<Route>
    const verb: Method
    var cache: Option<T>

    constructor (path: string, route: Option<Route>, verb: Method)
      ensures this.path == path && this.route == route && this.verb == verb
      ensures cache == None
    {
      this.path := path;
      this.route := route;
      this.verb := verb;
      cache := None;
    }

    /**
     * `Request::local_cache`: the slot is filled with `init` only when it is
     * empty; a value already there is kept and returned.
     */
    method LocalCache(init: T) returns (v: T)
      modifies this
      ensures old(cache).Some? ==> v == old(cache).value
      ensures old(cache).None? ==> v == init
      ensures cache == Some(v)
    {
      if cache.None? {
        cache := Some(init);
      }
      v := cache.value;
    }
  }
}
