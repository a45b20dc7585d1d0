/** The older request middleware: on the Google host it sends every page
    request to the Google landing page, dropping the path and query. */
module Middleware {
  import opened Wrappers
  import opened JsString
  import Proxy

  const GoogleLanding: string := "/google"

  /** `middleware`: the rewrite target, or nothing when the request goes on
      unchanged. */
  function Middleware(hostname: string, pathname: string): (r: Option<string>)
    ensures r.Some? <==> hostname == Proxy.GoogleHost && !StartsWith(pathname, "/_next") && !StartsWith(pathname, "/api")
    ensures r.Some? ==> r.value == GoogleLanding
  {
    var isRoute := !StartsWith(pathname, "/_next") && !StartsWith(pathname, "/api");
    var isGooglePhotos := isRoute && hostname == Proxy.GoogleHost;
    if isGooglePhotos then Some(GoogleLanding) else None
  }

  /** The Apple host is never rewritten. */
  lemma AppleHostUntouched(pathname: string)
    ensures Middleware(Proxy.AppleHost, pathname).None?
  {
    assert Proxy.GoogleHost != Proxy.AppleHost by { assert Proxy.GoogleHost[6] != Proxy.AppleHost[6]; }
  }

  /** Every request the proxy rewrites under `/google` the middleware
      rewrites as well, but to the landing page alone; the middleware also
      rewrites the markup routes that the proxy lets through. */
  lemma MiddlewareCoversProxy(pathname: string, search: string)
    ensures Proxy.Proxy(Proxy.GoogleHost, pathname, search).Rewrite? ==>
      Middleware(Proxy.GoogleHost, pathname) == Some(GoogleLanding)
    ensures Proxy.Proxy(Proxy.GoogleHost, "/markup", search).Next?
    ensures Middleware(Proxy.GoogleHost, "/markup") == Some(GoogleLanding)
  {
    assert StartsWith("/markup", "/markup");
    assert !StartsWith("/markup", "/_next") by { assert "/markup"[1] != "/_next"[1]; }
    assert !StartsWith("/markup", "/api") by { assert "/markup"[1] != "/api"[1]; }
  }
}
