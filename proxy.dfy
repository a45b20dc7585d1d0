/** The request proxy: every page request is rewritten under `/google` or
    `/apple` by the host it was made to, while framework assets, the API and
    the device markup routes pass through. */
module Proxy {
  import opened JsString

  const GoogleHost: string := "trmnl-google-photos.westling.dev"
  const AppleHost: string := "trmnl-apple-photos.westling.dev"

  /** The product a host that is neither of the two falls back to. */
  const DevDefault: string := "apple"

  datatype ProxyAction = Rewrite(target: string) | Next

  /** A page route: none of the excluded prefixes starts the path. */
  predicate IsRoute(pathname: string) {
    && !StartsWith(pathname, "/_next")
    && !StartsWith(pathname, "/api")
    && !StartsWith(pathname, "/markup")
    && !StartsWith(pathname, "/google/markup")
    && !StartsWith(pathname, "/apple/markup")
  }

  predicate IsAnyHost(hostname: string) {
    hostname == GoogleHost || hostname == AppleHost
  }

  predicate IsGooglePhotosRoute(hostname: string, pathname: string) {
    IsRoute(pathname) && (hostname == GoogleHost || (!IsAnyHost(hostname) && DevDefault == "google"))
  }

  predicate IsApplePhotosRoute(hostname: string, pathname: string) {
    IsRoute(pathname) && (hostname == AppleHost || (!IsAnyHost(hostname) && DevDefault == "apple"))
  }

  /** `proxy`: the Google rewrite is tried first, then the Apple one. A page
      route on the Google host goes under `/google`; on any other host,
      known or not, it goes under `/apple`; the path and query are kept. */
  function Proxy(hostname: string, pathname: string, search: string): (a: ProxyAction)
    ensures !IsRoute(pathname) ==> a == Next
    ensures IsRoute(pathname) && hostname == GoogleHost ==> a == Rewrite("/google" + pathname + search)
    ensures IsRoute(pathname) && hostname != GoogleHost ==> a == Rewrite("/apple" + pathname + search)
  {
    assert DevDefault != "google" by { assert DevDefault[0] != "google"[0]; }
    if IsGooglePhotosRoute(hostname, pathname) then Rewrite("/google" + pathname + search)
    else if IsApplePhotosRoute(hostname, pathname) then Rewrite("/apple" + pathname + search)
    else Next
  }

  /** No request is both a Google and an Apple page route, and every page
      route is one of the two. */
  lemma RewritesExclusive(hostname: string, pathname: string)
    ensures !(IsGooglePhotosRoute(hostname, pathname) && IsApplePhotosRoute(hostname, pathname))
    ensures IsRoute(pathname) <==> IsGooglePhotosRoute(hostname, pathname) || IsApplePhotosRoute(hostname, pathname)
  {
    assert DevDefault != "google" by { assert DevDefault[0] != "google"[0]; }
    assert GoogleHost != AppleHost by { assert GoogleHost[6] != AppleHost[6]; }
  }

  /** The test is a prefix test, so a path that merely begins like an
      excluded one passes through too, on every host. */
  lemma MarkupGetPassesThrough(hostname: string, search: string)
    ensures Proxy(hostname, "/markup-get", search) == Next
    ensures Proxy(hostname, "/api/google/get-app-state", search) == Next
  {
    assert StartsWith("/markup-get", "/markup");
    assert StartsWith("/api/google/get-app-state", "/api");
  }
}
