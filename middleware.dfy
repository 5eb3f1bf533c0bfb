/** The request middleware (src/middleware.js): requests arriving on a tenant
    subdomain are rewritten to the `/_sites/<tenant>` pages; the main hosts, the
    already-rewritten paths, the API and the static files pass through. */
module Middleware {
  import opened Text

  datatype Action =
    | Next                    // `NextResponse.next()`
    | Rewrite(path: string)   // `NextResponse.rewrite` to this pathname
    | HostHeaderMissing       // no `host` header: the source throws on `null.includes`

  const DefaultHost := "localhost:3000"

  const MainDomains: seq<string> := ["localhost:3000", "vitmail-c.com", "www.vitmail-c.com"]

  /** The application host: the host part of `APP_URL` when set, else the default. */
  function AppHost(appUrlHost: Option<string>): (h: string)
    ensures appUrlHost.None? ==> h == DefaultHost
    ensures appUrlHost.Some? ==> h == appUrlHost.value
  {
    appUrlHost.GetOr(DefaultHost)
  }

  /** Paths that are never rewritten. */
  predicate PassesThrough(pathname: string) {
    StartsWith(pathname, "/_sites") || StartsWith(pathname, "/api") ||
    StartsWith(pathname, "/_next") || StartsWith(pathname, "/favicon.ico")
  }

  /** A host that serves the main site. */
  predicate IsMainDomain(hostname: string) {
    hostname in MainDomains || Contains(hostname, "vercel.app")
  }

  /** The tenant part of the host: the first `.<app host>` removed. */
  function Tenant(host: string, hostname: string): string {
    ReplaceFirst(hostname, "." + host, "")
  }

  /** The middleware's decision for one request. */
  function Route(host: string, pathname: string, hostname: Option<string>): (a: Action)
    ensures PassesThrough(pathname) ==> a == Next
    ensures !PassesThrough(pathname) && hostname.None? ==> a == HostHeaderMissing
    ensures a.Rewrite? <==> !PassesThrough(pathname) && hostname.Some? &&
                            !IsMainDomain(hostname.value) && hostname.value != host
    ensures a.Rewrite? ==> a.path == "/_sites/" + Tenant(host, hostname.value) + pathname
  {
    if PassesThrough(pathname) then Next
    else if hostname.None? then HostHeaderMissing
    else if !IsMainDomain(hostname.value) && hostname.value != host then
      Rewrite("/_sites/" + Tenant(host, hostname.value) + pathname)
    else Next
  }

  /** A rewritten path lies under `/_sites/` and keeps the original path at its end. */
  lemma RewriteShape(host: string, pathname: string, hostname: string)
    requires Route(host, pathname, Some(hostname)).Rewrite?
    ensures StartsWith(Route(host, pathname, Some(hostname)).path, "/_sites/")
    ensures EndsWith(Route(host, pathname, Some(hostname)).path, pathname)
  {
    var t := Tenant(host, hostname);
    var p := "/_sites/" + t + pathname;
    assert p[..8] == "/_sites/";
    assert p[|p| - |pathname|..] == pathname;
  }

  /** Running the middleware again on the rewritten path leaves it alone. */
  lemma RewriteIsFinal(host: string, pathname: string, hostname: Option<string>)
    requires Route(host, pathname, hostname).Rewrite?
    ensures Route(host, Route(host, pathname, hostname).path, hostname) == Next
  {
    var p := Route(host, pathname, hostname).path;
    assert p[..7] == "/_sites";
  }

  /** The main hosts and the app host itself are served unchanged. */
  lemma MainHostsPassThrough(host: string, pathname: string, hostname: string)
    requires hostname in MainDomains || hostname == host || Contains(hostname, "vercel.app")
    ensures Route(host, pathname, Some(hostname)) == Next
  {
  }

  /** A host that does not contain `.<app host>` is used whole as the site name. */
  lemma ForeignHostKeptWhole(host: string, pathname: string, hostname: string)
    requires !Contains(hostname, "." + host)
    requires Route(host, pathname, Some(hostname)).Rewrite?
    ensures Route(host, pathname, Some(hostname)) == Rewrite("/_sites/" + hostname + pathname)
  {
  }

  /** A one-label tenant of the app host is rewritten to its own site. */
  lemma TenantRewrite(host: string, tenant: string, pathname: string)
    requires '.' !in tenant && tenant != []
    requires !PassesThrough(pathname)
    requires !IsMainDomain(tenant + "." + host)
    ensures Route(host, pathname, Some(tenant + "." + host)) == Rewrite("/_sites/" + tenant + pathname)
  {
    var hostname := tenant + "." + host;
    var p := "." + host;
    assert hostname == tenant + p;
    assert hostname != host by {
      assert |hostname| > |host|;
    }
    assert OccursAt(hostname, p, |tenant|) by {
      assert hostname[|tenant|..|tenant| + |p|] == p;
    }
    forall j | 0 <= j < |tenant| ensures !OccursAt(hostname, p, j) {
      assert hostname[j] == tenant[j];
      assert tenant[j] in tenant;
    }
    assert Contains(hostname, p);
    assert hostname[..|tenant|] == tenant;
    assert hostname[|tenant| + |p|..] == [];
    assert Tenant(host, hostname) == tenant;
  }
}
