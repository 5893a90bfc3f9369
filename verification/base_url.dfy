/**
 * `getBaseUrl`: the configured public domain if set, else the request's
 * forwarded protocol and `host` header, else the local development URL.
 */
module BaseUrl {
  import opened Wrappers
  import opened Values

  /** Request headers by lower-case name. */
  type Headers = map<string, string>

  const LocalUrl: string := "http://localhost:3000"

  /** `domain` is the configured public domain; `request` the incoming request's headers, if any. */
  function GetBaseUrl(domain: Option<string>, request: Option<Headers>): (url: string)
    ensures Truthy(domain) ==> url == domain.value
    ensures !Truthy(domain) && request.Some? && Truthy(Lookup(request.value, "host")) ==>
      url == OrElse(Lookup(request.value, "x-forwarded-proto"), "http") + "://" + request.value["host"]
    ensures !Truthy(domain) && (request.None? || !Truthy(Lookup(request.value, "host"))) ==>
      url == LocalUrl
  {
    if Truthy(domain) then domain.value
    else if request.Some? && Truthy(Lookup(request.value, "host")) then
      OrElse(Lookup(request.value, "x-forwarded-proto"), "http") + "://" + request.value["host"]
    else LocalUrl
  }

  /** A configured domain is returned whatever the request carries. */
  lemma DomainOutranksHeaders(domain: Option<string>, r1: Option<Headers>, r2: Option<Headers>)
    requires Truthy(domain)
    ensures GetBaseUrl(domain, r1) == GetBaseUrl(domain, r2) == domain.value
  {
  }

  /** Without a forwarded protocol the host is served over plain `http`. */
  lemma ProtocolDefaultsToHttp(headers: Headers)
    requires "host" in headers && headers["host"] != ""
    requires "x-forwarded-proto" !in headers || headers["x-forwarded-proto"] == ""
    ensures GetBaseUrl(None, Some(headers)) == "http://" + headers["host"]
  {
  }

  /** A forwarded protocol is kept verbatim in front of `://` and the host. */
  lemma ForwardedProtocolIsUsed(headers: Headers)
    requires "host" in headers && headers["host"] != ""
    requires "x-forwarded-proto" in headers && headers["x-forwarded-proto"] != ""
    ensures var url := GetBaseUrl(None, Some(headers));
      && url == headers["x-forwarded-proto"] + "://" + headers["host"]
      && url[..|headers["x-forwarded-proto"]|] == headers["x-forwarded-proto"]
  {
  }

  /** Of the request's headers only `host` and `x-forwarded-proto` are read. */
  lemma OnlyHostAndProtocolMatter(domain: Option<string>, h1: Headers, h2: Headers)
    requires Lookup(h1, "host") == Lookup(h2, "host")
    requires Lookup(h1, "x-forwarded-proto") == Lookup(h2, "x-forwarded-proto")
    ensures GetBaseUrl(domain, Some(h1)) == GetBaseUrl(domain, Some(h2))
  {
  }
}
