/// The configuration record a client is built from, and the package's
/// default configuration.
module Config {
  import opened Net

  const HttpClientVersion: string := "0.9"

  /** The user agent a client built from the defaults sends. */
  const DefaultUserAgent: string := "anik;go-http-client/" + HttpClientVersion

  /** One second as a `time.Duration`. */
  const Second: Duration := 1_000_000_000

  /** `ClientConfig`; a missing transport is `None` (Go's nil). */
  datatype ClientConfig = ClientConfig(
    transport: Option<RoundTripper>,
    host: string,
    urlPrefix: string,
    maxRedirects: int,
    timeout: Duration,
    userAgent: string)

  const DefaultClientConfig: ClientConfig :=
    ClientConfig(None, "", "", 10, 60 * Second, DefaultUserAgent)

  /** The default profile: no transport, host or prefix, ten redirects, a
      sixty-second timeout and the library's own user agent. */
  lemma DefaultClientConfigValues()
    ensures DefaultClientConfig.transport == None
    ensures DefaultClientConfig.host == "" && DefaultClientConfig.urlPrefix == ""
    ensures DefaultClientConfig.maxRedirects == 10
    ensures DefaultClientConfig.timeout == 60_000_000_000
    ensures DefaultClientConfig.userAgent == "anik;go-http-client/0.9"
  {
  }
}
