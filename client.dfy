/// The client profile: the settings every request made from a client starts
/// from, the fluent setters that change them in place, and the two getters
/// that normalise the stored host and URL prefix.
module Client {
  import opened Net
  import opened Values
  import opened GoStrings
  import opened Config

  /** The stored fields of a client, as one value. */
  datatype ClientProfile = ClientProfile(
    transport: Option<RoundTripper>,
    host: string,
    urlPrefix: string,
    maxRedirects: int,
    timeout: Duration,
    userAgent: string,
    defaultHeaders: Values,
    defaultQueries: Values)

  /** The profile a fresh client holds for a given configuration. */
  function FromConfig(config: ClientConfig): ClientProfile
  {
    ClientProfile(config.transport, config.host, config.urlPrefix, config.maxRedirects,
                  config.timeout, config.userAgent, map[], map[])
  }

  /** The host as requests see it: parsed and re-emitted as `scheme://host`,
      or empty when it does not parse. */
  function NormalizeHost(raw: string, parse: Parser): string
  {
    match parse(raw)
    case Err(_) => ""
    case Ok(u) => u.scheme + "://" + u.host
  }

  /** The prefix as requests see it: empty, or one slash followed by the
      stored prefix with every leading and trailing slash removed. */
  function NormalizePrefix(prefix: string): (r: string)
    ensures r == "" <==> prefix == ""
    ensures r != "" ==> r[0] == '/' && CutFromEnds(prefix, r[1..], IsSlash)
    ensures |r| > 1 ==> r[1] != '/' && r[|r| - 1] != '/'
  {
    if prefix == "" then "" else "/" + TrimFunc(prefix, IsSlash)
  }

  /** Normalising a normalised prefix changes nothing. */
  lemma {:induction false} NormalizePrefixIdempotent(prefix: string)
    ensures NormalizePrefix(NormalizePrefix(prefix)) == NormalizePrefix(prefix)
  {
    if prefix != "" {
      var t := TrimFunc(prefix, IsSlash);
      var n := "/" + t;
      assert n[1..] == t;
      assert TrimLeftFunc(n, IsSlash) == TrimLeftFunc(t, IsSlash);
      TrimFuncKeepsTrimmed(t, IsSlash);
      assert TrimLeftFunc(t, IsSlash) == t;
    }
  }

  /** A prefix made only of slashes normalises to a single slash. */
  lemma {:induction false} SlashOnlyPrefix(prefix: string)
    requires prefix != "" && AllIn(prefix, IsSlash)
    ensures NormalizePrefix(prefix) == "/"
  {
    TrimFuncAllCut(prefix, IsSlash);
  }

  /** Only scheme and authority survive host normalisation: two stored hosts
      that parse to the same scheme and host normalise alike, whatever their
      paths and queries. */
  lemma NormalizeHostDropsPathAndQuery(raw1: string, raw2: string, parse: Parser)
    requires parse(raw1).Ok? && parse(raw2).Ok?
    requires parse(raw1).value.scheme == parse(raw2).value.scheme
    requires parse(raw1).value.host == parse(raw2).value.host
    ensures NormalizeHost(raw1, parse) == NormalizeHost(raw2, parse) != ""
  {
  }

  /** A host that does not parse is lost silently: it normalises to "". */
  lemma NormalizeHostOnParseError(raw: string, parse: Parser)
    ensures parse(raw).Err? <==> NormalizeHost(raw, parse) == ""
  {
    if parse(raw).Ok? {
      assert |NormalizeHost(raw, parse)| >= 3;
    }
  }

  /** A host that parses without scheme or authority (an empty string, or a
      bare name such as `api.example.com`, which parses as a path) does not
      normalise to "" but to the bare separator "://". */
  lemma SchemelessHostIsSeparator(raw: string, parse: Parser)
    requires parse(raw).Ok? && parse(raw).value.scheme == "" && parse(raw).value.host == ""
    ensures NormalizeHost(raw, parse) == "://"
  {
  }

  /** Normalisation is not idempotent for a schemeless host: its result
      "://" has no scheme either, and when that does not parse (Go's
      `url.Parse` reports a missing protocol scheme) normalising again
      gives "". */
  lemma SchemelessHostNotIdempotent(raw: string, parse: Parser)
    requires parse(raw).Ok? && parse(raw).value.scheme == "" && parse(raw).value.host == ""
    requires parse("://").Err?
    ensures NormalizeHost(raw, parse) == "://"
    ensures NormalizeHost(NormalizeHost(raw, parse), parse) == ""
  {
    SchemelessHostIsSeparator(raw, parse);
  }

  /** Normalising an already normalised host gives it back, provided the
      parser reads `scheme://host` as that scheme and host. */
  lemma NormalizeHostIdempotent(raw: string, parse: Parser)
    requires parse(raw).Ok?
    requires var u := parse(raw).value;
      parse(u.scheme + "://" + u.host).Ok? &&
      parse(u.scheme + "://" + u.host).value.scheme == u.scheme &&
      parse(u.scheme + "://" + u.host).value.host == u.host
    ensures NormalizeHost(NormalizeHost(raw, parse), parse) == NormalizeHost(raw, parse)
  {
  }

  class HttpClient {
    var transport: Option<RoundTripper>
    var host: string
    var urlPrefix: string
    var maxRedirects: int
    var timeout: Duration
    var userAgent: string
    var defaultHeaders: Values
    var defaultQueries: Values

    function Profile(): ClientProfile
      reads this
    {
      ClientProfile(transport, host, urlPrefix, maxRedirects, timeout, userAgent,
                    defaultHeaders, defaultQueries)
    }

    /** The struct literal of `NewHttpClient`: every configured field copied,
        empty default header and query maps. */
    constructor (config: ClientConfig)
      ensures Profile() == FromConfig(config)
    {
      transport := config.transport;
      host := config.host;
      urlPrefix := config.urlPrefix;
      maxRedirects := config.maxRedirects;
      timeout := config.timeout;
      userAgent := config.userAgent;
      defaultHeaders := map[];
      defaultQueries := map[];
    }

    method Transport(t: Option<RoundTripper>)
      modifies this
      ensures Profile() == old(Profile()).(transport := t)
      ensures GetTransport() == t
    {
      transport := t;
    }

    function GetTransport(): Option<RoundTripper>
      reads this
    {
      transport
    }

    /** Stores the host with surrounding white space (`strings.TrimSpace`) removed. */
    method Host(h: string)
      modifies this
      ensures host == TrimFunc(h, IsSpace)
      ensures unchanged(this`transport, this`urlPrefix, this`maxRedirects, this`timeout,
                        this`userAgent, this`defaultHeaders, this`defaultQueries)
    {
      host := TrimFunc(h, IsSpace);
    }

    /** The stored host as requests see it: "" exactly when it does not parse. */
    function GetHost(parse: Parser): (r: string)
      reads this
      ensures r == "" <==> parse(host).Err?
    {
      NormalizeHostOnParseError(host, parse);
      NormalizeHost(host, parse)
    }

    /** Stores the prefix with surrounding white space (`strings.TrimSpace`) removed. */
    method UrlPrefix(prefix: string)
      modifies this
      ensures urlPrefix == TrimFunc(prefix, IsSpace)
      ensures unchanged(this`transport, this`host, this`maxRedirects, this`timeout,
                        this`userAgent, this`defaultHeaders, this`defaultQueries)
    {
      urlPrefix := TrimFunc(prefix, IsSpace);
    }

    /** The stored prefix as requests see it: "" for "", otherwise one
        slash followed by the prefix with every leading and trailing slash
        removed. */
    function GetUrlPrefix(): (r: string)
      reads this
      ensures r == "" <==> urlPrefix == ""
      ensures r != "" ==> r[0] == '/' && CutFromEnds(urlPrefix, r[1..], IsSlash)
      ensures |r| > 1 ==> r[1] != '/' && r[|r| - 1] != '/'
    {
      NormalizePrefix(urlPrefix)
    }

    method MaxRedirects(n: int)
      modifies this
      ensures Profile() == old(Profile()).(maxRedirects := n)
      ensures GetMaxRedirects() == n
    {
      maxRedirects := n;
    }

    function GetMaxRedirects(): int
      reads this
    {
      maxRedirects
    }

    method Timeout(t: Duration)
      modifies this
      ensures Profile() == old(Profile()).(timeout := t)
      ensures GetTimeout() == t
    {
      timeout := t;
    }

    function GetTimeout(): Duration
      reads this
    {
      timeout
    }

    method UserAgent(ua: string)
      modifies this
      ensures Profile() == old(Profile()).(userAgent := ua)
      ensures GetUserAgent() == ua
    {
      userAgent := ua;
    }

    function GetUserAgent(): string
      reads this
    {
      userAgent
    }

    /** Replaces the default headers wholesale. */
    method WithDefaultHeaders(headers: Values)
      modifies this
      ensures Profile() == old(Profile()).(defaultHeaders := headers)
      ensures DefaultHeaders() == headers
    {
      defaultHeaders := headers;
    }

    function DefaultHeaders(): Values
      reads this
    {
      defaultHeaders
    }

    /** Replaces the default queries wholesale. */
    method WithDefaultQueries(queries: Values)
      modifies this
      ensures Profile() == old(Profile()).(defaultQueries := queries)
      ensures DefaultQueries() == queries
    {
      defaultQueries := queries;
    }

    function DefaultQueries(): Values
      reads this
    {
      defaultQueries
    }
  }

  /** `NewHttpClient`: no configuration is an error and yields no client. */
  method NewHttpClient(config: Option<ClientConfig>) returns (client: HttpClient?, err: Option<Error>)
    ensures config.None? ==> client == null && err == Some(ConfigIsNil)
    ensures config.Some? ==> err == None && client != null && fresh(client)
                             && client.Profile() == FromConfig(config.value)
  {
    if config.None? {
      return null, Some(ConfigIsNil);
    }
    client := new HttpClient(config.value);
    err := None;
  }

  /** `HttpClientFor`: the default configuration, the given host, and the
      first prefix if any is given. */
  method HttpClientFor(host: string, prefixes: seq<string>) returns (client: HttpClient?, err: Option<Error>)
    ensures err == None && client != null && fresh(client)
    ensures client.Profile() == FromConfig(DefaultClientConfig).(
      host := TrimFunc(host, IsSpace),
      urlPrefix := if |prefixes| > 0 then TrimFunc(prefixes[0], IsSpace) else DefaultClientConfig.urlPrefix)
  {
    client, err := NewHttpClient(Some(DefaultClientConfig));
    if err.Some? {
      return null, err;
    }
    client.Host(host);
    if |prefixes| > 0 {
      client.UrlPrefix(prefixes[0]);
    }
  }
}
