/// What one `Submit` computes from a request's stored state and its client's
/// profile: the resolved target, the merged query and header maps (which are
/// the request's own maps afterwards), the URL, the effective timeout and
/// redirect budget, and the outcome once the network has answered.
module Submission {
  import opened Net
  import opened Values
  import opened GoStrings
  import opened Client
  import Response

  /** The stored fields of a request, as one value; `verb` is Go's `method`.
      An absent override (Go's nil pointer or nil context) is `None`. */
  datatype RequestState = RequestState(
    userAgent: Option<string>,
    ctx: Option<Context>,
    maxRedirects: Option<int>,
    timeout: Option<Duration>,
    headers: Values,
    queries: Values,
    skipDefaultQueries: bool,
    body: Bytes,
    skipDefaultHeaders: bool,
    verb: string,
    path: string)

  /** A fresh request: empty header and query maps, no overrides. */
  const Blank: RequestState :=
    RequestState(None, None, None, None, map[], map[], false, [], false, "", "")

  /** What `http.NewRequest` and the per-call `http.Client` are given. */
  datatype Call = Call(
    verb: string,
    url: string,
    body: Bytes,
    headers: Values,
    ctx: Option<Context>,
    transport: Option<RoundTripper>,
    timeout: Duration,
    redirectBudget: int)

  /** `client.Do`: the network's answer to one call. */
  type RoundTrip = Call -> Exchange

  /** Host, path and path-query that `Submit` resolves the stored path to. */
  datatype Target = Target(host: string, path: string, query: Values)

  /** An empty path keeps the profile host and adds no path. Otherwise one
      leading slash is removed and the rest parsed; a reference with a host
      replaces the host with `scheme://host`, and the path becomes a slash
      followed by the reference's path. */
  function ResolveTarget(path: string, host: string, parse: Parser): Result<Target>
  {
    if path == "" then Ok(Target(host, "", map[]))
    else
      match parse(TrimPrefix(path, "/"))
      case Err(e) => Err(e)
      case Ok(u) => Ok(Target(if u.host != "" then u.scheme + "://" + u.host else host, "/" + u.path, u.query))
  }

  /** The query map after `Submit`: the request's own values, then the
      path's, then the profile defaults unless they are skipped. */
  function MergeQueries(own: Values, fromPath: Values, defaults: Values, skipDefaults: bool): Values
  {
    var q := Merge(own, fromPath);
    if skipDefaults then q else Merge(q, defaults)
  }

  /** Per key, the merged queries are the three sources in order. */
  lemma MergeQueriesAt(own: Values, fromPath: Values, defaults: Values, skipDefaults: bool, k: string)
    ensures ValuesAt(MergeQueries(own, fromPath, defaults, skipDefaults), k)
      == ValuesAt(own, k) + ValuesAt(fromPath, k) + (if skipDefaults then [] else ValuesAt(defaults, k))
  {
  }

  /** `?` and the encoded queries, or nothing when there is no query key. */
  function QueryPart(queries: Values, encode: Encoder): string
  {
    if |queries| > 0 then "?" + encode(queries) else ""
  }

  function AssembleUrl(host: string, prefix: string, path: string, queries: Values, encode: Encoder): string
  {
    host + prefix + path + QueryPart(queries, encode)
  }

  /** The request's headers once the user agent is added: the request's own
      override if set (even to ""), else the profile's if non-empty. */
  function WithUserAgent(headers: Values, override: Option<string>, profileAgent: string): Values
  {
    match override
    case Some(ua) => Add(headers, "User-Agent", ua)
    case None => if profileAgent != "" then Add(headers, "User-Agent", profileAgent) else headers
  }

  /** The header map after `Submit`. */
  function MergeHeaders(st: RequestState, prof: ClientProfile): Values
  {
    var h := WithUserAgent(st.headers, st.userAgent, prof.userAgent);
    if st.skipDefaultHeaders then h else Merge(h, prof.defaultHeaders)
  }

  function EffectiveTimeout(st: RequestState, prof: ClientProfile): Duration
  {
    match st.timeout
    case Some(t) => t
    case None => prof.timeout
  }

  function EffectiveBudget(st: RequestState, prof: ClientProfile): int
  {
    match st.maxRedirects
    case Some(n) => n
    case None => prof.maxRedirects
  }

  /** `http.NewRequest` sends an empty method as GET. */
  function RequestMethod(m: string): string
  {
    if m == "" then "GET" else m
  }

  /** How many redirects a budget lets through: none when it is zero or
      negative, else exactly the budget. */
  function HopsAllowed(budget: int): nat
  {
    if budget <= 0 then 0 else budget
  }

  /** The call a ready request hands to the network for `url`. */
  function Outgoing(st: RequestState, prof: ClientProfile, url: string): Call
  {
    Call(RequestMethod(st.verb), url, st.body, Merge(map[], MergeHeaders(st, prof)), st.ctx,
         prof.transport, EffectiveTimeout(st, prof), EffectiveBudget(st, prof))
  }

  /** Merging queries into the request changes neither the headers nor
      the call it sends. */
  lemma QueriesStayOut(st: RequestState, q: Values, prof: ClientProfile, url: string)
    ensures MergeHeaders(st.(queries := q), prof) == MergeHeaders(st, prof)
    ensures Outgoing(st.(queries := q), prof, url) == Outgoing(st, prof, url)
  {
  }

  /** How far `Submit` gets before the network is involved. */
  datatype Prepared =
    | PathFailed(error: Error)                  // the stored path does not parse
    | RequestFailed(error: Error, queries: Values) // the assembled URL does not parse
    | Ready(queries: Values, headers: Values, call: Call)

  function Prepare(st: RequestState, prof: ClientProfile, parse: Parser, encode: Encoder): Prepared
  {
    Assemble(st, prof, ResolveTarget(st.path, NormalizeHost(prof.host, parse), parse), parse, encode)
  }

  /** Everything `Submit` does after resolving the path, up to the call. */
  function Assemble(st: RequestState, prof: ClientProfile, target: Result<Target>, parse: Parser, encode: Encoder): Prepared
  {
    match target
    case Err(e) => PathFailed(e)
    case Ok(t) =>
      var queries := MergeQueries(st.queries, t.query, prof.defaultQueries, st.skipDefaultQueries);
      var url := AssembleUrl(t.host, NormalizePrefix(prof.urlPrefix), t.path, queries, encode);
      if parse(url).Err? then RequestFailed(parse(url).error, queries)
      else
        Ready(queries, MergeHeaders(st, prof), Outgoing(st, prof, url))
  }

  /** The request's state after `Submit`: the merged maps are its own maps. */
  function NextState(st: RequestState, p: Prepared): RequestState
  {
    match p
    case PathFailed(_) => st
    case RequestFailed(_, q) => st.(queries := q)
    case Ready(q, h, _) => st.(queries := q, headers := h)
  }

  /** The whole effect of one `Submit`: the request moves from `before` to
      `after`, and `result` is the error or the envelope it returns. */
  ghost predicate SubmitOutcome(before: RequestState, prof: ClientProfile, parse: Parser, encode: Encoder,
                                roundTrip: RoundTrip, after: RequestState, result: Result<Response.HttpResponse>)
  {
    var p := Prepare(before, prof, parse, encode);
    && after == NextState(before, p)
    && match p
       case PathFailed(e) => result == Err(e)
       case RequestFailed(e, _) => result == Err(e)
       case Ready(_, _, call) => Delivered(call, roundTrip, result)
  }

  /** A path with or without its one leading slash resolves alike: the slash
      is optional, and only one is removed. */
  lemma LeadingSlashOptional(p: string, host: string, parse: Parser)
    requires p != "" && p[0] != '/'
    ensures ResolveTarget("/" + p, host, parse) == ResolveTarget(p, host, parse)
  {
    TrimPrefixRemovesOnce(p, "/");
    assert p[..1][0] != '/';
    TrimPrefixAbsent(p, "/");
  }

  /** The profile host is kept unless the path's reference names a host,
      which then replaces it as `scheme://host`, whatever the profile host. */
  lemma ResolvedHost(path: string, host: string, otherHost: string, parse: Parser)
    requires ResolveTarget(path, host, parse).Ok?
    ensures path == "" || parse(TrimPrefix(path, "/")).value.host == "" ==>
      ResolveTarget(path, host, parse).value.host == host
    ensures path != "" && parse(TrimPrefix(path, "/")).value.host != "" ==>
      && ResolveTarget(path, host, parse) == ResolveTarget(path, otherHost, parse)
      && var u := parse(TrimPrefix(path, "/")).value;
         ResolveTarget(path, host, parse).value.host == u.scheme + "://" + u.host
  {
  }

  /** An empty path resolves to no path and no queries; otherwise the path is
      a slash followed by the reference's path (so an absolute reference
      `https://h/x`, whose path is `/x`, gives `//x`) and the queries are the
      reference's. */
  lemma ResolvedPath(path: string, host: string, parse: Parser)
    requires ResolveTarget(path, host, parse).Ok?
    ensures var t := ResolveTarget(path, host, parse).value;
      if path == "" then t.path == "" && t.query == map[]
      else
        var u := parse(TrimPrefix(path, "/")).value;
        && |t.path| == |u.path| + 1 && t.path[0] == '/' && t.path[1..] == u.path
        && t.query == u.query
  {
    if path != "" {
      var u := parse(TrimPrefix(path, "/")).value;
      assert ("/" + u.path)[1..] == u.path;
    }
  }

  /** The URL is the resolved host, the normalised profile prefix (kept even
      for an absolute reference), the resolved path and the query part. */
  lemma UrlLayout(st: RequestState, prof: ClientProfile, parse: Parser, encode: Encoder)
    requires Prepare(st, prof, parse, encode).Ready?
    ensures ResolveTarget(st.path, NormalizeHost(prof.host, parse), parse).Ok?
    ensures var t := ResolveTarget(st.path, NormalizeHost(prof.host, parse), parse).value;
      var p := Prepare(st, prof, parse, encode);
      p.call.url == t.host + NormalizePrefix(prof.urlPrefix) + t.path + QueryPart(p.queries, encode)
  {
  }

  /** When the path's reference names a host, the profile host plays no
      part in anything `Submit` prepares. */
  lemma AbsoluteReferenceIgnoresProfileHost(st: RequestState, prof: ClientProfile, otherHost: string,
                                            parse: Parser, encode: Encoder)
    requires st.path != "" && parse(TrimPrefix(st.path, "/")).Ok?
    requires parse(TrimPrefix(st.path, "/")).value.host != ""
    ensures Prepare(st, prof, parse, encode) == Prepare(st, prof.(host := otherHost), parse, encode)
  {
    var other := prof.(host := otherHost);
    var target := ResolveTarget(st.path, NormalizeHost(prof.host, parse), parse);
    assert ResolveTarget(st.path, NormalizeHost(otherHost, parse), parse) == target;
    assert Assemble(st, prof, target, parse, encode) == Assemble(st, other, target, parse, encode);
  }

  /** The query string is present exactly when some query key is. */
  lemma QueryPartEmptyIff(queries: Values, encode: Encoder)
    ensures QueryPart(queries, encode) == "" <==> |queries| == 0
    ensures QueryPart(queries, encode) != "" ==> QueryPart(queries, encode)[0] == '?'
  {
    if |queries| > 0 {
      assert |QueryPart(queries, encode)| >= 1;
    }
  }

  /** Under each key the merged queries are the request's own values, then
      the path's, then the profile defaults unless skipped; nothing is
      removed or reordered. */
  lemma QueryMergeOrder(st: RequestState, prof: ClientProfile, parse: Parser, encode: Encoder, k: string)
    requires !Prepare(st, prof, parse, encode).PathFailed?
    ensures var fromPath := if st.path == "" then map[] else parse(TrimPrefix(st.path, "/")).value.query;
      ValuesAt(Prepare(st, prof, parse, encode).queries, k) ==
        ValuesAt(st.queries, k) + ValuesAt(fromPath, k)
        + (if st.skipDefaultQueries then [] else ValuesAt(prof.defaultQueries, k))
  {
  }

  /** User-agent precedence: a request override (even "") is appended;
      otherwise a non-empty profile agent is; otherwise nothing is. No other
      header changes. */
  lemma UserAgentPrecedence(headers: Values, override: Option<string>, profileAgent: string)
    ensures override.Some? ==>
      ValuesAt(WithUserAgent(headers, override, profileAgent), "User-Agent")
        == ValuesAt(headers, "User-Agent") + [override.value]
    ensures override.None? && profileAgent != "" ==>
      ValuesAt(WithUserAgent(headers, override, profileAgent), "User-Agent")
        == ValuesAt(headers, "User-Agent") + [profileAgent]
    ensures override.None? && profileAgent == "" ==> WithUserAgent(headers, override, profileAgent) == headers
    ensures forall k | k != "User-Agent" ::
      ValuesAt(WithUserAgent(headers, override, profileAgent), k) == ValuesAt(headers, k)
  {
  }

  /** Every header value that ends up in the request's map is sent, under
      its key: the request's own, then the user agent, then the profile
      defaults unless skipped. */
  lemma OutgoingCarriesMergedHeaders(st: RequestState, prof: ClientProfile, parse: Parser, encode: Encoder, k: string)
    requires Prepare(st, prof, parse, encode).Ready?
    ensures var p := Prepare(st, prof, parse, encode);
      && ValuesAt(p.call.headers, k) == ValuesAt(p.headers, k)
      && ValuesAt(p.headers, k) ==
           ValuesAt(WithUserAgent(st.headers, st.userAgent, prof.userAgent), k)
           + (if st.skipDefaultHeaders then [] else ValuesAt(prof.defaultHeaders, k))
  {
    ResolvedUnlessPathFailed(st, prof, parse, encode);
    PrepareResolved(st, prof, parse, encode);
    CopiedHeadersAt(Prepare(st, prof, parse, encode), MergeHeaders(st, prof), k);
  }

  /** A copy of the merged header map holds the same values. */
  lemma CopiedHeadersAt(p: Prepared, h: Values, k: string)
    requires p.Ready? && p.headers == h && p.call.headers == Merge(map[], h)
    ensures ValuesAt(p.call.headers, k) == ValuesAt(p.headers, k)
  {
    var copy := Merge(map[], h);
    assert ValuesAt(copy, k) == ValuesAt(map[], k) + ValuesAt(h, k);
    assert ValuesAt(map[], k) == [];
  }

  /** Only a path that does not resolve makes `Prepare` fail at the path. */
  lemma ResolvedUnlessPathFailed(st: RequestState, prof: ClientProfile, parse: Parser, encode: Encoder)
    requires !Prepare(st, prof, parse, encode).PathFailed?
    ensures ResolveTarget(st.path, NormalizeHost(prof.host, parse), parse).Ok?
  {
  }

  /** The call carries the request's timeout and redirect budget when they
      are set, and the profile's otherwise; `NoTimeout` therefore falls back
      to the profile timeout rather than to no timeout. */
  lemma EffectiveSettings(st: RequestState, prof: ClientProfile, parse: Parser, encode: Encoder)
    requires Prepare(st, prof, parse, encode).Ready?
    ensures var call := Prepare(st, prof, parse, encode).call;
      && call.timeout == (if st.timeout.Some? then st.timeout.value else prof.timeout)
      && call.redirectBudget == (if st.maxRedirects.Some? then st.maxRedirects.value else prof.maxRedirects)
      && call.transport == prof.transport
      && call.body == st.body
      && call.ctx == st.ctx
  {
  }

  /** Because the merged maps are the request's own, submitting twice with
      an empty path leaves every default query value twice in the request's
      queries, unless the defaults are skipped. */
  lemma {:induction false} SecondSubmitDuplicates(st: RequestState, prof: ClientProfile, parse: Parser,
                                                  encode: Encoder, k: string)
    requires st.path == "" && !st.skipDefaultQueries
    ensures var once := NextState(st, Prepare(st, prof, parse, encode));
      var twice := NextState(once, Prepare(once, prof, parse, encode));
      ValuesAt(twice.queries, k)
        == ValuesAt(st.queries, k) + ValuesAt(prof.defaultQueries, k) + ValuesAt(prof.defaultQueries, k)
  {
    var once := NextState(st, Prepare(st, prof, parse, encode));
    EmptyPathQueries(st, prof, parse, encode);
    EmptyPathQueries(once, prof, parse, encode);
    DefaultsTwice(st.queries, prof.defaultQueries, once.queries,
                  NextState(once, Prepare(once, prof, parse, encode)).queries, k);
  }

  /** Merging the defaults into a map, and again into the result, appends
      them twice under every key. */
  lemma DefaultsTwice(own: Values, defaults: Values, q1: Values, q2: Values, k: string)
    requires q1 == MergeQueries(own, map[], defaults, false)
    requires q2 == MergeQueries(q1, map[], defaults, false)
    ensures ValuesAt(q2, k) == ValuesAt(own, k) + ValuesAt(defaults, k) + ValuesAt(defaults, k)
  {
    MergeQueriesAt(own, map[], defaults, false, k);
    MergeQueriesAt(q1, map[], defaults, false, k);
  }

  /** Per key, the user agent is appended after the values already there. */
  lemma UserAgentAddedAt(headers: Values, override: Option<string>, profileAgent: string, k: string)
    ensures ValuesAt(WithUserAgent(headers, override, profileAgent), k)
      == ValuesAt(headers, k) + ValuesAt(WithUserAgent(map[], override, profileAgent), k)
  {
    var e := WithUserAgent(map[], override, profileAgent);
    if override.Some? || profileAgent != "" {
      var ua := if override.Some? then override.value else profileAgent;
      assert ValuesAt(map[], "User-Agent") + [ua] == [ua];
      assert e == map["User-Agent" := [ua]];
      if k == "User-Agent" {
        assert ValuesAt(e, k) == [ua];
      } else {
        assert ValuesAt(e, k) == [];
      }
    } else {
      assert ValuesAt(e, k) == [];
    }
  }

  /** Per key, the headers after `Submit` are the request's own followed by
      what the same submission adds to an empty header map. */
  lemma HeadersAddedAt(st: RequestState, prof: ClientProfile, k: string)
    ensures ValuesAt(MergeHeaders(st, prof), k)
      == ValuesAt(st.headers, k) + ValuesAt(MergeHeaders(st.(headers := map[]), prof), k)
  {
    var h := WithUserAgent(st.headers, st.userAgent, prof.userAgent);
    var e := WithUserAgent(map[], st.userAgent, prof.userAgent);
    var d := prof.defaultHeaders;
    assert MergeHeaders(st.(headers := map[]), prof) == if st.skipDefaultHeaders then e else Merge(e, d);
    UserAgentAddedAt(st.headers, st.userAgent, prof.userAgent, k);
    if !st.skipDefaultHeaders {
      DefaultsAppendedAt(h, e, d, ValuesAt(st.headers, k), k);
    }
  }

  /** Appending the defaults to two maps keeps a common per-key prefix. */
  lemma DefaultsAppendedAt(h: Values, e: Values, d: Values, own: seq<string>, k: string)
    requires ValuesAt(h, k) == own + ValuesAt(e, k)
    ensures ValuesAt(Merge(h, d), k) == own + ValuesAt(Merge(e, d), k)
  {
    var a, b := ValuesAt(e, k), ValuesAt(d, k);
    assert ValuesAt(Merge(h, d), k) == own + a + b;
    assert ValuesAt(Merge(e, d), k) == a + b;
    ConcatAssoc(own, a, b);
  }

  lemma ConcatAssoc<T>(x: seq<T>, y: seq<T>, z: seq<T>)
    ensures x + y + z == x + (y + z)
  {
  }

  /** A second successful `Submit` of the same request adds the user agent
      and the default headers again: per key, what one submission adds to
      an empty header map appears twice after the request's own values. */
  lemma {:induction false} SecondSubmitDuplicatesHeaders(st: RequestState, prof: ClientProfile, parse: Parser,
                                                         encode: Encoder, k: string)
    requires Prepare(st, prof, parse, encode).Ready?
    requires Prepare(NextState(st, Prepare(st, prof, parse, encode)), prof, parse, encode).Ready?
    ensures var once := NextState(st, Prepare(st, prof, parse, encode));
      var twice := NextState(once, Prepare(once, prof, parse, encode));
      var added := MergeHeaders(st.(headers := map[]), prof);
      ValuesAt(twice.headers, k) == ValuesAt(st.headers, k) + ValuesAt(added, k) + ValuesAt(added, k)
  {
    var p1 := Prepare(st, prof, parse, encode);
    var once := NextState(st, p1);
    var p2 := Prepare(once, prof, parse, encode);
    var bare := st.(headers := map[]);
    ResolvedUnlessPathFailed(st, prof, parse, encode);
    PrepareResolved(st, prof, parse, encode);
    ResolvedUnlessPathFailed(once, prof, parse, encode);
    PrepareResolved(once, prof, parse, encode);
    assert once == st.(queries := p1.queries, headers := MergeHeaders(st, prof));
    assert once.(headers := map[]) == bare.(queries := p1.queries);
    QueriesStayOut(bare, p1.queries, prof, "");
    HeadersAddedAt(st, prof, k);
    HeadersAddedAt(once, prof, k);
  }

  /** With an empty path, the request's queries after one `Submit` are its
      own merged with the profile defaults (unless skipped). */
  lemma EmptyPathQueries(st: RequestState, prof: ClientProfile, parse: Parser, encode: Encoder)
    requires st.path == ""
    ensures NextState(st, Prepare(st, prof, parse, encode)).queries
      == MergeQueries(st.queries, map[], prof.defaultQueries, st.skipDefaultQueries)
    ensures NextState(st, Prepare(st, prof, parse, encode)).path == st.path
    ensures NextState(st, Prepare(st, prof, parse, encode)).skipDefaultQueries == st.skipDefaultQueries
  {
    var host := NormalizeHost(prof.host, parse);
    assert ResolveTarget(st.path, host, parse) == Ok(Target(host, "", map[]));
    PrepareResolved(st, prof, parse, encode);
  }

  /** Once the path resolves, `Prepare` has merged the queries, and if the
      URL parses it has merged the headers and filled in the call. */
  lemma PrepareResolved(st: RequestState, prof: ClientProfile, parse: Parser, encode: Encoder)
    requires ResolveTarget(st.path, NormalizeHost(prof.host, parse), parse).Ok?
    ensures var t := ResolveTarget(st.path, NormalizeHost(prof.host, parse), parse).value;
      var p := Prepare(st, prof, parse, encode);
      && !p.PathFailed?
      && p.queries == MergeQueries(st.queries, t.query, prof.defaultQueries, st.skipDefaultQueries)
      && (p.Ready? ==>
            && p.headers == MergeHeaders(st, prof)
            && p.call == Call(RequestMethod(st.verb), p.call.url, st.body, Merge(map[], MergeHeaders(st, prof)),
                              st.ctx, prof.transport, EffectiveTimeout(st, prof), EffectiveBudget(st, prof)))
  {
    var t := ResolveTarget(st.path, NormalizeHost(prof.host, parse), parse).value;
    var q := MergeQueries(st.queries, t.query, prof.defaultQueries, st.skipDefaultQueries);
    var url := t.host + NormalizePrefix(prof.urlPrefix) + t.path + QueryPart(q, encode);
    if parse(url).Err? {
      PrepareRequestFailed(st, prof, parse, encode, t, q, url);
    } else {
      PrepareReady(st, prof, parse, encode, t, q, url);
    }
  }

  /** `Prepare` when the stored path does not parse. */
  lemma PreparePathFailed(st: RequestState, prof: ClientProfile, parse: Parser, encode: Encoder)
    requires ResolveTarget(st.path, NormalizeHost(prof.host, parse), parse).Err?
    ensures Prepare(st, prof, parse, encode)
      == PathFailed(ResolveTarget(st.path, NormalizeHost(prof.host, parse), parse).error)
  {
  }

  /** A `Submit` whose path does not resolve returns the parse error and
      leaves the request as it was. */
  lemma OutcomePathFailed(st: RequestState, prof: ClientProfile, parse: Parser, encode: Encoder, roundTrip: RoundTrip)
    requires ResolveTarget(st.path, NormalizeHost(prof.host, parse), parse).Err?
    ensures SubmitOutcome(st, prof, parse, encode, roundTrip, st,
                          Err(ResolveTarget(st.path, NormalizeHost(prof.host, parse), parse).error))
  {
    PreparePathFailed(st, prof, parse, encode);
  }

  /** A `Submit` whose URL does not parse returns the parse error and keeps
      the merged queries. */
  lemma OutcomeRequestFailed(st: RequestState, prof: ClientProfile, parse: Parser, encode: Encoder,
                             roundTrip: RoundTrip, t: Target, queries: Values, url: string)
    requires ResolveTarget(st.path, NormalizeHost(prof.host, parse), parse) == Ok(t)
    requires queries == MergeQueries(st.queries, t.query, prof.defaultQueries, st.skipDefaultQueries)
    requires url == t.host + NormalizePrefix(prof.urlPrefix) + t.path + QueryPart(queries, encode)
    requires parse(url).Err?
    ensures SubmitOutcome(st, prof, parse, encode, roundTrip, st.(queries := queries), Err(parse(url).error))
  {
    PrepareRequestFailed(st, prof, parse, encode, t, queries, url);
  }

  /** `Prepare` when the path resolves but the assembled URL does not parse. */
  lemma PrepareRequestFailed(st: RequestState, prof: ClientProfile, parse: Parser, encode: Encoder,
                             t: Target, queries: Values, url: string)
    requires ResolveTarget(st.path, NormalizeHost(prof.host, parse), parse) == Ok(t)
    requires queries == MergeQueries(st.queries, t.query, prof.defaultQueries, st.skipDefaultQueries)
    requires url == t.host + NormalizePrefix(prof.urlPrefix) + t.path + QueryPart(queries, encode)
    requires parse(url).Err?
    ensures Prepare(st, prof, parse, encode) == RequestFailed(parse(url).error, queries)
  {
  }

  /** `Prepare` when both the path and the assembled URL parse. */
  lemma PrepareReady(st: RequestState, prof: ClientProfile, parse: Parser, encode: Encoder,
                     t: Target, queries: Values, url: string)
    requires ResolveTarget(st.path, NormalizeHost(prof.host, parse), parse) == Ok(t)
    requires queries == MergeQueries(st.queries, t.query, prof.defaultQueries, st.skipDefaultQueries)
    requires url == t.host + NormalizePrefix(prof.urlPrefix) + t.path + QueryPart(queries, encode)
    requires !parse(url).Err?
    ensures Prepare(st, prof, parse, encode)
      == Ready(queries, MergeHeaders(st, prof), Outgoing(st, prof, url))
  {
  }

  /** What the network part of `Submit` returns for a call. */
  ghost predicate Delivered(call: Call, roundTrip: RoundTrip, result: Result<Response.HttpResponse>)
  {
    var x := roundTrip(call);
    if x.redirects > HopsAllowed(call.redirectBudget) then result == Err(TooManyRedirects)
    else match x.final
         case Err(e) => result == Err(e)
         case Ok(raw) => Response.Builds(raw, result)
  }

  /** The outcome of a submission that reached the network. */
  lemma OutcomeReady(st: RequestState, prof: ClientProfile, parse: Parser, encode: Encoder, roundTrip: RoundTrip,
                     t: Target, queries: Values, url: string, call: Call, result: Result<Response.HttpResponse>)
    requires ResolveTarget(st.path, NormalizeHost(prof.host, parse), parse) == Ok(t)
    requires queries == MergeQueries(st.queries, t.query, prof.defaultQueries, st.skipDefaultQueries)
    requires url == t.host + NormalizePrefix(prof.urlPrefix) + t.path + QueryPart(queries, encode)
    requires !parse(url).Err?
    requires call == Outgoing(st, prof, url)
    requires Delivered(call, roundTrip, result)
    ensures SubmitOutcome(st, prof, parse, encode, roundTrip,
                          st.(queries := queries, headers := MergeHeaders(st, prof)), result)
  {
    PrepareReady(st, prof, parse, encode, t, queries, url);
  }
}
