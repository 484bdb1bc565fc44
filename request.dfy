/// The request builder: a mutable record of per-request overrides and
/// maps, its fluent setters, the verb shortcuts, and `Submit`, which merges
/// into the request's own maps, builds the call, counts redirects and wraps
/// the answer.
module Request {
  import opened Net
  import opened Values
  import opened GoStrings
  import opened Client
  import opened Submission
  import Response

  /** The `CheckRedirect` closure of one `Submit`: a counter that starts at
      the redirect budget. */
  class RedirectPolicy {
    var remaining: int

    constructor (budget: int)
      ensures remaining == budget
    {
      remaining := budget;
    }

    /** Refuses a hop once the counter is spent, and otherwise allows it
        and counts it. */
    method Check() returns (err: Option<Error>)
      modifies this
      ensures old(remaining) <= 0 ==> err == Some(TooManyRedirects) && remaining == old(remaining)
      ensures old(remaining) > 0 ==> err == None && remaining == old(remaining) - 1
    {
      if remaining <= 0 {
        return Some(TooManyRedirects);
      }
      remaining := remaining - 1;
      err := None;
    }
  }

  /** The redirect checks of one call whose server answers `redirects`
      redirects: a fresh policy is asked before each hop, and the first
      refusal ends the call. A budget of N lets exactly N hops through; a
      budget of zero or less refuses the first. */
  method FollowRedirects(budget: int, redirects: nat) returns (followed: nat, refused: bool)
    ensures followed == if redirects <= HopsAllowed(budget) then redirects else HopsAllowed(budget)
    ensures refused <==> redirects > HopsAllowed(budget)
  {
    var policy := new RedirectPolicy(budget);
    followed := 0;
    refused := false;
    while followed < redirects && !refused
      invariant followed <= redirects && followed <= HopsAllowed(budget)
      invariant policy.remaining == budget - followed
      invariant refused ==> followed == HopsAllowed(budget) && followed < redirects
      decreases redirects - followed, if refused then 0 else 1
    {
      var err := policy.Check();
      if err.Some? {
        refused := true;
      } else {
        followed := followed + 1;
      }
    }
  }

  /** The verbs of the shortcuts are already upper case, so `Method` stores
      them as written. */
  lemma VerbIsUpperCase(v: string)
    requires v == "GET" || v == "POST" || v == "PUT" || v == "PATCH" || v == "DELETE"
    ensures ToUpper(v) == v
  {
    UpperCaseUnchanged(v);
  }

  class HttpRequest {
    const client: HttpClient
    var userAgent: Option<string>
    var ctx: Option<Context>
    var maxRedirects: Option<int>
    var timeout: Option<Duration>
    var headers: Values
    var queries: Values
    var skipDefaultQueries: bool
    var body: Bytes
    var skipDefaultHeaders: bool
    var verb: string
    var path: string

    function State(): RequestState
      reads this
    {
      RequestState(userAgent, ctx, maxRedirects, timeout, headers, queries,
                   skipDefaultQueries, body, skipDefaultHeaders, verb, path)
    }

    /** The struct literal of `NewHttpRequest`. */
    constructor (client: HttpClient)
      ensures this.client == client && State() == Blank
    {
      this.client := client;
      userAgent := None;
      ctx := None;
      maxRedirects := None;
      timeout := None;
      headers := map[];
      queries := map[];
      skipDefaultQueries := false;
      body := [];
      skipDefaultHeaders := false;
      verb := "";
      path := "";
    }

    method WithContext(c: Option<Context>)
      modifies this
      ensures State() == old(State()).(ctx := c)
    {
      ctx := c;
    }

    method UserAgent(ua: string)
      modifies this
      ensures State() == old(State()).(userAgent := Some(ua))
    {
      userAgent := Some(ua);
    }

    method MaxRedirects(n: int)
      modifies this
      ensures State() == old(State()).(maxRedirects := Some(n))
    {
      maxRedirects := Some(n);
    }

    /** A budget override of zero: the first redirect is refused. */
    method NoRedirect()
      modifies this
      ensures State() == old(State()).(maxRedirects := Some(0))
    {
      maxRedirects := Some(0);
    }

    method Timeout(t: Duration)
      modifies this
      ensures State() == old(State()).(timeout := Some(t))
    {
      timeout := Some(t);
    }

    /** Clears the override only; the profile timeout then applies. */
    method NoTimeout()
      modifies this
      ensures State() == old(State()).(timeout := None)
    {
      timeout := None;
    }

    /** Replaces the request's header map wholesale. */
    method Headers(h: Values)
      modifies this
      ensures State() == old(State()).(headers := h)
    {
      headers := h;
    }

    method AddHeader(k: string, v: string)
      modifies this
      ensures State() == old(State()).(headers := Add(old(headers), k, v))
    {
      headers := Add(headers, k, v);
    }

    method SkipDefaultHeaders()
      modifies this
      ensures State() == old(State()).(skipDefaultHeaders := true)
    {
      skipDefaultHeaders := true;
    }

    /** Replaces the request's query map wholesale. */
    method Queries(q: Values)
      modifies this
      ensures State() == old(State()).(queries := q)
    {
      queries := q;
    }

    method SkipDefaultQueries()
      modifies this
      ensures State() == old(State()).(skipDefaultQueries := true)
    {
      skipDefaultQueries := true;
    }

    method Body(b: Bytes)
      modifies this
      ensures State() == old(State()).(body := b)
    {
      body := b;
    }

    /** Stores the path with surrounding white space removed. */
    method Path(p: string)
      modifies this
      ensures path == TrimFunc(p, IsSpace)
      ensures unchanged(this`userAgent, this`ctx, this`maxRedirects, this`timeout, this`headers, this`queries)
      ensures unchanged(this`skipDefaultQueries, this`body, this`skipDefaultHeaders, this`verb)
    {
      path := TrimFunc(p, IsSpace);
    }

    /** Stores the method upper-cased. */
    method Method(m: string)
      modifies this
      ensures State() == old(State()).(verb := ToUpper(m))
    {
      verb := ToUpper(m);
    }
  
    /** The state a verb shortcut submits: the method set, and the path
        replaced by the first argument (trimmed) when one is given. */
    ghost function ShortcutState(verb: string, paths: seq<string>): RequestState
      reads this
    {
      State().(verb := verb, path := if |paths| > 0 then TrimFunc(paths[0], IsSpace) else path)
    }

    /** Sets the method, sets the path only if one is given, and submits. */
    method Shortcut(m: string, paths: seq<string>, parse: Parser, encode: Encoder, roundTrip: RoundTrip)
      returns (result: Result<Response.HttpResponse>)
      modifies this
      ensures SubmitOutcome(old(ShortcutState(ToUpper(m), paths)), client.Profile(), parse, encode, roundTrip, State(), result)
    {
      ghost var target := ShortcutState(ToUpper(m), paths);
      Method(m);
      if |paths| > 0 {
        Path(paths[0]);
      }
      assert State() == target;
      result := Submit(parse, encode, roundTrip);
    }

    method Get(paths: seq<string>, parse: Parser, encode: Encoder, roundTrip: RoundTrip)
      returns (result: Result<Response.HttpResponse>)
      modifies this
      ensures SubmitOutcome(old(ShortcutState("GET", paths)), client.Profile(), parse, encode, roundTrip, State(), result)
    {
      VerbIsUpperCase("GET");
      result := Shortcut("GET", paths, parse, encode, roundTrip);
    }

    method Post(paths: seq<string>, parse: Parser, encode: Encoder, roundTrip: RoundTrip)
      returns (result: Result<Response.HttpResponse>)
      modifies this
      ensures SubmitOutcome(old(ShortcutState("POST", paths)), client.Profile(), parse, encode, roundTrip, State(), result)
    {
      VerbIsUpperCase("POST");
      result := Shortcut("POST", paths, parse, encode, roundTrip);
    }

    method Put(paths: seq<string>, parse: Parser, encode: Encoder, roundTrip: RoundTrip)
      returns (result: Result<Response.HttpResponse>)
      modifies this
      ensures SubmitOutcome(old(ShortcutState("PUT", paths)), client.Profile(), parse, encode, roundTrip, State(), result)
    {
      VerbIsUpperCase("PUT");
      result := Shortcut("PUT", paths, parse, encode, roundTrip);
    }

    method Patch(paths: seq<string>, parse: Parser, encode: Encoder, roundTrip: RoundTrip)
      returns (result: Result<Response.HttpResponse>)
      modifies this
      ensures SubmitOutcome(old(ShortcutState("PATCH", paths)), client.Profile(), parse, encode, roundTrip, State(), result)
    {
      VerbIsUpperCase("PATCH");
      result := Shortcut("PATCH", paths, parse, encode, roundTrip);
    }

    method Delete(paths: seq<string>, parse: Parser, encode: Encoder, roundTrip: RoundTrip)
      returns (result: Result<Response.HttpResponse>)
      modifies this
      ensures SubmitOutcome(old(ShortcutState("DELETE", paths)), client.Profile(), parse, encode, roundTrip, State(), result)
    {
      VerbIsUpperCase("DELETE");
      result := Shortcut("DELETE", paths, parse, encode, roundTrip);
    }

    /** Replaces method, path, body and headers, then submits. */
    method Send(m: string, p: string, b: Bytes, h: Values, parse: Parser, encode: Encoder, roundTrip: RoundTrip)
      returns (result: Result<Response.HttpResponse>)
      modifies this
      ensures SubmitOutcome(old(State()).(verb := ToUpper(m), path := TrimFunc(p, IsSpace), body := b, headers := h),
                            client.Profile(), parse, encode, roundTrip, State(), result)
    {
      ghost var target := State().(verb := ToUpper(m), path := TrimFunc(p, IsSpace), body := b, headers := h);
      Method(m);
      Path(p);
      Body(b);
      Headers(h);
      assert State() == target;
      result := Submit(parse, encode, roundTrip);
    }

    /** The first half of `Submit`: resolve the stored path against the
        client's host, and append the path's queries, then the profile
        defaults unless skipped, to the request's own query map. A path that
        does not parse leaves the request as it was. */
    method ResolveAndMergeQueries(parse: Parser) returns (target: Result<Target>)
      modifies this
      ensures target == ResolveTarget(old(path), NormalizeHost(client.host, parse), parse)
      ensures target.Ok? ==>
        queries == MergeQueries(old(queries), target.value.query, client.defaultQueries, skipDefaultQueries)
      ensures target.Err? ==> queries == old(queries)
      ensures unchanged(this`userAgent, this`ctx, this`maxRedirects, this`timeout, this`headers)
      ensures unchanged(this`skipDefaultQueries, this`body, this`skipDefaultHeaders, this`verb, this`path)
    {
      var host := client.GetHost(parse);
      if path == "" {
        MergeNothing(queries);
        target := Ok(Target(host, "", map[]));
      } else {
        var u := parse(TrimPrefix(path, "/"));
        if u.Err? {
          return Err(u.error);
        }
        if u.value.host != "" {
          host := u.value.scheme + "://" + u.value.host;
        }
        queries := AddAll(queries, u.value.query);
        target := Ok(Target(host, "/" + u.value.path, u.value.query));
      }
      if !skipDefaultQueries {
        queries := AddAll(queries, client.DefaultQueries());
      }
    }

    /** The user agent, then the profile's default headers unless skipped,
        appended to the request's own header map. */
    method MergeHeadersIn()
      modifies this
      ensures headers == MergeHeaders(old(State()), client.Profile())
      ensures unchanged(this`userAgent, this`ctx, this`maxRedirects, this`timeout, this`queries)
      ensures unchanged(this`skipDefaultQueries, this`body, this`skipDefaultHeaders, this`verb, this`path)
    {
      if userAgent.Some? {
        AddHeader("User-Agent", userAgent.value);
      } else if client.GetUserAgent() != "" {
        AddHeader("User-Agent", client.GetUserAgent());
      }
      if !skipDefaultHeaders {
        headers := AddAll(headers, client.DefaultHeaders());
      }
    }

    /** Resolves the target, merges queries and headers into the request's
        own maps, assembles the URL, and hands the call to the network with
        the effective timeout and a fresh redirect counter. */
    method Submit(parse: Parser, encode: Encoder, roundTrip: RoundTrip) returns (result: Result<Response.HttpResponse>)
      modifies this
      ensures SubmitOutcome(old(State()), client.Profile(), parse, encode, roundTrip, State(), result)
    {
      ghost var st := State();
      ghost var prof := client.Profile();
      var target := ResolveAndMergeQueries(parse);
      if target.Err? {
        OutcomePathFailed(st, prof, parse, encode, roundTrip);
        assert State() == st;
        return Err(target.error);
      }
      var merged := queries;
      assert ResolveTarget(st.path, NormalizeHost(prof.host, parse), parse) == target;
      assert merged == MergeQueries(st.queries, target.value.query, prof.defaultQueries, st.skipDefaultQueries);
      var qp := "";
      if |merged| > 0 {
        qp := "?" + encode(merged);
      }
      var url := target.value.host + client.GetUrlPrefix() + target.value.path + qp;
      assert url == target.value.host + NormalizePrefix(prof.urlPrefix) + target.value.path + QueryPart(merged, encode);
      var req := parse(url);
      if req.Err? {
        OutcomeRequestFailed(st, prof, parse, encode, roundTrip, target.value, merged, url);
        assert State() == st.(queries := merged);
        return Err(req.error);
      }
      ghost var mid := State();
      assert mid == st.(queries := merged);
      QueriesStayOut(st, merged, prof, url);
      result := Dispatch(url, roundTrip);
      assert State() == st.(queries := merged, headers := MergeHeaders(st, prof));
      assert Delivered(Outgoing(st, prof, url), roundTrip, result);
      assert !parse(url).Err?;
      OutcomeReady(st, prof, parse, encode, roundTrip, target.value, merged, url,
                   Outgoing(st, prof, url), result);
    }

    /** The last part of `Submit`, once the URL parses: the headers are
        merged in, copied into the call with the effective timeout and
        redirect budget, and the call is delivered. */
    method Dispatch(url: string, roundTrip: RoundTrip) returns (result: Result<Response.HttpResponse>)
      modifies this
      ensures headers == MergeHeaders(old(State()), client.Profile())
      ensures unchanged(this`userAgent, this`ctx, this`maxRedirects, this`timeout, this`queries)
      ensures unchanged(this`skipDefaultQueries, this`body, this`skipDefaultHeaders, this`verb, this`path)
      ensures Delivered(Outgoing(old(State()), client.Profile(), url), roundTrip, result)
    {
      ghost var st := State();
      MergeHeadersIn();
      var outgoing := AddAll(map[], headers);
      var t := client.GetTimeout();
      if timeout.Some? {
        t := timeout.value;
      }
      var budget := client.GetMaxRedirects();
      if maxRedirects.Some? {
        budget := maxRedirects.value;
      }
      var call := Call(RequestMethod(verb), url, body, outgoing, ctx, client.GetTransport(), t, budget);
      assert call == Outgoing(st, client.Profile(), url);
      result := Deliver(call, roundTrip);
    }
  }

  /** The second half of `Submit`, once the call is built: the network's
      redirects are checked against the call's budget, then a transport
      failure is returned as is, and otherwise the response is wrapped. */
  method Deliver(call: Call, roundTrip: RoundTrip) returns (result: Result<Response.HttpResponse>)
    ensures Delivered(call, roundTrip, result)
  {
    var exchange := roundTrip(call);
    var _, refused := FollowRedirects(call.redirectBudget, exchange.redirects);
    if refused {
      return Err(TooManyRedirects);
    }
    if exchange.final.Err? {
      return Err(exchange.final.error);
    }
    result := Response.NewHttpResponse(exchange.final.value);
  }

  /** `NewHttpRequest`: a request bound to `client`, with empty maps and no
      overrides. */
  method NewHttpRequest(client: HttpClient) returns (r: HttpRequest)
    ensures fresh(r) && r.client == client && r.State() == Blank
  {
    r := new HttpRequest(client);
  }
}
