# go-http-client, modelled in Dafny

A model of the request pipeline of the Go package `go_http_client`:

- **The client profile** (`HttpClient`): host, URL prefix, redirect budget, timeout, user agent, default headers and queries. It has fluent setters and normalising getters.
- **The request builder** (`HttpRequest`): per-call overrides, its own header and query maps, the verb shortcuts and `Send`.
- **`Submit`**:
  - It resolves the path against the client's host and merges queries and headers into the request's own maps.
  - It assembles the URL, builds the outgoing call with the effective timeout and a fresh redirect counter, and hands it to the network.
- **The response envelope** (`HttpResponse`): status classes, case-insensitive header lookup over lower-cased keys, the JSON content-type test, and `ParseJson` / `ParseAs`.

Modules, one file each:

| file | module | what it holds |
|---|---|---|
| `net.dfy` | `Net` | Errors, byte strings, durations, opaque transport and context handles, and the shapes the standard library returns. |
| `values.dfy` | `Values` | `url.Values` / `http.Header` as `map<string, seq<string>>`; `Add`; `Merge`, the reference definition of the merge loops; and the `AddAll` loop proved equal to it. |
| `go_strings.dfy` | `GoStrings` | The `strings` routines the package calls: `TrimSpace`/`Trim` (as `TrimFunc`), `TrimPrefix`, `ToLower`, `ToUpper`. |
| `config.dfy` | `Config` | `ClientConfig` and `DefaultClientConfig`. |
| `client.dfy` | `Client` | The `HttpClient` class, `NewHttpClient`, `HttpClientFor`, and host and prefix normalisation with their properties. |
| `response.dfy` | `Response` | The `HttpResponse` envelope, `newHttpResponse` as a loop over the raw headers, and lookup and parse properties. |
| `submission.dfy` | `Submission` | The specification of `Submit`, described below. |
| `request.dfy` | `Request` | The `HttpRequest` class with its setters, the shortcuts, `Send` and `Submit`; the redirect counter class; the redirect loop. |

`Submission` specifies `Submit` as functions of the request's stored state (`RequestState`) and the client's profile (`ClientProfile`):

- `ResolveTarget`
- `MergeQueries`
- `MergeHeaders`
- `Prepare`: how far the submission gets before the network.
- `NextState`: the request's maps after the call.
- `SubmitOutcome`: the whole effect of one call.

`HttpRequest.Submit` is an imperative method proved against `SubmitOutcome`.

Library routines the package calls are parameters of the operations that use them:

- `url.Parse` is a function `Parser`. It is used both for the path and for the URL that `http.NewRequest` parses.
- `url.Values.Encode` is a function `Encoder`.
- `client.Do` is a function `RoundTrip`. It takes the outgoing call to the number of redirect responses the server sends and the final outcome.

Some behaviour of the code is easy to misread; the model keeps it as written:

- **Prefix on absolute URLs.** An absolute URL given as a path replaces the host but not the prefix. The prefix is still inserted after the new host (`UrlLayout`).
- **Path of an absolute URL.** Its path gains a second leading slash: `https://h/x` becomes `//x` (`ResolvedPath`).
- **Host with neither scheme nor authority.** A host that parses with neither a scheme nor an authority does not normalise to "". Examples are an empty host, or a bare name such as `api.example.com`, which parses as a path. It normalises to the bare separator `://` (`SchemelessHostIsSeparator`). Only a host that fails to parse becomes "".
- **Normalising twice.** For a host that parses with neither scheme nor authority, normalisation is not idempotent: `://` itself has no scheme, and when it does not parse (Go's `url.Parse` reports a missing protocol scheme) it normalises to "" (`SchemelessHostNotIdempotent`).
- **Second submission.** The merged maps are the request's own maps. A second `Submit` of the same request with an empty path therefore adds the default queries to the request's queries again, unless they are skipped (`SecondSubmitDuplicates`), and, when both submissions reach the network, the user agent and the default headers again (`SecondSubmitDuplicatesHeaders`). The request is not consumed by `Submit`.
- **Redirect budget.** The budget is a plain integer. Zero and negative budgets both refuse the first redirect (`FollowRedirects`).
- **`NoTimeout`.** It clears the override only, so the profile's timeout applies (`EffectiveSettings`).

## Model

| member | source | states |
|---|---|---|
| Values.Merge | request.go:212-216 | Per key, the merged map holds the old values followed by the source's values. A key is present exactly when it was before or the source has values for it. |
| Values.MergeNothing | request.go:221-227 | Merging an empty map (a profile with no default queries) leaves the map as it was. |
| Values.MergeOnlyAppends | request.go:212-216 | A merge never removes or moves a stored value: the old list is a prefix of the new one. |
| Values.ValuesAt | request.go:212-216 | The list stored under a key, or the empty list for an absent key, as reading a Go map gives. No contract of its own; `Merge` and `Add` are stated through it. |
| Values.Add | request.go:214 | Under its key the list gains the value at its end. Every other key keeps its list, and the key set gains the key. |
| Values.CopyKeepsNonEmpty | request.go:260-264 | Copying a header map into an empty one reproduces it exactly when no key has an empty list. |
| Values.AddValues | request.go:213-215 | The inner `Add` loop appends the list under its key and leaves the map unchanged for an empty list. |
| Values.AddAll | request.go:212-216 | The nested `Add` loop over a map yields `Merge`, whichever order the keys are visited in. |
| GoStrings.IsSpace | client.go:54 | The characters `strings.TrimSpace` cuts, those with the Unicode White_Space property. No contract of its own; it is the character class `TrimFunc` is stated over. |
| GoStrings.TrimPrefix | request.go:202 | Removes the prefix once when the string starts with it. No contract of its own; `TrimPrefixRemovesOnce` and `TrimPrefixAbsent` state its behaviour. |
| GoStrings.ToLower | response.go:65 | Lower-cases every ASCII letter and keeps every other character. No contract of its own; `ToLowerIdempotent` and `LowerCaseUnchanged` state its properties. |
| GoStrings.ToUpper | request.go:131 | Upper-cases every ASCII letter and keeps every other character. No contract of its own; `ToUpperIdempotent` and `UpperCaseUnchanged` state its properties. |
| GoStrings.TrimLeftFunc | client.go:80 | The result is a suffix of the input. Every dropped character is a cut character; the first kept one is not. |
| GoStrings.TrimRightFunc | client.go:80 | The result is a prefix of the input. Every dropped character is a cut character; the last kept one is not. |
| GoStrings.TrimFunc | client.go:54 | The result is the input with cut characters removed from both ends, and neither end of the result is a cut character. |
| GoStrings.TrimLeftThenRight | client.go:80 | Cutting the left end and then the right end cuts only from the two ends. |
| GoStrings.KeptMiddle | client.go:80 | A prefix of a suffix is a middle slice of the string, followed by the rest of the suffix. |
| GoStrings.TrimFuncKeepsTrimmed | request.go:125 | A string with no cut character at either end trims to itself. |
| GoStrings.TrimFuncAllCut | client.go:80 | A string made only of cut characters trims to nothing. |
| GoStrings.TrimPrefixRemovesOnce | request.go:202 | Exactly one copy of the prefix is removed from a string that starts with it. |
| GoStrings.TrimPrefixAbsent | request.go:202 | A string is kept whole exactly when it does not start with the prefix or the prefix is empty. |
| GoStrings.ToLowerIdempotent | response.go:65 | Lower-casing a lower-cased key again changes nothing, so stored keys are found by lower-casing. |
| GoStrings.LowerCaseUnchanged | response.go:74 | A string without upper-case letters, such as `content-type`, is its own lower case. |
| GoStrings.UpperCaseUnchanged | request.go:137 | A string without lower-case letters is its own upper case. |
| GoStrings.ToUpperIdempotent | request.go:131 | Upper-casing a stored method again changes nothing. |
| Config.DefaultClientConfigValues | config.go:8-29 | The defaults are: no transport, host or prefix; 10 redirects; 60 seconds; user agent `anik;go-http-client/0.9`. |
| Client.NormalizePrefix | client.go:74-81 | The prefix is empty exactly when the stored one is. Otherwise it is one slash followed by the stored prefix with its slashes cut from both ends, with no slash after the first or at the end. |
| Client.NormalizePrefixIdempotent | client.go:74-81 | Normalising a normalised prefix changes nothing. |
| Client.SlashOnlyPrefix | client.go:80 | A prefix made only of slashes becomes `/`. |
| Client.NormalizeHost | client.go:59-66 | The host re-emitted as `scheme://host`, or "" when it does not parse. No contract of its own; the lemmas below state its properties. |
| Client.NormalizeHostDropsPathAndQuery | client.go:59-66 | Two hosts that parse to the same scheme and authority normalise alike and non-empty, whatever their paths and queries. |
| Client.NormalizeHostOnParseError | client.go:59-63 | The host normalises to "" exactly when it fails to parse. |
| Client.SchemelessHostIsSeparator | client.go:65 | A host that parses without scheme or authority normalises to `://`. |
| Client.SchemelessHostNotIdempotent | client.go:59-66 | A host without scheme or authority normalises to `://`, and when `://` does not parse, normalising again gives "". |
| Client.NormalizeHostIdempotent | client.go:59-66 | A normalised host normalises to itself when the parser reads `scheme://host` back. |
| Client.FromConfig | client.go:142-151 | The profile of a new client: every configured field, and empty default maps. No contract of its own; the constructor and `NewHttpClient` state that a new client has it. |
| Client.HttpClient.constructor | client.go:142-151 | A new client copies every configured field and starts with empty default header and query maps. |
| Client.HttpClient.Transport | client.go:43-51 | Stores the transport and changes nothing else; the getter returns it. |
| Client.HttpClient.GetTransport | client.go:49-51 | The stored transport. No contract of its own; `Transport` states that it returns what was set. |
| Client.HttpClient.Host | client.go:53-57 | Stores the host with surrounding white space removed and changes no other field. |
| Client.HttpClient.GetHost | client.go:59-66 | The stored host normalised; "" exactly when the stored host does not parse. |
| Client.HttpClient.UrlPrefix | client.go:68-72 | Stores the prefix with surrounding white space removed and changes no other field. |
| Client.HttpClient.GetUrlPrefix | client.go:74-81 | The stored prefix normalised: "" exactly when the stored prefix is "", otherwise a slash followed by the stored prefix with every leading and trailing slash removed. |
| Client.HttpClient.GetMaxRedirects | client.go:89-91 | The stored budget. No contract of its own; `MaxRedirects` states that it returns what was set. |
| Client.HttpClient.MaxRedirects | client.go:83-91 | Stores the budget and changes nothing else; the getter returns it. |
| Client.HttpClient.Timeout | client.go:93-101 | Stores the timeout and changes nothing else; the getter returns it. |
| Client.HttpClient.GetTimeout | client.go:99-101 | The stored timeout. No contract of its own; `Timeout` states that it returns what was set. |
| Client.HttpClient.UserAgent | client.go:103-111 | Stores the user agent and changes nothing else; the getter returns it. |
| Client.HttpClient.GetUserAgent | client.go:109-111 | The stored user agent. No contract of its own; `UserAgent` states that it returns what was set. |
| Client.HttpClient.WithDefaultHeaders | client.go:113-121 | Replaces the default headers and changes nothing else; the getter returns them. |
| Client.HttpClient.DefaultHeaders | client.go:119-121 | The stored default headers. No contract of its own; `WithDefaultHeaders` states that it returns what was set. |
| Client.HttpClient.WithDefaultQueries | client.go:123-131 | Replaces the default queries and changes nothing else; the getter returns them. |
| Client.HttpClient.DefaultQueries | client.go:129-131 | The stored default queries. No contract of its own; `WithDefaultQueries` states that it returns what was set. |
| Client.NewHttpClient | client.go:137-152 | No configuration gives no client and `ConfigIsNil`. Otherwise it gives a fresh client whose profile is the configuration's, and no error. |
| Client.HttpClientFor | client.go:154-166 | Never fails. The client has the default profile with the trimmed host and, if a prefix is given, the first prefix trimmed. |
| Response.HttpResponse.Original | response.go:34-36 | The raw response the envelope was built from. No contract of its own; `NewHttpResponse` states what it holds. |
| Response.HttpResponse.StatusCode | response.go:38-40 | The status code. No contract of its own; `NewHttpResponse` states that it is the raw response's. |
| Response.HttpResponse.IsSuccess | response.go:42-44 | Status 200 to 299. No contract of its own; `StatusClassesExclusive` states the three classes. |
| Response.HttpResponse.IsServerError | response.go:46-48 | Status 500 and above. No contract of its own; `StatusClassesExclusive` states the three classes. |
| Response.HttpResponse.IsClientError | response.go:50-52 | Status 400 to 499. No contract of its own; `StatusClassesExclusive` states the three classes. |
| Response.HttpResponse.Headers | response.go:54-56 | The lower-cased header map. No contract of its own; `NewHttpResponse` and `EnvelopeKeepsLists` state what it holds. |
| Response.HttpResponse.HeaderReadable | response.go:64-71 | Lookup of a key is defined unless its lower-cased key is stored with an empty list, where Go panics. |
| Response.HttpResponse.HasHeader | response.go:58-62 | Whether lookup finds the key. No contract of its own; `GetHeaderFirstValue` and `GetHeaderAnyCase` state its behaviour. |
| Response.HttpResponse.GetHeader | response.go:64-71 | Lookup by the lower-cased key. No contract of its own; `GetHeaderFirstValue`, `GetHeaderAnyCase`, `GetHeaderAbsent` and `GetHeaderCaseInsensitive` state its behaviour. |
| Response.HttpResponse.IsJsonResponse | response.go:73-80 | The content-type test. No contract of its own; `JsonContentTypeExact` and `CharsetIsNotJson` state its behaviour. |
| Response.HttpResponse.Content | response.go:82-84 | The body. No contract of its own; `NewHttpResponse` states that it is the body read from the raw response. |
| Response.HttpResponse.ParseJson | response.go:86-95 | JSON decoding behind the content-type test. No contract of its own; `ParseJsonNeedsJson` states its behaviour. |
| Response.HttpResponse.ParseAs | response.go:97-119 | Decoding into a destination after four checks. No contract of its own; `ParseAsOrder` and `EmptyBodyWhateverContentType` state its behaviour. |
| Response.LoweredHeaders | response.go:130-133 | Every delivered key appears lower-cased, and every stored key holds the list of some delivered key that lower-cases to it. It is the header part of `NewHttpResponse`'s contract. |
| Response.EnvelopeOf | response.go:135-140 | The envelope keeps the raw response, its status and its body, and lower-cases the header keys. It is part of `NewHttpResponse`'s contract. |
| Response.Builds | response.go:121-141 | A body read error is the result; otherwise the result is an envelope of the raw response. It is `NewHttpResponse`'s contract. |
| Response.NewHttpResponse | response.go:121-141 | A body read failure is returned as is. Otherwise the envelope keeps the raw response, status and body, and every delivered header key appears lower-cased with the list of a key that lower-cases to it. |
| Response.EnvelopeReadable | response.go:130-133 | Every list an envelope stores is a delivered one, so lookup never meets an empty list when the transport sends none. |
| Response.EnvelopeKeepsLists | response.go:130-133 | With no two delivered keys differing only in case, each key's list is stored unchanged under its lower-cased name. |
| Response.GetHeaderAnyCase | response.go:58-71 | Any spelling of a delivered header name finds that header's first value and reports it present. |
| Response.GetHeaderAbsent | response.go:64-68 | A name that no delivered key lower-cases to is absent in every spelling, with value "". |
| Response.GetHeaderCaseInsensitive | response.go:58-71 | Two spellings with the same lower case look up alike. |
| Response.GetHeaderFirstValue | response.go:58-71 | Lookup reports presence exactly when the lower-cased key is stored, and returns its first value, or "" when absent. |
| Response.StatusClassesExclusive | response.go:42-52 | The success, client-error and server-error classes are the ranges 2xx, 4xx and 5xx and above. They are pairwise exclusive, and 1xx and 3xx are in none. |
| Response.JsonContentTypeExact | response.go:73-80 | A response is JSON exactly when the first stored `content-type` value is exactly `application/json`. |
| Response.CharsetIsNotJson | response.go:75 | `application/json; charset=utf-8` is not JSON. |
| Response.ParseJsonNeedsJson | response.go:86-95 | `ParseJson` fails with `NotJsonResponse` exactly on non-JSON responses and otherwise returns the decoder's result. |
| Response.ParseAsOrder | response.go:97-119 | `ParseAs` reports the first failed check in the order: nil destination, empty body, not a pointer, not JSON, no `UnmarshalJSON`. Otherwise it returns the decoder's outcome. |
| Response.EmptyBodyWhateverContentType | response.go:102-104 | Any non-nil destination on an empty body fails with `BodyIsEmpty`, whatever the headers. |
| Submission.ResolveTarget | request.go:196-219 | The host, path and path queries `Submit` derives from the stored path. No contract of its own; `ResolvedHost`, `ResolvedPath` and `LeadingSlashOptional` state its behaviour. |
| Submission.MergeQueries | request.go:199-227 | The request's queries with the path's and then, unless skipped, the defaults added. No contract of its own; `MergeQueriesAt` states it per key. |
| Submission.MergeQueriesAt | request.go:212-227 | Per key, the merged queries are the request's, then the path's, then the defaults unless skipped. |
| Submission.LeadingSlashOptional | request.go:202 | A path with or without one leading slash resolves alike. |
| Submission.ResolvedHost | request.go:196-210 | The profile host is kept unless the path's reference has a host. If it does, the target host is `scheme://host` of the reference, whatever the profile host. |
| Submission.ResolvedPath | request.go:199-219 | An empty path gives no path and no queries. Otherwise the path is `/` followed by the reference's path, and the queries are the reference's. |
| Submission.QueryPart | request.go:229-232 | The query part of the URL. No contract of its own; `QueryPartEmptyIff` states its behaviour. |
| Submission.AssembleUrl | request.go:234 | Host, prefix, path and query part joined. No contract of its own; `UrlLayout` states the URL `Submit` builds. |
| Submission.UrlLayout | request.go:229-234 | The URL is the resolved host, the normalised prefix, the resolved path and the query part, in that order. |
| Submission.AbsoluteReferenceIgnoresProfileHost | request.go:208-210 | When the path names a host, changing the profile host changes nothing `Submit` prepares. |
| Submission.QueryPartEmptyIff | request.go:229-232 | The query part is empty exactly when no query key is present, and otherwise starts with `?`. |
| Submission.QueryMergeOrder | request.go:199-227 | Per key, the submitted queries are the request's, then the path's, then the defaults unless skipped. |
| Submission.WithUserAgent | request.go:245-249 | The request's headers with the user agent added. No contract of its own; `UserAgentPrecedence` and `UserAgentAddedAt` state its behaviour. |
| Submission.UserAgentAddedAt | request.go:245-249 | Per key, the user agent is appended after the values already there: what it adds to an empty map follows the key's own values. |
| Submission.MergeHeaders | request.go:245-258 | The request's headers with the user agent and, unless skipped, the defaults added. No contract of its own; `OutgoingCarriesMergedHeaders` and `HeadersAddedAt` state it per key. |
| Submission.HeadersAddedAt | request.go:245-258 | Per key, the merged headers are the request's own followed by what the same submission adds to an empty header map. |
| Submission.UserAgentPrecedence | request.go:245-249 | A request override, even "", is appended. Otherwise a non-empty profile agent is appended. Otherwise nothing is. No other header changes. |
| Submission.OutgoingCarriesMergedHeaders | request.go:245-264 | The call carries, per key, exactly the request's merged headers: its own, the user agent, then the defaults unless skipped. |
| Submission.CopiedHeadersAt | request.go:260-264 | The copy of the merged headers holds the same values per key. |
| Submission.ResolvedUnlessPathFailed | request.go:201-206 | Only an unparsable path stops `Submit` before the URL. |
| Submission.QueriesStayOut | request.go:245-278 | Merging queries into the request changes neither the merged headers nor the call. |
| Submission.EffectiveTimeout | request.go:266-269 | The request's timeout override, else the profile's. No contract of its own; `EffectiveSettings` states what the call carries. |
| Submission.EffectiveBudget | request.go:271-274 | The request's budget override, else the profile's. No contract of its own; `EffectiveSettings` states what the call carries. |
| Submission.RequestMethod | request.go:236 | The method `http.NewRequest` sends: `GET` for an empty method. No contract of its own; `PrepareResolved` states that the call carries it. |
| Submission.HopsAllowed | request.go:279-287 | How many redirects a budget lets through: none for zero or below, else the budget. No contract of its own; `FollowRedirects` states that the counter follows exactly this many. |
| Submission.Outgoing | request.go:236-278 | The call a ready request sends. No contract of its own; `PrepareResolved`, `EffectiveSettings` and `OutgoingCarriesMergedHeaders` state what it carries. |
| Submission.EffectiveSettings | request.go:266-278 | The call's timeout and budget are the request's overrides when set and the profile's otherwise. Transport, body and context come from profile and request. |
| Submission.SecondSubmitDuplicatesHeaders | request.go:245-258 | When two submissions of the same request both reach the network, per key what one submission adds to an empty header map appears twice after the request's own headers. |
| Submission.SecondSubmitDuplicates | request.go:199-227 | After two submissions with an empty path and default queries not skipped, the request's queries hold, per key, its own values followed by every default value twice. |
| Submission.DefaultsTwice | request.go:221-227 | Merging the defaults into a map and again into the result appends them twice under every key. |
| Submission.EmptyPathQueries | request.go:199-227 | With an empty path, one `Submit` leaves the request's queries as its own merged with the defaults unless skipped. |
| Submission.PrepareResolved | request.go:212-278 | Once the path resolves, the queries are merged. If the URL also parses, the headers are merged and the call carries the method, body, context, transport, timeout and budget. |
| Submission.Prepare | request.go:195-278 | How far `Submit` gets before the network. No contract of its own; `PrepareResolved`, `PreparePathFailed`, `PrepareRequestFailed` and `PrepareReady` state each case. |
| Submission.Assemble | request.go:212-278 | Everything after the path is resolved, up to the call. No contract of its own; it is `Prepare` once the target is known. |
| Submission.NextState | request.go:195-258 | The request's maps after `Submit`: unchanged on a path error, merged queries on a URL error, both maps merged otherwise. No contract of its own; `OutcomePathFailed`, `OutcomeRequestFailed` and `OutcomeReady` state each case. |
| Submission.SubmitOutcome | request.go:195-296 | The whole effect of one `Submit`: the next state and the result for each case. It is `Submit`'s contract. |
| Submission.Delivered | request.go:276-295 | More redirects than allowed give `TooManyRedirects`; otherwise a transport error is the result, and a response is wrapped as `NewHttpResponse` does. It is `Deliver`'s contract. |
| Submission.PreparePathFailed | request.go:201-206 | A path that does not parse stops `Submit` with the parse error. |
| Submission.PrepareRequestFailed | request.go:234-239 | A URL that does not parse stops `Submit` with that error, after the queries were merged. |
| Submission.PrepareReady | request.go:229-278 | When path and URL parse, the merged queries and headers are kept, and the call is the one built from them. |
| Submission.OutcomePathFailed | request.go:201-206 | A path failure returns the error and leaves the request unchanged. |
| Submission.OutcomeRequestFailed | request.go:236-239 | A URL failure returns the error and keeps the merged queries in the request. |
| Submission.OutcomeReady | request.go:276-295 | A delivered call completes the outcome: the request keeps both merged maps and returns what the network part returned. |
| Request.RedirectPolicy.constructor | request.go:271-274 | The counter starts at the effective budget. |
| Request.RedirectPolicy.Check | request.go:279-287 | A spent counter (at most zero) refuses with `TooManyRedirects` and stays. Otherwise the hop is allowed and the counter decreases by one. |
| Request.FollowRedirects | request.go:276-293 | Asking the counter before each hop follows exactly `min(redirects, budget)` hops for a positive budget and none otherwise. It refuses exactly when the server sends more redirects than that. |
| Request.VerbIsUpperCase | request.go:137 | The shortcut verbs are their own upper case. |
| Request.HttpRequest.constructor | request.go:298-304 | A new request is bound to its client, with empty maps and no overrides. |
| Request.HttpRequest.WithContext | request.go:51-55 | Sets the context and nothing else. |
| Request.HttpRequest.UserAgent | request.go:57-61 | Sets the user-agent override and nothing else. |
| Request.HttpRequest.MaxRedirects | request.go:63-67 | Sets the budget override and nothing else. |
| Request.HttpRequest.NoRedirect | request.go:69-74 | Sets the budget override to zero and nothing else. |
| Request.HttpRequest.Timeout | request.go:76-80 | Sets the timeout override and nothing else. |
| Request.HttpRequest.NoTimeout | request.go:82-86 | Clears the timeout override and nothing else. |
| Request.HttpRequest.Headers | request.go:88-92 | Replaces the header map and nothing else. |
| Request.HttpRequest.AddHeader | request.go:94-98 | Appends one value under its key and changes nothing else. |
| Request.HttpRequest.SkipDefaultHeaders | request.go:100-104 | Sets the skip flag and nothing else. |
| Request.HttpRequest.Queries | request.go:106-110 | Replaces the query map and nothing else. |
| Request.HttpRequest.SkipDefaultQueries | request.go:112-116 | Sets the skip flag and nothing else. |
| Request.HttpRequest.Body | request.go:118-122 | Sets the body and nothing else. |
| Request.HttpRequest.Path | request.go:124-128 | Stores the path with surrounding white space removed and changes no other field. |
| Request.HttpRequest.Method | request.go:130-134 | Stores the method upper-cased and changes nothing else. |
| Request.HttpRequest.ShortcutState | request.go:136-144 | The state a verb shortcut submits: the method set, and the stored path replaced by the first path, trimmed, only when one is given. It is the shortcuts' contract. |
| Request.HttpRequest.Shortcut | request.go:136-144 | Submits the request with the method set and, only if a path is given, the first path trimmed. |
| Request.HttpRequest.Get | request.go:136-144 | A submission with method `GET` and the optional path. |
| Request.HttpRequest.Post | request.go:146-154 | A submission with method `POST` and the optional path. |
| Request.HttpRequest.Put | request.go:156-164 | A submission with method `PUT` and the optional path. |
| Request.HttpRequest.Patch | request.go:166-174 | A submission with method `PATCH` and the optional path. |
| Request.HttpRequest.Delete | request.go:176-184 | A submission with method `DELETE` and the optional path. |
| Request.HttpRequest.Send | request.go:186-193 | A submission with method, trimmed path, body and header map replaced. |
| Request.HttpRequest.ResolveAndMergeQueries | request.go:196-227 | Resolves the stored path. On success the request's queries become the merge of its own, the path's and the defaults unless skipped. On failure nothing changes. |
| Request.HttpRequest.MergeHeadersIn | request.go:245-258 | The request's header map becomes its merged headers, and nothing else changes. |
| Request.HttpRequest.Submit | request.go:195-296 | The request moves to `NextState` and the result is the one `SubmitOutcome` prescribes for every path: a path error, a URL error, a redirect refusal, a transport error, a read error or an envelope. |
| Request.HttpRequest.Dispatch | request.go:245-295 | Merges the headers in, builds the call with the effective timeout and budget, and delivers it. |
| Request.Deliver | request.go:279-295 | More redirects than the budget allows give `TooManyRedirects`. Otherwise a transport error is returned as is and a response is wrapped. |
| Request.NewHttpRequest | request.go:298-304 | A fresh request bound to the client, with empty maps and no overrides. |

## Left out

- **`url.Parse` and `url.Values.Encode`.** Their internals are parameters. Properties that depend on how they parse are stated with the parse result as a hypothesis.
- **`http.NewRequest` checks.** Only its URL parse failure is modelled. It also validates the method and turns an empty method into `GET`; the method validation is not modelled, the empty-method rule is (`RequestMethod`).
- **Header keys.** `http.Header.Add` canonicalises keys (`user-agent` becomes `User-Agent`). Keys are taken as given, so request headers differing only in case are separate keys in the model.
- **Case mapping.** `strings.ToLower` and `strings.ToUpper` are modelled on ASCII letters only. Other Unicode case mappings are not modelled.
- **The network.** `client.Do` is the `RoundTrip` parameter, so the following are not modelled:
  - the transport itself;
  - timeouts as elapsed time, and cancellation through the context;
  - the `*url.Error` wrapping of its errors. A refused redirect is returned as `TooManyRedirects` itself, not wrapped.
- **Nil maps.** After `Headers(nil)` or `Queries(nil)` the package panics when a value is added to that map: on `AddHeader`, or in `Submit` when it adds a path query, a default query, the user agent or a default header. `Submit` with nothing to add to the nil map does not panic. Maps in the model are values and are never nil.
- **GetHeader's empty-list panic.** `GetHeader` indexes the first stored value, so Go panics on an empty list. That case is the precondition `HeaderReadable` instead of a panic.
- **Fluent return values.** Setters return the receiver for chaining. The model's setters return nothing, and chaining is sequential calls.
- **Aliasing.** `Headers`, `Queries`, `WithDefaultHeaders` and `WithDefaultQueries` store the caller's map itself, so later changes through either reference are shared. The model copies map values. `Submit` appending into a map the caller still holds is therefore not modelled.
- **Mutable defaults.** `DefaultClientConfig` is a mutable package variable; it is a constant here.
- **Integer widths.** `time.Duration` and `int` are unbounded integers, so 64-bit overflow is not modelled.
- **`HttpClient.NewHttpRequest`.** The forwarder (client.go:133-135) would make the client module depend on the request module. `Request.NewHttpRequest` is the operation it forwards to.
- **Reading the body.** The body read is one result. Partial reads before an `io.ReadAll` error, and `Body.Close`, are not modelled.
- **`json.Unmarshal`.** It is a parameter: the decoded value for `ParseJson`, the outcome for `ParseAs`. Destinations are the four kinds `ParseAs` distinguishes (`Dest`), not Go values inspected by reflection.
- **`Original()`.** It returns the raw response as a value, not a pointer to the live `*http.Response`.
- **Map iteration order.** Merges are stated per key, which makes the result independent of Go's order. In `newHttpResponse`, two delivered keys that differ only in case leave whichever list Go visits last. `NewHttpResponse` states only that each stored list is one of theirs.
- Client.HttpClient.Host: the contract names the updated field and lists every other field as unchanged, rather than stating one equation over the whole profile.
- Client.HttpClient.UrlPrefix: the contract names the updated field and lists every other field as unchanged, rather than stating one equation over the whole profile.
- Request.HttpRequest.Path: the contract names the updated field and lists every other field as unchanged, rather than stating one equation over the whole request state.
- Request.HttpRequest.Shortcut: it states its outcome with the verb upper-cased. `Get`, `Post`, `Put`, `Patch` and `Delete` state it with the literal verb, which `VerbIsUpperCase` shows is the same.
