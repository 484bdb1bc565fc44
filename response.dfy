/// The response envelope: status classification, case-insensitive header
/// lookup over lower-cased keys, the JSON content-type test and the two
/// parse entry points, and the constructor that drains a raw response.
module Response {
  import opened Net
  import opened Values
  import opened GoStrings

  /** The kinds of destination `ParseAs` tells apart: nil, not a pointer,
      a pointer whose target lacks `UnmarshalJSON`, and one that has it. */
  datatype Dest = Nil | NonPointer | PtrNoUnmarshaler | PtrUnmarshaler

  /** An envelope; `headers` holds lower-cased keys. */
  datatype HttpResponse = HttpResponse(original: RawResponse, statusCode: int, body: Bytes, headers: Values)
  {
    function Original(): RawResponse { original }

    function StatusCode(): int { statusCode }

    function Headers(): Values { headers }

    function Content(): Bytes { body }

    predicate IsSuccess() { statusCode >= 200 && statusCode < 300 }

    predicate IsServerError() { statusCode >= 500 }

    predicate IsClientError() { statusCode >= 400 && statusCode < 500 }

    /** Lookup indexes the first stored value, so a key stored with an empty
        list cannot be looked up (Go panics). */
    predicate HeaderReadable(key: string)
    {
      ToLower(key) in headers ==> headers[ToLower(key)] != []
    }

    function GetHeader(key: string): (string, bool)
      requires HeaderReadable(key)
    {
      var k := ToLower(key);
      if k !in headers then ("", false) else (headers[k][0], true)
    }

    predicate HasHeader(key: string)
      requires HeaderReadable(key)
    {
      GetHeader(key).1
    }

    predicate IsJsonResponse()
      requires HeaderReadable("content-type")
    {
      var (v, ok) := GetHeader("content-type");
      ok && v == "application/json"
    }

    /** `ParseJson`; `decoded` stands for what `json.Unmarshal` makes of the body. */
    function ParseJson<T>(decoded: Result<T>): Result<T>
      requires HeaderReadable("content-type")
    {
      if !IsJsonResponse() then Err(NotJsonResponse) else decoded
    }

    /** `ParseAs`; `unmarshal` stands for what `json.Unmarshal` does with the
        body and a destination that passed every check. */
    function ParseAs(dest: Dest, unmarshal: Outcome): Outcome
      requires dest.PtrNoUnmarshaler? || dest.PtrUnmarshaler? ==> |body| == 0 || HeaderReadable("content-type")
    {
      if dest.Nil? then Fail(DestIsNil)
      else if |body| == 0 then Fail(BodyIsEmpty)
      else if dest.NonPointer? then Fail(DestNotPointer)
      else if !IsJsonResponse() then Fail(NotJsonResponse)
      else if !dest.PtrUnmarshaler? then Fail(DestNotUnmarshaler)
      else unmarshal
    }
  }

  /** `h` holds, for every key of `raw`, that key lower-cased, and each of its
      entries is the value list of some key of `raw` that lower-cases to it.
      When two keys of `raw` differ only in case, which one's list survives
      depends on Go's map iteration order. */
  ghost predicate LoweredHeaders(h: Values, raw: Values)
  {
    && (forall k0 | k0 in raw :: ToLower(k0) in h)
    && (forall k | k in h :: exists k0 | k0 in raw :: ToLower(k0) == k && h[k] == raw[k0])
  }

  /** No two keys differ only in case (as for keys Go has canonicalised). */
  ghost predicate CaseDistinct(raw: Values)
  {
    forall k1, k2 | k1 in raw && k2 in raw && ToLower(k1) == ToLower(k2) :: k1 == k2
  }

  /** `resp` is what `newHttpResponse` makes of `raw` once its body was read. */
  ghost predicate EnvelopeOf(resp: HttpResponse, raw: RawResponse)
  {
    && raw.body.Ok?
    && resp.original == raw
    && resp.statusCode == raw.statusCode
    && resp.body == raw.body.value
    && LoweredHeaders(resp.headers, raw.header)
  }

  /** A read failure is returned as is; otherwise an envelope of `raw`. */
  ghost predicate Builds(raw: RawResponse, result: Result<HttpResponse>)
  {
    match raw.body
    case Err(e) => result == Err(e)
    case Ok(_) => result.Ok? && EnvelopeOf(result.value, raw)
  }

  /** `newHttpResponse`: drain the body, then copy every header under its
      lower-cased name. */
  method NewHttpResponse(raw: RawResponse) returns (result: Result<HttpResponse>)
    ensures Builds(raw, result)
  {
    if raw.body.Err? {
      return Err(raw.body.error);
    }
    var headers: Values := map[];
    var todo := raw.header.Keys;
    while todo != {}
      invariant todo <= raw.header.Keys
      invariant forall k0 | k0 in raw.header && k0 !in todo :: ToLower(k0) in headers
      invariant forall k | k in headers ::
        exists k0 | k0 in raw.header && k0 !in todo :: ToLower(k0) == k && headers[k] == raw.header[k0]
      decreases todo
    {
      var k0 :| k0 in todo;
      headers := headers[ToLower(k0) := raw.header[k0]];
      todo := todo - {k0};
    }
    result := Ok(HttpResponse(raw, raw.statusCode, raw.body.value, headers));
  }

  /** Every header list an envelope stores is one the transport delivered,
      so it is non-empty whenever the transport's lists are. */
  lemma EnvelopeReadable(resp: HttpResponse, raw: RawResponse, key: string)
    requires EnvelopeOf(resp, raw)
    requires forall k0 | k0 in raw.header :: raw.header[k0] != []
    ensures resp.HeaderReadable(key)
  {
    var k := ToLower(key);
    if k in resp.headers {
      var k0 :| k0 in raw.header && ToLower(k0) == k && resp.headers[k] == raw.header[k0];
    }
  }

  /** With case-distinct keys, each key's list is kept under its lower-cased
      name unchanged. */
  lemma {:induction false} EnvelopeKeepsLists(resp: HttpResponse, raw: RawResponse, k0: string)
    requires EnvelopeOf(resp, raw) && CaseDistinct(raw.header)
    requires k0 in raw.header
    ensures ToLower(k0) in resp.headers && resp.headers[ToLower(k0)] == raw.header[k0]
  {
    var k1 :| k1 in raw.header && ToLower(k1) == ToLower(k0) && resp.headers[ToLower(k0)] == raw.header[k1];
  }

  /** Case-insensitive lookup: any spelling of a header name the transport
      delivered finds that header's first value. */
  lemma {:induction false} GetHeaderAnyCase(resp: HttpResponse, raw: RawResponse, k0: string, key: string)
    requires EnvelopeOf(resp, raw) && CaseDistinct(raw.header)
    requires k0 in raw.header && raw.header[k0] != []
    requires ToLower(key) == ToLower(k0)
    ensures resp.HeaderReadable(key)
    ensures resp.GetHeader(key) == (raw.header[k0][0], true)
    ensures resp.HasHeader(key)
  {
    EnvelopeKeepsLists(resp, raw, k0);
  }

  /** A name no delivered header lower-cases to is absent, in any spelling. */
  lemma {:induction false} GetHeaderAbsent(resp: HttpResponse, raw: RawResponse, key: string)
    requires EnvelopeOf(resp, raw)
    requires forall k0 | k0 in raw.header :: ToLower(k0) != ToLower(key)
    ensures resp.HeaderReadable(key)
    ensures resp.GetHeader(key) == ("", false) && !resp.HasHeader(key)
  {
  }

  /** Two spellings of a name with the same lower case look up alike. */
  lemma GetHeaderCaseInsensitive(resp: HttpResponse, key1: string, key2: string)
    requires ToLower(key1) == ToLower(key2)
    requires resp.HeaderReadable(key1)
    ensures resp.HeaderReadable(key2) && resp.GetHeader(key1) == resp.GetHeader(key2)
    ensures resp.HasHeader(key1) == resp.HasHeader(key2)
  {
  }

  /** Lookup returns the first stored value with `true`, or "" with `false`. */
  lemma GetHeaderFirstValue(resp: HttpResponse, key: string)
    requires resp.HeaderReadable(key)
    ensures var (v, ok) := resp.GetHeader(key);
      && (ok <==> ToLower(key) in resp.headers)
      && (ok ==> v == resp.headers[ToLower(key)][0])
      && (!ok ==> v == "")
  {
  }

  /** At most one status class holds; none holds for 1xx and 3xx codes. */
  lemma StatusClassesExclusive(resp: HttpResponse)
    ensures !(resp.IsSuccess() && resp.IsClientError())
    ensures !(resp.IsSuccess() && resp.IsServerError())
    ensures !(resp.IsClientError() && resp.IsServerError())
    ensures resp.statusCode < 200 || 300 <= resp.statusCode < 400 ==>
      !resp.IsSuccess() && !resp.IsClientError() && !resp.IsServerError()
    ensures resp.IsSuccess() <==> 200 <= resp.statusCode < 300
    ensures resp.IsClientError() <==> 400 <= resp.statusCode < 500
    ensures resp.IsServerError() <==> resp.statusCode >= 500
  {
  }

  /** The JSON test is an exact comparison of the first content-type value. */
  lemma JsonContentTypeExact(resp: HttpResponse)
    requires resp.HeaderReadable("content-type")
    ensures resp.IsJsonResponse() <==>
      var vs := ValuesAt(resp.headers, "content-type"); vs != [] && vs[0] == "application/json"
  {
    LowerCaseUnchanged("content-type");
    var g := resp.GetHeader("content-type");
    assert g.1 <==> "content-type" in resp.headers;
    assert g.1 ==> g.0 == resp.headers["content-type"][0];
    assert resp.IsJsonResponse() <==> g.1 && g.0 == "application/json";
  }

  /** A content type with parameters, such as a charset, is not JSON. */
  lemma CharsetIsNotJson(resp: HttpResponse)
    requires "content-type" in resp.headers && resp.headers["content-type"] != []
    requires resp.headers["content-type"][0] == "application/json; charset=utf-8"
    ensures resp.HeaderReadable("content-type") && !resp.IsJsonResponse()
  {
    LowerCaseUnchanged("content-type");
    var v := resp.headers["content-type"][0];
    assert v != "application/json" by {
      assert |v| != |"application/json"|;
    }
    JsonContentTypeExact(resp);
  }

  /** `ParseJson` refuses exactly the responses that are not JSON and
      otherwise hands back the decoder's result. */
  lemma ParseJsonNeedsJson<T>(resp: HttpResponse, decoded: Result<T>)
    requires resp.HeaderReadable("content-type")
    ensures !resp.IsJsonResponse() ==> resp.ParseJson(decoded) == Err(NotJsonResponse)
    ensures resp.IsJsonResponse() ==> resp.ParseJson(decoded) == decoded
  {
  }

  /** `ParseAs` reports the first failed check in the order nil destination,
      empty body, non-pointer, not JSON, no `UnmarshalJSON`. */
  lemma ParseAsOrder(resp: HttpResponse, dest: Dest, unmarshal: Outcome)
    requires resp.HeaderReadable("content-type")
    ensures dest.Nil? ==> resp.ParseAs(dest, unmarshal) == Fail(DestIsNil)
    ensures !dest.Nil? && |resp.body| == 0 ==> resp.ParseAs(dest, unmarshal) == Fail(BodyIsEmpty)
    ensures !dest.Nil? && |resp.body| > 0 && dest.NonPointer? ==>
      resp.ParseAs(dest, unmarshal) == Fail(DestNotPointer)
    ensures (dest.PtrNoUnmarshaler? || dest.PtrUnmarshaler?) && |resp.body| > 0 && !resp.IsJsonResponse() ==>
      resp.ParseAs(dest, unmarshal) == Fail(NotJsonResponse)
    ensures dest.PtrNoUnmarshaler? && |resp.body| > 0 && resp.IsJsonResponse() ==>
      resp.ParseAs(dest, unmarshal) == Fail(DestNotUnmarshaler)
    ensures dest.PtrUnmarshaler? && |resp.body| > 0 && resp.IsJsonResponse() ==>
      resp.ParseAs(dest, unmarshal) == unmarshal
  {
  }

  /** An empty body is reported whatever the content type, as long as a
      destination is given; the header is not even consulted. */
  lemma EmptyBodyWhateverContentType(resp: HttpResponse, dest: Dest, unmarshal: Outcome)
    requires !dest.Nil? && |resp.body| == 0
    ensures resp.ParseAs(dest, unmarshal) == Fail(BodyIsEmpty)
  {
  }
}
