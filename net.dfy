/// What the client exchanges with Go's standard library and the network:
/// the errors it returns, byte strings, durations, opaque handles, and the
/// shapes of what `url.Parse`, `url.Values.Encode` and one round trip give
/// back. The library routines themselves are parameters of the operations
/// that use them.
module Net {
  import opened Values

  datatype Option<+T> = None | Some(value: T)

  /** A Go `(value, error)` pair where exactly one side is meaningful. */
  datatype Result<+T> = Ok(value: T) | Err(error: Error)

  /** A Go `error` return that is nil on success. */
  datatype Outcome = Pass | Fail(error: Error)

  datatype Error =
    | ConfigIsNil               // NewHttpClient was given no configuration
    | TooManyRedirects          // the redirect budget of one submission is spent
    | NotJsonResponse           // the content type is not exactly application/json
    | DestIsNil                 // ParseAs was given no destination
    | BodyIsEmpty               // ParseAs on a zero-length body
    | DestNotPointer            // ParseAs destination is not a pointer
    | DestNotUnmarshaler        // ParseAs destination lacks UnmarshalJSON
    | UrlError(code: nat)       // a failure reported by url.Parse
    | TransportError(code: nat) // a network, TLS, timeout or cancellation failure
    | ReadError(code: nat)      // reading the response body failed
    | DecodeError(code: nat)    // json.Unmarshal rejected the body

  type Byte = b: int | 0 <= b < 256
  type Bytes = seq<Byte>

  /** `time.Duration`: a count of nanoseconds; zero means no timeout. */
  type Duration = int

  /** Opaque handles to an `http.RoundTripper` and a `context.Context`. */
  datatype RoundTripper = RoundTripper(id: nat)
  datatype Context = Context(id: nat)

  /** The parts of a `*url.URL` the client reads, with `Query()` already decoded. */
  datatype UrlRef = UrlRef(scheme: string, host: string, path: string, query: Values)

  /** `url.Parse`. */
  type Parser = string -> Result<UrlRef>

  /** `url.Values.Encode`. */
  type Encoder = Values -> string

  /** An `*http.Response` as the transport delivers it; `body` is what
      reading the body to its end produced. */
  datatype RawResponse = RawResponse(statusCode: int, header: Values, body: Result<Bytes>)

  /** What the network does with one call: how many redirect responses it
      answers with before the final outcome, and that outcome. */
  datatype Exchange = Exchange(redirects: nat, final: Result<RawResponse>)
}
