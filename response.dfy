/**
 * The response envelope handed to success and error observers: status,
 * URL and headers, plus at most one payload (text, decoded data or raw bytes).
 */
module Responses {
  import opened Wrappers

  type Bytes = seq<bv8>
  type Headers = map<string, string>

  /** What the transport reports about one finished exchange. */
  datatype Exchange = Exchange(
    isNetworkError: bool,
    isHttpError: bool,
    responseCode: int,
    url: string,
    /** all response headers, as the transport returns them */
    headers: Headers,
    /** the transport's answer when asked for the `content-type` header */
    contentType: Option<string>,
    /** the body decoded as text; "" also stands for no text at all */
    text: string,
    /** the raw body, if the transport kept one */
    data: Option<Bytes>)

  /** The fields every response variant carries. Built explicitly, it stores
      its four arguments unchanged. */
  datatype Envelope = Envelope(isError: bool, statusCode: int, url: string, headers: Option<Headers>)

  /** `Response`, `ResponseText`, `ResponseData<T>` and, for the raw-bytes
      case `ResponseData<byte[]>`, `ResponseBytes`. The payload is fixed when
      the value is built. */
  datatype Response<+T> =
    | Response(env: Envelope)
    | ResponseText(env: Envelope, text: string)
    | ResponseData(env: Envelope, data: T)
    | ResponseBytes(env: Envelope, bytes: Bytes)
  {
    /** The value stored for `key`; none when there are no headers at all or
        the key is absent. */
    function GetHeaderValue(key: string): (v: Option<string>)
      ensures env.headers.None? ==> v.None?
      ensures env.headers.Some? ==> (v.Some? <==> key in env.headers.value)
      ensures v.Some? ==> key in env.headers.value && v.value == env.headers.value[key]
    {
      match env.headers
      case None => None
      case Some(h) => if key in h then Some(h[key]) else None
    }
  }

  /** The envelope of a response built from the transport: only a network
      failure counts as `IsError`, and headers are kept exactly when there
      was no network failure. */
  function EnvelopeOf(x: Exchange): (e: Envelope)
    ensures e.isError <==> x.isNetworkError
    ensures e.headers.None? <==> x.isNetworkError
    ensures e.headers.Some? ==> e.headers.value == x.headers
    ensures e.statusCode == x.responseCode && e.url == x.url
  {
    Envelope(x.isNetworkError, x.responseCode, x.url,
             if !x.isNetworkError then Some(x.headers) else None)
  }

  /** An HTTP error status (with no network failure) is not an `IsError`
      response, and its headers are readable. */
  lemma HttpErrorIsNotIsError(x: Exchange, key: string)
    requires x.isHttpError && !x.isNetworkError
    ensures !EnvelopeOf(x).isError
    ensures Response<int>.Response(EnvelopeOf(x)).GetHeaderValue(key).Some? <==> key in x.headers
  {
  }

  /** Giving an envelope a different payload keeps every header lookup. */
  lemma RewrapKeepsHeaders<T, U>(r: Response<T>, data: U, key: string)
    ensures ResponseData(r.env, data).GetHeaderValue(key) == r.GetHeaderValue(key)
  {
  }
}
