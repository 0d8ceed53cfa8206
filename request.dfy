/**
 * One configurable REST request: classification of the response body,
 * query-string and URI composition, the choice of upload, the parameter and
 * header lists, and the dispatch/completion of one exchange.
 */
module Requests {
  import opened Wrappers
  import opened Strings
  import opened BodyTypes
  import opened Responses

  datatype HttpMethod = GET | POST | PUT | CREATE | DELETE | HEAD

  /** `Method.ToString()`: the verb put on the wire. */
  function MethodName(m: HttpMethod): string {
    match m
    case GET => "GET"
    case POST => "POST"
    case PUT => "PUT"
    case CREATE => "CREATE"
    case DELETE => "DELETE"
    case HEAD => "HEAD"
  }

  datatype KeyValue = KeyValue(key: string, value: string)

  /** Platform services the request calls but does not define:
      `UnityWebRequest.EscapeURL` and "`Uri.TryCreate` gives an absolute URI". */
  datatype Platform = Platform(escapeUrl: string -> string, isAbsoluteUri: string -> bool)

  /** What classifying a body as `T` needs to know about `T`: whether `T` is
      `string`, and the JSON and XML decoders, which yield a default value
      when the text does not decode. */
  datatype Codec<T> = Codec(isString: bool, parseJson: string -> T, parseXml: string -> T)

  // ---------------------------------------------------------------------
  // Response classification

  /** The heuristic for JSON sent under another media type: the untrimmed
      text starts with `{` and ends with `}`, or starts with `[` and ends with `]`. */
  predicate LooksLikeJson(text: string): (ok: bool)
    ensures ok ==> |text| >= 2 && (text[0] == '{' || text[0] == '[')
  {
    |text| > 0 &&
    ((text[0] == '{' && text[|text| - 1] == '}') || (text[0] == '[' && text[|text| - 1] == ']'))
  }

  /** The two media types decoded as XML (compared exactly, case included). */
  predicate IsXmlMedia(media: string) {
    media == XmlMime || media == XmlTextMime
  }

  /** Whether a non-empty body under `media` is decoded rather than kept as text. */
  predicate Decodes(media: string, text: string, autoDetect: bool) {
    media == JsonMime || IsXmlMedia(media) || (autoDetect && LooksLikeJson(text))
  }

  /** Classification reads the `content-type` header only for a non-string
      type and a non-empty body, and then the header must be there. */
  predicate CanClassify<T>(x: Exchange, codec: Codec<T>) {
    codec.isString || x.text == "" || x.contentType.Some?
  }

  /** The media type: the header up to its first `;`. */
  function MediaTypeOf(x: Exchange): string
    requires x.contentType.Some?
  {
    UpTo(x.contentType.value, ';')
  }

  /** `ParseResponse<T>`: exactly one variant, chosen by whether `T` is a
      string, whether there is text, the media type and the auto-detect
      heuristic; the envelope is always the transport's, whatever the body. */
  function ParseResponse<T>(x: Exchange, codec: Codec<T>, autoDetect: bool): (r: Response<T>)
    requires CanClassify(x, codec)
    ensures r.env == EnvelopeOf(x)
    ensures r.Response? <==> x.text == "" && (codec.isString || x.data.None?)
    ensures r.ResponseText? <==>
      x.text != "" && (codec.isString || !Decodes(MediaTypeOf(x), x.text, autoDetect))
    ensures r.ResponseText? ==> r.text == x.text
    ensures r.ResponseBytes? <==> !codec.isString && x.text == "" && x.data.Some?
    ensures r.ResponseBytes? ==> x.data == Some(r.bytes)
    ensures r.ResponseData? <==>
      !codec.isString && x.text != "" && Decodes(MediaTypeOf(x), x.text, autoDetect)
    ensures r.ResponseData? ==>
      r.data == if IsXmlMedia(MediaTypeOf(x)) then codec.parseXml(x.text) else codec.parseJson(x.text)
  {
    var env := EnvelopeOf(x);
    if codec.isString then
      if x.text == "" then Response(env) else ResponseText(env, x.text)
    else if x.text != "" then
      var media := MediaTypeOf(x);
      if media == JsonMime then ResponseData(env, codec.parseJson(x.text))
      else if IsXmlMedia(media) then ResponseData(env, codec.parseXml(x.text))
      else if autoDetect && LooksLikeJson(x.text) then ResponseData(env, codec.parseJson(x.text))
      else ResponseText(env, x.text)
    else if x.data.Some? then ResponseBytes(env, x.data.value)
    else Response(env)
  }

  /** A `charset` (or any other) parameter after the media type does not stop
      a JSON body from being decoded. */
  lemma JsonWithCharsetIsDecoded<T>(x: Exchange, codec: Codec<T>, autoDetect: bool)
    requires !codec.isString && x.text != ""
    requires x.contentType == Some("application/json; charset=utf-8")
    ensures ParseResponse(x, codec, autoDetect) == ResponseData(EnvelopeOf(x), codec.parseJson(x.text))
  {
    UpToFirst(x.contentType.value, ';', 16);
  }

  /** The media type is compared case-sensitively: an upper-case JSON media
      type with auto-detection off leaves the body as text. */
  lemma MediaTypeIsCaseSensitive<T>(x: Exchange, codec: Codec<T>)
    requires !codec.isString && x.text != ""
    requires x.contentType == Some("Application/JSON")
    ensures ParseResponse(x, codec, false) == ResponseText(EnvelopeOf(x), x.text)
  {
    CapitalisedJsonIsNotDecoded(x.text);
    assert !Decodes(MediaTypeOf(x), x.text, false);
  }

  lemma CapitalisedJsonIsNotDecoded(text: string)
    ensures UpTo("Application/JSON", ';') == "Application/JSON"
    ensures !Decodes("Application/JSON", text, false)
  {
    assert ';' !in "Application/JSON";
    UpToAbsent("Application/JSON", ';');
    assert "Application/JSON"[0] == 'A';
  }

  /** A response announced with the MIME type of the `JSON` preset is
      decoded as JSON, whatever the body looks like. */
  lemma JsonPresetIsDecoded<T>(x: Exchange, codec: Codec<T>, autoDetect: bool)
    requires !codec.isString && x.text != ""
    requires x.contentType == Some(GetMimeType(JSON))
    ensures ParseResponse(x, codec, autoDetect) == ResponseData(EnvelopeOf(x), codec.parseJson(x.text))
  {
    assert GetMimeType(JSON) == JsonMime;
    JsonMediaType();
    assert MediaTypeOf(x) == JsonMime;
  }

  /** A response announced with the MIME type of the `XML` preset is
      decoded as XML. */
  lemma XmlPresetIsDecoded<T>(x: Exchange, codec: Codec<T>, autoDetect: bool)
    requires !codec.isString && x.text != ""
    requires x.contentType == Some(GetMimeType(XML))
    ensures ParseResponse(x, codec, autoDetect) == ResponseData(EnvelopeOf(x), codec.parseXml(x.text))
  {
    assert GetMimeType(XML) == XmlMime;
    XmlMediaType();
    assert MediaTypeOf(x) == XmlMime && IsXmlMedia(XmlMime);
  }

  lemma JsonMediaType()
    ensures UpTo(JsonMime, ';') == JsonMime
  {
    assert ';' !in JsonMime;
    UpToAbsent(JsonMime, ';');
  }

  lemma XmlMediaType()
    ensures UpTo(XmlMime, ';') == XmlMime && XmlMime != JsonMime
  {
    assert ';' !in XmlMime;
    UpToAbsent(XmlMime, ';');
    assert |XmlMime| != |JsonMime|;
  }

  // ---------------------------------------------------------------------
  // Query string

  /** One escaped `key=value` pair. */
  function Pair(kv: KeyValue, escape: string -> string): string {
    escape(kv.key) + "=" + escape(kv.value)
  }

  /** Every pair followed by `&`: the builder's content before its last
      character is removed. */
  function Terminated(kvs: seq<KeyValue>, escape: string -> string): string {
    if kvs == [] then ""
    else Terminated(kvs[..|kvs| - 1], escape) + Pair(kvs[|kvs| - 1], escape) + "&"
  }

  /** The pairs, in list order, separated by `&`. */
  function Joined(kvs: seq<KeyValue>, escape: string -> string): string {
    if |kvs| == 0 then ""
    else if |kvs| == 1 then Pair(kvs[0], escape)
    else Joined(kvs[..|kvs| - 1], escape) + "&" + Pair(kvs[|kvs| - 1], escape)
  }

  lemma {:induction false} TerminatedIsJoinedThenAmp(kvs: seq<KeyValue>, escape: string -> string)
    requires |kvs| > 0
    ensures Terminated(kvs, escape) == Joined(kvs, escape) + "&"
  {
    if |kvs| > 1 {
      TerminatedIsJoinedThenAmp(kvs[..|kvs| - 1], escape);
    } else {
      assert kvs[..0] == [];
    }
  }

  /** The query string: empty for a missing or empty list, otherwise `?`
      followed by the escaped pairs joined by `&`, with no trailing `&`. */
  function QueryString(keyValues: Option<seq<KeyValue>>, escape: string -> string): (q: string)
    ensures q == "" <==> keyValues.None? || keyValues.value == []
    ensures q != "" ==> q == "?" + Joined(keyValues.value, escape)
  {
    if keyValues.None? || keyValues.value == [] then "" else "?" + Joined(keyValues.value, escape)
  }

  /** `ParamsToQueryString`: appends `key=value&` per pair after a `?`, then
      removes the last character. */
  method ParamsToQueryString(keyValues: Option<seq<KeyValue>>, escape: string -> string) returns (q: string)
    ensures q == QueryString(keyValues, escape)
  {
    if keyValues.None? {
      return "";
    }
    var kvs := keyValues.value;
    var sb := "?";
    var i := 0;
    while i < |kvs|
      invariant 0 <= i <= |kvs|
      invariant sb == "?" + Terminated(kvs[..i], escape)
    {
      sb := sb + (escape(kvs[i].key) + "=" + escape(kvs[i].value) + "&");
      assert kvs[..i + 1][..i] == kvs[..i];
      i := i + 1;
    }
    assert kvs[..i] == kvs;
    if |kvs| > 0 {
      TerminatedIsJoinedThenAmp(kvs, escape);
    }
    q := sb[..|sb| - 1];
  }

  /** The escaped pairs of a list, in order. */
  function Pairs(kvs: seq<KeyValue>, escape: string -> string): (ps: seq<string>)
    ensures |ps| == |kvs|
  {
    if kvs == [] then [] else Pairs(kvs[..|kvs| - 1], escape) + [Pair(kvs[|kvs| - 1], escape)]
  }

  /** When escaping never yields `&`, splitting the query string (after its
      `?`) at `&` gives back the escaped pairs in list order. */
  lemma {:induction false} QueryStringSplits(kvs: seq<KeyValue>, escape: string -> string)
    requires |kvs| > 0
    requires forall s: string :: '&' !in escape(s)
    ensures Split(QueryString(Some(kvs), escape)[1..], '&') == Pairs(kvs, escape)
  {
    var last := Pair(kvs[|kvs| - 1], escape);
    assert '&' !in last by {
      assert '&' !in escape(kvs[|kvs| - 1].key) && '&' !in escape(kvs[|kvs| - 1].value);
    }
    SplitNone(last, '&');
    if |kvs| == 1 {
      assert Pairs(kvs, escape) == Pairs([], escape) + [last];
    } else {
      var init := kvs[..|kvs| - 1];
      QueryStringSplits(init, escape);
      SplitAround(Joined(init, escape), '&', last);
    }
  }

  // ---------------------------------------------------------------------
  // URI composition

  /** The address composed from the api, the endpoint and the query string:
      an endpoint starting with `http` ignores the api; otherwise an api with
      a `?` after its first character is used alone; otherwise the api, `/`,
      the endpoint and the query string. */
  function UriString(api: string, endpoint: string, query: string): (s: string)
    ensures "http" <= endpoint ==> s == endpoint + query
    ensures !("http" <= endpoint) && '?' in api && api[0] != '?' ==> s == api
    ensures !("http" <= endpoint) && ('?' !in api || api[0] == '?') ==> s == api + "/" + endpoint + query
  {
    if "http" <= endpoint then endpoint + query
    else if IndexOf(api, '?') > 0 then api
    else api + "/" + endpoint + query
  }

  /** `CreateUri`: the composed address when the platform accepts it as an
      absolute URI, and none otherwise. */
  function CreateUri(platform: Platform, api: string, endpoint: string, query: string): (uri: Option<string>)
    ensures uri.Some? <==> platform.isAbsoluteUri(UriString(api, endpoint, query))
    ensures uri.Some? ==> uri.value == UriString(api, endpoint, query)
  {
    var s := UriString(api, endpoint, query);
    if platform.isAbsoluteUri(s) then Some(s) else None
  }

  /** An absolute endpoint with one parameter `a=1` targets the endpoint
      with `?a=1` appended, whatever the api. */
  lemma AbsoluteEndpointWithQuery(api: string, escape: string -> string)
    requires escape("a") == "a" && escape("1") == "1"
    ensures UriString(api, "http://example.com/foo", QueryString(Some([KeyValue("a", "1")]), escape))
            == "http://example.com/foo?a=1"
  {
  }

  // ---------------------------------------------------------------------
  // Upload

  /** What is attached as the body of the outgoing request. */
  datatype Upload = NoUpload | UploadText(text: string) | UploadFile(path: string) | UploadRaw(bytes: Bytes)

  /** `SetUploadHandler`: GET and HEAD upload nothing; the configured body
      only when there are neither bytes nor a file path; otherwise a file
      path wins over bytes. */
  function UploadFor(verb: HttpMethod, body: string, data: Option<Bytes>, filePath: string): (u: Upload)
    ensures verb == GET || verb == HEAD ==> u == NoUpload
    ensures u.UploadText? <==> verb != GET && verb != HEAD && body != "" && data.None? && filePath == ""
    ensures u.UploadFile? <==> verb != GET && verb != HEAD && filePath != ""
    ensures u.UploadRaw? <==> verb != GET && verb != HEAD && filePath == "" && data.Some?
    ensures u.UploadText? ==> u.text == body
    ensures u.UploadFile? ==> u.path == filePath
    ensures u.UploadRaw? ==> data == Some(u.bytes)
  {
    if verb == GET || verb == HEAD then NoUpload
    else if body != "" && data.None? && filePath == "" then UploadText(body)
    else if filePath != "" then UploadFile(filePath)
    else if data.Some? then UploadRaw(data.value)
    else NoUpload
  }

  // ---------------------------------------------------------------------
  // Parameter and header lists

  /** `FindIndex(kv => kv.Key == key)`: the first entry with that key, or -1. */
  function FindKey(kvs: seq<KeyValue>, key: string): (i: int)
    ensures -1 <= i < |kvs|
    ensures i == -1 <==> forall j :: 0 <= j < |kvs| ==> kvs[j].key != key
    ensures 0 <= i ==> kvs[i].key == key && forall j :: 0 <= j < i ==> kvs[j].key != key
  {
    if |kvs| == 0 then -1
    else if kvs[0].key == key then 0
    else
      var j := FindKey(kvs[1..], key);
      if j < 0 then -1 else j + 1
  }

  /** No key occurs twice. */
  predicate UniqueKeys(kvs: seq<KeyValue>) {
    forall i, j :: 0 <= i < j < |kvs| ==> kvs[i].key != kvs[j].key
  }

  /** The parameter list after `AddQueryParam(key, value)`: the first entry
      with the key is replaced in place, or the pair is appended. */
  function WithParam(kvs: seq<KeyValue>, key: string, value: string): (r: seq<KeyValue>)
    ensures FindKey(kvs, key) < 0 ==> r == kvs + [KeyValue(key, value)]
    ensures 0 <= FindKey(kvs, key) ==> |r| == |kvs| && r[FindKey(kvs, key)] == KeyValue(key, value)
    ensures forall j :: 0 <= j < |kvs| && j != FindKey(kvs, key) ==> r[j] == kvs[j]
  {
    var i := FindKey(kvs, key);
    if i < 0 then kvs + [KeyValue(key, value)] else kvs[i := KeyValue(key, value)]
  }

  /** Adding a parameter keeps keys unique. */
  lemma WithParamKeepsKeysUnique(kvs: seq<KeyValue>, key: string, value: string)
    requires UniqueKeys(kvs)
    ensures UniqueKeys(WithParam(kvs, key, value))
  {
  }

  /** Adding the same parameter twice is adding it once. */
  lemma WithParamIdempotent(kvs: seq<KeyValue>, key: string, value: string)
    ensures WithParam(WithParam(kvs, key, value), key, value) == WithParam(kvs, key, value)
  {
    var r := WithParam(kvs, key, value);
    var k := FindKey(kvs, key);
    if k < 0 {
      assert r[|kvs|].key == key;
      assert forall j :: 0 <= j < |kvs| ==> r[j] == kvs[j];
      assert FindKey(r, key) == |kvs|;
    } else {
      assert FindKey(r, key) == k;
    }
  }

  /** The header list after `AddHeader(key, value)`: the pair is appended when
      it is not in the list; otherwise the first entry with that key is
      overwritten with the pair. */
  function WithHeader(kvs: seq<KeyValue>, key: string, value: string): (r: seq<KeyValue>)
    ensures KeyValue(key, value) in r
    ensures KeyValue(key, value) !in kvs ==> r == kvs + [KeyValue(key, value)]
    ensures KeyValue(key, value) in kvs ==>
      |r| == |kvs| && r[FindKey(kvs, key)] == KeyValue(key, value) &&
      forall j :: 0 <= j < |kvs| && j != FindKey(kvs, key) ==> r[j] == kvs[j]
  {
    var item := KeyValue(key, value);
    if item !in kvs then kvs + [item]
    else
      var j :| 0 <= j < |kvs| && kvs[j] == item;
      assert kvs[j].key == key;
      var i := FindKey(kvs, key);
      assert kvs[i := item][i] == item;
      kvs[i := item]
  }

  /** Unlike parameters, headers can end up with a key twice, and adding the
      same header a second time can overwrite a different earlier value. */
  lemma WithHeaderDuplicatesKey()
    ensures WithHeader([KeyValue("k", "a")], "k", "b") == [KeyValue("k", "a"), KeyValue("k", "b")]
    ensures WithHeader(WithHeader([KeyValue("k", "a")], "k", "b"), "k", "b")
            == [KeyValue("k", "b"), KeyValue("k", "b")]
  {
  }

  /** Whether some configured header key is `content-type`, ignoring case. */
  predicate DeclaresContentType(headers: seq<KeyValue>) {
    exists i :: 0 <= i < |headers| && EqualsIgnoreCase(headers[i].key, "content-type")
  }

  /** `AddContentTypeHeader`: the preset's MIME type is set as `Content-Type`
      only when no configured header already names a content type. */
  function WithContentType(sent: seq<KeyValue>, configured: seq<KeyValue>, preset: BodyTypePresets): (r: seq<KeyValue>)
    ensures !DeclaresContentType(configured) ==> r == sent + [KeyValue("Content-Type", GetMimeType(preset))]
    ensures DeclaresContentType(configured) ==> r == sent
  {
    if DeclaresContentType(configured) then sent
    else sent + [KeyValue("Content-Type", GetMimeType(preset))]
  }

  /** A configured `Content-Type` header, in any letter case, suppresses the preset. */
  lemma ConfiguredContentTypeWins(sent: seq<KeyValue>, value: string, preset: BodyTypePresets)
    ensures WithContentType(sent, [KeyValue("Content-Type", value)], preset) == sent
  {
    assert EqualsIgnoreCase([KeyValue("Content-Type", value)][0].key, "content-type");
  }

  /** `SetRequestHeaders`: each configured header is set on the outgoing
      request, in list order. */
  method SetRequestHeaders(sentSoFar: seq<KeyValue>, keyValues: seq<KeyValue>) returns (sent: seq<KeyValue>)
    ensures sent == sentSoFar + keyValues
  {
    sent := sentSoFar;
    var i := 0;
    while i < |keyValues|
      invariant 0 <= i <= |keyValues|
      invariant sent == sentSoFar + keyValues[..i]
    {
      sent := sent + [keyValues[i]];
      assert keyValues[..i + 1] == keyValues[..i] + [keyValues[i]];
      i := i + 1;
    }
    assert keyValues[..i] == keyValues;
  }

  // ---------------------------------------------------------------------
  // The request object

  /** The request handed to the transport. `headers` lists the headers set
      on it, in the order they were set. */
  datatype Outgoing = Outgoing(verb: string, url: string, timeout: int, headers: seq<KeyValue>, upload: Upload)

  /** A request whose failures are reported as `Response<E>` and whose
      successes as `Response<S>`. Parsing of successes is left to the owner,
      which overrides the success path. */
  class Request<E, S> {
    var URLEndpoint: string
    var Method: HttpMethod
    var Params: seq<KeyValue>
    var Headers: seq<KeyValue>
    var ContentType: BodyTypePresets
    var Body: string
    var AutoDetect: bool
    /** per-attempt timeout in seconds; 0 means none */
    var Timeout: int
    const platform: Platform
    const errorCodec: Codec<E>

    /** the URI of the last attempt, none when it was not absolute */
    var Uri: Option<string>
    /** an exchange is in flight */
    var sending: bool
    /** every request handed to the transport, oldest first */
    var sent: seq<Outgoing>
    /** the responses passed to the success and error observers, oldest first */
    var successEvents: seq<Response<S>>
    var errorEvents: seq<Response<E>>

    constructor (platform: Platform, errorCodec: Codec<E>)
      ensures URLEndpoint == "" && Method == GET && Params == [] && Headers == []
      ensures ContentType == JSON && Body == "" && AutoDetect && Timeout == 0
      ensures Uri.None? && !sending && sent == [] && successEvents == [] && errorEvents == []
    {
      this.platform := platform;
      this.errorCodec := errorCodec;
      URLEndpoint, Method, Params, Headers := "", GET, [], [];
      ContentType, Body, AutoDetect, Timeout := JSON, "", true, 0;
      Uri, sending, sent, successEvents, errorEvents := None, false, [], [], [];
    }

    /** The outgoing request before the owner's `CustomRequest` hook runs:
        the configured verb and timeout, the configured headers, the upload,
        and the default content type. */
    function Prepare(url: string, data: Option<Bytes>, filePath: string): (o: Outgoing)
      reads this
      ensures o.verb == MethodName(Method) && o.timeout == Timeout
      ensures o.url == url && o.upload == UploadFor(Method, Body, data, filePath)
      ensures o.headers == WithContentType(Headers, Headers, ContentType)
    {
      Outgoing(MethodName(Method), url, Timeout, WithContentType(Headers, Headers, ContentType),
               UploadFor(Method, Body, data, filePath))
    }

    method AddQueryParam(key: string, value: string)
      modifies this`Params
      ensures Params == WithParam(old(Params), key, value)
    {
      var item := KeyValue(key, value);
      var index := FindKey(Params, key);
      if index < 0 {
        Params := Params + [item];
      } else {
        Params := Params[index := item];
      }
    }

    method AddHeader(key: string, value: string)
      modifies this`Headers
      ensures Headers == WithHeader(old(Headers), key, value)
    {
      var item := KeyValue(key, value);
      if item !in Headers {
        Headers := Headers + [item];
      } else {
        Headers := Headers[FindKey(Headers, key) := item];
      }
    }

    /** The part of `SendRequest` before the exchange: compose the URI with
        the owner's `api`; when it is not absolute, stop without marking the
        request as sending and without handing anything to the transport;
        otherwise mark it as sending and hand over the prepared request as
        changed by the owner's `customRequest`. */
    method SendRequest(api: string, data: Option<Bytes>, filePath: string, customRequest: Outgoing -> Outgoing)
      returns (started: bool)
      modifies this`Uri, this`sending, this`sent
      ensures Uri == CreateUri(platform, api, URLEndpoint, QueryString(Some(Params), platform.escapeUrl))
      ensures started <==> Uri.Some?
      ensures started ==> sending && sent == old(sent) + [customRequest(Prepare(Uri.value, data, filePath))]
      ensures !started ==> sending == old(sending) && sent == old(sent)
    {
      var query := ParamsToQueryString(Some(Params), platform.escapeUrl);
      Uri := CreateUri(platform, api, URLEndpoint, query);
      if Uri.None? {
        return false;
      }
      sending := true;
      var headers := SetRequestHeaders([], Headers);
      assert headers == Headers;
      var www := Outgoing(MethodName(Method), Uri.value, Timeout, headers, UploadFor(Method, Body, data, filePath));
      www := www.(headers := WithContentType(www.headers, Headers, ContentType));
      sent := sent + [customRequest(www)];
      started := true;
    }

    /** The part of `SendRequest` after the exchange: the request is no
        longer sending, and a network or HTTP error takes the error path. */
    method Complete(x: Exchange) returns (failed: bool)
      modifies this`sending
      ensures !sending
      ensures failed <==> x.isNetworkError || x.isHttpError
    {
      sending := false;
      failed := x.isNetworkError || x.isHttpError;
    }

    /** `ErrorHandler` then `OnError`: the body is classified as `E` and
        passed to the error observers. */
    method ErrorHandler(x: Exchange)
      requires CanClassify(x, errorCodec)
      modifies this`errorEvents
      ensures errorEvents == old(errorEvents) + [ParseResponse(x, errorCodec, AutoDetect)]
    {
      var response := ParseResponse(x, errorCodec, AutoDetect);
      errorEvents := errorEvents + [response];
    }

    method FireResponseSuccess(response: Response<S>)
      modifies this`successEvents
      ensures successEvents == old(successEvents) + [response]
    {
      successEvents := successEvents + [response];
    }
  }
}
