# Unity REST request core, in Dafny

This project models the request and response machinery of a Unity REST
client, and the two layers built on it:

- **Request**: classifies a finished exchange into one response variant
  (empty, text, decoded data, raw bytes). It also builds the query string,
  composes the URI, chooses the upload, keeps parameter and header lists,
  and routes an exchange to its error or success path.
- **RetryableRequest**: a retry scheduler. It keeps the last payload and
  re-sends it after `Timeout + RetryAfter` of idle time, until a response
  is validated.
- **AzureFunction**: composes the host and route of an HTTP-triggered
  function and sends the function key as a `code` header.
- **DurableFunction**: a submit-then-poll protocol. A POST returns an
  instance id; GETs to a status endpoint follow until the instance's
  runtime status is `Completed`. Its output array is then passed on,
  wrapped with the envelope of that last response.
- **Response** and **BodyTypes**: the response envelope with its header
  lookup, and the preset-to-MIME mapping.

Each source file has its own module:

- `wrappers.dfy`: `Option`.
- `strings.dfy`: the .NET string operations the code relies on.
- `body_types.dfy`, `response.dfy`, `request.dfy`, `retryable_request.dfy`,
  `azure_function.dfy` and `durable_function.dfy`: one module each.

## How the model is built

Inheritance becomes composition:

- `DurableFunction` holds a `RetryableRequest`, which holds a `Request`.
- The virtual hooks are passed to `Request.SendRequest` as values. `api`
  is the result of `ConfigureApi`. `customRequest` is the `CustomRequest`
  hook, a function on the outgoing request.
- `RetryableRequest.Update` reports whether a retry is due. The owning
  class then runs its own `AsyncSend`, as the virtual `Retry` does.

The `SendRequest` coroutine is split at its `yield`:

- `SendRequest` covers the part before the exchange: URI, `sending`, and
  the request handed to the transport.
- `Complete` covers the part after it. The `Receive` methods add the error
  or success handling.

State changes are stated against pure functions of the state:

- `Retry.Tick`, `Retry.Dispatch`, `Retry.Succeed` and `Retry.Step`/`Run`
  for the scheduler.
- `Durable.Reset`, `Durable.CacheHost`, `Durable.SendState` and
  `Durable.Accept` for the durable phases.

The trace lemmas are proved about these functions.

Collaborators the core cannot see are parameters:

- A `Platform` holds `EscapeURL` and the absolute-URI test of
  `Uri.TryCreate`.
- A `Codec<T>` says whether `T` is `string` and holds the JSON and XML
  decoders, which return a default value on failure.
- An `Exchange` is the transport's report of one exchange.
- The observers are append-only logs: `successEvents` and `errorEvents`.

Time is counted in milliseconds.

Some behaviours of the code are easy to get wrong, and the model states
them as the code has them:

- The JSON auto-detect heuristic looks at the untrimmed body.
- Upload precedence is: the configured body, only when there are neither
  bytes nor a file; then a file; then bytes.
- `AsyncSend` does not reset the retry timer.
- A repeated valid success fires the observers again
  (`Durable.RepeatedCompletionFiresAgain`, `Retry.RetryableRequest.OnSuccess`).
- Media types are compared case-sensitively
  (`Requests.MediaTypeIsCaseSensitive`).

Two behaviours of the code are stated as lemmas:

- `AddHeader` can leave a key twice in the list
  (`Requests.WithHeaderDuplicatesKey`).
- An absolute `URLEndpoint` also redirects every durable poll to that
  endpoint (`Durable.AbsoluteEndpointOverridesPolling`).

## Model

| member | source | states |
|---|---|---|
| Strings.IndexOf | Assets/UnityRESTRequest/Request.cs:193 | the result is -1 exactly when the character is absent; otherwise it is a position holding the character with no earlier occurrence |
| Strings.UpTo | Assets/UnityRESTRequest/Request.cs:256 | the first piece of a split is a prefix free of the separator, and the separator follows it unless the piece is the whole text |
| Strings.UpToFirst | Assets/UnityRESTRequest/Request.cs:256 | the first piece is exactly the text before the first separator |
| Strings.Split | Assets/UnityRESTRequest/Request.cs:256 | a split always has at least one piece |
| Strings.SplitPiecesAreSeparatorFree | Assets/UnityRESTRequest/Request.cs:256 | no piece of a split contains the separator |
| Strings.UpToIsFirstPiece | Assets/UnityRESTRequest/Request.cs:256 | the text before the first separator is the first piece of the split |
| Strings.TrimStart | Assets/AzureFunctions/AzureFunction.cs:30 | the result is a suffix that does not start with white space, and every character dropped is white space |
| Strings.TrimEnd | Assets/AzureFunctions/AzureFunction.cs:30 | the result is a prefix that does not end with white space, and every character dropped is white space |
| Strings.Trim | Assets/AzureFunctions/AzureFunction.cs:30 | the result is the text after its leading white space cut before its trailing white space: a prefix of `TrimStart`'s result followed there only by white space; neither end is white space, and it is empty exactly when the text is all white space |
| Strings.TrimIdempotent | Assets/AzureFunctions/AzureFunction.cs:30 | trimming twice gives the same as trimming once |
| BodyTypes.GetMimeType | Assets/UnityRESTRequest/Helpers/BodyTypes.cs:28-43 | `Text` gives `text/plain`, `JSON` `application/json`, `XML` `application/xml` and `HTML` `text/html`; `application/octet-stream` exactly for `RawData`; never `text/xml` |
| BodyTypes.GetMimeTypeInjective | Assets/UnityRESTRequest/Helpers/BodyTypes.cs:28-43 | distinct presets get distinct MIME types |
| BodyTypes.MimeFamilies | Assets/UnityRESTRequest/Helpers/BodyTypes.cs:21-43 | `Text` and `HTML` map to `text/` types, the other presets to `application/` types, and only they do |
| Responses.Response.GetHeaderValue | Assets/UnityRESTRequest/Event/Response.cs:32-41 | no value without headers; with headers, a value exactly for a present key, and it is the stored one |
| Responses.EnvelopeOf | Assets/UnityRESTRequest/Event/Response.cs:16-22 | `IsError` and missing headers both hold exactly on a network error; status, URL and headers are the transport's |
| Responses.HttpErrorIsNotIsError | Assets/UnityRESTRequest/Event/Response.cs:16-22 | an HTTP error status without a network failure is not `IsError`, and its headers stay readable |
| Responses.RewrapKeepsHeaders | Assets/UnityRESTRequest/Event/Response.cs:24-30 | rebuilding a response from its envelope with another payload keeps every header lookup |
| Requests.ParseResponse | Assets/UnityRESTRequest/Request.cs:244-294 | each variant, with the exact condition under which it is chosen (string type, empty text, bytes, media type, auto-detect); the envelope is always the transport's, text and bytes are kept, and data is the XML decode for the XML media types and the JSON decode otherwise |
| Requests.LooksLikeJson | Assets/UnityRESTRequest/Request.cs:269-272 | a body taken for JSON has at least two characters and starts with `{` or `[` |
| Requests.JsonPresetIsDecoded | Assets/UnityRESTRequest/Request.cs:255-261 | a body announced with the `JSON` preset's MIME type is JSON-decoded |
| Requests.XmlPresetIsDecoded | Assets/UnityRESTRequest/Request.cs:255-265 | a body announced with the `XML` preset's MIME type is XML-decoded |
| Requests.JsonWithCharsetIsDecoded | Assets/UnityRESTRequest/Request.cs:255-261 | `application/json; charset=utf-8` is JSON-decoded |
| Requests.MediaTypeIsCaseSensitive | Assets/UnityRESTRequest/Request.cs:255-280 | `Application/JSON` with auto-detection off is kept as text |
| Requests.TerminatedIsJoinedThenAmp | Assets/UnityRESTRequest/Request.cs:302-307 | appending every pair followed by `&` gives the `&`-joined pairs plus one trailing `&` |
| Requests.QueryString | Assets/UnityRESTRequest/Request.cs:296-309 | empty exactly for a missing or empty list; otherwise `?` followed by the joined pairs |
| Requests.ParamsToQueryString | Assets/UnityRESTRequest/Request.cs:296-309 | the builder loop, after dropping its last character, yields the query string |
| Requests.QueryStringSplits | Assets/UnityRESTRequest/Request.cs:296-309 | when escaping never produces `&`, splitting the query at `&` gives back the escaped pairs in list order |
| Requests.UriString | Assets/UnityRESTRequest/Request.cs:180-196 | an endpoint starting with `http` takes the query and ignores the api; otherwise an api with `?` after its first character is used alone; otherwise the api, `/`, the endpoint and the query |
| Requests.CreateUri | Assets/UnityRESTRequest/Request.cs:180-196 | a URI exists exactly when the composed text is absolute, and it is that text |
| Requests.AbsoluteEndpointWithQuery | Assets/UnityRESTRequest/Request.cs:187-191 | `http://example.com/foo` with parameter `a=1` targets `http://example.com/foo?a=1` whatever the api |
| Requests.UploadFor | Assets/UnityRESTRequest/Request.cs:311-348 | GET and HEAD upload nothing; the body text only when there are no bytes and no file; a file over bytes; each upload carries its source |
| Requests.FindKey | Assets/UnityRESTRequest/Request.cs:365 | -1 exactly when no entry has the key; otherwise the first entry with it |
| Requests.WithParam | Assets/UnityRESTRequest/Request.cs:362-374 | append when the key is new; otherwise replace the first entry with the key in place, with the length and every other entry unchanged |
| Requests.WithParamKeepsKeysUnique | Assets/UnityRESTRequest/Request.cs:362-374 | a parameter list with unique keys keeps them unique |
| Requests.WithParamIdempotent | Assets/UnityRESTRequest/Request.cs:362-374 | adding the same parameter twice is adding it once |
| Requests.WithHeader | Assets/UnityRESTRequest/Request.cs:376-387 | the pair is afterwards in the list; it is appended when the exact pair was absent, otherwise written over the first entry with its key |
| Requests.WithHeaderDuplicatesKey | Assets/UnityRESTRequest/Request.cs:376-387 | a key can appear twice, and re-adding a pair overwrites an earlier different value |
| Requests.WithContentType | Assets/UnityRESTRequest/Request.cs:389-395 | the preset's `Content-Type` is added exactly when no configured header key is `content-type` in any case |
| Requests.ConfiguredContentTypeWins | Assets/UnityRESTRequest/Request.cs:389-395 | a configured `Content-Type` header suppresses the preset |
| Requests.SetRequestHeaders | Assets/UnityRESTRequest/Request.cs:350-360 | every configured header is set, in list order |
| Requests.Request.constructor | Assets/UnityRESTRequest/Request.cs:61-123 | the field defaults: empty endpoint, GET, JSON, auto-detect on, no timeout, nothing sent |
| Requests.Request.Prepare | Assets/UnityRESTRequest/Request.cs:207-214 | the outgoing request carries the configured method's name as verb, the configured timeout, the URI, the chosen upload and the headers with the default content type |
| Requests.Request.AddQueryParam | Assets/UnityRESTRequest/Request.cs:362-374 | the parameter list becomes `WithParam` of the old one |
| Requests.Request.AddHeader | Assets/UnityRESTRequest/Request.cs:376-387 | the header list becomes `WithHeader` of the old one |
| Requests.Request.SendRequest | Assets/UnityRESTRequest/Request.cs:198-215 | a non-absolute URI stops before `sending` is set and sends nothing; otherwise the request is marked sending and exactly one request, as changed by the hook, is handed over |
| Requests.Request.Complete | Assets/UnityRESTRequest/Request.cs:217-228 | `sending` is false afterwards, and the error path is taken exactly on a network or HTTP error |
| Requests.Request.ErrorHandler | Assets/UnityRESTRequest/Request.cs:232-236 | the error observers get the body classified as `E` |
| Requests.Request.FireResponseSuccess | Assets/UnityRESTRequest/Request.cs:406-412 | the success observers get the response |
| Retry.Tick | Assets/UnityRESTRequest/RetryableRequest.cs:24-36 | a tick changes only the timer; a retry is due exactly when the request is pending, idle and past the limit, and then the timer restarts at zero |
| Retry.Dispatch | Assets/UnityRESTRequest/RetryableRequest.cs:43-51 | a send keeps its payload, forgets success, leaves the timer alone, and is in flight when its URI was absolute |
| Retry.Succeed | Assets/UnityRESTRequest/RetryableRequest.cs:79-95 | success clears the payload and the timer |
| Retry.ValidatedUnlessNetworkError | Assets/UnityRESTRequest/RetryableRequest.cs:56-63 | a classified response is accepted as final exactly when there was no network failure |
| Retry.Step | Assets/UnityRESTRequest/RetryableRequest.cs:24-77 | each event sends at most once: a send sends its payload, a tick nothing or the kept payload, a reply nothing; a reply ends the exchange and succeeds when accepted |
| Retry.Run | Assets/UnityRESTRequest/RetryableRequest.cs:24-77 | a run sends at most once per event |
| Retry.RetriesKeepPayload | Assets/UnityRESTRequest/RetryableRequest.cs:38-47 | with no new send by the owner, every retry sends the payload kept by the last send |
| Retry.AttemptsCarryTheOriginalPayload | Assets/UnityRESTRequest/RetryableRequest.cs:38-51 | after a send of `p`, every attempt that follows, the first and all retries, carries `p` |
| Retry.NoRetryAfterSuccess | Assets/UnityRESTRequest/RetryableRequest.cs:24-36 | once succeeded, no tick or late reply causes a retry, and the request stays succeeded until the next send |
| Retry.RetryWhenLimitPassed | Assets/UnityRESTRequest/RetryableRequest.cs:29-35 | an idle pending request retries with its kept payload exactly when the accumulated time exceeds the limit |
| Retry.RetryableRequest.constructor | Assets/UnityRESTRequest/RetryableRequest.cs:12-22 | not succeeded, no payload kept, timer at zero |
| Retry.RetryableRequest.Update | Assets/UnityRESTRequest/RetryableRequest.cs:24-36 | no change while succeeded or sending; otherwise the timer advances, and when it passes the limit it is reset and a retry is due |
| Retry.RetryableRequest.AsyncSend | Assets/UnityRESTRequest/RetryableRequest.cs:43-51 | the payload is kept and success forgotten, the timer is untouched, and the request is sent |
| Retry.RetryableRequest.Retry | Assets/UnityRESTRequest/RetryableRequest.cs:38-41 | the request is sent again with the kept payload, which is unchanged |
| Retry.RetryableRequest.RequestSucceeded | Assets/UnityRESTRequest/RetryableRequest.cs:79-95 | marked succeeded, payload cleared, timer reset |
| Retry.RetryableRequest.OnSuccess | Assets/UnityRESTRequest/RetryableRequest.cs:56-77 | a response without `IsError` marks success and reaches the observers; any other changes nothing |
| Retry.RetryableRequest.Receive | Assets/UnityRESTRequest/Request.cs:216-242 | only the type of the path taken is classified; the scheduler state moves as a reply event; failures reach only the error observers; otherwise the body classified as `S` reaches the success observers exactly when it is validated |
| AzureFunctions.GetHost | Assets/AzureFunctions/AzureFunction.cs:51-63 | the local host when the configured account is empty, `localhost` or `127.0.0.1`; otherwise the `azurewebsites.net` host named after the argument |
| AzureFunctions.HostShape | Assets/AzureFunctions/AzureFunction.cs:23-24 | every host starts with `http`, and has no `?` when the account name has none |
| AzureFunctions.LocalhostIgnoresCase | Assets/AzureFunctions/AzureFunction.cs:53-57 | `LocalHost` selects the local host |
| AzureFunctions.ConfigureApi | Assets/AzureFunctions/AzureFunction.cs:34-45 | a non-empty endpoint is used as it is; otherwise the host, then `/prefix/function`, or the function name alone after the host when the prefix is empty |
| AzureFunctions.FunctionRouteUri | Assets/AzureFunctions/AzureFunction.cs:34-45 | with no endpoint, the request goes to `host/prefix/function/` followed by the query string |
| AzureFunctions.CustomRequest | Assets/AzureFunctions/AzureFunction.cs:26-32 | a non-empty key adds the trimmed `code` header; otherwise the request is unchanged |
| Durable.RunsCount | Assets/AzureFunctions/DurableFunction.cs:104-115 | the match count is zero exactly when there is no id character, and one exactly when the id characters form one block |
| Durable.Runs | Assets/AzureFunctions/DurableFunction.cs:104-115 | the pattern never matches more often than the text has characters |
| Durable.CheckId | Assets/AzureFunctions/DurableFunction.cs:104-115 | an id is accepted exactly when its id characters form one contiguous block |
| Durable.CheckIdExamples | Assets/AzureFunctions/DurableFunction.cs:104-115 | `abc-123` and `ABC-123` are accepted; `abc 123 def`, a JSON object, the empty text and blanks are refused |
| Durable.StatusUri | Assets/AzureFunctions/DurableFunction.cs:24 | the status address starts with the host and has a query part; when host and id have no `?`, everything before the first `?` is the host, the status path and the id |
| Durable.StatusQuerySplits | Assets/AzureFunctions/DurableFunction.cs:24 | the query after the first `?` splits at `&` into exactly `taskHub=` and `connection=` with their values |
| Durable.PollingTargetsStatusUri | Assets/AzureFunctions/DurableFunction.cs:117-129 | with a non-absolute endpoint, a poll goes to the status address exactly, without the request's query string |
| Durable.AbsoluteEndpointOverridesPolling | Assets/UnityRESTRequest/Request.cs:187-191 | with an absolute endpoint, polls go to the endpoint and not to the status address |
| Durable.CustomRequest | Assets/AzureFunctions/DurableFunction.cs:33-44 | POST while submitting and GET while polling, whatever the configured method; the headers get the key header and the rest is unchanged |
| Durable.Reset | Assets/AzureFunctions/DurableFunction.cs:51-61 | the phase, host and id are cleared exactly when the previous operation succeeded |
| Durable.CacheHost | Assets/AzureFunctions/DurableFunction.cs:117-129 | while submitting nothing changes; at the first poll the host becomes `GetHost` of the configured account; a host already set is kept; nothing else changes |
| Durable.ApiFor | Assets/AzureFunctions/DurableFunction.cs:117-129 | the function route while submitting, the status address while polling |
| Durable.SendState | Assets/AzureFunctions/DurableFunction.cs:51-61 | a send of a pending operation keeps phase and id, keeps a cached host and caches `GetHost` at the first poll; a send after success starts from the submit phase with no host and no id |
| Durable.ValidateInstance | Assets/AzureFunctions/DurableFunction.cs:89-97 | only an instance status can be final; a submit-phase response never is |
| Durable.Accept | Assets/AzureFunctions/DurableFunction.cs:63-97 | output fires exactly while polling on a `Completed` instance, re-wrapped with that response's envelope, and the request becomes succeeded; an accepted id switches to polling and becomes the whole text; anything else changes nothing |
| Durable.PollingIsSticky | Assets/AzureFunctions/DurableFunction.cs:63-87 | while polling, no response returns to the submit phase or changes the id or host |
| Durable.RepeatedCompletionFiresAgain | Assets/AzureFunctions/DurableFunction.cs:75-86 | a `Completed` status delivered again fires the same output again |
| Durable.SubmitThenPoll | Assets/AzureFunctions/DurableFunction.cs:63-97 | id `abc-123`, then `Running`, then `Completed`: nothing fires until the last, which fires the output once and ends the operation |
| Durable.MalformedIdKeepsSubmitting | Assets/AzureFunctions/DurableFunction.cs:63-74 | a malformed id leaves the state unchanged, so the retry is another POST |
| Durable.Classify | Assets/AzureFunctions/DurableFunction.cs:131-142 | the body is classified as `S` while submitting and as an instance status while polling |
| Durable.UndecodedStatusIsNotCompleted | Assets/AzureFunctions/DurableFunction.cs:89-97 | a polled body that is not decoded as an instance never completes the operation |
| Durable.DurableFunction.constructor | Assets/AzureFunctions/DurableFunction.cs:18-27 | the field defaults: submit phase, no host, no id, task hub `SampleHubJs`, connection `Storage` |
| Durable.DurableFunction.ConfigureApi | Assets/AzureFunctions/DurableFunction.cs:117-129 | the host is cached on the first poll and the address of the current phase is returned |
| Durable.DurableFunction.AsyncSend | Assets/AzureFunctions/DurableFunction.cs:51-61 | reset after success, then the payload is sent to the address of the current phase with the verb of that phase |
| Durable.DurableFunction.Update | Assets/UnityRESTRequest/RetryableRequest.cs:24-41 | a tick of the scheduler; a due retry keeps phase and id, targets the address of the current phase, and re-sends the kept payload with that phase's verb; without a retry nothing is sent and the URI is kept |
| Durable.DurableFunction.OnSuccess | Assets/AzureFunctions/DurableFunction.cs:63-87 | the state moves as `Accept`, and the observers get exactly the output it fires |
| Durable.DurableFunction.Receive | Assets/AzureFunctions/DurableFunction.cs:131-142 | only the type of the path taken is classified; failures reach the error observers only; otherwise the body is classified for the current phase and accepted as `Accept` says |

## Left out

- Transport I/O is not modelled: `UnityWebRequest`, its download and upload handlers, the coroutine machinery (`StartCoroutine`, `yield`, `using`) and `Uri.AbsoluteUri` normalisation. An exchange is an input value, and the URI is kept as the composed text.
- Reading a file to upload (`File.Exists`, `ReadAllBytes`, `UploadHandlerFile`) is not modelled: a file upload is recorded as its path, and a missing file is not distinguished.
- `UnityWebRequest.EscapeURL` and `Uri.TryCreate` are parameters of the model (`Platform`), not definitions.
- JSON and XML decoding (`Serializer`) are parameters (`Codec`) and are total. The null `Data` a failed decode can leave, and the exception it would raise in `DurableFunction.ValidateResponse`, are not modelled.
- `Time.deltaTime` and the float `RetryAfter` and `timer` are not modelled as floats: time is whole milliseconds.
- Logging, `Response.ToString`, `MonoBehaviour`, `Start`/`AutoSend`, the `Send` overloads and the `UnityEvent` plumbing are not modelled. The observers are the logs `successEvents` and `errorEvents`.
- Null `Params` and `Headers` lists are not modelled: `Params` is an empty sequence at construction, where the source would throw on `AddQueryParam`. `QueryString` still handles a missing list.
- The outgoing headers are the sequence of `SetRequestHeader` calls. That the transport keeps only the last value per key is not modelled.
- `Requests.ParseResponse` requires a `content-type` header whenever it reads one: a non-string type and a non-empty body. The `Receive` methods require it only for the type of the path taken. Without one the source throws at the split.
- `Durable.Accept` and `Durable.DurableFunction.OnSuccess` require a text response in the submit phase, where the source casts it. Without one the cast yields null and the source throws.
- `Strings.FoldCase`: case-insensitive comparison folds ASCII letters only. This is exact for the ASCII names compared here.
- `Durable.IsIdChar`: the id pattern's case-insensitive match is modelled over ASCII letters. Non-ASCII characters that .NET case folding maps into `a-z`, such as the Kelvin sign, are treated as non-id characters.
- `Retry.RetryableRequest.HasRequestSucceeded` is a plain reader of `requestSucceeded`, with no contract of its own.
- The plain `Request.OnSuccess` and `Request.OnError` are not modelled separately: the concrete requests override `OnSuccess`, and `ErrorHandler` passes its response straight to the error observers.
- `AzureFunction.SetFunctionCode` is not modelled: the key is the `code` field of the configuration.
- `IRequest`, the sample scripts and the XML payload records are not modelled. They carry no behaviour of the core.
- The `StartsWith("http")` test of the endpoint is modelled as an ordinal prefix test. .NET compares culture-sensitively there; the two can differ when characters the culture ignores precede or split `http`.
- `chunkedTransfer = false` on a body-text upload is not modelled: it changes how the transport frames the body, not what is sent.
- `DurableInstance` timestamps (`createdTime`, `lastUpdatedTime`) are not modelled, because nothing reads them.
