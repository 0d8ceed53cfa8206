/**
 * A long-running function: a POST starts it and returns an instance id,
 * then GETs to the status endpoint poll it until its runtime status is
 * `Completed`, when its output array is passed to the success observers.
 */
module Durable {
  import opened Wrappers
  import opened Strings
  import opened Responses
  import opened Requests
  import opened Retry
  import AzureFunctions

  /** The status document of one instance (the timestamps are not modelled). */
  datatype DurableInstance<S> = DurableInstance(instanceId: string, runtimeStatus: string, output: seq<S>)

  // ---------------------------------------------------------------------
  // Instance id check

  /** A character of the id pattern, letters in either case. */
  predicate IsIdChar(c: char) {
    'a' <= c <= 'z' || 'A' <= c <= 'Z' || '0' <= c <= '9' || c == '-'
  }

  /** The number of matches of the id pattern in `s`: its maximal runs of
      id characters, counted where each run starts. */
  function Runs(s: string): (n: nat)
    ensures n <= |s|
  {
    if s == [] then 0
    else
      var t := s[..|s| - 1];
      var starts := IsIdChar(s[|s| - 1]) && (t == [] || !IsIdChar(t[|t| - 1]));
      Runs(t) + (if starts then 1 else 0)
  }

  /** `CheckId`: the text is accepted as an instance id when the pattern
      matches exactly once, that is, when its id characters form one block. */
  predicate CheckId(id: string): (ok: bool)
    ensures ok <==> SingleRun(id)
  {
    RunsCount(id);
    Runs(id) == 1
  }

  ghost predicate NoIdChar(s: string) {
    forall k :: 0 <= k < |s| ==> !IsIdChar(s[k])
  }

  /** `s[i..j]` is a non-empty block of id characters and there are none
      outside it. */
  ghost predicate IsRun(s: string, i: int, j: int) {
    0 <= i < j <= |s| &&
    (forall k :: i <= k < j ==> IsIdChar(s[k])) &&
    (forall k :: 0 <= k < |s| && !(i <= k < j) ==> !IsIdChar(s[k]))
  }

  /** The reference reading of the check: the id characters of `s` form one
      contiguous, non-empty block. */
  ghost predicate SingleRun(s: string) {
    exists i, j :: IsRun(s, i, j)
  }

  lemma {:induction false} RunsCount(s: string)
    ensures Runs(s) == 0 <==> NoIdChar(s)
    ensures Runs(s) == 1 <==> SingleRun(s)
    decreases |s|
  {
    if s == [] {
      assert !SingleRun(s);
    } else {
      var t := s[..|s| - 1];
      var c := s[|s| - 1];
      RunsCount(t);
      assert forall k :: 0 <= k < |t| ==> t[k] == s[k];
      if !IsIdChar(c) {
        assert NoIdChar(s) <==> NoIdChar(t);
        if SingleRun(t) {
          var i, j :| IsRun(t, i, j);
          assert IsRun(s, i, j);
        }
        if SingleRun(s) {
          var i, j :| IsRun(s, i, j);
          assert j <= |t|;
          assert IsRun(t, i, j);
        }
      } else if t == [] || !IsIdChar(t[|t| - 1]) {
        assert !NoIdChar(s);
        if NoIdChar(t) {
          assert IsRun(s, |t|, |s|);
        }
        if SingleRun(s) {
          var i, j :| IsRun(s, i, j);
          assert i == |t|;
          assert NoIdChar(t);
        }
      } else {
        assert !NoIdChar(t) && !NoIdChar(s);
        if SingleRun(t) {
          var i, j :| IsRun(t, i, j);
          assert j == |t|;
          assert IsRun(s, i, |s|);
        }
        if SingleRun(s) {
          var i, j :| IsRun(s, i, j);
          assert i <= |t| - 1 < j;
          assert IsRun(t, i, |t|);
        }
      }
    }
  }

  /** A plain id is accepted in either letter case; text with two or more
      id blocks (spaces, a JSON object) or with none is refused. */
  lemma CheckIdExamples()
    ensures CheckId("abc-123") && CheckId("ABC-123")
    ensures !CheckId("abc 123 def") && !CheckId("{\"id\":\"abc\"}") && !CheckId("") && !CheckId("  ")
  {
    assert IsRun("abc-123", 0, 7);
    assert IsRun("ABC-123", 0, 7);
    forall i, j ensures !IsRun("abc 123 def", i, j) {
      if i > 0 {
        assert IsIdChar("abc 123 def"[0]);
      } else if j <= 4 {
        assert IsIdChar("abc 123 def"[4]);
      } else {
        assert !IsIdChar("abc 123 def"[3]);
      }
    }
    forall i, j ensures !IsRun("{\"id\":\"abc\"}", i, j) {
      if i > 2 {
        assert IsIdChar("{\"id\":\"abc\"}"[2]);
      } else if j <= 7 {
        assert IsIdChar("{\"id\":\"abc\"}"[7]);
      } else {
        assert !IsIdChar("{\"id\":\"abc\"}"[4]);
      }
    }
    RunsCount("  ");
    assert !IsIdChar("  "[0]) && !IsIdChar("  "[1]);
  }

  // ---------------------------------------------------------------------
  // Polling address

  const StatusPath: string := "/runtime/webhooks/DurableTaskExtension/instances/"

  /** `RedirectedStatusEndpointFormat` filled with the host, the instance
      id, the task hub and the connection. */
  function StatusUri(host: string, instanceId: string, taskHub: string, connection: string): (uri: string)
    ensures host <= uri && '?' in uri
    ensures '?' !in host + instanceId ==> UpTo(uri, '?') == host + StatusPath + instanceId
  {
    var path := host + StatusPath + instanceId;
    var uri := path + "?taskHub=" + taskHub + "&connection=" + connection;
    assert uri[|path|] == '?' && uri[..|path|] == path;
    if '?' in host + instanceId then uri
    else
      PathHasNoQuery(host, instanceId);
      UpToFirst(uri, '?', |path|);
      uri
  }

  lemma PathHasNoQuery(host: string, instanceId: string)
    requires '?' !in host + instanceId
    ensures '?' !in host + StatusPath + instanceId
  {
    StatusPathHasNoQuery();
    assert forall k :: 0 <= k < |host| ==> host[k] == (host + instanceId)[k];
    assert forall k :: 0 <= k < |instanceId| ==> instanceId[k] == (host + instanceId)[|host| + k];
  }

  lemma StatusPathHasNoQuery()
    ensures '?' !in StatusPath
  {
    assert StatusPath == "/runtime/webhooks/" + "DurableTaskExtension/" + "instances/";
    assert '?' !in "/runtime/webhooks/";
    assert '?' !in "DurableTaskExtension/";
    assert '?' !in "instances/";
  }

  /** The query of the status URI splits at `&` into exactly its two
      parameters when neither value contains `&`. */
  lemma StatusQuerySplits(host: string, instanceId: string, taskHub: string, connection: string)
    requires '?' !in host + instanceId && '&' !in taskHub + connection
    ensures var uri := StatusUri(host, instanceId, taskHub, connection);
            var query := uri[|UpTo(uri, '?')| + 1..];
            Split(query, '&') == ["taskHub=" + taskHub, "connection=" + connection]
  {
    var path := host + StatusPath + instanceId;
    var a, b := "taskHub=" + taskHub, "connection=" + connection;
    var uri := StatusUri(host, instanceId, taskHub, connection);
    assert |UpTo(uri, '?')| == |path|;
    QueryAfterPath(path, taskHub, connection);
    assert '&' !in a && '&' !in b by {
      assert forall k :: 0 <= k < |taskHub| ==> taskHub[k] == (taskHub + connection)[k];
      assert forall k :: 0 <= k < |connection| ==> connection[k] == (taskHub + connection)[|taskHub| + k];
    }
    SplitAround(a, '&', b);
    SplitNone(a, '&');
    SplitNone(b, '&');
  }

  lemma QueryAfterPath(path: string, taskHub: string, connection: string)
    ensures (path + "?taskHub=" + taskHub + "&connection=" + connection)[|path| + 1..]
            == ("taskHub=" + taskHub) + ['&'] + ("connection=" + connection)
  {
  }

  /** Unless the endpoint is absolute, polling goes to the status URI as it
      is: the request's own query string is not appended. */
  lemma PollingTargetsStatusUri(account: string, id: string, taskHub: string, connection: string,
                                endpoint: string, query: string)
    requires !("http" <= endpoint)
    ensures var uri := StatusUri(AzureFunctions.GetHost(account, account), id, taskHub, connection);
            UriString(uri, endpoint, query) == uri
  {
  }

  /** An absolute `URLEndpoint` takes precedence over the status URI, so
      every poll goes to the endpoint instead. */
  lemma AbsoluteEndpointOverridesPolling(host: string, id: string, taskHub: string, connection: string,
                                         endpoint: string, query: string)
    requires "http" <= endpoint
    ensures UriString(StatusUri(host, id, taskHub, connection), endpoint, query) == endpoint + query
  {
  }

  /** `CustomRequest`: the function key header of `AzureFunction`, then
      the verb: POST to start the operation, GET to poll it. The verb is
      replaced after the upload was chosen from the configured method. */
  function CustomRequest(code: string, shouldRedirect: bool, www: Outgoing): (o: Outgoing)
    ensures o.verb == (if shouldRedirect then "GET" else "POST")
    ensures o.url == www.url && o.timeout == www.timeout && o.upload == www.upload
    ensures o.headers == AzureFunctions.CustomRequest(code, www).headers
  {
    AzureFunctions.CustomRequest(code, www).(verb := if shouldRedirect then "GET" else "POST")
  }

  // ---------------------------------------------------------------------
  // The operation as a state machine

  /** What `OnSuccess` receives: a response classified as `S` while
      starting, or as an instance status while polling. */
  datatype AnyResponse<S> =
    | Plain(plain: Response<S>)
    | Instance(instance: Response<DurableInstance<S>>)

  /** `ValidateResponse`: a decoded status document whose runtime status is
      exactly `Completed`. */
  predicate ValidateInstance<S>(response: AnyResponse<S>): (ok: bool)
    ensures ok ==> response.Instance?
  {
    response.Instance? && response.instance.ResponseData? &&
    response.instance.data.runtimeStatus == "Completed"
  }

  /** The scheduler state together with the phase (`shouldRedirect`), the
      cached polling host and the instance id. */
  datatype DurableState = DurableState(retry: RetryState, shouldRedirect: bool, hostApi: string, instanceId: string)

  /** The reset at the start of `AsyncSend`: after a success, a new
      operation starts from the submit phase. */
  function Reset(d: DurableState): (r: DurableState)
    ensures r.retry == d.retry
    ensures d.retry.succeeded ==> !r.shouldRedirect && r.hostApi == "" && r.instanceId == ""
    ensures !d.retry.succeeded ==> r == d
  {
    if d.retry.succeeded then d.(shouldRedirect := false, hostApi := "", instanceId := "") else d
  }

  /** The host cache of `ConfigureApi`: while polling, the host is computed
      once and kept. */
  function CacheHost(d: DurableState, account: string): (r: DurableState)
    ensures r.shouldRedirect ==> r.hostApi != ""
    ensures d.hostApi != "" ==> r == d
    ensures !d.shouldRedirect ==> r == d
    ensures d.shouldRedirect && d.hostApi == "" ==> r.hostApi == AzureFunctions.GetHost(account, account)
    ensures r == d.(hostApi := r.hostApi)
  {
    if d.shouldRedirect && d.hostApi == "" then d.(hostApi := AzureFunctions.GetHost(account, account)) else d
  }

  /** `ConfigureApi` on a state whose host is cached: the function route
      while starting, the status URI while polling. */
  function ApiFor(d: DurableState, urlEndpoint: string, config: AzureFunctions.AzureConfig,
                  taskHub: string, connection: string): (api: string)
    ensures !d.shouldRedirect ==> api == AzureFunctions.ConfigureApi(urlEndpoint, config)
    ensures d.shouldRedirect ==> api == StatusUri(d.hostApi, d.instanceId, taskHub, connection)
  {
    if !d.shouldRedirect then AzureFunctions.ConfigureApi(urlEndpoint, config)
    else StatusUri(d.hostApi, d.instanceId, taskHub, connection)
  }

  /** `AsyncSend` (also reached by a retry): reset after a success, cache
      the host, then dispatch the payload. */
  function SendState(d: DurableState, p: Payload, absolute: bool, account: string): (r: DurableState)
    ensures r.retry == Dispatch(d.retry, p, absolute)
    ensures !d.retry.succeeded ==> r.shouldRedirect == d.shouldRedirect && r.instanceId == d.instanceId
    ensures d.retry.succeeded ==> !r.shouldRedirect && r.instanceId == "" && r.hostApi == ""
    ensures !d.retry.succeeded && (d.hostApi != "" || !d.shouldRedirect) ==> r.hostApi == d.hostApi
    ensures !d.retry.succeeded && d.shouldRedirect && d.hostApi == "" ==>
      r.hostApi == AzureFunctions.GetHost(account, account)
  {
    var c := CacheHost(Reset(d), account);
    c.(retry := Dispatch(c.retry, p, absolute))
  }

  /** `OnSuccess`: while starting, a text accepted by `CheckId` becomes the
      instance id and switches to polling; while polling, a completed
      status marks the request as succeeded and its output is fired. */
  function Accept<S>(d: DurableState, response: AnyResponse<S>): (r: (DurableState, Option<Response<seq<S>>>))
    requires !d.shouldRedirect ==> response.Plain? && response.plain.ResponseText?
    ensures r.1.Some? <==> d.shouldRedirect && ValidateInstance(response)
    ensures r.1.Some? ==> r.1.value == ResponseData(response.instance.env, response.instance.data.output)
    ensures r.1.Some? ==> r.0 == d.(retry := Succeed(d.retry))
    ensures !d.shouldRedirect && CheckId(response.plain.text) ==>
      r.0 == d.(shouldRedirect := true, instanceId := response.plain.text)
    ensures r.1.None? && (d.shouldRedirect || !CheckId(response.plain.text)) ==> r.0 == d
  {
    if !d.shouldRedirect then
      if CheckId(response.plain.text) then (d.(instanceId := response.plain.text, shouldRedirect := true), None)
      else (d, None)
    else if ValidateInstance(response) then
      (d.(retry := Succeed(d.retry)), Some(ResponseData(response.instance.env, response.instance.data.output)))
    else (d, None)
  }

  /** The phase only moves forward within one operation: no response
      returns a polling operation to the submit phase or changes its id. */
  lemma PollingIsSticky<S>(d: DurableState, response: AnyResponse<S>)
    requires d.shouldRedirect
    ensures Accept(d, response).0.shouldRedirect
    ensures Accept(d, response).0.instanceId == d.instanceId
    ensures Accept(d, response).0.hostApi == d.hostApi
  {
  }

  /** A completed status delivered again after completion fires the output
      again: acceptance does not depend on whether the operation has already
      succeeded. */
  lemma RepeatedCompletionFiresAgain<S>(d: DurableState, response: AnyResponse<S>)
    requires d.shouldRedirect && ValidateInstance(response)
    ensures Accept(d, response).1.Some?
    ensures Accept(Accept(d, response).0, response).1 == Accept(d, response).1
  {
  }

  /** Start with `abc-123`, see it `Running`, then `Completed`: the output
      is fired once, on the completed status, re-wrapped with that
      response's envelope, and the operation is over. */
  lemma SubmitThenPoll<S>(d0: DurableState, env: Envelope, out: seq<S>)
    requires !d0.shouldRedirect && !d0.retry.succeeded
    ensures var (d1, e1) := Accept<S>(d0, Plain(ResponseText(env, "abc-123")));
            d1.shouldRedirect && d1.instanceId == "abc-123" && e1.None? &&
            var (d2, e2) := Accept<S>(d1, Instance(ResponseData(env, DurableInstance("abc-123", "Running", []))));
            d2 == d1 && e2.None? &&
            var (d3, e3) := Accept(d2, Instance(ResponseData(env, DurableInstance("abc-123", "Completed", out))));
            d3.retry.succeeded && d3.retry.retained == Cleared && e3 == Some(ResponseData(env, out))
  {
    CheckIdExamples();
  }

  /** A malformed id leaves the operation in the submit phase, so its
      retry is another POST. */
  lemma MalformedIdKeepsSubmitting<S>(d: DurableState, env: Envelope, code: string, www: Outgoing)
    requires !d.shouldRedirect
    ensures var (d1, e1) := Accept<S>(d, Plain(ResponseText(env, "abc 123 def")));
            d1 == d && e1.None? && CustomRequest(code, d1.shouldRedirect, www).verb == "POST"
  {
    CheckIdExamples();
  }

  /** `SuccessHandler`: the body is classified as `S` while starting and
      as an instance status while polling. */
  function Classify<S>(x: Exchange, shouldRedirect: bool, successCodec: Codec<S>,
                       instanceCodec: Codec<DurableInstance<S>>, autoDetect: bool): (r: AnyResponse<S>)
    requires !shouldRedirect ==> CanClassify(x, successCodec)
    requires shouldRedirect ==> CanClassify(x, instanceCodec)
    ensures r.Plain? <==> !shouldRedirect
    ensures r.Plain? ==> r.plain == ParseResponse(x, successCodec, autoDetect)
    ensures r.Instance? ==> r.instance == ParseResponse(x, instanceCodec, autoDetect)
  {
    if !shouldRedirect then Plain(ParseResponse(x, successCodec, autoDetect))
    else Instance(ParseResponse(x, instanceCodec, autoDetect))
  }

  /** A polled status that is not decoded as an instance (an empty body, or
      text the decoder does not take) never completes the operation. */
  lemma UndecodedStatusIsNotCompleted<S>(x: Exchange, instanceCodec: Codec<DurableInstance<S>>,
                                         successCodec: Codec<S>, autoDetect: bool)
    requires !instanceCodec.isString && CanClassify(x, instanceCodec)
    requires x.text == "" || !Decodes(MediaTypeOf(x), x.text, autoDetect)
    ensures !ValidateInstance(Classify(x, true, successCodec, instanceCodec, autoDetect))
  {
  }

  /** The `S`-typed request extended with the durable phases. */
  class DurableFunction<E, S> {
    const retry: RetryableRequest<E, seq<S>>
    var config: AzureFunctions.AzureConfig
    var TaskHub: string
    var Connection: string
    const successCodec: Codec<S>
    const instanceCodec: Codec<DurableInstance<S>>
    var shouldRedirect: bool
    var hostApi: string
    var instanceId: string

    function State(): DurableState
      reads this, retry, retry.request
    {
      DurableState(retry.State(), shouldRedirect, hostApi, instanceId)
    }

    constructor (request: Request<E, seq<S>>, retryAfter: nat, successCodec: Codec<S>,
                 instanceCodec: Codec<DurableInstance<S>>)
      ensures fresh(retry) && retry.request == request && retry.RetryAfter == retryAfter
      ensures this.successCodec == successCodec && this.instanceCodec == instanceCodec
      ensures config == AzureFunctions.AzureConfig("localhost", "api", "hello", "")
      ensures TaskHub == "SampleHubJs" && Connection == "Storage"
      ensures !shouldRedirect && hostApi == "" && instanceId == ""
      ensures !retry.requestSucceeded && retry.data.None? && retry.filePath == "" && retry.timer == 0
    {
      retry := new RetryableRequest(request, retryAfter);
      this.successCodec := successCodec;
      this.instanceCodec := instanceCodec;
      config := AzureFunctions.AzureConfig("localhost", "api", "hello", "");
      TaskHub, Connection := "SampleHubJs", "Storage";
      shouldRedirect, hostApi, instanceId := false, "", "";
    }

    /** `ConfigureApi`: the function route while starting; while polling,
        the status URI on the host computed at the first poll. */
    method ConfigureApi() returns (api: string)
      modifies this`hostApi
      ensures State() == CacheHost(old(State()), config.account)
      ensures api == ApiFor(State(), retry.request.URLEndpoint, config, TaskHub, Connection)
    {
      if !shouldRedirect {
        return AzureFunctions.ConfigureApi(retry.request.URLEndpoint, config);
      }
      if hostApi == "" {
        hostApi := AzureFunctions.GetHost(config.account, config.account);
      }
      api := StatusUri(hostApi, instanceId, TaskHub, Connection);
    }

    /** `AsyncSend`: after a success the phase, host and id are reset; then
        the payload is kept and sent to the address of the current phase
        with the verb of the current phase. */
    method AsyncSend(data: Option<Bytes>, filePath: string) returns (started: bool)
      modifies this`shouldRedirect, this`hostApi, this`instanceId
      modifies retry`requestSucceeded, retry`data, retry`filePath
      modifies retry.request`Uri, retry.request`sending, retry.request`sent
      ensures State() == SendState(old(State()), Payload(data, filePath), started, config.account)
      ensures retry.request.Uri == CreateUri(retry.request.platform,
                                             ApiFor(State(), retry.request.URLEndpoint, config, TaskHub, Connection),
                                             retry.request.URLEndpoint,
                                             QueryString(Some(retry.request.Params), retry.request.platform.escapeUrl))
      ensures started <==> retry.request.Uri.Some?
      ensures started ==>
        retry.request.sent == old(retry.request.sent) +
          [CustomRequest(config.code, shouldRedirect, retry.request.Prepare(retry.request.Uri.value, data, filePath))]
      ensures !started ==> retry.request.sent == old(retry.request.sent)
    {
      if retry.HasRequestSucceeded() {
        shouldRedirect := false;
        hostApi := "";
        instanceId := "";
      }
      var api := ConfigureApi();
      var code, redirect := config.code, shouldRedirect;
      started := retry.AsyncSend(data, filePath, api, www => CustomRequest(code, redirect, www));
    }

    /** `Update`: a tick of the scheduler; when the retry is due the kept
        payload is sent again in the current phase, without a reset. */
    method Update(delta: nat) returns (retried: bool, started: bool)
      modifies this`shouldRedirect, this`hostApi, this`instanceId
      modifies retry`requestSucceeded, retry`data, retry`filePath, retry`timer
      modifies retry.request`Uri, retry.request`sending, retry.request`sent
      ensures var (t, due) := Tick(old(State()).retry, delta, retry.Limit());
              retried == due &&
              (!due ==> State() == old(State()).(retry := t) && retry.request.sent == old(retry.request.sent)) &&
              (due ==> State() == SendState(old(State()).(retry := t), t.retained, started, config.account))
      ensures retried ==> shouldRedirect == old(shouldRedirect) && instanceId == old(instanceId)
      ensures retried ==>
        retry.request.Uri == CreateUri(retry.request.platform,
                                       ApiFor(State(), retry.request.URLEndpoint, config, TaskHub, Connection),
                                       retry.request.URLEndpoint,
                                       QueryString(Some(retry.request.Params), retry.request.platform.escapeUrl))
      ensures !retried ==> retry.request.Uri == old(retry.request.Uri)
      ensures started ==> retried && retry.request.Uri.Some?
      ensures started ==>
        retry.request.sent == old(retry.request.sent) +
          [CustomRequest(config.code, shouldRedirect,
                         retry.request.Prepare(retry.request.Uri.value, old(retry.data), old(retry.filePath)))]
      ensures retried && !started ==> retry.request.Uri.None?
      ensures !started ==> retry.request.sent == old(retry.request.sent)
    {
      retried := retry.Update(delta);
      started := false;
      if retried {
        started := AsyncSend(retry.data, retry.filePath);
      }
    }

    /** `OnSuccess` of the durable request. */
    method OnSuccess(response: AnyResponse<S>)
      requires !shouldRedirect ==> response.Plain? && response.plain.ResponseText?
      modifies this`shouldRedirect, this`instanceId
      modifies retry`requestSucceeded, retry`data, retry`filePath, retry`timer, retry.request`successEvents
      ensures var (d, fired) := Accept(old(State()), response);
              State() == d &&
              retry.request.successEvents == old(retry.request.successEvents) +
                (if fired.Some? then [fired.value] else [])
    {
      if !shouldRedirect {
        var text := response.plain.text;
        if CheckId(text) {
          instanceId := text;
          shouldRedirect := true;
        }
      } else if ValidateInstance(response) {
        var output := ResponseData(response.instance.env, response.instance.data.output);
        retry.RequestSucceeded();
        retry.request.FireResponseSuccess(output);
      }
    }

    /** The end of an exchange: the request stops sending; failures go to
        the error observers, anything else is classified for the current
        phase and goes to `OnSuccess`. */
    method Receive(x: Exchange)
      requires x.isNetworkError || x.isHttpError ==> CanClassify(x, retry.request.errorCodec)
      requires !(x.isNetworkError || x.isHttpError) && !shouldRedirect ==>
        CanClassify(x, successCodec) && ParseResponse(x, successCodec, retry.request.AutoDetect).ResponseText?
      requires !(x.isNetworkError || x.isHttpError) && shouldRedirect ==> CanClassify(x, instanceCodec)
      modifies this`shouldRedirect, this`instanceId
      modifies retry`requestSucceeded, retry`data, retry`filePath, retry`timer
      modifies retry.request`sending, retry.request`successEvents, retry.request`errorEvents
      ensures var idle := old(State()).(retry := old(State()).retry.(sending := false));
              if x.isNetworkError || x.isHttpError then
                State() == idle &&
                retry.request.errorEvents == old(retry.request.errorEvents) +
                  [ParseResponse(x, retry.request.errorCodec, retry.request.AutoDetect)] &&
                retry.request.successEvents == old(retry.request.successEvents)
              else
                var (d, fired) := Accept(idle, Classify(x, old(shouldRedirect), successCodec, instanceCodec,
                                                        retry.request.AutoDetect));
                State() == d &&
                retry.request.successEvents == old(retry.request.successEvents) +
                  (if fired.Some? then [fired.value] else []) &&
                retry.request.errorEvents == old(retry.request.errorEvents)
    {
      var failed := retry.request.Complete(x);
      if failed {
        retry.request.ErrorHandler(x);
      } else {
        var response := Classify(x, shouldRedirect, successCodec, instanceCodec, retry.request.AutoDetect);
        OnSuccess(response);
      }
    }
  }
}
