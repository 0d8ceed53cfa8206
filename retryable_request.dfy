/**
 * The retry scheduler: a request that keeps the payload of its last send and
 * re-sends it on a timer until a response is accepted as final.
 */
module Retry {
  import opened Wrappers
  import opened Responses
  import opened Requests

  /** The payload of the last `AsyncSend`, kept for retries (`_data`, `_filePath`). */
  datatype Payload = Payload(data: Option<Bytes>, filePath: string)

  /** What `Clear` leaves behind. */
  const Cleared: Payload := Payload(None, "")

  /** The state the scheduler acts on: whether the request has succeeded,
      whether an exchange is in flight, the kept payload, and the time
      elapsed (in milliseconds) since the timer was last reset. */
  datatype RetryState = RetryState(succeeded: bool, sending: bool, retained: Payload, timer: nat)

  /** One `Update` tick of `delta` milliseconds: the new state and whether
      `Retry` is invoked. */
  function Tick(s: RetryState, delta: nat, limit: int): (r: (RetryState, bool))
    ensures r.0 == s.(timer := r.0.timer)
    ensures r.1 <==> !s.succeeded && !s.sending && s.timer + delta > limit
    ensures s.succeeded || s.sending ==> r.0 == s
    ensures r.1 ==> r.0.timer == 0
    ensures !s.succeeded && !s.sending && !r.1 ==> r.0.timer == s.timer + delta
  {
    if s.succeeded || s.sending then (s, false)
    else if s.timer + delta > limit then (s.(timer := 0), true)
    else (s.(timer := s.timer + delta), false)
  }

  /** `AsyncSend` of `p`: the payload is kept and success is forgotten (the
      timer is left alone); the request is in flight from then on exactly
      when its URI was absolute. */
  function Dispatch(s: RetryState, p: Payload, absolute: bool): (r: RetryState)
    ensures r.retained == p && !r.succeeded && r.timer == s.timer
    ensures r.sending <==> s.sending || absolute
  {
    s.(succeeded := false, retained := p, sending := s.sending || absolute)
  }

  /** `RequestSucceeded`: marked as succeeded, payload and timer cleared. */
  function Succeed(s: RetryState): (r: RetryState)
    ensures r.succeeded && r.retained == Cleared && r.timer == 0 && r.sending == s.sending
  {
    s.(succeeded := true, retained := Cleared, timer := 0)
  }

  /** The default `ValidateResponse`: a response is final when it is not an error. */
  predicate ValidateResponse<T>(response: Response<T>) {
    !response.env.isError
  }

  /** A response classified from an exchange is final exactly when there
      was no network failure; an HTTP error status alone does not reject it. */
  lemma ValidatedUnlessNetworkError<T>(x: Exchange, codec: Codec<T>, autoDetect: bool)
    requires CanClassify(x, codec)
    ensures ValidateResponse(ParseResponse(x, codec, autoDetect)) <==> !x.isNetworkError
  {
  }

  /** The events the scheduler sees: a send by its owner, a tick (with
      whether the URI would be absolute if it retries), and the end of an
      exchange (`accepted`: it took the success path and was validated). */
  datatype RetryEvent =
    | Send(payload: Payload, absolute: bool)
    | Elapse(delta: nat, absolute: bool)
    | Reply(accepted: bool)

  /** One event: the next state and the payloads passed to `AsyncSend`. */
  function Step(s: RetryState, e: RetryEvent, limit: int): (r: (RetryState, seq<Payload>))
    ensures |r.1| <= 1
    ensures e.Send? ==> r.1 == [e.payload] && r.0.retained == e.payload && !r.0.succeeded
    ensures e.Elapse? ==> r.1 == [] || r.1 == [s.retained]
    ensures e.Reply? ==> r.1 == [] && !r.0.sending && (r.0.succeeded <==> s.succeeded || e.accepted)
  {
    match e
    case Send(p, absolute) => (Dispatch(s, p, absolute), [p])
    case Elapse(delta, absolute) =>
      var (t, retry) := Tick(s, delta, limit);
      if retry then (Dispatch(t, t.retained, absolute), [t.retained]) else (t, [])
    case Reply(accepted) =>
      var t := s.(sending := false);
      (if accepted then Succeed(t) else t, [])
  }

  /** A run of events from `s`: the final state and every payload sent, in order. */
  function Run(s: RetryState, evs: seq<RetryEvent>, limit: int): (r: (RetryState, seq<Payload>))
    ensures |r.1| <= |evs|
    decreases |evs|
  {
    if evs == [] then (s, [])
    else
      var (t, out) := Step(s, evs[0], limit);
      var (u, rest) := Run(t, evs[1..], limit);
      (u, out + rest)
  }

  predicate NoSends(evs: seq<RetryEvent>) {
    forall i :: 0 <= i < |evs| ==> !evs[i].Send?
  }

  /** Without a new send by the owner, every retry re-sends the payload kept
      when the run started (or nothing at all once the request has succeeded). */
  lemma {:induction false} RetriesKeepPayload(s: RetryState, p: Payload, evs: seq<RetryEvent>, limit: int)
    requires s.succeeded || s.retained == p
    requires NoSends(evs)
    ensures var (u, out) := Run(s, evs, limit);
            (u.succeeded || u.retained == p) && forall i :: 0 <= i < |out| ==> out[i] == p
    decreases |evs|
  {
    if evs != [] {
      var (t, out) := Step(s, evs[0], limit);
      assert t.succeeded || t.retained == p;
      assert forall i :: 0 <= i < |out| ==> out[i] == p;
      assert NoSends(evs[1..]) by {
        forall i | 0 <= i < |evs[1..]| ensures !evs[1..][i].Send? {
          assert evs[1..][i] == evs[i + 1];
        }
      }
      RetriesKeepPayload(t, p, evs[1..], limit);
    }
  }

  /** After a send of `p`, however many attempts are rejected, every attempt
      carries `p`. */
  lemma AttemptsCarryTheOriginalPayload(s: RetryState, p: Payload, absolute: bool, evs: seq<RetryEvent>, limit: int)
    requires NoSends(evs)
    ensures forall i :: 0 <= i < |Run(s, [Send(p, absolute)] + evs, limit).1| ==>
      Run(s, [Send(p, absolute)] + evs, limit).1[i] == p
  {
    var all := [Send(p, absolute)] + evs;
    assert all[1..] == evs;
    RetriesKeepPayload(Dispatch(s, p, absolute), p, evs, limit);
  }

  /** Once the request has succeeded, no tick and no late reply causes a
      retry until the owner sends again. */
  lemma {:induction false} NoRetryAfterSuccess(s: RetryState, evs: seq<RetryEvent>, limit: int)
    requires s.succeeded
    requires NoSends(evs)
    ensures Run(s, evs, limit).0.succeeded
    ensures Run(s, evs, limit).1 == []
    decreases |evs|
  {
    if evs != [] {
      var (t, out) := Step(s, evs[0], limit);
      assert t.succeeded && out == [];
      assert NoSends(evs[1..]) by {
        forall i | 0 <= i < |evs[1..]| ensures !evs[1..][i].Send? {
          assert evs[1..][i] == evs[i + 1];
        }
      }
      NoRetryAfterSuccess(t, evs[1..], limit);
    }
  }

  /** A pending request that is idle retries as soon as the accumulated time
      exceeds the timeout plus the retry delay, and not before. */
  lemma RetryWhenLimitPassed(s: RetryState, delta: nat, absolute: bool, limit: int)
    requires !s.succeeded && !s.sending
    ensures Step(s, Elapse(delta, absolute), limit).1 == (if s.timer + delta > limit then [s.retained] else [])
  {
  }

  /** `RetryableRequest<E, S>`: a request (reporting failures as `E` and
      successes as `S`) with the retry state. `request` is the inherited part. */
  class RetryableRequest<E, S> {
    const request: Request<E, S>
    /** delay after the timeout before a retry, in milliseconds */
    const RetryAfter: nat
    var requestSucceeded: bool
    var data: Option<Bytes>
    var filePath: string
    /** milliseconds elapsed since the last reset */
    var timer: nat

    function State(): RetryState
      reads this, request
    {
      RetryState(requestSucceeded, request.sending, Payload(data, filePath), timer)
    }

    /** `Timeout + RetryAfter`, in milliseconds. */
    function Limit(): int
      reads request
    {
      request.Timeout * 1000 + RetryAfter
    }

    constructor (request: Request<E, S>, retryAfter: nat)
      ensures this.request == request && RetryAfter == retryAfter
      ensures !requestSucceeded && data.None? && filePath == "" && timer == 0
    {
      this.request := request;
      RetryAfter := retryAfter;
      requestSucceeded, data, filePath, timer := false, None, "", 0;
    }

    function HasRequestSucceeded(): bool
      reads this
    {
      requestSucceeded
    }

    /** `Update`: nothing happens while the request has succeeded or is in
        flight; otherwise the timer advances by `delta`, and once it exceeds
        `Timeout + RetryAfter` it is reset and `retry` tells the owner to
        call `Retry`. */
    method Update(delta: nat) returns (retry: bool)
      modifies this`timer
      ensures (State(), retry) == Tick(old(State()), delta, Limit())
      ensures requestSucceeded || request.sending ==> !retry && timer == old(timer)
      ensures !requestSucceeded && !request.sending ==>
        retry == (old(timer) + delta > Limit()) && timer == (if retry then 0 else old(timer) + delta)
    {
      if requestSucceeded || request.sending {
        return false;
      }
      timer := timer + delta;
      retry := timer > request.Timeout * 1000 + RetryAfter;
      if retry {
        timer := 0;
      }
    }

    /** `AsyncSend`: keep the payload, forget any earlier success, then send. */
    method AsyncSend(data: Option<Bytes>, filePath: string, api: string, customRequest: Outgoing -> Outgoing)
      returns (started: bool)
      modifies this`requestSucceeded, this`data, this`filePath, request`Uri, request`sending, request`sent
      ensures State() == Dispatch(old(State()), Payload(data, filePath), started)
      ensures request.Uri == CreateUri(request.platform, api, request.URLEndpoint,
                                       QueryString(Some(request.Params), request.platform.escapeUrl))
      ensures started <==> request.Uri.Some?
      ensures started ==> request.sent == old(request.sent) + [customRequest(request.Prepare(request.Uri.value, data, filePath))]
      ensures !started ==> request.sent == old(request.sent)
    {
      this.data := data;
      this.filePath := filePath;
      requestSucceeded := false;
      started := request.SendRequest(api, data, filePath, customRequest);
    }

    /** `Retry`: send again exactly the payload kept by the last `AsyncSend`. */
    method Retry(api: string, customRequest: Outgoing -> Outgoing) returns (started: bool)
      modifies this`requestSucceeded, this`data, this`filePath, request`Uri, request`sending, request`sent
      ensures State() == Dispatch(old(State()), old(State()).retained, started)
      ensures data == old(data) && filePath == old(filePath)
      ensures started <==> request.Uri.Some?
      ensures started ==> request.sent == old(request.sent) + [customRequest(request.Prepare(request.Uri.value, old(data), old(filePath)))]
      ensures !started ==> request.sent == old(request.sent)
    {
      started := AsyncSend(data, filePath, api, customRequest);
    }

    /** `RequestSucceeded` and `Clear`. */
    method RequestSucceeded()
      modifies this`requestSucceeded, this`data, this`filePath, this`timer
      ensures State() == Succeed(old(State()))
    {
      requestSucceeded := true;
      filePath := "";
      data := None;
      timer := 0;
    }

    /** `OnSuccess`: a response accepted by `ValidateResponse` marks the
        request as succeeded and is passed to the success observers; any
        other response changes nothing. */
    method OnSuccess(response: Response<S>)
      modifies this`requestSucceeded, this`data, this`filePath, this`timer, request`successEvents
      ensures ValidateResponse(response) ==>
        State() == Succeed(old(State())) && request.successEvents == old(request.successEvents) + [response]
      ensures !ValidateResponse(response) ==>
        State() == old(State()) && request.successEvents == old(request.successEvents)
    {
      if ValidateResponse(response) {
        RequestSucceeded();
        request.FireResponseSuccess(response);
      }
    }

    /** The end of an exchange: the request stops sending; failures go to
        the error observers, anything else is classified as `S` and goes to
        `OnSuccess`. Only the type of the path taken is classified. */
    method Receive(x: Exchange, codec: Codec<S>)
      requires x.isNetworkError || x.isHttpError ==> CanClassify(x, request.errorCodec)
      requires !(x.isNetworkError || x.isHttpError) ==> CanClassify(x, codec)
      modifies this`requestSucceeded, this`data, this`filePath, this`timer
      modifies request`sending, request`successEvents, request`errorEvents
      ensures var accepted := !(x.isNetworkError || x.isHttpError) &&
                              ValidateResponse(ParseResponse(x, codec, request.AutoDetect));
              State() == Step(old(State()), Reply(accepted), Limit()).0
      ensures x.isNetworkError || x.isHttpError ==>
        request.errorEvents == old(request.errorEvents) + [ParseResponse(x, request.errorCodec, request.AutoDetect)] &&
        request.successEvents == old(request.successEvents)
      ensures !(x.isNetworkError || x.isHttpError) ==>
        var response := ParseResponse(x, codec, request.AutoDetect);
        request.successEvents == old(request.successEvents) + (if ValidateResponse(response) then [response] else []) &&
        request.errorEvents == old(request.errorEvents)
    {
      var failed := request.Complete(x);
      if failed {
        request.ErrorHandler(x);
      } else {
        var response := ParseResponse(x, codec, request.AutoDetect);
        OnSuccess(response);
      }
    }
  }
}
