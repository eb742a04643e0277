/**
 * The player-side quiz service (src/services/quiz.js): the 2xx rule applied to every
 * response, the error-message priority chain applied to every failure, and the bounded
 * retry of `startAttempt`. The HTTP client is not modelled: each call is an `ApiOutcome`
 * supplied as input, and the waits between retries are recorded as numbers.
 */
module QuizService {
  import opened Text
  import opened JsValue

  /** The parts of an HTTP response the service reads. */
  datatype Response = Response(status: int, statusText: string, data: Value)

  /** The HTTP client either resolves with a response or rejects with an error. */
  datatype ApiOutcome = Responded(response: Response) | Rejected(error: JsError)

  const RequestFailed := "Request failed"
  const NetworkError := "Network error occurred"
  const UniqueResult := "unique result"
  const MaxRetries := 3

  predicate IsSuccess(status: int) {
    200 <= status < 300
  }

  /** `handleResponse`: the payload of a 2xx response, otherwise an Error carrying the status text. */
  function HandleResponse(r: Response): (o: Outcome<Value, string>)
    ensures o.Returned? <==> IsSuccess(r.status)
    ensures o.Returned? ==> o.value == r.data
    ensures o.Threw? ==> o.error == (if r.statusText != "" then r.statusText else RequestFailed)
    ensures o.Threw? ==> o.error != ""
  {
    if IsSuccess(r.status) then Returned(r.data)
    else Threw(if r.statusText != "" then r.statusText else RequestFailed)
  }

  /**
   * `handleError` never returns: it always throws. The result is the message of the Error
   * it throws: `data.message`, else `data.error`, else `data` itself (when the response
   * carries truthy data), else the caught error's own message, else a fixed text.
   */
  function HandleError(e: JsError): (message: string)
    ensures Truthy(e.responseData) && Truthy(Get(e.responseData, "message"))
            ==> message == ToJsString(Get(e.responseData, "message"))
    ensures Truthy(e.responseData) && !Truthy(Get(e.responseData, "message")) && Truthy(Get(e.responseData, "error"))
            ==> message == ToJsString(Get(e.responseData, "error"))
    ensures Truthy(e.responseData) && !Truthy(Get(e.responseData, "message")) && !Truthy(Get(e.responseData, "error"))
            ==> message == ToJsString(e.responseData)
    ensures !Truthy(e.responseData) && e.message != "" ==> message == e.message
    ensures !Truthy(e.responseData) && e.message == "" ==> message == NetworkError
  {
    var data := e.responseData;
    if Truthy(data) then ToJsString(Or(Get(data, "message"), Or(Get(data, "error"), data)))
    else if e.message != "" then e.message
    else NetworkError
  }

  /** The error the `catch` block of a service method sees for a failed call. */
  function CaughtError(o: ApiOutcome): (e: JsError)
    ensures o.Rejected? ==> e == o.error
    ensures o.Responded? ==> e.responseData == Undefined
  {
    match o
    case Rejected(err) => err
    case Responded(r) =>
      JsError(Undefined, if HandleResponse(r).Threw? then HandleResponse(r).error else "")
  }

  /**
   * A wrapped service method (`try { return handleResponse(await api.x()) } catch (e) { return handleError(e) }`):
   * it returns the payload of a 2xx response and otherwise throws the message `handleError` builds.
   */
  function ServiceCall(o: ApiOutcome): (r: Outcome<Value, string>)
    ensures r.Returned? <==> o.Responded? && IsSuccess(o.response.status)
    ensures r.Returned? ==> r.value == o.response.data
    ensures o.Rejected? ==> r == Threw(HandleError(o.error))
  {
    match o
    case Responded(resp) =>
      if IsSuccess(resp.status) then Returned(resp.data) else Threw(HandleError(CaughtError(o)))
    case Rejected(err) => Threw(HandleError(err))
  }

  /**
   * An unwrapped service method (`return (await api.x()).data`): the payload of whatever
   * response arrives, or the rejection as it is.
   */
  function PlainCall(o: ApiOutcome): (r: Outcome<Value, JsError>)
    ensures r.Returned? <==> o.Responded?
    ensures r.Returned? ==> r.value == o.response.data
    ensures r.Threw? ==> r.error == o.error
  {
    match o
    case Responded(resp) => Returned(resp.data)
    case Rejected(err) => Threw(err)
  }

  /** A non-2xx response fails with its status text, or "Request failed" when that is empty. */
  lemma NonSuccessResponseMessage(r: Response)
    requires !IsSuccess(r.status)
    ensures ServiceCall(Responded(r)) == Threw(if r.statusText != "" then r.statusText else RequestFailed)
  {
    var e := CaughtError(Responded(r));
    assert !Truthy(e.responseData) && e.message != "";
  }

  /** The fixed fallback text appears only when there is neither response data nor an error message. */
  lemma NetworkErrorOnlyWithoutDetails(e: JsError)
    requires HandleError(e) == NetworkError
    ensures Truthy(e.responseData) || e.message == "" || e.message == NetworkError
  {
  }

  /** A failed call takes part in the retry rule when its caught message mentions "unique result". */
  predicate IsUniqueResultFailure(o: ApiOutcome) {
    ServiceCall(o).Threw? && Contains(CaughtError(o).message, UniqueResult)
  }

  /** What one `startAttempt` run does: its outcome, how many start requests it sent, and the waits between them. */
  datatype StartRun = StartRun(result: Outcome<Value, string>, calls: nat, delays: seq<int>)

  /**
   * `startAttempt(id, retryCount)` as written: the recursion of the source, with the
   * responses the start endpoint gives, in order, as `outcomes`.
   */
  function StartAttemptFrom(outcomes: seq<ApiOutcome>, retryCount: nat): StartRun
    requires retryCount <= MaxRetries && |outcomes| > MaxRetries - retryCount
    decreases MaxRetries - retryCount
  {
    var o := outcomes[0];
    if ServiceCall(o).Returned? then StartRun(ServiceCall(o), 1, [])
    else if Contains(CaughtError(o).message, UniqueResult) && retryCount < MaxRetries then
      var rest := StartAttemptFrom(outcomes[1..], retryCount + 1);
      StartRun(rest.result, rest.calls + 1, [1000 * (retryCount + 1)] + rest.delays)
    else StartRun(Threw(HandleError(CaughtError(o))), 1, [])
  }

  /** A run started with `retryCount` already spent, seen from the outermost call. */
  function Prefixed(delays: seq<int>, run: StartRun): StartRun {
    StartRun(run.result, run.calls + |delays|, delays + run.delays)
  }

  /** One retry moves its wait from the rest of the run into the delays already taken. */
  lemma RetryStep(outcomes: seq<ApiOutcome>, retryCount: nat, delays: seq<int>)
    requires retryCount < MaxRetries && |outcomes| > MaxRetries - retryCount
    requires !ServiceCall(outcomes[0]).Returned? && Contains(CaughtError(outcomes[0]).message, UniqueResult)
    ensures Prefixed(delays, StartAttemptFrom(outcomes, retryCount))
            == Prefixed(delays + [1000 * (retryCount + 1)], StartAttemptFrom(outcomes[1..], retryCount + 1))
  {
    var rest := StartAttemptFrom(outcomes[1..], retryCount + 1);
    assert delays + ([1000 * (retryCount + 1)] + rest.delays) == (delays + [1000 * (retryCount + 1)]) + rest.delays;
  }

  /**
   * `startAttempt` as a loop over the start endpoint's successive outcomes. At most
   * MaxRetries + 1 outcomes are ever consumed, so the input holds that many.
   */
  method StartAttempt(outcomes: seq<ApiOutcome>) returns (result: Outcome<Value, string>, calls: nat, delays: seq<int>)
    requires |outcomes| > MaxRetries
    ensures StartRun(result, calls, delays) == StartAttemptFrom(outcomes, 0)
  {
    var retryCount := 0;
    delays := [];
    while true
      invariant retryCount <= MaxRetries
      invariant |delays| == retryCount
      invariant StartAttemptFrom(outcomes, 0) == Prefixed(delays, StartAttemptFrom(outcomes[retryCount..], retryCount))
      decreases MaxRetries - retryCount
    {
      var o := outcomes[retryCount];
      var r := ServiceCall(o);
      if r.Returned? {
        result, calls := r, retryCount + 1;
        return;
      }
      var error := CaughtError(o);
      if Contains(error.message, UniqueResult) && retryCount < MaxRetries {
        ghost var here := outcomes[retryCount..];
        assert here[1..] == outcomes[retryCount + 1..];
        RetryStep(here, retryCount, delays);
        delays := delays + [1000 * (retryCount + 1)];
        retryCount := retryCount + 1;
      } else {
        result, calls := Threw(HandleError(error)), retryCount + 1;
        return;
      }
    }
  }

  /** At least one and at most MaxRetries + 1 start requests are sent, with one wait before each retry. */
  lemma {:induction false} StartAttemptBounded(outcomes: seq<ApiOutcome>, retryCount: nat)
    requires retryCount <= MaxRetries && |outcomes| > MaxRetries - retryCount
    ensures var run := StartAttemptFrom(outcomes, retryCount);
            1 <= run.calls <= MaxRetries + 1 - retryCount && |run.delays| == run.calls - 1
    decreases MaxRetries - retryCount
  {
    var o := outcomes[0];
    if !ServiceCall(o).Returned? && Contains(CaughtError(o).message, UniqueResult) && retryCount < MaxRetries {
      StartAttemptBounded(outcomes[1..], retryCount + 1);
    }
  }

  /** The k-th retry waits 1000·k ms, so the waits are exactly 1000, 2000, 3000 in that order. */
  lemma {:induction false} StartAttemptDelays(outcomes: seq<ApiOutcome>, retryCount: nat)
    requires retryCount <= MaxRetries && |outcomes| > MaxRetries - retryCount
    ensures var run := StartAttemptFrom(outcomes, retryCount);
            forall k | 0 <= k < |run.delays| :: run.delays[k] == 1000 * (retryCount + k + 1)
    decreases MaxRetries - retryCount
  {
    var o := outcomes[0];
    if !ServiceCall(o).Returned? && Contains(CaughtError(o).message, UniqueResult) && retryCount < MaxRetries {
      StartAttemptDelays(outcomes[1..], retryCount + 1);
    }
  }

  /** The waits of a run from the first call strictly increase. */
  lemma StartAttemptDelaysIncrease(outcomes: seq<ApiOutcome>)
    requires |outcomes| > MaxRetries
    ensures var d := StartAttemptFrom(outcomes, 0).delays;
            forall j, k | 0 <= j < k < |d| :: d[j] < d[k]
  {
    StartAttemptDelays(outcomes, 0);
  }

  /**
   * Every request but the last failed with a "unique result" message, and the run's
   * outcome is the last request's: its payload on success, handleError's message otherwise.
   */
  lemma {:induction false} StartAttemptRetriesOnlyOnUniqueResult(outcomes: seq<ApiOutcome>, retryCount: nat)
    requires retryCount <= MaxRetries && |outcomes| > MaxRetries - retryCount
    ensures var run := StartAttemptFrom(outcomes, retryCount);
            1 <= run.calls <= |outcomes|
            && (forall j | 0 <= j < run.calls - 1 :: IsUniqueResultFailure(outcomes[j]))
            && var last := outcomes[run.calls - 1];
               (run.result.Returned? <==> ServiceCall(last).Returned?)
               && (run.result.Returned? ==> run.result == ServiceCall(last))
               && (run.result.Threw? ==> run.result == Threw(HandleError(CaughtError(last))))
    decreases MaxRetries - retryCount
  {
    var o := outcomes[0];
    var run := StartAttemptFrom(outcomes, retryCount);
    if !ServiceCall(o).Returned? && Contains(CaughtError(o).message, UniqueResult) && retryCount < MaxRetries {
      StartAttemptRetriesOnlyOnUniqueResult(outcomes[1..], retryCount + 1);
      var rest := StartAttemptFrom(outcomes[1..], retryCount + 1);
      forall j | 0 <= j < run.calls - 1 ensures IsUniqueResultFailure(outcomes[j]) {
        if j > 0 {
          assert outcomes[1..][j - 1] == outcomes[j];
        }
      }
      assert outcomes[1..][rest.calls - 1] == outcomes[run.calls - 1];
    }
  }

  /** A first failure that is not a "unique result" ends the run at once: one request, no wait. */
  lemma OtherFailureIsNotRetried(outcomes: seq<ApiOutcome>)
    requires |outcomes| > MaxRetries
    requires ServiceCall(outcomes[0]).Threw? && !Contains(CaughtError(outcomes[0]).message, UniqueResult)
    ensures StartAttemptFrom(outcomes, 0) == StartRun(Threw(HandleError(CaughtError(outcomes[0]))), 1, [])
  {
  }

  /** Two "unique result" failures then a success: three requests, waits of 1000 then 2000 ms, the third payload. */
  lemma TwoConflictsThenSuccess(outcomes: seq<ApiOutcome>)
    requires |outcomes| > MaxRetries
    requires IsUniqueResultFailure(outcomes[0]) && IsUniqueResultFailure(outcomes[1])
    requires ServiceCall(outcomes[2]).Returned?
    ensures StartAttemptFrom(outcomes, 0) == StartRun(ServiceCall(outcomes[2]), 3, [1000, 2000])
  {
    assert outcomes[1..][0] == outcomes[1];
    assert outcomes[1..][1..][0] == outcomes[2];
  }

  /** Four "unique result" failures in a row: four requests, then the fourth failure is reported. */
  lemma RetriesAreExhausted(outcomes: seq<ApiOutcome>)
    requires |outcomes| > MaxRetries
    requires forall j | 0 <= j <= MaxRetries :: IsUniqueResultFailure(outcomes[j])
    ensures StartAttemptFrom(outcomes, 0).calls == MaxRetries + 1
    ensures StartAttemptFrom(outcomes, 0).result == Threw(HandleError(CaughtError(outcomes[3])))
  {
    var o1 := outcomes[1..];
    var o2 := o1[1..];
    var o3 := o2[1..];
    assert o1[0] == outcomes[1] && o2[0] == outcomes[2] && o3[0] == outcomes[3];
    var last := Threw(HandleError(CaughtError(outcomes[3])));
    assert StartAttemptFrom(o3, 3) == StartRun(last, 1, []);
    assert StartAttemptFrom(o2, 2).calls == 2 && StartAttemptFrom(o2, 2).result == last;
    assert StartAttemptFrom(o1, 1).calls == 3 && StartAttemptFrom(o1, 1).result == last;
  }
}
