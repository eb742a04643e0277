/**
 * The quiz player (src/components/Player/QuizPlayer.js): starts an attempt, loads its
 * current question, submits the selected answer and, depending on the feedback, either
 * schedules the completion callback or the next question. The component's state hooks
 * are the fields of `Player`; every server call is an `ApiOutcome` passed to the event
 * that consumes it, and a `setTimeout` is a pending `Timer` fired by `FireTimer`.
 */
module QuizPlayer {
  import opened JsValue
  import opened QuizService

  /** The requests the player sends, in order. */
  datatype Request =
    | StartRequest
    | QuestionRequest(attemptId: Value)
    | SubmitRequest(attemptId: Value, answer: Value)

  /** A pending `setTimeout`. */
  datatype Timer =
    | CompleteAfter(ms: int, finalScore: Value, passed: Value)
    | LoadNextAfter(ms: int, attemptId: Value)

  /** What the component renders, by the order of its early returns. */
  datatype Screen = LoadingQuiz | ErrorScreen(message: string) | LoadingQuestion | QuestionScreen

  const StartFailed := "Failed to start quiz"
  const LoadFailed := "Failed to load question"
  const SelectFirst := "Please select an answer"
  const SubmitFailed := "Failed to submit answer"
  const CompleteDelay := 2000
  const NextDelay := 1500

  function StartRequests(n: nat): (r: seq<Request>)
    ensures |r| == n && forall i | 0 <= i < n :: r[i] == StartRequest
  {
    seq(n, _ => StartRequest)
  }

  predicate AnswersTruthy(rs: seq<Request>) {
    forall i | 0 <= i < |rs| :: rs[i].SubmitRequest? ==> Truthy(rs[i].answer)
  }

  /** Sending more requests keeps every submitted answer truthy when the new ones are. */
  lemma AnswersTruthyAppend(a: seq<Request>, b: seq<Request>)
    requires AnswersTruthy(a) && AnswersTruthy(b)
    ensures AnswersTruthy(a + b)
  {
    forall i | 0 <= i < |a + b| ensures (a + b)[i].SubmitRequest? ==> Truthy((a + b)[i].answer) {
      if i >= |a| {
        assert (a + b)[i] == b[i - |a|];
      }
    }
  }

  /** Every question request and submit in `rs` is for the attempt `id`. */
  predicate RequestsFor(rs: seq<Request>, id: Value) {
    forall i | 0 <= i < |rs| :: !rs[i].StartRequest? ==> rs[i].attemptId == id
  }

  /** Every scheduled next-question load in `ts` is for the attempt `id`. */
  predicate TimersFor(ts: seq<Timer>, id: Value) {
    forall i | 0 <= i < |ts| :: ts[i].LoadNextAfter? ==> ts[i].attemptId == id
  }

  lemma RequestsForAppend(a: seq<Request>, b: seq<Request>, id: Value)
    ensures RequestsFor(a, id) && RequestsFor(b, id) ==> RequestsFor(a + b, id)
  {
    if RequestsFor(a, id) && RequestsFor(b, id) {
      forall i | 0 <= i < |a + b| ensures !(a + b)[i].StartRequest? ==> (a + b)[i].attemptId == id {
        if i >= |a| {
          assert (a + b)[i] == b[i - |a|];
        }
      }
    }
  }

  lemma TimersForAppend(a: seq<Timer>, b: seq<Timer>, id: Value)
    ensures TimersFor(a, id) && TimersFor(b, id) ==> TimersFor(a + b, id)
  {
    if TimersFor(a, id) && TimersFor(b, id) {
      forall i | 0 <= i < |a + b| ensures (a + b)[i].LoadNextAfter? ==> (a + b)[i].attemptId == id {
        if i >= |a| {
          assert (a + b)[i] == b[i - |a|];
        }
      }
    }
  }

  /** Removing a fired timer keeps the others' attempt. */
  lemma TimersForRemove(ts: seq<Timer>, i: nat, id: Value)
    requires i < |ts|
    ensures TimersFor(ts, id) ==> TimersFor(ts[..i] + ts[i + 1..], id)
  {
    if TimersFor(ts, id) {
      var r := ts[..i] + ts[i + 1..];
      forall k | 0 <= k < |r| ensures r[k].LoadNextAfter? ==> r[k].attemptId == id {
        if k < i {
          assert r[k] == ts[k];
        } else {
          assert r[k] == ts[k + 1];
        }
      }
    }
  }

  class Player {
    var attempt: Value
    var currentQuestion: Value
    var selectedAnswer: Value
    var feedback: Value
    var loading: bool
    var error: string
    /** Requests sent, waits spent between start retries, alerts shown, timers pending, `onComplete` calls. */
    var requests: seq<Request>
    var waits: seq<int>
    var alerts: seq<string>
    var timers: seq<Timer>
    var completions: seq<(Value, Value)>

    /** Every answer ever submitted was truthy: the empty selection is never sent. */
    ghost predicate Valid()
      reads this
    {
      AnswersTruthy(requests)
    }

    /** `attempt.attemptId` (undefined while there is no attempt). */
    function AttemptId(): Value
      reads this
    {
      Get(attempt, "attemptId")
    }

    /** Every question request, submit and scheduled next-question load is for the current attempt. */
    predicate SameAttempt()
      reads this
    {
      RequestsFor(requests, AttemptId()) && TimersFor(timers, AttemptId())
    }

    function View(): (s: Screen)
      reads this
      ensures s == LoadingQuiz <==> loading
      ensures s.ErrorScreen? <==> !loading && error != ""
      ensures s == QuestionScreen <==> !loading && error == "" && Truthy(currentQuestion)
    {
      if loading then LoadingQuiz
      else if error != "" then ErrorScreen(error)
      else if !Truthy(currentQuestion) then LoadingQuestion
      else QuestionScreen
    }

    /** The radio buttons are shown while there is no feedback; `choice` is one of them. */
    predicate ChoiceShown(choice: Value)
      reads this
    {
      View() == QuestionScreen && !Truthy(feedback)
      && Get(currentQuestion, "choices").Arr? && choice in Get(currentQuestion, "choices").items
    }

    /** The "Next Question" button is shown for feedback that is not the final one. */
    predicate NextShown()
      reads this
    {
      View() == QuestionScreen && Truthy(feedback) && !Truthy(Get(feedback, "completed"))
    }

    /** Mounting the component: the initial state, then the effect runs `startQuiz`. */
    constructor(startOutcomes: seq<ApiOutcome>, questionOutcome: ApiOutcome)
      requires |startOutcomes| > MaxRetries
      ensures Valid() && SameAttempt()
      ensures alerts == [] && timers == [] && completions == []
      ensures var run := StartAttemptFrom(startOutcomes, 0);
              var started := run.result.Returned? && !IsNullish(run.result.value);
              && waits == run.delays
              && attempt == (if run.result.Returned? then run.result.value else Null)
              && (started ==>
                    requests == StartRequests(run.calls) + [QuestionRequest(Get(run.result.value, "attemptId"))]
                    && !loading
                    && (ServiceCall(questionOutcome).Returned? ==>
                          currentQuestion == ServiceCall(questionOutcome).value && selectedAnswer == Str("")
                          && feedback == Null && error == "" && View() != LoadingQuiz)
                    && (ServiceCall(questionOutcome).Threw? ==>
                          error == LoadFailed && View() == ErrorScreen(LoadFailed)
                          && currentQuestion == Null && selectedAnswer == Str("") && feedback == Null))
              && (!started ==>
                    requests == StartRequests(run.calls)
                    && loading && error == StartFailed && View() == LoadingQuiz
                    && currentQuestion == Null && selectedAnswer == Str("") && feedback == Null)
    {
      attempt := Null;
      currentQuestion := Null;
      selectedAnswer := Str("");
      feedback := Null;
      loading := true;
      error := "";
      requests := [];
      waits := [];
      alerts := [];
      timers := [];
      completions := [];
      new;
      StartQuiz(startOutcomes, questionOutcome);
    }

    /**
     * `startQuiz`: the retrying start request, then `loadQuestion` for the new attempt. A
     * failed start (or a null attempt, whose `attemptId` cannot be read) sets the error but
     * leaves `loading` on, so the loading screen stays up.
     */
    method StartQuiz(startOutcomes: seq<ApiOutcome>, questionOutcome: ApiOutcome)
      requires |startOutcomes| > MaxRetries
      requires Valid()
      modifies this
      ensures Valid()
      ensures var run := StartAttemptFrom(startOutcomes, 0);
              var started := run.result.Returned? && !IsNullish(run.result.value);
              && waits == old(waits) + run.delays
              && alerts == old(alerts) && timers == old(timers) && completions == old(completions)
              && attempt == (if run.result.Returned? then run.result.value else old(attempt))
              && (started ==>
                    var id := Get(run.result.value, "attemptId");
                    requests == old(requests) + StartRequests(run.calls) + [QuestionRequest(id)]
                    && !loading
                    && (ServiceCall(questionOutcome).Returned? ==>
                          currentQuestion == ServiceCall(questionOutcome).value && selectedAnswer == Str("")
                          && feedback == Null && error == old(error))
                    && (ServiceCall(questionOutcome).Threw? ==>
                          error == LoadFailed && currentQuestion == old(currentQuestion)
                          && selectedAnswer == old(selectedAnswer) && feedback == old(feedback)))
              && (!started ==>
                    requests == old(requests) + StartRequests(run.calls)
                    && loading && error == StartFailed && View() == LoadingQuiz
                    && currentQuestion == old(currentQuestion) && selectedAnswer == old(selectedAnswer)
                    && feedback == old(feedback))
    {
      loading := true;
      var result, calls, delays := StartAttempt(startOutcomes);
      AnswersTruthyAppend(requests, StartRequests(calls));
      requests := requests + StartRequests(calls);
      waits := waits + delays;
      match result {
        case Returned(attemptData) =>
          attempt := attemptData;
          if IsNullish(attemptData) {
            error := StartFailed;
          } else {
            LoadQuestion(Get(attemptData, "attemptId"), questionOutcome);
          }
        case Threw(_) =>
          error := StartFailed;
      }
    }

    /** `loadQuestion(attemptId)`: a fresh question clears the selection and the feedback; loading ends either way. */
    method LoadQuestion(attemptId: Value, o: ApiOutcome)
      requires Valid()
      modifies this
      ensures Valid()
      ensures old(SameAttempt()) && attemptId == AttemptId() ==> SameAttempt()
      ensures requests == old(requests) + [QuestionRequest(attemptId)]
      ensures !loading
      ensures ServiceCall(o).Returned? ==>
                currentQuestion == ServiceCall(o).value && selectedAnswer == Str("") && feedback == Null && error == old(error)
      ensures ServiceCall(o).Threw? ==>
                error == LoadFailed && currentQuestion == old(currentQuestion)
                && selectedAnswer == old(selectedAnswer) && feedback == old(feedback)
      ensures attempt == old(attempt) && waits == old(waits) && alerts == old(alerts)
      ensures timers == old(timers) && completions == old(completions)
    {
      AnswersTruthyAppend(requests, [QuestionRequest(attemptId)]);
      RequestsForAppend(requests, [QuestionRequest(attemptId)], AttemptId());
      requests := requests + [QuestionRequest(attemptId)];
      match ServiceCall(o) {
        case Returned(questionData) =>
          currentQuestion := questionData;
          selectedAnswer := Str("");
          feedback := Null;
        case Threw(_) =>
          error := LoadFailed;
      }
      loading := false;
    }

    /** Clicking a radio button. */
    method SelectAnswer(choice: Value)
      requires ChoiceShown(choice)
      modifies this
      ensures selectedAnswer == choice
      ensures attempt == old(attempt) && currentQuestion == old(currentQuestion) && feedback == old(feedback)
      ensures loading == old(loading) && error == old(error) && requests == old(requests)
      ensures waits == old(waits) && alerts == old(alerts) && timers == old(timers) && completions == old(completions)
    {
      selectedAnswer := choice;
    }

    /**
     * `handleAnswerSubmit`: without a selection it only alerts. Otherwise the answer is sent
     * for the current attempt; the feedback is stored and a completed attempt schedules
     * `onComplete(finalScore, passed)` after 2000 ms, any other the next question after 1500 ms.
     * A failed request, or a null attempt or result (reading a field of it throws), alerts.
     */
    method HandleAnswerSubmit(o: ApiOutcome)
      requires Valid()
      modifies this
      ensures Valid()
      ensures old(SameAttempt()) ==> SameAttempt()
      ensures attempt == old(attempt) && currentQuestion == old(currentQuestion) && selectedAnswer == old(selectedAnswer)
      ensures loading == old(loading) && error == old(error) && waits == old(waits) && completions == old(completions)
      ensures !Truthy(selectedAnswer) ==>
                alerts == old(alerts) + [SelectFirst] && requests == old(requests)
                && timers == old(timers) && feedback == old(feedback)
      ensures Truthy(selectedAnswer) && IsNullish(attempt) ==>
                alerts == old(alerts) + [SubmitFailed] && requests == old(requests)
                && timers == old(timers) && feedback == old(feedback)
      ensures Truthy(selectedAnswer) && !IsNullish(attempt) ==>
                var id := Get(attempt, "attemptId");
                var r := ServiceCall(o);
                requests == old(requests) + [SubmitRequest(id, selectedAnswer)]
                && (r.Threw? ==> alerts == old(alerts) + [SubmitFailed] && timers == old(timers) && feedback == old(feedback))
                && (r.Returned? ==> feedback == r.value)
                && (r.Returned? && IsNullish(r.value) ==> alerts == old(alerts) + [SubmitFailed] && timers == old(timers))
                && (r.Returned? && !IsNullish(r.value) && Truthy(Get(r.value, "completed")) ==>
                      alerts == old(alerts)
                      && timers == old(timers) + [CompleteAfter(CompleteDelay, Get(r.value, "finalScore"), Get(r.value, "passed"))])
                && (r.Returned? && !IsNullish(r.value) && !Truthy(Get(r.value, "completed")) ==>
                      alerts == old(alerts) && timers == old(timers) + [LoadNextAfter(NextDelay, id)])
    {
      if !Truthy(selectedAnswer) {
        alerts := alerts + [SelectFirst];
        return;
      }
      if IsNullish(attempt) {
        alerts := alerts + [SubmitFailed];
        return;
      }
      var id := Get(attempt, "attemptId");
      AnswersTruthyAppend(requests, [SubmitRequest(id, selectedAnswer)]);
      RequestsForAppend(requests, [SubmitRequest(id, selectedAnswer)], AttemptId());
      requests := requests + [SubmitRequest(id, selectedAnswer)];
      match ServiceCall(o) {
        case Threw(_) =>
          alerts := alerts + [SubmitFailed];
        case Returned(result) =>
          feedback := result;
          if IsNullish(result) {
            alerts := alerts + [SubmitFailed];
          } else if Truthy(Get(result, "completed")) {
            timers := timers + [CompleteAfter(CompleteDelay, Get(result, "finalScore"), Get(result, "passed"))];
          } else {
            TimersForAppend(timers, [LoadNextAfter(NextDelay, id)], AttemptId());
            timers := timers + [LoadNextAfter(NextDelay, id)];
          }
      }
    }

    /** A pending timer fires: it is removed and runs `onComplete` or `loadQuestion` (with the question outcome `o`). */
    method FireTimer(i: nat, o: ApiOutcome)
      requires i < |timers| && Valid()
      modifies this
      ensures Valid()
      ensures old(SameAttempt()) ==> SameAttempt()
      ensures timers == old(timers[..i] + timers[i + 1..])
      ensures old(timers[i]).CompleteAfter? ==>
                completions == old(completions) + [(old(timers[i]).finalScore, old(timers[i]).passed)]
                && requests == old(requests) && currentQuestion == old(currentQuestion) && feedback == old(feedback)
                && loading == old(loading) && error == old(error) && selectedAnswer == old(selectedAnswer)
      ensures old(timers[i]).LoadNextAfter? ==>
                completions == old(completions) && requests == old(requests) + [QuestionRequest(old(timers[i]).attemptId)]
                && !loading
                && (ServiceCall(o).Returned? ==>
                      currentQuestion == ServiceCall(o).value && feedback == Null && selectedAnswer == Str("") && error == old(error))
                && (ServiceCall(o).Threw? ==>
                      error == LoadFailed && currentQuestion == old(currentQuestion)
                      && feedback == old(feedback) && selectedAnswer == old(selectedAnswer))
      ensures attempt == old(attempt) && alerts == old(alerts) && waits == old(waits)
    {
      var t := timers[i];
      TimersForRemove(timers, i, AttemptId());
      timers := timers[..i] + timers[i + 1..];
      match t {
        case CompleteAfter(_, score, passed) =>
          completions := completions + [(score, passed)];
        case LoadNextAfter(_, id) =>
          LoadQuestion(id, o);
      }
    }

    /** The "Next Question" button: `loadQuestion(attempt.attemptId)` at once. */
    method NextQuestion(o: ApiOutcome)
      requires NextShown() && Valid()
      modifies this
      ensures Valid()
      ensures old(SameAttempt()) ==> SameAttempt()
      ensures IsNullish(old(attempt)) ==>
                requests == old(requests) && currentQuestion == old(currentQuestion) && loading == old(loading)
                && error == old(error) && feedback == old(feedback) && selectedAnswer == old(selectedAnswer)
      ensures !IsNullish(old(attempt)) ==>
                requests == old(requests) + [QuestionRequest(Get(attempt, "attemptId"))] && !loading
                && (ServiceCall(o).Returned? ==>
                      currentQuestion == ServiceCall(o).value && feedback == Null && selectedAnswer == Str("") && error == old(error))
                && (ServiceCall(o).Threw? ==>
                      error == LoadFailed && View() == ErrorScreen(LoadFailed) && currentQuestion == old(currentQuestion)
                      && feedback == old(feedback) && selectedAnswer == old(selectedAnswer))
      ensures attempt == old(attempt) && alerts == old(alerts) && timers == old(timers) && completions == old(completions)
    {
      if IsNullish(attempt) {
        // Reading `attemptId` of a null attempt throws inside the click handler: nothing changes.
        return;
      }
      LoadQuestion(Get(attempt, "attemptId"), o);
    }
  }

  /**
   * Whatever `startAttempt` throws, the player shows the same text: the service throws a
   * plain Error without a `response`, so `error.response?.data?.error` is always undefined.
   */
  lemma StartErrorTextIsFixed(e: JsError)
    requires e.responseData == Undefined
    ensures ServerErrorOr(e, StartFailed) == StartFailed
  {
  }
}
