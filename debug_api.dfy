/**
 * `debugAPI.parseResponse` (src/utils/debug.js): digs the quiz list out of the payload
 * shapes the server may produce. The console logging around it is left out.
 */
module DebugApi {
  import opened JsValue

  /** The value `parseResponse(response)` returns. */
  function ParseResponse(response: Value): (r: Value)
    ensures r == Null <==> !Truthy(response)
    ensures Truthy(response) ==> Truthy(r)
    ensures response.Arr? ==> r == response
  {
    if !Truthy(response) then Null
    else if response.Arr? then response
    else
      var data := Get(response, "data");
      if Truthy(data) then
        if data.Arr? then data
        else if Truthy(Get(data, "quizzes")) && Get(data, "quizzes").Arr? then Get(data, "quizzes")
        else if Truthy(Get(data, "data")) && Get(data, "data").Arr? then Get(data, "data")
        else data
      else if Truthy(Get(response, "quizzes")) && Get(response, "quizzes").Arr? then Get(response, "quizzes")
      else response
  }

  /** Parsing an array it returned gives the same array back. */
  lemma ArrayResultIsFixedPoint(response: Value)
    requires ParseResponse(response).Arr?
    ensures ParseResponse(ParseResponse(response)) == ParseResponse(response)
  {
  }

  /**
   * With a truthy `.data`, the result comes from `.data` and never from a top-level
   * `quizzes`: `data` itself when it is an array, else `data.quizzes` when that is one,
   * else `data.data` when that is one, else `data` as it is.
   */
  lemma DataTakesPrecedence(response: Value)
    requires !response.Arr? && Truthy(Get(response, "data"))
    ensures var data := Get(response, "data");
            var r := ParseResponse(response);
            && (data.Arr? ==> r == data)
            && (!data.Arr? && Get(data, "quizzes").Arr? ==> r == Get(data, "quizzes"))
            && (!data.Arr? && !Get(data, "quizzes").Arr? && Get(data, "data").Arr? ==> r == Get(data, "data"))
            && (!data.Arr? && !Get(data, "quizzes").Arr? && !Get(data, "data").Arr? ==> r == data)
  {
  }

  /** Without a truthy `.data`, a top-level `quizzes` array is the result, and otherwise the payload itself. */
  lemma TopLevelQuizzesWithoutData(response: Value)
    requires Truthy(response) && !response.Arr? && !Truthy(Get(response, "data"))
    ensures Get(response, "quizzes").Arr? ==> ParseResponse(response) == Get(response, "quizzes")
    ensures !Get(response, "quizzes").Arr? ==> ParseResponse(response) == response
  {
  }

  /**
   * The result is an array whenever the payload holds one in a recognised place, and it is
   * the first of them in the order the source tries: the payload, `data`, `data.quizzes`,
   * `data.data`, then (only without a truthy `data`) the top-level `quizzes`.
   */
  lemma RecognisedListIsFound(response: Value)
    requires Truthy(response)
    requires var data := Get(response, "data");
             response.Arr? || data.Arr? || Get(data, "quizzes").Arr? || Get(data, "data").Arr?
             || (!Truthy(data) && Get(response, "quizzes").Arr?)
    ensures ParseResponse(response).Arr?
    ensures var data := Get(response, "data");
            var r := ParseResponse(response);
            && (response.Arr? ==> r == response)
            && (!response.Arr? && data.Arr? ==> r == data)
            && (!response.Arr? && !data.Arr? && Get(data, "quizzes").Arr? ==> r == Get(data, "quizzes"))
            && (!response.Arr? && !data.Arr? && !Get(data, "quizzes").Arr? && Get(data, "data").Arr? ==> r == Get(data, "data"))
            && (!response.Arr? && !Truthy(data) && Get(response, "quizzes").Arr? ==> r == Get(response, "quizzes"))
  {
  }

  /** An object with none of the recognised fields is returned as it is. */
  lemma UnrecognisedShapeReturnedAsIs(response: Value)
    requires response.Obj? && !Truthy(Get(response, "data")) && !Get(response, "quizzes").Arr?
    ensures ParseResponse(response) == response
  {
  }
}
