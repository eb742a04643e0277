/**
 * The quiz context provider (src/context/QuizContext.js): the shared `quizzes` and
 * `bookmarks` lists and the `loading`/`error` flags, changed by the provider's actions.
 * Each action takes the outcome of the service call it awaits and returns what the
 * action returns or rethrows (as the error's message).
 */
module QuizContext {
  import opened Text
  import opened JsValue
  import opened QuizService
  import opened Lists

  const LoadFailed := "Failed to load quizzes"
  const CreateFailed := "Failed to create quiz"
  const UpdateFailed := "Failed to update quiz"
  const DeleteFailed := "Failed to delete quiz"

  /**
   * The list `loadAllQuizzes` stores: the payload itself when it is an array, else
   * `data.quizzes || []`; `None` when reading `.quizzes` of a null payload throws.
   */
  function NormaliseQuizzes(data: Value): (r: Option<Value>)
    ensures r.None? <==> IsNullish(data)
  {
    if data.Arr? then Some(data)
    else if IsNullish(data) then None
    else Some(Or(Get(data, "quizzes"), Arr([])))
  }

  /**
   * The stored list is the payload array, or the `.quizzes` array, or [] when `.quizzes`
   * is missing or falsy; only a truthy non-array `.quizzes` is stored as something else.
   */
  lemma NormalisedQuizzesShape(data: Value)
    requires !IsNullish(data)
    ensures var r := NormaliseQuizzes(data).value;
            && (data.Arr? ==> r == data)
            && (!data.Arr? && Get(data, "quizzes").Arr? ==> r == Get(data, "quizzes"))
            && (!data.Arr? && !Truthy(Get(data, "quizzes")) ==> r == Arr([]))
            && (!r.Arr? ==> Truthy(Get(data, "quizzes")) && !Get(data, "quizzes").Arr?)
  {
  }

  class Provider {
    var quizzes: Value
    var bookmarks: seq<Value>
    var loading: bool
    var error: string

    constructor()
      ensures quizzes == Arr([]) && bookmarks == [] && !loading && error == ""
    {
      quizzes := Arr([]);
      bookmarks := [];
      loading := false;
      error := "";
    }

    /** `isQuizBookmarked(quizId)`: some bookmark carries that `quizId`. */
    predicate IsQuizBookmarked(quizId: Value)
      reads this
    {
      AnyWhere(bookmarks, "quizId", quizId)
    }

    /** `loadAllQuizzes`: stores and returns the normalised list, or sets the error and rethrows. */
    method LoadAllQuizzes(o: ApiOutcome) returns (r: Outcome<Value, string>)
      modifies this
      ensures !loading && bookmarks == old(bookmarks)
      ensures var call := ServiceCall(o);
              && (call.Returned? && !IsNullish(call.value) ==>
                    var list := NormaliseQuizzes(call.value).value;
                    quizzes == list && r == Returned(list) && error == old(error))
              && (call.Returned? && IsNullish(call.value) ==>
                    quizzes == old(quizzes) && r == Threw(NullRead) && error == LoadFailed)
              && (call.Threw? ==> quizzes == old(quizzes) && r == Threw(call.error) && error == LoadFailed)
    {
      loading := true;
      match ServiceCall(o) {
        case Returned(data) =>
          match NormaliseQuizzes(data) {
            case Some(list) =>
              quizzes := list;
              r := Returned(list);
            case None =>
              error := LoadFailed;
              r := Threw(NullRead);
          }
        case Threw(message) =>
          error := LoadFailed;
          r := Threw(message);
      }
      loading := false;
    }

    /**
     * `createQuiz`: the server's quiz is appended after the existing entries. A stored
     * string is spread into its characters first; any other non-array is left as it is.
     */
    method CreateQuiz(o: ApiOutcome) returns (r: Outcome<Value, string>)
      modifies this
      ensures !loading && bookmarks == old(bookmarks)
      ensures r == ServiceCall(o)
      ensures r.Returned? ==> error == old(error)
                              && quizzes == (if old(quizzes).Arr? then Arr(old(quizzes).items + [r.value])
                                             else if old(quizzes).Str? then Arr(SpreadString(old(quizzes).s) + [r.value])
                                             else old(quizzes))
      ensures r.Threw? ==> quizzes == old(quizzes) && error == CreateFailed
    {
      loading := true;
      r := ServiceCall(o);
      match r {
        case Returned(newQuiz) =>
          if quizzes.Arr? {
            quizzes := Arr(quizzes.items + [newQuiz]);
          } else if quizzes.Str? {
            quizzes := Arr(SpreadString(quizzes.s) + [newQuiz]);
          }
        case Threw(_) =>
          error := CreateFailed;
      }
      loading := false;
    }

    /** `updateQuiz(id, …)`: every entry whose `id` is `id` becomes the server's quiz; the rest stay in place. */
    method UpdateQuiz(id: Value, o: ApiOutcome) returns (r: Outcome<Value, string>)
      modifies this
      ensures !loading && bookmarks == old(bookmarks)
      ensures r == ServiceCall(o)
      ensures r.Returned? ==> error == old(error)
                              && quizzes == (if old(quizzes).Arr? then Arr(ReplaceWhere(old(quizzes).items, "id", id, r.value)) else old(quizzes))
      ensures r.Threw? ==> quizzes == old(quizzes) && error == UpdateFailed
    {
      loading := true;
      r := ServiceCall(o);
      match r {
        case Returned(updatedQuiz) =>
          if quizzes.Arr? {
            quizzes := Arr(ReplaceWhere(quizzes.items, "id", id, updatedQuiz));
          }
        case Threw(_) =>
          error := UpdateFailed;
      }
      loading := false;
    }

    /** `deleteQuiz(id)`: every entry with that `id` is dropped; the others keep their order. */
    method DeleteQuiz(id: Value, o: ApiOutcome) returns (r: Outcome<(), string>)
      modifies this
      ensures !loading && bookmarks == old(bookmarks)
      ensures r.Returned? <==> ServiceCall(o).Returned?
      ensures r.Returned? ==> error == old(error)
                              && quizzes == (if old(quizzes).Arr? then Arr(RemoveWhere(old(quizzes).items, "id", id)) else old(quizzes))
      ensures r.Returned? && old(quizzes).Arr? ==> !AnyWhere(quizzes.items, "id", id)
      ensures r.Threw? ==> r.error == ServiceCall(o).error && quizzes == old(quizzes) && error == DeleteFailed
    {
      loading := true;
      match ServiceCall(o) {
        case Returned(_) =>
          if quizzes.Arr? {
            quizzes := Arr(RemoveWhere(quizzes.items, "id", id));
            RemoveWhereLeavesNone(old(quizzes).items, "id", id);
          }
          r := Returned(());
        case Threw(message) =>
          error := DeleteFailed;
          r := Threw(message);
      }
      loading := false;
    }

    /** `bookmarkQuiz`: the server's bookmark is appended, even when one for the quiz is already there. */
    method BookmarkQuiz(o: ApiOutcome) returns (r: Outcome<Value, JsError>)
      modifies this
      ensures r == PlainCall(o)
      ensures quizzes == old(quizzes) && loading == old(loading) && error == old(error)
      ensures r.Returned? ==> bookmarks == old(bookmarks) + [r.value]
      ensures r.Returned? ==> IsQuizBookmarked(Get(r.value, "quizId"))
      ensures r.Threw? ==> bookmarks == old(bookmarks)
    {
      r := PlainCall(o);
      if r.Returned? {
        bookmarks := bookmarks + [r.value];
        assert KeyIs(bookmarks[|bookmarks| - 1], "quizId", Get(r.value, "quizId"));
      }
    }

    /** `removeBookmark(quizId)`: on success no bookmark for the quiz is left, and the others keep their order. */
    method RemoveBookmark(quizId: Value, o: ApiOutcome) returns (r: Outcome<Value, JsError>)
      modifies this
      ensures r == PlainCall(o)
      ensures quizzes == old(quizzes) && loading == old(loading) && error == old(error)
      ensures r.Returned? ==> bookmarks == RemoveWhere(old(bookmarks), "quizId", quizId) && !IsQuizBookmarked(quizId)
      ensures r.Threw? ==> bookmarks == old(bookmarks)
    {
      r := PlainCall(o);
      if r.Returned? {
        bookmarks := RemoveWhere(bookmarks, "quizId", quizId);
        RemoveWhereLeavesNone(old(bookmarks), "quizId", quizId);
      }
    }

    /** `clearError`. */
    method ClearError()
      modifies this
      ensures error == ""
      ensures quizzes == old(quizzes) && bookmarks == old(bookmarks) && loading == old(loading)
    {
      error := "";
    }
  }
}
