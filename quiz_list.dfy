/**
 * The admin's quiz table (src/components/Admin/QuizList.js): loading, the confirmed
 * delete, and the edit and question dialogs it opens and closes.
 */
module QuizList {
  import opened JsValue
  import opened QuizService
  import opened Lists

  const LoadFailed := "Failed to load quizzes"
  const DeleteFailed := "Failed to delete quiz"

  /** The table's state. */
  class Table {
    var quizzes: Value
    var loading: bool
    var error: string
    var editingQuiz: Value
    var viewingQuestions: Value
    var deleteConfirm: Value
    var alerts: seq<string>

    constructor()
      ensures quizzes == Arr([]) && loading && error == ""
      ensures editingQuiz == Null && viewingQuestions == Null && deleteConfirm == Null && alerts == []
    {
      quizzes := Arr([]);
      loading := true;
      error := "";
      editingQuiz := Null;
      viewingQuestions := Null;
      deleteConfirm := Null;
      alerts := [];
    }

    /** `loadQuizzes`: the payload replaces the table, or the error is set; `loading` ends false. */
    method LoadQuizzes(o: ApiOutcome)
      modifies this
      ensures !loading
      ensures editingQuiz == old(editingQuiz) && viewingQuestions == old(viewingQuestions)
      ensures deleteConfirm == old(deleteConfirm) && alerts == old(alerts)
      ensures ServiceCall(o).Returned? ==> quizzes == ServiceCall(o).value && error == old(error)
      ensures ServiceCall(o).Threw? ==> quizzes == old(quizzes) && error == LoadFailed
    {
      loading := true;
      match ServiceCall(o) {
        case Returned(data) =>
          quizzes := data;
        case Threw(_) =>
          error := LoadFailed;
      }
      loading := false;
    }

    /**
     * `handleDelete(id)`: after the server deletes, every quiz with that id leaves the table
     * and the dialog closes. A failure, or a table that is not an array (its `filter` throws
     * inside the same `try`), alerts and keeps the table and the dialog.
     */
    method HandleDelete(id: Value, o: ApiOutcome)
      modifies this
      ensures loading == old(loading) && error == old(error)
      ensures editingQuiz == old(editingQuiz) && viewingQuestions == old(viewingQuestions)
      ensures ServiceCall(o).Returned? && old(quizzes).Arr? ==>
                quizzes == Arr(RemoveWhere(old(quizzes).items, "id", id)) && deleteConfirm == Null && alerts == old(alerts)
      ensures ServiceCall(o).Returned? && old(quizzes).Arr? ==>
                !AnyWhere(quizzes.items, "id", id)
                && |quizzes.items| + CountWhere(old(quizzes).items, "id", id) == |old(quizzes).items|
      ensures !(ServiceCall(o).Returned? && old(quizzes).Arr?) ==>
                quizzes == old(quizzes) && deleteConfirm == old(deleteConfirm) && alerts == old(alerts) + [DeleteFailed]
    {
      if ServiceCall(o).Returned? && quizzes.Arr? {
        RemoveWhereLeavesNone(quizzes.items, "id", id);
        RemoveWhereCount(quizzes.items, "id", id);
        quizzes := Arr(RemoveWhere(quizzes.items, "id", id));
        deleteConfirm := Null;
      } else {
        alerts := alerts + [DeleteFailed];
      }
    }

    /** A row's Edit button opens the edit dialog on that quiz. */
    method HandleEdit(quiz: Value)
      modifies this
      ensures editingQuiz == quiz
      ensures quizzes == old(quizzes) && loading == old(loading) && error == old(error)
      ensures viewingQuestions == old(viewingQuestions) && deleteConfirm == old(deleteConfirm) && alerts == old(alerts)
    {
      editingQuiz := quiz;
    }

    /** A quiz name opens the question viewer on that quiz. */
    method HandleViewQuestions(quiz: Value)
      modifies this
      ensures viewingQuestions == quiz
      ensures quizzes == old(quizzes) && loading == old(loading) && error == old(error)
      ensures editingQuiz == old(editingQuiz) && deleteConfirm == old(deleteConfirm) && alerts == old(alerts)
    {
      viewingQuestions := quiz;
    }

    /** A row's Delete button asks to confirm the deletion of that quiz's id. */
    method AskDelete(quiz: Value)
      modifies this
      ensures deleteConfirm == Get(quiz, "id")
      ensures quizzes == old(quizzes) && loading == old(loading) && error == old(error)
      ensures editingQuiz == old(editingQuiz) && viewingQuestions == old(viewingQuestions) && alerts == old(alerts)
    {
      deleteConfirm := Get(quiz, "id");
    }

    /** `handleQuizUpdated`: the table is reloaded and the edit dialog closes. */
    method HandleQuizUpdated(o: ApiOutcome)
      modifies this
      ensures editingQuiz == Null && !loading
      ensures ServiceCall(o).Returned? ==> quizzes == ServiceCall(o).value && error == old(error)
      ensures ServiceCall(o).Threw? ==> quizzes == old(quizzes) && error == LoadFailed
      ensures viewingQuestions == old(viewingQuestions) && deleteConfirm == old(deleteConfirm) && alerts == old(alerts)
    {
      LoadQuizzes(o);
      editingQuiz := Null;
    }
  }
}
