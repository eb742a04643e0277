/**
 * The player's dashboard (src/pages/PlayerDashboard.js): the tab list selection, the
 * empty state, the recommendations header, and `loadData`, whose three parallel requests
 * are taken as one step that either sets all three lists or none.
 */
module PlayerDashboard {
  import opened JsValue
  import opened QuizService

  /** `getQuizzesForTab()`; reading a status list of a null `quizzes` throws. */
  function QuizzesForTab(activeTab: string, quizzes: Value, history: Value, recommendations: Value): (r: Outcome<Value, string>)
    ensures r.Threw? <==> activeTab in {"ongoing", "upcoming", "past"} && IsNullish(quizzes)
    ensures r.Threw? ==> r.error == NullRead
    ensures activeTab in {"ongoing", "upcoming", "past"} && !IsNullish(quizzes) ==> r == Returned(Get(quizzes, activeTab))
    ensures activeTab == "history" ==> r == Returned(history)
    ensures activeTab == "recommended" ==>
              r == Returned(if IsNullish(recommendations) then Arr([]) else Or(Get(recommendations, "recommendedQuizzes"), Arr([])))
    ensures activeTab !in {"ongoing", "upcoming", "past", "history", "recommended"} ==> r == Returned(Arr([]))
  {
    if activeTab == "ongoing" || activeTab == "upcoming" || activeTab == "past" then
      if IsNullish(quizzes) then Threw(NullRead) else Returned(Get(quizzes, activeTab))
    else if activeTab == "history" then Returned(history)
    else if activeTab == "recommended" then
      Returned(if IsNullish(recommendations) then Arr([]) else Or(Get(recommendations, "recommendedQuizzes"), Arr([])))
    else Returned(Arr([]))
  }

  /** `list.length === 0`; the length of null or undefined throws, a value without a length is never 0. */
  function IsEmptyList(list: Value): (r: Outcome<bool, string>)
    ensures r.Threw? <==> IsNullish(list)
    ensures list.Arr? ==> r == Returned(list.items == [])
    ensures list.Str? ==> r == Returned(list.s == "")
  {
    match list
    case Undefined => Threw(NullRead)
    case Null => Threw(NullRead)
    case Arr(items) => Returned(items == [])
    case Str(s) => Returned(s == "")
    case Obj(_) => Returned(Get(list, "length") == Num(0))
    case _ => Returned(false)
  }

  /** The empty state under the grid shows for the tab's list exactly when that list is empty. */
  function ShowsEmptyState(activeTab: string, quizzes: Value, history: Value, recommendations: Value): (r: Outcome<bool, string>)
    ensures var list := QuizzesForTab(activeTab, quizzes, history, recommendations);
            list.Returned? && list.value.Arr? ==> r == Returned(list.value.items == [])
    ensures QuizzesForTab(activeTab, quizzes, history, recommendations).Threw? ==> r.Threw?
  {
    match QuizzesForTab(activeTab, quizzes, history, recommendations)
    case Returned(list) => IsEmptyList(list)
    case Threw(e) => Threw(e)
  }

  /** `activeTab === 'recommended' && recommendations`: the recommendations header shows. */
  predicate ShowsRecommendationsHeader(activeTab: string, recommendations: Value) {
    activeTab == "recommended" && Truthy(recommendations)
  }

  /** The tab the page opens on matches no list, so it always shows the empty state. */
  lemma InitialTabIsEmpty(quizzes: Value, history: Value, recommendations: Value)
    ensures QuizzesForTab("available", quizzes, history, recommendations) == Returned(Arr([]))
    ensures ShowsEmptyState("available", quizzes, history, recommendations) == Returned(true)
    ensures !ShowsRecommendationsHeader("available", recommendations)
  {
  }

  /** Missing recommendations, or a response without a list, give the empty list and the empty state. */
  lemma MissingRecommendationsAreEmpty(quizzes: Value, history: Value, recommendations: Value)
    requires !Truthy(Get(recommendations, "recommendedQuizzes"))
    ensures QuizzesForTab("recommended", quizzes, history, recommendations) == Returned(Arr([]))
    ensures ShowsEmptyState("recommended", quizzes, history, recommendations) == Returned(true)
  {
  }

  /** The dashboard's state. */
  class Dashboard {
    var activeTab: string
    var quizzes: Value
    var history: Value
    var recommendations: Value
    var loading: bool

    constructor()
      ensures activeTab == "available" && loading
      ensures quizzes == Obj(map["ongoing" := Arr([]), "upcoming" := Arr([]), "past" := Arr([])])
      ensures history == Arr([]) && recommendations == Null
    {
      activeTab := "available";
      quizzes := Obj(map["ongoing" := Arr([]), "upcoming" := Arr([]), "past" := Arr([])]);
      history := Arr([]);
      recommendations := Null;
      loading := true;
    }

    /** A tab button. */
    method SetTab(tab: string)
      modifies this
      ensures activeTab == tab
      ensures quizzes == old(quizzes) && history == old(history) && recommendations == old(recommendations) && loading == old(loading)
    {
      activeTab := tab;
    }

    /**
     * `loadData`: when the status, history and recommendations requests all return, their
     * payloads replace the three lists; if any one fails, none changes. `loading` ends false.
     */
    method LoadData(status: ApiOutcome, hist: ApiOutcome, rec: ApiOutcome)
      modifies this
      ensures !loading && activeTab == old(activeTab)
      ensures PlainCall(status).Returned? && PlainCall(hist).Returned? && PlainCall(rec).Returned? ==>
                quizzes == PlainCall(status).value && history == PlainCall(hist).value
                && recommendations == PlainCall(rec).value
      ensures !(PlainCall(status).Returned? && PlainCall(hist).Returned? && PlainCall(rec).Returned?) ==>
                quizzes == old(quizzes) && history == old(history) && recommendations == old(recommendations)
    {
      loading := true;
      var s := PlainCall(status);
      var h := PlainCall(hist);
      var r := PlainCall(rec);
      if s.Returned? && h.Returned? && r.Returned? {
        quizzes := s.value;
        history := h.value;
        recommendations := r.value;
      }
      loading := false;
    }

  }
}
