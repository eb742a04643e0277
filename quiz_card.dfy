/**
 * A quiz card of the player's dashboard (src/components/Player/QuizCard.js): the tab
 * predicates that choose its button, the difficulty class, and the bookmark, like-count,
 * play and complete handlers.
 */
module QuizCard {
  import opened Text
  import opened JsValue
  import opened QuizService

  predicate IsUpcoming(tab: string) {
    tab == "upcoming"
  }

  predicate IsPast(tab: string) {
    tab == "past" || tab == "history"
  }

  predicate CanPlay(tab: string) {
    tab == "ongoing" || tab == "recommended"
  }

  /** At most one of the three buttons shows, and only the five dashboard tabs show any. */
  lemma TabButtonsExclusive(tab: string)
    ensures !(CanPlay(tab) && IsUpcoming(tab)) && !(CanPlay(tab) && IsPast(tab)) && !(IsUpcoming(tab) && IsPast(tab))
    ensures (CanPlay(tab) || IsUpcoming(tab) || IsPast(tab)) <==> tab in {"ongoing", "recommended", "upcoming", "past", "history"}
  {
  }

  /** `getDifficultyClass(difficulty)`: '' when missing, else `difficulty-` and the lower-cased text. */
  function DifficultyClass(difficulty: Value): (r: Outcome<string, string>)
    ensures !Truthy(difficulty) ==> r == Returned("")
    ensures Truthy(difficulty) && difficulty.Str? ==>
              r.Returned? && |r.value| == |"difficulty-"| + |difficulty.s| && r.value[..|"difficulty-"|] == "difficulty-"
    ensures Truthy(difficulty) && !difficulty.Str? ==> r == Threw(NotAFunction)
  {
    if !Truthy(difficulty) then Returned("")
    else if difficulty.Str? then Returned("difficulty-" + ToLower(difficulty.s))
    else Threw(NotAFunction)
  }

  /** The three difficulties the admin form offers give the three stylesheet classes. */
  lemma DifficultyClasses()
    ensures DifficultyClass(Str("EASY")) == Returned("difficulty-easy")
    ensures DifficultyClass(Str("MEDIUM")) == Returned("difficulty-medium")
    ensures DifficultyClass(Str("HARD")) == Returned("difficulty-hard")
  {
    assert DifficultyClass(Str("EASY")) == Returned("difficulty-easy") by {
      LowerCaseClass("EASY", "easy");
      assert "difficulty-" + "easy" == "difficulty-easy";
    }
    assert DifficultyClass(Str("HARD")) == Returned("difficulty-hard") by {
      LowerCaseClass("HARD", "hard");
      assert "difficulty-" + "hard" == "difficulty-hard";
    }
    MediumClass();
  }

  /** MEDIUM lowers to the class `difficulty-medium`, checked letter by letter. */
  lemma MediumClass()
    ensures DifficultyClass(Str("MEDIUM")) == Returned("difficulty-medium")
  {
    var r := ToLower("MEDIUM");
    assert r[0] == 'm' && r[1] == 'e' && r[2] == 'd' && r[3] == 'i' && r[4] == 'u' && r[5] == 'm';
    assert r == "medium";
    assert "difficulty-" + "medium" == "difficulty-medium";
  }

  /** A difficulty whose lower-cased text is `lower` gets the class `difficulty-lower`. */
  lemma LowerCaseClass(s: string, lower: string)
    requires s != "" && |lower| == |s|
    requires forall i | 0 <= i < |s| :: lower[i] == (if 'A' <= s[i] <= 'Z' then (s[i] as int + 32) as char else s[i])
    ensures DifficultyClass(Str(s)) == Returned("difficulty-" + lower)
  {
    assert ToLower(s) == lower;
  }

  /** Lower-casing is idempotent, so a difficulty already in lower case gives the same class. */
  lemma DifficultyClassIgnoresCase(s: string)
    requires s != ""
    ensures DifficultyClass(Str(ToLower(s))) == DifficultyClass(Str(s))
  {
    assert ToLower(ToLower(s)) == ToLower(s);
  }

  datatype BookmarkRequest = Bookmark(quizId: Value) | RemoveBookmark(quizId: Value)

  /** One card's state. */
  class Card {
    const quiz: Value
    const tab: string
    /** Whether the parent passed `onQuizCompleted`. */
    const hasOnQuizCompleted: bool
    var isBookmarked: Value
    var likeCount: Value
    var playingQuiz: bool
    var loading: bool
    var requests: seq<BookmarkRequest>
    var completedCalls: nat

    constructor(quiz: Value, tab: string, hasOnQuizCompleted: bool)
      ensures this.quiz == quiz && this.tab == tab && this.hasOnQuizCompleted == hasOnQuizCompleted
      ensures isBookmarked == Bool(false) && likeCount == Num(0) && !playingQuiz && !loading
      ensures requests == [] && completedCalls == 0
    {
      this.quiz := quiz;
      this.tab := tab;
      this.hasOnQuizCompleted := hasOnQuizCompleted;
      isBookmarked := Bool(false);
      likeCount := Num(0);
      playingQuiz := false;
      loading := false;
      requests := [];
      completedCalls := 0;
    }

    /** `loadBookmarkStatus`: takes `data.bookmarked`; a failed call or a null payload changes nothing. */
    method LoadBookmarkStatus(o: ApiOutcome)
      modifies this
      ensures PlainCall(o).Returned? && !IsNullish(PlainCall(o).value) ==> isBookmarked == Get(PlainCall(o).value, "bookmarked")
      ensures !(PlainCall(o).Returned? && !IsNullish(PlainCall(o).value)) ==> isBookmarked == old(isBookmarked)
      ensures likeCount == old(likeCount) && playingQuiz == old(playingQuiz) && loading == old(loading)
      ensures requests == old(requests) && completedCalls == old(completedCalls)
    {
      var r := PlainCall(o);
      if r.Returned? && !IsNullish(r.value) {
        isBookmarked := Get(r.value, "bookmarked");
      }
    }

    /** `loadLikeCount`: takes `data.likes`; a failed call or a null payload changes nothing. */
    method LoadLikeCount(o: ApiOutcome)
      modifies this
      ensures PlainCall(o).Returned? && !IsNullish(PlainCall(o).value) ==> likeCount == Get(PlainCall(o).value, "likes")
      ensures !(PlainCall(o).Returned? && !IsNullish(PlainCall(o).value)) ==> likeCount == old(likeCount)
      ensures isBookmarked == old(isBookmarked) && playingQuiz == old(playingQuiz) && loading == old(loading)
      ensures requests == old(requests) && completedCalls == old(completedCalls)
    {
      var r := PlainCall(o);
      if r.Returned? && !IsNullish(r.value) {
        likeCount := Get(r.value, "likes");
      }
    }

    /**
     * `handleBookmarkToggle`: a bookmarked card asks to remove the bookmark, any other asks
     * to add one; success flips the flag, failure keeps it, and `loading` ends false.
     */
    method HandleBookmarkToggle(o: ApiOutcome)
      modifies this
      ensures !loading
      ensures requests == old(requests) + [if Truthy(old(isBookmarked)) then RemoveBookmark(Get(quiz, "id")) else Bookmark(Get(quiz, "id"))]
      ensures PlainCall(o).Returned? ==> isBookmarked == Bool(!Truthy(old(isBookmarked)))
      ensures PlainCall(o).Returned? ==> (Truthy(isBookmarked) <==> !Truthy(old(isBookmarked)))
      ensures PlainCall(o).Threw? ==> isBookmarked == old(isBookmarked)
      ensures likeCount == old(likeCount) && playingQuiz == old(playingQuiz) && completedCalls == old(completedCalls)
    {
      loading := true;
      if Truthy(isBookmarked) {
        requests := requests + [RemoveBookmark(Get(quiz, "id"))];
        if PlainCall(o).Returned? {
          isBookmarked := Bool(false);
        }
      } else {
        requests := requests + [Bookmark(Get(quiz, "id"))];
        if PlainCall(o).Returned? {
          isBookmarked := Bool(true);
        }
      }
      loading := false;
    }

    /** `handlePlayQuiz`: the card shows the player. */
    method HandlePlayQuiz()
      modifies this
      ensures playingQuiz
      ensures isBookmarked == old(isBookmarked) && likeCount == old(likeCount) && loading == old(loading)
      ensures requests == old(requests) && completedCalls == old(completedCalls)
    {
      playingQuiz := true;
    }

    /** `handleQuizComplete`: back to the card, and `onQuizCompleted` is called when it was given. */
    method HandleQuizComplete()
      modifies this
      ensures !playingQuiz
      ensures completedCalls == old(completedCalls) + (if hasOnQuizCompleted then 1 else 0)
      ensures isBookmarked == old(isBookmarked) && likeCount == old(likeCount) && loading == old(loading)
      ensures requests == old(requests)
    {
      playingQuiz := false;
      if hasOnQuizCompleted {
        completedCalls := completedCalls + 1;
      }
    }
  }

}
