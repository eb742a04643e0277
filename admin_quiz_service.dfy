/**
 * The admin quiz service (src/services/adminQuiz.js). Its `handleResponse` and
 * `handleError` are the same code as the player service's and are modelled once, in
 * QuizService. What is specific here is `safeParseQuizData`: it cuts `quiz`
 * back-references down to `{id, name}`, picks the quiz list out of the several payload
 * shapes the server uses, and projects each quiz and question onto fixed fields.
 */
module AdminQuizService {
  import opened JsValue
  import opened QuizService

  /** `value && typeof value === 'object'`: arrays and objects. */
  predicate IsObjectLike(v: Value) {
    v.Arr? || v.Obj?
  }

  /**
   * The effect of the `JSON.stringify` replacer: every property named `quiz` whose value
   * is an object or array is replaced by `{id: value.id, name: value.name}`, and the walk
   * goes on inside whatever was kept.
   */
  function StripQuizRefs(v: Value): Value
    decreases v, 0
  {
    match v
    case Arr(items) => Arr(seq(|items|, i requires 0 <= i < |items| => StripQuizRefs(items[i])))
    case Obj(m) => Obj(map k | k in m :: StripProperty(k, m[k]))
    case _ => v
  }

  /** The replacer applied to one property `key: x`, then the walk into its result. */
  function StripProperty(key: string, x: Value): Value
    decreases x, 1
  {
    if key == "quiz" && IsObjectLike(x) then
      Obj(map["id" := StripChild(x, "id"), "name" := StripChild(x, "name")])
    else StripQuizRefs(x)
  }

  /** `x.key` after the walk (undefined when absent). */
  function StripChild(x: Value, key: string): Value
    decreases x, 0
  {
    if x.Obj? && key in x.fields then StripQuizRefs(x.fields[key]) else Undefined
  }

  /** The walk keeps the kind of every value: arrays stay arrays, objects objects, the rest unchanged. */
  lemma StripKeepsKind(v: Value)
    ensures StripQuizRefs(v).Arr? <==> v.Arr?
    ensures StripQuizRefs(v).Obj? <==> v.Obj?
    ensures !IsObjectLike(v) ==> StripQuizRefs(v) == v
    ensures v.Arr? ==> |StripQuizRefs(v).items| == |v.items|
    ensures v.Obj? ==> StripQuizRefs(v).fields.Keys == v.fields.Keys
  {
  }

  /** No `quiz` property below `v` holds anything but an `{id, name}` object. */
  predicate QuizRefsReduced(v: Value)
    decreases v
  {
    match v
    case Arr(items) => forall i | 0 <= i < |items| :: QuizRefsReduced(items[i])
    case Obj(m) =>
      forall k | k in m ::
        QuizRefsReduced(m[k]) && (k == "quiz" && IsObjectLike(m[k]) ==> m[k].Obj? && m[k].fields.Keys == {"id", "name"})
    case _ => true
  }

  /** After the replacer, every object under a `quiz` key is reduced to exactly `{id, name}`, at any depth. */
  lemma {:induction false} StripReducesQuizRefs(v: Value)
    ensures QuizRefsReduced(StripQuizRefs(v))
    decreases v, 0
  {
    match v
    case Arr(items) =>
      var r := StripQuizRefs(v);
      forall i | 0 <= i < |items| ensures QuizRefsReduced(r.items[i]) {
        StripReducesQuizRefs(items[i]);
      }
    case Obj(m) =>
      var r := StripQuizRefs(v);
      forall k | k in m
        ensures QuizRefsReduced(r.fields[k])
        ensures k == "quiz" && IsObjectLike(r.fields[k]) ==> r.fields[k].Obj? && r.fields[k].fields.Keys == {"id", "name"}
      {
        PropertyReduced(k, m[k]);
        if k == "quiz" && !IsObjectLike(m[k]) {
          StripKeepsKind(m[k]);
        }
      }
    case _ =>
  }

  lemma {:induction false} PropertyReduced(key: string, x: Value)
    ensures QuizRefsReduced(StripProperty(key, x))
    decreases x, 1
  {
    if key == "quiz" && IsObjectLike(x) {
      ChildReduced(x, "id");
      ChildReduced(x, "name");
    } else {
      StripReducesQuizRefs(x);
    }
  }

  lemma {:induction false} ChildReduced(x: Value, key: string)
    ensures QuizRefsReduced(StripChild(x, key))
    decreases x, 0
  {
    if x.Obj? && key in x.fields {
      StripReducesQuizRefs(x.fields[key]);
    }
  }

  /** The list `safeParseQuizData` picks out: the array itself, `.quizzes`, `.data`, or the one value. */
  function SelectQuizList(parsed: Value): seq<Value> {
    if parsed.Arr? then parsed.items
    else if Truthy(Get(parsed, "quizzes")) && Get(parsed, "quizzes").Arr? then Get(parsed, "quizzes").items
    else if Truthy(Get(parsed, "data")) && Get(parsed, "data").Arr? then Get(parsed, "data").items
    else if Truthy(parsed) then [parsed]
    else []
  }

  const QuizFields: set<string> := {"id", "name", "category", "difficulty", "startDate", "endDate", "minPassingPercentage", "questions"}
  const QuestionFields: set<string> := {"id", "questionText", "correctAnswer", "isBoolean", "choices"}

  /** `{id: q.id, questionText: q.questionText, correctAnswer: q.correctAnswer, isBoolean: q.isBoolean, choices: q.choices}`. */
  function ProjectQuestion(q: Value): Value {
    Obj(map["id" := Get(q, "id"), "questionText" := Get(q, "questionText"), "correctAnswer" := Get(q, "correctAnswer"),
            "isBoolean" := Get(q, "isBoolean"), "choices" := Get(q, "choices")])
  }

  /** The cleaned-up quiz: seven copied fields and the projected questions ([] when not an array). */
  function ProjectQuiz(quiz: Value): Value {
    var questions := Get(quiz, "questions");
    Obj(map["id" := Get(quiz, "id"), "name" := Get(quiz, "name"), "category" := Get(quiz, "category"),
            "difficulty" := Get(quiz, "difficulty"), "startDate" := Get(quiz, "startDate"),
            "endDate" := Get(quiz, "endDate"), "minPassingPercentage" := Get(quiz, "minPassingPercentage"),
            "questions" := if questions.Arr?
                           then Arr(seq(|questions.items|, j requires 0 <= j < |questions.items| => ProjectQuestion(questions.items[j])))
                           else Arr([])])
  }

  /** Reading a field of null or undefined throws: a nullish quiz, or a nullish entry of an array `questions`. */
  predicate ProjectionThrows(quiz: Value) {
    IsNullish(quiz)
    || (Get(quiz, "questions").Arr? && exists j | 0 <= j < |Get(quiz, "questions").items| :: IsNullish(Get(quiz, "questions").items[j]))
  }

  /** `safeParseQuizData`; its `catch` turns a throwing projection into []. */
  function SafeParseQuizData(data: Value): seq<Value> {
    if !Truthy(data) then []
    else
      var quizzes := SelectQuizList(StripQuizRefs(data));
      if exists i | 0 <= i < |quizzes| :: ProjectionThrows(quizzes[i]) then []
      else seq(|quizzes|, i requires 0 <= i < |quizzes| => ProjectQuiz(quizzes[i]))
  }

  /** A falsy payload gives the empty list. */
  lemma FalsyPayloadIsEmpty(data: Value)
    requires !Truthy(data)
    ensures SafeParseQuizData(data) == []
  {
  }

  /**
   * Shape precedence: an array is the list; otherwise `.quizzes` when it is an array;
   * otherwise `.data` when it is an array; otherwise the single object.
   */
  lemma ShapePrecedence(data: Value)
    requires Truthy(data)
    ensures var list := SelectQuizList(StripQuizRefs(data));
            var quizzes := Get(data, "quizzes");
            var inner := Get(data, "data");
      && (data.Arr? ==> ListOf(list, data))
      && (!data.Arr? && quizzes.Arr? ==> ListOf(list, quizzes))
      && (!data.Arr? && !quizzes.Arr? && inner.Arr? ==> ListOf(list, inner))
      && (!data.Arr? && !quizzes.Arr? && !inner.Arr? ==> list == [StripQuizRefs(data)])
  {
    StripKeepsKind(data);
    if data.Obj? {
      if "quizzes" in data.fields { StripKeepsKind(data.fields["quizzes"]); }
      if "data" in data.fields { StripKeepsKind(data.fields["data"]); }
    }
  }

  /** `list` is the array `a` with the replacer applied to each element. */
  predicate ListOf(list: seq<Value>, a: Value)
    requires a.Arr?
  {
    |list| == |a.items| && forall i | 0 <= i < |list| :: list[i] == StripQuizRefs(a.items[i])
  }

  /**
   * Unless some entry throws (and the whole result is then []), the output has one
   * cleaned quiz per selected entry, in the same order.
   */
  lemma ParsePreservesLengthAndOrder(data: Value)
    requires Truthy(data)
    ensures var quizzes := SelectQuizList(StripQuizRefs(data));
            var r := SafeParseQuizData(data);
            (forall i | 0 <= i < |quizzes| :: !ProjectionThrows(quizzes[i]))
            ==> |r| == |quizzes| && forall i | 0 <= i < |quizzes| :: r[i] == ProjectQuiz(quizzes[i])
  {
  }

  /** A cleaned quiz carries exactly the eight fields, the first seven copied from the input. */
  lemma ProjectedQuizFields(quiz: Value)
    ensures ProjectQuiz(quiz).fields.Keys == QuizFields
    ensures forall k | k in QuizFields && k != "questions" :: ProjectQuiz(quiz).fields[k] == Get(quiz, k)
  {
    var m := ProjectQuiz(quiz).fields;
    assert m["id"] == Get(quiz, "id") && m["name"] == Get(quiz, "name") && m["category"] == Get(quiz, "category");
    assert m["difficulty"] == Get(quiz, "difficulty") && m["startDate"] == Get(quiz, "startDate");
    assert m["endDate"] == Get(quiz, "endDate") && m["minPassingPercentage"] == Get(quiz, "minPassingPercentage");
  }

  /** `questions` is [] unless the input's is an array, and then it maps one-to-one onto projected questions. */
  lemma ProjectedQuestions(quiz: Value)
    ensures var out := ProjectQuiz(quiz).fields["questions"];
            var qs := Get(quiz, "questions");
            out.Arr?
            && (!qs.Arr? ==> out.items == [])
            && (qs.Arr? ==> |out.items| == |qs.items|
                            && forall j | 0 <= j < |qs.items| :: out.items[j] == ProjectQuestion(qs.items[j])
                                                              && out.items[j].fields.Keys == QuestionFields)
  {
  }

  /** Every quiz `safeParseQuizData` returns is free of `quiz` back-references beyond `{id, name}`. */
  lemma ParsedQuizzesAreReduced(data: Value)
    ensures forall i | 0 <= i < |SafeParseQuizData(data)| :: QuizRefsReduced(SafeParseQuizData(data)[i])
  {
    if Truthy(data) {
      var quizzes := SelectQuizList(StripQuizRefs(data));
      StripReducesQuizRefs(data);
      SelectedReduced(StripQuizRefs(data));
      if !exists i | 0 <= i < |quizzes| :: ProjectionThrows(quizzes[i]) {
        forall i | 0 <= i < |quizzes| ensures QuizRefsReduced(ProjectQuiz(quizzes[i])) {
          ProjectQuizReduced(quizzes[i]);
        }
      }
    }
  }

  /** A property read of a reduced value is reduced. */
  lemma GetReduced(v: Value, key: string)
    requires QuizRefsReduced(v)
    ensures QuizRefsReduced(Get(v, key))
  {
  }

  /** The entries of the list picked out of a reduced payload are reduced. */
  lemma SelectedReduced(parsed: Value)
    requires QuizRefsReduced(parsed)
    ensures forall i | 0 <= i < |SelectQuizList(parsed)| :: QuizRefsReduced(SelectQuizList(parsed)[i])
  {
    GetReduced(parsed, "quizzes");
    GetReduced(parsed, "data");
  }

  /** Adding a reduced value under a key other than `quiz` keeps an object reduced. */
  lemma UpdateReduced(m: map<string, Value>, key: string, v: Value)
    requires QuizRefsReduced(Obj(m)) && key != "quiz" && QuizRefsReduced(v)
    ensures QuizRefsReduced(Obj(m[key := v]))
  {
    var m' := m[key := v];
    forall k | k in m'
      ensures QuizRefsReduced(m'[k]) && (k == "quiz" && IsObjectLike(m'[k]) ==> m'[k].Obj? && m'[k].fields.Keys == {"id", "name"})
    {
      if k != key {
        assert m'[k] == m[k];
      }
    }
  }

  /** The question copy of a reduced question is reduced: its five fields are and none is `quiz`. */
  lemma ProjectQuestionReduced(q: Value)
    requires QuizRefsReduced(q)
    ensures QuizRefsReduced(ProjectQuestion(q))
  {
    var m0: map<string, Value> := map[];
    assert QuizRefsReduced(Obj(m0));
    GetReduced(q, "id");
    UpdateReduced(m0, "id", Get(q, "id"));
    var m1 := m0["id" := Get(q, "id")];
    GetReduced(q, "questionText");
    UpdateReduced(m1, "questionText", Get(q, "questionText"));
    var m2 := m1["questionText" := Get(q, "questionText")];
    GetReduced(q, "correctAnswer");
    UpdateReduced(m2, "correctAnswer", Get(q, "correctAnswer"));
    var m3 := m2["correctAnswer" := Get(q, "correctAnswer")];
    GetReduced(q, "isBoolean");
    UpdateReduced(m3, "isBoolean", Get(q, "isBoolean"));
    var m4 := m3["isBoolean" := Get(q, "isBoolean")];
    GetReduced(q, "choices");
    UpdateReduced(m4, "choices", Get(q, "choices"));
    assert ProjectQuestion(q) == Obj(m4["choices" := Get(q, "choices")]);
  }

  /** The projected questions of a reduced `questions` value are reduced. */
  lemma ProjectedQuestionsReduced(questions: Value)
    requires QuizRefsReduced(questions)
    ensures QuizRefsReduced(if questions.Arr?
                            then Arr(seq(|questions.items|, j requires 0 <= j < |questions.items| => ProjectQuestion(questions.items[j])))
                            else Arr([]))
  {
    if questions.Arr? {
      var projected := seq(|questions.items|, j requires 0 <= j < |questions.items| => ProjectQuestion(questions.items[j]));
      forall j | 0 <= j < |projected| ensures QuizRefsReduced(projected[j]) {
        ProjectQuestionReduced(questions.items[j]);
      }
    }
  }

  /** The quiz copy of a reduced quiz is reduced, its projected questions included. */
  lemma ProjectQuizReduced(quiz: Value)
    requires QuizRefsReduced(quiz)
    ensures QuizRefsReduced(ProjectQuiz(quiz))
  {
    var m0: map<string, Value> := map[];
    assert QuizRefsReduced(Obj(m0));
    GetReduced(quiz, "id");
    UpdateReduced(m0, "id", Get(quiz, "id"));
    var m1 := m0["id" := Get(quiz, "id")];
    GetReduced(quiz, "name");
    UpdateReduced(m1, "name", Get(quiz, "name"));
    var m2 := m1["name" := Get(quiz, "name")];
    GetReduced(quiz, "category");
    UpdateReduced(m2, "category", Get(quiz, "category"));
    var m3 := m2["category" := Get(quiz, "category")];
    GetReduced(quiz, "difficulty");
    UpdateReduced(m3, "difficulty", Get(quiz, "difficulty"));
    var m4 := m3["difficulty" := Get(quiz, "difficulty")];
    GetReduced(quiz, "startDate");
    UpdateReduced(m4, "startDate", Get(quiz, "startDate"));
    var m5 := m4["startDate" := Get(quiz, "startDate")];
    GetReduced(quiz, "endDate");
    UpdateReduced(m5, "endDate", Get(quiz, "endDate"));
    var m6 := m5["endDate" := Get(quiz, "endDate")];
    GetReduced(quiz, "minPassingPercentage");
    UpdateReduced(m6, "minPassingPercentage", Get(quiz, "minPassingPercentage"));
    var m7 := m6["minPassingPercentage" := Get(quiz, "minPassingPercentage")];
    var questions := Get(quiz, "questions");
    GetReduced(quiz, "questions");
    ProjectedQuestionsReduced(questions);
    var projected := if questions.Arr?
                     then Arr(seq(|questions.items|, j requires 0 <= j < |questions.items| => ProjectQuestion(questions.items[j])))
                     else Arr([]);
    UpdateReduced(m7, "questions", projected);
    assert ProjectQuiz(quiz) == Obj(m7["questions" := projected]);
  }

  /** `adminQuizService.getAllQuizzes`: the cleaned list on 2xx, otherwise the message `handleError` builds. */
  function GetAllQuizzes(o: ApiOutcome): (r: Outcome<seq<Value>, string>)
    ensures r.Returned? <==> ServiceCall(o).Returned?
    ensures r.Returned? ==> r.value == SafeParseQuizData(ServiceCall(o).value)
    ensures r.Threw? ==> r.error == ServiceCall(o).error
  {
    match ServiceCall(o)
    case Returned(data) => Returned(SafeParseQuizData(data))
    case Threw(message) => Threw(message)
  }

  /** `adminQuizService.getQuiz`: the first cleaned quiz, `undefined` when the list is empty. */
  function GetQuiz(o: ApiOutcome): (r: Outcome<Value, string>)
    ensures r.Returned? <==> ServiceCall(o).Returned?
    ensures r.Returned? ==> var list := SafeParseQuizData(ServiceCall(o).value);
                            r.value == if list == [] then Undefined else list[0]
  {
    match GetAllQuizzes(o)
    case Returned(list) => Returned(if list == [] then Undefined else list[0])
    case Threw(message) => Threw(message)
  }

  /** A single quiz object (no list shape) comes back as that quiz, cleaned. */
  lemma GetQuizOfSingleObject(o: ApiOutcome)
    requires o.Responded? && IsSuccess(o.response.status)
    requires var d := o.response.data; d.Obj? && !Get(d, "quizzes").Arr? && !Get(d, "data").Arr?
    requires !ProjectionThrows(StripQuizRefs(o.response.data))
    ensures GetQuiz(o) == Returned(ProjectQuiz(StripQuizRefs(o.response.data)))
  {
    ShapePrecedence(o.response.data);
  }
}
