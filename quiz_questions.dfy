/**
 * The admin's question viewer (src/components/Admin/QuizQuestions.js): the answers listed
 * for a question, which answer is marked correct, the numbered headings, and the load.
 */
module QuizQuestions {
  import opened Text
  import opened JsValue
  import opened QuizService

  /** `formatAnswerList(question)`: a boolean question lists True and False, any other its `choices` or []. */
  function FormatAnswerList(question: Value): (r: Value)
    requires !IsNullish(question)
    ensures Truthy(Get(question, "isBoolean")) ==> r == Arr([Str("True"), Str("False")])
    ensures !Truthy(Get(question, "isBoolean")) && Truthy(Get(question, "choices")) ==> r == Get(question, "choices")
    ensures !Truthy(Get(question, "isBoolean")) && !Truthy(Get(question, "choices")) ==> r == Arr([])
  {
    if Truthy(Get(question, "isBoolean")) then Arr([Str("True"), Str("False")])
    else Or(Get(question, "choices"), Arr([]))
  }

  /**
   * The answer list's `map`: one mark per listed answer, set exactly on the answers equal to
   * `correctAnswer`. A truthy `choices` that is not an array has no `map` and throws.
   */
  function AnswerMarks(question: Value): (r: Outcome<seq<bool>, string>)
    requires !IsNullish(question)
    ensures r.Returned? <==> FormatAnswerList(question).Arr?
    ensures r.Threw? ==> r.error == NotAFunction
    ensures r.Returned? ==>
              var answers := FormatAnswerList(question).items;
              |r.value| == |answers|
              && forall i | 0 <= i < |answers| :: r.value[i] <==> answers[i] == Get(question, "correctAnswer")
  {
    var list := FormatAnswerList(question);
    if list.Arr? then
      Returned(seq(|list.items|, i requires 0 <= i < |list.items| => list.items[i] == Get(question, "correctAnswer")))
    else Threw(NotAFunction)
  }

  /** A boolean question marks True or False, whichever `correctAnswer` is, and ignores its `choices`. */
  lemma BooleanQuestionMarks(question: Value)
    requires !IsNullish(question) && Truthy(Get(question, "isBoolean"))
    ensures AnswerMarks(question) == Returned([Get(question, "correctAnswer") == Str("True"), Get(question, "correctAnswer") == Str("False")])
  {
    var marks := AnswerMarks(question).value;
    assert |marks| == 2;
    assert marks == [marks[0], marks[1]];
  }

  /** When the listed answers are distinct, at most one of them is marked correct. */
  lemma AtMostOneMarked(question: Value, i: int, j: int)
    requires !IsNullish(question)
    requires AnswerMarks(question).Returned?
    requires var a := FormatAnswerList(question).items; forall k, l | 0 <= k < l < |a| :: a[k] != a[l]
    requires 0 <= i < j < |AnswerMarks(question).value|
    ensures !(AnswerMarks(question).value[i] && AnswerMarks(question).value[j])
  {
    var a := FormatAnswerList(question).items;
    assert a[i] != a[j];
  }

  const ObjectChild := "Objects are not valid as a React child"

  /**
   * The text React renders for a JSX child: nothing for null, undefined and booleans, the
   * children of an array side by side at any depth, `String(v)` for strings and numbers.
   * A plain object is not a valid child: rendering throws.
   */
  function ChildText(v: Value): (r: Outcome<string, string>)
    decreases v, 1
    ensures IsNullish(v) || v.Bool? ==> r == Returned("")
    ensures v.Str? || v.Num? ==> r == Returned(ToJsString(v))
    ensures v.Obj? ==> r == Threw(ObjectChild)
  {
    match v
    case Undefined => Returned("")
    case Null => Returned("")
    case Bool(_) => Returned("")
    case Num(_) => Returned(ToJsString(v))
    case Str(_) => Returned(ToJsString(v))
    case Arr(_) => ChildrenFrom(v, 0)
    case Obj(_) => Threw(ObjectChild)
  }

  /** The children of array `v` from index `i` on, rendered one after the other with no separator. */
  function ChildrenFrom(v: Value, i: nat): (r: Outcome<string, string>)
    requires v.Arr? && i <= |v.items|
    decreases v, 0, |v.items| - i
  {
    if i == |v.items| then Returned("")
    else
      match ChildText(v.items[i])
      case Threw(e) => Threw(e)
      case Returned(first) =>
        match ChildrenFrom(v, i + 1)
        case Threw(e) => Threw(e)
        case Returned(rest) => Returned(first + rest)
  }

  /** An array of strings renders as their concatenation, where `String` joins them with commas. */
  lemma {:induction false} StringChildrenConcatenate(v: Value, i: nat)
    requires v.Arr? && i <= |v.items| && forall k | 0 <= k < |v.items| :: v.items[k].Str?
    ensures ChildrenFrom(v, i) == Returned(Concat(Texts(v.items[i..])))
    decreases |v.items| - i
  {
    if i < |v.items| {
      StringChildrenConcatenate(v, i + 1);
      assert v.items[i..][1..] == v.items[i + 1..];
    }
  }

  /** The strings of a sequence of string values. */
  function Texts(items: seq<Value>): (r: seq<string>)
    requires forall k | 0 <= k < |items| :: items[k].Str?
    ensures |r| == |items| && forall k | 0 <= k < |items| :: r[k] == items[k].s
  {
    if items == [] then [] else [items[0].s] + Texts(items[1..])
  }

  function Concat(parts: seq<string>): string {
    if parts == [] then "" else parts[0] + Concat(parts[1..])
  }

  /**
   * `{index + 1}. {question.questionText}` inside the element keyed by `question.id`: a null
   * question throws on that read, and otherwise the number, ". " and the rendered text.
   */
  function Heading(index: nat, question: Value): (r: Outcome<string, string>)
    ensures IsNullish(question) ==> r == Threw(NullRead)
    ensures !IsNullish(question) ==> (r.Returned? <==> ChildText(Get(question, "questionText")).Returned?)
    ensures r.Returned? ==> r.value == NatToString(index + 1) + ". " + ChildText(Get(question, "questionText")).value
  {
    if IsNullish(question) then Threw(NullRead)
    else
      match ChildText(Get(question, "questionText"))
      case Threw(e) => Threw(e)
      case Returned(text) => Returned(NatToString(index + 1) + ". " + text)
  }

  /** The headings of the listed questions, in list order. */
  function Headings(questions: seq<Value>): (r: seq<Outcome<string, string>>)
    ensures |r| == |questions|
    ensures forall i | 0 <= i < |questions| :: r[i] == Heading(i, questions[i])
  {
    seq(|questions|, i requires 0 <= i < |questions| => Heading(i, questions[i]))
  }

  /** The i-th heading, when it renders, starts with the number i + 1: the questions are numbered 1, 2, … in order. */
  lemma HeadingsAreNumbered(questions: seq<Value>, i: int)
    requires 0 <= i < |questions| && Headings(questions)[i].Returned?
    ensures ParseInt(Headings(questions)[i].value) == Some(i + 1)
  {
    var rest := ". " + ChildText(Get(questions[i], "questionText")).value;
    assert Headings(questions)[i].value == NatToString(i + 1) + rest;
    ParseIntOfNumberedText(i + 1, rest);
  }

  /**
   * A question without text is headed by its number alone, and one whose text is the array
   * ["a", "b"] shows "1. ab", not the comma-joined "a,b" of `String`.
   */
  lemma HeadingExamples()
    ensures Heading(0, Obj(map["id" := Num(1)])) == Returned("1. ")
    ensures Heading(0, Obj(map["questionText" := Arr([Str("a"), Str("b")])])) == Returned("1. ab")
  {
    assert NatToString(1) == "1";
    var q := Obj(map["id" := Num(1)]);
    assert Get(q, "questionText") == Undefined;
    assert "1" + ". " + "" == "1. ";
    var a := Arr([Str("a"), Str("b")]);
    assert Get(Obj(map["questionText" := a]), "questionText") == a;
    assert ChildText(a.items[0]) == Returned("a") && ChildText(a.items[1]) == Returned("b");
    assert ChildrenFrom(a, 2) == Returned("");
    assert ChildrenFrom(a, 1) == Returned("b" + "");
    assert "b" + "" == "b";
    assert ChildrenFrom(a, 0) == Returned("a" + "b");
    assert ChildText(a) == ChildrenFrom(a, 0);
    assert "a" + "b" == "ab";
    assert "1" + ". " + "ab" == "1. ab";
  }

  const LoadFailed := "Failed to load questions"

  /** The viewer's state. */
  class Viewer {
    var questions: Value
    var loading: bool
    var error: string

    constructor()
      ensures questions == Arr([]) && loading && error == ""
    {
      questions := Arr([]);
      loading := true;
      error := "";
    }

    /** `loadQuestions`: the payload replaces the list, or the error is set; `loading` ends false. */
    method LoadQuestions(o: ApiOutcome)
      modifies this
      ensures !loading
      ensures ServiceCall(o).Returned? ==> questions == ServiceCall(o).value && error == old(error)
      ensures ServiceCall(o).Threw? ==> questions == old(questions) && error == LoadFailed
    {
      loading := true;
      match ServiceCall(o) {
        case Returned(data) =>
          questions := data;
        case Threw(_) =>
          error := LoadFailed;
      }
      loading := false;
    }
  }
}
