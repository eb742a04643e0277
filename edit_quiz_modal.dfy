/**
 * The admin's edit dialog (src/components/Admin/EditQuizModal.js): the quiz form of the
 * create dialog, filled from the quiz being edited, with the same edits and the same
 * validation, and a submit that sends an update for the quiz's id.
 */
module EditQuizModal {
  import opened Text
  import opened JsValue
  import opened QuizService
  import opened CreateQuizModal
  import Forms

  /**
   * The fields of the edited quiz the dialog reads. A start or end date is `None` when the
   * quiz's value is falsy, else the instant it denotes in milliseconds.
   */
  datatype QuizRecord = QuizRecord(
    id: Value,
    name: Value,
    category: Value,
    difficulty: Value,
    startDate: Option<int>,
    endDate: Option<int>,
    minPassingPercentage: Value)

  const MinuteMs := 60000

  /**
   * `new Date(d).toISOString().slice(0, 16)`: the text keeps the date, the hour and the
   * minute, so the instant the input shows is the start of its minute.
   */
  function ToMinute(t: int): (r: int)
    ensures r % MinuteMs == 0
    ensures r <= t < r + MinuteMs
  {
    t - t % MinuteMs
  }

  function DateInputOf(d: Option<int>): (r: DateInput)
    ensures r.Blank? <==> d.None?
    ensures d.Some? ==> r.t == ToMinute(d.value)
  {
    match d
    case None => Blank
    case Some(t) => At(ToMinute(t))
  }

  /** The form's initial values: name and category as given, difficulty `|| 'EASY'`, the pass mark `|| 60`. */
  function InitialFormOf(q: QuizRecord): (r: QuizForm)
    ensures r.name == q.name && r.category == q.category
    ensures r.difficulty == (if Truthy(q.difficulty) then q.difficulty else Str("EASY"))
    ensures r.minPassingPercentage == (if Truthy(q.minPassingPercentage) then q.minPassingPercentage else Num(60))
    ensures r.startDate == DateInputOf(q.startDate) && r.endDate == DateInputOf(q.endDate)
  {
    QuizForm(q.name, q.category, Or(q.difficulty, Str("EASY")), DateInputOf(q.startDate), DateInputOf(q.endDate),
             Or(q.minPassingPercentage, Num(60)))
  }

  /** Truncating to the minute keeps the order of two instants, except that both may land on the same minute. */
  lemma ToMinuteMonotone(a: int, b: int)
    requires a <= b
    ensures ToMinute(a) <= ToMinute(b)
  {
    if ToMinute(b) < ToMinute(a) {
      assert ToMinute(b) + MinuteMs <= ToMinute(a) by {
        ModuloGap(ToMinute(a), ToMinute(b));
      }
    }
  }

  /** Two distinct multiples of a minute are at least a minute apart. */
  lemma ModuloGap(x: int, y: int)
    requires x % MinuteMs == 0 && y % MinuteMs == 0 && y < x
    ensures y + MinuteMs <= x
  {
    assert x == MinuteMs * (x / MinuteMs);
    assert y == MinuteMs * (y / MinuteMs);
    assert y / MinuteMs < x / MinuteMs;
    assert (y / MinuteMs + 1) <= x / MinuteMs;
    assert MinuteMs * (y / MinuteMs + 1) <= MinuteMs * (x / MinuteMs);
  }

  /**
   * The unchanged form of a quiz passes validation exactly when its name is a non-blank
   * string, its category is truthy, both dates are set and the end falls in a later minute
   * than the start, and the pass mark (60 when falsy) is in range.
   */
  lemma InitialFormValidIff(q: QuizRecord)
    ensures FormValid(InitialFormOf(q)) <==>
              && q.name.Str? && !IsBlank(q.name.s) && Truthy(q.category)
              && q.startDate.Some? && q.endDate.Some? && ToMinute(q.startDate.value) < ToMinute(q.endDate.value)
              && !OutOfRange(Or(q.minPassingPercentage, Num(60)))
  {
  }

  /** A quiz that ends within the minute it starts is refused unless a date is edited. */
  lemma SameMinuteIsRefused(q: QuizRecord)
    requires q.startDate.Some? && q.endDate.Some?
    requires q.startDate.value <= q.endDate.value < ToMinute(q.startDate.value) + MinuteMs
    ensures !FormValid(InitialFormOf(q))
  {
    ToMinuteMonotone(q.startDate.value, q.endDate.value);
    var s := ToMinute(q.startDate.value);
    var e := ToMinute(q.endDate.value);
    if s < e {
      ModuloGap(e, s);
    }
  }

  /** A pass mark of 0 is falsy, so the form starts at 60 instead. */
  lemma ZeroPassMarkBecomesSixty(q: QuizRecord)
    requires q.minPassingPercentage == Num(0)
    ensures InitialFormOf(q).minPassingPercentage == Num(60)
  {
  }

  /** The edit dialog's state, with the calls it makes and the alerts it shows. */
  class Modal {
    const quiz: QuizRecord
    var form: QuizForm
    var errors: map<Field, string>
    var isSubmitting: bool
    /** The `(id, form)` pairs sent to `updateQuiz`, `onQuizUpdated`/`onClose` calls, alerts. */
    var requests: seq<(Value, QuizForm)>
    var updatedCalls: nat
    var closeCalls: nat
    var alerts: seq<string>

    constructor(q: QuizRecord)
      ensures quiz == q && form == InitialFormOf(q) && errors == map[] && !isSubmitting
      ensures requests == [] && updatedCalls == 0 && closeCalls == 0 && alerts == []
    {
      quiz := q;
      form := InitialFormOf(q);
      errors := map[];
      isSubmitting := false;
      requests := [];
      updatedCalls := 0;
      closeCalls := 0;
      alerts := [];
    }

    /** `handleChange`: as in the create dialog, only the named field and its error change. */
    method HandleChange(e: Edit)
      modifies this
      ensures form == Apply(old(form), e)
      ensures errors == Forms.ClearError(old(errors), FieldName(e))
      ensures isSubmitting == old(isSubmitting) && requests == old(requests) && alerts == old(alerts)
      ensures updatedCalls == old(updatedCalls) && closeCalls == old(closeCalls)
    {
      form := Apply(form, e);
      errors := Forms.ClearError(errors, FieldName(e));
    }

    /** `validateForm`: the create dialog's rules; a name that is not a string makes `trim` throw. */
    method ValidateForm() returns (valid: Outcome<bool, string>)
      modifies this
      ensures valid.Returned? <==> form.name.Str?
      ensures valid.Returned? ==> QuizErrorsOf(form, errors)
      ensures valid.Returned? ==> (valid.value <==> errors == map[]) && (valid.value <==> FormValid(form))
      ensures valid.Threw? ==> errors == old(errors)
      ensures form == old(form) && isSubmitting == old(isSubmitting) && requests == old(requests) && alerts == old(alerts)
      ensures updatedCalls == old(updatedCalls) && closeCalls == old(closeCalls)
    {
      var r := ValidateQuizForm(form);
      match r {
        case Returned(newErrors) =>
          NoErrorsIffValid(form, newErrors);
          errors := newErrors;
          valid := Returned(|newErrors| == 0);
        case Threw(message) =>
          valid := Threw(message);
      }
    }

    /**
     * `handleSubmit`: a valid form is sent as an update of the quiz's id; success tells the
     * parent and closes, failure shows an alert. The form is kept either way.
     */
    method HandleSubmit(o: ApiOutcome)
      modifies this
      ensures isSubmitting == if FormValid(old(form)) then false else old(isSubmitting)
      ensures form == old(form)
      ensures old(form).name.Str? ==> QuizErrorsOf(old(form), errors)
      ensures old(form).name.Str? ==> (errors == map[] <==> FormValid(old(form)))
      ensures !old(form).name.Str? ==> errors == old(errors)
      ensures requests == if FormValid(old(form)) then old(requests) + [(quiz.id, old(form))] else old(requests)
      ensures FormValid(old(form)) && ServiceCall(o).Returned? ==>
                updatedCalls == old(updatedCalls) + 1 && closeCalls == old(closeCalls) + 1 && alerts == old(alerts)
      ensures FormValid(old(form)) && ServiceCall(o).Threw? ==>
                updatedCalls == old(updatedCalls) && closeCalls == old(closeCalls)
                && alerts == old(alerts) + ["Failed to update quiz. Please try again."]
      ensures !FormValid(old(form)) ==>
                alerts == old(alerts) && updatedCalls == old(updatedCalls) && closeCalls == old(closeCalls)
    {
      var valid := ValidateForm();
      if valid.Threw? || !valid.value {
        return;
      }
      isSubmitting := true;
      requests := requests + [(quiz.id, form)];
      match ServiceCall(o) {
        case Returned(_) =>
          updatedCalls := updatedCalls + 1;
          closeCalls := closeCalls + 1;
        case Threw(_) =>
          alerts := alerts + ["Failed to update quiz. Please try again."];
      }
      isSubmitting := false;
    }
  }
}
