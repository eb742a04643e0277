/**
 * The quiz form of the admin's create dialog (src/components/Admin/CreateQuizModal.js):
 * its fields, edits, `validateForm` and the submit sequence. The edit dialog uses the
 * same form and the same validation (module EditQuizModal).
 *
 * Date inputs hold `datetime-local` text; the model keeps the instant it denotes, as an
 * integer number of milliseconds, or `Blank` for the empty text.
 */
module CreateQuizModal {
  import opened Text
  import opened JsValue
  import opened QuizService
  import Forms

  datatype DateInput = Blank | At(t: int)

  /** The form state. Inputs write strings; the initial values may be other values (a number, or whatever the edited quiz holds). */
  datatype QuizForm = QuizForm(
    name: Value,
    category: Value,
    difficulty: Value,
    startDate: DateInput,
    endDate: DateInput,
    minPassingPercentage: Value)

  const InitialForm := QuizForm(Str(""), Str(""), Str("EASY"), Blank, Blank, Num(60))

  /** One `handleChange` event: the input's `name` and its new value. */
  datatype Edit =
    | SetName(text: string)
    | SetCategory(text: string)
    | SetDifficulty(text: string)
    | SetStartDate(date: DateInput)
    | SetEndDate(date: DateInput)
    | SetMinPassing(text: string)

  /** The form's fields, by their input `name`s: name, category, difficulty, startDate, endDate, minPassingPercentage. */
  datatype Field = Name | Category | Difficulty | StartDate | EndDate | MinPassing

  function FieldName(e: Edit): Field {
    match e
    case SetName(_) => Name
    case SetCategory(_) => Category
    case SetDifficulty(_) => Difficulty
    case SetStartDate(_) => StartDate
    case SetEndDate(_) => EndDate
    case SetMinPassing(_) => MinPassing
  }

  /** `{...prev, [name]: value}`: the named field takes the new value and the others keep theirs. */
  function Apply(f: QuizForm, e: Edit): (r: QuizForm)
    ensures e.SetName? ==> r == f.(name := Str(e.text))
    ensures e.SetCategory? ==> r == f.(category := Str(e.text))
    ensures e.SetDifficulty? ==> r == f.(difficulty := Str(e.text))
    ensures e.SetStartDate? ==> r == f.(startDate := e.date)
    ensures e.SetEndDate? ==> r == f.(endDate := e.date)
    ensures e.SetMinPassing? ==> r == f.(minPassingPercentage := Str(e.text))
  {
    match e
    case SetName(v) => f.(name := Str(v))
    case SetCategory(v) => f.(category := Str(v))
    case SetDifficulty(v) => f.(difficulty := Str(v))
    case SetStartDate(d) => f.(startDate := d)
    case SetEndDate(d) => f.(endDate := d)
    case SetMinPassing(v) => f.(minPassingPercentage := Str(v))
  }

  const NameRequired := "Quiz name is required"
  const CategoryRequired := "Category is required"
  const StartRequired := "Start date is required"
  const EndRequired := "End date is required"
  const PercentRange := "Passing percentage must be between 0 and 100"
  const EndAfterStart := "End date must be after start date"
  const FormKeys := {Name, Category, StartDate, EndDate, MinPassing}

  /** `v < 0 || v > 100` with JavaScript's number conversion; NaN compares false both ways. */
  predicate OutOfRange(v: Value) {
    var n := NumberOf(v);
    n.Some? && (n.value < 0 || n.value > 100)
  }

  /** A form `validateForm` accepts, stated field by field. */
  predicate FormValid(f: QuizForm) {
    && f.name.Str? && !IsBlank(f.name.s)
    && Truthy(f.category)
    && f.startDate.At? && f.endDate.At? && f.startDate.t < f.endDate.t
    && !OutOfRange(f.minPassingPercentage)
  }

  /**
   * `validateForm`'s `newErrors`, built by the same successive assignments. `name.trim()`
   * throws unless the name is a string.
   */
  method ValidateQuizForm(f: QuizForm) returns (r: Outcome<map<Field, string>, string>)
    ensures r.Returned? <==> f.name.Str?
    ensures r.Returned? ==> r.value.Keys <= FormKeys
    ensures r.Returned? ==> (Name in r.value <==> IsBlank(f.name.s))
    ensures r.Returned? ==> (Category in r.value <==> !Truthy(f.category))
    ensures r.Returned? ==> (StartDate in r.value <==> f.startDate.Blank?)
    ensures r.Returned? ==> (EndDate in r.value <==> f.endDate.Blank? || (f.startDate.At? && f.endDate.At? && f.endDate.t <= f.startDate.t))
    ensures r.Returned? ==> (MinPassing in r.value <==> OutOfRange(f.minPassingPercentage))
    ensures r.Returned? && Name in r.value ==> r.value[Name] == NameRequired
    ensures r.Returned? && Category in r.value ==> r.value[Category] == CategoryRequired
    ensures r.Returned? && StartDate in r.value ==> r.value[StartDate] == StartRequired
    ensures r.Returned? && EndDate in r.value ==> r.value[EndDate] == if f.endDate.Blank? then EndRequired else EndAfterStart
    ensures r.Returned? && MinPassing in r.value ==> r.value[MinPassing] == PercentRange
  {
    var trimmed := CallTrim(f.name);
    if trimmed.Threw? {
      return Threw(trimmed.error);
    }
    var newErrors := RequiredErrors(f, trimmed.value == "");
    newErrors := RangeErrors(f, newErrors);
    return Returned(newErrors);
  }

  /**
   * The last two checks of `validateForm`: the passing percentage must lie in 0..100, and
   * two given dates must be in order. The entries of the first four checks are kept.
   */
  method RangeErrors(f: QuizForm, m0: map<Field, string>) returns (m: map<Field, string>)
    requires m0.Keys <= {Name, Category, StartDate, EndDate}
    requires EndDate in m0 <==> f.endDate.Blank?
    ensures m.Keys <= FormKeys
    ensures Name in m <==> Name in m0
    ensures Category in m <==> Category in m0
    ensures StartDate in m <==> StartDate in m0
    ensures EndDate in m <==> f.endDate.Blank? || (f.startDate.At? && f.endDate.At? && f.endDate.t <= f.startDate.t)
    ensures MinPassing in m <==> OutOfRange(f.minPassingPercentage)
    ensures Name in m ==> m[Name] == m0[Name]
    ensures Category in m ==> m[Category] == m0[Category]
    ensures StartDate in m ==> m[StartDate] == m0[StartDate]
    ensures EndDate in m ==> m[EndDate] == if f.endDate.Blank? then m0[EndDate] else EndAfterStart
    ensures MinPassing in m ==> m[MinPassing] == PercentRange
  {
    m := m0;
    if OutOfRange(f.minPassingPercentage) {
      m := m[MinPassing := PercentRange];
    }
    if f.startDate.At? && f.endDate.At? {
      if f.endDate.t <= f.startDate.t {
        m := m[EndDate := EndAfterStart];
      }
    }
  }

  /** The first four checks of `validateForm`: the name, the category and the two dates must be present. */
  method RequiredErrors(f: QuizForm, nameBlank: bool) returns (m: map<Field, string>)
    requires f.name.Str? && (nameBlank <==> IsBlank(f.name.s))
    ensures m.Keys <= {Name, Category, StartDate, EndDate}
    ensures Name in m <==> IsBlank(f.name.s)
    ensures Category in m <==> !Truthy(f.category)
    ensures StartDate in m <==> f.startDate.Blank?
    ensures EndDate in m <==> f.endDate.Blank?
    ensures Name in m ==> m[Name] == NameRequired
    ensures Category in m ==> m[Category] == CategoryRequired
    ensures StartDate in m ==> m[StartDate] == StartRequired
    ensures EndDate in m ==> m[EndDate] == EndRequired
  {
    m := map[];
    if nameBlank {
      m := m[Name := NameRequired];
    }
    if !Truthy(f.category) {
      m := m[Category := CategoryRequired];
    }
    if f.startDate.Blank? {
      m := m[StartDate := StartRequired];
    }
    if f.endDate.Blank? {
      m := m[EndDate := EndRequired];
    }
  }

  /**
   * `m` is the error map `validateForm` builds for `f` (whose name is a string): one entry
   * for each failed check, holding that check's message.
   */
  predicate QuizErrorsOf(f: QuizForm, m: map<Field, string>) {
    && f.name.Str? && m.Keys <= FormKeys
    && (Name in m <==> IsBlank(f.name.s))
    && (Category in m <==> !Truthy(f.category))
    && (StartDate in m <==> f.startDate.Blank?)
    && (EndDate in m <==> f.endDate.Blank? || (f.startDate.At? && f.endDate.At? && f.endDate.t <= f.startDate.t))
    && (MinPassing in m <==> OutOfRange(f.minPassingPercentage))
    && (Name in m ==> m[Name] == NameRequired)
    && (Category in m ==> m[Category] == CategoryRequired)
    && (StartDate in m ==> m[StartDate] == StartRequired)
    && (EndDate in m ==> m[EndDate] == if f.endDate.Blank? then EndRequired else EndAfterStart)
    && (MinPassing in m ==> m[MinPassing] == PercentRange)
  }

  /** The description fixes the map: a form has exactly one error map. */
  lemma QuizErrorsDetermined(f: QuizForm, m1: map<Field, string>, m2: map<Field, string>)
    requires QuizErrorsOf(f, m1) && QuizErrorsOf(f, m2)
    ensures m1 == m2
  {
    assert m1.Keys == m2.Keys;
  }

  /** The error map of `f` is empty exactly when `f` is valid. */
  lemma NoErrorsIffValid(f: QuizForm, m: map<Field, string>)
    requires QuizErrorsOf(f, m)
    ensures m == map[] <==> FormValid(f)
  {
    if FormValid(f) {
      assert m.Keys == {};
    }
  }

  /** 0 and 100 are accepted, -1 and 101 are not; an empty text is 0, so it is accepted too. */
  lemma PercentBoundaries()
    ensures !OutOfRange(Num(0)) && !OutOfRange(Num(100))
    ensures OutOfRange(Num(-1)) && OutOfRange(Num(101))
    ensures !OutOfRange(Str(""))
  {
  }

  /** The initial form is invalid: the name, category and both dates are missing. */
  lemma InitialFormMissing()
    ensures InitialForm.name.Str? && IsBlank(InitialForm.name.s) && !Truthy(InitialForm.category)
    ensures InitialForm.startDate.Blank? && InitialForm.endDate.Blank? && !OutOfRange(InitialForm.minPassingPercentage)
  {
  }

  /** The create dialog's state, with the calls it makes and the alerts it shows. */
  class Modal {
    var form: QuizForm
    var errors: map<Field, string>
    var isSubmitting: bool
    /** Forms sent to `createQuiz`, `onQuizCreated`/`onClose` calls, alerts. */
    var requests: seq<QuizForm>
    var createdCalls: nat
    var closeCalls: nat
    var alerts: seq<string>

    constructor()
      ensures form == InitialForm && errors == map[] && !isSubmitting
      ensures requests == [] && createdCalls == 0 && closeCalls == 0 && alerts == []
    {
      form := InitialForm;
      errors := map[];
      isSubmitting := false;
      requests := [];
      createdCalls := 0;
      closeCalls := 0;
      alerts := [];
    }

    /** `handleChange`: only the named field changes, and only that field's error is cleared. */
    method HandleChange(e: Edit)
      modifies this
      ensures form == Apply(old(form), e)
      ensures errors == Forms.ClearError(old(errors), FieldName(e))
      ensures isSubmitting == old(isSubmitting) && requests == old(requests) && alerts == old(alerts)
      ensures createdCalls == old(createdCalls) && closeCalls == old(closeCalls)
    {
      form := Apply(form, e);
      errors := Forms.ClearError(errors, FieldName(e));
    }

    /** `validateForm`: stores the new errors and answers whether there are none. */
    method ValidateForm() returns (valid: Outcome<bool, string>)
      modifies this
      ensures valid.Returned? <==> form.name.Str?
      ensures valid.Returned? ==> QuizErrorsOf(form, errors)
      ensures valid.Returned? ==> (valid.value <==> errors == map[]) && (valid.value <==> FormValid(form))
      ensures valid.Threw? ==> errors == old(errors)
      ensures form == old(form) && isSubmitting == old(isSubmitting) && requests == old(requests) && alerts == old(alerts)
      ensures createdCalls == old(createdCalls) && closeCalls == old(closeCalls)
    {
      var r := ValidateQuizForm(form);
      match r {
        case Returned(newErrors) =>
          NoErrorsIffValid(form, newErrors);
          errors := newErrors;
          valid := Returned(|newErrors| == 0);
        case Threw(message) =>
          valid := Threw(message);
      }
    }

    /**
     * `handleSubmit`: an invalid form sends nothing. A valid one is sent; on success the
     * parent is told and the form goes back to its initial values, on failure an alert
     * is shown and the form is kept. `isSubmitting` is off again afterwards.
     */
    method HandleSubmit(o: ApiOutcome)
      modifies this
      ensures isSubmitting == if FormValid(old(form)) then false else old(isSubmitting)
      ensures old(form).name.Str? ==> QuizErrorsOf(old(form), errors)
      ensures old(form).name.Str? ==> (errors == map[] <==> FormValid(old(form)))
      ensures !old(form).name.Str? ==> errors == old(errors)
      ensures requests == if FormValid(old(form)) then old(requests) + [old(form)] else old(requests)
      ensures FormValid(old(form)) ==>
                && (ServiceCall(o).Returned? ==>
                      form == InitialForm && createdCalls == old(createdCalls) + 1 && closeCalls == old(closeCalls) + 1
                      && alerts == old(alerts))
                && (ServiceCall(o).Threw? ==>
                      form == old(form) && createdCalls == old(createdCalls) && closeCalls == old(closeCalls)
                      && alerts == old(alerts) + ["Failed to create quiz. Please try again."])
      ensures !FormValid(old(form)) ==>
                form == old(form) && alerts == old(alerts) && createdCalls == old(createdCalls) && closeCalls == old(closeCalls)
    {
      var valid := ValidateForm();
      if valid.Threw? || !valid.value {
        return;
      }
      isSubmitting := true;
      requests := requests + [form];
      match ServiceCall(o) {
        case Returned(_) =>
          createdCalls := createdCalls + 1;
          closeCalls := closeCalls + 1;
          form := InitialForm;
        case Threw(_) =>
          alerts := alerts + ["Failed to create quiz. Please try again."];
      }
      isSubmitting := false;
    }
  }
}
