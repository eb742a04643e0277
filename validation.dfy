/**
 * The validation utilities (src/utils/validation.js): the field predicates, the generic
 * rule engine `getFormErrors` and the shared `validationRules`. A regular expression's
 * `test(v)` reads `String(v)`; the predicates that call a string method on the value
 * (`length`, `replace`, `toString`) throw on values that lack it, which the model
 * reports as `Threw`.
 */
module Validation {
  import opened Text
  import opened JsValue

  /** `/^[^\s@]+@[^\s@]+\.[^\s@]+$/` on a string: no white space, one '@' with text before it, and a '.' inside the domain. */
  predicate EmailShape(s: string) {
    !HasSpace(s) && exists i | 0 < i < |s| :: s[i] == '@' && OnlyAt(s, i) && DomainShape(s[i + 1..])
  }

  /** The only '@' of `s` is at index `i`. */
  predicate OnlyAt(s: string, i: int) {
    forall j | 0 <= j < |s| && s[j] == '@' :: j == i
  }

  /** `[^\s@]+\.[^\s@]+` once '@' and white space are excluded: a '.' with text on both sides. */
  predicate DomainShape(d: string) {
    exists k | 0 < k < |d| - 1 :: d[k] == '.'
  }

  /** `isValidEmail`. */
  predicate IsValidEmail(v: Value) {
    EmailShape(ToJsString(v))
  }

  /**
   * `value.length` for the values that have one: UTF-16 code units for strings, elements
   * for arrays, and an object's numeric `length` property.
   */
  function LengthOf(v: Value): Option<int> {
    match v
    case Str(s) => Some(CodeUnits(s))
    case Arr(items) => Some(|items|)
    case Obj(m) => if "length" in m && m["length"].Num? then Some(m["length"].n) else None
    case _ => None
  }

  /** `isStrongPassword`: `password.length >= 6`; a null or undefined password throws. */
  function IsStrongPassword(v: Value): (r: Outcome<bool, string>)
    ensures r.Threw? <==> IsNullish(v)
    ensures v.Str? ==> r == Returned(CodeUnits(v.s) >= 6)
  {
    if IsNullish(v) then Threw(NullRead)
    else Returned(LengthOf(v).Some? && LengthOf(v).value >= 6)
  }

  predicate IsWordChar(c: char) {
    'a' <= c <= 'z' || 'A' <= c <= 'Z' || '0' <= c <= '9' || c == '_'
  }

  /** `/^[a-zA-Z0-9_]{3,20}$/` on a string. */
  predicate UsernameShape(s: string) {
    3 <= |s| <= 20 && forall i | 0 <= i < |s| :: IsWordChar(s[i])
  }

  /** `isValidUsername`. */
  predicate IsValidUsername(v: Value) {
    UsernameShape(ToJsString(v))
  }

  /** `/^\+?[0-9]{10,15}$/` on a string. */
  predicate PhoneShape(t: string) {
    var digits := if t != [] && t[0] == '+' then t[1..] else t;
    10 <= |digits| <= 15 && AllDigits(digits)
  }

  /** `isValidPhone`: empty is fine; otherwise white space is removed and the pattern applies. Non-strings have no `replace`. */
  function IsValidPhone(v: Value): (r: Outcome<bool, string>)
    ensures !Truthy(v) ==> r == Returned(true)
    ensures r.Threw? <==> Truthy(v) && !v.Str?
  {
    if !Truthy(v) then Returned(true)
    else if v.Str? then Returned(PhoneShape(RemoveSpaces(v.s)))
    else Threw(NotAFunction)
  }

  /** `isValidAge`: empty is fine; otherwise `parseInt(age, 10)` must be a number from 13 to 120. */
  predicate IsValidAge(v: Value) {
    !Truthy(v) || (var n := ParseInt(ToJsString(v)); n.Some? && 13 <= n.value <= 120)
  }

  /** `isRequired`: not null or undefined, and `toString().trim()` is not empty. */
  predicate IsRequired(v: Value) {
    !IsNullish(v) && Trim(ToJsString(v)) != ""
  }

  /** One rule of a field; an absent property is `false`, "" or 0. */
  datatype Rule = Rule(required: bool, kind: string, minLength: int, maxLength: int, message: string)

  /** The `type` check of a rule; a rule without a known type passes it. */
  function TypeCheck(kind: string, v: Value): Outcome<bool, string> {
    if kind == "email" then Returned(IsValidEmail(v))
    else if kind == "password" then IsStrongPassword(v)
    else if kind == "username" then Returned(IsValidUsername(v))
    else if kind == "phone" then IsValidPhone(v)
    else if kind == "age" then Returned(IsValidAge(v))
    else Returned(true)
  }

  /** `rule.minLength && value && value.length < rule.minLength`, and the same for `maxLength`. */
  predicate LengthFails(r: Rule, v: Value) {
    var len := LengthOf(v);
    Truthy(v) && len.Some? && ((r.minLength != 0 && len.value < r.minLength) || (r.maxLength != 0 && len.value > r.maxLength))
  }

  /** Whether a rule rejects the value, checked in the order of the source. */
  function RuleFails(r: Rule, v: Value): Outcome<bool, string> {
    if r.required && !IsRequired(v) then Returned(true)
    else
      match TypeCheck(r.kind, v)
      case Threw(e) => Threw(e)
      case Returned(ok) => Returned(!ok || LengthFails(r, v))
  }

  /** The message of the first rule that rejects the value, if any: the inner `for … break`. */
  function FieldError(rules: seq<Rule>, v: Value): Outcome<Option<string>, string> {
    if rules == [] then Returned(None)
    else
      match RuleFails(rules[0], v)
      case Threw(e) => Threw(e)
      case Returned(fails) => if fails then Returned(Some(rules[0].message)) else FieldError(rules[1..], v)
  }

  /** `getFormErrors(formData, rules)`, the fields taken in the order of `Object.keys(rules)`. */
  function FormErrors(formData: Value, rules: seq<(string, seq<Rule>)>): Outcome<map<string, string>, string> {
    if rules == [] then Returned(map[])
    else
      match FormErrors(formData, rules[..|rules| - 1])
      case Threw(e) => Threw(e)
      case Returned(errors) =>
        var (field, fieldRules) := rules[|rules| - 1];
        if IsNullish(formData) then Threw(NullRead)
        else
          match FieldError(fieldRules, Get(formData, field))
          case Threw(e) => Threw(e)
          case Returned(found) => Returned(if found.Some? then errors[field := found.value] else errors)
  }

  /** `getFormErrors`, with its loop over the fields and its inner loop over their rules. */
  method GetFormErrors(formData: Value, rules: seq<(string, seq<Rule>)>) returns (r: Outcome<map<string, string>, string>)
    ensures r == FormErrors(formData, rules)
  {
    var errors: map<string, string> := map[];
    var i := 0;
    while i < |rules|
      invariant 0 <= i <= |rules|
      invariant FormErrors(formData, rules[..i]) == Returned(errors)
    {
      var (field, fieldRules) := rules[i];
      FormErrorsStep(formData, rules, i);
      if IsNullish(formData) {
        FormErrorsThrowPropagates(formData, rules, i + 1);
        return Threw(NullRead);
      }
      var found := FirstFailing(fieldRules, Get(formData, field));
      if found.Threw? {
        FormErrorsThrowPropagates(formData, rules, i + 1);
        return Threw(found.error);
      }
      if found.value.Some? {
        errors := errors[field := found.value.value];
      }
      i := i + 1;
    }
    assert rules[..|rules|] == rules;
    return Returned(errors);
  }

  /** The inner `for (const rule of fieldRules)` loop: the message of the first failing rule, with its `break`. */
  method FirstFailing(fieldRules: seq<Rule>, value: Value) returns (r: Outcome<Option<string>, string>)
    ensures r == FieldError(fieldRules, value)
  {
    var j := 0;
    while j < |fieldRules|
      invariant 0 <= j <= |fieldRules|
      invariant FieldError(fieldRules, value) == FieldError(fieldRules[j..], value)
    {
      var fails := RuleFails(fieldRules[j], value);
      if fails.Threw? {
        return Threw(fails.error);
      }
      if fails.value {
        return Returned(Some(fieldRules[j].message));
      }
      assert fieldRules[j..][1..] == fieldRules[j + 1..];
      j := j + 1;
    }
    return Returned(None);
  }

  /** `FormErrors` over one more field: a null form throws, then the field's own entry is added. */
  lemma FormErrorsStep(formData: Value, rules: seq<(string, seq<Rule>)>, i: int)
    requires 0 <= i < |rules|
    ensures var prefix := FormErrors(formData, rules[..i]);
            var found := FieldError(rules[i].1, Get(formData, rules[i].0));
            FormErrors(formData, rules[..i + 1]) ==
              if prefix.Threw? then Threw(prefix.error)
              else if IsNullish(formData) then Threw(NullRead)
              else if found.Threw? then Threw(found.error)
              else Returned(if found.value.Some? then prefix.value[rules[i].0 := found.value.value] else prefix.value)
  {
    assert rules[..i + 1][..i] == rules[..i];
  }

  /** A call that returns ends with the last field's entry written over the earlier fields' map. */
  lemma FormErrorsLast(formData: Value, rules: seq<(string, seq<Rule>)>)
    requires rules != [] && FormErrors(formData, rules).Returned?
    ensures var prefix := FormErrors(formData, rules[..|rules| - 1]);
            var (field, fieldRules) := rules[|rules| - 1];
            var found := FieldError(fieldRules, Get(formData, field));
            && prefix.Returned? && found.Returned?
            && FormErrors(formData, rules).value ==
                 if found.value.Some? then prefix.value[field := found.value.value] else prefix.value
  {
  }

  /** Once a prefix of the fields throws, the whole call throws the same error. */
  lemma {:induction false} FormErrorsThrowPropagates(formData: Value, rules: seq<(string, seq<Rule>)>, i: int)
    requires 0 <= i <= |rules| && FormErrors(formData, rules[..i]).Threw?
    ensures FormErrors(formData, rules) == FormErrors(formData, rules[..i])
    decreases |rules| - i
  {
    if i < |rules| {
      assert rules[..i + 1][..i] == rules[..i];
      FormErrorsThrowPropagates(formData, rules, i + 1);
    } else {
      assert rules[..i] == rules;
    }
  }

  /** Field names are the keys of an object, so they are distinct. */
  predicate DistinctFields(rules: seq<(string, seq<Rule>)>) {
    forall i, j | 0 <= i < j < |rules| :: rules[i].0 != rules[j].0
  }

  /** The message `getFormErrors` records for a field is that of its first failing rule, after rules that all passed. */
  lemma {:induction false} FieldErrorIsFirstFailing(rules: seq<Rule>, v: Value, m: string)
    requires FieldError(rules, v) == Returned(Some(m))
    ensures exists j | 0 <= j < |rules| :: rules[j].message == m && RuleFails(rules[j], v) == Returned(true)
                                          && forall k | 0 <= k < j :: RuleFails(rules[k], v) == Returned(false)
  {
    if RuleFails(rules[0], v) != Returned(true) {
      assert RuleFails(rules[0], v) == Returned(false);
      FieldErrorPassStep(rules, v);
      FieldErrorIsFirstFailing(rules[1..], v, m);
      var j :| 0 <= j < |rules[1..]| && rules[1..][j].message == m && RuleFails(rules[1..][j], v) == Returned(true)
               && forall k | 0 <= k < j :: RuleFails(rules[1..][k], v) == Returned(false);
      assert rules[j + 1] == rules[1..][j];
      forall k | 0 <= k < j + 1 ensures RuleFails(rules[k], v) == Returned(false) {
        if k > 0 { assert rules[k] == rules[1..][k - 1]; }
      }
    }
  }

  /** A field gets no entry exactly when every rule passes. */
  lemma FieldErrorNoneIffAllPass(rules: seq<Rule>, v: Value)
    ensures FieldError(rules, v) == Returned(None) <==> forall k | 0 <= k < |rules| :: RuleFails(rules[k], v) == Returned(false)
  {
    if FieldError(rules, v) == Returned(None) {
      NoneMeansAllPass(rules, v);
    }
    if forall k | 0 <= k < |rules| :: RuleFails(rules[k], v) == Returned(false) {
      AllPassMeansNone(rules, v);
    }
  }

  lemma {:induction false} NoneMeansAllPass(rules: seq<Rule>, v: Value)
    requires FieldError(rules, v) == Returned(None)
    ensures forall k | 0 <= k < |rules| :: RuleFails(rules[k], v) == Returned(false)
  {
    if rules != [] {
      FieldErrorNoneStep(rules, v);
      NoneMeansAllPass(rules[1..], v);
      HoldsForAllCons(rules, r => RuleFails(r, v) == Returned(false));
    }
  }

  /** A property of the first element and of every later one holds of every element. */
  lemma HoldsForAllCons<T>(xs: seq<T>, p: T -> bool)
    requires xs != [] && p(xs[0])
    requires forall k | 0 <= k < |xs[1..]| :: p(xs[1..][k])
    ensures forall k | 0 <= k < |xs| :: p(xs[k])
  {
    var tail := xs[1..];
    forall k | 0 <= k < |xs| ensures p(xs[k]) {
      if k > 0 {
        assert tail[k - 1] == xs[k];
      }
    }
  }

  lemma {:induction false} AllPassMeansNone(rules: seq<Rule>, v: Value)
    requires forall k | 0 <= k < |rules| :: RuleFails(rules[k], v) == Returned(false)
    ensures FieldError(rules, v) == Returned(None)
  {
    if rules != [] {
      assert RuleFails(rules[0], v) == Returned(false);
      forall k | 0 <= k < |rules[1..]| ensures RuleFails(rules[1..][k], v) == Returned(false) {
        assert rules[1..][k] == rules[k + 1];
      }
      AllPassMeansNone(rules[1..], v);
    }
  }

  /** Every key of the result names one of the rules' fields. */
  lemma {:induction false} FormErrorsKeys(formData: Value, rules: seq<(string, seq<Rule>)>)
    requires FormErrors(formData, rules).Returned?
    ensures forall k | k in FormErrors(formData, rules).value :: exists i | 0 <= i < |rules| :: rules[i].0 == k
  {
    if rules != [] {
      var init := rules[..|rules| - 1];
      FormErrorsKeys(formData, init);
      forall k | k in FormErrors(formData, rules).value ensures exists i | 0 <= i < |rules| :: rules[i].0 == k {
        if k != rules[|rules| - 1].0 {
          var i :| 0 <= i < |init| && init[i].0 == k;
          assert rules[i] == init[i];
        }
      }
    }
  }

  /**
   * For distinct fields, each field's entry is its first failing rule's message, and a
   * field whose rules all pass has no entry.
   */
  lemma {:induction false} FormErrorsPerField(formData: Value, rules: seq<(string, seq<Rule>)>, i: int)
    requires DistinctFields(rules) && 0 <= i < |rules|
    requires FormErrors(formData, rules).Returned?
    ensures var errors := FormErrors(formData, rules).value;
            var found := FieldError(rules[i].1, Get(formData, rules[i].0));
            && found.Returned?
            && (found.value.Some? ==> rules[i].0 in errors && errors[rules[i].0] == found.value.value)
            && (found.value.None? ==> rules[i].0 !in errors)
  {
    var init := rules[..|rules| - 1];
    assert DistinctFields(init);
    FormErrorsLast(formData, rules);
    if i < |rules| - 1 {
      assert init[i] == rules[i];
      FormErrorsPerField(formData, init, i);
    } else {
      FormErrorsKeys(formData, init);
      forall j | 0 <= j < |init| ensures init[j].0 != rules[i].0 {
        assert init[j] == rules[j];
      }
    }
  }

  /** `isRequired` is false exactly for null, undefined and values whose text is all white space. */
  lemma IsRequiredMeaning(v: Value)
    ensures IsRequired(v) <==> !IsNullish(v) && !IsBlank(ToJsString(v))
  {
    TrimEmptyIffBlank(ToJsString(v));
  }

  /** White space anywhere in a non-blank phone number is ignored. */
  lemma PhoneIgnoresSpaces(s: string)
    requires !IsBlank(s)
    ensures IsValidPhone(Str(s)) == IsValidPhone(Str(RemoveSpaces(s)))
  {
    var i :| 0 <= i < |s| && !IsSpace(s[i]);
    assert s[i] in RemoveSpaces(s);
    RemoveSpacesIdempotent(s);
  }

  /** A numeric age is valid exactly when it is 0 (empty) or from 13 to 120. */
  lemma AgeOfNumber(n: int)
    ensures IsValidAge(Num(n)) <==> n == 0 || 13 <= n <= 120
  {
    ParseIntOfIntToString(n);
  }

  /** Length limits are skipped for an empty value. */
  lemma LengthSkippedWhenEmpty(r: Rule, v: Value)
    requires !Truthy(v)
    ensures !LengthFails(r, v)
  {
  }

  const UsernameRules := [Rule(true, "", 0, 0, "Username is required"),
                          Rule(false, "username", 0, 0, "Username must be 3-20 characters (letters, numbers, underscores)")]
  const PasswordRules := [Rule(true, "", 0, 0, "Password is required"),
                          Rule(false, "password", 0, 0, "Password must be at least 6 characters")]
  const EmailRules := [Rule(true, "", 0, 0, "Email is required"), Rule(false, "email", 0, 0, "Email is invalid")]
  const FirstNameRules := [Rule(true, "", 0, 0, "First name is required"),
                           Rule(false, "", 2, 0, "First name must be at least 2 characters"),
                           Rule(false, "", 0, 50, "First name must be less than 50 characters")]
  const LastNameRules := [Rule(true, "", 0, 0, "Last name is required"),
                          Rule(false, "", 2, 0, "Last name must be at least 2 characters"),
                          Rule(false, "", 0, 50, "Last name must be less than 50 characters")]
  const PhoneRules := [Rule(false, "phone", 0, 0, "Phone number is invalid")]
  const AgeRules := [Rule(false, "age", 0, 0, "Age must be between 13 and 120")]

  /** `validationRules`. */
  const ValidationRules: seq<(string, seq<Rule>)> :=
    [("username", UsernameRules), ("password", PasswordRules), ("email", EmailRules), ("firstName", FirstNameRules),
     ("lastName", LastNameRules), ("phone", PhoneRules), ("age", AgeRules)]

  /**
   * A first name of 2 to 50 code units, not all white space, passes; 50 is accepted despite
   * the "less than 50" text.
   */
  lemma FirstNameLengthBounds(s: string)
    requires 2 <= CodeUnits(s) <= 50 && !IsBlank(s)
    ensures FieldError(FirstNameRules, Str(s)) == Returned(None)
  {
    var v := Str(s);
    var rest := FirstNameRules[1..];
    RequiredPasses(s);
    FieldErrorPassStep(FirstNameRules, v);
    LengthOnlyRule(rest[0], v);
    FieldErrorPassStep(rest, v);
    LengthOnlyRule(rest[1..][0], v);
    FieldErrorPassStep(rest[1..], v);
    assert rest[1..][1..] == [];
  }

  /** A first name of 51 or more code units, not all white space, gets the maxLength message. */
  lemma FirstNameTooLong(s: string)
    requires CodeUnits(s) > 50 && !IsBlank(s)
    ensures FieldError(FirstNameRules, Str(s)) == Returned(Some("First name must be less than 50 characters"))
  {
    var v := Str(s);
    var rest := FirstNameRules[1..];
    RequiredPasses(s);
    FieldErrorPassStep(FirstNameRules, v);
    LengthOnlyRule(rest[0], v);
    FieldErrorPassStep(rest, v);
    LengthOnlyRule(rest[1..][0], v);
    FieldErrorFailStep(rest[1..], v);
  }

  /** A rule with neither `required` nor a `type` fails exactly on its length bounds. */
  lemma LengthOnlyRule(r: Rule, v: Value)
    requires !r.required && r.kind == ""
    ensures RuleFails(r, v) == Returned(LengthFails(r, v))
  {
  }

  /** A passing first rule hands the field over to the remaining rules. */
  lemma FieldErrorPassStep(rules: seq<Rule>, v: Value)
    requires rules != [] && RuleFails(rules[0], v) == Returned(false)
    ensures FieldError(rules, v) == FieldError(rules[1..], v)
  {
  }

  /** No message for the field means the first rule passed and no later rule failed. */
  lemma FieldErrorNoneStep(rules: seq<Rule>, v: Value)
    requires rules != [] && FieldError(rules, v) == Returned(None)
    ensures RuleFails(rules[0], v) == Returned(false) && FieldError(rules[1..], v) == Returned(None)
  {
  }

  /** A failing first rule gives the field its message. */
  lemma FieldErrorFailStep(rules: seq<Rule>, v: Value)
    requires rules != [] && RuleFails(rules[0], v) == Returned(true)
    ensures FieldError(rules, v) == Returned(Some(rules[0].message))
  {
  }

  /**
   * A one-character first name gets the minLength message, unless the character is astral:
   * its two code units meet the minimum.
   */
  lemma FirstNameTooShort(c: char)
    requires !IsSpace(c)
    ensures FieldError(FirstNameRules, Str([c])) ==
              if IsAstral(c) then Returned(None) else Returned(Some("First name must be at least 2 characters"))
  {
    assert [c][0] == c;
    assert [c][1..] == [];
    RequiredPasses([c]);
    if IsAstral(c) {
      FirstNameLengthBounds([c]);
    }
  }

  /** Three emoji are six code units, a strong password; five ASCII letters are not. */
  lemma PasswordCountsCodeUnits()
    ensures IsStrongPassword(Str("\U{1F600}\U{1F600}\U{1F600}")) == Returned(true)
    ensures IsStrongPassword(Str("abcde")) == Returned(false)
  {
    CodeUnitsOfAstral("\U{1F600}\U{1F600}\U{1F600}");
    CodeUnitsOfBmp("abcde");
  }

  lemma RequiredPasses(s: string)
    requires !IsBlank(s)
    ensures RuleFails(FirstNameRules[0], Str(s)) == Returned(false)
  {
    IsRequiredMeaning(Str(s));
  }

  /** An email without a dot after the '@' is rejected, one with it accepted. */
  lemma EmailExamples()
    ensures !IsValidEmail(Str("a@b"))
    ensures IsValidEmail(Str("a@b.c"))
    ensures !IsValidEmail(Str("a@b@c.d"))
  {
    var e := "a@b.c";
    assert OnlyAt(e, 1);
    assert e[2..][1] == '.';
    assert DomainShape(e[2..]);
    var s := "a@b@c.d";
    forall i | 0 < i < |s| && s[i] == '@' ensures !OnlyAt(s, i) {
      if i == 1 { assert s[3] == '@'; } else { assert s[1] == '@'; }
    }
  }
}
