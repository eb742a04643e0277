/**
 * The error-dictionary update every form's `handleChange` performs
 * (`if (errors[name]) setErrors(prev => ({...prev, [name]: ''}))`). Each form names its
 * fields by its own enumeration `K`.
 */
module Forms {

  /** Blanks the message of `name` when it has one; every other entry is kept. */
  function ClearError<K>(errors: map<K, string>, name: K): (r: map<K, string>)
    ensures r.Keys == errors.Keys
    ensures name in r ==> r[name] == ""
    ensures forall k | k in errors && k != name :: r[k] == errors[k]
  {
    if name in errors && errors[name] != "" then errors[name := ""] else errors
  }

  /** No field carries a message. */
  predicate NoMessages<K>(errors: map<K, string>) {
    forall k | k in errors :: errors[k] == ""
  }

  /** Clearing a field can only remove messages: a form without messages stays without them. */
  lemma ClearErrorKeepsNoMessages<K>(errors: map<K, string>, name: K)
    requires NoMessages(errors)
    ensures NoMessages(ClearError(errors, name)) && ClearError(errors, name) == errors
  {
  }
}
