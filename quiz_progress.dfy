/**
 * The progress panel (src/components/Player/QuizProgress.js): how many quizzes the
 * history holds, how many were passed, and the rounded completion percentage.
 */
module QuizProgress {
  import opened JsValue

  /** `history.filter(quiz => quiz.passed).length`; every entry is an attempt record, never null. */
  function PassedCount(history: seq<Value>): (n: nat)
    requires forall i | 0 <= i < |history| :: !IsNullish(history[i])
    ensures n <= |history|
    ensures n == 0 <== (forall i | 0 <= i < |history| :: !Truthy(Get(history[i], "passed")))
    ensures n == |history| <== (forall i | 0 <= i < |history| :: Truthy(Get(history[i], "passed")))
  {
    if history == [] then 0
    else PassedCount(history[..|history| - 1]) + (if Truthy(Get(history[|history| - 1], "passed")) then 1 else 0)
  }

  /**
   * `Math.round((passed / total) * 100)`, or 0 for an empty history, in exact arithmetic:
   * the nearest integer to 100·passed/total, halves rounded up.
   */
  function Completion(passed: nat, total: nat): (c: int)
    requires passed <= total
    ensures total == 0 ==> c == 0
    ensures 0 <= c <= 100
    ensures total > 0 ==> (2 * c - 1) * total <= 200 * passed < (2 * c + 1) * total
  {
    if total > 0 then
      var c := (200 * passed + total) / (2 * total);
      RoundedBounds(passed, total, c);
      c
    else 0
  }

  /** The quotient rounding `100·passed/total` lies within half a unit of it, and between 0 and 100. */
  lemma RoundedBounds(passed: nat, total: nat, c: int)
    requires passed <= total && total > 0
    requires c == (200 * passed + total) / (2 * total)
    ensures 0 <= c <= 100
    ensures (2 * c - 1) * total <= 200 * passed < (2 * c + 1) * total
  {
    var d := 2 * total;
    var x := 200 * passed + total;
    assert x == d * c + x % d && 0 <= x % d < d;
    assert (2 * c - 1) * total == d * c - total;
    assert (2 * c + 1) * total == d * c + total;
    if c > 100 {
      MulMonotone(101, c, d);
    }
    if c < 0 {
      MulMonotone(c, -1, d);
    }
  }

  /** The three figures the panel shows (the average score is not modelled). */
  datatype Progress = Progress(totalQuizzes: nat, passedQuizzes: nat, completionPercentage: int)

  function ProgressOf(history: seq<Value>): (p: Progress)
    requires forall i | 0 <= i < |history| :: !IsNullish(history[i])
    ensures p.totalQuizzes == |history| && p.passedQuizzes <= p.totalQuizzes
    ensures 0 <= p.completionPercentage <= 100
    ensures history == [] ==> p.completionPercentage == 0
  {
    var passed := PassedCount(history);
    Progress(|history|, passed, Completion(passed, |history|))
  }

  /** The completion reaches 100 once at most half a quiz in two hundred is missing; all passed gives 100, none passed gives 0. */
  lemma CompletionExtremes(passed: nat, total: nat)
    requires passed <= total && total > 0
    ensures Completion(passed, total) == 100 <==> 200 * passed >= 199 * total
    ensures passed == total ==> Completion(passed, total) == 100
    ensures passed == 0 ==> Completion(passed, total) == 0
  {
    var c := Completion(passed, total);
    if 200 * passed >= 199 * total && c <= 99 {
      MulMonotone(2 * c + 1, 199, total);
    }
    if passed == 0 && c >= 1 {
      MulMonotone(1, 2 * c - 1, total);
    }
  }

  lemma MulMonotone(a: int, b: int, n: nat)
    requires a <= b
    ensures a * n <= b * n
  {
  }

  /** One quiz passed out of eight is 12.5%, which rounds up to 13; two of three is 67. */
  lemma CompletionExamples()
    ensures Completion(1, 8) == 13 && Completion(2, 3) == 67 && Completion(1, 3) == 33
  {
  }

  /** Passing one more quiz never lowers the completion. */
  lemma CompletionMonotone(passed: nat, total: nat)
    requires passed < total
    ensures Completion(passed, total) <= Completion(passed + 1, total)
  {
    var c1 := Completion(passed, total);
    var c2 := Completion(passed + 1, total);
    if c2 < c1 {
      MulMonotone(2 * c2 + 1, 2 * c1 - 1, total);
    }
  }
}
