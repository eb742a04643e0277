# Quiz tournament frontend — a Dafny model

This project models the decision and update logic of the quiz tournament single-page app:
its service layer, its state handlers and its validators. Players sign in, browse quizzes by
tab, bookmark them and play them one question at a time. Administrators create, edit and
delete quizzes and delete players' accounts.

Every call to the back end is an input to the model. A call is one `ApiOutcome`: a response
with a status, status text and body, or a rejection carrying the JavaScript error. The
`startAttempt` retry loop gets a sequence of such outcomes. A `setTimeout` is recorded as a
pending timer with its delay and is fired explicitly. JSON payloads are the `JsValue.Value`
datatype:

- `undefined`, `null`, booleans, integers, strings, arrays and objects;
- JavaScript truthiness, property reads (a missing key reads as `undefined`), `||`, `String(v)`
  and `Number(v)`.

A property read on `null` or `undefined` gives a `TypeError`, and so does a string method
called on a value that has none. The model makes these visible as a `Threw` outcome wherever
the source wraps the read in `try`, or where it decides what a handler does.

The modules follow the source files:

- `QuizService`: `handleResponse`, `handleError`, the wrapped and plain service methods, and
  the `startAttempt` retry loop.
- `AdminQuizService`: `safeParseQuizData`, `getAllQuizzes` and `getQuiz`.
- `DebugApi`: `parseResponse`.
- `QuizContext`: the quiz provider's list operations.
- `Validation`: the validation utilities and their rule engine.
- `CreateQuizModal` and `EditQuizModal`: the admin's quiz dialogs.
- `ProfilePage`.
- `LoginForm`, `Login` and `LoginPage`: the two sign-in forms.
- `AppRoutes`: the route guards.
- `QuizPlayer`, `QuizCard`, `QuizProgress` and `PlayerDashboard`: the player's screens.
- `QuizList`, `QuizQuestions` and `UserManagement`: the admin's tables.

Shared helpers are in `Text`, `JsValue`, `Lists` and `Forms`:

- `Text`: the fixed white-space set, trimming, ASCII lower-casing, and integer printing and
  parsing;
- `JsValue`: the JSON values above;
- `Lists`: the replace, filter and membership operations by key;
- `Forms`: clearing one field's error.

Components whose handlers update React state are classes. Their fields are the state
variables plus the calls, alerts, navigations and timers the handlers produce. Each handler
is a method whose `ensures` states the whole new state.

`adminQuiz.js` repeats `handleResponse` and `handleError` from `quiz.js` word for word, so
they are modelled once. The sign-in card and the login page share `handleChange` and
`validateForm`, so `LoginForm` defines them once. The edit dialog reuses the create dialog's
form and validation.

## Model

| member | source | states |
|---|---|---|
| JsValue.Truthy | src/components/Admin/CreateQuizModal.js:50 | Definition of `!!v`: undefined, null, false, 0 and "" are falsy; every other value, arrays and objects included, is truthy |
| JsValue.ToJsString | src/utils/validation.js:36 | Definition of `String(v)` / `toString()`: the words for undefined, null and booleans, decimal digits for numbers, the text itself, arrays joined by commas with null and undefined as "", and "[object Object]" |
| JsValue.Get | src/pages/ProfilePage.js:29-38 | A property read yields the stored value when the object has the key, and `undefined` otherwise |
| JsValue.Or | src/pages/ProfilePage.js:29-38 | `a \|\| b` is `a` when `a` is truthy, else `b` |
| JsValue.NumberOf | src/components/Admin/CreateQuizModal.js:53 | Number conversion on integer values: a number is itself, and a string goes through the integer-text conversion `StringToNumber` |
| JsValue.CallTrim | src/components/Admin/CreateQuizModal.js:49 | `trim()` returns exactly for strings, giving "" exactly for blank text; on null or undefined it throws the property-read `TypeError`, on anything else the not-a-function `TypeError` |
| JsValue.ServerErrorOr | src/components/Auth/Login.js:70 | `error.response?.data?.error \|\| fallback`: the server's error text when it is truthy, else the fallback |
| Text.Trim | src/components/Admin/CreateQuizModal.js:49 | Definition of `trim()`: leading and then trailing white space removed; its properties are the TrimStart, TrimEnd and TrimEmptyIffBlank rows |
| Text.TrimStart | src/utils/validation.js:36 | The result is a suffix of the input, and only white space was removed; it is empty or starts with a non-space |
| Text.TrimEnd | src/utils/validation.js:36 | The result is a prefix of the input, and only white space was removed; it is empty or ends with a non-space |
| Text.TrimEmptyIffBlank | src/components/Auth/Login.js:43 | `s.trim()` is "" exactly when `s` is all white space |
| Text.TrimOfUnspaced | src/utils/validation.js:36 | Text with no white space at either end trims to itself |
| Text.RemoveSpaces | src/utils/validation.js:24 | `replace(/\s/g, '')` keeps exactly the non-space characters and leaves no white space |
| Text.RemoveSpacesIdempotent | src/utils/validation.js:24 | Removing white space twice is the same as removing it once |
| Text.ToLower | src/components/Player/QuizCard.js:64 | `toLowerCase` maps each ASCII capital to its small letter and keeps every other character, at the same length |
| Text.NatToString | src/components/Admin/QuizQuestions.js:53 | A natural number prints as a non-empty string of digits |
| Text.ParseInt | src/utils/validation.js:30 | Definition of `parseInt(s, 10)`: leading white space skipped, an optional sign, then the longest run of digits; NaN (`None`) when there is no digit. Its properties are the ParseIntOf… rows |
| Text.DigitPrefix | src/utils/validation.js:30 | The longest run of leading digits |
| Text.StringToNumber | src/pages/ProfilePage.js:87 | On integer text, blank text converts to 0 |
| Text.ParseIntOfIntToString | src/utils/validation.js:30 | `parseInt` of a printed integer gives that integer back |
| Text.ParseIntOfNumberedText | src/components/Admin/QuizQuestions.js:53 | `parseInt` of a number's digits followed by non-digit text gives the number |
| Text.StringToNumberOfIntToString | src/pages/ProfilePage.js:87 | Converting a printed integer back to a number gives that integer |
| Text.CodeUnits | src/utils/validation.js:78-83 | A string's JavaScript `length`: between its character count and twice that |
| Text.CodeUnitsOfBmp | src/utils/validation.js:78-83 | With no character above U+FFFF the `length` is the character count |
| Text.CodeUnitsOfAstral | src/utils/validation.js:78-83 | With every character above U+FFFF the `length` is twice the character count |
| Text.NumberOfNonNumeric | src/pages/ProfilePage.js:87 | Trimmed text that starts with none of a digit, a sign, "." or "I" is no numeric literal and converts to NaN |
| Lists.ReplaceWhere | src/context/QuizContext.js:103-105 | The `map` keeps length and order and replaces exactly the entries whose key matches |
| Lists.RemoveWhere | src/context/QuizContext.js:121 | The `filter` never makes the list longer |
| Lists.RemoveWhereMembers | src/context/QuizContext.js:121 | The `filter` keeps exactly the entries whose key does not match |
| Lists.CountWhere | src/components/Admin/UserManagement.js:84 | The number of entries with a key counted by `filter(...).length` never exceeds the list's length |
| Lists.RemoveWhereAppend | src/components/Admin/QuizList.js:34 | Filtering distributes over concatenation, so the surviving entries keep their relative order |
| Lists.RemoveWhereNoMatch | src/context/QuizContext.js:121 | Filtering by an id no entry carries leaves the list unchanged |
| Lists.RemoveWhereCount | src/components/Admin/QuizList.js:34 | The entries removed are exactly the matching ones: survivors plus matches make up the whole list |
| Lists.RemoveWhereLeavesNone | src/components/Admin/UserManagement.js:32 | After the filter no entry carries the id |
| Lists.AnyWhereIffCount | src/context/QuizContext.js:180-182 | The membership test `some` holds exactly when at least one entry matches |
| Lists.ReplaceWhereNoMatch | src/context/QuizContext.js:103-105 | Replacing by an id no entry carries leaves the list unchanged |
| QuizService.HandleResponse | src/services/quiz.js:4-9 | Returns the body exactly for statuses 200 to 299; otherwise throws the status text, or 'Request failed' when that is empty |
| QuizService.HandleError | src/services/quiz.js:11-26 | The rethrown message is the first present of `data.message`, `data.error`, `data` itself, `error.message`, 'Network error occurred' |
| QuizService.CaughtError | src/services/quiz.js:30-37 | The catch block sees the rejection itself; an error thrown by `handleResponse` carries no `response` |
| QuizService.ServiceCall | src/services/quiz.js:30-37 | A wrapped service method returns exactly on a 2xx response, with its body; a rejection ends in `handleError`'s message |
| QuizService.PlainCall | src/services/quiz.js:145-148 | An unwrapped service method returns `response.data` for any response and passes a rejection through unchanged |
| QuizService.NonSuccessResponseMessage | src/services/quiz.js:4-9 | A non-2xx response makes a wrapped method throw the status text or 'Request failed' |
| QuizService.NetworkErrorOnlyWithoutDetails | src/services/quiz.js:14-25 | 'Network error occurred' results only when the error has no response body and no message, or its message is that text |
| QuizService.StartAttemptFrom | src/services/quiz.js:86-99 | Reference definition of the recursive `startAttempt(id, retryCount)`: a success returns, a "unique result" failure with fewer than 3 retries waits `1000 * (retryCount + 1)` ms and recurses, any other failure is handled and thrown |
| QuizService.StartAttempt | src/services/quiz.js:86-99 | The retry loop's result, call count and delays equal the recursive definition of `startAttempt` |
| QuizService.StartAttemptBounded | src/services/quiz.js:92-95 | At most 3 retries happen, so at most 4 calls reach the start endpoint, and there is one delay per retry |
| QuizService.StartAttemptDelays | src/services/quiz.js:94 | The k-th retry waits 1000·k ms after the earlier ones |
| QuizService.StartAttemptDelaysIncrease | src/services/quiz.js:94 | The delays strictly increase |
| QuizService.StartAttemptRetriesOnlyOnUniqueResult | src/services/quiz.js:87-97 | A retry follows a failed call only when its message contains 'unique result'; a success ends the loop with that response's body |
| QuizService.OtherFailureIsNotRetried | src/services/quiz.js:92-97 | Any other failure ends after one call, with no delay and `handleError`'s message |
| QuizService.TwoConflictsThenSuccess | src/services/quiz.js:86-99 | Two 'unique result' failures and then a success take three calls, wait 1000 and 2000 ms, and return the body |
| QuizService.RetriesAreExhausted | src/services/quiz.js:92-97 | Four 'unique result' failures in a row make 4 calls and end in `handleError` of the fourth |
| AdminQuizService.StripQuizRefs | src/services/adminQuiz.js:33-39 | Definition of the `JSON.stringify` replacer applied throughout: a `quiz` field holding a non-null object or array becomes `{id, name}`, everything else is kept and walked into |
| AdminQuizService.SelectQuizList | src/services/adminQuiz.js:44-54 | Definition of the list extraction: the array itself, else `quizzes`, else `data`, else the truthy payload as a one-entry list, else [] |
| AdminQuizService.ProjectQuestion | src/services/adminQuiz.js:66-72 | Definition of the question copy: exactly `id`, `questionText`, `correctAnswer`, `isBoolean` and `choices` |
| AdminQuizService.ProjectQuiz | src/services/adminQuiz.js:57-73 | Definition of the quiz copy: the seven quiz fields, and `questions` projected when it is an array, else [] |
| AdminQuizService.SafeParseQuizData | src/services/adminQuiz.js:28-79 | Definition of `safeParseQuizData`: [] for a falsy payload or when a projection throws, else the projected entries of the extracted list |
| AdminQuizService.StripKeepsKind | src/services/adminQuiz.js:33-39 | The replacer keeps every array an array of the same length and every object an object with the same keys; scalars are untouched |
| AdminQuizService.StripReducesQuizRefs | src/services/adminQuiz.js:33-39 | After the replacer, every object under a 'quiz' key, at any depth, is reduced to {id, name} |
| AdminQuizService.ParsedQuizzesAreReduced | src/services/adminQuiz.js:28-41 | Each quiz `safeParseQuizData` returns, its projected questions included, holds no `quiz` object beyond {id, name} at any depth |
| AdminQuizService.FalsyPayloadIsEmpty | src/services/adminQuiz.js:29 | A falsy payload parses to the empty list |
| AdminQuizService.ShapePrecedence | src/services/adminQuiz.js:44-54 | The list chosen is the array itself, else `.quizzes` if an array, else `.data` if an array, else the one-element list of the payload |
| AdminQuizService.ParsePreservesLengthAndOrder | src/services/adminQuiz.js:57-78 | Without a throwing element, the output has the length of the chosen list and its i-th entry is the projection of the i-th quiz |
| AdminQuizService.ProjectedQuizFields | src/services/adminQuiz.js:57-65 | Each output quiz has exactly id, name, category, difficulty, startDate, endDate, minPassingPercentage and questions, the first seven copied from the input |
| AdminQuizService.ProjectedQuestions | src/services/adminQuiz.js:66-72 | `questions` is [] unless the input holds an array; otherwise it maps one to one onto {id, questionText, correctAnswer, isBoolean, choices} |
| AdminQuizService.GetAllQuizzes | src/services/adminQuiz.js:83-91 | Returns the parsed list exactly when the call succeeds, else `handleError`'s message |
| AdminQuizService.GetQuiz | src/services/adminQuiz.js:94-102 | Returns the first entry of the parsed list, or `undefined` when it is empty |
| AdminQuizService.GetQuizOfSingleObject | src/services/adminQuiz.js:94-102 | A single quiz object comes back as its own projection |
| DebugApi.ParseResponse | src/utils/debug.js:12-44 | The result is null exactly for a falsy input, is truthy otherwise, and an array is returned as it is |
| DebugApi.ArrayResultIsFixedPoint | src/utils/debug.js:21-23 | Parsing a parsed list again changes nothing |
| DebugApi.DataTakesPrecedence | src/utils/debug.js:25-36 | With a truthy `.data`, the branches are taken in order: `data` when it is an array, else `data.quizzes` when that is an array, else `data.data` when that is an array, else `data` itself. A top-level `.quizzes` is never consulted |
| DebugApi.TopLevelQuizzesWithoutData | src/utils/debug.js:38-43 | Without a truthy `.data`, a top-level `quizzes` array is returned, and otherwise the payload itself |
| DebugApi.RecognisedListIsFound | src/utils/debug.js:21-40 | A payload in any recognised list shape gives a list, namely the first one in the order payload, `data`, `data.quizzes`, `data.data`, top-level `quizzes` |
| DebugApi.UnrecognisedShapeReturnedAsIs | src/utils/debug.js:42-43 | An object with no recognised shape is returned unchanged |
| QuizPlayer.StartRequests | src/services/quiz.js:88 | Each start call posts the same start request |
| QuizPlayer.Player.View | src/components/Player/QuizPlayer.js:71-73 | The screen follows the early returns: loading first, then the error, then a missing question |
| QuizPlayer.Player.constructor | src/components/Player/QuizPlayer.js:5-26 | The initial state (no attempt, question or feedback, empty selection, loading), then the mount effect's `startQuiz`. Nothing is alerted, scheduled or completed. The start run's waits and start requests are recorded. A started attempt is stored and its first question requested, with the loaded question or 'Failed to load question'. A failed or null start shows 'Failed to start quiz' and stays on the loading screen |
| QuizPlayer.Player.StartQuiz | src/components/Player/QuizPlayer.js:16-26 | The retry run's requests and waits are recorded. On success the attempt is stored and a question is loaded for its `attemptId`. On failure the fixed error is shown and `loading` stays true |
| QuizPlayer.Player.LoadQuestion | src/components/Player/QuizPlayer.js:28-40 | A loaded question resets `selectedAnswer` to '' and `feedback` to null; a failure sets 'Failed to load question'; `loading` is false either way |
| QuizPlayer.Player.SelectAnswer | src/components/Player/QuizPlayer.js:106 | Choosing an option sets `selectedAnswer` and nothing else |
| QuizPlayer.Player.HandleAnswerSubmit | src/components/Player/QuizPlayer.js:42-69 | An empty selection only alerts. A success stores the result verbatim as `feedback` and schedules completion after 2000 ms or the next question after 1500 ms. A failure alerts and changes no state |
| QuizPlayer.Player.FireTimer | src/components/Player/QuizPlayer.js:57-63 | The fired timer is removed. A completion timer calls `onComplete` with the final score and pass flag and changes nothing else on screen. A next-question timer loads a question for the same attempt: a loaded question clears the selection and feedback, a failure sets 'Failed to load question' and keeps the current question |
| QuizPlayer.Player.NextQuestion | src/components/Player/QuizPlayer.js:129 | The button loads the next question for the stored attempt, with the same success and failure outcomes as `loadQuestion`. With a null attempt, reading its `attemptId` throws and nothing changes |
| QuizPlayer.StartErrorTextIsFixed | src/components/Player/QuizPlayer.js:23 | The start failure always shows 'Failed to start quiz', since the service's rethrown error has no `response` |
| QuizContext.NormaliseQuizzes | src/context/QuizContext.js:28 | Throws exactly for null or undefined data |
| QuizContext.NormalisedQuizzesShape | src/context/QuizContext.js:28 | The stored list is the array itself, else a truthy `.quizzes`, else [] |
| QuizContext.Provider.constructor | src/context/QuizContext.js:15-21 | Empty lists, not loading, no error |
| QuizContext.Provider.LoadAllQuizzes | src/context/QuizContext.js:23-38 | Stores and returns the normalised list on success. On failure it sets 'Failed to load quizzes', rethrows and keeps the list. `loading` ends false |
| QuizContext.Provider.CreateQuiz | src/context/QuizContext.js:83-96 | The server's quiz is appended after the unchanged earlier entries; a string list is first spread into one-character strings, as `[...prev, q]` does. A failure keeps the list and sets the fixed error. `loading` ends false |
| QuizContext.Provider.UpdateQuiz | src/context/QuizContext.js:99-114 | Entries with a matching id are replaced by the server's quiz, keeping length and order. A failure keeps the list and sets the fixed error |
| QuizContext.Provider.DeleteQuiz | src/context/QuizContext.js:117-129 | Every entry with the id is removed and the rest keep their order. A failure keeps the list and sets the fixed error |
| QuizContext.Provider.BookmarkQuiz | src/context/QuizContext.js:132-141 | The response is appended to the bookmarks without de-duplication, and the quiz then counts as bookmarked |
| QuizContext.Provider.RemoveBookmark | src/context/QuizContext.js:144-152 | Bookmarks with that quiz id are dropped, after which `isQuizBookmarked` is false; a failure keeps them |
| QuizContext.Provider.IsQuizBookmarked | src/context/QuizContext.js:180-182 | Definition of `bookmarks.some(b => b.quizId === quizId)`: some stored bookmark carries the quiz's id |
| QuizContext.Provider.ClearError | src/context/QuizContext.js:175-177 | The error is cleared and nothing else changes |
| Validation.IsValidEmail | src/utils/validation.js:4-7 | Definition of the anchored test `^[^\s@]+@[^\s@]+\.[^\s@]+$` on the value's text |
| Validation.IsValidUsername | src/utils/validation.js:15-18 | Definition of the anchored test `^[a-zA-Z0-9_]{3,20}$` on the value's text |
| Validation.IsValidAge | src/utils/validation.js:28-32 | Definition: a falsy age passes, any other passes exactly when `parseInt(age, 10)` is a number from 13 to 120 |
| Validation.IsRequired | src/utils/validation.js:35-37 | Definition: neither null nor undefined, and `toString().trim()` is not empty |
| Validation.IsStrongPassword | src/utils/validation.js:10-12 | A string passes exactly when its `length` (UTF-16 code units, two per character outside the Basic Multilingual Plane) is at least 6; null or undefined throws |
| Validation.PasswordCountsCodeUnits | src/utils/validation.js:11 | Three emoji make a `length` of 6 and pass; five ASCII letters fail |
| Validation.IsValidPhone | src/utils/validation.js:21-25 | An empty value passes; any other non-string throws on `replace` |
| Validation.PhoneIgnoresSpaces | src/utils/validation.js:24 | White space in a phone number does not change the verdict |
| Validation.AgeOfNumber | src/utils/validation.js:28-32 | A numeric age passes exactly when it is 0 (empty) or from 13 to 120 |
| Validation.IsRequiredMeaning | src/utils/validation.js:35-37 | A value is present exactly when it is not null or undefined and its text is not blank |
| Validation.EmailExamples | src/utils/validation.js:4-7 | 'a@b.c' is accepted; 'a@b' (no dot) and 'a@b@c.d' (two '@') are refused |
| Validation.FieldError | src/utils/validation.js:47-86 | Reference definition of one field's rule loop: the message of the first rule that rejects the value, none when all pass, and a thrown error stops the loop |
| Validation.FormErrors | src/utils/validation.js:40-91 | Reference definition of `getFormErrors`: the fields in key order, each adding its first failing rule's message; reading a field of a null form throws |
| Validation.GetFormErrors | src/utils/validation.js:40-91 | The loop over fields and rules, with its `break`, computes the error dictionary of the rule-engine definition |
| Validation.FirstFailing | src/utils/validation.js:47-86 | The inner loop over one field's rules, with its `break`, yields the field's entry of the rule-engine definition: the first failing rule's message, none, or the thrown error |
| Validation.FormErrorsThrowPropagates | src/utils/validation.js:43-88 | An exception in one field's rules ends the whole call |
| Validation.FieldErrorIsFirstFailing | src/utils/validation.js:47-86 | A field's message is that of a rule that rejects its value |
| Validation.FieldErrorNoneIffAllPass | src/utils/validation.js:47-87 | A field gets no error exactly when no rule of it rejects the value |
| Validation.FormErrorsKeys | src/utils/validation.js:40-91 | Every key of the result is a field named in the rules |
| Validation.FormErrorsPerField | src/utils/validation.js:43-90 | With distinct field names, each field's entry is its first failing rule's message, and it is absent when no rule fails |
| Validation.LengthSkippedWhenEmpty | src/utils/validation.js:78-86 | minLength and maxLength never reject an empty value |
| Validation.FirstNameLengthBounds | src/utils/validation.js:108-112 | A non-blank first name whose `length` is 2 to 50 UTF-16 code units passes, 50 included |
| Validation.FirstNameTooLong | src/utils/validation.js:111 | A non-blank first name over 50 code units long gets the maxLength message |
| Validation.FirstNameTooShort | src/utils/validation.js:110 | A one-character non-blank first name gets the minLength message, except a character outside the Basic Multilingual Plane, whose `length` is 2 and which passes |
| Validation.RequiredPasses | src/utils/validation.js:109 | A non-blank value passes the required rule |
| Forms.ClearError | src/components/Admin/CreateQuizModal.js:38-43 | `{...prev, [name]: ''}`: the keys are unchanged, the named entry becomes '' and every other entry keeps its message |
| Forms.ClearErrorKeepsNoMessages | src/components/Admin/CreateQuizModal.js:38-43 | Clearing is skipped when the field's error is falsy, which is the same as clearing it |
| CreateQuizModal.Apply | src/components/Admin/CreateQuizModal.js:30-35 | Only the named field takes the new value |
| CreateQuizModal.ValidateQuizForm | src/components/Admin/CreateQuizModal.js:46-64 | Error per field: a blank name, a falsy category, a missing date, a pass mark below 0 or above 100, or an end not after the start. Each has its message. A non-string name throws on `trim` |
| CreateQuizModal.RequiredErrors | src/components/Admin/CreateQuizModal.js:49-52 | The four presence checks, each recording its own message |
| CreateQuizModal.RangeErrors | src/components/Admin/CreateQuizModal.js:53-63 | The range check on the pass mark and the order check on two given dates; the presence entries are kept, and a given end date not after the start is the only new end-date entry |
| CreateQuizModal.NoErrorsIffValid | src/components/Admin/CreateQuizModal.js:66-67 | The error map is empty exactly when the form is valid |
| CreateQuizModal.PercentBoundaries | src/components/Admin/CreateQuizModal.js:53-55 | 0 and 100 are accepted, -1 and 101 refused; empty text counts as 0 |
| CreateQuizModal.InitialFormMissing | src/components/Admin/CreateQuizModal.js:5-12 | The initial form lacks a name, a category and both dates, and its pass mark is in range |
| CreateQuizModal.Modal.constructor | src/components/Admin/CreateQuizModal.js:5-14 | The initial defaults, no errors, not submitting |
| CreateQuizModal.Modal.HandleChange | src/components/Admin/CreateQuizModal.js:30-44 | Only the named field changes, and only its error is cleared |
| CreateQuizModal.QuizErrorsDetermined | src/components/Admin/CreateQuizModal.js:46-68 | The per-field description `QuizErrorsOf` (which keys are present, and each one's message: the end-date key carries 'End date is required' or 'End date must be after start date') fixes the error map uniquely |
| CreateQuizModal.Modal.ValidateForm | src/components/Admin/CreateQuizModal.js:46-68 | Throws exactly when the name is not a string. Otherwise the stored error map is the one `QuizErrorsOf` describes, keys and messages, and it returns true exactly when there are none, which is exactly when the form is valid |
| CreateQuizModal.Modal.HandleSubmit | src/components/Admin/CreateQuizModal.js:70-95 | An invalid form sends nothing. A valid one is sent; success notifies, closes and resets the form to the initial defaults, failure alerts and keeps the form. The stored errors are those `QuizErrorsOf` describes for the submitted form. `isSubmitting` ends false |
| EditQuizModal.ToMinute | src/components/Admin/EditQuizModal.js:9-10 | Cutting the ISO text at 16 characters gives the start of the instant's minute |
| EditQuizModal.DateInputOf | src/components/Admin/EditQuizModal.js:9-10 | A falsy date gives an empty input; otherwise the input holds the minute |
| EditQuizModal.InitialFormOf | src/components/Admin/EditQuizModal.js:5-12 | Name and category as given, difficulty defaults to 'EASY', pass mark to 60 when falsy |
| EditQuizModal.ToMinuteMonotone | src/components/Admin/EditQuizModal.js:9-10 | Truncating to the minute keeps the order of two instants |
| EditQuizModal.InitialFormValidIff | src/components/Admin/EditQuizModal.js:45-67 | The unedited form passes exactly when the name is not blank, the category is truthy, both dates are set in increasing minutes and the pass mark is in range |
| EditQuizModal.SameMinuteIsRefused | src/components/Admin/EditQuizModal.js:56-63 | A quiz that ends within the minute it starts is refused until a date is edited |
| EditQuizModal.ZeroPassMarkBecomesSixty | src/components/Admin/EditQuizModal.js:11 | A pass mark of 0 shows as 60 |
| EditQuizModal.Modal.constructor | src/components/Admin/EditQuizModal.js:5-14 | The form starts from the quiz's values |
| EditQuizModal.Modal.HandleChange | src/components/Admin/EditQuizModal.js:30-43 | Only the named field changes, and only its error is cleared |
| EditQuizModal.Modal.ValidateForm | src/components/Admin/EditQuizModal.js:45-67 | The create dialog's rules: the stored error map is the one `QuizErrorsOf` describes, keys and messages; true exactly when no errors, exactly when valid |
| EditQuizModal.Modal.HandleSubmit | src/components/Admin/EditQuizModal.js:69-86 | An invalid form sends nothing. A valid one is sent for the original quiz id; success notifies and closes, failure alerts. The form is kept, and the stored errors are those `QuizErrorsOf` describes |
| ProfilePage.EmptyProfile | src/pages/ProfilePage.js:9-20 | All ten fields start as '' |
| ProfilePage.ProfileOf | src/pages/ProfilePage.js:26-41 | Each field is the user's value, or '' when that is falsy |
| ProfilePage.MissingFieldsStartEmpty | src/pages/ProfilePage.js:29-38 | A missing or falsy field starts as ''; a truthy one is copied |
| ProfilePage.ValidateProfile | src/pages/ProfilePage.js:66-93 | A blank username, first name, last name or email, a malformed email, or an out-of-range age records its message. A non-string among the four trimmed fields throws, the first such field deciding the error |
| ProfilePage.RequireText | src/pages/ProfilePage.js:69-79 | One required check: throws on a non-string, records the message exactly when blank |
| ProfilePage.NoProfileErrorsIffValid | src/pages/ProfilePage.js:91-92 | The error map is empty exactly when the profile is valid |
| ProfilePage.EmailShapeAt | src/pages/ProfilePage.js:83 | The unanchored pattern matches wherever non-space text, '@', non-space text, '.', non-space text occur |
| ProfilePage.EmailExamples | src/pages/ProfilePage.js:83 | 'a@b.c' matches, and so does 'x a@b.c y' because the pattern is unanchored |
| ProfilePage.EmailNeedsLocalPart | src/pages/ProfilePage.js:83 | '@bc.de' does not match |
| ProfilePage.EmailRefusesInnerSpace | src/pages/ProfilePage.js:83 | 'a@b c.d' does not match |
| ProfilePage.AgeTextInRange | src/pages/ProfilePage.js:87-89 | A typed integer age is refused exactly when below 13 or above 120 |
| ProfilePage.AgeUnchecked | src/pages/ProfilePage.js:87 | An empty age and a non-numeric one are not flagged |
| ProfilePage.Page.constructor | src/pages/ProfilePage.js:9-24 | Empty form, no errors, no banners |
| ProfilePage.Page.LoadUser | src/pages/ProfilePage.js:26-41 | A signed-in user fills the form; otherwise it is kept |
| ProfilePage.Page.HandleChange | src/pages/ProfilePage.js:43-64 | The field takes the text, its error is cleared, and both banners are cleared |
| ProfilePage.ProfileErrorsDetermined | src/pages/ProfilePage.js:66-93 | The per-field description `ProfileErrorsOf` (which keys are present, and each one's message: 'Email is required' or 'Email is invalid', the age range message) fixes the error map uniquely |
| ProfilePage.Page.ValidateForm | src/pages/ProfilePage.js:66-93 | Throws exactly when one of the four trimmed fields is not text. Otherwise the stored error map is the one `ProfileErrorsOf` describes, keys and messages, and it returns true exactly when there are none, exactly when valid |
| ProfilePage.Page.HandleSubmit | src/pages/ProfilePage.js:95-112 | An invalid form sends nothing. On success the success banner shows; on failure the server's error text or 'Failed to update profile'. The stored errors are those `ProfileErrorsOf` describes, or unchanged when the validation throws. `isSubmitting` ends false |
| LoginForm.SetField | src/components/Auth/Login.js:21-26 | Only the named field takes the text |
| LoginForm.ValidateLogin | src/components/Auth/Login.js:40-53 | A blank username and an empty password each record their message; no errors exactly when both are present |
| LoginForm.OnlyUsernameIsTrimmed | src/components/Auth/Login.js:43-49 | A password of spaces is accepted, a username of spaces is not |
| LoginForm.RedirectFor | src/components/Auth/Login.js:68 | 'ADMIN' goes to '/admin', any other role to '/dashboard' |
| LoginForm.DemoCredentials | src/components/Auth/Login.js:77-84 | The fixed admin and player credential pairs |
| LoginForm.DemoCredentialsAreValid | src/components/Auth/Login.js:78-81 | Both demo pairs pass validation |
| LoginForm.State.constructor | src/components/Auth/Login.js:10-16 | Empty fields, no errors, not submitting |
| LoginForm.State.HandleChange | src/components/Auth/Login.js:21-38 | The field takes the text, its error and `authError` are cleared |
| LoginForm.LoginErrorsDetermined | src/components/Auth/Login.js:40-53 | The description `LoginErrorsOf` (a username key exactly for a blank username, with 'Username is required'; a password key exactly for an empty password, with 'Password is required') fixes the error map uniquely |
| LoginForm.State.ValidateForm | src/components/Auth/Login.js:40-53 | The stored error map is the one `LoginErrorsOf` describes, keys and messages, and it returns true exactly when there are none |
| Login.HandleSubmit | src/components/Auth/Login.js:55-75 | An invalid form makes no call. Success starts the session with the response and its token and redirects by role. Failure shows the server's error or the fixed fallback. The stored errors are those `LoginErrorsOf` describes. `isSubmitting` ends false |
| Login.HandleDemoLogin | src/components/Auth/Login.js:77-84 | The form becomes the demo pair and nothing else changes |
| LoginPage.Storage.SetItem | src/pages/LoginPage.js:65 | `localStorage.setItem` stores the value's text under the key |
| LoginPage.HandleSubmit | src/pages/LoginPage.js:55-78 | An invalid form makes no call. The token is stored before the profile fetch and stays stored if that fetch fails. The redirect follows the login response's role. The stored errors are those `LoginErrorsOf` describes |
| LoginPage.MissingProfileServiceShowsFallback | src/pages/LoginPage.js:68-73 | A profile fetch failing without a response shows the fixed fallback message |
| AppRoutes.HomeOf | src/App.js:38 | '/admin' exactly for an admin, else '/dashboard' |
| AppRoutes.ProtectedRoute | src/App.js:13-29 | With no user it always gives '/login'. Otherwise a non-admin on an ADMIN route goes to '/dashboard', a non-player on a PLAYER route to '/admin', and everyone else sees the page |
| AppRoutes.Route | src/App.js:31-74 | Exactly the six declared paths have an element |
| AppRoutes.SignedOutGoesToLogin | src/App.js:16-18 | Signed out, every protected route leads to '/login' whatever its role |
| AppRoutes.ProfileForEveryUser | src/App.js:60-67 | Any signed-in user sees the profile page |
| AppRoutes.AuthPagesOnlySignedOut | src/App.js:36-43 | '/login' and '/register' render only when signed out, else redirect home |
| AppRoutes.RootRedirects | src/App.js:68-71 | '/' leads to '/login' when signed out, else home |
| AppRoutes.NoRoleBounces | src/App.js:20-26 | A user with neither role is sent from '/admin' to '/dashboard' and back |
| AppRoutes.SignedInWithRoleSeesDashboard | src/App.js:20-28 | A signed-in user sees the admin dashboard exactly when an admin, the player dashboard exactly when a player |
| QuizProgress.PassedCount | src/components/Player/QuizProgress.js:5 | The passed count never exceeds the history length: all entries when all passed, none when none did |
| QuizProgress.Completion | src/components/Player/QuizProgress.js:10-12 | Completion lies in 0..100, is 0 for an empty history, and is 100·passed/total rounded half up |
| QuizProgress.ProgressOf | src/components/Player/QuizProgress.js:4-12 | Total is the history length and at least the passed count; completion is in 0..100 and 0 for an empty history |
| QuizProgress.CompletionExtremes | src/components/Player/QuizProgress.js:10-12 | 100 exactly when at least 99.5 % passed; all passed gives 100, none gives 0 |
| QuizProgress.CompletionExamples | src/components/Player/QuizProgress.js:11 | 1 of 8 is 13, 2 of 3 is 67, 1 of 3 is 33 |
| QuizProgress.CompletionMonotone | src/components/Player/QuizProgress.js:10-12 | One more pass never lowers completion |
| PlayerDashboard.QuizzesForTab | src/pages/PlayerDashboard.js:38-47 | The status tabs give the matching list, 'history' the history, 'recommended' the recommended list or [], any other tab []; a status tab throws when the status payload is null |
| PlayerDashboard.ShowsRecommendationsHeader | src/pages/PlayerDashboard.js:92-93 | Definition: the recommendations header shows on the 'recommended' tab once the recommendations are truthy |
| PlayerDashboard.IsEmptyList | src/pages/PlayerDashboard.js:110 | `length === 0`: an empty array or empty text; throws on null or undefined |
| PlayerDashboard.ShowsEmptyState | src/pages/PlayerDashboard.js:110-114 | The empty state shows exactly when the selected list is empty |
| PlayerDashboard.InitialTabIsEmpty | src/pages/PlayerDashboard.js:9 | The initial 'available' tab lists nothing, shows the empty state and no recommendations header |
| PlayerDashboard.MissingRecommendationsAreEmpty | src/pages/PlayerDashboard.js:44 | Missing recommendations give [] and the empty state |
| PlayerDashboard.Dashboard.constructor | src/pages/PlayerDashboard.js:9-13 | 'available' tab, loading, empty status lists, empty history, null recommendations |
| PlayerDashboard.Dashboard.SetTab | src/pages/PlayerDashboard.js:61 | Only the tab changes |
| PlayerDashboard.Dashboard.LoadData | src/pages/PlayerDashboard.js:19-36 | All three results are stored when all three calls succeed, nothing otherwise; `loading` ends false |
| QuizCard.IsUpcoming | src/components/Player/QuizCard.js:78 | Definition: the tab is 'upcoming' |
| QuizCard.IsPast | src/components/Player/QuizCard.js:79 | Definition: the tab is 'past' or 'history' |
| QuizCard.CanPlay | src/components/Player/QuizCard.js:80 | Definition: the tab is 'ongoing' or 'recommended' |
| QuizCard.TabButtonsExclusive | src/components/Player/QuizCard.js:78-80 | `canPlay`, `isUpcoming` and `isPast` are pairwise exclusive, and one holds exactly for the five named tabs |
| QuizCard.DifficultyClass | src/components/Player/QuizCard.js:62-65 | '' for a falsy difficulty; for text, 'difficulty-' plus its lower case; other values throw |
| QuizCard.DifficultyClasses | src/components/Player/QuizCard.js:62-65 | EASY, MEDIUM and HARD give the three CSS classes |
| QuizCard.DifficultyClassIgnoresCase | src/components/Player/QuizCard.js:64 | A lower-cased difficulty gives the same class |
| QuizCard.Card.constructor | src/components/Player/QuizCard.js:5-9 | Not bookmarked, no likes, not playing, not loading |
| QuizCard.Card.LoadBookmarkStatus | src/components/Player/QuizCard.js:16-23 | Stores `data.bookmarked`, or keeps the state when the call or the read fails |
| QuizCard.Card.LoadLikeCount | src/components/Player/QuizCard.js:25-32 | Stores `data.likes`, or keeps the state when the call or the read fails |
| QuizCard.Card.HandleBookmarkToggle | src/components/Player/QuizCard.js:34-49 | Sends remove or add by the current state. Success flips `isBookmarked`, failure keeps it. `loading` ends false |
| QuizCard.Card.HandlePlayQuiz | src/components/Player/QuizCard.js:51-53 | The card switches to playing |
| QuizCard.Card.HandleQuizComplete | src/components/Player/QuizCard.js:55-60 | Back to the card, and `onQuizCompleted` is called once if it was given |
| QuizQuestions.FormatAnswerList | src/components/Admin/QuizQuestions.js:28-33 | A boolean question lists exactly True and False, ignoring `choices`; otherwise `choices`, or [] when falsy |
| QuizQuestions.AnswerMarks | src/components/Admin/QuizQuestions.js:57-64 | One mark per listed answer, set exactly when it equals `correctAnswer` |
| QuizQuestions.BooleanQuestionMarks | src/components/Admin/QuizQuestions.js:57-64 | For a boolean question, True is marked exactly when the answer is 'True', False exactly when 'False' |
| QuizQuestions.AtMostOneMarked | src/components/Admin/QuizQuestions.js:60 | With distinct answers, at most one is marked |
| QuizQuestions.ChildText | src/components/Admin/QuizQuestions.js:53 | A JSX child renders as nothing for null, undefined and booleans, as `String(v)` for strings and numbers, and as its elements side by side for arrays. A plain object throws |
| QuizQuestions.StringChildrenConcatenate | src/components/Admin/QuizQuestions.js:53 | An array of strings renders as their concatenation with no separator |
| QuizQuestions.Heading | src/components/Admin/QuizQuestions.js:51-53 | A null question throws when its `id` is read. Otherwise the heading is the number, ". " and the rendered `questionText`, and it throws exactly when that text does |
| QuizQuestions.Headings | src/components/Admin/QuizQuestions.js:50-54 | One heading per question, in order |
| QuizQuestions.HeadingsAreNumbered | src/components/Admin/QuizQuestions.js:53 | Every heading that renders starts with its number i + 1 |
| QuizQuestions.HeadingExamples | src/components/Admin/QuizQuestions.js:53 | A question without text shows "1. ", and the text ["a", "b"] shows "1. ab" |
| QuizQuestions.Viewer.constructor | src/components/Admin/QuizQuestions.js:7-9 | No questions, loading, no error |
| QuizQuestions.Viewer.LoadQuestions | src/components/Admin/QuizQuestions.js:15-26 | Stores the questions, or sets 'Failed to load questions'; `loading` ends false |
| UserManagement.DeleteOffered | src/components/Admin/UserManagement.js:80 | Definition: the delete button is rendered exactly for a row whose role is 'PLAYER' |
| UserManagement.DeleteDisabled | src/components/Admin/UserManagement.js:84 | Definition of the button's `disabled`: at most one admin in the table and the row is an admin |
| UserManagement.OfferedDeleteIsEnabled | src/components/Admin/UserManagement.js:80-84 | A delete button is shown only on PLAYER rows and is therefore never disabled |
| UserManagement.RoleBadgeClass | src/components/Admin/UserManagement.js:40-47 | ADMIN gives 'role-admin', PLAYER 'role-player', anything else 'undefined' |
| UserManagement.RoleBadges | src/components/Admin/UserManagement.js:41-44 | The badges of the two roles and of a missing role |
| UserManagement.Table.constructor | src/components/Admin/UserManagement.js:7-10 | No users, loading, no error, no pending confirmation |
| UserManagement.Table.LoadUsers | src/components/Admin/UserManagement.js:16-27 | Stores the users, or sets 'Failed to load users'; `loading` ends false |
| UserManagement.Table.AskDelete | src/components/Admin/UserManagement.js:83 | The confirmation holds the row's id |
| UserManagement.Table.CancelDelete | src/components/Admin/UserManagement.js:103 | The confirmation is cleared |
| UserManagement.Table.HandleDeleteUser | src/components/Admin/UserManagement.js:29-38 | Success removes every user with the id, keeps the rest in order and clears the confirmation. Failure, or a stored list that is not an array, alerts the server's error or 'Failed to delete user' and changes no state |
| UserManagement.Table.ConfirmDelete | src/components/Admin/UserManagement.js:97-106 | With the dialog shown, the confirm button runs the delete for the pending id: success removes every user with it, keeps the rest in order and clears the dialog; a non-array list alerts 'Failed to delete user'; a failure alerts the server's error or that fallback. `loading` and `error` are unchanged |
| UserManagement.Table.DeleteRow | src/components/Admin/UserManagement.js:80-106 | Clicking a row's delete button and then confirming: a falsy id (such as 0) shows no dialog and only records the id; a truthy one deletes as `handleDeleteUser` does |
| QuizList.Table.constructor | src/components/Admin/QuizList.js:7-12 | No quizzes, loading, no error, nothing selected |
| QuizList.Table.LoadQuizzes | src/components/Admin/QuizList.js:18-29 | Stores the quizzes, or sets 'Failed to load quizzes'; `loading` ends false |
| QuizList.Table.HandleDelete | src/components/Admin/QuizList.js:31-40 | Success removes exactly the quizzes with the id, in order, and clears the confirmation. Failure alerts and changes nothing else |
| QuizList.Table.HandleEdit | src/components/Admin/QuizList.js:42-44 | Only `editingQuiz` changes |
| QuizList.Table.HandleViewQuestions | src/components/Admin/QuizList.js:46-48 | Only `viewingQuestions` changes |
| QuizList.Table.AskDelete | src/components/Admin/QuizList.js:101 | The confirmation holds the quiz's id |
| QuizList.Table.HandleQuizUpdated | src/components/Admin/QuizList.js:50-53 | Reloads the list and clears `editingQuiz` |

## Left out

- I/O: the HTTP client, `localStorage` reads, `console` output and `alert` dialogs are not modelled. A call is an input outcome, an alert a recorded message.
- Real time: timers are recorded with their delays and fired in any order the caller chooses. No clock exists. Timers are never cancelled, as in the source.
- Numbers are integers: floating point and NaN arithmetic are not modelled. `Math.round` of the completion percentage is computed exactly.
- NumberOf: converts only integer text (an optional sign and decimal digits inside white space, blank text being 0). Decimal fractions, exponents ("1e3"), hex, binary and octal text ("0x1A", "0b11", "0o17") and "Infinity" give NaN in the model, where JavaScript gives a number. An age of "1e3" therefore gets the range message in src/pages/ProfilePage.js:87 but none in the model. The same holds for the pass mark at src/components/Admin/CreateQuizModal.js:53.
- NumberOfNonNumeric: leaves out text starting with "." or "I", since ".5" and "Infinity" are numbers in JavaScript that the integer-only conversion turns into NaN.
- `averageScore` in src/components/Player/QuizProgress.js:6-8 is not modelled, because it is a floating-point average.
- The `JSON.stringify`/`JSON.parse` round trip of `safeParseQuizData` is modelled only through the replacer's effect. `undefined` fields are kept rather than dropped, and the cyclic-structure `catch` cannot arise on finite values.
- Dates are integer millisecond timestamps taken as UTC. `Invalid Date`, time zones and `toLocaleString` are not modelled.
- Object identity is structural equality of values.
- Lower-casing covers ASCII letters only; Unicode case mapping is not modelled. White space is the full JavaScript set of white-space and line-terminator characters used by `trim` and `\s`.
- Inherited property names (`constructor`, `toString` and the like on a plain object) are not modelled.
- Concurrency: the `Promise.all` of src/pages/PlayerDashboard.js:22-26 is one atomic step. The interleaving of a component's asynchronous handlers is not modelled; each handler runs to completion.
- `authService.getProfile` is not defined in src/services/auth.js. `LoginPage.HandleSubmit` takes its outcome as an input.
- `loadUserQuizData`, `loadAdminStats`, `likeQuiz` and `unlikeQuiz` of the quiz provider are not modelled. The same goes for the remaining plain service wrappers, auth.js, user.js, token decoding and the rendering components.
- Rendering, JSX and CSS are not modelled; only the conditions that choose what is shown are.
- `useAuth()`'s `currentUser`, `isAdmin` and `isPlayer`, and its `login` function, are inputs.
- QuizContext.Provider.CreateQuiz: a stored `quizzes` that is a string is spread into its characters, as `[...prev, newQuiz]` does. Any other non-array value (a number, `true` or an object stored by `loadAllQuizzes`) is not iterable, so the source's updater throws during the state update; the model leaves the value as it was. For `UpdateQuiz` and `DeleteQuiz`, `map` and `filter` throw on every non-array value, strings included, and the model again leaves the value as it was.
- Lists.ReplaceWhere, Lists.RemoveWhere and Lists.AnyWhere: a null or undefined entry reads its key as `undefined`, so it is kept by the filter, left alone by the map and never matches. In the source, `x.id` on such an entry throws inside the updater or the handler (src/context/QuizContext.js:103-105, 121 and 180-182, src/components/Admin/QuizList.js:34, src/components/Admin/UserManagement.js:32).
- QuizProgress.PassedCount: requires every history entry to be non-null; a null entry makes `quiz.passed` throw while rendering, which is not modelled.
- QuizQuestions.FormatAnswerList: requires the question to be non-null, since reading its fields would otherwise throw while rendering; the same holds for `AnswerMarks`.
- QuizPlayer.Player.StartQuiz: takes a sequence of more than three start outcomes, enough for every retry, so the loop always has an outcome to read.
- QuizService.StartAttempt: takes a sequence of more than three outcomes for the same reason.
