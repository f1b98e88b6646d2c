# Guardian Deity Fortune — a Dafny model of its sequential core

The application asks a hosted generative model for a "guardian deity" fortune
and renders it. Almost all of it is presentation; this project models the part
that is logic the repository owns:

- **`formatText`** (`TextFormat`): the narrative post-processor that turns every
  ideographic full stop `。` and the whitespace after it into `。\n\n`. The
  global regular-expression replace is written out as a left-to-right recursive
  scan (`ReplaceFullStops`, with `SkipWhitespace` as the greedy `\s*`). JavaScript's
  `\s` is the concrete predicate `IsJsWhitespace`, which includes U+3000, the
  ideographic space. Proved: empty in, empty out; text without `。` is unchanged;
  the number of `。` is kept; the output is *paragraphed* (every `。` is followed
  by exactly `\n\n` and then a non-whitespace character or the end); the fixed
  points are exactly the paragraphed texts, so the function is idempotent; and
  deleting whitespace from input and output gives the same string.
- **`generateFortune`** (`GeminiService.GenerateFortune`): the two calls to the
  hosted model are parameters (`TextReply`, `ImageReply`), and `JSON.parse`'s
  outcome comes with the text reply. The method returns the outcome and the
  list of external calls it issued. That list makes the fail-fast order visible:
  a missing key fails before any call, and a text-stage failure comes before the
  image call. The method reformats exactly the four narrative fields. It scans
  the image reply's parts for the first one with inline data and builds an
  RFC 2397 (section 3) data URI from it. A failing image call is swallowed.
- **The input form** (`InputForm.FormState`): four fields, one setter per
  input, and `HandleSubmit`, which emits a `UserInput` exactly when the date and
  the name are both non-empty.
- **The app controller** (`App.AppState`): `result`, `loading` and an abstract
  alert log. The `await` in `handleFortuneTell` splits it into `Submit` (before)
  and `Settle` (after). A narration timer firing is the event `NarrationTick`.
  `HandleReset` clears the result. `Views` says which parts of the page are
  rendered for a state.

The narration timers are never cancelled in the source. `LateNarrationAfterFailure`
shows the consequence: a request that fails before a timer fires leaves the
loading overlay on screen after the alert, and nothing pending will take it
down. The model therefore states "loading is off" only right after `Settle`,
never as an invariant of the app.

In three places the code does something other than what one might expect; the
model follows the code:
- Timers are not invalidated when loading ends.
- No local check is made that a decoded reply has the expected fields. The
  text stage fails after decoding only when something throws (lines 114-119):
  `JSON.parse` itself, reading `.essence` of a parsed `null`, assigning it on a
  parsed primitive (strict-mode code, line 116), or `replace` on a narrative
  field that is truthy but not a string. The model
  folds all of these into one error, `MalformedJson`.
- A `deityImage` that the decoded record already carries is kept when the
  image reply has no inline part.

## Model

| member | source | states |
|---|---|---|
| `Types.GenderName` | types.ts:4 | a gender is written as one of the three literals `male`, `female`, `other` |
| `Types.ParseGender` | types.ts:4 | exactly the three literals are genders, and parsing inverts `GenderName` |
| `Types.GenderNameRoundTrip` | types.ts:4 | parsing the literal of a gender gives that gender back |
| `TextFormat.IsJsWhitespace` | services/geminiService.ts:77 | the ECMAScript `\s` class, written out in full; the ideographic space U+3000 is in it and `。` is not, so a whitespace run never swallows a full stop |
| `TextFormat.SkipWhitespace` | services/geminiService.ts:77 | the greedy `\s*`: what it drops is all whitespace, and what remains starts with non-whitespace or is empty |
| `TextFormat.ReplaceFullStops` | services/geminiService.ts:77 | the replace is empty exactly on empty text, and leaves the first character in place |
| `TextFormat.FormatText` | services/geminiService.ts:75-78 | the result is empty exactly when the input is |
| `TextFormat.FormatTextEmpty` | services/geminiService.ts:76 | an empty text yields the empty string |
| `TextFormat.FormatTextWithoutFullStop` | services/geminiService.ts:77 | a text with no `。` is returned unchanged |
| `TextFormat.FormatTextKeepsFullStopCount` | services/geminiService.ts:77 | the output has as many `。` as the input |
| `TextFormat.FormatTextIsParagraphed` | services/geminiService.ts:77 | every `。` of the output is followed by exactly `\n\n` and then by a non-whitespace character or the end |
| `TextFormat.FormatTextKeepsNonWhitespace` | services/geminiService.ts:77 | input and output agree once all whitespace is deleted: only whitespace is added or removed |
| `TextFormat.FormatTextFixedPoints` | services/geminiService.ts:77 | a text is left unchanged if and only if it is already paragraphed |
| `TextFormat.FormatTextIdempotent` | services/geminiService.ts:77 | formatting twice is the same as formatting once |
| `GeminiService.ResponseParts` | services/geminiService.ts:137 | when the first candidate's content has a part list, that list is returned; otherwise the result is empty |
| `GeminiService.FirstInlineData` | services/geminiService.ts:137-142 | there is no payload exactly when no part has inline data; otherwise it is some part's payload |
| `GeminiService.FirstInlineDataAt` | services/geminiService.ts:137-142 | the payload taken is that of the first part with inline data |
| `GeminiService.Interpolate` | services/geminiService.ts:139 | a `${…}` substitution: a present value is inserted as it is, an absent one as the text `undefined` |
| `GeminiService.DataUri` | services/geminiService.ts:139 | the URI is `data:`, then the media type, then `;base64,`, then the data, each at its fixed position |
| `GeminiService.ExpectedImage` | services/geminiService.ts:137-145 | `deityImage` stays as decoded when the image call fails or no part has inline data; when some part has inline data, it becomes the `data:` URI of the first such payload; it changes only in that case |
| `GeminiService.DataUriRoundTrip` | services/geminiService.ts:139 | the media type and the data can be read back out of the built `data:` URI when the media type has no parameters |
| `GeminiService.GenerateFortune` | services/geminiService.ts:80-148 | missing key fails with no call made; text-call error, empty text, or a reply that cannot be parsed or reformatted fail after the text call only; otherwise success with both calls made, exactly the four narrative fields reformatted (and paragraphed), all other fields as decoded, and `deityImage` the data URI of the first inline part, or as decoded when there is none or the image call failed |
| `InputForm.FormState.constructor` | components/InputForm.tsx:10-13 | the form starts with empty name, date and time and gender `female` |
| `InputForm.FormState.SetName` | components/InputForm.tsx:35 | sets the name and leaves the three other fields unchanged |
| `InputForm.FormState.SetDate` | components/InputForm.tsx:48 | sets the date and leaves the three other fields unchanged |
| `InputForm.FormState.SetTime` | components/InputForm.tsx:59 | sets the time and leaves the three other fields unchanged |
| `InputForm.FormState.SetGender` | components/InputForm.tsx:74-100 | selects the gender and leaves the three other fields unchanged |
| `InputForm.FormState.HandleSubmit` | components/InputForm.tsx:15-19 | emits an input exactly when date and name are both non-empty, and then exactly `{birthDate: date, birthTime: time, gender, name}` |
| `InputForm.SubmitUntouchedForm` | components/InputForm.tsx:10-17 | submitting the untouched form emits nothing |
| `InputForm.SubmitWithoutBirthTime` | components/InputForm.tsx:17-18 | an empty birth time does not block submission; a missing name or date does |
| `App.NarrationDelaysIncrease` | App.tsx:44-49 | the narration (the constant `Narration`, holding the four messages of lines 44 and 47-49) has four steps at strictly increasing delays 0, 2500, 5000, 7500 |
| `App.Views` | App.tsx:105-197 | header visual (`GodEnsemble`) and form shown iff no result and not loading; overlay iff loading; result page iff a result; some part is always shown |
| `App.AppState.constructor` | App.tsx:40-41 | starts with no result, loading `{false, ''}` and the form on screen |
| `App.AppState.Submit` | App.tsx:44 | loading becomes `{true, first message}`; the result is unchanged; from the form only the overlay is shown |
| `App.AppState.NarrationTick` | App.tsx:47-49 | a firing timer sets loading to `{true, its message}` and changes nothing else |
| `App.AppState.Settle` | App.tsx:51-58 | success stores exactly the returned fortune; failure keeps the result and raises exactly one alert, the message of line 55 (the constant `FailureAlert`); either way loading is `{false, ''}` |
| `App.AppState.HandleFortuneTell` | App.tsx:43-59 | with no timer in between: success shows the result page holding exactly the fortune `generateFortune` returns (narrative fields reformatted, other fields as decoded, `deityImage` as `ExpectedImage` gives it); any failure keeps the result and raises exactly one alert |
| `App.AppState.HandleReset` | App.tsx:61-64 | the result becomes none whatever it held; loading and alerts are unchanged |
| `App.LateNarrationAfterFailure` | App.tsx:44-57 | a timer firing after a fast failure brings the loading overlay back (the timers are never cancelled) |
| `App.StubbedScenario` | App.tsx:43-58 | a stubbed fortune with three timeline events and no image ends on the result page with three events and no image |

## Left out

- The hosted model calls, their prompts and `JSON.parse` (services/geminiService.ts:90-114, 127-135): foreign service and library; their outcomes are parameters. The image prompt is not modelled. A decoded value of `None` stands for every throw of lines 114-119, not only a parse error: reading `.essence` of a parsed `null`, assigning it on a parsed primitive, or a narrative field that is truthy but not a string.
- The output schema (services/geminiService.ts:7-72): an instruction to the external model that nothing in the repository checks; no property of it is claimed.
- Wall-clock scheduling of the narration timers and JavaScript's event loop: a timer is an event (`NarrationTick`) that may happen at any point; `HandleFortuneTell` covers the run in which none fires before the request settles.
- `TextFormat.FormatText`: JavaScript strings are UTF-16; the model works on Unicode scalar values, which gives the same result because `。` and every `\s` character are single code units outside the surrogate range.
- `TextFormat.FormatText`: a field missing from the decoded JSON is `undefined`, which `formatText` turns into `""`, and so do `null`, `0` and `false`; a truthy non-string field makes `replace` throw; decoded records here always hold strings.
- `GeminiService.GenerateFortune`: an absent key and an empty key are both the empty string, and an absent reply text and an empty one are both the empty string, as both are falsy in the source.
- `GeminiService.DataUriRoundTrip`: stated only for media types without parameters, because the split at the first `;` cannot tell a parameter from the `;base64` marker.
- components/ResultView.tsx and the `GodEnsemble` image fallback (App.tsx:8-37): presentation and direct DOM changes.
- `window.scrollTo`, `alert` and `console.error`: browser side effects; an alert is recorded as an entry of the alert log, the rest is dropped.
- The HTML `required` attributes and the submit button's `disabled={isLoading}`: browser form behaviour, not component logic; the form is not rendered while loading anyway.
- vite.config.ts: build configuration.
