# Word request form — a Dafny model

This project models the logic of the "Palavras do Dia" word-request
component (`src/App.tsx`): the form that lets a user ask a remote API for a
batch of random words by count, word length and language.

It has two parts:

- **Settings normalisation.** `handleSubmit` reads the draft form. It
  converts the count and the length with `Number(...)`. A falsy result (NaN
  or zero) is replaced by the default (10 and 6). The count is then clamped
  to [1, 10] and the length to [3, 10] with `Math.min(Math.max(...))`. An
  empty language becomes `"pt-br"`. The normalised values are written back
  into the form and become the new settings. `handleInputChange` edits one
  form field.
- **The fetch cycle.** Each replacement of the settings object re-runs the
  settings effect. The cleanup of the previous run aborts its controller,
  and the new run sets `{ isLoading: true, error: null }` and starts
  loading. A cycle resolves with an abstract outcome: a word list, a
  response that is not ok, a thrown `Error`, or a thrown non-`Error`. On
  success the word list is replaced wholesale, with no abort check. On
  failure nothing happens if the cycle was aborted; otherwise the error
  message is set and the old words stay. `handleRefresh` replaces the
  settings with an equal-valued copy, which is a new object, so it always
  starts a new cycle.

Files:

- `js_values.dfy` (`JsValues`): the result of `Number(...)` as NaN, ±Infinity
  or a finite real; truthiness; `||`; `Math.max`, `Math.min` and the clamp.
- `settings.dfy` (`Settings`): `ApiSettings`, `FormValues`, the defaults,
  normalisation, submit write-back, input change, and the idempotence of submit.
- `app_state.dfy` (`AppState`): the component state, the events, the
  transitions, the invariant, and lemmas over event traces.
- `render.dfy` (`Render`): which of error, loading indicator or word grid is shown.

`Number(string)` and `Number#toString` are left abstract. They are the two
fields of a `NumberText` value that the operations take as a parameter. The
idempotence of submit needs only that `Number(x.toString())` gives back `x`
for the two normalised numbers. That holds for every finite double, and the
lemma states it as a precondition.

A zero count gives the default 10, not the lower bound 1, because `0` is
falsy and `||` replaces it before the clamp. Likewise a zero length gives 6,
not 3 (`ZeroFallsBackToDefault`, `ZeroCountLongLength`).

## Model

| member | source | states |
|---|---|---|
| JsValues.Max | src/App.tsx:100-101 | `Math.max` is NaN exactly when an argument is NaN; otherwise it is one of the arguments and at least both |
| JsValues.Min | src/App.tsx:100-101 | `Math.min` is NaN exactly when an argument is NaN; otherwise it is one of the arguments and at most both |
| JsValues.Clamp | src/App.tsx:100-101 | `min(max(n, lo), hi)`: NaN stays NaN; anything else, ±Infinity included, lands finite in [lo, hi]; values inside are kept; values below go to lo and values above go to hi |
| JsValues.ClampIdempotent | src/App.tsx:100-101 | clamping a clamped value changes nothing |
| JsValues.Or | src/App.tsx:95-96 | numeric `n \|\| fallback` keeps a truthy `n` and otherwise gives the fallback; NaN and 0 are the falsy numbers |
| JsValues.OrString | src/App.tsx:97 | string `s \|\| fallback` keeps a non-empty `s` and gives the fallback exactly when `s` is empty |
| Settings.InitialForm | src/App.tsx:35-39 | the initial form shows the default settings as `toString` prints them |
| Settings.HandleInputChange | src/App.tsx:85-90 | the named field takes the new text and the other two fields are unchanged |
| Settings.NormalizeNumber | src/App.tsx:95-100 | the count is always finite in [1, 10]; NaN or 0 gives 10; in-range values are kept; other truthy values below 1 (including -Infinity) give 1; values above 10 (including +Infinity) give 10 |
| Settings.NormalizeLength | src/App.tsx:96-101 | the length is always finite in [3, 10]; NaN or 0 gives 6; in-range values are kept; other truthy values below 3 give 3; values above 10 give 10 |
| Settings.NormalizeLang | src/App.tsx:97 | the language is never empty; a non-empty language is kept verbatim, unchecked against the options; an empty one becomes "pt-br" |
| Settings.Normalize | src/App.tsx:95-103 | the normalised settings are always valid: both numbers finite and in range, language non-empty |
| Settings.HandleSubmit | src/App.tsx:92-112 | the new settings are the normalised draft, and the rewritten form mirrors exactly those settings |
| Settings.NormalizeFixesMirror | src/App.tsx:95-109 | reading back a form that mirrors valid settings gives those settings again, when `Number(x.toString()) == x` for their numbers |
| Settings.SubmitIdempotent | src/App.tsx:92-112 | a second submit with no edits in between gives the same form and the same settings |
| Settings.UnparsableGivesDefaults | src/App.tsx:95-97 | counts and lengths that parse to NaN, with an empty language, give exactly `DEFAULT_SETTINGS` |
| Settings.ZeroFallsBackToDefault | src/App.tsx:95-96 | a zero count gives 10 and a zero length gives 6, not the lower bounds |
| Settings.ZeroCountLongLength | src/App.tsx:95-102 | count 0, length 20 and language "en" give {10, 10, "en"}; the two numbers are normalised independently |
| AppState.Fresh | src/App.tsx:29-39 | before any effect the settings are exactly the defaults mirrored in the form, nothing is loading, there is no error, the word list is empty, and no cycle has started or been aborted |
| AppState.StartCycle | src/App.tsx:42-44 | an effect run gives the new cycle the next number, makes it live, and sets loading with no error |
| AppState.Initial | src/App.tsx:29-44 | after mount the invariant holds, the default settings are loading, and cycle 0 is live |
| AppState.Commit | src/App.tsx:41-83 | replacing the settings object keeps the invariant, aborts every earlier cycle, makes a new cycle live, sets loading and keeps the words |
| AppState.DoEdit | src/App.tsx:85-90 | an input change updates only the named form field; settings, words, fetch state and cycles are unchanged |
| AppState.DoSubmit | src/App.tsx:92-112 | submit installs the normalised settings, mirrors them in the form, keeps the invariant, starts a new live cycle and leaves no earlier cycle live |
| AppState.DoRefresh | src/App.tsx:115-117 | refresh keeps the settings, form and words, but starts a new live cycle with the next number and aborts the previously live one |
| AppState.FailureMessage | src/App.tsx:57-72 | a non-ok response gives the fixed "Não foi possível…" message; a thrown `Error` gives its own message; any other thrown value gives "Algo inesperado aconteceu." |
| AppState.DoResolve | src/App.tsx:57-75 | an aborted cycle's resolution changes nothing; success replaces the words wholesale and clears loading and error; a live failure sets its message and keeps the words; settings, form and cycles never change |
| AppState.Next | src/App.tsx:41-117 | every enabled event preserves the invariant |
| AppState.Run | src/App.tsx:31-117 | every state reached by a valid trace satisfies the invariant |
| AppState.RunFromInitial | src/App.tsx:31-74 | in every state reachable from mount, the invariant holds and a loading state carries no error |
| AppState.SingleLiveCycle | src/App.tsx:80-82 | at most one cycle is live, and it is the one recorded as live |
| AppState.OnlyLiveCycleMutates | src/App.tsx:61-67 | a resolution that changes the state belongs to the live cycle |
| AppState.AbortedStaysAborted | src/App.tsx:80-82 | along any valid trace the aborted set and the cycle count only grow |
| AppState.StaleCycleChangesNothing | src/App.tsx:65-67 | once a submit or refresh supersedes a cycle, that cycle's later failure, after any events, leaves the whole state unchanged |
| AppState.TwoRefreshesTwoCycles | src/App.tsx:115-117 | two refreshes keep the settings and start two distinct cycles; the first is aborted by the second |
| Render.Render | src/App.tsx:201-213 | a non-empty error message is shown first, as that very text; under the invariant the loading indicator is shown exactly while loading; the word grid shows the current words |
| Render.SuccessShowsWords | src/App.tsx:61-63 | after a live success the grid shows exactly the delivered words, in order |
| Render.NotOkShowsMessage | src/App.tsx:57-74 | after a live non-ok response the fixed message is shown, and the old words remain in the state |
| Render.EmptyMessageShowsStaleWords | src/App.tsx:201-213 | an `Error` with an empty message is stored, but it is falsy, so the stale words are shown with no feedback |

## Left out

- `Number(string)` and `Number#toString`: left abstract as parameters; the model does not parse or print floats.
- Double precision: finite numbers are unbounded reals, and signed zero is not distinguished. `-0` is falsy like `0`, so normalisation is unaffected.
- `fetch`, the URL and query-string construction (src/App.tsx:46-55), and JSON decoding: these are network and library calls. They become the abstract `Outcome`. The `as string[]` cast is not checked in the source, and the model takes the word list as given.
- React scheduling, batching and `StrictMode`'s double effect run: each event is atomic, and mount runs the effect once.
- Unmount: the cleanup that aborts the last cycle on unmount is not modelled.
- The disabled submit and refresh buttons while loading: submit and refresh are allowed in every state. The model therefore admits more behaviours than the UI, and every property still holds.
- AppState.DoResolve: assumes that an aborted cycle never resolves with a word list. The success path (src/App.tsx:61-63) does not check the signal; it relies on `fetch` and `response.json()` rejecting once their signal is aborted. The model states this as the `CanResolve` precondition, so "an aborted cycle's resolution changes nothing" holds only under that behaviour of `fetch`.
- AppState.Run: a cycle may resolve more than once in the model, though a promise settles once. This over-approximates the source, so the proved properties hold a fortiori.
- The markup, CSS, service-worker registration (src/main.tsx) and build configuration (vite.config.ts): no logic.
