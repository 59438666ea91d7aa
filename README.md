# Form-state, pagination and breakpoint hooks, modelled in Dafny

This project models the state logic of a small collection of React hooks.

- **`useForm`** (`src/hooks/useForm.ts`). This is the form-state manager. Its reducer handles three actions:
  - CHANGE normalises an input event to its value and applies the field's optional `onChange`/`onBlur` callback. The callback may return a scalar, a multi-field patch, or nothing usable.
  - ERROR sets one field's error flag and message.
  - REPLACE overwrites field values in bulk.

  The hook also builds the initial state and the registry of default error messages. It exposes per-field change and blur handlers, with a shared debouncer for `withoutInputValue` fields, plus a validator, `handleErrors` and `replaceForm`.
- **The older form hook** (`src/hooks/index.ts`). It has the same reducer shape, but only CHANGE and ERROR, no messages, and a `validator` that exempts a failing field.
- **`useResponsive`**. It classifies the window width against four thresholds into five flags.
- **`usePaginatedScroll`**. It holds `loading`/`counter`/`data`/`error` and drives them with scroll events and the fetch's success and failure continuations.

Files:

- `js_values.dfy` (module `JsValues`): the JavaScript values the hooks test. It defines truthiness, non-null objects and optional property reads.
- `use_form.dfy` (module `UseForm`): the pieces of the `useForm` reducer.
  - `Reduce` is the reducer as a pure function.
  - `PatchFields`, `ReplaceValues` and `Reducer` are the loops the reducer runs, each proved equal to its specification.
  - `GetInitValues` is the initialisation loop.
  - `Check`/`Validated`/`AllPass` specify validation; `ErrorsReported` specifies error reporting.
- `use_form_lemmas.dfy` (module `UseFormLemmas`): the properties of those specifications.
- `use_form_hook.dfy` (module `UseFormHook`): class `Form`, one hook instance. It holds the state, the registry and the debouncer's single pending call. Every change goes through `Dispatch`, that is, through the reducer. Validation and `handleErrors` are loops that dispatch one ERROR per field on a snapshot of the state. `DebounceScenario` shows that two quick calls and one quiet period land only the later value.
- `legacy_form.dfy` (module `LegacyForm`): the older hook, with its reducer, validator and `Form` class.
- `responsive.dfy` (module `Responsive`): the breakpoint classification.
- `paginated_scroll.dfy` (module `PaginatedScroll`): class `Pager`. `ScrollScenario` replays the hook's test scenario.

Field records keep the JavaScript distinction that matters most here: whether the `error` key is present. A record with the key is *error-tracked*. Only tracked fields are validated, and only they get `error := false` when a change clears them. User callbacks (`onChange`, `onBlur`, `checkFieldErrors`, `validator`) are Dafny functions. Their results are JavaScript values, so the model takes every branch the code takes on truthiness and `typeof`.

Four behaviours of the code are easy to miss; the model keeps each as written:

- Whether a field is tracked is not fixed by its definition. A CHANGE whose callback returns a scalar rewrites the record as `{value, error: false, errorMessage}` (src/hooks/useForm.ts:74-75), so an untracked field becomes tracked. An ERROR on a field does the same. What holds (`Reduce`, `RunKeepsFields`) is that a tracked field never becomes untracked and that the set of fields never changes.
- The scalar branch does not only touch `value` and the error pair: it drops every other key of the record, `checkFieldErrors` included. Since validation looks for that key on the record, a field rewritten this way is no longer checked (`ScalarChangeBypassesChecker`). The older hook loses its `validator` the same way (src/hooks/index.ts:63); its patch branch keeps it (`ChangeWithPatch`).
- The reducer can throw. The CHANGE fallback reads `reducerState[field].hasOwnProperty` (src/hooks/useForm.ts:90), which throws a TypeError for a field the state lacks. The model returns `TypeError` there. `RunKeepsFields` shows that the hook's own dispatches never reach that case.
- The two hooks combine the validation conditions differently, and the model takes each hook's own combination:
  - `useForm` (src/hooks/useForm.ts:186-211): empty or in error, otherwise a truthy `checkFieldErrors`.
  - The older hook (src/hooks/index.ts:144): empty or in error, and not exempted by `validator`.

## Model

| member | source | states |
|---|---|---|
| UseForm.Reduce | src/hooks/useForm.ts:65-124 | The reducer never throws on an action naming an existing field (or on REPLACE or an unknown type), and it then keeps exactly the same fields. No action removes a field. No action untracks a tracked field. |
| UseForm.PatchFields | src/hooks/useForm.ts:76-88 | The `for...in` loop over the callback's patch, spread over the state, gives exactly `ChangePatch`. Each existing named field is rewritten; the others are kept. |
| UseForm.ReplaceValues | src/hooks/useForm.ts:106-120 | The REPLACE loop gives exactly `Replaced`. Only the values of existing named fields change. |
| UseForm.Reducer | src/hooks/useForm.ts:65-124 | The reducer as run, with its two loops, returns what `Reduce` specifies for every state and action. |
| UseForm.GetInitValues | src/hooks/useForm.ts:126-144 | The reduce over the definition keys gives the initial state. It fills the registry in place with exactly the truthy default messages. |
| UseFormLemmas.ChangeFallback | src/hooks/useForm.ts:70-93 | CHANGE with no callback, or a falsy result, behaves as follows. The target's value becomes the normalised input. A tracked target gets `error := false` and keeps its message and other keys; an untracked one changes only its value. Every other field is unchanged. |
| UseFormLemmas.NormalisedValues | src/hooks/useForm.ts:71-73 | For every value: one whose `target` is truthy is replaced by `target.value`; any other object, such as a plain object without `target`, is kept whole, and so is any non-object. The two objects of the hook's tests are instances. |
| UseFormLemmas.ChangeScalar | src/hooks/useForm.ts:74-75 | A truthy non-object callback result replaces the record by exactly `{value: result, error: false, errorMessage: registry}`. Other keys are dropped, and the field is added if it was missing. Every other field is unchanged. |
| UseFormLemmas.ChangeWithPatch | src/hooks/useForm.ts:76-88 | An object callback result sets `value := patch[k]` and `errorMessage := registry[k]` on every existing field it names. It sets `error := false` only where the field was tracked, so untracked fields stay untracked. Unnamed fields are unchanged; the callback sees the state before the change. |
| UseFormLemmas.PatchIgnoresUnknownKeys | src/hooks/useForm.ts:79-86 | A patch key that names no field adds no field. |
| UseFormLemmas.ScalarChangeBypassesChecker | src/hooks/useForm.ts:74-75 | After a scalar-result CHANGE, validation passes the field whatever its `checkFieldErrors` would return, because the record lost that key. |
| UseFormLemmas.ErrorSetsFlags | src/hooks/useForm.ts:96-104 | ERROR writes the payload's flag and message on the target. The target's value and other keys and every other field are unchanged. |
| UseFormLemmas.ReplaceSetsValues | src/hooks/useForm.ts:106-116 | REPLACE with an object sets only `value` on the existing fields it names. Flags, messages and other keys are kept and no field is added. |
| UseFormLemmas.NoOpActions | src/hooks/useForm.ts:117-123 | REPLACE with a non-object payload returns the state unchanged. An unknown action type does too. |
| UseFormLemmas.ReplaceIdempotent | src/hooks/useForm.ts:106-116 | Replacing twice with the same payload equals replacing once. |
| UseFormLemmas.ReplaceWithOwnValues | src/hooks/useForm.ts:106-116 | Replacing with the state's own values leaves the state unchanged. |
| UseFormLemmas.RunKeepsFields | src/hooks/useForm.ts:65-124 | Any sequence of actions that name existing fields runs without a TypeError and keeps the field set. Tracked fields stay tracked. |
| UseFormLemmas.ChangeAfterError | src/hooks/useForm.ts:90-104 | After an ERROR, a plain change of the same field clears the flag and keeps the message the ERROR wrote. |
| UseFormLemmas.InitialValues | src/hooks/useForm.ts:126-144 | The initial state has exactly the definition keys, each with its value and message. A field is tracked iff its definition has `error`. The registry has an entry exactly for the truthy messages. |
| UseFormLemmas.UntrackedNeverFlagged | src/hooks/useForm.ts:186-198 | An untracked field is never flagged and validation leaves it unchanged. |
| UseFormLemmas.EmptyOrErroredFails | src/hooks/useForm.ts:186-197 | A tracked field with a falsy value or `error == true` is flagged with the registry message, and the verdict is false. |
| UseFormLemmas.CheckerFlags | src/hooks/useForm.ts:198-211 | Otherwise, a field still carrying `checkFieldErrors` is flagged iff the checker's result is truthy. The message is that result when it is a string, otherwise the registry message. |
| UseFormLemmas.ValidationOutcome | src/hooks/useForm.ts:182-215 | Validation keeps every field and value. Flagged fields end with `error == true` and the others are unchanged. A form that passes is left unchanged. |
| UseFormLemmas.NameEmailScenario | src/hooks/useForm.ts:182-215 | An untracked empty `name` sits beside a tracked empty `email` with message "required". Validation then fails, flags `email` with "required" and leaves `name` untracked. |
| UseFormLemmas.ReportedErrors | src/hooks/useForm.ts:248-266 | Each reported field of the state gets `error := true` and the reported message, or keeps its previous message when the report is empty. Its value and other keys (such as `checkFieldErrors`) are kept. Other fields and unknown keys change nothing. |
| UseFormHook.Form.constructor | src/hooks/useForm.ts:126-145 | The form starts from the initial state and the default-message registry, with no call pending. |
| UseFormHook.Form.Dispatch | src/hooks/useForm.ts:145 | The new state is the reducer's result on the old state, and the field set is kept. |
| UseFormHook.Form.Handle | src/hooks/useForm.ts:157-180 | A handler (change or blur, lines 217-240 alike) on an immediate field reduces CHANGE with its `onChange`/`onBlur`. On a `withoutInputValue` field it leaves the state and overwrites the single pending call. |
| UseFormHook.Form.Flush | src/hooks/useForm.ts:146-155 | When the debounce delay elapses, only the last pending call is reduced, and the slot empties. |
| UseFormHook.Form.ValidateForm | src/hooks/useForm.ts:182-215 | The loop of ERROR dispatches leaves exactly `Validated(old state)`. It returns true iff no field of the old state was flagged. |
| UseFormHook.Form.HandleErrors | src/hooks/useForm.ts:248-266 | No report leaves the state unchanged. Otherwise the loop of ERROR dispatches leaves exactly `ErrorsReported(old state, report)`. |
| UseFormHook.Form.ReplaceForm | src/hooks/useForm.ts:268-270 | The new state is the reducer's REPLACE of the given payload. |
| LegacyForm.HandlerValue | src/hooks/index.ts:119 | An object input whose `target` is neither missing nor null yields `e.target.value` (`undefined` when `target` is a primitive), and other inputs yield themselves. It throws exactly for `null` and for objects whose `target` is missing or null. |
| LegacyForm.Reduce | src/hooks/index.ts:58-87 | Actions naming existing fields never throw and keep the field set. No field is removed. No tracked field is untracked. |
| LegacyForm.PatchFields | src/hooks/index.ts:64-76 | The patch loop, spread over the state, gives exactly `ChangePatch`. |
| LegacyForm.Reducer | src/hooks/index.ts:58-87 | The reducer as run returns what `Reduce` specifies. |
| LegacyForm.InitialState | src/hooks/index.ts:89-100 | The initial state has exactly the argument keys, each record with its definition's value, `error` key and `validator`. |
| LegacyForm.ChangeScalar | src/hooks/index.ts:62-63 | A truthy non-object callback result makes the record exactly `{value: result, error: false}`. Other fields are unchanged. |
| LegacyForm.ChangeWithPatch | src/hooks/index.ts:64-76 | An object result sets the value of existing named fields and clears `error` only where tracked; they keep their `validator`. Unnamed fields are unchanged. |
| LegacyForm.ChangeFallback | src/hooks/index.ts:78-81 | Otherwise the target takes the value, plus `error := false` only if tracked. Nothing else changes. |
| LegacyForm.ErrorAndUnknown | src/hooks/index.ts:82-86 | ERROR sets only the target's `error`. Any other action type returns the state unchanged. |
| LegacyForm.ValidatorExempts | src/hooks/index.ts:144 | A truthy `validator` result exempts the field from being flagged, whatever its value or flag. |
| LegacyForm.ValidationOutcome | src/hooks/index.ts:139-153 | Validation keeps every field. Only flagged fields change, by `error := true`. A passing form is unchanged. |
| LegacyForm.Form.constructor | src/hooks/index.ts:89-101 | The form starts from the initial state with no call pending. |
| LegacyForm.Form.Dispatch | src/hooks/index.ts:101 | The new state is the reducer's result, and the field set is kept. |
| LegacyForm.Form.Handle | src/hooks/index.ts:113-137 | The handler extracts the value first and changes nothing if that throws. It then dispatches CHANGE immediately, or overwrites the single pending call for `withoutInputValue` fields. |
| LegacyForm.Form.Flush | src/hooks/index.ts:102-111 | Only the last pending call is reduced, and the slot empties. |
| LegacyForm.Form.IsValidForm | src/hooks/index.ts:139-153 | The loop of ERROR dispatches leaves exactly `Validated(old state)`. It returns true iff no field was flagged. |
| Responsive.Classify | src/hooks/useResponsive.ts:20-26 | The first render and every resize (lines 30-36) compute the same record. With `sm <= md <= lg <= xl`, exactly one flag holds: the one for the width's band, meaning how many thresholds are at or below the width. |
| Responsive.Extremes | src/hooks/useResponsive.ts:21-25 | `xs` holds iff `width < sm`, and `xl` holds iff `width >= xl`, for any thresholds. |
| Responsive.BandMonotone | src/hooks/useResponsive.ts:21-25 | A wider window never falls into a lower band. |
| Responsive.UnorderedOverlap | src/hooks/useResponsive.ts:21-25 | With unordered thresholds, two flags can hold at once. |
| Responsive.DefaultBoundaries | src/hooks/useResponsive.ts:13-16 | The defaults are 576/768/992/1200. Each interval is closed below and open above: 575 gives xs, 576 gives sm, 768 gives md, 992 gives lg, 1199 gives lg and 1200 gives xl. |
| PaginatedScroll.Pager.constructor | src/hooks/usePaginatedScroll.ts:31-40 | The pager starts with `loading = false` and `error = false`. The counter is `initialCounter`, defaulting to 1; the data is `initialData`, defaulting to `[]`. |
| PaginatedScroll.Pager.Scroll | src/hooks/usePaginatedScroll.ts:45-53 | A fetch starts, and `loading` becomes true, iff a container exists, it is at its bottom, and nothing is loading. Otherwise nothing changes, so at most one fetch is in flight. |
| PaginatedScroll.Pager.Resolve | src/hooks/usePaginatedScroll.ts:54-59 | On success, the data becomes the old data followed by the new page, and the counter goes up by one. `error` and `loading` become false. |
| PaginatedScroll.Pager.Reject | src/hooks/usePaginatedScroll.ts:60-62 | On failure, the data and counter are kept, `error` becomes the rejection value and `loading` becomes false. |

## Left out

- React plumbing is not modelled: `useReducer`/`useState` scheduling, `useCallback` caching, `useEffect`, `useRef` and the resize listener. Each dispatch is applied at once. Validation and `handleErrors` are modelled as their ERROR dispatches reduced in turn on the state they read. That equals the batched result, because each dispatch touches only its own field.
- The default-message registry is treated as fixed from the first state on. In the hook it is filled by a `setErrorMessages` call during the first render, so that render's reducer sees an empty registry.
- lodash `debounce` is reduced to its observable effect. There is one pending-call slot shared by every field, each call overwrites it, and `Flush` stands for the quiet period elapsing. The 500 ms timer and real time are not modelled.
- The bodies of the user callbacks are inputs (`onChange`, `onBlur`, `checkFieldErrors`, `validator`). `onError` is modelled through its result (`HandleErrors` takes it as a parameter). Its extra parameters are not modelled. `handleSubmit` is not modelled, since it only calls `onSubmit(state)`.
- UseFormHook.Form.HandleErrors: `onError` results are taken as their declared type, a map of strings or nothing. A non-object truthy result is not modelled; a string result would be walked by index.
- The stray `erroMessage` key written by the CHANGE fallback (src/hooks/useForm.ts:91) is not modelled. Its only effect captured is that `errorMessage` is unchanged.
- A CHANGE action without a payload (`return reducerState`, src/hooks/useForm.ts:94-95) is not modelled, because every dispatch in the hook passes one.
- JavaScript runtime accidents are not modelled:
  - inherited properties seen by `for...in` or `reducerState[prop]` (such as `toString`);
  - property reads on strings (`"abc".target`);
  - `NaN` and fractional numbers (`Num` is an integer);
  - an explicit `error: undefined` key.
- Calling `useResponsive()` with no argument is not modelled. It would throw on destructuring, and the model takes a thresholds record. Widths and thresholds are integers.
- PaginatedScroll: the scroll-back after a failure (`scrollTop - scrollTop * offSet` with `scrollTo`) is not modelled, because it is floating-point arithmetic and a DOM call. Promise mechanics are not modelled either. Scroll metrics are integers.
- PaginatedScroll.Pager.Resolve: this assumes a re-render between two scroll events. Two `onScroll` calls within one render both see `loading == false`, and could start two fetches whose continuations use the same captured `data` and `counter`.
- `dist/hooks/index.ts` is not part of this model. It is a build artefact with per-field `useState` and no logic of its own. So are `src/components/index.tsx` and `src/index.ts`, which hold JSX wrappers and re-exports.
