# CineScript AI request lifecycle in Dafny

This project models the core of the CineScript AI web app: the main component in
`App.tsx` and the types in `types.ts`. A user submits a film idea and gets back a
generated shooting script. The script has a title, context, characters, an optional
costume concept, and an ordered list of bilingual (Vietnamese/English) scenes.

The component holds five pieces of state: `content`, `currentStyle`, `isLoading`,
`error` and `isSettingsOpen`. Submitting goes through these steps:

1. A credential gate checks the two stored API keys. An absent key and an empty
   key both count as missing.
2. If the gate passes, the state is reset and the request's style is remembered.
3. The script generator is awaited.
4. The result is stored, or the failure is mapped to one of two messages.
5. Loading is cleared in a `finally` block.

The scene list of the current content can later be replaced in place.

Files:

- `types.dfy` (module `Types`): the enums, the request, the `{vi, en}` pair and the
  generated content.
- `text.dfy` (module `Text`): JavaScript truthiness of an optional string, and
  `String.prototype.includes`. `includes` is proved equivalent to "the pattern occurs
  at some index".
- `lifecycle.dfy` (module `Lifecycle`): contains these parts:
  - the state as a value;
  - one specification function per step of the code as written: `Submitted` (up to
    the await), `CompletedAsWritten` (catch block `CaughtAsWritten`, then finally),
    `Generated` (the whole submit handler) and `ScriptUpdated`;
  - the corrected catch block `Caught` and settle step `Completed` (see "## Findings"),
    which the class does not run;
  - the four view conditions of the screen;
  - lemmas about the above;
  - class `App`, whose fields are the five state hooks and whose methods are the
    handlers. `Submit`, `Complete`, `HandleGenerateScript` and `HandleUpdateScript` are
    proved equal to `Submitted`, `CompletedAsWritten`, `Generated` and `ScriptUpdated`
    of the old state. `OpenSettings` and `CloseSettings` are specified by a field
    update of the old state. Every method keeps the invariant `Consistent`: while
    loading there is neither content nor an error.

The awaited generator call is split into two steps: `Submit` and
`Complete(outcome)`. The generator is opaque, so its outcome is a parameter. It is
either a resolved `GeneratedContent` or a rejection. The two stored keys are
parameters too.

The model follows the code of `App.tsx`. Four consequences:

- When the gate stops a request, any previous content stays.
- "Missing keys" is recognised by a substring match on the rejection's message.
- Settings are opened on the gate path and the missing-keys path only.
- A generator that rejects with null/undefined makes the catch block throw, so no
  error is shown (see "## Findings"). The class keeps this behaviour. The corrected
  catch block (`Caught`, `Completed`) is defined and proved beside it.

## Model

| member | source | states |
|---|---|---|
| `Text.Truthy` | App.tsx:24 | `!key` is true of an absent key and of the empty string alike |
| `Lifecycle.HasAnyKey` | App.tsx:21-24 | the gate lets a request through exactly when at least one of the two stored keys is truthy |
| `Lifecycle.IsMissingKeys` | App.tsx:40 | `err.message && err.message.includes("MISSING_KEYS")` on an optional string message |
| `Lifecycle.Submitted` | App.tsx:21-33 | the handler up to the await: either the gate's early return (settings open, "enter a key" error) or the reset before dispatch (loading, no error, no content, the request's style) |
| `Lifecycle.CaughtAsWritten` | App.tsx:38-46 | the catch block as written: touches only error and settings; any thrown object sets an error; a null/undefined rejection leaves the state as it was |
| `Lifecycle.Caught` | App.tsx:38-46 | the corrected catch block: touches only error and settings, and always sets an error |
| `Lifecycle.CompletedAsWritten` | App.tsx:35-49 | once the call settles, as written: not loading, style unchanged; exactly one of content and error unless the rejection was null/undefined, which leaves neither |
| `Lifecycle.Generated` | App.tsx:19-50 | the whole handler for a given generator outcome: the gate alone when no key is truthy, otherwise dispatch followed by the as-written settle step |
| `Lifecycle.ScriptUpdated` | App.tsx:53-60 | the update handler: content stays present or absent as it was, and no other state changes |
| `Lifecycle.ShowsError` | App.tsx:83 | the error banner shows exactly when an error is set |
| `Lifecycle.ShowsWelcome` | App.tsx:96 | the welcome message shows exactly when there is no content, nothing is loading and no error is set |
| `Lifecycle.ShowsLoading` | App.tsx:109 | the loading overlay shows exactly while loading |
| `Lifecycle.ShowsOutput` | App.tsx:118 | the generated script shows exactly when content is present |
| `Text.Includes` | App.tsx:40 | `includes` can only hold when the pattern is no longer than the string |
| `Text.IncludesIffOccurs` | App.tsx:40 | `s.includes(pat)` holds exactly when `pat` occurs in `s` at some index |
| `Lifecycle.MissingKeysIffMarkerOccurs` | App.tsx:40 | a rejection message is classified as "missing keys" exactly when `MISSING_KEYS` occurs in it |
| `Lifecycle.NoMessageIsNotMissingKeys` | App.tsx:40 | an absent or empty message is never classified as "missing keys" |
| `Lifecycle.GateBlocksWithoutKeys` | App.tsx:21-28 | with both keys absent or empty: settings open, the "enter a key" error is set, and content, loading and style are unchanged |
| `Lifecycle.GateIgnoresGenerator` | App.tsx:24-28 | a gated request ends in the same state whatever the generator would return, so the generator is not called |
| `Lifecycle.DispatchResetsState` | App.tsx:30-33 | with a truthy key, before the call: loading, no error, no content, style is the request's, settings untouched |
| `Lifecycle.Completed` | App.tsx:35-49 | the corrected settle step: not loading, exactly one of content and error present, style unchanged, for every outcome |
| `Lifecycle.ResolvedStoresContent` | App.tsx:36-37 | a resolved call stores exactly the returned content with no error, and leaves the settings alone; the written and corrected settle steps agree here |
| `Lifecycle.RejectedClassified` | App.tsx:38-49 | as written: a "missing keys" error gives the "install a key" error and opens settings; any other thrown error gives the generic error with settings untouched; a null/undefined rejection sets no error; never any content |
| `Lifecycle.CorrectedRejectionAlwaysShowsError` | App.tsx:38-46 | with the corrected catch block every rejection shows an error: "install a key" for missing keys, the generic one otherwise |
| `Lifecycle.GeneratedSettles` | App.tsx:19-50 | a gated-through submission ends not loading, with the request's style. It then shows exactly one of output and error, and not the welcome message. The exception is a null/undefined rejection, after which only the welcome message shows |
| `Lifecycle.ReplaceScript` | App.tsx:55-58 | the copy has `script == newScript`; title, context, characters and costume prompt are unchanged |
| `Lifecycle.UpdateWithoutContentIsNoOp` | App.tsx:54 | updating the script with no content changes nothing |
| `Lifecycle.UpdateReplacesOnlyScript` | App.tsx:53-60 | updating the script replaces the content's scene list and no other state |
| `Lifecycle.UpdateIdempotent` | App.tsx:53-60 | applying the same script update twice equals applying it once |
| `Lifecycle.InitialShowsWelcome` | App.tsx:10-14 | the initial state is consistent and shows only the welcome message |
| `Lifecycle.StepsPreserveConsistency` | App.tsx:19-60 | submission (none in flight), completion (as written and corrected) and script update all keep "loading implies no content and no error" |
| `Lifecycle.ViewsExclusive` | App.tsx:83-118 | in a consistent state the loading overlay and the output never show together; the welcome message shows exactly when no other part shows |
| `Lifecycle.NullishRejectionIsSilent` | App.tsx:38-49 | as written, a null/undefined rejection leaves neither content nor error, so the welcome message shows |
| `Lifecycle.CorrectionOnlyAffectsNullish` | App.tsx:38-46 | the corrected catch block agrees with the written one on every other outcome |
| `Lifecycle.App.constructor` | App.tsx:10-14 | the five hooks start as: no content, cinematic style, not loading, no error, settings closed |
| `Lifecycle.App.Submit` | App.tsx:19-33 | the handler up to the await: dispatches exactly when a key is truthy, and the new state is `Submitted` of the old |
| `Lifecycle.App.Complete` | App.tsx:35-49 | the handler after the await, as written: new state is `CompletedAsWritten` of the old; not loading; exactly one of content and error unless the rejection was null/undefined |
| `Lifecycle.App.HandleGenerateScript` | App.tsx:19-50 | the whole handler: new state is `Generated` (as-written settle step) of the old for the given outcome |
| `Lifecycle.App.HandleUpdateScript` | App.tsx:53-60 | the update handler: new state is `ScriptUpdated` of the old |
| `Lifecycle.App.OpenSettings` | App.tsx:64 | opens the settings dialog and changes nothing else |
| `Lifecycle.App.CloseSettings` | App.tsx:66 | closes the settings dialog and changes nothing else |

## Left out

- The script generator (`generateScript`) is not part of this model. Its call is an
  arbitrary resolved or rejected outcome. Properties of the generator itself are
  outside `App.tsx`:
  - which provider it picks;
  - how the payload is built;
  - how its response is parsed;
  - dropping the costume prompt in `ORIGINAL` mode.
- `localStorage` is not modelled. The two key reads are parameters.
- `console.error` is not modelled. It is logging only.
- The Header, InputSection, ScriptOutput and SettingsModal components, the JSX layout
  and the styling are left out. Only the four conditions that decide what is shown
  are modelled.
- The Vietnamese message texts and enum labels are left out. The three messages are
  distinct tags.
- `Lifecycle.App.Submit` requires that no request is in flight, and
  `Lifecycle.App.Complete` requires that one is. Overlapping submissions are not
  modelled.
- Stale closures are not modelled. The settings setters and the update handler may
  run between `Submit` and `Complete`, and each reads the current fields. In React, a
  `handleUpdateScript` captured before a re-render would read the `content` of that
  earlier render. Its update would then be based on stale content.
- A rejection whose `message` is neither a string nor absent is not modelled. One
  example is a number, where `.includes` would itself throw.
- When the written catch block throws on a null/undefined rejection, the handler's
  promise rejects. That is not modelled beyond the state it leaves.
- React batches state updates. The model applies each handler's setters in order, and
  the values they leave are the same.

## Findings

| source | as written | input that shows it | evidently intended | confidence | as-written member | corrected member |
|---|---|---|---|---|---|---|
| App.tsx:38-46 | the catch block reads `err.message` without checking `err`. A null/undefined rejection makes it throw before any error is set, and only `finally` runs | `generateScript` rejects with `undefined` after a gated-through submission | a failed request always shows an error message: the generic connection message | low: the generator's source is not available; not executed | `Lifecycle.NullishRejectionIsSilent` | `Lifecycle.Completed` |

The class `App` keeps the behaviour as written: `Complete` follows `CompletedAsWritten`.
The corrected settle step `Completed` is the one proved to always leave exactly one of
content and error. `CorrectionOnlyAffectsNullish` shows that the two agree on every
other outcome.
