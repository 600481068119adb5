# faleproxy page script, modelled in Dafny

This project models the client-side script of faleproxy, `public/script.js`. The page has a form where the user enters a URL. The script posts the trimmed URL to `/fetch`. It then shows either an info bar and a sandboxed iframe with the returned page, or a warning banner. Around that, it toggles the loading indicator, the result container and the error banner, and schedules a scroll to the results.

The model has three modules:

- `Text` (`text.dfy`): JavaScript's `String.prototype.trim` over the ECMAScript WhiteSpace and LineTerminator code points, and the `x || fallback` idiom on an optional string. `Trim` is proved against an independent definition, `Strips`: the kept slice has whitespace on both sides and no whitespace at either end. The lemmas prove that `Trim` meets that definition and that any slice meeting it is what `Trim` returns.
- `View` (`view.dfy`): the page's visible state as a value (`ViewState`) and one function per handler: `AfterSubmit`, `AfterComplete`, `AfterFocus` and `WithError` (which is `showError`). Lemmas state what each handler does. An `Event` trace runs handler calls in any order, including a response that arrives after a later submission, and lemmas prove what holds across every such trace.
- `Page` (`page.dfy`): the handlers written as the script writes them. The `Viewer` class holds the three visibility flags, the banner text, the info bar's text, link and title, the container's surfaces and the count of scheduled scrolls. Its methods `Submit`, `Complete` and `Focus` update these fields one at a time, and each is proved to move `State()` exactly as the matching `View` function says. `Surface` is the iframe. `OnSurfaceLoad` changes only the frame's height and its anchors: it rewrites an array of anchors in place with a loop and leaves every `Viewer` field alone.

I/O is replaced by parameters. The answer to `fetch` is an `Outcome`:
- `Ok(title, content)` is a 2xx response whose body parsed.
- `NotOk(error)` is any other status, with the body's `error` field.
- `Threw(message)` is a rejected fetch or a body that is not JSON.

Reading the loaded iframe is a `DocumentAccess`. It holds either the body's height or the failure the read raised.

## What the code keeps apart and what it does not

- Loading and result are never shown together: every path that shows the result hides loading first (script.js:87-88), and entering loading hides the result (script.js:33).
- The result and the banner can be shown together. Two paths lead there:
  - a blank submission while a request is outstanding shows the banner next to the loading indicator (script.js:27), and the later success shows the result without hiding the banner (script.js:87-89);
  - of two overlapping requests, the first fails and shows the banner (script.js:91), and the second succeeds.
  See Findings.
- A rejected `fetch` shows the rejection's own `message` (script.js:90-91); the fallback text appears only for a non-2xx response without a usable `error` (script.js:48-49).

## Model

| member | source | states |
|---|---|---|
| `Text.TrimStartSpec` | public/script.js:24 | the result of dropping leading whitespace is a suffix of the input, everything dropped is whitespace, and it does not start with whitespace |
| `Text.TrimEndSpec` | public/script.js:24 | the result of dropping trailing whitespace is a prefix of the input, everything dropped is whitespace, and it does not end with whitespace |
| `Text.TrimStrips` | public/script.js:24 | `trim` keeps a slice whose two sides are whitespace and whose ends are not (soundness against the reference definition) |
| `Text.TrimUnique` | public/script.js:24 | any slice the reference definition allows is exactly the trimmed string (completeness) |
| `Text.TrimEmptyIff` | public/script.js:24-26 | the `!url` guard fires exactly when the raw input is whitespace only |
| `Text.TrimIdempotent` | public/script.js:24 | trimming the URL again changes nothing |
| `Text.Or` | public/script.js:49 | the logical-or fallback yields a non-empty string as is, and the fallback for an absent or empty one; it is never empty when the fallback is not |
| `View.BlankInputRejected` | public/script.js:24-29 | blank input issues no request and shows exactly "⚠️ Please enter a valid URL" with the result hidden; loading, info bar, surfaces and scroll count are unchanged |
| `View.InputStartsLoading` | public/script.js:24-35 | other input issues one request carrying the trimmed URL, shows loading, hides result and banner, and schedules one scroll; texts and surfaces are unchanged |
| `View.FailureShowsMessage` | public/script.js:46-103 | a non-2xx response shows "⚠️ " + its `error` when non-empty, else "⚠️ Failed to fetch content"; a thrown failure shows "⚠️ " + its message; the banner is shown and result and loading hidden; info bar and surfaces are unchanged; one more scroll is scheduled |
| `View.SuccessShowsResult` | public/script.js:52-89 | success puts the submitted URL in the info bar as text and link, the title or exactly "No title", and leaves exactly one surface holding the content; loading is hidden, the result is shown, the banner is untouched, and one scroll is scheduled |
| `View.FocusHidesOnlyError` | public/script.js:113-115 | focusing the input hides the banner and changes nothing else |
| `View.SessionEndsSettled` | public/script.js:21-96 | a submission answered before any other call ends with loading hidden, and the result shown exactly on success and the banner exactly on failure |
| `View.StepKeepsCoherent` | public/script.js:21-115 | each handler keeps loading and result apart, at most one surface, a surface behind a shown result, the warning glyph on a shown banner, and the link's `href` attribute equal to its text |
| `View.RunKeepsCoherent` | public/script.js:21-115 | the same holds after any sequence of handler calls in any order |
| `View.BlankWhileLoadingShowsBanner` | public/script.js:26-35 | as written and with the correction alike: a blank submission while a request is outstanding leaves loading and the banner both shown, and the result hidden |
| `View.RunSchedulesScrolls` | public/script.js:12-19 | a sequence of calls schedules one scroll per issued request and one per completion, and none for blank input or focus |
| `View.ResultAndErrorBothShown` | public/script.js:86-89 | as written: a URL, then blank input, then the first response's success leaves the result and the banner both shown |
| `View.AfterCompleteFixed` | public/script.js:86-96 | with the banner hidden on success, a completion hides loading and shows the result exactly on success and the banner exactly on failure |
| `View.OverlapLeavesBannerShown` | public/script.js:86-91 | as written: two overlapping requests, the first failing and the second succeeding, leave the result and the banner both shown, with no blank input |
| `View.FixedRunKeepsExclusive` | public/script.js:21-115 | with that correction, the result and the banner are never shown together, whatever order the handlers run in |
| `View.FixedNeverShowsBoth` | public/script.js:21-115 | from the page as first loaded, the corrected handlers never show result and banner together, nor loading and result |
| `Page.OpenExternally` | public/script.js:75-79 | the rewritten anchors keep their number, href and text, and each has target "_blank" and rel "noopener noreferrer" |
| `Page.OpenExternallyFixpoints` | public/script.js:75-79 | rewriting twice equals rewriting once, and a list is unchanged by it exactly when all its anchors already open externally |
| `Page.Surface.constructor` | public/script.js:58-59 | a new surface holds its content, has the sandbox "allow-same-origin allow-scripts", and has no height yet |
| `Page.Viewer.constructor` | public/script.js:1-9 | the page starts idle: every region hidden, nothing written, no surface, no scroll |
| `Page.Viewer.ScheduleScroll` | public/script.js:12-19 | one more scroll is scheduled and nothing else changes |
| `Page.Viewer.ShowError` | public/script.js:99-103 | sets the banner text to the glyph plus the message, shows the banner, hides the result and changes nothing else |
| `Page.Viewer.Submit` | public/script.js:21-35 | returns the request for the trimmed URL or none for blank input, and updates the page exactly as `AfterSubmit` |
| `Page.Viewer.Complete` | public/script.js:37-96 | updates the page exactly as `AfterComplete`, including the `finally`; on success the container holds one freshly created, sandboxed, unsized surface, and otherwise its surfaces are untouched |
| `Page.Viewer.OnSurfaceLoad` | public/script.js:70-84 | a readable document gets its height and every anchor rewritten as `OpenExternally`; an unreadable one changes nothing; the viewer's own state never changes |
| `Page.Viewer.Focus` | public/script.js:113-115 | updates the page exactly as `AfterFocus` |
| `Page.ResultAndErrorShownTogether` | public/script.js:26-89 | the calls of `View.ResultAndErrorBothShown`, made on a new `Viewer`, end with the result and the banner both shown |

## Left out

- DOM lookups, `fetch` and HTTP, `JSON.stringify` and `response.json`, and `document.open/write/close` are not modelled. They are browser I/O. They appear as the `Outcome` and `DocumentAccess` parameters and as the surface's `content`.
- The iframe's `sandbox` attribute is recorded as a string. What the browser enforces with it is not modelled.
- `setTimeout` and `scrollIntoView` in `smoothScrollToResults` are timer and layout effects. Only the number of scheduled scrolls is kept.
- The height comes from the browser's layout as `scrollHeight`, so it is a parameter. The `'px'` suffix is not modelled.
- `Page.Viewer.OnSurfaceLoad`: any failure is treated as a failure of the first read, before anything is written. A failure after the height is set, with the anchors left alone, is not modelled.
- `Page.Viewer.OnSurfaceLoad`: anchors are records in an array. The model does not capture two entries that are the same element. Only elements the query returns are rewritten.
- `console.log` of the swallowed failure is output only and is left out.
- `Page.Viewer.Complete`: the success branch is assumed not to throw. An exception from the DOM writes on lines 53-67 would reach the `catch` after a partial update. That case is not modelled.
- `title` and `error` values that are JSON numbers, booleans or objects are not modelled. Their truthiness and `message` conversion differ from strings, so the model takes a string or nothing.
- A 2xx body without a `content` string is not modelled: `document.write` (script.js:66) would write "undefined" or the value's string form, and `Outcome.Ok` takes `content` as a string.
- `View.RunKeepsCoherent`: this invariant does not include the mutual exclusion of result and banner, or of loading and banner, because the code as written keeps neither. Result and banner together is a finding (see Findings). Loading and banner together (`View.BlankWhileLoadingShowsBanner`) is not claimed as a bug, and the corrected completion leaves it as it is: the banner then reports the rejected blank entry while the earlier request is still running.
- Overlapping requests are modelled as arbitrary interleavings of `Submit` and `Complete`. There is no real concurrency. No generation counter or cancellation was added, because the code has none.
- The `input` handler (script.js:106-110) only resets a border colour and depends on the browser's `validity` API.
- `tests/deployment-protection.test.js` holds only a placeholder assertion. There is nothing in it to model.
- The page markup, `index.html`, is not part of this model. `Viewer`'s constructor assumes every region starts hidden and every text starts empty.

## Findings

| source | as written | input that shows it | evidently intended | confidence | as-written member | corrected member |
|---|---|---|---|---|---|---|
| public/script.js:86-89 | the success path shows the result but never hides the error banner | submit a URL; before the response arrives, submit blank input (the banner appears); the first response then succeeds. Or: submit URL a, then URL b; a fails; b succeeds | a successful render also hides the banner: the script hides the banner when loading starts (line 34) and hides the result whenever the banner is shown (line 102), so it keeps the two apart everywhere else | medium; not executed | `View.ResultAndErrorBothShown` | `View.AfterCompleteFixed` |

`View.OverlapLeavesBannerShown` exhibits the second input. `Page.ResultAndErrorShownTogether` runs the first input's calls on the `Viewer` class. `Viewer` follows the code as written, up to what "## Left out" lists. The corrected completion is what `Step` and `Run` use when `fixed` is set. `View.FixedRunKeepsExclusive` and `View.FixedNeverShowsBoth` prove that, with the correction, the result and the banner stay exclusive across every interleaving of handler calls.
