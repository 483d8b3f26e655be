# pwa-ratings prompt scheduling, in Dafny

This project models the scheduling core of the `pwa-ratings` web component
(`src/pwa-ratings.ts`). The component decides whether to show a "rate this
app" modal. It reads a handful of counters from the browser's persisted
key-value store (IndexedDB through idb-keyval) and applies integer threshold
rules. The user's choice among the modal's buttons then moves a persisted
status forward.

The project has four modules, one per concern:

- `JsText` (`js_text.dfy`) models the two pieces of JavaScript string
  behaviour the component relies on:
  - `Number.prototype.toString` on integers, with a parser as its inverse;
  - `String.prototype.includes`, proved equal to "occurs at some index".
- `RatingsStore` (`store.dfy`) defines the store and the read-only questions
  asked of it. The store is a `map<string, Value>`, where a value is a number
  or a string and an absent key stands for `undefined`. The questions are
  `getStatus`, `isResolved`, `alreadyOpenedToday` and `isBrowserSupported`.
  JavaScript truthiness is explicit: a stored `0` reads like an absent key.
- `PromptRules` (`prompt_rules.dfy`) holds the decision rules as pure
  functions, with the lemmas about them:
  - `Evaluate` is one run of `triggerModalIfApplicable`;
  - `RecordLaunch` is its launch bookkeeping;
  - `Decide` is the day rule, then the launch rule;
  - `OpenCheck` is the guard chain of `openPrompt`.
- `RatingsElement` (`element.dfy`) holds the class `PwaRatings`. It has:
  - the element's attributes and private fields;
  - a `shown` flag for the modal's "show" class;
  - a `pendingOpens` counter for scheduled `setTimeout` callbacks;
  - a ghost list of the store review pages opened.

  Every method of `PwaRatings` states its entire new state. Each one names
  exactly the fields it may change, and most tie that state to a
  `PromptRules` function.

Time is the integer number of milliseconds that `Number(new Date())` yields.
It is passed in as `now`. The user-agent string is passed in as `userAgent`.
The fetched web manifest is passed in as `fetched`: `None` means the fetch or
the parse failed.

Some behaviours of the code are easy to misread; the model follows the code:

- The throttle is a rolling window: "already opened today" means less than
  86 400 000 ms since the last open. It is not a calendar-day comparison.
- Trigger evaluation does not check the status or the browser itself.
  `firstUpdated` does, before it calls the evaluation.
- An evaluation that returns early, because no threshold is stored or the
  prompt was opened within the window, does not count the launch.
- `resetAll` deletes the thresholds, so an evaluation right after it returns
  early and changes nothing (`ClearedThresholdsReturnEarly`). Counting starts
  afresh only once a threshold is stored again (`ClearedCountersStartAfresh`).
- An open at time 0 stores 0, which later reads as "never opened", so it does
  not throttle anything (`OpenAtEpochDoesNotThrottle`). This is why the
  throttle properties of `OpenPrompt` and `OpenThrottlesForADay` assume
  `now != 0`.

## Model

| member | source | states |
|---|---|---|
| `JsText.NatToDecimalRoundTrip` | src/pwa-ratings.ts:242-243 | reading back the decimal numeral printed for a natural number gives that number |
| `JsText.IntToDecimalRoundTrip` | src/pwa-ratings.ts:242-243 | `toString()` of any integer, sign included, parses back to the integer |
| `JsText.IncludesIffContains` | src/pwa-ratings.ts:71 | `includes` finds the pattern exactly when it occurs at some index of the string |
| `RatingsStore.StatusOf` | src/pwa-ratings.ts:240-246 | the status is "" exactly when the key is absent or holds a falsy value (0 or ""); a stored string is returned as it is, and a nonzero number as its `toString()` numeral |
| `RatingsStore.ResolvedIffFinalStatus` | src/pwa-ratings.ts:63-66 | the prompt is resolved exactly when the stored status is the string "accepted" or "declined"; a numeric status never resolves it |
| `RatingsStore.AlreadyOpenedToday` | src/pwa-ratings.ts:149-156 | true exactly when a nonzero last-open time is stored and `0 <= now - last < 86400000` |
| `RatingsStore.BrowserSupported` | src/pwa-ratings.ts:68-74 | supported exactly when the Windows-10-only flag is off or the user agent contains "Windows NT 10.0" |
| `PromptRules.RecordLaunch` | src/pwa-ratings.ts:117-125 | the launch count goes up by one (absent counts as 0); the first-launch date is written only when absent or 0, and then as `now`; no other key changes |
| `PromptRules.Decide` | src/pwa-ratings.ts:128-146 | the day rule wins whenever it holds; the launch rule schedules only when the day rule does not; at most one open per evaluation |
| `PromptRules.Evaluate` | src/pwa-ratings.ts:107-147 | the fields take the stored thresholds only when truthy; an early return leaves the store alone and schedules nothing; otherwise the store is the launch bookkeeping and the trigger is `Decide` on the new thresholds, the recorded first launch and the new count; only the two launch counters can change |
| `PromptRules.OpenCheck` | src/pwa-ratings.ts:253-271 | each outcome holds exactly when its guard is the first to fail in the order resolved, opened within the day, unsupported browser, empty store id, empty icon path; the prompt opens exactly when none fails |
| `PromptRules.OpenThrottlesForADay` | src/pwa-ratings.ts:253-275 | after an open at `t`, every open attempt in `[t, t + 86400000)` fails with "already shown today" unless the prompt is resolved |
| `PromptRules.ThrottleLiftsAfterADay` | src/pwa-ratings.ts:149-156 | a full day after the last open the throttle no longer applies |
| `PromptRules.OpenAtEpochDoesNotThrottle` | src/pwa-ratings.ts:149-156 | an open recorded at time 0 reads back as "never opened", so it throttles no check at any later time |
| `PromptRules.EvaluateKeepsStatus` | src/pwa-ratings.ts:107-147 | evaluation never changes the status, so a resolved prompt stays resolved |
| `PromptRules.ClearedThresholdsReturnEarly` | src/pwa-ratings.ts:108-115 | with both thresholds deleted, an evaluation leaves the store unchanged and schedules nothing |
| `PromptRules.ClearedCountersStartAfresh` | src/pwa-ratings.ts:117-125 | with the counters deleted and a threshold stored, an evaluation records the first launch as `now` and a count of 1, and schedules nothing |
| `PromptRules.DayRuleOnMultiples` | src/pwa-ratings.ts:128-137 | the day rule fires at every moment of the day that lies `k * minDays` whole days after the first launch, for every `k >= 1` |
| `PromptRules.NoDayRuleBeforeMinDays` | src/pwa-ratings.ts:128-137 | fewer than `minDays` whole days after the first launch, the day rule does not fire |
| `PromptRules.LaunchCount` | src/pwa-ratings.ts:123-125 | over a series of evaluations that do not return early, the stored launch count grows by exactly the number of evaluations |
| `PromptRules.FirstLaunchSetOnce` | src/pwa-ratings.ts:117-121 | over a series of evaluations that do not return early (a threshold stored, no open recorded), at nonzero times, the first-launch date is the time of the first of them and is never overwritten |
| `PromptRules.LaunchRuleOnFreshStore` | src/pwa-ratings.ts:139-146 | with only a launch threshold `m`, the evaluation after `n` earlier ones schedules by launches exactly when `n > 0` and `n % m == 0` |
| `PromptRules.KeepsKey` | src/pwa-ratings.ts:107-147 | a series of evaluations keeps every key except the two launch counters |
| `RatingsElement.Customize` | src/pwa-ratings.ts:76-105 | a non-empty icon path or name is never replaced; empty ones are filled from the manifest; a manifest without icons stops the step when the icon path is empty, and then the icon path and name are left as they were |
| `RatingsElement.CustomizedStore` | src/pwa-ratings.ts:81 | an empty status is replaced by "unprompted" once the manifest step reaches the write; any other status, and every other key, is kept, so being resolved does not change |
| `RatingsElement.PwaRatings.constructor` | src/pwa-ratings.ts:16-25 | the default attributes; both thresholds start at -1, the delay at 10 s, the modal hidden and nothing scheduled |
| `RatingsElement.PwaRatings.FirstUpdated` | src/pwa-ratings.ts:55-61 | a resolved prompt or an unsupported browser changes nothing; otherwise the manifest data, icon path and name are `Customize`'s, and when that step completes the store, threshold fields and scheduled opens are those of `Evaluate` on the customized store, while an interrupted step leaves only the customized store; resolution never changes; at most one open is scheduled |
| `RatingsElement.PwaRatings.CustomizeModal` | src/pwa-ratings.ts:76-105 | the new manifest data, icon path, name and store are those of `Customize` |
| `RatingsElement.PwaRatings.TriggerModalIfApplicable` | src/pwa-ratings.ts:107-147 | the new store and fields are those of `Evaluate`, and one open is scheduled exactly when it names a trigger |
| `RatingsElement.PwaRatings.TimerFires` | src/pwa-ratings.ts:132-134 | a scheduled callback runs `openPrompt` and is no longer pending |
| `RatingsElement.PwaRatings.OpenPrompt` | src/pwa-ratings.ts:253-275 | the outcome is `OpenCheck`'s; a failed guard changes nothing; an open shows the modal, stores only the open time, and throttles the following day |
| `RatingsElement.PwaRatings.ClosePrompt` | src/pwa-ratings.ts:248-251 | the modal is hidden |
| `RatingsElement.PwaRatings.ClickedExitButton` | src/pwa-ratings.ts:199-202 | stores "closed" (not resolved) and hides the modal |
| `RatingsElement.PwaRatings.ClickedCancelButton` | src/pwa-ratings.ts:204-207 | stores "declined" (resolved) and hides the modal |
| `RatingsElement.PwaRatings.ClickedMaybeButton` | src/pwa-ratings.ts:209-212 | stores "postponed" (not resolved) and hides the modal |
| `RatingsElement.PwaRatings.ClickedOkayButton` | src/pwa-ratings.ts:214-218 | stores "accepted" (resolved), opens the app's review page and hides the modal |
| `RatingsElement.PwaRatings.ClickedModalBackground` | src/pwa-ratings.ts:220-225 | on a shown modal it acts as the exit button; on a hidden one it changes nothing |
| `RatingsElement.PwaRatings.LaunchRatingsAndReviews` | src/pwa-ratings.ts:227-233 | the review page for the store id is opened |
| `RatingsElement.PwaRatings.ResetStatus` | src/pwa-ratings.ts:235-238 | the status becomes "unprompted" and no other key changes; manifest data, icon path and name are refreshed as `Customize` says |
| `RatingsElement.PwaRatings.SetMinDays` | src/pwa-ratings.ts:277-283 | a non-negative value is stored under "min-days"; a negative one changes nothing |
| `RatingsElement.PwaRatings.SetMinLaunches` | src/pwa-ratings.ts:285-291 | a non-negative value is stored under "min-launches"; a negative one changes nothing |
| `RatingsElement.PwaRatings.SetSecondsDelay` | src/pwa-ratings.ts:293-299 | a non-negative delay is taken; a negative one is refused and the delay is unchanged |
| `RatingsElement.PwaRatings.ResetMinModalValues` | src/pwa-ratings.ts:301-304 | both thresholds are deleted and nothing else changes |
| `RatingsElement.PwaRatings.ResetOriginalModalValues` | src/pwa-ratings.ts:306-310 | the first-launch date, launch count and last-open time are deleted and nothing else changes |
| `RatingsElement.PwaRatings.ResetAll` | src/pwa-ratings.ts:312-316 | the status is "unprompted", the five counters and thresholds are absent, and every other key is kept; the manifest data, icon path and name are those of `Customize` |
| `RatingsElement.AcceptedPromptNeverReopens` | src/pwa-ratings.ts:253-258 | after "Okay", a reloaded element has no open scheduled and a direct open reports "already resolved" and leaves the modal hidden |

## Left out

- Rendering and styles (`render`, `styles`) are presentation only.
- Button colouring (`getOkayButtonFontColor` and the style writes in
  `customizeModal`) is left out. It uses floating-point luminance, a regular
  expression over computed CSS, and DOM style writes.
- The manifest fetch and `validateManifest` are left out; the latter only
  logs. The fetched manifest is a parameter. A manifest that parses to JSON
  `null` is not distinguished from a failed fetch. An icon entry is reduced to
  its `src`.
- `setTimeout` is left out: its delay is not modelled as time. A scheduled
  open is a count in `pendingOpens`, and `TimerFires` runs it.
- `window.open` is left out, along with its failure. The page it opens is
  recorded in the ghost field `reviewPages`.
- Store asynchrony is left out. The store is a synchronous map with immediate
  read-after-write, so un-awaited writes take effect at once. In `resetStatus`,
  the un-awaited `customizeModal` is taken to finish after the status write.
  It only writes the status when the status is empty, so this order does not
  change the store.
- Logging (`console.log`, `console.error`) is left out. `OpenCheck` names the
  guard that failed instead.
- A number that is not an integer, and floating-point rounding in
  `Math.floor((a - b) / 86400000)`, are left out. Timestamps are taken to be
  far below 2^53, where that floor is the integer quotient.
- A non-numeric value under a numeric key is read as absent. JavaScript would
  coerce it instead. The component itself only writes numbers there.
- `IntToDecimal` does not produce JavaScript's exponent notation, which
  `toString` uses for magnitudes of 10^21 and above.
- `win10only` is a boolean here and stands for `this.win10only === true`.
  The property is declared with `type: String`, so a value set through the
  HTML attribute is a string: any attribute value, even `"true"`, turns the
  Windows-10 restriction off. Only the default or a boolean assigned from
  script keeps it.
- `closePrompt` before the modal has been rendered would throw. This is not
  modelled.
