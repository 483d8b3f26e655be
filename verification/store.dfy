/** The persisted key-value store (IndexedDB through idb-keyval) as the rating
    prompt sees it, and the read-only questions the prompt asks of it. */
module RatingsStore {
  import opened JsText

  datatype Option<T> = None | Some(value: T)

  /** A stored value: the component stores numbers (counters, thresholds,
      timestamps in milliseconds) and strings (the response status). */
  datatype Value = Num(n: int) | Str(s: string)

  /** Absent keys stand for `undefined`. */
  type Store = map<string, Value>

  const STATUS_KEY := "status"
  const MIN_DAYS_KEY := "min-days"
  const MIN_LAUNCHES_KEY := "min-launches"
  const FIRST_LAUNCH_KEY := "date-first-launched"
  const NUM_LAUNCHES_KEY := "num-launches"
  const LAST_OPENED_KEY := "date-last-launched"

  const UNPROMPTED := "unprompted"
  const ACCEPTED := "accepted"
  const DECLINED := "declined"
  const POSTPONED := "postponed"
  const CLOSED := "closed"

  /** Milliseconds in a day: 1000 * 60 * 60 * 24. */
  const DAY_MS := 86400000

  /** The user-agent fragment that marks Windows 10. */
  const WINDOWS_10 := "Windows NT 10.0"

  /** A numeric entry read as a number; `undefined` (and a non-numeric entry,
      which the component never writes under these keys) reads as 0, so that
      `NumberAt(s, k) != 0` is JavaScript's truthiness of the stored number. */
  function NumberAt(s: Store, key: string): int {
    if key in s && s[key].Num? then s[key].n else 0
  }

  /** `getStatus`: a truthy stored status converted with `toString()`,
      otherwise the empty string. */
  function StatusOf(s: Store): (r: string)
    ensures r == "" <==> STATUS_KEY !in s || s[STATUS_KEY] in {Num(0), Str("")}
    ensures STATUS_KEY in s && s[STATUS_KEY].Str? ==> r == s[STATUS_KEY].s
    ensures STATUS_KEY in s && s[STATUS_KEY].Num? && s[STATUS_KEY].n != 0 ==> r == IntToDecimal(s[STATUS_KEY].n)
  {
    if STATUS_KEY !in s then ""
    else match s[STATUS_KEY]
      case Str(t) => t
      case Num(n) => if n != 0 then IntToDecimal(n) else ""
  }

  /** `isResolved`: the user has answered for good. */
  predicate IsResolved(s: Store) {
    StatusOf(s) == ACCEPTED || StatusOf(s) == DECLINED
  }

  /** Only the two final strings resolve the prompt: a number stored as the
      status prints as digits and never reads as "accepted" or "declined". */
  lemma ResolvedIffFinalStatus(s: Store)
    ensures IsResolved(s) <==> STATUS_KEY in s && s[STATUS_KEY] in {Str(ACCEPTED), Str(DECLINED)}
  {
  }

  /** `alreadyOpenedToday(now)`: the prompt was last opened less than a full
      day before `now` (a rolling 24-hour window, not a calendar day). A
      stored 0 counts as never opened. */
  function AlreadyOpenedToday(s: Store, now: int): (r: bool)
    ensures r <==> NumberAt(s, LAST_OPENED_KEY) != 0 && 0 <= now - NumberAt(s, LAST_OPENED_KEY) < DAY_MS
  {
    var lastOpened := NumberAt(s, LAST_OPENED_KEY);
    if lastOpened != 0 then (now - lastOpened) / DAY_MS == 0 else false
  }

  /** `isBrowserSupported`: with the Windows-10-only flag set, the user agent
      must name Windows NT 10.0; otherwise every browser is supported. */
  function BrowserSupported(win10only: bool, userAgent: string): (r: bool)
    ensures r <==> !win10only || Contains(userAgent, WINDOWS_10)
  {
    IncludesIffContains(userAgent, WINDOWS_10);
    if win10only then Includes(userAgent, WINDOWS_10) else true
  }
}
