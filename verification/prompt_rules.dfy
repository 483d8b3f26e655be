/** The decision rules of the rating prompt, as functions of the persisted
    store: what one trigger evaluation does to the store and whether it
    schedules an open, and which guard of `openPrompt` decides the outcome.
    The element's methods are proved to behave as these functions say. */
module PromptRules {
  import opened JsText
  import opened RatingsStore

  /** The initial value of the element's `minDays` and `minLaunches` fields. */
  const UNSET := -1

  /** Which rule scheduled a delayed open, if any. */
  datatype Trigger = NoTrigger | ByDays | ByLaunches

  /** The effect of one `triggerModalIfApplicable`: the new store, the new
      values of the `minDays`/`minLaunches` fields, and the open it schedules. */
  datatype Evaluation = Evaluation(store: Store, minDays: int, minLaunches: int, trigger: Trigger)

  /** The evaluation stops before touching any counter: no threshold is
      stored (0 counts as unset) or the prompt was opened within the last day. */
  predicate ReturnsEarly(s: Store, now: int) {
    (NumberAt(s, MIN_DAYS_KEY) == 0 && NumberAt(s, MIN_LAUNCHES_KEY) == 0) || AlreadyOpenedToday(s, now)
  }

  /** The launch bookkeeping of an evaluation: record the first launch if none
      is recorded, and count this launch. */
  function RecordLaunch(s: Store, now: int): (r: Store)
    ensures r.Keys == s.Keys + {FIRST_LAUNCH_KEY, NUM_LAUNCHES_KEY}
    ensures NumberAt(r, NUM_LAUNCHES_KEY) == NumberAt(s, NUM_LAUNCHES_KEY) + 1
    ensures NumberAt(s, FIRST_LAUNCH_KEY) != 0 ==> r[FIRST_LAUNCH_KEY] == s[FIRST_LAUNCH_KEY]
    ensures NumberAt(s, FIRST_LAUNCH_KEY) == 0 ==> r[FIRST_LAUNCH_KEY] == Num(now)
    ensures forall k :: k in s && k != FIRST_LAUNCH_KEY && k != NUM_LAUNCHES_KEY ==> r[k] == s[k]
  {
    var first := if NumberAt(s, FIRST_LAUNCH_KEY) != 0 then s else s[FIRST_LAUNCH_KEY := Num(now)];
    var launches := NumberAt(first, NUM_LAUNCHES_KEY);
    first[NUM_LAUNCHES_KEY := Num(if launches != 0 then launches + 1 else 1)]
  }

  /** Whole days from `first` to `now`, rounded down (`Math.floor` of the
      quotient; Dafny's division by a positive divisor rounds down too). */
  function DaysElapsed(first: int, now: int): int {
    (now - first) / DAY_MS
  }

  /** The day rule, checked first: a positive number of whole days since the
      first launch that is a multiple of `minDays`. */
  predicate DayRule(minDays: int, first: int, now: int) {
    minDays > 0 && DaysElapsed(first, now) > 0 && DaysElapsed(first, now) % minDays == 0
  }

  /** The launch rule: the launches before this one are a positive multiple of
      `minLaunches` (`launches` already counts this one). */
  predicate LaunchRule(minLaunches: int, launches: int) {
    minLaunches > 0 && launches - 1 > 0 && (launches - 1) % minLaunches == 0
  }

  /** The day rule returns as soon as it fires, so at most one open is
      scheduled and the launch rule is only consulted when it did not. */
  function Decide(minDays: int, minLaunches: int, first: int, launches: int, now: int): (t: Trigger)
    ensures t == ByDays <==> DayRule(minDays, first, now)
    ensures t == ByLaunches <==> !DayRule(minDays, first, now) && LaunchRule(minLaunches, launches)
  {
    if DayRule(minDays, first, now) then ByDays
    else if LaunchRule(minLaunches, launches) then ByLaunches
    else NoTrigger
  }

  /** `triggerModalIfApplicable` at time `now`, given the current values of the
      `minDays` and `minLaunches` fields. */
  function Evaluate(s: Store, minDays: int, minLaunches: int, now: int): (e: Evaluation)
    ensures e.minDays == if NumberAt(s, MIN_DAYS_KEY) != 0 then NumberAt(s, MIN_DAYS_KEY) else minDays
    ensures e.minLaunches == if NumberAt(s, MIN_LAUNCHES_KEY) != 0 then NumberAt(s, MIN_LAUNCHES_KEY) else minLaunches
    ensures ReturnsEarly(s, now) ==> e.store == s && e.trigger == NoTrigger
    ensures !ReturnsEarly(s, now) ==> e.store == RecordLaunch(s, now)
    ensures !ReturnsEarly(s, now) ==>
              e.trigger == Decide(e.minDays, e.minLaunches, NumberAt(e.store, FIRST_LAUNCH_KEY), NumberAt(e.store, NUM_LAUNCHES_KEY), now)
    ensures forall k :: k != FIRST_LAUNCH_KEY && k != NUM_LAUNCHES_KEY ==>
              (k in e.store <==> k in s) && (k in s ==> e.store[k] == s[k])
  {
    var storedDays := NumberAt(s, MIN_DAYS_KEY);
    var storedLaunches := NumberAt(s, MIN_LAUNCHES_KEY);
    var days := if storedDays != 0 then storedDays else minDays;
    var launches := if storedLaunches != 0 then storedLaunches else minLaunches;
    if ReturnsEarly(s, now) then Evaluation(s, days, launches, NoTrigger)
    else
      var r := RecordLaunch(s, now);
      Evaluation(r, days, launches, Decide(days, launches, NumberAt(r, FIRST_LAUNCH_KEY), NumberAt(r, NUM_LAUNCHES_KEY), now))
  }

  /** The outcome of `openPrompt`; every outcome but `Opened` is a logged error. */
  datatype OpenOutcome = Opened | AlreadyResolved | AlreadyShownToday | Unsupported | MissingStoreId | MissingIcon

  /** The guards of `openPrompt`, first failure wins: resolved, opened within
      the last day, unsupported browser, empty store id, empty icon path. */
  function OpenCheck(s: Store, now: int, supported: bool, bigid: string, iconpath: string): (r: OpenOutcome)
    ensures r == Opened <==> !IsResolved(s) && !AlreadyOpenedToday(s, now) && supported && bigid != "" && iconpath != ""
    ensures r == AlreadyResolved <==> IsResolved(s)
    ensures r == AlreadyShownToday <==> !IsResolved(s) && AlreadyOpenedToday(s, now)
    ensures r == Unsupported <==> !IsResolved(s) && !AlreadyOpenedToday(s, now) && !supported
    ensures r == MissingStoreId <==> !IsResolved(s) && !AlreadyOpenedToday(s, now) && supported && bigid == ""
    ensures r == MissingIcon <==>
              !IsResolved(s) && !AlreadyOpenedToday(s, now) && supported && bigid != "" && iconpath == ""
  {
    if IsResolved(s) then AlreadyResolved
    else if AlreadyOpenedToday(s, now) then AlreadyShownToday
    else if !supported then Unsupported
    else if bigid == "" then MissingStoreId
    else if iconpath == "" then MissingIcon
    else Opened
  }

  /** An open at time `t` blocks every open within the following day, whatever
      the other guards say; only a resolved status takes precedence. */
  lemma OpenThrottlesForADay(s: Store, t: int, later: int, supported: bool, bigid: string, iconpath: string)
    requires t != 0 && t <= later < t + DAY_MS
    requires !IsResolved(s)
    ensures OpenCheck(s[LAST_OPENED_KEY := Num(t)], later, supported, bigid, iconpath) == AlreadyShownToday
  {
  }

  /** The throttle is a rolling window: an open a full day later passes it. */
  lemma ThrottleLiftsAfterADay(s: Store, t: int, later: int)
    requires later >= t + DAY_MS
    ensures !AlreadyOpenedToday(s[LAST_OPENED_KEY := Num(t)], later)
  {
  }

  /** An open recorded at time 0 is read back as "never opened", so it does
      not throttle any later open. */
  lemma OpenAtEpochDoesNotThrottle(s: Store, later: int)
    ensures !AlreadyOpenedToday(s[LAST_OPENED_KEY := Num(0)], later)
  {
  }

  /** Evaluation never touches the status, the thresholds or the last-open
      time, so a resolved prompt stays resolved. */
  lemma EvaluateKeepsStatus(s: Store, minDays: int, minLaunches: int, now: int)
    ensures StatusOf(Evaluate(s, minDays, minLaunches, now).store) == StatusOf(s)
    ensures IsResolved(Evaluate(s, minDays, minLaunches, now).store) == IsResolved(s)
  {
  }

  /** With both thresholds deleted, an evaluation changes nothing. */
  lemma ClearedThresholdsReturnEarly(s: Store, minDays: int, minLaunches: int, now: int)
    requires MIN_DAYS_KEY !in s && MIN_LAUNCHES_KEY !in s
    ensures Evaluate(s, minDays, minLaunches, now).store == s
    ensures Evaluate(s, minDays, minLaunches, now).trigger == NoTrigger
  {
  }

  /** With the launch counters deleted and a threshold stored, an evaluation
      starts counting afresh: the first launch is now, one launch is counted
      and nothing is scheduled. */
  lemma ClearedCountersStartAfresh(s: Store, minDays: int, minLaunches: int, now: int)
    requires FIRST_LAUNCH_KEY !in s && NUM_LAUNCHES_KEY !in s && LAST_OPENED_KEY !in s
    requires NumberAt(s, MIN_DAYS_KEY) != 0 || NumberAt(s, MIN_LAUNCHES_KEY) != 0
    ensures var e := Evaluate(s, minDays, minLaunches, now);
            e.store == s[FIRST_LAUNCH_KEY := Num(now)][NUM_LAUNCHES_KEY := Num(1)] && e.trigger == NoTrigger
  {
  }

  /** The day rule fires on every positive multiple of `minDays` days after the
      first launch, at any time of that day. */
  lemma {:induction false} DayRuleOnMultiples(minDays: int, first: int, k: int, offset: int)
    requires minDays > 0 && k >= 1 && 0 <= offset < DAY_MS
    ensures DayRule(minDays, first, first + k * minDays * DAY_MS + offset)
  {
    var q := k * minDays;
    assert q >= 1 by { MultiplyAtLeast(k, minDays); }
    assert first + k * minDays * DAY_MS + offset - first == q * DAY_MS + offset;
    assert DaysElapsed(first, first + k * minDays * DAY_MS + offset) == q;
    MultipleModulo(k, minDays);
  }

  /** Before `minDays` whole days have passed the day rule cannot fire. */
  lemma NoDayRuleBeforeMinDays(minDays: int, first: int, now: int)
    requires DaysElapsed(first, now) < minDays
    ensures !DayRule(minDays, first, now)
  {
  }

  lemma MultiplyAtLeast(a: int, m: int)
    requires a >= 1 && m > 0
    ensures a * m >= m
  {
  }

  /** A multiple of `m` leaves no remainder, by uniqueness of the quotient. */
  lemma MultipleModulo(k: int, m: int)
    requires m > 0
    ensures (k * m) % m == 0
  {
    var d := (k * m) / m;
    var r := (k * m) % m;
    assert (k - d) * m == r;
    if k - d >= 1 {
      MultiplyAtLeast(k - d, m);
    } else if k - d <= -1 {
      MultiplyAtLeast(d - k, m);
    }
  }

  /** A fresh element evaluated once per launch: the store after evaluating at
      each time of `nows` in turn, the element's fields starting unset. */
  function EvaluateSeries(s: Store, nows: seq<int>): Store
    decreases |nows|
  {
    if nows == [] then s else EvaluateSeries(Evaluate(s, UNSET, UNSET, nows[0]).store, nows[1..])
  }

  /** Thresholds are stored and the prompt has never been opened, so no
      evaluation returns early. */
  predicate CountingStore(s: Store) {
    (NumberAt(s, MIN_DAYS_KEY) != 0 || NumberAt(s, MIN_LAUNCHES_KEY) != 0) && NumberAt(s, LAST_OPENED_KEY) == 0
  }

  /** Every evaluation that does not return early counts exactly one launch. */
  lemma {:induction false} LaunchCount(s: Store, nows: seq<int>)
    requires CountingStore(s)
    ensures CountingStore(EvaluateSeries(s, nows))
    ensures NumberAt(EvaluateSeries(s, nows), NUM_LAUNCHES_KEY) == NumberAt(s, NUM_LAUNCHES_KEY) + |nows|
    decreases |nows|
  {
    if nows != [] {
      var next := Evaluate(s, UNSET, UNSET, nows[0]).store;
      assert next == RecordLaunch(s, nows[0]);
      assert CountingStore(next);
      LaunchCount(next, nows[1..]);
    }
  }

  /** The first-launch date is written once, by the first evaluation, and then
      never overwritten. */
  lemma {:induction false} FirstLaunchSetOnce(s: Store, nows: seq<int>)
    requires CountingStore(s)
    requires forall i :: 0 <= i < |nows| ==> nows[i] != 0
    requires nows != [] || NumberAt(s, FIRST_LAUNCH_KEY) != 0
    ensures NumberAt(EvaluateSeries(s, nows), FIRST_LAUNCH_KEY) ==
            if NumberAt(s, FIRST_LAUNCH_KEY) != 0 then NumberAt(s, FIRST_LAUNCH_KEY) else nows[0]
    decreases |nows|
  {
    if nows != [] {
      var next := Evaluate(s, UNSET, UNSET, nows[0]).store;
      assert next == RecordLaunch(s, nows[0]);
      assert CountingStore(next);
      assert NumberAt(next, FIRST_LAUNCH_KEY) == if NumberAt(s, FIRST_LAUNCH_KEY) != 0 then NumberAt(s, FIRST_LAUNCH_KEY) else nows[0];
      FirstLaunchSetOnce(next, nows[1..]);
    }
  }

  /** With only a launch threshold `m` stored, starting from no launches and
      no open, the evaluation after `|nows|` earlier ones schedules an open
      exactly when `|nows|` is a positive multiple of `m`. */
  lemma LaunchRuleOnFreshStore(s: Store, nows: seq<int>, now: int)
    requires MIN_DAYS_KEY !in s && NUM_LAUNCHES_KEY !in s && LAST_OPENED_KEY !in s
    requires NumberAt(s, MIN_LAUNCHES_KEY) > 0
    ensures Evaluate(EvaluateSeries(s, nows), UNSET, UNSET, now).trigger == ByLaunches <==>
            |nows| > 0 && |nows| % NumberAt(s, MIN_LAUNCHES_KEY) == 0
  {
    LaunchCount(s, nows);
    var before := EvaluateSeries(s, nows);
    KeepsKey(s, nows, MIN_DAYS_KEY);
    KeepsKey(s, nows, MIN_LAUNCHES_KEY);
    var r := RecordLaunch(before, now);
    assert NumberAt(r, NUM_LAUNCHES_KEY) - 1 == |nows|;
  }

  /** Evaluations leave every key but the two launch counters as it was. */
  lemma {:induction false} KeepsKey(s: Store, nows: seq<int>, k: string)
    requires k != FIRST_LAUNCH_KEY && k != NUM_LAUNCHES_KEY
    ensures k in EvaluateSeries(s, nows) <==> k in s
    ensures k in s ==> EvaluateSeries(s, nows)[k] == s[k]
    decreases |nows|
  {
    if nows != [] {
      KeepsKey(Evaluate(s, UNSET, UNSET, nows[0]).store, nows[1..], k);
    }
  }
}
