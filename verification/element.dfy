/** The `pwa-ratings` custom element: its attributes and private fields, the
    modal's visibility, and the methods that read and write the persisted
    store. Each method's new state is stated in terms of the rules of
    `PromptRules`. */
module RatingsElement {
  import opened JsText
  import opened RatingsStore
  import opened PromptRules

  /** The parts of the web manifest the element uses: the app name and the
      `src` of each listed icon, in order. */
  datatype Manifest = Manifest(name: string, iconSrcs: seq<string>)

  const DEFAULT_MANIFEST_PATH := "manifest.webmanifest"
  const DEFAULT_SECONDS_DELAY := 10
  const STORE_REVIEW_URL := "ms-windows-store://review/?ProductId="

  /** What `customizeModal` leaves behind: the manifest data held, the icon
      path and name after filling the empty ones from the manifest, whether it
      ran to the end (reading the first icon of a manifest without icons
      throws), and whether it reached the status write. */
  datatype Customization = Customization(data: Option<Manifest>, iconpath: string, name: string, completed: bool, touchesStatus: bool)

  /** `customizeModal` on the element's settings, where `fetched` is the
      manifest the fetch delivered (`None` when the fetch or the JSON parse
      failed, which keeps the data held before). */
  function Customize(manifestpath: string, data: Option<Manifest>, fetched: Option<Manifest>, iconpath: string, name: string): (c: Customization)
    ensures iconpath != "" ==> c.iconpath == iconpath && c.completed
    ensures name != "" ==> c.name == name
    ensures c.touchesStatus <==> manifestpath != "" && c.data.Some?
    ensures manifestpath != "" && fetched.Some? ==> c.data == fetched
    ensures manifestpath == "" || fetched.None? ==> c.data == data
    ensures !c.completed <==> c.touchesStatus && iconpath == "" && c.data.value.iconSrcs == []
    ensures c.touchesStatus && c.completed && iconpath == "" ==> c.iconpath == c.data.value.iconSrcs[0]
    ensures c.touchesStatus && c.completed && name == "" ==> c.name == c.data.value.name
    ensures !c.touchesStatus ==> c.iconpath == iconpath && c.name == name
    ensures !c.completed ==> c.iconpath == iconpath && c.name == name
  {
    if manifestpath == "" then Customization(data, iconpath, name, true, false)
    else
      var d := if fetched.Some? then fetched else data;
      if d.None? then Customization(d, iconpath, name, true, false)
      else if iconpath == "" && d.value.iconSrcs == [] then Customization(d, iconpath, name, false, true)
      else
        var icon := if iconpath == "" then d.value.iconSrcs[0] else iconpath;
        Customization(d, icon, if name == "" then d.value.name else name, true, true)
  }

  /** The status write of `customizeModal`: an empty status becomes
      "unprompted". */
  function CustomizedStore(s: Store, c: Customization): (r: Store)
    ensures IsResolved(r) == IsResolved(s)
    ensures c.touchesStatus ==> StatusOf(r) != ""
    ensures c.touchesStatus && StatusOf(s) == "" ==> r[STATUS_KEY] == Str(UNPROMPTED)
    ensures !c.touchesStatus || StatusOf(s) != "" ==> r == s
    ensures forall k :: k != STATUS_KEY ==> (k in r <==> k in s) && (k in s ==> r[k] == s[k])
  {
    if c.touchesStatus && StatusOf(s) == "" then s[STATUS_KEY := Str(UNPROMPTED)] else s
  }

  class PwaRatings {
    /** The persisted store, shared by every page load of the app. */
    var store: Store
    /** Public attributes set by the host page. */
    var manifestpath: string
    var bigid: string
    var iconpath: string
    var name: string
    var win10only: bool
    /** Private state. */
    var manifestData: Option<Manifest>
    var minDays: int
    var minLaunches: int
    var secondsDelay: int
    /** Whether `#modal` and `#modal-background` carry the class "show". */
    var shown: bool
    /** Delayed `openPrompt` calls scheduled with `setTimeout` and not yet run. */
    var pendingOpens: nat
    /** The store review pages navigated to, oldest first. */
    ghost var reviewPages: seq<string>

    /** A fresh element with the default attribute values; the host page may
        then assign the public attributes. */
    constructor (persisted: Store)
      ensures store == persisted
      ensures manifestpath == DEFAULT_MANIFEST_PATH && bigid == "" && iconpath == "" && name == "" && win10only
      ensures manifestData == None && minDays == UNSET && minLaunches == UNSET && secondsDelay == DEFAULT_SECONDS_DELAY
      ensures !shown && pendingOpens == 0 && reviewPages == []
    {
      store := persisted;
      manifestpath := DEFAULT_MANIFEST_PATH;
      bigid := "";
      iconpath := "";
      name := "";
      win10only := true;
      manifestData := None;
      minDays := UNSET;
      minLaunches := UNSET;
      secondsDelay := DEFAULT_SECONDS_DELAY;
      shown := false;
      pendingOpens := 0;
      reviewPages := [];
    }

    /** `firstUpdated`: on a supported browser with an unresolved prompt,
        customize the modal and, if that ran to the end, evaluate the
        triggers. */
    method FirstUpdated(now: int, userAgent: string, fetched: Option<Manifest>)
      modifies this`store, this`manifestData, this`iconpath, this`name, this`minDays, this`minLaunches, this`pendingOpens
      ensures old(IsResolved(store)) || !BrowserSupported(win10only, userAgent) ==>
                store == old(store) && manifestData == old(manifestData) && iconpath == old(iconpath) &&
                name == old(name) && minDays == old(minDays) && minLaunches == old(minLaunches) &&
                pendingOpens == old(pendingOpens)
      ensures BrowserSupported(win10only, userAgent) && !old(IsResolved(store)) ==>
                var c := Customize(manifestpath, old(manifestData), fetched, old(iconpath), old(name));
                var customized := CustomizedStore(old(store), c);
                var e := Evaluate(customized, old(minDays), old(minLaunches), now);
                manifestData == c.data && iconpath == c.iconpath && name == c.name &&
                (c.completed ==>
                   store == e.store && minDays == e.minDays && minLaunches == e.minLaunches &&
                   pendingOpens == old(pendingOpens) + (if e.trigger == NoTrigger then 0 else 1)) &&
                (!c.completed ==>
                   store == customized && minDays == old(minDays) && minLaunches == old(minLaunches) &&
                   pendingOpens == old(pendingOpens))
      ensures IsResolved(store) == old(IsResolved(store))
      ensures pendingOpens <= old(pendingOpens) + 1
      ensures forall k :: k != STATUS_KEY && k != FIRST_LAUNCH_KEY && k != NUM_LAUNCHES_KEY ==>
                (k in store <==> k in old(store)) && (k in old(store) ==> store[k] == old(store)[k])
    {
      var resolved := IsResolved(store);
      if BrowserSupported(win10only, userAgent) && !resolved {
        var completed := CustomizeModal(fetched);
        if completed {
          ghost var before := store;
          TriggerModalIfApplicable(now);
          EvaluateKeepsStatus(before, old(minDays), old(minLaunches), now);
        }
      }
    }

    /** `customizeModal`, without the button colouring. */
    method CustomizeModal(fetched: Option<Manifest>) returns (completed: bool)
      modifies this`store, this`manifestData, this`iconpath, this`name
      ensures var c := Customize(manifestpath, old(manifestData), fetched, old(iconpath), old(name));
              manifestData == c.data && iconpath == c.iconpath && name == c.name &&
              completed == c.completed && store == CustomizedStore(old(store), c)
    {
      if manifestpath != "" {
        if fetched.Some? {
          manifestData := fetched;
        }
        if manifestData.Some? {
          if StatusOf(store) == "" {
            store := store[STATUS_KEY := Str(UNPROMPTED)];
          }
          if iconpath == "" {
            if manifestData.value.iconSrcs == [] {
              completed := false;
              return;
            }
            iconpath := manifestData.value.iconSrcs[0];
          }
          if name == "" {
            name := manifestData.value.name;
          }
        }
      }
      completed := true;
    }

    /** `triggerModalIfApplicable` at time `now`: copy the stored thresholds
        into the fields, return early or record the launch, then schedule at
        most one delayed open, by days first and by launches otherwise. */
    method TriggerModalIfApplicable(now: int)
      modifies this`store, this`minDays, this`minLaunches, this`pendingOpens
      ensures var e := Evaluate(old(store), old(minDays), old(minLaunches), now);
              store == e.store && minDays == e.minDays && minLaunches == e.minLaunches &&
              pendingOpens == old(pendingOpens) + (if e.trigger == NoTrigger then 0 else 1)
    {
      ghost var e := Evaluate(store, minDays, minLaunches, now);
      var storedDays := NumberAt(store, MIN_DAYS_KEY);
      if storedDays != 0 {
        minDays := storedDays;
      }
      var storedLaunches := NumberAt(store, MIN_LAUNCHES_KEY);
      if storedLaunches != 0 {
        minLaunches := storedLaunches;
      }
      assert minDays == e.minDays && minLaunches == e.minLaunches;
      if (storedDays == 0 && storedLaunches == 0) || AlreadyOpenedToday(store, now) {
        assert ReturnsEarly(store, now);
        return;
      }
      ghost var recorded := RecordLaunch(store, now);
      assert e.store == recorded;

      var firstLaunched := NumberAt(store, FIRST_LAUNCH_KEY);
      if firstLaunched == 0 {
        store := store[FIRST_LAUNCH_KEY := Num(now)];
        firstLaunched := now;
      }

      var launches := NumberAt(store, NUM_LAUNCHES_KEY);
      if launches != 0 {
        launches := launches + 1;
      } else {
        launches := 1;
      }
      store := store[NUM_LAUNCHES_KEY := Num(launches)];
      assert store == recorded;
      assert firstLaunched == NumberAt(recorded, FIRST_LAUNCH_KEY) && launches == NumberAt(recorded, NUM_LAUNCHES_KEY);
      assert e.trigger == Decide(e.minDays, e.minLaunches, firstLaunched, launches, now);

      if minDays > 0 {
        var daysElapsed := (now - firstLaunched) / DAY_MS;
        if daysElapsed > 0 && daysElapsed % minDays == 0 {
          pendingOpens := pendingOpens + 1;
          return;
        }
      }
      if minLaunches > 0 {
        if launches - 1 > 0 && (launches - 1) % minLaunches == 0 {
          pendingOpens := pendingOpens + 1;
        }
      }
    }

    /** A scheduled `setTimeout` callback runs: it calls `openPrompt` at the
        time it fires. */
    method TimerFires(now: int, userAgent: string) returns (outcome: OpenOutcome)
      requires pendingOpens > 0
      modifies this`pendingOpens, this`store, this`shown
      ensures pendingOpens == old(pendingOpens) - 1
      ensures outcome == OpenCheck(old(store), now, BrowserSupported(win10only, userAgent), bigid, iconpath)
      ensures outcome == Opened ==> shown && store == old(store)[LAST_OPENED_KEY := Num(now)]
      ensures outcome != Opened ==> shown == old(shown) && store == old(store)
    {
      pendingOpens := pendingOpens - 1;
      outcome := OpenPrompt(now, userAgent);
    }

    /** `openPrompt` at time `now`: the first failing guard leaves everything
        as it was; otherwise the modal is shown and the open time stored. */
    method OpenPrompt(now: int, userAgent: string) returns (outcome: OpenOutcome)
      modifies this`store, this`shown
      ensures outcome == OpenCheck(old(store), now, BrowserSupported(win10only, userAgent), bigid, iconpath)
      ensures outcome == Opened ==> shown && store == old(store)[LAST_OPENED_KEY := Num(now)]
      ensures outcome != Opened ==> shown == old(shown) && store == old(store)
      ensures outcome == Opened && now != 0 ==>
                forall later :: now <= later < now + DAY_MS ==> AlreadyOpenedToday(store, later)
    {
      if IsResolved(store) {
        outcome := AlreadyResolved;
        return;
      }
      if AlreadyOpenedToday(store, now) {
        outcome := AlreadyShownToday;
        return;
      }
      if !BrowserSupported(win10only, userAgent) {
        outcome := Unsupported;
        return;
      }
      if bigid == "" {
        outcome := MissingStoreId;
        return;
      }
      if iconpath == "" {
        outcome := MissingIcon;
        return;
      }
      shown := true;
      store := store[LAST_OPENED_KEY := Num(now)];
      outcome := Opened;
    }

    /** `closePrompt`: hide the modal and its background. */
    method ClosePrompt()
      modifies this`shown
      ensures !shown
    {
      shown := false;
    }

    /** The exit button: closed, which does not resolve the prompt. */
    method ClickedExitButton()
      modifies this`store, this`shown
      ensures store == old(store)[STATUS_KEY := Str(CLOSED)] && !shown
      ensures !IsResolved(store)
    {
      store := store[STATUS_KEY := Str(CLOSED)];
      ClosePrompt();
    }

    /** "No, thanks": declined, which resolves the prompt. */
    method ClickedCancelButton()
      modifies this`store, this`shown
      ensures store == old(store)[STATUS_KEY := Str(DECLINED)] && !shown
      ensures IsResolved(store)
    {
      store := store[STATUS_KEY := Str(DECLINED)];
      ClosePrompt();
    }

    /** "Maybe later": postponed, which does not resolve the prompt. */
    method ClickedMaybeButton()
      modifies this`store, this`shown
      ensures store == old(store)[STATUS_KEY := Str(POSTPONED)] && !shown
      ensures !IsResolved(store)
    {
      store := store[STATUS_KEY := Str(POSTPONED)];
      ClosePrompt();
    }

    /** "Okay": accepted, which resolves the prompt, and the app's review page
        in the store is opened. */
    method ClickedOkayButton()
      modifies this`store, this`shown, this`reviewPages
      ensures store == old(store)[STATUS_KEY := Str(ACCEPTED)] && !shown
      ensures reviewPages == old(reviewPages) + [STORE_REVIEW_URL + bigid]
      ensures IsResolved(store)
    {
      store := store[STATUS_KEY := Str(ACCEPTED)];
      LaunchRatingsAndReviews();
      ClosePrompt();
    }

    /** A click on the background counts as closing only while it is shown. */
    method ClickedModalBackground()
      modifies this`store, this`shown
      ensures old(shown) ==> store == old(store)[STATUS_KEY := Str(CLOSED)] && !shown && !IsResolved(store)
      ensures !old(shown) ==> store == old(store) && !shown
    {
      if shown {
        store := store[STATUS_KEY := Str(CLOSED)];
        ClosePrompt();
      }
    }

    /** `launchRatingsandReviews`: navigate to the review page of `bigid`. */
    method LaunchRatingsAndReviews()
      modifies this`reviewPages
      ensures reviewPages == old(reviewPages) + [STORE_REVIEW_URL + bigid]
    {
      reviewPages := reviewPages + [STORE_REVIEW_URL + bigid];
    }

    /** `resetStatus`: the status becomes "unprompted"; the un-awaited
        `customizeModal` then finds a non-empty status and only refreshes the
        manifest data, icon path and name. */
    method ResetStatus(fetched: Option<Manifest>)
      modifies this`store, this`manifestData, this`iconpath, this`name
      ensures store == old(store)[STATUS_KEY := Str(UNPROMPTED)]
      ensures StatusOf(store) == UNPROMPTED && !IsResolved(store)
      ensures var c := Customize(manifestpath, old(manifestData), fetched, old(iconpath), old(name));
              manifestData == c.data && iconpath == c.iconpath && name == c.name
    {
      store := store[STATUS_KEY := Str(UNPROMPTED)];
      var _ := CustomizeModal(fetched);
    }

    /** `setMinDays`: store a non-negative day threshold; a negative one is
        refused and nothing changes. */
    method SetMinDays(days: int)
      modifies this`store
      ensures days >= 0 ==> store == old(store)[MIN_DAYS_KEY := Num(days)]
      ensures days < 0 ==> store == old(store)
    {
      if days > -1 {
        store := store[MIN_DAYS_KEY := Num(days)];
      }
    }

    /** `setMinLaunches`: store a non-negative launch threshold; a negative one
        is refused and nothing changes. */
    method SetMinLaunches(launches: int)
      modifies this`store
      ensures launches >= 0 ==> store == old(store)[MIN_LAUNCHES_KEY := Num(launches)]
      ensures launches < 0 ==> store == old(store)
    {
      if launches > -1 {
        store := store[MIN_LAUNCHES_KEY := Num(launches)];
      }
    }

    /** `setSecondsDelay`: take a non-negative delay; a negative one is
        refused and nothing changes. */
    method SetSecondsDelay(seconds: int)
      modifies this`secondsDelay
      ensures secondsDelay == if seconds >= 0 then seconds else old(secondsDelay)
    {
      if seconds > -1 {
        secondsDelay := seconds;
      }
    }

    /** `resetMinModalValues`: delete both thresholds. */
    method ResetMinModalValues()
      modifies this`store
      ensures store == old(store) - {MIN_DAYS_KEY, MIN_LAUNCHES_KEY}
    {
      store := store - {MIN_DAYS_KEY};
      store := store - {MIN_LAUNCHES_KEY};
    }

    /** `resetOriginalModalValues`: delete the launch counters and the last
        open time. */
    method ResetOriginalModalValues()
      modifies this`store
      ensures store == old(store) - {FIRST_LAUNCH_KEY, NUM_LAUNCHES_KEY, LAST_OPENED_KEY}
    {
      store := store - {FIRST_LAUNCH_KEY};
      store := store - {NUM_LAUNCHES_KEY};
      store := store - {LAST_OPENED_KEY};
    }

    /** `resetAll`: status "unprompted", thresholds and counters deleted, every
        other key kept. */
    method ResetAll(fetched: Option<Manifest>)
      modifies this`store, this`manifestData, this`iconpath, this`name
      ensures store == old(store)[STATUS_KEY := Str(UNPROMPTED)] -
                {MIN_DAYS_KEY, MIN_LAUNCHES_KEY, FIRST_LAUNCH_KEY, NUM_LAUNCHES_KEY, LAST_OPENED_KEY}
      ensures StatusOf(store) == UNPROMPTED
      ensures MIN_DAYS_KEY !in store && MIN_LAUNCHES_KEY !in store
      ensures FIRST_LAUNCH_KEY !in store && NUM_LAUNCHES_KEY !in store && LAST_OPENED_KEY !in store
      ensures var c := Customize(manifestpath, old(manifestData), fetched, old(iconpath), old(name));
              manifestData == c.data && iconpath == c.iconpath && name == c.name
    {
      ResetStatus(fetched);
      ResetMinModalValues();
      ResetOriginalModalValues();
    }
  }

  /** A client of the element: once the user has pressed "Okay", neither a
      later page load nor a direct call opens the prompt again. */
  method AcceptedPromptNeverReopens(persisted: Store, later: int, userAgent: string, fetched: Option<Manifest>)
    returns (scheduled: nat, outcome: OpenOutcome, shown: bool)
    ensures scheduled == 0
    ensures outcome == AlreadyResolved
    ensures !shown
  {
    var element := new PwaRatings(persisted);
    element.ClickedOkayButton();
    var reloaded := new PwaRatings(element.store);
    reloaded.FirstUpdated(later, userAgent, fetched);
    scheduled := reloaded.pendingOpens;
    outcome := reloaded.OpenPrompt(later, userAgent);
    shown := reloaded.shown;
  }
}
