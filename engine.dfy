/**
 * The usage-enforcement service (`TimeTrackingService`).
 *
 * The class `TimeTrackingService` keeps the service's fields and has one
 * method per private function of the service; the events that drive it are
 * `Tick` (one iteration of the tracking loop), `HandleScreenOff`,
 * `HandleScreenOn`, `HandlePinInput` and `SleepTimerFired` (one callback of
 * the ten-second countdown). Effects on the screen and the device are
 * appended to `commands` instead of being performed.
 *
 * Every method is proved against a function on the value `State`; the
 * lemmas about the service's behaviour are stated on those functions.
 */
module Engine {
  import opened Text
  import opened Data

  /** The countdown shown on the warning overlay: 10 s, in steps of 1 s. */
  const CountdownMillis: int := 10000
  const CountdownIntervalMillis: int := 1000
  const MillisPerMinute: int := 60 * 1000

  /** What the service asks its collaborators to do. */
  datatype Command =
    | ShowOverlay(isRestWarning: bool)  // add the warning overlay
    | HideOverlay                       // remove the warning overlay
    | CountdownTick(seconds: int)       // "Turning off in <seconds>s"
    | LockDevice                        // `lockNow()`
    | ClearPinInput                     // wrong PIN: empty the overlay's PIN field

  /** The service's fields, as a value. `timer` is the armed sleep countdown
      with the milliseconds it has left; `tracking` is "trackingJob is active". */
  datatype State = State(
    profiles: seq<Profile>,
    ledger: Ledger,
    current: Option<Profile>,
    daily: int,
    session: int,
    sessionStart: int,
    lastSessionEnd: int,
    overlayShowing: bool,
    tracking: bool,
    timer: Option<int>)

  /** The state after an event and the commands the event emitted, in order. */
  datatype Step = Step(state: State, emitted: seq<Command>)

  /** The state of a freshly created service over the given tables. */
  function Fresh(profiles: seq<Profile>, ledger: Ledger): (s: State)
    ensures s.current.None? && !s.tracking && !s.overlayShowing && s.timer.None?
  {
    State(profiles, ledger, None, 0, 0, 0, 0, false, false, None)
  }

  // ---------------------------------------------------------------------------
  // Policies

  /** `checkLimits`' test: only a restricted profile is limited, and a limit
      counts only when it is above -1. */
  function LimitReached(p: Profile, daily: int, session: int): (r: bool)
    ensures r ==> p.isRestricted
    ensures p.dailyLimitMinutes <= -1 && p.sessionLimitMinutes <= -1 ==> !r
    ensures r <==> p.isRestricted
                   && ((p.dailyLimitMinutes > -1 && daily >= p.dailyLimitMinutes)
                       || (p.sessionLimitMinutes > -1 && session >= p.sessionLimitMinutes))
  {
    if !p.isRestricted then false
    else
      (p.dailyLimitMinutes > -1 && daily >= p.dailyLimitMinutes) ||
      (p.sessionLimitMinutes > -1 && session >= p.sessionLimitMinutes)
  }

  /** More usage never lifts a reached limit. */
  lemma LimitReachedMonotone(p: Profile, daily: int, session: int, daily': int, session': int)
    requires LimitReached(p, daily, session)
    requires daily <= daily' && session <= session'
    ensures LimitReached(p, daily', session')
  {
  }

  /** `startTracking`'s rest test: a previous session ended, the active
      profile is restricted, and less than its rest duration has passed. */
  function RestRequired(current: Option<Profile>, lastSessionEnd: int, now: int): (r: bool)
    ensures lastSessionEnd <= 0 ==> !r
    ensures current.None? ==> !r
    ensures current.Some? && !current.value.isRestricted ==> !r
    ensures current.Some? && current.value.isRestricted && lastSessionEnd > 0 ==>
              (r <==> now - lastSessionEnd < current.value.restDurationMinutes * MillisPerMinute)
  {
    var restNeeded := (if current.Some? then current.value.restDurationMinutes else 0) * 60 * 1000;
    var timeSinceLastSession := now - lastSessionEnd;
    lastSessionEnd > 0 && timeSinceLastSession < restNeeded && current.Some? && current.value.isRestricted
  }

  // ---------------------------------------------------------------------------
  // The service's private functions, on values

  /** `loadUsageStats`: today's stored total (0 without a record), a new session. */
  function Loaded(s: State, today: Date): (r: State)
    ensures s.current.None? ==> r == s
    ensures s.current.Some? ==> r == s.(daily := UsageOf(s.ledger, s.current.value.id, today), session := 0)
  {
    match s.current
    case None => s
    case Some(p) => s.(daily := UsageOf(s.ledger, p.id, today), session := 0)
  }

  /** `showWarningOverlay`: nothing while the overlay shows; otherwise show it
      and (re)start the ten-second countdown. */
  function ShowWarningStep(s: State, isRestWarning: bool): Step
  {
    if s.overlayShowing then Step(s, [])
    else Step(s.(overlayShowing := true, timer := Some(CountdownMillis)), [ShowOverlay(isRestWarning)])
  }

  /** `removeOverlay`: nothing while hidden; otherwise hide it and cancel the countdown. */
  function RemoveOverlayStep(s: State): Step
  {
    if !s.overlayShowing then Step(s, [])
    else Step(s.(overlayShowing := false, timer := None), [HideOverlay])
  }

  /** `startTracking`: nothing while the loop runs; a rest warning instead of
      the loop while rest is still required; otherwise start the loop. */
  function StartTrackingStep(s: State, now: int): Step
  {
    if s.tracking then Step(s, [])
    else
      var started := s.(sessionStart := now);
      if RestRequired(s.current, s.lastSessionEnd, now) then ShowWarningStep(started, true)
      else Step(started.(tracking := true), [])
  }

  /** `updateUsage`: one more minute on both counters, and today's record of
      the active profile set to the new daily total. */
  function UsageUpdated(s: State, today: Date): State
  {
    var counted := s.(daily := s.daily + 1, session := s.session + 1);
    match s.current
    case None => counted
    case Some(p) => counted.(ledger := RecordUsage(s.ledger, p.id, today, s.daily + 1))
  }

  /** `checkLimits`: the limit warning when the active profile's limit is reached. */
  function CheckLimitsStep(s: State): Step
  {
    match s.current
    case None => Step(s, [])
    case Some(p) => if LimitReached(p, s.daily, s.session) then ShowWarningStep(s, false) else Step(s, [])
  }

  // ---------------------------------------------------------------------------
  // Events

  /** One iteration of the tracking loop (`updateUsage(); checkLimits()`);
      a cancelled loop runs no iteration. */
  function TickStep(s: State, today: Date): (r: Step)
    ensures !s.tracking ==> r == Step(s, [])
    ensures s.tracking ==> r.state.daily == s.daily + 1 && r.state.session == s.session + 1
    ensures s.tracking && s.current.Some? ==>
              r.state.ledger == s.ledger[(s.current.value.id, today) := s.daily + 1]
    ensures s.current.None? ==> r.state.ledger == s.ledger
    ensures r.state.current == s.current && r.state.tracking == s.tracking
    ensures r.state.lastSessionEnd == s.lastSessionEnd
    ensures r.emitted == [ShowOverlay(false)] <==>
              s.tracking && !s.overlayShowing && s.current.Some? &&
              LimitReached(s.current.value, s.daily + 1, s.session + 1)
    ensures r.emitted != [ShowOverlay(false)] ==> r.emitted == []
    ensures r.emitted == [] ==> r.state.overlayShowing == s.overlayShowing && r.state.timer == s.timer
  {
    if !s.tracking then Step(s, []) else CheckLimitsStep(UsageUpdated(s, today))
  }

  /** `handleScreenOff`: stop the loop, remember when the session ended,
      hide the overlay, and make "Child" (when it exists) the active profile
      with its usage reloaded. */
  function ScreenOffStep(s: State, now: int, today: Date): (r: Step)
    ensures !r.state.tracking && r.state.lastSessionEnd == now
    ensures !r.state.overlayShowing
    ensures r.state.timer == if s.overlayShowing then None else s.timer
    ensures r.emitted == if s.overlayShowing then [HideOverlay] else []
    ensures var child := ProfileByName(s.profiles, ChildName);
            if child.Some?
            then r.state.current == child && r.state.session == 0
                 && r.state.daily == UsageOf(s.ledger, child.value.id, today)
            else r.state.current == s.current && r.state.session == s.session && r.state.daily == s.daily
    ensures r.state.ledger == s.ledger && r.state.profiles == s.profiles
  {
    var stopped := s.(tracking := false, lastSessionEnd := now);
    var hidden := RemoveOverlayStep(stopped);
    var child := ProfileByName(s.profiles, ChildName);
    var reset := if child.Some? then Loaded(hidden.state.(current := child), today) else hidden.state;
    Step(reset, hidden.emitted)
  }

  /** `handleScreenOn`: start tracking once there is an active profile. */
  function ScreenOnStep(s: State, now: int): Step
  {
    if s.current.None? then Step(s, []) else StartTrackingStep(s, now)
  }

  /** `initializeProfile`: "Child" (or none) becomes active, its usage is
      loaded, and tracking starts as on screen-on. */
  function InitializeStep(s: State, today: Date, now: int): Step
  {
    ScreenOnStep(Loaded(s.(current := ProfileByName(s.profiles, ChildName)), today), now)
  }

  /** The profile a PIN typed on the overlay unlocks: "Parent" is tried before "Child". */
  function PinTarget(profiles: seq<Profile>, pin: string): (r: Option<Profile>)
    ensures r.Some? ==> r.value.pin == Some(pin)
    ensures r.Some? ==> r.value.name == ParentName || r.value.name == ChildName
    ensures r.Some? ==> r == ProfileByName(profiles, ParentName) || r == ProfileByName(profiles, ChildName)
    ensures r.Some? && r != ProfileByName(profiles, ParentName) ==>
              r == ProfileByName(profiles, ChildName) &&
              (ProfileByName(profiles, ParentName).None? || ProfileByName(profiles, ParentName).value.pin != Some(pin))
    ensures var parent := ProfileByName(profiles, ParentName);
            parent.Some? && parent.value.pin == Some(pin) ==> r == parent
    ensures r.None? <==>
              (forall i :: 0 <= i < |profiles| && profiles[i].name == ParentName ==>
                 ProfileByName(profiles, ParentName).value.pin != Some(pin)) &&
              (forall i :: 0 <= i < |profiles| && profiles[i].name == ChildName ==>
                 ProfileByName(profiles, ChildName).value.pin != Some(pin))
  {
    var parent := ProfileByName(profiles, ParentName);
    var child := ProfileByName(profiles, ChildName);
    if parent.Some? && parent.value.pin == Some(pin) then parent
    else if child.Some? && child.value.pin == Some(pin) then child
    else None
  }

  /** `handlePinInput`: on a match, switch to that profile with its usage
      reloaded, hide the overlay and start tracking; otherwise only clear
      the PIN field. */
  function PinStep(s: State, pin: string, today: Date, now: int): Step
  {
    match PinTarget(s.profiles, pin)
    case None => Step(s, [ClearPinInput])
    case Some(target) => SwitchStep(s, target, today, now)
  }

  /** The switch `handlePinInput` makes once a PIN matched `target`. */
  function SwitchStep(s: State, target: Profile, today: Date, now: int): Step
  {
    var hidden := RemoveOverlayStep(Loaded(s.(current := Some(target)), today));
    var started := StartTrackingStep(hidden.state, now);
    Step(started.state, hidden.emitted + started.emitted)
  }

  /** One callback of the armed countdown: `onTick` shows the whole seconds
      left, `onFinish` (nothing left) locks the device. The overlay stays. */
  function CountdownStep(s: State): Step
  {
    match s.timer
    case None => Step(s, [])
    case Some(ms) =>
      if ms <= 0 then Step(s.(timer := None), [LockDevice])
      else Step(s.(timer := Some(ms - CountdownIntervalMillis)), [CountdownTick(ms / 1000)])
  }

  /** `n` iterations of the tracking loop, with no other event in between. */
  function Ticks(s: State, today: Date, n: nat): Step
  {
    if n == 0 then Step(s, [])
    else
      var before := Ticks(s, today, n - 1);
      var last := TickStep(before.state, today);
      Step(last.state, before.emitted + last.emitted)
  }

  /** `n` countdown callbacks, with no other event in between. */
  function Countdown(s: State, n: nat): Step
  {
    if n == 0 then Step(s, [])
    else
      var before := Countdown(s, n - 1);
      var last := CountdownStep(before.state);
      Step(last.state, before.emitted + last.emitted)
  }

  /** The events the service reacts to. */
  datatype Event =
    | MinuteElapsed(today: Date)                    // one tracking-loop iteration
    | ScreenOff(now: int, today: Date)
    | ScreenOn(now: int)
    | PinEntered(pin: string, today: Date, now: int)
    | TimerFired                                    // one countdown callback
    | Started(today: Date, now: int)                // `initializeProfile` on creation
    | ProfilesEdited(rows: seq<Profile>)            // the editor saved, the table now holds `rows`

  /** One event; only the ledger's totals and the table's rows are shared
      with the rest of the app, and the ledger only ever gains records. */
  function Apply(s: State, e: Event): (r: Step)
    ensures forall k :: k in s.ledger ==> k in r.state.ledger
    ensures e.ProfilesEdited? ==> r == Step(s.(profiles := e.rows), [])
    ensures !e.ProfilesEdited? ==> r.state.profiles == s.profiles
  {
    match e
    case MinuteElapsed(today) => TickStep(s, today)
    case ScreenOff(now, today) => ScreenOffStep(s, now, today)
    case ScreenOn(now) => ScreenOnStep(s, now)
    case PinEntered(pin, today, now) => PinStep(s, pin, today, now)
    case TimerFired => CountdownStep(s)
    case Started(today, now) => InitializeStep(s, today, now)
    case ProfilesEdited(rows) => Step(s.(profiles := rows), [])
  }

  /** The events handled one after another, commands concatenated in order. */
  function Run(s: State, events: seq<Event>): (r: Step)
    ensures |events| == 0 ==> r == Step(s, [])
    ensures forall k :: k in s.ledger ==> k in r.state.ledger
    ensures (forall i :: 0 <= i < |events| ==> !events[i].ProfilesEdited?) ==> r.state.profiles == s.profiles
  {
    if |events| == 0 then Step(s, [])
    else
      var before := Run(s, events[..|events| - 1]);
      var last := Apply(before.state, events[|events| - 1]);
      Step(last.state, before.emitted + last.emitted)
  }

  /** The day an event reads the clock for, if it does. */
  function DayOf(e: Event): Option<Date>
  {
    match e
    case MinuteElapsed(today) => Some(today)
    case ScreenOff(_, today) => Some(today)
    case PinEntered(_, today, _) => Some(today)
    case Started(today, _) => Some(today)
    case _ => None
  }

  /** An armed countdown belongs to a showing overlay and has 0..10 whole seconds left. */
  ghost predicate Wellformed(s: State)
  {
    s.timer.Some? ==>
      s.overlayShowing && 0 <= s.timer.value <= CountdownMillis && s.timer.value % CountdownIntervalMillis == 0
  }

  /** The in-memory daily counter equals the stored record of the active profile for `today`. */
  ghost predicate Mirrors(s: State, today: Date)
  {
    s.current.Some? ==> s.daily == UsageOf(s.ledger, s.current.value.id, today)
  }

  // ---------------------------------------------------------------------------
  // The service

  class TimeTrackingService {
    var profiles: seq<Profile>
    var ledger: Ledger
    var currentProfile: Option<Profile>
    var accumulatedDailyUsage: int
    var currentSessionUsage: int
    var sessionStartTime: int
    var lastSessionEndTime: int
    var isOverlayShowing: bool
    var trackingJobActive: bool
    var sleepTimer: Option<int>
    /** Every command emitted so far, oldest first. */
    var commands: seq<Command>

    ghost function Snapshot(): State
      reads this
    {
      State(profiles, ledger, currentProfile, accumulatedDailyUsage, currentSessionUsage,
            sessionStartTime, lastSessionEndTime, isOverlayShowing, trackingJobActive, sleepTimer)
    }

    constructor (profiles: seq<Profile>, ledger: Ledger)
      ensures Snapshot() == Fresh(profiles, ledger) && commands == []
    {
      this.profiles := profiles;
      this.ledger := ledger;
      currentProfile := None;
      accumulatedDailyUsage := 0;
      currentSessionUsage := 0;
      sessionStartTime := 0;
      lastSessionEndTime := 0;
      isOverlayShowing := false;
      trackingJobActive := false;
      sleepTimer := None;
      commands := [];
    }

    method InitializeProfile(today: Date, now: int)
      modifies this
      ensures Snapshot() == InitializeStep(old(Snapshot()), today, now).state
      ensures commands == old(commands) + InitializeStep(old(Snapshot()), today, now).emitted
    {
      currentProfile := ProfileByName(profiles, ChildName);
      LoadUsageStats(today);
      HandleScreenOn(now);
    }

    method LoadUsageStats(today: Date)
      modifies this
      ensures Snapshot() == Loaded(old(Snapshot()), today) && commands == old(commands)
    {
      if currentProfile.None? { return; }
      var p := currentProfile.value;
      accumulatedDailyUsage := UsageOf(ledger, p.id, today);
      currentSessionUsage := 0;
    }

    method HandleScreenOff(now: int, today: Date)
      modifies this
      ensures Snapshot() == ScreenOffStep(old(Snapshot()), now, today).state
      ensures commands == old(commands) + ScreenOffStep(old(Snapshot()), now, today).emitted
    {
      StopTracking();
      lastSessionEndTime := now;
      RemoveOverlay();
      var child := ProfileByName(profiles, ChildName);
      if child.Some? {
        currentProfile := child;
        LoadUsageStats(today);
      }
    }

    method HandleScreenOn(now: int)
      modifies this
      ensures Snapshot() == ScreenOnStep(old(Snapshot()), now).state
      ensures commands == old(commands) + ScreenOnStep(old(Snapshot()), now).emitted
    {
      if currentProfile.None? { return; }
      StartTracking(now);
    }

    method StartTracking(now: int)
      modifies this
      ensures Snapshot() == StartTrackingStep(old(Snapshot()), now).state
      ensures commands == old(commands) + StartTrackingStep(old(Snapshot()), now).emitted
    {
      if trackingJobActive { return; }
      sessionStartTime := now;
      var restNeeded := (if currentProfile.Some? then currentProfile.value.restDurationMinutes else 0) * 60 * 1000;
      var timeSinceLastSession := now - lastSessionEndTime;
      if lastSessionEndTime > 0 && timeSinceLastSession < restNeeded
         && currentProfile.Some? && currentProfile.value.isRestricted {
        ShowWarningOverlay(true);
        return;
      }
      trackingJobActive := true;
    }

    /** The profile table changed under the service (the editor saved a
        profile). The service keeps its own copy of the active profile. */
    method ProfilesEdited(rows: seq<Profile>)
      modifies this
      ensures Snapshot() == old(Snapshot()).(profiles := rows) && commands == old(commands)
    {
      profiles := rows;
    }

    method StopTracking()
      modifies this
      ensures Snapshot() == old(Snapshot()).(tracking := false) && commands == old(commands)
    {
      trackingJobActive := false;
    }

    method UpdateUsage(today: Date)
      modifies this
      ensures Snapshot() == UsageUpdated(old(Snapshot()), today) && commands == old(commands)
    {
      accumulatedDailyUsage := accumulatedDailyUsage + 1;
      currentSessionUsage := currentSessionUsage + 1;
      if currentProfile.None? { return; }
      var p := currentProfile.value;
      // On a map, inserting a new day's record and updating an existing one are the same write.
      ledger := ledger[(p.id, today) := accumulatedDailyUsage];
    }

    method CheckLimits()
      modifies this
      ensures Snapshot() == CheckLimitsStep(old(Snapshot())).state
      ensures commands == old(commands) + CheckLimitsStep(old(Snapshot())).emitted
    {
      if currentProfile.None? { return; }
      var p := currentProfile.value;
      if !p.isRestricted { return; }
      var dailyLimit := p.dailyLimitMinutes;
      var sessionLimit := p.sessionLimitMinutes;
      if (dailyLimit > -1 && accumulatedDailyUsage >= dailyLimit) ||
         (sessionLimit > -1 && currentSessionUsage >= sessionLimit) {
        ShowWarningOverlay(false);
      }
    }

    /** One iteration of the `while (isActive)` tracking loop. */
    method Tick(today: Date)
      modifies this
      ensures Snapshot() == TickStep(old(Snapshot()), today).state
      ensures commands == old(commands) + TickStep(old(Snapshot()), today).emitted
    {
      if !trackingJobActive { return; }
      UpdateUsage(today);
      CheckLimits();
    }

    /** The tracking loop left running for `minutes` iterations. */
    method RunTrackingLoop(today: Date, minutes: nat)
      modifies this
      ensures Snapshot() == Ticks(old(Snapshot()), today, minutes).state
      ensures commands == old(commands) + Ticks(old(Snapshot()), today, minutes).emitted
    {
      var i := 0;
      while i < minutes
        invariant 0 <= i <= minutes
        invariant Snapshot() == Ticks(old(Snapshot()), today, i).state
        invariant commands == old(commands) + Ticks(old(Snapshot()), today, i).emitted
      {
        Tick(today);
        i := i + 1;
      }
    }

    method ShowWarningOverlay(isRestWarning: bool)
      modifies this
      ensures Snapshot() == ShowWarningStep(old(Snapshot()), isRestWarning).state
      ensures commands == old(commands) + ShowWarningStep(old(Snapshot()), isRestWarning).emitted
    {
      if isOverlayShowing { return; }
      isOverlayShowing := true;
      commands := commands + [ShowOverlay(isRestWarning)];
      StartSleepCountdown();
    }

    /** Cancels the previous countdown, if any, and arms a new one. */
    method StartSleepCountdown()
      modifies this
      ensures Snapshot() == old(Snapshot()).(timer := Some(CountdownMillis)) && commands == old(commands)
    {
      sleepTimer := Some(CountdownMillis);
    }

    /** One callback of the countdown timer, one second after the previous one. */
    method SleepTimerFired()
      modifies this
      ensures Snapshot() == CountdownStep(old(Snapshot())).state
      ensures commands == old(commands) + CountdownStep(old(Snapshot())).emitted
    {
      if sleepTimer.None? { return; }
      var millisUntilFinished := sleepTimer.value;
      if millisUntilFinished <= 0 {
        sleepTimer := None;
        commands := commands + [LockDevice];
      } else {
        var seconds := millisUntilFinished / 1000;
        commands := commands + [CountdownTick(seconds)];
        sleepTimer := Some(millisUntilFinished - CountdownIntervalMillis);
      }
    }

    method RemoveOverlay()
      modifies this
      ensures Snapshot() == RemoveOverlayStep(old(Snapshot())).state
      ensures commands == old(commands) + RemoveOverlayStep(old(Snapshot())).emitted
    {
      if !isOverlayShowing { return; }
      isOverlayShowing := false;
      sleepTimer := None;
      commands := commands + [HideOverlay];
    }

    method HandlePinInput(pin: string, today: Date, now: int)
      modifies this
      ensures Snapshot() == PinStep(old(Snapshot()), pin, today, now).state
      ensures commands == old(commands) + PinStep(old(Snapshot()), pin, today, now).emitted
    {
      var targetProfile: Option<Profile> := None;
      var parent := ProfileByName(profiles, ParentName);
      var child := ProfileByName(profiles, ChildName);
      if parent.Some? && parent.value.pin == Some(pin) {
        targetProfile := parent;
      } else if child.Some? && child.value.pin == Some(pin) {
        targetProfile := child;
      }
      if targetProfile.Some? {
        SwitchProfile(targetProfile.value, today, now);
      } else {
        commands := commands + [ClearPinInput];
      }
    }

    /** The matched-PIN branch of `handlePinInput`; its two cases differ only
        in the order of two independent steps. */
    method SwitchProfile(target: Profile, today: Date, now: int)
      modifies this
      ensures Snapshot() == SwitchStep(old(Snapshot()), target, today, now).state
      ensures commands == old(commands) + SwitchStep(old(Snapshot()), target, today, now).emitted
    {
      currentProfile := Some(target);
      if !target.isRestricted {
        RemoveOverlay();
        LoadUsageStats(today);
        StartTracking(now);
      } else {
        LoadUsageStats(today);
        RemoveOverlay();
        StartTracking(now);
      }
    }
  }
}
