/**
 * What the usage-enforcement service guarantees, stated on the step
 * functions of module Engine (and so on every run of the service class).
 */
module EngineProperties {
  import opened Text
  import opened Data
  import opened Engine

  /** A profile `checkLimits` can never fire for. */
  predicate NeverLimited(p: Profile)
  {
    !p.isRestricted || (p.dailyLimitMinutes <= -1 && p.sessionLimitMinutes <= -1)
  }

  // ---------------------------------------------------------------------------
  // Ticks and limits

  /** However long an unlimited profile is tracked, no warning is shown and
      the counters just grow. */
  lemma {:induction false} UnlimitedProfileNeverWarned(s: State, today: Date, n: nat)
    requires s.tracking && s.current.Some? && NeverLimited(s.current.value)
    ensures Ticks(s, today, n).emitted == []
    ensures Ticks(s, today, n).state.overlayShowing == s.overlayShowing
    ensures Ticks(s, today, n).state.timer == s.timer
    ensures Ticks(s, today, n).state.current == s.current && Ticks(s, today, n).state.tracking
    ensures Ticks(s, today, n).state.daily == s.daily + n
    ensures Ticks(s, today, n).state.session == s.session + n
  {
    if n > 0 {
      UnlimitedProfileNeverWarned(s, today, n - 1);
    }
  }

  /** Before the limit is reached, ticks only count. */
  lemma {:induction false} NoWarningBeforeLimit(s: State, today: Date, n: nat)
    requires s.tracking && s.current.Some? && !s.overlayShowing
    requires !LimitReached(s.current.value, s.daily + n, s.session + n)
    ensures Ticks(s, today, n).emitted == []
    ensures var t := Ticks(s, today, n).state;
            t.tracking && !t.overlayShowing && t.timer == s.timer && t.current == s.current
            && t.daily == s.daily + n && t.session == s.session + n
  {
    if n > 0 {
      if LimitReached(s.current.value, s.daily + n - 1, s.session + n - 1) {
        LimitReachedMonotone(s.current.value, s.daily + n - 1, s.session + n - 1, s.daily + n, s.session + n);
      }
      NoWarningBeforeLimit(s, today, n - 1);
    }
  }

  /** The tick that reaches the limit shows the limit warning and arms the countdown. */
  lemma WarningAtLimit(s: State, today: Date, n: nat)
    requires s.tracking && s.current.Some? && !s.overlayShowing && n >= 1
    requires !LimitReached(s.current.value, s.daily + n - 1, s.session + n - 1)
    requires LimitReached(s.current.value, s.daily + n, s.session + n)
    ensures Ticks(s, today, n).emitted == [ShowOverlay(false)]
    ensures Ticks(s, today, n).state.overlayShowing
    ensures Ticks(s, today, n).state.timer == Some(CountdownMillis)
  {
    NoWarningBeforeLimit(s, today, n - 1);
  }

  /** The seeded "Child" profile (session limit 45 minutes) tracked from a
      fresh session with less than 75 minutes used today: no warning for 44
      ticks, the warning exactly at tick 45. */
  lemma ChildWarnedAtTick45(s: State, today: Date, n: nat)
    requires s.current == Some(SeedProfiles()[0])
    requires s.tracking && !s.overlayShowing && s.session == 0
    requires 0 <= s.daily && s.daily + 45 < 120
    ensures n < 45 ==> Ticks(s, today, n).emitted == [] && !Ticks(s, today, n).state.overlayShowing
    ensures Ticks(s, today, 45).emitted == [ShowOverlay(false)]
  {
    if n < 45 {
      NoWarningBeforeLimit(s, today, n);
    }
    WarningAtLimit(s, today, 45);
  }

  /** A tick writes the new daily total to the day's record, so reloading the
      usage (as after a restart) reads back exactly the in-memory counter. */
  lemma ReloadAfterTick(s: State, today: Date)
    requires s.tracking && s.current.Some?
    ensures var t := TickStep(s, today).state;
            Loaded(t, today).daily == t.daily == s.daily + 1
  {
  }

  /** The daily counter is not reset when the date changes: the first tick on
      a new day stores the previous day's total plus one under the new day. */
  lemma DailyCounterCarriesOverMidnight(s: State, yesterday: Date, today: Date)
    requires s.tracking && s.current.Some? && yesterday != today
    requires Mirrors(s, yesterday) && (s.current.value.id, today) !in s.ledger
    ensures UsageOf(TickStep(s, today).state.ledger, s.current.value.id, today)
            == UsageOf(s.ledger, s.current.value.id, yesterday) + 1
  {
  }

  // ---------------------------------------------------------------------------
  // Overlay and countdown

  /** Showing the warning twice is showing it once; so is hiding it. */
  lemma OverlayIdempotent(s: State, isRest: bool, isRest': bool)
    ensures var shown := ShowWarningStep(s, isRest).state;
            shown.overlayShowing && ShowWarningStep(shown, isRest') == Step(shown, [])
    ensures var hidden := RemoveOverlayStep(s).state;
            !hidden.overlayShowing && RemoveOverlayStep(hidden) == Step(hidden, [])
  {
  }

  /** Removing a showing overlay cancels its countdown: no lock follows, however many callbacks come. */
  lemma {:induction false} RemovedOverlayNeverLocks(s: State, n: nat)
    requires s.overlayShowing
    ensures RemoveOverlayStep(s).emitted == [HideOverlay]
    ensures Countdown(RemoveOverlayStep(s).state, n) == Step(RemoveOverlayStep(s).state, [])
  {
    CountdownIdle(RemoveOverlayStep(s).state, n);
  }

  /** A countdown that is not armed does nothing. */
  lemma {:induction false} CountdownIdle(s: State, n: nat)
    requires s.timer.None?
    ensures Countdown(s, n) == Step(s, [])
  {
    if n > 0 {
      CountdownIdle(s, n - 1);
    }
  }

  /** The first `n` callbacks of a freshly armed countdown show 10, 9, ... seconds. */
  lemma {:induction false} CountdownProgress(s: State, n: nat)
    requires s.timer == Some(CountdownMillis) && n <= 10
    ensures Countdown(s, n).state == s.(timer := Some(CountdownMillis - n * CountdownIntervalMillis))
    ensures Countdown(s, n).emitted == seq(n, i => CountdownTick(10 - i))
  {
    if n > 0 {
      CountdownProgress(s, n - 1);
      var ms := CountdownMillis - (n - 1) * CountdownIntervalMillis;
      assert ms / 1000 == 10 - (n - 1);
    }
  }

  function LockCount(cmds: seq<Command>): nat
  {
    if |cmds| == 0 then 0 else (if cmds[0] == LockDevice then 1 else 0) + LockCount(cmds[1..])
  }

  /** An armed countdown left alone shows 10..1 and then locks the device
      exactly once; the overlay stays up and further callbacks do nothing. */
  lemma CountdownLocksOnce(s: State, extra: nat)
    requires s.timer == Some(CountdownMillis)
    ensures Countdown(s, 11).emitted == seq(10, i => CountdownTick(10 - i)) + [LockDevice]
    ensures Countdown(s, 11).state == s.(timer := None)
    ensures LockCount(Countdown(s, 11).emitted) == 1
    ensures Countdown(Countdown(s, 11).state, extra).emitted == []
  {
    CountdownProgress(s, 10);
    var ticks := seq(10, i => CountdownTick(10 - i));
    NoLockInTicks(ticks);
    LockCountAppend(ticks, [LockDevice]);
    CountdownIdle(Countdown(s, 11).state, extra);
  }

  lemma {:induction false} NoLockInTicks(cmds: seq<Command>)
    requires forall i :: 0 <= i < |cmds| ==> cmds[i].CountdownTick?
    ensures LockCount(cmds) == 0
  {
    if |cmds| > 0 {
      NoLockInTicks(cmds[1..]);
    }
  }

  lemma {:induction false} LockCountAppend(a: seq<Command>, b: seq<Command>)
    ensures LockCount(a + b) == LockCount(a) + LockCount(b)
  {
    if |a| > 0 {
      assert (a + b)[1..] == a[1..] + b;
      LockCountAppend(a[1..], b);
    } else {
      assert a + b == b;
    }
  }

  // ---------------------------------------------------------------------------
  // Rest period

  /** The rest gate of `startTracking`: a running loop is left alone; without
      a previous session end the loop always starts; while rest is required
      the rest warning is shown instead of the loop. */
  lemma RestGate(s: State, now: int)
    ensures s.tracking ==> StartTrackingStep(s, now) == Step(s, [])
    ensures !s.tracking && s.lastSessionEnd <= 0 ==>
              StartTrackingStep(s, now).state.tracking && StartTrackingStep(s, now).emitted == []
    ensures !s.tracking && RestRequired(s.current, s.lastSessionEnd, now) ==>
              !StartTrackingStep(s, now).state.tracking && StartTrackingStep(s, now).state.overlayShowing
              && StartTrackingStep(s, now).emitted == (if s.overlayShowing then [] else [ShowOverlay(true)])
    ensures !s.tracking && !RestRequired(s.current, s.lastSessionEnd, now) ==>
              StartTrackingStep(s, now).state.tracking && StartTrackingStep(s, now).emitted == []
  {
  }

  /** Screen off at `off`, screen on at `on`: with "Child" restricted and
      less than its rest duration between the two, the rest warning comes
      up and the loop does not start; otherwise the loop starts. */
  lemma ScreenOffThenOn(s: State, off: int, on: int, today: Date)
    requires off > 0
    requires ProfileByName(s.profiles, ChildName).Some?
    requires ProfileByName(s.profiles, ChildName).value.isRestricted
    ensures var child := ProfileByName(s.profiles, ChildName).value;
            var r := Run(s, [ScreenOff(off, today), ScreenOn(on)]);
            if on - off < child.restDurationMinutes * MillisPerMinute
            then !r.state.tracking && r.state.overlayShowing
                 && r.emitted == (if s.overlayShowing then [HideOverlay] else []) + [ShowOverlay(true)]
            else r.state.tracking && !r.state.overlayShowing
                 && r.emitted == (if s.overlayShowing then [HideOverlay] else [])
  {
    var a := ScreenOffStep(s, off, today);
    assert Run(s, [ScreenOff(off, today)]) == Step(a.state, [] + a.emitted);
    assert [ScreenOff(off, today), ScreenOn(on)][..1] == [ScreenOff(off, today)];
  }

  /** The same with the seeded profiles (rest 15 minutes): back after 10
      minutes gives the rest warning, back after 20 minutes starts tracking. */
  lemma SeededRestScenarios(s: State, off: int, today: Date)
    requires s.profiles == SeedProfiles() && off > 0 && !s.overlayShowing
    ensures Run(s, [ScreenOff(off, today), ScreenOn(off + 10 * MillisPerMinute)]).emitted == [ShowOverlay(true)]
    ensures Run(s, [ScreenOff(off, today), ScreenOn(off + 20 * MillisPerMinute)]).state.tracking
  {
    ScreenOffThenOn(s, off, off + 10 * MillisPerMinute, today);
    ScreenOffThenOn(s, off, off + 20 * MillisPerMinute, today);
  }

  // ---------------------------------------------------------------------------
  // PIN entry

  /** A PIN that matches neither "Parent" nor "Child" changes nothing but the PIN field. */
  lemma WrongPinChangesNothing(s: State, pin: string, today: Date, now: int)
    requires PinTarget(s.profiles, pin).None?
    ensures PinStep(s, pin, today, now) == Step(s, [ClearPinInput])
  {
  }

  /** A matching PIN makes its profile active with today's usage reloaded,
      the session restarted, and the overlay taken down (it can come back
      only as the rest warning of a restricted profile). */
  lemma MatchingPinSwitches(s: State, pin: string, today: Date, now: int)
    requires Wellformed(s)
    requires PinTarget(s.profiles, pin).Some?
    ensures var t := PinTarget(s.profiles, pin).value;
            var r := PinStep(s, pin, today, now).state;
            r.current == Some(t) && r.session == 0 && r.daily == UsageOf(s.ledger, t.id, today)
            && (r.overlayShowing ==> t.isRestricted && !s.tracking && r.timer == Some(CountdownMillis))
            && (!r.overlayShowing ==> r.timer.None? && r.tracking)
            && (s.overlayShowing ==> |PinStep(s, pin, today, now).emitted| >= 1
                                     && PinStep(s, pin, today, now).emitted[0] == HideOverlay)
  {
  }

  /** Unlocking an over-limit session with the "Parent" PIN (an unrestricted
      profile): the overlay goes, the countdown is cancelled so no lock
      follows, tracking runs, and later ticks never warn again. */
  lemma ParentPinUnlocks(s: State, pin: string, today: Date, now: int, n: nat)
    requires Wellformed(s) && s.overlayShowing
    requires PinTarget(s.profiles, pin).Some? && !PinTarget(s.profiles, pin).value.isRestricted
    ensures var r := PinStep(s, pin, today, now);
            r.emitted == [HideOverlay] && r.state.tracking && !r.state.overlayShowing
            && Countdown(r.state, n) == Step(r.state, [])
            && Ticks(r.state, today, n).emitted == []
  {
    var r := PinStep(s, pin, today, now);
    CountdownIdle(r.state, n);
    UnlimitedProfileNeverWarned(r.state, today, n);
  }

  // ---------------------------------------------------------------------------
  // Invariants over any run

  /** Every event keeps an armed countdown tied to a showing overlay, and
      keeps the daily counter equal to the active profile's record for the day. */
  lemma ApplyPreserves(s: State, e: Event, today: Date)
    requires Wellformed(s) && Mirrors(s, today)
    requires DayOf(e).None? || DayOf(e) == Some(today)
    ensures Wellformed(Apply(s, e).state) && Mirrors(Apply(s, e).state, today)
  {
    match e
    case MinuteElapsed(d) =>
    case ScreenOff(now, d) =>
    case ScreenOn(now) =>
    case PinEntered(pin, d, now) =>
    case TimerFired =>
      if s.timer.Some? && s.timer.value > 0 {
        assert (s.timer.value - CountdownIntervalMillis) % CountdownIntervalMillis == 0;
      }
    case Started(d, now) =>
    case ProfilesEdited(rows) =>
  }

  lemma {:induction false} RunPreserves(s: State, events: seq<Event>, today: Date)
    requires Wellformed(s) && Mirrors(s, today)
    requires forall i :: 0 <= i < |events| ==> DayOf(events[i]).None? || DayOf(events[i]) == Some(today)
    ensures Wellformed(Run(s, events).state) && Mirrors(Run(s, events).state, today)
  {
    if |events| > 0 {
      RunPreserves(s, events[..|events| - 1], today);
      ApplyPreserves(Run(s, events[..|events| - 1]).state, events[|events| - 1], today);
    }
  }

  /** Within a day, stored totals never go down and no record disappears. */
  lemma ApplyNeverLowersTotals(s: State, e: Event, today: Date)
    requires Mirrors(s, today)
    requires DayOf(e).None? || DayOf(e) == Some(today)
    ensures forall k :: k in s.ledger ==> k in Apply(s, e).state.ledger && Apply(s, e).state.ledger[k] >= s.ledger[k]
  {
  }

  /** An edit of the profile table reaches the service at the next screen-off:
      until then the active profile is the copy loaded before the edit, and
      screen-off loads "Child" from the edited rows. */
  lemma EditSeenAtNextScreenOff(s: State, rows: seq<Profile>, now: int, today: Date)
    ensures var edited := Apply(s, ProfilesEdited(rows)).state;
            edited.current == s.current && edited.daily == s.daily && edited.session == s.session
    ensures var r := Run(s, [ProfilesEdited(rows), ScreenOff(now, today)]).state;
            ProfileByName(rows, ChildName).Some? ==>
              r.current == ProfileByName(rows, ChildName) && r.profiles == rows
  {
    var events := [ProfilesEdited(rows), ScreenOff(now, today)];
    assert events[..1] == [ProfilesEdited(rows)];
    assert events[..1][..0] == [];
  }

  /** The loop `startTracking` launches runs its first iteration without a
      delay: the first tick after a start counts a minute of the new session. */
  lemma StartThenFirstTick(s: State, now: int, today: Date)
    requires s.current.Some? && !s.tracking
    requires !RestRequired(s.current, s.lastSessionEnd, now)
    ensures var r := Run(s, [ScreenOn(now), MinuteElapsed(today)]).state;
            r.tracking && r.session == s.session + 1 && r.daily == s.daily + 1
            && r.ledger == s.ledger[(s.current.value.id, today) := s.daily + 1]
  {
    var events := [ScreenOn(now), MinuteElapsed(today)];
    assert events[..1] == [ScreenOn(now)];
    assert events[..1][..0] == [];
  }

  /** A restart over the same tables reloads the daily counter of "Child"
      from the ledger: what the ticks stored is what the new service counts from. */
  lemma RestartRestoresDaily(s: State, today: Date, now: int)
    requires Mirrors(s, today)
    requires s.current.Some? && s.current == ProfileByName(s.profiles, ChildName)
    ensures InitializeStep(Fresh(s.profiles, s.ledger), today, now).state.daily == s.daily
    ensures InitializeStep(Fresh(s.profiles, s.ledger), today, now).state.session == 0
  {
  }

  /** A fresh service over the seeded tables starts tracking "Child" at once. */
  lemma SeededStartTracksChild(ledger: Ledger, today: Date, now: int)
    ensures var r := InitializeStep(Fresh(SeedProfiles(), ledger), today, now);
            r.state.current == Some(SeedProfiles()[0]) && r.state.tracking && r.emitted == []
            && Wellformed(r.state) && Mirrors(r.state, today)
  {
  }
}
