# tv-usage-limit — a verified model of the usage-limit core

This project models the core of *TV Usage Limit*, an Android TV app.
A parent sets up profiles ("Child", "Parent", ...). A background service counts how many
minutes the active profile watches. When a restricted profile reaches its daily or session
limit, a warning overlay appears and a ten-second countdown locks the device. A parent PIN
typed into the overlay switches to an unrestricted profile. After the screen goes off, a
restricted profile must rest for a while before a new session may start.

The model covers five parts of the app:

- **`Engine`** (`engine.dfy`): the tracking service `TimeTrackingService`.
  - It is a class with the service's own fields: the current profile, the daily and session
    counters, the last session end, the overlay flag, the tracking job and the countdown.
    The database tables are fields too, as values.
  - Every method is proved against a pure step function on a `State` value.
    The step function also returns the overlay, countdown and lock commands the method emits.
  - `Run` replays a sequence of events (minute ticks, screen off/on, PIN entry, countdown
    callbacks, service start, and an edit of the profile table by the editor, which the
    service sees only through its next lookup by name).
- **`EngineProperties`** (`engine_properties.dfy`): what the service guarantees over whole
  runs. This covers limits, the rest gate, the countdown, PIN switching, and the invariants
  every event keeps.
- **`ProfileSelection`** (`profile_selection.dfy`): the profile chooser. It covers the usage
  shown on each card, what a click does, and the four-digit PIN dialog.
- **`EditProfile`** (`edit_profile.dfy`): the profile editor. It covers parsing and
  validating the form, saving it, and the restricted-apps summary.
- **`ProfileAdapter`** (`profile_adapter.dfy`): the texts on a profile card and the list
  differ's two comparisons.
- **`AppSelection`** (`app_selection.dfy`): the app chooser. It merges the launcher and
  TV-launcher activities, keeps one per package, leaves out the app itself and sorts by name.
  It also covers the pre-selection and the comma-separated result.

Two modules are shared by the others:

- **`Data`** (`data.dfy`): the profile table as a sequence of rows, the usage ledger as a
  map from (profile id, date) to minutes, the two seeded profiles, and the DAO queries as
  functions.
- **`Text`** (`text.dfy`): Kotlin's `split`, `joinToString`, `Int.toString` and
  `toIntOrNull`, with their round trips proved.

Clocks, dates and package-manager answers are parameters: `now` in milliseconds, `today` as
the ISO date string, and the lists of resolved activities.

## Model

Source paths are relative to the repository root.

| member | source | states |
|---|---|---|
| Text.Split | app/src/main/java/com/example/tvlimit/ui/AppSelectionActivity.kt:34 | `split(",")` always yields at least one piece, and no piece contains the delimiter |
| Text.SplitJoin | app/src/main/java/com/example/tvlimit/ui/AppSelectionActivity.kt:34-37 | splitting a comma-join of comma-free pieces gives back exactly those pieces |
| Text.Join | app/src/main/java/com/example/tvlimit/ui/AppSelectionActivity.kt:37 | `joinToString(",")` starts with the first piece and puts the separator after it; the separator occurs in the result exactly when there are two pieces or more, or the one piece holds it |
| Text.JoinSplit | app/src/main/java/com/example/tvlimit/ui/EditProfileActivity.kt:99 | joining the pieces of a split gives back the original text |
| Text.NatToString | app/src/main/java/com/example/tvlimit/ui/EditProfileActivity.kt:88-90 | the decimal text of a natural number is non-empty and all digits |
| Text.IntToString | app/src/main/java/com/example/tvlimit/ui/EditProfileActivity.kt:88-90 | `Int.toString` starts with '-' exactly for negative numbers and is all digits otherwise |
| Text.NatToStringValue | app/src/main/java/com/example/tvlimit/ui/EditProfileActivity.kt:88-90 | reading the digits of a number's decimal text back gives the number |
| Text.ParseDecimal | app/src/main/java/com/example/tvlimit/ui/EditProfileActivity.kt:110-112 | only non-empty text can parse |
| Text.ParseInt | app/src/main/java/com/example/tvlimit/ui/EditProfileActivity.kt:110-112 | `toIntOrNull` answers a value exactly when the text is a decimal number within Kotlin's `Int` range, and then that number; out of range it answers null |
| Text.ParseDecimalOfIntToString | app/src/main/java/com/example/tvlimit/ui/EditProfileActivity.kt:88-90 | every integer's text reads back as that integer |
| Text.ParseIntOfIntToString | app/src/main/java/com/example/tvlimit/ui/EditProfileActivity.kt:88-112 | for every `Int`, `toString().toIntOrNull()` gives the value back |
| Text.IntToStringInjective | app/src/main/java/com/example/tvlimit/ui/ProfileAdapter.kt:47-48 | different integers never print the same |
| Data.SeedProfiles | app/src/main/java/com/example/tvlimit/data/AppDatabase.kt:44-60 | the seeded table has the "Child" row first and the "Parent" row second |
| Data.ProfileByName | app/src/main/java/com/example/tvlimit/data/ProfileDao.kt:18-19 | the lookup answers null exactly when no row has the name; otherwise it answers a row of the table with that name |
| Data.ProfileById | app/src/main/java/com/example/tvlimit/data/ProfileDao.kt:15-16 | the lookup answers null exactly when no row has the id; otherwise it answers a row of the table with that id |
| Data.UpdateProfile | app/src/main/java/com/example/tvlimit/data/ProfileDao.kt:24-25 | an update replaces the rows whose primary key matches and keeps every other row in place |
| Data.UpdateThenFind | app/src/main/java/com/example/tvlimit/data/ProfileDao.kt:15-25 | after updating an existing profile, looking up its id finds the new row |
| Data.UsageOf | app/src/main/java/com/example/tvlimit/data/ProfileDao.kt:28-29 | the day's usage is the stored total, or 0 when there is no record |
| Data.RecordUsage | app/src/main/java/com/example/tvlimit/service/TimeTrackingService.kt:189-194 | insert-or-update leaves the (profile, day) record holding the new total, adds no other key, and changes no other record |
| Engine.Fresh | app/src/main/java/com/example/tvlimit/service/TimeTrackingService.kt:51-65 | a new service has no profile, no tracking job, no overlay and no countdown |
| Engine.LimitReached | app/src/main/java/com/example/tvlimit/service/TimeTrackingService.kt:199-211 | the warning fires exactly for a restricted profile whose daily limit (> -1) or session limit (> -1) has been reached; never when both limits are ≤ -1 |
| Engine.LimitReachedMonotone | app/src/main/java/com/example/tvlimit/service/TimeTrackingService.kt:199-211 | once reached, a limit stays reached as the counters grow |
| Engine.RestRequired | app/src/main/java/com/example/tvlimit/service/TimeTrackingService.kt:151-158 | rest is demanded exactly when a session end is recorded (> 0), the profile is restricted, and less than its rest duration has passed; never without a profile or for an unrestricted one |
| Engine.Loaded | app/src/main/java/com/example/tvlimit/service/TimeTrackingService.kt:113-121 | loading stats sets daily to today's stored total (0 without a record) and session to 0, and does nothing without a current profile |
| Engine.TickStep | app/src/main/java/com/example/tvlimit/service/TimeTrackingService.kt:164-211 | a tick adds exactly 1 to both counters and stores the new daily total for (profile, today); it shows the limit warning exactly when a limit is reached and no warning is up; it changes nothing when no tracking job runs |
| Engine.ScreenOffStep | app/src/main/java/com/example/tvlimit/service/TimeTrackingService.kt:123-141 | screen-off stops tracking, records the session end, hides the overlay and cancels its countdown, and makes "Child" current with today's usage reloaded when that profile exists |
| Engine.PinTarget | app/src/main/java/com/example/tvlimit/service/TimeTrackingService.kt:323-330 | the Parent PIN is tried before the Child PIN: a match answers the row `getProfileByName` gives for "Parent" or for "Child" and holds that PIN, and it is the Child row only when the Parent row is missing or holds another PIN; no match exactly when neither holds it |
| Engine.TimeTrackingService.constructor | app/src/main/java/com/example/tvlimit/service/TimeTrackingService.kt:51-65 | the service starts in the fresh state with no command emitted |
| Engine.TimeTrackingService.InitializeProfile | app/src/main/java/com/example/tvlimit/service/TimeTrackingService.kt:97-111 | start-up makes "Child" current, loads its usage, and resumes as on screen-on |
| Engine.TimeTrackingService.LoadUsageStats | app/src/main/java/com/example/tvlimit/service/TimeTrackingService.kt:113-121 | the fields change exactly as `Loaded` says |
| Engine.TimeTrackingService.HandleScreenOff | app/src/main/java/com/example/tvlimit/service/TimeTrackingService.kt:123-141 | the fields and emitted commands change exactly as `ScreenOffStep` says |
| Engine.TimeTrackingService.HandleScreenOn | app/src/main/java/com/example/tvlimit/service/TimeTrackingService.kt:143-146 | screen-on with no profile does nothing; otherwise it starts tracking |
| Engine.TimeTrackingService.StartTracking | app/src/main/java/com/example/tvlimit/service/TimeTrackingService.kt:148-171 | a running job is left alone; when rest is required, the rest warning is shown and no job starts; otherwise the job starts |
| Engine.TimeTrackingService.StopTracking | app/src/main/java/com/example/tvlimit/service/TimeTrackingService.kt:173-176 | only the tracking job stops |
| Engine.TimeTrackingService.UpdateUsage | app/src/main/java/com/example/tvlimit/service/TimeTrackingService.kt:178-194 | both counters go up by one and the day's record is written |
| Engine.TimeTrackingService.CheckLimits | app/src/main/java/com/example/tvlimit/service/TimeTrackingService.kt:199-211 | the limit warning is shown exactly when `LimitReached` holds |
| Engine.TimeTrackingService.Tick | app/src/main/java/com/example/tvlimit/service/TimeTrackingService.kt:164-168 | one loop iteration changes the state as `TickStep` says |
| Engine.TimeTrackingService.RunTrackingLoop | app/src/main/java/com/example/tvlimit/service/TimeTrackingService.kt:164-170 | `n` loop iterations change the state as `n` successive ticks |
| Engine.TimeTrackingService.ShowWarningOverlay | app/src/main/java/com/example/tvlimit/service/TimeTrackingService.kt:213-215 | a second show while showing does nothing; otherwise the overlay is up and a fresh countdown is armed |
| Engine.TimeTrackingService.StartSleepCountdown | app/src/main/java/com/example/tvlimit/service/TimeTrackingService.kt:270-272 | a new countdown of 10 000 ms replaces any earlier one |
| Engine.TimeTrackingService.SleepTimerFired | app/src/main/java/com/example/tvlimit/service/TimeTrackingService.kt:273-284 | a countdown callback shows the whole seconds left, or at the end attempts one lock |
| Engine.TimeTrackingService.RemoveOverlay | app/src/main/java/com/example/tvlimit/service/TimeTrackingService.kt:288-291 | removing a hidden overlay does nothing; otherwise the flag clears and the countdown is cancelled |
| Engine.TimeTrackingService.HandlePinInput | app/src/main/java/com/example/tvlimit/service/TimeTrackingService.kt:305-366 | a wrong PIN only clears the PIN field; a right one switches profile |
| Engine.TimeTrackingService.SwitchProfile | app/src/main/java/com/example/tvlimit/service/TimeTrackingService.kt:333-358 | both branches (unrestricted: remove, load, track; restricted: load, remove, track) reach the same state |
| EngineProperties.UnlimitedProfileNeverWarned | app/src/main/java/com/example/tvlimit/service/TimeTrackingService.kt:199-207 | however long an unrestricted or limit-free profile is tracked, no warning is shown, the overlay state is untouched, and both counters grow by the number of ticks |
| EngineProperties.NoWarningBeforeLimit | app/src/main/java/com/example/tvlimit/service/TimeTrackingService.kt:178-211 | ticks before the limit only count: nothing is emitted and the overlay stays hidden |
| EngineProperties.WarningAtLimit | app/src/main/java/com/example/tvlimit/service/TimeTrackingService.kt:199-215 | the tick that reaches the limit shows the limit warning once and arms the countdown |
| EngineProperties.ChildWarnedAtTick45 | app/src/main/java/com/example/tvlimit/data/AppDatabase.kt:44-51 | the seeded Child (45-minute sessions) is warned at its 45th loop iteration and not before; the first iteration runs at the start, so in the app this is 44 minutes in |
| EngineProperties.ReloadAfterTick | app/src/main/java/com/example/tvlimit/service/TimeTrackingService.kt:113-121 | after a tick, reloading the stats gives back the in-memory daily total |
| EngineProperties.DailyCounterCarriesOverMidnight | app/src/main/java/com/example/tvlimit/service/TimeTrackingService.kt:178-194 | the first tick of a new day stores yesterday's total plus one under the new date |
| EngineProperties.OverlayIdempotent | app/src/main/java/com/example/tvlimit/service/TimeTrackingService.kt:213-215 | showing twice is showing once, and hiding twice is hiding once |
| EngineProperties.RemovedOverlayNeverLocks | app/src/main/java/com/example/tvlimit/service/TimeTrackingService.kt:288-291 | removing a showing overlay cancels its countdown, so no later callback locks |
| EngineProperties.CountdownIdle | app/src/main/java/com/example/tvlimit/service/TimeTrackingService.kt:270-286 | a countdown that is not armed emits nothing |
| EngineProperties.CountdownProgress | app/src/main/java/com/example/tvlimit/service/TimeTrackingService.kt:272-277 | the first n callbacks of a fresh countdown show 10, 9, ... seconds and leave 10 000 − 1000·n ms |
| EngineProperties.CountdownLocksOnce | app/src/main/java/com/example/tvlimit/service/TimeTrackingService.kt:270-286 | a countdown left alone shows 10..1, attempts exactly one lock, and then stays silent |
| EngineProperties.RestGate | app/src/main/java/com/example/tvlimit/service/TimeTrackingService.kt:148-171 | a running job is left alone; no recorded session end never blocks; rest required gives the rest warning without tracking; otherwise tracking starts |
| EngineProperties.ScreenOffThenOn | app/src/main/java/com/example/tvlimit/service/TimeTrackingService.kt:123-171 | screen off then on gives the Child rest warning exactly while its rest has not elapsed, and resumes tracking otherwise |
| EngineProperties.SeededRestScenarios | app/src/main/java/com/example/tvlimit/data/AppDatabase.kt:44-51 | with the seeded 15-minute rest, coming back after 10 minutes shows the rest warning and after 20 minutes tracks |
| EngineProperties.WrongPinChangesNothing | app/src/main/java/com/example/tvlimit/service/TimeTrackingService.kt:359-363 | a PIN matching neither profile leaves the whole state alone and only clears the PIN field |
| EngineProperties.MatchingPinSwitches | app/src/main/java/com/example/tvlimit/service/TimeTrackingService.kt:332-358 | a matching PIN makes its profile current with today's usage and session 0; a showing overlay is hidden first (`HideOverlay` comes first), and afterwards either tracking runs or the rest warning shows again for a restricted profile |
| EngineProperties.ParentPinUnlocks | app/src/main/java/com/example/tvlimit/service/TimeTrackingService.kt:345-350 | a parent PIN on a locked screen hides the overlay, starts tracking, and no lock or warning follows |
| Engine.Apply | app/src/main/java/com/example/tvlimit/service/TimeTrackingService.kt:97-366 | one event never removes a ledger record; an edit of the profile table only replaces the rows, and no other event touches them |
| Engine.Run | app/src/main/java/com/example/tvlimit/service/TimeTrackingService.kt:97-366 | a run of events never removes a ledger record, and leaves the rows alone when it holds no edit |
| EngineProperties.ApplyPreserves | app/src/main/java/com/example/tvlimit/service/TimeTrackingService.kt:123-366 | every event keeps any armed countdown tied to a showing overlay, and keeps the daily counter equal to the stored record |
| EngineProperties.RunPreserves | app/src/main/java/com/example/tvlimit/service/TimeTrackingService.kt:123-366 | the same holds for every run of events within one day |
| EngineProperties.ApplyNeverLowersTotals | app/src/main/java/com/example/tvlimit/service/TimeTrackingService.kt:178-194 | no event lowers a stored total or removes a record |
| EngineProperties.RestartRestoresDaily | app/src/main/java/com/example/tvlimit/service/TimeTrackingService.kt:97-121 | a restarted service over the same tables restores Child's daily counter, with session 0 |
| EngineProperties.EditSeenAtNextScreenOff | app/src/main/java/com/example/tvlimit/service/TimeTrackingService.kt:123-141 | an edit of the profile table leaves the service's active profile and counters as they were; the next screen-off loads "Child" from the edited rows |
| EngineProperties.StartThenFirstTick | app/src/main/java/com/example/tvlimit/service/TimeTrackingService.kt:148-171 | the first loop iteration after a start counts one minute on both counters and stores the new daily total |
| Engine.TimeTrackingService.ProfilesEdited | app/src/main/java/com/example/tvlimit/data/ProfileDao.kt:24-25 | the service's view of the profile table becomes the edited rows, and nothing else changes |
| EngineProperties.SeededStartTracksChild | app/src/main/java/com/example/tvlimit/service/TimeTrackingService.kt:97-111 | a fresh service over the seeded tables tracks Child at once |
| ProfileSelection.DisplayedSession | app/src/main/java/com/example/tvlimit/ui/ProfileSelectionActivity.kt:60-93 | the shown session is either the stored value or 0, and it is the stored value when no session end is stored (the `Int` wrap of `rest × 60` is not modelled; see "Left out") |
| ProfileSelection.DisplayedSessionCases | app/src/main/java/com/example/tvlimit/ui/ProfileSelectionActivity.kt:65-93 | the stored session is shown while the rest has not elapsed; after that the shown session is 0 |
| ProfileSelection.CarryOverMatchesRestGate | app/src/main/java/com/example/tvlimit/ui/ProfileSelectionActivity.kt:65-71 | for a restricted profile, the card keeps its session exactly while the service would demand rest (with unbounded arithmetic; see the RestRequired line under "Left out") |
| ProfileSelection.Cards | app/src/main/java/com/example/tvlimit/ui/ProfileSelectionActivity.kt:55-96 | there is one card per profile, in table order |
| ProfileSelection.Card | app/src/main/java/com/example/tvlimit/ui/ProfileSelectionActivity.kt:55-94 | a card shows its profile, today's stored total (0 without a record), and a session that is either 0 or the stored one: the stored one when no session end is stored, 0 when no session is stored |
| ProfileSelection.CardDailyMatchesService | app/src/main/java/com/example/tvlimit/ui/ProfileSelectionActivity.kt:57-58 | a card's daily usage is today's stored total (0 without a record), the number the service reloads |
| ProfileSelection.OnProfileClicked | app/src/main/java/com/example/tvlimit/ui/ProfileSelectionActivity.kt:105-113 | a restricted profile is switched to at once; an unrestricted one asks for its PIN |
| ProfileSelection.PinAccepted | app/src/main/java/com/example/tvlimit/ui/ProfileSelectionActivity.kt:158-167 | a typed PIN is accepted exactly when it equals the stored one, so a profile without a PIN accepts nothing |
| ProfileSelection.Typed | app/src/main/java/com/example/tvlimit/ui/ProfileSelectionActivity.kt:127 | a fifth character is dropped by the length filter |
| ProfileSelection.PinDialog.constructor | app/src/main/java/com/example/tvlimit/ui/ProfileSelectionActivity.kt:115-156 | the dialog opens empty and not dismissed |
| ProfileSelection.PinDialog.KeyTyped | app/src/main/java/com/example/tvlimit/ui/ProfileSelectionActivity.kt:139-150 | below four characters the key is appended; at four, a right PIN announces the switch and dismisses, and a wrong one clears the field |
| ProfileSelection.NoPinNeverAccepted | app/src/main/java/com/example/tvlimit/ui/ProfileSelectionActivity.kt:160 | a profile without a PIN can never be chosen through the dialog |
| ProfileSelection.OnlyFourDigitPinsUnlock | app/src/main/java/com/example/tvlimit/ui/ProfileSelectionActivity.kt:127-142 | only a stored PIN of exactly four characters can ever be accepted |
| EditProfile.IntOr | app/src/main/java/com/example/tvlimit/ui/EditProfileActivity.kt:110-112 | a number field reads as its parsed value, or the fallback when it does not parse |
| EditProfile.SaveProfile | app/src/main/java/com/example/tvlimit/ui/EditProfileActivity.kt:107-128 | an unrestricted profile without a PIN is rejected; otherwise a loaded profile is saved with the form's values (empty PIN stored as null, unreadable limits -1, unreadable rest 0) and its id and name kept |
| EditProfile.SavedProfileHasCredential | app/src/main/java/com/example/tvlimit/ui/EditProfileActivity.kt:115-122 | a saved profile is restricted or has a PIN, never stores an empty PIN, and has limits in `Int` range |
| EditProfile.SaveUntouchedFormKeepsProfile | app/src/main/java/com/example/tvlimit/ui/EditProfileActivity.kt:84-128 | loading a profile into the form and saving it untouched writes the same profile back |
| EditProfile.FormOf | app/src/main/java/com/example/tvlimit/ui/EditProfileActivity.kt:84-91 | the form shows the profile's name, restriction and PIN (empty when none), and number texts that read back as its limits and rest |
| EditProfile.OutOfRangeLimitBecomesUnlimited | app/src/main/java/com/example/tvlimit/ui/EditProfileActivity.kt:110-112 | any daily or session limit typed as a number beyond `Int` range is saved as unlimited (-1), and such a rest duration as 0 |
| EditProfile.TenDigitLimitBecomesUnlimited | app/src/main/java/com/example/tvlimit/ui/EditProfileActivity.kt:110 | for instance, a daily limit of 3000000000 is saved as unlimited |
| EditProfile.RestrictedAppCount | app/src/main/java/com/example/tvlimit/ui/EditProfileActivity.kt:99 | no list, or an empty list, counts 0 apps |
| EditProfile.NonEmptyCount | app/src/main/java/com/example/tvlimit/ui/EditProfileActivity.kt:99 | the count is 0 exactly when every piece is empty |
| EditProfile.SummaryEmptyExactlyWhenNoApps | app/src/main/java/com/example/tvlimit/ui/EditProfileActivity.kt:98-105 | the summary says "No apps restricted" exactly when the count is 0 |
| EditProfile.RestrictedAppsSummary | app/src/main/java/com/example/tvlimit/ui/EditProfileActivity.kt:98-105 | with no app counted the summary is "No apps restricted"; otherwise it starts with the count |
| EditProfile.CountOfJoinedList | app/src/main/java/com/example/tvlimit/ui/EditProfileActivity.kt:99 | a list written by the app chooser counts exactly its packages |
| EditProfile.ChooserResultCount | app/src/main/java/com/example/tvlimit/ui/EditProfileActivity.kt:98-105 | the editor's count of a result handed back by the app chooser is the number of packages ticked there (distinct, non-empty, comma-free package names) |
| EditProfile.EditProfileActivity.constructor | app/src/main/java/com/example/tvlimit/ui/EditProfileActivity.kt:32-34 | the screen starts with no profile loaded and nothing saved |
| EditProfile.EditProfileActivity.OnCreate | app/src/main/java/com/example/tvlimit/ui/EditProfileActivity.kt:59-65 | a missing id closes the screen; otherwise the profile with that id is loaded |
| EditProfile.EditProfileActivity.LoadProfile | app/src/main/java/com/example/tvlimit/ui/EditProfileActivity.kt:78-96 | the form shows the profile's values and its app list; nothing changes when the id is unknown |
| EditProfile.EditProfileActivity.OnAppsSelected | app/src/main/java/com/example/tvlimit/ui/EditProfileActivity.kt:37-43 | the chooser's result replaces the app list only when it finished with OK |
| EditProfile.EditProfileActivity.Save | app/src/main/java/com/example/tvlimit/ui/EditProfileActivity.kt:107-145 | a saved profile replaces its row, its id is announced and the screen closes; a rejected or unloaded form changes nothing |
| ProfileAdapter.TypeText | app/src/main/java/com/example/tvlimit/ui/ProfileAdapter.kt:44-45 | a card reads "Restricted Profile" exactly for restricted profiles and "Parent / Admin" otherwise |
| ProfileAdapter.LimitText | app/src/main/java/com/example/tvlimit/ui/ProfileAdapter.kt:47-48 | a limit reads "Unlimited" exactly when it is -1; any other limit reads as its decimal text followed by "m" |
| ProfileAdapter.LimitTextInjective | app/src/main/java/com/example/tvlimit/ui/ProfileAdapter.kt:47-48 | different limits never read the same |
| ProfileAdapter.LimitsLineDeterminesLimits | app/src/main/java/com/example/tvlimit/ui/ProfileAdapter.kt:47-50 | two cards with the same limits line have the same daily and session limits |
| ProfileAdapter.LimitsLine | app/src/main/java/com/example/tvlimit/ui/ProfileAdapter.kt:47-50 | the line is the daily label, the daily limit's text, the session label (`SessionLabel`), and after that exactly the session limit's text |
| ProfileAdapter.AreItemsTheSame | app/src/main/java/com/example/tvlimit/ui/ProfileAdapter.kt:55-57 | two rows are the same item exactly when their ids agree |
| ProfileAdapter.AreContentsTheSame | app/src/main/java/com/example/tvlimit/ui/ProfileAdapter.kt:59-61 | two rows have the same contents exactly when every field agrees |
| ProfileAdapter.ComparatorConsistent | app/src/main/java/com/example/tvlimit/ui/ProfileAdapter.kt:54-62 | equal contents imply the same item, both hold of a row and itself, and a same-id row has the same contents only when it is unchanged |
| ProfileAdapter.OnItemClicked | app/src/main/java/com/example/tvlimit/ui/ProfileAdapter.kt:33-37 | a click reports the row at its position, and nothing at `NO_POSITION` |
| AppSelection.PreSelected | app/src/main/java/com/example/tvlimit/ui/AppSelectionActivity.kt:34 | the pre-selection is the set of comma-separated pieces of the extra, or empty without one |
| AppSelection.FirstOf | app/src/main/java/com/example/tvlimit/ui/AppSelectionActivity.kt:59 | a package has a first activity exactly when it occurs, and that activity belongs to the package |
| AppSelection.DistinctFromDistinct | app/src/main/java/com/example/tvlimit/ui/AppSelectionActivity.kt:59 | `distinctBy` keeps no package twice |
| AppSelection.DistinctFrom | app/src/main/java/com/example/tvlimit/ui/AppSelectionActivity.kt:59 | `distinctBy` never lengthens the list; DistinctFromDistinct, DistinctFromPackages and DistinctFromFirsts state what it keeps |
| AppSelection.DistinctFromPackages | app/src/main/java/com/example/tvlimit/ui/AppSelectionActivity.kt:59 | `distinctBy` keeps every package |
| AppSelection.DistinctFromFirsts | app/src/main/java/com/example/tvlimit/ui/AppSelectionActivity.kt:59 | what `distinctBy` keeps of a package is its first activity |
| AppSelection.DistinctByPackage | app/src/main/java/com/example/tvlimit/ui/AppSelectionActivity.kt:59 | one activity per package, each the package's first, no package lost |
| AppSelection.ToItemsRows | app/src/main/java/com/example/tvlimit/ui/AppSelectionActivity.kt:61-70 | each row comes from an activity of another package and is ticked exactly when its package was pre-selected |
| AppSelection.ToItems | app/src/main/java/com/example/tvlimit/ui/AppSelectionActivity.kt:61-70 | `mapNotNull` never lengthens the list; ToItemsRows, ToItemsPackages and ToItemsDistinct state what it keeps |
| AppSelection.ToItemsPackages | app/src/main/java/com/example/tvlimit/ui/AppSelectionActivity.kt:61-70 | every package other than the app's own gets a row |
| AppSelection.ToItemsDistinct | app/src/main/java/com/example/tvlimit/ui/AppSelectionActivity.kt:59-70 | activities of distinct packages give rows of distinct packages |
| AppSelection.NameLeTotal | app/src/main/java/com/example/tvlimit/ui/AppSelectionActivity.kt:71 | any two names are ordered one way or the other |
| AppSelection.NameLeTransitive | app/src/main/java/com/example/tvlimit/ui/AppSelectionActivity.kt:71 | the name order is transitive |
| AppSelection.NameLeAntisymmetric | app/src/main/java/com/example/tvlimit/ui/AppSelectionActivity.kt:71 | names ordered both ways are equal |
| AppSelection.Insert | app/src/main/java/com/example/tvlimit/ui/AppSelectionActivity.kt:71 | inserting adds exactly the one row |
| AppSelection.InsertSorted | app/src/main/java/com/example/tvlimit/ui/AppSelectionActivity.kt:71 | inserting into a sorted list keeps it sorted |
| AppSelection.InsertDistinct | app/src/main/java/com/example/tvlimit/ui/AppSelectionActivity.kt:71 | inserting a new package keeps packages distinct |
| AppSelection.SortByName | app/src/main/java/com/example/tvlimit/ui/AppSelectionActivity.kt:71 | sorting is a permutation of the rows |
| AppSelection.SortByNameMembers | app/src/main/java/com/example/tvlimit/ui/AppSelectionActivity.kt:71 | the sorted list holds exactly the same rows and packages |
| AppSelection.SortByNameSorted | app/src/main/java/com/example/tvlimit/ui/AppSelectionActivity.kt:71 | the sorted rows are in name order |
| AppSelection.SortByNameDistinct | app/src/main/java/com/example/tvlimit/ui/AppSelectionActivity.kt:71 | sorting keeps packages distinct |
| AppSelection.BuildAppList | app/src/main/java/com/example/tvlimit/ui/AppSelectionActivity.kt:56-71 | the list has one row per package other than the app's own, shows that package's first activity, is ticked exactly when pre-selected, and is sorted by name |
| AppSelection.SelectedPackages | app/src/main/java/com/example/tvlimit/ui/AppSelectionActivity.kt:37 | the result names exactly the ticked packages, and with distinct packages it names each of them once |
| AppSelection.SelectedPackagesAppend | app/src/main/java/com/example/tvlimit/ui/AppSelectionActivity.kt:37 | the result keeps list order: the ticked packages of one part of the list come before those of the next |
| AppSelection.SelectedPackagesSet | app/src/main/java/com/example/tvlimit/ui/AppSelectionActivity.kt:37 | the names in the result are exactly the ticked set |
| AppSelection.ResultApps | app/src/main/java/com/example/tvlimit/ui/AppSelectionActivity.kt:36-41 | with nothing ticked the result is the empty text; an empty result means no non-empty package was ticked |
| AppSelection.SelectionRoundTrip | app/src/main/java/com/example/tvlimit/ui/AppSelectionActivity.kt:34-37 | reading a result back as a pre-selection gives exactly the ticked packages (no comma in a name); with nothing ticked it gives the one empty name |
| AppSelection.ReopenKeepsSelection | app/src/main/java/com/example/tvlimit/ui/AppSelectionActivity.kt:34-71 | reopening the chooser on its own result ticks exactly the packages ticked before |
| AppSelection.AppSelectionActivity.constructor | app/src/main/java/com/example/tvlimit/ui/AppSelectionActivity.kt:27-34 | the pre-selection is read from the extra and the list starts empty |
| AppSelection.AppSelectionActivity.LoadApps | app/src/main/java/com/example/tvlimit/ui/AppSelectionActivity.kt:73-75 | the list is cleared and refilled with the built list |
| AppSelection.AppSelectionActivity.SetSelected | app/src/main/java/com/example/tvlimit/ui/AppSelectionActivity.kt:76-78 | ticking changes that one row's flag and keeps the list sorted, distinct and free of the app itself |
| AppSelection.AppSelectionActivity.Done | app/src/main/java/com/example/tvlimit/ui/AppSelectionActivity.kt:36-41 | the result is the comma-join of the ticked packages, and the screen closes |

## Left out

- Android effects are left out: the overlay window and its views, `Toast`, the notification
  channel, and whether device-admin rights are granted (TimeTrackingService.kt:217-267,
  368-393). They appear only as emitted commands: `ShowOverlay`, `HideOverlay`,
  `CountdownTick`, `LockDevice` and `ClearPinInput`.
- Coroutines, `delay` and `CountDownTimer` are asynchronous in the app. Each event is modelled
  as one atomic step. For example, the Child reload in `handleScreenOff` runs in its own
  coroutine but is modelled as part of screen-off. The tick loop is a sequence of explicit
  `MinuteElapsed` ticks. The launched loop runs its first iteration without a delay, once the
  main thread picks the coroutine up (TimeTrackingService.kt:164-170). The model does not force
  that tick to come next: another event may come first, as on the main thread.
  StartThenFirstTick shows that a tick right after a start counts the first minute.
- The countdown is a counter of remaining milliseconds, 10 000 down to 0 in steps of 1000.
  Its finish leaves the overlay flag up, as the app does. A real timer's drift and skipped
  ticks are not modelled.
- Engine.RestRequired: does not model the 32-bit overflow of `rest × 60 × 1000` in the
  service (integers here are unbounded). A rest duration above about 35 791 minutes wraps
  in the app.
- ProfileSelection.DisplayedSession: does not model the 32-bit overflow of `rest × 60` in the
  chooser. At ProfileSelectionActivity.kt:67, `restDurationMinutes * 60` is computed as an
  `Int` before the multiplication by `1000L` widens it to `Long`. So a rest above 35 791 394
  minutes wraps in the app; the model computes the product unbounded.
- ProfileSelection.CarryOverMatchesRestGate: inherits both gaps. The service wraps the whole
  product `rest × 60 × 1000` in `Int` (TimeTrackingService.kt:155), so for a rest above about
  35 791 minutes, and the chooser only `rest × 60`, above 35 791 394 minutes. Between those
  bounds the two disagree in the app, while in the model they agree for every rest duration.
- Engine.TickStep: the daily counter is not reset when the date changes. This is modelled
  as the app does it; see DailyCounterCarriesOverMidnight.
- `onDestroy`'s extra asynchronous `updateUsage` (TimeTrackingService.kt:399-406) is
  lifecycle teardown and is not modelled.
- The service's handlers for the profile-changed and profile-updated broadcasts are not in
  the service source. The chooser's `switchToProfile` and the editor's save are modelled up
  to the id they announce (`PinDialog.announced`, `EditProfileActivity.notices`). The
  row the editor writes reaches the service as the `ProfilesEdited` event. The service's copy
  of the active profile stays as loaded until its next lookup by name.
- The shared-preference keys `last_session_end_time_<id>` and `session_usage_<id>` are never
  written by the service shown, so the chooser takes them as an input (`Prefs`).
- Profile.kt has no `restrictedApps` column, yet the editor reads and writes one. It is
  modelled as an optional string on `Profile`.
- The profile table is a sequence of rows. `getProfileByName` (`LIMIT 1`) and
  `getProfileById` answer the first matching row. SQLite promises no particular row, so the
  model fixes one choice.
- `Text.ParseInt`: `toIntOrNull` accepts only ASCII digits here. Kotlin also accepts other
  Unicode decimal digits.
- AppSelection.NameLe: names compare by Unicode code point. Kotlin compares UTF-16 code
  units, so characters outside the Basic Multilingual Plane can sort differently.
- AppSelection.SortByName: `sortedBy` is stable. The insertion sort here is stable too, but
  stability is not stated.
- App icons and the package-manager queries are left out. The two lists of resolved
  activities are parameters; an icon has no bearing on the list.
- The rows of the app list are values, so the adapter's in-place flag update on a shared
  `AppItem` (AppSelectionActivity.kt:76-78) is modelled as replacing that row.
- Views, layouts and listeners of the three screens are left out, as are `MainActivity`,
  `AdminActivity`, `AppBlockedActivity`, `AppAdapter`, and both receivers.
- `checkLimits` treats a limit as set only when it is `> -1`, so any negative limit means
  unlimited (TimeTrackingService.kt:206-207); `LimitReached` states this.
- The service has no foreground/background event, so the model has none.
