/**
 * The profile chooser (`ProfileSelectionActivity`): the usage shown on each
 * profile's card, what a click on a card does, and the PIN dialog.
 */
module ProfileSelection {
  import opened Text
  import opened Data
  import Engine

  /** A card of the chooser. */
  datatype ProfileWithUsage = ProfileWithUsage(profile: Profile, dailyUsage: int, sessionUsage: int)

  /** The per-profile values the chooser reads from the shared preferences
      (`last_session_end_time_<id>`, `session_usage_<id>`); a missing key reads as 0. */
  datatype Prefs = Prefs(lastSessionEnd: map<int, int>, sessionUsage: map<int, int>)

  function PrefOrZero(m: map<int, int>, id: int): int
  {
    if id in m then m[id] else 0
  }

  /** The session usage a card shows: the stored value, unless a session end
      is stored and the profile's rest duration has fully passed since. */
  function DisplayedSession(stored: int, lastEnd: int, now: int, restMinutes: int): (r: int)
    ensures r == 0 || r == stored
    ensures lastEnd <= 0 ==> r == stored
  {
    var currentSession :=
      if lastEnd > 0 then
        var elapsed := now - lastEnd;
        var restDurationMs := restMinutes * 60 * 1000;
        if elapsed < restDurationMs then stored else 0
      else stored;
    currentSession
  }

  /** The three cases of the carry-over rule. */
  lemma DisplayedSessionCases(stored: int, lastEnd: int, now: int, restMinutes: int)
    ensures lastEnd == 0 ==> DisplayedSession(stored, lastEnd, now, restMinutes) == stored
    ensures lastEnd > 0 && now - lastEnd < restMinutes * Engine.MillisPerMinute ==>
              DisplayedSession(stored, lastEnd, now, restMinutes) == stored
    ensures lastEnd > 0 && now - lastEnd >= restMinutes * Engine.MillisPerMinute ==>
              DisplayedSession(stored, lastEnd, now, restMinutes) == 0
  {
  }

  /** For a restricted profile with a stored session end, a card keeps showing
      the stored session exactly while the service would still demand rest
      before tracking that profile again. */
  lemma CarryOverMatchesRestGate(p: Profile, stored: int, lastEnd: int, now: int)
    requires p.isRestricted && lastEnd > 0 && stored != 0
    ensures DisplayedSession(stored, lastEnd, now, p.restDurationMinutes) == stored
            <==> Engine.RestRequired(Some(p), lastEnd, now)
  {
  }

  /** The card of one profile. */
  function Card(p: Profile, ledger: Ledger, prefs: Prefs, today: Date, now: int): (r: ProfileWithUsage)
    ensures r.profile == p
    ensures (p.id, today) in ledger ==> r.dailyUsage == ledger[(p.id, today)]
    ensures (p.id, today) !in ledger ==> r.dailyUsage == 0
    ensures r.sessionUsage == 0 || r.sessionUsage == PrefOrZero(prefs.sessionUsage, p.id)
    ensures p.id !in prefs.sessionUsage ==> r.sessionUsage == 0
    ensures p.id !in prefs.lastSessionEnd ==> r.sessionUsage == PrefOrZero(prefs.sessionUsage, p.id)
  {
    var dailyUsage := UsageOf(ledger, p.id, today);
    var session := DisplayedSession(PrefOrZero(prefs.sessionUsage, p.id),
                                    PrefOrZero(prefs.lastSessionEnd, p.id), now, p.restDurationMinutes);
    ProfileWithUsage(p, dailyUsage, session)
  }

  /** The cards of `loadProfiles`, one per profile, in table order. */
  function Cards(profiles: seq<Profile>, ledger: Ledger, prefs: Prefs, today: Date, now: int): (r: seq<ProfileWithUsage>)
    ensures |r| == |profiles|
    ensures forall i :: 0 <= i < |r| ==> r[i] == Card(profiles[i], ledger, prefs, today, now)
  {
    if |profiles| == 0 then []
    else [Card(profiles[0], ledger, prefs, today, now)] + Cards(profiles[1..], ledger, prefs, today, now)
  }

  /** A card's daily usage is the stored total for today (0 without a record),
      the same number the service counts from once it switches to that profile. */
  lemma CardDailyMatchesService(profiles: seq<Profile>, ledger: Ledger, prefs: Prefs, today: Date, now: int,
                                i: int, s: Engine.State)
    requires 0 <= i < |profiles| && s.ledger == ledger
    ensures var card := Cards(profiles, ledger, prefs, today, now)[i];
            card.profile == profiles[i]
            && card.dailyUsage == Engine.Loaded(s.(current := Some(profiles[i])), today).daily
            && ((profiles[i].id, today) !in ledger ==> card.dailyUsage == 0)
  {
  }

  /** What a click on a card does: switch at once, or ask for the PIN first. */
  datatype ClickAction = SwitchTo(profileId: int) | AskPin(profile: Profile)

  function OnProfileClicked(p: Profile): (r: ClickAction)
    ensures r.SwitchTo? <==> p.isRestricted
    ensures r.SwitchTo? ==> r.profileId == p.id
    ensures r.AskPin? ==> r.profile == p
  {
    if !p.isRestricted then AskPin(p) else SwitchTo(p.id)
  }

  /** The dialog's check: the typed PIN equals the stored one (a null PIN matches nothing). */
  function PinAccepted(p: Profile, typed: string): (r: bool)
    ensures p.pin.None? ==> !r
    ensures r ==> p.pin == Some(typed)
    ensures r <==> p.pin.Some? && p.pin.value == typed
  {
    p.pin == Some(typed)
  }

  /** `LengthFilter(4)`: a character typed into a full field is dropped. */
  const PinLength: nat := 4

  function Typed(input: string, c: char): (r: string)
    ensures |input| < PinLength ==> r == input + [c]
    ensures |input| >= PinLength ==> r == input
  {
    if |input| < PinLength then input + [c] else input
  }

  /** The PIN dialog opened for an unrestricted profile. */
  class PinDialog {
    const profile: Profile
    var input: string
    var dismissed: bool
    /** The profile ids announced by `switchToProfile`, oldest first. */
    var announced: seq<int>

    ghost predicate Valid()
      reads this
    {
      |input| <= PinLength && (!dismissed ==> |input| < PinLength)
    }

    constructor (profile: Profile)
      ensures Valid() && this.profile == profile
      ensures input == "" && !dismissed && announced == []
    {
      this.profile := profile;
      input := "";
      dismissed := false;
      announced := [];
    }

    /** A key pressed in the field, followed by `afterTextChanged`. */
    method KeyTyped(c: char)
      requires Valid()
      modifies this
      ensures Valid()
      ensures old(dismissed) ==> input == old(input) && dismissed && announced == old(announced)
      ensures !old(dismissed) && |old(input)| + 1 < PinLength ==>
                input == old(input) + [c] && !dismissed && announced == old(announced)
      ensures !old(dismissed) && |old(input)| + 1 == PinLength && PinAccepted(profile, old(input) + [c]) ==>
                input == old(input) + [c] && dismissed && announced == old(announced) + [profile.id]
      ensures !old(dismissed) && |old(input)| + 1 == PinLength && !PinAccepted(profile, old(input) + [c]) ==>
                input == "" && !dismissed && announced == old(announced)
    {
      if dismissed { return; }
      input := Typed(input, c);
      if |input| == PinLength {
        var correct := PinAccepted(profile, input);
        if correct {
          announced := announced + [profile.id];
          dismissed := true;
        } else {
          input := "";
        }
      }
    }
  }

  /** A profile without a PIN can never be chosen through the dialog, whatever is typed. */
  lemma NoPinNeverAccepted(p: Profile, typed: string)
    requires p.pin.None?
    ensures !PinAccepted(p, typed)
  {
  }

  /** Only a four-character PIN can get through: the dialog checks at length
      four, and a stored PIN of any other length never matches. */
  lemma OnlyFourDigitPinsUnlock(p: Profile, typed: string)
    requires |typed| == PinLength && PinAccepted(p, typed)
    ensures p.pin.Some? && |p.pin.value| == PinLength
  {
  }
}
