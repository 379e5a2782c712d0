/**
 * The profile editor (`EditProfileActivity`): loading a profile into the
 * form, counting its restricted apps, and saving the form back.
 */
module EditProfile {
  import opened Text
  import opened Data
  import opened AppSelection

  /** The texts of the form's fields and the state of its check box. */
  datatype ProfileForm = ProfileForm(
    name: string,
    pin: string,
    restricted: bool,
    dailyText: string,
    sessionText: string,
    restText: string)

  /** What pressing "Save" does. */
  datatype SaveOutcome =
    | Rejected             // "Unrestricted profiles MUST have a PIN"; nothing written
    | NothingLoaded        // the profile has not been loaded (yet): nothing happens
    | Saved(profile: Profile)

  /** `toIntOrNull() ?: fallback`. */
  function IntOr(text: string, fallback: int): (r: int)
    ensures ParseInt(text).Some? ==> r == ParseInt(text).value
    ensures ParseInt(text).None? ==> r == fallback
  {
    match ParseInt(text)
    case Some(v) => v
    case None => fallback
  }

  /** `saveProfile`: reject an unrestricted profile without a PIN; otherwise
      copy the loaded profile with the form's values (an empty PIN is stored
      as null, unreadable limits as -1, an unreadable rest as 0). */
  function SaveProfile(loaded: Option<Profile>, form: ProfileForm, restrictedApps: Option<string>): (r: SaveOutcome)
    ensures r.Rejected? <==> !form.restricted && form.pin == ""
    ensures r.NothingLoaded? <==> (form.restricted || form.pin != "") && loaded.None?
    ensures r.Saved? ==>
              var old_ := loaded.value;
              var p := r.profile;
              p.id == old_.id && p.name == old_.name
              && p.pin == (if form.pin == "" then None else Some(form.pin))
              && p.isRestricted == form.restricted
              && p.dailyLimitMinutes == IntOr(form.dailyText, -1)
              && p.sessionLimitMinutes == IntOr(form.sessionText, -1)
              && p.restDurationMinutes == IntOr(form.restText, 0)
              && p.restrictedApps == restrictedApps
  {
    var pin := form.pin;
    var restricted := form.restricted;
    var daily := IntOr(form.dailyText, -1);
    var session := IntOr(form.sessionText, -1);
    var rest := IntOr(form.restText, 0);
    if !restricted && |pin| == 0 then Rejected
    else match loaded
      case None => NothingLoaded
      case Some(oldProfile) =>
        Saved(oldProfile.(pin := if |pin| == 0 then None else Some(pin),
                          isRestricted := restricted,
                          dailyLimitMinutes := daily,
                          sessionLimitMinutes := session,
                          restDurationMinutes := rest,
                          restrictedApps := restrictedApps))
  }

  /** A saved profile always satisfies the credential rule: an unrestricted
      profile carries a non-empty PIN, and a PIN is never stored empty. */
  lemma SavedProfileHasCredential(loaded: Option<Profile>, form: ProfileForm, apps: Option<string>)
    requires SaveProfile(loaded, form, apps).Saved?
    ensures var p := SaveProfile(loaded, form, apps).profile;
            (p.isRestricted || p.pin.Some?) && (p.pin.Some? ==> p.pin.value != "")
            && IntMin <= p.dailyLimitMinutes <= IntMax && IntMin <= p.sessionLimitMinutes <= IntMax
  {
  }

  /** `loadProfile`: the texts the form shows for a profile. */
  function FormOf(p: Profile): (r: ProfileForm)
    ensures r.name == p.name && r.restricted == p.isRestricted
    ensures p.pin.Some? ==> r.pin == p.pin.value
    ensures p.pin.None? ==> r.pin == ""
    ensures ParseDecimal(r.dailyText) == Some(p.dailyLimitMinutes)
    ensures ParseDecimal(r.sessionText) == Some(p.sessionLimitMinutes)
    ensures ParseDecimal(r.restText) == Some(p.restDurationMinutes)
  {
    ParseDecimalOfIntToString(p.dailyLimitMinutes);
    ParseDecimalOfIntToString(p.sessionLimitMinutes);
    ParseDecimalOfIntToString(p.restDurationMinutes);
    ProfileForm(p.name, if p.pin.Some? then p.pin.value else "", p.isRestricted,
                IntToString(p.dailyLimitMinutes), IntToString(p.sessionLimitMinutes),
                IntToString(p.restDurationMinutes))
  }

  /** A profile as the editor itself writes it: no empty PIN, a PIN when
      unrestricted, and numbers in Kotlin's `Int` range. */
  predicate Storable(p: Profile)
  {
    (p.pin.Some? ==> p.pin.value != "") && (p.isRestricted || p.pin.Some?)
    && IntMin <= p.dailyLimitMinutes <= IntMax
    && IntMin <= p.sessionLimitMinutes <= IntMax
    && IntMin <= p.restDurationMinutes <= IntMax
  }

  /** Opening a profile and saving the form untouched writes the same profile back. */
  lemma SaveUntouchedFormKeepsProfile(p: Profile)
    requires Storable(p)
    ensures SaveProfile(Some(p), FormOf(p), p.restrictedApps) == Saved(p)
  {
    ParseIntOfIntToString(p.dailyLimitMinutes);
    ParseIntOfIntToString(p.sessionLimitMinutes);
    ParseIntOfIntToString(p.restDurationMinutes);
  }

  /** A number typed beyond Kotlin's `Int` range does not parse: a limit is
      then saved as "unlimited" (-1) and the rest duration as 0. */
  lemma OutOfRangeLimitBecomesUnlimited(p: Profile, form: ProfileForm, apps: Option<string>)
    requires form.restricted || form.pin != ""
    ensures var d := ParseDecimal(form.dailyText);
            d.Some? && !(IntMin <= d.value <= IntMax) ==>
              SaveProfile(Some(p), form, apps).profile.dailyLimitMinutes == -1
    ensures var d := ParseDecimal(form.sessionText);
            d.Some? && !(IntMin <= d.value <= IntMax) ==>
              SaveProfile(Some(p), form, apps).profile.sessionLimitMinutes == -1
    ensures var d := ParseDecimal(form.restText);
            d.Some? && !(IntMin <= d.value <= IntMax) ==>
              SaveProfile(Some(p), form, apps).profile.restDurationMinutes == 0
  {
  }

  /** For instance, a daily limit of three thousand million minutes. */
  lemma TenDigitLimitBecomesUnlimited(p: Profile, form: ProfileForm, apps: Option<string>)
    requires form.restricted && form.dailyText == "3" + Zeros(9)
    ensures SaveProfile(Some(p), form, apps).profile.dailyLimitMinutes == -1
  {
    OneDigitThenZeros('3', 9);
    assert Pow10(9) == 1000000000;
    OutOfRangeLimitBecomesUnlimited(p, form, apps);
  }

  function Zeros(k: nat): (z: string)
    ensures |z| == k && AllDigits(z)
  {
    if k == 0 then "" else Zeros(k - 1) + "0"
  }

  function Pow10(k: nat): nat
  {
    if k == 0 then 1 else 10 * Pow10(k - 1)
  }

  lemma {:induction false} OneDigitThenZeros(d: char, k: nat)
    requires IsDigit(d)
    ensures AllDigits([d] + Zeros(k))
    ensures DigitsValue([d] + Zeros(k)) == (d as int - '0' as int) * Pow10(k)
  {
    if k > 0 {
      OneDigitThenZeros(d, k - 1);
      var s := [d] + Zeros(k);
      assert s == ([d] + Zeros(k - 1)) + "0";
      assert s[..|s| - 1] == [d] + Zeros(k - 1);
    }
  }

  /** The number of restricted apps: the non-empty pieces of the comma-separated list. */
  function RestrictedAppCount(apps: Option<string>): (n: nat)
    ensures apps.None? ==> n == 0
    ensures apps == Some("") ==> n == 0
  {
    match apps
    case None => 0
    case Some(s) => NonEmptyCount(Split(s, ','))
  }

  function NonEmptyCount(pieces: seq<string>): (n: nat)
    ensures n <= |pieces|
    ensures n == 0 <==> forall i :: 0 <= i < |pieces| ==> pieces[i] == ""
  {
    if |pieces| == 0 then 0
    else (if pieces[0] != "" then 1 else 0) + NonEmptyCount(pieces[1..])
  }

  /** The summary line under "Manage apps". */
  function RestrictedAppsSummary(apps: Option<string>): (r: string)
    ensures RestrictedAppCount(apps) == 0 ==> r == "No apps restricted"
    ensures RestrictedAppCount(apps) > 0 ==> IntToString(RestrictedAppCount(apps)) <= r && IsDigit(r[0])
  {
    var count := RestrictedAppCount(apps);
    if count == 0 then "No apps restricted" else IntToString(count) + " apps restricted"
  }

  /** The summary says "No apps restricted" exactly when no app is listed. */
  lemma SummaryEmptyExactlyWhenNoApps(apps: Option<string>)
    ensures RestrictedAppsSummary(apps) == "No apps restricted" <==> RestrictedAppCount(apps) == 0
  {
    var count := RestrictedAppCount(apps);
    if count != 0 {
      var text := IntToString(count) + " apps restricted";
      assert text[0] == IntToString(count)[0];
      assert IsDigit(text[0]);
      assert "No apps restricted"[0] == 'N';
    }
  }

  /** A list written by the app chooser (package names joined with commas)
      counts exactly its packages. */
  lemma CountOfJoinedList(names: seq<string>)
    requires forall i :: 0 <= i < |names| ==> names[i] != "" && ',' !in names[i]
    ensures RestrictedAppCount(Some(Join(names, ','))) == |names|
  {
    if |names| > 0 {
      SplitJoin(names, ',');
      AllNonEmptyCount(names);
    }
  }

  /** What the editor counts for the chooser's result is the number of
      packages ticked there, when package names are non-empty, comma-free
      and distinct. */
  lemma ChooserResultCount(items: seq<AppItem>)
    requires DistinctPackages(items)
    requires forall it :: it in items ==> it.packageName != "" && ',' !in it.packageName
    ensures RestrictedAppCount(Some(ResultApps(items))) == |SelectedSet(items)|
  {
    var names := SelectedPackages(items);
    forall i | 0 <= i < |names| ensures names[i] != "" && ',' !in names[i] {
      assert names[i] in names;
    }
    CountOfJoinedList(names);
  }

  lemma {:induction false} AllNonEmptyCount(pieces: seq<string>)
    requires forall i :: 0 <= i < |pieces| ==> pieces[i] != ""
    ensures NonEmptyCount(pieces) == |pieces|
  {
    if |pieces| > 0 {
      AllNonEmptyCount(pieces[1..]);
    }
  }

  /** The editor screen: the id it was opened with, the loaded profile, the
      app list being edited, and what it has written and announced. */
  class EditProfileActivity {
    var store: seq<Profile>
    var profileId: int
    var currentProfile: Option<Profile>
    var restrictedApps: Option<string>
    var finished: bool
    /** The ids sent with the profile-updated notice, oldest first. */
    var notices: seq<int>

    constructor (store: seq<Profile>)
      ensures this.store == store && profileId == -1 && currentProfile.None?
      ensures restrictedApps.None? && !finished && notices == []
    {
      this.store := store;
      profileId := -1;
      currentProfile := None;
      restrictedApps := None;
      finished := false;
      notices := [];
    }

    /** `onCreate` with the `PROFILE_ID` extra (-1 when absent): a missing id
        closes the screen without loading anything. */
    method OnCreate(extraId: int) returns (form: Option<ProfileForm>)
      modifies this
      ensures profileId == extraId && store == old(store) && notices == old(notices)
      ensures extraId == -1 ==> finished && form.None?
                                && currentProfile == old(currentProfile) && restrictedApps == old(restrictedApps)
      ensures extraId != -1 ==> finished == old(finished) && currentProfile == ProfileById(store, extraId)
      ensures extraId != -1 && currentProfile.Some? ==>
                restrictedApps == currentProfile.value.restrictedApps && form == Some(FormOf(currentProfile.value))
      ensures extraId != -1 && currentProfile.None? ==> restrictedApps == old(restrictedApps) && form.None?
    {
      profileId := extraId;
      form := None;
      if profileId != -1 {
        form := LoadProfile(profileId);
      } else {
        finished := true;
      }
    }

    method LoadProfile(id: int) returns (form: Option<ProfileForm>)
      modifies this`currentProfile, this`restrictedApps
      ensures currentProfile == ProfileById(store, id)
      ensures currentProfile.Some? ==> restrictedApps == currentProfile.value.restrictedApps
                                       && form == Some(FormOf(currentProfile.value))
      ensures currentProfile.None? ==> restrictedApps == old(restrictedApps) && form.None?
    {
      currentProfile := ProfileById(store, id);
      form := None;
      if currentProfile.Some? {
        var profile := currentProfile.value;
        restrictedApps := profile.restrictedApps;
        form := Some(FormOf(profile));
      }
    }

    /** The app chooser's result: taken only when it finished with OK. */
    method OnAppsSelected(resultOk: bool, selected: Option<string>)
      modifies this`restrictedApps
      ensures restrictedApps == if resultOk then selected else old(restrictedApps)
    {
      if resultOk {
        restrictedApps := selected;
      }
    }

    /** "Save": write the new row, announce its id, close the screen. */
    method Save(form: ProfileForm) returns (outcome: SaveOutcome)
      modifies this
      ensures outcome == SaveProfile(old(currentProfile), form, old(restrictedApps))
      ensures outcome.Saved? ==> store == UpdateProfile(old(store), outcome.profile)
                                 && notices == old(notices) + [outcome.profile.id] && finished
      ensures !outcome.Saved? ==> store == old(store) && notices == old(notices) && finished == old(finished)
      ensures currentProfile == old(currentProfile) && restrictedApps == old(restrictedApps)
      ensures profileId == old(profileId)
    {
      outcome := SaveProfile(currentProfile, form, restrictedApps);
      if outcome.Saved? {
        var newProfile := outcome.profile;
        store := UpdateProfile(store, newProfile);
        notices := notices + [newProfile.id];
        finished := true;
      }
    }
  }
}
