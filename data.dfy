/**
 * The persistent data of the app: the `profiles` table, the `usage_logs`
 * table and the two rows seeded when the database is first created.
 * The tables are values here; the DAO queries are functions over them.
 */
module Data {
  import opened Text

  /** A calendar day as `LocalDate.toString()` prints it (ISO-8601). */
  type Date = string

  /** A row of the `profiles` table. `restrictedApps` is the comma-separated
      package list the edit screen reads and writes. */
  datatype Profile = Profile(
    id: int,
    name: string,
    isRestricted: bool,
    pin: Option<string>,
    dailyLimitMinutes: int,
    sessionLimitMinutes: int,
    restDurationMinutes: int,
    restrictedApps: Option<string>)

  /** The `usage_logs` table: total minutes used, keyed by (profile id, day). */
  type Ledger = map<(int, Date), int>

  const ChildName: string := "Child"
  const ParentName: string := "Parent"

  /** The rows inserted when the database is created, in insertion order. */
  function SeedProfiles(): (rows: seq<Profile>)
    ensures |rows| == 2
    ensures rows[0].name == ChildName && rows[1].name == ParentName
  {
    [ Profile(1, ChildName, true, Some("0000"), 120, 45, 15, None),
      Profile(2, ParentName, false, Some("1234"), -1, -1, 0, None) ]
  }

  /** `getProfileByName(name)`: the first row carrying that name, if any. */
  function ProfileByName(rows: seq<Profile>, name: string): (r: Option<Profile>)
    ensures r.None? <==> forall i :: 0 <= i < |rows| ==> rows[i].name != name
    ensures r.Some? ==> exists i :: 0 <= i < |rows| && rows[i] == r.value
    ensures r.Some? ==> r.value.name == name
  {
    if |rows| == 0 then None
    else if rows[0].name == name then Some(rows[0])
    else ProfileByName(rows[1..], name)
  }

  /** `getProfileById(id)`: the row with that primary key, if any. */
  function ProfileById(rows: seq<Profile>, id: int): (r: Option<Profile>)
    ensures r.None? <==> forall i :: 0 <= i < |rows| ==> rows[i].id != id
    ensures r.Some? ==> exists i :: 0 <= i < |rows| && rows[i] == r.value
    ensures r.Some? ==> r.value.id == id
  {
    if |rows| == 0 then None
    else if rows[0].id == id then Some(rows[0])
    else ProfileById(rows[1..], id)
  }

  /** `updateProfile(p)`: every row whose key is `p.id` is replaced by `p`. */
  function UpdateProfile(rows: seq<Profile>, p: Profile): (r: seq<Profile>)
    ensures |r| == |rows|
    ensures forall i :: 0 <= i < |rows| ==> r[i] == if rows[i].id == p.id then p else rows[i]
  {
    if |rows| == 0 then [] else [if rows[0].id == p.id then p else rows[0]] + UpdateProfile(rows[1..], p)
  }

  /** After an update, looking the profile up by its id finds the new row,
      as long as a row with that id existed. */
  lemma {:induction false} UpdateThenFind(rows: seq<Profile>, p: Profile)
    requires ProfileById(rows, p.id).Some?
    ensures ProfileById(UpdateProfile(rows, p), p.id) == Some(p)
  {
    if rows[0].id != p.id {
      UpdateThenFind(rows[1..], p);
      assert UpdateProfile(rows, p)[1..] == UpdateProfile(rows[1..], p);
    }
  }

  /** `getUsageLog(id, day)?.totalUsageMinutes ?: 0`. */
  function UsageOf(ledger: Ledger, profileId: int, day: Date): (minutes: int)
    ensures (profileId, day) !in ledger ==> minutes == 0
    ensures (profileId, day) in ledger ==> minutes == ledger[(profileId, day)]
  {
    if (profileId, day) in ledger then ledger[(profileId, day)] else 0
  }

  /** Writing a day's total: `insertUsageLog` when the day has no record yet,
      `updateUsageMinutes` on that same record otherwise. On a map both are
      the same write. */
  function RecordUsage(ledger: Ledger, profileId: int, day: Date, minutes: int): (r: Ledger)
    ensures UsageOf(r, profileId, day) == minutes
    ensures r.Keys == ledger.Keys + {(profileId, day)}
    ensures forall k :: k in ledger && k != (profileId, day) ==> r[k] == ledger[k]
  {
    ledger[(profileId, day) := minutes]
  }
}
