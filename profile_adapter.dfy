/**
 * The profile list's adapter (`ProfileAdapter`): the texts of a profile's
 * card, the list differ's two comparisons, and the click on a card.
 */
module ProfileAdapter {
  import opened Text
  import opened Data

  /** `RecyclerView.NO_POSITION`. */
  const NoPosition: int := -1

  function TypeText(p: Profile): (r: string)
    ensures r == "Restricted Profile" <==> p.isRestricted
    ensures r == "Parent / Admin" <==> !p.isRestricted
  {
    if p.isRestricted then "Restricted Profile" else "Parent / Admin"
  }

  /** A limit as the card shows it: "Unlimited" for -1, otherwise "<n>m". */
  function LimitText(minutes: int): (r: string)
    ensures r == "Unlimited" <==> minutes == -1
    ensures minutes != -1 ==> |r| >= 2 && r[|r| - 1] == 'm' && ParseDecimal(r[..|r| - 1]) == Some(minutes)
    ensures minutes != -1 ==> r[..|r| - 1] == IntToString(minutes)
    ensures ' ' !in r
  {
    if minutes == -1 then "Unlimited"
    else
      var r := IntToString(minutes) + "m";
      assert r[|r| - 1] == 'm' != "Unlimited"[8];
      assert r[..|r| - 1] == IntToString(minutes);
      ParseDecimalOfIntToString(minutes);
      r
  }

  /** Different limits never read the same. */
  lemma LimitTextInjective(a: int, b: int)
    requires LimitText(a) == LimitText(b)
    ensures a == b
  {
    if a != -1 && b != -1 {
      var ta, tb := IntToString(a), IntToString(b);
      assert ta + "m" == tb + "m";
      assert |ta| == |tb|;
      assert ta == (ta + "m")[..|ta|] == (tb + "m")[..|tb|] == tb;
      IntToStringInjective(a, b);
    }
  }

  const DailyLabel: string := "Daily: "
  const SessionLabel: string := " | Session: "

  /** `tvLimits`: "Daily: <daily> | Session: <session>". */
  function LimitsLine(p: Profile): (r: string)
    ensures DailyLabel <= r
    ensures DailyLabel + LimitText(p.dailyLimitMinutes) + SessionLabel <= r
    ensures r[|DailyLabel| + |LimitText(p.dailyLimitMinutes)| + |SessionLabel|..] == LimitText(p.sessionLimitMinutes)
    ensures |r| > |DailyLabel| + |SessionLabel| + |LimitText(p.dailyLimitMinutes)|
  {
    DailyLabel + LimitText(p.dailyLimitMinutes) + SessionLabel + LimitText(p.sessionLimitMinutes)
  }

  /** The limits line determines both limits: two profiles whose lines read
      the same have the same daily and session limits. */
  lemma LimitsLineDeterminesLimits(p: Profile, q: Profile)
    requires LimitsLine(p) == LimitsLine(q)
    ensures p.dailyLimitMinutes == q.dailyLimitMinutes
    ensures p.sessionLimitMinutes == q.sessionLimitMinutes
  {
    var dp, dq := LimitText(p.dailyLimitMinutes), LimitText(q.dailyLimitMinutes);
    var sp, sq := LimitText(p.sessionLimitMinutes), LimitText(q.sessionLimitMinutes);
    assert SessionLabel[0] == ' ';
    Unjoin(DailyLabel, SessionLabel, dp, sp, dq, sq);
    LimitTextInjective(p.dailyLimitMinutes, q.dailyLimitMinutes);
    LimitTextInjective(p.sessionLimitMinutes, q.sessionLimitMinutes);
  }

  /** Splitting `pre + x + mid + y` back into its space-free word `x` and its
      tail `y`, when `mid` starts with a space. */
  lemma Unjoin(pre: string, mid: string, x: string, y: string, x': string, y': string)
    requires ' ' !in x && ' ' !in x' && |mid| > 0 && mid[0] == ' '
    requires pre + x + mid + y == pre + x' + mid + y'
    ensures x == x' && y == y'
  {
    assert pre + x + mid + y == pre + (x + (mid + y));
    assert pre + x' + mid + y' == pre + (x' + (mid + y'));
    PrefixCancel(pre, x + (mid + y), x' + (mid + y'));
    SpaceFreePrefix(x, mid + y, x', mid + y');
    PrefixCancel(x, mid + y, mid + y');
    PrefixCancel(mid, y, y');
  }

  lemma PrefixCancel(pre: string, x: string, y: string)
    requires pre + x == pre + y
    ensures x == y
  {
    assert x == (pre + x)[|pre|..];
    assert y == (pre + y)[|pre|..];
  }

  /** Two space-free words followed by texts that start with a space: if the
      concatenations agree, the words do. */
  lemma SpaceFreePrefix(a: string, b: string, a': string, b': string)
    requires ' ' !in a && ' ' !in a'
    requires |b| > 0 && |b'| > 0 && b[0] == ' ' && b'[0] == ' '
    requires a + b == a' + b'
    ensures a == a'
  {
    ConcatAt(a, b);
    ConcatAt(a', b');
    assert a == (a + b)[..|a|];
    assert a' == (a' + b')[..|a'|];
  }

  /** The characters of `a + b` at and before the seam. */
  lemma ConcatAt(a: string, b: string)
    ensures |b| > 0 ==> (a + b)[|a|] == b[0]
    ensures forall k :: 0 <= k < |a| ==> (a + b)[k] == a[k] && a[k] in a
  {
  }

  /** `ProfileComparator.areItemsTheSame`: the same profile, by id. */
  function AreItemsTheSame(a: Profile, b: Profile): (r: bool)
    ensures r <==> a.id == b.id
  {
    a.id == b.id
  }

  /** `ProfileComparator.areContentsTheSame`: every field equal. */
  function AreContentsTheSame(a: Profile, b: Profile): (r: bool)
    ensures r <==> a.id == b.id && a.name == b.name && a.isRestricted == b.isRestricted && a.pin == b.pin
                   && a.dailyLimitMinutes == b.dailyLimitMinutes && a.sessionLimitMinutes == b.sessionLimitMinutes
                   && a.restDurationMinutes == b.restDurationMinutes && a.restrictedApps == b.restrictedApps
  {
    a == b
  }

  /** The differ's contract: equal contents imply the same item, and a
      profile edited in place (same id) is the same item with new contents
      exactly when something on it changed. */
  lemma ComparatorConsistent(a: Profile, b: Profile)
    ensures AreContentsTheSame(a, b) ==> AreItemsTheSame(a, b)
    ensures AreItemsTheSame(a, a) && AreContentsTheSame(a, a)
    ensures AreItemsTheSame(a, b) ==> (AreContentsTheSame(a, b) <==> a == b)
  {
  }

  /** A click on a card: the profile at the adapter position, none at `NO_POSITION`. */
  function OnItemClicked(position: int, items: seq<Profile>): (r: Option<Profile>)
    requires position == NoPosition || 0 <= position < |items|
    ensures r.None? <==> position == NoPosition
    ensures r.Some? ==> r.value == items[position]
  {
    if position != NoPosition then Some(items[position]) else None
  }
}
