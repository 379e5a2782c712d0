/**
 * The few Kotlin standard-library string operations the app relies on:
 * `split(",")`, `joinToString(",")`, `Int.toString()` and `String.toIntOrNull()`.
 * Characters are compared as Dafny chars; only ASCII digits count as digits.
 */
module Text {

  datatype Option<+T> = None | Some(value: T)

  /** Kotlin's `Int` range: `toIntOrNull` answers null outside it. */
  const IntMin: int := -0x8000_0000
  const IntMax: int := 0x7fff_ffff

  /** `s.split(sep)` for a one-character delimiter: every delimiter cuts,
      empty pieces are kept, and the empty string gives one empty piece. */
  function Split(s: string, sep: char): (r: seq<string>)
    ensures |r| >= 1
    ensures forall i :: 0 <= i < |r| ==> sep !in r[i]
  {
    if |s| == 0 then [""]
    else
      var rest := Split(s[1..], sep);
      if s[0] == sep then [""] + rest
      else [[s[0]] + rest[0]] + rest[1..]
  }

  /** `xs.joinToString(sep.toString())`. */
  function Join(xs: seq<string>, sep: char): (r: string)
    ensures |xs| == 0 ==> r == ""
    ensures |xs| >= 1 ==> xs[0] <= r
    ensures |xs| >= 2 ==> |r| > |xs[0]| && r[|xs[0]|] == sep
    ensures sep in r <==> |xs| >= 2 || (|xs| == 1 && sep in xs[0])
  {
    if |xs| == 0 then ""
    else if |xs| == 1 then xs[0]
    else
      var r := xs[0] + [sep] + Join(xs[1..], sep);
      assert r[|xs[0]|] == sep;
      r
  }

  /** Splitting a piece that holds no delimiter in front of `t` only extends `t`'s first piece. */
  lemma {:induction false} SplitPrefix(a: string, t: string, sep: char)
    requires sep !in a
    ensures Split(a + t, sep) == [a + Split(t, sep)[0]] + Split(t, sep)[1..]
  {
    if |a| > 0 {
      assert (a + t)[1..] == a[1..] + t;
      SplitPrefix(a[1..], t, sep);
      assert [a[0]] + (a[1..] + Split(t, sep)[0]) == a + Split(t, sep)[0];
    } else {
      var r := Split(t, sep);
      assert a + t == t;
      assert a + r[0] == r[0];
      assert r == [r[0]] + r[1..];
    }
  }

  /** Joining pieces that hold no delimiter and splitting again gives the pieces back. */
  lemma {:induction false} SplitJoin(xs: seq<string>, sep: char)
    requires |xs| >= 1
    requires forall i :: 0 <= i < |xs| ==> sep !in xs[i]
    ensures Split(Join(xs, sep), sep) == xs
  {
    if |xs| == 1 {
      SplitPrefix(xs[0], "", sep);
      assert xs[0] + "" == xs[0];
    } else {
      SplitJoin(xs[1..], sep);
      var t := [sep] + Join(xs[1..], sep);
      assert Join(xs, sep) == xs[0] + t;
      SplitPrefix(xs[0], t, sep);
      assert t[1..] == Join(xs[1..], sep);
      assert Split(t, sep) == [""] + xs[1..];
      assert xs[0] + "" == xs[0];
      assert xs == [xs[0]] + xs[1..];
    }
  }

  /** Splitting and joining again gives back the original string. */
  lemma {:induction false} JoinSplit(s: string, sep: char)
    ensures Join(Split(s, sep), sep) == s
  {
    if |s| > 0 {
      var rest := Split(s[1..], sep);
      JoinSplit(s[1..], sep);
      if s[0] == sep {
        assert Join([""] + rest, sep) == "" + [sep] + Join(rest, sep);
        assert s == [s[0]] + s[1..];
      } else {
        var first := [s[0]] + rest[0];
        if |rest| == 1 {
          assert Join([first], sep) == first;
          assert s == [s[0]] + s[1..];
        } else {
          assert Join(rest, sep) == rest[0] + [sep] + Join(rest[1..], sep);
          assert Join([first] + rest[1..], sep) == first + [sep] + Join(([first] + rest[1..])[1..], sep);
          assert ([first] + rest[1..])[1..] == rest[1..];
          assert s == [s[0]] + s[1..];
        }
      }
    }
  }

  predicate IsDigit(c: char)
  {
    '0' <= c <= '9'
  }

  predicate AllDigits(s: string)
  {
    forall i :: 0 <= i < |s| ==> IsDigit(s[i])
  }

  function DigitChar(d: int): (c: char)
    requires 0 <= d < 10
    ensures IsDigit(c) && c as int - '0' as int == d
  {
    ('0' as int + d) as char
  }

  /** Decimal digits of a natural number, without leading zeros. */
  function NatToString(n: nat): (r: string)
    ensures |r| >= 1 && AllDigits(r)
  {
    if n < 10 then [DigitChar(n)] else NatToString(n / 10) + [DigitChar(n % 10)]
  }

  /** `Int.toString()`: a minus sign for negative numbers, then the digits. */
  function IntToString(n: int): (r: string)
    ensures |r| >= 1
    ensures r[0] == '-' <==> n < 0
    ensures n >= 0 ==> AllDigits(r)
  {
    if n < 0 then "-" + NatToString(-n) else NatToString(n)
  }

  /** The value of a string of decimal digits, most significant first. */
  function DigitsValue(s: string): nat
    requires AllDigits(s)
  {
    if |s| == 0 then 0 else DigitsValue(s[..|s| - 1]) * 10 + (s[|s| - 1] as int - '0' as int)
  }

  /** `toIntOrNull` before its range check: an optional sign, then at least one digit. */
  function ParseDecimal(s: string): (r: Option<int>)
    ensures r.Some? ==> |s| >= 1
  {
    if |s| == 0 then None
    else if s[0] == '-' || s[0] == '+' then
      if |s| == 1 || !AllDigits(s[1..]) then None
      else
        var magnitude: int := DigitsValue(s[1..]);
        if s[0] == '-' then Some(-magnitude) else Some(magnitude)
    else if AllDigits(s) then Some(DigitsValue(s))
    else None
  }

  /** `String.toIntOrNull()`: null when the text is not a numeral or leaves Kotlin's `Int` range. */
  function ParseInt(s: string): (r: Option<int>)
    ensures r.Some? ==> IntMin <= r.value <= IntMax
    ensures r.Some? ==> ParseDecimal(s) == r
    ensures ParseDecimal(s).Some? && IntMin <= ParseDecimal(s).value <= IntMax ==> r == ParseDecimal(s)
    ensures ParseDecimal(s).Some? && !(IntMin <= ParseDecimal(s).value <= IntMax) ==> r.None?
  {
    match ParseDecimal(s)
    case Some(v) => if IntMin <= v <= IntMax then Some(v) else None
    case None => None
  }

  lemma {:induction false} NatToStringValue(n: nat)
    ensures DigitsValue(NatToString(n)) == n
  {
    if n >= 10 {
      NatToStringValue(n / 10);
      var s := NatToString(n);
      assert s[..|s| - 1] == NatToString(n / 10);
    }
  }

  /** Printing a number and reading it back gives the number (no range limit). */
  lemma ParseDecimalOfIntToString(n: int)
    ensures ParseDecimal(IntToString(n)) == Some(n)
  {
    if n < 0 {
      var t := NatToString(-n);
      NatToStringValue(-n);
      var s := IntToString(n);
      assert s == "-" + t && s[0] == '-' && |s| > 1;
      assert s[1..] == t;
    } else {
      var t := NatToString(n);
      NatToStringValue(n);
      assert IsDigit(t[0]);
      assert t[0] != '-' && t[0] != '+';
    }
  }

  /** `n.toString().toIntOrNull() == n` for every Kotlin `Int`. */
  lemma ParseIntOfIntToString(n: int)
    requires IntMin <= n <= IntMax
    ensures ParseInt(IntToString(n)) == Some(n)
  {
    ParseDecimalOfIntToString(n);
  }

  /** Distinct numbers print differently. */
  lemma IntToStringInjective(a: int, b: int)
    requires IntToString(a) == IntToString(b)
    ensures a == b
  {
    ParseDecimalOfIntToString(a);
    ParseDecimalOfIntToString(b);
  }
}
