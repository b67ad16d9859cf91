/**
 * Naive timestamps (as `datetime.utcnow()` produces them) and their text
 * form: `isoformat()` writes the extended calendar date and time of day of
 * ISO 8601:2004 (section 4.3.2), `YYYY-MM-DDThh:mm:ss`, followed by
 * `.ffffff` when the microsecond is not zero; `fromisoformat` reads it back.
 */
module IsoDateTime {
  import opened Wrappers

  datatype DateTimeFields = DateTime(
    year: int, month: int, day: int,
    hour: int, minute: int, second: int, microsecond: int)

  predicate IsLeapYear(y: int)
  {
    y % 4 == 0 && (y % 100 != 0 || y % 400 == 0)
  }

  function DaysInMonth(y: int, m: int): (n: int)
    requires 1 <= m <= 12
    ensures 28 <= n <= 31
  {
    if m == 2 then (if IsLeapYear(y) then 29 else 28)
    else if m in {4, 6, 9, 11} then 30
    else 31
  }

  /** The ranges Python's `datetime` constructor enforces. */
  predicate ValidFields(d: DateTimeFields)
  {
    && 1 <= d.year <= 9999
    && 1 <= d.month <= 12
    && 1 <= d.day <= DaysInMonth(d.year, d.month)
    && 0 <= d.hour < 24
    && 0 <= d.minute < 60
    && 0 <= d.second < 60
    && 0 <= d.microsecond < 1000000
  }

  type Timestamp = d: DateTimeFields | ValidFields(d) witness DateTime(1, 1, 1, 0, 0, 0, 0)

  function Pow10(n: nat): (p: nat)
    ensures p >= 1
  {
    if n == 0 then 1 else 10 * Pow10(n - 1)
  }

  predicate IsDigit(c: char)
  {
    '0' <= c <= '9'
  }

  predicate AllDigits(s: string)
  {
    forall i :: 0 <= i < |s| ==> IsDigit(s[i])
  }

  /** The last `n` decimal digits of `v`, zero-padded (`%0nd`). */
  function Digits(v: nat, n: nat): (s: string)
    ensures |s| == n
    ensures AllDigits(s)
  {
    if n == 0 then [] else Digits(v / 10, n - 1) + [(48 + v % 10) as char]
  }

  /** The number a string of decimal digits denotes. */
  function DigitsValue(s: string): nat
    requires AllDigits(s)
  {
    if s == [] then 0
    else DigitsValue(s[..|s| - 1]) * 10 + (s[|s| - 1] as int - 48)
  }

  /** Reading back an n-digit field gives the number written, when it fits. */
  lemma {:induction false} DigitsRoundTrip(v: nat, n: nat)
    requires v < Pow10(n)
    ensures DigitsValue(Digits(v, n)) == v
  {
    if n > 0 {
      assert v / 10 < Pow10(n - 1);
      DigitsRoundTrip(v / 10, n - 1);
      var s := Digits(v, n);
      assert s[..|s| - 1] == Digits(v / 10, n - 1);
    }
  }

  /** Three fields joined by two one-character separators. */
  function Join3(a: string, x: char, b: string, y: char, c: string): string
  {
    a + [x] + b + [y] + c
  }

  lemma Join3Slices(a: string, x: char, b: string, y: char, c: string)
    ensures var s := Join3(a, x, b, y, c);
      && s[..|a|] == a && s[|a|] == x
      && s[|a| + 1..|a| + 1 + |b|] == b && s[|a| + 1 + |b|] == y
      && s[|a| + |b| + 2..] == c
  {
    var s := Join3(a, x, b, y, c);
    assert s == a + ([x] + b + [y] + c);
    assert s[|a| + 1..] == b + ([y] + c);
  }

  /** `YYYY-MM-DD`. */
  function DatePart(d: Timestamp): (s: string)
    ensures |s| == 10
  {
    Join3(Digits(d.year, 4), '-', Digits(d.month, 2), '-', Digits(d.day, 2))
  }

  /** `hh:mm:ss`. */
  function TimePart(d: Timestamp): (s: string)
    ensures |s| == 8
  {
    Join3(Digits(d.hour, 2), ':', Digits(d.minute, 2), ':', Digits(d.second, 2))
  }

  /** Empty for a whole second, otherwise `.ffffff`. */
  function FractionPart(d: Timestamp): (s: string)
    ensures |s| == (if d.microsecond == 0 then 0 else 7)
  {
    if d.microsecond == 0 then "" else "." + Digits(d.microsecond, 6)
  }

  /** `datetime.isoformat()` for a naive datetime. */
  function FormatIso(d: Timestamp): (s: string)
    ensures |s| == (if d.microsecond == 0 then 19 else 26)
  {
    DatePart(d) + "T" + TimePart(d) + FractionPart(d)
  }

  /** True when `s` has the separators of a 19- or 26-character isoformat string and digits elsewhere. */
  predicate WellShaped(s: string)
  {
    && (|s| == 19 || |s| == 26)
    && s[4] == '-' && s[7] == '-' && s[10] == 'T' && s[13] == ':' && s[16] == ':'
    && AllDigits(s[0..4]) && AllDigits(s[5..7]) && AllDigits(s[8..10])
    && AllDigits(s[11..13]) && AllDigits(s[14..16]) && AllDigits(s[17..19])
    && (|s| == 26 ==> s[19] == '.' && AllDigits(s[20..26]))
  }

  /**
   * `datetime.fromisoformat(s)` restricted to the two shapes `isoformat`
   * writes; `None` where Python raises ValueError (bad shape, or a field out
   * of range such as February 30).
   */
  function ParseIso(s: string): (r: Option<Timestamp>)
    ensures r.Some? ==> WellShaped(s)
  {
    if !WellShaped(s) then None
    else
      var d := DateTime(
        DigitsValue(s[0..4]), DigitsValue(s[5..7]), DigitsValue(s[8..10]),
        DigitsValue(s[11..13]), DigitsValue(s[14..16]), DigitsValue(s[17..19]),
        if |s| == 26 then DigitsValue(s[20..26]) else 0);
      if ValidFields(d) then Some(d) else None
  }

  /** Where the six fields and the fraction lie in a date, `T`, a time and a fraction joined together. */
  lemma JoinedLayout(y: string, mo: string, dd: string, h: string, mi: string, sec: string, frac: string)
    requires |y| == 4 && |mo| == 2 && |dd| == 2 && |h| == 2 && |mi| == 2 && |sec| == 2
    ensures var s := Join3(y, '-', mo, '-', dd) + "T" + Join3(h, ':', mi, ':', sec) + frac;
      && s[0..4] == y && s[4] == '-' && s[5..7] == mo && s[7] == '-' && s[8..10] == dd && s[10] == 'T'
      && s[11..13] == h && s[13] == ':' && s[14..16] == mi && s[16] == ':' && s[17..19] == sec
      && s[19..] == frac
  {
    var date, time := Join3(y, '-', mo, '-', dd), Join3(h, ':', mi, ':', sec);
    var s := date + "T" + time + frac;
    Join3Slices(y, '-', mo, '-', dd);
    Join3Slices(h, ':', mi, ':', sec);
    assert s == date + (['T'] + time + frac);
    assert s[..10] == date;
    assert s[11..] == time + frac;
    assert s[11..19] == time;
    assert s[0..4] == date[0..4] && s[5..7] == date[5..7] && s[8..10] == date[8..10];
    assert s[11..13] == time[0..2] && s[14..16] == time[3..5] && s[17..19] == time[6..8];
  }

  /** Where each field of an isoformat string lies. */
  lemma FormatLayout(d: Timestamp)
    ensures var s := FormatIso(d);
      && s[0..4] == Digits(d.year, 4) && s[4] == '-'
      && s[5..7] == Digits(d.month, 2) && s[7] == '-'
      && s[8..10] == Digits(d.day, 2) && s[10] == 'T'
      && s[11..13] == Digits(d.hour, 2) && s[13] == ':'
      && s[14..16] == Digits(d.minute, 2) && s[16] == ':'
      && s[17..19] == Digits(d.second, 2)
      && (d.microsecond != 0 ==> s[19] == '.' && s[20..26] == Digits(d.microsecond, 6))
  {
    JoinedLayout(Digits(d.year, 4), Digits(d.month, 2), Digits(d.day, 2),
                 Digits(d.hour, 2), Digits(d.minute, 2), Digits(d.second, 2), FractionPart(d));
    var s := FormatIso(d);
    if d.microsecond != 0 {
      assert s[20..26] == s[19..][1..];
    }
  }

  /** Formatting then parsing gives back the same timestamp. */
  lemma {:induction false} ParseFormat(d: Timestamp)
    ensures ParseIso(FormatIso(d)) == Some(d)
  {
    var s := FormatIso(d);
    FormatLayout(d);
    assert Pow10(2) == 100 && Pow10(4) == 10000 && Pow10(6) == 1000000;
    assert WellShaped(s);
    assert DigitsValue(s[0..4]) == d.year by { DigitsRoundTrip(d.year, 4); }
    assert DigitsValue(s[5..7]) == d.month by { DigitsRoundTrip(d.month, 2); }
    assert DigitsValue(s[8..10]) == d.day by { DigitsRoundTrip(d.day, 2); }
    assert DigitsValue(s[11..13]) == d.hour by { DigitsRoundTrip(d.hour, 2); }
    assert DigitsValue(s[14..16]) == d.minute by { DigitsRoundTrip(d.minute, 2); }
    assert DigitsValue(s[17..19]) == d.second by { DigitsRoundTrip(d.second, 2); }
    var us := if |s| == 26 then DigitsValue(s[20..26]) else 0;
    assert us == d.microsecond by { DigitsRoundTrip(d.microsecond, 6); }
  }

  /**
   * `s.replace('Z', '+00:00')`, applied before parsing. Together with
   * ReplaceZConcat the one-character cases fix the whole replacement.
   */
  function ReplaceZ(s: string): (r: string)
    ensures 'Z' !in r
    ensures 'Z' !in s ==> r == s
    ensures s == "Z" ==> r == "+00:00"
  {
    if s == [] then []
    else (if s[0] == 'Z' then "+00:00" else [s[0]]) + ReplaceZ(s[1..])
  }

  /** The replacement works piece by piece: replacing in a concatenation replaces in each part. */
  lemma {:induction false} ReplaceZConcat(a: string, b: string)
    ensures ReplaceZ(a + b) == ReplaceZ(a) + ReplaceZ(b)
  {
    if a == [] {
      assert a + b == b;
    } else {
      var head := if a[0] == 'Z' then "+00:00" else [a[0]];
      assert (a + b)[0] == a[0];
      assert (a + b)[1..] == a[1..] + b;
      ReplaceZConcat(a[1..], b);
      calc {
        ReplaceZ(a + b);
        head + ReplaceZ(a[1..] + b);
        head + (ReplaceZ(a[1..]) + ReplaceZ(b));
        (head + ReplaceZ(a[1..])) + ReplaceZ(b);
      }
    }
  }

  /** `isoformat` never writes a `Z`, so the replacement leaves its output alone. */
  lemma FormatHasNoZ(d: Timestamp)
    ensures 'Z' !in FormatIso(d)
    ensures ReplaceZ(FormatIso(d)) == FormatIso(d)
  {
    var s := FormatIso(d);
    forall i | 0 <= i < |s| ensures s[i] != 'Z' {
      assert IsDigit(s[i]) || s[i] in "-T:.";
    }
  }
}
