/** The date formatting of frontend/src/utils/dateUtils.ts: a Date's local
    fields written as "YYYY-MM-DDTHH:mm:ss", the text the back end reads
    into a LocalDateTime. The Date getters (local time zone) are given as
    numbers. */
module DateFormat {
  import opened Base
  import opened Decimal

  /** What getFullYear, getMonth (0-based), getDate, getHours, getMinutes
      and getSeconds return. */
  datatype DateFields = DateFields(fullYear: int, month0: nat, date: nat, hours: nat, minutes: nat, seconds: nat)

  /** The fields of a LocalDateTime, with a 1-based month. */
  datatype LocalDateTime = LocalDateTime(year: int, month: nat, day: nat, hour: nat, minute: nat, second: nat)

  /** `num.toString().padStart(2, '0')`: at least two digits, and the same number. */
  function Pad(n: nat): (s: string)
    ensures |s| > 0 && AllDigits(s) && DigitsValue(s) == n
    ensures n < 100 ==> |s| == 2
  {
    var digits := NatToString(n);
    DigitsOfNat(n);
    if n < 10 then
      assert |digits| == 1;
      var s := "0" + digits;
      assert s[..1] == "0";
      s
    else
      assert n < 100 ==> |digits| == 2 by {
        if n < 100 {
          assert |NatToString(n / 10)| == 1;
        }
      }
      digits
  }

  /** The template `${year}-${month}-${day}T${hours}:${minutes}:${seconds}`. */
  function ToLocalISOString(d: DateFields): string
  {
    IntToString(d.fullYear) + "-" + Pad(d.month0 + 1) + "-" + Pad(d.date) + "T" +
    Pad(d.hours) + ":" + Pad(d.minutes) + ":" + Pad(d.seconds)
  }

  /** The fields a well-formed Date has. */
  predicate InRange(d: DateFields)
  {
    1000 <= d.fullYear <= 9999 && d.month0 < 12 && 1 <= d.date <= 31 &&
    d.hours < 24 && d.minutes < 60 && d.seconds < 60
  }

  /** Reading the fixed layout back: four year digits, then two digits for
      each other field, with '-', '-', 'T', ':', ':' between them. */
  function ParseLocalDateTime(s: string): (r: Option<LocalDateTime>)
    ensures r.Some? ==> |s| == 19
  {
    if |s| == 19 && s[4] == '-' && s[7] == '-' && s[10] == 'T' && s[13] == ':' && s[16] == ':' &&
       AllDigits(s[0..4]) && AllDigits(s[5..7]) && AllDigits(s[8..10]) &&
       AllDigits(s[11..13]) && AllDigits(s[14..16]) && AllDigits(s[17..19])
    then
      Some(LocalDateTime(DigitsValue(s[0..4]), DigitsValue(s[5..7]), DigitsValue(s[8..10]),
                         DigitsValue(s[11..13]), DigitsValue(s[14..16]), DigitsValue(s[17..19])))
    else None
  }

  lemma FourDigitYear(y: int)
    requires 1000 <= y <= 9999
    ensures |IntToString(y)| == 4
  {
    assert |NatToString(y / 1000)| == 1;
    assert |NatToString(y / 100)| == 2;
    assert |NatToString(y / 10)| == 3;
  }

  /** For a four-digit year, the string has the fixed layout and reads back
      as the same date and time, the month now counted from one. */
  lemma RoundTrip(d: DateFields)
    requires InRange(d)
    ensures ParseLocalDateTime(ToLocalISOString(d)) ==
              Some(LocalDateTime(d.fullYear, d.month0 + 1, d.date, d.hours, d.minutes, d.seconds))
  {
    FourDigitYear(d.fullYear);
    DigitsOfNat(d.fullYear);
    ParseOfPieces(IntToString(d.fullYear), Pad(d.month0 + 1), Pad(d.date), Pad(d.hours), Pad(d.minutes), Pad(d.seconds));
  }

  /** The layout with digit fields of the right widths parses field by field. */
  lemma ParseOfPieces(y: string, mo: string, da: string, ho: string, mi: string, se: string)
    requires |y| == 4 && |mo| == 2 && |da| == 2 && |ho| == 2 && |mi| == 2 && |se| == 2
    requires AllDigits(y) && AllDigits(mo) && AllDigits(da) && AllDigits(ho) && AllDigits(mi) && AllDigits(se)
    ensures ParseLocalDateTime(y + "-" + mo + "-" + da + "T" + ho + ":" + mi + ":" + se) ==
              Some(LocalDateTime(DigitsValue(y), DigitsValue(mo), DigitsValue(da),
                                 DigitsValue(ho), DigitsValue(mi), DigitsValue(se)))
  {
    var p1 := y + "-";
    var p2 := p1 + mo;
    var p3 := p2 + "-";
    var p4 := p3 + da;
    var p5 := p4 + "T";
    var p6 := p5 + ho;
    var p7 := p6 + ":";
    var p8 := p7 + mi;
    var p9 := p8 + ":";
    var s := p9 + se;
    assert s[..17] == p9 && s[17..19] == se;
    assert p9[..16] == p8 && p9[16] == ':';
    assert p8[..14] == p7 && p8[14..16] == mi;
    assert p7[..13] == p6 && p7[13] == ':';
    assert p6[..11] == p5 && p6[11..13] == ho;
    assert p5[..10] == p4 && p5[10] == 'T';
    assert p4[..8] == p3 && p4[8..10] == da;
    assert p3[..7] == p2 && p3[7] == '-';
    assert p2[..5] == p1 && p2[5..7] == mo;
    assert p1[..4] == y && p1[4] == '-';
    assert s[14..16] == p8[14..16];
    assert s[11..13] == p6[11..13];
    assert s[8..10] == p4[8..10];
    assert s[5..7] == p2[5..7];
    assert s[0..4] == y;
    ParseBySlices(s);
  }

  /** The parse reads exactly the six digit slices. */
  lemma ParseBySlices(s: string)
    requires |s| == 19 && s[4] == '-' && s[7] == '-' && s[10] == 'T' && s[13] == ':' && s[16] == ':'
    requires AllDigits(s[0..4]) && AllDigits(s[5..7]) && AllDigits(s[8..10])
    requires AllDigits(s[11..13]) && AllDigits(s[14..16]) && AllDigits(s[17..19])
    ensures ParseLocalDateTime(s) ==
              Some(LocalDateTime(DigitsValue(s[0..4]), DigitsValue(s[5..7]), DigitsValue(s[8..10]),
                                 DigitsValue(s[11..13]), DigitsValue(s[14..16]), DigitsValue(s[17..19])))
  {
  }

  /** Two dates with the same fields in range format differently only when
      some field differs: the format is injective on well-formed dates. */
  lemma FormatInjective(d: DateFields, e: DateFields)
    requires InRange(d) && InRange(e) && ToLocalISOString(d) == ToLocalISOString(e)
    ensures d == e
  {
    RoundTrip(d);
    RoundTrip(e);
  }
}
