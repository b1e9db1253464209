/**
 * The date strategy of the JSON codec: encoding writes one fixed format,
 * `yyyy-MM-dd'T'HH:mm:ss.SSS`; decoding tries that format first and then
 * the legacy `yyyy-MM-dd'T'HH:mm:ss`, and fails naming the string when
 * neither matches. Only the shape of the text is modelled, not calendar
 * validity or time zones.
 */
module ApiDates {
  import opened Wrappers
  import opened Text

  /** The fields a date format string writes, in the order it writes them. */
  datatype DateTime = DateTime(year: nat, month: nat, day: nat, hour: nat, minute: nat, second: nat, millisecond: nat)

  /** The widths of `yyyy`, `MM`, `dd`, `HH`, `mm`, `ss` and `SSS` can hold every field. */
  predicate Representable(d: DateTime) {
    d.year < 10000 && d.month < 100 && d.day < 100 && d.hour < 100
    && d.minute < 100 && d.second < 100 && d.millisecond < 1000
  }

  /** `yyyy-MM-dd'T'HH:mm:ss.SSS`, the only format the encoder writes. */
  function FormatDate(d: DateTime): (s: string)
    requires Representable(d)
    ensures |s| == 23
  {
    PadDigits(d.year, 4) + "-" + PadDigits(d.month, 2) + "-" + PadDigits(d.day, 2)
    + "T" + PadDigits(d.hour, 2) + ":" + PadDigits(d.minute, 2) + ":" + PadDigits(d.second, 2)
    + "." + PadDigits(d.millisecond, 3)
  }

  predicate DigitsAt(s: string, start: nat, width: nat) {
    start + width <= |s| && AllDigits(s[start..start + width])
  }

  function FieldAt(s: string, start: nat, width: nat): nat
    requires DigitsAt(s, start, width)
  {
    DigitsValue(s[start..start + width])
  }

  /** The first nineteen characters read `yyyy-MM-dd'T'HH:mm:ss`. */
  predicate SecondsShape(s: string) {
    |s| >= 19
    && DigitsAt(s, 0, 4) && s[4] == '-' && DigitsAt(s, 5, 2) && s[7] == '-' && DigitsAt(s, 8, 2)
    && s[10] == 'T' && DigitsAt(s, 11, 2) && s[13] == ':' && DigitsAt(s, 14, 2) && s[16] == ':'
    && DigitsAt(s, 17, 2)
  }

  function SecondsFields(s: string, millisecond: nat): DateTime
    requires SecondsShape(s)
  {
    DateTime(FieldAt(s, 0, 4), FieldAt(s, 5, 2), FieldAt(s, 8, 2),
             FieldAt(s, 11, 2), FieldAt(s, 14, 2), FieldAt(s, 17, 2), millisecond)
  }

  /** The formatter for `yyyy-MM-dd'T'HH:mm:ss.SSS`. */
  function ParseMillisFormat(s: string): (r: Option<DateTime>)
    ensures r.Some? ==> |s| == 23 && Representable(r.value)
  {
    if |s| == 23 && SecondsShape(s) && s[19] == '.' && DigitsAt(s, 20, 3)
    then Some(SecondsFields(s, FieldAt(s, 20, 3)))
    else None
  }

  /** The formatter for the legacy `yyyy-MM-dd'T'HH:mm:ss`. */
  function ParseSecondsFormat(s: string): (r: Option<DateTime>)
    ensures r.Some? ==> |s| == 19 && Representable(r.value) && r.value.millisecond == 0
  {
    if |s| == 19 && SecondsShape(s) then Some(SecondsFields(s, 0)) else None
  }

  /**
   * The custom date decoding strategy: the millisecond format first, then
   * the legacy one; otherwise an error that names the string.
   */
  function DecodeDate(s: string): (r: Result<DateTime, string>)
    ensures r.Success? <==> ParseMillisFormat(s).Some? || ParseSecondsFormat(s).Some?
    ensures ParseMillisFormat(s).Some? ==> r == Success(ParseMillisFormat(s).value)
    ensures ParseMillisFormat(s).None? && ParseSecondsFormat(s).Some? ==> r == Success(ParseSecondsFormat(s).value)
    ensures r.Failure? ==> r.error == "Cannot decode date string " + s
  {
    match ParseMillisFormat(s)
    case Some(d) => Success(d)
    case None =>
      match ParseSecondsFormat(s)
      case Some(d) => Success(d)
      case None => Failure("Cannot decode date string " + s)
  }

  // ---------------------------------------------------------------------
  // Lemmas

  lemma FormatShape(d: DateTime)
    requires Representable(d)
    ensures var s := FormatDate(d);
            SecondsShape(s) && s[19] == '.' && DigitsAt(s, 20, 3)
            && s[0..4] == PadDigits(d.year, 4) && s[5..7] == PadDigits(d.month, 2)
            && s[8..10] == PadDigits(d.day, 2) && s[11..13] == PadDigits(d.hour, 2)
            && s[14..16] == PadDigits(d.minute, 2) && s[17..19] == PadDigits(d.second, 2)
            && s[20..23] == PadDigits(d.millisecond, 3)
  {
    var s := FormatDate(d);
    assert s[0..4] == PadDigits(d.year, 4);
    assert s[5..7] == PadDigits(d.month, 2);
    assert s[8..10] == PadDigits(d.day, 2);
    assert s[11..13] == PadDigits(d.hour, 2);
    assert s[14..16] == PadDigits(d.minute, 2);
    assert s[17..19] == PadDigits(d.second, 2);
    assert s[20..23] == PadDigits(d.millisecond, 3);
  }

  /** Decoding reads back every date the encoder writes. */
  lemma DecodeFormatted(d: DateTime)
    requires Representable(d)
    ensures ParseMillisFormat(FormatDate(d)) == Some(d)
    ensures DecodeDate(FormatDate(d)) == Success(d)
  {
    FormatShape(d);
    PadDigitsValue(d.year, 4);
    PadDigitsValue(d.month, 2);
    PadDigitsValue(d.day, 2);
    PadDigitsValue(d.hour, 2);
    PadDigitsValue(d.minute, 2);
    PadDigitsValue(d.second, 2);
    PadDigitsValue(d.millisecond, 3);
  }

  /** `s[..j]` is `s[..i]` followed by `s[i..j]`. */
  lemma PrefixStep(s: string, i: nat, j: nat)
    requires i <= j <= |s|
    ensures s[..j] == s[..i] + s[i..j]
  {
  }

  /**
   * A 23-character string is its seven fields and six separators, put
   * together in the order `FormatDate` writes them.
   */
  lemma MillisLayout(s: string, year: string, month: string, day: string, hour: string, minute: string,
                     second: string, millisecond: string)
    requires |s| == 23
    requires s[0..4] == year && s[4] == '-' && s[5..7] == month && s[7] == '-' && s[8..10] == day
    requires s[10] == 'T' && s[11..13] == hour && s[13] == ':' && s[14..16] == minute && s[16] == ':'
    requires s[17..19] == second && s[19] == '.' && s[20..23] == millisecond
    ensures year + "-" + month + "-" + day + "T" + hour + ":" + minute + ":" + second + "." + millisecond == s
  {
    assert s[..4] == year;
    PrefixStep(s, 4, 5);
    assert s[4..5] == "-";
    PrefixStep(s, 5, 7);
    PrefixStep(s, 7, 8);
    assert s[7..8] == "-";
    PrefixStep(s, 8, 10);
    PrefixStep(s, 10, 11);
    assert s[10..11] == "T";
    PrefixStep(s, 11, 13);
    PrefixStep(s, 13, 14);
    assert s[13..14] == ":";
    PrefixStep(s, 14, 16);
    PrefixStep(s, 16, 17);
    assert s[16..17] == ":";
    PrefixStep(s, 17, 19);
    PrefixStep(s, 19, 20);
    assert s[19..20] == ".";
    PrefixStep(s, 20, 23);
    assert s[..23] == s;
  }

  /** A string the millisecond formatter accepts is exactly what the encoder writes for it. */
  lemma FormatParsed(s: string)
    requires ParseMillisFormat(s).Some?
    ensures FormatDate(ParseMillisFormat(s).value) == s
  {
    var d := ParseMillisFormat(s).value;
    DigitsValuePad(s[0..4]);
    DigitsValuePad(s[5..7]);
    DigitsValuePad(s[8..10]);
    DigitsValuePad(s[11..13]);
    DigitsValuePad(s[14..16]);
    DigitsValuePad(s[17..19]);
    DigitsValuePad(s[20..23]);
    MillisLayout(s, PadDigits(d.year, 4), PadDigits(d.month, 2), PadDigits(d.day, 2), PadDigits(d.hour, 2),
                 PadDigits(d.minute, 2), PadDigits(d.second, 2), PadDigits(d.millisecond, 3));
  }

  /** The first nineteen characters of a string with the seconds shape have that shape and the same fields. */
  lemma SecondsPrefix(s: string)
    requires SecondsShape(s)
    ensures SecondsShape(s[..19]) && SecondsFields(s[..19], 0) == SecondsFields(s, 0)
  {
    var t := s[..19];
    assert t[0..4] == s[0..4] && t[5..7] == s[5..7] && t[8..10] == s[8..10];
    assert t[11..13] == s[11..13] && t[14..16] == s[14..16] && t[17..19] == s[17..19];
  }

  /**
   * The legacy form of a date without milliseconds decodes to the same
   * instant as its millisecond form.
   */
  lemma LegacyFormSameInstant(d: DateTime)
    requires Representable(d) && d.millisecond == 0
    ensures DecodeDate(FormatDate(d)[..19]) == Success(d)
    ensures DecodeDate(FormatDate(d)[..19]) == DecodeDate(FormatDate(d))
  {
    var s := FormatDate(d);
    assert ParseMillisFormat(s) == Some(d) by { DecodeFormatted(d); }
    assert SecondsFields(s, 0) == d;
    SecondsPrefix(s);
  }

  lemma PadDigitsExamples()
    ensures PadDigits(2000, 4) == "2000" && PadDigits(6, 2) == "06" && PadDigits(17, 2) == "17"
    ensures PadDigits(0, 2) == "00" && PadDigits(0, 3) == "000"
  {
    assert PadDigits(0, 1) == "0" && PadDigits(1, 1) == "1" && PadDigits(2, 1) == "2";
    assert PadDigits(20, 2) == "20";
    assert PadDigits(200, 3) == "200";
  }

  lemma MidnightText()
    ensures FormatDate(DateTime(2000, 6, 17, 0, 0, 0, 0)) == "2000-06-17T00:00:00.000"
  {
    calc {
      FormatDate(DateTime(2000, 6, 17, 0, 0, 0, 0));
      { PadDigitsExamples(); }
      "2000" + "-" + "06" + "-" + "17" + "T" + "00" + ":" + "00" + ":" + "00" + "." + "000";
      "2000-06-17T00:00:00.000";
    }
  }

  /** Both forms of 17 June 2000, midnight, decode to the same instant. */
  lemma MidnightExample()
    ensures DecodeDate("2000-06-17T00:00:00.000") == Success(DateTime(2000, 6, 17, 0, 0, 0, 0))
    ensures DecodeDate("2000-06-17T00:00:00") == Success(DateTime(2000, 6, 17, 0, 0, 0, 0))
  {
    var d := DateTime(2000, 6, 17, 0, 0, 0, 0);
    var full := "2000-06-17T00:00:00.000";
    var legacy := "2000-06-17T00:00:00";
    assert FormatDate(d) == full by { MidnightText(); }
    assert full[..19] == legacy;
    assert DecodeDate(full) == Success(d) by { DecodeFormatted(d); }
    assert DecodeDate(legacy) == Success(d) by { LegacyFormSameInstant(d); }
  }

  /** A date without a time of day matches neither format. */
  lemma DateOnlyFails()
    ensures DecodeDate("2000-06-17").Failure?
  {
  }
}
