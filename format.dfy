/**
 The text that formatTime and formatDate leave in the driver's buffers
 (Rtc_Pcf8593.cpp): every field as two characters '0' + v / 10 and
 '0' + v % 10, separators, a fixed "20" century, and a NUL terminator.

 The functions state the shape of each text; the lemmas state that each
 two-digit field spells its number whenever that number is below 100.
 */
module Format {
  import opened Registers

  const NUL: char := '\0'

  /** '0' plus a small number, as the driver computes each character. */
  function Digit(d: bv8): (c: char)
    requires d < 26
    ensures c != NUL
  {
    ('0' as int + d as int) as char
  }

  /** A decimal digit character. */
  predicate IsDigit(c: char)
  {
    '0' <= c <= '9'
  }

  /** Two decimal digit characters, tens first, spelling v. */
  predicate SpellsPair(tens: char, ones: char, v: bv8)
  {
    IsDigit(tens) && IsDigit(ones) && (tens as int - '0' as int) * 10 + (ones as int - '0' as int) == v as int
  }

  /** s[at] s[at+1] are two decimal digits spelling v. */
  predicate Spells(s: string, at: nat, v: bv8)
  {
    at + 1 < |s| && SpellsPair(s[at], s[at + 1], v)
  }

  /** No NUL before the last character, which is the NUL: a C string of |s| - 1 characters. */
  predicate IsCString(s: string)
  {
    |s| > 0 && s[|s| - 1] == NUL && forall k :: 0 <= k < |s| - 1 ==> s[k] != NUL
  }

  /** The two characters the driver writes for a field. */
  function TwoDigits(v: bv8): (s: string)
    ensures |s| == 2 && s[0] != NUL && s[1] != NUL
  {
    [Digit(v / 10), Digit(v % 10)]
  }

  /** For 0..99 the two characters spell the number; from 100 on the first one is not a digit. */
  lemma TwoDigitsSpell(v: bv8)
    ensures v < 100 ==> SpellsPair(TwoDigits(v)[0], TwoDigits(v)[1], v)
    ensures IsDigit(TwoDigits(v)[0]) <==> v < 100
  {
    var s := TwoDigits(v);
    assert s[0] as int == '0' as int + (v / 10) as int;
    assert s[1] as int == '0' as int + (v % 10) as int;
    assert (v / 10) as int * 10 + (v % 10) as int == v as int;
  }

  /** strOut after formatTime: "HH:MM" for TIME_HM, "HH:MM:SS" for every other style, then NUL. */
  function TimeText(style: bv8, hour: bv8, minute: bv8, sec: bv8): (s: string)
    ensures IsCString(s)
    ensures |s| == if style == TIME_HM then 6 else 9
    ensures s[2] == ':' && (style != TIME_HM ==> s[5] == ':')
  {
    var h, m := TwoDigits(hour), TwoDigits(minute);
    if style == TIME_HM then
      [h[0], h[1], ':', m[0], m[1], NUL]
    else
      var x := TwoDigits(sec);
      [h[0], h[1], ':', m[0], m[1], ':', x[0], x[1], NUL]
  }

  /** The fields of the time text spell the hour, minute and (HMS) second. */
  lemma TimeTextSpells(style: bv8, hour: bv8, minute: bv8, sec: bv8)
    ensures var s := TimeText(style, hour, minute, sec);
            && (hour < 100 ==> Spells(s, 0, hour))
            && (minute < 100 ==> Spells(s, 3, minute))
            && (style != TIME_HM && sec < 100 ==> Spells(s, 6, sec))
  {
    TwoDigitsSpell(hour);
    TwoDigitsSpell(minute);
    TwoDigitsSpell(sec);
  }

  /** strDate for DATE_ASIA: "20YY-MM-DD" and NUL. */
  function AsiaText(day: bv8, month: bv8, year: bv8): (s: string)
    ensures IsCString(s) && |s| == 11
    ensures s[0] == '2' && s[1] == '0' && s[4] == '-' && s[7] == '-'
  {
    var d, m, y := TwoDigits(day), TwoDigits(month), TwoDigits(year);
    ['2', '0', y[0], y[1], '-', m[0], m[1], '-', d[0], d[1], NUL]
  }

  /** strDate for DATE_US: "MM/DD/20YY" and NUL. */
  function UsText(day: bv8, month: bv8, year: bv8): (s: string)
    ensures IsCString(s) && |s| == 11
    ensures s[2] == '/' && s[5] == '/' && s[6] == '2' && s[7] == '0'
  {
    var d, m, y := TwoDigits(day), TwoDigits(month), TwoDigits(year);
    [m[0], m[1], '/', d[0], d[1], '/', '2', '0', y[0], y[1], NUL]
  }

  /** strDate for DATE_WORLD: "DD-MM-20YY" and NUL. */
  function WorldText(day: bv8, month: bv8, year: bv8): (s: string)
    ensures IsCString(s) && |s| == 11
    ensures s[2] == '-' && s[5] == '-' && s[6] == '2' && s[7] == '0'
  {
    var d, m, y := TwoDigits(day), TwoDigits(month), TwoDigits(year);
    [d[0], d[1], '-', m[0], m[1], '-', '2', '0', y[0], y[1], NUL]
  }

  /**
   strDate after formatDate: ASIA and US have their own layouts; DATE_WORLD
   and every other style give the world layout. Always 10 characters and NUL.
   */
  function DateText(style: bv8, day: bv8, month: bv8, year: bv8): (s: string)
    ensures IsCString(s) && |s| == 11
  {
    if style == DATE_ASIA then AsiaText(day, month, year)
    else if style == DATE_US then UsText(day, month, year)
    else WorldText(day, month, year)
  }

  /** The fields of each date layout spell the day, month and two-digit year. */
  lemma DateTextSpells(day: bv8, month: bv8, year: bv8)
    requires day < 100 && month < 100 && year < 100
    ensures var s := AsiaText(day, month, year);
            Spells(s, 2, year) && Spells(s, 5, month) && Spells(s, 8, day)
    ensures var s := UsText(day, month, year);
            Spells(s, 0, month) && Spells(s, 3, day) && Spells(s, 8, year)
    ensures var s := WorldText(day, month, year);
            Spells(s, 0, day) && Spells(s, 3, month) && Spells(s, 8, year)
  {
    TwoDigitsSpell(day);
    TwoDigitsSpell(month);
    TwoDigitsSpell(year);
  }

  /**
   The buffers strOut[9] and strDate[11] hold every output with its NUL, and
   the default styles give the longest time text and the US date.
   */
  lemma BuffersHoldOutputs(style: bv8, a: bv8, b: bv8, c: bv8)
    ensures |TimeText(style, a, b, c)| <= STR_OUT_SIZE
    ensures |TimeText(DEFAULT_TIME_STYLE, a, b, c)| == STR_OUT_SIZE
    ensures |DateText(style, a, b, c)| == STR_DATE_SIZE
    ensures DateText(DEFAULT_DATE_STYLE, a, b, c) == UsText(a, b, c)
  {
  }

  /** The US date 5 March 2024. */
  lemma UsDateExample()
    ensures DateText(DATE_US, 5, 3, 24) == "03/05/2024\0"
  {
  }
}
