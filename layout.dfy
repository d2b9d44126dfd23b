/**
 The meaning of the driver's register transfers, stated on an image of the
 chip's 16 registers: what each setter writes, what each getter decodes,
 and the read-modify-write of the status bits (Rtc_Pcf8593.cpp).

 A multi-byte write starting at register a writes a, a+1, ... in order;
 a multi-byte read does the same. Registers change only through these
 writes: the chip's own ticking and flag raising are not modelled.
 */
module Layout {
  import opened Registers
  import opened Bcd

  /** The contents of the chip's registers 0x00..0x0F. */
  type Image = r: seq<bv8> | |r| == 16 witness [0, 0, 0, 0, 0, 0, 0, 0, 0, 0, 0, 0, 0, 0, 0, 0]

  /** What getTime leaves in the driver's cache (status1 and hundredths raw, the rest decoded). */
  datatype TimeRead = TimeRead(status1: bv8, hundSec: bv8, sec: bv8, minute: bv8, hour: bv8)

  /** What getDate leaves in the driver's cache. */
  datatype DateRead = DateRead(day: bv8, weekday: bv8, month: bv8, year: bv8)

  /** What getAlarm leaves in the driver's cache: weekday is the raw byte of 0x0E, month its decoding. */
  datatype AlarmRead = AlarmRead(status2: bv8, second: bv8, minute: bv8, hour: bv8, day: bv8, weekday: bv8, month: bv8)

  /** One bus write transaction: `bytes` land in consecutive registers from `start` on. */
  function Splice(r: Image, start: nat, bytes: seq<bv8>): (r': Image)
    requires start + |bytes| <= REG_COUNT
    ensures forall a :: 0 <= a < REG_COUNT ==> r'[a] == if start <= a < start + |bytes| then bytes[a - start] else r[a]
  {
    r[..start] + bytes + r[start + |bytes|..]
  }

  // ---------------------------------------------------------------- set-up

  /** initClock: status1 gets its reset value 0x04, 0x01..0x07 get 0x01, status2 and the alarm registers 0x00. */
  function InitImage(): (r: Image)
    ensures r[STAT1_ADDR] == ALARM
    ensures forall a :: HUND_SEC_ADDR <= a <= YEAR_ADDR ==> r[a] == 0x01
    ensures forall a :: STAT2_ADDR <= a < REG_COUNT ==> r[a] == 0x00
  {
    InitBytes
  }

  /** The sixteen bytes initClock sends from register 0x00 on. */
  const InitBytes: seq<bv8> := [0x04, 0x01, 0x01, 0x01, 0x01, 0x01, 0x01, 0x01, 0x00, 0x00, 0x00, 0x00, 0x00, 0x00, 0x00, 0x00]

  /** clearStatus: status1 back to 0x04 (not zero), status2 to zero. */
  function ClearStatusImage(r: Image): (r': Image)
    ensures r'[STAT1_ADDR] == ALARM && r'[STAT2_ADDR] == 0
    ensures forall a :: 0 <= a < REG_COUNT && a != STAT1_ADDR && a != STAT2_ADDR ==> r'[a] == r[a]
  {
    Splice(Splice(r, STAT1_ADDR, [ALARM]), STAT2_ADDR, [0x00])
  }

  // ---------------------------------------------------------------- time

  /**
   setTime as defined: the FIRST argument is the hour. The three BCD codes go
   to 0x02 (seconds), 0x03 (minutes), 0x04 (hours), in that order.
   */
  function SetTimeImage(r: Image, hour: bv8, minute: bv8, sec: bv8): (r': Image)
    ensures r'[SEC_ADDR] == DecToBcd(sec) && r'[MIN_ADDR] == DecToBcd(minute) && r'[HR_ADDR] == DecToBcd(hour)
    ensures forall a :: 0 <= a < REG_COUNT && !(SEC_ADDR <= a <= HR_ADDR) ==> r'[a] == r[a]
    ensures hour < 100 && minute < 100 && sec < 100 ==>
              IsBcd(r'[SEC_ADDR]) && IsBcd(r'[MIN_ADDR]) && IsBcd(r'[HR_ADDR])
  {
    Splice(r, SEC_ADDR, [DecToBcd(sec), DecToBcd(minute), DecToBcd(hour)])
  }

  /** getTime: reads five bytes from 0x00. */
  function DecodeTime(r: Image): (t: TimeRead)
    ensures t.status1 == r[STAT1_ADDR] && t.hundSec == r[HUND_SEC_ADDR]
    ensures t.sec == BcdToDec(r[SEC_ADDR]) && t.minute == BcdToDec(r[MIN_ADDR]) && t.hour == BcdToDec(r[HR_ADDR])
    ensures IsBcd(r[SEC_ADDR]) && IsBcd(r[MIN_ADDR]) && IsBcd(r[HR_ADDR]) ==> t.sec < 100 && t.minute < 100 && t.hour < 100
  {
    TimeRead(r[STAT1_ADDR], r[HUND_SEC_ADDR], BcdToDec(r[SEC_ADDR]), BcdToDec(r[MIN_ADDR]), BcdToDec(r[HR_ADDR]))
  }

  /**
   setTime followed by getTime reports the hour, minute and second that were
   set, for values below 100, and leaves status1 and the hundredths as they were.
   */
  lemma SetTimeGetTime(r: Image, hour: bv8, minute: bv8, sec: bv8)
    requires hour < 100 && minute < 100 && sec < 100
    ensures var t := DecodeTime(SetTimeImage(r, hour, minute, sec));
            && t.hour == hour && t.minute == minute && t.sec == sec
            && t.status1 == r[STAT1_ADDR] && t.hundSec == r[HUND_SEC_ADDR]
  {
    DecodeEncode(hour);
    DecodeEncode(minute);
    DecodeEncode(sec);
  }

  // ---------------------------------------------------------------- date

  /** The month byte setDate writes: month BCD in the low bits, the weekday's BCD shifted into bits 5..7. */
  function PackMonth(weekday: bv8, month: bv8): (b: bv8)
    ensures weekday < 8 && month < 20 ==> b & WEEKDAY_MASK == weekday << 5 && b & MONTH_MASK == DecToBcd(month)
  {
    DecToBcd(month) | (DecToBcd(weekday) << 5)
  }

  /** The weekday held in bits 5..7 of the month byte. */
  function UnpackWeekday(b: bv8): (w: bv8)
    ensures w == (b & WEEKDAY_MASK) >> 5 && w < 8
  {
    BcdToDec((b & WEEKDAY_MASK) >> 5)
  }

  /** The month held in bits 0..4 of the month byte. */
  function UnpackMonth(b: bv8): (m: bv8)
    ensures m < 26
  {
    BcdToDec(b & MONTH_MASK)
  }

  /** The "years passed" counter held in bits 6..7 of the day byte. */
  function YearsPassed(b: bv8): (n: bv8)
    ensures n == b >> 6 && n < 4
  {
    BcdToDec((b & YEAR_MASK) >> 6)
  }

  /** The day held in bits 0..5 of the day byte. */
  function UnpackDay(b: bv8): (d: bv8)
    ensures d < 46
    ensures IsBcd(b & DAY_MASK) ==> d < 40
  {
    BcdToDec(b & DAY_MASK)
  }

  lemma MonthRoundTrip(weekday: bv8, month: bv8)
    requires weekday < 8 && month < 20
    ensures UnpackWeekday(PackMonth(weekday, month)) == weekday
    ensures UnpackMonth(PackMonth(weekday, month)) == month
  {
  }

  /**
   setDate: day BCD to 0x05 (which clears the years-passed counter), the
   packed month byte to 0x06, year BCD to 0x07. The century is ignored.
   */
  function SetDateImage(r: Image, day: bv8, weekday: bv8, month: bv8, century: bv8, year: bv8): (r': Image)
    ensures forall a :: 0 <= a < REG_COUNT && !(DAY_ADDR <= a <= YEAR_ADDR) ==> r'[a] == r[a]
    ensures day < 40 ==> YearsPassed(r'[DAY_ADDR]) == 0
  {
    Splice(Splice(r, DAY_ADDR, [DecToBcd(day), PackMonth(weekday, month)]), YEAR_ADDR, [DecToBcd(year)])
  }

  /**
   The values getDate reports. A nonzero years-passed counter is added to
   the stored year, with no wrap at 100.
   */
  function DecodeDate(r: Image): (d: DateRead)
    ensures d.day == UnpackDay(r[DAY_ADDR])
    ensures d.weekday == UnpackWeekday(r[MONTH_ADDR]) && d.month == UnpackMonth(r[MONTH_ADDR])
    ensures d.year == BcdToDec(r[YEAR_ADDR]) + YearsPassed(r[DAY_ADDR]) && d.year <= 168
  {
    var n := YearsPassed(r[DAY_ADDR]);
    var year := BcdToDec(r[YEAR_ADDR]);
    DateRead(UnpackDay(r[DAY_ADDR]), UnpackWeekday(r[MONTH_ADDR]), UnpackMonth(r[MONTH_ADDR]),
             if n > 0 then year + n else year)
  }

  /**
   The registers after getDate. With a nonzero counter it writes the BCD of
   the advanced year to 0x07 and then the DECODED day, not its BCD, to 0x05.
   */
  function ReconcileDate(r: Image): (r': Image)
    ensures YearsPassed(r[DAY_ADDR]) == 0 ==> r' == r
    ensures YearsPassed(r[DAY_ADDR]) > 0 ==>
              && r'[YEAR_ADDR] == DecToBcd(DecodeDate(r).year)
              && r'[DAY_ADDR] == DecodeDate(r).day
              && YearsPassed(r'[DAY_ADDR]) == 0
    ensures forall a :: 0 <= a < REG_COUNT && a != DAY_ADDR && a != YEAR_ADDR ==> r'[a] == r[a]
  {
    var d := DecodeDate(r);
    if YearsPassed(r[DAY_ADDR]) > 0 then Splice(Splice(r, YEAR_ADDR, [DecToBcd(d.year)]), DAY_ADDR, [d.day]) else r
  }

  /**
   setDate followed by getDate reports the values that were set, and getDate
   then writes nothing, for a valid day, weekday, month and two-digit year.
   */
  lemma SetDateGetDate(r: Image, day: bv8, weekday: bv8, month: bv8, century: bv8, year: bv8)
    requires 1 <= day <= 31 && weekday <= 6 && 1 <= month <= 12 && year <= 99
    ensures DecodeDate(SetDateImage(r, day, weekday, month, century, year)) == DateRead(day, weekday, month, year)
    ensures ReconcileDate(SetDateImage(r, day, weekday, month, century, year)) == SetDateImage(r, day, weekday, month, century, year)
  {
  }

  /**
   A second getDate after a rollover writes nothing more and reports the same
   weekday and month. The year survives only below 160, where its BCD code
   still fits a byte; the day survives only below 16, because the decimal day
   written back is decoded again as BCD.
   */
  lemma GetDateAfterRollover(r: Image)
    requires YearsPassed(r[DAY_ADDR]) > 0
    ensures ReconcileDate(ReconcileDate(r)) == ReconcileDate(r)
    ensures DecodeDate(ReconcileDate(r)).year == DecodeDate(r).year <==> DecodeDate(r).year < 160
    ensures DecodeDate(ReconcileDate(r)).weekday == DecodeDate(r).weekday
    ensures DecodeDate(ReconcileDate(r)).month == DecodeDate(r).month
    ensures DecodeDate(ReconcileDate(r)).day == DecodeDate(r).day <==> DecodeDate(r).day < 16
  {
  }

  // ---------------------------------------------------------------- alarm values

  /** Arduino's constrain(v, lo, hi). */
  function Clamp(v: bv8, lo: bv8, hi: bv8): (c: bv8)
    requires lo <= hi
    ensures lo <= c <= hi
    ensures lo <= v <= hi ==> c == v
    ensures v < lo ==> c == lo
    ensures v > hi ==> c == hi
  {
    if v < lo then lo else if v > hi then hi else v
  }

  /** One alarm argument: NO_ALARM or more encodes to 0x00, anything else is clamped and BCD-encoded. */
  function AlarmField(v: bv8, lo: bv8, hi: bv8): (b: bv8)
    requires lo <= hi < 100
    ensures v >= NO_ALARM ==> b == 0
    ensures v < NO_ALARM ==> IsBcd(b) && BcdToDec(b) == Clamp(v, lo, hi)
  {
    if v < NO_ALARM then DecToBcd(Clamp(v, lo, hi)) else 0x00
  }

  /** setAlarmTime: 0x00 to the alarm hundredths, then seconds, minutes, hours. */
  function SetAlarmTimeImage(r: Image, hour: bv8, min: bv8, sec: bv8): (r': Image)
    ensures r'[ALRM_HUND_SEC_ADDR] == 0
    ensures r'[ALRM_SEC_ADDR] == AlarmField(sec, 0, 59)
    ensures r'[ALRM_MIN_ADDR] == AlarmField(min, 0, 59)
    ensures r'[ALRM_HR_ADDR] == AlarmField(hour, 0, 23)
    ensures forall a :: 0 <= a < REG_COUNT && !(ALRM_HUND_SEC_ADDR <= a <= ALRM_HR_ADDR) ==> r'[a] == r[a]
  {
    Splice(r, ALRM_HUND_SEC_ADDR, [0x00, AlarmField(sec, 0, 59), AlarmField(min, 0, 59), AlarmField(hour, 0, 23)])
  }

  /** setAlarmDate: day (clamped to 1..31) to 0x0D and month (clamped to 1..12) to 0x0E. */
  function SetAlarmDateImage(r: Image, day: bv8, month: bv8): (r': Image)
    ensures r'[ALRM_DAY_ADDR] == AlarmField(day, 1, 31)
    ensures r'[ALRM_MONTH_ADDR] == AlarmField(month, 1, 12)
    ensures forall a :: 0 <= a < REG_COUNT && a != ALRM_DAY_ADDR && a != ALRM_MONTH_ADDR ==> r'[a] == r[a]
  {
    Splice(r, ALRM_DAY_ADDR, [AlarmField(day, 1, 31), AlarmField(month, 1, 12)])
  }

  /** setAlarmWeekday: the raw weekday bitmask to 0x0E, the alarm month's register. */
  function SetAlarmWeekdayImage(r: Image, weekday: bv8): (r': Image)
    ensures r'[ALRM_MONTH_ADDR] == weekday
    ensures forall a :: 0 <= a < REG_COUNT && a != ALRM_MONTH_ADDR ==> r'[a] == r[a]
  {
    Splice(r, ALRM_MONTH_ADDR, [weekday])
  }

  /** getAlarm: seven bytes from 0x08; the alarm hundredths are read and dropped. */
  function DecodeAlarm(r: Image): (a: AlarmRead)
    ensures a.status2 == r[STAT2_ADDR] && a.weekday == r[ALRM_MONTH_ADDR]
    ensures a.month == BcdToDec(a.weekday)
  {
    AlarmRead(r[STAT2_ADDR], BcdToDec(r[ALRM_SEC_ADDR]), BcdToDec(r[ALRM_MIN_ADDR]), BcdToDec(r[ALRM_HR_ADDR]),
              BcdToDec(r[ALRM_DAY_ADDR]), r[ALRM_MONTH_ADDR], BcdToDec(r[ALRM_MONTH_ADDR]))
  }

  /** The alarm set by setAlarmTime and setAlarmDate reads back clamped, or as 0 for NO_ALARM. */
  lemma AlarmReadBack(r: Image, hour: bv8, min: bv8, sec: bv8, day: bv8, month: bv8)
    ensures var a := DecodeAlarm(SetAlarmDateImage(SetAlarmTimeImage(r, hour, min, sec), day, month));
            && a.second == (if sec < NO_ALARM then Clamp(sec, 0, 59) else 0)
            && a.minute == (if min < NO_ALARM then Clamp(min, 0, 59) else 0)
            && a.hour == (if hour < NO_ALARM then Clamp(hour, 0, 23) else 0)
            && a.day == (if day < NO_ALARM then Clamp(day, 1, 31) else 0)
            && a.month == (if month < NO_ALARM then Clamp(month, 1, 12) else 0)
  {
  }

  /** Alarm month and alarm weekday share 0x0E: whichever setter ran last decides what getAlarm reports. */
  lemma AlarmMonthWeekdayShared(r: Image, day: bv8, month: bv8, weekday: bv8)
    ensures var a := DecodeAlarm(SetAlarmWeekdayImage(SetAlarmDateImage(r, day, month), weekday));
            a.weekday == weekday && a.month == BcdToDec(weekday)
    ensures DecodeAlarm(SetAlarmDateImage(SetAlarmWeekdayImage(r, weekday), day, month)).weekday
            == AlarmField(month, 1, 12)
  {
  }

  // ---------------------------------------------------------------- status bits

  /** status1 with AF cleared and every other bit kept. */
  function ClearAf(s1: bv8): (s: bv8)
    ensures s & ALARM_AF == 0 && s & !ALARM_AF == s1 & !ALARM_AF
  {
    s1 & !ALARM_AF
  }

  /** status2 with AIE set and every other bit kept. */
  function SetAie(s2: bv8): (s: bv8)
    ensures s & ALARM_AIE == ALARM_AIE && s & !ALARM_AIE == s2 & !ALARM_AIE
  {
    s2 | ALARM_AIE
  }

  /** status2 with AIE cleared and every other bit kept. */
  function ClearAie(s2: bv8): (s: bv8)
    ensures s & ALARM_AIE == 0 && s & !ALARM_AIE == s2 & !ALARM_AIE
  {
    s2 & !ALARM_AIE
  }

  /** status2 with the mode field cleared and `mode` ORed in unmasked. */
  function WithMode(s2: bv8, mode: bv8): (s: bv8)
    ensures IsAlarmMode(mode) ==> s & ALARM_MODE_FIELD == mode && s & !ALARM_MODE_FIELD == s2 & !ALARM_MODE_FIELD
    ensures s & mode == mode
  {
    (s2 & !ALARM_MODE_FIELD) | mode
  }

  /** enableAlarm: AF cleared in status1, AIE set in status2. */
  function EnableAlarmImage(r: Image): (r': Image)
    ensures r'[STAT1_ADDR] == ClearAf(r[STAT1_ADDR]) && r'[STAT2_ADDR] == SetAie(r[STAT2_ADDR])
    ensures forall a :: 0 <= a < REG_COUNT && a != STAT1_ADDR && a != STAT2_ADDR ==> r'[a] == r[a]
  {
    Splice(Splice(r, STAT1_ADDR, [ClearAf(r[STAT1_ADDR])]), STAT2_ADDR, [SetAie(r[STAT2_ADDR])])
  }

  /** clearAlarm: AF cleared in status1, AIE cleared in status2. */
  function ClearAlarmImage(r: Image): (r': Image)
    ensures r'[STAT1_ADDR] == ClearAf(r[STAT1_ADDR]) && r'[STAT2_ADDR] == ClearAie(r[STAT2_ADDR])
    ensures forall a :: 0 <= a < REG_COUNT && a != STAT1_ADDR && a != STAT2_ADDR ==> r'[a] == r[a]
  {
    Splice(Splice(r, STAT1_ADDR, [ClearAf(r[STAT1_ADDR])]), STAT2_ADDR, [ClearAie(r[STAT2_ADDR])])
  }

  /** resetAlarm: AF cleared in status1, status2 untouched. */
  function ResetAlarmImage(r: Image): (r': Image)
    ensures r'[STAT1_ADDR] == ClearAf(r[STAT1_ADDR])
    ensures forall a :: 0 <= a < REG_COUNT && a != STAT1_ADDR ==> r'[a] == r[a]
  {
    Splice(r, STAT1_ADDR, [ClearAf(r[STAT1_ADDR])])
  }

  /** setAlarmMode: the mode written into status2, then clearAlarm for mode 0 and enableAlarm otherwise. */
  function SetAlarmModeImage(r: Image, mode: bv8): (r': Image)
    ensures r'[STAT1_ADDR] == ClearAf(r[STAT1_ADDR])
    ensures r'[STAT2_ADDR] == if mode == ALARM_DISABLED then ClearAie(WithMode(r[STAT2_ADDR], mode))
                              else SetAie(WithMode(r[STAT2_ADDR], mode))
    ensures forall a :: 0 <= a < REG_COUNT && a != STAT1_ADDR && a != STAT2_ADDR ==> r'[a] == r[a]
  {
    var r1 := Splice(r, STAT2_ADDR, [WithMode(r[STAT2_ADDR], mode)]);
    if mode == ALARM_DISABLED then ClearAlarmImage(r1) else EnableAlarmImage(r1)
  }

  /** alarmEnabled: the AIE bit of status2. */
  predicate AlarmEnabled(r: Image)
  {
    r[STAT2_ADDR] & ALARM_AIE != 0
  }

  /** alarmActive: the AF bit of status1. */
  predicate AlarmActive(r: Image)
  {
    r[STAT1_ADDR] & ALARM_AF != 0
  }

  /**
   For each of the four modes, setAlarmMode leaves exactly that mode in the
   0x30 field, AIE on iff the mode is not "disabled", AF off, and every
   other status bit as it was.
   */
  lemma SetAlarmModeEffect(r: Image, mode: bv8)
    requires IsAlarmMode(mode)
    ensures var r' := SetAlarmModeImage(r, mode);
            && r'[STAT2_ADDR] & ALARM_MODE_FIELD == mode
            && (AlarmEnabled(r') <==> mode != ALARM_DISABLED)
            && !AlarmActive(r')
            && r'[STAT1_ADDR] & !ALARM_AF == r[STAT1_ADDR] & !ALARM_AF
            && r'[STAT2_ADDR] & !(ALARM_MODE_FIELD | ALARM_AIE) == r[STAT2_ADDR] & !(ALARM_MODE_FIELD | ALARM_AIE)
  {
  }

  /** What the three status operations leave for alarmEnabled and alarmActive to report. */
  lemma StatusOperationsEffect(r: Image)
    ensures !AlarmActive(EnableAlarmImage(r)) && AlarmEnabled(EnableAlarmImage(r))
    ensures !AlarmActive(ClearAlarmImage(r)) && !AlarmEnabled(ClearAlarmImage(r))
    ensures !AlarmActive(ResetAlarmImage(r)) && (AlarmEnabled(ResetAlarmImage(r)) <==> AlarmEnabled(r))
    ensures ResetAlarmImage(r)[STAT2_ADDR] == r[STAT2_ADDR]
  {
  }

  /** After initClock the clock reads 01:01:01 on day 1, month 1, weekday 0, year 1, with no alarm. */
  lemma InitClockReads()
    ensures DecodeTime(InitImage()) == TimeRead(ALARM, 0x01, 1, 1, 1)
    ensures DecodeDate(InitImage()) == DateRead(1, 0, 1, 1)
    ensures ReconcileDate(InitImage()) == InitImage()
    ensures !AlarmEnabled(InitImage()) && !AlarmActive(InitImage())
    ensures DecodeAlarm(InitImage()) == AlarmRead(0, 0, 0, 0, 0, 0, 0)
  {
  }
}
