/**
 The driver object (class Rtc_Pcf8593 of Rtc_Pcf8593.h / .cpp).

 The chip is the array `regs` of its 16 registers. A bus transaction that
 writes or reads n bytes from register a is WriteRegisters(a, ...) or
 ReadRegisters(a, n). The cached fields are those of the C++ class; every
 method states the registers and the cache it leaves, in terms of the
 register-image functions of module Layout.
 */
module Pcf8593 {
  import opened Registers
  import opened Bcd
  import opened Layout
  import opened Format

  class Rtc {
    /** The chip's registers 0x00..0x0F. */
    const regs: array<bv8>
    /** The 7-bit bus address of the chip. */
    const rtccAddr: bv8
    /** The output buffers of formatTime and formatDate. */
    const strOut: array<char>
    const strDate: array<char>

    var hour: bv8
    var minute: bv8
    var sec: bv8
    var hundSec: bv8
    var day: bv8
    var weekday: bv8
    var month: bv8
    var year: bv8
    var alarmSecond: bv8
    var alarmMinute: bv8
    var alarmHour: bv8
    var alarmWeekday: bv8
    var alarmDay: bv8
    var alarmMonth: bv8
    var status1: bv8
    var status2: bv8

    ghost predicate Valid()
      reads this
    {
      regs.Length == REG_COUNT && strOut.Length == STR_OUT_SIZE && strDate.Length == STR_DATE_SIZE
      && strOut != strDate
    }

    ghost function Regs(): Image
      reads this, regs
      requires Valid()
    {
      regs[..]
    }

    /**
     The constructor only computes the bus address: the chip keeps whatever
     `initial` holds, and the cached fields are left uninitialised.
     */
    constructor (initial: Image)
      ensures Valid() && fresh(regs) && fresh(strOut) && fresh(strDate)
      ensures Regs() == initial && rtccAddr == DEVICE_ADDRESS
    {
      regs := new bv8[REG_COUNT](a requires 0 <= a < REG_COUNT => initial[a]);
      strOut := new char[STR_OUT_SIZE](_ => NUL);
      strDate := new char[STR_DATE_SIZE](_ => NUL);
      rtccAddr := RTCC_R >> 1;
      new;
      assert regs[..] == initial;
    }

    // ------------------------------------------------------------ bus transactions

    /** One write transaction: `bytes` go to consecutive registers from `start` on. */
    method WriteRegisters(start: nat, bytes: seq<bv8>)
      requires Valid() && start + |bytes| <= REG_COUNT
      modifies regs
      ensures Regs() == Splice(old(Regs()), start, bytes)
    {
      var i := 0;
      while i < |bytes|
        invariant 0 <= i <= |bytes|
        invariant forall a :: 0 <= a < REG_COUNT ==>
                    regs[a] == if start <= a < start + i then bytes[a - start] else old(regs[a])
      {
        regs[start + i] := bytes[i];
        i := i + 1;
      }
      assert Regs() == Splice(old(Regs()), start, bytes);
    }

    /** One read transaction: `n` bytes from consecutive registers from `start` on. */
    method ReadRegisters(start: nat, n: nat) returns (bytes: seq<bv8>)
      requires Valid() && start + n <= REG_COUNT
      ensures |bytes| == n
      ensures forall k :: 0 <= k < n ==> bytes[k] == regs[start + k]
    {
      bytes := [];
      var i := 0;
      while i < n
        invariant 0 <= i <= n && |bytes| == i
        invariant forall k :: 0 <= k < i ==> bytes[k] == regs[start + k]
      {
        bytes := bytes + [regs[start + i]];
        i := i + 1;
      }
    }

    // ------------------------------------------------------------ set-up

    /** initClock: one sixteen-byte write from 0x00. The cache is left alone. */
    method InitClock()
      requires Valid()
      modifies regs
      ensures Regs() == InitImage()
    {
      WriteRegisters(STAT1_ADDR, InitBytes);
    }

    /** clearStatus: status1 := 0x04 and status2 := 0x00, on the chip and in the cache. */
    method ClearStatus()
      requires Valid()
      modifies regs, this`status1, this`status2
      ensures Regs() == ClearStatusImage(old(Regs()))
      ensures status1 == ALARM && status2 == 0x00
    {
      WriteRegisters(STAT1_ADDR, [0x04]);
      WriteRegisters(STAT2_ADDR, [0x00]);
      status1 := 0x04;
      status2 := 0x00;
    }

    // ------------------------------------------------------------ time and date

    /** setTime as defined: the first argument is the hour, written to 0x04. */
    method SetTime(hour: bv8, minute: bv8, sec: bv8)
      requires Valid()
      modifies regs
      ensures Regs() == SetTimeImage(old(Regs()), hour, minute, sec)
      ensures regs[HR_ADDR] == DecToBcd(hour) && regs[MIN_ADDR] == DecToBcd(minute) && regs[SEC_ADDR] == DecToBcd(sec)
    {
      WriteRegisters(SEC_ADDR, [DecToBcd(sec), DecToBcd(minute), DecToBcd(hour)]);
    }

    /** setDate: day and packed month/weekday from 0x05, then the year at 0x07; the century is unused. */
    method SetDate(day: bv8, weekday: bv8, mon: bv8, century: bv8, year: bv8)
      requires Valid()
      modifies regs
      ensures Regs() == SetDateImage(old(Regs()), day, weekday, mon, century, year)
    {
      WriteRegisters(DAY_ADDR, [DecToBcd(day), PackMonth(weekday, mon)]);
      WriteRegisters(YEAR_ADDR, [DecToBcd(year)]);
    }

    /** getTime: five bytes from 0x00 into status1, hundredths (raw), seconds, minutes, hours. */
    method GetTime()
      requires Valid()
      modifies this`status1, this`hundSec, this`sec, this`minute, this`hour
      ensures TimeRead(status1, hundSec, sec, minute, hour) == DecodeTime(Regs())
    {
      var b := ReadRegisters(STAT1_ADDR, 5);
      status1 := b[0];
      hundSec := b[1];
      sec := BcdToDec(b[2]);
      minute := BcdToDec(b[3]);
      hour := BcdToDec(b[4]);
    }

    /**
     getDate: decodes day, weekday, month and year; when the years-passed
     counter is nonzero it adds it to the year and writes back the new year
     and the decoded day.
     */
    method GetDate()
      requires Valid()
      modifies regs, this`day, this`weekday, this`month, this`year
      ensures DateRead(day, weekday, month, year) == DecodeDate(old(Regs()))
      ensures Regs() == ReconcileDate(old(Regs()))
    {
      var b := ReadRegisters(DAY_ADDR, 2);
      var yearsPassed := YearsPassed(b[0]);
      day := UnpackDay(b[0]);
      weekday := UnpackWeekday(b[1]);
      month := UnpackMonth(b[1]);

      var y := ReadRegisters(YEAR_ADDR, 1);
      year := BcdToDec(y[0]);

      if yearsPassed > 0 {
        year := year + yearsPassed;
        WriteRegisters(YEAR_ADDR, [DecToBcd(year)]);
        WriteRegisters(DAY_ADDR, [day]);
      }
    }

    // ------------------------------------------------------------ status

    /** readStatus1: status1 from the chip into the cache, and returned. */
    method ReadStatus1() returns (s: bv8)
      requires Valid()
      modifies this`status1
      ensures s == regs[STAT1_ADDR] && status1 == s
    {
      var b := ReadRegisters(STAT1_ADDR, 1);
      status1 := b[0];
      s := status1;
    }

    /** readStatus2: status2 from the chip into the cache, and returned. */
    method ReadStatus2() returns (s: bv8)
      requires Valid()
      modifies this`status2
      ensures s == regs[STAT2_ADDR] && status2 == s
    {
      var b := ReadRegisters(STAT2_ADDR, 1);
      status2 := b[0];
      s := status2;
    }

    /** alarmEnabled: whether AIE is set in status2 (refreshing the cached status2). */
    method AlarmEnabled() returns (on: bool)
      requires Valid()
      modifies this`status2
      ensures on == Layout.AlarmEnabled(Regs()) && status2 == regs[STAT2_ADDR]
    {
      var s := ReadStatus2();
      on := s & ALARM_AIE != 0;
    }

    /** alarmActive: whether AF is set in status1 (refreshing the cached status1). */
    method AlarmActive() returns (on: bool)
      requires Valid()
      modifies this`status1
      ensures on == Layout.AlarmActive(Regs()) && status1 == regs[STAT1_ADDR]
    {
      var s := ReadStatus1();
      on := s & ALARM_AF != 0;
    }

    /** enableAlarm: read both status bytes, clear AF, set AIE, write both back. */
    method EnableAlarm()
      requires Valid()
      modifies regs, this`status1, this`status2
      ensures Regs() == EnableAlarmImage(old(Regs()))
      ensures status1 == regs[STAT1_ADDR] && status2 == regs[STAT2_ADDR]
    {
      var _ := ReadStatus1();
      var _ := ReadStatus2();
      status1 := status1 & !ALARM_AF;
      status2 := status2 | ALARM_AIE;
      WriteRegisters(STAT1_ADDR, [status1]);
      WriteRegisters(STAT2_ADDR, [status2]);
    }

    /** clearAlarm: read both status bytes, clear AF and AIE, write both back. */
    method ClearAlarm()
      requires Valid()
      modifies regs, this`status1, this`status2
      ensures Regs() == ClearAlarmImage(old(Regs()))
      ensures status1 == regs[STAT1_ADDR] && status2 == regs[STAT2_ADDR]
    {
      var _ := ReadStatus1();
      var _ := ReadStatus2();
      status1 := status1 & !ALARM_AF;
      status2 := status2 & !ALARM_AIE;
      WriteRegisters(STAT1_ADDR, [status1]);
      WriteRegisters(STAT2_ADDR, [status2]);
    }

    /** resetAlarm: clear AF in status1 and leave status2 (and so AIE) alone. */
    method ResetAlarm()
      requires Valid()
      modifies regs, this`status1
      ensures Regs() == ResetAlarmImage(old(Regs()))
      ensures status1 == regs[STAT1_ADDR]
    {
      var _ := ReadStatus1();
      status1 := status1 & !ALARM_AF;
      WriteRegisters(STAT1_ADDR, [status1]);
    }

    // ------------------------------------------------------------ alarm

    /** setAlarmTime: four bytes from 0x09: hundredths 0, then seconds, minutes, hours. */
    method SetAlarmTime(hour: bv8, min: bv8, sec: bv8)
      requires Valid()
      modifies regs
      ensures Regs() == SetAlarmTimeImage(old(Regs()), hour, min, sec)
    {
      var s, m, h;
      if sec < NO_ALARM {
        s := Clamp(sec, 0, 59);
        s := DecToBcd(s);
      } else {
        s := 0x00;
      }
      if min < NO_ALARM {
        m := Clamp(min, 0, 59);
        m := DecToBcd(m);
      } else {
        m := 0x00;
      }
      if hour < NO_ALARM {
        h := Clamp(hour, 0, 23);
        h := DecToBcd(h);
      } else {
        h := 0x00;
      }
      WriteRegisters(ALRM_HUND_SEC_ADDR, [0x00, s, m, h]);
    }

    /** setAlarmDate: two bytes from 0x0D: day, then month. */
    method SetAlarmDate(day: bv8, month: bv8)
      requires Valid()
      modifies regs
      ensures Regs() == SetAlarmDateImage(old(Regs()), day, month)
    {
      var d, m;
      if day < NO_ALARM {
        d := Clamp(day, 1, 31);
        d := DecToBcd(d);
      } else {
        d := 0x00;
      }
      if month < NO_ALARM {
        m := Clamp(month, 1, 12);
        m := DecToBcd(m);
      } else {
        m := 0x00;
      }
      WriteRegisters(ALRM_DAY_ADDR, [d, m]);
    }

    /** setAlarmWeekday: the raw weekday bitmask (bit 0 Sunday .. bit 6 Saturday) to 0x0E. */
    method SetAlarmWeekday(weekday: bv8)
      requires Valid()
      modifies regs
      ensures Regs() == SetAlarmWeekdayImage(old(Regs()), weekday)
    {
      WriteRegisters(ALRM_MONTH_ADDR, [weekday]);
    }

    /** setAlarmMode: replace the mode field of status2, then clearAlarm for mode 0 or enableAlarm otherwise. */
    method SetAlarmMode(mode: bv8)
      requires Valid()
      modifies regs, this`status1, this`status2
      ensures Regs() == SetAlarmModeImage(old(Regs()), mode)
      ensures status1 == regs[STAT1_ADDR] && status2 == regs[STAT2_ADDR]
    {
      ghost var r := Regs();
      var _ := ReadStatus2();
      status2 := status2 & !ALARM_MODE_FIELD;
      status2 := status2 | mode;
      assert status2 == WithMode(r[STAT2_ADDR], mode);
      WriteRegisters(STAT2_ADDR, [status2]);
      assert Regs() == Splice(r, STAT2_ADDR, [WithMode(r[STAT2_ADDR], mode)]);
      if mode == ALARM_DISABLED {
        ClearAlarm();
      } else {
        EnableAlarm();
      }
    }

    /** getAlarm: seven bytes from 0x08; 0x0E gives both the raw weekday and the decoded month. */
    method GetAlarm()
      requires Valid()
      modifies this`status2, this`alarmSecond, this`alarmMinute, this`alarmHour, this`alarmDay
      modifies this`alarmWeekday, this`alarmMonth
      ensures AlarmRead(status2, alarmSecond, alarmMinute, alarmHour, alarmDay, alarmWeekday, alarmMonth)
              == DecodeAlarm(Regs())
    {
      var b := ReadRegisters(STAT2_ADDR, 7);
      status2 := b[0];
      alarmSecond := b[1];
      alarmSecond := BcdToDec(b[2]);
      alarmMinute := BcdToDec(b[3]);
      alarmHour := BcdToDec(b[4]);
      alarmDay := BcdToDec(b[5]);
      alarmWeekday := b[6];
      alarmMonth := BcdToDec(alarmWeekday);
    }

    // ------------------------------------------------------------ text

    /** formatTime: getTime, then the switch on the style fills strOut; returns strOut. */
    method FormatTime(style: bv8 := DEFAULT_TIME_STYLE) returns (out: array<char>)
      requires Valid()
      modifies strOut, this`status1, this`hundSec, this`sec, this`minute, this`hour
      ensures out == strOut
      ensures TimeRead(status1, hundSec, sec, minute, hour) == DecodeTime(Regs())
      ensures var s := TimeText(style, hour, minute, sec);
              strOut[..|s|] == s && strOut[|s|..] == old(strOut[|s|..])
    {
      GetTime();
      if style == TIME_HM {
        FillTimeHm();
      } else {
        FillTimeHms();
      }
      out := strOut;
    }

    /** formatTime, case TIME_HM: "HH:MM" and NUL into strOut[0..5]. */
    method FillTimeHm()
      requires Valid()
      modifies strOut
      ensures strOut[..6] == TimeText(TIME_HM, hour, minute, sec) && strOut[6..] == old(strOut[6..])
    {
      var h, m := TwoDigits(hour), TwoDigits(minute);
      strOut[0] := h[0];
      strOut[1] := h[1];
      strOut[2] := ':';
      strOut[3] := m[0];
      strOut[4] := m[1];
      strOut[5] := NUL;
      assert strOut[..6] == [h[0], h[1], ':', m[0], m[1], NUL];
    }

    /** formatTime, case TIME_HMS and default: "HH:MM:SS" and NUL into strOut[0..8]. */
    method FillTimeHms()
      requires Valid()
      modifies strOut
      ensures strOut[..] == TimeText(TIME_HMS, hour, minute, sec)
    {
      var h, m, x := TwoDigits(hour), TwoDigits(minute), TwoDigits(sec);
      strOut[0] := h[0];
      strOut[1] := h[1];
      strOut[2] := ':';
      strOut[3] := m[0];
      strOut[4] := m[1];
      strOut[5] := ':';
      strOut[6] := x[0];
      strOut[7] := x[1];
      strOut[8] := NUL;
      assert strOut[..] == [h[0], h[1], ':', m[0], m[1], ':', x[0], x[1], NUL];
    }

    /** formatDate: getDate (with its write-back), then the switch on the style fills strDate; returns strDate. */
    method FormatDate(style: bv8 := DEFAULT_DATE_STYLE) returns (out: array<char>)
      requires Valid()
      modifies regs, strDate, this`day, this`weekday, this`month, this`year
      ensures out == strDate
      ensures DateRead(day, weekday, month, year) == DecodeDate(old(Regs()))
      ensures Regs() == ReconcileDate(old(Regs()))
      ensures strDate[..] == DateText(style, day, month, year)
    {
      GetDate();
      if style == DATE_ASIA {
        FillDateAsia();
      } else if style == DATE_US {
        FillDateUs();
      } else {
        FillDateWorld();
      }
      out := strDate;
    }

    /** formatDate, case DATE_ASIA: yyyy-mm-dd. */
    method FillDateAsia()
      requires Valid()
      modifies strDate
      ensures strDate[..] == AsiaText(day, month, year)
    {
      var d, m, y := TwoDigits(day), TwoDigits(month), TwoDigits(year);
      strDate[0] := '2';
      strDate[1] := '0';
      strDate[2] := y[0];
      strDate[3] := y[1];
      strDate[4] := '-';
      strDate[5] := m[0];
      strDate[6] := m[1];
      strDate[7] := '-';
      strDate[8] := d[0];
      strDate[9] := d[1];
      strDate[10] := NUL;
      assert strDate[..] == ['2', '0', y[0], y[1], '-', m[0], m[1], '-', d[0], d[1], NUL];
    }

    /** formatDate, case DATE_US: mm/dd/yyyy. */
    method FillDateUs()
      requires Valid()
      modifies strDate
      ensures strDate[..] == UsText(day, month, year)
    {
      var d, m, y := TwoDigits(day), TwoDigits(month), TwoDigits(year);
      strDate[0] := m[0];
      strDate[1] := m[1];
      strDate[2] := '/';
      strDate[3] := d[0];
      strDate[4] := d[1];
      strDate[5] := '/';
      strDate[6] := '2';
      strDate[7] := '0';
      strDate[8] := y[0];
      strDate[9] := y[1];
      strDate[10] := NUL;
      assert strDate[..] == [m[0], m[1], '/', d[0], d[1], '/', '2', '0', y[0], y[1], NUL];
    }

    /** formatDate, case DATE_WORLD and default: dd-mm-yyyy. */
    method FillDateWorld()
      requires Valid()
      modifies strDate
      ensures strDate[..] == WorldText(day, month, year)
    {
      var d, m, y := TwoDigits(day), TwoDigits(month), TwoDigits(year);
      strDate[0] := d[0];
      strDate[1] := d[1];
      strDate[2] := '-';
      strDate[3] := m[0];
      strDate[4] := m[1];
      strDate[5] := '-';
      strDate[6] := '2';
      strDate[7] := '0';
      strDate[8] := y[0];
      strDate[9] := y[1];
      strDate[10] := NUL;
      assert strDate[..] == [d[0], d[1], '-', m[0], m[1], '-', '2', '0', y[0], y[1], NUL];
    }

    // ------------------------------------------------------------ cache getters

    function GetSecond(): bv8 reads this { sec }
    function GetMinute(): bv8 reads this { minute }
    function GetHour(): bv8 reads this { hour }
    function GetDay(): bv8 reads this { day }
    function GetMonth(): bv8 reads this { month }
    function GetYear(): bv8 reads this { year }
    function GetWeekday(): bv8 reads this { weekday }
    function GetStatus1(): bv8 reads this { status1 }
    function GetStatus2(): bv8 reads this { status2 }
    function GetAlarmSecond(): bv8 reads this { alarmSecond }
    function GetAlarmMinute(): bv8 reads this { alarmMinute }
    function GetAlarmHour(): bv8 reads this { alarmHour }
    function GetAlarmDay(): bv8 reads this { alarmDay }
    function GetAlarmMonth(): bv8 reads this { alarmMonth }
    function GetAlarmWeekday(): bv8 reads this { alarmWeekday }
  }
}
