# PCF8593 real-time clock driver, modelled in Dafny

This project models the Arduino driver `Rtc_Pcf8593` for the NXP PCF8593 clock
chip. The driver talks to the chip over I²C. Here the bus is replaced by the
chip's sixteen byte-wide registers 0x00–0x0F, so that:

- a transaction that writes n bytes from register a writes a, a+1, …, a+n-1;
- a transaction that reads n bytes from register a reads those registers.

What remains is the driver's own logic:

- the BCD codec;
- the packing of weekday and month into register 0x06;
- the two-bit "years passed" counter in register 0x05 and the year
  write-back that `getDate` performs;
- the alarm setters with their `99` "no alarm" sentinel and clamping;
- the read-modify-write of the status bits AF (status1, 0x02), AIE
  (status2, 0x80) and the alarm-mode field (status2, 0x30);
- the text that `formatTime` and `formatDate` write into their fixed buffers.

Modules:

- `Registers` (`registers.dfy`): the constants of the header. These are the
  register map, status bits, alarm modes, the sentinel, masks, format styles
  and buffer sizes, plus small lemmas about how they fit together.
- `Bcd` (`bcd.dfy`): `decToBcd` and `bcdToDec` on bytes. Every byte is a
  `bv8`, so C's truncation of an `int` result to `byte` is bv8 wrap-around.
- `Layout` (`layout.dfy`): the meaning of every transfer, stated on a
  16-byte register image (`Image`).
  - `XImage(r)` functions give the registers after each setter.
  - `DecodeX(r)` functions give what each getter leaves in the driver's cache.
  - The lemmas state the properties that relate several operations.
- `Format` (`format.dfy`): the text in `strOut` and `strDate`, and lemmas
  saying that the two-digit fields spell their numbers.
- `Pcf8593` (`rtc.dfy`): the class `Rtc` with the chip's registers
  (`regs: array<bv8>`), the driver's cached fields and its two `char` buffers.
  - Every driver method that talks to the chip is a method here. It performs
    the same sequence of register reads and writes and the same updates to
    the cached fields.
  - Each method's `ensures` ties the new registers and cache to the `Layout`
    and `Format` functions.
  - `WriteRegisters` and `ReadRegisters` are the two bus transactions.
    `WriteRegisters` is specified by `Layout.Splice`.
  - The bit tests of `alarmEnabled` and `alarmActive` (Rtc_Pcf8593.cpp:195
    and 208) are the predicates `Layout.AlarmEnabled` and
    `Layout.AlarmActive`. `Rtc.AlarmEnabled` and `Rtc.AlarmActive` return
    exactly these on the chip's registers.
  - The cache getters (`getSecond` … `getStatus2`,
    Rtc_Pcf8593.cpp:536-594) are the functions `GetSecond` … `GetStatus2`.
    They only read a field, so they carry no contract of their own.

Where the header and the definition disagree, the model follows the definition:

- The header declares `setTime(byte sec, byte minute, byte hour)`
  (Rtc_Pcf8593.h:103).
- The definition is `setTime(byte hour, byte minute, byte sec)`
  (Rtc_Pcf8593.cpp:97).
- `SetTime`'s first argument is therefore written to the hour register 0x04.

The model keeps the driver's behaviour exactly as written, including:

- `getDate` writes the decoded *decimal* day back to register 0x05, not its
  BCD. A second `getDate` therefore reports the same day only below 16
  (`GetDateAfterRollover`).
- `getDate` adds the years-passed counter to the year with no wrap at 100.
  The new year's BCD round-trips only below 160.
- `setAlarmMode` ORs `mode` into status2 unmasked.
- `setDate` ignores `century`.
- `clearStatus` writes 0x04 to status1, although the header's comment says
  both status bytes are set to zero.
- `initClock` writes 0x01 to registers 0x01–0x07, although the header's
  comment says it zeroes all values.
- `getAlarm` reads seven bytes from 0x08. Register 0x0E gives both the raw
  alarm weekday and, decoded, the alarm month.

## Model

| member | source | states |
|---|---|---|
| Bcd.DecToBcd | Rtc_Pcf8593.cpp:70-73 | for v < 100 the high nibble is v / 10 and the low nibble v % 10, so the code is well-formed BCD and at most 0x99; below 160 the high nibble is still v / 10 |
| Bcd.BcdToDec | Rtc_Pcf8593.cpp:75-78 | the result is ten times the high nibble plus the low nibble, below 100 for well-formed BCD and never above 165 |
| Bcd.DecodeEncode | Rtc_Pcf8593.cpp:70-78 | bcdToDec(decToBcd(v)) == v exactly when v < 160, so on all of 0..99 |
| Bcd.EncodeDecode | Rtc_Pcf8593.cpp:70-78 | on a byte whose nibbles are both at most 9, decToBcd(bcdToDec(b)) == b |
| Bcd.SmallValuesFixed | Rtc_Pcf8593.cpp:70-78 | single digits are their own BCD code, and bcdToDec fixes exactly the bytes below 16 |
| Registers.DeviceAddress | Rtc_Pcf8593.h:42-43 | 0xA3 >> 1 is the 7-bit address 0x51, shared by the read and write addresses, which differ in bit 0 only |
| Registers.ModesInsideModeField | Rtc_Pcf8593.h:66-71 | each of the four alarm modes lies inside the 0x30 field and is disjoint from AIE |
| Registers.AfDistinctFromAlarmBit | Rtc_Pcf8593.h:65-67 | AF and the status1 bit 0x04 are distinct, so clearing AF keeps 0x04 |
| Registers.DayByteMasksPartition | Rtc_Pcf8593.cpp:400-406 | the year-counter mask 0xC0 and the day mask 0x3F are disjoint and together cover every byte |
| Registers.MonthByteMasksPartition | Rtc_Pcf8593.cpp:408-415 | the weekday mask 0xE0 and the month mask 0x1F are disjoint and together cover every byte |
| Registers.TransferRegistersConsecutive | Rtc_Pcf8593.h:46-60 | the registers that multi-byte transfers cover (time 0x02–0x04, date 0x05–0x06, alarm 0x08–0x0E) are consecutive |
| Layout.Splice | Rtc_Pcf8593.cpp:99-105 | a write transaction's bytes land in consecutive registers from the start address, and every other register keeps its value |
| Layout.InitImage | Rtc_Pcf8593.cpp:44-67 | after initClock status1 is 0x04, registers 0x01–0x07 are 0x01, and status2 and the alarm registers are 0x00 |
| Layout.ClearStatusImage | Rtc_Pcf8593.cpp:81-95 | status1 becomes 0x04, status2 becomes 0, and no other register changes |
| Layout.SetTimeImage | Rtc_Pcf8593.cpp:97-106 | 0x02, 0x03 and 0x04 get the BCD of the second, minute and hour, in that order; nothing else changes; the codes are well-formed BCD below 100 |
| Layout.DecodeTime | Rtc_Pcf8593.cpp:438-451 | status1 and the hundredths are taken raw; second, minute and hour are the BCD decodings of 0x02, 0x03 and 0x04, each below 100 when the registers are well-formed BCD |
| Layout.SetTimeGetTime | Rtc_Pcf8593.cpp:97-106 | getTime after setTime reports the hour, minute and second that were set, for values below 100, with status1 and the hundredths untouched |
| Layout.PackMonth | Rtc_Pcf8593.cpp:118-122 | for weekday < 8 and month < 20 the weekday sits in bits 5–7 and the month's BCD in bits 0–4 |
| Layout.UnpackWeekday | Rtc_Pcf8593.cpp:408-412 | the weekday is bits 5–7 of the month byte, so below 8 |
| Layout.UnpackMonth | Rtc_Pcf8593.cpp:413-415 | the month decoded from bits 0–4 is below 26 |
| Layout.YearsPassed | Rtc_Pcf8593.cpp:398-402 | the counter is the top two bits of the day byte, so below 4 |
| Layout.UnpackDay | Rtc_Pcf8593.cpp:404-406 | the day decoded from bits 0–5 of the day byte is below 46, and below 40 when those bits are well-formed BCD |
| Layout.MonthRoundTrip | Rtc_Pcf8593.cpp:118-122 | packing then unpacking gives back the weekday and the month |
| Layout.SetDateImage | Rtc_Pcf8593.cpp:108-129 | only 0x05–0x07 change, and a day below 40 leaves the years-passed counter 0 |
| Layout.DecodeDate | Rtc_Pcf8593.cpp:389-425 | day, weekday and month come from their fields; the year is the stored year plus the counter, never wrapped, at most 168 |
| Layout.ReconcileDate | Rtc_Pcf8593.cpp:424-435 | with counter 0 no register changes; otherwise 0x07 gets the BCD of the new year, 0x05 gets the decimal day, the counter becomes 0, and nothing else changes |
| Layout.SetDateGetDate | Rtc_Pcf8593.cpp:108-129 | for day 1..31, weekday 0..6, month 1..12 and year 0..99, getDate after setDate reports exactly those values and writes nothing |
| Layout.GetDateAfterRollover | Rtc_Pcf8593.cpp:424-435 | after a rollover a second getDate writes nothing and keeps weekday and month; the year survives iff below 160 and the day iff below 16 |
| Layout.Clamp | Rtc_Pcf8593.cpp:222-224 | constrain: the result lies in lo..hi, is v inside the range and the nearer bound outside it |
| Layout.AlarmField | Rtc_Pcf8593.cpp:222-241 | an argument of 99 or more encodes to 0; any other is clamped and encoded as well-formed BCD |
| Layout.SetAlarmTimeImage | Rtc_Pcf8593.cpp:220-251 | 0x09 becomes 0, 0x0A–0x0C get the encoded second, minute and hour, and only 0x09–0x0C change |
| Layout.SetAlarmDateImage | Rtc_Pcf8593.cpp:258-280 | 0x0D and 0x0E get the encoded day (1..31) and month (1..12), and nothing else changes |
| Layout.SetAlarmWeekdayImage | Rtc_Pcf8593.cpp:287-307 | the raw bitmask goes to 0x0E and nothing else changes |
| Layout.DecodeAlarm | Rtc_Pcf8593.cpp:333-350 | status2 and the weekday are raw bytes, and the month is the BCD decoding of that same weekday byte |
| Layout.AlarmReadBack | Rtc_Pcf8593.cpp:220-280 | after setAlarmTime and setAlarmDate, getAlarm reports each value clamped, or 0 for a sentinel argument |
| Layout.AlarmMonthWeekdayShared | Rtc_Pcf8593.cpp:341-349 | alarm month and weekday share 0x0E: the setter that ran last decides both values getAlarm reports |
| Layout.ClearAf | Rtc_Pcf8593.cpp:140 | AF is cleared and every other bit of status1 is kept |
| Layout.SetAie | Rtc_Pcf8593.cpp:142 | AIE is set and every other bit of status2 is kept |
| Layout.ClearAie | Rtc_Pcf8593.cpp:376 | AIE is cleared and every other bit of status2 is kept |
| Layout.WithMode | Rtc_Pcf8593.cpp:315-316 | for a valid mode the 0x30 field holds the mode and every other bit is kept; any mode's bits end up set |
| Layout.EnableAlarmImage | Rtc_Pcf8593.cpp:135-155 | AF cleared in status1, AIE set in status2, no other register changes |
| Layout.ClearAlarmImage | Rtc_Pcf8593.cpp:369-387 | AF cleared in status1, AIE cleared in status2, no other register changes |
| Layout.ResetAlarmImage | Rtc_Pcf8593.cpp:355-364 | AF cleared in status1, and every other register, status2 included, is unchanged |
| Layout.SetAlarmModeImage | Rtc_Pcf8593.cpp:312-328 | AF cleared; status2 gets the mode and then AIE cleared for mode 0 or set otherwise; nothing else changes |
| Layout.SetAlarmModeEffect | Rtc_Pcf8593.cpp:312-328 | for each of the four modes: the 0x30 field equals the mode, AIE is on iff the mode is not 0, AF is off, and every other status bit is unchanged |
| Layout.StatusOperationsEffect | Rtc_Pcf8593.cpp:355-387 | what alarmActive and alarmEnabled report after enableAlarm, clearAlarm and resetAlarm; resetAlarm leaves status2 and AIE alone |
| Layout.InitClockReads | Rtc_Pcf8593.cpp:44-67 | after initClock the driver reads 01:01:01, day 1, month 1, weekday 0, year 1, with no alarm enabled or active |
| Format.Digit | Rtc_Pcf8593.cpp:458-459 | '0' plus a field's tens or ones is never the terminator |
| Format.TwoDigits | Rtc_Pcf8593.cpp:458-459 | each field is two characters, neither of them the terminator |
| Format.TwoDigitsSpell | Rtc_Pcf8593.cpp:458-459 | for a value below 100 the two characters are decimal digits spelling it; from 100 on the first one is not a digit |
| Format.TimeText | Rtc_Pcf8593.cpp:453-479 | a NUL-terminated text of 5 characters ("HH:MM") for TIME_HM and 8 ("HH:MM:SS") for any other style, with ':' separators |
| Format.TimeTextSpells | Rtc_Pcf8593.cpp:456-476 | the fields of the time text spell the hour, minute and second when below 100 |
| Format.AsiaText | Rtc_Pcf8593.cpp:488-501 | "20YY-MM-DD" and NUL: 10 characters, then the terminator |
| Format.UsText | Rtc_Pcf8593.cpp:502-515 | "MM/DD/20YY" and NUL: 10 characters, then the terminator |
| Format.WorldText | Rtc_Pcf8593.cpp:516-530 | "DD-MM-20YY" and NUL: 10 characters, then the terminator |
| Format.DateText | Rtc_Pcf8593.cpp:486-532 | every style gives a NUL-terminated text of 10 characters |
| Format.DateTextSpells | Rtc_Pcf8593.cpp:488-530 | in each layout the fields spell the day, month and two-digit year |
| Format.BuffersHoldOutputs | Rtc_Pcf8593.h:136-165 | strOut[9] and strDate[11] hold every output with its NUL; the default time style fills strOut exactly, and the default date style is US |
| Format.UsDateExample | Rtc_Pcf8593.cpp:502-515 | the US text for 5 March 2024 is "03/05/2024" |
| Pcf8593.Rtc.constructor | Rtc_Pcf8593.cpp:38-42 | the bus address is 0xA3 >> 1 and the chip's registers are as given |
| Pcf8593.Rtc.WriteRegisters | Rtc_Pcf8593.cpp:99-105 | one write transaction: the bytes land in consecutive registers from the start address and nothing else changes |
| Pcf8593.Rtc.ReadRegisters | Rtc_Pcf8593.cpp:445-450 | one read transaction: n bytes, byte k from register start + k |
| Pcf8593.Rtc.InitClock | Rtc_Pcf8593.cpp:44-67 | the registers become InitImage |
| Pcf8593.Rtc.ClearStatus | Rtc_Pcf8593.cpp:81-95 | the registers become ClearStatusImage, and the cache holds status1 0x04 and status2 0 |
| Pcf8593.Rtc.SetTime | Rtc_Pcf8593.cpp:97-106 | the registers become SetTimeImage; the first argument's BCD is in the hour register, the minute's in 0x03 and the last argument's in 0x02 |
| Pcf8593.Rtc.SetDate | Rtc_Pcf8593.cpp:108-129 | the registers become SetDateImage |
| Pcf8593.Rtc.GetTime | Rtc_Pcf8593.cpp:438-451 | the cached status1, hundredths, seconds, minutes and hours are DecodeTime of the registers |
| Pcf8593.Rtc.GetDate | Rtc_Pcf8593.cpp:389-436 | the cached date is DecodeDate of the registers before the call, and the registers become ReconcileDate of them |
| Pcf8593.Rtc.ReadStatus1 | Rtc_Pcf8593.cpp:161-171 | returns register 0x00 and caches it |
| Pcf8593.Rtc.ReadStatus2 | Rtc_Pcf8593.cpp:177-187 | returns register 0x08 and caches it |
| Pcf8593.Rtc.AlarmEnabled | Rtc_Pcf8593.cpp:193-200 | true exactly when AIE is set in status2, which is cached |
| Pcf8593.Rtc.AlarmActive | Rtc_Pcf8593.cpp:206-213 | true exactly when AF is set in status1, which is cached |
| Pcf8593.Rtc.EnableAlarm | Rtc_Pcf8593.cpp:135-155 | the registers become EnableAlarmImage, and the cached status bytes equal the chip's |
| Pcf8593.Rtc.ClearAlarm | Rtc_Pcf8593.cpp:369-387 | the registers become ClearAlarmImage, and the cached status bytes equal the chip's |
| Pcf8593.Rtc.ResetAlarm | Rtc_Pcf8593.cpp:355-364 | the registers become ResetAlarmImage, and the cached status1 equals the chip's |
| Pcf8593.Rtc.SetAlarmTime | Rtc_Pcf8593.cpp:220-251 | the registers become SetAlarmTimeImage |
| Pcf8593.Rtc.SetAlarmDate | Rtc_Pcf8593.cpp:258-280 | the registers become SetAlarmDateImage |
| Pcf8593.Rtc.SetAlarmWeekday | Rtc_Pcf8593.cpp:287-307 | the registers become SetAlarmWeekdayImage |
| Pcf8593.Rtc.SetAlarmMode | Rtc_Pcf8593.cpp:312-328 | the registers become SetAlarmModeImage, and the cached status bytes equal the chip's |
| Pcf8593.Rtc.GetAlarm | Rtc_Pcf8593.cpp:333-350 | the cached status2 and alarm values are DecodeAlarm of the registers |
| Pcf8593.Rtc.FormatTime | Rtc_Pcf8593.cpp:453-479 | refreshes the time as GetTime does, then strOut starts with TimeText of the style and the time read; the rest of strOut is unchanged; returns strOut |
| Pcf8593.Rtc.FillTimeHm | Rtc_Pcf8593.cpp:457-464 | strOut[0..5] holds "HH:MM" and NUL; strOut[6..8] are unchanged |
| Pcf8593.Rtc.FillTimeHms | Rtc_Pcf8593.cpp:465-476 | strOut holds "HH:MM:SS" and NUL |
| Pcf8593.Rtc.FormatDate | Rtc_Pcf8593.cpp:482-534 | refreshes the date as GetDate does, write-back included, then strDate holds DateText of the style and the date read; returns strDate |
| Pcf8593.Rtc.FillDateAsia | Rtc_Pcf8593.cpp:488-501 | strDate holds AsiaText of the cached date |
| Pcf8593.Rtc.FillDateUs | Rtc_Pcf8593.cpp:502-515 | strDate holds UsText of the cached date |
| Pcf8593.Rtc.FillDateWorld | Rtc_Pcf8593.cpp:516-530 | strDate holds WorldText of the cached date |

## Left out

- The Wire/I²C transport (Rtc_Pcf8593.cpp:38-42 and every transaction): `Wire.begin`, `beginTransmission`, `write`, `endTransmission`, `requestFrom` and `read` become the register array. Bus faults and missing ACKs are not visible to this code.
- The chip's own behaviour: the clock ticking, hundredths counting, the years-passed counter incrementing, and raising AF or the interrupt pin. Registers change only through the driver's writes, starting from arbitrary contents given to the constructor.
- The 12/24-hour flag bits of the hour register and the timer functions, which the driver does not implement. No bit is masked that the driver does not mask.
- `Rtcc_Addr` beyond its value: it is an `int` holding 0xA3 >> 1, modelled as the byte `rtccAddr`.
- Pcf8593.Rtc.constructor: the C++ constructor leaves the cached fields and the buffers uninitialised. The model states nothing about them until a getter or formatter writes them.
- Pcf8593.Rtc.GetSecond (and the other cache getters): each returns its field, and no contract beyond that is stated.
- Arduino's `constrain` macro is modelled as the plain clamp `Clamp`.
