/**
 The PCF8593 register map, bit masks, alarm modes, sentinel, format
 flags and buffer sizes of the driver header (Rtc_Pcf8593.h).
 */
module Registers {

  /** Bus addresses: the read address shifted right once is the 7-bit address the driver uses. */
  const RTCC_R: bv8 := 0xA3
  const RTCC_W: bv8 := 0xA2
  const DEVICE_ADDRESS: bv8 := RTCC_R >> 1

  /** The chip has 16 byte-wide registers at addresses 0x00 to 0x0F. */
  const REG_COUNT: nat := 16

  const STAT1_ADDR: nat := 0x00
  const HUND_SEC_ADDR: nat := 0x01
  const SEC_ADDR: nat := 0x02
  const MIN_ADDR: nat := 0x03
  const HR_ADDR: nat := 0x04
  const DAY_ADDR: nat := 0x05        // day, plus the 2-bit "years passed" counter
  const MONTH_ADDR: nat := 0x06      // month, plus the weekday
  const YEAR_ADDR: nat := 0x07       // the chip's timer register, used for the year
  const STAT2_ADDR: nat := 0x08      // alarm control / status2
  const ALRM_HUND_SEC_ADDR: nat := 0x09
  const ALRM_SEC_ADDR: nat := 0x0A
  const ALRM_MIN_ADDR: nat := 0x0B
  const ALRM_HR_ADDR: nat := 0x0C
  const ALRM_DAY_ADDR: nat := 0x0D
  const ALRM_MONTH_ADDR: nat := 0x0E // alarm month, also the alarm weekday bitmask
  const ALRM_TIMER_ADDR: nat := 0x0F // not named by the driver; initClock's last byte lands here

  /** Status bits. */
  const ALARM: bv8 := 0x04      // status1: alarm register enable, the reset value of status1
  const ALARM_AIE: bv8 := 0x80  // status2: alarm interrupt enable
  const ALARM_AF: bv8 := 0x02   // status1: alarm flag

  /** Alarm modes, held in the 0x30 field of status2. */
  const ALARM_DISABLED: bv8 := 0x00
  const ALARM_DAILY: bv8 := 0x10
  const ALARM_WEEKDAY: bv8 := 0x20
  const ALARM_DATED: bv8 := 0x30
  const ALARM_MODE_FIELD: bv8 := 0x30

  /** An alarm setter argument of this value (or more) means "no alarm for this field". */
  const NO_ALARM: bv8 := 99

  /** Field masks of the packed day and month registers: the header's year mask and the literals getDate uses. */
  const YEAR_MASK: bv8 := 0xC0
  const DAY_MASK: bv8 := 0x3F
  const WEEKDAY_MASK: bv8 := 0xE0
  const MONTH_MASK: bv8 := 0x1F

  /** Date and time format styles. */
  const DATE_WORLD: bv8 := 0x01
  const DATE_ASIA: bv8 := 0x02
  const DATE_US: bv8 := 0x04
  const TIME_HMS: bv8 := 0x01
  const TIME_HM: bv8 := 0x02

  /** The defaults of formatTime and formatDate. */
  const DEFAULT_TIME_STYLE: bv8 := TIME_HMS
  const DEFAULT_DATE_STYLE: bv8 := DATE_US

  /** Sizes of the driver's output buffers strOut and strDate. */
  const STR_OUT_SIZE: nat := 9
  const STR_DATE_SIZE: nat := 11

  predicate IsAlarmMode(m: bv8)
  {
    m == ALARM_DISABLED || m == ALARM_DAILY || m == ALARM_WEEKDAY || m == ALARM_DATED
  }

  /** The read and write bus addresses share the 7-bit address; one differs from the other in bit 0 only. */
  lemma DeviceAddress()
    ensures DEVICE_ADDRESS == 0x51 && RTCC_W >> 1 == DEVICE_ADDRESS
    ensures RTCC_R == RTCC_W | 0x01
  {
  }

  /** Every alarm mode lies inside the mode field and is disjoint from AIE. */
  lemma ModesInsideModeField(m: bv8)
    requires IsAlarmMode(m)
    ensures m & ALARM_MODE_FIELD == m
    ensures m & ALARM_AIE == 0
  {
  }

  /** AF and the reset bit of status1 are distinct bits, so clearing AF keeps 0x04. */
  lemma AfDistinctFromAlarmBit(s1: bv8)
    ensures ALARM_AF & ALARM == 0
    ensures (s1 & !ALARM_AF) & ALARM == s1 & ALARM
  {
  }

  /** The year-counter mask and the day mask split the day byte into two disjoint fields. */
  lemma DayByteMasksPartition(b: bv8)
    ensures YEAR_MASK & DAY_MASK == 0 && YEAR_MASK | DAY_MASK == 0xFF
    ensures (b & YEAR_MASK) | (b & DAY_MASK) == b
  {
  }

  /** The weekday mask and the month mask split the month byte into two disjoint fields. */
  lemma MonthByteMasksPartition(b: bv8)
    ensures WEEKDAY_MASK & MONTH_MASK == 0 && WEEKDAY_MASK | MONTH_MASK == 0xFF
    ensures (b & WEEKDAY_MASK) | (b & MONTH_MASK) == b
  {
  }

  /** The registers that multi-byte transfers cover are consecutive. */
  lemma TransferRegistersConsecutive()
    ensures MIN_ADDR == SEC_ADDR + 1 && HR_ADDR == SEC_ADDR + 2
    ensures MONTH_ADDR == DAY_ADDR + 1
    ensures ALRM_SEC_ADDR == ALRM_HUND_SEC_ADDR + 1 && ALRM_MIN_ADDR == ALRM_HUND_SEC_ADDR + 2
    ensures ALRM_HR_ADDR == ALRM_HUND_SEC_ADDR + 3
    ensures ALRM_HUND_SEC_ADDR == STAT2_ADDR + 1 && ALRM_DAY_ADDR == STAT2_ADDR + 5
    ensures ALRM_MONTH_ADDR == ALRM_DAY_ADDR + 1 && ALRM_TIMER_ADDR == REG_COUNT - 1
  {
  }
}
