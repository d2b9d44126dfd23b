/**
 The driver's two conversion helpers between plain numbers and
 binary-coded decimal (Rtc_Pcf8593.cpp, decToBcd and bcdToDec).

 Both work on C `byte`s: the arithmetic is done in `int` and the result is
 truncated to 8 bits on return. `bv8` arithmetic wraps modulo 256, which is
 exactly that truncation.
 */
module Bcd {

  /** A byte whose two nibbles each hold a decimal digit. */
  predicate IsBcd(b: bv8)
  {
    b >> 4 <= 9 && b & 0x0F <= 9
  }

  /** Tens digit into the high nibble, ones digit into the low nibble. */
  function DecToBcd(v: bv8): (r: bv8)
    ensures v < 100 ==> r >> 4 == v / 10 && r & 0x0F == v % 10
    ensures v < 100 ==> IsBcd(r) && r <= 0x99
    ensures v < 160 ==> r >> 4 == v / 10
  {
    v / 10 * 16 + v % 10
  }

  /** High nibble counts tens, low nibble counts ones; no nibble is checked. */
  function BcdToDec(b: bv8): (r: bv8)
    ensures r == (b >> 4) * 10 + (b & 0x0F)
    ensures IsBcd(b) ==> r < 100
    ensures r <= 165
  {
    b / 16 * 10 + b % 16
  }

  /** Encoding then decoding gives the number back exactly for 0..159; from 160 on the tens digit no longer fits a nibble. */
  lemma DecodeEncode(v: bv8)
    ensures BcdToDec(DecToBcd(v)) == v <==> v < 160
  {
  }

  /** On a well-formed BCD byte decoding then encoding gives the byte back. */
  lemma EncodeDecode(b: bv8)
    requires IsBcd(b)
    ensures DecToBcd(BcdToDec(b)) == b
  {
  }

  /** A single-digit number is its own BCD code, both ways. */
  lemma SmallValuesFixed(v: bv8)
    ensures v < 10 ==> DecToBcd(v) == v && BcdToDec(v) == v
    ensures BcdToDec(v) == v <==> v < 16
  {
  }
}
