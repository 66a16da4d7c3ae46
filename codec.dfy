/** Pure conversions between register words and the values the plugins show:
    signed tenths, the two selector encodings, the packed clock words and the
    32-bit counters spread over two registers. */
module Codec {
  import opened Modbus

  /** The levels the Mode and TempControlType selectors accept in a Set Level
      command (`available_mode_levels` in plugin.py, `AVAILABLE_LEVELS` in
      domekt.py). */
  const AvailableLevels: seq<int> := [10, 20, 30, 40]

  // ---------------------------------------------------------------------
  // Signed 16-bit words in tenths

  /** `ctypes.c_short(w).value`: the word read as a two's-complement
      integer. */
  function ToSigned16(w: Word): (v: int)
    ensures -0x8000 <= v < 0x8000
    ensures (v + 0x1_0000) % 0x1_0000 == w
  {
    if w < 0x8000 then w else w - 0x1_0000
  }

  /** The word that holds the 16-bit two's-complement integer `v`. */
  function FromSigned16(v: int): (w: Word)
    requires -0x8000 <= v < 0x8000
    ensures (v + 0x1_0000) % 0x1_0000 == w
  {
    if v < 0 then v + 0x1_0000 else v
  }

  /** `ConvertToFloat`: the temperature or percentage in a register, in
      tenths of a unit (the plugin divides the signed value by 10). */
  function ConvertToTenths(w: Word): (tenths: int)
    ensures -0x8000 <= tenths < 0x8000
    ensures FromSigned16(tenths) == w
  {
    ToSigned16(w)
  }

  lemma SignedRoundTrip(w: Word, v: int)
    requires -0x8000 <= v < 0x8000
    ensures FromSigned16(ToSigned16(w)) == w
    ensures ToSigned16(FromSigned16(v)) == v
  {
  }

  /** The register value 65486 reads as -5.0 (minus fifty tenths). */
  lemma ConvertToTenthsExample()
    ensures ConvertToTenths(65486) == -50
    ensures ConvertToTenths(FromSigned16(-50)) == -50
  {
  }

  // ---------------------------------------------------------------------
  // Selector levels

  /** The Mode selector level for a register value: `reg * 10`. */
  function ModeLevel(r: Word): (level: int)
    ensures level % 10 == 0 && level / 10 == r
  {
    r * 10
  }

  /** The register value for a Mode level: `int(Level / 10)`. */
  function ModeRegister(level: int): (r: int)
    requires level in AvailableLevels
    ensures 1 <= r <= 4 && r * 10 == level
  {
    level / 10
  }

  /** The TempControlType selector level for a register value:
      `reg * 10 + 10`. */
  function TempControlLevel(r: Word): (level: int)
    ensures level >= 10 && level % 10 == 0 && (level - 10) / 10 == r
  {
    r * 10 + 10
  }

  /** The register value for a TempControlType level:
      `int((Level - 10) / 10)`. */
  function TempControlRegister(level: int): (r: int)
    requires level in AvailableLevels
    ensures 0 <= r <= 3 && r * 10 + 10 == level
  {
    (level - 10) / 10
  }

  lemma ModeRoundTrip(level: int)
    requires level in AvailableLevels
    ensures 1 <= ModeRegister(level) <= 4
    ensures ModeLevel(ModeRegister(level)) == level
  {
  }

  /** A register value decodes to an accepted level exactly when it is 1..4,
      and re-encoding that level gives the register value back. */
  lemma ModeLevelAccepted(r: Word)
    ensures ModeLevel(r) in AvailableLevels <==> 1 <= r <= 4
    ensures ModeLevel(r) in AvailableLevels ==> ModeRegister(ModeLevel(r)) == r
  {
  }

  lemma TempControlRoundTrip(level: int)
    requires level in AvailableLevels
    ensures 0 <= TempControlRegister(level) <= 3
    ensures TempControlLevel(TempControlRegister(level)) == level
  {
  }

  lemma TempControlLevelAccepted(r: Word)
    ensures TempControlLevel(r) in AvailableLevels <==> r <= 3
    ensures TempControlLevel(r) in AvailableLevels ==> TempControlRegister(TempControlLevel(r)) == r
  {
  }

  // ---------------------------------------------------------------------
  // Packed clock words (hour<<8 | minute, month<<8 | day)

  /** `w >> 8` */
  function HighByte(w: Word): (b: Byte)
    ensures b * 0x100 <= w < b * 0x100 + 0x100
  {
    w / 0x100
  }

  /** `w & 0xFF` */
  function LowByte(w: Word): (b: Byte)
    ensures w == HighByte(w) * 0x100 + b
  {
    w % 0x100
  }

  /** `hi << 8 | lo & 0xFF` for a non-negative `lo` and a `hi` below 256. */
  function PackBytes(hi: int, lo: int): (w: Word)
    requires 0 <= hi < 0x100 && 0 <= lo
    ensures w / 0x100 == hi && w % 0x100 == lo % 0x100
  {
    hi * 0x100 + lo % 0x100
  }

  lemma PackUnpack(hi: int, lo: int)
    requires 0 <= hi < 0x100 && 0 <= lo < 0x100
    ensures HighByte(PackBytes(hi, lo)) == hi
    ensures LowByte(PackBytes(hi, lo)) == lo
  {
  }

  lemma UnpackPack(w: Word)
    ensures PackBytes(HighByte(w), LowByte(w)) == w
  {
  }

  // ---------------------------------------------------------------------
  // 32-bit counters over two registers, high word first

  /** The unsigned 32-bit value of two registers in big-endian word order. */
  function Uint32FromWords(hi: Word, lo: Word): (v: nat)
    ensures v < 0x1_0000_0000
    ensures v / 0x1_0000 == hi && v % 0x1_0000 == lo
  {
    hi * 0x1_0000 + lo
  }

  /** The high register of a 32-bit counter. */
  function HighWord(v: nat): (w: Word)
    requires v < 0x1_0000_0000
  {
    v / 0x1_0000
  }

  /** The low register of a 32-bit counter. */
  function LowWord(v: nat): (w: Word)
  {
    v % 0x1_0000
  }

  lemma Uint32RoundTrip(v: nat, hi: Word, lo: Word)
    requires v < 0x1_0000_0000
    ensures Uint32FromWords(HighWord(v), LowWord(v)) == v
    ensures HighWord(Uint32FromWords(hi, lo)) == hi
    ensures LowWord(Uint32FromWords(hi, lo)) == lo
  {
  }
}
