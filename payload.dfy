/** The part of pymodbus's `BinaryPayloadDecoder` the plugins use: the
    registers of a read are serialised high byte first, and a cursor walks
    over those bytes with `skip_bytes` and `decode_32bit_uint` (big-endian
    byte order, pymodbus's default big-endian word order). */
module Payload {
  import opened Modbus
  import opened Codec

  /** The bytes of a register list, each word high byte first. */
  function BytesOf(words: seq<Word>): (bytes: seq<Byte>)
    ensures |bytes| == 2 * |words|
  {
    if words == [] then [] else [HighByte(words[0]), LowByte(words[0])] + BytesOf(words[1..])
  }

  /** Word `k` lands at bytes `2k` (its high byte) and `2k+1` (its low byte). */
  lemma {:induction false} BytesOfAt(words: seq<Word>, k: nat)
    requires k < |words|
    ensures BytesOf(words)[2 * k] == HighByte(words[k])
    ensures BytesOf(words)[2 * k + 1] == LowByte(words[k])
  {
    if k > 0 {
      BytesOfAt(words[1..], k - 1);
      assert BytesOf(words) == [HighByte(words[0]), LowByte(words[0])] + BytesOf(words[1..]);
    }
  }

  /** The unsigned 32-bit big-endian value of four bytes from `p`. */
  function Uint32At(bytes: seq<Byte>, p: nat): (v: nat)
    requires p + 4 <= |bytes|
    ensures v < 0x1_0000_0000
    ensures v / 0x1_0000 == (bytes[p] as int) * 0x100 + bytes[p + 1]
    ensures v % 0x1_0000 == (bytes[p + 2] as int) * 0x100 + bytes[p + 3]
  {
    (((bytes[p] as int) * 0x100 + bytes[p + 1]) * 0x100 + bytes[p + 2]) * 0x100 + bytes[p + 3]
  }

  /** Decoding a 32-bit value at an even byte offset `2k` gives the counter
      held in registers `k` (high word) and `k+1` (low word). */
  lemma WordsAsUint32(words: seq<Word>, k: nat)
    requires k + 1 < |words|
    ensures 2 * k + 4 <= |BytesOf(words)|
    ensures Uint32At(BytesOf(words), 2 * k) == Uint32FromWords(words[k], words[k + 1])
  {
    BytesOfAt(words, k);
    BytesOfAt(words, k + 1);
    var hi, lo := words[k], words[k + 1];
    assert hi == HighByte(hi) * 0x100 + LowByte(hi);
    assert lo == HighByte(lo) * 0x100 + LowByte(lo);
  }

  /** A decoder over the registers of one read. */
  class PayloadDecoder {
    const payload: seq<Byte>
    var cursor: nat

    /** `BinaryPayloadDecoder.fromRegisters(registers, byteorder=Endian.Big)` */
    constructor FromRegisters(registers: seq<Word>)
      ensures payload == BytesOf(registers)
      ensures |payload| == 2 * |registers|
      ensures cursor == 0
    {
      payload := BytesOf(registers);
      cursor := 0;
    }

    /** `skip_bytes(n)`: the cursor moves on by `n` bytes. */
    method SkipBytes(n: nat)
      modifies this
      ensures cursor == old(cursor) + n
    {
      cursor := cursor + n;
    }

    /** `decode_32bit_uint()`: the next four bytes as a big-endian unsigned
        32-bit value; the cursor moves past them. */
    method Decode32BitUint() returns (v: nat)
      requires cursor + 4 <= |payload|
      modifies this
      ensures v == Uint32At(payload, old(cursor))
      ensures v < 0x1_0000_0000
      ensures cursor == old(cursor) + 4
    {
      var p := cursor;
      cursor := cursor + 4;
      v := Uint32At(payload, p);
    }
  }
}
