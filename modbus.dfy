/** The register vocabulary shared by both plugin revisions: 16-bit holding
    registers, the answer of a holding-register read (Modbus function code
    0x03, section 6.3 of the Modbus Application Protocol Specification
    V1.1b3) and the operations one cycle issues on the client (connect, reads,
    single-register writes with function code 0x06, section 6.6, close). */
module Modbus {

  /** A holding register: an unsigned 16-bit word. */
  type Word = x: int | 0 <= x < 0x1_0000

  /** One byte of a serialised payload. */
  type Byte = x: int | 0 <= x < 0x100

  /** The result of `read_holding_registers`: either an error response or the
      words read. */
  datatype ReadResult = ReadResult(isError: bool, registers: seq<Word>)

  /** A successful read of `count` registers carries exactly `count` words. */
  predicate Answers(r: ReadResult, count: nat)
  {
    !r.isError ==> |r.registers| == count
  }

  /** What one callback does on the Modbus TCP client, in order. */
  datatype BusOp =
    | Connect
    | ReadHoldingRegisters(address: int, count: nat)
    | WriteRegister(address: int, value: int)
    | Close

  /** The register writes among the operations of a cycle, in order. */
  function Writes(bus: seq<BusOp>): (writes: seq<BusOp>)
    ensures |writes| <= |bus|
    ensures forall i :: 0 <= i < |writes| ==> writes[i].WriteRegister? && writes[i] in bus
    ensures (forall op :: op in bus ==> !op.WriteRegister?) ==> writes == []
  {
    if bus == [] then []
    else (if bus[0].WriteRegister? then [bus[0]] else []) + Writes(bus[1..])
  }

  /** The writes of two stretches of operations, one after the other. */
  lemma {:induction false} WritesAppend(a: seq<BusOp>, b: seq<BusOp>)
    ensures Writes(a + b) == Writes(a) + Writes(b)
    decreases |a|
  {
    if a == [] {
      assert a + b == b;
    } else {
      assert (a + b)[1..] == a[1..] + b;
      WritesAppend(a[1..], b);
    }
  }
}
