/** Vector numbering of the remapped hardware interrupt lines: the two
    controllers' offsets and the `InterruptIndex` enumeration of the master
    controller's eight lines. */
module Vectors {

  /** An unsigned byte (`u8`). */
  type U8 = x: int | 0 <= x < 0x100

  /** An unsigned machine-sized integer (`usize` on x86-64). */
  type USize = x: int | 0 <= x < 0x1_0000_0000_0000_0000

  /** Lines per legacy interrupt controller. */
  const LinesPerController: int := 8

  /** Vector base of the master controller. */
  const Pic1Offset: U8 := 32

  /** Vector base of the slave controller: right after the master's eight lines. */
  const Pic2Offset: U8 := Pic1Offset + 8

  /** The master controller's lines, in declaration order. */
  datatype InterruptIndex =
    | Timer | Keyboard | Cascade | SerialPort1 | SerialPort2
    | ParallelPort1 | FloppyDisk | ParallelPort2

  /** The lines in declaration order. */
  const AllLines: seq<InterruptIndex> :=
    [Timer, Keyboard, Cascade, SerialPort1, SerialPort2, ParallelPort1, FloppyDisk, ParallelPort2]

  /** Declaration position of a line: the enumeration's implicit discriminants
      count up by one from the explicit `Timer = PIC_1_OFFSET`. */
  function Position(i: InterruptIndex): (p: nat)
    ensures p < |AllLines| && AllLines[p] == i
  {
    match i
    case Timer => 0
    case Keyboard => 1
    case Cascade => 2
    case SerialPort1 => 3
    case SerialPort2 => 4
    case ParallelPort1 => 5
    case FloppyDisk => 6
    case ParallelPort2 => 7
  }

  /** `InterruptIndex::as_u8`: the line's discriminant, i.e. its vector. */
  function AsU8(i: InterruptIndex): (v: U8)
    ensures Pic1Offset <= v < Pic2Offset
  {
    Pic1Offset + Position(i)
  }

  /** `InterruptIndex::as_usize`: the widening of `as_u8`, so also a vector
      of the master controller. */
  function AsUsize(i: InterruptIndex): (v: USize)
    ensures Pic1Offset as int <= v < Pic2Offset as int
  {
    AsU8(i) as USize
  }

  /** The slave controller's base is the master's plus eight, i.e. 40. */
  lemma OffsetsAreContiguous()
    ensures Pic2Offset == Pic1Offset + LinesPerController == 40
  {
  }

  /** Timer .. ParallelPort2 are vectors 32 .. 39, consecutively in declaration
      order, and `as_usize` gives the same number as `as_u8`. */
  lemma LinesAreNumberedConsecutively()
    ensures forall k :: 0 <= k < |AllLines| ==>
              AsUsize(AllLines[k]) == AsU8(AllLines[k]) as int == 32 + k
  {
  }

  /** Distinct lines have distinct vectors. */
  lemma AsU8IsInjective()
    ensures forall i, j :: AsU8(i) == AsU8(j) ==> i == j
  {
  }
}
