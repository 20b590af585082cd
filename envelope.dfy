/** The register-preservation envelope of the interrupt handlers, as pure
    definitions: the fifteen general-purpose registers, the order in which
    `interrupt_begin!` pushes them and `interrupt_end!` pops them, and what
    the pushes leave on the stack and the pops read back. */
module Envelope {

  /** A machine word. Register contents and stack addresses are both words. */
  type Word = int

  /** The fifteen general-purpose registers the envelope saves (every one but rsp). */
  datatype Reg = RAX | RBX | RCX | RDX | RSI | RDI
               | R8 | R9 | R10 | R11 | R12 | R13 | R14 | R15 | RBP

  /** A value for each of the fifteen registers. */
  datatype Registers = Registers(
    rax: Word, rbx: Word, rcx: Word, rdx: Word, rsi: Word, rdi: Word,
    r8: Word, r9: Word, r10: Word, r11: Word, r12: Word, r13: Word, r14: Word, r15: Word,
    rbp: Word)

  /** The value of register `r`. */
  function Get(regs: Registers, r: Reg): Word {
    match r
    case RAX => regs.rax  case RBX => regs.rbx  case RCX => regs.rcx  case RDX => regs.rdx
    case RSI => regs.rsi  case RDI => regs.rdi
    case R8 => regs.r8    case R9 => regs.r9    case R10 => regs.r10  case R11 => regs.r11
    case R12 => regs.r12  case R13 => regs.r13  case R14 => regs.r14  case R15 => regs.r15
    case RBP => regs.rbp
  }

  /** Register `r` overwritten with `v`, the others kept. */
  function Set(regs: Registers, r: Reg, v: Word): (out: Registers)
    ensures Get(out, r) == v
    ensures forall q :: q != r ==> Get(out, q) == Get(regs, q)
  {
    match r
    case RAX => regs.(rax := v)  case RBX => regs.(rbx := v)  case RCX => regs.(rcx := v)
    case RDX => regs.(rdx := v)  case RSI => regs.(rsi := v)  case RDI => regs.(rdi := v)
    case R8 => regs.(r8 := v)    case R9 => regs.(r9 := v)    case R10 => regs.(r10 := v)
    case R11 => regs.(r11 := v)  case R12 => regs.(r12 := v)  case R13 => regs.(r13 := v)
    case R14 => regs.(r14 := v)  case R15 => regs.(r15 := v)  case RBP => regs.(rbp := v)
  }

  /** Two register files are equal when every register agrees. */
  lemma RegistersAgree(a: Registers, b: Registers)
    requires forall r :: Get(a, r) == Get(b, r)
    ensures a == b
  {
    assert Get(a, RAX) == Get(b, RAX) && Get(a, RBX) == Get(b, RBX);
    assert Get(a, RCX) == Get(b, RCX) && Get(a, RDX) == Get(b, RDX);
    assert Get(a, RSI) == Get(b, RSI) && Get(a, RDI) == Get(b, RDI);
    assert Get(a, R8) == Get(b, R8) && Get(a, R9) == Get(b, R9);
    assert Get(a, R10) == Get(b, R10) && Get(a, R11) == Get(b, R11);
    assert Get(a, R12) == Get(b, R12) && Get(a, R13) == Get(b, R13);
    assert Get(a, R14) == Get(b, R14) && Get(a, R15) == Get(b, R15);
    assert Get(a, RBP) == Get(b, RBP);
  }

  /** The pushes of `interrupt_begin!`, first push first. */
  const PushOrder: seq<Reg> :=
    [RAX, RBX, RCX, RDX, RSI, RDI, R8, R9, R10, R11, R12, R13, R14, R15, RBP]

  /** The pops of `interrupt_end!`, first pop first. */
  const PopOrder: seq<Reg> :=
    [RBP, R15, R14, R13, R12, R11, R10, R9, R8, RDI, RSI, RDX, RCX, RBX, RAX]

  /** Bytes one push or pop moves rsp by. */
  const WordBytes: Word := 8

  /** Bytes the fifteen saved registers take on the stack. */
  const FrameBytes: Word := 120

  /** Reading stack memory: a word never written reads as zero. */
  function Load(mem: map<Word, Word>, a: Word): Word {
    if a in mem then mem[a] else 0
  }

  /** What the pushes of `interrupt_begin!` leave in `mem` when they start at
      stack pointer `entry`: the k-th push (counting from 0) stored the value
      of `PushOrder[k]` k + 1 words below `entry`. */
  ghost predicate Pushed(mem: map<Word, Word>, entry: Word, regs: Registers) {
    forall k :: 0 <= k < |PushOrder| ==>
      Load(mem, entry - WordBytes * (k + 1)) == Get(regs, PushOrder[k])
  }

  /** What the pops of `interrupt_end!` leave in the registers when they start
      at stack pointer `top`: the k-th pop (counting from 0) loaded
      `PopOrder[k]` from k words above `top`. */
  ghost predicate Popped(mem: map<Word, Word>, top: Word, regs: Registers) {
    forall k :: 0 <= k < |PopOrder| ==>
      Get(regs, PopOrder[k]) == Load(mem, top + WordBytes * k)
  }

  /** `Pushed`, one push at a time. */
  lemma PushedFromSlots(mem: map<Word, Word>, entry: Word, regs: Registers)
    requires Load(mem, entry - 8) == regs.rax && Load(mem, entry - 16) == regs.rbx
    requires Load(mem, entry - 24) == regs.rcx && Load(mem, entry - 32) == regs.rdx
    requires Load(mem, entry - 40) == regs.rsi && Load(mem, entry - 48) == regs.rdi
    requires Load(mem, entry - 56) == regs.r8 && Load(mem, entry - 64) == regs.r9
    requires Load(mem, entry - 72) == regs.r10 && Load(mem, entry - 80) == regs.r11
    requires Load(mem, entry - 88) == regs.r12 && Load(mem, entry - 96) == regs.r13
    requires Load(mem, entry - 104) == regs.r14 && Load(mem, entry - 112) == regs.r15
    requires Load(mem, entry - 120) == regs.rbp
    ensures Pushed(mem, entry, regs)
  {
    // Splitting on the slot keeps the proof cheap.
    forall k | 0 <= k < |PushOrder|
      ensures Load(mem, entry - WordBytes * (k + 1)) == Get(regs, PushOrder[k])
    {
      assert k == 0 || k == 1 || k == 2 || k == 3 || k == 4 || k == 5 || k == 6 || k == 7
          || k == 8 || k == 9 || k == 10 || k == 11 || k == 12 || k == 13 || k == 14;
    }
  }

  /** `Popped`, one pop at a time. */
  lemma PoppedFromSlots(mem: map<Word, Word>, top: Word, regs: Registers)
    requires regs.rbp == Load(mem, top) && regs.r15 == Load(mem, top + 8)
    requires regs.r14 == Load(mem, top + 16) && regs.r13 == Load(mem, top + 24)
    requires regs.r12 == Load(mem, top + 32) && regs.r11 == Load(mem, top + 40)
    requires regs.r10 == Load(mem, top + 48) && regs.r9 == Load(mem, top + 56)
    requires regs.r8 == Load(mem, top + 64) && regs.rdi == Load(mem, top + 72)
    requires regs.rsi == Load(mem, top + 80) && regs.rdx == Load(mem, top + 88)
    requires regs.rcx == Load(mem, top + 96) && regs.rbx == Load(mem, top + 104)
    requires regs.rax == Load(mem, top + 112)
    ensures Popped(mem, top, regs)
  {
    // Splitting on the slot keeps the proof cheap.
    forall k | 0 <= k < |PopOrder| ensures Get(regs, PopOrder[k]) == Load(mem, top + WordBytes * k) {
      assert k == 0 || k == 1 || k == 2 || k == 3 || k == 4 || k == 5 || k == 6 || k == 7
          || k == 8 || k == 9 || k == 10 || k == 11 || k == 12 || k == 13 || k == 14;
    }
  }

  /** Where `r` stands in the push order. */
  function PushIndex(r: Reg): (k: nat)
    ensures k < |PushOrder| && PushOrder[k] == r
  {
    match r
    case RAX => 0  case RBX => 1  case RCX => 2  case RDX => 3
    case RSI => 4  case RDI => 5
    case R8 => 6   case R9 => 7   case R10 => 8  case R11 => 9
    case R12 => 10 case R13 => 11 case R14 => 12 case R15 => 13
    case RBP => 14
  }

  /** The push order names each of the fifteen registers exactly once. */
  lemma PushOrderListsEachRegisterOnce()
    ensures forall r: Reg :: r in PushOrder
    ensures forall i, j :: 0 <= i < j < |PushOrder| ==> PushOrder[i] != PushOrder[j]
  {
    forall r: Reg ensures r in PushOrder {
      assert PushOrder[PushIndex(r)] == r;
    }
    assert forall i :: 0 <= i < |PushOrder| ==> PushIndex(PushOrder[i]) == i;
  }

  /** The k-th pop restores the register of the (14 - k)-th push. */
  lemma PopMirrorsPush()
    ensures forall k :: 0 <= k < |PopOrder| ==> PopOrder[k] == PushOrder[|PushOrder| - 1 - k]
  {
  }

  /** LIFO round trip: popping, from the stack top the pushes left, a stack
      whose fifteen saved words are intact restores every register to the
      value it had when it was pushed. */
  lemma EnvelopeRoundTrip(mem: map<Word, Word>, entry: Word, saved: Registers, restored: Registers)
    requires Pushed(mem, entry, saved)
    requires Popped(mem, entry - FrameBytes, restored)
    ensures restored == saved
  {
    PopMirrorsPush();
    forall r: Reg ensures Get(restored, r) == Get(saved, r) {
      var k := PushIndex(r);
      assert PopOrder[14 - k] == r;
      assert entry - FrameBytes + WordBytes * (14 - k) == entry - WordBytes * (k + 1);
    }
    RegistersAgree(restored, saved);
  }

  /** The saved words are all the pushes leave behind: memory that agrees on
      the `FrameBytes` below `entry` holds the same saved registers. */
  lemma PushedKeptByOtherStores(mem: map<Word, Word>, mem': map<Word, Word>,
                                entry: Word, regs: Registers)
    requires Pushed(mem, entry, regs)
    requires forall a :: entry - FrameBytes <= a < entry ==> Load(mem', a) == Load(mem, a)
    ensures Pushed(mem', entry, regs)
  {
  }
}
