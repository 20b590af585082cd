/** The abstract machine the interrupt handlers run on, and the handlers
    themselves: the register-preservation envelope, the timer and keyboard
    handshakes that switch to the kernel stack, the serial handler, the fault
    handlers and the boot-time `init`. */
module Interrupts {
  import opened Envelope
  import opened Vectors
  import opened Idt

  /** An I/O port number. */
  type U16 = x: int | 0 <= x < 0x1_0000

  /** Data ports of the master and the slave interrupt controller; writing a
      byte to them sets the controller's interrupt mask. */
  const MasterDataPort: U16 := 0x21
  const SlaveDataPort: U16 := 0xA1

  /** What the handlers print on the kernel console, without the formatting. */
  datatype Message =
    | KeyChar(c: char)
    | SerialReport
    | BreakpointReport
    | NmiReport
    | GeneralProtectionReport(errorCode: Word)
    | DoubleFaultReport(errorCode: Word)
    | PageFaultReport(errorCode: Word)
    | FaultAddress(address: Word)

  class Machine {
    /** The fifteen general-purpose registers. */
    var regs: Registers
    /** The stack pointer. */
    var rsp: Word
    /** Word-addressed memory holding the stacks. */
    var mem: map<Word, Word>
    /** The page-table base: the current address space. */
    var cr3: Word
    /** The processor's interrupt-enable flag. */
    var interruptsEnabled: bool
    /** `SYSCALL_SP`: top of the kernel stack. */
    var syscallSp: Word
    /** `SYSCALL_USP`: the interrupted stack pointer, kept while on the kernel stack. */
    var syscallUsp: Word
    /** `SYSCALL_UMAP`: the interrupted address space, kept by the timer. */
    var syscallUmap: Word
    /** The two controllers' interrupt masks. */
    var masterMask: U8
    var slaveMask: U8
    /** Vectors passed to `notify_end_of_interrupt`, oldest first. */
    var eoiLog: seq<U8>
    /** Console output, oldest first. */
    var console: seq<Message>
    /** The descriptor table `init` loads. */
    var idt: seq<Entry>

    // ---------------------------------------------------------------------
    // The preservation envelope

    /** `interrupt_begin!`: `cli`, then push the fifteen registers in
        `PushOrder`. Only the fifteen words below the entry stack pointer
        change, and they hold the pushed registers. */
    method InterruptBegin()
      modifies this`interruptsEnabled, this`rsp, this`mem
      ensures !interruptsEnabled
      ensures rsp == old(rsp) - FrameBytes
      ensures Pushed(mem, old(rsp), regs)
      ensures forall a :: !(rsp <= a < old(rsp)) ==> Load(mem, a) == Load(old(mem), a)
    {
      interruptsEnabled := false;
      var sp, m := rsp, mem;
      sp := sp - WordBytes; m := m[sp := regs.rax];
      sp := sp - WordBytes; m := m[sp := regs.rbx];
      sp := sp - WordBytes; m := m[sp := regs.rcx];
      sp := sp - WordBytes; m := m[sp := regs.rdx];
      sp := sp - WordBytes; m := m[sp := regs.rsi];
      sp := sp - WordBytes; m := m[sp := regs.rdi];
      sp := sp - WordBytes; m := m[sp := regs.r8];
      sp := sp - WordBytes; m := m[sp := regs.r9];
      sp := sp - WordBytes; m := m[sp := regs.r10];
      sp := sp - WordBytes; m := m[sp := regs.r11];
      sp := sp - WordBytes; m := m[sp := regs.r12];
      sp := sp - WordBytes; m := m[sp := regs.r13];
      sp := sp - WordBytes; m := m[sp := regs.r14];
      sp := sp - WordBytes; m := m[sp := regs.r15];
      sp := sp - WordBytes; m := m[sp := regs.rbp];
      PushedFromSlots(m, rsp, regs);
      rsp, mem := sp, m;
    }

    /** `interrupt_end!` (`sti` false) and `interrupt_end!(sti)` (`sti`
        true): pop the fifteen registers in `PopOrder`, then, in the second
        form only, `sti`. Memory is only read. */
    method InterruptEnd(sti: bool)
      modifies this`regs, this`rsp, this`interruptsEnabled
      ensures Popped(mem, old(rsp), regs)
      ensures rsp == old(rsp) + FrameBytes
      ensures sti ==> interruptsEnabled
      ensures !sti ==> interruptsEnabled == old(interruptsEnabled)
    {
      var sp, r := rsp, regs;
      r := r.(rbp := Load(mem, sp)); sp := sp + WordBytes;
      r := r.(r15 := Load(mem, sp)); sp := sp + WordBytes;
      r := r.(r14 := Load(mem, sp)); sp := sp + WordBytes;
      r := r.(r13 := Load(mem, sp)); sp := sp + WordBytes;
      r := r.(r12 := Load(mem, sp)); sp := sp + WordBytes;
      r := r.(r11 := Load(mem, sp)); sp := sp + WordBytes;
      r := r.(r10 := Load(mem, sp)); sp := sp + WordBytes;
      r := r.(r9 := Load(mem, sp)); sp := sp + WordBytes;
      r := r.(r8 := Load(mem, sp)); sp := sp + WordBytes;
      r := r.(rdi := Load(mem, sp)); sp := sp + WordBytes;
      r := r.(rsi := Load(mem, sp)); sp := sp + WordBytes;
      r := r.(rdx := Load(mem, sp)); sp := sp + WordBytes;
      r := r.(rcx := Load(mem, sp)); sp := sp + WordBytes;
      r := r.(rbx := Load(mem, sp)); sp := sp + WordBytes;
      r := r.(rax := Load(mem, sp)); sp := sp + WordBytes;
      PoppedFromSlots(mem, rsp, r);
      regs, rsp := r, sp;
      if sti {
        interruptsEnabled := true;
      }
    }

    // ---------------------------------------------------------------------
    // Single instructions and the controller

    /** `push r`. */
    method Push(r: Reg)
      modifies this`rsp, this`mem
      ensures rsp == old(rsp) - WordBytes
      ensures mem == old(mem)[rsp := Get(regs, r)]
    {
      rsp := rsp - WordBytes;
      mem := mem[rsp := Get(regs, r)];
    }

    /** `pop r`. */
    method Pop(r: Reg)
      modifies this`regs, this`rsp
      ensures regs == Set(old(regs), r, Load(mem, old(rsp)))
      ensures rsp == old(rsp) + WordBytes
    {
      regs := Set(regs, r, Load(mem, rsp));
      rsp := rsp + WordBytes;
    }

    /** `notify_end_of_interrupt(v)`: logged, controller internals not modelled. */
    method Eoi(v: U8)
      modifies this`eoiLog
      ensures eoiLog == old(eoiLog) + [v]
    {
      eoiLog := eoiLog + [v];
    }

    /** `out8(port, value)`: a write to a controller's data port sets its
        mask; writes to other ports have no modelled effect. */
    method Out8(port: U16, value: U8)
      modifies this`masterMask, this`slaveMask
      ensures masterMask == (if port == MasterDataPort then value else old(masterMask))
      ensures slaveMask == (if port == SlaveDataPort then value else old(slaveMask))
    {
      if port == MasterDataPort {
        masterMask := value;
      } else if port == SlaveDataPort {
        slaveMask := value;
      }
    }

    // ---------------------------------------------------------------------
    // The timer

    /** Entry half of the timer's handshake: save rsp through rdx, load the
        kernel stack into rsp and rbp (through rax), publish the saved rsp in
        `SYSCALL_USP` and the address space in `SYSCALL_UMAP` (through rax). */
    method TimerEnter()
      requires !interruptsEnabled
      modifies this`regs, this`rsp, this`syscallUsp, this`syscallUmap
      ensures rsp == regs.rbp == syscallSp
      ensures syscallUsp == old(rsp)
      ensures syscallUmap == cr3
      ensures regs == old(regs).(rdx := old(rsp), rax := cr3, rbp := syscallSp)
    {
      regs := regs.(rdx := rsp);
      regs := regs.(rax := syscallSp);
      rsp := regs.rax;
      regs := regs.(rbp := rsp);
      syscallUsp := regs.rdx;
      regs := regs.(rax := cr3);
      syscallUmap := regs.rax;
    }

    /** Exit half of the timer's handshake: the address space back from
        `SYSCALL_UMAP`, then rsp back from `SYSCALL_USP`, both through rax. */
    method TimerExit()
      requires !interruptsEnabled
      modifies this`regs, this`rsp, this`cr3
      ensures cr3 == syscallUmap && rsp == syscallUsp
      ensures regs == old(regs).(rax := syscallUsp)
    {
      regs := regs.(rax := syscallUmap);
      cr3 := regs.rax;
      regs := regs.(rax := syscallUsp);
      rsp := regs.rax;
    }

    /** `timer_handler_stub` with its empty body: on return every register,
        rsp and the address space are as the interrupt found them, interrupts
        are enabled, vector 32 was acknowledged once, and the globals hold the
        post-push stack pointer and the interrupted address space. */
    method TimerHandlerStub()
      modifies this`regs, this`rsp, this`mem, this`cr3, this`interruptsEnabled,
               this`syscallUsp, this`syscallUmap, this`eoiLog
      ensures regs == old(regs) && rsp == old(rsp) && cr3 == old(cr3)
      ensures interruptsEnabled
      ensures syscallUsp == old(rsp) - FrameBytes && syscallUmap == old(cr3)
      ensures eoiLog == old(eoiLog) + [AsU8(Timer)]
      ensures Pushed(mem, old(rsp), old(regs))
      ensures forall a :: !(old(rsp) - FrameBytes <= a < old(rsp)) ==>
                Load(mem, a) == Load(old(mem), a)
    {
      InterruptBegin();
      TimerEnter();
      // `timer_handler()` is empty.
      TimerExit();
      Eoi(AsU8(Timer));
      InterruptEnd(true);
      EnvelopeRoundTrip(mem, old(rsp), old(regs), regs);
    }

    // ---------------------------------------------------------------------
    // The keyboard

    /** Entry half of the keyboard's handshake: save rsp through rdx, load the
        kernel stack, read the address space into rsi, publish the saved rsp in
        `SYSCALL_USP`, and push rsi onto the kernel stack. */
    method KeyboardEnter()
      requires !interruptsEnabled
      modifies this`regs, this`rsp, this`mem, this`syscallUsp
      ensures rsp == syscallSp - WordBytes
      ensures mem == old(mem)[rsp := cr3]
      ensures syscallUsp == old(rsp)
      ensures regs == old(regs).(rdx := old(rsp), rsi := cr3)
    {
      regs := regs.(rdx := rsp);
      rsp := syscallSp;
      regs := regs.(rsi := cr3);
      syscallUsp := regs.rdx;
      Push(RSI);
    }

    /** The keyboard body between the push and the pop: it prints the decoded
        character `chr`, may leave any value in any register (`after`) and
        may store to memory (`scratch`). Reading the scan code and decoding
        it are outside the model; `chr` is their result. */
    method KeyboardBody(chr: char, after: Registers, scratch: map<Word, Word>)
      requires !interruptsEnabled
      modifies this`regs, this`mem, this`console
      ensures regs == after
      ensures mem == old(mem) + scratch
      ensures console == old(console) + [KeyChar(chr)]
    {
      regs := after;
      mem := mem + scratch;
      console := console + [KeyChar(chr)];
    }

    /** Exit half of the keyboard's handshake, from the kernel-stack slot
        the entry half pushed: pop rsi, so the kernel stack is back at
        `SYSCALL_SP`; move it into cr3; and take rsp back from `SYSCALL_USP`. */
    method KeyboardExit()
      requires !interruptsEnabled
      requires rsp == syscallSp - WordBytes
      modifies this`regs, this`rsp, this`cr3
      ensures regs == old(regs).(rsi := Load(mem, syscallSp - WordBytes))
      ensures cr3 == Load(mem, syscallSp - WordBytes)
      ensures rsp == syscallUsp
    {
      Pop(RSI);
      assert rsp == syscallSp;
      cr3 := regs.rsi;
      rsp := syscallUsp;
    }

    /** The keyboard's handshake around its body, run on the kernel stack:
        rsp and the address space come back as they were, `SYSCALL_USP`
        holds the stack pointer the handshake started from, and memory
        changes by the one push of the address space below `SYSCALL_SP`
        and the body's stores. */
    method KeyboardSwitch(chr: char, after: Registers, scratch: map<Word, Word>)
      requires !interruptsEnabled
      requires syscallSp - WordBytes !in scratch
      modifies this`regs, this`rsp, this`mem, this`cr3, this`syscallUsp, this`console
      ensures regs == after.(rsi := old(cr3))
      ensures rsp == old(rsp) && cr3 == old(cr3)
      ensures syscallUsp == old(rsp)
      ensures mem == old(mem)[syscallSp - WordBytes := old(cr3)] + scratch
      ensures console == old(console) + [KeyChar(chr)]
    {
      KeyboardEnter();
      KeyboardBody(chr, after, scratch);
      KeyboardExit();
    }

    /** `keyboard_handler`. Both stack pointers are word-aligned; the body's
        stores are word-aligned and leave the fifteen saved words and the
        kernel-stack slot holding the address space alone, and that slot must
        lie outside the interrupted stack's saved words. Then every register,
        rsp and the address space are as the interrupt found them, the
        interrupt flag is left clear (the plain `interrupt_end!`), vector 32
        was acknowledged once, and memory holds the saved words, the pushed
        address space and the body's stores. */
    method KeyboardHandler(chr: char, after: Registers, scratch: map<Word, Word>)
      requires rsp % WordBytes == 0 && syscallSp % WordBytes == 0
      requires !(rsp - FrameBytes <= syscallSp - WordBytes < rsp)
      requires forall a :: a in scratch ==>
                 a % WordBytes == 0 && !(rsp - FrameBytes <= a < rsp) && a != syscallSp - WordBytes
      modifies this`regs, this`rsp, this`mem, this`cr3, this`interruptsEnabled,
               this`syscallUsp, this`eoiLog, this`console
      ensures regs == old(regs) && rsp == old(rsp) && cr3 == old(cr3)
      ensures !interruptsEnabled
      ensures syscallUsp == old(rsp) - FrameBytes
      ensures console == old(console) + [KeyChar(chr)]
      ensures eoiLog == old(eoiLog) + [AsU8(Timer)]
      ensures Pushed(mem, old(rsp), old(regs))
      ensures Load(mem, syscallSp - WordBytes) == old(cr3)
      ensures forall a :: a in scratch ==> Load(mem, a) == scratch[a]
      ensures forall a ::
                (!(old(rsp) - FrameBytes <= a < old(rsp)) &&
                 a != syscallSp - WordBytes && a !in scratch) ==>
                Load(mem, a) == Load(old(mem), a)
    {
      InterruptBegin();
      ghost var pushed := mem;
      KeyboardSwitch(chr, after, scratch);
      PushedKeptByOtherStores(pushed, mem, old(rsp), old(regs));
      Eoi(AsU8(Timer));
      InterruptEnd(false);
      EnvelopeRoundTrip(mem, old(rsp), old(regs), regs);
    }

    // ---------------------------------------------------------------------
    // The serial line

    /** `serial1_handler`: prints its report and acknowledges vector 36,
        whichever of the two serial lines raised the interrupt. The data-port
        read it makes is not modelled. */
    method Serial1Handler()
      modifies this`console, this`eoiLog
      ensures console == old(console) + [SerialReport]
      ensures eoiLog == old(eoiLog) + [AsU8(SerialPort2)]
    {
      console := console + [SerialReport];
      Eoi(AsU8(SerialPort2));
    }

    // ---------------------------------------------------------------------
    // The processor exceptions

    method BreakpointHandler() returns (o: Outcome)
      modifies this`console
      ensures console == old(console) + [BreakpointReport]
      ensures o == HandlerOutcome(Idt.BreakpointHandler) == Resume
    {
      console := console + [BreakpointReport];
      o := Resume;
    }

    method NmiHandler() returns (o: Outcome)
      modifies this`console
      ensures console == old(console) + [NmiReport]
      ensures o == HandlerOutcome(Idt.NmiHandler) == Resume
    {
      console := console + [NmiReport];
      o := Resume;
    }

    /** Prints nothing and returns. */
    method SegmentNotPresentHandler(e: Word) returns (o: Outcome)
      ensures o == HandlerOutcome(Idt.SegmentNotPresentHandler) == Resume
    {
      o := Resume;
    }

    method GeneralProtectionHandler(e: Word) returns (o: Outcome)
      modifies this`console
      ensures console == old(console) + [GeneralProtectionReport(e)]
      ensures o == HandlerOutcome(Idt.GeneralProtectionHandler) == Resume
    {
      console := console + [GeneralProtectionReport(e)];
      o := Resume;
    }

    /** Prints its report and then spins forever. */
    method DoubleFaultHandler(e: Word) returns (o: Outcome)
      modifies this`console
      ensures console == old(console) + [DoubleFaultReport(e)]
      ensures o == HandlerOutcome(Idt.DoubleFaultHandler) == Halt
    {
      console := console + [DoubleFaultReport(e)];
      o := Halt;
    }

    /** Prints the error code, then the faulting address `cr2` (the value of
        the control register, passed in), and then spins forever. */
    method PageFaultHandler(errorCode: Word, cr2: Word) returns (o: Outcome)
      modifies this`console
      ensures console == old(console) + [PageFaultReport(errorCode), FaultAddress(cr2)]
      ensures o == HandlerOutcome(Idt.PageFaultHandler) == Halt
    {
      console := console + [PageFaultReport(errorCode)];
      console := console + [FaultAddress(cr2)];
      o := Halt;
    }

    // ---------------------------------------------------------------------
    // Boot

    /** `init`: disable interrupts, load the table built for double-fault
        stack index `ist`, run the controllers' initialisation (which leaves
        masks `masterAfter` and `slaveAfter`), then unmask every line of both
        controllers. The end state does not depend on the state before, so a
        second call ends where the first did. */
    method Init(ist: nat, masterAfter: U8, slaveAfter: U8)
      modifies this`interruptsEnabled, this`idt, this`masterMask, this`slaveMask
      ensures !interruptsEnabled
      ensures IsBootTable(idt, ist)
      ensures masterMask == 0 && slaveMask == 0
    {
      interruptsEnabled := false;
      idt := BuildIdt(ist);
      masterMask, slaveMask := masterAfter, slaveAfter;
      Out8(MasterDataPort, 0x00);
      Out8(SlaveDataPort, 0x00);
    }
  }
}
