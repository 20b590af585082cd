# Interrupt handling of RustKernel, modelled in Dafny

This project models the interrupt subsystem of the RustKernel x86-64 kernel
(`src/interrupts.rs`) as an abstract machine. The machine has:

- the fifteen general-purpose registers;
- word-addressed stack memory and `rsp`;
- `cr3` and the interrupt-enable flag;
- the process globals `SYSCALL_SP`, `SYSCALL_USP` and `SYSCALL_UMAP`;
- the two interrupt controllers' mask bytes and a log of end-of-interrupt
  acknowledgements;
- the console output.

The modules are:

- `Vectors` (`vectors.dfy`): the controller offsets 32 and 40, and the
  `InterruptIndex` enumeration with `as_u8` and `as_usize`.
- `Envelope` (`envelope.dfy`): the registers and the push order of
  `interrupt_begin!` and pop order of `interrupt_end!`. It says what the
  pushes leave on the stack and what the pops read back. Its main result is
  the LIFO round trip: popping the frame the pushes left restores every
  register.
- `Idt` (`idt.dfy`): the descriptor-table builder. It records which vector
  is bound to which handler and which bindings switch to the
  interrupt-stack-table entry. It also says which handlers resume and which
  halt.
- `Interrupts` (`machine.dfy`): the class `Machine`, whose methods follow the
  assembly and Rust statements one by one. These are the two envelope macros
  (both forms of `interrupt_end!`), the timer and keyboard handshakes that
  switch to the kernel stack, `serial1_handler`, the six fault handlers and
  `init`.

Each handler method states its whole end state. For the timer and the
keyboard this is the round trip: on return the registers, `rsp` and `cr3`
are as the interrupt found them.

## Model

| member | source | states |
|---|---|---|
| Vectors.AsU8 | src/interrupts.rs:153-169 | a line's vector lies in the master controller's range `[PIC_1_OFFSET, PIC_2_OFFSET)` |
| Vectors.AsUsize | src/interrupts.rs:171-173 | `as_usize` of a line is a vector of the master controller, in `[PIC_1_OFFSET, PIC_2_OFFSET)` |
| Vectors.OffsetsAreContiguous | src/interrupts.rs:13-14 | `PIC_2_OFFSET == PIC_1_OFFSET + 8 == 40` |
| Vectors.LinesAreNumberedConsecutively | src/interrupts.rs:155-173 | Timer .. ParallelPort2 get vectors 32 .. 39, one apart in declaration order, and `as_usize` gives each line the same number as `as_u8` |
| Vectors.AsU8IsInjective | src/interrupts.rs:155-169 | distinct lines have distinct vectors |
| Envelope.Set | src/interrupts.rs:93-111 | a pop changes exactly the register it names, to the loaded value |
| Envelope.PushedFromSlots | src/interrupts.rs:47-65 | the fifteen pushes, slot by slot, amount to the frame layout `Pushed`: push k stored `PushOrder[k]` k+1 words below the entry stack pointer |
| Envelope.PoppedFromSlots | src/interrupts.rs:93-111 | the fifteen pops, slot by slot, amount to `Popped`: pop k loaded `PopOrder[k]` from k words above the stack top |
| Envelope.PushOrderListsEachRegisterOnce | src/interrupts.rs:48-65 | the pushes save every one of the fifteen registers, each exactly once |
| Envelope.PopMirrorsPush | src/interrupts.rs:93-111 | the k-th pop names the register of push 14-k: the pop order is the push order reversed |
| Envelope.EnvelopeRoundTrip | src/interrupts.rs:42-151 | popping from the stack top the pushes left, while those fifteen words are intact, restores every register to its value at entry |
| Envelope.PushedKeptByOtherStores | src/interrupts.rs:264-284 | stores outside the fifteen saved words leave the saved frame intact |
| Idt.SetHandler | src/interrupts.rs:179 | `set_handler_fn` binds the handler and keeps the gate's stack index |
| Idt.SetStackIndex | src/interrupts.rs:189 | `set_stack_index` sets the index and keeps the gate's handler |
| Idt.BuildIdt | src/interrupts.rs:176-205 | the builder's table has 256 gates. It binds exactly the ten vectors 2, 3, 8, 11, 13, 14, 32, 33, 35 and 36 to their handlers; double fault, page fault, timer and keyboard carry the stack index; every other gate is empty |
| Idt.BootTableIsUnique | src/interrupts.rs:176-205 | the boot table is determined by the stack index alone, so building it twice gives the same table |
| Idt.HardwareBindings | src/interrupts.rs:193-202 | vector 32 is the timer stub and 33 the keyboard handler; a gate calls `serial1_handler` iff it is vector 35 or 36 |
| Idt.StackIndexBindings | src/interrupts.rs:186-200 | a gate switches stacks iff it is vector 8, 14, 32 or 33, and then always to the given index |
| Idt.HandlerOutcome | src/interrupts.rs:288-331 | a handler halts iff it is the double-fault or the page-fault handler |
| Idt.HaltingHandlersSwitchStacks | src/interrupts.rs:186-191 | every gate whose handler halts runs on the interrupt-stack-table stack |
| Interrupts.Machine.InterruptBegin | src/interrupts.rs:42-68 | clears the interrupt flag and lowers `rsp` by 120. The saved frame holds the registers in push order; no other memory changes |
| Interrupts.Machine.InterruptEnd | src/interrupts.rs:83-151 | the registers are what the pops read in pop order, and `rsp` rises by 120. The `sti` form leaves interrupts enabled; the plain form leaves the flag unchanged |
| Interrupts.Machine.Push | src/interrupts.rs:272 | `push`: `rsp` drops one word and the new top holds the register |
| Interrupts.Machine.Pop | src/interrupts.rs:278 | `pop`: the register takes the top word and `rsp` rises one word |
| Interrupts.Machine.Eoi | src/interrupts.rs:240-241 | one acknowledgement of the given vector is appended to the log |
| Interrupts.Machine.Out8 | src/interrupts.rs:216-219 | a byte written to port 0x21 or 0xA1 becomes that controller's mask |
| Interrupts.Machine.TimerEnter | src/interrupts.rs:228-233 | run with interrupts disabled: `rsp == rbp == SYSCALL_SP`. `SYSCALL_USP` is the stack pointer found on entry and `SYSCALL_UMAP` the current `cr3`. Only rdx, rax and rbp change among the registers |
| Interrupts.Machine.TimerExit | src/interrupts.rs:237-238 | run with interrupts disabled: `cr3` comes back from `SYSCALL_UMAP` and `rsp` from `SYSCALL_USP`; only rax changes among the registers |
| Interrupts.Machine.TimerHandlerStub | src/interrupts.rs:224-245 | the registers, `rsp` and `cr3` are as the interrupt found them, and interrupts are enabled. Vector 32 is acknowledged once. `SYSCALL_USP` is the post-push stack pointer and `SYSCALL_UMAP` the interrupted `cr3`. Among the modelled stores, memory changes only in the saved frame |
| Interrupts.Machine.KeyboardEnter | src/interrupts.rs:265-272 | run with interrupts disabled: the kernel stack is active, one word below `SYSCALL_SP`, and that word holds `cr3`. `SYSCALL_USP` is the entry stack pointer |
| Interrupts.Machine.KeyboardBody | src/interrupts.rs:274-276 | run with interrupts disabled, the body prints the decoded character. Its register values and memory stores are supplied by the caller |
| Interrupts.Machine.KeyboardExit | src/interrupts.rs:278-280 | run with interrupts disabled from the slot one word below `SYSCALL_SP`: the pop reads that slot into rsi and then into `cr3`, no other register changes, and the interrupted `rsp` comes back from `SYSCALL_USP` |
| Interrupts.Machine.KeyboardSwitch | src/interrupts.rs:264-281 | with interrupts disabled, `rsp` and `cr3` come back as they were, and the registers are the body's with rsi holding the saved `cr3`. `SYSCALL_USP` is the entry stack pointer. Memory changes by the `cr3` saved one word below `SYSCALL_SP` and by the body's stores, and one character is printed |
| Interrupts.Machine.KeyboardHandler | src/interrupts.rs:262-286 | for word-aligned stacks and a body that leaves the saved words alone, the registers, `rsp` and `cr3` are as the interrupt found them, and the interrupt flag is left clear. One character is printed and vector 32 is acknowledged once. Memory holds the saved frame, the saved `cr3` and the body's stores; among the modelled stores nothing else changes |
| Interrupts.Machine.Serial1Handler | src/interrupts.rs:251-260 | prints its report and acknowledges vector 36 once, whichever serial line fired |
| Interrupts.Machine.BreakpointHandler | src/interrupts.rs:288-290 | prints its report and resumes |
| Interrupts.Machine.NmiHandler | src/interrupts.rs:292-294 | prints its report and resumes |
| Interrupts.Machine.SegmentNotPresentHandler | src/interrupts.rs:296-300 | changes nothing and resumes |
| Interrupts.Machine.GeneralProtectionHandler | src/interrupts.rs:302-307 | prints its report with the error code and resumes |
| Interrupts.Machine.DoubleFaultHandler | src/interrupts.rs:309-315 | prints its report with the error code and halts |
| Interrupts.Machine.PageFaultHandler | src/interrupts.rs:317-331 | prints the error code, then the faulting address, and halts |
| Interrupts.Machine.Init | src/interrupts.rs:207-222 | interrupts are disabled, the loaded table is the boot table, and both controller masks are 0. The end state does not depend on the start state, so a second `init` ends where the first did |

Where the code and its own comments or names disagree, the model follows the
code:

- `keyboard_handler` acknowledges vector 32 (`InterruptIndex::Timer`), not
  the keyboard's 33.
- `serial1_handler` acknowledges vector 36 (`SerialPort2`) whichever of the
  two serial lines fired.
- `SYSCALL_USP` receives the stack pointer after the fifteen pushes, not the
  one the interrupt arrived with.

## Left out

- Machine words are unbounded integers: 64-bit wrap-around of `rsp` and of
  register values is not modelled.
- The compiler-generated prologue and epilogue of `extern "x86-interrupt"`
  functions are not modelled. Nor are the hardware interrupt-stack-table
  switch, the interrupt stack frame and the RFLAGS restore by `iretq`.
- Operands the compiler allocates (`in(reg)`, `out(reg)`) are modelled as
  direct moves, without a scratch register.
- `ChainedPics::initialize` and `notify_end_of_interrupt` belong to the PIC
  driver, which is not part of this model. The masks `initialize` leaves are
  parameters of `Init`, and an acknowledgement is an entry in a log. The
  model does not say which controller receives the acknowledgement.
- The port reads `in8(0x60)` and `in8(0x3F8)` and the decoder
  `Keyboard::code_to_char` are not modelled. The decoded character is a
  parameter of the keyboard handler.
- `kprintln!`/`kprint!` formatting and the `Debug` output of the stack frame
  are left out: the console holds abstract messages.
- `Cr2::read` is a control-register read; the address is a parameter of
  `PageFaultHandler`.
- `gdt::DOUBLE_FAULT_IST_INDEX` is defined in `gdt`, which is not part of this
  model; the index is a parameter.
- `spin::Mutex` locking, `lazy_static` initialisation and `IDT.load()` are not
  modelled. `Init` stores the built table in the machine, and nested or
  re-entrant interrupts are outside the model.
- The `loop {}` of the double-fault and page-fault handlers is a `Halt`
  outcome, not a method that does not terminate.
- The unused `CpuSnapshot` struct and all commented-out code are left out.
- Memory is a map from addresses to whole words, so cells at different
  addresses never overlap. That matches the machine only for word-aligned
  accesses: what the contracts say about addresses that are not multiples of
  eight, or about the bytes inside a saved word, is about the model's cells,
  not the machine's bytes.
- The Rust code inside the handlers (`timer_handler()`, the
  `PICS.lock().notify_end_of_interrupt` calls, and the keyboard's `in8`,
  `code_to_char` and `kprint!`) pushes return addresses and spills values
  below `rsp`. That stack traffic is not modelled: the only stores are the
  envelope's pushes, the keyboard's push of `cr3` and the keyboard body's
  `scratch`.
- Interrupts.Machine.KeyboardHandler: assumes what the source only relies on.
  Both stack pointers and the body's stores are word-aligned. The body's
  stores avoid the fifteen saved words and the kernel-stack slot holding
  `cr3`, and that slot lies outside the saved words.
- Interrupts.Machine.TimerEnter, Interrupts.Machine.TimerExit,
  Interrupts.Machine.KeyboardEnter, Interrupts.Machine.KeyboardBody,
  Interrupts.Machine.KeyboardExit and Interrupts.Machine.KeyboardSwitch
  require the interrupt flag to be clear. The handlers meet this through
  `interrupt_begin!`; nothing in the steps themselves enforces it.
- Interrupts.Machine.InterruptBegin: the `cli` happens before the first push
  in the body, but the contract speaks only of the end state, so it does not
  state that order.
- Interrupts.Machine.InterruptEnd: the order of `pop`s before `sti` shows in
  the body, not in the contract, which speaks only of the end state.
- Interrupts.Machine.Init: idempotence is not a lemma of its own. It follows
  from the absolute `ensures` together with `Idt.BootTableIsUnique`.
