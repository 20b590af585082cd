/** The interrupt descriptor table the kernel builds at boot: which vector is
    bound to which handler, which bindings switch to the known-good stack of
    the interrupt stack table, and what each handler does when it finishes
    (returns to the interrupted code, or halts the processor). */
module Idt {
  import opened Vectors

  datatype Option<T> = None | Some(value: T)

  /** The handlers of the kernel's interrupt subsystem. */
  datatype HandlerTag =
    | BreakpointHandler
    | GeneralProtectionHandler
    | NmiHandler
    | SegmentNotPresentHandler
    | DoubleFaultHandler
    | PageFaultHandler
    | TimerHandlerStub
    | KeyboardHandler
    | Serial1Handler

  /** One gate of the table: the handler it calls, if any, and the
      interrupt-stack-table index it switches to, if any. */
  datatype Entry = Entry(handler: Option<HandlerTag>, stackIndex: Option<nat>)

  /** A gate of a fresh table: no handler, no stack switch. */
  const Missing: Entry := Entry(None, None)

  /** Gates in an x86-64 table. */
  const EntryCount: nat := 256

  /** The processor's fixed exception vectors that the kernel binds. */
  const NmiVector: nat := 2
  const BreakpointVector: nat := 3
  const DoubleFaultVector: nat := 8
  const SegmentNotPresentVector: nat := 11
  const GeneralProtectionVector: nat := 13
  const PageFaultVector: nat := 14

  /** `set_handler_fn`: binds the handler and keeps the gate's stack index. */
  function SetHandler(e: Entry, h: HandlerTag): (r: Entry)
    ensures r.handler == Some(h) && r.stackIndex == e.stackIndex
  {
    e.(handler := Some(h))
  }

  /** `set_stack_index`: sets the stack index and keeps the gate's handler. */
  function SetStackIndex(e: Entry, ist: nat): (r: Entry)
    ensures r.handler == e.handler && r.stackIndex == Some(ist)
  {
    e.(stackIndex := Some(ist))
  }

  /** The table the boot code builds when the double-fault stack has index
      `ist`: exactly these ten gates are bound, every other one is missing. */
  ghost predicate IsBootTable(table: seq<Entry>, ist: nat) {
    && |table| == EntryCount
    && table[NmiVector] == Entry(Some(NmiHandler), None)
    && table[BreakpointVector] == Entry(Some(BreakpointHandler), None)
    && table[DoubleFaultVector] == Entry(Some(DoubleFaultHandler), Some(ist))
    && table[SegmentNotPresentVector] == Entry(Some(SegmentNotPresentHandler), None)
    && table[GeneralProtectionVector] == Entry(Some(GeneralProtectionHandler), None)
    && table[PageFaultVector] == Entry(Some(PageFaultHandler), Some(ist))
    && table[AsUsize(Timer)] == Entry(Some(TimerHandlerStub), Some(ist))
    && table[AsUsize(Keyboard)] == Entry(Some(KeyboardHandler), Some(ist))
    && table[AsUsize(SerialPort1)] == Entry(Some(Serial1Handler), None)
    && table[AsUsize(SerialPort2)] == Entry(Some(Serial1Handler), None)
    && forall v :: 0 <= v < EntryCount && !Bound(v) ==> table[v] == Missing
  }

  /** The vectors the boot code binds. */
  predicate Bound(v: int) {
    v in {NmiVector, BreakpointVector, DoubleFaultVector, SegmentNotPresentVector,
          GeneralProtectionVector, PageFaultVector, 32, 33, 35, 36}
  }

  /** The `IDT` builder: starts from an empty table and binds the gates one
      statement at a time, in the order the boot code does. */
  method BuildIdt(ist: nat) returns (table: seq<Entry>)
    ensures IsBootTable(table, ist)
  {
    var idt := seq(EntryCount, _ => Missing);
    idt := idt[BreakpointVector := SetHandler(idt[BreakpointVector], BreakpointHandler)];
    idt := idt[GeneralProtectionVector := SetHandler(idt[GeneralProtectionVector], GeneralProtectionHandler)];
    idt := idt[NmiVector := SetHandler(idt[NmiVector], NmiHandler)];
    idt := idt[SegmentNotPresentVector := SetHandler(idt[SegmentNotPresentVector], SegmentNotPresentHandler)];

    idt := idt[DoubleFaultVector := SetHandler(idt[DoubleFaultVector], DoubleFaultHandler)];
    idt := idt[DoubleFaultVector := SetStackIndex(idt[DoubleFaultVector], ist)];
    idt := idt[PageFaultVector := SetHandler(idt[PageFaultVector], PageFaultHandler)];
    idt := idt[PageFaultVector := SetStackIndex(idt[PageFaultVector], ist)];

    var timer, keyboard := AsUsize(Timer), AsUsize(Keyboard);
    assert timer == 32 && keyboard == 33;
    idt := idt[timer := SetHandler(idt[timer], TimerHandlerStub)];
    idt := idt[timer := SetStackIndex(idt[timer], ist)];
    idt := idt[keyboard := SetHandler(idt[keyboard], KeyboardHandler)];
    idt := idt[keyboard := SetStackIndex(idt[keyboard], ist)];

    var serial2, serial1 := AsUsize(SerialPort2), AsUsize(SerialPort1);
    assert serial2 == 36 && serial1 == 35;
    idt := idt[serial2 := SetHandler(idt[serial2], Serial1Handler)];
    idt := idt[serial1 := SetHandler(idt[serial1], Serial1Handler)];
    table := idt;
  }

  /** The boot table is determined by the stack index alone. */
  lemma BootTableIsUnique(t: seq<Entry>, u: seq<Entry>, ist: nat)
    requires IsBootTable(t, ist) && IsBootTable(u, ist)
    ensures t == u
  {
  }

  /** Timer and keyboard sit on vectors 32 and 33, and both serial lines
      (vectors 35 and 36) share `serial1_handler`, which no other vector uses. */
  lemma HardwareBindings(table: seq<Entry>, ist: nat)
    requires IsBootTable(table, ist)
    ensures table[32].handler == Some(TimerHandlerStub)
    ensures table[33].handler == Some(KeyboardHandler)
    ensures forall v :: 0 <= v < |table| ==>
              (table[v].handler == Some(Serial1Handler) <==> v == 35 || v == 36)
  {
  }

  /** Exactly the double-fault, page-fault, timer and keyboard gates switch
      stacks, and they all switch to the given index. */
  lemma StackIndexBindings(table: seq<Entry>, ist: nat)
    requires IsBootTable(table, ist)
    ensures forall v :: 0 <= v < |table| ==>
              (table[v].stackIndex.Some? <==> v in {8, 14, 32, 33})
    ensures forall v :: 0 <= v < |table| && table[v].stackIndex.Some? ==>
              table[v].stackIndex == Some(ist)
  {
  }

  /** What a handler does when it is done. */
  datatype Outcome = Resume | Halt

  /** The double-fault and page-fault handlers end in an endless loop; every
      other handler returns to the interrupted code. */
  function HandlerOutcome(h: HandlerTag): (o: Outcome)
    ensures o == Halt <==> h == DoubleFaultHandler || h == PageFaultHandler
  {
    match h
    case DoubleFaultHandler => Halt
    case PageFaultHandler => Halt
    case _ => Resume
  }

  /** Every gate whose handler halts the processor runs it on the known-good
      stack, so a fault caused by a broken kernel stack still reaches it. */
  lemma HaltingHandlersSwitchStacks(table: seq<Entry>, ist: nat)
    requires IsBootTable(table, ist)
    ensures forall v ::
              (0 <= v < |table| && table[v].handler.Some? &&
               HandlerOutcome(table[v].handler.value) == Halt) ==>
              table[v].stackIndex == Some(ist)
  {
  }
}
