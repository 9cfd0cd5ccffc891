/** The BBDOU script interpreter: its 256-slot opcode table and the handlers
    whose effects stay inside interpreter-owned state (operand stack, block
    counters, properties, the per-dispatch OpCall and thread notification). */
module ScriptOpcodesBbdou {
  import opened Types
  import opened HandlerLogic
  import Opcodes

  /** The error a dispatch reports when the opcode's slot is empty. */
  datatype Fault = UnknownOpcode(op: byte)

  /** The record a handler receives for one dispatch. Handlers add to
      `deltaOfs` to jump relative to the next instruction and set `result` to
      ask for anything other than carrying on. */
  class OpCall {
    const threadId: uint32
    const callerThreadId: uint32
    var deltaOfs: int
    var result: Outcome

    constructor(threadId: uint32, callerThreadId: uint32)
      ensures this.threadId == threadId && this.callerThreadId == callerThreadId
      ensures deltaOfs == 0 && result == Continue
    {
      this.threadId := threadId;
      this.callerThreadId := callerThreadId;
      deltaOfs := 0;
      result := Continue;
    }
  }

  /** The interpreter with the engine state its handlers reach: the operand
      stack (top = last element), the block counters, the set of property
      ids that are true, the thread ids notified so far, and the live threads
      as the thread manager would find them. */
  class ScriptOpcodes {
    const opcodes: array<Option<Opcodes.Handler>>
    var stack: seq<int16>
    const blockCounters: array<byte>
    var properties: set<uint32>
    var notified: seq<uint32>
    var threads: map<uint32, ThreadRecord>

    /** The opcode table holds exactly the registered handlers: the slot of
        each opcode holds the handler registered for it, or nothing. */
    ghost predicate TableReady()
      reads opcodes
    {
      && opcodes.Length == 256
      && forall op :: 0 <= op < 256 ==> opcodes[op] == Opcodes.HandlerAt(op)
    }

    /** No block counter is above the limit that increments keep. */
    ghost predicate CountersBounded()
      reads this, blockCounters
    {
      forall i :: 0 <= i < blockCounters.Length ==> blockCounters[i] <= CounterLimit
    }

    constructor(counters: seq<byte>, properties: set<uint32>, threads: map<uint32, ThreadRecord>)
      ensures TableReady()
      ensures fresh(opcodes) && fresh(blockCounters)
      ensures blockCounters[..] == counters
      ensures stack == [] && this.properties == properties && notified == [] && this.threads == threads
    {
      opcodes := new Option<Opcodes.Handler>[256];
      blockCounters := new byte[|counters|](i requires 0 <= i < |counters| => counters[i]);
      stack := [];
      this.properties := properties;
      notified := [];
      this.threads := threads;
      new;
      InitOpcodes();
    }

    /** Clears all 256 slots, then makes the OPCODE registrations in
        ascending opcode order; each registration is one case of
        Opcodes.HandlerAt. */
    method InitOpcodes()
      requires opcodes.Length == 256
      modifies opcodes
      ensures TableReady()
    {
      for i := 0 to 256
        invariant forall j :: 0 <= j < i ==> opcodes[j] == None
      {
        opcodes[i] := None;
      }
      for op := 0 to 256
        invariant forall j :: 0 <= j < 256 ==> opcodes[j] == if j < op then Opcodes.HandlerAt(j) else None
      {
        match Opcodes.HandlerAt(op)
        case Some(h) => opcodes[op] := Some(h);
        case None =>
      }
    }

    /** The handler bound to `op`, or the unknown-opcode error for a slot
        that initOpcodes left empty. */
    method Lookup(op: byte) returns (r: Result<Opcodes.Handler, Fault>)
      requires TableReady()
      ensures r.Ok? ==> Opcodes.OpcodeOf(r.value) == op
      ensures forall h: Opcodes.Handler :: Opcodes.OpcodeOf(h) == op ==> r == Ok(h)
      ensures r.Err? <==> forall h: Opcodes.Handler :: Opcodes.OpcodeOf(h) != op
      ensures r.Err? ==> r.error == UnknownOpcode(op)
    {
      Opcodes.SlotHoldsOwnHandler(op);
      forall h: Opcodes.Handler | Opcodes.OpcodeOf(h) == op
        ensures opcodes[op] == Some(h)
      {
        Opcodes.TableInverse(h);
      }
      match opcodes[op]
      case Some(h) => r := Ok(h);
      case None => r := Err(UnknownOpcode(op));
    }

    // -------------------------------------------------------------------
    // Operand stack

    method Push(v: int16)
      modifies this`stack
      ensures stack == old(stack) + [v]
    {
      stack := stack + [v];
    }

    method Pop() returns (v: int16)
      requires |stack| > 0
      modifies this`stack
      ensures v == old(stack)[|old(stack)| - 1]
      ensures stack == old(stack)[..|old(stack)| - 1]
    {
      v := stack[|stack| - 1];
      stack := stack[..|stack| - 1];
    }

    method Peek() returns (v: int16)
      requires |stack| > 0
      ensures v == stack[|stack| - 1]
    {
      v := stack[|stack| - 1];
    }

    // -------------------------------------------------------------------
    // Control flow

    method OpSuspend(call: OpCall)
      modifies call`result
      ensures call.result == Suspend
    {
      call.result := Suspend;
    }

    method OpYield(call: OpCall)
      modifies call`result
      ensures call.result == Yield
    {
      call.result := Yield;
    }

    method OpTerminate(call: OpCall)
      modifies call`result
      ensures call.result == Terminate
    {
      call.result := Terminate;
    }

    method OpJump(call: OpCall, jumpOffs: int16)
      modifies call`deltaOfs
      ensures call.deltaOfs == old(call.deltaOfs) + jumpOffs
    {
      call.deltaOfs := call.deltaOfs + jumpOffs;
    }

    method OpJumpIf(call: OpCall, jumpOffs: int16)
      requires |stack| > 0
      modifies this`stack, call`deltaOfs
      ensures old(stack) == stack + [old(stack)[|old(stack)| - 1]]
      ensures call.deltaOfs == old(call.deltaOfs) + if old(stack)[|old(stack)| - 1] == 0 then jumpOffs else 0
    {
      var value := Pop();
      if value == 0 {
        call.deltaOfs := call.deltaOfs + jumpOffs;
      }
    }

    method OpIfLte(call: OpCall, rvalue: int16, elseJumpOffs: int16)
      requires |stack| > 0
      modifies this`stack, call`deltaOfs
      ensures old(stack) == stack + [old(stack)[|old(stack)| - 1]]
      ensures call.deltaOfs == old(call.deltaOfs) + if old(stack)[|old(stack)| - 1] > rvalue then elseJumpOffs else 0
    {
      var lvalue := Pop();
      if !(lvalue <= rvalue) {
        call.deltaOfs := call.deltaOfs + elseJumpOffs;
      }
    }

    method OpEnterScene(call: OpCall, sceneId: uint32, entered: bool)
      modifies call`result
      ensures call.result == if entered then old(call.result) else Terminate
    {
      if !entered {
        call.result := Terminate;
      }
    }

    // -------------------------------------------------------------------
    // Stack operators

    method OpNot()
      requires |stack| > 0
      modifies this`stack
      ensures |stack| == |old(stack)| && stack[..|stack| - 1] == old(stack)[..|stack| - 1]
      ensures stack[|stack| - 1] == if old(stack)[|stack| - 1] == 0 then 1 else 0
    {
      var value := Pop();
      Push(if value != 0 then 0 else 1);
    }

    method OpAnd()
      requires |stack| >= 2
      modifies this`stack
      ensures var n := |old(stack)|;
        stack == old(stack)[..n - 2] + [BitAnd(old(stack)[n - 1], old(stack)[n - 2])]
    {
      var value1 := Pop();
      var value2 := Pop();
      Push(BitAnd(value1, value2));
    }

    method OpOr()
      requires |stack| >= 2
      modifies this`stack
      ensures var n := |old(stack)|;
        stack == old(stack)[..n - 2] + [BitOr(old(stack)[n - 1], old(stack)[n - 2])]
    {
      var value1 := Pop();
      var value2 := Pop();
      Push(BitOr(value1, value2));
    }

    method OpStackPop()
      requires |stack| > 0
      modifies this`stack
      ensures stack == old(stack)[..|old(stack)| - 1]
    {
      var _ := Pop();
    }

    method OpStackDup()
      requires |stack| > 0
      modifies this`stack
      ensures stack == old(stack) + [old(stack)[|old(stack)| - 1]]
    {
      var value := Peek();
      Push(value);
    }

    method OpStackPush0()
      modifies this`stack
      ensures stack == old(stack) + [0]
    {
      Push(0);
    }

    // -------------------------------------------------------------------
    // Block counters and properties

    method OpIncBlockCounter(index: int16)
      requires 0 <= index < blockCounters.Length
      modifies blockCounters
      ensures blockCounters[..] == old(blockCounters[..])[index := IncrementedCounter(old(blockCounters[index]))]
      ensures old(CountersBounded()) ==> CountersBounded()
    {
      var value: byte := (blockCounters[index] as int + 1) % 0x100;
      if value <= CounterLimit {
        blockCounters[index] := value;
      }
    }

    method OpClearBlockCounter(index: int16)
      requires 0 <= index < blockCounters.Length
      modifies blockCounters
      ensures blockCounters[..] == old(blockCounters[..])[index := 0]
      ensures old(CountersBounded()) ==> CountersBounded()
    {
      blockCounters[index] := 0;
    }

    method OpCompareBlockCounter(index: int16, compareOp: int16, rvalue: int16)
      requires 0 <= index < blockCounters.Length
      modifies this`stack
      ensures stack == old(stack) + [if CompareCounter(compareOp, blockCounters[index], rvalue) then 1 else 0]
    {
      var lvalue: int16 := blockCounters[index];
      var compareResult := CompareCounter(compareOp, lvalue, rvalue);
      Push(if compareResult then 1 else 0);
    }

    method OpSetProperty(value: int16, propertyId: uint32)
      modifies this`properties
      ensures properties == PropertiesAfterSet(old(properties), propertyId, value != 0)
    {
      if value != 0 {
        properties := properties + {propertyId};
      } else {
        properties := properties - {propertyId};
      }
    }

    method OpGetProperty(propertyId: uint32)
      modifies this`stack
      ensures stack == old(stack) + [PropertyValue(properties, propertyId)]
    {
      var value := propertyId in properties;
      Push(if value then 1 else 0);
    }

    // -------------------------------------------------------------------
    // Menus and notification

    method OpAddMenuChoice(jumpOffs: int16, endMarker: int16)
      modifies this`stack
      ensures stack == PushChoices(old(stack), [MenuChoice(jumpOffs, endMarker)])
    {
      Push(endMarker);
      Push(jumpOffs);
    }

    /** The choice-removal loop of opDisplayMenu; the operands are decoded
        but not used. */
    method OpDisplayMenu(unk1: int16, menuId: uint32, unk2: uint32)
      requires MenuPop(stack).Some?
      modifies this`stack
      ensures Some(stack) == MenuPop(old(stack))
    {
      ghost var before := stack;
      var jumpOffs := Pop();
      var endMarker := Pop();
      assert stack == before[..|before| - 2] && endMarker == before[|before| - 2];
      while endMarker == 0
        invariant endMarker == 0 ==> MenuPop(stack) == MenuPop(old(stack))
        invariant endMarker != 0 ==> Some(stack) == MenuPop(old(stack))
        decreases |stack|
      {
        before := stack;
        jumpOffs := Pop();
        endMarker := Pop();
        assert stack == before[..|before| - 2] && endMarker == before[|before| - 2];
      }
    }

    method OpNotifyThreadId(call: OpCall)
      requires call.callerThreadId in threads
      modifies this`notified
      ensures var thread := threads[call.callerThreadId];
        notified == old(notified) + if NotifiesCaller(thread.notifyFlags) then [thread.callingThreadId] else []
    {
      var thread := threads[call.callerThreadId];
      if NotifiesCaller(thread.notifyFlags) {
        notified := notified + [thread.callingThreadId];
      }
    }
  }
}
