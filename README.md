# BBDOU script opcodes

A Dafny model of the script interpreter core of the Illusions engine's BBDOU
game (`engines/illusions/bbdou/scriptopcodes_bbdou.cpp`). The model covers
two things:

- the 256-slot opcode table that `initOpcodes` fills;
- the handlers whose effects stay inside interpreter-owned state.

That state is:

- the operand stack of int16 values;
- the block-counter bytes;
- the boolean properties;
- the per-dispatch `OpCall` record, with its relative jump accumulator `_deltaOfs` and outcome `_result`;
- the two thread fields that `opNotifyThreadId` reads.

Layout:

- `types.dfy` (module `Types`) holds the machine integer types (`int16`,
  `byte`, `uint32`), `Option`, `Result`, the handler outcome `Outcome`
  (Continue, Suspend, Yield or Terminate) and `ThreadRecord`.
- `opcodes.dfy` (module `Opcodes`) holds the opcode table:
  - a `Handler` tag per registered handler;
  - `HandlerAt`, with one case per `OPCODE(op, func)` line;
  - `OpcodeOf`, the same registrations indexed by handler;
  - lemmas that the two describe one table.
- `handler_logic.dfy` (module `HandlerLogic`) holds the pure computations
  inside the handlers:
  - the wrapping byte increment with its limit 63;
  - the relational switch of `opCompareBlockCounter`;
  - two's-complement `&` and `|` on int16 values;
  - the notify-flag bit test;
  - the stack that the menu pop loop leaves behind.
- `script_opcodes.dfy` (module `ScriptOpcodesBbdou`) holds the imperative
  core:
  - class `OpCall`, with the mutable `deltaOfs` and `result` fields;
  - class `ScriptOpcodes`, with the `opcodes` array, the `stack` sequence
    (top = last element), the `blockCounters` array, the `properties` set
    (the ids that are true), the log of `notified` thread ids and the live
    `threads`;
  - one method per modelled handler. Each method states its complete new
    state and is framed to the fields it writes. For example, `OpJump`
    modifies only `call.deltaOfs`, `OpJumpIf` and `OpIfLte` also pop the
    stack, and the outcome handlers modify only `call.result`.

Decoded operands (`ARG_INT16`, `ARG_UINT32`, `ARG_SKIP`) become method
parameters, in the order the handler reads them. A call into an engine
subsystem whose result matters becomes a parameter. The one such call is
whether `enterScene` succeeded, in `opEnterScene`.

Three behaviours of the code are easy to misread:

- `opAnd` and `opOr` (lines 628-638) push the bitwise `value1 & value2`
  and `value1 | value2`, not a 0/1 boolean, so `1 & 2` is 0
  (`HandlerLogic.AndOfTruthyCanBeZero`).
- The `opDisplayMenu` pop loop (lines 565-567) stops after the first pair
  whose end marker is non-zero. With choices whose end markers are 1, 1 and
  then 0, only the last two choices are removed (`HandlerLogic.MenuScenario`).
- `opIfLte` (lines 542-549) pops the top value and jumps only when that value
  is greater than `rvalue`. With 5 and then 3 pushed and `rvalue` 3, no jump
  is taken (`ScriptOpcodesBbdou.ScriptOpcodes.OpIfLte`).

## Model

| member | source | states |
|---|---|---|
| `Opcodes.HandlerAt` | engines/illusions/bbdou/scriptopcodes_bbdou.cpp:55-139 | the registrations of `initOpcodes`, one per opcode; a handler is bound only to opcodes 2..179 |
| `Opcodes.OpcodeOf` | engines/illusions/bbdou/scriptopcodes_bbdou.cpp:60-139 | the opcode each handler is registered under, always in 2..179 |
| `Opcodes.UnregisteredOpcodes` | engines/illusions/bbdou/scriptopcodes_bbdou.cpp:55-139 | opcodes 0, 1, 7, 10 and every opcode from 180 up have no handler |
| `Opcodes.TableInverse` | engines/illusions/bbdou/scriptopcodes_bbdou.cpp:60-139 | every handler is registered, and its own opcode's slot holds it |
| `Opcodes.SlotHoldsOwnHandler` | engines/illusions/bbdou/scriptopcodes_bbdou.cpp:60-139 | a filled slot holds the handler whose opcode it is, so no handler is registered under two opcodes |
| `ScriptOpcodesBbdou.ScriptOpcodes.constructor` | engines/illusions/bbdou/scriptopcodes_bbdou.cpp:41-44 | construction runs `initOpcodes`, so the table is ready; the stack and the notification log start empty |
| `ScriptOpcodesBbdou.ScriptOpcodes.InitOpcodes` | engines/illusions/bbdou/scriptopcodes_bbdou.cpp:55-139 | after clearing all 256 slots and registering, each slot holds exactly the handler registered for its opcode, or none |
| `ScriptOpcodesBbdou.ScriptOpcodes.Lookup` | engines/illusions/bbdou/scriptopcodes_bbdou.cpp:51-58 | reading slot `op` of a ready table gives the handler whose opcode is `op`; every handler is found at its opcode; the result is the unknown-opcode error exactly when no handler has that opcode |
| `ScriptOpcodesBbdou.ScriptOpcodes.OpSuspend` | engines/illusions/bbdou/scriptopcodes_bbdou.cpp:151-153 | sets the outcome to Suspend and touches nothing else |
| `ScriptOpcodesBbdou.ScriptOpcodes.OpYield` | engines/illusions/bbdou/scriptopcodes_bbdou.cpp:155-157 | sets the outcome to Yield and touches nothing else |
| `ScriptOpcodesBbdou.ScriptOpcodes.OpTerminate` | engines/illusions/bbdou/scriptopcodes_bbdou.cpp:159-161 | sets the outcome to Terminate and touches nothing else |
| `ScriptOpcodesBbdou.ScriptOpcodes.OpJump` | engines/illusions/bbdou/scriptopcodes_bbdou.cpp:163-166 | adds `jumpOffs` to `deltaOfs`; the stack and the outcome are unchanged |
| `ScriptOpcodesBbdou.ScriptOpcodes.OpJumpIf` | engines/illusions/bbdou/scriptopcodes_bbdou.cpp:598-603 | pops exactly the top value and adds `jumpOffs` iff that value is 0; the outcome is unchanged |
| `ScriptOpcodesBbdou.ScriptOpcodes.OpIfLte` | engines/illusions/bbdou/scriptopcodes_bbdou.cpp:542-549 | pops exactly the top value and adds `elseJumpOffs` iff it is greater than `rvalue`; the outcome is unchanged |
| `ScriptOpcodesBbdou.ScriptOpcodes.OpEnterScene` | engines/illusions/bbdou/scriptopcodes_bbdou.cpp:227-238 | the outcome becomes Terminate when entering the scene fails and is left as it was otherwise |
| `ScriptOpcodesBbdou.ScriptOpcodes.OpNotifyThreadId` | engines/illusions/bbdou/scriptopcodes_bbdou.cpp:196-200 | appends the caller thread's calling thread id to the notification log exactly when bit 0 of its notify flags is clear |
| `ScriptOpcodesBbdou.ScriptOpcodes.OpNot` | engines/illusions/bbdou/scriptopcodes_bbdou.cpp:623-626 | replaces the top with 1 if it was 0 and with 0 otherwise; the depth and every value below are unchanged |
| `ScriptOpcodesBbdou.ScriptOpcodes.OpAnd` | engines/illusions/bbdou/scriptopcodes_bbdou.cpp:628-632 | replaces the top two values with their bitwise and; the depth drops by one |
| `ScriptOpcodesBbdou.ScriptOpcodes.OpOr` | engines/illusions/bbdou/scriptopcodes_bbdou.cpp:634-638 | replaces the top two values with their bitwise or; the depth drops by one |
| `ScriptOpcodesBbdou.ScriptOpcodes.OpStackPop` | engines/illusions/bbdou/scriptopcodes_bbdou.cpp:693-695 | removes exactly the top value |
| `ScriptOpcodesBbdou.ScriptOpcodes.OpStackDup` | engines/illusions/bbdou/scriptopcodes_bbdou.cpp:697-700 | pushes a copy of the top value, so the top two are equal and everything below is unchanged |
| `ScriptOpcodesBbdou.ScriptOpcodes.OpStackPush0` | engines/illusions/bbdou/scriptopcodes_bbdou.cpp:749-751 | pushes 0 on top of the unchanged stack |
| `ScriptOpcodesBbdou.ScriptOpcodes.OpIncBlockCounter` | engines/illusions/bbdou/scriptopcodes_bbdou.cpp:349-354 | only the indexed counter changes, to its incremented value; when every counter is at most 63 before, the same holds after |
| `ScriptOpcodesBbdou.ScriptOpcodes.OpClearBlockCounter` | engines/illusions/bbdou/scriptopcodes_bbdou.cpp:356-359 | only the indexed counter changes, to 0, so a second clear changes nothing; the bound 63 is kept |
| `ScriptOpcodesBbdou.ScriptOpcodes.OpCompareBlockCounter` | engines/illusions/bbdou/scriptopcodes_bbdou.cpp:647-674 | leaves the counters as they are and pushes exactly one value, 1 if the comparison selected by `compareOp` holds and 0 otherwise |
| `ScriptOpcodesBbdou.ScriptOpcodes.OpSetProperty` | engines/illusions/bbdou/scriptopcodes_bbdou.cpp:361-365 | the property becomes true iff `value` is non-zero; every other property is unchanged |
| `ScriptOpcodesBbdou.ScriptOpcodes.OpGetProperty` | engines/illusions/bbdou/scriptopcodes_bbdou.cpp:640-645 | pushes 1 if the property is true and 0 otherwise, leaving the properties alone |
| `ScriptOpcodesBbdou.ScriptOpcodes.OpAddMenuChoice` | engines/illusions/bbdou/scriptopcodes_bbdou.cpp:551-557 | pushes `endMarker` and then `jumpOffs` on top of the unchanged stack |
| `ScriptOpcodesBbdou.ScriptOpcodes.OpDisplayMenu` | engines/illusions/bbdou/scriptopcodes_bbdou.cpp:559-567 | the pop loop leaves exactly the stack `MenuPop` describes; it needs a pair with a non-zero end marker to be present |
| `HandlerLogic.IncrementedCounter` | engines/illusions/bbdou/scriptopcodes_bbdou.cpp:349-354 | below 63 the counter goes up by one; from 63 to 254 it stays; at 255 the byte sum wraps to 0, which is stored; a counter at most 63 stays at most 63 |
| `HandlerLogic.IncrementsSaturate` | engines/illusions/bbdou/scriptopcodes_bbdou.cpp:349-354 | from a value at most 63, `n` increments give `min(v + n, 63)`, so the counter never passes 63 |
| `HandlerLogic.CompareCounter` | engines/illusions/bbdou/scriptopcodes_bbdou.cpp:652-672 | a code outside 1..6 gives false |
| `HandlerLogic.CompareCodesAgree` | engines/illusions/bbdou/scriptopcodes_bbdou.cpp:652-672 | codes 1/2, 3/5 and 4/6 are complements; code 4 is code 3 with the operands swapped; exactly one of codes 1, 3 and 4 holds |
| `HandlerLogic.PropertiesAfterSet` | engines/illusions/bbdou/scriptopcodes_bbdou.cpp:361-365 | the set property is true iff it was set to a non-zero value, and every other id keeps its membership |
| `HandlerLogic.PropertyValue` | engines/illusions/bbdou/scriptopcodes_bbdou.cpp:640-645 | the pushed value is 0 or 1, and it is 1 iff the property is true |
| `HandlerLogic.GetAfterSet` | engines/illusions/bbdou/scriptopcodes_bbdou.cpp:361-365 | after a set, reading that id gives 1 iff the value was non-zero, and reading any other id gives what it gave before |
| `HandlerLogic.BitAnd` | engines/illusions/bbdou/scriptopcodes_bbdou.cpp:628-632 | two's-complement int16 `&`: 0 against 0, idempotent, negative iff both operands are |
| `HandlerLogic.BitOr` | engines/illusions/bbdou/scriptopcodes_bbdou.cpp:634-638 | two's-complement int16 `|`: 0 iff both operands are 0, 0 is its identity, idempotent, negative iff either operand is |
| `HandlerLogic.BitOpsOnBooleans` | engines/illusions/bbdou/scriptopcodes_bbdou.cpp:628-638 | on operands 0 and 1, `&` and `|` agree with logical and and or |
| `HandlerLogic.AndOfTruthyCanBeZero` | engines/illusions/bbdou/scriptopcodes_bbdou.cpp:628-632 | `1 & 2` is 0, so `opAnd` is not a logical and for other non-zero values |
| `HandlerLogic.NotifiesCaller` | engines/illusions/bbdou/scriptopcodes_bbdou.cpp:196-200 | the flags allow notification iff bit 0 is clear, i.e. they are even |
| `HandlerLogic.PushChoices` | engines/illusions/bbdou/scriptopcodes_bbdou.cpp:551-557 | each choice adds two entries on top and leaves the stack below untouched |
| `HandlerLogic.MenuPop` | engines/illusions/bbdou/scriptopcodes_bbdou.cpp:559-567 | the pop loop removes whole pairs from the top and keeps a prefix. The last pair it removes has a non-zero end marker and all earlier ones have 0. It underflows exactly when every end-marker position holds 0 |
| `HandlerLogic.MenuChoiceRoundTrip` | engines/illusions/bbdou/scriptopcodes_bbdou.cpp:551-567 | adding one choice with a non-zero end marker and then displaying the menu restores the original stack |
| `HandlerLogic.MenuPopRemovesChoices` | engines/illusions/bbdou/scriptopcodes_bbdou.cpp:551-567 | after adding a list of choices, displaying the menu removes the last choice with a non-zero end marker and every choice above it, and nothing below |
| `HandlerLogic.MenuScenario` | engines/illusions/bbdou/scriptopcodes_bbdou.cpp:559-567 | choices with end markers 1, 1 and then 0 lose only the last two; the first stays on the stack |

## Left out

- Scene, camera, actor, control, talk, sound and music, screen,
  input-button, font, video, resource-loading and special-code handlers
  (for example `opChangeScene`, the pan handlers, `opPlaceActor`,
  `opStartSound` and `opRunSpecialCode`). Each one calls into an engine
  subsystem whose code is not part of this model. The table still registers
  them by tag, and `opEnterScene` keeps only its effect on the outcome.
- Thread-manager operations: `opStartScriptThread`,
  `opStartTempScriptThread`, `opStartTimerThread`, `opSetThreadSceneId`,
  `opEndTalkThreads`, `opStartAbortableThread`, `opKillThread` and
  `opResetGame`. The thread manager is not part of this model.
- Debug scaffolding, which is not intended behaviour:
  - the hard-coded scene and thread override of `opChangeScene` (lines 252-263);
  - the forced timer duration of 1 (line 188);
  - the forced menu choice offset 88 in `opSwitchMenuChoice` (line 575), so
    `opSwitchMenuChoice` is not modelled;
  - the unconditional notifies in `opDisplayMenu` and `opPlayVideo` (lines
    570 and 689);
  - the debug print of `opDebug126` (lines 676-679).
- `opStackPushRandom` and the timer jitter, which depend on the engine's
  random source.
- The byte decoding of operands (`ARG_INT16`, `ARG_UINT32`, `ARG_SKIP`).
  Its macros live in a header that is not part of this model; operands
  arrive decoded.
- The `new` and `delete` of handler functors in `initOpcodes` and
  `freeOpcodes`. These are ownership details only.
- `_opcodeNames`. Each `Handler` tag is named after its handler, and the
  tag stands in for the name string.
- The dispatcher that reads the table (`execOpcode`) is not part of this
  model. `ScriptOpcodes.Lookup` states what reading a slot yields.
- The stores behind the state are not part of this model: the block-counter
  store's own index translation, the property store's bit layout and the
  `ScriptStack` implementation. Counters are indexed directly, and the stack
  has no capacity limit.
- `ScriptOpcodesBbdou.ScriptOpcodes.InitOpcodes`: the 80 `OPCODE` lines are
  the cases of `Opcodes.HandlerAt`. The method stores them in one ascending
  pass over the 256 opcodes rather than with 80 separate statements. The
  resulting table is the same, and the order of stores is not observable.
- `ScriptOpcodesBbdou.ScriptOpcodes.OpJump`: `deltaOfs` is an unbounded
  integer. The width of `OpCall::_deltaOfs` is declared in a header that is
  not part of this model, so its overflow is not modelled.
- `ScriptOpcodesBbdou.ScriptOpcodes.OpJumpIf`: adds to the same unbounded
  `deltaOfs` (line 602), so its overflow is not modelled either.
- `ScriptOpcodesBbdou.ScriptOpcodes.OpIfLte`: adds to the same unbounded
  `deltaOfs` (line 548), so its overflow is not modelled either.
- `ScriptOpcodesBbdou.ScriptOpcodes.OpNotifyThreadId`: it requires the caller
  thread to be live, as the code dereferences the lookup without a check.
  The wake-up itself is recorded as an entry in the `notified` log.
- `ScriptOpcodesBbdou.ScriptOpcodes.OpDisplayMenu`: the menu display call is
  a TODO in the code and is not modelled. An empty or all-zero-marker stack,
  which the code would underflow, is excluded by the requirement.
