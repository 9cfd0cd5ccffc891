/** The opcode table of the script interpreter: which handler each opcode
    byte is bound to. */
module Opcodes {
  import opened Types

  /** One tag per handler that the table registers; the tag also plays the
      role of the handler's debug name. */
  datatype Handler =
      OpSuspend
    | OpYield
    | OpTerminate
    | OpJump
    | OpStartScriptThread
    | OpStartTempScriptThread
    | OpStartTimerThread
    | OpNotifyThreadId
    | OpSetThreadSceneId
    | OpEndTalkThreads
    | OpLoadResource
    | OpUnloadResource
    | OpEnterScene
    | OpChangeScene
    | OpStartModalScene
    | OpExitModalScene
    | OpEnterCloseUpScene
    | OpExitCloseUpScene
    | OpPanCenterObject
    | OpPanToObject
    | OpPanToNamedPoint
    | OpPanToPoint
    | OpPanStop
    | OpSetDisplay
    | OpIncBlockCounter
    | OpClearBlockCounter
    | OpSetProperty
    | OpPlaceActor
    | OpFaceActor
    | OpFaceActorToObject
    | OpStartSequenceActor
    | OpStartMoveActor
    | OpSetActorToNamedPoint
    | OpStartTalkThread
    | OpAppearActor
    | OpDisappearActor
    | OpActivateObject
    | OpDeactivateObject
    | OpSetDefaultSequence
    | OpSetSelectSfx
    | OpSetMoveSfx
    | OpSetDenySfx
    | OpSetAdjustUpSfx
    | OpSetAdjustDnSfx
    | OpStartSound
    | OpStopSound
    | OpStartMusic
    | OpStopMusic
    | OpStackPushRandom
    | OpIfLte
    | OpAddMenuChoice
    | OpDisplayMenu
    | OpSwitchMenuChoice
    | OpResetGame
    | OpDeactivateButton
    | OpActivateButton
    | OpJumpIf
    | OpIsPrevSceneId
    | OpIsCurrentSceneId
    | OpIsActiveSceneId
    | OpNot
    | OpAnd
    | OpOr
    | OpGetProperty
    | OpCompareBlockCounter
    | OpDebug126
    | OpPlayVideo
    | OpStackPop
    | OpStackDup
    | OpLoadSpecialCodeModule
    | OpRunSpecialCode
    | OpStopActor
    | OpSetActorUsePan
    | OpStartAbortableThread
    | OpKillThread
    | OpSetSceneIdThreadId
    | OpStackPush0
    | OpSetFontId
    | OpAddMenuKey
    | OpChangeSceneAll

  /** The opcode under which each handler is registered. Opcodes that no
      handler maps to stay empty in the table. */
  function OpcodeOf(h: Handler): (op: byte)
    ensures 2 <= op <= 179
  {
    match h
    case OpSuspend => 2
    case OpYield => 3
    case OpTerminate => 4
    case OpJump => 5
    case OpStartScriptThread => 6
    case OpStartTempScriptThread => 8
    case OpStartTimerThread => 9
    case OpNotifyThreadId => 12
    case OpSetThreadSceneId => 14
    case OpEndTalkThreads => 15
    case OpLoadResource => 16
    case OpUnloadResource => 17
    case OpEnterScene => 20
    case OpChangeScene => 25
    case OpStartModalScene => 26
    case OpExitModalScene => 27
    case OpEnterCloseUpScene => 30
    case OpExitCloseUpScene => 31
    case OpPanCenterObject => 32
    case OpPanToObject => 34
    case OpPanToNamedPoint => 35
    case OpPanToPoint => 36
    case OpPanStop => 37
    case OpSetDisplay => 39
    case OpIncBlockCounter => 42
    case OpClearBlockCounter => 43
    case OpSetProperty => 45
    case OpPlaceActor => 46
    case OpFaceActor => 47
    case OpFaceActorToObject => 48
    case OpStartSequenceActor => 49
    case OpStartMoveActor => 51
    case OpSetActorToNamedPoint => 53
    case OpStartTalkThread => 56
    case OpAppearActor => 57
    case OpDisappearActor => 58
    case OpActivateObject => 60
    case OpDeactivateObject => 61
    case OpSetDefaultSequence => 62
    case OpSetSelectSfx => 63
    case OpSetMoveSfx => 64
    case OpSetDenySfx => 65
    case OpSetAdjustUpSfx => 66
    case OpSetAdjustDnSfx => 67
    case OpStartSound => 71
    case OpStopSound => 74
    case OpStartMusic => 75
    case OpStopMusic => 76
    case OpStackPushRandom => 78
    case OpIfLte => 79
    case OpAddMenuChoice => 80
    case OpDisplayMenu => 81
    case OpSwitchMenuChoice => 82
    case OpResetGame => 84
    case OpDeactivateButton => 87
    case OpActivateButton => 88
    case OpJumpIf => 103
    case OpIsPrevSceneId => 104
    case OpIsCurrentSceneId => 105
    case OpIsActiveSceneId => 106
    case OpNot => 107
    case OpAnd => 108
    case OpOr => 109
    case OpGetProperty => 110
    case OpCompareBlockCounter => 111
    case OpDebug126 => 126
    case OpPlayVideo => 144
    case OpStackPop => 146
    case OpStackDup => 147
    case OpLoadSpecialCodeModule => 148
    case OpRunSpecialCode => 150
    case OpStopActor => 160
    case OpSetActorUsePan => 161
    case OpStartAbortableThread => 168
    case OpKillThread => 169
    case OpSetSceneIdThreadId => 175
    case OpStackPush0 => 176
    case OpSetFontId => 177
    case OpAddMenuKey => 178
    case OpChangeSceneAll => 179
  }

  /** The registrations initOpcodes makes, one case per registered opcode:
      the handler bound to `op`, or nothing. */
  function HandlerAt(op: int): (r: Option<Handler>)
    ensures r.Some? ==> 2 <= op <= 179
  {
    match op
    case 2 => Some(OpSuspend)
    case 3 => Some(OpYield)
    case 4 => Some(OpTerminate)
    case 5 => Some(OpJump)
    case 6 => Some(OpStartScriptThread)
    case 8 => Some(OpStartTempScriptThread)
    case 9 => Some(OpStartTimerThread)
    case 12 => Some(OpNotifyThreadId)
    case 14 => Some(OpSetThreadSceneId)
    case 15 => Some(OpEndTalkThreads)
    case 16 => Some(OpLoadResource)
    case 17 => Some(OpUnloadResource)
    case 20 => Some(OpEnterScene)
    case 25 => Some(OpChangeScene)
    case 26 => Some(OpStartModalScene)
    case 27 => Some(OpExitModalScene)
    case 30 => Some(OpEnterCloseUpScene)
    case 31 => Some(OpExitCloseUpScene)
    case 32 => Some(OpPanCenterObject)
    case 34 => Some(OpPanToObject)
    case 35 => Some(OpPanToNamedPoint)
    case 36 => Some(OpPanToPoint)
    case 37 => Some(OpPanStop)
    case 39 => Some(OpSetDisplay)
    case 42 => Some(OpIncBlockCounter)
    case 43 => Some(OpClearBlockCounter)
    case 45 => Some(OpSetProperty)
    case 46 => Some(OpPlaceActor)
    case 47 => Some(OpFaceActor)
    case 48 => Some(OpFaceActorToObject)
    case 49 => Some(OpStartSequenceActor)
    case 51 => Some(OpStartMoveActor)
    case 53 => Some(OpSetActorToNamedPoint)
    case 56 => Some(OpStartTalkThread)
    case 57 => Some(OpAppearActor)
    case 58 => Some(OpDisappearActor)
    case 60 => Some(OpActivateObject)
    case 61 => Some(OpDeactivateObject)
    case 62 => Some(OpSetDefaultSequence)
    case 63 => Some(OpSetSelectSfx)
    case 64 => Some(OpSetMoveSfx)
    case 65 => Some(OpSetDenySfx)
    case 66 => Some(OpSetAdjustUpSfx)
    case 67 => Some(OpSetAdjustDnSfx)
    case 71 => Some(OpStartSound)
    case 74 => Some(OpStopSound)
    case 75 => Some(OpStartMusic)
    case 76 => Some(OpStopMusic)
    case 78 => Some(OpStackPushRandom)
    case 79 => Some(OpIfLte)
    case 80 => Some(OpAddMenuChoice)
    case 81 => Some(OpDisplayMenu)
    case 82 => Some(OpSwitchMenuChoice)
    case 84 => Some(OpResetGame)
    case 87 => Some(OpDeactivateButton)
    case 88 => Some(OpActivateButton)
    case 103 => Some(OpJumpIf)
    case 104 => Some(OpIsPrevSceneId)
    case 105 => Some(OpIsCurrentSceneId)
    case 106 => Some(OpIsActiveSceneId)
    case 107 => Some(OpNot)
    case 108 => Some(OpAnd)
    case 109 => Some(OpOr)
    case 110 => Some(OpGetProperty)
    case 111 => Some(OpCompareBlockCounter)
    case 126 => Some(OpDebug126)
    case 144 => Some(OpPlayVideo)
    case 146 => Some(OpStackPop)
    case 147 => Some(OpStackDup)
    case 148 => Some(OpLoadSpecialCodeModule)
    case 150 => Some(OpRunSpecialCode)
    case 160 => Some(OpStopActor)
    case 161 => Some(OpSetActorUsePan)
    case 168 => Some(OpStartAbortableThread)
    case 169 => Some(OpKillThread)
    case 175 => Some(OpSetSceneIdThreadId)
    case 176 => Some(OpStackPush0)
    case 177 => Some(OpSetFontId)
    case 178 => Some(OpAddMenuKey)
    case 179 => Some(OpChangeSceneAll)
    case _ => None
  }

  /** Opcodes 0, 1, 7 and 10 and everything from 180 on have no handler. */
  lemma UnregisteredOpcodes()
    ensures HandlerAt(0) == None && HandlerAt(1) == None
    ensures HandlerAt(7) == None && HandlerAt(10) == None
    ensures forall op :: op >= 180 ==> HandlerAt(op) == None
  {
  }

  /** Every handler is registered, under its own opcode: HandlerAt and
      OpcodeOf describe the same table. */
  lemma TableInverse(h: Handler)
    ensures HandlerAt(OpcodeOf(h)) == Some(h)
  {
    var op := OpcodeOf(h);
    if op < 30 {
      InverseBelow30(h);
    } else if op < 60 {
      Inverse30To60(h);
    } else if op < 110 {
      Inverse60To110(h);
    } else {
      InverseFrom110(h);
    }
  }

  /** No handler is registered twice: the handler in a filled slot is the
      one whose opcode that slot is. */
  lemma SlotHoldsOwnHandler(op: int)
    ensures HandlerAt(op).Some? ==> OpcodeOf(HandlerAt(op).value) == op
  {
    if op < 40 {
      SlotsBelow40(op);
    } else if op < 55 {
      Slots40To55(op);
    } else if op < 70 {
      Slots55To70(op);
    } else if op < 85 {
      Slots70To85(op);
    } else if op < 100 {
      Slots85To100(op);
    } else if op < 140 {
      Slots100To140(op);
    } else if op < 155 {
      Slots140To155(op);
    } else if op < 170 {
      Slots155To170(op);
    } else {
      SlotsFrom170(op);
    }
  }

  // The two lemmas above are proved one opcode range at a time, which keeps
  // each case analysis over the table small.

  lemma InverseBelow30(h: Handler)
    requires OpcodeOf(h) < 30
    ensures HandlerAt(OpcodeOf(h)) == Some(h)
  {
  }

  lemma Inverse30To60(h: Handler)
    requires 30 <= OpcodeOf(h) && OpcodeOf(h) < 60
    ensures HandlerAt(OpcodeOf(h)) == Some(h)
  {
  }

  lemma Inverse60To110(h: Handler)
    requires 60 <= OpcodeOf(h) && OpcodeOf(h) < 110
    ensures HandlerAt(OpcodeOf(h)) == Some(h)
  {
  }

  lemma InverseFrom110(h: Handler)
    requires 110 <= OpcodeOf(h)
    ensures HandlerAt(OpcodeOf(h)) == Some(h)
  {
  }

  lemma SlotsBelow40(op: int)
    requires op < 40
    ensures HandlerAt(op).Some? ==> OpcodeOf(HandlerAt(op).value) == op
  {
  }

  lemma Slots40To55(op: int)
    requires 40 <= op && op < 55
    ensures HandlerAt(op).Some? ==> OpcodeOf(HandlerAt(op).value) == op
  {
  }

  lemma Slots55To70(op: int)
    requires 55 <= op && op < 70
    ensures HandlerAt(op).Some? ==> OpcodeOf(HandlerAt(op).value) == op
  {
  }

  lemma Slots70To85(op: int)
    requires 70 <= op && op < 85
    ensures HandlerAt(op).Some? ==> OpcodeOf(HandlerAt(op).value) == op
  {
  }

  lemma Slots85To100(op: int)
    requires 85 <= op && op < 100
    ensures HandlerAt(op).Some? ==> OpcodeOf(HandlerAt(op).value) == op
  {
  }

  lemma Slots100To140(op: int)
    requires 100 <= op && op < 140
    ensures HandlerAt(op).Some? ==> OpcodeOf(HandlerAt(op).value) == op
  {
  }

  lemma Slots140To155(op: int)
    requires 140 <= op && op < 155
    ensures HandlerAt(op).Some? ==> OpcodeOf(HandlerAt(op).value) == op
  {
  }

  lemma Slots155To170(op: int)
    requires 155 <= op && op < 170
    ensures HandlerAt(op).Some? ==> OpcodeOf(HandlerAt(op).value) == op
  {
  }

  lemma SlotsFrom170(op: int)
    requires 170 <= op
    ensures HandlerAt(op).Some? ==> OpcodeOf(HandlerAt(op).value) == op
  {
  }
}
