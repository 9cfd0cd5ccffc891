/** The pure computations inside the opcode handlers: the block-counter
    increment, the relational switch of opCompareBlockCounter, the bitwise
    operators of opAnd and opOr on 16-bit values, the notify-flag test and
    the stack that the menu pop loop leaves behind. */
module HandlerLogic {
  import opened Types

  /** Largest value an increment may store in a block counter. */
  const CounterLimit: byte := 63

  // ---------------------------------------------------------------------
  // Block counters

  /** The value opIncBlockCounter leaves in a counter that held `v`: the
      byte sum `v + 1` (which wraps to 0 at 256) is stored only when it is at
      most 63, otherwise the counter keeps `v`. */
  function IncrementedCounter(v: byte): (r: byte)
    ensures v < CounterLimit ==> r == v + 1
    ensures CounterLimit <= v < 0xFF ==> r == v
    ensures v == 0xFF ==> r == 0
    ensures v <= CounterLimit ==> r <= CounterLimit
  {
    var sum := (v + 1) % 0x100;
    if sum <= CounterLimit then sum else v
  }

  /** A counter after `n` increments in a row. */
  function IncrementedTimes(v: byte, n: nat): (r: byte)
  {
    if n == 0 then v else IncrementedCounter(IncrementedTimes(v, n - 1))
  }

  /** Starting at or below 63, any number of increments counts up and then
      freezes at 63: the counter never exceeds 63. */
  lemma {:induction false} IncrementsSaturate(v: byte, n: nat)
    requires v <= CounterLimit
    ensures IncrementedTimes(v, n) == if v + n <= CounterLimit then v + n else CounterLimit
  {
    if n > 0 {
      IncrementsSaturate(v, n - 1);
    }
  }

  /** The relational switch of opCompareBlockCounter: codes 1 to 6 select
      ==, !=, <, >, >= and <= with the counter on the left; any other code
      yields false. */
  function CompareCounter(compareOp: int16, lvalue: int16, rvalue: int16): (r: bool)
    ensures !(1 <= compareOp <= 6) ==> !r
  {
    match compareOp
    case 1 => lvalue == rvalue
    case 2 => lvalue != rvalue
    case 3 => lvalue < rvalue
    case 4 => lvalue > rvalue
    case 5 => lvalue >= rvalue
    case 6 => lvalue <= rvalue
    case _ => false
  }

  /** The six codes pair up into complements (1/2, 3/5, 4/6), code 4 is
      code 3 with its operands swapped, and exactly one of 1, 3 and 4 holds
      for any pair of values. */
  lemma CompareCodesAgree(l: int16, r: int16)
    ensures CompareCounter(2, l, r) == !CompareCounter(1, l, r)
    ensures CompareCounter(5, l, r) == !CompareCounter(3, l, r)
    ensures CompareCounter(6, l, r) == !CompareCounter(4, l, r)
    ensures CompareCounter(4, l, r) == CompareCounter(3, r, l)
    ensures CompareCounter(1, l, r) || CompareCounter(3, l, r) || CompareCounter(4, l, r)
    ensures !(CompareCounter(1, l, r) && CompareCounter(3, l, r))
    ensures !(CompareCounter(1, l, r) && CompareCounter(4, l, r))
    ensures !(CompareCounter(3, l, r) && CompareCounter(4, l, r))
  {
  }

  // ---------------------------------------------------------------------
  // Properties

  /** The set of true property ids after a property is set to `on`. */
  function PropertiesAfterSet(props: set<uint32>, id: uint32, on: bool): (r: set<uint32>)
    ensures id in r <==> on
    ensures forall other :: other != id ==> (other in r <==> other in props)
  {
    if on then props + {id} else props - {id}
  }

  /** What opGetProperty pushes for a property: 1 when it is true, else 0. */
  function PropertyValue(props: set<uint32>, id: uint32): (v: int16)
    ensures v == 0 || v == 1
    ensures v == 1 <==> id in props
  {
    if id in props then 1 else 0
  }

  /** Reading a property back after setting it gives 1 exactly when the value
      it was set from is non-zero, and setting one property leaves every other
      property's value as it was. */
  lemma GetAfterSet(props: set<uint32>, id: uint32, value: int16, other: uint32)
    ensures PropertyValue(PropertiesAfterSet(props, id, value != 0), id) == if value != 0 then 1 else 0
    ensures other != id ==> PropertyValue(PropertiesAfterSet(props, id, value != 0), other) == PropertyValue(props, other)
  {
  }

  // ---------------------------------------------------------------------
  // Bitwise operators on 16-bit two's-complement values

  /** Width of the operand stack's values in bits. */
  const Width: nat := 16

  function Pow2(n: nat): (p: nat)
    ensures p >= 1
  {
    if n == 0 then 1 else 2 * Pow2(n - 1)
  }

  lemma Pow2OfWidth()
    ensures Pow2(Width - 1) == 0x8000 && Pow2(Width) == 0x1_0000
  {
    assert Pow2(15) == 0x8000;
  }

  /** The two's-complement bit pattern of a 16-bit value, read as an
      unsigned number. */
  function Unsigned(v: int16): (u: nat)
    ensures u < 0x1_0000
    ensures v >= 0 ==> u == v
  {
    if v < 0 then v + 0x1_0000 else v
  }

  /** The 16-bit value whose two's-complement bit pattern is `u`. */
  function Signed(u: nat): (v: int16)
    requires u < 0x1_0000
    ensures Unsigned(v) == u
    ensures v < 0 <==> u >= 0x8000
  {
    if u < 0x8000 then u else u - 0x1_0000
  }

  /** The low `width` bits of `x & y`, computed bit by bit. */
  function AndBits(x: nat, y: nat, width: nat): (r: nat)
  {
    if width == 0 then 0
    else 2 * AndBits(x / 2, y / 2, width - 1) + (if x % 2 == 1 && y % 2 == 1 then 1 else 0)
  }

  /** The low `width` bits of `x | y`, computed bit by bit. */
  function OrBits(x: nat, y: nat, width: nat): (r: nat)
  {
    if width == 0 then 0
    else 2 * OrBits(x / 2, y / 2, width - 1) + (if x % 2 == 1 || y % 2 == 1 then 1 else 0)
  }

  /** For operands that fit in `w` bits, `&` fits too, its top bit is set
      exactly when both top bits are, it is 0 against 0 and idempotent. */
  lemma {:induction false} AndBitsFacts(x: nat, y: nat, w: nat)
    requires x < Pow2(w) && y < Pow2(w)
    ensures AndBits(x, y, w) < Pow2(w)
    ensures w > 0 ==> (AndBits(x, y, w) >= Pow2(w - 1) <==> x >= Pow2(w - 1) && y >= Pow2(w - 1))
    ensures x == 0 || y == 0 ==> AndBits(x, y, w) == 0
    ensures x == y ==> AndBits(x, y, w) == x
  {
    if w > 0 {
      AndBitsFacts(x / 2, y / 2, w - 1);
    }
  }

  /** For operands that fit in `w` bits, `|` fits too, its top bit is set
      exactly when either top bit is, it is 0 only for two zeros and 0 is
      its identity. */
  lemma {:induction false} OrBitsFacts(x: nat, y: nat, w: nat)
    requires x < Pow2(w) && y < Pow2(w)
    ensures OrBits(x, y, w) < Pow2(w)
    ensures w > 0 ==> (OrBits(x, y, w) >= Pow2(w - 1) <==> x >= Pow2(w - 1) || y >= Pow2(w - 1))
    ensures OrBits(x, y, w) == 0 <==> x == 0 && y == 0
    ensures x == 0 ==> OrBits(x, y, w) == y
    ensures y == 0 ==> OrBits(x, y, w) == x
    ensures x == y ==> OrBits(x, y, w) == x
  {
    if w > 0 {
      OrBitsFacts(x / 2, y / 2, w - 1);
    }
  }

  /** `a & b` as C++ computes it on two int16 operands. */
  function BitAnd(a: int16, b: int16): (r: int16)
    ensures a == 0 || b == 0 ==> r == 0
    ensures a == b ==> r == a
    ensures r < 0 <==> a < 0 && b < 0
  {
    Pow2OfWidth();
    AndBitsFacts(Unsigned(a), Unsigned(b), Width);
    Signed(AndBits(Unsigned(a), Unsigned(b), Width))
  }

  /** `a | b` as C++ computes it on two int16 operands. */
  function BitOr(a: int16, b: int16): (r: int16)
    ensures r == 0 <==> a == 0 && b == 0
    ensures a == 0 ==> r == b
    ensures b == 0 ==> r == a
    ensures a == b ==> r == a
    ensures r < 0 <==> a < 0 || b < 0
  {
    Pow2OfWidth();
    OrBitsFacts(Unsigned(a), Unsigned(b), Width);
    Signed(OrBits(Unsigned(a), Unsigned(b), Width))
  }

  /** On the booleans 0 and 1 the two operators are logical and/or. */
  lemma BitOpsOnBooleans(a: int16, b: int16)
    requires a == 0 || a == 1
    requires b == 0 || b == 1
    ensures BitAnd(a, b) == if a == 1 && b == 1 then 1 else 0
    ensures BitOr(a, b) == if a == 1 || b == 1 then 1 else 0
  {
  }

  /** On other non-zero values `&` is not a logical and: 1 & 2 is 0 although
      both operands count as true for opJumpIf. */
  lemma AndOfTruthyCanBeZero()
    ensures BitAnd(1, 2) == 0
  {
    Pow2OfWidth();
    AndBitsFacts(0, 1, Width - 1);
    assert AndBits(1, 2, Width) == 2 * AndBits(0, 1, Width - 1);
  }

  // ---------------------------------------------------------------------
  // Thread notification

  /** Whether a thread's notify flags let opNotifyThreadId wake its calling
      thread: bit 0 of the flags must be clear. */
  function NotifiesCaller(notifyFlags: uint32): (r: bool)
    ensures r <==> notifyFlags % 2 == 0
  {
    (notifyFlags as bv32) & 1 == 0
  }

  // ---------------------------------------------------------------------
  // Menu choices on the operand stack (top of stack = last element)

  /** One menu choice as opAddMenuChoice decodes it. */
  datatype MenuChoice = MenuChoice(jumpOffs: int16, endMarker: int16)

  /** The stack after opAddMenuChoice has run once per choice, in order:
      each choice pushes its end marker and then its jump offset. */
  function PushChoices(s: seq<int16>, choices: seq<MenuChoice>): (r: seq<int16>)
    ensures |r| == |s| + 2 * |choices|
    ensures r[..|s|] == s
  {
    if choices == [] then s
    else
      var last := choices[|choices| - 1];
      PushChoices(s, choices[..|choices| - 1]) + [last.endMarker, last.jumpOffs]
  }

  /** The stack that opDisplayMenu's pop loop leaves: it pops pairs (jump
      offset, then end marker) off the top and stops after the first pair
      whose end marker is non-zero; None when the stack runs out first. */
  function MenuPop(s: seq<int16>): (r: Option<seq<int16>>)
    ensures r.Some? ==> |r.value| + 2 <= |s| && (|s| - |r.value|) % 2 == 0
    ensures r.Some? ==> r.value == s[..|r.value|] && s[|r.value|] != 0
    ensures r.Some? ==> forall k :: |r.value| < k < |s| - 1 && (|s| - k) % 2 == 0 ==> s[k] == 0
    ensures r.None? <==> forall k :: 0 <= k < |s| - 1 && (|s| - k) % 2 == 0 ==> s[k] == 0
    decreases |s|
  {
    if |s| < 2 then None
    else if s[|s| - 2] != 0 then Some(s[..|s| - 2])
    else MenuPop(s[..|s| - 2])
  }

  /** Adding one choice with a non-zero end marker and then displaying the
      menu gives back the stack as it was. */
  lemma MenuChoiceRoundTrip(s: seq<int16>, jumpOffs: int16, endMarker: int16)
    requires endMarker != 0
    ensures MenuPop(s + [endMarker, jumpOffs]) == Some(s)
  {
    assert (s + [endMarker, jumpOffs])[..|s|] == s;
  }

  /** Displaying the menu removes every choice pushed after the last one
      that carries a non-zero end marker, and that one too, and nothing
      below it. */
  lemma {:induction false} MenuPopRemovesChoices(s: seq<int16>, choices: seq<MenuChoice>, j: nat)
    requires j < |choices| && choices[j].endMarker != 0
    requires forall i :: j < i < |choices| ==> choices[i].endMarker == 0
    ensures MenuPop(PushChoices(s, choices)) == Some(PushChoices(s, choices[..j]))
    decreases |choices|
  {
    var n := |choices|;
    var below := PushChoices(s, choices[..n - 1]);
    assert PushChoices(s, choices) == below + [choices[n - 1].endMarker, choices[n - 1].jumpOffs];
    assert (below + [choices[n - 1].endMarker, choices[n - 1].jumpOffs])[..|below|] == below;
    if j < n - 1 {
      assert choices[..n - 1][..j] == choices[..j];
      MenuPopRemovesChoices(s, choices[..n - 1], j);
    } else {
      assert choices[..j] == choices[..n - 1];
    }
  }

  /** Two choices with end marker 1 followed by one with end marker 0: the
      pop loop removes the last two choices and leaves the first on the
      stack. */
  lemma MenuScenario(s: seq<int16>, lastJump: int16)
    ensures MenuPop(s + [1, 10, 1, 10, 0, lastJump]) == Some(s + [1, 10])
  {
    var t := s + [1, 10, 1, 10, 0, lastJump];
    assert t[..|t| - 2] == s + [1, 10, 1, 10];
    assert (s + [1, 10, 1, 10])[..|s| + 2] == s + [1, 10];
  }
}
