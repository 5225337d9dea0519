/**
 * Code pairs: the (group code, value) items a drawing interchange stream is
 * made of, and the forward-only reader over a sequence of them.
 */
module CodePairs {
  import opened Wrappers

  newtype int16 = x: int | -0x8000 <= x < 0x8000
  newtype int32 = x: int | -0x8000_0000 <= x < 0x8000_0000
  newtype uint32 = x: int | 0 <= x < 0x1_0000_0000

  /** An IEEE 754 double, kept as its bit pattern: the model never computes with it. */
  datatype Double = Double(bits: bv64)

  /** The bit pattern of +0.0. */
  const ZeroDouble := Double(0)

  /** A calendar instant, kept as its tick count: the model never computes with it. */
  datatype DateTime = DateTime(ticks: int)

  /**
   * The value half of a code pair. The last three constructors are symbolic:
   * they stand for the result of a conversion the model does not compute.
   */
  datatype Value =
    | Text(s: string)
    | NullText
    | Short(h: int16)
    | Int(i: int32)
    | Bool(b: bool)
    | Real(d: Double)
    | Handle(u: uint32)       // the handle made from a uint pointer field
    | DateWhole(t: DateTime)  // the date's double, truncated to an int
    | DateReal(t: DateTime)   // the date's double

  datatype CodePair = CodePair(code: int, value: Value)

  /** A string field's pair value: a null reference stays null. */
  function TextOf(o: Option<string>): Value
  {
    match o
    case None => NullText
    case Some(s) => Text(s)
  }

  /**
   * The C# `(short)` cast of a 32-bit integer: keep the low 16 bits and read
   * them as two's complement.
   */
  function ToShort(x: int32): int16
  {
    var m := x as int % 0x1_0000;
    if m < 0x8000 then m as int16 else (m - 0x1_0000) as int16
  }

  /**
   * The cast is the one 16-bit value congruent to its argument modulo 2^16,
   * so it leaves every value that fits in a short unchanged.
   */
  lemma ToShortWraps(x: int32)
    ensures (ToShort(x) as int - x as int) % 0x1_0000 == 0
    ensures -0x8000 <= x < 0x8000 ==> ToShort(x) as int == x as int
  {
  }

  /** The group codes of a pair sequence, in order. */
  function Codes(ps: seq<CodePair>): seq<int>
  {
    seq(|ps|, i requires 0 <= i < |ps| => ps[i].code)
  }

  lemma CodesAppend(a: seq<CodePair>, b: seq<CodePair>)
    ensures Codes(a + b) == Codes(a) + Codes(b)
  {
  }

  /** A forward-only reader with one pair of look-ahead. */
  class PairBuffer {
    const items: seq<CodePair>
    var position: nat

    ghost predicate Valid()
      reads this
    {
      position <= |items|
    }

    constructor (items: seq<CodePair>)
      ensures Valid() && this.items == items && position == 0
    {
      this.items := items;
      position := 0;
    }

    predicate ItemsRemain()
      reads this
    {
      position < |items|
    }

    /** The next pair, not consumed. */
    function Peek(): CodePair
      reads this
      requires ItemsRemain()
    {
      items[position]
    }

    method Advance()
      requires Valid() && ItemsRemain()
      modifies this`position
      ensures Valid() && position == old(position) + 1
    {
      position := position + 1;
    }
  }
}
