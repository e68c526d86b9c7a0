/** 128-bit decimals as kernels see them: as pairs of 64-bit words. */
module Int128 {

  const TWO_63: int := 0x8000_0000_0000_0000
  const TWO_64: int := 0x1_0000_0000_0000_0000
  const TWO_127: int := TWO_63 * TWO_64
  const TWO_128: int := TWO_64 * TWO_64

  /** A register of width n holds a bit pattern, a number below 2^n. */
  predicate Is64(x: int) { 0 <= x < TWO_64 }

  predicate Is128(x: int) { 0 <= x < TWO_128 }

  /** The number a pattern stands for in two's complement. */
  function Signed64(x: int): int {
    if x < TWO_63 then x else x - TWO_64
  }

  function Signed128(x: int): int {
    if x < TWO_127 then x else x - TWO_128
  }

  // ---------- the instructions ----------

  /** Logical shift right by 64. */
  function ShiftRight64(x: int): int {
    x / TWO_64
  }

  function ShiftLeft64(x: int): int {
    x * TWO_64 % TWO_128
  }

  function Truncated(x: int): int {
    x % TWO_64
  }

  /** Copies of the sign bit above. */
  function SignExtended(x: int): int {
    if x < TWO_63 then x else x + (TWO_128 - TWO_64)
  }

  function Added(x: int, y: int): int {
    (x + y) % TWO_128
  }

  datatype SplitValue = SplitValue(high: int, low: int)

  /** The high word is signed, the low word is not. */
  function Split(full: int): (s: SplitValue)
    requires Is128(full)
    ensures Is64(s.high) && Is64(s.low)
    ensures Signed128(full) == Signed64(s.high) * TWO_64 + s.low
  {
    SplitValue(Truncated(ShiftRight64(full)), Truncated(full))
  }

  function ToInt128(high: int, low: int): (full: int)
    requires Is64(high) && Is64(low)
    ensures Is128(full)
  {
    Added(ShiftLeft64(SignExtended(high)), low)
  }

  /** Sign extension changes nothing once the word is shifted into place. */
  lemma ShiftedWord(high: int)
    requires Is64(high)
    ensures ShiftLeft64(SignExtended(high)) == high * TWO_64
  {
    assert Is128(high * TWO_64);
    if high >= TWO_63 {
      assert SignExtended(high) * TWO_64 == high * TWO_64 + TWO_128 * (TWO_64 - 1);
    }
  }

  lemma JoinIs(high: int, low: int)
    requires Is64(high) && Is64(low)
    ensures ToInt128(high, low) == high * TWO_64 + low
    ensures Signed128(ToInt128(high, low)) == Signed64(high) * TWO_64 + low
  {
    ShiftedWord(high);
    assert Is128(high * TWO_64 + low);
  }

  /** Splitting any value and rejoining it is the identity. */
  lemma JoinSplit(full: int)
    requires Is128(full)
    ensures ToInt128(Split(full).high, Split(full).low) == full
  {
    JoinIs(Split(full).high, Split(full).low);
    assert full / TWO_64 < TWO_64;
    assert full == full / TWO_64 * TWO_64 + full % TWO_64;
  }

  /** So is joining any two words and splitting the result. */
  lemma SplitJoin(high: int, low: int)
    requires Is64(high) && Is64(low)
    ensures Split(ToInt128(high, low)) == SplitValue(high, low)
  {
    JoinIs(high, low);
    assert (high * TWO_64 + low) / TWO_64 == high && (high * TWO_64 + low) % TWO_64 == low;
  }

  // ---------- the argument list of a decimal call ----------

  datatype Operand = Wide(x: int) | Narrow(y: int)

  predicate OperandOk(o: Operand) {
    match o case Wide(x) => Is128(x) case Narrow(y) => Is64(y)
  }

  predicate AllOk(args: seq<Operand>) {
    forall i | 0 <= i < |args| :: OperandOk(args[i])
  }

  function Words(o: Operand): seq<int>
    requires OperandOk(o)
  {
    match o case Wide(x) => [Split(x).high, Split(x).low] case Narrow(y) => [y]
  }

  function Flat(args: seq<Operand>): seq<int>
    requires AllOk(args)
  {
    if args == [] then [] else Words(args[0]) + Flat(args[1..])
  }

  lemma {:induction false} FlatAppend(args: seq<Operand>, o: Operand)
    requires AllOk(args) && OperandOk(o)
    ensures AllOk(args + [o]) && Flat(args + [o]) == Flat(args) + Words(o)
  {
    if args == [] {
      assert (args + [o])[1..] == [];
    } else {
      assert (args + [o])[1..] == args[1..] + [o];
      FlatAppend(args[1..], o);
    }
  }

  /** The words handed to the kernel, behind the context or overflow pointer when there is one. */
  method Disassemble(first: seq<int>, args: seq<Operand>) returns (words: seq<int>)
    requires AllOk(args)
    ensures words == first + Flat(args)
  {
    words := first;
    assert args[..0] == [] && first + [] == first;
    for i := 0 to |args|
      invariant words == first + Flat(args[..i])
    {
      FlatAppend(args[..i], args[i]);
      assert args[..i + 1] == args[..i] + [args[i]];
      match args[i]
      case Wide(x) =>
        var split := Split(x);
        words := words + [split.high];
        words := words + [split.low];
      case Narrow(y) =>
        words := words + [y];
    }
    assert args[..|args|] == args;
  }

  /** What a kernel that knows its parameter widths reads back. */
  function Read(wide: seq<bool>, words: seq<int>): seq<Operand>
    requires forall i | 0 <= i < |words| :: Is64(words[i])
  {
    if wide == [] then []
    else if wide[0] then
      if |words| < 2 then [] else [Wide(ToInt128(words[0], words[1]))] + Read(wide[1..], words[2..])
    else
      if |words| < 1 then [] else [Narrow(words[0])] + Read(wide[1..], words[1..])
  }

  function Widths(args: seq<Operand>): seq<bool> {
    seq(|args|, i requires 0 <= i < |args| => args[i].Wide?)
  }

  /** The kernel sees exactly the operands, whatever mixture of widths they are. */
  lemma {:induction false} ReadBack(args: seq<Operand>)
    requires AllOk(args)
    ensures forall i | 0 <= i < |Flat(args)| :: Is64(Flat(args)[i])
    ensures Read(Widths(args), Flat(args)) == args
  {
    hide Split, ToInt128;
    if args != [] {
      var words := Flat(args);
      ReadBack(args[1..]);
      assert Widths(args)[1..] == Widths(args[1..]);
      match args[0]
      case Wide(x) =>
        JoinSplit(x);
        assert words[2..] == Flat(args[1..]);
      case Narrow(_) =>
        assert words[1..] == Flat(args[1..]);
    }
  }
}
