/** SQL values, column vectors and kernels.

    A value in generated code has up to three parts: data, a null flag and, for strings, a length. When the flag is
    set the data and length parts are garbage, so everything a reader may observe goes through `Visible` and
    `SqlOf`. */
module SqlValues {

  datatype Option<+T> = None | Some(value: T)

  datatype Type = Boolean | Byte | Short | Int | Date32 | Long | Timestamp | Varchar

  predicate IsInteger(t: Type) {
    t != Boolean && t != Varchar
  }

  /** A machine value. `VPtr(bytes)` is a pointer, given by the bytes from its target onwards. */
  datatype Val = VInt(i: int) | VBool(b: bool) | VPtr(bytes: string)

  predicate Typed(t: Type, v: Val) {
    match t
    case Boolean => v.VBool?
    case Varchar => v.VPtr?
    case _ => v.VInt?
  }

  /** A SQL value: NULL or a value. A string value is a pointer to exactly its characters. */
  datatype Sql = Null | Value(v: Val)

  predicate LenOk(t: Type, data: Val, len: Val) {
    t == Varchar ==> data.VPtr? && len.VInt? && 0 <= len.i <= |data.bytes|
  }

  /** The characters a (pointer, length) pair denotes; a garbage pair denotes something arbitrary. */
  function Content(data: Val, len: Val): string {
    if LenOk(Varchar, data, len) then data.bytes[..len.i] else ""
  }

  function Visible(t: Type, data: Val, len: Val): Val {
    if t == Varchar then VPtr(Content(data, len)) else data
  }

  /** One argument as generated code passes it around. */
  datatype Arg = Arg(data: Val, len: Val, isNull: bool)

  predicate ArgOk(t: Type, a: Arg) {
    Typed(t, a.data) && (t == Varchar ==> a.len.VInt?) && (!a.isNull ==> LenOk(t, a.data, a.len))
  }

  function SqlOf(t: Type, a: Arg): Sql {
    if a.isNull then Null else Value(Visible(t, a.data, a.len))
  }

  // ---------- columns ----------

  datatype Datum = Datum(data: Val, len: Val)

  /** The i-th string of a flat string column lies inside the buffer. */
  predicate SpanOk(buffer: string, offsets: seq<nat>, i: nat)
    requires i + 1 < |offsets|
  {
    offsets[i] <= offsets[i + 1] <= |buffer|
  }

  /** A column: flat fixed-width cells, flat strings over one buffer, or a dictionary. */
  datatype Vector =
    | Flat(values: seq<Val>, nulls: seq<bool>)
    | FlatString(buffer: string, offsets: seq<nat>, nulls: seq<bool>)
    | Dictionary(dict: seq<Datum>, ids: seq<nat>, nulls: seq<bool>)
  {
    predicate Valid(t: Type) {
      match this
      case Flat(values, nulls) =>
        t != Varchar && |values| == |nulls| && forall i | 0 <= i < |values| :: Typed(t, values[i])
      case FlatString(buffer, offsets, nulls) =>
        && t == Varchar && |offsets| == |nulls| + 1
        && forall i | 0 <= i < |nulls| :: SpanOk(buffer, offsets, i)
      case Dictionary(dict, ids, nulls) =>
        && |ids| == |nulls| && (forall i | 0 <= i < |ids| :: ids[i] < |dict|)
        && forall k | 0 <= k < |dict| :: Typed(t, dict[k].data) && LenOk(t, dict[k].data, dict[k].len)
    }

    function DatumAt(t: Type, row: nat): (d: Datum)
      requires Valid(t) && row < |nulls|
      ensures Typed(t, d.data) && LenOk(t, d.data, d.len)
    {
      match this
      case Flat(values, _) => Datum(values[row], VInt(0))
      case FlatString(buffer, offsets, _) =>
        assert SpanOk(buffer, offsets, row);
        Datum(VPtr(buffer[offsets[row]..]), VInt(offsets[row + 1] - offsets[row]))
      case Dictionary(dict, ids, _) => dict[ids[row]]
    }

    function SqlAt(t: Type, row: nat): Sql
      requires Valid(t) && row < |nulls|
    {
      var d := DatumAt(t, row);
      SqlOf(t, Arg(d.data, d.len, nulls[row]))
    }
  }

  // ---------- kernels ----------

  datatype CmpOp = EQ | NEQ | LT | LTE | GT | GTE
  datatype ArithOp = ADD | SUB | MUL | DIV | MOD | TRY_ADD | TRY_SUB | TRY_MUL | TRY_DIV

  /** Which kernels take a pointer to the null flag. */
  predicate TakesNullFlag(op: ArithOp) {
    op != ADD && op != SUB && op != MUL
  }

  /** How a registered function treats nulls. */
  datatype NullDiscipline = InputData | InputDataAndNull | InputDataAndOverflowNull | InputDataAndNullAndReturnNull
      | Default

  datatype FnSig = FnSig(name: string, params: seq<Type>, ret: Type, discipline: NullDiscipline, hasNullVariant: bool)

  datatype FnOut = FnOut(data: Val, len: int, isNull: bool, overflow: bool)

  /** The runtime kernels generated code calls. `arith` yields a result and whether it is null
      (division by zero, overflow of a TRY operator); `order` is the string comparison; `call` runs a
      registered function (`variant` selects the overflow-to-null entry point) and `meaning` is the
      SQL function it implements. */
  datatype Kernels = Kernels(
    arith: (ArithOp, Type, int, int) -> (int, bool),
    order: (string, string) -> int,
    call: (FnSig, bool, seq<Val>) -> FnOut,
    meaning: (FnSig, bool, seq<Sql>) -> Sql)

  predicate CompareInt(op: CmpOp, a: int, b: int) {
    match op
    case EQ => a == b
    case NEQ => a != b
    case LT => a < b
    case LTE => a <= b
    case GT => a > b
    case GTE => a >= b
  }

  /** The function sees each argument's null flag. */
  predicate PassesNulls(sig: FnSig, variant: bool) {
    if variant then sig.discipline == InputDataAndNullAndReturnNull
    else sig.discipline == InputDataAndNull || sig.discipline == InputDataAndNullAndReturnNull
  }

  /** A null argument makes the result null, whatever the kernel returns. */
  predicate Strict(sig: FnSig, variant: bool) {
    if variant then sig.discipline != InputDataAndNullAndReturnNull
    else sig.discipline != InputDataAndNull && sig.discipline != InputDataAndNullAndReturnNull
  }

  /** The argument list as it is pushed: data, then length, then null flag. */
  function Flatten(params: seq<Type>, args: seq<Arg>, withNulls: bool): seq<Val>
    requires |params| == |args|
  {
    if |args| == 0 then []
    else
      var n := |args| - 1;
      Flatten(params[..n], args[..n], withNulls) + FlattenOne(params[n], args[n], withNulls)
  }

  function FlattenOne(t: Type, a: Arg, withNull: bool): seq<Val> {
    [a.data] + (if t == Varchar then [a.len] else []) + (if withNull then [VBool(a.isNull)] else [])
  }

  /** Pushed last when the function neither returns its own null flag nor is a null variant. */
  function TrailingFlag(sig: FnSig, variant: bool, anyNull: bool): seq<Val> {
    if variant || sig.discipline == InputDataAndNullAndReturnNull then []
    else [VBool(if sig.discipline == InputDataAndNull then false else anyNull)]
  }

  predicate ArgsOk(params: seq<Type>, args: seq<Arg>) {
    |params| == |args| && forall i | 0 <= i < |args| :: ArgOk(params[i], args[i])
  }

  predicate AnyNull(args: seq<Arg>) {
    exists i | 0 <= i < |args| :: args[i].isNull
  }

  function SqlsOf(params: seq<Type>, args: seq<Arg>): (r: seq<Sql>)
    requires |params| == |args|
    ensures |r| == |args|
  {
    seq(|args|, i requires 0 <= i < |args| => SqlOf(params[i], args[i]))
  }

  /** The null flag a call produces, before and after the overflow flag is joined in. */
  predicate OutNull(sig: FnSig, variant: bool, out: FnOut) {
    (sig.discipline == InputDataAndNullAndReturnNull && out.isNull) || (variant && out.overflow)
  }

  /** What a registered function owes its callers. It sees only pointers and garbage behind nulls, yet
      its visible result is the SQL function of the visible arguments. A strict kernel owes nothing on
      a null argument beyond a result of the right type. */
  ghost predicate KernelOk(k: Kernels, sig: FnSig, variant: bool, args: seq<Arg>) {
    ArgsOk(sig.params, args) ==>
      var out := k.call(sig, variant, Flatten(sig.params, args, PassesNulls(sig, variant)) +
        TrailingFlag(sig, variant, AnyNull(args)));
      var meant := k.meaning(sig, variant, SqlsOf(sig.params, args));
      && Typed(sig.ret, out.data)
      && ((Strict(sig, variant) && AnyNull(args)) ||
          (meant.Null? == OutNull(sig, variant, out) &&
           (meant.Value? ==>
             LenOk(sig.ret, out.data, VInt(out.len)) && meant.v == Visible(sig.ret, out.data, VInt(out.len)))))
  }

  ghost predicate KernelsOk(k: Kernels) {
    forall sig, variant, args :: KernelOk(k, sig, variant, args)
  }
}
