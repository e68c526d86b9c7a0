/** The meaning of each kind of node in terms of the meanings of its operands: `Eval` as a function of the row, with
    one lemma per kind of node that unfolds it once, for the compiler's proofs to quote. */
module Meanings {
  import opened SqlValues
  import opened Expressions
  import opened Translation

  lemma OfLiteral(schema: seq<Type>, ov: bool, ty: Type, isNull: bool, data: Val)
    requires WellTyped(Literal(ty, isNull, data), schema)
    ensures forall ctx | ContextOk(ctx, schema) ::
      Meaning(schema, ov, Literal(ty, isNull, data))(ctx) == if isNull then Null else Value(data)
  {
  }

  lemma OfField(schema: seq<Type>, ov: bool, ty: Type, col: nat)
    requires WellTyped(Field(ty, col), schema)
    ensures forall ctx | ContextOk(ctx, schema) ::
      Meaning(schema, ov, Field(ty, col))(ctx) == ctx.columns[col].SqlAt(ty, ctx.row)
  {
  }

  lemma OfNot(schema: seq<Type>, ov: bool, x: Expr)
    requires WellTyped(Not(x), schema)
    ensures forall ctx | ContextOk(ctx, schema) ::
      Meaning(schema, ov, Not(x))(ctx) == KleeneNot(Meaning(schema, ov, x)(ctx))
  {
  }

  lemma OfIsNull(schema: seq<Type>, ov: bool, x: Expr)
    requires WellTyped(IsNull(x), schema)
    ensures forall ctx | ContextOk(ctx, schema) ::
      Meaning(schema, ov, IsNull(x))(ctx) == Value(VBool(Meaning(schema, ov, x)(ctx).Null?))
  {
  }

  lemma OfBinary(schema: seq<Type>, ov: bool, op: BinaryOp, l: Expr, r: Expr)
    requires WellTyped(Binary(op, l, r), schema)
    ensures forall ctx | ContextOk(ctx, schema) ::
      Meaning(schema, ov, Binary(op, l, r))(ctx) == BinarySql(ctx.kernels, op, TypeOf(l), Meaning(schema, ov, l)(ctx),
        Meaning(schema, ov, r)(ctx))
  {
  }

  lemma OfBetween(schema: seq<Type>, ov: bool, v: Expr, lo: Expr, hi: Expr)
    requires WellTyped(Between(v, lo, hi), schema)
    ensures forall ctx | ContextOk(ctx, schema) ::
      Meaning(schema, ov, Between(v, lo, hi))(ctx) == BetweenSql(ctx.kernels, Meaning(schema, ov, v)(ctx),
        Meaning(schema, ov, lo)(ctx), Meaning(schema, ov, hi)(ctx))
  {
  }

  lemma OfIf(schema: seq<Type>, ov: bool, c: Expr, t: Expr, f: Expr)
    requires WellTyped(If(c, t, f), schema)
    ensures forall ctx | ContextOk(ctx, schema) ::
      Meaning(schema, ov, If(c, t, f))(ctx) == if Meaning(schema, ov, c)(ctx) == TRUE then Meaning(schema, ov, t)(ctx)
        else Meaning(schema, ov, f)(ctx)
  {
  }

  lemma OfCoalesce(schema: seq<Type>, ov: bool, a: Expr, b: Expr)
    requires WellTyped(Coalesce(a, b), schema)
    ensures forall ctx | ContextOk(ctx, schema) ::
      Meaning(schema, ov, Coalesce(a, b))(ctx) == if Meaning(schema, ov, a)(ctx).Null? then Meaning(schema, ov, b)(ctx)
        else Meaning(schema, ov, a)(ctx)
  {
  }

  ghost function MeaningsAt(schema: seq<Type>, ov: bool, es: seq<Expr>, ctx: Context): seq<Sql>
    requires forall i | 0 <= i < |es| :: WellTyped(es[i], schema)
  {
    seq(|es|, i requires 0 <= i < |es| => Meaning(schema, ov, es[i])(ctx))
  }

  lemma OfIn(schema: seq<Type>, ov: bool, es: seq<Expr>, ctx: Context)
    requires WellTyped(In(es), schema) && ContextOk(ctx, schema)
    ensures Meaning(schema, ov, In(es))(ctx) == InSql(Meaning(schema, ov, es[0])(ctx),
      MeaningsAt(schema, ov, es[1..], ctx))
  {
    var list := seq(|es| - 1, i requires 0 <= i < |es| - 1 => Eval(ctx, schema, ov, es[i + 1]));
    var meant := MeaningsAt(schema, ov, es[1..], ctx);
    forall i | 0 <= i < |list| ensures list[i] == meant[i] {
      assert es[1..][i] == es[i + 1] && WellTyped(es[i + 1], schema);
      assert Meaning(schema, ov, es[i + 1])(ctx) == Eval(ctx, schema, ov, es[i + 1]);
    }
    assert list == meant;
    assert Eval(ctx, schema, ov, In(es)) == InSql(Eval(ctx, schema, ov, es[0]), list);
  }

  lemma OfFunc(schema: seq<Type>, ov: bool, sig: FnSig, args: seq<Expr>, ctx: Context)
    requires WellTyped(Func(sig, args), schema) && ContextOk(ctx, schema)
    ensures Meaning(schema, ov, Func(sig, args))(ctx) == FuncSql(ctx.kernels, sig, ov &&
      sig.hasNullVariant, MeaningsAt(schema, ov, args, ctx))
  {
    var list := seq(|args|, i requires 0 <= i < |args| => Eval(ctx, schema, ov, args[i]));
    var meant := MeaningsAt(schema, ov, args, ctx);
    forall i | 0 <= i < |list| ensures list[i] == meant[i] {
      assert Meaning(schema, ov, args[i])(ctx) == Eval(ctx, schema, ov, args[i]);
    }
    assert list == meant;
  }
}
