/** The instruction builder: appends to the block at the insertion point and hands back the operand it defines. Each
    of its methods is specified by the function of `CodeShape` that says what the code has become. */
module Builder {
  import opened SqlValues
  import opened BlockIR
  import opened CodeShape
  import opened Steps

  class IRBuilder {
    var fn: Fn

    /** A function with one empty block, where building starts. */
    constructor ()
      ensures fn == Fn([Block([], None)], 0, 0, 0)
    {
      fn := Fn([Block([], None)], 0, 0, 0);
    }

    method Create(i: Instr) returns (r: Operand)
      requires fn.cur < |fn.blocks|
      modifies this
      ensures IsAdd(old(fn), i, fn) && r == Reg(old(fn).regs)
    {
      r := Reg(fn.regs);
      fn := fn.Add(i);
    }

    method CreateAnd(a: Operand, b: Operand) returns (r: Operand)
      requires fn.cur < |fn.blocks|
      modifies this
      ensures IsAdd(old(fn), AndI(old(fn).regs, a, b), fn) && r == Reg(old(fn).regs)
    {
      r := Create(AndI(fn.regs, a, b));
    }

    method CreateOr(a: Operand, b: Operand) returns (r: Operand)
      requires fn.cur < |fn.blocks|
      modifies this
      ensures IsAdd(old(fn), OrI(old(fn).regs, a, b), fn) && r == Reg(old(fn).regs)
    {
      r := Create(OrI(fn.regs, a, b));
    }

    method CreateNot(a: Operand) returns (r: Operand)
      requires fn.cur < |fn.blocks|
      modifies this
      ensures IsAdd(old(fn), NotI(old(fn).regs, a), fn) && r == Reg(old(fn).regs)
    {
      r := Create(NotI(fn.regs, a));
    }

    method CreateICmp(op: CmpOp, a: Operand, b: Operand) returns (r: Operand)
      requires fn.cur < |fn.blocks|
      modifies this
      ensures IsAdd(old(fn), CmpI(old(fn).regs, op, a, b), fn) && r == Reg(old(fn).regs)
    {
      r := Create(CmpI(fn.regs, op, a, b));
    }

    method CreateLoad(slot: nat) returns (r: Operand)
      requires fn.cur < |fn.blocks|
      modifies this
      ensures IsAdd(old(fn), LoadI(old(fn).regs, slot), fn) && r == Reg(old(fn).regs)
    {
      r := Create(LoadI(fn.regs, slot));
    }

    method CreatePhi(tb: nat, o: Operand, fb: nat, p: Operand) returns (r: Operand)
      requires fn.cur < |fn.blocks|
      modifies this
      ensures IsAdd(old(fn), PhiI(old(fn).regs, [(tb, o), (fb, p)]), fn) && r == Reg(old(fn).regs)
    {
      r := Create(PhiI(fn.regs, [(tb, o), (fb, p)]));
    }

    method CreateAlloca() returns (slot: nat)
      modifies this
      ensures fn == old(fn).NewSlots(1) && slot == old(fn).slots
    {
      slot := fn.slots;
      fn := fn.NewSlots(1);
    }

    method CreateStore(o: Operand, slot: nat)
      requires fn.cur < |fn.blocks|
      modifies this
      ensures IsStore(old(fn), slot, o, fn)
    {
      fn := fn.Ins([StoreI(slot, o)], 0);
    }

    method CreateBlock() returns (b: nat)
      modifies this
      ensures fn == old(fn).NewBlock() && b == |old(fn).blocks|
    {
      b := |fn.blocks|;
      fn := fn.NewBlock();
    }

    method CreateBr(target: nat)
      requires fn.cur < |fn.blocks|
      modifies this
      ensures fn == old(fn).Close(Br(target))
    {
      fn := fn.Close(Br(target));
    }

    method CreateCondBr(cond: Operand, thn: nat, els: nat)
      requires fn.cur < |fn.blocks|
      modifies this
      ensures fn == old(fn).Close(CondBr(cond, thn, els))
    {
      fn := fn.Close(CondBr(cond, thn, els));
    }

    method CreateRet(data: Operand, len: Operand, isNull: Operand)
      requires fn.cur < |fn.blocks|
      modifies this
      ensures fn == old(fn).Close(Ret(data, len, isNull))
    {
      fn := fn.Close(Ret(data, len, isNull));
    }

    method SetInsertPoint(b: nat)
      modifies this
      ensures fn == old(fn).At(b)
    {
      fn := fn.At(b);
    }
  }
}
