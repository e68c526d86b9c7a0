/** The fill kernel of boolean literals: a 32-bit cell per row into an array of one byte per row. */
module BatchFill {

  const CELL: nat := 4

  /** A flag as a 32-bit cell, lowest byte first. */
  function CellBytes(literal: bool): seq<int> {
    [if literal then 1 else 0, 0, 0, 0]
  }

  function Filled(literal: bool, rowCnt: nat): (r: seq<int>)
    ensures |r| == CELL * rowCnt
  {
    if rowCnt == 0 then [] else Filled(literal, rowCnt - 1) + CellBytes(literal)
  }

  /** `memory` starts with the data array and goes on behind it. */
  method FillBool(memory: array<int>, nulls: array<bool>, literal: bool, isNull: bool, rowCnt: nat)
    requires CELL * rowCnt <= memory.Length && rowCnt <= nulls.Length
    modifies memory, nulls
    ensures memory[..CELL * rowCnt] == Filled(literal, rowCnt) &&
      memory[CELL * rowCnt..] == old(memory[CELL * rowCnt..])
    ensures (forall i | 0 <= i < rowCnt :: nulls[i] == isNull) && nulls[rowCnt..] == old(nulls[rowCnt..])
  {
    for i := 0 to rowCnt
      invariant memory[..CELL * i] == Filled(literal, i) && memory[CELL * i..] == old(memory[CELL * i..])
      invariant (forall j | 0 <= j < i :: nulls[j] == isNull) && nulls[i..] == old(nulls[i..])
    {
      memory[CELL * i] := if literal then 1 else 0;
      memory[CELL * i + 1], memory[CELL * i + 2], memory[CELL * i + 3] := 0, 0, 0;
      assert memory[..CELL * (i + 1)] == memory[..CELL * i] + CellBytes(literal);
      nulls[i] := isNull;
    }
  }

  lemma {:induction false} FilledAt(literal: bool, rowCnt: nat, j: nat)
    requires j < CELL * rowCnt
    ensures Filled(literal, rowCnt)[j] == if literal && j % CELL == 0 then 1 else 0
  {
    if j < CELL * (rowCnt - 1) {
      FilledAt(literal, rowCnt - 1, j);
    }
  }

  /** The row's byte shows the literal. */
  predicate Shows(literal: bool, rowCnt: nat) {
    forall row | 0 <= row < rowCnt :: (Filled(literal, rowCnt)[row] != 0) == literal
  }

  /** The rows all show the literal exactly if it is false or there is no second row; and the cells never fit the
      array. */
  lemma FillBoolShows(literal: bool, rowCnt: nat)
    ensures Shows(literal, rowCnt) <==> !literal || rowCnt <= 1
    ensures rowCnt > 0 ==> |Filled(literal, rowCnt)| > rowCnt
  {
    forall row: nat | row < rowCnt ensures Filled(literal, rowCnt)[row] == if literal && row % CELL == 0 then 1 else 0 {
      FilledAt(literal, rowCnt, row);
    }
    if rowCnt > 1 {
      assert Filled(literal, rowCnt)[1] == 0;
    }
  }
}
