/** What one step does, opcode by opcode, stated against the resolver's
    locations rather than against the dispatch code. Operand 1 is bytes 1-2
    of the instruction at `ip` and operand 2 bytes 3-4. */
module Opcodes {
  import opened Vm
  import opened Resolver
  import opened Engine

  function Source(m: Machine): Result<u8>
    requires m.Valid() && Fetchable(m)
  {
    Get(m, Byte(m, 1), Byte(m, 2))
  }

  function Dest(m: Machine): Result<u8>
    requires m.Valid() && Fetchable(m)
  {
    Get(m, Byte(m, 3), Byte(m, 4))
  }

  /** The location of operand 2, when it resolves. */
  function DestLoc(m: Machine): Result<Loc>
    requires m.Valid() && Fetchable(m)
  {
    Resolve(m, Byte(m, 3), Byte(m, 4))
  }

  /** Moving `ip` is invisible to the resolver. */
  lemma ResolverIgnoresIp(m: Machine, ip: u8, typ: u8, val: u8, value: u8)
    requires m.Valid()
    ensures Get(m.(ip := ip), typ, val) == Get(m, typ, val)
    ensures Resolve(m.(ip := ip), typ, val) == Resolve(m, typ, val)
    ensures Set(m.(ip := ip), typ, val, value).result == Set(m, typ, val, value).result
    ensures Set(m.(ip := ip), typ, val, value).machine == Set(m, typ, val, value).machine.(ip := ip)
  {
  }

  /** A binary opcode: operand 1's error, then operand 2's, then the
      operator's panic, then `set` on operand 2 with the operator's result. */
  lemma StepBinary(m: Machine)
    requires m.Valid() && Fetchable(m) && IsBinary(Byte(m, 0))
    ensures Source(m).Err? ==> Step(m) == Returned(Advanced(m), Err(Source(m).error))
    ensures Source(m).Ok? && Dest(m).Err? ==> Step(m) == Returned(Advanced(m), Err(Dest(m).error))
    ensures Source(m).Ok? && Dest(m).Ok? ==>
      var r := Operator(Byte(m, 0), Source(m).value, Dest(m).value);
      && (r.None? ==> Step(m) == Panicked(OperatorPanicked))
      && (r.Some? ==> Step(m) == Set(Advanced(m), Byte(m, 3), Byte(m, 4), r.value))
  {
    var n := Advanced(m);
    ResolverIgnoresIp(m, n.ip, Byte(m, 1), Byte(m, 2), 0);
    ResolverIgnoresIp(m, n.ip, Byte(m, 3), Byte(m, 4), 0);
    var instr := Fetch(m);
    assert instr[1..] == [Byte(m, 1), Byte(m, 2), Byte(m, 3), Byte(m, 4)];
  }

  /** A binary opcode whose operands resolve, whose operand 2 is writable and
      whose operator does not panic, succeeds and changes exactly operand 2's
      cell, to the operator's result. */
  lemma StepBinaryWrites(m: Machine)
    requires m.Valid() && Fetchable(m) && IsBinary(Byte(m, 0))
    requires Source(m).Ok? && DestLoc(m).Ok? && !DestLoc(m).value.Const?
    requires Operator(Byte(m, 0), Source(m).value, Dest(m).value).Some?
    ensures var v := Operator(Byte(m, 0), Source(m).value, Dest(m).value).value;
      && Step(m) == Returned(Write(Advanced(m), DestLoc(m).value, v), Ok(()))
      && Read(Step(m).machine, DestLoc(m).value) == v
  {
    StepBinary(m);
    ResolverIgnoresIp(m, Next(m.ip), Byte(m, 3), Byte(m, 4), 0);
  }

  /** A binary opcode whose operand 2 is a constant fails with
      `AssignToConstant` once operand 1 reads and the operator does not panic;
      only `ip` moves. */
  lemma ConstantDestinationFails(m: Machine)
    requires m.Valid() && Fetchable(m) && IsBinary(Byte(m, 0))
    requires Byte(m, 3) == TyConst && Source(m).Ok?
    requires !(Byte(m, 0) in {OpDiv, OpMod} && Source(m).value == 0)
    ensures Step(m) == Returned(Advanced(m), Err(AssignToConstant))
  {
    StepBinary(m);
  }

  /** CMP writes 255, 1 or 0 into operand 2 as operand 2 is greater than,
      less than or equal to operand 1. */
  lemma StepCompare(m: Machine)
    requires m.Valid() && Fetchable(m) && Byte(m, 0) == OpCmp
    requires Source(m).Ok? && DestLoc(m).Ok? && !DestLoc(m).value.Const?
    ensures Step(m).Returned? && Step(m).result.Ok?
    ensures var s, d, w := Source(m).value, Dest(m).value, Read(Step(m).machine, DestLoc(m).value);
      && (w == 255 <==> d > s)
      && (w == 1 <==> d < s)
      && (w == 0 <==> d == s)
  {
    StepBinaryWrites(m);
  }

  /** MOVE copies operand 1's value into operand 2's cell, and nothing else
      changes but `ip`. */
  lemma StepMove(m: Machine)
    requires m.Valid() && Fetchable(m) && Byte(m, 0) == OpMove
    requires Source(m).Ok? && DestLoc(m).Ok? && !DestLoc(m).value.Const?
    ensures Step(m) == Returned(Write(Advanced(m), DestLoc(m).value, Source(m).value), Ok(()))
    ensures Get(Step(m).machine, Byte(m, 3), Byte(m, 4)) == Ok(Source(m).value)
  {
    StepBinaryWrites(m);
    StepBinary(m);
  }

  /** MOVE reads operand 2 before writing it, so a bad register index there is
      reported by the read, and a constant destination by the write. */
  lemma StepMoveFailures(m: Machine)
    requires m.Valid() && Fetchable(m) && Byte(m, 0) == OpMove && Source(m).Ok?
    ensures Byte(m, 3) == TyConst ==> Step(m) == Returned(Advanced(m), Err(AssignToConstant))
    ensures Byte(m, 3) == TyReg && Byte(m, 4) >= UsableRegisters ==>
      Step(m) == Returned(Advanced(m), Err(BadRegister(Byte(m, 4))))
  {
    StepBinary(m);
  }

  /** The arithmetic and bitwise opcodes write the wrapped `u8` result;
      division and remainder by zero panic. */
  lemma StepArithmetic(m: Machine)
    requires m.Valid() && Fetchable(m) && Byte(m, 0) in {OpAdd, OpSub, OpMul, OpDiv, OpMod, OpAnd, OpOr}
    requires Source(m).Ok? && DestLoc(m).Ok? && !DestLoc(m).value.Const?
    ensures var op, s, d := Byte(m, 0), Source(m).value as int, Dest(m).value as int;
      && (op in {OpDiv, OpMod} && s == 0 <==> Step(m) == Panicked(OperatorPanicked))
      && (Step(m).Returned? ==>
            var w := Read(Step(m).machine, DestLoc(m).value) as int;
            && Step(m).result.Ok?
            && (op == OpAdd ==> w == (d + s) % 256)
            && (op == OpSub ==> w == (d - s) % 256)
            && (op == OpMul ==> w == (d * s) % 256)
            && (op == OpDiv ==> w == d / s)
            && (op == OpMod ==> w == d % s)
            && (op == OpAnd ==> w as bv8 == (s as bv8) & (d as bv8))
            && (op == OpOr ==> w as bv8 == (s as bv8) | (d as bv8)))
  {
    StepBinary(m);
    if !(Byte(m, 0) in {OpDiv, OpMod} && Source(m).value == 0) {
      StepBinaryWrites(m);
    }
  }

  /** JMP sets `ip` to operand 1's value and touches nothing else; its read
      error is returned with `ip` already advanced. */
  lemma StepJump(m: Machine)
    requires m.Valid() && Fetchable(m) && Byte(m, 0) == OpJmp
    ensures Source(m).Ok? ==> Step(m) == Returned(m.(ip := Source(m).value), Ok(()))
    ensures Source(m).Err? ==> Step(m) == Returned(Advanced(m), Err(Source(m).error))
  {
    ResolverIgnoresIp(m, Next(m.ip), Byte(m, 1), Byte(m, 2), 0);
  }

  /** PRINT only reads operand 1: it succeeds exactly when that read does,
      and either way only `ip` moves. */
  lemma StepPrint(m: Machine)
    requires m.Valid() && Fetchable(m) && Byte(m, 0) == OpPrint
    ensures Step(m).Returned? && Step(m).machine == Advanced(m)
    ensures Step(m).result.Ok? <==> Source(m).Ok?
    ensures Source(m).Err? ==> Step(m).result == Err(Source(m).error)
  {
    ResolverIgnoresIp(m, Next(m.ip), Byte(m, 1), Byte(m, 2), 0);
  }

  /** Whatever returns from a step leaves memory and registers as they were,
      except that a binary opcode may have written operand 2's cell. */
  lemma StepWritesOnlyOperandTwo(m: Machine)
    requires m.Valid() && Fetchable(m) && Step(m).Returned?
    ensures var e := Step(m);
      || (e.machine.mem == m.mem && e.machine.reg == m.reg)
      || (&& IsBinary(Byte(m, 0)) && DestLoc(m).Ok? && !DestLoc(m).value.Const?
          && e.machine == Write(Advanced(m), DestLoc(m).value, Read(e.machine, DestLoc(m).value)))
  {
    if IsBinary(Byte(m, 0)) {
      StepBinary(m);
      ResolverIgnoresIp(m, Next(m.ip), Byte(m, 3), Byte(m, 4), 0);
    }
  }
}
