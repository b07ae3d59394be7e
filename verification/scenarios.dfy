/** The unit tests of src/main.rs as lemmas, and the chaining property they
    illustrate: writing through a register loaded by a previous MOVE reaches
    the same cell as a direct memory write. */
module Scenarios {
  import opened Vm
  import opened Resolver
  import opened Engine
  import opened Opcodes

  /** A fresh machine holds opcode 0 at address 0, so its first step crashes. */
  lemma FreshMachineCrashes()
    ensures Step(New()) == Returned(New().(ip := 5), Err(ExplicitCrash))
  {
  }

  /** `set_to_const`: MOVE into a constant is `AssignToConstant`. */
  lemma MoveToConstantFails()
    ensures Step(Load(New(), [OpMove, TyConst, 5, TyConst, 10])).result == Err(AssignToConstant)
  {
    var m := Load(New(), [OpMove, TyConst, 5, TyConst, 10]);
    StepMoveFailures(m);
  }

  /** `set_to_reg`, first half: register 15 is rejected by the read of
      operand 2. */
  lemma MoveToBadRegisterFails()
    ensures Step(Load(New(), [OpMove, TyConst, 5, TyReg, 15])).result == Err(BadRegister(15))
  {
    var m := Load(New(), [OpMove, TyConst, 5, TyReg, 15]);
    StepMoveFailures(m);
  }

  /** `set_to_reg`, second half: register 0 receives the constant. */
  lemma MoveToRegister()
    ensures var e := Step(Load(New(), [OpMove, TyConst, 5, TyReg, 0]));
      e.Returned? && e.result.Ok? && e.machine.reg[0] == 5
  {
    var m := Load(New(), [OpMove, TyConst, 5, TyReg, 0]);
    StepMove(m);
  }

  /** `set_to_mem_const`: a direct memory destination receives the constant. */
  lemma MoveToMemoryDirect()
    ensures var e := Step(Load(New(), [OpMove, TyConst, 5, TyMemC, 15]));
      e.Returned? && e.result.Ok? && e.machine.mem[15] == 5
  {
    var m := Load(New(), [OpMove, TyConst, 5, TyMemC, 15]);
    StepMove(m);
  }

  /** `MOVE CONST a, REG r` loads register `r` with `a`. */
  lemma MoveConstantToRegister(m: Machine, a: u8, r: u8)
    requires m.Valid() && Fetchable(m) && r < UsableRegisters
    requires Byte(m, 0) == OpMove && Byte(m, 1) == TyConst && Byte(m, 2) == a
    requires Byte(m, 3) == TyReg && Byte(m, 4) == r
    ensures Step(m) == Returned(Advanced(m).(reg := m.reg[r := a]), Ok(()))
  {
    StepMove(m);
  }

  /** `MOVE CONST v, MEM_R r` stores `v` at the address register `r` holds. */
  lemma MoveConstantIndirect(m: Machine, v: u8, r: u8)
    requires m.Valid() && Fetchable(m) && r < UsableRegisters
    requires Byte(m, 0) == OpMove && Byte(m, 1) == TyConst && Byte(m, 2) == v
    requires Byte(m, 3) == TyMemR && Byte(m, 4) == r
    ensures Step(m) == Returned(Advanced(m).(mem := m.mem[m.reg[r] := v]), Ok(()))
  {
    StepMove(m);
  }

  /** Two MOVEs, the first loading register `r` with `addr` and the second
      storing `v` through it, both succeed and leave memory exactly as a direct
      store of `v` at `addr` would, with register `r` now holding `addr`. */
  lemma IndirectMoveMatchesDirect(m: Machine, addr: u8, v: u8, r: u8)
    requires m.Valid() && m.ip as int + 2 * InstrLen <= MemSize && r < UsableRegisters
    requires m.mem[m.ip] == OpMove && m.mem[m.ip as int + 1] == TyConst && m.mem[m.ip as int + 2] == addr
    requires m.mem[m.ip as int + 3] == TyReg && m.mem[m.ip as int + 4] == r
    requires m.mem[m.ip as int + 5] == OpMove && m.mem[m.ip as int + 6] == TyConst && m.mem[m.ip as int + 7] == v
    requires m.mem[m.ip as int + 8] == TyMemR && m.mem[m.ip as int + 9] == r
    ensures var e1 := Step(m);
      && e1.Returned? && e1.result.Ok?
      && var e2 := Step(e1.machine);
      && e2.Returned? && e2.result.Ok?
      && e2.machine.ip == Wrap(m.ip as int + 2 * InstrLen)
      && e2.machine.reg == m.reg[r := addr]
      && e2.machine.mem == m.mem[addr := v]
  {
    MoveConstantToRegister(m, addr, r);
    var m1 := Step(m).machine;
    assert m1.mem == m.mem && m1.ip as int == m.ip as int + InstrLen;
    assert m1.reg == m.reg[r := addr] && m1.reg[r] == addr;
    MoveConstantIndirect(m1, v, r);
    var m2 := Step(m1).machine;
    assert m2.mem == m.mem[addr := v];
    assert m2.reg == m.reg[r := addr];
  }

  /** `set_to_mem_reg`: the two-instruction program of the source. */
  lemma MoveToMemoryIndirect()
    ensures var e1 := Step(Load(New(), [OpMove, TyConst, 15, TyReg, 0, OpMove, TyConst, 5, TyMemR, 0]));
      && e1.Returned? && e1.result.Ok?
      && var e2 := Step(e1.machine);
      && e2.Returned? && e2.result.Ok? && e2.machine.mem[15] == 5
  {
    var m := Load(New(), [OpMove, TyConst, 15, TyReg, 0, OpMove, TyConst, 5, TyMemR, 0]);
    IndirectMoveMatchesDirect(m, 15, 5, 0);
  }
}
