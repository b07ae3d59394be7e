/** The addressing resolver of src/main.rs: `Machine::get` and `Machine::set`,
    together with an abstract view of an operand as a location (`Loc`) that both
    of them are proved to agree with. */
module Resolver {
  import opened Vm

  /** Where an operand lives once its addressing mode is known. */
  datatype Loc = Const(v: u8) | Reg(index: u8) | Mem(addr: u8)
  {
    /** A register location may only name one of the seven usable registers. */
    predicate Addressable()
    {
      Reg? ==> index < UsableRegisters
    }
  }

  /** Reference meaning of an (addressing-mode, operand) pair: the location it
      denotes, or the error that resolving it raises. */
  function Resolve(m: Machine, typ: u8, val: u8): (r: Result<Loc>)
    requires m.Valid()
    ensures r.Ok? ==> r.value.Addressable()
    ensures r.Err? <==> typ > TyMemR || ((typ == TyReg || typ == TyMemR) && val >= UsableRegisters)
  {
    if typ == TyConst then Ok(Const(val))
    else if typ == TyReg then
      if val < UsableRegisters then Ok(Reg(val)) else Err(BadRegister(val))
    else if typ == TyMemC then Ok(Mem(val))
    else if typ == TyMemR then
      if val < UsableRegisters then Ok(Mem(m.reg[val])) else Err(BadRegister(val))
    else Err(UnknownType)
  }

  /** The value stored at a location (a constant is its own value). */
  function Read(m: Machine, loc: Loc): u8
    requires m.Valid() && loc.Addressable()
  {
    match loc
    case Const(v) => v
    case Reg(i) => m.reg[i]
    case Mem(a) => m.mem[a]
  }

  /** Storing `value` at a writable location: that one cell changes. */
  function Write(m: Machine, loc: Loc, value: u8): (r: Machine)
    requires m.Valid() && loc.Addressable() && !loc.Const?
    ensures r.Valid() && r.ip == m.ip
    ensures Read(r, loc) == value
    ensures loc.Reg? ==> r.mem == m.mem
    ensures loc.Reg? ==> forall i :: 0 <= i < RegCount && i != loc.index as int ==> r.reg[i] == m.reg[i]
    ensures loc.Mem? ==> r.reg == m.reg
    ensures loc.Mem? ==> forall a :: 0 <= a < MemSize && a != loc.addr as int ==> r.mem[a] == m.mem[a]
  {
    match loc
    case Reg(i) => m.(reg := m.reg[i := value])
    case Mem(a) => m.(mem := m.mem[a := value])
  }

  /** `Machine::get`. Constants and direct memory operands never fail; register
      and indirect operands fail on a register index of 7 or more; any other
      mode byte is `UnknownType`. The value read is the one stored at the
      operand's resolved location. */
  function Get(m: Machine, typ: u8, val: u8): (r: Result<u8>)
    requires m.Valid()
    ensures typ == TyConst ==> r == Ok(val)
    ensures typ == TyMemC ==> r == Ok(m.mem[val])
    ensures (typ == TyReg || typ == TyMemR) && val >= UsableRegisters ==> r == Err(BadRegister(val))
    ensures typ > TyMemR ==> r == Err(UnknownType)
    ensures r.Ok? <==> Resolve(m, typ, val).Ok?
    ensures r.Ok? ==> r.value == Read(m, Resolve(m, typ, val).value)
    ensures r.Err? ==> r.error == Resolve(m, typ, val).error
  {
    if typ == TyConst then Ok(val)
    else if typ == TyReg then
      if val < UsableRegisters then Ok(m.reg[val]) else Err(BadRegister(val))
    else if typ == TyMemC then Ok(m.mem[val])
    else if typ == TyMemR then
      if val < UsableRegisters then Ok(m.mem[m.reg[val]]) else Err(BadRegister(val))
    else Err(UnknownType)
  }

  /** `Machine::set`. It always returns. A constant operand is
      `AssignToConstant`; otherwise it fails exactly when resolving the operand
      fails, with the same error. A failure changes nothing; a success writes
      the operand's resolved location and nothing else, after which reading the
      same operand gives back the value written. */
  function Set(m: Machine, typ: u8, data: u8, value: u8): (e: Effect)
    requires m.Valid()
    ensures e.Returned? && e.machine.Valid()
    ensures typ == TyConst ==> e.result == Err(AssignToConstant)
    ensures e.result.Err? ==> e.machine == m
    ensures e.result.Ok? <==> Resolve(m, typ, data).Ok? && !Resolve(m, typ, data).value.Const?
    ensures Resolve(m, typ, data).Err? ==> e.result == Err(Resolve(m, typ, data).error)
    ensures e.result.Ok? ==> e.machine == Write(m, Resolve(m, typ, data).value, value)
    ensures e.result.Ok? ==> Get(e.machine, typ, data) == Ok(value)
    ensures e.machine.reg[7] == m.reg[7]
  {
    if typ == TyConst then Returned(m, Err(AssignToConstant))
    else if typ == TyReg then
      if data < UsableRegisters then Returned(m.(reg := m.reg[data := value]), Ok(()))
      else Returned(m, Err(BadRegister(data)))
    else if typ == TyMemC then Returned(m.(mem := m.mem[data := value]), Ok(()))
    else if typ == TyMemR then
      if data < UsableRegisters then Returned(m.(mem := m.mem[m.reg[data] := value]), Ok(()))
      else Returned(m, Err(BadRegister(data)))
    else Returned(m, Err(UnknownType))
  }

  /** Register 7 is invisible to `get`: changing it changes no read. */
  lemma GetIgnoresRegisterSeven(m: Machine, typ: u8, val: u8, x: u8)
    requires m.Valid()
    ensures Get(m.(reg := m.reg[7 := x]), typ, val) == Get(m, typ, val)
  {
  }

  /** Register 7 is invisible to `set`: changing it beforehand changes neither
      the outcome nor any other cell, and the write leaves it as it was. */
  lemma SetIgnoresRegisterSeven(m: Machine, typ: u8, data: u8, value: u8, x: u8)
    requires m.Valid()
    ensures var e, e7 := Set(m, typ, data, value), Set(m.(reg := m.reg[7 := x]), typ, data, value);
      && e7.result == e.result
      && e7.machine == e.machine.(reg := e.machine.reg[7 := x])
  {
  }
}
