/** State, error taxonomy and instruction encoding of the min-vm byte-code
    machine (src/main.rs): 256 bytes of memory, eight 8-bit registers of which
    only the first seven are addressable, and an 8-bit instruction pointer. */
module Vm {
  import Util

  /** An unsigned 8-bit value (Rust `u8`). */
  newtype u8 = x: int | 0 <= x < 256

  /** `u8` arithmetic as a release build performs it: the exact result reduced
      modulo 256. Dafny's `%` is Euclidean, so a negative difference wraps too. */
  function Wrap(x: int): u8
  {
    (x % 256) as u8
  }

  datatype Option<T> = None | Some(value: T)

  /** The closed error enum of the source, with its names. `OutOfInstructions`
      and `HitZero` are never produced. */
  datatype Error =
    | ExplicitCrash
    | OutOfInstructions
    | HitZero
    | BadRegister(register: u8)
    | UnknownType
    | AssignToConstant
    | UnknownInstruction(instr: u8, at: u8)

  datatype Result<T> = Ok(value: T) | Err(error: Error)

  /** A Rust panic: not a returned error but an abort of the call. */
  datatype Panic =
    | FetchOutOfRange    // the slice `mem[ip .. ip + 5]` reaches past the end of memory
    | OperatorPanicked   // a binary operator panicked (division or remainder by zero)

  /** What a call on a `&mut Machine` leaves behind: it returned, with the
      machine as it then is and the returned value, or it panicked. */
  datatype Effect = Returned(machine: Machine, result: Result<()>) | Panicked(cause: Panic)

  const MemSize: int := 256
  const RegCount: int := 8
  /** Register operands must be below this bound, so register 7 is never used. */
  const UsableRegisters: u8 := 7
  const InstrLen: int := 5

  // Addressing modes.
  const TyConst: u8 := 0
  const TyReg: u8 := 1
  const TyMemC: u8 := 2
  const TyMemR: u8 := 3

  // Opcodes.
  const OpCrash: u8 := 0
  const OpPrint: u8 := 1
  const OpAdd: u8 := 2
  const OpSub: u8 := 3
  const OpMul: u8 := 4
  const OpDiv: u8 := 5
  const OpMod: u8 := 6
  const OpJmp: u8 := 7
  const OpCmp: u8 := 8
  const OpAnd: u8 := 9
  const OpOr: u8 := 10
  const OpIf: u8 := 11
  const OpCall: u8 := 12
  const OpMove: u8 := 13

  datatype Machine = Machine(mem: seq<u8>, reg: seq<u8>, ip: u8)
  {
    predicate Valid()
    {
      |mem| == MemSize && |reg| == RegCount
    }
  }

  /** `Machine::new`: everything zero. */
  function New(): (m: Machine)
    ensures m.Valid() && m.ip == 0
    ensures forall a :: 0 <= a < |m.mem| ==> m.mem[a] == 0
    ensures forall i :: 0 <= i < |m.reg| ==> m.reg[i] == 0
  {
    Machine(seq(MemSize, _ => 0), seq(RegCount, _ => 0), 0)
  }

  /** `Machine::load`: the program image overwrites a prefix of memory, is
      truncated to 256 bytes, and leaves registers and `ip` alone. */
  function Load(m: Machine, instrs: seq<u8>): (r: Machine)
    requires m.Valid()
    ensures r.Valid() && r.reg == m.reg && r.ip == m.ip
    ensures forall a :: 0 <= a < MemSize && a < |instrs| ==> r.mem[a] == instrs[a]
    ensures forall a :: |instrs| <= a < MemSize ==> r.mem[a] == m.mem[a]
  {
    m.(mem := Util.Copied(m.mem, instrs))
  }
}
