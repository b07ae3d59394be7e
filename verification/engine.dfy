/** The execution engine of src/main.rs: `Machine::binop` and `Machine::step`.
    An instruction is the five bytes at `ip`: an opcode and two
    (addressing-mode, operand) pairs. Binary operators read operand 1 as `s`
    and operand 2 as `d`, and write their result into operand 2. */
module Engine {
  import opened Vm
  import opened Resolver
  import Util

  /** The instruction pointer after the five-byte advance, wrapping like `u8`. */
  function Next(ip: u8): u8
  {
    Wrap(ip as int + InstrLen)
  }

  /** The machine as the opcode sees it: `ip` moved past the instruction. */
  function Advanced(m: Machine): (r: Machine)
    requires m.Valid()
    ensures r.Valid() && r.mem == m.mem && r.reg == m.reg
    ensures r.ip as int == (m.ip as int + InstrLen) % 256
  {
    m.(ip := Next(m.ip))
  }

  /** The instruction window at `ip` lies inside memory. */
  predicate Fetchable(m: Machine)
  {
    m.ip as int + InstrLen <= MemSize
  }

  /** Byte `k` of the instruction at `ip`. */
  function Byte(m: Machine, k: int): u8
    requires m.Valid() && Fetchable(m) && 0 <= k < InstrLen
  {
    m.mem[m.ip as int + k]
  }

  /** The instruction window, copied out of memory into a zeroed five-byte
      buffer. */
  function Fetch(m: Machine): (instr: seq<u8>)
    requires m.Valid() && Fetchable(m)
    ensures |instr| == InstrLen
    ensures forall k :: 0 <= k < InstrLen ==> instr[k] == Byte(m, k)
  {
    Util.Copied(seq(InstrLen, _ => 0), m.mem[m.ip as int .. m.ip as int + InstrLen])
  }

  /** `Machine::binop`. An error reading operand 1 is returned before operand 2
      is looked at; an error reading operand 2 is returned next; then the
      operator runs (`None` is its panic), and its result is written back
      through operand 2. Only that write mutates the machine, and every error
      leaves the machine as it was. */
  function Binop(m: Machine, operands: seq<u8>, f: (u8, u8) -> Option<u8>): (e: Effect)
    requires m.Valid() && |operands| == 4
    ensures e.Returned? ==> e.machine.Valid()
    ensures e.Returned? && e.result.Err? ==> e.machine == m
    ensures Get(m, operands[0], operands[1]).Err? ==>
      e == Returned(m, Err(Get(m, operands[0], operands[1]).error))
    ensures Get(m, operands[0], operands[1]).Ok? && Get(m, operands[2], operands[3]).Err? ==>
      e == Returned(m, Err(Get(m, operands[2], operands[3]).error))
    ensures var g1, g2 := Get(m, operands[0], operands[1]), Get(m, operands[2], operands[3]);
      e.Panicked? <==> g1.Ok? && g2.Ok? && f(g1.value, g2.value).None?
    ensures e.Panicked? ==> e.cause == OperatorPanicked
    ensures var g1, g2 := Get(m, operands[0], operands[1]), Get(m, operands[2], operands[3]);
      g1.Ok? && g2.Ok? && f(g1.value, g2.value).Some? ==>
        e == Set(m, operands[2], operands[3], f(g1.value, g2.value).value)
    ensures var g1, g2 := Get(m, operands[0], operands[1]), Get(m, operands[2], operands[3]);
      e.Returned? && e.result.Ok? ==>
        && g1.Ok? && g2.Ok? && f(g1.value, g2.value).Some?
        && Get(e.machine, operands[2], operands[3]) == Ok(f(g1.value, g2.value).value)
        && e.machine == Write(m, Resolve(m, operands[2], operands[3]).value, f(g1.value, g2.value).value)
  {
    match Get(m, operands[0], operands[1])
    case Err(err) => Returned(m, Err(err))
    case Ok(s) =>
      match Get(m, operands[2], operands[3])
      case Err(err) => Returned(m, Err(err))
      case Ok(d) =>
        match f(s, d)
        case None => Panicked(OperatorPanicked)
        case Some(v) => Set(m, operands[2], operands[3], v)
  }

  /** The `d.cmp(&s)` of CMP as a byte: 255 for greater, 1 for less, 0 for equal. */
  function CompareByte(s: u8, d: u8): (r: u8)
    ensures r == 255 <==> d > s
    ensures r == 1 <==> d < s
    ensures r == 0 <==> d == s
  {
    if d > s then 255 else if d < s then 1 else 0
  }

  function BitAnd(s: u8, d: u8): u8
  {
    ((s as bv8) & (d as bv8)) as u8
  }

  function BitOr(s: u8, d: u8): u8
  {
    ((s as bv8) | (d as bv8)) as u8
  }

  /** The opcodes that go through `binop`. */
  predicate IsBinary(op: u8)
  {
    op in {OpAdd, OpSub, OpMul, OpDiv, OpMod, OpCmp, OpAnd, OpOr, OpMove}
  }

  /** The operator closure of a binary opcode, applied to `s` (operand 1) and
      `d` (operand 2). `None` is its panic, which only division and remainder
      by zero raise. */
  function Operator(op: u8, s: u8, d: u8): (r: Option<u8>)
    requires IsBinary(op)
    ensures r.None? <==> op in {OpDiv, OpMod} && s == 0
  {
    if op == OpAdd then Some(Wrap(d as int + s as int))
    else if op == OpSub then Some(Wrap(d as int - s as int))
    else if op == OpMul then Some(Wrap(d as int * s as int))
    else if op == OpDiv then (if s == 0 then None else Some(d / s))
    else if op == OpMod then (if s == 0 then None else Some(d % s))
    else if op == OpCmp then Some(CompareByte(s, d))
    else if op == OpAnd then Some(BitAnd(s, d))
    else if op == OpOr then Some(BitOr(s, d))
    else Some(s)
  }

  /** Runs opcode `op` with `operands` on `m`, whose `ip` has already been
      advanced past the instruction. */
  function Dispatch(m: Machine, op: u8, operands: seq<u8>): (e: Effect)
    requires m.Valid() && |operands| == 4
  {
    if op == OpCrash then Returned(m, Err(ExplicitCrash))
    else if op == OpPrint then
      match Get(m, operands[0], operands[1])
      case Err(err) => Returned(m, Err(err))
      case Ok(_) => Returned(m, Ok(()))
    else if op == OpJmp then
      match Get(m, operands[0], operands[1])
      case Err(err) => Returned(m, Err(err))
      case Ok(target) => Returned(m.(ip := target), Ok(()))
    else if op == OpIf || op == OpCall then Returned(m, Ok(()))
    else if IsBinary(op) then Binop(m, operands, (s, d) => Operator(op, s, d))
    else Returned(m, Err(UnknownInstruction(op, Wrap(m.ip as int - InstrLen))))
  }

  /** `Machine::step`. Fetching past the end of memory panics. Otherwise `ip`
      moves past the instruction before the opcode runs, so every outcome but
      a successful JMP leaves `ip` five further on, and every error leaves
      memory and registers as they were. JMP sets `ip` to operand 1's value;
      IF and CALL change nothing else; CRASH is `ExplicitCrash`; an opcode
      above 13 is `UnknownInstruction` carrying the instruction's own address.
      Register 7 never changes. */
  function Step(m: Machine): (e: Effect)
    requires m.Valid()
    ensures e.Panicked? && e.cause == FetchOutOfRange <==> !Fetchable(m)
    ensures e.Panicked? && e.cause == OperatorPanicked ==> Fetchable(m) && Byte(m, 0) in {OpDiv, OpMod}
    ensures e.Returned? ==> e.machine.Valid() && e.machine.reg[7] == m.reg[7]
    ensures e.Returned? && e.result.Err? ==> e.machine == Advanced(m)
    ensures e.Returned? && !(Byte(m, 0) == OpJmp && e.result.Ok?) ==> e.machine.ip == Next(m.ip)
    ensures e.Returned? && Byte(m, 0) == OpJmp && e.result.Ok? ==>
      Get(m, Byte(m, 1), Byte(m, 2)).Ok? && e.machine == m.(ip := Get(m, Byte(m, 1), Byte(m, 2)).value)
    ensures Fetchable(m) && Byte(m, 0) == OpCrash ==> e == Returned(Advanced(m), Err(ExplicitCrash))
    ensures Fetchable(m) && Byte(m, 0) in {OpIf, OpCall} ==> e == Returned(Advanced(m), Ok(()))
    ensures Fetchable(m) && Byte(m, 0) > OpMove ==>
      e == Returned(Advanced(m), Err(UnknownInstruction(Byte(m, 0), m.ip)))
  {
    if !Fetchable(m) then Panicked(FetchOutOfRange)
    else
      var instr := Fetch(m);
      Dispatch(Advanced(m), instr[0], instr[1..])
  }
}
