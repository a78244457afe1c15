/**
 The instruction list that store_address_in_hash_set emits in front of an instrumented store,
 and a machine that runs it: 64-bit registers that wrap around, signed comparisons, memory
 addressed by pointer.
 */
module ProbeProgram {
  import opened Bits

  const WORD: nat := 0x1_0000_0000_0000_0000
  const SIGN: nat := 0x8000_0000_0000_0000
  const ALIGN_MASK: nat := 0xFFFF_FFFF_FFFF_FFE0

  datatype Reg = Dest | Range | Table | Rax | Val | Cnt | Rsp

  datatype Instr =
    | XorSelf(r: Reg)
    | MovImm(r: Reg, imm: nat)
    | MovReg(r: Reg, src: Reg)
    | AddImm(r: Reg, imm: nat)
    | AddReg(r: Reg, src: Reg)
    | SubReg(r: Reg, src: Reg)
    | AndImm(r: Reg, imm: nat)
    | AndReg(r: Reg, src: Reg)
    | ImulImm(r: Reg, imm: nat)
    | Load(r: Reg, base: Reg, off: nat)
    | Store(base: Reg, off: nat, src: Reg)
    | CmpImm(r: Reg, imm: nat)
    | CmpReg(r: Reg, src: Reg)
    | Je(target: nat)
    | Jne(target: nat)
    | Jge(target: nat)
    | Jl(target: nat)
    | Jmp(target: nat)
    | GetAddress(r: Reg)
    | Halt

  /**
   What the list is emitted for: a table of 2^k slots, the wrap limit in bytes, the layout of the
   per-thread block, and the address and size of the store being instrumented.
   */
  datatype Site = Site(k: nat, limit: nat, combinerOff: nat, counterOff: nat, entriesOff: nat, addr: nat, size: nat)

  const LOOP := 11
  const TRY := 17
  const DUPLICATE := 25
  const NEXT_INDEX := 28
  const REMAINING := 35
  const RESTORE := 42
  const FAULT := 43

  /** The emitted list.  The jge at 40 and the jump at 39 sit behind the back-jump at 38. */
  function Fetch(c: Site, pc: nat): Instr {
    if pc < LOOP then FetchEntry(c, pc)
    else if pc < DUPLICATE then FetchProbe(c, pc)
    else FetchTail(c, pc)
  }

  function FetchEntry(c: Site, pc: nat): Instr {
    match pc
    case 0 => XorSelf(Val)
    case 1 => Load(Val, Table, c.combinerOff)
    case 2 => CmpImm(Val, 0)
    case 3 => Je(RESTORE)
    case 4 => Load(Rsp, Table, c.counterOff)
    case 5 => Load(Cnt, Rsp, 0)
    case 6 => Load(Table, Table, c.entriesOff)
    case 7 => GetAddress(Dest)
    case 8 => MovReg(Range, Dest)
    case 9 => AddImm(Range, c.size)
    case _ => AndImm(Dest, ALIGN_MASK)
  }

  function FetchProbe(c: Site, pc: nat): Instr {
    match pc
    case 11 => CmpReg(Dest, Range)
    case 12 => Jge(RESTORE)
    case 13 => XorSelf(Rax)
    case 14 => MovImm(Rax, Pow2(c.k) - 1)
    case 15 => AndReg(Rax, Dest)
    case 16 => ImulImm(Rax, 8)
    case 17 => AddReg(Table, Rax)
    case 18 => Load(Val, Table, 0)
    case 19 => CmpImm(Val, 0)
    case 20 => Jne(DUPLICATE)
    case 21 => Store(Table, 0, Dest)
    case 22 => AddImm(Cnt, 1)
    case 23 => Store(Rsp, 0, Cnt)
    case _ => Jmp(REMAINING)
  }

  function FetchTail(c: Site, pc: nat): Instr {
    match pc
    case 25 => CmpReg(Val, Dest)
    case 26 => Jne(NEXT_INDEX)
    case 27 => Jmp(REMAINING)
    case 28 => SubReg(Table, Rax)
    case 29 => AddImm(Rax, 8)
    case 30 => CmpImm(Rax, c.limit)
    case 31 => Jl(TRY)
    case 32 => XorSelf(Rax)
    case 33 => MovImm(Rax, 0)
    case 34 => Jmp(TRY)
    case 35 => SubReg(Table, Rax)
    case 36 => AddImm(Dest, 32)
    case 37 => CmpReg(Dest, Range)
    case 38 => Jmp(LOOP)
    case 39 => Jmp(RESTORE)
    case 40 => Jge(RESTORE)
    case _ => Halt
  }

  datatype Machine = Machine(
    pc: nat,
    dest: nat, range: nat, table: nat, rax: nat, val: nat, cnt: nat, rsp: nat,
    left: nat, right: nat,       // operands of the last cmp
    mem: map<nat, nat>)
  {
    function Get(r: Reg): nat {
      match r
      case Dest => dest
      case Range => range
      case Table => table
      case Rax => rax
      case Val => val
      case Cnt => cnt
      case Rsp => rsp
    }

    /** Write a register and go on to the next instruction. */
    function Set(r: Reg, v: nat): Machine {
      var m := this.(pc := pc + 1);
      match r
      case Dest => m.(dest := v)
      case Range => m.(range := v)
      case Table => m.(table := v)
      case Rax => m.(rax := v)
      case Val => m.(val := v)
      case Cnt => m.(cnt := v)
      case Rsp => m.(rsp := v)
    }

    function Jump(taken: bool, target: nat): Machine {
      this.(pc := if taken then target else pc + 1)
    }
  }

  /** The signed value of a 64-bit word. */
  function Signed(x: nat): int {
    if x < SIGN then x else x - WORD
  }

  /** The value kept by a 64-bit register. */
  function Wrap(x: int): (r: nat)
    ensures r < WORD
  {
    x % WORD
  }

  function Step(c: Site, m: Machine): Machine {
    Exec(c, Fetch(c, m.pc), m)
  }

  function Exec(c: Site, instr: Instr, m: Machine): Machine {
    match instr
    case XorSelf(r) => m.Set(r, 0)
    case MovImm(r, imm) => m.Set(r, imm)
    case MovReg(r, src) => m.Set(r, m.Get(src))
    case AddImm(r, imm) => m.Set(r, Wrap(m.Get(r) + imm))
    case AddReg(r, src) => m.Set(r, Wrap(m.Get(r) + m.Get(src)))
    case SubReg(r, src) => m.Set(r, Wrap(m.Get(r) - m.Get(src)))
    case AndImm(r, imm) => m.Set(r, And(m.Get(r), imm))
    case AndReg(r, src) => m.Set(r, And(m.Get(r), m.Get(src)))
    case ImulImm(r, imm) => m.Set(r, Wrap(m.Get(r) * imm))
    case Load(r, base, off) =>
      var a := Wrap(m.Get(base) + off);
      if a in m.mem then m.Set(r, m.mem[a]) else m.(pc := FAULT)
    case Store(base, off, src) =>
      var a := Wrap(m.Get(base) + off);
      if a in m.mem then m.(pc := m.pc + 1, mem := m.mem[a := m.Get(src)]) else m.(pc := FAULT)
    case CmpImm(r, imm) => m.(pc := m.pc + 1, left := m.Get(r), right := imm)
    case CmpReg(r, src) => m.(pc := m.pc + 1, left := m.Get(r), right := m.Get(src))
    case Je(target) => m.Jump(m.left == m.right, target)
    case Jne(target) => m.Jump(m.left != m.right, target)
    case Jge(target) => m.Jump(Signed(m.left) >= Signed(m.right), target)
    case Jl(target) => m.Jump(Signed(m.left) < Signed(m.right), target)
    case Jmp(target) => m.Jump(true, target)
    case GetAddress(r) => m.Set(r, c.addr)
    case Halt => m
  }

  /** Applying `f` to `m` `n` times. */
  function Iterate(f: Machine -> Machine, m: Machine, n: nat): Machine {
    if n == 0 then m else f(Iterate(f, m, n - 1))
  }

  lemma {:induction false} IterateAdd(f: Machine -> Machine, m: Machine, i: nat, j: nat)
    ensures Iterate(f, m, i + j) == Iterate(f, Iterate(f, m, i), j)
  {
    if j > 0 {
      IterateAdd(f, m, i, j - 1);
    }
  }

  /** A machine that a step leaves alone stays. */
  lemma {:induction false} FixedStays(f: Machine -> Machine, m: Machine, i: nat, j: nat)
    requires f(Iterate(f, m, i)) == Iterate(f, m, i)
    ensures Iterate(f, m, i + j) == Iterate(f, m, i)
  {
    if j > 0 {
      FixedStays(f, m, i, j - 1);
    }
  }

  /** The program of `c` as a function on machines, kept apart from its definition. */
  ghost predicate Implements(f: Machine -> Machine, c: Site) {
    forall m {:trigger Step(c, m)} :: f(m) == Step(c, m)
  }

  ghost predicate Reaches(f: Machine -> Machine, m: Machine, m': Machine) {
    exists n: nat :: Iterate(f, m, n) == m'
  }

  lemma ReachesRefl(f: Machine -> Machine, m: Machine)
    ensures Reaches(f, m, m)
  {
    assert Iterate(f, m, 0) == m;
  }

  lemma ReachesTrans(f: Machine -> Machine, a: Machine, b: Machine, d: Machine)
    requires Reaches(f, a, b) && Reaches(f, b, d)
    ensures Reaches(f, a, d)
  {
    var i: nat :| Iterate(f, a, i) == b;
    var j: nat :| Iterate(f, b, j) == d;
    IterateAdd(f, a, i, j);
    assert Iterate(f, a, i + j) == d;
  }

  lemma ReachesStep(f: Machine -> Machine, a: Machine, b: Machine)
    requires Reaches(f, a, b)
    ensures Reaches(f, a, f(b))
  {
    var i: nat :| Iterate(f, a, i) == b;
    assert Iterate(f, a, i + 1) == f(b);
  }
}
