/**
 * The machine state of main.go:21-55 as a value, and what one call of `emulateCycle`
 * (main.go:296-620) does to it. Where the Go code would panic (an index out of range),
 * the instruction ends in a `Fault` instead.
 */
module Machine {
  import opened Base
  import opened Bits
  import opened Instructions

  const MemorySize := 0x1000
  /** Where `main` puts `pc` and the program image (main.go:94, 136). */
  const ProgramStart := 0x200
  const Rows := 32
  const Cols := 64
  const StackDepth := 16
  const KeyCount := 16
  /** The flag register VF. */
  const VF := 0xF

  /** The 4x5 hex-digit glyphs, five bytes per digit 0..F. */
  const FontSet: seq<byte> := [
    0xF0, 0x90, 0x90, 0x90, 0xF0, // 0
    0x20, 0x60, 0x20, 0x20, 0x70, // 1
    0xF0, 0x10, 0xF0, 0x80, 0xF0, // 2
    0xF0, 0x10, 0xF0, 0x10, 0xF0, // 3
    0x90, 0x90, 0xF0, 0x10, 0x10, // 4
    0xF0, 0x80, 0xF0, 0x10, 0xF0, // 5
    0xF0, 0x80, 0xF0, 0x90, 0xF0, // 6
    0xF0, 0x10, 0x20, 0x40, 0x40, // 7
    0xF0, 0x90, 0xF0, 0x90, 0xF0, // 8
    0xF0, 0x90, 0xF0, 0x10, 0xF0, // 9
    0xF0, 0x90, 0xF0, 0x90, 0x90, // A
    0xE0, 0x90, 0xE0, 0x90, 0xE0, // B
    0xF0, 0x80, 0x80, 0x80, 0xF0, // C
    0xE0, 0x90, 0x90, 0x90, 0xE0, // D
    0xF0, 0x80, 0xF0, 0x80, 0xF0, // E
    0xF0, 0x80, 0xF0, 0x80, 0x80  // F
  ]

  /** The index-out-of-range panics of `emulateCycle`, by cause. */
  datatype Fault =
    | AddressOutOfRange   // fetch at pc >= 4095
    | StackUnderflow      // 00EE with sp == 0
    | StackOverflow       // 2nnn with sp == 16
    | MemoryOutOfRange    // memory[I + k] with I + k >= 4096
    | PixelOutOfRange     // a set sprite bit that lands outside the 32x64 grid
    | KeyOutOfRange       // key[Vx] with Vx >= 16

  /** The globals of main.go:21-55 (`opcode` is scratch and left out). `gfx` and `key`
      hold only 0 and 1 in the source and are booleans here. */
  datatype State = State(
    memory: seq<byte>,
    V: seq<byte>,
    I: uint16,
    pc: uint16,
    gfx: seq<seq<bool>>,
    drawFlag: bool,
    delayTimer: uint16,
    soundTimer: uint16,
    stack: seq<uint16>,
    sp: uint16,
    key: seq<bool>)

  /** The sizes of the Go arrays, and the stack pointer within the stack. */
  predicate WellFormed(s: State)
  {
    && |s.memory| == MemorySize
    && |s.V| == 16
    && |s.gfx| == Rows
    && (forall r :: 0 <= r < Rows ==> |s.gfx[r]| == Cols)
    && |s.stack| == StackDepth
    && s.sp <= StackDepth
    && |s.key| == KeyCount
  }

  /** What one instruction does before the timer tick. */
  datatype Effect =
    | Continue(next: State)
    | Block                 // Fx0A with no key down: `return` before the tick
    | Panic(fault: Fault)

  /** What one cycle reports: it ran (and whether the sound timer just ran out), it is
      waiting for a key, or it faulted. */
  datatype Outcome = Ran(beep: bool) | AwaitingKey | Halted(fault: Fault)

  /** The outcome of a cycle and the state after it. After `AwaitingKey` the state is the
      one before; after `Halted` the Go process is gone and `next` is the state before. */
  datatype Cycle = Cycle(outcome: Outcome, next: State)

  function BlankScreen(): (g: seq<seq<bool>>)
    ensures |g| == Rows
    ensures forall r :: 0 <= r < Rows ==> |g[r]| == Cols && forall c :: 0 <= c < Cols ==> !g[r][c]
  {
    seq(Rows, _ => seq(Cols, _ => false))
  }

  /** The state after the initialisation of `main` (main.go:94-108): zeroed globals, the
      font in memory[0..80) and pc at 0x200. */
  function Initial(): (s: State)
    ensures WellFormed(s)
    ensures s.pc == ProgramStart && s.I == 0 && s.sp == 0
    ensures s.memory[..|FontSet|] == FontSet
    ensures forall a :: |FontSet| <= a < MemorySize ==> s.memory[a] == 0
    ensures forall k :: 0 <= k < 16 ==> s.V[k] == 0
    ensures forall r, c :: 0 <= r < Rows && 0 <= c < Cols ==> !s.gfx[r][c]
    ensures !s.drawFlag && s.delayTimer == 0 && s.soundTimer == 0
    ensures forall k :: 0 <= k < StackDepth ==> s.stack[k] == 0
    ensures forall k :: 0 <= k < KeyCount ==> !s.key[k]
  {
    State(
      FontSet + seq(MemorySize - |FontSet|, _ => 0),
      seq(16, _ => 0), 0, ProgramStart, BlankScreen(), false, 0, 0,
      seq(StackDepth, _ => 0), 0, seq(KeyCount, _ => false))
  }

  /** Memory after the program image `rom` is copied in at 0x200 (main.go:136). */
  function Load(mem: seq<byte>, rom: seq<byte>): (m: seq<byte>)
    requires |mem| == MemorySize && |rom| <= MemorySize - ProgramStart
    ensures |m| == MemorySize
    ensures forall k :: 0 <= k < |rom| ==> m[ProgramStart + k] == rom[k]
    ensures forall a :: 0 <= a < ProgramStart ==> m[a] == mem[a]
    ensures forall a :: ProgramStart + |rom| <= a < MemorySize ==> m[a] == mem[a]
  {
    mem[..ProgramStart] + rom + mem[ProgramStart + |rom|..]
  }

  /** The next state is well formed and has the same keys and timers. */
  predicate Preserved(s: State, t: State)
  {
    WellFormed(t) && t.key == s.key && t.delayTimer == s.delayTimer && t.soundTimer == s.soundTimer
  }

  /** `pc += delta` on `uint16`. */
  function Advance(s: State, delta: uint16): (t: State)
  {
    s.(pc := Add16(s.pc, delta))
  }

  /** The skip forms: `pc += 4` when the condition holds, `pc += 2` otherwise. */
  function SkipIf(s: State, cond: bool): (t: State)
  {
    Advance(s, if cond then 4 else 2)
  }

  /** The Fx0A key scan (main.go:530-535): the last index below n whose key is down. */
  function HighestPressed(key: seq<bool>, n: nat): (r: Option<nat>)
    requires n <= |key|
    ensures r.Some? ==> r.value < n && key[r.value]
    ensures r.Some? ==> forall k :: r.value < k < n ==> !key[k]
    ensures r.None? <==> forall k :: 0 <= k < n ==> !key[k]
  {
    if n == 0 then None
    else if key[n - 1] then Some(n - 1)
    else HighestPressed(key, n - 1)
  }

  predicate IsControl(ins: Instr)
  {
    || ins.ClearScreen? || ins.Return? || ins.Jump? || ins.Call? || ins.JumpOffset?
    || ins.SkipEqImm? || ins.SkipNeImm? || ins.SkipEqReg? || ins.SkipNeReg?
    || ins.SkipKey? || ins.SkipNoKey? || ins.Unassigned? || ins.Unknown?
  }

  predicate IsMemory(ins: Instr)
  {
    ins.StoreBcd? || ins.StoreRegs? || ins.LoadRegs?
  }

  /** Instructions that change only pc, the screen or the stack. */
  function ControlEffect(s: State, ins: Instr): (e: Effect)
    requires WellFormed(s) && IsControl(ins)
    ensures e.Continue? ==> Preserved(s, e.next)
    ensures !e.Block?
  {
    match ins
    case ClearScreen => Continue(Advance(s.(gfx := BlankScreen()), 2))
    case Return =>
      if s.sp == 0 then Panic(StackUnderflow)
      else Continue(s.(sp := s.sp - 1, pc := Add16(s.stack[s.sp - 1], 2)))
    case Jump(nnn) => Continue(s.(pc := nnn))
    case Call(nnn) =>
      if s.sp == StackDepth then Panic(StackOverflow)
      else Continue(s.(stack := s.stack[s.sp := s.pc], sp := s.sp + 1, pc := nnn))
    case JumpOffset(nnn) => Continue(s.(pc := nnn + s.V[0]))
    case Unassigned(_, _) => Continue(Advance(s, 2))
    case Unknown(_) => Continue(s)
    case _ => SkipEffect(s, ins)
  }

  predicate IsSkip(ins: Instr)
  {
    || ins.SkipEqImm? || ins.SkipNeImm? || ins.SkipEqReg? || ins.SkipNeReg?
    || ins.SkipKey? || ins.SkipNoKey?
  }

  /** The conditional skips 3xkk, 4xkk, 5xy0, 9xy0, Ex9E and ExA1. */
  function SkipEffect(s: State, ins: Instr): (e: Effect)
    requires WellFormed(s) && IsSkip(ins)
    ensures e.Continue? ==> Preserved(s, e.next)
    ensures !e.Block?
  {
    match ins
    case SkipEqImm(x, kk) => Continue(SkipIf(s, s.V[x] == kk))
    case SkipNeImm(x, kk) => Continue(SkipIf(s, s.V[x] != kk))
    case SkipEqReg(x, y) => Continue(SkipIf(s, s.V[x] == s.V[y]))
    case SkipNeReg(x, y) => Continue(SkipIf(s, s.V[x] != s.V[y]))
    case SkipKey(x) =>
      if s.V[x] >= KeyCount then Panic(KeyOutOfRange)
      else Continue(SkipIf(s, s.key[s.V[x]]))
    case SkipNoKey(x) =>
      if s.V[x] >= KeyCount then Panic(KeyOutOfRange)
      else Continue(SkipIf(s, !s.key[s.V[x]]))
  }

  predicate IsAlu(ins: Instr)
  {
    || ins.Move? || ins.Or? || ins.And? || ins.Xor? || ins.AddReg? || ins.SubReg?
    || ins.ShiftRight? || ins.SubRev? || ins.ShiftLeft?
  }

  /** The registers after an 8xyn instruction, in the order the source writes them: the
      flag VF first, then Vx from the registers as they are after that write. */
  function Alu(v: seq<byte>, ins: Instr): (w: seq<byte>)
    requires |v| == 16 && IsAlu(ins)
    ensures |w| == 16
    ensures forall k :: 0 <= k < 16 && k != ins.x && k != VF ==> w[k] == v[k]
    ensures (ins.Move? || ins.Or? || ins.And? || ins.Xor?) && ins.x != VF ==> w[VF] == v[VF]
  {
    match ins
    case Move(x, y) => v[x := v[y]]
    case Or(x, y) => v[x := Or8(v[x], v[y])]
    case And(x, y) => v[x := And8(v[x], v[y])]
    case Xor(x, y) => v[x := Xor8(v[x], v[y])]
    case AddReg(x, y) =>
      var v1 := v[VF := 0];
      var v2 := if v1[y] > 0xFF - v1[x] then v1[VF := 1] else v1;
      v2[x := Add8(v2[x], v2[y])]
    case SubReg(x, y) =>
      var v1 := v[VF := if v[x] < v[y] then 1 else 0];
      v1[x := Sub8(v1[x], v1[y])]
    case ShiftRight(x, _) =>
      var v1 := v[VF := And8(v[x], 0x1)];
      v1[x := v1[x] / 2]
    case SubRev(x, y) =>
      var v1 := v[VF := if v[y] < v[x] then 1 else 0];
      v1[x := Sub8(v1[y], v1[x])]
    case ShiftLeft(x, _) =>
      var v1 := v[VF := Shr8(v[x], 7)];
      v1[x := Mul8(v1[x], 2)]
  }

  /** Instructions that change registers, I or a timer, and then pc += 2. */
  function RegisterEffect(s: State, ins: Instr, rnd: byte): (e: Effect)
    requires WellFormed(s) && !IsControl(ins) && !IsMemory(ins) && !ins.Draw?
    ensures e.Continue? ==> WellFormed(e.next) && e.next.key == s.key
    ensures e.Continue? && !ins.SetDelay? ==> e.next.delayTimer == s.delayTimer
    ensures e.Continue? && !ins.SetSound? ==> e.next.soundTimer == s.soundTimer
    ensures e.Block? <==> ins.WaitKey? && forall k :: 0 <= k < KeyCount ==> !s.key[k]
  {
    if IsAlu(ins) then Continue(Advance(s.(V := Alu(s.V, ins)), 2))
    else if IsTimer(ins) then TimerEffect(s, ins)
    else
      match ins
      case LoadImm(x, kk) => Continue(Advance(s.(V := s.V[x := kk]), 2))
      case AddImm(x, kk) => Continue(Advance(s.(V := s.V[x := Add8(s.V[x], kk)]), 2))
      case LoadIndex(nnn) => Continue(Advance(s.(I := nnn), 2))
      case Random(x, kk) => Continue(Advance(s.(V := s.V[x := And8(rnd, kk)]), 2))
      case AddIndex(x) =>
        var v1 := s.V[VF := if Add16(s.I, s.V[x]) > 0xFFF then 1 else 0];
        Continue(Advance(s.(V := v1, I := Add16(s.I, v1[x])), 2))
      case FontChar(x) => Continue(Advance(s.(I := Mul8(s.V[x], 5)), 2))
  }

  predicate IsTimer(ins: Instr)
  {
    ins.LoadDelay? || ins.WaitKey? || ins.SetDelay? || ins.SetSound?
  }

  /** Fx07, Fx0A, Fx15 and Fx18: the timers and the key wait. */
  function TimerEffect(s: State, ins: Instr): (e: Effect)
    requires WellFormed(s) && IsTimer(ins)
    ensures e.Continue? ==> WellFormed(e.next) && e.next.key == s.key
    ensures e.Continue? && !ins.SetDelay? ==> e.next.delayTimer == s.delayTimer
    ensures e.Continue? && !ins.SetSound? ==> e.next.soundTimer == s.soundTimer
    ensures !e.Panic?
    ensures e.Block? <==> ins.WaitKey? && forall k :: 0 <= k < KeyCount ==> !s.key[k]
  {
    match ins
    case LoadDelay(x) => Continue(Advance(s.(V := s.V[x := s.delayTimer % 0x100]), 2))
    case WaitKey(x) =>
      (match HighestPressed(s.key, KeyCount)
       case None => Block
       case Some(k) => Continue(Advance(s.(V := s.V[x := k]), 2)))
    case SetDelay(x) => Continue(Advance(s.(delayTimer := x * 0x100), 2))
    case SetSound(x) => Continue(Advance(s.(soundTimer := s.V[x]), 2))
  }

  /** The three Fx33 bytes as the source computes them (main.go:576-578). */
  function BcdBytes(b: byte): (d: seq<byte>)
    ensures |d| == 3 && d[0] == b / 100
    ensures d[1] == (b / 0x10 * 0x10 / 10) % 10
    ensures d[2] == if b % 0x10 >= 10 then 1 else 0
  {
    MaskNibbles(b);
    [b / 100, (And8(b, 0xF0) / 10) % 10, (And8(b, 0x0F) % 100) / 10]
  }

  /** Memory after Fx55 with I = i0: V0..VF at i0..i0+15, all sixteen whatever x is. */
  function StoredRegs(mem: seq<byte>, i0: nat, regs: seq<byte>): (m: seq<byte>)
    requires |mem| == MemorySize && |regs| == 16 && i0 + 16 <= MemorySize
    ensures |m| == MemorySize
  {
    seq(MemorySize, a requires 0 <= a < MemorySize =>
      if i0 <= a < i0 + 16 then regs[a - i0] else mem[a])
  }

  /** Registers after Fx65 with I = i0: V0..V(x-1) from memory, Vx..VF kept. */
  function LoadedRegs(mem: seq<byte>, i0: nat, regs: seq<byte>, x: Reg): (v: seq<byte>)
    requires |mem| == MemorySize && |regs| == 16 && (x == 0 || i0 + x <= MemorySize)
    ensures |v| == 16
  {
    seq(16, k requires 0 <= k < 16 => if k < x then mem[i0 + k] else regs[k])
  }

  /** Instructions that write memory at I or read it into registers. */
  function MemoryEffect(s: State, ins: Instr): (e: Effect)
    requires WellFormed(s) && IsMemory(ins)
    ensures e.Continue? ==> Preserved(s, e.next)
    ensures !e.Block?
  {
    match ins
    case StoreBcd(x) =>
      if s.I + 3 > MemorySize then Panic(MemoryOutOfRange)
      else
        var d := BcdBytes(s.V[x]);
        Continue(Advance(s.(memory := s.memory[s.I := d[0]][s.I + 1 := d[1]][s.I + 2 := d[2]]), 2))
    case StoreRegs(_) =>
      if s.I + 16 > MemorySize then Panic(MemoryOutOfRange)
      else Continue(Advance(s.(memory := StoredRegs(s.memory, s.I, s.V)), 2))
    case LoadRegs(x) =>
      if x > 0 && s.I + x > MemorySize then Panic(MemoryOutOfRange)
      else Continue(Advance(s.(V := LoadedRegs(s.memory, s.I, s.V, x)), 2))
  }

  /** The sprite row whose pixels land on screen row r when Vy = vy: the source indexes
      `gfx[vy + uint8(j)]`, a byte sum, so row r comes from sprite row (r - vy) mod 256. */
  function SpriteRow(vy: byte, r: int): (j: byte)
  {
    (r - vy) % 0x100
  }

  /** The sprite column whose pixels land on screen column c when Vx = vx. */
  function SpriteCol(vx: byte, c: int): (i: byte)
  {
    (c - vx) % 0x100
  }

  /** A set bit of the n-row sprite at memory[I..] lands on screen pixel (r, c). */
  predicate Hit(s: State, vx: byte, vy: byte, n: nibble, r: int, c: int)
    requires WellFormed(s)
  {
    var j, i := SpriteRow(vy, r), SpriteCol(vx, c);
    j < n && i < 8 && s.I + j < MemorySize && SpriteBit(s.memory[s.I + j], i)
  }

  /** Sprite row j, holding `row`, has a set bit that falls outside the 32x64 grid. */
  predicate RowLeavesGrid(row: byte, vx: byte, vy: byte, j: nat)
  {
    exists i :: 0 <= i < 8 && SpriteBit(row, i)
      && ((vy + j) % 0x100 >= Rows || (vx + i) % 0x100 >= Cols)
  }

  /** Sprite row j exists in memory and has a set bit outside the grid. */
  predicate RowFaults(s: State, vx: byte, vy: byte, j: nat)
    requires WellFormed(s)
  {
    s.I + j < MemorySize && RowLeavesGrid(s.memory[s.I + j], vx, vy, j)
  }

  /** The panic of Dxyn, if any: row by row, the memory read of a row comes before its
      pixels, so whichever comes first in that order is the one reported. */
  function DrawFault(s: State, vx: byte, vy: byte, n: nibble): (f: Option<Fault>)
    requires WellFormed(s)
    ensures f == Some(MemoryOutOfRange) ==> s.I + n > MemorySize
    ensures f.Some? ==> f.value == PixelOutOfRange || f.value == MemoryOutOfRange
  {
    if exists j :: 0 <= j < n && RowFaults(s, vx, vy, j)
    then Some(PixelOutOfRange)
    else if n > 0 && s.I + n > MemorySize then Some(MemoryOutOfRange)
    else None
  }

  /** The screen after XOR-ing the sprite in. */
  function DrawnScreen(s: State, vx: byte, vy: byte, n: nibble): (g: seq<seq<bool>>)
    requires WellFormed(s)
    ensures |g| == Rows && forall r :: 0 <= r < Rows ==> |g[r]| == Cols
    ensures forall r, c :: 0 <= r < Rows && 0 <= c < Cols && !Hit(s, vx, vy, n, r, c) ==>
      g[r][c] == s.gfx[r][c]
  {
    seq(Rows, r requires 0 <= r < Rows =>
      seq(Cols, c requires 0 <= c < Cols => s.gfx[r][c] != Hit(s, vx, vy, n, r, c)))
  }

  /** Some set sprite bit lands on a pixel that is on. */
  predicate Collides(s: State, vx: byte, vy: byte, n: nibble)
    requires WellFormed(s)
  {
    exists r, c :: 0 <= r < Rows && 0 <= c < Cols && s.gfx[r][c] && Hit(s, vx, vy, n, r, c)
  }

  /** Dxyn (main.go:475-493). */
  function DrawEffect(s: State, x: Reg, y: Reg, n: nibble): (e: Effect)
    requires WellFormed(s)
    ensures e.Continue? ==> Preserved(s, e.next)
    ensures !e.Block?
  {
    var vx, vy := s.V[x], s.V[y];
    match DrawFault(s, vx, vy, n)
    case Some(f) => Panic(f)
    case None =>
      var flag := if Collides(s, vx, vy, n) then 1 else 0;
      Continue(Advance(s.(gfx := DrawnScreen(s, vx, vy, n), V := s.V[VF := flag], drawFlag := true), 2))
  }

  /** The execute part of `emulateCycle` for one decoded instruction. */
  function Execute(s: State, ins: Instr, rnd: byte): (e: Effect)
    requires WellFormed(s)
    ensures e.Continue? ==> WellFormed(e.next) && e.next.key == s.key
    ensures e.Continue? && !ins.SetDelay? ==> e.next.delayTimer == s.delayTimer
    ensures e.Continue? && !ins.SetSound? ==> e.next.soundTimer == s.soundTimer
    ensures e.Block? <==> ins.WaitKey? && forall k :: 0 <= k < KeyCount ==> !s.key[k]
  {
    if IsControl(ins) then ControlEffect(s, ins)
    else if IsMemory(ins) then MemoryEffect(s, ins)
    else if ins.Draw? then DrawEffect(s, ins.x, ins.y, ins.n)
    else RegisterEffect(s, ins, rnd)
  }

  /** The timer update at the end of `emulateCycle` (main.go:608-619). */
  function Tick(s: State): (t: State)
    ensures t.delayTimer <= s.delayTimer && t.soundTimer <= s.soundTimer
    ensures t.delayTimer == 0 <==> s.delayTimer <= 1
    ensures t.soundTimer == 0 <==> s.soundTimer <= 1
    ensures t.(delayTimer := s.delayTimer, soundTimer := s.soundTimer) == s
  {
    s.(delayTimer := if s.delayTimer > 0 then s.delayTimer - 1 else 0,
       soundTimer := if s.soundTimer > 0 then s.soundTimer - 1 else 0)
  }

  /** The end of a cycle whose instruction ran and left `t`: the timers tick, and the
      beep is reported when the sound timer was 1 before its tick. */
  function Finish(t: State): (c: Cycle)
  {
    Cycle(Ran(t.soundTimer == 1), Tick(t))
  }

  /** The cycle that follows from the instruction's effect on `s`. */
  function Conclude(s: State, e: Effect): (c: Cycle)
  {
    match e
    case Panic(f) => Cycle(Halted(f), s)
    case Block => Cycle(AwaitingKey, s)
    case Continue(t) => Finish(t)
  }

  /** The big-endian word at pc: `uint16(memory[pc])<<8 | uint16(memory[pc+1])`. */
  function Opcode(s: State): (op: uint16)
    requires WellFormed(s) && s.pc + 1 < MemorySize
    ensures op / 0x100 == s.memory[s.pc] && op % 0x100 == s.memory[s.pc + 1]
  {
    (s.memory[s.pc] as int) * 0x100 + s.memory[s.pc + 1]
  }

  /** The instruction at pc, or None when fetching it would index past memory. */
  function Current(s: State): (r: Option<Instr>)
    requires WellFormed(s)
    ensures r.None? <==> s.pc >= MemorySize - 1
    ensures r.Some? ==> r.value.Unknown? || Nameable(r.value)
  {
    if s.pc + 1 < MemorySize then Some(Decode(Opcode(s))) else None
  }

  /** One call of `emulateCycle`, with `rnd` standing for `rand.Intn(256)`. */
  function Step(s: State, rnd: byte): (c: Cycle)
    requires WellFormed(s)
    ensures WellFormed(c.next)
    ensures !c.outcome.Ran? ==> c.next == s
    ensures c.next.key == s.key
  {
    match Current(s)
    case None => Cycle(Halted(AddressOutOfRange), s)
    case Some(ins) =>
      Conclude(s, Execute(s, ins, rnd))
  }
}
