/**
 * What one cycle of `emulateCycle` does, instruction by instruction. The first lemmas tie
 * `Machine.Step` to the effect function of each group of instructions; the rest state
 * what each instruction does to the state it runs on.
 */
module Properties {
  import opened Base
  import opened Bits
  import opened Instructions
  import opened Machine

  /** Everything but the registers and pc is as in `s`. */
  predicate RegistersOnly(s: State, t: State)
  {
    && t.memory == s.memory && t.I == s.I && t.gfx == s.gfx && t.drawFlag == s.drawFlag
    && t.stack == s.stack && t.sp == s.sp && t.key == s.key
    && t.delayTimer == s.delayTimer && t.soundTimer == s.soundTimer
  }

  /** The registers other than `a` and `b` are as in `v`. */
  predicate OthersKept(v: seq<byte>, w: seq<byte>, a: Reg, b: Reg)
    requires |v| == 16 && |w| == 16
  {
    forall k :: 0 <= k < 16 && k != a && k != b ==> w[k] == v[k]
  }

  // --------------------------------------------------- cycle, group by group

  /** A cycle of a jump, call, return, skip, 00E0 or unrecognised opcode. */
  lemma ControlCycle(s: State, rnd: byte, ins: Instr)
    requires WellFormed(s) && Current(s) == Some(ins) && IsControl(ins)
    ensures Step(s, rnd) == Conclude(s, ControlEffect(s, ins))
  {
    assert Execute(s, ins, rnd) == ControlEffect(s, ins);
  }

  /** A cycle of an 8xyn instruction changes the registers and pc, then ticks. */
  lemma AluCycle(s: State, rnd: byte, ins: Instr)
    requires WellFormed(s) && Current(s) == Some(ins) && IsAlu(ins)
    ensures Step(s, rnd) == Finish(s.(V := Alu(s.V, ins), pc := Add16(s.pc, 2)))
  {
    assert !IsControl(ins) && !IsMemory(ins) && !ins.Draw?;
    assert Execute(s, ins, rnd) == Continue(s.(V := Alu(s.V, ins), pc := Add16(s.pc, 2)));
  }

  /** A cycle of Fx07, Fx0A, Fx15 or Fx18. */
  lemma TimerCycle(s: State, rnd: byte, ins: Instr)
    requires WellFormed(s) && Current(s) == Some(ins) && IsTimer(ins)
    ensures Step(s, rnd) == Conclude(s, TimerEffect(s, ins))
  {
    assert !IsControl(ins) && !IsMemory(ins) && !ins.Draw? && !IsAlu(ins);
    assert Execute(s, ins, rnd) == TimerEffect(s, ins);
  }

  /** A cycle of 6xkk, 7xkk, Annn, Cxkk, Fx1E or Fx29. */
  lemma RegisterCycle(s: State, rnd: byte, ins: Instr)
    requires WellFormed(s) && Current(s) == Some(ins)
    requires ins.LoadImm? || ins.AddImm? || ins.LoadIndex? || ins.Random? || ins.AddIndex? || ins.FontChar?
    ensures Step(s, rnd) == Conclude(s, RegisterEffect(s, ins, rnd))
  {
    assert !IsControl(ins) && !IsMemory(ins) && !ins.Draw?;
    assert Execute(s, ins, rnd) == RegisterEffect(s, ins, rnd);
  }

  /** A cycle of Fx33, Fx55 or Fx65. */
  lemma MemoryCycle(s: State, rnd: byte, ins: Instr)
    requires WellFormed(s) && Current(s) == Some(ins) && IsMemory(ins)
    ensures Step(s, rnd) == Conclude(s, MemoryEffect(s, ins))
  {
    assert Execute(s, ins, rnd) == MemoryEffect(s, ins);
  }

  /** A cycle of Dxyn. */
  lemma DrawCycle(s: State, rnd: byte, x: Reg, y: Reg, n: nibble)
    requires WellFormed(s) && Current(s) == Some(Draw(x, y, n))
    ensures Step(s, rnd) == Conclude(s, DrawEffect(s, x, y, n))
  {
    assert Execute(s, Draw(x, y, n), rnd) == DrawEffect(s, x, y, n);
  }

  /** A fetch at pc 4095 or above would read past memory. */
  lemma FetchPastMemory(s: State, rnd: byte)
    requires WellFormed(s) && s.pc + 1 >= MemorySize
    ensures Step(s, rnd) == Cycle(Halted(AddressOutOfRange), s)
  {
  }

  // ---------------------------------------------------------------- timers

  /** A timer that is running counts down by one per cycle and stops at zero. */
  lemma TickCountsDown(s: State)
    ensures s.delayTimer > 0 ==> Tick(s).delayTimer == s.delayTimer - 1
    ensures s.delayTimer == 0 ==> Tick(s).delayTimer == 0
    ensures s.soundTimer > 0 ==> Tick(s).soundTimer == s.soundTimer - 1
    ensures s.soundTimer == 0 ==> Tick(s).soundTimer == 0
    ensures Tick(s).(delayTimer := s.delayTimer, soundTimer := s.soundTimer) == s
  {
  }

  /** Every cycle that runs an instruction other than Fx15 and Fx18 ticks both timers
      once, and beeps exactly when the sound timer goes from 1 to 0. */
  lemma CycleTicksTimers(s: State, rnd: byte, ins: Instr)
    requires WellFormed(s) && Current(s) == Some(ins) && !ins.SetDelay? && !ins.SetSound?
    requires Step(s, rnd).outcome.Ran?
    ensures var t := Step(s, rnd).next;
      && t.delayTimer == (if s.delayTimer > 0 then s.delayTimer - 1 else 0)
      && t.soundTimer == (if s.soundTimer > 0 then s.soundTimer - 1 else 0)
    ensures Step(s, rnd).outcome.beep <==> s.soundTimer == 1
  {
  }

  /** Fx15 loads the delay timer with x * 256 (the x field of the opcode, not Vx), and
      the tick of the same cycle takes one off. */
  lemma SetDelayUsesOpcodeField(s: State, rnd: byte, x: Reg)
    requires WellFormed(s) && Current(s) == Some(SetDelay(x))
    ensures Step(s, rnd).outcome == Ran(s.soundTimer == 1)
    ensures Step(s, rnd).next.delayTimer == if x == 0 then 0 else x * 0x100 - 1
    ensures Step(s, rnd).next.pc == Add16(s.pc, 2)
    ensures Step(s, rnd).next == Tick(s.(delayTimer := x * 0x100, pc := Add16(s.pc, 2)))
  {
    TimerCycle(s, rnd, SetDelay(x));
  }

  /** Fx18 loads the sound timer with Vx; the same cycle ticks it, and beeps when Vx is 1. */
  lemma SetSoundFromRegister(s: State, rnd: byte, x: Reg)
    requires WellFormed(s) && Current(s) == Some(SetSound(x))
    ensures Step(s, rnd).outcome == Ran(s.V[x] == 1)
    ensures Step(s, rnd).next.soundTimer == if s.V[x] == 0 then 0 else s.V[x] - 1
    ensures Step(s, rnd).next == Tick(s.(soundTimer := s.V[x], pc := Add16(s.pc, 2)))
  {
    TimerCycle(s, rnd, SetSound(x));
  }

  /** Fx07 reads the low byte of the delay timer, which Fx15 can set past 255. */
  lemma LoadDelayLowByte(s: State, x: Reg)
    requires WellFormed(s)
    ensures var e := TimerEffect(s, LoadDelay(x));
      && e.Continue? && e.next.V[x] == s.delayTimer % 0x100
      && OthersKept(s.V, e.next.V, x, x) && RegistersOnly(s, e.next)
      && e.next.pc == Add16(s.pc, 2)
  {
  }

  // ----------------------------------------------------------------- keys

  /** Fx0A with no key down: the cycle returns early, so pc stays and the timers do not
      tick; the machine repeats the instruction until a key is pressed. */
  lemma WaitKeyBlocks(s: State, rnd: byte, x: Reg)
    requires WellFormed(s) && Current(s) == Some(WaitKey(x))
    requires forall k :: 0 <= k < KeyCount ==> !s.key[k]
    ensures Step(s, rnd) == Cycle(AwaitingKey, s)
  {
    TimerCycle(s, rnd, WaitKey(x));
  }

  /** Fx0A with keys down: Vx gets the highest-numbered one and pc advances. */
  lemma WaitKeyTakesHighest(s: State, x: Reg, k: nat)
    requires WellFormed(s) && k < KeyCount && s.key[k]
    ensures var e := TimerEffect(s, WaitKey(x));
      && e.Continue?
      && e.next.V[x] >= k && s.key[e.next.V[x]]
      && (forall j :: e.next.V[x] < j < KeyCount ==> !s.key[j])
      && OthersKept(s.V, e.next.V, x, x)
      && RegistersOnly(s, e.next) && e.next.pc == Add16(s.pc, 2)
  {
  }

  // -------------------------------------------------------------- arithmetic

  /** 8xy4: Vx gets the byte sum and VF the carry out of it. */
  lemma AddRegCarry(v: seq<byte>, x: Reg, y: Reg)
    requires |v| == 16 && x != VF && y != VF
    ensures var w := Alu(v, AddReg(x, y));
      && w[x] == (v[x] as int + v[y]) % 0x100
      && (w[VF] == 1 <==> v[x] as int + v[y] > 0xFF)
      && (w[VF] == 0 <==> v[x] as int + v[y] <= 0xFF)
      && OthersKept(v, w, x, VF)
  {
  }

  /** 8Fy4: VF is cleared before the add, so the carry test never fires and VF ends up
      holding Vy, whatever VF held before (and 0 for 8FF4, which adds the cleared VF). */
  lemma AddRegIntoFlag(v: seq<byte>, y: Reg)
    requires |v| == 16
    ensures Alu(v, AddReg(VF, y))[VF] == if y == VF then 0 else v[y]
    ensures OthersKept(v, Alu(v, AddReg(VF, y)), VF, VF)
  {
  }

  /** 8xF4: the addend VF is cleared before it is read, so Vx is unchanged and VF ends 0. */
  lemma AddRegFromFlag(v: seq<byte>, x: Reg)
    requires |v| == 16 && x != VF
    ensures var w := Alu(v, AddReg(x, VF));
      w[x] == v[x] && w[VF] == 0 && OthersKept(v, w, x, VF)
  {
  }

  /** 8xy5: Vx gets Vx - Vy mod 256, and VF is 1 exactly when that borrows (Vx < Vy),
      the reverse of the usual NOT-borrow convention. */
  lemma SubRegBorrow(v: seq<byte>, x: Reg, y: Reg)
    requires |v| == 16 && x != VF && y != VF
    ensures var w := Alu(v, SubReg(x, y));
      && w[x] == (v[x] as int - v[y]) % 0x100
      && (w[VF] == 1 <==> v[x] < v[y])
      && (w[VF] == 0 <==> v[x] >= v[y])
      && OthersKept(v, w, x, VF)
  {
  }

  /** 8xy5 with VF as an operand: the borrow flag b is written first, and the subtraction
      then reads it. 8xF5 takes b off Vx; 8Fy5 leaves b - Vy in VF; 8FF5 leaves 0. */
  lemma SubRegWithFlag(v: seq<byte>, x: Reg, y: Reg)
    requires |v| == 16 && (x == VF || y == VF)
    ensures var b, w := (if v[x] < v[y] then 1 else 0), Alu(v, SubReg(x, y));
      && (x != VF ==> w[x] == (v[x] as int - b) % 0x100 && w[VF] == b)
      && (x == VF && y != VF ==> w[VF] == (b as int - v[y]) % 0x100)
      && (x == VF && y == VF ==> w[VF] == 0)
      && OthersKept(v, w, x, VF)
  {
  }

  /** 8xy7 with VF as an operand: the flag b is written first, and the subtraction then
      reads it. 8xF7 leaves b - Vx in Vx; 8Fy7 leaves Vy - b in VF; 8FF7 leaves 0. */
  lemma SubRevWithFlag(v: seq<byte>, x: Reg, y: Reg)
    requires |v| == 16 && (x == VF || y == VF)
    ensures var b, w := (if v[y] < v[x] then 1 else 0), Alu(v, SubRev(x, y));
      && (x != VF ==> w[x] == (b as int - v[x]) % 0x100 && w[VF] == b)
      && (x == VF && y != VF ==> w[VF] == (v[y] as int - b) % 0x100)
      && (x == VF && y == VF ==> w[VF] == 0)
      && OthersKept(v, w, x, VF)
  {
  }

  /** 8Fy6: VF first gets its own low bit and is then halved, so it ends 0. */
  lemma ShiftRightFlag(v: seq<byte>, y: Reg)
    requires |v| == 16
    ensures var w := Alu(v, ShiftRight(VF, y));
      w[VF] == 0 && OthersKept(v, w, VF, VF)
  {
    LowBit(v[VF]);
  }

  /** 8FyE: VF first gets its own top bit and is then doubled, so it ends 0 or 2. */
  lemma ShiftLeftFlag(v: seq<byte>, y: Reg)
    requires |v| == 16
    ensures var w := Alu(v, ShiftLeft(VF, y));
      w[VF] == 2 * (v[VF] / 0x80) && (w[VF] == 0 || w[VF] == 2) && OthersKept(v, w, VF, VF)
  {
    HighBit(v[VF]);
  }

  /** 8xy7: Vx gets Vy - Vx mod 256, and VF is 1 exactly when that borrows (Vy < Vx). */
  lemma SubRevBorrow(v: seq<byte>, x: Reg, y: Reg)
    requires |v| == 16 && x != VF && y != VF
    ensures var w := Alu(v, SubRev(x, y));
      && w[x] == (v[y] as int - v[x]) % 0x100
      && (w[VF] == 1 <==> v[y] < v[x])
      && (w[VF] == 0 <==> v[y] >= v[x])
      && OthersKept(v, w, x, VF)
  {
  }

  /** 8xy6: Vx is halved and VF gets the bit shifted out; Vy is not read. */
  lemma ShiftRightBit(v: seq<byte>, x: Reg, y: Reg)
    requires |v| == 16 && x != VF
    ensures var w := Alu(v, ShiftRight(x, y));
      && w[x] == v[x] / 2
      && w[VF] == v[x] % 2
      && 2 * w[x] as int + w[VF] == v[x]
      && OthersKept(v, w, x, VF)
  {
    LowBit(v[x]);
  }

  /** 8xyE: Vx is doubled mod 256 and VF gets the bit shifted out of the top. */
  lemma ShiftLeftBit(v: seq<byte>, x: Reg, y: Reg)
    requires |v| == 16 && x != VF
    ensures var w := Alu(v, ShiftLeft(x, y));
      && w[x] == (2 * v[x] as int) % 0x100
      && w[VF] == v[x] / 0x80
      && w[VF] as int * 0x100 + w[x] == 2 * v[x] as int
      && OthersKept(v, w, x, VF)
  {
    HighBit(v[x]);
  }

  /** 8xy0..8xy3 change Vx alone, and leave VF alone unless x is F. */
  lemma LogicKeepsFlag(v: seq<byte>, ins: Instr)
    requires |v| == 16 && (ins.Move? || ins.Or? || ins.And? || ins.Xor?)
    ensures OthersKept(v, Alu(v, ins), ins.x, ins.x)
    ensures ins.Move? ==> Alu(v, ins)[ins.x] == v[ins.y]
  {
  }

  /** 7xkk adds without touching VF. */
  lemma AddImmNoCarry(s: State, rnd: byte, x: Reg, kk: byte)
    requires WellFormed(s)
    ensures var e := RegisterEffect(s, AddImm(x, kk), rnd);
      && e.Continue?
      && e.next.V[x] == (s.V[x] as int + kk) % 0x100
      && OthersKept(s.V, e.next.V, x, x)
      && RegistersOnly(s, e.next) && e.next.pc == Add16(s.pc, 2)
  {
  }

  /** Cxkk: Vx gets the random byte masked with kk: each bit of Vx is set iff it is set
      in both, so Vx is at most either; always 0 for kk = 0, the byte itself for kk = 0xFF. */
  lemma RandomMasked(s: State, rnd: byte, x: Reg, kk: byte)
    requires WellFormed(s)
    ensures var e := RegisterEffect(s, Random(x, kk), rnd);
      && e.Continue?
      && (forall i :: 0 <= i < 8 ==> (SpriteBit(e.next.V[x], i) <==> SpriteBit(rnd, i) && SpriteBit(kk, i)))
      && e.next.V[x] <= kk && e.next.V[x] <= rnd
      && (kk == 0 ==> e.next.V[x] == 0)
      && (kk == 0xFF ==> e.next.V[x] == rnd)
      && OthersKept(s.V, e.next.V, x, x)
      && RegistersOnly(s, e.next) && e.next.pc == Add16(s.pc, 2)
  {
    MaskEnds(rnd);
    MaskBelow(rnd, kk);
    forall i | 0 <= i < 8
      ensures SpriteBit(And8(rnd, kk), i) <==> SpriteBit(rnd, i) && SpriteBit(kk, i)
    {
      MaskBits(rnd, kk, i);
    }
  }

  /** Fx1E: I advances by Vx (16-bit wrap) and VF reports a sum past 0xFFF. */
  lemma AddIndexOverflow(s: State, rnd: byte, x: Reg)
    requires WellFormed(s) && x != VF
    ensures var e := RegisterEffect(s, AddIndex(x), rnd);
      && e.Continue?
      && e.next.I == (s.I + s.V[x]) % 0x1_0000
      && (e.next.V[VF] == 1 <==> (s.I + s.V[x]) % 0x1_0000 > 0xFFF)
      && (e.next.V[VF] == 0 <==> (s.I + s.V[x]) % 0x1_0000 <= 0xFFF)
      && OthersKept(s.V, e.next.V, VF, VF)
      && e.next.pc == Add16(s.pc, 2) && e.next.(V := s.V, I := s.I, pc := s.pc) == s
  {
  }

  /** FF1E: VF is written first, so I grows by the new flag (0 or 1), not by the old VF. */
  lemma AddIndexFromFlag(s: State, rnd: byte)
    requires WellFormed(s)
    ensures var e, f := RegisterEffect(s, AddIndex(VF), rnd),
                        (if (s.I + s.V[VF]) % 0x1_0000 > 0xFFF then 1 else 0);
      && e.Continue?
      && e.next.V[VF] == f && e.next.I == (s.I + f) % 0x1_0000
      && OthersKept(s.V, e.next.V, VF, VF)
      && e.next.pc == Add16(s.pc, 2) && e.next.(V := s.V, I := s.I, pc := s.pc) == s
  {
  }

  /** Fx29: I = Vx * 5 in byte arithmetic, the glyph address for a hex digit and a wrapped
      address from Vx = 52 on. */
  lemma FontCharAddress(s: State, rnd: byte, x: Reg)
    requires WellFormed(s)
    ensures var e := RegisterEffect(s, FontChar(x), rnd);
      && e.Continue?
      && e.next.I == (s.V[x] as int * 5) % 0x100
      && (s.V[x] < 0x10 ==> e.next.I == 5 * s.V[x] as int)
      && (s.V[x] == 52 ==> e.next.I == 4)
      && e.next == s.(I := (s.V[x] as int * 5) % 0x100, pc := Add16(s.pc, 2))
  {
  }

  // ----------------------------------------------------------------- skips

  /** The effect that only moves pc by `delta`. */
  function Moved(s: State, delta: uint16): (e: Effect)
  {
    Continue(Advance(s, delta))
  }

  /** 3xkk and 4xkk skip on Vx == kk and on Vx != kk; nothing else changes. */
  lemma SkipImmediate(s: State, ins: Instr)
    requires WellFormed(s) && (ins.SkipEqImm? || ins.SkipNeImm?)
    ensures ins.SkipEqImm? ==> SkipEffect(s, ins) == Moved(s, if s.V[ins.x] == ins.kk then 4 else 2)
    ensures ins.SkipNeImm? ==> SkipEffect(s, ins) == Moved(s, if s.V[ins.x] != ins.kk then 4 else 2)
  {
  }

  /** 5xyn and 9xyn skip on Vx == Vy and on Vx != Vy; nothing else changes. */
  lemma SkipRegister(s: State, ins: Instr)
    requires WellFormed(s) && (ins.SkipEqReg? || ins.SkipNeReg?)
    ensures ins.SkipEqReg? ==> SkipEffect(s, ins) == Moved(s, if s.V[ins.x] == s.V[ins.y] then 4 else 2)
    ensures ins.SkipNeReg? ==> SkipEffect(s, ins) == Moved(s, if s.V[ins.x] != s.V[ins.y] then 4 else 2)
  {
  }

  /** Ex9E and ExA1 skip on key Vx down and up; a key number past 15 is a fault. */
  lemma SkipOnKey(s: State, ins: Instr)
    requires WellFormed(s) && (ins.SkipKey? || ins.SkipNoKey?)
    ensures s.V[ins.x] >= KeyCount <==> SkipEffect(s, ins) == Panic(KeyOutOfRange)
    ensures s.V[ins.x] < KeyCount && ins.SkipKey? ==>
      SkipEffect(s, ins) == Moved(s, if s.key[s.V[ins.x]] then 4 else 2)
    ensures s.V[ins.x] < KeyCount && ins.SkipNoKey? ==>
      SkipEffect(s, ins) == Moved(s, if s.key[s.V[ins.x]] then 2 else 4)
  {
  }

  /** An opcode that decodes to nothing is reported and not skipped: pc stays, so the next
      cycle fetches it again; only the timers tick. */
  lemma UnknownStays(s: State, rnd: byte, op: uint16)
    requires WellFormed(s) && Current(s) == Some(Unknown(op))
    ensures Step(s, rnd) == Finish(s)
    ensures Step(s, rnd).next.pc == s.pc
  {
    ControlCycle(s, rnd, Unknown(op));
  }

  /** Fx20 and Fx90 are reported too, but pc does advance. */
  lemma UnassignedAdvances(s: State, x: Reg, kk: byte)
    requires WellFormed(s)
    ensures ControlEffect(s, Unassigned(x, kk)) == Moved(s, 2)
  {
  }

  // ------------------------------------------------------------ flow, stack

  /** 1nnn and Bnnn: pc becomes nnn, and nnn + V0 (which can be past 0xFFF). */
  lemma Jumps(s: State, ins: Instr)
    requires WellFormed(s) && (ins.Jump? || ins.JumpOffset?)
    ensures ins.Jump? ==> ControlEffect(s, ins) == Continue(s.(pc := ins.nnn))
    ensures ins.JumpOffset? ==> ControlEffect(s, ins) == Continue(s.(pc := ins.nnn + s.V[0]))
  {
  }

  /** 2nnn pushes pc and jumps; with all sixteen slots in use it faults. */
  lemma CallPushes(s: State, nnn: addr12)
    requires WellFormed(s)
    ensures s.sp == StackDepth <==> ControlEffect(s, Call(nnn)) == Panic(StackOverflow)
    ensures s.sp < StackDepth ==> var e := ControlEffect(s, Call(nnn));
      && e.Continue? && e.next.pc == nnn && e.next.sp == s.sp + 1 && e.next.stack[s.sp] == s.pc
      && (forall k :: 0 <= k < StackDepth && k != s.sp ==> e.next.stack[k] == s.stack[k])
      && e.next.(pc := s.pc, sp := s.sp, stack := s.stack) == s
  {
  }

  /** 00EE pops and resumes after the call; on an empty stack it faults. */
  lemma ReturnPops(s: State)
    requires WellFormed(s)
    ensures s.sp == 0 <==> ControlEffect(s, Return) == Panic(StackUnderflow)
    ensures s.sp > 0 ==> var e := ControlEffect(s, Return);
      && e.Continue? && e.next.pc == Add16(s.stack[s.sp - 1], 2) && e.next.sp == s.sp - 1
      && e.next.(pc := s.pc, sp := s.sp) == s
  {
  }

  /** A 2nnn and then, in any state `u` with the stack the call left, a 00EE come back to
      the instruction after the call, with the stack pointer as it was. */
  lemma CallThenReturn(s: State, nnn: addr12, u: State)
    requires WellFormed(s) && s.sp < StackDepth
    requires WellFormed(u) && u.sp == ControlEffect(s, Call(nnn)).next.sp
    requires u.stack == ControlEffect(s, Call(nnn)).next.stack
    ensures var e := ControlEffect(u, Return);
      && e.Continue? && e.next.pc == Add16(s.pc, 2) && e.next.sp == s.sp
      && (forall k :: 0 <= k < StackDepth && k != s.sp ==> e.next.stack[k] == s.stack[k])
  {
    CallPushes(s, nnn);
    ReturnPops(u);
  }

  // ---------------------------------------------------------------- memory

  /** Fx55 writes all sixteen registers at I..I+15, whatever x is, and nothing else. */
  lemma StoreRegsWritesAll(s: State, x: Reg)
    requires WellFormed(s)
    ensures s.I + 16 > MemorySize <==> MemoryEffect(s, StoreRegs(x)) == Panic(MemoryOutOfRange)
    ensures s.I + 16 <= MemorySize ==> var e := MemoryEffect(s, StoreRegs(x));
      && e.Continue?
      && (forall k :: 0 <= k < 16 ==> e.next.memory[s.I + k] == s.V[k])
      && (forall a :: 0 <= a < MemorySize && !(s.I <= a < s.I + 16) ==> e.next.memory[a] == s.memory[a])
      && e.next.(memory := s.memory, pc := s.pc) == s && e.next.pc == Add16(s.pc, 2)
  {
  }

  /** Fx65 reads V0..V(x-1), one register short of Vx, and leaves Vx..VF alone. */
  lemma LoadRegsReadsBelowX(s: State, x: Reg)
    requires WellFormed(s)
    ensures x > 0 && s.I + x > MemorySize <==> MemoryEffect(s, LoadRegs(x)) == Panic(MemoryOutOfRange)
    ensures !(x > 0 && s.I + x > MemorySize) ==> var e := MemoryEffect(s, LoadRegs(x));
      && e.Continue?
      && (forall k :: 0 <= k < x ==> e.next.V[k] == s.memory[s.I + k])
      && (forall k :: x <= k < 16 ==> e.next.V[k] == s.V[k])
      && RegistersOnly(s, e.next) && e.next.pc == Add16(s.pc, 2)
  {
  }

  /** Fx55 and then Fx65 from the same I leave every register as it was. */
  lemma StoreThenLoad(s: State, x: Reg, x2: Reg)
    requires WellFormed(s) && s.I + 16 <= MemorySize
    ensures var t := MemoryEffect(s, StoreRegs(x)).next;
      MemoryEffect(t, LoadRegs(x2)).Continue? && MemoryEffect(t, LoadRegs(x2)).next.V == s.V
  {
    StoreRegsWritesAll(s, x);
    var t := MemoryEffect(s, StoreRegs(x)).next;
    LoadRegsReadsBelowX(t, x2);
    assert MemoryEffect(t, LoadRegs(x2)).next.V == s.V;
  }

  /** Fx33 as written: the hundreds digit is right, but the other two bytes are computed
      from the nibbles of Vx, so 156 is stored as 1, 4, 1 instead of 1, 5, 6. */
  lemma StoreBcdAsWritten(s: State, x: Reg)
    requires WellFormed(s)
    ensures s.I + 3 > MemorySize <==> MemoryEffect(s, StoreBcd(x)) == Panic(MemoryOutOfRange)
    ensures s.I + 3 <= MemorySize ==> var e := MemoryEffect(s, StoreBcd(x));
      && e.Continue?
      && e.next.memory[s.I] == s.V[x] / 100
      && e.next.memory[s.I + 1] == (s.V[x] / 0x10 * 0x10 / 10) % 10
      && e.next.memory[s.I + 2] == (if s.V[x] % 0x10 >= 10 then 1 else 0)
      && (s.V[x] == 156 ==> e.next.memory[s.I + 1] == 4 && e.next.memory[s.I + 2] == 1)
      && (forall a :: 0 <= a < MemorySize && !(s.I <= a < s.I + 3) ==> e.next.memory[a] == s.memory[a])
      && e.next.(memory := s.memory, pc := s.pc) == s && e.next.pc == Add16(s.pc, 2)
  {
    assert And8(156, 0xF0) == 0x90 && And8(156, 0x0F) == 0xC;
  }

  // ---------------------------------------------------------------- screen

  /** 00E0 blanks the screen but, unlike Dxyn, does not raise the draw flag. */
  lemma ClearScreenBlanks(s: State)
    requires WellFormed(s)
    ensures var e := ControlEffect(s, ClearScreen);
      && e.Continue?
      && (forall r, c :: 0 <= r < Rows && 0 <= c < Cols ==> !e.next.gfx[r][c])
      && e.next.drawFlag == s.drawFlag && e.next.V == s.V && e.next.pc == Add16(s.pc, 2)
      && e.next == s.(gfx := BlankScreen(), pc := Add16(s.pc, 2))
  {
  }

  /** Dxyn, in sprite coordinates: bit (j, i) lands on pixel ((vy + j) mod 256,
      (vx + i) mod 256), the byte sums of the source; when that pixel is on the grid a set
      bit flips it and an unset bit leaves it alone. */
  lemma DrawFlipsSprite(s: State, vx: byte, vy: byte, n: nibble, j: nat, i: nat)
    requires WellFormed(s)
    requires j < n && i < 8 && s.I + j < MemorySize
    requires (vy + j) % 0x100 < Rows && (vx + i) % 0x100 < Cols
    ensures DrawnScreen(s, vx, vy, n)[(vy + j) % 0x100][(vx + i) % 0x100]
      == (s.gfx[(vy + j) % 0x100][(vx + i) % 0x100] != SpriteBit(s.memory[s.I + j], i))
  {
    assert SpriteRow(vy, (vy + j) % 0x100) == j;
    assert SpriteCol(vx, (vx + i) % 0x100) == i;
  }

  /** Dxyn sets the draw flag, advances pc, and sets VF exactly when some pixel that was on
      is turned off. */
  lemma DrawCollision(s: State, x: Reg, y: Reg, n: nibble)
    requires WellFormed(s) && DrawFault(s, s.V[x], s.V[y], n) == None
    ensures var e := DrawEffect(s, x, y, n);
      && e.Continue? && e.next.drawFlag && e.next.pc == Add16(s.pc, 2)
      && e.next.gfx == DrawnScreen(s, s.V[x], s.V[y], n)
      && (e.next.V[VF] == 1 <==>
            exists r, c :: 0 <= r < Rows && 0 <= c < Cols && s.gfx[r][c] && !e.next.gfx[r][c])
      && (e.next.V[VF] == 0 || e.next.V[VF] == 1)
      && OthersKept(s.V, e.next.V, VF, VF)
      && e.next.(gfx := s.gfx, V := s.V, drawFlag := s.drawFlag, pc := s.pc) == s
  {
    var vx, vy := s.V[x], s.V[y];
    var g := DrawnScreen(s, vx, vy, n);
    if Collides(s, vx, vy, n) {
      var r, c :| 0 <= r < Rows && 0 <= c < Cols && s.gfx[r][c] && Hit(s, vx, vy, n, r, c);
      assert !g[r][c];
    }
    if exists r, c :: 0 <= r < Rows && 0 <= c < Cols && s.gfx[r][c] && !g[r][c] {
      var r, c :| 0 <= r < Rows && 0 <= c < Cols && s.gfx[r][c] && !g[r][c];
      assert Hit(s, vx, vy, n, r, c);
    }
  }

  /** Drawing the same sprite at the same place twice restores the screen. */
  lemma RedrawErases(s: State, vx: byte, vy: byte, n: nibble)
    requires WellFormed(s)
    ensures DrawnScreen(s.(gfx := DrawnScreen(s, vx, vy, n)), vx, vy, n) == s.gfx
  {
    var s1 := s.(gfx := DrawnScreen(s, vx, vy, n));
    var g := DrawnScreen(s1, vx, vy, n);
    forall r | 0 <= r < Rows
      ensures g[r] == s.gfx[r]
    {
      forall c | 0 <= c < Cols
        ensures g[r][c] == s.gfx[r][c]
      {
        assert Hit(s1, vx, vy, n, r, c) == Hit(s, vx, vy, n, r, c);
      }
    }
  }

  /** Sprite row j exists in memory and all its set bits land on the grid. */
  predicate RowDrawable(s: State, vx: byte, vy: byte, j: nat)
    requires WellFormed(s)
  {
    s.I + j < MemorySize && !RowLeavesGrid(s.memory[s.I + j], vx, vy, j)
  }

  /** Dxyn runs without a fault exactly when every one of its n rows lies in memory and
      has all its set bits on the grid. */
  lemma DrawSucceeds(s: State, vx: byte, vy: byte, n: nibble)
    requires WellFormed(s)
    ensures DrawFault(s, vx, vy, n) == None <==> forall j :: 0 <= j < n ==> RowDrawable(s, vx, vy, j)
  {
    if DrawFault(s, vx, vy, n) == None {
      forall j | 0 <= j < n
        ensures RowDrawable(s, vx, vy, j)
      {
        assert !RowFaults(s, vx, vy, j);
      }
    }
    if forall j :: 0 <= j < n ==> RowDrawable(s, vx, vy, j) {
      forall j | 0 <= j < n
        ensures !RowFaults(s, vx, vy, j)
      {
        assert RowDrawable(s, vx, vy, j);
      }
      if n > 0 {
        assert RowDrawable(s, vx, vy, n - 1);
      }
    }
  }

  /** Sprites do not wrap: a set bit that lands past the right or bottom edge is a fault,
      even with every earlier row on screen. */
  lemma DrawPastEdgeFaults(s: State, x: Reg, y: Reg, n: nibble, j: nat, i: nat)
    requires WellFormed(s)
    requires j < n && i < 8 && s.I + j < MemorySize && SpriteBit(s.memory[s.I + j], i)
    requires (s.V[x] + i) % 0x100 >= Cols || (s.V[y] + j) % 0x100 >= Rows
    ensures DrawEffect(s, x, y, n) == Panic(PixelOutOfRange)
  {
    assert RowFaults(s, s.V[x], s.V[y], j);
  }

  /** The 8x1 sprite 0xFF at (60, 0) faults instead of wrapping to columns 0..3. */
  lemma DrawAtSixtyFaults(s: State, x: Reg, y: Reg)
    requires WellFormed(s)
    requires s.V[x] == 60 && s.V[y] == 0 && s.I < MemorySize && s.memory[s.I] == 0xFF
    ensures DrawEffect(s, x, y, 1) == Panic(PixelOutOfRange)
  {
    assert SpriteBit(0xFF, 4);
    DrawPastEdgeFaults(s, x, y, 1, 0, 4);
  }

  // ------------------------------------------------------------- start-up

  /** Loading a program at 0x200 keeps the font in place. */
  lemma LoadKeepsFont(rom: seq<byte>)
    requires |rom| <= MemorySize - ProgramStart
    ensures Load(Initial().memory, rom)[..|FontSet|] == FontSet
  {
    var m := Load(Initial().memory, rom);
    assert forall a :: 0 <= a < |FontSet| ==> m[a] == FontSet[a];
  }
}
