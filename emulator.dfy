/** The machine as the Go program holds it: fixed-size global arrays and scalars that
    `emulateCycle` updates in place. Every method is proved against the value semantics of
    module Machine, through `Snapshot`. */
module Emulator {
  import opened Base
  import opened Bits
  import opened Instructions
  import opened Machine

  /** How an instruction ended, without the state it left. */
  datatype Status = Done | Waiting | Failed(fault: Fault)

  function StatusOf(e: Effect): (st: Status)
    ensures st.Done? <==> e.Continue?
    ensures st.Waiting? <==> e.Block?
    ensures st.Failed? <==> e.Panic?
  {
    match e
    case Continue(_) => Done
    case Block => Waiting
    case Panic(f) => Failed(f)
  }

  /** Sprite bit (SpriteRow(vy, r), SpriteCol(vx, c)) has already been drawn when the
      drawing loop stands at row j, column i. */
  ghost predicate Covered(s: State, vx: byte, vy: byte, j: nat, i: nat, r: int, c: int)
    requires WellFormed(s)
  {
    var jj, ii := SpriteRow(vy, r), SpriteCol(vx, c);
    ii < 8 && s.I + jj < MemorySize && (jj < j || (jj == j && ii < i))
    && SpriteBit(s.memory[s.I + jj], ii)
  }

  /** Some bit drawn so far landed on a pixel that was on before the draw. */
  ghost predicate CollidedSoFar(s: State, vx: byte, vy: byte, j: nat, i: nat)
    requires WellFormed(s)
  {
    exists r, c :: 0 <= r < Rows && 0 <= c < Cols && s.gfx[r][c] && Covered(s, vx, vy, j, i, r, c)
  }

  /** Screen row r and column c are where sprite bit (j, i) lands: the byte sums of
      main.go:484 undone. */
  lemma Lands(vx: byte, vy: byte, j: nat, i: nat, r: int, c: int)
    requires j < 0x100 && i < 0x100 && 0 <= r < 0x100 && 0 <= c < 0x100
    ensures SpriteRow(vy, r) == j <==> r == (vy + j) % 0x100
    ensures SpriteCol(vx, c) == i <==> c == (vx + i) % 0x100
  {
  }

  /** Drawing bit (j, i) adds exactly its own pixel to what is covered. */
  lemma CoverStep(s: State, vx: byte, vy: byte, j: nat, i: nat)
    requires WellFormed(s) && j < 16 && i < 8 && s.I + j < MemorySize
    ensures forall r, c :: 0 <= r < Rows && 0 <= c < Cols ==>
      (Covered(s, vx, vy, j, i + 1, r, c) <==>
        Covered(s, vx, vy, j, i, r, c)
        || (SpriteBit(s.memory[s.I + j], i) && r == (vy + j) % 0x100 && c == (vx + i) % 0x100))
  {
    forall r, c | 0 <= r < Rows && 0 <= c < Cols
      ensures Covered(s, vx, vy, j, i + 1, r, c) <==>
        Covered(s, vx, vy, j, i, r, c)
        || (SpriteBit(s.memory[s.I + j], i) && r == (vy + j) % 0x100 && c == (vx + i) % 0x100)
    {
      Lands(vx, vy, j, i, r, c);
    }
  }

  /** The collision so far grows by the pixel under bit (j, i), if that bit is set. */
  lemma CollideStep(s: State, vx: byte, vy: byte, j: nat, i: nat)
    requires WellFormed(s) && j < 16 && i < 8 && s.I + j < MemorySize
    requires SpriteBit(s.memory[s.I + j], i) ==> (vy + j) % 0x100 < Rows && (vx + i) % 0x100 < Cols
    ensures CollidedSoFar(s, vx, vy, j, i + 1) <==>
      CollidedSoFar(s, vx, vy, j, i)
      || (SpriteBit(s.memory[s.I + j], i) && s.gfx[(vy + j) % 0x100][(vx + i) % 0x100])
  {
    var row, col := (vy + j) % 0x100, (vx + i) % 0x100;
    if CollidedSoFar(s, vx, vy, j, i + 1) {
      var r, c :| 0 <= r < Rows && 0 <= c < Cols && s.gfx[r][c] && Covered(s, vx, vy, j, i + 1, r, c);
      Lands(vx, vy, j, i, r, c);
      if !Covered(s, vx, vy, j, i, r, c) {
        assert r == row && c == col;
      }
    }
    if SpriteBit(s.memory[s.I + j], i) && s.gfx[row][col] {
      Lands(vx, vy, j, i, row, col);
      assert Covered(s, vx, vy, j, i + 1, row, col);
    }
    if CollidedSoFar(s, vx, vy, j, i) {
      var r, c :| 0 <= r < Rows && 0 <= c < Cols && s.gfx[r][c] && Covered(s, vx, vy, j, i, r, c);
      assert Covered(s, vx, vy, j, i + 1, r, c);
    }
  }

  /** Standing after the last column of row j is standing before the first of row j + 1. */
  lemma NextRow(s: State, vx: byte, vy: byte, j: nat)
    requires WellFormed(s)
    ensures forall r, c :: Covered(s, vx, vy, j, 8, r, c) <==> Covered(s, vx, vy, j + 1, 0, r, c)
    ensures CollidedSoFar(s, vx, vy, j, 8) <==> CollidedSoFar(s, vx, vy, j + 1, 0)
  {
    if CollidedSoFar(s, vx, vy, j, 8) {
      var r, c :| 0 <= r < Rows && 0 <= c < Cols && s.gfx[r][c] && Covered(s, vx, vy, j, 8, r, c);
      assert Covered(s, vx, vy, j + 1, 0, r, c);
    }
    if CollidedSoFar(s, vx, vy, j + 1, 0) {
      var r, c :| 0 <= r < Rows && 0 <= c < Cols && s.gfx[r][c] && Covered(s, vx, vy, j + 1, 0, r, c);
      assert Covered(s, vx, vy, j, 8, r, c);
    }
  }

  /** Once all n rows are drawn, what is covered is what the sprite hits. */
  lemma AllRows(s: State, vx: byte, vy: byte, n: nibble)
    requires WellFormed(s)
    ensures forall r, c :: Covered(s, vx, vy, n, 0, r, c) <==> Hit(s, vx, vy, n, r, c)
    ensures CollidedSoFar(s, vx, vy, n, 0) <==> Collides(s, vx, vy, n)
  {
    if CollidedSoFar(s, vx, vy, n, 0) {
      var r, c :| 0 <= r < Rows && 0 <= c < Cols && s.gfx[r][c] && Covered(s, vx, vy, n, 0, r, c);
      assert Hit(s, vx, vy, n, r, c);
    }
    if Collides(s, vx, vy, n) {
      var r, c :| 0 <= r < Rows && 0 <= c < Cols && s.gfx[r][c] && Hit(s, vx, vy, n, r, c);
      assert Covered(s, vx, vy, n, 0, r, c);
    }
  }

  /** The globals of main.go:21-55 (`opcode` is scratch and left out). */
  class Chip8 {
    const memory: array<byte>
    const V: array<byte>
    const gfx: array2<bool>
    const stack: array<uint16>
    const key: array<bool>
    var I: uint16
    var pc: uint16
    var drawFlag: bool
    var delayTimer: uint16
    var soundTimer: uint16
    var sp: uint16

    /** The arrays have the sizes the Go declarations give them. */
    ghost predicate Valid()
      reads this
    {
      && memory.Length == MemorySize && V.Length == 16
      && gfx.Length0 == Rows && gfx.Length1 == Cols
      && stack.Length == StackDepth && key.Length == KeyCount
      && sp <= StackDepth && memory != V
    }

    ghost function Grid(): (g: seq<seq<bool>>)
      reads this, gfx
      requires Valid()
      ensures |g| == Rows && forall r :: 0 <= r < Rows ==> |g[r]| == Cols
      ensures forall r, c :: 0 <= r < Rows && 0 <= c < Cols ==> g[r][c] == gfx[r, c]
    {
      seq(Rows, r requires 0 <= r < Rows reads gfx =>
        seq(Cols, c requires 0 <= c < Cols reads gfx => gfx[r, c]))
    }

    /** The machine state as a value. */
    ghost function Snapshot(): (s: State)
      reads this, memory, V, gfx, stack, key
      requires Valid()
      ensures WellFormed(s)
    {
      State(memory[..], V[..], I, pc, Grid(), drawFlag, delayTimer, soundTimer,
            stack[..], sp, key[..])
    }

    /** Zeroed globals, then the start-up of main.go:94-108: pc = 0x200 and the font
        copied into memory[0..80). */
    constructor ()
      ensures Valid() && Snapshot() == Initial()
    {
      memory := new byte[MemorySize](_ => 0);
      V := new byte[16](_ => 0);
      gfx := new bool[Rows, Cols]((_, _) => false);
      stack := new uint16[StackDepth](_ => 0);
      key := new bool[KeyCount](_ => false);
      I, pc, drawFlag, delayTimer, soundTimer, sp := 0, ProgramStart, false, 0, 0, 0;
      new;
      LoadFont();
      assert memory[..] == Initial().memory;
      assert V[..] == Initial().V && stack[..] == Initial().stack && key[..] == Initial().key;
      assert Grid() == BlankScreen() by {
        forall r | 0 <= r < Rows ensures Grid()[r] == BlankScreen()[r] { }
      }
    }

    /** The font loop of main.go:106-108. */
    method LoadFont()
      requires Valid()
      modifies memory
      ensures Valid()
      ensures memory[..] == FontSet + old(memory[|FontSet|..])
    {
      for i := 0 to |FontSet|
        invariant forall a :: 0 <= a < MemorySize ==> memory[a] == if a < i then FontSet[a] else old(memory[a])
      {
        memory[i] := FontSet[i];
      }
      assert memory[..] == FontSet + old(memory[|FontSet|..]);
    }

    /** The program image copied in at 0x200, byte by byte (main.go:123-138). */
    method LoadProgram(rom: seq<byte>)
      requires Valid() && |rom| <= MemorySize - ProgramStart
      modifies memory
      ensures Valid()
      ensures Snapshot() == old(Snapshot()).(memory := Load(old(memory[..]), rom))
    {
      for k := 0 to |rom|
        invariant forall a :: 0 <= a < MemorySize ==>
          memory[a] == if ProgramStart <= a < ProgramStart + k then rom[a - ProgramStart] else old(memory[a])
      {
        memory[ProgramStart + k] := rom[k];
      }
      assert memory[..] == Load(old(memory[..]), rom);
    }

    /** keyPress (main.go:288-294): key k is down or up. */
    method KeyPress(k: byte, press: bool)
      requires Valid() && k < KeyCount
      modifies key
      ensures Valid()
      ensures Snapshot() == old(Snapshot()).(key := old(key[..])[k := press])
    {
      key[k] := press;
    }

    /** The end of `draw` (main.go:641): the frame is on screen. */
    method FramePresented()
      requires Valid()
      modifies this
      ensures Valid()
      ensures Snapshot() == old(Snapshot()).(drawFlag := false)
    {
      drawFlag := false;
    }

    /** 00E0 (main.go:310-314): every pixel off. */
    method ClearScreen()
      requires Valid()
      modifies gfx
      ensures Valid() && Grid() == BlankScreen()
    {
      for r := 0 to Rows
        invariant forall r', c :: 0 <= r' < r && 0 <= c < Cols ==> !gfx[r', c]
      {
        for c := 0 to Cols
          invariant forall r', c' :: 0 <= r' < r && 0 <= c' < Cols ==> !gfx[r', c']
          invariant forall c' :: 0 <= c' < c ==> !gfx[r, c']
        {
          gfx[r, c] := false;
        }
      }
      assert forall r :: 0 <= r < Rows ==> Grid()[r] == BlankScreen()[r];
    }

    /** 3xkk, 4xkk, 5xy0, 9xy0, Ex9E and ExA1 (main.go:340-363, 447-456, 494-518). */
    method RunSkip(ins: Instr) returns (st: Status)
      requires Valid() && IsSkip(ins)
      modifies this
      ensures Valid()
      ensures st == StatusOf(SkipEffect(old(Snapshot()), ins))
      ensures st.Done? ==> Snapshot() == SkipEffect(old(Snapshot()), ins).next
    {
      var cond: bool;
      match ins {
        case SkipEqImm(x, kk) => cond := V[x] == kk;
        case SkipNeImm(x, kk) => cond := V[x] != kk;
        case SkipEqReg(x, y) => cond := V[x] == V[y];
        case SkipNeReg(x, y) => cond := V[x] != V[y];
        case SkipKey(x) =>
          if V[x] >= KeyCount { return Failed(KeyOutOfRange); }
          cond := key[V[x]];
        case SkipNoKey(x) =>
          if V[x] >= KeyCount { return Failed(KeyOutOfRange); }
          cond := !key[V[x]];
      }
      assert SkipEffect(old(Snapshot()), ins) == Continue(SkipIf(old(Snapshot()), cond));
      if cond { pc := Add16(pc, 4); } else { pc := Add16(pc, 2); }
      st := Done;
    }

    /** 00EE (main.go:321-323): pop the return address and step past the call. With
        sp == 0 the decrement wraps and the stack index panics. */
    method RunReturn() returns (st: Status)
      requires Valid()
      modifies this
      ensures Valid()
      ensures st == StatusOf(ControlEffect(old(Snapshot()), Return))
      ensures st.Done? ==> Snapshot() == ControlEffect(old(Snapshot()), Return).next
    {
      if sp == 0 { return Failed(StackUnderflow); }
      sp := sp - 1;
      pc := Add16(stack[sp], 2);
      st := Done;
    }

    /** 2nnn (main.go:335-338): push pc and jump; a seventeenth push panics. */
    method RunCall(nnn: addr12) returns (st: Status)
      requires Valid()
      modifies this, stack
      ensures Valid()
      ensures st == StatusOf(ControlEffect(old(Snapshot()), Call(nnn)))
      ensures st.Done? ==> Snapshot() == ControlEffect(old(Snapshot()), Call(nnn)).next
    {
      if sp == StackDepth { return Failed(StackOverflow); }
      stack[sp] := pc;
      sp := sp + 1;
      pc := nnn;
      st := Done;
    }

    /** Opcode families 0, 1, 2 and B, the skips, and the opcodes that are only reported. */
    method RunControl(ins: Instr) returns (st: Status)
      requires Valid() && IsControl(ins)
      modifies this, gfx, stack
      ensures Valid()
      ensures st == StatusOf(ControlEffect(old(Snapshot()), ins))
      ensures st.Done? ==> Snapshot() == ControlEffect(old(Snapshot()), ins).next
    {
      st := Done;
      match ins
      case ClearScreen =>
        ClearScreen();
        pc := Add16(pc, 2);
      case Return =>
        st := RunReturn();
      case Jump(nnn) =>
        pc := nnn;
      case Call(nnn) =>
        st := RunCall(nnn);
      case JumpOffset(nnn) =>
        pc := nnn + V[0];
      case Unassigned(_, _) =>
        pc := Add16(pc, 2);
      case Unknown(_) =>
      case SkipEqImm(_, _) | SkipNeImm(_, _) | SkipEqReg(_, _) | SkipNeReg(_, _) | SkipKey(_) | SkipNoKey(_) =>
        st := RunSkip(ins);
    }

    /** 8xy0 to 8xyE (main.go:375-444), writing VF and Vx in the order the source does. */
    method RunAlu(ins: Instr)
      requires Valid() && IsAlu(ins)
      modifies V
      ensures Valid()
      ensures V[..] == Alu(old(V[..]), ins)
    {
      match ins
      case Move(x, y) => V[x] := V[y];
      case Or(x, y) => V[x] := Or8(V[x], V[y]);
      case And(x, y) => V[x] := And8(V[x], V[y]);
      case Xor(x, y) => V[x] := Xor8(V[x], V[y]);
      case AddReg(x, y) =>
        V[VF] := 0;
        if V[y] > 0xFF - V[x] { V[VF] := 1; }
        V[x] := Add8(V[x], V[y]);
      case SubReg(x, y) =>
        if V[x] < V[y] { V[VF] := 1; } else { V[VF] := 0; }
        V[x] := Sub8(V[x], V[y]);
      case ShiftRight(x, _) =>
        V[VF] := And8(V[x], 0x1);
        V[x] := V[x] / 2;
      case SubRev(x, y) =>
        if V[y] < V[x] { V[VF] := 1; } else { V[VF] := 0; }
        V[x] := Sub8(V[y], V[x]);
      case ShiftLeft(x, _) =>
        V[VF] := Shr8(V[x], 7);
        V[x] := Mul8(V[x], 2);
    }

    /** The Fx0A scan (main.go:530-535): every key that is down writes its index to Vx, so
        the highest one stays. */
    method ScanKeys(x: Reg) returns (pressed: bool)
      requires Valid()
      modifies V
      ensures Valid()
      ensures pressed <==> HighestPressed(key[..], KeyCount).Some?
      ensures pressed ==> V[..] == old(V[..])[x := HighestPressed(key[..], KeyCount).value]
      ensures !pressed ==> V[..] == old(V[..])
    {
      pressed := false;
      for i := 0 to KeyCount
        invariant pressed <==> HighestPressed(key[..], i).Some?
        invariant pressed ==> V[..] == old(V[..])[x := HighestPressed(key[..], i).value]
        invariant !pressed ==> V[..] == old(V[..])
      {
        if key[i] {
          V[x] := i;
          pressed := true;
        }
      }
    }

    /** Fx07, Fx0A, Fx15 and Fx18 (main.go:521-550). */
    method RunTimer(ins: Instr) returns (st: Status)
      requires Valid() && IsTimer(ins)
      modifies this, V
      ensures Valid()
      ensures st == StatusOf(TimerEffect(old(Snapshot()), ins))
      ensures st.Done? ==> Snapshot() == TimerEffect(old(Snapshot()), ins).next
      ensures st.Waiting? ==> Snapshot() == old(Snapshot())
    {
      st := Done;
      match ins {
        case LoadDelay(x) =>
          V[x] := delayTimer % 0x100;
        case WaitKey(x) =>
          var pressed := ScanKeys(x);
          if !pressed { return Waiting; }
        case SetDelay(x) =>
          delayTimer := x * 0x100;
        case SetSound(x) =>
          soundTimer := V[x];
      }
      pc := Add16(pc, 2);
    }

    /** 6xkk, 7xkk, Annn, Cxkk, Fx1E and Fx29, and through RunAlu and RunTimer the 8xyn
        and timer instructions. `rnd` is the byte `rand.Intn(256)` returns. */
    method RunRegister(ins: Instr, rnd: byte) returns (st: Status)
      requires Valid() && !IsControl(ins) && !IsMemory(ins) && !ins.Draw?
      modifies this, V
      ensures Valid()
      ensures st == StatusOf(RegisterEffect(old(Snapshot()), ins, rnd))
      ensures st.Done? ==> Snapshot() == RegisterEffect(old(Snapshot()), ins, rnd).next
      ensures st.Waiting? ==> Snapshot() == old(Snapshot())
    {
      if IsAlu(ins) {
        RunAlu(ins);
        pc := Add16(pc, 2);
        return Done;
      }
      if IsTimer(ins) {
        st := RunTimer(ins);
        return;
      }
      RunLoad(ins, rnd);
      st := Done;
    }

    /** 6xkk, 7xkk, Annn, Cxkk, Fx1E and Fx29: a register or I is set, then pc += 2. */
    method RunLoad(ins: Instr, rnd: byte)
      requires Valid() && !IsControl(ins) && !IsMemory(ins) && !ins.Draw? && !IsAlu(ins) && !IsTimer(ins)
      modifies this, V
      ensures Valid()
      ensures RegisterEffect(old(Snapshot()), ins, rnd).Continue?
      ensures Snapshot() == RegisterEffect(old(Snapshot()), ins, rnd).next
    {
      match ins {
        case LoadImm(x, kk) => V[x] := kk;
        case AddImm(x, kk) => V[x] := Add8(V[x], kk);
        case LoadIndex(nnn) => I := nnn;
        case Random(x, kk) => V[x] := And8(rnd, kk);
        case AddIndex(x) =>
          if Add16(I, V[x]) > 0xFFF { V[VF] := 1; } else { V[VF] := 0; }
          I := Add16(I, V[x]);
        case FontChar(x) => I := Mul8(V[x], 5);
      }
      pc := Add16(pc, 2);
    }

    /** Fx33 (main.go:575-578): three masked digits at I, I+1 and I+2, each write checked
        against the end of memory in turn. */
    method RunStoreBcd(x: Reg) returns (st: Status)
      requires Valid()
      modifies this, memory
      ensures Valid()
      ensures st == StatusOf(MemoryEffect(old(Snapshot()), StoreBcd(x)))
      ensures st.Done? ==> Snapshot() == MemoryEffect(old(Snapshot()), StoreBcd(x)).next
    {
      var bcd := V[x];
      if I >= MemorySize { return Failed(MemoryOutOfRange); }
      memory[I] := bcd / 100;
      var a1 := Add16(I, 1);
      if a1 >= MemorySize { return Failed(MemoryOutOfRange); }
      memory[a1] := (And8(bcd, 0xF0) / 10) % 10;
      var a2 := Add16(I, 2);
      if a2 >= MemorySize { return Failed(MemoryOutOfRange); }
      memory[a2] := (And8(bcd, 0x0F) % 100) / 10;
      pc := Add16(pc, 2);
      st := Done;
    }

    /** Fx55 (main.go:583-585): all sixteen registers to memory at I. */
    method RunStoreRegs(x: Reg) returns (st: Status)
      requires Valid()
      modifies this, memory
      ensures Valid()
      ensures st == StatusOf(MemoryEffect(old(Snapshot()), StoreRegs(x)))
      ensures st.Done? ==> Snapshot() == MemoryEffect(old(Snapshot()), StoreRegs(x)).next
    {
      for i := 0 to 16
        modifies memory
        invariant i == 0 || I + i <= MemorySize
        invariant forall a :: 0 <= a < MemorySize ==>
          memory[a] == if I <= a < I + i then V[a - I] else old(memory[a])
      {
        var addr := Add16(I, i);
        if addr >= MemorySize { return Failed(MemoryOutOfRange); }
        memory[addr] := V[i];
      }
      assert memory[..] == StoredRegs(old(memory[..]), I, V[..]);
      pc := Add16(pc, 2);
      st := Done;
    }

    /** Fx65 (main.go:589-592): V0..V(x-1) from memory at I. */
    method RunLoadRegs(x: Reg) returns (st: Status)
      requires Valid()
      modifies this, V
      ensures Valid()
      ensures st == StatusOf(MemoryEffect(old(Snapshot()), LoadRegs(x)))
      ensures st.Done? ==> Snapshot() == MemoryEffect(old(Snapshot()), LoadRegs(x)).next
    {
      for i := 0 to x
        modifies V
        invariant i == 0 || I + i <= MemorySize
        invariant forall k :: 0 <= k < 16 ==> V[k] == if k < i then memory[I + k] else old(V[k])
      {
        var addr := Add16(I, i);
        if addr >= MemorySize { return Failed(MemoryOutOfRange); }
        V[i] := memory[addr];
      }
      assert V[..] == LoadedRegs(memory[..], I, old(V[..]), x);
      pc := Add16(pc, 2);
      st := Done;
    }

    /** Fx33, Fx55 and Fx65. */
    method RunMemory(ins: Instr) returns (st: Status)
      requires Valid() && IsMemory(ins)
      modifies this, memory, V
      ensures Valid()
      ensures st == StatusOf(MemoryEffect(old(Snapshot()), ins))
      ensures st.Done? ==> Snapshot() == MemoryEffect(old(Snapshot()), ins).next
    {
      match ins {
        case StoreBcd(x) => st := RunStoreBcd(x);
        case StoreRegs(x) => st := RunStoreRegs(x);
        case LoadRegs(x) => st := RunLoadRegs(x);
      }
    }

    /** The screen while Dxyn draws from state s0 and stands at row j, column i: each
        covered pixel flipped. */
    ghost predicate ScreenPainted(s0: State, vx: byte, vy: byte, j: nat, i: nat)
      reads this, gfx
      requires Valid() && WellFormed(s0)
    {
      forall r, c :: 0 <= r < Rows && 0 <= c < Cols ==>
        gfx[r, c] == (s0.gfx[r][c] != Covered(s0, vx, vy, j, i, r, c))
    }

    /** VF at the same point: 1 exactly when a covered pixel was on. */
    ghost predicate FlagPainted(s0: State, vx: byte, vy: byte, j: nat, i: nat)
      reads this, V
      requires Valid() && WellFormed(s0)
    {
      && (V[VF] == 0 || V[VF] == 1)
      && (V[VF] == 1 <==> CollidedSoFar(s0, vx, vy, j, i))
    }

    ghost predicate Painted(s0: State, vx: byte, vy: byte, j: nat, i: nat)
      reads this, gfx, V
      requires Valid() && WellFormed(s0)
    {
      ScreenPainted(s0, vx, vy, j, i) && FlagPainted(s0, vx, vy, j, i)
    }

    /** A clear sprite bit changes nothing. */
    lemma ClearBit(s0: State, vx: byte, vy: byte, j: nat, i: nat)
      requires Valid() && WellFormed(s0) && j < 16 && i < 8 && s0.I + j < MemorySize
      requires !SpriteBit(s0.memory[s0.I + j], i)
      requires Painted(s0, vx, vy, j, i)
      ensures Painted(s0, vx, vy, j, i + 1)
    {
      CoverStep(s0, vx, vy, j, i);
      CollideStep(s0, vx, vy, j, i);
    }

    /** One set sprite bit landing on (row, col) inside the grid (main.go:484-487): VF set
        if the pixel is on, then the pixel flipped. */
    method PaintPixel(ghost s0: State, vx: byte, vy: byte, j: nat, i: nat, row: nat, col: nat)
      requires Valid() && WellFormed(s0) && j < 16 && i < 8 && s0.I + j < MemorySize
      requires SpriteBit(s0.memory[s0.I + j], i)
      requires row == (vy + j) % 0x100 && col == (vx + i) % 0x100 && row < Rows && col < Cols
      requires Painted(s0, vx, vy, j, i)
      modifies gfx, V
      ensures Valid() && Painted(s0, vx, vy, j, i + 1)
      ensures forall k :: 0 <= k < 16 && k != VF ==> V[k] == old(V[k])
    {
      CoverStep(s0, vx, vy, j, i);
      CollideStep(s0, vx, vy, j, i);
      Lands(vx, vy, j, i, row, col);
      assert gfx[row, col] == s0.gfx[row][col];
      if gfx[row, col] { V[VF] := 1; }
      gfx[row, col] := !gfx[row, col];
    }

    /** The inner loop of Dxyn (main.go:482-489) for sprite row j: false when a set bit
        falls outside the grid, where the source's index panics. */
    method DrawRow(ghost s0: State, vx: byte, vy: byte, j: nat, sprite: byte) returns (ok: bool)
      requires Valid() && WellFormed(s0) && j < 16 && s0.I + j < MemorySize
      requires sprite == s0.memory[s0.I + j]
      requires Painted(s0, vx, vy, j, 0)
      modifies gfx, V
      ensures Valid()
      ensures ok <==> !RowLeavesGrid(sprite, vx, vy, j)
      ensures ok ==> Painted(s0, vx, vy, j, 8)
      ensures forall k :: 0 <= k < 16 && k != VF ==> V[k] == old(V[k])
    {
      for i := 0 to 8
        invariant Painted(s0, vx, vy, j, i)
        invariant forall ii :: 0 <= ii < i && SpriteBit(sprite, ii) ==>
          (vy + j) % 0x100 < Rows && (vx + ii) % 0x100 < Cols
        invariant forall k :: 0 <= k < 16 && k != VF ==> V[k] == old(V[k])
      {
        if SpriteBit(sprite, i) {
          var row, col := (vy + j) % 0x100, (vx + i) % 0x100;
          if row >= Rows || col >= Cols {
            assert SpriteBit(sprite, i) && ((vy + j) % 0x100 >= Rows || (vx + i) % 0x100 >= Cols);
            return false;
          }
          PaintPixel(s0, vx, vy, j, i, row, col);
        } else {
          ClearBit(s0, vx, vy, j, i);
        }
      }
      return true;
    }

    /** The outer loop of Dxyn (main.go:480-490): row j of the sprite is read from memory
        at I + j, a `uint16` sum, and drawn. */
    method DrawSprite(ghost s0: State, vx: byte, vy: byte, n: nibble) returns (fault: Option<Fault>)
      requires Valid() && WellFormed(s0) && memory[..] == s0.memory && I == s0.I
      requires Painted(s0, vx, vy, 0, 0)
      modifies gfx, V
      ensures Valid()
      ensures fault == DrawFault(s0, vx, vy, n)
      ensures fault.None? ==> Painted(s0, vx, vy, n, 0)
      ensures forall k :: 0 <= k < 16 && k != VF ==> V[k] == old(V[k])
    {
      var j: uint16 := 0;
      while j < n
        invariant j <= n
        invariant j == 0 || s0.I + j <= MemorySize
        invariant forall jj :: 0 <= jj < j ==> !RowFaults(s0, vx, vy, jj)
        invariant Painted(s0, vx, vy, j, 0)
        invariant forall k :: 0 <= k < 16 && k != VF ==> V[k] == old(V[k])
      {
        var addr := Add16(I, j);
        if addr >= MemorySize {
          assert forall jj :: 0 <= jj < n ==> !RowFaults(s0, vx, vy, jj);
          return Some(MemoryOutOfRange);
        }
        var ok := DrawRow(s0, vx, vy, j, memory[addr]);
        if !ok {
          assert RowFaults(s0, vx, vy, j);
          return Some(PixelOutOfRange);
        }
        NextRow(s0, vx, vy, j);
        j := j + 1;
      }
      return None;
    }

    /** Dxyn (main.go:475-493): VF cleared, the sprite XOR-ed in, the frame marked. */
    method RunDraw(x: Reg, y: Reg, n: nibble) returns (st: Status)
      requires Valid()
      modifies this, gfx, V
      ensures Valid()
      ensures st == StatusOf(DrawEffect(old(Snapshot()), x, y, n))
      ensures st.Done? ==> Snapshot() == DrawEffect(old(Snapshot()), x, y, n).next
    {
      ghost var s0 := Snapshot();
      var vx, vy := V[x], V[y];
      V[VF] := 0;
      assert !CollidedSoFar(s0, vx, vy, 0, 0);
      var fault := DrawSprite(s0, vx, vy, n);
      if fault.Some? { return Failed(fault.value); }
      AllRows(s0, vx, vy, n);
      assert Grid() == DrawnScreen(s0, vx, vy, n) by {
        forall r | 0 <= r < Rows ensures Grid()[r] == DrawnScreen(s0, vx, vy, n)[r] { }
      }
      ghost var flag := if Collides(s0, vx, vy, n) then 1 else 0;
      assert V[..] == s0.V[VF := flag];
      drawFlag := true;
      pc := Add16(pc, 2);
      st := Done;
    }

    /** The execute part of `emulateCycle` for one decoded instruction. */
    method RunInstruction(ins: Instr, rnd: byte) returns (st: Status)
      requires Valid()
      modifies this, memory, V, gfx, stack
      ensures Valid()
      ensures st == StatusOf(Execute(old(Snapshot()), ins, rnd))
      ensures st.Done? ==> Snapshot() == Execute(old(Snapshot()), ins, rnd).next
      ensures st.Waiting? ==> Snapshot() == old(Snapshot())
    {
      if IsControl(ins) {
        st := RunControl(ins);
      } else if IsMemory(ins) {
        st := RunMemory(ins);
      } else if ins.Draw? {
        st := RunDraw(ins.x, ins.y, ins.n);
      } else {
        st := RunRegister(ins, rnd);
      }
    }

    /** The timer update (main.go:608-619); true when the sound timer runs out now. */
    method TickTimers() returns (beep: bool)
      requires Valid()
      modifies this
      ensures Valid()
      ensures beep <==> old(soundTimer) == 1
      ensures Snapshot() == Tick(old(Snapshot()))
    {
      if delayTimer > 0 {
        delayTimer := delayTimer - 1;
      }
      beep := false;
      if soundTimer > 0 {
        if soundTimer == 1 {
          beep := true;
        }
        soundTimer := soundTimer - 1;
      }
    }

    /** emulateCycle (main.go:296-620): fetch the big-endian word at pc, decode, execute,
        tick the timers. `rnd` stands for `rand.Intn(256)`. After a fault the Go process
        is gone and nothing is promised about the state. */
    method EmulateCycle(rnd: byte) returns (out: Outcome)
      requires Valid()
      modifies this, memory, V, gfx, stack
      ensures Valid()
      ensures out == Step(old(Snapshot()), rnd).outcome
      ensures !out.Halted? ==> Snapshot() == Step(old(Snapshot()), rnd).next
    {
      if pc + 1 >= MemorySize {
        return Halted(AddressOutOfRange);
      }
      var op: uint16 := (memory[pc] as int) * 0x100 + memory[pc + 1];
      var ins := Decode(op);
      assert Current(Snapshot()) == Some(ins);
      var st := RunInstruction(ins, rnd);
      match st {
        case Failed(f) =>
          out := Halted(f);
        case Waiting =>
          out := AwaitingKey;
        case Done =>
          var beep := TickTimers();
          out := Ran(beep);
      }
    }
  }
}
