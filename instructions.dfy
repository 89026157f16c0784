/**
 * The instruction set as `emulateCycle` decodes it (main.go:303-607): the top nibble
 * selects a family; families 0x0 and 0x8 are then split on the low nibble, 0xE and 0xF
 * on the low byte.
 */
module Instructions {
  import opened Base

  /** Index of one of the sixteen registers V0..VF. */
  type Reg = nibble

  datatype Instr =
    | ClearScreen                   // 0nn0 (any opcode 0___ whose low nibble is 0)
    | Return                        // 0nnE (any opcode 0___ whose low nibble is E)
    | Jump(nnn: addr12)             // 1nnn
    | Call(nnn: addr12)             // 2nnn
    | SkipEqImm(x: Reg, kk: byte)   // 3xkk
    | SkipNeImm(x: Reg, kk: byte)   // 4xkk
    | SkipEqReg(x: Reg, y: Reg)     // 5xyn, the low nibble is not looked at
    | LoadImm(x: Reg, kk: byte)     // 6xkk
    | AddImm(x: Reg, kk: byte)      // 7xkk
    | Move(x: Reg, y: Reg)          // 8xy0
    | Or(x: Reg, y: Reg)            // 8xy1
    | And(x: Reg, y: Reg)           // 8xy2
    | Xor(x: Reg, y: Reg)           // 8xy3
    | AddReg(x: Reg, y: Reg)        // 8xy4
    | SubReg(x: Reg, y: Reg)        // 8xy5
    | ShiftRight(x: Reg, y: Reg)    // 8xy6
    | SubRev(x: Reg, y: Reg)        // 8xy7
    | ShiftLeft(x: Reg, y: Reg)     // 8xyE
    | SkipNeReg(x: Reg, y: Reg)     // 9xyn, the low nibble is not looked at
    | LoadIndex(nnn: addr12)        // Annn
    | JumpOffset(nnn: addr12)       // Bnnn
    | Random(x: Reg, kk: byte)      // Cxkk
    | Draw(x: Reg, y: Reg, n: nibble) // Dxyn
    | SkipKey(x: Reg)               // Ex9E
    | SkipNoKey(x: Reg)             // ExA1
    | LoadDelay(x: Reg)             // Fx07
    | WaitKey(x: Reg)               // Fx0A
    | SetDelay(x: Reg)              // Fx15
    | SetSound(x: Reg)              // Fx18
    | Unassigned(x: Reg, kk: byte)  // Fx20 and Fx90: reported, then pc advances
    | AddIndex(x: Reg)              // Fx1E
    | FontChar(x: Reg)              // Fx29
    | StoreBcd(x: Reg)              // Fx33
    | StoreRegs(x: Reg)             // Fx55
    | LoadRegs(x: Reg)              // Fx65
    | Unknown(op: uint16)           // every other opcode: reported, pc stays

  /** The opcode fields `(opcode & 0x0F00) >> 8`, `(opcode & 0x00F0) >> 4`, `opcode & 0x000F`,
      `opcode & 0x00FF` and `opcode & 0x0FFF`, written with division and remainder. */
  function FieldX(op: uint16): (x: Reg) { (op / 0x100) % 0x10 }
  function FieldY(op: uint16): (y: Reg) { (op / 0x10) % 0x10 }
  function FieldN(op: uint16): (n: nibble) { op % 0x10 }
  function FieldKK(op: uint16): (kk: byte) { op % 0x100 }
  function FieldNNN(op: uint16): (nnn: addr12) { op % 0x1000 }

  /** The two-level dispatch of `emulateCycle`. */
  function Decode(op: uint16): (ins: Instr)
    ensures ins.Unknown? ==> ins.op == op
    ensures ins.Unknown? || Nameable(ins)
  {
    Dispatch(op / 0x1000, FieldX(op), FieldY(op), FieldN(op), FieldKK(op), FieldNNN(op), op)
  }

  /** The outer switch of `emulateCycle`, on the family nibble `f` of `op`. */
  function Dispatch(f: nibble, x: Reg, y: Reg, n: nibble, kk: byte, nnn: addr12, op: uint16): (ins: Instr)
  {
    match f
    case 0x0 => DispatchSystem(n, op)
    case 0x1 => Jump(nnn)
    case 0x2 => Call(nnn)
    case 0x3 => SkipEqImm(x, kk)
    case 0x4 => SkipNeImm(x, kk)
    case 0x5 => SkipEqReg(x, y)
    case 0x6 => LoadImm(x, kk)
    case 0x7 => AddImm(x, kk)
    case 0x8 => DispatchAlu(x, y, n, op)
    case 0x9 => SkipNeReg(x, y)
    case 0xA => LoadIndex(nnn)
    case 0xB => JumpOffset(nnn)
    case 0xC => Random(x, kk)
    case 0xD => Draw(x, y, n)
    case 0xE => DispatchKeys(x, kk, op)
    case _ => DispatchMisc(x, kk, op)
  }

  /** Family 0x0, switched on the low nibble only. */
  function DispatchSystem(n: nibble, op: uint16): (ins: Instr)
  {
    if n == 0x0 then ClearScreen
    else if n == 0xE then Return
    else Unknown(op)
  }

  /** Family 0x8, switched on the low nibble. */
  function DispatchAlu(x: Reg, y: Reg, n: nibble, op: uint16): (ins: Instr)
  {
    match n
    case 0x0 => Move(x, y)
    case 0x1 => Or(x, y)
    case 0x2 => And(x, y)
    case 0x3 => Xor(x, y)
    case 0x4 => AddReg(x, y)
    case 0x5 => SubReg(x, y)
    case 0x6 => ShiftRight(x, y)
    case 0x7 => SubRev(x, y)
    case 0xE => ShiftLeft(x, y)
    case _ => Unknown(op)
  }

  /** Family 0xE, switched on the low byte. */
  function DispatchKeys(x: Reg, kk: byte, op: uint16): (ins: Instr)
  {
    if kk == 0x9E then SkipKey(x)
    else if kk == 0xA1 then SkipNoKey(x)
    else Unknown(op)
  }

  /** Family 0xF, switched on the low byte. */
  function DispatchMisc(x: Reg, kk: byte, op: uint16): (ins: Instr)
  {
    match kk
    case 0x07 => LoadDelay(x)
    case 0x0A => WaitKey(x)
    case 0x15 => SetDelay(x)
    case 0x18 => SetSound(x)
    case 0x20 => Unassigned(x, kk)
    case 0x1E => AddIndex(x)
    case 0x29 => FontChar(x)
    case 0x33 => StoreBcd(x)
    case 0x55 => StoreRegs(x)
    case 0x65 => LoadRegs(x)
    case 0x90 => Unassigned(x, kk)
    case _ => Unknown(op)
  }

  /** A four-nibble opcode `fxyn`. */
  function Word(f: nibble, x: nibble, y: nibble, n: nibble): (op: uint16)
  {
    f * 0x1000 + x * 0x100 + y * 0x10 + n
  }

  /** The four nibbles `fxyn` of the canonical opcode of an instruction, in the
      conventional encoding (`00E0`, `00EE`, `5xy0`, `9xy0`). */
  function Nibbles(ins: Instr): (fxyn: (nibble, nibble, nibble, nibble))
    requires !ins.Unknown?
  {
    match ins
    case ClearScreen => (0x0, 0x0, 0xE, 0x0)
    case Return => (0x0, 0x0, 0xE, 0xE)
    case Jump(nnn) => (0x1, nnn / 0x100, nnn % 0x100 / 0x10, nnn % 0x100 % 0x10)
    case Call(nnn) => (0x2, nnn / 0x100, nnn % 0x100 / 0x10, nnn % 0x100 % 0x10)
    case SkipEqImm(x, kk) => (0x3, x, kk / 0x10, kk % 0x10)
    case SkipNeImm(x, kk) => (0x4, x, kk / 0x10, kk % 0x10)
    case SkipEqReg(x, y) => (0x5, x, y, 0x0)
    case LoadImm(x, kk) => (0x6, x, kk / 0x10, kk % 0x10)
    case AddImm(x, kk) => (0x7, x, kk / 0x10, kk % 0x10)
    case Move(x, y) => (0x8, x, y, 0x0)
    case Or(x, y) => (0x8, x, y, 0x1)
    case And(x, y) => (0x8, x, y, 0x2)
    case Xor(x, y) => (0x8, x, y, 0x3)
    case AddReg(x, y) => (0x8, x, y, 0x4)
    case SubReg(x, y) => (0x8, x, y, 0x5)
    case ShiftRight(x, y) => (0x8, x, y, 0x6)
    case SubRev(x, y) => (0x8, x, y, 0x7)
    case ShiftLeft(x, y) => (0x8, x, y, 0xE)
    case SkipNeReg(x, y) => (0x9, x, y, 0x0)
    case LoadIndex(nnn) => (0xA, nnn / 0x100, nnn % 0x100 / 0x10, nnn % 0x100 % 0x10)
    case JumpOffset(nnn) => (0xB, nnn / 0x100, nnn % 0x100 / 0x10, nnn % 0x100 % 0x10)
    case Random(x, kk) => (0xC, x, kk / 0x10, kk % 0x10)
    case Draw(x, y, n) => (0xD, x, y, n)
    case SkipKey(x) => (0xE, x, 0x9, 0xE)
    case SkipNoKey(x) => (0xE, x, 0xA, 0x1)
    case LoadDelay(x) => (0xF, x, 0x0, 0x7)
    case WaitKey(x) => (0xF, x, 0x0, 0xA)
    case SetDelay(x) => (0xF, x, 0x1, 0x5)
    case SetSound(x) => (0xF, x, 0x1, 0x8)
    case Unassigned(x, kk) => (0xF, x, kk / 0x10, kk % 0x10)
    case AddIndex(x) => (0xF, x, 0x1, 0xE)
    case FontChar(x) => (0xF, x, 0x2, 0x9)
    case StoreBcd(x) => (0xF, x, 0x3, 0x3)
    case StoreRegs(x) => (0xF, x, 0x5, 0x5)
    case LoadRegs(x) => (0xF, x, 0x6, 0x5)
  }

  /** The canonical opcode of an instruction; an unknown opcode stands for itself. */
  function Encode(ins: Instr): (op: uint16)
  {
    if ins.Unknown? then ins.op
    else
      var (f, x, y, n) := Nibbles(ins);
      Word(f, x, y, n)
  }

  /** Instructions that `Encode` can name: every one but `Unknown`, and `Unassigned` only
      for the two low bytes that reach it. */
  predicate Nameable(ins: Instr)
  {
    !ins.Unknown? && (ins.Unassigned? ==> ins.kk == 0x20 || ins.kk == 0x90)
  }

  /** Reading the fields back out of a four-nibble opcode. */
  lemma WordFields(f: nibble, x: nibble, y: nibble, n: nibble)
    ensures Word(f, x, y, n) / 0x1000 == f
    ensures FieldX(Word(f, x, y, n)) == x
    ensures FieldY(Word(f, x, y, n)) == y
    ensures FieldN(Word(f, x, y, n)) == n
    ensures FieldKK(Word(f, x, y, n)) == y * 0x10 + n
    ensures FieldNNN(Word(f, x, y, n)) == x * 0x100 + y * 0x10 + n
  {
    var w := Word(f, x, y, n);
    var low := x * 0x100 + y * 0x10 + n;
    assert w == f * 0x1000 + low && 0 <= low < 0x1000;
    assert w / 0x1000 == f && w % 0x1000 == low;
    assert w / 0x100 == f * 0x10 + x && w % 0x100 == y * 0x10 + n;
    assert w / 0x10 == f * 0x100 + x * 0x10 + y && w % 0x10 == n;
  }

  /** Decoding a four-nibble opcode is the dispatch on its four nibbles. */
  lemma DecodeWord(f: nibble, x: nibble, y: nibble, n: nibble)
    ensures Decode(Word(f, x, y, n))
      == Dispatch(f, x, y, n, y * 0x10 + n, x * 0x100 + y * 0x10 + n, Word(f, x, y, n))
  {
    WordFields(f, x, y, n);
  }

  /** Decoding the canonical opcode of an instruction gives that instruction back. */
  lemma DecodeEncode(ins: Instr)
    requires Nameable(ins)
    ensures Decode(Encode(ins)) == ins
  {
    var (f, x, y, n) := Nibbles(ins);
    DecodeWord(f, x, y, n);
    DispatchNibbles(ins);
  }

  /** The dispatch, applied to the nibbles of an instruction, selects that instruction. */
  predicate Redispatches(ins: Instr)
    requires !ins.Unknown?
  {
    var (f, x, y, n) := Nibbles(ins);
    Dispatch(f, x, y, n, y * 0x10 + n, x * 0x100 + y * 0x10 + n, Word(f, x, y, n)) == ins
  }

  lemma DispatchNibbles(ins: Instr)
    requires Nameable(ins)
    ensures Redispatches(ins)
  {
    if ins.Jump? || ins.Call? || ins.LoadIndex? || ins.JumpOffset? {
      AddressNibbles(ins);
    } else if ins.Unassigned? || ins.LoadDelay? || ins.WaitKey? || ins.SetDelay? || ins.SetSound?
      || ins.AddIndex? || ins.FontChar? || ins.StoreBcd? || ins.StoreRegs? || ins.LoadRegs? {
      MiscNibbles(ins);
    } else if ins.Move? || ins.Or? || ins.And? || ins.Xor? || ins.AddReg? || ins.SubReg?
      || ins.ShiftRight? || ins.SubRev? || ins.ShiftLeft? {
      AluNibbles(ins);
    } else {
      OtherNibbles(ins);
    }
  }

  lemma AddressNibbles(ins: Instr)
    requires ins.Jump? || ins.Call? || ins.LoadIndex? || ins.JumpOffset?
    ensures Redispatches(ins)
  {
    var nnn := ins.nnn;
    assert nnn == nnn / 0x100 * 0x100 + nnn % 0x100 / 0x10 * 0x10 + nnn % 0x100 % 0x10;
  }

  lemma MiscNibbles(ins: Instr)
    requires ins.Unassigned? ==> ins.kk == 0x20 || ins.kk == 0x90
    requires ins.Unassigned? || ins.LoadDelay? || ins.WaitKey? || ins.SetDelay? || ins.SetSound?
      || ins.AddIndex? || ins.FontChar? || ins.StoreBcd? || ins.StoreRegs? || ins.LoadRegs?
    ensures Redispatches(ins)
  {
  }

  lemma AluNibbles(ins: Instr)
    requires ins.Move? || ins.Or? || ins.And? || ins.Xor? || ins.AddReg? || ins.SubReg?
      || ins.ShiftRight? || ins.SubRev? || ins.ShiftLeft?
    ensures Redispatches(ins)
  {
  }

  lemma OtherNibbles(ins: Instr)
    requires ins.ClearScreen? || ins.Return? || ins.SkipEqImm? || ins.SkipNeImm? || ins.SkipEqReg?
      || ins.LoadImm? || ins.AddImm? || ins.SkipNeReg? || ins.Random? || ins.Draw?
      || ins.SkipKey? || ins.SkipNoKey?
    ensures Redispatches(ins)
  {
  }

  /** Family 0 is split on the low nibble alone: every `0nn0` clears the screen and every
      `0nnE` returns, whatever the middle byte; any other low nibble is unknown. */
  lemma FamilyZero(op: uint16)
    requires op < 0x1000
    ensures op % 0x10 == 0x0 <==> Decode(op) == ClearScreen
    ensures op % 0x10 == 0xE <==> Decode(op) == Return
    ensures op % 0x10 != 0x0 && op % 0x10 != 0xE <==> Decode(op) == Unknown(op)
  {
  }

  /** An opcode is the word of its four fields. */
  lemma FieldsWord(op: uint16)
    ensures op == Word(op / 0x1000, FieldX(op), FieldY(op), FieldN(op))
  {
    var c, r := op / 0x100, op % 0x100;
    assert op == 0x100 * c + r;
    assert op == 0x10 * (0x10 * c + r / 0x10) + r % 0x10;
    assert op / 0x10 == 0x10 * c + r / 0x10 && op % 0x10 == r % 0x10;
    assert FieldY(op) == r / 0x10;
    assert c == 0x10 * (op / 0x1000) + FieldX(op);
  }

  /** Outside family 0 and the register skips, whose decoding drops fields of the opcode,
      every opcode that decodes to an instruction is that instruction's canonical word. */
  lemma EncodeDecode(op: uint16)
    requires !Decode(op).Unknown? && op / 0x1000 != 0 && op / 0x1000 != 5 && op / 0x1000 != 9
    ensures Encode(Decode(op)) == op
  {
    var f, x, y, n := op / 0x1000, FieldX(op), FieldY(op), FieldN(op);
    FieldsWord(op);
    DecodeWord(f, x, y, n);
    EncodeDispatch(f, x, y, n);
  }

  /** `EncodeDecode` on the dispatch of four fields, family by family. */
  lemma EncodeDispatch(f: nibble, x: nibble, y: nibble, n: nibble)
    requires f != 0 && f != 5 && f != 9
    requires !Dispatch(f, x, y, n, y * 0x10 + n, x * 0x100 + y * 0x10 + n, Word(f, x, y, n)).Unknown?
    ensures Encode(Dispatch(f, x, y, n, y * 0x10 + n, x * 0x100 + y * 0x10 + n, Word(f, x, y, n)))
      == Word(f, x, y, n)
  {
    var kk, nnn := y * 0x10 + n, x * 0x100 + y * 0x10 + n;
    SplitFields(x, y, n);
    var ins := Dispatch(f, x, y, n, kk, nnn, Word(f, x, y, n));
    if f == 0x8 {
      assert ins == DispatchAlu(x, y, n, Word(f, x, y, n));
    } else if f == 0xE {
      assert ins == DispatchKeys(x, kk, Word(f, x, y, n));
    } else if f == 0xF {
      assert ins == DispatchMisc(x, kk, Word(f, x, y, n));
      assert Nibbles(ins) == (f, x, y, n);
    } else {
      assert Nibbles(ins) == (f, x, y, n);
    }
  }

  /** The nibbles of a 12-bit address and of a byte built from fields are those fields. */
  lemma SplitFields(x: nibble, y: nibble, n: nibble)
    ensures (x * 0x100 + y * 0x10 + n) / 0x100 == x
    ensures (x * 0x100 + y * 0x10 + n) % 0x100 / 0x10 == y
    ensures (x * 0x100 + y * 0x10 + n) % 0x100 % 0x10 == n
    ensures (y * 0x10 + n) / 0x10 == y && (y * 0x10 + n) % 0x10 == n
  {
  }

  /** `5xyn` and `9xyn` ignore their low nibble: they decode as `5xy0` and `9xy0`. */
  lemma RegisterSkipsIgnoreLowNibble(op: uint16)
    requires op / 0x1000 == 0x5 || op / 0x1000 == 0x9
    ensures Decode(op) == Decode(op - op % 0x10)
  {
    var f, x, y, n := op / 0x1000, FieldX(op), FieldY(op), FieldN(op);
    FieldsWord(op);
    assert op - op % 0x10 == Word(f, x, y, 0);
    DecodeWord(f, x, y, n);
    DecodeWord(f, x, y, 0);
  }
}
