# CHIP-8 interpreter core, modelled in Dafny

This project models the virtual machine of a small CHIP-8 interpreter written in Go (`main.go`). It covers:

- the machine's global state: 4 KiB of memory, sixteen byte registers V0..VF, the index register I, the program counter, a 32x64 monochrome screen, a draw flag, the delay and sound timers, a sixteen-slot call stack with its pointer, and sixteen keys;
- start-up, which places the font and puts pc at 0x200;
- copying a program image in at 0x200;
- `keyPress`;
- one call of `emulateCycle`: fetch, decode, execute, timer tick.

The model has two layers.

- **Value semantics** (`machine.dfy`, `instructions.dfy`):
  - a `State` datatype;
  - `Decode` from opcodes to an `Instr` datatype;
  - one effect function per group of instructions;
  - `Step`, which gives the `Cycle` (outcome and next state) of one `emulateCycle`.

  Where the Go code would panic on an index out of range, `Step` reports `Halted(fault)`. The fault names the cause. A Fx0A that finds no key down makes `emulateCycle` return before the timers tick; this is the outcome `AwaitingKey`. The byte `rand.Intn(256)` is a parameter `rnd`.
- **Imperative machine** (`emulator.dfy`): a class `Chip8` whose fields are the Go globals, held as arrays and scalars. Its methods update the fields in place with the same loops as the source (clear screen, sprite drawing, Fx0A key scan, Fx55/Fx65 register copies, font and program loading). Each method is proved to produce `Snapshot()` equal to the value semantics applied to `old(Snapshot())`. For example, `EmulateCycle(rnd)` returns `Step(old(Snapshot()), rnd).outcome` and leaves `Step(...).next`.

`properties.dfy` proves, instruction by instruction, what a cycle does to the state.

Where the code and its comments (or the usual CHIP-8 conventions) disagree, the model follows the code:

- Family 0 is decoded on its low nibble only. Any `0nn0` clears the screen and any `0nnE` returns. The clear does not set the draw flag.
- 8xy5 and 8xy7 set VF to 1 when the subtraction borrows. The usual convention is the opposite (NOT borrow).
- 8xy4 clears VF before testing the carry. With x = F the carry test never fires and VF ends up equal to Vy.
- Sprites do not wrap at the grid edge. The coordinates are byte sums that wrap modulo 256, so a set bit whose row or column, taken modulo 256, is past row 31 or column 63 indexes past the screen and panics.
- Fx15 loads the delay timer with `x * 256`, the opcode field shifted, not with Vx.
- Fx29 computes `Vx * 5` in byte arithmetic.
- Fx33 stores `Vx / 100`, `((Vx & 0xF0) / 10) % 10` and `((Vx & 0x0F) % 100) / 10`. These are not the tens and units digits that its comment describes: 156 is stored as 1, 4, 1.
- Fx55 stores all sixteen registers whatever x is. Fx65 loads only V0..V(x-1).
- An unrecognised opcode is reported and pc stays where it is, so the next cycle fetches it again. Fx20 and Fx90 are reported too, but they do advance pc by 2.

## Model

| member | source | states |
|---|---|---|
| Instructions.DecodeEncode | main.go:303-607 | decoding the canonical opcode of any nameable instruction gives that instruction back, so every instruction the switch recognises has an opcode that reaches it |
| Instructions.EncodeDecode | main.go:303-607 | outside family 0 and the 5xy0/9xy0 skips, which ignore some bits, every opcode the switch recognises is the canonical opcode of the instruction it decodes to |
| Instructions.FamilyZero | main.go:304-329 | in family 0, the opcode clears the screen iff its low nibble is 0, returns iff it is E, and is unknown otherwise, whatever the middle byte |
| Instructions.RegisterSkipsIgnoreLowNibble | main.go:356-363 | 5xyn and 9xyn decode the same as 5xy0 and 9xy0: the low nibble is not looked at |
| Instructions.FieldsWord | main.go:342-591 | the four fields the switch masks out of an opcode (family, x, y, n) rebuild the opcode as a big-endian word |
| Instructions.Decode | main.go:303-607 | an opcode the switch does not recognise is reported as itself; every recognised one is an instruction that has a canonical opcode (Fx20/Fx90 only with those low bytes) |
| Machine.Initial | main.go:94-108 | the start state is well formed, has pc = 0x200, I = 0, sp = 0, the 80-byte font at memory[0..80) and zeros elsewhere in memory, all registers, stack slots and timers 0, every pixel and key off, and the draw flag clear |
| Machine.Load | main.go:123-138 | the program image lands byte for byte at 0x200 and the rest of memory is unchanged |
| Machine.HighestPressed | main.go:530-535 | the scan finds a key iff one is down, and the one it finds is down with no higher-numbered key down |
| Machine.ControlEffect | main.go:304-363 | jumps, calls, returns, skips and unrecognised opcodes keep the state well formed, leave the keys and timers alone, and never block |
| Machine.SkipEffect | main.go:340-363 | the skips keep the state well formed, leave keys and timers alone, and never block |
| Machine.Alu | main.go:375-446 | 8xyn changes at most Vx and VF, and 8xy0..8xy3 leave VF alone unless x is F |
| Machine.RegisterEffect | main.go:364-474 | register, index and timer instructions keep the state well formed, change a timer only for Fx15/Fx18, and block exactly on Fx0A with no key down |
| Machine.TimerEffect | main.go:521-550 | Fx07/Fx0A/Fx15/Fx18 never fault and block exactly when Fx0A finds no key down |
| Machine.MemoryEffect | main.go:570-593 | Fx33/Fx55/Fx65 keep the state well formed and leave keys and timers alone |
| Machine.BcdBytes | main.go:575-578 | the three Fx33 bytes are Vx/100, the tens digit of Vx with its low nibble cleared, and 1 or 0 as the low nibble of Vx is at least 10 or not |
| Machine.DrawFault | main.go:480-487 | a draw can only fault by a pixel off the grid or a sprite row past memory, and reports the latter only when I + n exceeds memory |
| Machine.DrawnScreen | main.go:480-490 | a pixel that no set sprite bit lands on keeps its value |
| Machine.DrawEffect | main.go:475-493 | a draw keeps the state well formed and leaves keys and timers alone |
| Machine.Execute | main.go:303-607 | any instruction keeps the state well formed, never changes the keys, changes a timer only through Fx15/Fx18, and blocks exactly on Fx0A with no key down |
| Machine.Tick | main.go:608-619 | a tick never raises a timer, leaves a timer at 0 iff it was at most 1, and changes nothing else |
| Machine.Opcode | main.go:298 | the fetched word's high byte is memory[pc] and its low byte memory[pc+1] |
| Machine.Current | main.go:298-303 | the fetch fails iff pc is 4095 or above; otherwise the instruction is unknown or has a canonical opcode |
| Machine.Step | main.go:296-620 | one cycle keeps the state well formed and the keys unchanged; a fault or a key wait leaves the state as it was |
| Properties.ControlCycle | main.go:296-363 | a cycle of a control instruction is its control effect followed by the tick |
| Properties.AluCycle | main.go:375-446 | a cycle of 8xyn sets the registers to the ALU result, advances pc by 2, then ticks |
| Properties.TimerCycle | main.go:519-550 | a cycle of Fx07/Fx0A/Fx15/Fx18 is its timer effect followed by the tick |
| Properties.RegisterCycle | main.go:364-569 | a cycle of 6xkk/7xkk/Annn/Cxkk/Fx1E/Fx29 is its register effect followed by the tick |
| Properties.MemoryCycle | main.go:570-593 | a cycle of Fx33/Fx55/Fx65 is its memory effect followed by the tick |
| Properties.DrawCycle | main.go:475-493 | a cycle of Dxyn is its draw effect followed by the tick |
| Properties.FetchPastMemory | main.go:298 | with pc at 4095 or above, the fetch faults and the state is unchanged |
| Properties.TickCountsDown | main.go:608-619 | each running timer loses one per cycle and stops at zero; nothing else changes |
| Properties.CycleTicksTimers | main.go:608-619 | every completed cycle other than Fx15/Fx18 ticks both timers once and beeps iff the sound timer was 1 |
| Properties.SetDelayUsesOpcodeField | main.go:541-545 | Fx15 loads the delay timer with x*256, not Vx, and advances pc; the next state is exactly the tick of that state, so the delay timer ends at x*256 - 1 (0 for x = 0) |
| Properties.SetSoundFromRegister | main.go:546-550 | Fx18 loads the sound timer with Vx and advances pc; the next state is exactly the tick of that state, and the cycle beeps iff Vx is 1 |
| Properties.LoadDelayLowByte | main.go:521-526 | Fx07 puts the low byte of the delay timer in Vx, advances pc by 2, and changes nothing else |
| Properties.WaitKeyBlocks | main.go:527-540 | Fx0A with no key down returns early: pc, registers and timers all stay |
| Properties.WaitKeyTakesHighest | main.go:527-540 | Fx0A with a key down puts the highest-numbered pressed key in Vx and advances pc |
| Properties.AddRegCarry | main.go:397-405 | for x, y ≠ F, 8xy4 gives Vx the byte sum and sets VF to 1 iff the sum exceeds 255 |
| Properties.AddRegIntoFlag | main.go:397-405 | 8Fy4 leaves VF equal to Vy (0 for 8FF4), whatever it held, since VF is cleared before the test |
| Properties.AddRegFromFlag | main.go:397-405 | 8xF4 (x ≠ F) adds the just-cleared VF: Vx is unchanged and VF ends 0 |
| Properties.SubRegBorrow | main.go:406-415 | for x, y ≠ F, 8xy5 gives Vx the byte difference and sets VF to 1 iff Vx < Vy |
| Properties.SubRevBorrow | main.go:424-433 | for x, y ≠ F, 8xy7 gives Vx = Vy - Vx mod 256 and sets VF to 1 iff Vy < Vx |
| Properties.SubRegWithFlag | main.go:406-415 | with F as an operand, the borrow flag b is written first: 8xF5 leaves Vx - b in Vx and b in VF, 8Fy5 leaves b - Vy in VF, 8FF5 leaves 0 |
| Properties.SubRevWithFlag | main.go:424-433 | with F as an operand, the flag b is written first: 8xF7 leaves b - Vx in Vx and b in VF, 8Fy7 leaves Vy - b in VF, 8FF7 leaves 0 |
| Properties.ShiftRightBit | main.go:416-423 | for x ≠ F, 8xy6 halves Vx, VF gets the bit shifted out, and 2*Vx' + VF equals the old Vx |
| Properties.ShiftRightFlag | main.go:416-423 | 8Fy6 leaves VF at 0: the low bit it gets is halved away |
| Properties.ShiftLeftBit | main.go:434-441 | for x ≠ F, 8xyE doubles Vx mod 256, VF gets the top bit, and VF*256 + Vx' equals twice the old Vx |
| Properties.ShiftLeftFlag | main.go:434-441 | 8FyE leaves VF at twice its old top bit, 0 or 2 |
| Properties.LogicKeepsFlag | main.go:377-396 | 8xy0..8xy3 change only Vx; 8xy0 copies Vy |
| Properties.AddImmNoCarry | main.go:370-374 | 7xkk adds kk to Vx mod 256, leaves VF and every other register alone, and advances pc |
| Properties.RandomMasked | main.go:464-468 | Cxkk sets each bit of Vx iff it is set in both the random byte and kk, so Vx is at most either (0 for kk = 0, the byte itself for kk = 0xFF); nothing but Vx and pc changes |
| Properties.AddIndexOverflow | main.go:555-564 | for x ≠ F, Fx1E adds Vx to I with 16-bit wrap, sets VF to 1 iff the sum exceeds 0xFFF (else 0), advances pc by 2, and changes nothing but I, VF and pc |
| Properties.AddIndexFromFlag | main.go:555-564 | FF1E writes the overflow flag first, so I grows by that flag (0 or 1), not by the old VF; pc advances by 2 and nothing but I, VF and pc changes |
| Properties.FontCharAddress | main.go:565-569 | Fx29 sets I to 5*Vx mod 256 (the glyph of digit Vx below 16, a wrapped address such as 4 for Vx = 52), advances pc by 2, and changes nothing else |
| Properties.SkipImmediate | main.go:340-355 | 3xkk and 4xkk add 4 to pc on Vx == kk and on Vx != kk, 2 otherwise, and change nothing else |
| Properties.SkipRegister | main.go:356-363 | 5xy0 and 9xy0 add 4 to pc on Vx == Vy and on Vx != Vy, 2 otherwise |
| Properties.SkipOnKey | main.go:494-518 | Ex9E and ExA1 skip on key Vx down and up, and fault iff Vx names no key |
| Properties.UnknownStays | main.go:325-328 | an unrecognised opcode leaves pc unchanged; only the timers tick |
| Properties.UnassignedAdvances | main.go:551-554 | Fx20 (and Fx90) only advance pc by 2 |
| Properties.Jumps | main.go:330-332 | 1nnn sets pc to nnn; Bnnn sets it to nnn + V0 |
| Properties.CallPushes | main.go:335-338 | 2nnn faults iff the stack is full; otherwise it stores pc in the slot at sp, increments sp and jumps |
| Properties.ReturnPops | main.go:317-324 | 00EE faults iff the stack is empty; otherwise it decrements sp and resumes two bytes after the stored address |
| Properties.CallThenReturn | main.go:317-338 | a call followed by a return resumes right after the call with sp as before |
| Properties.StoreRegsWritesAll | main.go:581-587 | Fx55 faults iff I+16 exceeds memory; otherwise it writes all sixteen registers at I..I+15 and nothing else |
| Properties.LoadRegsReadsBelowX | main.go:588-594 | Fx65 loads V0..V(x-1) from memory at I, keeps Vx..VF, and faults iff those reads leave memory |
| Properties.StoreThenLoad | main.go:581-594 | Fx55 then Fx65 from the same I gives back every register |
| Properties.StoreBcdAsWritten | main.go:570-580 | Fx33 faults iff I+3 exceeds memory; otherwise it stores Vx/100 at I, the tens digit of Vx with its low nibble cleared at I+1, and 1 or 0 at I+2 as the low nibble of Vx is at least 10 or not (so 1, 4, 1 for 156); other memory, the registers and everything but pc stay |
| Properties.ClearScreenBlanks | main.go:306-316 | 00E0 turns every pixel off, advances pc by 2, and changes nothing else: the draw flag and the registers are kept |
| Properties.DrawFlipsSprite | main.go:480-490 | sprite bit (j, i) lands on pixel ((Vy + j) mod 256, (Vx + i) mod 256); when that pixel is on the grid, it flips iff the bit is set |
| Properties.DrawCollision | main.go:475-493 | a draw without a fault XORs the sprite into the screen, sets the draw flag, advances pc, sets VF to 1 iff some pixel went from on to off (else 0), and changes nothing else |
| Properties.RedrawErases | main.go:480-490 | drawing the same sprite twice at the same place restores the screen |
| Properties.DrawSucceeds | main.go:480-487 | a draw runs without a fault iff each of its n sprite rows lies in memory and has all its set bits on the grid |
| Properties.DrawPastEdgeFaults | main.go:484-487 | a set bit landing past the right or bottom edge makes the draw fault: no wrap at the grid edge (the coordinates are byte sums that wrap modulo 256) |
| Properties.DrawAtSixtyFaults | main.go:484-487 | the sprite 0xFF drawn at x = 60 faults instead of wrapping to columns 0..3 |
| Properties.LoadKeepsFont | main.go:106-138 | loading a program leaves the font at memory[0..80) |
| Emulator.Chip8.constructor | main.go:21-108 | the freshly set-up machine is the initial state |
| Emulator.Chip8.LoadFont | main.go:106-108 | the font loop puts the font at memory[0..80) and leaves the rest |
| Emulator.Chip8.LoadProgram | main.go:123-138 | the byte-by-byte copy leaves memory equal to the loaded image and changes nothing else |
| Emulator.Chip8.KeyPress | main.go:288-294 | only key k changes, to pressed or released |
| Emulator.Chip8.FramePresented | main.go:641 | only the draw flag changes, to false |
| Emulator.Chip8.ClearScreen | main.go:310-314 | the nested loop turns every pixel off |
| Emulator.Chip8.RunSkip | main.go:340-363 | the in-place skip gives the status and new state of the skip effect |
| Emulator.Chip8.RunReturn | main.go:317-324 | the in-place 00EE gives the status and new state of the return effect |
| Emulator.Chip8.RunCall | main.go:335-338 | the in-place 2nnn gives the status and new state of the call effect |
| Emulator.Chip8.RunControl | main.go:304-363 | the in-place control instructions match the control effect |
| Emulator.Chip8.RunAlu | main.go:375-446 | the in-place writes leave the registers equal to the ALU result |
| Emulator.Chip8.ScanKeys | main.go:527-535 | the scan reports a key iff one is down and leaves the highest pressed key in Vx, or the registers unchanged |
| Emulator.Chip8.RunTimer | main.go:521-550 | the in-place timer instructions match the timer effect; a key wait changes nothing |
| Emulator.Chip8.RunLoad | main.go:364-569 | the in-place 6xkk/7xkk/Annn/Cxkk/Fx1E/Fx29 match the register effect |
| Emulator.Chip8.RunRegister | main.go:364-569 | the in-place 6xkk, 7xkk, 8xyn, Annn, Cxkk, Fx07, Fx0A, Fx15, Fx18, Fx1E and Fx29 match the register effect; a blocked Fx0A leaves the state unchanged |
| Emulator.Chip8.RunStoreBcd | main.go:570-580 | the three checked writes match the Fx33 effect, including its fault |
| Emulator.Chip8.RunStoreRegs | main.go:581-587 | the copy loop matches the Fx55 effect, faulting at the first address past memory |
| Emulator.Chip8.RunLoadRegs | main.go:588-594 | the copy loop matches the Fx65 effect, faulting at the first address past memory |
| Emulator.Chip8.RunMemory | main.go:570-594 | the in-place memory instructions match the memory effect |
| Emulator.Chip8.PaintPixel | main.go:484-487 | one set bit sets VF if its pixel is on, then flips the pixel |
| Emulator.Chip8.DrawRow | main.go:482-489 | the inner loop fails iff a set bit of the row leaves the grid, and otherwise draws the whole row |
| Emulator.Chip8.DrawSprite | main.go:480-490 | the outer loop reports exactly the fault of the draw effect, and otherwise draws all n rows with VF set on collision |
| Emulator.Chip8.RunDraw | main.go:475-493 | the in-place Dxyn gives the status and new state of the draw effect |
| Emulator.Chip8.RunInstruction | main.go:303-607 | executing in place matches `Execute`, and a key wait changes nothing |
| Emulator.Chip8.TickTimers | main.go:608-619 | the timers tick as in `Tick`, and the beep is reported iff the sound timer was 1 |
| Emulator.Chip8.EmulateCycle | main.go:296-620 | one in-place cycle returns the outcome of `Step` and, unless it faulted, leaves its next state |

## Left out

- The SDL window, the `draw` renderer, the event loop that maps keyboard keys to `keyPress` and `sdl.Delay` are out of scope. Only the draw flag reset at the end of `draw` is modelled.
- Reading the program file is left out, including the error exits of `os.Open` and of the reader. The image is given as a byte sequence.
- Emulator.Chip8.LoadProgram: requires an image of at most 3584 bytes. A longer image makes the Go loop index past memory, and that panic is not modelled.
- Emulator.Chip8.KeyPress: requires a key number below 16. The event loop only passes 0..15, and the panic for larger numbers is not modelled.
- `rand.Intn(256)` is a parameter of the cycle rather than a random source.
- The messages printed for unrecognised opcodes and the printed `BEEP` are not modelled as output. The beep is the `beep` field of the cycle's outcome.
- The scratch global `opcode` is not kept in the state.
- `gfx` and `key` hold only 0 and 1 in the source and are booleans here.
- After a fault the Go process ends. The model only reports the fault: the imperative methods promise nothing about the state they leave. `Step` returns the state from before the cycle.
