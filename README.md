# CHIP-8 interpreter core, modelled in Dafny

This project models the interpreter engine of `rust-chip-8`, a CHIP-8
interpreter written in Rust, and proves properties of that model. The engine
has these parts:

- the instruction decoder (`Instruction`): the opcode, register indices and
  immediates of a 16-bit word;
- the 4096-byte main memory, with big-endian word reads;
- the call stack of return addresses;
- the 64 × 32 framebuffer;
- the 60 Hz countdown timer;
- the `Computer`, which builds the machine state, loads a program at 0x200
  and runs one fetch, advance and dispatch step per `update`.

Files and modules:

| file | module | form |
|---|---|---|
| `bytes.dfy` | `Bytes` | `u8` and `u16` as bounded integers; wrapping add and subtract; bitwise OR, AND and XOR defined bit by bit, with their laws |
| `instruction.dfy` | `InstructionDecoder` | the decoder, as pure functions on a datatype |
| `memory.dfy` | `MainMemory` | a class over an `array<u8>` |
| `stack.dfy` | `CallStack` | a class whose `seq<nat>` field `push` and `pop` reassign |
| `display.dfy` | `Framebuffer` | a class over an `array<u8>` |
| `timer.dfy` | `CountdownTimer` | a class whose `update` is a `while` loop |
| `semantics.dfy` | `Semantics` | one interpreter step as a function on a value `Machine`, and the lemmas about steps |
| `computer.dfy` | `Interpreter` | the `Computer` class and its opcode handlers |

Each method of `Computer` is proved to change the object exactly as the value
model says.
- `Update` ensures `State() == Step(old(State()), draw)`.
- Each handler ensures the state change of its opcode.
- The properties of a step are proved as lemmas about `Step` and `Execute`.

Masks are written as arithmetic.
- Masking a word and shifting it right is division by a power of two followed by a remainder.
- `FieldsAreMasks` proves the decoder's fields equal the source's `&`-and-`>>` expressions, with `&` taken bit by bit.
- A right shift by one is halving, and a left shift by one on a byte is doubling modulo 256.

The model follows the code as written. Where the code departs from the usual
CHIP-8 semantics, the model departs with it:

- Every word with opcode 0x0 clears the screen (`ClearScreenIgnoresLowBits`). 00EE therefore clears rather than returns.
- Every word with opcode 0xE pops the stack into the program counter (`ReturnOnOpcodeE`).
- 8xy4 is written with `&=`. It is an AND that sets no carry (`AddIsAnd`, `AddOfOneAndOneIsOne`).
- For 8xy5 and 8xy7, the source writes VF before Vx, so when x is 15 the difference wins.
- For 8xy6 and 8xyE, VF is written first and the shift then reads Vx again. When x is 15 it shifts the flag just written.
- 5xy0 and 9xy0 do not check their low nibble.
- The 0xF dispatch sends Fx33 to the handler the source names `op_fx29_binary_coded_decimal_conversion`.
- 8xy0, Fx07, Fx15, Fx18, Fx1E, Fx0A, Fx33, Fx55 and Fx65 are stubs that only print. Bnnn and Cxnn fall into the unknown-opcode arm (`StubsAndUnknownOnlyAdvance`).
- Fx29 scales Vx without reducing it to a digit, so a Vx of 16 or more points past the font (`GlyphAddress`).
- `Computer` holds no timer. The timer is modelled on its own, as `timer.rs` defines it.

## Model

| member | source | states |
|---|---|---|
| `Bytes.WrappingAdd` | src/computer.rs:306-310 | `u8::wrapping_add`: the sum when it fits, else the sum less 256 |
| `Bytes.WrappingSub` | src/computer.rs:185-197 | `u8::wrapping_sub`: the difference when not negative, else the difference plus 256 |
| `Bytes.WrappingSubAdd` | src/computer.rs:185-211 | wrapping subtraction and addition of the same byte undo each other, both ways round |
| `Bytes.Bits` | src/computer.rs:165-178 | a bitwise operator on the low `width` bits yields a value below 2^width |
| `Bytes.BitsCommute` | src/computer.rs:165-178 | OR, AND and XOR are symmetric in their operands, for every width |
| `Bytes.BitsOrCovers` | src/computer.rs:165-168 | OR never yields less than its first operand |
| `Bytes.BitsAndWithin` | src/computer.rs:170-173 | AND never yields more than its first operand |
| `Bytes.BitsSelf` | src/computer.rs:165-178 | a value OR or AND itself is the value; XOR itself is zero |
| `Bytes.BitsXorCancels` | src/computer.rs:175-178 | XOR with the same operand twice restores the first operand |
| `Bytes.BitsAndZero` | src/computer.rs:170-173 | AND with zero is zero |
| `Bytes.BitsAndPower` | src/computer.rs:213-229 | AND with a single bit 2^k keeps bit k of the other operand in place |
| `Bytes.BitsAndLowMask` | src/instruction.rs:31-43 | AND with a run of j low ones is the remainder modulo 2^j |
| `Bytes.BitsAndMask` | src/instruction.rs:12-25 | AND with j ones from bit k keeps those bits in place; divided by 2^k, they are bits k..k+j-1 as a number |
| `Bytes.BitAndOne` | src/computer.rs:213-220 | `x & 0x1` on a byte is its parity |
| `Bytes.BitAndTop` | src/computer.rs:222-229 | `(x & 0x80) >> 7` on a byte is its top bit, `x / 128` |
| `Bytes.BitOr` | src/computer.rs:165-168 | the bitwise OR of two bytes is at least either operand |
| `Bytes.BitAnd` | src/computer.rs:170-173 | the bitwise AND of two bytes is at most either operand |
| `Bytes.BitXor` | src/computer.rs:175-178 | XOR-ing `b` into `a ^ b` once more gives back `a` |
| `Bytes.ByteOperators` | src/computer.rs:165-178 | the byte OR, AND and XOR of the 8xy1-8xy3 handlers satisfy the bounds, symmetry, self and cancellation laws |
| `InstructionDecoder.Instruction.OpCode` | src/instruction.rs:12-15 | the opcode is below 16 and the word lies in the 0x1000-block the opcode selects |
| `InstructionDecoder.Instruction.X` | src/instruction.rs:17-20 | the first register index is below 16 |
| `InstructionDecoder.Instruction.Y` | src/instruction.rs:22-25 | the second register index is below 16 |
| `InstructionDecoder.Instruction.XY` | src/instruction.rs:27-29 | the pair is `x` then `y`, and together they are the middle byte of the word |
| `InstructionDecoder.Instruction.N` | src/instruction.rs:31-34 | the low nibble is below 16 |
| `InstructionDecoder.Instruction.NN` | src/instruction.rs:36-39 | the byte operand is the y nibble and the low nibble together |
| `InstructionDecoder.Instruction.NNN` | src/instruction.rs:41-43 | the address operand is below 0x1000 |
| `InstructionDecoder.Reassemble` | src/instruction.rs:12-34 | opcode, x, y and n put back at their nibble positions give the word |
| `InstructionDecoder.FieldsNest` | src/instruction.rs:22-43 | nn is y and n together; nnn is x and nn together; nnn is the word without its opcode |
| `InstructionDecoder.NibblesDetermineWord` | src/instruction.rs:12-34 | two instructions with the same four nibbles are the same instruction |
| `InstructionDecoder.EncodeDecode` | src/instruction.rs:12-34 | four nibbles packed into a word decode back to themselves |
| `InstructionDecoder.FieldsAreMasks` | src/instruction.rs:12-43 | each field equals the source's mask-and-shift expression on the word |
| `MainMemory.FromBeBytes` | src/memory.rs:31-35 | `u16::from_be_bytes`: the high byte of the result is the first byte, the low byte the second |
| `MainMemory.Loaded` | src/memory.rs:14-18 | after loading, `data` sits at `start` and every byte outside the window is as before; the length is unchanged |
| `MainMemory.LoadedIdempotent` | src/memory.rs:14-18 | loading the same bytes twice is loading them once |
| `MainMemory.LoadedOwnBytes` | src/memory.rs:14-18 | loading the bytes memory already holds changes nothing |
| `MainMemory.LoadedWindow` | src/memory.rs:14-18 | every sub-window of the loaded range reads back as the same sub-window of `data` |
| `MainMemory.Memory.constructor` | src/memory.rs:7-12 | a new memory is 4096 zero bytes |
| `MainMemory.Memory.Load` | src/memory.rs:14-18 | `load` leaves memory as `Loaded` of the old contents; past the end is a precondition, since the slice panics |
| `MainMemory.Memory.ReadU8Array` | src/memory.rs:20-23 | every output byte is the memory byte at the same offset from `address` |
| `MainMemory.Memory.ReadU8` | src/memory.rs:25-29 | the result is the byte at `address` |
| `MainMemory.Memory.ReadU16` | src/memory.rs:31-35 | the high byte of the result is the byte at `address`, the low byte the next one |
| `MainMemory.Memory.WriteU8` | src/memory.rs:37-39 | exactly the byte at `address` changes, and it then reads back as `value` |
| `MainMemory.LoadThenRead` | src/memory.rs:14-29 | a byte read after a load is the loaded byte; memory outside the window is unchanged |
| `CallStack.Stack.constructor` | src/stack.rs:6-10 | a new stack is empty |
| `CallStack.Stack.Push` | src/stack.rs:12-14 | the value goes on top and nothing below changes |
| `CallStack.Stack.Pop` | src/stack.rs:16-18 | the top value is returned and removed; pushing it back gives the old stack; an empty stack is a precondition, since `unwrap` panics |
| `CallStack.PushThenPop` | src/stack.rs:12-18 | a push then a pop returns the pushed value and leaves the stack as it was |
| `Framebuffer.Blank` | src/display.rs:8 | the blank buffer has 64 × 32 cells |
| `Framebuffer.BlankIsUnique` | src/display.rs:8 | a buffer is the blank buffer exactly when it has 64 × 32 cells, all zero |
| `Framebuffer.Display.constructor` | src/display.rs:6-10 | a new display is blank |
| `Framebuffer.Display.Clear` | src/display.rs:12-14 | after `clear` the display is blank, whatever it held |
| `Framebuffer.ClearTwice` | src/display.rs:6-14 | clearing twice leaves the display blank, as `new` builds it |
| `CountdownTimer.Ticks` | src/timer.rs:25-27 | the number of whole 1/60 s ticks in the elapsed time: the unique k with k ticks ≤ elapsed < k + 1 ticks |
| `CountdownTimer.TicksUnique` | src/timer.rs:25-27 | any k with k ticks ≤ elapsed < k + 1 ticks is the tick count |
| `CountdownTimer.DecrementTimes` | src/timer.rs:27-33 | repeated passes never raise the count |
| `CountdownTimer.DecrementTimesSaturates` | src/timer.rs:27-33 | k passes leave `max(0, count - k)`: the count never wraps below zero |
| `CountdownTimer.DecrementTimesAdd` | src/timer.rs:27-33 | passes made in two batches equal the same passes made at once |
| `CountdownTimer.Advance` | src/timer.rs:22-34 | after an update less than one tick is left over, it is not negative when the elapsed sum is not, and the count has not grown |
| `CountdownTimer.AdvanceCount` | src/timer.rs:22-34 | an update takes one from the count per whole tick elapsed, stopping at zero |
| `CountdownTimer.AdvanceAccumulates` | src/timer.rs:22-34 | the leftover fraction carries over: updates by dt1 then dt2 equal one update by dt1 + dt2 |
| `CountdownTimer.SeededTimerRunsOut` | src/timer.rs:22-34 | a timer seeded at 10 reads 0 after one second and stays at 0 after any further update |
| `CountdownTimer.Timer.constructor` | src/timer.rs:7-12 | a new timer has count 0 and nothing elapsed |
| `CountdownTimer.Timer.SetCount` | src/timer.rs:14-16 | the count is replaced; the elapsed fraction is kept |
| `CountdownTimer.Timer.Count` | src/timer.rs:18-20 | `count` returns the count of the timer's state and changes nothing |
| `CountdownTimer.Timer.Update` | src/timer.rs:22-34 | the loop leaves the timer as `Advance` of its old state |
| `CountdownTimer.SetThenRead` | src/timer.rs:14-20 | `count` after `set_count(c)` reads c |
| `Semantics.BinaryOr` | src/computer.rs:165-168 | 8xy1: only Vx changes; it becomes at least both operands; x = y changes nothing |
| `Semantics.BinaryAnd` | src/computer.rs:170-173 | 8xy2: only Vx changes; it becomes at most both operands; x = y changes nothing |
| `Semantics.BinaryXor` | src/computer.rs:175-178 | 8xy3: only Vx changes; XOR with Vy again restores it; x = y clears it |
| `Semantics.XorTwiceRestores` | src/computer.rs:175-178 | for x ≠ y, applying 8xy3 twice restores the register file |
| `Semantics.Subtract` | src/computer.rs:185-197 | 8xy5: Vx becomes Vx − Vy modulo 256, and adding Vy back restores it; VF is 1 exactly when Vx > Vy, unless x is VF; nothing else changes |
| `Semantics.SubtractReversed` | src/computer.rs:199-211 | 8xy7: Vx becomes Vy − Vx modulo 256, and Vy minus it restores it; VF is 1 exactly when Vy > Vx, unless x is VF; nothing else changes |
| `Semantics.ShiftRight` | src/computer.rs:213-220 | 8xy6: VF gets the low bit and Vx is halved, so 2·Vx + VF is the old Vx; for x = VF the result is 0 |
| `Semantics.DoubleThenHalve` | src/computer.rs:222-229 | doubling a byte modulo 256 loses its top bit, and halving the result gives the low seven bits |
| `Semantics.ShiftLeft` | src/computer.rs:222-229 | 8xyE: VF gets the top bit and Vx is doubled modulo 256, so 128·VF + Vx/2 is the old Vx; for x = VF the result is twice the top bit |
| `Semantics.AddRegister` | src/computer.rs:306-310 | 7xnn: Vx becomes Vx + nn modulo 256, and subtracting nn back restores it; every other register, VF included, is unchanged |
| `Semantics.Initial` | src/computer.rs:46-58 | the state `new` builds is well formed |
| `Semantics.Execute8` | src/computer.rs:85-99 | the 0x8 dispatch keeps a 16-register file |
| `Semantics.GlyphAddress` | src/computer.rs:134-138 | the glyph address is a five-byte step from 0x50, and it lies inside the font exactly when the digit is below 16 |
| `Semantics.ExecuteF` | src/computer.rs:101-115 | the 0xF dispatch keeps the state well formed |
| `Semantics.Fetch` | src/computer.rs:68 | the fetched word has the byte at pc as its high byte and the next byte as its low byte |
| `Semantics.ExecuteD` | src/computer.rs:286-293 | Dxyn: the display becomes the sprite routine's frame and VF its byte, the routine given Vx, Vy, n, memory and I; no other register, nor pc, I, memory or the stack, changes |
| `Semantics.Execute` | src/computer.rs:72-119 | the dispatch keeps the state well formed |
| `Semantics.Step` | src/computer.rs:66-120 | one update keeps the state well formed |
| `Semantics.StubsAndUnknownOnlyAdvance` | src/computer.rs:85-163 | stubs and unknown opcodes, including Bnnn and Cxnn, change nothing but the advance of pc |
| `Semantics.UnknownWordFFFF` | src/computer.rs:101-115 | the word 0xFFFF can be stepped and only advances pc |
| `Semantics.StepKeepsMemory` | src/computer.rs:66-120 | no instruction writes memory |
| `Semantics.StepFrame` | src/computer.rs:66-120 | only 0x0 and 0xD touch the display, only 0x2 and 0xE the stack, only 0xA and 0xF the index register |
| `Semantics.Skips` | src/computer.rs:231-265 | 3xnn, 4xnn, 5xy0 and 9xy0 skip (pc + 4) exactly when their condition holds, else pc + 2, and change nothing else |
| `Semantics.SkipExample` | src/computer.rs:249-265 | with V0 = 5, 0x3005 skips and 0x4005 does not |
| `Semantics.JumpAndSetIndex` | src/computer.rs:281-298 | 1nnn sets pc to nnn; Annn sets I to nnn and advances pc; nothing else changes |
| `Semantics.ClearScreenIgnoresLowBits` | src/computer.rs:74 | every opcode-0x0 word clears the display, 00EE included, and changes nothing else |
| `Semantics.ReturnOnOpcodeE` | src/computer.rs:273-275 | every opcode-0xE word pops pc off the stack; registers and I are unchanged |
| `Semantics.CallPushesReturnAddress` | src/computer.rs:267-271 | 2nnn pushes the address after itself and jumps to nnn |
| `Semantics.FlatRunKeepsStack` | src/computer.rs:66-120 | a run of steps none of which has opcode 0x2 or 0xE ends with the stack it started with |
| `Semantics.CallThenReturn` | src/computer.rs:267-275 | a call, then any run of steps that neither call nor return, then an opcode-0xE word, comes back to the address after the call with the stack as before |
| `Semantics.SetThenAddZero` | src/computer.rs:300-310 | 6xnn then 7x00 leaves nn in Vx and the state of 6xnn alone |
| `Semantics.AddRegisterStep` | src/computer.rs:306-310 | 7xnn adds modulo 256 and changes no other register, not VF, and nothing outside them |
| `Semantics.AddIsAnd` | src/computer.rs:180-183 | 8xy4 has the effect of 8xy2 and does not touch VF |
| `Semantics.AddOfOneAndOneIsOne` | src/computer.rs:180-183 | 8014 with V0 = V1 = 1 leaves V0 at 1 |
| `Semantics.RegisterOpsFrame` | src/computer.rs:85-99 | every 0x8 instruction changes at most Vx and VF, and nothing outside the registers but pc |
| `Semantics.DisplayWritesFlag` | src/computer.rs:286-293 | a Dxyn step advances pc, shows the sprite routine's frame, writes its byte to VF, and changes nothing else |
| `Semantics.InitialState` | src/computer.rs:46-58 | after `new`: pc, I and the registers are 0, the stack is empty, the font is at 0x50 and all other memory is zero, and the display is blank |
| `Semantics.FontCharacter` | src/computer.rs:134-138 | Fx29 sets I to 0x50 + 5·Vx; for a digit below 16 that is inside the font and, with the initial memory, holds that digit's glyph |
| `Interpreter.Computer.constructor` | src/computer.rs:46-58 | a new computer's state is `Initial()` |
| `Interpreter.Computer.LoadProgram` | src/computer.rs:60-64 | the program is loaded at 0x200 and pc is set there; nothing else changes |
| `Interpreter.Computer.Update` | src/computer.rs:66-120 | one update changes the computer exactly as `Step` says |
| `Interpreter.Computer.DecodeAndExecute` | src/computer.rs:71-119 | the dispatch changes the computer exactly as `Execute` says |
| `Interpreter.Computer.Update8` | src/computer.rs:85-99 | the 0x8 dispatch changes the registers as `Execute8` says |
| `Interpreter.Computer.UpdateF` | src/computer.rs:101-115 | the 0xF dispatch changes the computer as `ExecuteF` says |
| `Interpreter.Computer.OpFx65LoadMemory` | src/computer.rs:122-124 | the Fx65 stub only prints: the state is unchanged |
| `Interpreter.Computer.OpFx55StoreMemory` | src/computer.rs:126-128 | the Fx55 stub only prints: the state is unchanged |
| `Interpreter.Computer.OpFx33BinaryCodedDecimalConversion` | src/computer.rs:130-132 | the Fx33 (`op_fx29_binary_coded_decimal_conversion`) stub only prints: the state is unchanged |
| `Interpreter.Computer.OpFx0AGetKeyboardInput` | src/computer.rs:140-142 | the Fx0A stub only prints: the state is unchanged |
| `Interpreter.Computer.OpFx1EIndexRegisterAdd` | src/computer.rs:144-146 | the Fx1E stub only prints: the state is unchanged |
| `Interpreter.Computer.OpFx07Timer` | src/computer.rs:148-150 | the Fx07 stub only prints: the state is unchanged |
| `Interpreter.Computer.OpFx15Timer` | src/computer.rs:152-154 | the Fx15 stub only prints: the state is unchanged |
| `Interpreter.Computer.OpFx18Timer` | src/computer.rs:157-159 | the Fx18 stub only prints: the state is unchanged |
| `Interpreter.Computer.Op8xy0Set` | src/computer.rs:161-163 | the 8xy0 stub only prints: the state is unchanged |
| `Interpreter.Computer.OpFx29FontCharacter` | src/computer.rs:134-138 | I becomes the glyph address of Vx |
| `Interpreter.Computer.Op8xy1BinaryOr` | src/computer.rs:165-168 | the registers change as `BinaryOr` says |
| `Interpreter.Computer.Op8xy2BinaryAnd` | src/computer.rs:170-173 | the registers change as `BinaryAnd` says |
| `Interpreter.Computer.Op8xy3BinaryXor` | src/computer.rs:175-178 | the registers change as `BinaryXor` says |
| `Interpreter.Computer.Op8xy4Add` | src/computer.rs:180-183 | the registers change as `BinaryAnd` says |
| `Interpreter.Computer.Op8xy5Subtract` | src/computer.rs:185-197 | the registers change as `Subtract` says |
| `Interpreter.Computer.Op8xy7Subtract` | src/computer.rs:199-211 | the registers change as `SubtractReversed` says |
| `Interpreter.Computer.Op8xy6Shift` | src/computer.rs:213-220 | the registers change as `ShiftRight` says |
| `Interpreter.Computer.Op8xyEShift` | src/computer.rs:222-229 | the registers change as `ShiftLeft` says |
| `Interpreter.Computer.Op5xy0SkipIfRegistersEqual` | src/computer.rs:231-238 | pc advances by 2 exactly when Vx = Vy; nothing else changes |
| `Interpreter.Computer.Op9xy0SkipIfRegistersNotEqual` | src/computer.rs:240-247 | pc advances by 2 exactly when Vx ≠ Vy; nothing else changes |
| `Interpreter.Computer.Op3xnnSkipIfEqual` | src/computer.rs:249-256 | pc advances by 2 exactly when Vx = nn; nothing else changes |
| `Interpreter.Computer.Op4xnnSkipIfNotEqual` | src/computer.rs:258-265 | pc advances by 2 exactly when Vx ≠ nn; nothing else changes |
| `Interpreter.Computer.Op2nnnCallSubroutine` | src/computer.rs:267-271 | pc is pushed and replaced by nnn; nothing else changes |
| `Interpreter.Computer.Op00EEReturnFromSubroutine` | src/computer.rs:273-275 | pc becomes the popped top of the stack; an empty stack is a precondition, since `pop` panics |
| `Interpreter.Computer.Op00E0ClearScreen` | src/computer.rs:277-279 | the display becomes blank; nothing else changes |
| `Interpreter.Computer.OpAnnnSetIndexRegister` | src/computer.rs:281-284 | I becomes nnn; nothing else changes |
| `Interpreter.Computer.OpDxynDisplay` | src/computer.rs:286-293 | the computer changes as `ExecuteD` says: the display takes the routine's frame and VF its byte |
| `Interpreter.Computer.Op1nnnJump` | src/computer.rs:295-298 | pc becomes nnn; nothing else changes |
| `Interpreter.Computer.Op6xnnSetRegister` | src/computer.rs:300-304 | Vx becomes nn; no other register changes |
| `Interpreter.Computer.Op7xnnAddRegister` | src/computer.rs:306-310 | the registers change as `AddRegister` says |
| `Interpreter.BootProgram` | src/computer.rs:46-64 | a new computer with a program loaded starts at 0x200 with an empty stack, I = 0, the program at 0x200 and the font at 0x50 |

## Left out

- `main.rs` and the SDL window, input and event loop are not part of this model. Neither is `Computer::draw`, which only forwards to the renderer.
- `OpDxynDisplay`: `display.rs` defines no sprite routine, so `xor_sprite` is not part of this model. It is the function parameter `draw` (`SpriteRoutine`), given the frame, Vx, Vy, n, memory and I, and returning the new frame and the byte for VF. What it draws, and that it only XORs pixels in, is not captured.
- `load_program_from_file` reads the file with `fs::read(path).unwrap()`. `LoadProgram` takes the file's bytes as a parameter, so a read error is not modelled.
- Output from `println!` is not modelled. This covers the "todo" stubs and the unknown-opcode arms; they change no state, and neither does the model.
- The timer keeps its elapsed time in an `f32`. The model uses exact reals, so `f32` rounding of `1.0 / 60.0` and of the running sum is not captured.
- `Computer` has no timers. The timer is modelled only on its own, with the interface `timer.rs` gives it.
- Panics become preconditions:
  - `Update` requires a fetch inside memory;
  - an opcode-0xE word requires a non-empty stack;
  - `Load` and `LoadProgram` require that the data fit.
- `usize` overflow of the program counter, index register and stack entries is not modelled (they are `nat`). A fetch past address 4094 already panics.
- `Memory.ReadU8Array` requires the output buffer to be distinct from memory. Rust's borrow rules guarantee this.
- `Instruction::new` is the datatype constructor. `OP_CODE_MASK` is declared but unused, as in the source.
- The bitwise operators are defined arithmetically, bit by bit. Right and left shifts of unsigned values are written as division and as multiplication modulo 256. `FieldsAreMasks`, `BitAndOne` and `BitAndTop` connect these forms to the source's `&` and `>>`. A `u8` shifted left by one is taken to be the byte doubled modulo 256; no lemma relates that to a shift at the bit level. `DoubleThenHalve` and the ensures of `ShiftLeft` show that only the top bit is lost.
- `DecodeAndExecute`, `Update8` and `UpdateF` are the three match levels of `update`, written as separate methods. The stub handlers are methods without a `modifies` clause; each ensures the state is unchanged.
