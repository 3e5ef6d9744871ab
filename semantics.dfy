/**
 * What one interpreter step does, on values.
 *
 * `Machine` is the whole interpreter state as plain values and `Step` is one
 * fetch, advance and dispatch, following `Computer::update` and its opcode
 * handlers as they are written (which differs from the CHIP-8 reference in
 * places: see the lemmas `ClearScreenIgnoresLowBits`, `ReturnOnOpcodeE`,
 * `AddIsAnd` and `StubsAndUnknownOnlyAdvance`). The class `Computer` in
 * module `Interpreter` is proved to change its fields exactly as `Step` says.
 */
module Semantics {
  import opened Bytes
  import opened InstructionDecoder
  import MainMemory
  import Framebuffer

  /** The built-in glyphs for the hex digits 0-F, five bytes each. */
  const FONT: seq<u8> := [
    0xF0, 0x90, 0x90, 0x90, 0xF0, // 0
    0x20, 0x60, 0x20, 0x20, 0x70, // 1
    0xF0, 0x10, 0xF0, 0x80, 0xF0, // 2
    0xF0, 0x10, 0xF0, 0x10, 0xF0, // 3
    0x90, 0x90, 0xF0, 0x10, 0x10, // 4
    0xF0, 0x80, 0xF0, 0x10, 0xF0, // 5
    0xF0, 0x80, 0xF0, 0x90, 0xF0, // 6
    0xF0, 0x10, 0x20, 0x40, 0x40, // 7
    0xF0, 0x90, 0xF0, 0x90, 0xF0, // 8
    0xF0, 0x90, 0xF0, 0x10, 0xF0, // 9
    0xF0, 0x90, 0xF0, 0x90, 0x90, // A
    0xE0, 0x90, 0xE0, 0x90, 0xE0, // B
    0xF0, 0x80, 0x80, 0x80, 0xF0, // C
    0xE0, 0x90, 0x90, 0x90, 0xE0, // D
    0xF0, 0x80, 0xF0, 0x80, 0xF0, // E
    0xF0, 0x80, 0xF0, 0x80, 0x80  // F
  ]

  /** Where the font is loaded. */
  const FONT_MEMORY_START: nat := 0x50

  /** Where programs are loaded and start. */
  const ROM_START: nat := 0x200

  /** Declared by the source next to the others; the decoder masks with the same literal. */
  const OP_CODE_MASK: u16 := 0xF000

  /** The flag register VF. */
  const FLAG: nat := 0xF

  /** Number of general registers. */
  const REGISTER_COUNT: nat := 16

  // ---------------------------------------------------------------------
  // The register-file updates of the 8xyN handlers, on a 16-entry file.

  predicate IsRegisterFile(v: seq<u8>) {
    |v| == REGISTER_COUNT
  }

  /** 1 when `b`, else 0: the value the handlers write to VF. */
  function Flag(b: bool): u8 {
    if b then 1 else 0
  }

  /** `op_8xy1_binary_or`: Vx |= Vy. */
  function BinaryOr(v: seq<u8>, x: nat, y: nat): (r: seq<u8>)
    requires IsRegisterFile(v) && x < 16 && y < 16
    ensures IsRegisterFile(r)
    ensures forall i :: 0 <= i < 16 && i != x ==> r[i] == v[i]
    ensures v[x] <= r[x] && v[y] <= r[x]
    ensures x == y ==> r == v
  {
    ByteOperators(v[x], v[y]);
    v[x := BitOr(v[x], v[y])]
  }

  /** `op_8xy2_binary_and`, and also `op_8xy4_add` as written: Vx &= Vy. */
  function BinaryAnd(v: seq<u8>, x: nat, y: nat): (r: seq<u8>)
    requires IsRegisterFile(v) && x < 16 && y < 16
    ensures IsRegisterFile(r)
    ensures forall i :: 0 <= i < 16 && i != x ==> r[i] == v[i]
    ensures r[x] <= v[x] && r[x] <= v[y]
    ensures x == y ==> r == v
  {
    ByteOperators(v[x], v[y]);
    v[x := BitAnd(v[x], v[y])]
  }

  /** `op_8xy3_binary_xor`: Vx ^= Vy; applying it twice restores Vx. */
  function BinaryXor(v: seq<u8>, x: nat, y: nat): (r: seq<u8>)
    requires IsRegisterFile(v) && x < 16 && y < 16
    ensures IsRegisterFile(r)
    ensures forall i :: 0 <= i < 16 && i != x ==> r[i] == v[i]
    ensures BitXor(r[x], v[y]) == v[x]
    ensures x == y ==> r[x] == 0
  {
    ByteOperators(v[x], v[y]);
    v[x := BitXor(v[x], v[y])]
  }

  /** For two different registers, 8xy3 twice gives back the register file it started from. */
  lemma XorTwiceRestores(v: seq<u8>, x: nat, y: nat)
    requires IsRegisterFile(v) && x < 16 && y < 16 && x != y
    ensures BinaryXor(BinaryXor(v, x, y), x, y) == v
  {
    var once := BinaryXor(v, x, y);
    assert once[y] == v[y];
  }

  /**
   * `op_8xy5_subtract`: VF := 1 when Vx > Vy (else 0), then
   * Vx := Vx - Vy modulo 256, both from the values read before either write,
   * so for x == 15 the difference replaces the flag. Adding Vy back gives
   * the old Vx.
   */
  function Subtract(v: seq<u8>, x: nat, y: nat): (r: seq<u8>)
    requires IsRegisterFile(v) && x < 16 && y < 16
    ensures IsRegisterFile(r)
    ensures forall i :: 0 <= i < 16 && i != x && i != FLAG ==> r[i] == v[i]
    ensures r[x] == (v[x] as int - v[y]) % 0x100
    ensures WrappingAdd(r[x], v[y]) == v[x]
    ensures x != FLAG ==> (r[FLAG] == 1 <==> v[x] > v[y]) && (r[FLAG] == 0 <==> v[x] <= v[y])
  {
    v[FLAG := Flag(v[x] > v[y])][x := WrappingSub(v[x], v[y])]
  }

  /**
   * `op_8xy7_subtract`: as `Subtract` with the operands the other way
   * round, Vx := Vy - Vx modulo 256 and VF := 1 exactly when Vy > Vx.
   */
  function SubtractReversed(v: seq<u8>, x: nat, y: nat): (r: seq<u8>)
    requires IsRegisterFile(v) && x < 16 && y < 16
    ensures IsRegisterFile(r)
    ensures forall i :: 0 <= i < 16 && i != x && i != FLAG ==> r[i] == v[i]
    ensures r[x] == (v[y] as int - v[x]) % 0x100
    ensures WrappingSub(v[y], r[x]) == v[x]
    ensures x != FLAG ==> (r[FLAG] == 1 <==> v[y] > v[x]) && (r[FLAG] == 0 <==> v[y] <= v[x])
  {
    v[FLAG := Flag(v[y] > v[x])][x := WrappingSub(v[y], v[x])]
  }

  /**
   * `op_8xy6_shift`: VF := Vx & 1, then Vx >>= 1. VF gets the bit shifted
   * out and Vx is halved, so twice the new Vx plus VF is the old Vx. The
   * shift reads Vx after the flag is written, so for x == 15 it shifts the
   * flag itself and leaves 0.
   */
  function ShiftRight(v: seq<u8>, x: nat): (r: seq<u8>)
    requires IsRegisterFile(v) && x < 16
    ensures IsRegisterFile(r)
    ensures forall i :: 0 <= i < 16 && i != x && i != FLAG ==> r[i] == v[i]
    ensures x != FLAG ==> r[FLAG] == v[x] % 2 && r[x] == v[x] / 2 && 2 * r[x] + r[FLAG] == v[x]
    ensures x == FLAG ==> r[FLAG] == 0
  {
    BitAndOne(v[x]);
    var flagged := v[FLAG := BitAnd(v[x], 0x1)];
    flagged[x := flagged[x] / 2]
  }

  /**
   * `op_8xye_shift`: VF := (Vx & 0x80) >> 7, then Vx <<= 1, the bit shifted
   * out of the byte lost. VF gets that top bit and Vx is doubled modulo 256,
   * so VF and half the new Vx make up the old Vx. For x == 15 the shift
   * doubles the flag just written.
   */
  function ShiftLeft(v: seq<u8>, x: nat): (r: seq<u8>)
    requires IsRegisterFile(v) && x < 16
    ensures IsRegisterFile(r)
    ensures forall i :: 0 <= i < 16 && i != x && i != FLAG ==> r[i] == v[i]
    ensures x != FLAG ==> r[FLAG] == v[x] / 0x80 && r[x] == (v[x] as int * 2) % 0x100 && r[FLAG] * 0x80 + r[x] / 2 == v[x]
    ensures x == FLAG ==> r[FLAG] == v[x] / 0x80 * 2
  {
    var top := BitAnd(v[x], 0x80) / 0x80;
    assert top == v[x] / 0x80 by {
      BitAndTop(v[x]);
    }
    DoubleThenHalve(v[x]);
    var flagged := v[FLAG := top];
    flagged[x := (flagged[x] as int * 2) % 0x100]
  }

  /** Doubling a byte modulo 256 loses its top bit; halving gives back the rest. */
  lemma DoubleThenHalve(a: u8)
    ensures (a as int * 2) % 0x100 / 2 == a % 0x80
    ensures a / 0x80 * 0x80 + a % 0x80 == a
  {
    DivisionUnique(a * 2, 0x100, a / 0x80, a % 0x80 * 2);
    DivisionUnique(a % 0x80 * 2, 2, a % 0x80, 0);
  }

  /**
   * `op_7xnn_add_register`: Vx := Vx + nn modulo 256, with no carry kept
   * anywhere; subtracting nn back gives the old Vx.
   */
  function AddRegister(v: seq<u8>, x: nat, nn: u8): (r: seq<u8>)
    requires IsRegisterFile(v) && x < 16
    ensures IsRegisterFile(r)
    ensures forall i :: 0 <= i < 16 && i != x ==> r[i] == v[i]
    ensures r[x] == (v[x] as int + nn) % 0x100 && WrappingSub(r[x], nn) == v[x]
  {
    v[x := WrappingAdd(v[x], nn)]
  }

  // ---------------------------------------------------------------------
  // The machine and one step of it.

  /** Program counter, index register, the 16 registers, memory, call stack and display. */
  datatype Machine = Machine(
    pc: nat,
    index: nat,
    registers: seq<u8>,
    memory: seq<u8>,
    stack: seq<nat>,
    display: seq<u8>)

  /** What the display's sprite routine hands back: the new frame and the byte for VF. */
  datatype Sprite = Sprite(frame: Framebuffer.Frame, vf: u8)

  /**
   * The sprite routine `xor_sprite`, which is not part of this model: given
   * the current frame, the position (Vx, Vy), the number of rows n, memory
   * and the index register, it returns the frame after drawing and the
   * byte written to VF.
   */
  type SpriteRoutine = (Framebuffer.Frame, u8, u8, u8, seq<u8>, nat) -> Sprite

  predicate WellFormed(m: Machine) {
    IsRegisterFile(m.registers) && |m.memory| == MainMemory.SIZE && |m.display| == Framebuffer.CELLS
  }

  /** The state `Computer::new` builds: the font at 0x50, everything else zero or empty. */
  function Initial(): (m: Machine)
    ensures WellFormed(m)
  {
    Machine(0, 0, seq(REGISTER_COUNT, _ => 0),
            MainMemory.Loaded(seq(MainMemory.SIZE, _ => 0), FONT_MEMORY_START, FONT),
            [], Framebuffer.Blank())
  }

  /** The instruction at `pc`: the big-endian word there, high byte first. */
  function Fetch(m: Machine): (r: Instruction)
    requires WellFormed(m) && m.pc + 2 <= MainMemory.SIZE
    ensures r.instruction / 0x100 == m.memory[m.pc] && r.instruction % 0x100 == m.memory[m.pc + 1]
  {
    Instruction(MainMemory.FromBeBytes(m.memory[m.pc], m.memory[m.pc + 1]))
  }

  /**
   * What `update` needs in order not to panic: the fetch must lie inside
   * memory, and an instruction with opcode 0xE pops, so the stack must not
   * be empty then.
   */
  predicate CanStep(m: Machine) {
    WellFormed(m) && m.pc + 2 <= MainMemory.SIZE &&
    (Fetch(m).OpCode() == 0xE ==> m.stack != [])
  }

  /** The 0x8 family, selected by the low nibble. */
  function Execute8(v: seq<u8>, ins: Instruction): (r: seq<u8>)
    requires IsRegisterFile(v)
    ensures IsRegisterFile(r)
  {
    var x, y := ins.X(), ins.Y();
    match ins.N()
    case 0x0 => v                    // op_8xy0_set is a stub
    case 0x1 => BinaryOr(v, x, y)
    case 0x2 => BinaryAnd(v, x, y)
    case 0x3 => BinaryXor(v, x, y)
    case 0x4 => BinaryAnd(v, x, y)   // op_8xy4_add as written
    case 0x5 => Subtract(v, x, y)
    case 0x6 => ShiftRight(v, x)
    case 0x7 => SubtractReversed(v, x, y)
    case 0xE => ShiftLeft(v, x)
    case _ => v                      // unknown: reported only
  }

  /**
   * Where the glyph of `digit` starts: each glyph is five bytes. The digit
   * is not reduced to its low nibble, so 16 and above point past the font.
   */
  function GlyphAddress(digit: u8): (a: nat)
    ensures (a - FONT_MEMORY_START) % 5 == 0
    ensures digit < 16 <==> a + 5 <= FONT_MEMORY_START + |FONT|
  {
    FONT_MEMORY_START + 5 * digit
  }

  /** The 0xF family, selected by the low byte. Only Fx29 does anything. */
  function ExecuteF(m: Machine, ins: Instruction): (r: Machine)
    requires WellFormed(m)
    ensures WellFormed(r)
  {
    match ins.NN()
    case 0x29 => m.(index := GlyphAddress(m.registers[ins.X()]))
    case _ => m   // 07, 15, 18, 1E, 0A, 33, 55, 65 are stubs; the rest unknown
  }

  /**
   * Dxyn: the sprite routine is handed Vx, Vy, n, memory and I; the display
   * becomes the frame it returns and VF its byte. Nothing else changes.
   */
  function ExecuteD(m: Machine, ins: Instruction, draw: SpriteRoutine): (r: Machine)
    requires WellFormed(m)
    ensures WellFormed(r)
    ensures var drawn := draw(m.display, m.registers[ins.X()], m.registers[ins.Y()], ins.N(), m.memory, m.index);
            r.display == drawn.frame && r.registers[FLAG] == drawn.vf
    ensures forall i :: 0 <= i < 16 && i != FLAG ==> r.registers[i] == m.registers[i]
    ensures r.pc == m.pc && r.index == m.index && r.memory == m.memory && r.stack == m.stack
  {
    var drawn := draw(m.display, m.registers[ins.X()], m.registers[ins.Y()], ins.N(), m.memory, m.index);
    m.(display := drawn.frame, registers := m.registers[FLAG := drawn.vf])
  }

  /**
   * Dispatch of one decoded instruction, the program counter already
   * advanced. `draw` stands for the display's sprite routine, used by Dxyn.
   */
  function Execute(m: Machine, ins: Instruction, draw: SpriteRoutine): (r: Machine)
    requires WellFormed(m)
    requires ins.OpCode() == 0xE ==> m.stack != []
    ensures WellFormed(r)
  {
    match ins.OpCode()
    case 0x0 => m.(display := Framebuffer.Blank())
    case 0xE => m.(pc := m.stack[|m.stack| - 1], stack := m.stack[..|m.stack| - 1])
    case 0xA => m.(index := ins.NNN())
    case 0xD => ExecuteD(m, ins, draw)
    case 0x1 => m.(pc := ins.NNN())
    case 0x2 => m.(stack := m.stack + [m.pc], pc := ins.NNN())
    case 0x3 => if m.registers[ins.X()] == ins.NN() then m.(pc := m.pc + 2) else m
    case 0x4 => if m.registers[ins.X()] != ins.NN() then m.(pc := m.pc + 2) else m
    case 0x5 => if m.registers[ins.X()] == m.registers[ins.Y()] then m.(pc := m.pc + 2) else m
    case 0x6 => m.(registers := m.registers[ins.X() := ins.NN()])
    case 0x7 => m.(registers := AddRegister(m.registers, ins.X(), ins.NN()))
    case 0x8 => m.(registers := Execute8(m.registers, ins))
    case 0x9 => if m.registers[ins.X()] != m.registers[ins.Y()] then m.(pc := m.pc + 2) else m
    case 0xF => ExecuteF(m, ins)
    case _ => m   // 0xB and 0xC: unknown, reported only
  }

  /** `Computer::update`: fetch at `pc`, advance `pc` by 2, dispatch. */
  function Step(m: Machine, draw: SpriteRoutine): (r: Machine)
    requires CanStep(m)
    ensures WellFormed(r)
  {
    Execute(m.(pc := m.pc + 2), Fetch(m), draw)
  }

  // ---------------------------------------------------------------------
  // Properties of a step.

  /**
   * The instructions that, as written, do nothing but report or print a
   * "todo": unknown opcodes (0xB, 0xC), unknown and stubbed 0x8 sub-opcodes,
   * and every 0xF sub-opcode but 0x29.
   */
  predicate IsNoOp(ins: Instruction) {
    ins.OpCode() == 0xB || ins.OpCode() == 0xC ||
    (ins.OpCode() == 0x8 && !(1 <= ins.N() <= 7 || ins.N() == 0xE)) ||
    (ins.OpCode() == 0xF && ins.NN() != 0x29)
  }

  /** Stubs and unknown instructions change nothing beyond the advance of `pc`. */
  lemma StubsAndUnknownOnlyAdvance(m: Machine, draw: SpriteRoutine)
    requires CanStep(m) && IsNoOp(Fetch(m))
    ensures Step(m, draw) == m.(pc := m.pc + 2)
  {
  }

  /** The word 0xFFFF (an undefined 0xF sub-opcode) only advances `pc`. */
  lemma UnknownWordFFFF(m: Machine, draw: SpriteRoutine)
    requires WellFormed(m) && m.pc + 2 <= MainMemory.SIZE
    requires m.memory[m.pc] == 0xFF && m.memory[m.pc + 1] == 0xFF
    ensures CanStep(m) && Step(m, draw) == m.(pc := m.pc + 2)
  {
    assert Fetch(m).instruction == 0xFFFF;
  }

  /** No instruction of this interpreter writes to memory. */
  lemma StepKeepsMemory(m: Machine, draw: SpriteRoutine)
    requires CanStep(m)
    ensures Step(m, draw).memory == m.memory
  {
  }

  /**
   * Which instructions touch which part of the state: the display only 0x0
   * and 0xD, the stack only 0x2 and 0xE, the index register only 0xA and
   * 0xF. Every other instruction leaves them alone.
   */
  lemma StepFrame(m: Machine, draw: SpriteRoutine)
    requires CanStep(m)
    ensures Fetch(m).OpCode() != 0x0 && Fetch(m).OpCode() != 0xD ==> Step(m, draw).display == m.display
    ensures Fetch(m).OpCode() != 0x2 && Fetch(m).OpCode() != 0xE ==> Step(m, draw).stack == m.stack
    ensures Fetch(m).OpCode() != 0xA && Fetch(m).OpCode() != 0xF ==> Step(m, draw).index == m.index
  {
  }

  /**
   * The skips: 3xnn, 4xnn, 5xy0 and 9xy0 add 2 more to the already advanced
   * `pc` exactly when their condition holds, and change nothing else. The
   * low nibble of 5xy0 and 9xy0 is not checked.
   */
  lemma Skips(m: Machine, draw: SpriteRoutine)
    requires CanStep(m)
    ensures var ins, vx := Fetch(m), m.registers[Fetch(m).X()];
            var taken := match ins.OpCode()
                         case 0x3 => vx == ins.NN()
                         case 0x4 => vx != ins.NN()
                         case 0x5 => vx == m.registers[ins.Y()]
                         case 0x9 => vx != m.registers[ins.Y()]
                         case _ => false;
            ins.OpCode() in {0x3, 0x4, 0x5, 0x9} ==>
              Step(m, draw) == m.(pc := if taken then m.pc + 4 else m.pc + 2)
  {
  }

  /** With V0 = 5, the word 0x3005 skips the next instruction and 0x4005 does not. */
  lemma SkipExample(m: Machine, draw: SpriteRoutine)
    requires WellFormed(m) && m.pc + 2 <= MainMemory.SIZE && m.registers[0] == 5
    ensures m.memory[m.pc] == 0x30 && m.memory[m.pc + 1] == 0x05 ==>
              CanStep(m) && Step(m, draw).pc == m.pc + 4
    ensures m.memory[m.pc] == 0x40 && m.memory[m.pc + 1] == 0x05 ==>
              CanStep(m) && Step(m, draw).pc == m.pc + 2
  {
    if m.memory[m.pc] == 0x30 && m.memory[m.pc + 1] == 0x05 {
      assert Fetch(m).instruction == 0x3005;
    }
    if m.memory[m.pc] == 0x40 && m.memory[m.pc + 1] == 0x05 {
      assert Fetch(m).instruction == 0x4005;
    }
  }

  /** 1nnn jumps to nnn and Annn points the index register at nnn. */
  lemma JumpAndSetIndex(m: Machine, draw: SpriteRoutine)
    requires CanStep(m)
    ensures Fetch(m).OpCode() == 0x1 ==>
              Step(m, draw) == m.(pc := Fetch(m).NNN())
    ensures Fetch(m).OpCode() == 0xA ==>
              Step(m, draw) == m.(pc := m.pc + 2, index := Fetch(m).NNN())
  {
  }

  /**
   * Every word with opcode 0x0 clears the display, whatever its low twelve
   * bits: 00EE clears the screen too, it does not return.
   */
  lemma ClearScreenIgnoresLowBits(m: Machine, draw: SpriteRoutine)
    requires CanStep(m) && Fetch(m).OpCode() == 0x0
    ensures Step(m, draw) == m.(pc := m.pc + 2, display := Framebuffer.Blank())
    ensures Framebuffer.IsBlank(Step(m, draw).display)
  {
  }

  /** Every word with opcode 0xE returns: `pc` is popped off the stack. */
  lemma ReturnOnOpcodeE(m: Machine, draw: SpriteRoutine)
    requires CanStep(m) && Fetch(m).OpCode() == 0xE
    ensures Step(m, draw).pc == m.stack[|m.stack| - 1]
    ensures Step(m, draw).stack + [Step(m, draw).pc] == m.stack
    ensures Step(m, draw).registers == m.registers && Step(m, draw).index == m.index
  {
  }

  /** 2nnn saves the address after itself on the stack and jumps to nnn. */
  lemma CallPushesReturnAddress(m: Machine, draw: SpriteRoutine)
    requires CanStep(m) && Fetch(m).OpCode() == 0x2
    ensures Step(m, draw).stack == m.stack + [m.pc + 2]
    ensures Step(m, draw).pc == Fetch(m).NNN()
  {
  }

  /**
   * A run of steps none of which calls or returns: each machine of `ms` is
   * the step of the one before it, with the sprite routines `draws`, and no
   * instruction executed on the way has opcode 0x2 or 0xE.
   */
  predicate FlatRun(ms: seq<Machine>, draws: seq<SpriteRoutine>) {
    |ms| >= 1 && |draws| == |ms| - 1 &&
    forall i :: 0 <= i < |ms| - 1 ==>
      CanStep(ms[i]) && Fetch(ms[i]).OpCode() != 0x2 && Fetch(ms[i]).OpCode() != 0xE &&
      ms[i + 1] == Step(ms[i], draws[i])
  }

  /** A run that neither calls nor returns ends with the stack it started with. */
  lemma {:induction false} FlatRunKeepsStack(ms: seq<Machine>, draws: seq<SpriteRoutine>)
    requires FlatRun(ms, draws)
    ensures ms[|ms| - 1].stack == ms[0].stack
  {
    var n := |ms| - 1;
    if n > 0 {
      assert FlatRun(ms[..n], draws[..n - 1]);
      FlatRunKeepsStack(ms[..n], draws[..n - 1]);
      StepFrame(ms[n - 1], draws[n - 1]);
    }
  }

  /**
   * Call then return: a 2nnn, then any run of instructions that neither call
   * nor return, then an instruction with opcode 0xE, comes back to the
   * instruction after the 2nnn with the stack as it was before the call.
   */
  lemma {:induction false} CallThenReturn(m: Machine, call: SpriteRoutine, ms: seq<Machine>,
                                          draws: seq<SpriteRoutine>, ret: SpriteRoutine)
    requires CanStep(m) && Fetch(m).OpCode() == 0x2
    requires FlatRun(ms, draws) && ms[0] == Step(m, call)
    requires WellFormed(ms[|ms| - 1]) && ms[|ms| - 1].pc + 2 <= MainMemory.SIZE
    requires Fetch(ms[|ms| - 1]).OpCode() == 0xE
    ensures CanStep(ms[|ms| - 1])
    ensures Step(ms[|ms| - 1], ret).pc == m.pc + 2
    ensures Step(ms[|ms| - 1], ret).stack == m.stack
  {
    CallPushesReturnAddress(m, call);
    FlatRunKeepsStack(ms, draws);
    var last := ms[|ms| - 1];
    assert last.stack == m.stack + [m.pc + 2];
    ReturnOnOpcodeE(last, ret);
    assert last.stack[|last.stack| - 1] == m.pc + 2;
    assert last.stack[..|last.stack| - 1] == m.stack;
  }

  /** 6xnn followed by 7x00 on the same register leaves nn there: adding zero is the identity. */
  lemma {:induction false} SetThenAddZero(m: Machine, load: Instruction, add: Instruction, draw: SpriteRoutine)
    requires WellFormed(m)
    requires load.OpCode() == 0x6 && add.OpCode() == 0x7 && add.X() == load.X() && add.NN() == 0
    ensures Execute(Execute(m, load, draw), add, draw).registers[load.X()] == load.NN()
    ensures Execute(Execute(m, load, draw), add, draw) == Execute(m, load, draw)
  {
    var after := Execute(m, load, draw);
    assert after.registers[load.X()] == load.NN();
    var r := AddRegister(after.registers, add.X(), 0);
    assert r == after.registers;
  }

  /** 7xnn adds modulo 256 and leaves every other register, VF included, alone. */
  lemma AddRegisterStep(m: Machine, draw: SpriteRoutine)
    requires CanStep(m) && Fetch(m).OpCode() == 0x7
    ensures var x, r := Fetch(m).X(), Step(m, draw);
            r.registers[x] == (m.registers[x] as int + Fetch(m).NN()) % 0x100 &&
            (forall i :: 0 <= i < 16 && i != x ==> r.registers[i] == m.registers[i]) &&
            r.pc == m.pc + 2 && r.index == m.index && r.stack == m.stack && r.display == m.display
  {
  }

  /**
   * 8xy4 is written as an AND: it has the effect of 8xy2 on the same
   * registers, sets no carry, and so does not add.
   */
  lemma AddIsAnd(m: Machine, add: Instruction, and: Instruction, draw: SpriteRoutine)
    requires WellFormed(m)
    requires add.OpCode() == 0x8 && add.N() == 0x4 && and.OpCode() == 0x8 && and.N() == 0x2
    requires add.X() == and.X() && add.Y() == and.Y()
    ensures Execute(m, add, draw) == Execute(m, and, draw)
    ensures add.X() != FLAG ==> Execute(m, add, draw).registers[FLAG] == m.registers[FLAG]
  {
  }

  /** Concretely: with V0 = V1 = 1, 8014 leaves V0 at 1, not 2. */
  lemma AddOfOneAndOneIsOne(m: Machine, draw: SpriteRoutine)
    requires WellFormed(m) && m.registers[0] == 1 && m.registers[1] == 1
    ensures Execute(m, Instruction(0x8014), draw).registers[0] == 1
  {
  }

  /** Every 0x8 instruction touches at most Vx and VF, and nothing outside the registers. */
  lemma RegisterOpsFrame(m: Machine, draw: SpriteRoutine)
    requires CanStep(m) && Fetch(m).OpCode() == 0x8
    ensures var x, r := Fetch(m).X(), Step(m, draw);
            (forall i :: 0 <= i < 16 && i != x && i != FLAG ==> r.registers[i] == m.registers[i]) &&
            r == m.(pc := m.pc + 2, registers := r.registers)
  {
    var ins := Fetch(m);
    var v := m.registers;
    var x, y := ins.X(), ins.Y();
    match ins.N()
    case 0x1 => assert Execute8(v, ins) == BinaryOr(v, x, y);
    case 0x2 => assert Execute8(v, ins) == BinaryAnd(v, x, y);
    case 0x3 => assert Execute8(v, ins) == BinaryXor(v, x, y);
    case 0x4 => assert Execute8(v, ins) == BinaryAnd(v, x, y);
    case 0x5 => assert Execute8(v, ins) == Subtract(v, x, y);
    case 0x6 => assert Execute8(v, ins) == ShiftRight(v, x);
    case 0x7 => assert Execute8(v, ins) == SubtractReversed(v, x, y);
    case 0xE => assert Execute8(v, ins) == ShiftLeft(v, x);
    case _ => assert Execute8(v, ins) == v;
  }

  /**
   * Dxyn shows the frame the sprite routine draws from Vx, Vy, n, memory and
   * I, writes the routine's byte to VF, and changes nothing else.
   */
  lemma DisplayWritesFlag(m: Machine, draw: SpriteRoutine)
    requires CanStep(m) && Fetch(m).OpCode() == 0xD
    ensures var ins := Fetch(m);
            var drawn := draw(m.display, m.registers[ins.X()], m.registers[ins.Y()], ins.N(), m.memory, m.index);
            Step(m, draw) == m.(pc := m.pc + 2, display := drawn.frame, registers := m.registers[FLAG := drawn.vf])
  {
  }

  /** The state `new` builds: the font at 0x50, zero memory elsewhere, all registers 0. */
  lemma InitialState()
    ensures Initial().pc == 0 && Initial().index == 0 && Initial().stack == []
    ensures forall i :: 0 <= i < 16 ==> Initial().registers[i] == 0
    ensures forall i :: 0 <= i < |FONT| ==> Initial().memory[FONT_MEMORY_START + i] == FONT[i]
    ensures forall a :: 0 <= a < MainMemory.SIZE && !(FONT_MEMORY_START <= a < FONT_MEMORY_START + |FONT|) ==>
              Initial().memory[a] == 0
    ensures Framebuffer.IsBlank(Initial().display)
  {
  }

  /**
   * Fx29 points the index register at the glyph of the digit in Vx; for a
   * digit below 16 the glyph lies inside the font table [0x50, 0xA0) and,
   * with the memory `new` builds, holds that digit's five font bytes.
   */
  lemma FontCharacter(m: Machine, draw: SpriteRoutine)
    requires CanStep(m) && Fetch(m).OpCode() == 0xF && Fetch(m).NN() == 0x29
    ensures var digit, r := m.registers[Fetch(m).X()] as nat, Step(m, draw);
            r == m.(pc := m.pc + 2, index := FONT_MEMORY_START + 5 * digit) &&
            (digit < 16 ==>
               FONT_MEMORY_START <= r.index && r.index + 5 <= FONT_MEMORY_START + |FONT| &&
               (m.memory == Initial().memory ==> r.memory[r.index..r.index + 5] == FONT[5 * digit..5 * digit + 5]))
  {
    var digit := m.registers[Fetch(m).X()] as nat;
    if digit < 16 && m.memory == Initial().memory {
      MainMemory.LoadedWindow(seq(MainMemory.SIZE, _ => 0), FONT_MEMORY_START, FONT, 5 * digit, 5 * digit + 5);
    }
  }
}
