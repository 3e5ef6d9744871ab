/**
 * The interpreter object: memory, display and call stack, the program
 * counter, the index register and the sixteen byte registers, changed in
 * place by `update` and its opcode handlers.
 *
 * Every method is proved to change the state exactly as the value model in
 * module `Semantics` says; `Update` is one `Step` of it.
 */
module Interpreter {
  import opened Bytes
  import opened InstructionDecoder
  import opened Semantics
  import MainMemory
  import Framebuffer
  import CallStack

  class Computer {
    const memory: MainMemory.Memory
    const display: Framebuffer.Display
    const stack: CallStack.Stack

    var programCounter: nat
    var indexRegister: nat
    const registers: array<u8>

    /** The parts have their fixed sizes, and the three byte arrays are distinct. */
    ghost predicate Valid() {
      memory.Valid() && display.Valid() && registers.Length == REGISTER_COUNT &&
      registers != memory.memory && registers != display.buffer && memory.memory != display.buffer
    }

    /** The whole state as a value. */
    ghost function State(): Machine
      reads this, registers, memory.memory, display.buffer, stack
    {
      Machine(programCounter, indexRegister, registers[..], memory.memory[..], stack.stack, display.buffer[..])
    }

    /** `Computer::new`: zero memory with the font at 0x50, a blank display, an empty stack. */
    constructor ()
      ensures Valid() && State() == Initial()
      ensures fresh(memory) && fresh(memory.memory) && fresh(display) && fresh(display.buffer)
      ensures fresh(stack) && fresh(registers)
    {
      var loaded := new MainMemory.Memory();
      loaded.Load(FONT_MEMORY_START, FONT);
      memory := loaded;
      display := new Framebuffer.Display();
      stack := new CallStack.Stack();
      programCounter := 0;
      indexRegister := 0;
      registers := new u8[REGISTER_COUNT](_ => 0);
    }

    /**
     * `load_program_from_file`, given the file's bytes: they are copied in
     * at 0x200 and execution starts there. A program that does not fit
     * makes the copy panic.
     */
    method LoadProgram(data: seq<u8>)
      requires Valid() && ROM_START + |data| <= MainMemory.SIZE
      modifies this, memory.memory
      ensures Valid()
      ensures State() == old(State()).(pc := ROM_START, memory := MainMemory.Loaded(old(memory.memory[..]), ROM_START, data))
    {
      memory.Load(ROM_START, data);
      programCounter := ROM_START;
    }

    /**
     * `update`: fetch the big-endian word at the program counter (which
     * panics past the end of memory), advance the counter by 2 and dispatch
     * on the opcode. `draw` stands for the display's sprite routine, used
     * by Dxyn.
     */
    method Update(draw: SpriteRoutine)
      requires Valid() && CanStep(State())
      modifies this, registers, display.buffer, stack
      ensures Valid()
      ensures State() == Step(old(State()), draw)
    {
      var instruction := Instruction(memory.ReadU16(programCounter));
      programCounter := programCounter + 2;
      DecodeAndExecute(instruction, draw);
    }

    /** The "decode & execute" half of `update`: dispatch on the opcode. */
    method DecodeAndExecute(instruction: Instruction, draw: SpriteRoutine)
      requires Valid() && WellFormed(State())
      requires instruction.OpCode() == 0xE ==> stack.stack != []
      modifies this, registers, display.buffer, stack
      ensures State() == Execute(old(State()), instruction, draw)
    {
      var opcode := instruction.OpCode();
      match opcode
      case 0x0 => Op00E0ClearScreen(instruction);
      case 0xE => Op00EEReturnFromSubroutine(instruction);
      case 0xA => OpAnnnSetIndexRegister(instruction);
      case 0xD => OpDxynDisplay(instruction, draw);
      case 0x1 => Op1nnnJump(instruction);
      case 0x2 => Op2nnnCallSubroutine(instruction);
      case 0x3 => Op3xnnSkipIfEqual(instruction);
      case 0x4 => Op4xnnSkipIfNotEqual(instruction);
      case 0x5 => Op5xy0SkipIfRegistersEqual(instruction);
      case 0x6 => Op6xnnSetRegister(instruction);
      case 0x7 => Op7xnnAddRegister(instruction);
      case 0x8 => Update8(instruction);
      case 0x9 => Op9xy0SkipIfRegistersNotEqual(instruction);
      case 0xF => UpdateF(instruction);
      case _ =>   // unknown opcode: reported only
    }

    /** The 0x8 family of `update`, selected by the low nibble. */
    method Update8(instruction: Instruction)
      requires registers.Length == REGISTER_COUNT
      modifies registers
      ensures registers[..] == Execute8(old(registers[..]), instruction)
    {
      var lsb := instruction.N();
      match lsb
      case 0x0 => Op8xy0Set(instruction);
      case 0x1 => Op8xy1BinaryOr(instruction);
      case 0x2 => Op8xy2BinaryAnd(instruction);
      case 0x3 => Op8xy3BinaryXor(instruction);
      case 0x4 => Op8xy4Add(instruction);
      case 0x5 => Op8xy5Subtract(instruction);
      case 0x6 => Op8xy6Shift(instruction);
      case 0x7 => Op8xy7Subtract(instruction);
      case 0xE => Op8xyEShift(instruction);
      case _ =>   // unknown 0x8 sub-opcode: reported only
    }

    /** The 0xF family of `update`, selected by the low byte. */
    method UpdateF(instruction: Instruction)
      requires Valid()
      modifies this
      ensures State() == ExecuteF(old(State()), instruction)
    {
      var lsb := instruction.NN();
      match lsb
      case 0x07 => OpFx07Timer(instruction);
      case 0x15 => OpFx15Timer(instruction);
      case 0x18 => OpFx18Timer(instruction);
      case 0x1E => OpFx1EIndexRegisterAdd(instruction);
      case 0x0A => OpFx0AGetKeyboardInput(instruction);
      case 0x29 => OpFx29FontCharacter(instruction);
      case 0x33 => OpFx33BinaryCodedDecimalConversion(instruction);
      case 0x55 => OpFx55StoreMemory(instruction);
      case 0x65 => OpFx65LoadMemory(instruction);
      case _ =>   // unknown 0xF sub-opcode: reported only
    }

    // The handlers written as "todo" stubs: each only prints a line, so
    // none may change anything (no modifies clause), and the state is
    // what it was.

    method OpFx65LoadMemory(instruction: Instruction)
      ensures State() == old(State())
    {
    }

    method OpFx55StoreMemory(instruction: Instruction)
      ensures State() == old(State())
    {
    }

    /** Named `op_fx29_binary_coded_decimal_conversion` in the source; dispatched for Fx33. */
    method OpFx33BinaryCodedDecimalConversion(instruction: Instruction)
      ensures State() == old(State())
    {
    }

    method OpFx0AGetKeyboardInput(instruction: Instruction)
      ensures State() == old(State())
    {
    }

    method OpFx1EIndexRegisterAdd(instruction: Instruction)
      ensures State() == old(State())
    {
    }

    method OpFx07Timer(instruction: Instruction)
      ensures State() == old(State())
    {
    }

    method OpFx15Timer(instruction: Instruction)
      ensures State() == old(State())
    {
    }

    method OpFx18Timer(instruction: Instruction)
      ensures State() == old(State())
    {
    }

    method Op8xy0Set(instruction: Instruction)
      ensures State() == old(State())
    {
    }

    /** `op_fx29_font_character`: I := 0x50 + 5 * Vx, the glyph of the digit in Vx. */
    method OpFx29FontCharacter(instruction: Instruction)
      requires registers.Length == REGISTER_COUNT
      modifies this
      ensures State() == old(State()).(index := GlyphAddress(registers[instruction.X()]))
    {
      var xi := instruction.X();
      var x := registers[xi];
      indexRegister := GlyphAddress(x);
    }

    method Op8xy1BinaryOr(instruction: Instruction)
      requires registers.Length == REGISTER_COUNT
      modifies registers
      ensures registers[..] == BinaryOr(old(registers[..]), instruction.X(), instruction.Y())
    {
      var xy := instruction.XY();
      var xi, yi := xy[0], xy[1];
      registers[xi] := BitOr(registers[xi], registers[yi]);
    }

    method Op8xy2BinaryAnd(instruction: Instruction)
      requires registers.Length == REGISTER_COUNT
      modifies registers
      ensures registers[..] == BinaryAnd(old(registers[..]), instruction.X(), instruction.Y())
    {
      var xy := instruction.XY();
      var xi, yi := xy[0], xy[1];
      registers[xi] := BitAnd(registers[xi], registers[yi]);
    }

    method Op8xy3BinaryXor(instruction: Instruction)
      requires registers.Length == REGISTER_COUNT
      modifies registers
      ensures registers[..] == BinaryXor(old(registers[..]), instruction.X(), instruction.Y())
    {
      var xy := instruction.XY();
      var xi, yi := xy[0], xy[1];
      registers[xi] := BitXor(registers[xi], registers[yi]);
    }

    /** `op_8xy4_add`, which is written with `&=`: an AND, no carry. */
    method Op8xy4Add(instruction: Instruction)
      requires registers.Length == REGISTER_COUNT
      modifies registers
      ensures registers[..] == BinaryAnd(old(registers[..]), instruction.X(), instruction.Y())
    {
      var xy := instruction.XY();
      var xi, yi := xy[0], xy[1];
      registers[xi] := BitAnd(registers[xi], registers[yi]);
    }

    method Op8xy5Subtract(instruction: Instruction)
      requires registers.Length == REGISTER_COUNT
      modifies registers
      ensures registers[..] == Subtract(old(registers[..]), instruction.X(), instruction.Y())
    {
      var xy := instruction.XY();
      var xi, yi := xy[0], xy[1];
      var x := registers[xi];
      var y := registers[yi];
      if x > y {
        registers[FLAG] := 1;
      } else {
        registers[FLAG] := 0;
      }
      registers[xi] := WrappingSub(x, y);
    }

    method Op8xy7Subtract(instruction: Instruction)
      requires registers.Length == REGISTER_COUNT
      modifies registers
      ensures registers[..] == SubtractReversed(old(registers[..]), instruction.X(), instruction.Y())
    {
      var xy := instruction.XY();
      var xi, yi := xy[0], xy[1];
      var x := registers[xi];
      var y := registers[yi];
      if y > x {
        registers[FLAG] := 1;
      } else {
        registers[FLAG] := 0;
      }
      registers[xi] := WrappingSub(y, x);
    }

    method Op8xy6Shift(instruction: Instruction)
      requires registers.Length == REGISTER_COUNT
      modifies registers
      ensures registers[..] == ShiftRight(old(registers[..]), instruction.X())
    {
      var xi := instruction.X();
      registers[FLAG] := BitAnd(registers[xi], 0x1);
      registers[xi] := registers[xi] / 2;
    }

    method Op8xyEShift(instruction: Instruction)
      requires registers.Length == REGISTER_COUNT
      modifies registers
      ensures registers[..] == ShiftLeft(old(registers[..]), instruction.X())
    {
      var xi := instruction.X();
      registers[FLAG] := BitAnd(registers[xi], 0x80) / 0x80;
      registers[xi] := (registers[xi] as int * 2) % 0x100;
    }

    method Op5xy0SkipIfRegistersEqual(instruction: Instruction)
      requires Valid()
      modifies this
      ensures State() == old(State()).(pc := if registers[instruction.X()] == registers[instruction.Y()]
                                              then old(programCounter) + 2 else old(programCounter))
    {
      var xy := instruction.XY();
      var xi, yi := xy[0], xy[1];
      var x := registers[xi];
      var y := registers[yi];
      if x == y {
        programCounter := programCounter + 2;
      }
    }

    method Op9xy0SkipIfRegistersNotEqual(instruction: Instruction)
      requires Valid()
      modifies this
      ensures State() == old(State()).(pc := if registers[instruction.X()] != registers[instruction.Y()]
                                              then old(programCounter) + 2 else old(programCounter))
    {
      var xy := instruction.XY();
      var xi, yi := xy[0], xy[1];
      var x := registers[xi];
      var y := registers[yi];
      if x != y {
        programCounter := programCounter + 2;
      }
    }

    method Op3xnnSkipIfEqual(instruction: Instruction)
      requires Valid()
      modifies this
      ensures State() == old(State()).(pc := if registers[instruction.X()] == instruction.NN()
                                              then old(programCounter) + 2 else old(programCounter))
    {
      var xi := instruction.X();
      var value := instruction.NN();
      var x := registers[xi];
      if x == value {
        programCounter := programCounter + 2;
      }
    }

    method Op4xnnSkipIfNotEqual(instruction: Instruction)
      requires Valid()
      modifies this
      ensures State() == old(State()).(pc := if registers[instruction.X()] != instruction.NN()
                                              then old(programCounter) + 2 else old(programCounter))
    {
      var xi := instruction.X();
      var value := instruction.NN();
      var x := registers[xi];
      if x != value {
        programCounter := programCounter + 2;
      }
    }

    /** `op_2nnn_call_subroutine`: save the (already advanced) counter, jump to nnn. */
    method Op2nnnCallSubroutine(instruction: Instruction)
      requires Valid()
      modifies this, stack
      ensures State() == old(State()).(stack := old(stack.stack) + [old(programCounter)],
                                       pc := instruction.NNN())
    {
      stack.Push(programCounter);
      var address := instruction.NNN();
      programCounter := address;
    }

    /** `op_00ee_return_from_subroutine`: the counter is popped; an empty stack panics. */
    method Op00EEReturnFromSubroutine(instruction: Instruction)
      requires Valid() && stack.stack != []
      modifies this, stack
      ensures old(stack.stack) == stack.stack + [programCounter]
      ensures State() == old(State()).(pc := programCounter, stack := stack.stack)
    {
      programCounter := stack.Pop();
    }

    method Op00E0ClearScreen(instruction: Instruction)
      requires Valid()
      modifies display.buffer
      ensures State() == old(State()).(display := Framebuffer.Blank())
    {
      display.Clear();
    }

    method OpAnnnSetIndexRegister(instruction: Instruction)
      requires Valid()
      modifies this
      ensures State() == old(State()).(index := instruction.NNN())
    {
      var value := instruction.NNN();
      indexRegister := value;
    }

    /**
     * `op_dxyn_display`: the sprite routine is handed Vx, Vy, n, memory and
     * I; the display takes the frame it returns and VF its byte.
     */
    method OpDxynDisplay(instruction: Instruction, draw: SpriteRoutine)
      requires Valid()
      modifies registers, display.buffer
      ensures State() == ExecuteD(old(State()), instruction, draw)
    {
      var xy := instruction.XY();
      var xi, yi := xy[0], xy[1];
      var numRows := instruction.N();
      var x := registers[xi];
      var y := registers[yi];
      var drawn := draw(display.buffer[..], x, y, numRows, memory.memory[..], indexRegister);
      forall i | 0 <= i < display.buffer.Length {
        display.buffer[i] := drawn.frame[i];
      }
      registers[FLAG] := drawn.vf;
    }

    method Op1nnnJump(instruction: Instruction)
      requires Valid()
      modifies this
      ensures State() == old(State()).(pc := instruction.NNN())
    {
      var address := instruction.NNN();
      programCounter := address;
    }

    method Op6xnnSetRegister(instruction: Instruction)
      requires registers.Length == REGISTER_COUNT
      modifies registers
      ensures registers[..] == old(registers[..])[instruction.X() := instruction.NN()]
    {
      var register := instruction.X();
      var value := instruction.NN();
      registers[register] := value;
    }

    method Op7xnnAddRegister(instruction: Instruction)
      requires registers.Length == REGISTER_COUNT
      modifies registers
      ensures registers[..] == AddRegister(old(registers[..]), instruction.X(), instruction.NN())
    {
      var register := instruction.X();
      var value := instruction.NN();
      registers[register] := WrappingAdd(registers[register], value);
    }
  }

  /** A client run: a fresh computer with a program loaded starts at 0x200 with the program in place. */
  method BootProgram(data: seq<u8>) returns (c: Computer)
    requires ROM_START + |data| <= MainMemory.SIZE
    ensures c.Valid()
    ensures c.State().pc == ROM_START && c.State().stack == [] && c.State().index == 0
    ensures c.State().memory[ROM_START..ROM_START + |data|] == data
    ensures c.State().memory[FONT_MEMORY_START..FONT_MEMORY_START + |FONT|] == FONT
  {
    c := new Computer();
    c.LoadProgram(data);
    MainMemory.LoadedWindow(Initial().memory, ROM_START, data, 0, |data|);
    MainMemory.LoadedWindow(MainMemory.Loaded(seq(MainMemory.SIZE, _ => 0), FONT_MEMORY_START, FONT),
                            FONT_MEMORY_START, FONT, 0, |FONT|);
  }
}
