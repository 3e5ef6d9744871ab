/**
 * The interpreter's 4096-byte main memory.
 *
 * Every access is bounds-checked by slicing or indexing in the source and
 * panics when out of range; here each bound is a precondition.
 */
module MainMemory {
  import opened Bytes

  /** Number of addressable bytes. */
  const SIZE: nat := 4096

  /** `u16::from_be_bytes`: the first byte is the high half. */
  function FromBeBytes(hi: u8, lo: u8): (r: u16)
    ensures r / 0x100 == hi && r % 0x100 == lo
  {
    hi * 0x100 + lo
  }

  /**
   * The contents of `mem` after `data` is copied in at `start`: the bytes
   * from `start` on are `data`, every other byte is as it was.
   */
  function Loaded(mem: seq<u8>, start: nat, data: seq<u8>): (r: seq<u8>)
    requires start + |data| <= |mem|
    ensures |r| == |mem|
    ensures forall i :: 0 <= i < |data| ==> r[start + i] == data[i]
    ensures forall a :: 0 <= a < |mem| && !(start <= a < start + |data|) ==> r[a] == mem[a]
  {
    mem[..start] + data + mem[start + |data|..]
  }

  /** Loading the same bytes twice is the same as loading them once. */
  lemma LoadedIdempotent(mem: seq<u8>, start: nat, data: seq<u8>)
    requires start + |data| <= |mem|
    ensures Loaded(Loaded(mem, start, data), start, data) == Loaded(mem, start, data)
  {
  }

  /** Loading the bytes memory already holds changes nothing. */
  lemma LoadedOwnBytes(mem: seq<u8>, start: nat, len: nat)
    requires start + len <= |mem|
    ensures Loaded(mem, start, mem[start..start + len]) == mem
  {
  }

  /** A window inside the loaded range reads back as the same window of `data`. */
  lemma LoadedWindow(mem: seq<u8>, start: nat, data: seq<u8>, lo: nat, hi: nat)
    requires start + |data| <= |mem| && lo <= hi <= |data|
    ensures Loaded(mem, start, data)[start + lo..start + hi] == data[lo..hi]
  {
    var r := Loaded(mem, start, data);
    forall i | 0 <= i < hi - lo
      ensures r[start + lo..start + hi][i] == data[lo..hi][i]
    {
      assert r[start + lo + i] == data[lo + i];
    }
  }

  class Memory {
    const memory: array<u8>

    predicate Valid() {
      memory.Length == SIZE
    }

    /** `Memory::new`: 4096 zero bytes. */
    constructor ()
      ensures Valid() && fresh(memory)
      ensures memory[..] == seq(SIZE, _ => 0)
    {
      memory := new u8[SIZE](_ => 0);
    }

    /** `load`: copy `data` in at `start`; the slice panics past the end. */
    method Load(start: nat, data: seq<u8>)
      requires Valid()
      requires start + |data| <= SIZE
      modifies memory
      ensures memory[..] == Loaded(old(memory[..]), start, data)
    {
      forall i | 0 <= i < |data| {
        memory[start + i] := data[i];
      }
    }

    /**
     * `read_u8_array`: fill `output` with the bytes from `address` on. The
     * output buffer is the caller's, distinct from memory.
     */
    method ReadU8Array(address: nat, output: array<u8>)
      requires Valid()
      requires address + output.Length <= SIZE
      requires output != memory
      modifies output
      ensures forall i :: 0 <= i < output.Length ==> output[i] == memory[address + i]
    {
      forall i | 0 <= i < output.Length {
        output[i] := memory[address + i];
      }
    }

    /** `read_u8`: the byte at `address`, read through a one-byte copy. */
    function ReadU8(address: nat): (r: u8)
      reads memory
      requires Valid() && address < SIZE
      ensures r == memory[address]
    {
      var bytes := memory[address..address + 1];
      bytes[0]
    }

    /** `read_u16`: the big-endian word at `address` and `address + 1`. */
    function ReadU16(address: nat): (r: u16)
      reads memory
      requires Valid() && address + 2 <= SIZE
      ensures r / 0x100 == memory[address] && r % 0x100 == memory[address + 1]
    {
      var bytes := memory[address..address + 2];
      FromBeBytes(bytes[0], bytes[1])
    }

    /** `write_u8`: set one byte; indexing panics past the end. */
    method WriteU8(address: nat, value: u8)
      requires Valid() && address < SIZE
      modifies memory
      ensures memory[..] == old(memory[..])[address := value]
      ensures ReadU8(address) == value
    {
      memory[address] := value;
    }
  }

  /** Client view of `load` followed by `read_u8`: each loaded byte reads back. */
  method LoadThenRead(m: Memory, start: nat, data: seq<u8>, i: nat) returns (b: u8)
    requires m.Valid() && start + |data| <= SIZE && i < |data|
    modifies m.memory
    ensures b == data[i]
    ensures forall a :: 0 <= a < SIZE && !(start <= a < start + |data|) ==> m.memory[a] == old(m.memory[a])
  {
    m.Load(start, data);
    b := m.ReadU8(start + i);
  }
}
