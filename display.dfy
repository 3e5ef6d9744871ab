/**
 * The 64 by 32 framebuffer: one byte per pixel, row-major. The source
 * defines only construction and clearing.
 */
module Framebuffer {
  import opened Bytes

  const WIDTH: nat := 64
  const HEIGHT: nat := 32

  /** Number of cells in the buffer. */
  const CELLS: nat := WIDTH * HEIGHT

  /** A buffer with every cell off. */
  function Blank(): (r: seq<u8>)
    ensures |r| == CELLS
  {
    seq(CELLS, _ => 0)
  }

  /** A buffer of the display's size. */
  type Frame = s: seq<u8> | |s| == CELLS witness Blank()

  /** Every cell of `cells` is off. */
  predicate IsBlank(cells: seq<u8>) {
    forall i :: 0 <= i < |cells| ==> cells[i] == 0
  }

  /** The blank buffer is the one buffer of the right size that is all zero. */
  lemma BlankIsUnique(cells: seq<u8>)
    ensures cells == Blank() <==> |cells| == CELLS && IsBlank(cells)
  {
    if |cells| == CELLS && IsBlank(cells) {
      assert forall i :: 0 <= i < CELLS ==> cells[i] == Blank()[i];
    }
  }

  class Display {
    const buffer: array<u8>

    predicate Valid() {
      buffer.Length == CELLS
    }

    /** `Display::new`: every cell off. */
    constructor ()
      ensures Valid() && fresh(buffer)
      ensures buffer[..] == Blank()
    {
      buffer := new u8[CELLS](_ => 0);
    }

    /** `clear`: the buffer is replaced by a blank one, whatever it held. */
    method Clear()
      requires Valid()
      modifies buffer
      ensures buffer[..] == Blank()
    {
      forall i | 0 <= i < buffer.Length {
        buffer[i] := 0;
      }
    }
  }

  /** Client view: clearing twice is clearing once, and leaves what `new` builds. */
  method ClearTwice(d: Display)
    requires d.Valid()
    modifies d.buffer
    ensures d.buffer[..] == Blank()
  {
    d.Clear();
    d.Clear();
    var made := new Display();
    assert made.buffer[..] == d.buffer[..];
  }
}
