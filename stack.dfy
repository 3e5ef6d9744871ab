/**
 * The call stack: an unbounded last-in, first-out store of return addresses
 * (a `Vec<usize>` in the source), changed in place by `push` and `pop`.
 */
module CallStack {

  class Stack {
    /** The saved addresses, the top of the stack last. */
    var stack: seq<nat>

    /** `Stack::new`: nothing saved. */
    constructor ()
      ensures stack == []
    {
      stack := [];
    }

    /** `push`: `value` goes on top; there is no capacity bound. */
    method Push(value: nat)
      modifies this
      ensures stack == old(stack) + [value]
    {
      stack := stack + [value];
    }

    /** `pop`: take the top address off; `unwrap` panics on an empty stack. */
    method Pop() returns (value: nat)
      requires stack != []
      modifies this
      ensures value == old(stack)[|old(stack)| - 1]
      ensures stack == old(stack)[..|old(stack)| - 1]
      ensures old(stack) == stack + [value]
    {
      value := stack[|stack| - 1];
      stack := stack[..|stack| - 1];
    }
  }

  /** Client view of `push` then `pop`: the pushed value comes back and the stack is as before. */
  method PushThenPop(s: Stack, value: nat) returns (popped: nat)
    modifies s
    ensures popped == value
    ensures s.stack == old(s.stack)
  {
    s.Push(value);
    popped := s.Pop();
  }
}
