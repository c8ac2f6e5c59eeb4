/** A last-in-first-out stack backed by a growable array, which is modelled
    as a sequence field that the mutating methods reassign. The top is the
    last element. */
module Stacks {

  class Stack<T> {
    var stack: seq<T>

    constructor ()
      ensures stack == []
    {
      stack := [];
    }

    function IsEmpty(): (r: bool)
      reads this
      ensures r <==> |stack| == 0
    {
      stack == []
    }

    /** Removes and returns the top; the stack must not be empty. */
    method Pop() returns (t: T)
      requires !IsEmpty()
      modifies this
      ensures stack + [t] == old(stack)
    {
      t := stack[|stack| - 1];
      stack := stack[..|stack| - 1];
    }

    method Push(t: T)
      modifies this
      ensures stack == old(stack) + [t]
    {
      stack := stack + [t];
    }

    /** The top, without removing it; the stack must not be empty. */
    function Peek(): (t: T)
      reads this
      requires !IsEmpty()
      ensures stack == stack[..|stack| - 1] + [t]
    {
      stack[|stack| - 1]
    }
  }

  /** A push followed by a pop hands back the pushed element and leaves the
      stack as it was; a peek in between sees that element. */
  method PushPeekPop<T>(s: Stack<T>, x: T) returns (seen: T, popped: T)
    modifies s
    ensures seen == x && popped == x
    ensures s.stack == old(s.stack)
  {
    s.Push(x);
    seen := s.Peek();
    popped := s.Pop();
  }
}
