/** The thread core of the legacy virtual machine as a value: one function
    per operation, each giving the core after the call. The class in
    thread_core.dfy is proved against these functions. */
module CoreModel {
  import opened Captures
  import opened CaptureStates

  /** pc, the stack of suspended outer capture lists (top = last), the
      captures of the current nesting depth, and the capture state. The
      input is read-only and is passed to the operations that read it. */
  datatype Core = Core(pc: int, groups: seq<seq<Capture>>, top: seq<Capture>, captureState: CaptureState)

  /** A fresh core: no open group, no capture, capture state ended. */
  function Init(startingAt: int): (r: Core)
    ensures r.pc == startingAt && r.groups == [] && r.top == [] && r.captureState.IsEnded()
  {
    Core(startingAt, [], [], Ended)
  }

  function Advance(c: Core): (r: Core)
    ensures r.pc == c.pc + 1
    ensures r.groups == c.groups && r.top == c.top && r.captureState == c.captureState
  {
    c.(pc := c.pc + 1)
  }

  function Go(c: Core, to: int): (r: Core)
    ensures r.pc == to
    ensures r.groups == c.groups && r.top == c.top && r.captureState == c.captureState
  {
    c.(pc := to)
  }

  function BeginCapture(c: Core, index: nat): (r: Core)
    requires c.captureState.IsEnded()
    ensures r.captureState == Started(index)
    ensures r.pc == c.pc && r.groups == c.groups && r.top == c.top
  {
    c.(captureState := c.captureState.Start(index))
  }

  /** What `endCapture` needs: an open capture, a range that can be formed,
      and an end inside the input so that the slice exists. */
  predicate CanEndCapture(input: seq<char>, cs: CaptureState, endIndex: nat)
  {
    cs.Started? && cs.at <= endIndex <= |input|
  }

  function EndCapture(input: seq<char>, c: Core, endIndex: nat, transform: Option<seq<char> -> seq<char>>): (r: Core)
    requires CanEndCapture(input, c.captureState, endIndex)
    ensures r.captureState.IsEnded()
    ensures |r.top| == |c.top| + 1 && r.top[..|c.top|] == c.top
    ensures r.top[|c.top|] == Atom(Transformed(input[c.captureState.at..endIndex], transform))
    ensures r.pc == c.pc && r.groups == c.groups
  {
    var (cs, range) := c.captureState.End(endIndex);
    var substring := input[range.lower..range.upper];
    c.(captureState := cs, top := c.top + [Atom(Transformed(substring, transform))])
  }

  function BeginGroup(c: Core): (r: Core)
    ensures |r.groups| == |c.groups| + 1
    ensures r.groups[..|c.groups|] == c.groups && r.groups[|c.groups|] == c.top
    ensures r.top == []
    ensures r.pc == c.pc && r.captureState == c.captureState
  {
    c.(groups := c.groups + [c.top], top := [])
  }

  function EndGroup(c: Core): (r: Core)
    requires |c.groups| > 0
    ensures r.groups + [c.groups[|c.groups| - 1]] == c.groups
    ensures r.top == c.groups[|c.groups| - 1] + Contribution(c.top)
    ensures r.pc == c.pc && r.captureState == c.captureState
  {
    var outer := c.groups[|c.groups| - 1];
    var outer' := if c.top != [] then outer + [SingleCapture(c)] else outer;
    c.(groups := c.groups[..|c.groups| - 1], top := outer')
  }

  /** What a finished group adds to its parent: nothing when it captured
      nothing, one tuple-or-atom of its captures otherwise. */
  function Contribution(inner: seq<Capture>): (r: seq<Capture>)
    ensures |r| <= 1
    ensures r == [] <==> inner == []
    ensures r != [] ==> r[0] == TupleOrAtom(inner)
  {
    if inner == [] then [] else [TupleOrAtom(inner)]
  }

  function CaptureNil(c: Core): (r: Core)
    ensures |r.top| == 1 && r.top[0].Optional? && r.top[0].inner.None?
    ensures r.pc == c.pc && r.groups == c.groups && r.captureState == c.captureState
  {
    c.(top := [Optional(None)])
  }

  function CaptureSome(c: Core): (r: Core)
    ensures |r.top| == 1 && r.top[0].Optional? && r.top[0].inner.Some?
    ensures r.top[0].inner.value.TupleOrAtom? && r.top[0].inner.value.items == c.top
    ensures r.pc == c.pc && r.groups == c.groups && r.captureState == c.captureState
  {
    c.(top := [Optional(Some(TupleOrAtom(c.top)))])
  }

  function CaptureArray(c: Core): (r: Core)
    ensures |r.top| == 1 && r.top[0].Array? && r.top[0].items == c.top
    ensures r.pc == c.pc && r.groups == c.groups && r.captureState == c.captureState
  {
    c.(top := [Array(c.top)])
  }

  /** The current nesting depth's captures as one value, order kept. */
  function SingleCapture(c: Core): (r: Capture)
    ensures r.TupleOrAtom? && r.items == c.top
  {
    TupleOrAtom(c.top)
  }

  /** One call the dispatch loop can make on a thread core. */
  datatype Call =
    | AdvanceCall
    | GoCall(to: int)
    | BeginCaptureCall(index: nat)
    | EndCaptureCall(endIndex: nat, transform: Option<seq<char> -> seq<char>>)
    | BeginGroupCall
    | EndGroupCall
    | CaptureNilCall
    | CaptureSomeCall
    | CaptureArrayCall

  /** The core after one call, or None where the call's assertion or fatal
      error would stop the program. */
  function Step(input: seq<char>, c: Core, call: Call): Option<Core>
  {
    match call
    case AdvanceCall => Some(Advance(c))
    case GoCall(to) => Some(Go(c, to))
    case BeginCaptureCall(index) =>
      if c.captureState.IsEnded() then Some(BeginCapture(c, index)) else None
    case EndCaptureCall(endIndex, transform) =>
      if CanEndCapture(input, c.captureState, endIndex) then Some(EndCapture(input, c, endIndex, transform)) else None
    case BeginGroupCall => Some(BeginGroup(c))
    case EndGroupCall => if |c.groups| > 0 then Some(EndGroup(c)) else None
    case CaptureNilCall => Some(CaptureNil(c))
    case CaptureSomeCall => Some(CaptureSome(c))
    case CaptureArrayCall => Some(CaptureArray(c))
  }

  /** The core after a flat stream of calls, or None if one of them fails. */
  function Run(input: seq<char>, c: Core, calls: seq<Call>): Option<Core>
    decreases |calls|
  {
    if calls == [] then Some(c)
    else
      match Step(input, c, calls[0])
      case None => None
      case Some(c') => Run(input, c', calls[1..])
  }

  /** Starting at group depth `depth`, no `endGroup` in `calls` finds the
      group stack empty. */
  predicate GroupSafe(depth: nat, calls: seq<Call>)
    decreases |calls|
  {
    if calls == [] then true
    else if calls[0].BeginGroupCall? then GroupSafe(depth + 1, calls[1..])
    else if calls[0].EndGroupCall? then depth > 0 && GroupSafe(depth - 1, calls[1..])
    else GroupSafe(depth, calls[1..])
  }

  /** Starting in capture state `cs`, every `beginCapture` finds no capture
      open and every `endCapture` finds one open with a valid end. */
  predicate CaptureSafe(input: seq<char>, cs: CaptureState, calls: seq<Call>)
    decreases |calls|
  {
    if calls == [] then true
    else
      match calls[0]
      case BeginCaptureCall(index) => cs.IsEnded() && CaptureSafe(input, Started(index), calls[1..])
      case EndCaptureCall(endIndex, _) => CanEndCapture(input, cs, endIndex) && CaptureSafe(input, Ended, calls[1..])
      case _ => CaptureSafe(input, cs, calls[1..])
  }

  /** Group depth gained by `calls`: begins minus ends. */
  function Net(calls: seq<Call>): int
    decreases |calls|
  {
    if calls == [] then 0
    else (if calls[0].BeginGroupCall? then 1 else if calls[0].EndGroupCall? then -1 else 0) + Net(calls[1..])
  }
}
