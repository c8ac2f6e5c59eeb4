/** The thread core of the legacy virtual machine: the mutable state of one
    match attempt. Every method is proved against the value model in
    core_model.dfy through `State()`. */
module ThreadCores {
  import opened Captures
  import opened CaptureStates
  import opened Stacks
  import CoreModel

  class ThreadCore {
    var pc: int
    const input: seq<char>
    /** Suspended capture lists of the enclosing groups, one per open group. */
    const groups: Stack<seq<Capture>>
    /** Captures gathered at the current nesting depth. */
    var topLevelCaptures: seq<Capture>
    var captureState: CaptureState

    ghost function State(): CoreModel.Core
      reads this, groups
    {
      CoreModel.Core(pc, groups.stack, topLevelCaptures, captureState)
    }

    constructor (startingAt: int, input: seq<char>)
      ensures this.input == input && fresh(groups)
      ensures pc == startingAt && groups.stack == [] && topLevelCaptures == [] && captureState == Ended
      ensures State() == CoreModel.Init(startingAt)
    {
      pc := startingAt;
      this.input := input;
      groups := new Stack();
      topLevelCaptures := [];
      captureState := Ended;
    }

    method Advance()
      modifies this
      ensures pc == old(pc) + 1
      ensures topLevelCaptures == old(topLevelCaptures) && captureState == old(captureState)
      ensures State() == CoreModel.Advance(old(State()))
    {
      pc := pc + 1;
    }

    method Go(to: int)
      modifies this
      ensures pc == to
      ensures topLevelCaptures == old(topLevelCaptures) && captureState == old(captureState)
      ensures State() == CoreModel.Go(old(State()), to)
    {
      pc := to;
    }

    /** Opens a capture at `index`; a capture must not already be open. */
    method BeginCapture(index: nat)
      requires captureState.IsEnded()
      modifies this
      ensures captureState == Started(index)
      ensures pc == old(pc) && topLevelCaptures == old(topLevelCaptures)
      ensures State() == CoreModel.BeginCapture(old(State()), index)
    {
      captureState := captureState.Start(index);
    }

    /** Closes the open capture at `endIndex` and appends its text, passed
        through `transform` when there is one, as an atom. */
    method EndCapture(endIndex: nat, transform: Option<seq<char> -> seq<char>>)
      requires CoreModel.CanEndCapture(input, captureState, endIndex)
      modifies this
      ensures captureState.IsEnded()
      ensures topLevelCaptures
              == old(topLevelCaptures) + [Atom(Transformed(input[old(captureState).at..endIndex], transform))]
      ensures pc == old(pc)
      ensures State() == CoreModel.EndCapture(input, old(State()), endIndex, transform)
    {
      var (cs, range) := captureState.End(endIndex);
      captureState := cs;
      var substring := input[range.lower..range.upper];
      topLevelCaptures := topLevelCaptures + [Atom(Transformed(substring, transform))];
    }

    /** Suspends the current captures on the group stack and starts an
        empty scope for the group being entered. */
    method BeginGroup()
      modifies this, groups
      ensures groups.stack == old(groups.stack) + [old(topLevelCaptures)]
      ensures topLevelCaptures == []
      ensures pc == old(pc) && captureState == old(captureState)
      ensures State() == CoreModel.BeginGroup(old(State()))
    {
      groups.Push(topLevelCaptures);
      topLevelCaptures := [];
    }

    /** Leaves a group: the enclosing scope's captures come back from the
        group stack, extended by the group's own value if it captured
        anything. */
    method EndGroup()
      requires !groups.IsEmpty()
      modifies this, groups
      ensures groups.stack + [old(groups.stack)[|old(groups.stack)| - 1]] == old(groups.stack)
      ensures topLevelCaptures
              == old(groups.stack)[|old(groups.stack)| - 1] + CoreModel.Contribution(old(topLevelCaptures))
      ensures pc == old(pc) && captureState == old(captureState)
      ensures State() == CoreModel.EndGroup(old(State()))
    {
      var top := groups.Pop();
      if topLevelCaptures != [] {
        top := top + [SingleCapture()];
      }
      topLevelCaptures := top;
    }

    /** The group did not participate: its scope becomes one absent optional. */
    method CaptureNil()
      modifies this
      ensures topLevelCaptures == [Optional(None)]
      ensures pc == old(pc) && captureState == old(captureState)
      ensures State() == CoreModel.CaptureNil(old(State()))
    {
      topLevelCaptures := [Optional(None)];
    }

    /** The optional group matched: its captures are wrapped as one present
        optional. */
    method CaptureSome()
      modifies this
      ensures topLevelCaptures == [Optional(Some(TupleOrAtom(old(topLevelCaptures))))]
      ensures pc == old(pc) && captureState == old(captureState)
      ensures State() == CoreModel.CaptureSome(old(State()))
    {
      topLevelCaptures := [Optional(Some(TupleOrAtom(topLevelCaptures)))];
    }

    /** The repeated group finished: its iterations become one array. */
    method CaptureArray()
      modifies this
      ensures topLevelCaptures == [Array(old(topLevelCaptures))]
      ensures pc == old(pc) && captureState == old(captureState)
      ensures State() == CoreModel.CaptureArray(old(State()))
    {
      topLevelCaptures := [Array(topLevelCaptures)];
    }

    function SingleCapture(): (r: Capture)
      reads this, groups
      ensures r.TupleOrAtom? && r.items == topLevelCaptures
      ensures r == CoreModel.SingleCapture(State())
    {
      TupleOrAtom(topLevelCaptures)
    }
  }

  /** On a fresh thread core, an optional group holding one capture from
      `p1` to `p2`: inside the group the capture reads back as a
      tuple-or-atom of one atom of exactly `input[p1..p2]`; outside, the
      group leaves one tuple-or-atom holding that value as a present
      optional. */
  method CaptureOnce(input: seq<char>, p1: nat, p2: nat) returns (single: Capture, outer: seq<Capture>)
    requires p1 <= p2 <= |input|
    ensures single == TupleOrAtom([Atom(input[p1..p2])])
    ensures outer == [TupleOrAtom([Optional(Some(single))])]
  {
    var t := new ThreadCore(0, input);
    t.BeginGroup();
    t.BeginCapture(p1);
    t.EndCapture(p2, None);
    single := t.SingleCapture();
    t.CaptureSome();
    t.EndGroup();
    outer := t.topLevelCaptures;
  }
}
