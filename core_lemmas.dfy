/** Properties of the thread-core protocol: how a stream of calls nests
    groups, when it fails, and what each group leaves in its parent. */
module CoreLemmas {
  import opened Captures
  import opened CaptureStates
  import opened CoreModel

  /** An empty group contributes nothing: entering and leaving it restores
      the whole core. */
  lemma BeginEndGroupRestores(c: Core)
    ensures EndGroup(BeginGroup(c)) == c
  {
  }

  /** Running `a + b` is running `a`, then `b` from where `a` stopped. */
  lemma {:induction false} RunAppend(input: seq<char>, c: Core, a: seq<Call>, b: seq<Call>)
    ensures Run(input, c, a + b) == match Run(input, c, a) case None => None case Some(d) => Run(input, d, b)
    decreases |a|
  {
    if a != [] {
      assert (a + b)[0] == a[0];
      assert (a + b)[1..] == a[1..] + b;
      match Step(input, c, a[0])
      case None =>
      case Some(c') => RunAppend(input, c', a[1..], b);
    } else {
      assert a + b == b;
    }
  }

  /** A stream of calls completes exactly when it never ends a group on an
      empty group stack and never breaks the capture state discipline. */
  lemma {:induction false} RunSucceedsIff(input: seq<char>, c: Core, calls: seq<Call>)
    ensures Run(input, c, calls).Some? <==>
            GroupSafe(|c.groups|, calls) && CaptureSafe(input, c.captureState, calls)
    decreases |calls|
  {
    if calls != [] {
      var rest := calls[1..];
      match calls[0]
      case AdvanceCall => RunSucceedsIff(input, Advance(c), rest);
      case GoCall(to) => RunSucceedsIff(input, Go(c, to), rest);
      case BeginCaptureCall(index) =>
        if c.captureState.IsEnded() { RunSucceedsIff(input, BeginCapture(c, index), rest); }
      case EndCaptureCall(endIndex, transform) =>
        if CanEndCapture(input, c.captureState, endIndex) {
          RunSucceedsIff(input, EndCapture(input, c, endIndex, transform), rest);
        }
      case BeginGroupCall => RunSucceedsIff(input, BeginGroup(c), rest);
      case EndGroupCall =>
        if |c.groups| > 0 { RunSucceedsIff(input, EndGroup(c), rest); }
      case CaptureNilCall => RunSucceedsIff(input, CaptureNil(c), rest);
      case CaptureSomeCall => RunSucceedsIff(input, CaptureSome(c), rest);
      case CaptureArrayCall => RunSucceedsIff(input, CaptureArray(c), rest);
    }
  }

  /** Beginning a capture while one is open fails. */
  lemma DoubleBeginCaptureFails(input: seq<char>, c: Core, i: nat, j: nat)
    ensures Run(input, c, [BeginCaptureCall(i), BeginCaptureCall(j)]).None?
  {
  }

  /** Ending a capture when none is open fails. */
  lemma EndCaptureWithoutBeginFails(input: seq<char>, c: Core, e: nat, t: Option<seq<char> -> seq<char>>)
    requires c.captureState.IsEnded()
    ensures Run(input, c, [EndCaptureCall(e, t)]).None?
  {
  }

  /** A completed stream changes the group depth by its net number of
      begins, and a stream that never closes more than `k` groups it did not
      open leaves all but the top `k` suspended lists untouched. */
  lemma {:induction false} RunFrames(input: seq<char>, c: Core, calls: seq<Call>, k: nat)
    requires k <= |c.groups| && GroupSafe(k, calls)
    requires Run(input, c, calls).Some?
    ensures Net(calls) + k >= 0
    ensures |Run(input, c, calls).value.groups| == |c.groups| + Net(calls)
    ensures Run(input, c, calls).value.groups[..|c.groups| - k] == c.groups[..|c.groups| - k]
    decreases |calls|
  {
    if calls != [] {
      var c' := Step(input, c, calls[0]).value;
      var k' := if calls[0].BeginGroupCall? then k + 1 else if calls[0].EndGroupCall? then k - 1 else k;
      RunFrames(input, c', calls[1..], k');
      assert c'.groups[..|c'.groups| - k'] == c.groups[..|c.groups| - k];
    }
  }

  /** Balanced nesting from an empty stack: the stack is empty exactly when
      the calls have closed every group they opened. */
  lemma BalancedDepth(input: seq<char>, c: Core, calls: seq<Call>)
    requires c.groups == [] && GroupSafe(0, calls)
    requires Run(input, c, calls).Some?
    ensures Net(calls) >= 0
    ensures Run(input, c, calls).value.groups == [] <==> Net(calls) == 0
  {
    RunFrames(input, c, calls, 0);
  }

  /** A group whose body is balanced collapses into at most one entry of the
      enclosing scope, and leaves the group stack as it found it. */
  lemma GroupCollapse(input: seq<char>, c: Core, body: seq<Call>)
    requires GroupSafe(0, body) && Net(body) == 0
    requires Run(input, c, [BeginGroupCall] + body + [EndGroupCall]).Some?
    ensures Run(input, BeginGroup(c), body).Some?
    ensures Run(input, c, [BeginGroupCall] + body + [EndGroupCall]).value.groups == c.groups
    ensures Run(input, c, [BeginGroupCall] + body + [EndGroupCall]).value.top
            == c.top + Contribution(Run(input, BeginGroup(c), body).value.top)
  {
    var whole := [BeginGroupCall] + body + [EndGroupCall];
    RunAppend(input, c, [BeginGroupCall], body);
    RunAppend(input, c, [BeginGroupCall] + body, [EndGroupCall]);
    assert Run(input, c, [BeginGroupCall]) == Some(BeginGroup(c));
    var inner := Run(input, BeginGroup(c), body).value;
    RunFrames(input, BeginGroup(c), body, 0);
    assert inner.groups == c.groups + [c.top];
    assert Run(input, inner, [EndGroupCall]) == Some(EndGroup(inner));
  }

  /** A single capture closed at the outermost depth reads back as a
      tuple-or-atom holding one atom of exactly the captured text. */
  lemma SingleCaptureCollapse(input: seq<char>, c: Core, p1: nat, p2: nat)
    requires c.captureState.IsEnded() && c.top == []
    requires p1 <= p2 <= |input|
    ensures Run(input, c, [BeginCaptureCall(p1), EndCaptureCall(p2, None)]).Some?
    ensures SingleCapture(Run(input, c, [BeginCaptureCall(p1), EndCaptureCall(p2, None)]).value)
            == TupleOrAtom([Atom(input[p1..p2])])
  {
    var c1 := BeginCapture(c, p1);
    assert Run(input, c, [BeginCaptureCall(p1), EndCaptureCall(p2, None)]) == Run(input, c1, [EndCaptureCall(p2, None)]);
    assert Run(input, c1, [EndCaptureCall(p2, None)]) == Some(EndCapture(input, c1, p2, None));
  }

  /** The calls of one iteration of a group that captures `span` once. */
  function AtomGroup(span: Range): seq<Call>
  {
    [BeginGroupCall, BeginCaptureCall(span.lower), EndCaptureCall(span.upper, None), EndGroupCall]
  }

  function AtomGroups(spans: seq<Range>): seq<Call>
    decreases |spans|
  {
    if spans == [] then [] else AtomGroup(spans[0]) + AtomGroups(spans[1..])
  }

  predicate SpansIn(input: seq<char>, spans: seq<Range>)
  {
    forall k :: 0 <= k < |spans| ==> spans[k].lower <= spans[k].upper <= |input|
  }

  lemma SpansInTail(input: seq<char>, spans: seq<Range>)
    requires SpansIn(input, spans) && spans != []
    ensures SpansIn(input, spans[1..])
  {
    forall k | 0 <= k < |spans| - 1 ensures spans[1..][k].lower <= spans[1..][k].upper <= |input| {
      assert spans[1..][k] == spans[k + 1];
    }
  }

  /** What the iterations of `AtomGroups(spans)` leave behind, one entry per
      iteration, in order. */
  function Iterations(input: seq<char>, spans: seq<Range>): (r: seq<Capture>)
    requires SpansIn(input, spans)
    ensures |r| == |spans|
    decreases |spans|
  {
    if spans == [] then []
    else [TupleOrAtom([Atom(input[spans[0].lower..spans[0].upper])])] + Iterations(input, spans[1..])
  }

  /** Entry `k` of the iterations is the `k`-th span's text, as one
      tuple-or-atom of one atom. */
  lemma {:induction false} IterationsAt(input: seq<char>, spans: seq<Range>, k: nat)
    requires SpansIn(input, spans) && k < |spans|
    ensures Iterations(input, spans)[k] == TupleOrAtom([Atom(input[spans[k].lower..spans[k].upper])])
    decreases |spans|
  {
    if k > 0 {
      var rest := spans[1..];
      SpansInTail(input, spans);
      IterationsAt(input, rest, k - 1);
    }
  }

  lemma AtomGroupRun(input: seq<char>, c: Core, span: Range)
    requires c.captureState.IsEnded() && span.lower <= span.upper <= |input|
    ensures Run(input, c, AtomGroup(span)) == Some(c.(top := c.top + [TupleOrAtom([Atom(input[span.lower..span.upper])])]))
  {
    var c1 := BeginGroup(c);
    var c2 := BeginCapture(c1, span.lower);
    var c3 := EndCapture(input, c2, span.upper, None);
    assert c3.top == [Atom(input[span.lower..span.upper])];
    var c4 := EndGroup(c3);
    assert Run(input, c3, [EndGroupCall]) == Some(c4);
    assert Run(input, c2, [EndCaptureCall(span.upper, None), EndGroupCall]) == Some(c4);
    assert Run(input, c1, [BeginCaptureCall(span.lower), EndCaptureCall(span.upper, None), EndGroupCall]) == Some(c4);
  }

  lemma {:induction false} AtomGroupsRun(input: seq<char>, c: Core, spans: seq<Range>)
    requires c.captureState.IsEnded() && SpansIn(input, spans)
    ensures Run(input, c, AtomGroups(spans)) == Some(c.(top := c.top + Iterations(input, spans)))
    decreases |spans|
  {
    if spans == [] {
      assert c.top + [] == c.top;
    } else {
      var rest := spans[1..];
      var first := TupleOrAtom([Atom(input[spans[0].lower..spans[0].upper])]);
      SpansInTail(input, spans);
      assert AtomGroups(spans) == AtomGroup(spans[0]) + AtomGroups(rest);
      assert Iterations(input, spans) == [first] + Iterations(input, rest);
      RunAppend(input, c, AtomGroup(spans[0]), AtomGroups(rest));
      AtomGroupRun(input, c, spans[0]);
      var c' := c.(top := c.top + [first]);
      assert Run(input, c, AtomGroups(spans)) == Run(input, c', AtomGroups(rest));
      AtomGroupsRun(input, c', rest);
      calc {
        c'.top + Iterations(input, rest);
        (c.top + [first]) + Iterations(input, rest);
        c.top + ([first] + Iterations(input, rest));
        c.top + Iterations(input, spans);
      }
    }
  }

  /** Repeated-group accumulation: after one capturing group per span,
      `captureArray` leaves a single array holding one entry per iteration,
      in iteration order. */
  lemma RepeatedGroupsCollect(input: seq<char>, c: Core, spans: seq<Range>)
    requires c.captureState.IsEnded() && c.top == [] && SpansIn(input, spans)
    ensures Run(input, c, AtomGroups(spans) + [CaptureArrayCall]).Some?
    ensures Run(input, c, AtomGroups(spans) + [CaptureArrayCall]).value.top == [Array(Iterations(input, spans))]
  {
    AtomGroupsRun(input, c, spans);
    RunAppend(input, c, AtomGroups(spans), [CaptureArrayCall]);
    assert c.top + Iterations(input, spans) == Iterations(input, spans);
  }
}
