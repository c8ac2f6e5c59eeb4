# Capture-tracking thread core of the legacy regex virtual machine

This project models, in Dafny, the per-thread state that the legacy regex
virtual machine mutates while it runs compiled regex code over a string, and
proves how that state turns a flat stream of capture calls into a nested
capture tree.

- `captures.dfy` (`Captures`): the four-shape `Capture` value (`Atom`,
  `Optional`, `Array`, `TupleOrAtom`), half-open `Range`s of input offsets and
  the optional capture transform.
- `capture_state.dfy` (`CaptureStates`): the `started(index)` / `ended`
  machine. `start` and `end` reassign the enum in the source; here they are
  functions that return the new state, and the thread core stores it back.
- `stack.dfy` (`Stacks`): the array-backed `Stack<T>`. It is a class whose
  `stack` field is a sequence that `Push` and `Pop` reassign.
- `core_model.dfy` (`CoreModel`): the thread core as a value `Core`, with one
  function per operation. `Call`, `Step` and `Run` describe a stream of calls
  that the dispatch loop might make. A call whose assertion or fatal error
  would stop the program yields `None`.
- `core_lemmas.dfy` (`CoreLemmas`): properties of call streams. A stream fails
  exactly on a group-stack underflow or a capture-state violation. Nesting is
  balanced. Outer scopes are untouched. A group collapses to at most one
  entry. Repeated groups collect in order.
- `thread_core.dfy` (`ThreadCores`): the `ThreadCore` class with fields `pc`,
  `input`, `groups`, `topLevelCaptures` and `captureState`. Each mutating
  method states its new fields directly and is tied to the value model
  through `State()`.
- `matching.dfy` (`Matching`): `MatchMode`, `MatchResult` with `destructure`,
  and the convenience `execute` that forwards the whole input range.

`String.Index` is a `nat` offset into `input: seq<char>`.
`InstructionAddress` is an `int`. Swift's `assert` and `fatalError` become
preconditions of the class methods.

## Model

| member | source | states |
|---|---|---|
| `CaptureStates.CaptureState.IsEnded` | Sources/Regex/Legacy/VirtualMachine.swift:54-59 | holds exactly when no capture is open |
| `CaptureStates.CaptureState.Start` | Sources/Regex/Legacy/VirtualMachine.swift:61-64 | allowed only when ended; leaves the capture open at the given index |
| `CaptureStates.CaptureState.End` | Sources/Regex/Legacy/VirtualMachine.swift:66-72 | allowed only when started, at an end not before the start; returns to ended and yields the range from the start index to the end index |
| `CaptureStates.StartEndRoundTrip` | Sources/Regex/Legacy/VirtualMachine.swift:61-72 | starting at s and ending at e returns to the ended state and yields exactly s..<e |
| `Stacks.Stack.constructor` | Sources/Regex/Legacy/VirtualMachine.swift:135 | a new stack is empty |
| `Stacks.Stack.IsEmpty` | Sources/Regex/Legacy/VirtualMachine.swift:136 | true exactly when the length is 0 |
| `Stacks.Stack.Pop` | Sources/Regex/Legacy/VirtualMachine.swift:138-141 | requires a non-empty stack; the remaining stack with the returned element pushed back is the old stack |
| `Stacks.Stack.Push` | Sources/Regex/Legacy/VirtualMachine.swift:142-144 | the new stack is the old one with the element on top |
| `Stacks.Stack.Peek` | Sources/Regex/Legacy/VirtualMachine.swift:145-148 | requires a non-empty stack; returns the top element, reads only |
| `Stacks.PushPeekPop` | Sources/Regex/Legacy/VirtualMachine.swift:138-148 | push then peek sees the pushed element; pop then returns it and the stack is as before |
| `Captures.Transformed` | Sources/Regex/Legacy/VirtualMachine.swift:96 | the substring itself without a transform, the transform applied to the substring with one |
| `CoreModel.Init` | Sources/Regex/Legacy/VirtualMachine.swift:77-84 | a new core starts at the given pc with no group, no capture and the capture state ended |
| `CoreModel.Advance` | Sources/Regex/Legacy/VirtualMachine.swift:86 | pc grows by one; nothing else changes |
| `CoreModel.Go` | Sources/Regex/Legacy/VirtualMachine.swift:87 | pc becomes the target; nothing else changes |
| `CoreModel.BeginCapture` | Sources/Regex/Legacy/VirtualMachine.swift:89-91 | requires the state ended; the state becomes started at the index; pc, groups and captures unchanged |
| `CoreModel.EndCapture` | Sources/Regex/Legacy/VirtualMachine.swift:93-98 | requires an open capture with start <= end <= input length; state ended; exactly one atom of the (transformed) text input[start..end] appended after the unchanged earlier captures; pc and groups unchanged |
| `CoreModel.BeginGroup` | Sources/Regex/Legacy/VirtualMachine.swift:100-103 | group depth grows by one, the earlier frames are kept, the new top frame is the old capture list, and the current captures are empty |
| `CoreModel.EndGroup` | Sources/Regex/Legacy/VirtualMachine.swift:105-112 | requires a non-empty group stack; pops the top frame t; captures become t followed by the group's contribution; pc and capture state unchanged |
| `CoreModel.Contribution` | Sources/Regex/Legacy/VirtualMachine.swift:108-110 | a finished group adds at most one entry, none exactly when it captured nothing, otherwise a tuple-or-atom of its captures |
| `CoreModel.CaptureNil` | Sources/Regex/Legacy/VirtualMachine.swift:114-116 | captures become exactly one absent optional; other fields unchanged |
| `CoreModel.CaptureSome` | Sources/Regex/Legacy/VirtualMachine.swift:118-120 | captures become exactly one present optional whose unwrapped tuple holds the previous captures; other fields unchanged |
| `CoreModel.CaptureArray` | Sources/Regex/Legacy/VirtualMachine.swift:122-124 | captures become exactly one array of the previous captures, order kept; other fields unchanged |
| `CoreModel.SingleCapture` | Sources/Regex/Legacy/VirtualMachine.swift:126-128 | the current captures as one tuple-or-atom, order kept |
| `CoreLemmas.BeginEndGroupRestores` | Sources/Regex/Legacy/VirtualMachine.swift:100-112 | begin group then end group restores the whole core; an empty group contributes nothing |
| `CoreLemmas.RunSucceedsIff` | Sources/Regex/Legacy/VirtualMachine.swift:61-112 | a call stream completes if and only if no end of group finds the group stack empty (the assert at line 106 and the stop in `pop` at line 139) and every begin/end of capture respects the capture state, the range bounds and the slice of the input (line 95) |
| `CoreLemmas.DoubleBeginCaptureFails` | Sources/Regex/Legacy/VirtualMachine.swift:61-64 | two begins of capture in a row stop the program |
| `CoreLemmas.EndCaptureWithoutBeginFails` | Sources/Regex/Legacy/VirtualMachine.swift:66-69 | ending a capture when none is open stops the program |
| `CoreLemmas.RunFrames` | Sources/Regex/Legacy/VirtualMachine.swift:100-112 | a completed stream changes the group depth by begins minus ends, and frames below those it closes are left untouched |
| `CoreLemmas.BalancedDepth` | Sources/Regex/Legacy/VirtualMachine.swift:100-112 | from an empty group stack, a stream that never underflows leaves the stack empty exactly when it closed every group it opened |
| `CoreLemmas.GroupCollapse` | Sources/Regex/Legacy/VirtualMachine.swift:100-112 | a group around a balanced body restores the group stack and adds to the outer captures exactly the contribution of what the body captured |
| `CoreLemmas.SingleCaptureCollapse` | Sources/Regex/Legacy/VirtualMachine.swift:89-98 | begin capture at p1 then end at p2 with no transform, from an empty scope, reads back as a tuple-or-atom of one atom input[p1..p2] |
| `CoreLemmas.IterationsAt` | Sources/Regex/Legacy/VirtualMachine.swift:105-112 | entry k of what repeated one-capture groups leave is the k-th span's text as a tuple-or-atom of one atom |
| `CoreLemmas.AtomGroupsRun` | Sources/Regex/Legacy/VirtualMachine.swift:100-112 | a sequence of one-capture groups appends one entry per group to the scope, in order |
| `CoreLemmas.RepeatedGroupsCollect` | Sources/Regex/Legacy/VirtualMachine.swift:122-124 | after one capturing group per span, capture array leaves one array with one entry per iteration, in order |
| `ThreadCores.ThreadCore.constructor` | Sources/Regex/Legacy/VirtualMachine.swift:74-84 | pc at the start address, input bound, fresh empty group stack, no captures, state ended |
| `ThreadCores.ThreadCore.Advance` | Sources/Regex/Legacy/VirtualMachine.swift:86 | pc + 1, other fields unchanged, matches `CoreModel.Advance` |
| `ThreadCores.ThreadCore.Go` | Sources/Regex/Legacy/VirtualMachine.swift:87 | pc becomes the target, other fields unchanged, matches `CoreModel.Go` |
| `ThreadCores.ThreadCore.BeginCapture` | Sources/Regex/Legacy/VirtualMachine.swift:89-91 | requires the state ended; state started at the index; pc, groups and captures unchanged |
| `ThreadCores.ThreadCore.EndCapture` | Sources/Regex/Legacy/VirtualMachine.swift:93-98 | requires an open capture and a valid end; state ended and one atom of the (transformed) captured text appended |
| `ThreadCores.ThreadCore.BeginGroup` | Sources/Regex/Legacy/VirtualMachine.swift:100-103 | pushes the old captures on the group stack and empties the captures |
| `ThreadCores.ThreadCore.EndGroup` | Sources/Regex/Legacy/VirtualMachine.swift:105-112 | requires a non-empty group stack; pops the top frame and makes it the captures, extended by the group's contribution |
| `ThreadCores.ThreadCore.CaptureNil` | Sources/Regex/Legacy/VirtualMachine.swift:114-116 | captures become exactly one absent optional |
| `ThreadCores.ThreadCore.CaptureSome` | Sources/Regex/Legacy/VirtualMachine.swift:118-120 | captures become exactly one present optional of a tuple-or-atom of the old captures |
| `ThreadCores.ThreadCore.CaptureArray` | Sources/Regex/Legacy/VirtualMachine.swift:122-124 | captures become exactly one array of the old captures |
| `ThreadCores.ThreadCore.SingleCapture` | Sources/Regex/Legacy/VirtualMachine.swift:126-128 | returns the captures as one tuple-or-atom without changing state |
| `ThreadCores.CaptureOnce` | Sources/Regex/Legacy/VirtualMachine.swift:89-128 | on a fresh core, an optional group around one capture reads back inside as a tuple-or-atom of one atom input[p1..p2]; outside, the group leaves one tuple-or-atom holding that value as a present optional |
| `Matching.MatchResult.Destructure` | Sources/Regex/Legacy/VirtualMachine.swift:10-14 | the parts put back together give the same result |
| `Matching.WholeRange` | Sources/Regex/Legacy/VirtualMachine.swift:41 | the range runs from offset 0 to the length of the input |
| `Matching.Execute` | Sources/Regex/Legacy/VirtualMachine.swift:38-42 | the convenience execute asks the machine for the range 0..<length of the input, in the mode given |
| `Matching.ExecuteForwardsWholeRange` | Sources/Regex/Legacy/VirtualMachine.swift:36-43 | the convenience execute asks the machine for the whole input range, and defaults the mode to whole string |

## Left out

- The `VirtualMachine` protocol's `motto`, `init` and ranged `execute` have no implementation in the source. The instruction dispatch and search strategy are not part of this model. `execute` appears only as a function parameter of the convenience form.
- `MatchMode` is modelled only as a value. What `partialFromFront` accepts is decided by the dispatch loop, which is not part of this model.
- `RECode` and its instruction set are not part of this model. `pc` is a plain integer.
- A capture transform returns an arbitrary value in the source. Here it is a function from text to text, so an atom always holds text.
- `ThreadCore` is a value type in the source, so copies taken for backtracking are independent. Here it is a class; copying and restoring snapshots is not modelled. The value model `CoreModel.Core` describes such snapshots.
- `ThreadCores.ThreadCore.BeginCapture`: requires the capture state to be ended, as the source's `assert` does. With assertions disabled, the source would instead overwrite the open capture. That build mode is not modelled.
- `ThreadCores.ThreadCore.EndGroup`: likewise treats the source's `assert` on an empty group stack as a precondition. `pop` stops the program on an empty stack either way.
- `Captures.Capture.TupleOrAtom` is an uncollapsed constructor: a one-element tuple-or-atom is not identified with its element. The `Capture` type is not part of this model's sources, so its collapsing behaviour is not modelled.
- String indices are plain offsets. Swift's character and grapheme view of `String.Index` is not modelled.
- The benchmark registration file is glue that registers benchmarks. It contains no logic belonging to this core.
