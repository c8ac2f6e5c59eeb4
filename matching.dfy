/** The values a virtual machine hands back to its callers, and the
    convenience entry point that matches over the whole input. */
module Matching {
  import opened Captures

  datatype MatchMode = WholeString | PartialFromFront

  /** The range the whole pattern matched and the root capture. */
  datatype MatchResult = MatchResult(range: Range, captures: Capture) {

    /** The result taken apart; putting the parts back together gives the
        same result. */
    function Destructure(): (r: (Range, Capture))
      ensures MatchResult(r.0, r.1) == this
    {
      (range, captures)
    }
  }

  /** The range from the start to the end of `input`. */
  function WholeRange(input: seq<char>): (r: Range)
    ensures r.lower == 0 && r.upper == |input|
  {
    Bounds(0, |input|)
  }

  /** The convenience `execute`: a virtual machine's `execute`, given as
      the parameter `vmExecute`, run over the whole input. */
  function Execute(vmExecute: (seq<char>, Range, MatchMode) -> Option<MatchResult>,
                   input: seq<char>, mode: MatchMode := WholeString): (r: Option<MatchResult>)
    ensures r == vmExecute(input, Bounds(0, |input|), mode)
  {
    vmExecute(input, WholeRange(input), mode)
  }

  /** Without a mode the convenience `execute` matches the whole string, and
      it always asks the machine for the range `0..<|input|`. */
  lemma ExecuteForwardsWholeRange(vmExecute: (seq<char>, Range, MatchMode) -> Option<MatchResult>,
                                  input: seq<char>, mode: MatchMode)
    ensures Execute(vmExecute, input) == vmExecute(input, Bounds(0, |input|), WholeString)
    ensures Execute(vmExecute, input, mode) == vmExecute(input, Bounds(0, |input|), mode)
  {
  }
}
