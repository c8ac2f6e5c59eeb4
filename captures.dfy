/** Capture values built by the legacy regex virtual machine, and the text
    ranges they are cut from. A `String.Index` is modelled as a `nat` offset
    into the input, a `Range<String.Index>` as a pair of offsets. */
module Captures {

  datatype Option<+T> = None | Some(value: T)

  datatype Bounds = Bounds(lower: nat, upper: nat)

  /** A half-open range `lower..<upper` of input offsets; as with Swift's
      `Range`, the lower bound never exceeds the upper. */
  type Range = r: Bounds | r.lower <= r.upper witness Bounds(0, 0)

  /** The four shapes of a capture. An atom holds the matched substring (or
      the value a capture transform made of it). */
  datatype Capture =
    | Atom(value: seq<char>)
    | Optional(inner: Option<Capture>)
    | Array(items: seq<Capture>)
    | TupleOrAtom(items: seq<Capture>)

  /** The value an end of capture records: the transform applied to the
      substring when there is one, the substring itself otherwise. */
  function Transformed(substring: seq<char>, transform: Option<seq<char> -> seq<char>>): (r: seq<char>)
    ensures transform.None? ==> r == substring
    ensures transform.Some? ==> r == transform.value(substring)
  {
    match transform
    case None => substring
    case Some(f) => f(substring)
  }
}
