/** Value types shared by every part of the support pipeline. */
module Base {

  /** Rust's `Option<T>`. */
  datatype Option<T> = None | Some(value: T)

  /** A chat message as exchanged with the language model (`role`, `content`). */
  datatype Message = Message(role: string, content: string)

  /** A wall-clock reading (`DateTime<Local>`); only its identity matters here. */
  datatype Stamp = Stamp(micros: int)

  /** A case identifier (a random version-4 UUID in the system). */
  datatype CaseId = CaseId(bits: nat)

  /** The summed lengths of the strings in `xs`. */
  function TotalLength(xs: seq<string>): nat
    decreases |xs|
  {
    if |xs| == 0 then 0 else |xs[0]| + TotalLength(xs[1..])
  }

  /** `xs.join(sep)`: the elements of `xs` with `sep` between neighbours. */
  function Join(xs: seq<string>, sep: string): (r: string)
    ensures |xs| > 0 ==> xs[0] <= r && |r| == TotalLength(xs) + (|xs| - 1) * |sep|
    decreases |xs|
  {
    if |xs| == 0 then ""
    else if |xs| == 1 then xs[0]
    else xs[0] + sep + Join(xs[1..], sep)
  }
}
