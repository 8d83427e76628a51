/** Values shared by every module: JavaScript's `undefined`/`null`, thrown
    errors, and the outcome of a call that either returns or throws. */
module Wrappers {

  /** A value that may be missing (None). A parameter with a default value
      falls back only for `undefined`, so there None stands for `undefined`;
      an explicit `null` passed to such a parameter is not modelled. */
  datatype Option<+T> = None | Some(value: T) {

    /** JavaScript's `x ?? fallback`. */
    function GetOr(fallback: T): T {
      match this
      case Some(v) => v
      case None => fallback
    }
  }

  /** A thrown JavaScript error: its constructor name (`Error`, `TypeError`)
      and its message. */
  datatype Error = Error(name: string, message: string)

  /** `new Error(message)`. */
  function Fail(message: string): Error {
    Error("Error", message)
  }

  /** What a template literal `${e}` produces for an error, as
      `Error.prototype.toString` builds it: the name, ": " and the message,
      with the separator and the empty part dropped when either is empty. */
  function Render(e: Error): (s: string)
    ensures e.name == "" ==> s == e.message
    ensures e.message == "" ==> s == e.name
    ensures e.name != "" && e.message != "" ==>
      && |s| == |e.name| + 2 + |e.message|
      && s[..|e.name|] == e.name
      && s[|e.name|..|e.name| + 2] == ": "
      && s[|e.name| + 2..] == e.message
  {
    if e.name == "" then e.message
    else if e.message == "" then e.name
    else e.name + ": " + e.message
  }

  /** `${new Error(message)}`: "Error" alone for an empty message. */
  lemma RenderFail(message: string)
    ensures message == "" ==> Render(Fail(message)) == "Error"
    ensures message != "" ==> Render(Fail(message)) == "Error: " + message
  {
  }

  /** The result of an awaited call: the value it resolved to, or what it threw. */
  datatype Outcome<+T> = Ok(value: T) | Thrown(error: Error)
}
