/** The few JavaScript runtime values the workflow passes around: an optional
    value (a number that may be NaN, an `undefined` array element), a thrown
    `Error`, and the outcome of a foreign call that may reject. */
module Js {

  datatype Option<+T> = None | Some(value: T)

  /** A thrown `Error` object, seen through its `name` and `message` properties. */
  datatype ErrorValue = ErrorValue(name: string, message: string)

  /** What a call into the browser, the HTTP client or Slack returned:
      it resolved, or it rejected with an error. */
  datatype Outcome = Ok | Threw(error: ErrorValue)

  /** A call that resolves with a value or rejects with an error. */
  datatype Result<+T> = Value(value: T) | Failed(error: ErrorValue)

  /** `Error.prototype.toString`: the name, then ": " and the message, where an
      empty name or an empty message drops the separator. The original message
      always survives as the tail of the text, and the name as its head. */
  function ErrorText(e: ErrorValue): (r: string)
    ensures |e.message| <= |r| && r[|r| - |e.message|..] == e.message
    ensures |e.name| <= |r| && r[..|e.name|] == e.name
    ensures e.name == "" ==> r == e.message
    ensures e.name != "" && e.message == "" ==> r == e.name
    ensures e.name != "" && e.message != "" ==>
              |r| == |e.name| + 2 + |e.message| && r[|e.name|..|e.name| + 2] == ": "
  {
    if e.name == "" then e.message
    else if e.message == "" then e.name
    else e.name + ": " + e.message
  }

  /** The `TypeError` V8 throws when a property is read from `undefined` or `null`. */
  function ReadPropertyError(base: string, property: string): (e: ErrorValue)
    ensures e.name == "TypeError"
  {
    ErrorValue("TypeError", "Cannot read properties of " + base + " (reading '" + property + "')")
  }
}
