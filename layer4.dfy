/** The verdict a control returns: one of four independent states and a message. */
module Layer4 {

  datatype Result = Passed | Failed | Unknown | NotApplicable

  /** The `(result, message)` pair every control returns. */
  datatype Outcome = Outcome(result: Result, message: string)
}
