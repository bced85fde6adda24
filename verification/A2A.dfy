/** The task states of the A2A protocol. */
module A2A {
  datatype TaskState =
    | Unspecified
    | Submitted
    | Working
    | InputRequired
    | Completed
    | Failed
    | Canceled
    | Rejected
    | AuthRequired
}
