/** How calls end. */
module Results {
  datatype Option<+T> = None | Some(value: T)

  datatype Error = ValueError | NotReady | CorruptPlan | CorruptCheckpoint

  /** Normally, with an exception, or not at all because the machine stopped. */
  datatype Outcome<+T> = Done(value: T) | Raised(error: Error) | Dead
}
