/** Vocabulary shared by every component of the moderation system. */
module Domain {

  datatype Option<+T> = None | Some(value: T)

  /** The three verdicts of a decision envelope. */
  datatype Decision = ALLOW | FLAG | BLOCK

  /** The values the jobs.status column may hold. */
  datatype JobStatus = Queued | Processing | Succeeded | Failed | Dead
}
