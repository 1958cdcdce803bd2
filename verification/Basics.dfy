/** Vocabulary shared by every part of the model. */
module Basics {

  datatype Option<+T> = None | Some(value: T)

  /** Identifiers handed out by the PocketID server; the empty string means "none recorded". */
  type Id = string

  /** How one API call ends, as its caller and the system it acts on see it. */
  datatype Outcome =
    | Ok    // it took effect and the caller is told so
    | Lost  // it failed before it had any effect
    | Late  // it took effect, but the caller is told that it failed

  /** What a reconcile reports to its work queue. */
  datatype Verdict = Success | Failure

  /** How one part of a reconcile ends: the process died, the part failed, or it came to a value. */
  datatype Progress<+T> = Died | Broke(reason: string) | Done(value: T)
}
