/** Option, for the nullable columns and the lookups that may find nothing, and how a transaction ends. */
module Wrappers {
  datatype Option<+T> = None | Some(value: T)

  /** A late abort is one at commit, after the callback ran to its end. */
  datatype Tx = Commits | Aborts | AbortsLate
}
