/** Outcomes of the dashboard's awaited reads. */
module Outcomes {

  /** What one awaited network call gives: the value it resolved to, or an error it threw. */
  datatype Reply<+T> = Ok(value: T) | Threw

  datatype Option<+T> = None | Some(value: T)
}
