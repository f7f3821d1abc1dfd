/** Option and Result wrappers, and the error taxonomy of the alarm lifecycle manager. */
module Outcomes {

  datatype Option<+T> = None | Some(value: T)

  datatype Result<+T, +E> = Ok(value: T) | Err(error: E)

  /** The errors the alarm handler can raise.
      UnknownMetricType is the registry's fail-fast error; RemoteListError is a failed or
      unanswered describeAlarms call; RemoteCreateError is a rejected putMetricAlarm call.
      A rejected deleteAlarms call is swallowed where it happens and never becomes an Error. */
  datatype Error =
    | UnknownMetricType(metricType: string)
    | RemoteListError
    | RemoteCreateError
}
