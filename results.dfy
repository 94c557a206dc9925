/** Optional values and the outcome of a step that can fail with a Go error. */
module Results {
  datatype Option<+T> = None | Some(value: T)

  /**
    The outcome of reading a source or of a remote round trip: a value, or
    the Go error that step returned, carried as its message.
   */
  datatype IoResult<+T> = Ok(value: T) | IoError(message: string)
}
