/** Result and error values shared by the store and its log replay. */
module Outcomes {

  datatype Option<T> = None | Some(value: T)

  /** The failures the store can report.
      KeyNotFound: the "key not found" error of Get, Delete and deleteReplay.
      IoError: the log file could not be opened.
      IndexOutOfRange: the run-time panic replay hits on a PUT line without a value field. */
  datatype Error = KeyNotFound | IoError | IndexOutOfRange

  datatype Result<T> = Ok(value: T) | Err(error: Error)
}
