/** Failure results: the drivers report an unsupported request by throwing `operation_not_supported`. */
module Results {

  datatype Option<T> = None | Some(value: T)

  datatype Error = OperationNotSupported

  datatype Result<T> = Ok(value: T) | Err(error: Error)
}
