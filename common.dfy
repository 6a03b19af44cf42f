/**
 * Shared vocabulary of the three bookstore services: optional values and the
 * error kinds the services raise instead of returning a value.
 */
module Common {

  datatype Option<+T> = None | Some(value: T)

  /** The entity a failed lookup was looking for (the resource name of ResourceNotFoundException). */
  datatype Resource = BookResource | CustomerResource | OrderResource

  /**
   * The exceptions thrown by the services, by kind:
   * NotFound is ResourceNotFoundException, InvalidArgument is IllegalArgumentException,
   * OrderValidation is OrderValidationException.
   */
  datatype Error =
    | NotFound(resource: Resource)
    | InvalidArgument
    | OrderValidation

  /** The outcome of a service call: a value, or the exception it throws. */
  datatype Result<+T> = Ok(value: T) | Err(error: Error)
}
