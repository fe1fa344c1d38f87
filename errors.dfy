/** The one error the system throws, identified by its message, and the
    Success/Failure shape that stands for "returns or throws". */
module Errors {

  /** A thrown `Error`, identified by its message. */
  datatype Error = Error(message: string)

  /** Thrown by an adapter stub and by the proxy's guarded call. */
  const MethodNotImplemented := Error("Method not implemented.")

  /** Thrown by both factories for an input outside the four known versions. */
  const UnknownAbiType := Error("Unknown abi type")

  /** A call that either returns a value or throws an error. */
  datatype Result<+T> = Success(value: T) | Failure(error: Error)
}
