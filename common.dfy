/** Types shared by every part of the booking backend model. */
module Common {

  /** A document identifier (MongoDB ObjectId), drawn from one counter in the store. */
  type Id = nat

  /** A point in time, in milliseconds since the epoch, as Date.now reports it. */
  type Time = int

  datatype Option<T> = None | Some(value: T)

  /** The failures a resolver call can end in. Each constructor stands for one thrown error. */
  datatype Error =
    | NotLoggedIn          // AuthenticationError "You must be logged in"
    | AdminRequired        // ForbiddenError "Admin access required"
    | UserExists           // "User already exists with this email"
    | InvalidCredentials   // "Invalid email or password"
    | CabNotAvailable      // "Cab is not available"
    | ValidationFailed     // the schema's `required` validator rejected the new document
    | DuplicateKey         // the unique index on licensePlate rejected the write
    | NotFound             // the update matched no document; null for a non-null GraphQL result
    | CabMissing           // the updated booking's cab no longer exists; reading its _id throws

  datatype Result<T> = Ok(value: T) | Err(error: Error)

  /** The outcome of a guard: it lets the call through or throws. */
  datatype Outcome = Pass | Fail(error: Error)
}
