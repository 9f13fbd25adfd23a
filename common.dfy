/** Values shared by both chat stores and the chat page: optional values,
    outcomes of operations that can throw, the message type of the `ai`
    package, and JavaScript's truthiness of strings. */
module Common {

  datatype Option<T> = None | Some(value: T)

  /** Either the value an operation returns or the message of the `Error`
      it throws. */
  datatype Result<T> = Ok(value: T) | Err(message: string)

  /** A JavaScript string is truthy exactly when it is not empty; `a || b`
      on strings and `if (s)` both test this. */
  predicate Truthy(s: string)
  {
    s != ""
  }

  /** The roles a message of the `ai` package can carry. */
  datatype Role = System | User | Assistant | Data

  /** A message of the `ai` package; `createdAt` is optional there and is a
      clock reading here. */
  datatype Message = Message(id: string, role: Role, content: string, createdAt: Option<int>)
}
