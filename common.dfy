/** Values shared by the resolvers: nullable values, and the outcome of a
    resolver that either returns a value or throws. */
module Common {

  /** A nullable GraphQL value. `None` stands for both JavaScript `null` and
      `undefined`: GraphQL serialises both as `null`, and both are falsy. */
  datatype Option<+T> = None | Some(value: T)

  /** The exceptions the resolvers can throw. */
  datatype Error =
    | NotFound(message: string)   // the Error thrown for a missing id (server.js:100, server.js:115)
    | InvalidArrayLength          // the RangeError of `new Array(n)` for a negative `n`
    | CannotDestructure           // the TypeError of destructuring `null` or `undefined`

  /** What a resolver call yields: a value, or a thrown error that the
      GraphQL runtime places in the response's error list. */
  datatype Result<+T> = Ok(value: T) | Err(error: Error)

  /** GraphQL's `Int` scalar: a signed 32-bit integer. The runtime rejects
      any argument outside this range before a resolver runs. */
  type Int32 = x: int | -0x8000_0000 <= x < 0x8000_0000
}
