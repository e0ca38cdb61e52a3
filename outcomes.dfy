/** Values shared by every part of the job: optional values, results, and the
    errors that the job's asynchronous functions reject with. */
module Outcomes {

  datatype Option<+T> = None | Some(value: T)

  datatype Result<+R, +E> = Success(value: R) | Failure(error: E)

  /** What a rejected promise carries, as far as the job tells errors apart.
      - Thrown: a plain `Error` with a message (the job's own `throw new Error(...)`,
        or any other non-HTTP error a collaborator rejects with);
      - Http: an error raised by the HTTP client, with the response status if a
        response arrived and the client's error code if it set one;
      - XmlParse: the markup parser's rejection of a malformed document;
      - FieldAccess: the runtime fault of reading a property of `undefined`. */
  datatype Error =
    | Thrown(message: string)
    | Http(status: Option<int>, code: Option<string>, message: string)
    | XmlParse(message: string)
    | FieldAccess
}
