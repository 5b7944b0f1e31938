/** Option, Result and HTTP-style response wrappers shared by every module. */
module Wrappers {

  datatype Option<+T> = None | Some(value: T)

  /** A service call's outcome: a value, or the message of the error dict
      (`{'error': ...}`) or exception the source produces instead. */
  datatype Result<+T> = Ok(value: T) | Err(error: string)

  /** An endpoint's reply: a status code with a body, or an error status
      with the message the source puts under its `error` (or `message`) key. */
  datatype Response<+T> =
    | Success(code: nat, body: T)
    | Failure(code: nat, message: string)

  const HTTP_200: nat := 200
  const HTTP_201: nat := 201
  const HTTP_400: nat := 400
  const HTTP_404: nat := 404
  const HTTP_500: nat := 500

  /** Python truthiness of an optional float: None and 0.0 are both false. */
  predicate TruthyReal(o: Option<real>) {
    o.Some? && o.value != 0.0
  }

  /** Python truthiness of an optional string: None and "" are both false. */
  predicate TruthyString(o: Option<string>) {
    o.Some? && o.value != ""
  }
}
