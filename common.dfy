/** Small values shared by every module of the model. */
module Common {

  datatype Option<T> = None | Some(value: T)

  /** An HTTP reply: a success status with its JSON body, or an error status with the
      `message` field the handlers put in the error body. */
  datatype Response<T> = Ok(code: nat, value: T) | Fail(code: nat, message: string)

  /** JavaScript truthiness of a value that is either a string or absent
      (`undefined`/`null`): absent and the empty string are falsy. */
  predicate Truthy(s: Option<string>)
  {
    s.Some? && s.value != ""
  }
}
