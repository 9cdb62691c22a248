/** Result shapes shared by the models: an optional value, and a value or an error message. */
module Options {

  datatype Option<+T> = None | Some(value: T)

  datatype Result<+T> = Ok(value: T) | Err(error: string)
}
