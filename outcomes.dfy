/** Optional values, the errors the controllers raise, and a result type carrying one of them. */
module Outcomes {

  datatype Option<T> = None | Some(value: T)

  /** The exceptions the controllers throw:
      createNotFoundException('Expecting required parameters!') and
      createNotFoundException('No product found ... for ' . id). */
  datatype Error = MissingParameters | NoProduct(id: int)

  datatype Result<T> = Ok(value: T) | Err(error: Error)
}
