/** Failure-carrying values shared by the training controller and the data
    preparation: a Python exception that ends a call becomes `Err`. */
module Results {

  datatype Option<+T> = None | Some(value: T)

  datatype Result<+T, +E> = Ok(value: T) | Err(error: E)
}
