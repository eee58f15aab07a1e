/** Optional values (a C# reference that may be null) and results of
    operations that throw an argument exception instead of returning. */
module Basics {
  datatype Option<T> = None | Some(value: T)

  datatype Result<T, E> = Ok(value: T) | Err(error: E)
}
