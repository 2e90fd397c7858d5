/** Values for the error paths of the build scripts: a Python `sys.exit`,
    `fatalError`, failed `assert` or raised exception becomes `Err(message)`. */
module Wrappers {

  datatype Option<T> = None | Some(value: T)

  datatype Result<T> = Ok(value: T) | Err(msg: string)
}
