/** Results and error numbers shared by the whole model. */
module Common {

  datatype Option<+T> = None | Some(value: T) {
    function GetOr(default: T): T {
      match this case Some(v) => v case None => default
    }
  }

  /** The error numbers the modelled calls return. */
  datatype Errno =
    | EACCES | EBADF | EBUSY | EEXIST | EFAULT | EINVAL | EIO | EISDIR | ELOOP | ENAMETOOLONG
    | ENODEV | ENOENT | ENOTDIR | ENOTEMPTY | EPERM | ERANGE | ESPIPE

  datatype Result<+T> = Ok(value: T) | Err(error: Errno)
}
