/** Failure-aware result types shared by every component. */
module Wrappers {
  datatype Option<+T> = None | Some(value: T)

  /** The error codes the modelled schemes answer with. */
  datatype Errno =
    | EACCES | EAGAIN | EBADF | EBADFD | ECANCELED | ECHILD | EEXIST | EINVAL | EIO | EISDIR
    | ENFILE | ENOENT | ENOTDIR | ENOTEMPTY | EOPNOTSUPP | EPERM | EPIPE | ERESTART | ESRCH | EWOULDBLOCK

  datatype Result<+T> = Ok(value: T) | Err(error: Errno)

  /** The result of code that may hit a failing assertion, `unwrap` or `panic!`. */
  datatype Outcome<+T> = Panic | Done(value: T)
}
