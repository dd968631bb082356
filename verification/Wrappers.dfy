/** Failure values shared by every module: the error codes the driver returns. */
module Wrappers {

  datatype Errno =
    | EINVAL | ENOMEM | ENOSPC | ENOENT | ENODEV | EBUSY | EALREADY | EMSGSIZE
    | ESHUTDOWN | EIDRM | EAGAIN | EOPNOTSUPP | EPIPE | EFAULT

  datatype Option<+T> = None | Some(value: T)

  datatype Result<+T> = Success(value: T) | Failure(error: Errno)

  /** The error code a call returns, if any. */
  function ErrorOf<T>(r: Result<T>): Option<Errno> {
    match r
    case Success(_) => None
    case Failure(e) => Some(e)
  }
}
