/** The negative errno values that the camera code returns. */
module Errno {
  /** Zero or a negated errno. */
  type Code = c: int | -4096 < c <= 0

  const EINTR := -4
  const EIO := -5
  const EAGAIN := -11
  const ENOMEM := -12
  const EBUSY := -16
  const EINVAL := -22
  const ENOSPC := -28
  const ERANGE := -34
  const ENOMSG := -42
  const EPROTO := -71
  const EMSGSIZE := -90
  const EOPNOTSUPP := -95
  const ENOTCONN := -107
  const ESHUTDOWN := -108
  const ETIMEDOUT := -110
  const EALREADY := -114
  const ESTALE := -116
}
